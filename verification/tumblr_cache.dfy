/**
  The `TumblrCache` subclass: cache configuration, the property-access
  override that passes the cache settings on, and the `request` override
  that reads and writes one cache file per request.

  The cache directory is a map from file name to entry (stored payload and
  modification time); the clock, the hash function (md5), the directory
  probe (`is_dir` and `is_writable`), the transport and the parser are
  parameters.  The JSON round trip of a stored payload is the identity.
 */
module TumblrCache {
  import opened Wrappers
  import opened Strings
  import opened FormEncoding
  import T = Tumblr

  datatype CacheClient = CacheClient(
    base: T.Client,
    enabled: bool,
    ttl: int,
    path: string,
    headerMode: bool)

  const DefaultTtl: int := 3600
  const DefaultPath: string := "./cache/"
  /** What `get_class()` yields inside the class's own method. */
  const ClassName: string := "TumblrCache"

  /** The settings every constructed object starts with. */
  function Defaults(base: T.Client): CacheClient
  {
    CacheClient(base, false, DefaultTtl, DefaultPath, false)
  }

  /**
    The constructor, handing its `(hostname, email, password)` to the parent
    in the parent's own order `(email, password, hostname)`.  A new object has
    caching off, a ttl of 3600 seconds, the `./cache/` directory and header
    mode off; the credentials follow the parent's fallback rule.
   */
  function New(hostname: Option<string>, email: Option<string>, password: Option<string>,
               segments: seq<string>, consts: T.Config): (r: Result<CacheClient>)
    ensures r.Ok? ==> !r.value.enabled && r.value.ttl == DefaultTtl && r.value.path == DefaultPath
                      && !r.value.headerMode
    ensures r.Ok? ==> r.value.base.segments == segments && !r.value.base.testMode && !r.value.base.authMode
    ensures r.Ok? ==> r.value.base.output == T.DefaultOutput
    ensures r.Err? <==> !(Truthy(email) && Truthy(password) && Truthy(hostname)) && !T.AllDefined(consts)
    ensures Truthy(email) && Truthy(password) && Truthy(hostname) ==>
              r.Ok? && Some(r.value.base.email) == email && Some(r.value.base.password) == password
              && r.value.base.hostname == hostname
    ensures !(Truthy(email) && Truthy(password) && Truthy(hostname)) && T.AllDefined(consts) ==>
              r.Ok? && Some(r.value.base.email) == consts.email && Some(r.value.base.password) == consts.password
              && r.value.base.hostname == consts.hostname
  {
    match T.New(email, password, hostname, segments, consts)
    case Err(e) => Err(e)
    case Ok(b) => Ok(Defaults(b))
  }

  /** The constructor as written: the arguments reach the parent rotated (and the parent as written). */
  function NewAsWritten(hostname: Option<string>, email: Option<string>, password: Option<string>,
                        segments: seq<string>, consts: T.Config): Result<CacheClient>
  {
    match T.NewAsWritten(hostname, email, password, segments, consts)
    case Err(e) => Err(e)
    case Ok(b) => Ok(Defaults(b))
  }

  /**
    Built as documented, `new TumblrCache(hostname, email, password)` stores
    the hostname as the email and loses the hostname.
   */
  lemma ArgumentsRotated()
    ensures var r := NewAsWritten(Some("blog.example.com"), Some("me@example.com"), Some("secret"),
                                  [], T.Config(None, None, None));
            && r.Ok? && r.value.base.email == "blog.example.com" && r.value.base.hostname.None?
  {
  }

  /** `$ttl != null` in PHP: a missing ttl and a ttl of 0 both count as null. */
  predicate GivesTtl(ttl: Option<int>)
  {
    ttl.Some? && ttl.value != 0
  }

  /** `$path != null` in PHP: a missing path and the empty path both count as null. */
  predicate GivesPath(path: Option<string>)
  {
    path.Some? && path.value != ""
  }

  /** What `cache_mode` leaves behind: the object (updated even when it throws) and the exception. */
  datatype Configured = Configured(client: CacheClient, error: Option<Error>)

  /**
    `cache_mode($enabled, $ttl, $path)`: always records `enabled`, replaces
    the ttl and the path only when given (in PHP's loose sense), and then, if
    caching is on, throws when the directory is not a writable directory.
    Switching caching off never throws.
   */
  function CacheMode(cc: CacheClient, enabled: bool, ttl: Option<int>, path: Option<string>,
                     usable: string -> bool): (r: Configured)
    ensures r.client.enabled == enabled
    ensures r.client.ttl == (if GivesTtl(ttl) then ttl.value else cc.ttl)
    ensures r.client.path == (if GivesPath(path) then path.value else cc.path)
    ensures r.client.base == cc.base && r.client.headerMode == cc.headerMode
    ensures r.error.Some? <==> enabled && !usable(r.client.path)
    ensures r.error.Some? ==> r.error.value == CacheDirUnusable
  {
    var updated := cc.(enabled := enabled,
                       ttl := if GivesTtl(ttl) then ttl.value else cc.ttl,
                       path := if GivesPath(path) then path.value else cc.path);
    if enabled && !usable(updated.path) then Configured(updated, Some(CacheDirUnusable))
    else Configured(updated, None)
  }

  /** `header_mode($enabled)`. */
  function HeaderMode(cc: CacheClient, enabled: bool): (r: CacheClient)
    ensures r.headerMode == enabled && r.(headerMode := cc.headerMode) == cc
  {
    cc.(headerMode := enabled)
  }

  /** A ttl and a path that `cache_mode` can pass on unchanged. */
  predicate WellFormed(cc: CacheClient)
  {
    cc.ttl != 0 && cc.path != ""
  }

  /** Every object the constructor and `cache_mode` produce is well formed. */
  lemma WellFormedPreserved(cc: CacheClient, enabled: bool, ttl: Option<int>, path: Option<string>,
                            usable: string -> bool, hostname: Option<string>, email: Option<string>,
                            password: Option<string>, segments: seq<string>, consts: T.Config)
    ensures New(hostname, email, password, segments, consts).Ok? ==>
              WellFormed(New(hostname, email, password, segments, consts).value)
    ensures WellFormed(cc) ==> WellFormed(CacheMode(cc, enabled, ttl, path, usable).client)
  {
  }

  /**
    `__get($var)`: a new object with one more lower-cased segment, built by
    the constructor from the receiver's credentials, with test mode, the cache
    settings and header mode passed on (through `cache_mode`, which may throw).
    Auth mode is not passed on, and the output format starts again at xml.
   */
  function Get(cc: CacheClient, name: string, consts: T.Config, usable: string -> bool): (r: Result<CacheClient>)
    ensures r.Ok? ==> r.value.base.segments == cc.base.segments + [ToLower(name)]
    ensures r.Ok? ==> r.value.base.testMode == cc.base.testMode && !r.value.base.authMode
                      && r.value.base.output == T.DefaultOutput
    ensures r.Ok? ==> r.value.enabled == cc.enabled && r.value.headerMode == cc.headerMode
    ensures r.Ok? && WellFormed(cc) ==> r.value.ttl == cc.ttl && r.value.path == cc.path
    ensures var credentials := || (Truthy(Some(cc.base.email)) && Truthy(Some(cc.base.password))
                                   && Truthy(cc.base.hostname))
                               || T.AllDefined(consts);
            var path := if cc.path != "" then cc.path else DefaultPath;
            && (r.Err? <==> !credentials || (cc.enabled && !usable(path)))
            && (!credentials ==> r == Err(NoCredentials))
            && (credentials && r.Err? ==> r.error == CacheDirUnusable)
    ensures r.Ok? ==> r.value.ttl == (if cc.ttl != 0 then cc.ttl else DefaultTtl)
                      && r.value.path == (if cc.path != "" then cc.path else DefaultPath)
    ensures r.Ok? && !T.Consistent(cc.base, consts) ==>
              && Some(r.value.base.email) == consts.email && Some(r.value.base.password) == consts.password
              && r.value.base.hostname == consts.hostname
    ensures r.Ok? && T.Consistent(cc.base, consts) ==>
              && r.value.base.email == cc.base.email && r.value.base.password == cc.base.password
              && r.value.base.hostname == cc.base.hostname
    ensures T.Consistent(cc.base, consts) && WellFormed(cc) ==>
              && (r.Ok? <==> !cc.enabled || usable(cc.path))
              && (r.Err? ==> r.error == CacheDirUnusable)
  {
    var segments := cc.base.segments + [ToLower(name)];
    match New(cc.base.hostname, Some(cc.base.email), Some(cc.base.password), segments, consts)
    case Err(e) => Err(e)
    case Ok(v) =>
      var v1 := v.(base := T.SetTestMode(v.base, cc.base.testMode));
      var applied := CacheMode(v1, cc.enabled, Some(cc.ttl), Some(cc.path), usable);
      if applied.error.Some? then Err(applied.error.value)
      else Ok(HeaderMode(applied.client, cc.headerMode))
  }

  /** The cache file of a request: directory, class name, `_`, the hash of url and body, `.cache`. */
  function FileName(path: string, url: string, body: string, hash: string -> string): string
  {
    path + ClassName + "_" + hash(url + body) + ".cache"
  }

  /**
    Two requests share a cache file exactly when the hashes of their
    url-and-body strings agree; in particular equal url and body always do.
   */
  lemma FileNameByHash(path: string, u1: string, b1: string, u2: string, b2: string, hash: string -> string)
    ensures FileName(path, u1, b1, hash) == FileName(path, u2, b2, hash) <==> hash(u1 + b1) == hash(u2 + b2)
  {
    var pre := path + ClassName + "_";
    var h1 := hash(u1 + b1);
    var h2 := hash(u2 + b2);
    var n1 := FileName(path, u1, b1, hash);
    var n2 := FileName(path, u2, b2, hash);
    assert n1 == pre + h1 + ".cache";
    assert n2 == pre + h2 + ".cache";
    if n1 == n2 {
      assert |h1| == |h2|;
      assert h1 == n1[|pre|..|pre| + |h1|];
      assert h2 == n2[|pre|..|pre| + |h2|];
    }
  }

  type Headers = T.Headers

  /** A parsed response, with the `_header` field when header mode attached it. */
  datatype Doc<D> = Doc(value: D, header: Option<Headers>)

  /** One cache file: its JSON contents read back, and its modification time. */
  datatype Entry<D> = Entry(payload: Doc<D>, mtime: int)

  type Dir<D> = map<string, Entry<D>>

  /**
    The freshness check: a stored payload is served only with caching on,
    the file present, and its age strictly below the ttl.
   */
  function FreshHit<D>(cc: CacheClient, dir: Dir<D>, name: string, now: int): (r: Option<Doc<D>>)
    ensures r.Some? <==> cc.enabled && name in dir && now - dir[name].mtime < cc.ttl
    ensures r.Some? ==> r.value == dir[name].payload
  {
    if cc.enabled && name in dir && now - dir[name].mtime < cc.ttl then Some(dir[name].payload) else None
  }

  /** A file whose age has reached the ttl is a miss, however it got there. */
  lemma StaleIsMiss<D>(cc: CacheClient, dir: Dir<D>, name: string, now: int)
    requires name in dir && now - dir[name].mtime >= cc.ttl
    ensures FreshHit(cc, dir, name, now).None?
  {
  }

  function TmpName(name: string): string
  {
    name + "_tmp"
  }

  /**
    The write: put the payload into `name_tmp` (its mtime is the write time),
    then rename it over `name`.  Afterwards `name` holds the whole payload,
    no `_tmp` file is left, and every other file is as it was.
   */
  function Store<D>(dir: Dir<D>, name: string, payload: Doc<D>, now: int): (r: Dir<D>)
    ensures name in r && r[name] == Entry(payload, now)
    ensures TmpName(name) !in r
    ensures r.Keys == dir.Keys - {TmpName(name)} + {name}
    ensures forall k :: k in dir && k != name && k != TmpName(name) ==> r[k] == dir[k]
  {
    var tmp := TmpName(name);
    assert tmp != name by { assert |tmp| == |name| + 4; }
    var staged := dir[tmp := Entry(payload, now)];
    (staged - {tmp})[name := staged[tmp]]
  }

  /** Reading a freshly written file before its ttl runs out gives the payload back. */
  lemma StoreThenFreshHit<D>(cc: CacheClient, dir: Dir<D>, name: string, payload: Doc<D>, t: int, t': int)
    requires cc.enabled && t' - t < cc.ttl
    ensures FreshHit(cc, Store(dir, name, payload, t), name, t') == Some(payload)
  {
  }

  /** `substr($code, 0, 1) == '2'`: the status code, written in decimal, starts with 2. */
  predicate IsSuccessCode(status: nat)
  {
    Decimal(status)[0] == '2'
  }

  /** For three-digit statuses the leading-`2` test is exactly the 2xx range. */
  lemma SuccessCodes(status: nat)
    requires 100 <= status <= 999
    ensures IsSuccessCode(status) <==> 200 <= status <= 299
  {
    DecimalStartsWithLeadingDigit(status);
    assert LeadingDigit(status) == LeadingDigit(status / 10) == status / 100;
    var d := status / 100;
    assert "0123456789"[2] == '2';
    assert DigitChar(d) == '2' <==> d == 2;
  }

  /** `request` returns the request itself in test mode and the payload otherwise. */
  datatype CacheReply<D> = Echo(url: string, body: string, verb: Option<T.Method>) | Payload(doc: Doc<D>)

  /** The result, the cache directory afterwards, and the request sent, if any. */
  datatype Served<D> = Served(reply: Result<CacheReply<D>>, dir: Dir<D>, sent: Option<T.Wire>)

  /**
    `request($url, $body, $method)`.  In test mode it echoes its arguments and
    touches neither the cache nor the transport.  Otherwise a fresh cache file
    is served without a transport call.  On a miss it sends a plain GET of the
    URL, parses the body whatever the status, attaches the headers in header
    mode when the parsed value can take a `_header` field (`attachable`,
    PHP's `is_object` or `is_array`), and writes the result to the cache only
    with caching on and a status that starts with 2.
   */
  function Request<D>(cc: CacheClient, url: string, body: string, verb: Option<T.Method>, dir: Dir<D>,
                      now: int, hash: string -> string, loaded: bool,
                      send: T.Wire -> T.HttpResponse, parse: string -> Option<D>, attachable: D -> bool): (r: Served<D>)
    ensures cc.base.testMode ==> r.reply == Ok(Echo(url, body, verb)) && r.dir == dir && r.sent.None?
    ensures var hit := FreshHit(cc, dir, FileName(cc.path, url, body, hash), now);
            !cc.base.testMode && hit.Some? ==> r.reply == Ok(Payload(hit.value)) && r.dir == dir && r.sent.None?
    ensures r.sent.Some? ==> r.sent.value == T.Wire(url, T.GET, "")
    ensures r.sent.Some? && r.reply.Ok? ==>
              && r.reply.value.Payload?
              && Some(r.reply.value.doc.value) == parse(send(r.sent.value).body)
              && r.reply.value.doc.header
                 == (if cc.headerMode && attachable(r.reply.value.doc.value) then Some(send(r.sent.value).header) else None)
    ensures r.dir != dir ==>
              && cc.enabled && r.sent.Some? && IsSuccessCode(send(r.sent.value).status) && r.reply.Ok?
              && r.dir == Store(dir, FileName(cc.path, url, body, hash), r.reply.value.doc, now)
    ensures r.sent.Some? && r.reply.Ok? && cc.enabled && IsSuccessCode(send(r.sent.value).status) ==>
              r.dir == Store(dir, FileName(cc.path, url, body, hash), r.reply.value.doc, now)
    ensures var hit := FreshHit(cc, dir, FileName(cc.path, url, body, hash), now);
            !cc.base.testMode && hit.None? ==>
              && (r.sent.Some? <==> loaded)
              && (!loaded ==> r.reply == Err(MissingTransport) && r.dir == dir)
    ensures r.sent.Some? ==> (r.reply.Err? <==> parse(send(r.sent.value).body).None?)
    ensures r.sent.Some? && r.reply.Err? ==> r.reply.error == MalformedResponse
    ensures r.reply.Err? ==> r.dir == dir
  {
    if cc.base.testMode then Served(Ok(Echo(url, body, verb)), dir, None)
    else
      var name := FileName(cc.path, url, body, hash);
      match FreshHit(cc, dir, name, now)
      case Some(doc) => Served(Ok(Payload(doc)), dir, None)
      case None =>
        if !loaded then Served(Err(MissingTransport), dir, None)
        else
          var wire := T.Wire(url, T.GET, "");
          var resp := send(wire);
          match parse(resp.body)
          case None => Served(Err(MalformedResponse), dir, Some(wire))
          case Some(d) =>
            var doc := Doc(d, if cc.headerMode && attachable(d) then Some(resp.header) else None);
            var dir' := if cc.enabled && IsSuccessCode(resp.status) then Store(dir, name, doc, now) else dir;
            Served(Ok(Payload(doc)), dir', Some(wire))
  }

  /**
    Round trip: after a request that fetched a 2xx response with caching on
    at time `t`, the same url and body at any `t'` with `t' - t < ttl` are
    served the same payload (with whatever headers it carried) from the
    cache, whatever the transport would now say, and the cache is left alone.
   */
  lemma CacheRoundTrip<D>(cc: CacheClient, url: string, body: string, verb: Option<T.Method>, dir: Dir<D>,
                          t: int, t': int, hash: string -> string, send: T.Wire -> T.HttpResponse,
                          parse: string -> Option<D>, loaded': bool, send': T.Wire -> T.HttpResponse,
                          parse': string -> Option<D>, attachable: D -> bool)
    requires !cc.base.testMode && cc.enabled
    requires Request(cc, url, body, verb, dir, t, hash, true, send, parse, attachable).sent.Some?
    requires Request(cc, url, body, verb, dir, t, hash, true, send, parse, attachable).reply.Ok?
    requires IsSuccessCode(send(T.Wire(url, T.GET, "")).status)
    requires t' - t < cc.ttl
    ensures var first := Request(cc, url, body, verb, dir, t, hash, true, send, parse, attachable);
            var second := Request(cc, url, body, verb, first.dir, t', hash, loaded', send', parse', attachable);
            && second.reply == first.reply && second.sent.None? && second.dir == first.dir
  {
    var first := Request(cc, url, body, verb, dir, t, hash, true, send, parse, attachable);
    var name := FileName(cc.path, url, body, hash);
    StoreThenFreshHit(cc, dir, name, first.reply.value.doc, t, t');
  }

  /** Once the stored file's age reaches the ttl, the same request goes to the transport again. */
  lemma StaleRefetched<D>(cc: CacheClient, url: string, body: string, verb: Option<T.Method>, dir: Dir<D>,
                          now: int, hash: string -> string, send: T.Wire -> T.HttpResponse,
                          parse: string -> Option<D>, attachable: D -> bool)
    requires !cc.base.testMode
    requires FileName(cc.path, url, body, hash) in dir
    requires now - dir[FileName(cc.path, url, body, hash)].mtime >= cc.ttl
    ensures Request(cc, url, body, verb, dir, now, hash, true, send, parse, attachable).sent == Some(T.Wire(url, T.GET, ""))
  {
    StaleIsMiss(cc, dir, FileName(cc.path, url, body, hash), now);
  }

  /** A response with a three-digit status outside 2xx never changes the cache. */
  lemma OnlySuccessCached<D>(cc: CacheClient, url: string, body: string, verb: Option<T.Method>, dir: Dir<D>,
                             now: int, hash: string -> string, loaded: bool,
                             send: T.Wire -> T.HttpResponse, parse: string -> Option<D>, attachable: D -> bool)
    requires var s := send(T.Wire(url, T.GET, "")).status; 100 <= s <= 999 && !(200 <= s <= 299)
    ensures Request(cc, url, body, verb, dir, now, hash, loaded, send, parse, attachable).dir == dir
  {
    SuccessCodes(send(T.Wire(url, T.GET, "")).status);
  }

  /**
    A terminal call on a cache object: the parent composes, then this class's
    `request` runs with no method argument.  The override neither clears
    auth mode nor sends a POST.
   */
  function Call<D>(cc: CacheClient, action: string, args: Params, enc: string -> string, dir: Dir<D>,
                   now: int, hash: string -> string, loaded: bool,
                   send: T.Wire -> T.HttpResponse, parse: string -> Option<D>, attachable: D -> bool): Served<D>
  {
    var q := T.Compose(cc.base, action, args, enc);
    Request(cc, q.url, q.body, None, dir, now, hash, loaded, send, parse, attachable)
  }

  /**
    Through the cache class an auth-mode call sends a body-less GET of the
    bare endpoint: the credentials and arguments only reach the cache key.
   */
  lemma AuthCallSendsNoCredentials<D>(cc: CacheClient, action: string, args: Params, enc: string -> string,
                                      dir: Dir<D>, now: int, hash: string -> string,
                                      send: T.Wire -> T.HttpResponse, parse: string -> Option<D>, attachable: D -> bool)
    requires cc.base.authMode
    requires Call(cc, action, args, enc, dir, now, hash, true, send, parse, attachable).sent.Some?
    ensures Call(cc, action, args, enc, dir, now, hash, true, send, parse, attachable).sent
            == Some(T.Wire(T.Endpoint(cc.base.hostname, cc.base.segments, action, cc.base.output), T.GET, ""))
  {
  }

  /** In test mode a call returns the composed url and body with a null method. */
  lemma TestModeEchoes<D>(cc: CacheClient, action: string, args: Params, enc: string -> string, dir: Dir<D>,
                          now: int, hash: string -> string, loaded: bool,
                          send: T.Wire -> T.HttpResponse, parse: string -> Option<D>, attachable: D -> bool)
    requires cc.base.testMode
    ensures var q := T.Compose(cc.base, action, args, enc);
            var r := Call(cc, action, args, enc, dir, now, hash, loaded, send, parse, attachable);
            r.reply == Ok(Echo(q.url, q.body, None)) && r.dir == dir && r.sent.None?
  {
  }
}
