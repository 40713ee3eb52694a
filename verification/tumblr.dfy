/**
  The `Tumblr` client class: credential fallback at construction, the
  property-access path builder, the terminal-call request composer, and the
  result logic of `request`.

  A PHP object is modelled as an immutable `Client` record; each method that
  mutates `$this` returns the updated record instead.  The HTTP transport
  (RequestCore) is a function from the request handed to it to its response,
  and the XML parser is an opaque function that may reject its input.
 */
module Tumblr {
  import opened Wrappers
  import opened Strings
  import opened FormEncoding

  /** The three configuration constants `TUMBLR_EMAIL`, `TUMBLR_PASSWORD`, `TUMBLR_HOSTNAME`; `None` when not defined. */
  datatype Config = Config(email: Option<string>, password: Option<string>, hostname: Option<string>)

  predicate AllDefined(k: Config)
  {
    k.email.Some? && k.password.Some? && k.hostname.Some?
  }

  /**
    One client object.  `hostname` may be null; `authHostname` is not a
    separate field because the constructor makes it a PHP reference to
    `hostname`, so it always reads the same value (see `AuthHostname`).
   */
  datatype Client = Client(
    email: string,
    password: string,
    hostname: Option<string>,
    segments: seq<string>,
    output: string,
    testMode: bool,
    authMode: bool)

  const DefaultOutput: string := "xml"

  /** `$this->auth_hostname`, a reference to `$this->hostname`. */
  function AuthHostname(c: Client): Option<string>
  {
    c.hostname
  }

  /** A freshly constructed object: xml output, test and auth mode off. */
  function Fresh(email: string, password: string, hostname: Option<string>, segments: seq<string>): Client
  {
    Client(email, password, hostname, segments, DefaultOutput, false, false)
  }

  /**
    The constructor with the explicit-credentials branch storing what it is
    given.  The explicit triple wins when all three values are truthy;
    otherwise all three constants must be defined; otherwise it throws.
   */
  function New(email: Option<string>, password: Option<string>, hostname: Option<string>,
               segments: seq<string>, consts: Config): (r: Result<Client>)
    ensures r.Err? <==> !(Truthy(email) && Truthy(password) && Truthy(hostname)) && !AllDefined(consts)
    ensures r.Err? ==> r.error == NoCredentials
    ensures r.Ok? ==> r.value.segments == segments && r.value.output == DefaultOutput
                      && !r.value.testMode && !r.value.authMode
    ensures Truthy(email) && Truthy(password) && Truthy(hostname) ==>
              r.Ok? && Some(r.value.email) == email && Some(r.value.password) == password
              && r.value.hostname == hostname
    ensures !(Truthy(email) && Truthy(password) && Truthy(hostname)) && AllDefined(consts) ==>
              r.Ok? && Some(r.value.email) == consts.email && Some(r.value.password) == consts.password
              && r.value.hostname == consts.hostname
  {
    if Truthy(email) && Truthy(password) && Truthy(hostname) then
      Ok(Fresh(email.value, password.value, hostname, segments))
    else if AllDefined(consts) then
      Ok(Fresh(consts.email.value, consts.password.value, consts.hostname, segments))
    else
      Err(NoCredentials)
  }

  /**
    The constructor as written: the explicit branch assigns the password
    twice, the second time with the hostname, and never assigns the hostname.
   */
  function NewAsWritten(email: Option<string>, password: Option<string>, hostname: Option<string>,
                        segments: seq<string>, consts: Config): Result<Client>
  {
    if Truthy(email) && Truthy(password) && Truthy(hostname) then
      Ok(Fresh(email.value, hostname.value, None, segments))
    else if AllDefined(consts) then
      Ok(Fresh(consts.email.value, consts.password.value, consts.hostname, segments))
    else
      Err(NoCredentials)
  }

  /**
    With an explicit triple the written constructor loses the hostname and the
    password, so every URL it composes has an empty host.
   */
  lemma ExplicitCredentialsLost(email: string, password: string, hostname: string, consts: Config)
    requires Truthy(Some(email)) && Truthy(Some(password)) && Truthy(Some(hostname))
    requires password != hostname
    ensures var r := NewAsWritten(Some(email), Some(password), Some(hostname), [], consts);
            && r.Ok? && r.value.hostname.None? && r.value.password != password
            && Endpoint(r.value.hostname, [], "read", r.value.output) == "http:///api/read"
  {
  }

  /**
    The corrected constructor keeps the triple: every client it builds is
    `Consistent`, that is, rebuilding it from its own credentials (as property
    access does) reproduces them.
   */
  lemma NewKeepsCredentials(email: Option<string>, password: Option<string>, hostname: Option<string>,
                            segments: seq<string>, consts: Config)
    requires New(email, password, hostname, segments, consts).Ok?
    ensures Consistent(New(email, password, hostname, segments, consts).value, consts)
  {
  }

  /** The credentials of `c` survive re-instantiation through `New`. */
  predicate Consistent(c: Client, consts: Config)
  {
    || (Truthy(Some(c.email)) && Truthy(Some(c.password)) && Truthy(c.hostname))
    || (AllDefined(consts) && Some(c.email) == consts.email && Some(c.password) == consts.password
        && c.hostname == consts.hostname)
  }

  /** `set_hostname`; through the reference it retargets auth requests too. */
  function SetHostname(c: Client, hostname: string): (r: Client)
    ensures r.hostname == Some(hostname) && AuthHostname(r) == Some(hostname)
    ensures r.(hostname := c.hostname) == c
  {
    c.(hostname := Some(hostname))
  }

  /** `test_mode($enabled)`. */
  function SetTestMode(c: Client, enabled: bool): (r: Client)
    ensures r.testMode == enabled && r.(testMode := c.testMode) == c
  {
    c.(testMode := enabled)
  }

  /** `auth_mode($enabled)`. */
  function SetAuthMode(c: Client, enabled: bool): (r: Client)
    ensures r.authMode == enabled && r.(authMode := c.authMode) == c
  {
    c.(authMode := enabled)
  }

  /** `_login()`: switches auth mode on and returns the same object. */
  function Login(c: Client): (r: Client)
    ensures r.authMode && r.(authMode := c.authMode) == c
  {
    c.(authMode := true)
  }

  /**
    `__get($var)`: a new object of the same class whose segment list is the
    old one plus the lower-cased name, built by the constructor from the
    receiver's credentials, with test and auth mode passed through.  The
    output format is not passed through: the new object starts at xml.
   */
  function Get(c: Client, name: string, consts: Config): (r: Result<Client>)
    ensures r.Ok? ==> r.value.segments == c.segments + [ToLower(name)]
    ensures r.Ok? ==> r.value.testMode == c.testMode && r.value.authMode == c.authMode
    ensures r.Ok? ==> r.value.output == DefaultOutput
    ensures Consistent(c, consts) ==>
              r.Ok? && r.value == c.(segments := c.segments + [ToLower(name)], output := DefaultOutput)
    ensures r.Ok? ==> Consistent(r.value, consts)
    ensures !Consistent(c, consts) ==>
              && (r.Ok? <==> AllDefined(consts))
              && (r.Err? ==> r.error == NoCredentials)
              && (r.Ok? ==> Some(r.value.email) == consts.email && Some(r.value.password) == consts.password
                            && r.value.hostname == consts.hostname)
  {
    var segments := c.segments + [ToLower(name)];
    match New(Some(c.email), Some(c.password), c.hostname, segments, consts)
    case Err(e) => Err(e)
    case Ok(v) => Ok(v.(testMode := c.testMode, authMode := c.authMode))
  }

  /**
    `__get($var)` over the constructor as written: the re-instantiation passes
    the receiver's three credentials, so the faulty explicit branch runs on
    every property access whose credentials are all truthy.
   */
  function GetAsWritten(c: Client, name: string, consts: Config): (r: Result<Client>)
    ensures r.Ok? ==> r.value.segments == c.segments + [ToLower(name)]
    ensures r.Ok? ==> r.value.testMode == c.testMode && r.value.authMode == c.authMode
    ensures r.Ok? ==> r.value.output == DefaultOutput
    ensures r.Err? <==> !(Truthy(Some(c.email)) && Truthy(Some(c.password)) && Truthy(c.hostname))
                        && !AllDefined(consts)
    ensures Truthy(Some(c.email)) && Truthy(Some(c.password)) && Truthy(c.hostname) ==>
              r.Ok? && r.value.email == c.email && Some(r.value.password) == c.hostname
              && r.value.hostname.None?
    ensures !(Truthy(Some(c.email)) && Truthy(Some(c.password)) && Truthy(c.hostname)) && AllDefined(consts) ==>
              r.Ok? && Some(r.value.email) == consts.email && Some(r.value.password) == consts.password
              && r.value.hostname == consts.hostname
  {
    var segments := c.segments + [ToLower(name)];
    match NewAsWritten(Some(c.email), Some(c.password), c.hostname, segments, consts)
    case Err(e) => Err(e)
    case Ok(v) => Ok(v.(testMode := c.testMode, authMode := c.authMode))
  }

  /**
    As written, a client built from truthy `TUMBLR_*` constants loses its
    hostname on its first property access: the password becomes the hostname
    and `$t->posts->read()` requests `http:///api/posts/read`.
   */
  lemma ConstantsHostLostOnAccess(consts: Config, name: string)
    requires Truthy(consts.email) && Truthy(consts.password) && Truthy(consts.hostname)
    ensures var c := NewAsWritten(None, None, None, [], consts);
            && c.Ok? && c.value.hostname == consts.hostname
            && var v := GetAsWritten(c.value, name, consts);
            && v.Ok? && v.value.hostname.None? && Some(v.value.password) == consts.hostname
            && Endpoint(v.value.hostname, v.value.segments, "read", v.value.output)
               == "http:///api/" + ToLower(name) + "/read"
  {
    var c := NewAsWritten(None, None, None, [], consts).value;
    var v := GetAsWritten(c, name, consts).value;
    assert v.segments == [ToLower(name)];
    assert v.output == DefaultOutput;
    EmptyHostEndpoint(ToLower(name));
  }

  /** With a null hostname and one segment, the endpoint of `read` has an empty host. */
  lemma EmptyHostEndpoint(segment: string)
    ensures Endpoint(None, [segment], "read", DefaultOutput) == "http:///api/" + segment + "/read"
  {
    assert PathPrefix([segment]) == segment + "/";
    assert ToLower("read") == "read";
  }

  /**
    As written, a client built from an explicit triple with no constants
    defined throws on its first property access: its hostname is already
    null, so the re-instantiation finds neither a full triple nor constants.
   */
  lemma ExplicitTripleThrowsOnAccess(email: string, password: string, hostname: string,
                                     name: string, consts: Config)
    requires Truthy(Some(email)) && Truthy(Some(password)) && Truthy(Some(hostname))
    requires !AllDefined(consts)
    ensures var c := NewAsWritten(Some(email), Some(password), Some(hostname), [], consts);
            && c.Ok? && GetAsWritten(c.value, name, consts) == Err(NoCredentials)
  {
  }

  /**
    A hostname given to `set_hostname` does not survive property access when
    the receiver's other credentials are not both truthy (as with the sample
    configuration's empty email and password): the re-run constructor takes
    the constants, hostname included.  As written it never survives: the new
    object's hostname is either null or the constant.
   */
  lemma SetHostnameLostOnAccess(c: Client, hostname: string, name: string, consts: Config)
    ensures !(Truthy(Some(c.email)) && Truthy(Some(c.password))) && AllDefined(consts) ==>
              var r := Get(SetHostname(c, hostname), name, consts);
              r.Ok? && r.value.hostname == consts.hostname
    ensures var r := GetAsWritten(SetHostname(c, hostname), name, consts);
            r.Ok? ==> r.value.hostname.None? || r.value.hostname == consts.hostname
  {
  }

  /** A chain of property accesses `$c->a->b->...`. */
  function GetChain(c: Client, names: seq<string>, consts: Config): Result<Client>
    decreases |names|
  {
    if |names| == 0 then Ok(c)
    else match Get(c, names[0], consts)
      case Err(e) => Err(e)
      case Ok(v) => GetChain(v, names[1..], consts)
  }

  function LowerAll(names: seq<string>): (r: seq<string>)
    ensures |r| == |names|
    ensures forall i :: 0 <= i < |names| ==> r[i] == ToLower(names[i])
  {
    if |names| == 0 then [] else [ToLower(names[0])] + LowerAll(names[1..])
  }

  /**
    On a client whose credentials survive re-instantiation, a chain of
    property accesses never fails, appends the lower-cased names in access
    order and changes nothing else except resetting the output format.
   */
  lemma {:induction false} GetChainSegments(c: Client, names: seq<string>, consts: Config)
    requires Consistent(c, consts)
    ensures GetChain(c, names, consts).Ok?
    ensures var v := GetChain(c, names, consts).value;
            && v.segments == c.segments + LowerAll(names)
            && v.email == c.email && v.password == c.password && v.hostname == c.hostname
            && v.testMode == c.testMode && v.authMode == c.authMode
            && v.output == if |names| == 0 then c.output else DefaultOutput
    decreases |names|
  {
    if |names| > 0 {
      var v := Get(c, names[0], consts).value;
      assert GetChain(c, names, consts) == GetChain(v, names[1..], consts);
      GetChainSegments(v, names[1..], consts);
      assert LowerAll(names) == [ToLower(names[0])] + LowerAll(names[1..]);
    }
  }

  /** The path part: segments joined by `/` with a trailing `/`, or nothing. */
  function PathPrefix(segments: seq<string>): (r: string)
    ensures r == "" <==> |segments| == 0
    ensures |segments| > 0 ==> r[|r| - 1] == '/'
  {
    if |segments| > 0 then Join(segments, '/') + "/" else ""
  }

  /** The path part can be read back into the segment list when no segment holds a `/`. */
  lemma PathPrefixRoundTrip(segments: seq<string>)
    requires |segments| > 0
    requires forall i :: 0 <= i < |segments| ==> '/' !in segments[i]
    ensures var p := PathPrefix(segments); Split(p[..|p| - 1], '/') == segments
  {
    var p := PathPrefix(segments);
    assert p[..|p| - 1] == Join(segments, '/');
    SplitJoin(segments, '/');
  }

  /** The format suffix: nothing for xml, `/` and the format otherwise. */
  function FormatSuffix(output: string): (r: string)
    ensures r == "" <==> output == DefaultOutput
    ensures r != "" ==> r[0] == '/' && r[1..] == output
  {
    if output == DefaultOutput then "" else "/" + output
  }

  /** PHP interpolates a null hostname as the empty string. */
  function HostText(hostname: Option<string>): string
  {
    if hostname.Some? then hostname.value else ""
  }

  /** The URL without its query string. */
  function Endpoint(hostname: Option<string>, segments: seq<string>, action: string, output: string): string
  {
    "http://" + HostText(hostname) + "/api/" + PathPrefix(segments) + ToLower(action) + FormatSuffix(output)
  }

  /** The default arguments of an auth-mode call. */
  function Credentials(c: Client): Params
  {
    [("email", c.email), ("password", c.password)]
  }

  /** The composed request: the URL and the form body handed to `request`. */
  datatype Composed = Composed(url: string, body: string)

  /**
    `__call($name, $args)` up to the call of `request`.  Outside auth mode the
    arguments become the query string (with a `?` only when there are any)
    and the body is empty; in auth mode the credentials merged with the
    arguments become the body and the URL has no query string.  The host is
    `hostname` in both modes.
   */
  function Compose(c: Client, action: string, args: Params, enc: string -> string): (r: Composed)
    ensures !c.authMode ==> r.body == ""
    ensures c.authMode || |args| == 0 ==> r.url == Endpoint(c.hostname, c.segments, action, c.output)
    ensures !c.authMode && |args| > 0 ==>
              r.url == Endpoint(c.hostname, c.segments, action, c.output) + "?" + Encode(args, enc)
    ensures c.authMode ==> r.body == Encode(Merge(Credentials(c), args), enc)
  {
    var params := if c.authMode then Merge(Credentials(c), args) else args;
    var query := Encode(params, enc);
    var hostname := if c.authMode then AuthHostname(c) else c.hostname;
    var url := Endpoint(hostname, c.segments, action, c.output);
    EncodeEmpty(params, enc);
    if c.authMode then Composed(url, query)
    else if !IsEmpty(query) then Composed(url + "?" + query, "")
    else Composed(url, "")
  }

  /**
    The query string of a plain call reads back as the caller's arguments, in
    the caller's order, after the `?` that follows the endpoint.
   */
  lemma QueryCarriesArguments(c: Client, action: string, args: Params,
                              enc: string -> string, dec: string -> string)
    requires !c.authMode && |args| > 0
    requires Inverts(enc, dec)
    ensures var e := Endpoint(c.hostname, c.segments, action, c.output);
            var r := Compose(c, action, args, enc);
            && e + "?" <= r.url
            && Decode(r.url[|e| + 1..], dec) == args
            && r.body == ""
  {
    var e := Endpoint(c.hostname, c.segments, action, c.output);
    var r := Compose(c, action, args, enc);
    assert r.url[|e| + 1..] == Encode(args, enc);
    DecodeEncode(args, enc, dec);
  }

  /**
    An auth-mode body starts with the email and password keys, holds the
    caller's value for every key the caller gave (overriding the defaults)
    and the client's credentials otherwise, and repeats no key.
   */
  lemma AuthBodyCarriesCredentials(c: Client, action: string, args: Params,
                                   enc: string -> string, dec: string -> string)
    requires c.authMode
    requires DistinctKeys(args)
    requires Inverts(enc, dec)
    ensures var body := Decode(Compose(c, action, args, enc).body, dec);
            && |body| >= 2 && body[0].0 == "email" && body[1].0 == "password"
            && DistinctKeys(body)
            && (forall k :: Lookup(args, k).Some? ==> Lookup(body, k) == Lookup(args, k))
            && (Lookup(args, "email").None? ==> Lookup(body, "email") == Some(c.email))
            && (Lookup(args, "password").None? ==> Lookup(body, "password") == Some(c.password))
  {
    var merged := Merge(Credentials(c), args);
    DecodeEncode(merged, enc, dec);
    MergeShape(Credentials(c), args);
    forall k | Lookup(args, k).Some?
      ensures Lookup(merged, k) == Lookup(args, k)
    {
      MergeLookup(Credentials(c), args, k);
    }
    MergeLookup(Credentials(c), args, "email");
    MergeLookup(Credentials(c), args, "password");
  }

  /** The HTTP verbs RequestCore is asked to use. */
  datatype Method = GET | POST

  type Headers = seq<(string, string)>

  /** What is handed to the transport. */
  datatype Wire = Wire(url: string, verb: Method, body: string)

  /** What the transport hands back. */
  datatype HttpResponse = HttpResponse(status: nat, header: Headers, body: string)

  /** The body of a live response: the parsed document, or text. */
  datatype Body<D> = Parsed(doc: D) | Text(text: string)

  datatype Response<D> = Response(header: Headers, status: nat, body: Body<D>)

  /** `request` returns the URL in test mode and a response object otherwise. */
  datatype Reply<D> = UrlOnly(url: string) | Live(response: Response<D>)

  /** The result, the receiver afterwards, and the request sent, if any. */
  datatype Resolved<D> = Resolved(reply: Result<Reply<D>>, after: Client, sent: Option<Wire>)

  const NotFound: string := "Not Found"

  /**
    The body a live response carries: the parsed body on 200, the literal
    "Not Found" on 404 and the raw body on any other status.
   */
  function MapBody<D>(resp: HttpResponse, parse: string -> Option<D>): (r: Result<Body<D>>)
    ensures resp.status == 200 ==>
              (r.Ok? <==> parse(resp.body).Some?) && (r.Ok? ==> r.value == Parsed(parse(resp.body).value))
    ensures resp.status == 404 ==> r == Ok(Text(NotFound))
    ensures resp.status != 200 && resp.status != 404 ==> r == Ok(Text(resp.body))
    ensures r.Err? ==> r.error == MalformedResponse
  {
    if resp.status == 200 then
      match parse(resp.body)
      case None => Err(MalformedResponse)
      case Some(d) => Ok(Parsed(d))
    else if resp.status == 404 then Ok(Text(NotFound))
    else Ok(Text(resp.body))
  }

  /**
    `request($url, $args)`.  In test mode it returns the URL without calling
    the transport.  Otherwise it needs RequestCore, sends a POST carrying the
    body in auth mode and a body-less GET otherwise, and maps the status.
    Every path that returns clears the auth flag of the receiver; the paths
    that throw leave it as it was.  Nothing else about the receiver changes.
   */
  function Request<D>(c: Client, url: string, body: string, loaded: bool,
                      send: Wire -> HttpResponse, parse: string -> Option<D>): (r: Resolved<D>)
    ensures r.after.(authMode := c.authMode) == c
    ensures r.reply.Ok? ==> !r.after.authMode
    ensures r.reply.Err? ==> r.after == c
    ensures c.testMode ==> r.reply == Ok(UrlOnly(url)) && r.sent.None?
    ensures !c.testMode && !loaded ==> r.reply == Err(MissingTransport) && r.sent.None?
    ensures !c.testMode && loaded ==>
              && r.sent == Some(if c.authMode then Wire(url, POST, body) else Wire(url, GET, ""))
              && (var b := MapBody(send(r.sent.value), parse);
                  && (b.Err? ==> r.reply == Err(b.error))
                  && (b.Ok? ==> r.reply == Ok(Live(Response(send(r.sent.value).header,
                                                            send(r.sent.value).status, b.value)))))
  {
    if c.testMode then
      Resolved(Ok(UrlOnly(url)), c.(authMode := false), None)
    else if !loaded then
      Resolved(Err(MissingTransport), c, None)
    else
      var wire := if c.authMode then Wire(url, POST, body) else Wire(url, GET, "");
      var resp := send(wire);
      match MapBody(resp, parse)
      case Err(e) => Resolved(Err(e), c, Some(wire))
      case Ok(b) => Resolved(Ok(Live(Response(resp.header, resp.status, b))), c.(authMode := false), Some(wire))
  }

  /** A terminal call `$c->action($args)`: compose, then request. */
  function Call<D>(c: Client, action: string, args: Params, enc: string -> string,
                   loaded: bool, send: Wire -> HttpResponse, parse: string -> Option<D>): Resolved<D>
  {
    var q := Compose(c, action, args, enc);
    Request(c, q.url, q.body, loaded, send, parse)
  }

  /** In test mode a call returns exactly the composed URL and sends nothing. */
  lemma TestModeReturnsUrl<D>(c: Client, action: string, args: Params, enc: string -> string,
                              loaded: bool, send: Wire -> HttpResponse, parse: string -> Option<D>)
    requires c.testMode
    ensures var r := Call(c, action, args, enc, loaded, send, parse);
            && r.reply == Ok(UrlOnly(Compose(c, action, args, enc).url))
            && r.sent.None? && !r.after.authMode
  {
  }

  /**
    Auth mode is one-shot: a completed auth call POSTs the credentials, and
    the next call on the same object is a GET with no body.
   */
  lemma AuthOneShot<D>(c: Client, a1: string, args1: Params, a2: string, args2: Params,
                       enc: string -> string, send: Wire -> HttpResponse, parse: string -> Option<D>)
    requires c.authMode && !c.testMode
    requires Call(c, a1, args1, enc, true, send, parse).reply.Ok?
    ensures var first := Call(c, a1, args1, enc, true, send, parse);
            var second := Call(first.after, a2, args2, enc, true, send, parse);
            && first.sent == Some(Wire(Endpoint(c.hostname, c.segments, a1, c.output), POST,
                                       Encode(Merge(Credentials(c), args1), enc)))
            && second.sent.Some? && second.sent.value.verb == GET && second.sent.value.body == ""
  {
  }

  /** `_login()` makes the next call a POST of the credentials merged with the arguments. */
  lemma LoginPostsCredentials<D>(c: Client, action: string, args: Params, enc: string -> string,
                                 send: Wire -> HttpResponse, parse: string -> Option<D>)
    requires !c.testMode
    ensures Call(Login(c), action, args, enc, true, send, parse).sent
            == Some(Wire(Endpoint(c.hostname, c.segments, action, c.output), POST,
                         Encode(Merge(Credentials(c), args), enc)))
  {
  }

  /**
    A one-segment call, for any host, sub-resource, action and single
    argument: on a fresh test-mode client built by the corrected constructor,
    `$c->posts->read(['tag' => 'cats'])` returns
    `http://<host>/api/posts/read?tag=cats`.
   */
  lemma OneSegmentCall<D>(email: string, password: string, host: string, name: string, action: string,
                          key: string, value: string, enc: string -> string, consts: Config,
                          send: Wire -> HttpResponse, parse: string -> Option<D>)
    requires Truthy(Some(email)) && Truthy(Some(password)) && Truthy(Some(host))
    ensures var c := Fresh(email, password, Some(host), []).(testMode := true);
            var v := Get(c, name, consts);
            && v.Ok?
            && Call(v.value, action, [(key, value)], enc, true, send, parse).reply
               == Ok(UrlOnly("http://" + host + "/api/" + ToLower(name) + "/" + ToLower(action)
                             + "?" + enc(key) + "=" + enc(value)))
  {
    var c := Fresh(email, password, Some(host), []).(testMode := true);
    var v := Get(c, name, consts).value;
    var args := [(key, value)];
    assert Encode(args, enc) == enc(key) + "=" + enc(value);
    assert PathPrefix(v.segments) == ToLower(name) + "/";
    var e := Endpoint(v.hostname, v.segments, action, v.output);
    assert e == "http://" + host + "/api/" + (ToLower(name) + "/") + ToLower(action) + "";
    Regroup("http://" + host + "/api/", ToLower(name), ToLower(action), enc(key), enc(value));
    TestModeReturnsUrl(v, action, args, enc, true, send, parse);
  }

  /** Moves the parentheses of the composed URL into the shape of the expected one. */
  lemma Regroup(a: string, n: string, x: string, k: string, w: string)
    ensures a + (n + "/") + x + "" + "?" + (k + "=" + w) == a + n + "/" + x + "?" + k + "=" + w
  {
  }
}
