# Tumblr API client, PHP: a Dafny model of the request builder and the file cache

This project models the core of a small PHP client for the Tumblr API. The model covers two classes.

- `Tumblr` (`tumblr.dfy`) has four parts.
  - The constructor. It takes the explicit `(email, password, hostname)` triple when all three values are truthy in PHP's sense. Otherwise it uses the `TUMBLR_*` constants, and it throws when those are not all defined.
  - Property access (`__get`). Each access builds a new object whose segment list gains one lower-cased name.
  - The terminal call (`__call`). It turns the segments, the action name, the output format, the auth flag and the arguments into a URL and a form body.
  - The result logic of `request`. In test mode it returns the URL. Otherwise it sends a POST in auth mode and a GET otherwise, then maps the status: 200 gives the parsed body, 404 gives "Not Found", anything else gives the raw body. Every path that returns clears the auth flag.
- `TumblrCache` (`tumblr_cache.dfy`) has four parts.
  - Its constructor defaults.
  - `cache_mode`, including PHP's loose `!= null` tests and the eager directory check.
  - The `__get` override that passes the cache settings on.
  - The `request` override. A cache file is named after the md5 of url and body. It is served while its age is below the ttl. It is written only for a status starting with `2`, into a `_tmp` file that is then renamed over the final name.

Supporting modules:

- `strings.dfy`: `strtolower`, `implode`/`explode`, and the decimal form of a status code.
- `form_encoding.dfy`: `array_merge` and `http_build_query` on flat string arrays, with an independent decoder as partner.
- `wrappers.dfy`: `Option`, `Result`, and the exceptions.

Each PHP object is an immutable record. A method that mutates `$this` returns the updated record instead.

The following are parameters rather than modelled code:

- the HTTP transport: a function from the request handed to RequestCore to its response, plus a flag for whether RequestCore is loaded;
- the XML parser, which may reject its input;
- whether a parsed value is an object or array, which decides whether the headers can be attached to it;
- percent-encoding;
- md5;
- the clock;
- the `is_dir`/`is_writable` probe.

The cache directory is a `map` from file name to entry (payload and mtime).

Behaviour modelled as the code has it:

- `auth_hostname` is a PHP reference to `hostname`, so auth requests go to the same host (`Tumblr.AuthHostname`, `Tumblr.SetHostname`).
- `__get` does not pass the output format on: every derived object starts at `xml`.
- `__get` re-runs the constructor with the receiver's three credentials, so a hostname given to `set_hostname` survives property access only when the email and password are both truthy. Otherwise, as with the sample configuration's empty `TUMBLR_EMAIL` and `TUMBLR_PASSWORD`, the new object takes all three constants and `$t->set_hostname('x'); $t->posts->read()` goes to `TUMBLR_HOSTNAME` (`Tumblr.SetHostnameLostOnAccess`).
- The auth reset after a call clears the flag only on the object that made the call. Property access builds a new object each time, so after `$t->auth_mode()` both `$t->posts->write(a)` and `$t->posts->write(b)` POST the credentials; the one-shot of `Tumblr.AuthOneShot` applies to repeated calls on one object.
- `TumblrCache::__get` does not pass auth mode on.
- `TumblrCache::request` always parses the body, whatever the status. It never sends a POST or a body, and it never clears auth mode. An auth-mode call through the cache class therefore sends a bare GET, and the credentials only reach the cache key (`TumblrCache.AuthCallSendsNoCredentials`).
- `cache_mode` treats a ttl of `0` and a path of `""` as "not given", because `0 != null` and `"" != null` are both false in PHP.
- The client has no API-version segment, no oEmbed special case, no per-call login argument, and no stripping of control keys from the arguments. The only way into auth mode is `auth_mode()` or `_login()`.
- The constructor's explicit branch and the `TumblrCache` constructor's argument order are defects; see Findings. Property access in the model uses the corrected constructors; `Tumblr.GetAsWritten` models it over the constructor as written.

## Model

| member | source | states |
|---|---|---|
| `Tumblr.New` | tumblr.class.php:140-176 | The explicit triple is used exactly when all three values are truthy (not null, "" or "0"). Otherwise the three constants are used when all are defined. Otherwise construction fails with the credentials exception. A new object has xml output and test and auth mode off. |
| `Tumblr.NewKeepsCredentials` | tumblr.class.php:153-167 | Every object the corrected constructor builds can be rebuilt from its own credentials with nothing lost. |
| `Tumblr.SetTestMode` | tumblr.class.php:210-214 | Records the test flag and changes nothing else. |
| `Tumblr.SetAuthMode` | tumblr.class.php:229-233 | Records the auth flag and changes nothing else. |
| `Tumblr.Login` | tumblr.class.php:235-240 | Switches auth mode on and changes nothing else. |
| `Tumblr.NewAsWritten` | tumblr.class.php:140-176 | No contract; the constructor as written. See `Tumblr.ExplicitCredentialsLost`, `Tumblr.GetAsWritten` and `Tumblr.ConstantsHostLostOnAccess`. |
| `Tumblr.ExplicitCredentialsLost` | tumblr.class.php:153-158 | As written, an explicit triple leaves the hostname null and the password replaced, so the endpoint has an empty host (`http:///api/...`). |
| `Tumblr.SetHostname` | tumblr.class.php:192-195 | Setting the hostname also retargets auth requests, because `auth_hostname` is a reference to it. Nothing else changes. |
| `Tumblr.Get` | tumblr.class.php:249-263 | Over the corrected constructor, property access appends exactly one lower-cased name after the old segments, unchanged. It carries test and auth mode over and resets the output format to xml. On an object whose credentials survive re-instantiation, it never fails and changes nothing else. On any other object it succeeds exactly when the constants are all defined, and then takes all three credentials from the constants; otherwise it throws the credentials exception. |
| `Tumblr.SetHostnameLostOnAccess` | tumblr.class.php:192-195 | When the email and password are not both truthy and the constants are defined, the hostname set by `set_hostname` is replaced by the constant one at the next property access. As written, a property access never keeps a set hostname: the new hostname is null or the constant. |
| `Tumblr.GetAsWritten` | tumblr.class.php:249-263 | Over the constructor as written, property access appends one lower-cased segment, carries test and auth mode, and resets the output format to xml. It fails exactly when the receiver's credentials are not all truthy and the constants are not all defined. When they are all truthy, the new object keeps the email, stores the hostname as its password and has a null hostname. |
| `Tumblr.ConstantsHostLostOnAccess` | tumblr.class.php:153-167 | As written, a client built from truthy constants has the constant hostname, but after one property access its hostname is null and its password is the hostname. `$t->posts->read()` then requests `http:///api/posts/read`. |
| `Tumblr.ExplicitTripleThrowsOnAccess` | tumblr.class.php:153-176 | As written, a client built from an explicit triple with no constants defined throws the credentials exception on its first property access. |
| `Tumblr.GetChainSegments` | tumblr.class.php:249-263 | Over the corrected constructor, a chain of property accesses appends the lower-cased names in access order and never fails. Credentials and modes are kept. |
| `Tumblr.Endpoint` | tumblr.class.php:296 | No contract; the URL without its query string. See `Tumblr.OneSegmentCall`, `Tumblr.PathPrefix`, `Tumblr.FormatSuffix` and `Tumblr.QueryCarriesArguments`. |
| `Tumblr.PathPrefix` | tumblr.class.php:274 | The path part is empty exactly when there are no segments. When there are segments it ends in `/`. |
| `Tumblr.PathPrefixRoundTrip` | tumblr.class.php:274 | When no segment contains `/`, splitting the path part (without its trailing `/`) on `/` gives back the segment list. |
| `Tumblr.FormatSuffix` | tumblr.class.php:276 | The format suffix is empty exactly when the output is `xml`, the constructor's default. Otherwise it is `/` followed by the format. |
| `Tumblr.Compose` | tumblr.class.php:268-302 | Outside auth mode the body is empty. The URL is the endpoint alone when there are no arguments, and the endpoint, `?` and the query otherwise. In auth mode the URL is the endpoint with no query string, and the body is the form encoding of the credentials merged with the arguments. Both modes use `hostname` as the host. |
| `Tumblr.QueryCarriesArguments` | tumblr.class.php:293-302 | After the `?`, a plain call's query string decodes to exactly the caller's arguments, in insertion order. |
| `Tumblr.AuthBodyCarriesCredentials` | tumblr.class.php:282-293 | An auth body decodes to a list that starts with the `email` and `password` keys and repeats no key. Every key the caller gave has the caller's value; otherwise the keys hold the object's credentials. |
| `Tumblr.MapBody` | tumblr.class.php:343-354 | Status 200 gives the parsed body and fails when the parser rejects it. Status 404 gives the literal "Not Found". Any other status gives the raw body unchanged. |
| `Tumblr.Request` | tumblr.class.php:322-367 | Test mode returns exactly the URL and sends nothing. A missing transport throws and sends nothing. Otherwise it sends a POST with the body in auth mode and a body-less GET otherwise, then maps the status. Every path that returns clears auth mode; throwing paths leave it set. Nothing else about the object changes. |
| `Tumblr.Call` | tumblr.class.php:268-306 | No contract; see `Tumblr.TestModeReturnsUrl`, `Tumblr.AuthOneShot`, `Tumblr.LoginPostsCredentials` and `Tumblr.OneSegmentCall`. |
| `Tumblr.TestModeReturnsUrl` | tumblr.class.php:364-366 | A call in test mode returns the composed URL, sends nothing, and leaves auth mode off. |
| `Tumblr.AuthOneShot` | tumblr.class.php:331-356 | A completed auth-mode call POSTs the merged credentials. The next call on the same object is a GET with an empty body. |
| `Tumblr.LoginPostsCredentials` | tumblr.class.php:235-240 | After `_login()` the next call POSTs the credentials merged with the arguments to the endpoint. |
| `Tumblr.OneSegmentCall` | tumblr.class.php:249-306 | For any host, sub-resource, action and single argument, a fresh test-mode client with the credentials the corrected constructor stores that accesses the sub-resource and then calls the action returns `http://<host>/api/<sub-resource>/<action>?<key>=<value>`. Both names are lower-cased and the key and value are percent-encoded; with `posts`, `read` and `tag=cats` this is `.../api/posts/read?tag=cats`. |
| `FormEncoding.Put` | tumblr.class.php:287 | One `array_merge` step keeps every existing key in its position and appends a new key at the end. Afterwards the key reads the new value and every other key reads as before. |
| `FormEncoding.PutDistinct` | tumblr.class.php:287 | One `array_merge` step never introduces a repeated key. |
| `FormEncoding.Merge` | tumblr.class.php:287 | No contract; see `FormEncoding.MergeLookup` and `FormEncoding.MergeShape`. |
| `FormEncoding.MergeLookup` | tumblr.class.php:287 | In the merge, a key the caller gave has the caller's value, and any other key has the default's value. |
| `FormEncoding.MergeShape` | tumblr.class.php:287 | The merge keeps the default keys first, in order, adds at most the caller's pairs, and repeats no key. |
| `FormEncoding.Encode` | tumblr.class.php:293 | No contract; see `FormEncoding.EncodeEmpty` and `FormEncoding.DecodeEncode`. |
| `FormEncoding.EncodeEmpty` | tumblr.class.php:293-300 | The encoded query is empty, or PHP-`empty`, exactly when there are no arguments. |
| `FormEncoding.DecodeEncode` | tumblr.class.php:293 | When the percent-encoder avoids `&` and `=` and has an inverse, decoding the encoded arguments gives back the same pairs in the same order. |
| `Strings.ToLower` | tumblr.class.php:255 | Lower-casing maps every character by itself: `A`-`Z` become `a`-`z` and every other character is kept. The length is kept and no upper-case letter is left. |
| `Strings.SplitJoin` | tumblr.class.php:274 | Splitting an `implode` on its separator gives back the parts when no part holds the separator. |
| `Strings.DecimalStartsWithLeadingDigit` | tumblrcache.class.php:220 | The first character of a status code's decimal form is its most significant digit. |
| `TumblrCache.New` | tumblrcache.class.php:63-72 | A new cache object has caching off, a ttl of 3600, the path `./cache/` and header mode off, and its output format is xml. Its credentials are the explicit triple, with the arguments in their documented roles, when all three are truthy. Otherwise they are the three constants when all are defined. Otherwise construction fails. |
| `TumblrCache.NewAsWritten` | tumblrcache.class.php:63-72 | No contract; the constructor as written. See `TumblrCache.ArgumentsRotated`. |
| `TumblrCache.ArgumentsRotated` | tumblrcache.class.php:63-72 | As written, `new TumblrCache(hostname, email, password)` stores the hostname as the email and loses the hostname. |
| `TumblrCache.CacheMode` | tumblrcache.class.php:93-108 | The enabled flag is always recorded. The ttl and the path are replaced only when given in PHP's loose sense. An error occurs exactly when caching is being enabled and the resulting directory is unusable. Disabling never fails. |
| `TumblrCache.HeaderMode` | tumblrcache.class.php:123-127 | Records the header flag and changes nothing else. |
| `TumblrCache.WellFormedPreserved` | tumblrcache.class.php:97-103 | The constructor and `cache_mode` never produce a ttl of 0 or an empty path, so property access can pass both on. |
| `TumblrCache.Get` | tumblrcache.class.php:136-152 | Property access appends one lower-cased segment. It passes on test mode, caching, ttl, path and header mode, does not pass auth mode, and resets the output to xml. It fails with the credentials exception exactly when the receiver's triple is not all truthy and the constants are not all defined. Otherwise it fails exactly when caching is on and the directory is unusable. A receiver whose credentials survive re-instantiation keeps them, whatever its ttl and path; any other receiver gets all three constants. A ttl of 0 or an empty path falls back to the new object's defaults. |
| `TumblrCache.FileName` | tumblrcache.class.php:186 | No contract; see `TumblrCache.FileNameByHash`. |
| `TumblrCache.FileNameByHash` | tumblrcache.class.php:186 | Two requests share a cache file exactly when the hashes of their url-and-body strings agree. Equal url and body always share a file. |
| `TumblrCache.FreshHit` | tumblrcache.class.php:189 | A file is served exactly when caching is on, the file is present and its age is strictly below the ttl. A hit returns the stored payload. |
| `TumblrCache.StaleIsMiss` | tumblrcache.class.php:189 | A file whose age equals or exceeds the ttl is a miss. |
| `TumblrCache.Store` | tumblrcache.class.php:222-223 | After the temp-then-rename write, the final name holds the whole payload with the write time. No `_tmp` file is left, and every other file is unchanged. |
| `TumblrCache.StoreThenFreshHit` | tumblrcache.class.php:189-223 | A file written at `t` and read at `t'` with `t' - t < ttl` returns the written payload. |
| `TumblrCache.SuccessCodes` | tumblrcache.class.php:220 | For three-digit statuses, "first character is `2`" is exactly the range 200-299. |
| `TumblrCache.Request` | tumblrcache.class.php:180-227 | Test mode echoes url, body and method and touches neither cache nor transport. A fresh file is served with no transport call and no write. On a miss it sends a plain GET exactly when the transport class is loaded, and otherwise throws the missing-transport exception with the cache unchanged. After a send, the reply is an error exactly when the parser rejects the body, and that error is the malformed-response exception; a success holds the parsed body and, in header mode and when the parsed value is an object or array, the headers. An error never changes the cache. The cache changes only with caching on and a status starting with `2`, and then by exactly that write. |
| `TumblrCache.CacheRoundTrip` | tumblrcache.class.php:189-223 | After a cached 2xx fetch at `t`, the same request at `t'` with `t' - t < ttl` returns the same payload, with whatever headers it carried. It makes no transport call and leaves the cache unchanged, whatever the transport would now return. |
| `TumblrCache.StaleRefetched` | tumblrcache.class.php:189-207 | Once the file's age reaches the ttl, the same request goes to the transport again. |
| `TumblrCache.OnlySuccessCached` | tumblrcache.class.php:219-224 | A three-digit status outside 2xx leaves the cache unchanged. |
| `TumblrCache.AuthCallSendsNoCredentials` | tumblrcache.class.php:205-207 | Through the cache class, an auth-mode call sends a body-less GET of the bare endpoint. |
| `TumblrCache.Call` | tumblr.class.php:268-306 | No contract; see `TumblrCache.AuthCallSendsNoCredentials` and `TumblrCache.TestModeEchoes`. |
| `TumblrCache.TestModeEchoes` | tumblrcache.class.php:182-183 | In test mode a call returns the composed url and body with a null method. It makes no cache read or write and no transport call. |

## Left out

- The HTTP transport (RequestCore, the user-agent string, `send_request`) is an external library. It is a parameter from the request handed over to the response; only whether the class is loaded is modelled.
- XML parsing (`SimpleXMLElement`) and `json_encode`/`json_decode` are foreign deserialisers. Parsing is an opaque function that may reject its input, and cache storage is the identity on payloads.
- md5 and percent-encoding are opaque functions. No collision-freedom of the hash is assumed.
- `file_exists`, `filemtime`, `is_dir`, `is_writable` and `time()` are inputs: a map, a probe function and a clock value.
- The atomicity of `rename` across processes is a guarantee of the operating system. Only the sequential effect of the write is modelled.
- The `default_output(...)` call in `TumblrCache::__get` (tumblrcache.class.php:147) is a defect that is not modelled. No such method exists, so PHP would dispatch it to `__call`, and its argument is itself an undefined property that would re-enter `__get`.
- PHP member resolution is not modelled. In the source, property access reaches `__get` only for names that are not accessible properties, and a call reaches `__call` only for names that are not declared methods. `TumblrCache::__get` also reads the parent's private `email`/`password`, which PHP would route back into `__get`. The model takes the segment or action name as given.
- Version and build constants, the `TUMBLR_BUILD` date parsing, the `var_dump` debug line (tumblr.class.php:338), `parse_response`, and the sample configuration file are left out.
- Argument arrays are flat string-to-string arrays with distinct, non-numeric keys. Nested arrays, numeric keys (which `array_merge` renumbers) and null values (which `http_build_query` skips) are left out.
- `Strings.ToLower` models `strtolower` on ASCII letters only, which matches PHP 8.2 and later but not the locale-dependent behaviour of older versions.
- `TumblrCache.Request`: whether a parsed value can take a `_header` field (PHP's `is_object` or `is_array`) is a parameter. Whether the stock `SimpleXMLElement` result accepts an array-valued `_header` property is a matter of the XML extension and is not modelled.
- `TumblrCache.Request`: the stored file's mtime is the clock value read at the freshness check. The real `_tmp` file gets its mtime after the transport returns, so it is at least as fresh; the round trip holds for the real file too.
- The test-mode reply of `Tumblr.Request` is the URL alone. The body of an auth-mode test call is not returned, as in the source.

## Findings

| source | as written | input that shows it | evidently intended | confidence | as-written member | corrected member |
|---|---|---|---|---|---|---|
| tumblr.class.php:155-157 | The explicit-credentials branch assigns the password twice, the second time with the hostname, and never assigns the hostname. | `new Tumblr("me@example.com", "secret", "blog.example.com")` gives password `blog.example.com`, a null hostname and URLs `http:///api/...`; with no constants defined, its first property access throws. Because `__get` re-runs the constructor with the three credentials, a client built from truthy `TUMBLR_*` constants also loses its hostname on `->posts`, and `->posts->read()` requests `http:///api/posts/read`. | Store the password and the hostname as given. | not executed | `Tumblr.NewAsWritten`, `Tumblr.ExplicitCredentialsLost`, `Tumblr.GetAsWritten`, `Tumblr.ConstantsHostLostOnAccess`, `Tumblr.ExplicitTripleThrowsOnAccess` | `Tumblr.New`, `Tumblr.NewKeepsCredentials`, `Tumblr.Get`, `Tumblr.GetChainSegments` |
| tumblrcache.class.php:71 | The constructor takes `(hostname, email, password)` and passes them to a parent that expects `(email, password, hostname)`. | `new TumblrCache("blog.example.com", "me@example.com", "secret")` stores `blog.example.com` as the email and no hostname. | Pass `(email, password, hostname)` to the parent. | not executed | `TumblrCache.NewAsWritten`, `TumblrCache.ArgumentsRotated` | `TumblrCache.New` |
