/** The CORS middleware: exact-match origin echo, fixed credential and
    max-age headers, and the preflight short-circuit. */
module Cors {
  import opened Wrappers
  import opened GoStrings
  import opened Http

  datatype CORSConfig = CORSConfig(
    allowedOrigins: seq<string>,
    allowedMethods: seq<string>,
    allowedHeaders: seq<string>,
    exposedHeaders: seq<string>,
    allowCredentials: bool,
    maxAge: int)

  const Methods := ["GET", "POST", "PUT", "DELETE", "OPTIONS", "HEAD"]
  const AllowedHeaderNames := ["Accept", "Accept-Language", "Content-Language", "Content-Type", "Authorization", "X-Requested-With", "Origin"]
  const ExposedHeaderNames := ["Content-Length", "Content-Type"]

  /** `DefaultCORSConfig`: the development origins and the production site,
      with the same lists, credentials and max age as `GetCORSConfig`. */
  function DefaultCORSConfig(): CORSConfig {
    CORSConfig(
      ["http://localhost:3000", "http://localhost:3001", "https://nirvekpandey.com"],
      Methods, AllowedHeaderNames, ExposedHeaderNames, true, 86400)
  }

  /** `joinStrings`: the first element, then `sep` and each further element. */
  method JoinStrings(strs: seq<string>, sep: string) returns (result: string)
    ensures |strs| == 0 ==> result == ""
    ensures result == Join(strs, sep)
  {
    if |strs| == 0 {
      return "";
    }
    result := strs[0];
    var i := 1;
    while i < |strs|
      invariant 1 <= i <= |strs|
      invariant result == Join(strs[..i], sep)
    {
      JoinSnoc(strs[..i], strs[i], sep);
      assert strs[..i] + [strs[i]] == strs[..i + 1];
      result := result + sep + strs[i];
      i := i + 1;
    }
    assert strs[..|strs|] == strs;
  }

  const AllowOrigin := "Access-Control-Allow-Origin"

  /** The headers the middleware leaves on the response, from the header
      map `h` it started with. */
  function CorsHeaders(h: map<string, string>, config: CORSConfig, origin: string): (r: map<string, string>)
    ensures origin in config.allowedOrigins ==> AllowOrigin in r && r[AllowOrigin] == origin
    ensures origin !in config.allowedOrigins ==> (AllowOrigin in r <==> AllowOrigin in h)
                                                 && (AllowOrigin in h ==> r[AllowOrigin] == h[AllowOrigin])
    ensures "Access-Control-Allow-Methods" in r && r["Access-Control-Allow-Methods"] == Join(config.allowedMethods, ", ")
    ensures "Access-Control-Allow-Headers" in r && r["Access-Control-Allow-Headers"] == Join(config.allowedHeaders, ", ")
    ensures "Access-Control-Allow-Credentials" in r && r["Access-Control-Allow-Credentials"] == "true"
    ensures "Access-Control-Max-Age" in r && r["Access-Control-Max-Age"] == "86400"
    ensures forall k :: k in h && k !in CorsHeaderNames ==> k in r && r[k] == h[k]
  {
    var h1 := if origin in config.allowedOrigins then h[AllowOrigin := origin] else h;
    h1["Access-Control-Allow-Methods" := Join(config.allowedMethods, ", ")]
      ["Access-Control-Allow-Headers" := Join(config.allowedHeaders, ", ")]
      ["Access-Control-Allow-Credentials" := "true"]
      ["Access-Control-Max-Age" := "86400"]
  }

  const CorsHeaderNames := {AllowOrigin, "Access-Control-Allow-Methods", "Access-Control-Allow-Headers",
                            "Access-Control-Allow-Credentials", "Access-Control-Max-Age"}

  /** "*" in the allowed origins is an ordinary entry, not a wildcard:
      adding it changes nothing for any other origin. */
  lemma StarIsNotWildcard(h: map<string, string>, config: CORSConfig, origin: string)
    requires origin != "*"
    ensures CorsHeaders(h, config.(allowedOrigins := config.allowedOrigins + ["*"]), origin) == CorsHeaders(h, config, origin)
  {
    assert origin in config.allowedOrigins + ["*"] <==> origin in config.allowedOrigins;
  }

  /** The credential and max-age headers ignore `allowCredentials` and
      `maxAge`. */
  lemma FixedHeadersIgnoreConfig(h: map<string, string>, config: CORSConfig, origin: string, credentials: bool, maxAge: int)
    ensures CorsHeaders(h, config.(allowCredentials := credentials, maxAge := maxAge), origin) == CorsHeaders(h, config, origin)
  {
  }

  /** Under the default configuration the production site is echoed, and an
      origin outside its three gets no Allow-Origin header. */
  lemma DefaultConfigOrigins(h: map<string, string>, origin: string)
    requires AllowOrigin !in h
    ensures CorsHeaders(h, DefaultCORSConfig(), "https://nirvekpandey.com")[AllowOrigin] == "https://nirvekpandey.com"
    ensures origin !in {"http://localhost:3000", "http://localhost:3001", "https://nirvekpandey.com"} ==>
              AllowOrigin !in CorsHeaders(h, DefaultCORSConfig(), origin)
  {
  }

  /** The configuration of the middleware's unit test. */
  const TestConfig := CORSConfig(["http://localhost:3000"], ["GET", "POST", "OPTIONS"], ["Content-Type", "Authorization"], [], true, 3600)

  /** The test configuration's lists, joined as the test expects them. */
  lemma TestConfigLists()
    ensures Join(TestConfig.allowedMethods, ", ") == "GET, POST, OPTIONS"
    ensures Join(TestConfig.allowedHeaders, ", ") == "Content-Type, Authorization"
  {
    assert Join(["OPTIONS"], ", ") == "OPTIONS";
    assert Join(["POST", "OPTIONS"], ", ") == "POST" + ", " + "OPTIONS";
  }

  /** The headers the unit test expects for its listed origin: the origin
      echoed, the joined lists and the fixed credentials header. */
  lemma TestConfigAllowed()
    ensures CorsHeaders(map[], TestConfig, "http://localhost:3000")[AllowOrigin] == "http://localhost:3000"
    ensures CorsHeaders(map[], TestConfig, "http://localhost:3000")["Access-Control-Allow-Methods"] == "GET, POST, OPTIONS"
    ensures CorsHeaders(map[], TestConfig, "http://localhost:3000")["Access-Control-Allow-Headers"] == "Content-Type, Authorization"
    ensures CorsHeaders(map[], TestConfig, "http://localhost:3000")["Access-Control-Allow-Credentials"] == "true"
  {
    TestConfigLists();
  }

  /** An origin the test configuration does not list gets no Allow-Origin
      header. */
  lemma TestConfigDisallowed()
    ensures AllowOrigin !in CorsHeaders(map[], TestConfig, "http://malicious-site.com")
  {
    assert "http://malicious-site.com" !in TestConfig.allowedOrigins;
  }

  /** The middleware for one request. It answers a preflight (`OPTIONS`)
      itself with 200; for every other method it returns true, meaning the
      request goes on to the wrapped handler. */
  method CORS(config: CORSConfig, w: ResponseWriter, requestMethod: string, origin: string) returns (callNext: bool)
    modifies w
    ensures callNext <==> requestMethod != "OPTIONS"
    ensures w.header == CorsHeaders(old(w.header), config, origin)
    ensures !callNext && old(w.status).None? ==> w.status == Some(StatusOK) && w.sentHeader == w.header
    ensures callNext || old(w.status).Some? ==> w.status == old(w.status) && w.sentHeader == old(w.sentHeader)
    ensures w.body == old(w.body)
  {
    for i := 0 to |config.allowedOrigins|
      invariant w.header == old(w.header) && w.status == old(w.status) && w.sentHeader == old(w.sentHeader) && w.body == old(w.body)
      invariant origin !in config.allowedOrigins[..i]
    {
      if origin == config.allowedOrigins[i] {
        w.SetHeader(AllowOrigin, origin);
        break;
      }
    }
    var methods := JoinStrings(config.allowedMethods, ", ");
    var headers := JoinStrings(config.allowedHeaders, ", ");
    w.SetHeader("Access-Control-Allow-Methods", methods);
    w.SetHeader("Access-Control-Allow-Headers", headers);
    w.SetHeader("Access-Control-Allow-Credentials", "true");
    w.SetHeader("Access-Control-Max-Age", "86400");
    if requestMethod == "OPTIONS" {
      w.WriteHeader(StatusOK);
      return false;
    }
    return true;
  }
}
