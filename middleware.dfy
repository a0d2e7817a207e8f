/**
 * The deterministic parts of pkg/middleware/middleware.go: middleware
 * composition, the status- and size-recording response writer, the CORS
 * decision and headers (the CORS protocol of section 3.2 of the WHATWG Fetch
 * Standard) and the string helpers behind them. Go's `int` is 64 bits wide
 * here; `Int64` makes that width explicit.
 */
module Middleware {
  import opened Text

  const MinInt64: int := -0x8000_0000_0000_0000
  const MaxInt64: int := 0x7FFF_FFFF_FFFF_FFFF
  newtype Int64 = x: int | -0x8000_0000_0000_0000 <= x <= 0x7FFF_FFFF_FFFF_FFFF

  /** Two's-complement truncation of an exact integer to 64 bits, as Go's `int` arithmetic does. */
  function ToInt64(x: int): (r: Int64)
    ensures MinInt64 <= x <= MaxInt64 ==> r as int == x
    ensures (r as int - x) % 0x1_0000_0000_0000_0000 == 0
  {
    ((x + 0x8000_0000_0000_0000) % 0x1_0000_0000_0000_0000 - 0x8000_0000_0000_0000) as Int64
  }

  // ----- Chain ---------------------------------------------------------------

  /** `m1(m2(…mn(h)))`: the first middleware listed is the outermost. */
  function Compose<H>(ms: seq<H -> H>, h: H): H
  {
    if |ms| == 0 then h else ms[0](Compose(ms[1..], h))
  }

  /** `Chain`: wraps the handler from the last middleware to the first. */
  method Chain<H>(handler: H, middlewares: seq<H -> H>) returns (r: H)
    ensures r == Compose(middlewares, handler)
  {
    r := handler;
    var i := |middlewares|;
    while i > 0
      invariant 0 <= i <= |middlewares|
      invariant r == Compose(middlewares[i..], handler)
    {
      assert middlewares[i - 1..][1..] == middlewares[i..];
      r := middlewares[i - 1](r);
      i := i - 1;
    }
  }

  /** Chaining two lists of middlewares is chaining the first around the chain of the second. */
  lemma {:induction false} ComposeAppend<H>(a: seq<H -> H>, b: seq<H -> H>, h: H)
    ensures Compose(a + b, h) == Compose(a, Compose(b, h))
  {
    if |a| > 0 {
      assert (a + b)[0] == a[0];
      assert (a + b)[1..] == a[1..] + b;
      ComposeAppend(a[1..], b, h);
    } else {
      assert a + b == b;
    }
  }

  /**
   * With handlers seen as the trace of layers a request passes through, a
   * chain is entered in list order: the first middleware sees the request first.
   */
  lemma {:induction false} ChainOrder(ms: seq<seq<string> -> seq<string>>, names: seq<string>, t: seq<string>)
    requires |ms| == |names|
    requires forall i, u :: 0 <= i < |ms| ==> ms[i](u) == [names[i]] + u
    ensures Compose(ms, t) == names + t
  {
    if |ms| > 0 {
      ChainOrder(ms[1..], names[1..], t);
      assert [names[0]] + (names[1..] + t) == names + t;
    }
  }

  // ----- the response writers --------------------------------------------------

  /** Response headers, as Go's `http.Header`: a map from key to its list of values. */
  type Header = map<string, seq<string>>

  /** `Header.Set`: the key holds exactly this value. */
  function SetHeader(h: Header, key: string, value: string): Header
  {
    h[key := [value]]
  }

  function Values(h: Header, key: string): seq<string>
  {
    if key in h then h[key] else []
  }

  /** `Header.Add`: the value is appended to those already held. */
  function AddHeader(h: Header, key: string, value: string): Header
  {
    h[key := Values(h, key) + [value]]
  }

  /** The key is present in both or neither, with the same values. */
  predicate SameEntry(r: Header, h: Header, key: string)
  {
    (key in r <==> key in h) && (key in h ==> r[key] == h[key])
  }

  /**
   * The underlying `http.ResponseWriter`: its headers, every status code given
   * to `WriteHeader` in order, and the body written so far.
   */
  class HttpResponse {
    var header: Header
    var codes: seq<int>
    var body: seq<bv8>

    constructor ()
      ensures header == map[] && codes == [] && body == []
    {
      header := map[];
      codes := [];
      body := [];
    }

    method WriteHeader(code: int)
      modifies this
      ensures codes == old(codes) + [code]
      ensures header == old(header) && body == old(body)
    {
      codes := codes + [code];
    }

    /** Takes every byte; a failing connection is not modelled. */
    method Write(b: seq<bv8>) returns (n: int)
      modifies this
      ensures n == |b|
      ensures body == old(body) + b
      ensures header == old(header) && codes == old(codes)
    {
      body := body + b;
      n := |b|;
    }
  }

  const StatusOK := 200
  const StatusNoContent := 204

  /** `responseWriter`: records the last status code and the number of bytes written. */
  class ResponseWriter {
    const inner: HttpResponse
    var statusCode: int
    var written: Int64

    /** `newResponseWriter`: the status is 200 until a handler sets one. */
    constructor (w: HttpResponse)
      ensures inner == w && statusCode == StatusOK && written == 0
    {
      inner := w;
      statusCode := StatusOK;
      written := 0;
    }

    method WriteHeader(code: int)
      modifies this, inner
      ensures statusCode == code && written == old(written)
      ensures inner.codes == old(inner.codes) + [code]
      ensures inner.header == old(inner.header) && inner.body == old(inner.body)
    {
      statusCode := code;
      inner.WriteHeader(code);
    }

    /** Adds the byte count the underlying writer reports, in 64-bit arithmetic. */
    method Write(b: seq<bv8>) returns (n: int)
      modifies this, inner
      ensures n == |b|
      ensures written == ToInt64(old(written) as int + n)
      ensures old(written) as int + n <= MaxInt64 ==> written as int == old(written) as int + |b|
      ensures statusCode == old(statusCode)
      ensures inner.body == old(inner.body) + b
      ensures inner.header == old(inner.header) && inner.codes == old(inner.codes)
    {
      n := inner.Write(b);
      written := ToInt64(written as int + n);
    }
  }

  // ----- string helpers ----------------------------------------------------------

  /** `containsString`: some element equals `s`. */
  function ContainsString(slice: seq<string>, s: string): (r: bool)
    ensures r <==> s in slice
  {
    if |slice| == 0 then false else slice[0] == s || ContainsString(slice[1..], s)
  }

  /** `joinStrings`: the elements separated by `sep`, as `strings.Join`. */
  method JoinStrings(slice: seq<string>, sep: string) returns (r: string)
    ensures r == Join(slice, sep)
  {
    if |slice| == 0 {
      return "";
    }
    r := slice[0];
    for i := 1 to |slice|
      invariant r == Join(slice[..i], sep)
    {
      JoinSnoc(slice[..i], slice[i], sep);
      assert slice[..i + 1] == slice[..i] + [slice[i]];
      r := r + sep + slice[i];
    }
    assert slice[..|slice|] == slice;
  }

  function TotalLength(xs: seq<string>): nat
  {
    if |xs| == 0 then 0 else |xs[0]| + TotalLength(xs[1..])
  }

  /** A join holds every element once and one separator between each two. */
  lemma {:induction false} JoinLength(xs: seq<string>, sep: string)
    ensures |xs| == 0 ==> Join(xs, sep) == ""
    ensures |xs| >= 1 ==> |Join(xs, sep)| == TotalLength(xs) + (|xs| - 1) * |sep|
  {
    if |xs| > 1 {
      JoinLength(xs[1..], sep);
    }
  }

  /** `intToString` as written: the 64-bit negation of the minimum value overflows. */
  method IntToString(n: Int64) returns (r: string)
    ensures n as int != MinInt64 ==> r == Decimal(n as int)
    ensures n as int == MinInt64 ==> r == "-"
  {
    if n == 0 {
      return "0";
    }
    r := "";
    var negative := n < 0;
    var m: int := n as int;
    if negative {
      m := ToInt64(-m) as int;
    }
    ghost var start := m;
    while m > 0
      invariant start > 0 ==> 0 <= m && (m > 0 ==> NatDigits(start) == NatDigits(m) + r)
                                     && (m == 0 ==> NatDigits(start) == r)
      invariant start <= 0 ==> m == start && r == ""
    {
      if m >= 10 {
        assert NatDigits(m) == NatDigits(m / 10) + [DigitChar(m % 10)];
      }
      r := [DigitChar(m % 10)] + r;
      m := m / 10;
    }
    if negative {
      r := "-" + r;
    }
  }

  /** `intToString` with the magnitude taken in exact arithmetic: the decimal form of every 64-bit value. */
  method IntToStringCorrected(n: Int64) returns (r: string)
    ensures r == Decimal(n as int)
  {
    if n == 0 {
      return "0";
    }
    r := "";
    var negative := n < 0;
    var m: int := if negative then -(n as int) else n as int;
    ghost var start := m;
    while m > 0
      invariant 0 <= m
      invariant m > 0 ==> NatDigits(start) == NatDigits(m) + r
      invariant m == 0 ==> NatDigits(start) == r
    {
      if m >= 10 {
        assert NatDigits(m) == NatDigits(m / 10) + [DigitChar(m % 10)];
      }
      r := [DigitChar(m % 10)] + r;
      m := m / 10;
    }
    if negative {
      r := "-" + r;
    }
  }

  /** The as-written rendering of the minimum 64-bit value is a lone sign, which reads back as 0. */
  lemma IntToStringMinInt64(n: Int64)
    requires n as int == MinInt64
    ensures Decimal(n as int) != "-"
    ensures |Decimal(n as int)| >= 3
    ensures DecimalValue("-") == 0 != n as int
  {
    assert NatDigits(-MinInt64) == NatDigits(-MinInt64 / 10) + [DigitChar(-MinInt64 % 10)];
  }

  // ----- CORS ----------------------------------------------------------------------

  datatype CorsConfig = CorsConfig(
    allowedOrigins: seq<string>,
    allowedMethods: seq<string>,
    allowedHeaders: seq<string>,
    exposedHeaders: seq<string>,
    allowCredentials: bool,
    maxAge: Int64)

  /** `DefaultCORSConfig`: any origin, the usual methods and headers, a day of preflight caching. */
  const DefaultCorsConfig := CorsConfig(
    ["*"],
    ["GET", "POST", "PUT", "PATCH", "DELETE", "OPTIONS"],
    ["Accept", "Authorization", "Content-Type", "X-Request-ID"],
    ["X-Request-ID"],
    false,
    86400)

  const AllowOrigin := "Access-Control-Allow-Origin"
  const AllowMethods := "Access-Control-Allow-Methods"
  const AllowHeaders := "Access-Control-Allow-Headers"
  const ExposeHeaders := "Access-Control-Expose-Headers"
  const AllowCredentials := "Access-Control-Allow-Credentials"
  const MaxAge := "Access-Control-Max-Age"
  const Vary := "Vary"
  const MethodOptions := "OPTIONS"

  /** Every header key the CORS middleware may touch. */
  const CorsHeaderKeys: set<string> := {AllowOrigin, AllowMethods, AllowHeaders, ExposeHeaders, AllowCredentials, MaxAge, Vary}

  /** An origin is allowed when some configured origin is "*" or equals it. */
  predicate OriginAllowed(allowedOrigins: seq<string>, origin: string)
  {
    exists i :: 0 <= i < |allowedOrigins| && (allowedOrigins[i] == "*" || allowedOrigins[i] == origin)
  }

  /** The distinct CORS header keys. */
  lemma CorsKeysDistinct()
    ensures AllowOrigin != AllowMethods && AllowOrigin != AllowHeaders && AllowOrigin != ExposeHeaders
    ensures AllowOrigin != AllowCredentials && AllowOrigin != MaxAge && AllowOrigin != Vary
    ensures AllowMethods != AllowHeaders && AllowMethods != ExposeHeaders && AllowMethods != AllowCredentials
    ensures AllowMethods != MaxAge && AllowMethods != Vary
    ensures AllowHeaders != ExposeHeaders && AllowHeaders != AllowCredentials && AllowHeaders != MaxAge
    ensures AllowHeaders != Vary
    ensures ExposeHeaders != AllowCredentials && ExposeHeaders != MaxAge && ExposeHeaders != Vary
    ensures AllowCredentials != MaxAge && AllowCredentials != Vary && MaxAge != Vary
  {
    assert |AllowOrigin| == 27 && |AllowMethods| == 28 && |AllowHeaders| == 28 && |ExposeHeaders| == 29;
    assert |AllowCredentials| == 32 && |MaxAge| == 22 && |Vary| == 4;
    assert AllowMethods[21] != AllowHeaders[21];
  }

  /** One conditional `Header.Set`: only `key` may change. */
  function SetIf(h: Header, cond: bool, key: string, value: string): (r: Header)
    ensures cond ==> key in r && r[key] == [value]
    ensures !cond ==> r == h
    ensures forall k :: k != key ==> SameEntry(r, h, k)
  {
    if cond then SetHeader(h, key, value) else h
  }

  /** The allowed-origin header: "*" under a wildcard configuration, else the echoed origin and `Vary: Origin`. */
  function OriginHeaders(h: Header, wildcard: bool, origin: string): (r: Header)
    ensures AllowOrigin in r && r[AllowOrigin] == (if wildcard then ["*"] else [origin])
    ensures wildcard ==> SameEntry(r, h, Vary)
    ensures !wildcard ==> Vary in r && r[Vary] == Values(h, Vary) + ["Origin"]
    ensures forall k :: k != AllowOrigin && k != Vary ==> SameEntry(r, h, k)
  {
    CorsKeysDistinct();
    if wildcard then SetHeader(h, AllowOrigin, "*") else AddHeader(SetHeader(h, AllowOrigin, origin), Vary, "Origin")
  }

  /** The headers the CORS middleware leaves on a response that had headers `h`, for the request's `Origin`. */
  function CorsHeaders(config: CorsConfig, origin: string, h: Header): (r: Header)
    ensures !(OriginAllowed(config.allowedOrigins, origin) && origin != "") ==> r == h
    ensures forall k :: k !in CorsHeaderKeys ==> SameEntry(r, h, k)
  {
    if !(OriginAllowed(config.allowedOrigins, origin) && origin != "") then h
    else
      var h1 := OriginHeaders(h, "*" in config.allowedOrigins, origin);
      var h2 := SetIf(h1, |config.allowedMethods| > 0, AllowMethods, Join(config.allowedMethods, ", "));
      var h3 := SetIf(h2, |config.allowedHeaders| > 0, AllowHeaders, Join(config.allowedHeaders, ", "));
      var h4 := SetIf(h3, |config.exposedHeaders| > 0, ExposeHeaders, Join(config.exposedHeaders, ", "));
      var h5 := SetIf(h4, config.allowCredentials, AllowCredentials, "true");
      SetIf(h5, config.maxAge > 0, MaxAge, Decimal(config.maxAge as int))
  }

  /** For an allowed, non-empty origin: the wildcard answer, or the echoed origin with `Vary: Origin`. */
  lemma CorsAllowOrigin(config: CorsConfig, origin: string, h: Header)
    requires OriginAllowed(config.allowedOrigins, origin) && origin != ""
    ensures var r := CorsHeaders(config, origin, h);
      && AllowOrigin in r
      && ("*" in config.allowedOrigins ==> r[AllowOrigin] == ["*"] && SameEntry(r, h, Vary))
      && ("*" !in config.allowedOrigins ==> r[AllowOrigin] == [origin] && Vary in r && r[Vary] == Values(h, Vary) + ["Origin"])
  {
    CorsKeysDistinct();
  }

  /** The method, header and exposed-header lists are set, joined by ", ", exactly when non-empty. */
  lemma CorsLists(config: CorsConfig, origin: string, h: Header)
    requires OriginAllowed(config.allowedOrigins, origin) && origin != ""
    ensures var r := CorsHeaders(config, origin, h);
      && (|config.allowedMethods| > 0 ==> AllowMethods in r && r[AllowMethods] == [Join(config.allowedMethods, ", ")])
      && (|config.allowedMethods| == 0 ==> SameEntry(r, h, AllowMethods))
      && (|config.allowedHeaders| > 0 ==> AllowHeaders in r && r[AllowHeaders] == [Join(config.allowedHeaders, ", ")])
      && (|config.allowedHeaders| == 0 ==> SameEntry(r, h, AllowHeaders))
      && (|config.exposedHeaders| > 0 ==> ExposeHeaders in r && r[ExposeHeaders] == [Join(config.exposedHeaders, ", ")])
      && (|config.exposedHeaders| == 0 ==> SameEntry(r, h, ExposeHeaders))
  {
    CorsMethodsList(config, origin, h);
    CorsHeadersList(config, origin, h);
    CorsExposedList(config, origin, h);
  }

  lemma CorsMethodsList(config: CorsConfig, origin: string, h: Header)
    requires OriginAllowed(config.allowedOrigins, origin) && origin != ""
    ensures var r := CorsHeaders(config, origin, h);
      && (|config.allowedMethods| > 0 ==> AllowMethods in r && r[AllowMethods] == [Join(config.allowedMethods, ", ")])
      && (|config.allowedMethods| == 0 ==> SameEntry(r, h, AllowMethods))
  {
    CorsKeysDistinct();
  }

  lemma CorsHeadersList(config: CorsConfig, origin: string, h: Header)
    requires OriginAllowed(config.allowedOrigins, origin) && origin != ""
    ensures var r := CorsHeaders(config, origin, h);
      && (|config.allowedHeaders| > 0 ==> AllowHeaders in r && r[AllowHeaders] == [Join(config.allowedHeaders, ", ")])
      && (|config.allowedHeaders| == 0 ==> SameEntry(r, h, AllowHeaders))
  {
    CorsKeysDistinct();
  }

  lemma CorsExposedList(config: CorsConfig, origin: string, h: Header)
    requires OriginAllowed(config.allowedOrigins, origin) && origin != ""
    ensures var r := CorsHeaders(config, origin, h);
      && (|config.exposedHeaders| > 0 ==> ExposeHeaders in r && r[ExposeHeaders] == [Join(config.exposedHeaders, ", ")])
      && (|config.exposedHeaders| == 0 ==> SameEntry(r, h, ExposeHeaders))
  {
    CorsKeysDistinct();
  }

  /** Credentials are announced only when enabled, and the preflight cache age only when positive. */
  lemma CorsFlags(config: CorsConfig, origin: string, h: Header)
    requires OriginAllowed(config.allowedOrigins, origin) && origin != ""
    ensures var r := CorsHeaders(config, origin, h);
      && (config.allowCredentials ==> AllowCredentials in r && r[AllowCredentials] == ["true"])
      && (!config.allowCredentials ==> SameEntry(r, h, AllowCredentials))
      && (config.maxAge > 0 ==> MaxAge in r && r[MaxAge] == [Decimal(config.maxAge as int)])
      && (config.maxAge <= 0 ==> SameEntry(r, h, MaxAge))
  {
    CorsKeysDistinct();
  }

  /** One list header of `CORS`: set to the values joined by ", " when there are any. */
  method SetJoined(h: Header, key: string, values: seq<string>) returns (header: Header)
    ensures header == SetIf(h, |values| > 0, key, Join(values, ", "))
  {
    header := h;
    if |values| > 0 {
      var joined := JoinStrings(values, ", ");
      header := SetHeader(header, key, joined);
    }
  }

  /** The header updates `CORS` makes for an allowed, non-empty origin, in the order it makes them. */
  method AllowedCorsHeaders(config: CorsConfig, origin: string, h: Header) returns (header: Header)
    requires OriginAllowed(config.allowedOrigins, origin) && origin != ""
    ensures header == CorsHeaders(config, origin, h)
  {
    header := SetOrigin(h, config.allowedOrigins, origin);
    header := SetJoined(header, AllowMethods, config.allowedMethods);
    header := SetJoined(header, AllowHeaders, config.allowedHeaders);
    header := SetJoined(header, ExposeHeaders, config.exposedHeaders);
    ghost var h4 := header;
    if config.allowCredentials {
      header := SetHeader(header, AllowCredentials, "true");
    }
    assert header == SetIf(h4, config.allowCredentials, AllowCredentials, "true");
    header := SetMaxAge(header, config.maxAge);
  }

  /** The allowed-origin part of `CORS`: "*" for a wildcard configuration, else the origin and `Vary`. */
  method SetOrigin(h: Header, allowedOrigins: seq<string>, origin: string) returns (header: Header)
    ensures header == OriginHeaders(h, "*" in allowedOrigins, origin)
  {
    header := h;
    if ContainsString(allowedOrigins, "*") {
      header := SetHeader(header, AllowOrigin, "*");
    } else {
      header := SetHeader(header, AllowOrigin, origin);
      header := AddHeader(header, Vary, "Origin");
    }
  }

  /** The preflight cache age of `CORS`, set only when positive. */
  method SetMaxAge(h: Header, maxAge: Int64) returns (header: Header)
    ensures header == SetIf(h, maxAge > 0, MaxAge, Decimal(maxAge as int))
  {
    header := h;
    if maxAge > 0 {
      var age := IntToString(maxAge);
      header := SetHeader(header, MaxAge, age);
    }
  }

  /**
   * The `CORS` middleware on one request: sets the CORS headers on `w`, answers
   * a preflight (OPTIONS) request with 204 whether or not the origin is allowed,
   * and otherwise tells the caller to run the next handler.
   */
  method Cors(config: CorsConfig, requestMethod: string, origin: string, w: HttpResponse) returns (callNext: bool)
    modifies w
    ensures w.header == CorsHeaders(config, origin, old(w.header))
    ensures callNext <==> requestMethod != MethodOptions
    ensures w.codes == old(w.codes) + (if callNext then [] else [StatusNoContent])
    ensures w.body == old(w.body)
  {
    var allowed := false;
    var i := 0;
    while i < |config.allowedOrigins|
      invariant 0 <= i <= |config.allowedOrigins|
      invariant !allowed
      invariant forall j :: 0 <= j < i ==> config.allowedOrigins[j] != "*" && config.allowedOrigins[j] != origin
      invariant w.header == old(w.header) && w.codes == old(w.codes) && w.body == old(w.body)
    {
      if config.allowedOrigins[i] == "*" || config.allowedOrigins[i] == origin {
        allowed := true;
        break;
      }
      i := i + 1;
    }
    assert allowed <==> OriginAllowed(config.allowedOrigins, origin);

    if allowed && origin != "" {
      var header := AllowedCorsHeaders(config, origin, w.header);
      w.header := header;
    }

    if requestMethod == MethodOptions {
      w.WriteHeader(StatusNoContent);
      return false;
    }
    return true;
  }

  /** The text "GET, POST, PUT, PATCH, DELETE, OPTIONS", written piece by piece as `Join` builds it. */
  const DefaultMethodsText := "GET" + ", " + ("POST" + ", " + ("PUT" + ", " + ("PATCH" + ", " + ("DELETE" + ", " + "OPTIONS"))))

  lemma DefaultMethodsJoined()
    ensures Join(DefaultCorsConfig.allowedMethods, ", ") == DefaultMethodsText
  {
    var l5: seq<string> := ["OPTIONS"];
    var l4 := ["DELETE"] + l5;
    var l3 := ["PATCH"] + l4;
    var l2 := ["PUT"] + l3;
    var l1 := ["POST"] + l2;
    assert DefaultCorsConfig.allowedMethods == ["GET"] + l1;
    JoinCons("DELETE", l5, ", ");
    JoinCons("PATCH", l4, ", ");
    JoinCons("PUT", l3, ", ");
    JoinCons("POST", l2, ", ");
    JoinCons("GET", l1, ", ");
  }

  lemma JoinCons(x: string, xs: seq<string>, sep: string)
    requires |xs| >= 1
    ensures Join([x] + xs, sep) == x + sep + Join(xs, sep)
  {
    assert ([x] + xs)[1..] == xs;
  }

  lemma DefaultMaxAgeText()
    ensures Decimal(DefaultCorsConfig.maxAge as int) == "86400"
  {
    assert NatDigits(86400) == "86400";
  }

  /** The default configuration admits every origin with a wildcard and a one-day preflight cache. */
  lemma DefaultCorsHeaders(origin: string)
    requires origin != ""
    ensures var r := CorsHeaders(DefaultCorsConfig, origin, map[]);
      && AllowOrigin in r && r[AllowOrigin] == ["*"]
      && Vary !in r
      && AllowMethods in r && r[AllowMethods] == [DefaultMethodsText]
      && ExposeHeaders in r && r[ExposeHeaders] == ["X-Request-ID"]
      && AllowCredentials !in r
      && MaxAge in r && r[MaxAge] == ["86400"]
  {
    var c := DefaultCorsConfig;
    assert c.allowedOrigins[0] == "*";
    assert OriginAllowed(c.allowedOrigins, origin);
    CorsAllowOrigin(c, origin, map[]);
    CorsLists(c, origin, map[]);
    CorsFlags(c, origin, map[]);
    DefaultMethodsJoined();
    DefaultMaxAgeText();
  }

  /** Under a wildcard configuration a second pass leaves each header key as the first pass left it. */
  lemma CorsWildcardKeyStable(config: CorsConfig, origin: string, h: Header, k: string)
    requires "*" in config.allowedOrigins
    requires OriginAllowed(config.allowedOrigins, origin) && origin != ""
    ensures SameEntry(CorsHeaders(config, origin, CorsHeaders(config, origin, h)), CorsHeaders(config, origin, h), k)
  {
    OriginStable(config, origin, h, k);
    ListsStable(config, origin, h, k);
    FlagsStable(config, origin, h, k);
    OthersStable(config, origin, h, k);
  }

  /** A wildcard configuration and an origin the middleware answers. */
  predicate WildcardAllowed(config: CorsConfig, origin: string)
  {
    "*" in config.allowedOrigins && OriginAllowed(config.allowedOrigins, origin) && origin != ""
  }

  lemma OriginStable(config: CorsConfig, origin: string, h: Header, k: string)
    requires WildcardAllowed(config, origin)
    ensures k == AllowOrigin || k == Vary ==>
      SameEntry(CorsHeaders(config, origin, CorsHeaders(config, origin, h)), CorsHeaders(config, origin, h), k)
  {
    CorsAllowOrigin(config, origin, h);
    CorsAllowOrigin(config, origin, CorsHeaders(config, origin, h));
  }

  lemma ListsStable(config: CorsConfig, origin: string, h: Header, k: string)
    requires WildcardAllowed(config, origin)
    ensures k == AllowMethods || k == AllowHeaders || k == ExposeHeaders ==>
      SameEntry(CorsHeaders(config, origin, CorsHeaders(config, origin, h)), CorsHeaders(config, origin, h), k)
  {
    CorsLists(config, origin, h);
    CorsLists(config, origin, CorsHeaders(config, origin, h));
  }

  lemma FlagsStable(config: CorsConfig, origin: string, h: Header, k: string)
    requires WildcardAllowed(config, origin)
    ensures k == AllowCredentials || k == MaxAge ==>
      SameEntry(CorsHeaders(config, origin, CorsHeaders(config, origin, h)), CorsHeaders(config, origin, h), k)
  {
    CorsFlags(config, origin, h);
    CorsFlags(config, origin, CorsHeaders(config, origin, h));
  }

  lemma OthersStable(config: CorsConfig, origin: string, h: Header, k: string)
    requires WildcardAllowed(config, origin)
    ensures k != AllowOrigin && k != Vary && k != AllowMethods && k != AllowHeaders && k != ExposeHeaders &&
            k != AllowCredentials && k != MaxAge ==>
      SameEntry(CorsHeaders(config, origin, CorsHeaders(config, origin, h)), CorsHeaders(config, origin, h), k)
  {
  }

  /** Under a wildcard configuration, running the middleware again changes no header. */
  lemma CorsWildcardIdempotent(config: CorsConfig, origin: string, h: Header)
    requires "*" in config.allowedOrigins
    ensures CorsHeaders(config, origin, CorsHeaders(config, origin, h)) == CorsHeaders(config, origin, h)
  {
    var r1 := CorsHeaders(config, origin, h);
    var r2 := CorsHeaders(config, origin, r1);
    if OriginAllowed(config.allowedOrigins, origin) && origin != "" {
      forall k ensures SameEntry(r2, r1, k) {
        CorsWildcardKeyStable(config, origin, h, k);
      }
      SameEntriesEqual(r2, r1);
    }
  }

  /** Headers that agree on every key are equal. */
  lemma SameEntriesEqual(a: Header, b: Header)
    requires forall k :: SameEntry(a, b, k)
    ensures a == b
  {
    forall k ensures k in a <==> k in b {
      assert SameEntry(a, b, k);
    }
    assert a.Keys == b.Keys;
    forall k | k in a ensures a[k] == b[k] {
      assert SameEntry(a, b, k);
    }
  }

  /** Echoing an origin adds to `Vary` with `Header.Add`, so a second pass lists "Origin" twice. */
  lemma CorsEchoAddsVaryEachTime(config: CorsConfig, origin: string, h: Header)
    requires "*" !in config.allowedOrigins && origin in config.allowedOrigins && origin != ""
    ensures var r := CorsHeaders(config, origin, CorsHeaders(config, origin, h));
      Vary in r && r[Vary] == Values(h, Vary) + ["Origin", "Origin"]
  {
    var i :| 0 <= i < |config.allowedOrigins| && config.allowedOrigins[i] == origin;
    assert OriginAllowed(config.allowedOrigins, origin);
    CorsAllowOrigin(config, origin, h);
    CorsAllowOrigin(config, origin, CorsHeaders(config, origin, h));
  }
}
