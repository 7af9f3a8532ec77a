/**
 The two printers, `HttpClient::sendRequest` and `HttpResponse::appendToBuffer`, and what
 the parsers make of their output. A header map is printed in ascending order of its keys; the
 results about parsing hold for every order `ks`.
 */
module HttpPrinters {
  import opened Text
  import opened HttpMessages
  import opened HttpParsers
  import opened Buffers

  function HeaderLines(h: map<string, string>, ks: seq<string>): string
    requires forall k :: k in ks ==> k in h
  {
    if ks == [] then "" else ks[0] + ": " + h[ks[0]] + CRLF + HeaderLines(h, ks[1..])
  }

  /** `ks` goes through the keys of the map, each once. */
  ghost predicate Lists(ks: seq<string>, h: map<string, string>) {
    && (forall k :: k in ks <==> k in h)
    && (forall i, j :: 0 <= i < j < |ks| ==> ks[i] != ks[j])
  }

  /** Nothing in the headers looks like the end of a name or of a line. */
  predicate PlainHeaders(h: map<string, string>) {
    forall k :: k in h ==> ':' !in k && NoCrlf(k) && NoCrlf(h[k])
  }

  function RequestBytes(req: Request, ks: seq<string>): string
    requires forall k :: k in ks ==> k in req.headers
  {
    MethodString(req.verb) + " " + req.path + " HTTP/1.1" + CRLF + (HeaderLines(req.headers, ks) + CRLF + req.body)
  }

  // ---------------------------------------------------------------- lines

  lemma JoinNoCrlf(s: string, c: char, t: string)
    requires NoCrlf(s) && NoCrlf(t) && c != '\r' && c != '\n'
    ensures NoCrlf(s + [c] + t)
  {
    var u := s + [c] + t;
    forall i | 0 <= i < |u| ensures !CrlfAt(u, i) {
      if i < |s| { assert !CrlfAt(s, i); } else if i > |s| { assert !CrlfAt(t, i - |s| - 1); }
    }
  }

  lemma HeaderLineSplits(k: string, v: string)
    requires ':' !in k && NoCrlf(k) && NoCrlf(v)
    ensures var line := k + ": " + v;
      NoCrlf(line) && Find(line, ':') == |k| && line[..|k|] == k && line[|k| + 1..] == " " + v
  {
    var line := k + ": " + v;
    JoinNoCrlf("", ' ', v);
    assert "" + [' '] + v == " " + v;
    JoinNoCrlf(k, ':', " " + v);
    assert k + [':'] + (" " + v) == line;
    FindAppend(k, ':', " " + v);
  }

  lemma TakeLine(buf: string, line: string, rest: string)
    requires buf == line + CRLF + rest && NoCrlf(line)
    ensures FindCrlf(buf) == |line| < |buf| && buf[..|line|] == line && buf[|line| + 2..] == rest
  {
    FindCrlfLine(line, rest);
  }

  // ---------------------------------------------------------------- requests

  function WithHeaders(c: Config, headers: map<string, string>, buf: string): Config {
    Config(c.ctx.(request := c.ctx.request.(headers := headers)), buf)
  }

  lemma ParseHeaderLine(c: Config, k: string, v: string, rest: string)
    requires c.ctx.state == ExpectHeaders && c.buf == k + ": " + v + CRLF + rest
    requires ':' !in k && NoCrlf(k) && NoCrlf(v)
    ensures ParseRequest(c) == ParseRequest(WithHeaders(c, c.ctx.request.headers[k := Trim(v)], rest))
  {
    HeaderLineTurn(c, k, v, rest);
    assert RequestTurn(c) == Turn(WithHeaders(c, c.ctx.request.headers[k := Trim(v)], rest), true, true);
  }

  lemma HeaderLineTurn(c: Config, k: string, v: string, rest: string)
    requires c.ctx.state == ExpectHeaders && c.buf == k + ": " + v + CRLF + rest
    requires ':' !in k && NoCrlf(k) && NoCrlf(v)
    ensures HeaderTurn(c) == Turn(WithHeaders(c, c.ctx.request.headers[k := Trim(v)], rest), true, true)
  {
    HeaderLineSplits(k, v);
    TakeLine(c.buf, k + ": " + v, rest);
    TrimIffTrimmed(v);
  }

  /** The headers read after the lines for `ks`, if reading makes `f(v)` of a value `v`. */
  function HeadersAfter(f: string -> string, h0: map<string, string>, h: map<string, string>, ks: seq<string>)
    : map<string, string>
    requires forall k :: k in ks ==> k in h
    decreases |ks|
  {
    if ks == [] then h0 else HeadersAfter(f, h0[ks[0] := f(h[ks[0]])], h, ks[1..])
  }

  function MapValues(f: string -> string, h: map<string, string>): map<string, string> {
    map k | k in h :: f(h[k])
  }

  lemma {:induction false} HeadersAfterAll(
      f: string -> string, h0: map<string, string>, h: map<string, string>, ks: seq<string>)
    requires forall k :: k in ks ==> k in h
    ensures HeadersAfter(f, h0, h, ks) == h0 + map k | k in ks :: f(h[k])
    decreases |ks|
  {
    if ks != [] { HeadersAfterAll(f, h0[ks[0] := f(h[ks[0]])], h, ks[1..]); }
  }

  lemma HeadersAfterListing(f: string -> string, h0: map<string, string>, h: map<string, string>, ks: seq<string>)
    requires Lists(ks, h)
    ensures HeadersAfter(f, h0, h, ks) == h0 + MapValues(f, h)
  {
    HeadersAfterAll(f, h0, h, ks);
  }

  lemma MapValuesIff(f: string -> string, h: map<string, string>)
    ensures MapValues(f, h) == h <==> forall k :: k in h ==> f(h[k]) == h[k]
  {
    if MapValues(f, h) == h {
      forall k | k in h ensures f(h[k]) == h[k] { assert MapValues(f, h)[k] == h[k]; }
    }
  }

  lemma {:induction false} ParseHeaderLines(c: Config, h: map<string, string>, ks: seq<string>, rest: string)
    requires c.ctx.state == ExpectHeaders && PlainHeaders(h) && forall k :: k in ks ==> k in h
    requires c.buf == HeaderLines(h, ks) + rest
    ensures ParseRequest(c) == ParseRequest(WithHeaders(c, HeadersAfter(Trim, c.ctx.request.headers, h, ks), rest))
    decreases |ks|
  {
    if ks == [] {
      assert c == WithHeaders(c, c.ctx.request.headers, rest);
    } else {
      var k, v, more := ks[0], h[ks[0]], HeaderLines(h, ks[1..]);
      assert c.buf == k + ": " + v + CRLF + (more + rest);
      ParseHeaderLine(c, k, v, more + rest);
      ParseHeaderLines(WithHeaders(c, c.ctx.request.headers[k := Trim(v)], more + rest), h, ks[1..], rest);
    }
  }

  lemma ParseHeadersEnd(c: Config, rest: string)
    requires c.ctx.state == ExpectHeaders && c.buf == CRLF + rest
    ensures ParseRequest(c) ==
      if c.ctx.request.verb == Post then ParseRequest(Config(c.ctx.(state := ExpectBody), rest))
      else Returned(Config(c.ctx.(state := GotAll), rest), true)
  {
    assert c.buf == "" + CRLF + rest;
    TakeLine(c.buf, "", rest);
  }

  lemma PrintedLineParts(m: string, path: string)
    requires ' ' !in m && ' ' !in path
    ensures var line, rest := m + " " + path + " HTTP/1.1", path + " HTTP/1.1";
      && Find(line, ' ') == |m| < |line| && line[..|m|] == m && line[|m| + 1..] == rest
      && Find(rest, ' ') == |path| < |rest| && rest[..|path|] == path && rest[|path| + 1..] == "HTTP/1.1"
  {
    assert m + " " + path + " HTTP/1.1" == m + " " + path + " " + "HTTP/1.1";
    assert path + " HTTP/1.1" == path + " " + "HTTP/1.1";
    LineParts(m, path, "HTTP/1.1");
  }

  lemma TargetParts(req: Request, rest: string, path: string, version: string)
    requires Find(rest, ' ') == |path| < |rest| && rest[..|path|] == path && rest[|path| + 1..] == version
    requires IsVersion(version, '1')
    ensures var q := Find(path, '?');
      ProcessTarget(req, rest) ==
      (true, req.(version := Http11, path := path[..q], query := if q < |path| then path[q..] else req.query))
  {
    assert path[..|path|] == path;
  }

  lemma Http11IsVersion()
    ensures IsVersion("HTTP/1.1", '1')
  {
  }

  /** The request line of a path without a space. */
  lemma ProcessPrintedLine(req: Request, m: string, path: string)
    requires MethodOf(m) != Invalid && ' ' !in m && ' ' !in path
    ensures var q := Find(path, '?');
      ProcessRequestLine(req, m + " " + path + " HTTP/1.1") ==
      (true, req.(verb := MethodOf(m), version := Http11, path := path[..q],
                  query := if q < |path| then path[q..] else req.query))
  {
    PrintedLineParts(m, path);
    Http11IsVersion();
    TargetParts(req.(verb := MethodOf(m)), path + " HTTP/1.1", path, "HTTP/1.1");
  }

  lemma PrintedLineIsPlain(verb: Method, path: string)
    requires NoCrlf(path)
    ensures NoCrlf(MethodString(verb) + " " + path + " HTTP/1.1")
  {
    MethodRoundTrip(verb);
    var m := MethodString(verb);
    JoinNoCrlf(m, ' ', path);
    JoinNoCrlf(m + [' '] + path, ' ', "HTTP/1.1");
    assert m + [' '] + path + [' '] + "HTTP/1.1" == m + " " + path + " HTTP/1.1";
  }

  /** What a fresh parser can make of the head of a printed request: the path is split at
      the first question mark, and values lose the space around them. */
  function Recovered(req: Request): Request {
    var q := Find(req.path, '?');
    Request(req.verb, Http11, req.path[..q], req.path[q..], "", MapValues(Trim, req.headers))
  }

  predicate PrintableHead(req: Request) {
    req.verb != Invalid && ' ' !in req.path && NoCrlf(req.path) && PlainHeaders(req.headers)
  }

  lemma ParsePrintedLine(req: Request, rest: string)
    requires PrintableHead(req)
    ensures var c := Config(FRESH_CONTEXT, MethodString(req.verb) + " " + req.path + " HTTP/1.1" + CRLF + rest);
      ParseRequest(c) ==
      ParseRequest(Config(Context(ExpectHeaders, Recovered(req).(headers := map[]), EMPTY_RESPONSE), rest))
  {
    var m := MethodString(req.verb);
    var line := m + " " + req.path + " HTTP/1.1";
    var c := Config(FRESH_CONTEXT, line + CRLF + rest);
    MethodRoundTrip(req.verb);
    PrintedLineIsPlain(req.verb, req.path);
    TakeLine(c.buf, line, rest);
    ProcessPrintedLine(EMPTY_REQUEST, m, req.path);
    assert RequestTurn(c).config ==
      Config(Context(ExpectHeaders, Recovered(req).(headers := map[]), EMPTY_RESPONSE), rest);
  }

  lemma EmptyPlus(h: map<string, string>)
    ensures map[] + h == h
  {
  }

  lemma AllHeadersRead(h: map<string, string>, ks: seq<string>)
    requires Lists(ks, h)
    ensures HeadersAfter(Trim, map[], h, ks) == MapValues(Trim, h)
  {
    HeadersAfterListing(Trim, map[], h, ks);
    EmptyPlus(MapValues(Trim, h));
  }

  lemma ParseHeaderBlock(d: Config, h: map<string, string>, ks: seq<string>, rest: string)
    requires d.ctx.state == ExpectHeaders && d.ctx.request.headers == map[] && PlainHeaders(h) && Lists(ks, h)
    requires d.buf == HeaderLines(h, ks) + (CRLF + rest)
    ensures ParseRequest(d) ==
      var req := d.ctx.request.(headers := MapValues(Trim, h));
      if req.verb == Post then ParseRequest(Config(d.ctx.(state := ExpectBody, request := req), rest))
      else Returned(Config(d.ctx.(state := GotAll, request := req), rest), true)
  {
    AllHeadersRead(h, ks);
    ParseHeaderLines(d, h, ks, CRLF + rest);
    ParseHeadersEnd(WithHeaders(d, MapValues(Trim, h), CRLF + rest), rest);
  }

  lemma RequestBytesParts(req: Request, ks: seq<string>, suffix: string)
    requires forall k :: k in ks ==> k in req.headers
    ensures RequestBytes(req, ks) + suffix ==
      MethodString(req.verb) + " " + req.path + " HTTP/1.1" + CRLF
      + (HeaderLines(req.headers, ks) + (CRLF + (req.body + suffix)))
  {
  }

  lemma ParsePrintedHead(req: Request, ks: seq<string>, suffix: string)
    requires PrintableHead(req) && Lists(ks, req.headers)
    ensures ParseRequest(Config(FRESH_CONTEXT, RequestBytes(req, ks) + suffix)) ==
      var ctx := Context(if req.verb == Post then ExpectBody else GotAll, Recovered(req), EMPTY_RESPONSE);
      var d := Config(ctx, req.body + suffix);
      if req.verb == Post then ParseRequest(d) else Returned(d, true)
  {
    RequestBytesParts(req, ks, suffix);
    var rest := HeaderLines(req.headers, ks) + (CRLF + (req.body + suffix));
    ParsePrintedLine(req, rest);
    var d := Config(Context(ExpectHeaders, Recovered(req).(headers := map[]), EMPTY_RESPONSE), rest);
    ParseHeaderBlock(d, req.headers, ks, req.body + suffix);
    assert d.ctx.request.(headers := MapValues(Trim, req.headers)) == Recovered(req);
  }

  /** A request without a body, printed and followed by anything, is recovered, and the
      parser stops right behind it. */
  lemma RequestRoundTrip(req: Request, ks: seq<string>, suffix: string)
    requires PrintableHead(req) && Lists(ks, req.headers) && req.verb != Post && req.body == ""
    ensures ParseRequest(Config(FRESH_CONTEXT, RequestBytes(req, ks) + suffix)) ==
      Returned(Config(Context(GotAll, Recovered(req), EMPTY_RESPONSE), suffix), true)
  {
    ParsePrintedHead(req, ks, suffix);
    assert req.body + suffix == suffix;
  }

  /** A POST whose length header tells the length of its body is recovered with its body,
      and the parser stops right behind it, if the length fits an `int`. */
  lemma PostRoundTrip(req: Request, ks: seq<string>, suffix: string)
    requires PrintableHead(req) && Lists(ks, req.headers) && req.verb == Post
    requires Lookup(req.headers, "Content-Length") == Decimal(|req.body|) && |req.body| < 0x8000_0000
    ensures ParseRequest(Config(FRESH_CONTEXT, RequestBytes(req, ks) + suffix)) ==
      Returned(Config(Context(GotAll, Recovered(req).(body := req.body), EMPTY_RESPONSE), suffix), true)
  {
    ParsePrintedHead(req, ks, suffix);
    LengthIsRecovered(req);
    TakeAnnouncedBody(Recovered(req), req.body, suffix);
  }

  lemma TakeAnnouncedBody(req: Request, body: string, suffix: string)
    requires AnnouncesLength(req) && AnnouncedLength(req) == |body|
    ensures ParseRequest(Config(Context(ExpectBody, req, EMPTY_RESPONSE), body + suffix)) ==
      Returned(Config(Context(GotAll, req.(body := body), EMPTY_RESPONSE), suffix), true)
  {
    BodyOutcome(Config(Context(ExpectBody, req, EMPTY_RESPONSE), body + suffix));
  }

  /** The query keeps its question mark, so nothing of the path is lost. */
  lemma PathIsRecovered(req: Request)
    ensures Recovered(req).path + Recovered(req).query == req.path
  {
  }

  lemma LengthIsRecovered(req: Request)
    requires Lookup(req.headers, "Content-Length") == Decimal(|req.body|)
    ensures AnnouncesLength(Recovered(req))
    ensures AnnouncedLength(Recovered(req)) == |req.body| <==> |req.body| < 0x8000_0000
  {
    var s := Decimal(|req.body|);
    DecimalIsTrimmed(|req.body|);
    TrimIffTrimmed(s);
    assert Lookup(Recovered(req).headers, "Content-Length") == s;
    AtoiDecimal(|req.body|);
  }

  lemma DecimalIsTrimmed(n: nat)
    ensures Trimmed(Decimal(n)) && NoCrlf(Decimal(n)) && ':' !in Decimal(n) && ' ' !in Decimal(n)
  {
    var s := Decimal(n);
    assert IsDigit(s[0]) && IsDigit(s[|s| - 1]);
    forall i | 0 <= i < |s| ensures !CrlfAt(s, i) { assert IsDigit(s[i]); }
  }

  /** The header values come back as they were exactly when they had no space around them. */
  lemma HeadersRecoveredIff(req: Request)
    ensures Recovered(req).headers == req.headers <==> forall k :: k in req.headers ==> Trimmed(req.headers[k])
  {
    MapValuesIff(Trim, req.headers);
    forall k | k in req.headers ensures Trim(req.headers[k]) == req.headers[k] <==> Trimmed(req.headers[k]) {
      TrimIffTrimmed(req.headers[k]);
    }
  }

  // ---------------------------------------------------------------- what the client builds

  function GetRequest(path: string): Request { Request(Get, Http11, path, "", "", map[]) }

  function PostRequest(path: string, body: string, contentType: string): Request {
    Request(Post, Http11, path, "", body, map["Content-Type" := contentType, "Content-Length" := Decimal(|body|)])
  }

  /** What `get` puts on the wire, byte for byte. */
  lemma GetBytes(path: string)
    ensures RequestBytes(GetRequest(path), []) == "GET " + path + " HTTP/1.1\r\n\r\n"
  {
    assert HeaderLines(map[], []) == "";
    assert "GET" + " " + path + " HTTP/1.1" + CRLF + ("" + CRLF + "") == "GET " + path + " HTTP/1.1\r\n\r\n";
  }

  const POST_KEYS := ["Content-Length", "Content-Type"]

  lemma TwoKeys(a: string, b: string, h: map<string, string>)
    requires a != b && h.Keys == {a, b}
    ensures Lists([a, b], h) && (Below(a, b) ==> Ascending([a, b]))
  {
    forall k ensures k in [a, b] <==> k in h { assert k in h <==> k in h.Keys; }
  }

  /** The headers of a `post` are printed in ascending order ... */
  lemma PostKeys(path: string, body: string, contentType: string)
    ensures Lists(POST_KEYS, PostRequest(path, body, contentType).headers) && Ascending(POST_KEYS)
  {
    LengthBeforeType();
    assert |"Content-Length"| != |"Content-Type"|;
    TwoKeys("Content-Length", "Content-Type", PostRequest(path, body, contentType).headers);
  }

  lemma JoinedBytes(req: Request, ks: seq<string>, first: string, lines: string)
    requires forall k :: k in ks ==> k in req.headers
    requires first == MethodString(req.verb) + " " + req.path + " HTTP/1.1" + CRLF
    requires lines == HeaderLines(req.headers, ks)
    ensures RequestBytes(req, ks) == first + (lines + "\r\n" + req.body)
  {
  }

  lemma PostHeaders(path: string, body: string, contentType: string)
    ensures var h := PostRequest(path, body, contentType).headers;
      && "Content-Type" in h && h["Content-Type"] == contentType
      && "Content-Length" in h && h["Content-Length"] == Decimal(|body|)
  {
    assert |"Content-Length"| != |"Content-Type"|;
  }

  /** ... and this is what it puts on the wire. */
  lemma PostBytes(path: string, body: string, contentType: string)
    requires Lists(POST_KEYS, PostRequest(path, body, contentType).headers)
    ensures RequestBytes(PostRequest(path, body, contentType), POST_KEYS) ==
      "POST " + path + " HTTP/1.1\r\n"
      + ("Content-Length: " + Decimal(|body|) + "\r\n" + ("Content-Type: " + contentType + "\r\n") + "\r\n" + body)
  {
    PostHeaders(path, body, contentType);
    PostHeaderLines(PostRequest(path, body, contentType).headers);
    PostLineBytes(path);
    JoinedBytes(PostRequest(path, body, contentType), POST_KEYS, "POST " + path + " HTTP/1.1\r\n",
                "Content-Length: " + Decimal(|body|) + "\r\n" + ("Content-Type: " + contentType + "\r\n"));
  }

  lemma PostLineBytes(path: string)
    ensures "POST" + " " + path + " HTTP/1.1" + CRLF == "POST " + path + " HTTP/1.1\r\n"
  {
  }

  lemma PostHeaderLines(h: map<string, string>)
    requires "Content-Length" in h && "Content-Type" in h
    ensures HeaderLines(h, POST_KEYS) ==
      "Content-Length: " + h["Content-Length"] + "\r\n" + ("Content-Type: " + h["Content-Type"] + "\r\n")
  {
    var ks := POST_KEYS;
    OneHeaderLine("Content-Type", h["Content-Type"]);
    OneHeaderLine("Content-Length", h["Content-Length"]);
    assert "Content-Type" + ": " == "Content-Type: " && "Content-Length" + ": " == "Content-Length: ";
    assert ks[1..] == ["Content-Type"] && ks[1..][1..] == [];
    assert HeaderLines(h, ks[1..]) == "Content-Type: " + h["Content-Type"] + "\r\n";
  }

  lemma OneHeaderLine(k: string, v: string)
    ensures k + ": " + v + CRLF + "" == k + ": " + v + "\r\n"
  {
  }

  lemma LengthBeforeType()
    ensures Below("Content-Length", "Content-Type")
  {
    BelowBehind("Content-", "Length", "Type");
    assert "Content-" + "Length" == "Content-Length" && "Content-" + "Type" == "Content-Type";
  }

  lemma {:induction false} BelowBehind(s: string, a: string, b: string)
    requires Below(a, b)
    ensures Below(s + a, s + b)
  {
    if s == "" {
      assert s + a == a && s + b == b;
    } else {
      BelowBehind(s[1..], a, b);
      assert (s + a)[1..] == s[1..] + a && (s + b)[1..] == s[1..] + b;
    }
  }

  /** What `get` sends is understood by the server side as a request of the method GET and version
      1.1 for the path, without a header or a body, and nothing of what follows is touched. */
  lemma GetRoundTrip(path: string, suffix: string)
    requires ' ' !in path && NoCrlf(path)
    ensures var o := ParseRequest(Config(FRESH_CONTEXT, RequestBytes(GetRequest(path), []) + suffix));
      && o.Returned? && o.ok && o.config.ctx.state == GotAll && o.config.buf == suffix
      && var r := o.config.ctx.request;
         r == Request(Get, Http11, r.path, r.query, "", map[]) && r.path + r.query == path
  {
    RequestRoundTrip(GetRequest(path), [], suffix);
    PathIsRecovered(GetRequest(path));
    assert MapValues(Trim, map[]) == map[];
  }

  /** The bytes of a `get`, followed by anything, parse to the path that was asked for exactly
      when it holds no space and no line end. */
  lemma GetSurvivesIff(path: string, suffix: string)
    ensures var o := ParseRequest(Config(FRESH_CONTEXT, RequestBytes(GetRequest(path), []) + suffix));
      (o.Returned? && o.ok && o.config.ctx.request.path + o.config.ctx.request.query == path)
      <==> ' ' !in path && NoCrlf(path)
  {
    var c := Config(FRESH_CONTEXT, RequestBytes(GetRequest(path), []) + suffix);
    if ' ' !in path && NoCrlf(path) {
      GetRoundTrip(path, suffix);
    } else {
      ParsedTargetIsPlain(c);
    }
  }

  lemma PostRequestIsPrintable(path: string, body: string, contentType: string)
    requires ' ' !in path && NoCrlf(path) && NoCrlf(contentType)
    ensures PrintableHead(PostRequest(path, body, contentType))
  {
    DecimalIsTrimmed(|body|);
  }

  /** What `post` sends is understood by the server side: method POST, the body, its length and its
      type under their names, path and query that make up the path; and nothing of what follows is
      touched. */
  lemma PostedRequestRoundTrip(path: string, body: string, contentType: string, ks: seq<string>, suffix: string)
    requires ' ' !in path && NoCrlf(path) && NoCrlf(contentType) && Trimmed(contentType) && |body| < 0x8000_0000
    requires Lists(ks, PostRequest(path, body, contentType).headers)
    ensures var req := PostRequest(path, body, contentType);
      var o := ParseRequest(Config(FRESH_CONTEXT, RequestBytes(req, ks) + suffix));
      && o.Returned? && o.ok && o.config.ctx.state == GotAll && o.config.buf == suffix
      && var r := o.config.ctx.request;
         && r == Request(Post, Http11, r.path, r.query, body, r.headers) && r.path + r.query == path
         && Lookup(r.headers, "Content-Type") == contentType
         && Lookup(r.headers, "Content-Length") == Decimal(|body|)
         && r.headers == req.headers
  {
    var req := PostRequest(path, body, contentType);
    PostRequestIsPrintable(path, body, contentType);
    PostRoundTrip(req, ks, suffix);
    PostIsRecovered(path, body, contentType);
    PostHeaders(path, body, contentType);
  }

  lemma PostIsRecovered(path: string, body: string, contentType: string)
    requires Trimmed(contentType)
    ensures var req := PostRequest(path, body, contentType);
      var r := Recovered(req).(body := body);
      r == req.(path := r.path, query := r.query) && r.path + r.query == path
  {
    var req := PostRequest(path, body, contentType);
    PostHeadersAreTrimmed(path, body, contentType);
    HeadersRecoveredIff(req);
    PathIsRecovered(req);
  }

  lemma PostHeadersAreTrimmed(path: string, body: string, contentType: string)
    requires Trimmed(contentType)
    ensures var h := PostRequest(path, body, contentType).headers; forall k :: k in h ==> Trimmed(h[k])
  {
    DecimalIsTrimmed(|body|);
  }

  /** The body of a `post` survives, whatever follows it, exactly when its length fits an
      `int`; otherwise the parser spins or takes another length. */
  lemma PostBodySurvivesIff(path: string, body: string, contentType: string, ks: seq<string>, suffix: string)
    requires ' ' !in path && NoCrlf(path) && NoCrlf(contentType)
    requires Lists(ks, PostRequest(path, body, contentType).headers)
    ensures var req := PostRequest(path, body, contentType);
      var o := ParseRequest(Config(FRESH_CONTEXT, RequestBytes(req, ks) + suffix));
      o.Returned? && o.config.ctx.request.body == body <==> |body| < 0x8000_0000
  {
    var req := PostRequest(path, body, contentType);
    PostRequestIsPrintable(path, body, contentType);
    ParsePrintedHead(req, ks, suffix);
    LengthIsRecovered(req);
    BodyIsTakenIff(Recovered(req), body, suffix);
  }

  lemma BodyIsTakenIff(req: Request, body: string, suffix: string)
    requires AnnouncesLength(req)
    ensures var o := ParseRequest(Config(Context(ExpectBody, req, EMPTY_RESPONSE), body + suffix));
      o.Returned? && o.config.ctx.request.body == body <==> AnnouncedLength(req) == |body|
  {
    BodyOutcome(Config(Context(ExpectBody, req, EMPTY_RESPONSE), body + suffix));
    var n := AnnouncedLength(req);
    if 0 <= n <= |body + suffix| { assert |(body + suffix)[..n]| == n; }
    assert (body + suffix)[..|body|] == body;
  }

  // ---------------------------------------------------------------- responses

  const SNPRINTF_ROOM := 31

  /** The least length whose line does not fit. */
  const MAX_PRINTED_LENGTH := 10_000_000_000_000

  /** `snprintf` into a buffer of 32 bytes. */
  function Snprintf(s: string): string { if |s| <= SNPRINTF_ROOM then s else s[..SNPRINTF_ROOM] }

  function StatusLine(resp: Response): string {
    Snprintf("HTTP/1.1 " + Decimal(resp.statusCode) + " ") + resp.statusMessage
  }

  function LengthLine(n: nat): string { Snprintf("Content-Length: " + Decimal(n) + CRLF) }

  /** The lines that `appendToBuffer` generates itself. */
  function GeneratedLines(resp: Response): string {
    if resp.closeConnection then "Connection: close" + CRLF
    else LengthLine(|resp.body|) + ("Connection: Keep-Alive" + CRLF)
  }

  function ResponseBytes(resp: Response, ks: seq<string>): string
    requires forall k :: k in ks ==> k in resp.headers
  {
    StatusLine(resp) + CRLF + (GeneratedLines(resp) + (HeaderLines(resp.headers, ks) + (CRLF + resp.body)))
  }

  /** `parseResponse` keeps the space that the printer puts behind the colon. */
  function Spaced(v: string): string { " " + v }

  function GeneratedHeaders(resp: Response): map<string, string> {
    if resp.closeConnection then map["Connection" := " close"]
    else map["Content-Length" := Spaced(Decimal(|resp.body|)), "Connection" := " Keep-Alive"]
  }

  function WithFields(c: Config, headers: map<string, string>, buf: string): Config {
    Config(c.ctx.(response := c.ctx.response.(headers := headers)), buf)
  }

  lemma ParseField(c: Config, k: string, v: string, rest: string)
    requires c.ctx.state == ExpectHeaders && c.buf == k + ": " + v + CRLF + rest
    requires ':' !in k && NoCrlf(k) && NoCrlf(v)
    ensures ParseResponse(c) == ParseResponse(WithFields(c, c.ctx.response.headers[k := Spaced(v)], rest))
  {
    HeaderLineSplits(k, v);
    TakeLine(c.buf, k + ": " + v, rest);
    assert ResponseTurn(c) == Turn(WithFields(c, c.ctx.response.headers[k := Spaced(v)], rest), true, true);
  }

  lemma {:induction false} ParseFields(c: Config, h: map<string, string>, ks: seq<string>, rest: string)
    requires c.ctx.state == ExpectHeaders && PlainHeaders(h) && forall k :: k in ks ==> k in h
    requires c.buf == HeaderLines(h, ks) + rest
    ensures ParseResponse(c) == ParseResponse(WithFields(c, HeadersAfter(Spaced, c.ctx.response.headers, h, ks), rest))
    decreases |ks|
  {
    if ks == [] {
      assert c == WithFields(c, c.ctx.response.headers, rest);
    } else {
      var k, v, more := ks[0], h[ks[0]], HeaderLines(h, ks[1..]);
      assert c.buf == k + ": " + v + CRLF + (more + rest);
      ParseField(c, k, v, more + rest);
      ParseFields(WithFields(c, c.ctx.response.headers[k := Spaced(v)], more + rest), h, ks[1..], rest);
    }
  }

  lemma ParseFieldBlock(c: Config, h: map<string, string>, ks: seq<string>, body: string)
    requires c.ctx.state == ExpectHeaders && PlainHeaders(h) && Lists(ks, h)
    requires c.buf == HeaderLines(h, ks) + (CRLF + body)
    ensures ParseResponse(c) ==
      var r := c.ctx.response.(headers := c.ctx.response.headers + MapValues(Spaced, h), body := body);
      Returned(Config(c.ctx.(state := GotAll, response := r), ""), true)
  {
    ParseFields(c, h, ks, CRLF + body);
    HeadersAfterListing(Spaced, c.ctx.response.headers, h, ks);
    ParseFieldsEnd(WithFields(c, c.ctx.response.headers + MapValues(Spaced, h), CRLF + body), body);
  }

  lemma ParseFieldsEnd(c: Config, body: string)
    requires c.ctx.state == ExpectHeaders && c.buf == CRLF + body
    ensures ParseResponse(c) ==
      Returned(Config(c.ctx.(state := GotAll, response := c.ctx.response.(body := body)), ""), true)
  {
    assert c.buf == "" + CRLF + body;
    TakeLine(c.buf, "", body);
    var d := Config(c.ctx.(state := ExpectBody), body);
    assert ParseResponse(c) == ParseResponse(d);
  }

  /** A length fits the print buffer exactly when it has at most thirteen digits. */
  lemma LengthLineFits(n: nat)
    ensures LengthLine(n) == "Content-Length" + ": " + Decimal(n) + CRLF <==> n < MAX_PRINTED_LENGTH
  {
    assert Power10(13) == MAX_PRINTED_LENGTH;
    var line := "Content-Length: " + Decimal(n) + CRLF;
    assert line == "Content-Length" + ": " + Decimal(n) + CRLF;
    if n < MAX_PRINTED_LENGTH { DecimalLength(n, 13); } else { DecimalAtLeast(n, 13); }
  }

  /** What is left of a longer line: no line end, so the next line belongs to the value. */
  function CutLength(n: nat): (s: string)
    requires n >= MAX_PRINTED_LENGTH
    ensures |s| == 15
  {
    DecimalAtLeast(n, 13);
    (Decimal(n) + CRLF)[..15]
  }

  lemma LengthLineIsCut(n: nat)
    requires n >= MAX_PRINTED_LENGTH
    ensures LengthLine(n) == "Content-Length: " + CutLength(n) && '\n' !in CutLength(n)
  {
    DecimalAtLeast(n, 13);
    var d := Decimal(n);
    assert "Content-Length: " + d + CRLF == "Content-Length: " + (d + CRLF);
    assert (d + CRLF)[..|d|] == d;
    forall i | 0 <= i < 15 ensures (d + CRLF)[i] != '\n' { assert i < |d| ==> IsDigit(d[i]); }
  }

  lemma ParseClose(c: Config, rest: string)
    requires c.ctx.state == ExpectHeaders && c.ctx.response.headers == map[]
    requires c.buf == "Connection: close" + CRLF + rest
    ensures ParseResponse(c) == ParseResponse(WithFields(c, map["Connection" := " close"], rest))
  {
    assert c.buf == "Connection" + ": " + "close" + CRLF + rest && Spaced("close") == " close";
    ParseField(c, "Connection", "close", rest);
  }

  lemma ParseKeepAlive(c: Config, n: string, rest: string)
    requires c.ctx.state == ExpectHeaders && c.ctx.response.headers == map["Content-Length" := Spaced(n)]
    requires c.buf == "Connection: Keep-Alive" + CRLF + rest
    ensures ParseResponse(c) ==
      ParseResponse(WithFields(c, map["Content-Length" := Spaced(n), "Connection" := " Keep-Alive"], rest))
  {
    assert c.buf == "Connection" + ": " + "Keep-Alive" + CRLF + rest && Spaced("Keep-Alive") == " Keep-Alive";
    ParseField(c, "Connection", "Keep-Alive", rest);
  }

  lemma ParseLength(c: Config, n: nat, rest: string)
    requires c.ctx.state == ExpectHeaders && c.ctx.response.headers == map[]
    requires n < MAX_PRINTED_LENGTH && c.buf == LengthLine(n) + rest
    ensures ParseResponse(c) == ParseResponse(WithFields(c, map["Content-Length" := Spaced(Decimal(n))], rest))
  {
    LengthLineFits(n);
    DecimalIsTrimmed(n);
    ParseField(c, "Content-Length", Decimal(n), rest);
  }

  /** What the parser makes of the generated lines. */
  function ReadHeaders(resp: Response): map<string, string> {
    if resp.closeConnection || |resp.body| < MAX_PRINTED_LENGTH then GeneratedHeaders(resp)
    else map["Content-Length" := Spaced(CutLength(|resp.body|) + "Connection: Keep-Alive")]
  }

  lemma ParseCutLength(c: Config, n: nat, rest: string)
    requires c.ctx.state == ExpectHeaders && c.ctx.response.headers == map[] && n >= MAX_PRINTED_LENGTH
    requires c.buf == LengthLine(n) + ("Connection: Keep-Alive" + CRLF + rest)
    ensures ParseResponse(c) ==
      ParseResponse(WithFields(c, map["Content-Length" := Spaced(CutLength(n) + "Connection: Keep-Alive")], rest))
  {
    LengthLineIsCut(n);
    var v := CutLength(n) + "Connection: Keep-Alive";
    assert '\n' !in v;
    assert c.buf == "Content-Length" + ": " + v + CRLF + rest;
    ParseField(c, "Content-Length", v, rest);
  }

  lemma ParseKeptAlive(c: Config, n: nat, rest: string)
    requires c.ctx.state == ExpectHeaders && c.ctx.response.headers == map[] && n < MAX_PRINTED_LENGTH
    requires c.buf == LengthLine(n) + ("Connection: Keep-Alive" + CRLF + rest)
    ensures ParseResponse(c) == ParseResponse(
      WithFields(c, map["Content-Length" := Spaced(Decimal(n)), "Connection" := " Keep-Alive"], rest))
  {
    var more := "Connection: Keep-Alive" + CRLF + rest;
    ParseLength(c, n, more);
    ParseKeepAlive(WithFields(c, map["Content-Length" := Spaced(Decimal(n))], more), Decimal(n), rest);
  }

  lemma ParseGenerated(c: Config, resp: Response, rest: string)
    requires c.ctx.state == ExpectHeaders && c.ctx.response.headers == map[]
    requires c.buf == GeneratedLines(resp) + rest
    ensures ParseResponse(c) == ParseResponse(WithFields(c, ReadHeaders(resp), rest))
  {
    var n := |resp.body|;
    if resp.closeConnection {
      ParseClose(c, rest);
    } else {
      assert c.buf == LengthLine(n) + ("Connection: Keep-Alive" + CRLF + rest);
      if n < MAX_PRINTED_LENGTH { ParseKeptAlive(c, n, rest); } else { ParseCutLength(c, n, rest); }
    }
  }

  lemma StatusLineIsPlain(code: StatusCode, msg: string)
    requires NoCrlf(msg)
    ensures NoCrlf("HTTP/1.1 " + Decimal(code) + " " + msg)
  {
    var n := Decimal(code);
    DecimalIsTrimmed(code);
    JoinNoCrlf(n, ' ', msg);
    JoinNoCrlf("HTTP/1.1", ' ', n + [' '] + msg);
    assert "HTTP/1.1" + [' '] + (n + [' '] + msg) == "HTTP/1.1 " + n + " " + msg;
  }

  lemma StatusLineVersion(rest: string)
    ensures var line := "HTTP/1.1 " + rest; Find(line, ' ') == 8 && IsHttp1(line) && line[9..] == rest
  {
    var line := "HTTP/1.1 " + rest;
    assert "HTTP/1.1" + [' '] + rest == line;
    FindAppend("HTTP/1.1", ' ', rest);
    assert line[..5] == "HTTP/";
  }

  lemma StatusLineParts(code: StatusCode, msg: string)
    ensures var line, rest := "HTTP/1.1 " + Decimal(code) + " " + msg, Decimal(code) + " " + msg;
      && Find(line, ' ') == 8 && IsHttp1(line) && line[9..] == rest
      && Find(rest, ' ') == |Decimal(code)| < |rest| && rest[..|Decimal(code)|] == Decimal(code)
  {
    var n := Decimal(code);
    DecimalIsTrimmed(code);
    StatusLineVersion(n + " " + msg);
    assert "HTTP/1.1 " + n + " " + msg == "HTTP/1.1 " + (n + " " + msg);
    assert n + [' '] + msg == n + " " + msg;
    FindAppend(n, ' ', msg);
  }

  lemma StatusLineFits(resp: Response)
    ensures StatusLine(resp) == "HTTP/1.1 " + Decimal(resp.statusCode) + " " + resp.statusMessage
  {
    assert Power10(3) == 1000;
    DecimalLength(resp.statusCode, 3);
  }

  lemma StatusIsRecovered(code: StatusCode)
    ensures StatusOf(Atoi(Decimal(code))) == code
  {
    AtoiDecimal(code);
  }

  lemma ParseStatusLine(c: Config, resp: Response, rest: string)
    requires c.ctx.state == ExpectRequestLine && c.buf == StatusLine(resp) + CRLF + rest && NoCrlf(resp.statusMessage)
    ensures ParseResponse(c) == ParseResponse(
      Config(c.ctx.(state := ExpectHeaders, response := c.ctx.response.(statusCode := resp.statusCode)), rest))
  {
    StatusTurnOf(c, resp, rest);
    assert ResponseTurn(c) == StatusTurn(c);
  }

  lemma ProcessPrintedStatus(r: Response, resp: Response)
    ensures ProcessStatusLine(r, StatusLine(resp)) == (true, r.(statusCode := resp.statusCode))
  {
    StatusLineFits(resp);
    StatusIsRecovered(resp.statusCode);
    StatusLineParts(resp.statusCode, resp.statusMessage);
  }

  lemma PrintedStatusIsPlain(resp: Response)
    requires NoCrlf(resp.statusMessage)
    ensures NoCrlf(StatusLine(resp))
  {
    StatusLineFits(resp);
    StatusLineIsPlain(resp.statusCode, resp.statusMessage);
  }

  lemma StatusTurnOf(c: Config, resp: Response, rest: string)
    requires c.buf == StatusLine(resp) + CRLF + rest && NoCrlf(resp.statusMessage)
    ensures
      var r := c.ctx.response.(statusCode := resp.statusCode);
      StatusTurn(c) == Turn(Config(c.ctx.(state := ExpectHeaders, response := r), rest), true, true)
  {
    PrintedStatusIsPlain(resp);
    TakeLine(c.buf, StatusLine(resp), rest);
    ProcessPrintedStatus(c.ctx.response, resp);
  }

  /** Every printed response is read: its status code, its body, and its headers on top of
      the generated ones as they are read, each value with the space in front of it. */
  lemma ResponseRoundTrip(resp: Response, ks: seq<string>)
    requires PlainHeaders(resp.headers) && Lists(ks, resp.headers) && NoCrlf(resp.statusMessage)
    ensures ParseResponse(Config(FRESH_CONTEXT, ResponseBytes(resp, ks))) ==
      var r := Response(
        ReadHeaders(resp) + MapValues(Spaced, resp.headers), resp.statusCode, "", false, resp.body);
      Returned(Config(Context(GotAll, EMPTY_REQUEST, r), ""), true)
  {
    var block := HeaderLines(resp.headers, ks) + (CRLF + resp.body);
    ParseStatusLine(Config(FRESH_CONTEXT, ResponseBytes(resp, ks)), resp, GeneratedLines(resp) + block);
    var r := EMPTY_RESPONSE.(statusCode := resp.statusCode);
    var d := Config(Context(ExpectHeaders, EMPTY_REQUEST, r), GeneratedLines(resp) + block);
    ParseGenerated(d, resp, block);
    ParseFieldBlock(WithFields(d, ReadHeaders(resp), block), resp.headers, ks, resp.body);
  }

  /** The status line and the generated lines of a response on the wire, byte for byte, if its
      length can be printed. */
  lemma ResponseBytesAre(resp: Response, ks: seq<string>)
    requires (forall k :: k in ks ==> k in resp.headers) && (resp.closeConnection || |resp.body| < 10_000_000_000_000)
    ensures
      var generated := if resp.closeConnection then "Connection: close\r\n"
                       else "Content-Length: " + Decimal(|resp.body|) + "\r\n" + "Connection: Keep-Alive\r\n";
      ResponseBytes(resp, ks) ==
        "HTTP/1.1 " + Decimal(resp.statusCode) + " " + resp.statusMessage + "\r\n"
        + (generated + (HeaderLines(resp.headers, ks) + ("\r\n" + resp.body)))
  {
    StatusLineFits(resp);
    if resp.closeConnection {
      assert "Connection: close" + CRLF == "Connection: close\r\n";
    } else {
      LengthLineFits(|resp.body|);
      assert "Content-Length" + ": " == "Content-Length: ";
      assert "Connection: Keep-Alive" + CRLF == "Connection: Keep-Alive\r\n";
    }
  }

  predicate LengthIsPrinted(resp: Response) { resp.closeConnection || |resp.body| < MAX_PRINTED_LENGTH }

  /** So the parser gets the headers that were meant exactly when the length line fits its
      buffer, or there is none, or the response overrides both generated headers. */
  lemma ResponseSurvivesIff(resp: Response, ks: seq<string>)
    requires PlainHeaders(resp.headers) && Lists(ks, resp.headers) && NoCrlf(resp.statusMessage)
    ensures var o := ParseResponse(Config(FRESH_CONTEXT, ResponseBytes(resp, ks)));
      o.config.ctx.response.headers == GeneratedHeaders(resp) + MapValues(Spaced, resp.headers) <==>
        LengthIsPrinted(resp) || ("Connection" in resp.headers && "Content-Length" in resp.headers)
  {
    ResponseRoundTrip(resp, ks);
    ReadAsMeantIff(resp);
  }

  /** A response without headers of its own: the parser gets the generated ones exactly when the
      length line fits its buffer, or there is none. */
  lemma GeneratedRecoveredIff(resp: Response)
    requires resp.headers == map[] && NoCrlf(resp.statusMessage)
    ensures var o := ParseResponse(Config(FRESH_CONTEXT, ResponseBytes(resp, [])));
      o.config.ctx.response.headers == GeneratedHeaders(resp) <==> LengthIsPrinted(resp)
  {
    ResponseSurvivesIff(resp, []);
    PlusEmpty(GeneratedHeaders(resp));
    assert MapValues(Spaced, resp.headers) == map[];
  }

  lemma PlusEmpty(h: map<string, string>)
    ensures h + map[] == h
  {
  }

  lemma ReadAsMeantIff(resp: Response)
    ensures
      var own := MapValues(Spaced, resp.headers);
      ReadHeaders(resp) + own == GeneratedHeaders(resp) + own <==>
        LengthIsPrinted(resp) || ("Connection" in resp.headers && "Content-Length" in resp.headers)
  {
    if !LengthIsPrinted(resp) {
      LengthIsNotRead(resp);
      var own := MapValues(Spaced, resp.headers);
      var r, g := ReadHeaders(resp) + own, GeneratedHeaders(resp) + own;
      if "Connection" !in own {
        assert "Connection" in g && "Connection" !in r;
      } else if "Content-Length" !in own {
        assert r["Content-Length"] != g["Content-Length"];
      } else {
        assert r == own && g == own;
      }
    }
  }

  lemma LengthIsNotRead(resp: Response)
    requires !resp.closeConnection && |resp.body| >= MAX_PRINTED_LENGTH
    ensures ReadHeaders(resp)["Content-Length"] != GeneratedHeaders(resp)["Content-Length"]
  {
    var n := |resp.body|;
    var v, d := CutLength(n) + "Connection: Keep-Alive", Decimal(n);
    assert v[15] == 'C' && (|d| > 15 ==> IsDigit(d[15]));
    assert Spaced(v)[1..] == v && Spaced(d)[1..] == d;
  }

  // ---------------------------------------------------------------- the printers themselves

  lemma HeaderLinesAppend(h: map<string, string>, ks: seq<string>, k: string)
    requires k in h && forall x :: x in ks ==> x in h
    ensures HeaderLines(h, ks + [k]) == HeaderLines(h, ks) + (k + ": " + h[k] + CRLF)
    decreases |ks|
  {
    if ks == [] {
      assert [k][1..] == [];
    } else {
      assert (ks + [k])[1..] == ks[1..] + [k];
      HeaderLinesAppend(h, ks[1..], k);
    }
  }

  ghost predicate ListsAllBut(ks: seq<string>, h: map<string, string>, left: set<string>) {
    && (forall k :: k in ks <==> k in h && k !in left)
    && (forall i, j :: 0 <= i < j < |ks| ==> ks[i] != ks[j])
  }

  lemma ListsOneMore(ks: seq<string>, h: map<string, string>, left: set<string>, k: string)
    requires ListsAllBut(ks, h, left) && left <= h.Keys && k in left
    ensures ListsAllBut(ks + [k], h, left - {k})
  {
  }

  /** What is listed is in order, and before everything that is left. */
  ghost predicate AscendingTo(ks: seq<string>, left: set<string>) {
    && Ascending(ks)
    && (forall k, x :: k in ks && x in left ==> Below(k, x))
  }

  lemma AscendOnce(ks: seq<string>, left: set<string>, least: string)
    requires AscendingTo(ks, left) && least in left
    requires forall x :: x in left ==> x == least || Below(least, x)
    ensures AscendingTo(ks + [least], left - {least})
  {
  }

  /** The keys of a header map have one ascending list, so what is printed is a function of the
      message. */
  lemma OrderIsUnique(h: map<string, string>, ks: seq<string>, ls: seq<string>)
    requires Lists(ks, h) && Lists(ls, h) && Ascending(ks) && Ascending(ls)
    ensures ks == ls
  {
    AscendingIsUnique(ks, ls);
  }

  /** The order in which a header map is gone through. */
  method SortedKeys(h: map<string, string>) returns (ks: seq<string>)
    ensures Lists(ks, h) && Ascending(ks)
  {
    ks := [];
    var left := h.Keys;
    while left != {}
      invariant left <= h.Keys && ListsAllBut(ks, h, left) && AscendingTo(ks, left)
      decreases |left|
    {
      var k := Least(left);
      ListsOneMore(ks, h, left, k);
      AscendOnce(ks, left, k);
      ks, left := ks + [k], left - {k};
    }
  }

  lemma OneLineMore(q: string, h: map<string, string>, ks: seq<string>, i: nat)
    requires i < |ks| && forall x :: x in ks ==> x in h
    ensures q + HeaderLines(h, ks[..i]) + (ks[i] + ": " + h[ks[i]] + CRLF) == q + HeaderLines(h, ks[..i + 1])
  {
    HeaderLinesAppend(h, ks[..i], ks[i]);
    assert ks[..i + 1] == ks[..i] + [ks[i]];
  }

  /** The loop over the headers, in the two printers. */
  method PrintHeaders(h: map<string, string>, buf: Buffer) returns (ghost ks: seq<string>)
    requires buf.Valid()
    modifies buf, buf.data
    ensures buf.Valid() && (fresh(buf.data) || buf.data == old(buf.data))
    ensures Lists(ks, h) && Ascending(ks) && buf.Contents() == old(buf.Contents()) + HeaderLines(h, ks)
  {
    ghost var q := buf.Contents();
    var keys := SortedKeys(h);
    ks := keys;
    for i := 0 to |keys|
      invariant buf.Valid() && (fresh(buf.data) || buf.data == old(buf.data))
      invariant buf.Contents() == q + HeaderLines(h, keys[..i])
    {
      PrintHeader(keys[i], h[keys[i]], buf);
      OneLineMore(q, h, keys, i);
    }
    assert keys[..|keys|] == keys;
  }

  lemma Concat4(q: string, a: string, b: string, c: string, d: string)
    ensures (((q + a) + b) + c) + d == q + (a + b + c + d)
  {
  }

  lemma Concat3(q: string, a: string, b: string, c: string)
    ensures ((q + a) + b) + c == q + (a + (b + c))
  {
  }

  /** Appends four pieces one after the other. */
  method Append4(buf: Buffer, a: string, b: string, c: string, d: string)
    requires buf.Valid()
    modifies buf, buf.data
    ensures buf.Valid() && (fresh(buf.data) || buf.data == old(buf.data))
    ensures buf.Contents() == old(buf.Contents()) + (a + b + c + d)
  {
    ghost var q := buf.Contents();
    buf.Append(a);
    buf.Append(b);
    buf.Append(c);
    buf.Append(d);
    Concat4(q, a, b, c, d);
  }

  method PrintHeader(k: string, v: string, buf: Buffer)
    requires buf.Valid()
    modifies buf, buf.data
    ensures buf.Valid() && (fresh(buf.data) || buf.data == old(buf.data))
    ensures buf.Contents() == old(buf.Contents()) + (k + ": " + v + CRLF)
  {
    Append4(buf, k, ": ", v, CRLF);
  }

  /** The headers, the empty line and the body. */
  method PrintTail(h: map<string, string>, body: string, buf: Buffer) returns (ghost ks: seq<string>)
    requires buf.Valid()
    modifies buf, buf.data
    ensures buf.Valid() && (fresh(buf.data) || buf.data == old(buf.data))
    ensures Lists(ks, h) && Ascending(ks)
    ensures buf.Contents() == old(buf.Contents()) + (HeaderLines(h, ks) + (CRLF + body))
  {
    ghost var q := buf.Contents();
    ks := PrintHeaders(h, buf);
    buf.Append(CRLF);
    if body != "" {
      buf.Append(body);
    }
    Concat3(q, HeaderLines(h, ks), CRLF, body);
  }

  /** The printing part of `sendRequest`, into a new buffer. */
  method PrintRequest(req: Request) returns (buf: Buffer, ghost ks: seq<string>)
    ensures fresh(buf) && fresh(buf.data) && buf.Valid()
    ensures Lists(ks, req.headers) && Ascending(ks) && buf.Contents() == RequestBytes(req, ks)
  {
    buf := new Buffer();
    Append4(buf, MethodString(req.verb), " ", req.path, " HTTP/1.1\r\n");
    ks := PrintTail(req.headers, req.body, buf);
    RequestBytesPrinted(req, ks);
  }

  lemma RequestBytesPrinted(req: Request, ks: seq<string>)
    requires forall k :: k in ks ==> k in req.headers
    ensures "" + (MethodString(req.verb) + " " + req.path + " HTTP/1.1\r\n")
      + (HeaderLines(req.headers, ks) + (CRLF + req.body)) == RequestBytes(req, ks)
  {
    assert " HTTP/1.1\r\n" == " HTTP/1.1" + CRLF;
  }

  method AppendToBuffer(resp: Response, output: Buffer) returns (ghost ks: seq<string>)
    requires output.Valid()
    modifies output, output.data
    ensures output.Valid() && (fresh(output.data) || output.data == old(output.data))
    ensures Lists(ks, resp.headers) && Ascending(ks)
    ensures output.Contents() == old(output.Contents()) + ResponseBytes(resp, ks)
  {
    ghost var q := output.Contents();
    PrintStatus(resp, output);
    PrintGenerated(resp, output);
    ks := PrintTail(resp.headers, resp.body, output);
    Concat3(q, StatusLine(resp) + CRLF, GeneratedLines(resp), HeaderLines(resp.headers, ks) + (CRLF + resp.body));
  }

  method PrintStatus(resp: Response, output: Buffer)
    requires output.Valid()
    modifies output, output.data
    ensures output.Valid() && (fresh(output.data) || output.data == old(output.data))
    ensures output.Contents() == old(output.Contents()) + (StatusLine(resp) + CRLF)
  {
    ghost var q := output.Contents();
    output.Append(Snprintf("HTTP/1.1 " + Decimal(resp.statusCode) + " "));
    output.Append(resp.statusMessage);
    output.Append(CRLF);
    Concat3(q, Snprintf("HTTP/1.1 " + Decimal(resp.statusCode) + " "), resp.statusMessage, CRLF);
  }

  method PrintGenerated(resp: Response, output: Buffer)
    requires output.Valid()
    modifies output, output.data
    ensures output.Valid() && (fresh(output.data) || output.data == old(output.data))
    ensures output.Contents() == old(output.Contents()) + GeneratedLines(resp)
  {
    if resp.closeConnection {
      output.Append("Connection: close" + CRLF);
    } else {
      ghost var q := output.Contents();
      output.Append(LengthLine(|resp.body|));
      output.Append("Connection: Keep-Alive" + CRLF);
      TwoLines(q, resp);
    }
  }

  lemma TwoLines(q: string, resp: Response)
    requires !resp.closeConnection
    ensures q + LengthLine(|resp.body|) + ("Connection: Keep-Alive" + CRLF) == q + GeneratedLines(resp)
  {
  }

  /** The requests that `HttpClient::get` and `HttpClient::post` build. */
  method BuildGet(path: string) returns (req: HttpRequest)
    ensures fresh(req) && req.St() == GetRequest(path)
  {
    req := new HttpRequest();
    var _ := req.SetMethod("GET");
    req.path := path;
    req.version := Http11;
  }

  method BuildPost(path: string, body: string, contentType: string) returns (req: HttpRequest)
    ensures fresh(req) && req.St() == PostRequest(path, body, contentType)
  {
    req := new HttpRequest();
    var _ := req.SetMethod("POST");
    req.path := path;
    req.version := Http11;
    req.headers := req.headers["Content-Type" := contentType];
    req.headers := req.headers["Content-Length" := Decimal(|body|)];
    req.body := body;
  }
}
