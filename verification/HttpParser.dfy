/**
 The two incremental parsers of `HttpContext`, as functions of the parser state and the
 unread bytes, and what arrives in pieces compared with what arrives at once.
 */
module HttpParsers {
  import opened Text
  import opened HttpMessages

  datatype State = ExpectRequestLine | ExpectHeaders | ExpectBody | GotAll

  datatype Context = Context(state: State, request: Request, response: Response)

  const FRESH_CONTEXT := Context(ExpectRequestLine, EMPTY_REQUEST, EMPTY_RESPONSE)

  /** A parser and the readable bytes of its buffer. */
  datatype Config = Config(ctx: Context, buf: string)

  /** One turn of a parser's loop. */
  datatype Turn = Turn(config: Config, ok: bool, hasMore: bool)

  /** What a call of a parser comes to. `Spins`: a turn changes nothing and asks for
      another one, so the call never returns. */
  datatype Outcome = Returned(config: Config, ok: bool) | Spins(config: Config)

  function Result(c: Config, ok: bool, spins: bool): Outcome { if spins then Spins(c) else Returned(c, ok) }

  // ---------------------------------------------------------------- the loop of a parser

  /** A turn that asks for another one has consumed bytes, or has changed nothing at all. */
  ghost predicate Productive(turn: Config -> Turn) {
    forall c :: turn(c).hasMore ==> turn(c).config == c || |turn(c).config.buf| < |c.buf|
  }

  function Parse(turn: Config -> Turn, c: Config): Outcome
    requires Productive(turn)
    decreases |c.buf|
  {
    var t := turn(c);
    if !t.hasMore then Returned(t.config, t.ok)
    else if t.config == c then Spins(c)
    else Parse(turn, t.config)
  }

  /** The loop stops after at most `n` turns. */
  predicate StopsWithin(turn: Config -> Turn, c: Config, n: nat)
    decreases n
  {
    n > 0 && (!turn(c).hasMore || StopsWithin(turn, turn(c).config, n - 1))
  }

  lemma {:induction false} SpinningNeverStops(turn: Config -> Turn, c: Config, n: nat)
    requires turn(c).hasMore && turn(c).config == c
    ensures !StopsWithin(turn, c, n)
  {
    if n > 0 { SpinningNeverStops(turn, c, n - 1); }
  }

  lemma {:induction false} StopsMonotone(turn: Config -> Turn, c: Config, m: nat, n: nat)
    requires m <= n && StopsWithin(turn, c, m)
    ensures StopsWithin(turn, c, n)
    decreases m
  {
    if turn(c).hasMore { StopsMonotone(turn, turn(c).config, m - 1, n - 1); }
  }

  /** `Returned` means that the loop ends, after at most one turn more than there are
      readable bytes; `Spins` that it never does. */
  lemma {:induction false} ReturnsIffStops(turn: Config -> Turn, c: Config)
    requires Productive(turn)
    ensures Parse(turn, c).Returned? <==> StopsWithin(turn, c, |c.buf| + 1)
    ensures Parse(turn, c).Spins? <==> forall n: nat :: !StopsWithin(turn, c, n)
    decreases |c.buf|
  {
    var t := turn(c);
    if t.hasMore {
      if t.config == c {
        forall n: nat ensures !StopsWithin(turn, c, n) { SpinningNeverStops(turn, c, n); }
      } else {
        ReturnsIffStops(turn, t.config);
        if Parse(turn, c).Returned? {
          StopsMonotone(turn, t.config, |t.config.buf| + 1, |c.buf|);
        } else {
          forall n: nat ensures !StopsWithin(turn, c, n) { if n > 0 { assert !StopsWithin(turn, t.config, n - 1); } }
        }
      }
    } else {
      assert StopsWithin(turn, c, 1);
    }
  }

  // ---------------------------------------------------------------- what arrives later

  function Arrive(c: Config, t: string): Config { c.(buf := c.buf + t) }

  function ArriveAfter(o: Outcome, t: string): Outcome {
    match o
    case Returned(c, ok) => Returned(Arrive(c, t), ok)
    case Spins(c) => Spins(Arrive(c, t))
  }

  /** The parser stopped because the line it looks at is not complete. */
  predicate Waiting(o: Outcome) {
    o.Returned? && o.ok && o.config.ctx.state != GotAll
  }

  /** No turn from here on would go differently if `t` had arrived already, except that a
      turn that waits might not wait. */
  ghost predicate Stable(turn: Config -> Turn, c: Config, t: string)
    requires Productive(turn)
    decreases |c.buf|
  {
    var u := turn(c);
    if !u.hasMore && u.ok && u.config == c then c.ctx.state != GotAll
    else
      && turn(Arrive(c, t)) == u.(config := Arrive(u.config, t))
      && (if u.hasMore then u.config != c && Stable(turn, u.config, t)
          else u.ok ==> u.config.ctx.state == GotAll)
  }

  lemma {:induction false} StableAppend(turn: Config -> Turn, c: Config, t: string)
    requires Productive(turn) && Stable(turn, c, t)
    ensures var o := Parse(turn, c);
      && o.Returned?
      && Parse(turn, Arrive(c, t)) ==
           if Waiting(o) then Parse(turn, Arrive(o.config, t)) else ArriveAfter(o, t)
    decreases |c.buf|
  {
    var u := turn(c);
    if u.hasMore { StableAppend(turn, u.config, t); }
  }

  // ---------------------------------------------------------------- requests

  predicate IsVersion(version: string, minor: char) {
    |version| == 8 && version[..7] == "HTTP/1." && version[7] == minor
  }

  /** The request line behind the method: target, space, version. */
  function ProcessTarget(req: Request, rest: string): (r: (bool, Request))
    ensures r.1.verb == req.verb
  {
    var space := Find(rest, ' ');
    if space == |rest| then (false, req) else
    var target, version := rest[..space], rest[space + 1..];
    var question := Find(target, '?');
    var r := if question < |target| then req.(path := target[..question], query := target[question..])
             else req.(path := target);
    if IsVersion(version, '1') then (true, r.(version := Http11))
    else if IsVersion(version, '0') then (true, r.(version := Http10))
    else (false, r)
  }

  function ProcessRequestLine(req: Request, line: string): (bool, Request) {
    var space := Find(line, ' ');
    if space == |line| then (false, req) else
    var r := req.(verb := MethodOf(line[..space]));
    if r.verb == Invalid then (false, r) else ProcessTarget(r, line[space + 1..])
  }

  function Skip(c: Config, n: nat): Config
    requires n <= |c.buf|
  {
    c.(buf := c.buf[n..])
  }

  /** The body length that a request announces, if `getHeader` finds one. */
  function AnnouncedLength(req: Request): int { Atoi(Lookup(req.headers, "Content-Length")) }

  predicate AnnouncesLength(req: Request) { Lookup(req.headers, "Content-Length") != "" }

  /** `readableBytes() >= contentLengthInt`: the `int` becomes a `size_t`, so a negative
      length is larger than any buffer. */
  predicate BodyIsComplete(c: Config) {
    0 <= AnnouncedLength(c.ctx.request) <= |c.buf|
  }

  /** A line that is refused leaves the fields it has set already. */
  function AfterLine(ctx: Context, line: string): (Context, bool) {
    var (ok, r) := ProcessRequestLine(ctx.request, line);
    (if ok then ctx.(state := ExpectHeaders, request := r) else ctx.(request := r), ok)
  }

  function LineTurn(c: Config): (t: Turn)
    ensures t.hasMore ==> t.ok && |t.config.buf| < |c.buf|
  {
    var crlf := FindCrlf(c.buf);
    if crlf == |c.buf| then Turn(c, true, false) else
    var (ctx, ok) := AfterLine(c.ctx, c.buf[..crlf]);
    if ok then Turn(Skip(c, crlf + 2).(ctx := ctx), true, true) else Turn(c.(ctx := ctx), false, false)
  }

  /** A header line is stored; any line without a colon ends the headers. */
  function AfterHeader(ctx: Context, line: string): (Context, bool) {
    var colon := Find(line, ':');
    if colon < |line| then (ctx.(request := HeaderOf(ctx.request, line, colon)), true)
    else if ctx.request.verb == Post then (ctx.(state := ExpectBody), true)
    else (ctx.(state := GotAll), false)
  }

  function HeaderTurn(c: Config): (t: Turn)
    ensures t.hasMore ==> t.ok && |t.config.buf| < |c.buf|
  {
    var crlf := FindCrlf(c.buf);
    if crlf == |c.buf| then Turn(c, true, false) else
    var (ctx, hasMore) := AfterHeader(c.ctx, c.buf[..crlf]);
    Turn(Skip(c, crlf + 2).(ctx := ctx), true, hasMore)
  }

  function BodyTurn(c: Config): (t: Turn)
    ensures t.hasMore ==> t.ok && t.config == c
  {
    var req := c.ctx.request;
    if !AnnouncesLength(req) then
      Turn(Config(c.ctx.(state := GotAll, request := req.(body := c.buf)), ""), true, false)
    else if BodyIsComplete(c) then
      var n := AnnouncedLength(req);
      Turn(Config(c.ctx.(state := GotAll, request := req.(body := c.buf[..n])), c.buf[n..]), true, false)
    else Turn(c, true, true)
  }

  /** One turn of the loop of `parseRequest`. */
  function RequestTurn(c: Config): Turn {
    match c.ctx.state
    case ExpectRequestLine => LineTurn(c)
    case ExpectHeaders => HeaderTurn(c)
    case ExpectBody => BodyTurn(c)
    case GotAll => Turn(c, true, true)
  }

  lemma RequestProductive()
    ensures Productive(RequestTurn)
  {
  }

  function ParseRequest(c: Config): Outcome {
    RequestProductive();
    Parse(RequestTurn, c)
  }

  // ---------------------------------------------------------------- termination

  /** The parser after the head of the message: it stops in front of a body. */
  function Head(c: Config): Config
    decreases |c.buf|
  {
    var t := RequestTurn(c);
    if c.ctx.state == ExpectBody || c.ctx.state == GotAll || !t.hasMore then c
    else if t.config == c then c
    else Head(t.config)
  }

  /** A call does not return exactly when the parser is done already, or when the head
      announces a body that is not there in full. */
  lemma {:induction false} SpinsIff(c: Config)
    ensures ParseRequest(c).Spins? <==>
      || c.ctx.state == GotAll
      || (Head(c).ctx.state == ExpectBody && AnnouncesLength(Head(c).ctx.request) && !BodyIsComplete(Head(c)))
    decreases |c.buf|
  {
    var t := RequestTurn(c);
    if t.hasMore && t.config != c { SpinsIff(t.config); }
  }

  /** Before the request line has been read, no method has been set: `setMethod` asserts it. */
  predicate MethodUnset(ctx: Context) {
    ctx.state == ExpectRequestLine ==> ctx.request.verb == Invalid
  }

  predicate BeginsWithMethod(line: string) {
    Find(line, ' ') < |line| && MethodOf(line[..Find(line, ' ')]) != Invalid
  }

  lemma {:induction false} NothingFailsBehindTheLine(c: Config)
    requires c.ctx.state != ExpectRequestLine && ParseRequest(c).Returned?
    ensures ParseRequest(c).ok && ParseRequest(c).config.ctx.state != ExpectRequestLine
    decreases |c.buf|
  {
    if RequestTurn(c).hasMore { NothingFailsBehindTheLine(RequestTurn(c).config); }
  }

  /** The assertion of `setMethod` holds in the next call, too, exactly when this one does
      not fail or refuses a line that does not begin with a known method. */
  lemma MethodStaysUnsetIff(c: Config)
    requires MethodUnset(c.ctx) && ParseRequest(c).Returned?
    ensures var o := ParseRequest(c);
      MethodUnset(o.config.ctx) <==> o.ok || !BeginsWithMethod(c.buf[..FindCrlf(c.buf)])
  {
    var u := RequestTurn(c);
    if c.ctx.state != ExpectRequestLine {
      NothingFailsBehindTheLine(c);
    } else if u.hasMore {
      NothingFailsBehindTheLine(u.config);
    }
  }

  // ---------------------------------------------------------------- targets

  /** Before the request line has been read there is no target; after it, path and query
      together are the target, without a space or a line end. */
  predicate PlainTarget(ctx: Context) {
    var target := ctx.request.path + ctx.request.query;
    ' ' !in target && NoCrlf(target) && (ctx.state == ExpectRequestLine ==> ctx.request.query == "")
  }

  lemma PartIsPlain(s: string, i: nat, j: nat)
    requires NoCrlf(s) && i <= j <= |s|
    ensures NoCrlf(s[i..j])
  {
    forall k | 0 <= k < j - i ensures !CrlfAt(s[i..j], k) { assert !CrlfAt(s, i + k); }
  }

  lemma ProcessedTargetIsPlain(req: Request, rest: string)
    requires NoCrlf(rest) && req.query == "" && ProcessTarget(req, rest).0
    ensures var r := ProcessTarget(req, rest).1; ' ' !in r.path + r.query && NoCrlf(r.path + r.query)
  {
    var space := Find(rest, ' ');
    var target := rest[..space];
    FindIff(rest, ' ', space);
    PartIsPlain(rest, 0, space);
    var question := Find(target, '?');
    assert target[..question] + target[question..] == target && target + "" == target;
  }

  lemma FirstLineIsPlain(buf: string)
    ensures NoCrlf(buf[..FindCrlf(buf)])
  {
    var i := FindCrlf(buf);
    FindCrlfIff(buf, i);
    forall k | 0 <= k < i ensures !CrlfAt(buf[..i], k) { assert !CrlfAt(buf, k); }
  }

  lemma LineTurnIsPlain(c: Config)
    requires c.ctx.state == ExpectRequestLine && PlainTarget(c.ctx) && LineTurn(c).hasMore
    ensures PlainTarget(LineTurn(c).config.ctx)
  {
    var line := c.buf[..FindCrlf(c.buf)];
    var space := Find(line, ' ');
    FirstLineIsPlain(c.buf);
    PartIsPlain(line, space + 1, |line|);
    assert line[space + 1..|line|] == line[space + 1..];
    ProcessedTargetIsPlain(c.ctx.request.(verb := MethodOf(line[..space])), line[space + 1..]);
  }

  lemma {:induction false} ParsedTargetIsPlain(c: Config)
    requires PlainTarget(c.ctx)
    ensures var o := ParseRequest(c); o.Returned? && o.ok ==> PlainTarget(o.config.ctx)
    decreases |c.buf|
  {
    var u := RequestTurn(c);
    if c.ctx.state == ExpectRequestLine && u.hasMore { LineTurnIsPlain(c); }
    if u.hasMore && u.config != c { ParsedTargetIsPlain(u.config); }
  }

  // ---------------------------------------------------------------- the request line

  /** A request line: one of five names, a target without a space, and one of two versions. */
  predicate IsRequestLine(line: string, name: string, target: string, minor: char) {
    && name in {"GET", "POST", "HEAD", "PUT", "DELETE"}
    && ' ' !in target && (minor == '0' || minor == '1')
    && line == name + " " + target + " HTTP/1." + [minor]
  }

  /** What is read of it: the method, the version, and the target, cut in front of its first
      question mark. Without one, the query stays as it was. */
  predicate ReadsAs(req: Request, r: Request, name: string, target: string, minor: char) {
    && (r.verb == if name == "GET" then Get else if name == "POST" then Post else if name == "HEAD" then Method.Head
                  else if name == "PUT" then Put else Delete)
    && r.version == (if minor == '1' then Http11 else Http10)
    && '?' !in r.path && r.body == req.body && r.headers == req.headers
    && (if '?' in target then r.path + r.query == target && r.query != "" && r.query[0] == '?'
        else r.path == target && r.query == req.query)
  }

  lemma KnownNames(name: string)
    ensures MethodOf(name) != Invalid <==> name in {"GET", "POST", "HEAD", "PUT", "DELETE"}
    ensures MethodOf(name) != Invalid ==> ' ' !in name
  {
  }

  lemma SplitAt(s: string, i: nat)
    requires i < |s| && s[i] == ' '
    ensures s == s[..i] + " " + s[i + 1..]
  {
  }

  lemma SplitAtSpace(s: string)
    requires Find(s, ' ') < |s|
    ensures var i := Find(s, ' '); s == s[..i] + " " + s[i + 1..] && ' ' !in s[..i]
  {
    FindIff(s, ' ', Find(s, ' '));
    SplitAt(s, Find(s, ' '));
  }

  /** The two spaces of a line that is put together from three parts. */
  lemma LineParts(m: string, path: string, version: string)
    requires ' ' !in m && ' ' !in path
    ensures var line, rest := m + " " + path + " " + version, path + " " + version;
      && Find(line, ' ') == |m| < |line| && line[..|m|] == m && line[|m| + 1..] == rest
      && Find(rest, ' ') == |path| < |rest| && rest[..|path|] == path && rest[|path| + 1..] == version
  {
    var rest := path + " " + version;
    assert m + " " + path + " " + version == m + [' '] + rest;
    FindAppend(m, ' ', rest);
    assert rest == path + [' '] + version;
    FindAppend(path, ' ', version);
  }

  lemma VersionParts(version: string, minor: char)
    ensures IsVersion(version, minor) <==> version == "HTTP/1." + [minor]
  {
    assert IsVersion(version, minor) ==> version == version[..7] + [version[7]];
  }

  lemma TakeAndDrop(s: string, i: nat)
    requires i <= |s|
    ensures s[..i] + s[i..] == s
  {
  }

  lemma TakeAll(s: string)
    ensures s[..|s|] == s
  {
  }

  lemma TargetIsCut(target: string)
    ensures var q := Find(target, '?');
      && '?' !in target[..q] && (q < |target| <==> '?' in target)
      && (q < |target| ==> target[..q] + target[q..] == target && target[q] == '?')
  {
    var q := Find(target, '?');
    FindIff(target, '?', q);
    if q < |target| {
      assert target[q] in target;
      TakeAndDrop(target, q);
    } else {
      TakeAll(target);
    }
  }

  lemma TargetIsRead(req: Request, rest: string, target: string, minor: char)
    requires ' ' !in target && (minor == '0' || minor == '1') && rest == target + " HTTP/1." + [minor]
    ensures var (ok, r) := ProcessTarget(req, rest);
      && ok && r.version == (if minor == '1' then Http11 else Http10) && '?' !in r.path
      && r == req.(path := r.path, query := r.query, version := r.version)
      && if '?' in target then r.path + r.query == target && r.query != "" && r.query[0] == '?'
         else r.path == target && r.query == req.query
  {
    var version := "HTTP/1." + [minor];
    assert target + " " + version == rest;
    LineParts("", target, version);
    VersionParts(version, '1');
    VersionParts(version, '0');
    TargetIsCut(target);
    assert target[..|target|] == target;
  }

  lemma LineIsThreeParts(name: string, target: string, minor: char)
    ensures name + " " + target + " HTTP/1." + [minor] == name + " " + target + " " + ("HTTP/1." + [minor])
    ensures name + " " + target + " HTTP/1." + [minor] == name + " " + (target + " HTTP/1." + [minor])
    ensures target + " HTTP/1." + [minor] == target + " " + ("HTTP/1." + [minor])
  {
  }

  lemma RequestLineIsRead(req: Request, line: string, name: string, target: string, minor: char)
    requires IsRequestLine(line, name, target, minor)
    ensures var (ok, r) := ProcessRequestLine(req, line); ok && ReadsAs(req, r, name, target, minor)
  {
    KnownNames(name);
    LineIsThreeParts(name, target, minor);
    LineParts(name, target, "HTTP/1." + [minor]);
    TargetIsRead(req.(verb := MethodOf(name)), target + " HTTP/1." + [minor], target, minor);
  }

  lemma AcceptedTarget(req: Request, rest: string) returns (target: string, minor: char)
    requires ProcessTarget(req, rest).0
    ensures ' ' !in target && (minor == '0' || minor == '1') && rest == target + " HTTP/1." + [minor]
  {
    var space := Find(rest, ' ');
    SplitAtSpace(rest);
    target := rest[..space];
    minor := rest[space + 1..][7];
    VersionParts(rest[space + 1..], minor);
    LineIsThreeParts("", target, minor);
  }

  lemma AcceptedIsRequestLine(req: Request, line: string) returns (name: string, target: string, minor: char)
    requires ProcessRequestLine(req, line).0
    ensures IsRequestLine(line, name, target, minor)
  {
    SplitAtSpace(line);
    name := line[..Find(line, ' ')];
    KnownNames(name);
    var rest := line[Find(line, ' ') + 1..];
    target, minor := AcceptedTarget(req.(verb := MethodOf(name)), rest);
    LineIsThreeParts(name, target, minor);
  }

  /** A complete first line is accepted exactly when it is a request line, and then the parser goes
      on with what has been read of it. */
  lemma RequestLineIff(c: Config, line: string, rest: string)
    requires c.ctx.state == ExpectRequestLine && NoCrlf(line) && c.buf == line + CRLF + rest
    ensures var o := ParseRequest(c);
      o.Returned? && !o.ok <==> !exists name, target, minor :: IsRequestLine(line, name, target, minor)
    ensures forall name, target, minor :: IsRequestLine(line, name, target, minor) ==>
      var r := ProcessRequestLine(c.ctx.request, line).1;
      && ReadsAs(c.ctx.request, r, name, target, minor)
      && ParseRequest(c) == ParseRequest(Config(c.ctx.(state := ExpectHeaders, request := r), rest))
  {
    FindCrlfLine(line, rest);
    assert c.buf[..|line|] == line && c.buf[|line| + 2..] == rest;
    var (ok, r) := ProcessRequestLine(c.ctx.request, line);
    var u := RequestTurn(c);
    if ok {
      var _, _, _ := AcceptedIsRequestLine(c.ctx.request, line);
      assert u == Turn(Config(c.ctx.(state := ExpectHeaders, request := r), rest), true, true);
      if ParseRequest(u.config).Returned? { NothingFailsBehindTheLine(u.config); }
    }
    forall name, target, minor | IsRequestLine(line, name, target, minor)
      ensures ok && ReadsAs(c.ctx.request, r, name, target, minor)
    {
      RequestLineIsRead(c.ctx.request, line, name, target, minor);
    }
  }

  lemma ColonParts(k: string, v: string)
    requires ':' !in k
    ensures var line := k + ":" + v; Find(line, ':') == |k| < |line| && line[..|k|] == k && line[|k| + 1..] == v
  {
    assert k + ":" + v == k + [':'] + v;
    FindAppend(k, ':', v);
  }

  /** A complete line behind the request line: with a colon, what is behind the first one is stored,
      trimmed, under what is in front of it, in place of an older value; without one, it ends the
      headers, and the request unless that is a POST. */
  lemma HeaderLineDecides(c: Config, line: string, rest: string)
    requires c.ctx.state == ExpectHeaders && NoCrlf(line) && c.buf == line + CRLF + rest
    ensures forall k, v :: ':' !in k && line == k + ":" + v ==>
      var req := c.ctx.request.(headers := c.ctx.request.headers[k := Trim(v)]);
      ParseRequest(c) == ParseRequest(Config(c.ctx.(request := req), rest))
    ensures ':' !in line ==>
      ParseRequest(c) ==
        if c.ctx.request.verb == Post then ParseRequest(Config(c.ctx.(state := ExpectBody), rest))
        else Returned(Config(c.ctx.(state := GotAll), rest), true)
  {
    FindCrlfLine(line, rest);
    assert c.buf[..|line|] == line && c.buf[|line| + 2..] == rest;
    FindIff(line, ':', |line|);
    assert line[..|line|] == line;
    forall k, v | ':' !in k && line == k + ":" + v
      ensures AfterHeader(c.ctx, line) ==
        (c.ctx.(request := c.ctx.request.(headers := c.ctx.request.headers[k := Trim(v)])), true)
    {
      ColonParts(k, v);
    }
  }

  // ---------------------------------------------------------------- chunks

  /** The body of a request that announces no length is whatever has arrived so far. */
  predicate OpenBody(c: Config) {
    Head(c).ctx.state == ExpectBody && !AnnouncesLength(Head(c).ctx.request)
  }

  predicate BodyPending(c: Config) {
    Head(c).ctx.state == ExpectBody && AnnouncesLength(Head(c).ctx.request) && !BodyIsComplete(Head(c))
  }

  lemma FirstLineStays(buf: string, t: string)
    requires FindCrlf(buf) < |buf|
    ensures var i := FindCrlf(buf);
      FindCrlf(buf + t) == i && (buf + t)[..i] == buf[..i] && (buf + t)[i + 2..] == buf[i + 2..] + t
  {
    FindCrlfAppend(buf, t);
  }

  /** A turn that finds its line finds the same line when more has arrived behind it. */
  lemma TurnAppend(c: Config, t: string)
    requires c.ctx.state == ExpectRequestLine || c.ctx.state == ExpectHeaders
    requires FindCrlf(c.buf) < |c.buf|
    ensures RequestTurn(Arrive(c, t)) ==
      var u := RequestTurn(c); u.(config := Arrive(u.config, t))
  {
    FirstLineStays(c.buf, t);
  }

  lemma {:induction false} RequestStable(c: Config, t: string)
    requires c.ctx.state != GotAll && !OpenBody(c) && !BodyPending(c)
    ensures Productive(RequestTurn) && Stable(RequestTurn, c, t)
    decreases |c.buf|
  {
    RequestProductive();
    if c.ctx.state == ExpectBody {
      BodyAppend(c, t);
    } else if FindCrlf(c.buf) < |c.buf| {
      TurnAppend(c, t);
      var u := RequestTurn(c);
      if u.hasMore { RequestStable(u.config, t); }
    }
  }

  lemma BodyAppend(c: Config, t: string)
    requires c.ctx.state == ExpectBody && AnnouncesLength(c.ctx.request) && BodyIsComplete(c)
    ensures RequestTurn(Arrive(c, t)) ==
      var u := RequestTurn(c); u.(config := Arrive(u.config, t))
  {
    var n := AnnouncedLength(c.ctx.request);
    assert (c.buf + t)[..n] == c.buf[..n] && (c.buf + t)[n..] == c.buf[n..] + t;
  }

  /** Parsing what has arrived so far and going on with the rest comes to the same as
      parsing everything at once, unless the call got as far as a body without a complete
      announced length. */
  lemma ParseAppend(c: Config, t: string)
    requires c.ctx.state != GotAll && !OpenBody(c) && !BodyPending(c)
    ensures var o := ParseRequest(c);
      && o.Returned?
      && ParseRequest(Arrive(c, t)) == if Waiting(o) then ParseRequest(Arrive(o.config, t)) else ArriveAfter(o, t)
  {
    RequestStable(c, t);
    StableAppend(RequestTurn, c, t);
  }

  function Concat(chunks: seq<string>): string {
    if chunks == [] then "" else chunks[0] + Concat(chunks[1..])
  }

  /** Chunks arrive one by one, and after each the parser is called, until it is done or
      has failed; later chunks stay unread. */
  function Feed(turn: Config -> Turn, c: Config, chunks: seq<string>): Outcome
    requires Productive(turn) && chunks != []
    decreases |chunks|
  {
    var o := Parse(turn, Arrive(c, chunks[0]));
    if Waiting(o) && |chunks| > 1 then Feed(turn, o.config, chunks[1..])
    else ArriveAfter(o, Concat(chunks[1..]))
  }

  /** No call of the parser would go differently if all later chunks were there already. */
  ghost predicate AllStable(turn: Config -> Turn, c: Config, chunks: seq<string>)
    requires Productive(turn) && chunks != []
    decreases |chunks|
  {
    var d := Arrive(c, chunks[0]);
    var o := Parse(turn, d);
    && Stable(turn, d, Concat(chunks[1..]))
    && (Waiting(o) && |chunks| > 1 ==> AllStable(turn, o.config, chunks[1..]))
  }

  lemma {:induction false} FeedAll(turn: Config -> Turn, c: Config, chunks: seq<string>)
    requires Productive(turn) && chunks != [] && AllStable(turn, c, chunks)
    ensures Feed(turn, c, chunks) == Parse(turn, Arrive(c, Concat(chunks)))
    decreases |chunks|
  {
    var rest := Concat(chunks[1..]);
    var d := Arrive(c, chunks[0]);
    assert c.buf + (chunks[0] + rest) == (c.buf + chunks[0]) + rest;
    assert Arrive(c, Concat(chunks)) == Arrive(d, rest);
    StableAppend(turn, d, rest);
    var o := Parse(turn, d);
    if |chunks| == 1 {
      assert d.buf + rest == d.buf && Arrive(d, rest) == d;
    } else if Waiting(o) {
      FeedAll(turn, o.config, chunks[1..]);
    }
  }

  /** A parser that will not meet a POST: a property of the bytes to come, or of the method
      already read. */
  predicate NeverPost(c: Config, stream: string) {
    match c.ctx.state
    case ExpectRequestLine => !("POST " <= c.buf + stream)
    case ExpectHeaders => c.ctx.request.verb != Post
    case _ => false
  }

  lemma PostLine(req: Request, line: string)
    requires ProcessRequestLine(req, line).0 && ProcessRequestLine(req, line).1.verb == Post
    ensures "POST " <= line
  {
    var space := Find(line, ' ');
    FindIff(line, ' ', space);
    assert line[..space] == "POST";
    assert line == "POST" + [' '] + line[space + 1..];
  }

  lemma {:induction false} NeverPostHasNoBody(c: Config, stream: string)
    requires NeverPost(c, stream)
    ensures Head(c).ctx.state != ExpectBody && ParseRequest(c).Returned?
    ensures Waiting(ParseRequest(c)) ==> NeverPost(ParseRequest(c).config, stream)
    decreases |c.buf|
  {
    var u := RequestTurn(c);
    if u.hasMore {
      if c.ctx.state == ExpectRequestLine && u.config.ctx.request.verb == Post {
        PostLine(c.ctx.request, c.buf[..FindCrlf(c.buf)]);
      }
      NeverPostHasNoBody(u.config, stream);
    }
  }

  lemma {:induction false} NeverPostIsStable(c: Config, chunks: seq<string>)
    requires chunks != [] && NeverPost(c, Concat(chunks))
    ensures Productive(RequestTurn) && AllStable(RequestTurn, c, chunks)
    decreases |chunks|
  {
    RequestProductive();
    var rest := Concat(chunks[1..]);
    var d := Arrive(c, chunks[0]);
    assert d.buf + rest == c.buf + Concat(chunks);
    NeverPostHasNoBody(d, rest);
    RequestStable(d, rest);
    if Waiting(ParseRequest(d)) && |chunks| > 1 {
      NeverPostIsStable(ParseRequest(d).config, chunks[1..]);
    }
  }

  /** How a request is cut into chunks makes no difference: not to the verdict, not to
      what is stored, not to what is left unread. */
  lemma ChunkIndependence(c: Config, chunks: seq<string>)
    requires chunks != [] && NeverPost(c, Concat(chunks))
    ensures Productive(RequestTurn) && Feed(RequestTurn, c, chunks) == ParseRequest(Arrive(c, Concat(chunks)))
  {
    NeverPostIsStable(c, chunks);
    FeedAll(RequestTurn, c, chunks);
  }

  /** Once the head is complete, it is the same whatever follows. */
  lemma {:induction false} HeadAppend(c: Config, t: string)
    requires Head(c).ctx.state == ExpectBody
    ensures Head(Arrive(c, t)) == Arrive(Head(c), t)
    decreases |c.buf|
  {
    if c.ctx.state != ExpectBody {
      if FindCrlf(c.buf) < |c.buf| { TurnAppend(c, t); }
      HeadAppend(RequestTurn(c).config, t);
    }
  }

  lemma {:induction false} ParseFromHead(c: Config)
    requires c.ctx.state != GotAll && Head(c).ctx.state == ExpectBody
    ensures ParseRequest(c) == ParseRequest(Head(c))
    decreases |c.buf|
  {
    if c.ctx.state != ExpectBody { ParseFromHead(RequestTurn(c).config); }
  }

  lemma FeedTwo(turn: Config -> Turn, c: Config, s: string, t: string)
    requires Productive(turn)
    ensures var o := Parse(turn, Arrive(c, s));
      Feed(turn, c, [s, t]) == if Waiting(o) then Parse(turn, Arrive(o.config, t)) else ArriveAfter(o, t)
  {
    var o := Parse(turn, Arrive(c, s));
    assert [s, t][1..] == [t] && Concat([t][1..]) == "" && Concat([t]) == t;
    if Waiting(o) {
      var p := Parse(turn, Arrive(o.config, t));
      assert p.config.buf + "" == p.config.buf;
    }
  }

  /** What a body comes to: without an announced length, all that has arrived; with one, as many
      bytes, if they are there; and a call that does not return if they are not, or if the length
      is negative. */
  lemma BodyOutcome(b: Config)
    requires b.ctx.state == ExpectBody
    ensures var length := Lookup(b.ctx.request.headers, "Content-Length");
      ParseRequest(b) ==
        if length == "" then
          Returned(Config(b.ctx.(state := GotAll, request := b.ctx.request.(body := b.buf)), ""), true)
        else if 0 <= Atoi(length) <= |b.buf| then
          var req := b.ctx.request.(body := b.buf[..Atoi(length)]);
          Returned(Config(b.ctx.(state := GotAll, request := req), b.buf[Atoi(length)..]), true)
        else Spins(b)
  {
  }

  /** A cut in front of `t`: what has arrived ends inside a body whose end is not known, or
      whose announced end is in `t`. */
  predicate CutMatters(d: Config, t: string) {
    || (OpenBody(d) && t != "")
    || (BodyPending(d) && 0 <= AnnouncedLength(Head(d).ctx.request) <= |Head(d).buf + t|)
  }

  /** For every request, POST or not, cut in two, exactly when the cut makes a difference. In
      the one case the body is cut short, in the other the parser spins on the first part
      although the whole would parse. */
  lemma CutMattersIff(c: Config, s: string, t: string)
    requires c.ctx.state != GotAll
    ensures Productive(RequestTurn)
    ensures var d := Arrive(c, s);
      Feed(RequestTurn, c, [s, t]) != ParseRequest(Arrive(c, s + t)) <==> CutMatters(d, t)
  {
    RequestProductive();
    FeedIsTwoCalls(c, s, t);
    ArriveTwice(c, s, t);
    TwoCallsDifferIff(Arrive(c, s), t);
  }

  lemma ArriveTwice(c: Config, s: string, t: string)
    ensures Arrive(c, s + t) == Arrive(Arrive(c, s), t)
  {
    assert c.buf + (s + t) == c.buf + s + t;
  }

  /** The parser is called with what has arrived, and again when `t` has come if it waits. */
  function TwoCalls(d: Config, t: string): Outcome {
    var o := ParseRequest(d);
    if Waiting(o) then ParseRequest(Arrive(o.config, t)) else ArriveAfter(o, t)
  }

  lemma FeedIsTwoCalls(c: Config, s: string, t: string)
    ensures Productive(RequestTurn) && Feed(RequestTurn, c, [s, t]) == TwoCalls(Arrive(c, s), t)
  {
    RequestProductive();
    FeedTwo(RequestTurn, c, s, t);
  }

  lemma TwoCallsDifferIff(d: Config, t: string)
    requires d.ctx.state != GotAll
    ensures TwoCalls(d, t) != ParseRequest(Arrive(d, t)) <==> CutMatters(d, t)
  {
    if OpenBody(d) || BodyPending(d) {
      CutInBody(d, t);
    } else {
      ParseAppend(d, t);
    }
  }

  lemma CutInBody(d: Config, t: string)
    requires d.ctx.state != GotAll && (OpenBody(d) || BodyPending(d))
    ensures var b := Head(d);
      && !Waiting(ParseRequest(d))
      && (ArriveAfter(ParseRequest(d), t) == ParseRequest(Arrive(d, t)) <==>
            if OpenBody(d) then t == "" else !(0 <= AnnouncedLength(b.ctx.request) <= |b.buf + t|))
  {
    var b := Head(d);
    HeadAppend(d, t);
    ParseFromHead(d);
    ParseFromHead(Arrive(d, t));
    BodyOutcome(b);
    BodyOutcome(Arrive(b, t));
    if OpenBody(d) {
      assert b.buf + t == b.buf <==> t == "";
    }
  }

  lemma {:induction false} ConcatSplit(chunks: seq<string>, k: nat)
    requires k <= |chunks|
    ensures Concat(chunks) == Concat(chunks[..k]) + Concat(chunks[k..])
  {
    if k > 0 {
      ConcatSplit(chunks[1..], k - 1);
      assert chunks[..k][1..] == chunks[1..][..k - 1] && chunks[1..][k - 1..] == chunks[k..];
    }
  }

  lemma InBodyCuts(d: Config, x: string, y: string)
    requires OpenBody(d) || BodyPending(d)
    ensures CutMatters(Arrive(d, x), y) ==> CutMatters(d, x + y)
  {
    HeadAppend(d, x);
  }

  /** A parser that waits goes on with the head it has begun. */
  lemma {:induction false} HeadContinues(d: Config, x: string)
    requires d.ctx.state != GotAll && !OpenBody(d) && !BodyPending(d) && Waiting(ParseRequest(d))
    ensures Head(Arrive(d, x)) == Head(Arrive(ParseRequest(d).config, x))
    decreases |d.buf|
  {
    if d.ctx.state == ExpectBody {
      BodyOutcome(d);
    } else if FindCrlf(d.buf) < |d.buf| {
      TurnAppend(d, x);
      HeadContinues(RequestTurn(d).config, x);
    }
  }

  /** A parser that is done, or has failed, finds no body in what arrives later. */
  lemma {:induction false} NoBodyLater(d: Config, x: string)
    requires d.ctx.state != GotAll && !OpenBody(d) && !BodyPending(d) && !Waiting(ParseRequest(d))
    ensures !OpenBody(Arrive(d, x)) && !BodyPending(Arrive(d, x))
    decreases |d.buf|
  {
    if d.ctx.state != ExpectBody && FindCrlf(d.buf) < |d.buf| {
      TurnAppend(d, x);
      if RequestTurn(d).hasMore { NoBodyLater(RequestTurn(d).config, x); }
    }
  }

  /** The cut behind the first `k` chunks. */
  predicate CutsAt(c: Config, chunks: seq<string>, k: nat)
    requires k <= |chunks|
  {
    CutMatters(Arrive(c, Concat(chunks[..k])), Concat(chunks[k..]))
  }

  lemma CutBehind(c: Config, chunks: seq<string>, k: nat)
    requires 1 <= k <= |chunks|
    ensures var x, y := Concat(chunks[1..][..k - 1]), Concat(chunks[k..]);
      && Concat(chunks[1..]) == x + y && chunks[1..][k - 1..] == chunks[k..]
      && Arrive(c, Concat(chunks[..k])) == Arrive(Arrive(c, chunks[0]), x)
  {
    assert chunks[1..][k - 1..] == chunks[k..];
    ConcatSplit(chunks[1..], k - 1);
    assert chunks[..k][1..] == chunks[1..][..k - 1];
    assert c.buf + (chunks[0] + Concat(chunks[1..][..k - 1])) == c.buf + chunks[0] + Concat(chunks[1..][..k - 1]);
  }

  lemma FirstCut(c: Config, chunks: seq<string>)
    requires chunks != []
    ensures CutsAt(c, chunks, 1) <==> CutMatters(Arrive(c, chunks[0]), Concat(chunks[1..]))
  {
    assert chunks[..1][1..] == [] && Concat(chunks[..1]) == chunks[0] + "" == chunks[0];
  }

  ghost predicate SomeCutMatters(c: Config, chunks: seq<string>) {
    exists k :: 1 <= k <= |chunks| && CutsAt(c, chunks, k)
  }

  lemma CutsOfABody(c: Config, chunks: seq<string>)
    requires chunks != [] && (OpenBody(Arrive(c, chunks[0])) || BodyPending(Arrive(c, chunks[0])))
    ensures SomeCutMatters(c, chunks) <==> CutsAt(c, chunks, 1)
  {
    FirstCut(c, chunks);
    forall k | 1 <= k <= |chunks| && CutsAt(c, chunks, k) ensures CutsAt(c, chunks, 1) {
      CutBehind(c, chunks, k);
      InBodyCuts(Arrive(c, chunks[0]), Concat(chunks[1..][..k - 1]), Concat(chunks[k..]));
    }
  }

  lemma NoCuts(c: Config, chunks: seq<string>)
    requires chunks != []
    requires var d := Arrive(c, chunks[0]);
      d.ctx.state != GotAll && !OpenBody(d) && !BodyPending(d) && (Waiting(ParseRequest(d)) ==> |chunks| == 1)
    ensures !SomeCutMatters(c, chunks)
  {
    FirstCut(c, chunks);
    forall k | 2 <= k <= |chunks| ensures !CutsAt(c, chunks, k) {
      NoCutBehind(c, chunks, k);
    }
  }

  lemma NoCutBehind(c: Config, chunks: seq<string>, k: nat)
    requires 2 <= k <= |chunks|
    requires var d := Arrive(c, chunks[0]);
      d.ctx.state != GotAll && !OpenBody(d) && !BodyPending(d) && !Waiting(ParseRequest(d))
    ensures !CutsAt(c, chunks, k)
  {
    CutBehind(c, chunks, k);
    NoBodyLater(Arrive(c, chunks[0]), Concat(chunks[1..][..k - 1]));
  }

  lemma CutsOfTheRest(c: Config, chunks: seq<string>)
    requires |chunks| > 1
    requires var d := Arrive(c, chunks[0]);
      d.ctx.state != GotAll && !OpenBody(d) && !BodyPending(d) && Waiting(ParseRequest(d))
    ensures SomeCutMatters(c, chunks) <==> SomeCutMatters(ParseRequest(Arrive(c, chunks[0])).config, chunks[1..])
  {
    var d, rest := Arrive(c, chunks[0]), chunks[1..];
    var e := ParseRequest(d).config;
    FirstCut(c, chunks);
    forall k | 2 <= k <= |chunks| ensures CutsAt(c, chunks, k) <==> CutsAt(e, rest, k - 1) {
      CutBehind(c, chunks, k);
      HeadContinues(d, Concat(rest[..k - 1]));
    }
    if j :| 1 <= j <= |rest| && CutsAt(e, rest, j) { assert CutsAt(c, chunks, j + 1); }
    if k :| 1 <= k <= |chunks| && CutsAt(c, chunks, k) { assert CutsAt(e, rest, k - 1); }
  }

  /** The general law: a request cut into any number of chunks is parsed as if it had come in
      one piece unless one of the cuts makes a difference by itself. So a POST that announces
      its length may be cut anywhere but inside its body. */
  lemma {:induction false} ChunksMatterIff(c: Config, chunks: seq<string>)
    requires c.ctx.state != GotAll && chunks != []
    ensures Productive(RequestTurn)
    ensures Feed(RequestTurn, c, chunks) != ParseRequest(Arrive(c, Concat(chunks))) <==>
      exists k :: 1 <= k <= |chunks| && CutsAt(c, chunks, k)
    decreases |chunks|
  {
    RequestProductive();
    var d, t := Arrive(c, chunks[0]), Concat(chunks[1..]);
    assert c.buf + (chunks[0] + t) == d.buf + t;
    if OpenBody(d) || BodyPending(d) {
      CutsOfABody(c, chunks);
      FirstCut(c, chunks);
      CutInBody(d, t);
    } else {
      ParseAppend(d, t);
      if Waiting(ParseRequest(d)) && |chunks| > 1 {
        CutsOfTheRest(c, chunks);
        ChunksMatterIff(ParseRequest(d).config, chunks[1..]);
      } else {
        NoCuts(c, chunks);
        if |chunks| == 1 { assert d.buf + t == d.buf; }
      }
    }
  }

  // ---------------------------------------------------------------- reset

  /** `reset` swaps the request with a fresh one, but the swap leaves the body, and the
      response is not touched. */
  function Reset(ctx: Context): Context {
    ctx.(state := ExpectRequestLine, request := EMPTY_REQUEST.(body := ctx.request.body))
  }

  /** `reset` gives a fresh parser exactly when neither a body nor a response was stored. */
  lemma ResetIsFreshIff(ctx: Context)
    ensures Reset(ctx) == FRESH_CONTEXT <==> ctx.request.body == "" && ctx.response == EMPTY_RESPONSE
  {
  }

  function WithBody(o: Outcome, body: string): Outcome { o.(config := Stale(o.config, body)) }

  /** After `reset` the next request is parsed as by a fresh parser, but for the old body:
      it stays until a body is read. */
  lemma {:induction false} StaleBody(c: Config, body: string)
    ensures var d := Stale(c, body);
      && Head(d).ctx.state == Head(c).ctx.state
      && (Head(c).ctx.state != ExpectBody ==> ParseRequest(d) == WithBody(ParseRequest(c), body))
      && (Head(c).ctx.state == ExpectBody && ParseRequest(c).Returned? ==> ParseRequest(d) == ParseRequest(c))
    decreases |c.buf|
  {
    var u := RequestTurn(c);
    if c.ctx.state == ExpectRequestLine || c.ctx.state == ExpectHeaders {
      StaleTurn(c, body);
      if u.hasMore { StaleBody(u.config, body); }
    }
  }

  function Stale(c: Config, body: string): Config {
    c.(ctx := c.ctx.(request := c.ctx.request.(body := body)))
  }

  lemma StaleLine(req: Request, line: string, body: string)
    ensures var r := ProcessRequestLine(req, line);
      ProcessRequestLine(req.(body := body), line) == (r.0, r.1.(body := body))
  {
  }

  lemma StaleLineTurn(c: Config, body: string)
    ensures LineTurn(Stale(c, body)) == var u := LineTurn(c); u.(config := Stale(u.config, body))
  {
    StaleLine(c.ctx.request, c.buf[..FindCrlf(c.buf)], body);
  }

  lemma StaleHeaderTurn(c: Config, body: string)
    ensures HeaderTurn(Stale(c, body)) == var u := HeaderTurn(c); u.(config := Stale(u.config, body))
  {
  }

  lemma StaleTurn(c: Config, body: string)
    requires c.ctx.state == ExpectRequestLine || c.ctx.state == ExpectHeaders
    ensures RequestTurn(Stale(c, body)) == var u := RequestTurn(c); u.(config := Stale(u.config, body))
  {
    StaleLineTurn(c, body);
    StaleHeaderTurn(c, body);
  }

  // ---------------------------------------------------------------- responses

  predicate IsHttp1(line: string) {
    |line| >= 8 && line[..5] == "HTTP/" && line[5] == '1' && line[6] == '.' && (line[7] == '0' || line[7] == '1')
  }

  function WithStatus(resp: Response, digits: string): Response { resp.(statusCode := StatusOf(Atoi(digits))) }

  function ProcessStatusLine(resp: Response, line: string): (bool, Response) {
    if Find(line, ' ') != 8 || |line| == 8 || !IsHttp1(line) then (false, resp) else ProcessCode(resp, line[9..])
  }

  /** The status line behind the version: the code and a space. */
  function ProcessCode(resp: Response, rest: string): (bool, Response) {
    var space2 := Find(rest, ' ');
    if space2 == |rest| then (false, resp) else (true, WithStatus(resp, rest[..space2]))
  }

  function AfterStatus(ctx: Context, line: string): (Context, bool) {
    var (ok, r) := ProcessStatusLine(ctx.response, line);
    (if ok then ctx.(state := ExpectHeaders, response := r) else ctx, ok)
  }

  function StatusTurn(c: Config): (t: Turn)
    ensures t.hasMore ==> t.ok && |t.config.buf| < |c.buf|
  {
    var crlf := FindCrlf(c.buf);
    if crlf == |c.buf| then Turn(c, true, false) else
    var (ctx, ok) := AfterStatus(c.ctx, c.buf[..crlf]);
    if ok then Turn(Skip(c, crlf + 2).(ctx := ctx), true, true) else Turn(c, false, false)
  }

  /** The space behind the colon stays in the value. */
  function FieldOf(resp: Response, line: string, colon: nat): Response
    requires colon < |line|
  {
    resp.(headers := resp.headers[line[..colon] := line[colon + 1..]])
  }

  function AfterField(ctx: Context, line: string): Context {
    var colon := Find(line, ':');
    if colon < |line| then ctx.(response := FieldOf(ctx.response, line, colon)) else ctx.(state := ExpectBody)
  }

  function FieldTurn(c: Config): (t: Turn)
    ensures t.hasMore ==> t.ok && |t.config.buf| < |c.buf|
  {
    var crlf := FindCrlf(c.buf);
    if crlf == |c.buf| then Turn(c, true, false) else
    Turn(Skip(c, crlf + 2).(ctx := AfterField(c.ctx, c.buf[..crlf])), true, true)
  }

  /** One turn of the loop of `parseResponse`. The status message is dropped, and the body
      is all that has arrived. */
  function ResponseTurn(c: Config): Turn {
    match c.ctx.state
    case ExpectRequestLine => StatusTurn(c)
    case ExpectHeaders => FieldTurn(c)
    case ExpectBody =>
      Turn(Config(c.ctx.(state := GotAll, response := c.ctx.response.(body := c.buf)), ""), true, false)
    case GotAll => Turn(c, true, true)
  }

  lemma ResponseProductive()
    ensures Productive(ResponseTurn)
  {
  }

  function ParseResponse(c: Config): Outcome {
    ResponseProductive();
    Parse(ResponseTurn, c)
  }

  /** One of two versions, a code without a space, and anything, with a space between them. */
  predicate IsStatusLine(line: string, minor: char, code: string, message: string) {
    (minor == '0' || minor == '1') && ' ' !in code && line == "HTTP/1." + [minor] + " " + (code + " " + message)
  }

  lemma StatusVersionParts(minor: char, rest: string)
    requires minor == '0' || minor == '1'
    ensures var line := "HTTP/1." + [minor] + " " + rest;
      Find(line, ' ') == 8 && IsHttp1(line) && |line| > 8 && line[9..] == rest
  {
    var version := "HTTP/1." + [minor];
    assert version + [' '] + rest == "HTTP/1." + [minor] + " " + rest;
    FindAppend(version, ' ', rest);
    assert version[..5] == "HTTP/" && (version + [' '] + rest)[..5] == version[..5];
  }

  lemma CodeParts(code: string, message: string)
    requires ' ' !in code
    ensures var rest := code + " " + message; Find(rest, ' ') == |code| < |rest| && rest[..|code|] == code
  {
    assert code + [' '] + message == code + " " + message;
    FindAppend(code, ' ', message);
  }

  lemma StatusLineIsRead(resp: Response, line: string, minor: char, code: string, message: string)
    requires IsStatusLine(line, minor, code, message)
    ensures ProcessStatusLine(resp, line) == (true, resp.(statusCode := StatusOf(Atoi(code))))
  {
    StatusVersionParts(minor, code + " " + message);
    CodeParts(code, message);
  }

  lemma VersionPrefix(version: string)
    requires |version| == 8 && IsHttp1(version)
    ensures version == "HTTP/1." + [version[7]]
  {
    assert version == version[..5] + [version[5]] + [version[6]] + [version[7]];
  }

  lemma AcceptedIsStatusLine(resp: Response, line: string) returns (minor: char, code: string, message: string)
    requires ProcessStatusLine(resp, line).0
    ensures IsStatusLine(line, minor, code, message)
  {
    var version, rest := line[..8], line[9..];
    SplitAtSpace(line);
    assert version[..5] == line[..5];
    VersionPrefix(version);
    SplitAtSpace(rest);
    minor, code, message := version[7], rest[..Find(rest, ' ')], rest[Find(rest, ' ') + 1..];
  }

  /** A parser that has accepted the status line never fails. */
  lemma {:induction false} FieldsNeverFail(c: Config)
    requires c.ctx.state == ExpectHeaders || c.ctx.state == ExpectBody
    ensures ParseResponse(c).Returned? && ParseResponse(c).ok
    decreases |c.buf|
  {
    var u := ResponseTurn(c);
    if c.ctx.state == ExpectHeaders && u.hasMore { FieldsNeverFail(u.config); }
  }

  /** A complete first line is accepted exactly when it is a status line. A code that is not known
      becomes 0, and the message is not kept. */
  lemma StatusLineIff(c: Config, line: string, rest: string)
    requires c.ctx.state == ExpectRequestLine && NoCrlf(line) && c.buf == line + CRLF + rest
    ensures var o := ParseResponse(c);
      o.Returned? && !o.ok <==> !exists minor, code, message :: IsStatusLine(line, minor, code, message)
    ensures forall minor, code, message :: IsStatusLine(line, minor, code, message) ==>
      var r := c.ctx.response.(statusCode := StatusOf(Atoi(code)));
      ParseResponse(c) == ParseResponse(Config(c.ctx.(state := ExpectHeaders, response := r), rest))
  {
    FindCrlfLine(line, rest);
    assert c.buf[..|line|] == line && c.buf[|line| + 2..] == rest;
    var (ok, r) := ProcessStatusLine(c.ctx.response, line);
    var u := ResponseTurn(c);
    if ok {
      var _, _, _ := AcceptedIsStatusLine(c.ctx.response, line);
      assert u == Turn(Config(c.ctx.(state := ExpectHeaders, response := r), rest), true, true);
      FieldsNeverFail(u.config);
    }
    forall minor, code, message | IsStatusLine(line, minor, code, message)
      ensures (ok, r) == (true, c.ctx.response.(statusCode := StatusOf(Atoi(code))))
    {
      StatusLineIsRead(c.ctx.response, line, minor, code, message);
    }
  }

  /** A complete line behind it: with a colon, what is behind the first one is stored as it is,
      under what is in front of it; without one, all that has arrived behind it is the body. */
  lemma FieldLineDecides(c: Config, line: string, rest: string)
    requires c.ctx.state == ExpectHeaders && NoCrlf(line) && c.buf == line + CRLF + rest
    ensures forall k, v :: ':' !in k && line == k + ":" + v ==>
      var resp := c.ctx.response.(headers := c.ctx.response.headers[k := v]);
      ParseResponse(c) == ParseResponse(Config(c.ctx.(response := resp), rest))
    ensures ':' !in line ==>
      ParseResponse(c) ==
        Returned(Config(c.ctx.(state := GotAll, response := c.ctx.response.(body := rest)), ""), true)
  {
    FindCrlfLine(line, rest);
    assert c.buf[..|line|] == line && c.buf[|line| + 2..] == rest;
    FindIff(line, ':', |line|);
    assert line[..|line|] == line;
    forall k, v | ':' !in k && line == k + ":" + v
      ensures AfterField(c.ctx, line) == c.ctx.(response := c.ctx.response.(headers := c.ctx.response.headers[k := v]))
    {
      ColonParts(k, v);
    }
    if ':' !in line { assert ParseResponse(c) == ParseResponse(Config(c.ctx.(state := ExpectBody), rest)); }
  }

  /** `parseResponse` always returns, unless the parser is done already. */
  lemma {:induction false} ResponseSpinsIff(c: Config)
    ensures ParseResponse(c).Spins? <==> c.ctx.state == GotAll
    decreases |c.buf|
  {
    var t := ResponseTurn(c);
    if c.ctx.state != GotAll && t.hasMore { ResponseSpinsIff(t.config); }
  }
}
