/** The parser object: it consumes a buffer and fills in a request or a response. */
module HttpContexts {
  import opened Text
  import opened HttpMessages
  import opened Buffers
  import P = HttpParsers

  class HttpContext {
    var state: P.State
    const request: HttpRequest
    var response: Response

    ghost function Ctx(): P.Context
      reads this, request
    {
      P.Context(state, request.St(), response)
    }

    ghost function Configuration(buf: Buffer): P.Config
      requires buf.Valid()
      reads this, request, buf, buf.data
    {
      P.Config(Ctx(), buf.Contents())
    }

    constructor ()
      ensures Ctx() == P.FRESH_CONTEXT && fresh(request)
    {
      state, response := P.ExpectRequestLine, EMPTY_RESPONSE;
      request := new HttpRequest();
    }

    method FindChar(s: string, c: char) returns (i: nat)
      ensures i == Find(s, c)
    {
      i := 0;
      while i < |s| && s[i] != c
        invariant i <= |s| && c !in s[..i]
      {
        i := i + 1;
      }
      FindIff(s, c, i);
    }

    method ProcessRequestLine(line: string) returns (ok: bool)
      requires request.verb == Invalid
      modifies request
      ensures (ok, request.St()) == P.ProcessRequestLine(old(request.St()), line)
    {
      ok := false;
      var space := FindChar(line, ' ');
      if space != |line| {
        var known := request.SetMethod(line[..space]);
        if known {
          ok := ProcessTarget(line[space + 1..]);
        }
      }
    }

    /** The request line behind the method. */
    method ProcessTarget(rest: string) returns (ok: bool)
      modifies request
      ensures (ok, request.St()) == P.ProcessTarget(old(request.St()), rest)
    {
      ok := false;
      var space := FindChar(rest, ' ');
      if space != |rest| {
        var question := FindChar(rest[..space], '?');
        request.path := rest[..question];
        assert rest[..space][..question] == rest[..question];
        if question != space {
          request.query := rest[..space][question..];
        }
        var version := rest[space + 1..];
        ok := |version| == 8 && version[..7] == "HTTP/1.";
        if ok {
          if version[7] == '1' {
            request.version := Http11;
          } else if version[7] == '0' {
            request.version := Http10;
          } else {
            ok := false;
          }
        }
      }
    }

    method AcceptLine(line: string) returns (ok: bool)
      requires request.verb == Invalid
      modifies this`state, request
      ensures (Ctx(), ok) == P.AfterLine(old(Ctx()), line)
    {
      ok := ProcessRequestLine(line);
      if ok {
        state := P.ExpectHeaders;
      }
    }

    method TakeRequestLine(buf: Buffer) returns (ok: bool, hasMore: bool)
      requires buf.Valid() && state.ExpectRequestLine? && request.verb == Invalid
      modifies this, request, buf`readerIndex, buf`writeIndex
      ensures buf.Valid() && P.Turn(Configuration(buf), ok, hasMore) == P.LineTurn(old(Configuration(buf)))
    {
      ok, hasMore := true, true;
      ghost var bytes := buf.Contents();
      var crlf := buf.FindCRLF();
      if crlf < buf.ReadableBytes() {
        ok := AcceptLine(buf.Peek()[..crlf]);
        if ok {
          buf.Retrieve(crlf + 2);
          assert buf.Contents() == bytes[crlf + 2..];
        } else {
          hasMore := false;
        }
      } else {
        hasMore := false;
      }
    }

    /** A header line is stored; the line that ends the headers changes the state. Its
        terminator is not consumed yet, so there always are readable bytes. */
    method StoreOrEnd(line: string, readable: nat) returns (hasMore: bool)
      requires state.ExpectHeaders? && readable > 0
      modifies this`state, request
      ensures (Ctx(), hasMore) == P.AfterHeader(old(Ctx()), line)
    {
      hasMore := true;
      var colon := FindChar(line, ':');
      if colon != |line| {
        request.AddHeader(line, colon);
      } else if request.verb == Post && readable > 0 {
        state := P.ExpectBody;
      } else {
        state := P.GotAll;
        hasMore := false;
      }
    }

    method TakeHeader(buf: Buffer) returns (ok: bool, hasMore: bool)
      requires buf.Valid() && state.ExpectHeaders?
      modifies this, request, buf`readerIndex, buf`writeIndex
      ensures buf.Valid() && P.Turn(Configuration(buf), ok, hasMore) == P.HeaderTurn(old(Configuration(buf)))
    {
      ok, hasMore := true, true;
      ghost var bytes := buf.Contents();
      var crlf := buf.FindCRLF();
      if crlf < buf.ReadableBytes() {
        hasMore := StoreOrEnd(buf.Peek()[..crlf], buf.ReadableBytes());
        buf.Retrieve(crlf + 2);
        assert buf.Contents() == bytes[crlf + 2..];
      } else {
        hasMore := false;
      }
    }

    method TakeBody(buf: Buffer) returns (ok: bool, hasMore: bool)
      requires buf.Valid() && state.ExpectBody?
      modifies this, request, buf`readerIndex, buf`writeIndex
      ensures buf.Valid() && P.Turn(Configuration(buf), ok, hasMore) == P.BodyTurn(old(Configuration(buf)))
    {
      ok, hasMore := true, true;
      var contentLength := request.GetHeader("Content-Length");
      if contentLength != "" {
        var n := Atoi(contentLength);
        if 0 <= n <= buf.ReadableBytes() {
          request.body := buf.Peek()[..n];
          buf.Retrieve(n);
          state := P.GotAll;
          hasMore := false;
        }
      } else {
        var all := buf.RetrieveAsString(buf.ReadableBytes());
        request.body := all;
        state := P.GotAll;
        hasMore := false;
      }
    }

    /** `parseRequest`. `spins`: a turn has changed nothing and asks for another one; from there
        on the source's loop never ends. The precondition is the assertion of `setMethod`. */
    method ParseRequest(buf: Buffer) returns (ok: bool, spins: bool)
      requires buf.Valid() && P.MethodUnset(Ctx())
      modifies this, request, buf`readerIndex, buf`writeIndex
      ensures buf.Valid() && P.Result(Configuration(buf), ok, spins) == P.ParseRequest(old(Configuration(buf)))
    {
      P.RequestProductive();
      ok, spins := true, false;
      var hasMore := true;
      while hasMore && !spins
        invariant buf.Valid()
        invariant spins ==> P.Spins(Configuration(buf)) == P.ParseRequest(old(Configuration(buf)))
        invariant hasMore ==> P.MethodUnset(Ctx())
        invariant hasMore ==> P.ParseRequest(Configuration(buf)) == P.ParseRequest(old(Configuration(buf)))
        invariant !hasMore && !spins ==> P.Returned(Configuration(buf), ok) == P.ParseRequest(old(Configuration(buf)))
        decreases if hasMore && !spins then |buf.Contents()| + 1 else 0
      {
        if state == P.GotAll {
          spins := true;
        } else {
          var inBody := state == P.ExpectBody;
          ok, hasMore := TakeTurn(buf);
          spins := hasMore && inBody;
        }
      }
    }

    /** One turn of the loop. */
    method TakeTurn(buf: Buffer) returns (ok: bool, hasMore: bool)
      requires buf.Valid() && P.MethodUnset(Ctx()) && state != P.GotAll
      modifies this, request, buf`readerIndex, buf`writeIndex
      ensures buf.Valid() && P.Turn(Configuration(buf), ok, hasMore) == P.RequestTurn(old(Configuration(buf)))
      ensures hasMore ==> P.MethodUnset(Ctx())
    {
      if state == P.ExpectRequestLine {
        ok, hasMore := TakeRequestLine(buf);
      } else if state == P.ExpectHeaders {
        ok, hasMore := TakeHeader(buf);
      } else {
        ok, hasMore := TakeBody(buf);
      }
    }

    method ProcessStatusLine(line: string) returns (ok: bool)
      modifies this`response
      ensures (ok, response) == P.ProcessStatusLine(old(response), line)
    {
      ok := false;
      var space1 := FindChar(line, ' ');
      if space1 != |line| && space1 == 8 && P.IsHttp1(line) {
        ok := ProcessCode(line[space1 + 1..]);
      }
    }

    method ProcessCode(rest: string) returns (ok: bool)
      modifies this`response
      ensures (ok, response) == P.ProcessCode(old(response), rest)
    {
      ok := false;
      var space2 := FindChar(rest, ' ');
      if space2 != |rest| {
        response := P.WithStatus(response, rest[..space2]);
        ok := true;
      }
    }

    method AcceptStatus(line: string) returns (ok: bool)
      modifies this`state, this`response
      ensures (Ctx(), ok) == P.AfterStatus(old(Ctx()), line)
    {
      ok := ProcessStatusLine(line);
      if ok {
        state := P.ExpectHeaders;
      }
    }

    method TakeStatusLine(buf: Buffer) returns (ok: bool, hasMore: bool)
      requires buf.Valid() && state.ExpectRequestLine?
      modifies this, buf`readerIndex, buf`writeIndex
      ensures buf.Valid() && P.Turn(Configuration(buf), ok, hasMore) == P.StatusTurn(old(Configuration(buf)))
    {
      ok, hasMore := true, true;
      ghost var bytes := buf.Contents();
      var crlf := buf.FindCRLF();
      if crlf < buf.ReadableBytes() {
        ok := AcceptStatus(buf.Peek()[..crlf]);
        if ok {
          buf.Retrieve(crlf + 2);
          assert buf.Contents() == bytes[crlf + 2..];
        } else {
          hasMore := false;
        }
      } else {
        hasMore := false;
      }
    }

    /** A field is stored; any other line ends the headers. Its terminator is not consumed yet,
        so there always are readable bytes. */
    method StoreField(line: string, readable: nat)
      requires state.ExpectHeaders? && readable > 0
      modifies this`state, this`response
      ensures Ctx() == P.AfterField(old(Ctx()), line)
    {
      var colon := FindChar(line, ':');
      if colon != |line| {
        response := P.FieldOf(response, line, colon);
      } else if readable > 0 {
        state := P.ExpectBody;
      }
    }

    method TakeField(buf: Buffer) returns (ok: bool, hasMore: bool)
      requires buf.Valid() && state.ExpectHeaders?
      modifies this, buf`readerIndex, buf`writeIndex
      ensures buf.Valid() && P.Turn(Configuration(buf), ok, hasMore) == P.FieldTurn(old(Configuration(buf)))
    {
      ok, hasMore := true, true;
      ghost var bytes := buf.Contents();
      var crlf := buf.FindCRLF();
      if crlf < buf.ReadableBytes() {
        StoreField(buf.Peek()[..crlf], buf.ReadableBytes());
        buf.Retrieve(crlf + 2);
        assert buf.Contents() == bytes[crlf + 2..];
      } else {
        hasMore := false;
      }
    }

    method TakeRest(buf: Buffer) returns (hasMore: bool)
      requires buf.Valid() && state.ExpectBody?
      modifies this, buf`readerIndex, buf`writeIndex
      ensures buf.Valid() && P.Turn(Configuration(buf), true, hasMore) == P.ResponseTurn(old(Configuration(buf)))
    {
      var all := buf.RetrieveAsString(buf.ReadableBytes());
      response := response.(body := all);
      state := P.GotAll;
      hasMore := false;
    }

    /** `parseResponse`; for `spins` see `ParseRequest`. */
    method ParseResponse(buf: Buffer) returns (ok: bool, spins: bool)
      requires buf.Valid()
      modifies this, buf`readerIndex, buf`writeIndex
      ensures buf.Valid() && P.Result(Configuration(buf), ok, spins) == P.ParseResponse(old(Configuration(buf)))
    {
      P.ResponseProductive();
      ok, spins := true, false;
      var hasMore := true;
      while hasMore && !spins
        invariant buf.Valid()
        invariant hasMore ==> ok
        invariant spins ==> P.Spins(Configuration(buf)) == P.ParseResponse(old(Configuration(buf)))
        invariant hasMore ==> P.ParseResponse(Configuration(buf)) == P.ParseResponse(old(Configuration(buf)))
        invariant !hasMore && !spins ==> P.Returned(Configuration(buf), ok) == P.ParseResponse(old(Configuration(buf)))
        decreases if hasMore && !spins then |buf.Contents()| + 1 else 0
      {
        if state == P.ExpectRequestLine {
          ok, hasMore := TakeStatusLine(buf);
        } else if state == P.ExpectHeaders {
          ok, hasMore := TakeField(buf);
        } else if state == P.ExpectBody {
          hasMore := TakeRest(buf);
        } else {
          spins := true;
        }
      }
    }

    /** Makes the object ready for the next request. */
    method Reset()
      modifies this, request
      ensures Ctx() == P.Reset(old(Ctx()))
    {
      state := P.ExpectRequestLine;
      var dummy := new HttpRequest();
      request.Swap(dummy);
    }
  }
}
