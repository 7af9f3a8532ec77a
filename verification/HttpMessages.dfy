/** HTTP requests and responses: the values that the parsers fill in and the printers read. */
module HttpMessages {
  import opened Text

  datatype Method = Invalid | Get | Post | Head | Put | Delete
  datatype Version = Unknown | Http10 | Http11

  datatype Request = Request(
    verb: Method, version: Version, path: string, query: string, body: string, headers: map<string, string>)

  const EMPTY_REQUEST := Request(Invalid, Unknown, "", "", "", map[])

  /** The status codes that `HttpResponse` can hold; 0 is `kUnknown`. */
  type StatusCode = n: int | n in {0, 200, 301, 400, 404}

  datatype Response = Response(
    headers: map<string, string>, statusCode: StatusCode, statusMessage: string, closeConnection: bool, body: string)

  const EMPTY_RESPONSE := Response(map[], 0, "", false, "")

  function MethodOf(name: string): Method {
    if name == "GET" then Get
    else if name == "POST" then Post
    else if name == "HEAD" then Head
    else if name == "PUT" then Put
    else if name == "DELETE" then Delete
    else Invalid
  }

  function MethodString(m: Method): string {
    match m
    case Get => "GET"
    case Post => "POST"
    case Head => "HEAD"
    case Put => "PUT"
    case Delete => "DELETE"
    case Invalid => "UNKNOWN"
  }

  lemma MethodRoundTrip(m: Method)
    ensures MethodOf(MethodString(m)) == m
    ensures ' ' !in MethodString(m) && '\r' !in MethodString(m)
  {
  }

  function StatusOf(code: int): StatusCode {
    if code == 200 || code == 301 || code == 400 || code == 404 then code else 0
  }

  function Lookup(headers: map<string, string>, field: string): string {
    if field in headers then headers[field] else ""
  }

  lemma SkipOneAt(line: string, start: nat)
    requires start < |line| && IsSpace(line[start])
    ensures TrimLeft(line[start..]) == TrimLeft(line[start + 1..])
  {
    SkipOne(line[start..]);
    assert line[start..][1..] == line[start + 1..];
  }

  /** The first of the two trimming loops of `addHeader`. */
  method SkipSpaces(line: string, from: nat) returns (start: nat)
    requires from <= |line|
    ensures start <= |line| && line[start..] == TrimLeft(line[from..])
  {
    start := from;
    while start < |line| && IsSpace(line[start])
      invariant start <= |line| && TrimLeft(line[start..]) == TrimLeft(line[from..])
    {
      SkipOneAt(line, start);
      start := start + 1;
    }
    NothingToSkip(line[start..]);
  }

  /** The second of them. */
  method DropSpaces(s: string) returns (value: string)
    ensures value == TrimRight(s)
  {
    value := s;
    while value != "" && IsSpace(value[|value| - 1])
      invariant TrimRight(value) == TrimRight(s)
      decreases |value|
    {
      DropOne(value);
      value := value[..|value| - 1];
    }
    NothingToDrop(value);
  }

  /** A request with the field of a header line whose first colon is at `colon`. */
  function HeaderOf(req: Request, line: string, colon: nat): Request
    requires colon < |line|
  {
    req.(headers := req.headers[line[..colon] := Trim(line[colon + 1..])])
  }

  /** The request as an object that the parser fills in. */
  class HttpRequest {
    var verb: Method
    var version: Version
    var path: string
    var query: string
    var body: string
    var headers: map<string, string>

    function St(): Request reads this {
      Request(verb, version, path, query, body, headers)
    }

    constructor ()
      ensures St() == EMPTY_REQUEST
    {
      verb, version, path, query, body, headers := Invalid, Unknown, "", "", "", map[];
    }

    /** The source asserts that no method has been set yet. */
    method SetMethod(name: string) returns (ok: bool)
      requires verb == Invalid
      modifies this`verb
      ensures verb == MethodOf(name) && (ok <==> verb != Invalid)
    {
      if name == "GET" {
        verb := Get;
      } else if name == "POST" {
        verb := Post;
      } else if name == "HEAD" {
        verb := Head;
      } else if name == "PUT" {
        verb := Put;
      } else if name == "DELETE" {
        verb := Delete;
      } else {
        verb := Invalid;
      }
      ok := verb != Invalid;
    }

    method AddHeader(line: string, colon: nat)
      requires colon < |line|
      modifies this`headers
      ensures St() == HeaderOf(old(St()), line, colon)
    {
      var start := SkipSpaces(line, colon + 1);
      var value := DropSpaces(line[start..]);
      headers := headers[line[..colon] := value];
    }

    method GetHeader(field: string) returns (value: string)
      ensures value == Lookup(headers, field)
    {
      value := "";
      if field in headers {
        value := headers[field];
      }
    }

    /** Exchanges everything but the body. */
    method Swap(that: HttpRequest)
      modifies this, that
      ensures St() == old(that.St()).(body := old(body))
      ensures that.St() == old(St()).(body := old(that.body))
    {
      var was := St();
      verb, version, path, query, headers := that.verb, that.version, that.path, that.query, that.headers;
      that.verb, that.version, that.path, that.query, that.headers :=
        was.verb, was.version, was.path, was.query, was.headers;
    }
  }
}
