/** The first echo server: the listening port taken from the command line, and
    the per-request handler that answers by method and path.

    The server plumbing around these two (binding 127.0.0.1, the runtime, the
    service wiring, logging) is not part of this model.
 */
module EchoServer {
  import opened DecimalU16

  // ---------------------------------------------------------------------------
  // Port resolution
  // ---------------------------------------------------------------------------

  const DEFAULT_PORT: U16 := 8080

  /** The message of the panic raised when the port argument does not parse. */
  const PORT_PANIC: string := "Provide valid port"

  /** How start-up ends: with a port to listen on, or with a panic. */
  datatype Startup = Listen(port: U16) | Panic(message: string)

  /** Port resolution from the whole argument vector (the program name first).
      Exactly one argument after the program name is read as a u16 and must
      parse; any other count leaves the default. */
  function ResolvePort(args: seq<string>): (r: Startup)
    ensures |args| != 2 ==> r == Listen(DEFAULT_PORT)
    ensures |args| == 2 ==> (r.Listen? <==> IsU16Literal(args[1]))
    ensures |args| == 2 && r.Listen? ==> IsU16Literal(args[1]) && r.port == LiteralValue(args[1])
    ensures r.Panic? ==> r.message == PORT_PANIC
  {
    if |args| == 2 then
      match ParseU16(args[1])
      case Some(p) => Listen(p)
      case None => Panic(PORT_PANIC)
    else
      Listen(DEFAULT_PORT)
  }

  /** `get_port`: a mutable port starting at the default, overwritten by the
      parsed second argument when there are exactly two arguments. */
  method GetPort(args: seq<string>) returns (r: Startup)
    ensures r == ResolvePort(args)
  {
    var port: U16 := DEFAULT_PORT;
    if |args| == 2 {
      var parsed := ParseU16(args[1]);
      if parsed.None? {
        return Panic(PORT_PANIC);
      }
      port := parsed.value;
    }
    return Listen(port);
  }

  /** Round trip: the program name followed by any u16 in canonical decimal
      resolves to that u16. */
  lemma ResolvePortDecimal(program: string, n: U16)
    ensures ResolvePort([program, Decimal(n)]) == Listen(n)
  {
  }

  /** A bad second argument is fatal: it never falls back to the default port. */
  lemma ResolvePortNoFallback(program: string, arg: string)
    requires !IsU16Literal(arg)
    ensures ResolvePort([program, arg]) == Panic(PORT_PANIC)
  {
  }

  /** With three or more arguments, the second one is not looked at, even when
      it is not a number. */
  lemma ResolvePortIgnoresArgs(args: seq<string>, other: string)
    requires |args| >= 3
    ensures ResolvePort(args) == ResolvePort(args[1 := other]) == Listen(DEFAULT_PORT)
  {
  }

  /** The two cases `get_port`'s unit tests check. */
  lemma ResolvePortExamples()
    ensures ResolvePort(["exec", "80"]) == Listen(80)
    ensures ResolvePort(["exec"]) == Listen(8080)
  {
  }

  /** Concrete arguments that are accepted: zero, a leading '+', leading
      zeros and the largest u16. */
  lemma ResolvePortAccepts()
    ensures ResolvePort(["exec", "0"]) == Listen(0)
    ensures ResolvePort(["exec", "+443"]) == Listen(443)
    ensures ResolvePort(["exec", "0080"]) == Listen(80)
    ensures ResolvePort(["exec", "65535"]) == Listen(65535)
  {
    assert ParseU16("0080") == Accumulate(0, "0080") == Some(80);
    assert ParseU16("65535") == Accumulate(6553, "5") == Some(65535);
  }

  /** Concrete arguments that are fatal: 65536, an empty string, a sign and a
      space. */
  lemma ResolvePortRejects()
    ensures ResolvePort(["exec", "65536"]) == Panic(PORT_PANIC)
    ensures ResolvePort(["exec", ""]) == Panic(PORT_PANIC)
    ensures ResolvePort(["exec", "-1"]) == Panic(PORT_PANIC)
    ensures ResolvePort(["exec", " 80"]) == Panic(PORT_PANIC)
  {
    assert ParseU16("65536") == Accumulate(6553, "6") == None;
  }

  // ---------------------------------------------------------------------------
  // Request dispatch
  // ---------------------------------------------------------------------------

  type Byte = bv8
  type Bytes = seq<Byte>

  /** The request method; `Other` is every method the handler does not name
      (HEAD, DELETE, CONNECT, TRACE and extension methods). */
  datatype Method = GET | POST | PUT | PATCH | OPTIONS | Other

  /** What the handler reads of a request: its method, the path of its URI and
      its whole body. */
  datatype Request = Request(verb: Method, path: string, body: Bytes)

  /** What the handler sets on a response: its status code and body. */
  datatype Response = Response(status: nat, body: Bytes)

  const OK: nat := 200
  const NOT_FOUND: nat := 404

  /** The canned reply to `GET /`. */
  const USAGE: string := "Use {POST, PUT, PATCH} to echo"

  predicate IsAscii(s: string) {
    forall i :: 0 <= i < |s| ==> s[i] as int < 128
  }

  /** UTF-8 encoding of an ASCII string: one byte per character. */
  function AsciiBytes(s: string): (b: Bytes)
    requires IsAscii(s)
    ensures |b| == |s|
    ensures forall i :: 0 <= i < |s| ==> b[i] as int == s[i] as int
  {
    seq(|s|, i requires 0 <= i < |s| => s[i] as int as Byte)
  }

  /** Decoding of bytes below 128 as characters. */
  function AsciiText(b: Bytes): (s: string)
    requires forall i :: 0 <= i < |b| ==> b[i] as int < 128
    ensures |s| == |b|
    ensures forall i :: 0 <= i < |b| ==> s[i] as int == b[i] as int
  {
    seq(|b|, i requires 0 <= i < |b| => b[i] as int as char)
  }

  /** Decoding the bytes of an ASCII string gives the string back. */
  lemma AsciiRoundTrip(s: string)
    requires IsAscii(s)
    ensures AsciiText(AsciiBytes(s)) == s
  {
  }

  /** The body of the reply to `GET /`: the usage text as bytes, 30 of them,
      decoding back to the text. */
  function UsageBody(): (b: Bytes)
    ensures |b| == 30 && forall i :: 0 <= i < |b| ==> b[i] as int < 128
    ensures AsciiText(b) == USAGE
  {
    AsciiRoundTrip(USAGE);
    AsciiBytes(USAGE)
  }

  /** The methods whose body is echoed back at `/`. */
  predicate IsEchoMethod(m: Method) {
    m == POST || m == PUT || m == PATCH
  }

  /** The requests the handler answers with 200: exactly the path "/" and one
      of the five named methods. */
  predicate IsRouted(req: Request) {
    req.path == "/" && req.verb != Other
  }

  /** The handler's answer to a request, by method and path. */
  function Dispatch(req: Request): (r: Response)
    ensures r.status == OK <==> IsRouted(req)
    ensures r.status == NOT_FOUND <==> !IsRouted(req)
    ensures IsRouted(req) && req.verb == GET ==> r.body == UsageBody()
    ensures IsRouted(req) && IsEchoMethod(req.verb) ==> r.body == req.body
    ensures !IsRouted(req) || req.verb == OPTIONS ==> r.body == []
  {
    if req.path != "/" then Response(NOT_FOUND, [])
    else match req.verb
      case GET => Response(OK, UsageBody())
      case POST => Response(OK, req.body)
      case PUT => Response(OK, req.body)
      case PATCH => Response(OK, req.body)
      case OPTIONS => Response(OK, [])
      case Other => Response(NOT_FOUND, [])
  }

  /** `handle_request`: a fresh response (status 200, empty body) whose body or
      status is overwritten in the arm that matches the method and path.
      `handle_request` returns `Result<_, Infallible>`, which can only be
      `Ok`, so the response is returned directly. */
  method HandleRequest(req: Request) returns (response: Response)
    ensures response == Dispatch(req)
  {
    response := Response(OK, []);
    match (req.verb, req.path)
    case (GET, "/") =>
      response := response.(body := UsageBody());
    case (POST, "/") =>
      response := response.(body := req.body);
    case (PUT, "/") =>
      response := response.(body := req.body);
    case (PATCH, "/") =>
      response := response.(body := req.body);
    case (OPTIONS, "/") =>
      response := response.(status := OK);
    case _ =>
      response := response.(status := NOT_FOUND);
  }

  /** Echo: at "/", POST, PUT and PATCH send back any body byte for byte. */
  lemma EchoIsIdentity(m: Method, body: Bytes)
    requires IsEchoMethod(m)
    ensures Dispatch(Request(m, "/", body)) == Response(OK, body)
  {
  }

  /** Only an echo method's response depends on the request body: two requests
      that differ only in their bodies get the same response otherwise. */
  lemma BodyIgnoredUnlessEcho(req: Request, other: Bytes)
    requires !(req.path == "/" && IsEchoMethod(req.verb))
    ensures Dispatch(req.(body := other)) == Dispatch(req)
  {
  }

  /** The response body is the usage text, the request body, or empty. */
  lemma ResponseBodySources(req: Request)
    ensures Dispatch(req).body in {UsageBody(), req.body, []}
  {
  }

  /** Concrete requests: `GET /`, `OPTIONS /`, `HEAD /` and `GET /foo`. */
  lemma DispatchExamples(body: Bytes)
    ensures Dispatch(Request(GET, "/", body)) == Response(200, AsciiBytes(USAGE))
    ensures Dispatch(Request(OPTIONS, "/", body)) == Response(200, [])
    ensures Dispatch(Request(Other, "/", body)) == Response(404, [])
    ensures Dispatch(Request(GET, "/foo", body)) == Response(404, [])
    ensures Dispatch(Request(POST, "", body)) == Response(404, [])
  {
  }
}
