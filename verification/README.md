# Echo server: port resolution and request dispatch

A Dafny model of the first iteration of a small HTTP echo server (`src/main.rs`).
Two pieces of logic are modelled and proved:

- **Port resolution** (`get_port`). The argument vector starts with the program
  name. With exactly two entries, the second is parsed as a decimal `u16`, and a
  parse failure panics with "Provide valid port". With any other count the port
  is the default 8080. The parse follows Rust's `str::parse::<u16>`. The input
  must be non-empty. One leading `+` is skipped. The rest must be ASCII digits
  read left to right, with an overflow check after every digit. Leading zeros
  are accepted. `-`, whitespace, a lone sign and values above 65535 are
  rejected.
- **Request dispatch** (`handle_request`). This maps a request's method, URI
  path and body to a response status and body. The response starts as 200 with
  an empty body. `GET /` gets the text "Use {POST, PUT, PATCH} to echo".
  `POST /`, `PUT /` and `PATCH /` get the request body back byte for byte.
  `OPTIONS /` gets 200 with an empty body. Everything else gets 404 with an
  empty body.

Module `DecimalU16` (`decimal_u16.dfy`) holds the u16 parser and a canonical
decimal printer. Both are proved against `ValueOf`, the positional value of a
digit string. Module `EchoServer` (`echo_server.dfy`) holds the two operations
of `src/main.rs`. Each is written as a method with a mutable local, mirroring
`get_port`'s `let mut port` and `handle_request`'s `let mut response`. Each method is proved equal
to a specification function (`ResolvePort`, `Dispatch`), and the lemmas are
stated about those functions.

The panic is modelled as the result `Startup.Panic("Provide valid port")`.
The handler returns `Result<Response, Infallible>`, and only `Ok` of that type
can exist, so the model returns the response directly. The handler is total by
construction.

`parse::<u16>` accepts `"0"`, `"00"` and `"+0"`, so port 0 is a possible
result of `get_port`. The model follows the code.

## Model

| member | source | states |
|---|---|---|
| `DecimalU16.Accumulate` | src/main.rs:28 | This is the digit loop of `u16` parsing, which checks for overflow after every digit. It succeeds exactly when the text is all digits and their unbounded left-to-right reading after `acc` is at most 65535, and it then returns that reading. So failing at the first overflowing digit is the same as checking the final value. A non-digit anywhere is a failure. |
| `DecimalU16.ParseU16` | src/main.rs:28 | `args[1].parse::<u16>()` succeeds if and only if the text is an optional `+` followed by one or more digits whose positional value is at most 65535, and it then yields that value. An empty string, a lone sign and `-` fail. |
| `DecimalU16.ValueOfIsReadDigits` | src/main.rs:28 | Reading a digit string left to right from zero, as the parse loop does, gives its positional value. |
| `DecimalU16.Decimal` | src/main.rs:28 | The u16-to-decimal printer used for the round trip yields a non-empty all-digit string, with no leading zero unless it is "0", whose positional value is `n`. |
| `DecimalU16.DecimalOfValue` | src/main.rs:28 | The printer inverts `ValueOf` on canonical digit strings, so printing and reading are a bijection between naturals and canonical strings. |
| `DecimalU16.ParseDecimal` | src/main.rs:28 | Round trip: for every n in 0..65535, parsing `Decimal(n)` yields n. |
| `DecimalU16.ParsePlusDecimal` | src/main.rs:28 | One leading `+` is accepted: `"+" + Decimal(n)` parses to n. |
| `DecimalU16.ParseLeadingZeros` | src/main.rs:28 | Any number of leading zeros in front of `Decimal(n)` still parses to n. |
| `DecimalU16.ParseRejectsNonDigit` | src/main.rs:28 | A text with any non-digit after the optional `+` fails to parse. Examples are `-`, a space or a second `+`. |
| `DecimalU16.ParseRejectsOverflow` | src/main.rs:28 | A digit string worth more than 65535 fails to parse, whatever leading zeros it has. |
| `EchoServer.ResolvePort` | src/main.rs:24-32 | Any argument count other than two gives port 8080. With two arguments, the result is a port if and only if the second is a u16 literal, and the port is then its value. Otherwise the result is a panic with message "Provide valid port". |
| `EchoServer.GetPort` | src/main.rs:24-32 | The method with its mutable `port`, defaulted and then overwritten by the parse, returns exactly `ResolvePort(args)`. |
| `EchoServer.ResolvePortDecimal` | src/main.rs:27-28 | Round trip: `[program, Decimal(n)]` resolves to port n for every u16 n. |
| `EchoServer.ResolvePortNoFallback` | src/main.rs:27-28 | With two arguments, a second one that is not a u16 literal is fatal and never falls back to 8080. |
| `EchoServer.ResolvePortIgnoresArgs` | src/main.rs:25-27 | With three or more arguments the second one is not read: replacing it changes nothing, and the port is 8080. |
| `EchoServer.ResolvePortExamples` | src/main.rs:61-77 | `get_port`'s two unit tests: `["exec", "80"]` gives 80, and `["exec"]` gives 8080. |
| `EchoServer.ResolvePortAccepts` | src/main.rs:27-28 | `"0"`, `"+443"`, `"0080"` and `"65535"` are accepted as ports 0, 443, 80 and 65535. |
| `EchoServer.ResolvePortRejects` | src/main.rs:27-28 | `"65536"`, `""`, `"-1"` and `" 80"` are fatal. |
| `EchoServer.AsciiRoundTrip` | src/main.rs:39 | Decoding the UTF-8 bytes of an ASCII string gives the string back. |
| `EchoServer.UsageBody` | src/main.rs:39 | The `GET /` body is 30 bytes, all below 128, and decodes to "Use {POST, PUT, PATCH} to echo". |
| `EchoServer.Dispatch` | src/main.rs:35-56 | The status is 200 exactly for path "/" with GET, POST, PUT, PATCH or OPTIONS, and 404 otherwise. `GET /` carries the usage body. The echo methods carry the request body. OPTIONS and unmatched requests carry an empty body. |
| `EchoServer.HandleRequest` | src/main.rs:34-59 | The method starts from status 200 with an empty body and overwrites the body or status in the matching arm. It returns exactly `Dispatch(req)` for every request, so it never fails. |
| `EchoServer.EchoIsIdentity` | src/main.rs:41-49 | For every byte sequence B, `POST /`, `PUT /` and `PATCH /` with body B answer 200 with body B. |
| `EchoServer.BodyIgnoredUnlessEcho` | src/main.rs:37-55 | Except for an echo method at "/", replacing the request body does not change the response. |
| `EchoServer.ResponseBodySources` | src/main.rs:35-56 | The response body is always the usage text, the request body, or empty. |
| `EchoServer.DispatchExamples` | src/main.rs:35-56 | `GET /` gives 200 with the usage bytes. `OPTIONS /` gives 200 with an empty body. `HEAD /`, `GET /foo` and `POST` with an empty path give 404 with an empty body. |

## Left out

- `main` (src/main.rs:8-22) is not modelled. It covers the tokio runtime, binding 127.0.0.1, the service wiring and the `println!`/`eprintln!` output. These are I/O and concurrency handled by hyper and tokio.
- The panic at src/main.rs:28 is a result value (`Startup.Panic`) in the model. Unwinding and process termination are not modelled.
- ParseU16 does not record the kind of a `ParseIntError` (empty, invalid digit, overflow). Every failure panics with the same "Provide valid port" message, and the kinds differ only in the text appended to that message. The kind for a lone `+` also changed between Rust releases.
- Request and response bodies are finite byte sequences, and `req.into_body()` is the identity on them. Streaming, chunking and back-pressure of hyper's `Body` are not modelled.
- Headers are not modelled. This iteration neither reads nor sets any, and hyper adds framing headers itself.
- `Method.Other` stands for every method that is not GET, POST, PUT, PATCH or OPTIONS (HEAD, DELETE, CONNECT, TRACE, extensions). The handler treats all of them alike.
- The request's `path` is what the URI's path accessor returns. Splitting off the query string and normalising the request target are done by hyper and are not modelled.
