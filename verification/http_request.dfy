/** HTTP/1.1 requests: the parser as a function of its state and a buffer, and the serializer.
    A character stands for a byte. */
module HttpRequest {
  import opened Collections
  import opened Words

  datatype Verb = Get | Post | Put | Delete | Patch | Head | Options | UnknownVerb
  datatype Version = Http10 | Http11 | Http20 | UnknownVersion

  datatype Request = Request(
    verb: Verb,
    path: string,
    query: string,
    version: Version,
    headers: map<string, string>,
    body: string
  )

  datatype Phase = RequestLine | Headers | Body | Complete

  /** The parser object: its phase, the request so far, the error if there is one, and the
      announced length of the body. */
  datatype Parser = Parser(phase: Phase, request: Request, error: Option<string>, length: nat)

  const EMPTY := Request(UnknownVerb, "", "", UnknownVersion, map[], "")
  const FRESH := Parser(RequestLine, EMPTY, None, 0)

  // ---------------------------------------------------------------- names

  function VerbFrom(s: string): Verb {
    if s == "GET" then Get
    else if s == "POST" then Post
    else if s == "PUT" then Put
    else if s == "DELETE" then Delete
    else if s == "PATCH" then Patch
    else if s == "HEAD" then Head
    else if s == "OPTIONS" then Options
    else UnknownVerb
  }

  function VerbText(m: Verb): string {
    match m
    case Get => "GET"
    case Post => "POST"
    case Put => "PUT"
    case Delete => "DELETE"
    case Patch => "PATCH"
    case Head => "HEAD"
    case Options => "OPTIONS"
    case UnknownVerb => "UNKNOWN"
  }

  function VersionFrom(s: string): Version {
    if s == "HTTP/1.0" then Http10
    else if s == "HTTP/1.1" then Http11
    else if s == "HTTP/2.0" || s == "HTTP/2" then Http20
    else UnknownVersion
  }

  function VersionText(v: Version): string {
    match v
    case Http10 => "HTTP/1.0"
    case Http11 => "HTTP/1.1"
    case Http20 => "HTTP/2.0"
    case UnknownVersion => "HTTP/1.1"
  }

  // ---------------------------------------------------------------- scanning

  predicate IsBreak(c: char) { c == '\r' || c == '\n' }
  predicate IsSpace(c: char) { c == ' ' || c == '\t' || c == '\n' || c == '\r' || c as int == 11 || c as int == 12 }
  predicate IsSolid(c: char) { !IsSpace(c) }
  predicate IsColon(c: char) { c == ':' }
  predicate IsQuestion(c: char) { c == '?' }
  predicate IsBlank(c: char) { c == ' ' || c == '\t' }
  predicate IsDigit(c: char) { '0' <= c <= '9' }

  /** The first position from `i` on whose character satisfies `p`, or the end. */
  function First(s: string, i: nat, p: char -> bool): (j: nat)
    requires i <= |s|
    ensures i <= j <= |s|
    ensures j < |s| ==> p(s[j])
    ensures forall k :: i <= k < j ==> !p(s[k])
    decreases |s| - i
  {
    if i == |s| || p(s[i]) then i else First(s, i + 1, p)
  }

  /** A line and the position after its terminator, CRLF or LF. */
  datatype Line = NoLine | Line(text: string, next: nat)

  function NextLine(b: string, pos: nat): Line
    requires pos <= |b|
  {
    var end := First(b, pos, IsBreak);
    if end == |b| then NoLine
    else if b[end] == '\r' && end + 1 < |b| && b[end + 1] == '\n' then Line(b[pos..end], end + 2)
    else if b[end] == '\n' then Line(b[pos..end], end + 1)
    else NoLine
  }

  /** What `>>` extracts from a stream: the next run of solid characters, and the position after it. */
  function Token(s: string, i: nat): Option<(string, nat)>
    requires i <= |s|
  {
    var from := First(s, i, IsSolid);
    if from == |s| then None
    else
      var to := First(s, from, IsSpace);
      Some((s[from..to], to))
  }

  function TrimFront(s: string): string {
    s[First(s, 0, c => !IsBlank(c))..]
  }

  function TrimBack(s: string): string {
    if s != "" && IsBlank(s[|s| - 1]) then TrimBack(s[..|s| - 1]) else s
  }

  function Digits(s: string, value: nat): nat {
    if s != "" && IsDigit(s[0]) then Digits(s[1..], value * 10 + (s[0] as int - '0' as int)) else value
  }

  /** `std::stoul`: leading space, an optional sign, then digits; trailing text is ignored, a
      minus sign negates modulo 2^64, and no digits or too large a value is an error. */
  function Stoul(s: string): Option<nat> {
    var i := First(s, 0, IsSolid);
    var signed := i < |s| && (s[i] == '+' || s[i] == '-');
    var from := if signed then i + 1 else i;
    if from == |s| || !IsDigit(s[from]) then None
    else
      var value := Digits(s[from..], 0);
      if value >= WORD64 then None
      else if signed && s[i] == '-' then Some((WORD64 - value) % WORD64)
      else Some(value)
  }

  // ---------------------------------------------------------------- the parser

  predicate IsLengthName(name: string) {
    name == "Content-Length" || name == "content-length"
  }

  /** `parse_request_line` */
  function ReadRequestLine(ps: Parser, line: string): Parser {
    var verb := Token(line, 0);
    if verb.None? then ps.(error := Some("Invalid request line"))
    else
      var target := Token(line, verb.value.1);
      if target.None? then ps.(error := Some("Invalid request line"))
      else
        var text := target.value.0;
        var mark := First(text, 0, IsQuestion);
        var r := ps.request.(verb := VerbFrom(verb.value.0), path := text[..mark]);
        var r' := if mark < |text| then r.(query := text[mark + 1..]) else r;
        var version := Token(line, target.value.1);
        if version.None? then ps.(request := r', error := Some("Missing HTTP version"))
        else ps.(request := r'.(version := VersionFrom(version.value.0)))
  }

  /** `parse_header` */
  function ReadHeader(ps: Parser, line: string): Parser {
    var colon := First(line, 0, IsColon);
    if colon == |line| then ps.(error := Some("Invalid header format"))
    else
      var name := line[..colon];
      var value := TrimBack(TrimFront(line[colon + 1..]));
      var ps' := ps.(request := ps.request.(headers := ps.request.headers[name := value]));
      if !IsLengthName(name) then ps'
      else
        var length := Stoul(value);
        if length.None? then ps'.(error := Some("Invalid Content-Length")) else ps'.(length := length.value)
  }

  /** The parser after a call, whether it completed, and how much it consumed. */
  datatype Outcome = Outcome(parser: Parser, ok: bool, consumed: nat)

  /** `parse_body` */
  function ReadBody(ps: Parser, b: string, consumed: nat): Outcome
    requires consumed <= |b|
  {
    if ps.length == 0 then Outcome(ps.(phase := Complete), true, consumed)
    else if |b| - consumed < ps.length then Outcome(ps, false, consumed)
    else
      Outcome(ps.(phase := Complete, request := ps.request.(body := b[consumed..consumed + ps.length])),
              true, consumed + ps.length)
  }

  /** The loop of `parse` from a position on. */
  function ParseFrom(ps: Parser, b: string, pos: nat, consumed: nat): Outcome
    requires pos <= |b| && consumed <= |b|
    decreases |b| - pos
  {
    if ps.phase.Complete? then Outcome(ps, true, consumed)
    else if ps.phase.Body? then ReadBody(ps, b, consumed)
    else
      match NextLine(b, pos)
      case NoLine => Outcome(ps, false, consumed)
      case Line(text, next) =>
        if ps.phase.RequestLine? then
          var ps' := ReadRequestLine(ps, text);
          if ps'.error.Some? then Outcome(ps', false, next) else ParseFrom(ps'.(phase := Headers), b, next, next)
        else if text == "" then ReadBody(ps.(phase := Body), b, next)
        else
          var ps' := ReadHeader(ps, text);
          if ps'.error.Some? then Outcome(ps', false, next) else ParseFrom(ps', b, next, next)
  }

  /** `HttpRequestParser::parse`, which starts at the front of the buffer in whatever phase it is. */
  function Parse(ps: Parser, b: string): Outcome {
    if ps.error.Some? then Outcome(ps, false, 0) else ParseFrom(ps, b, 0, 0)
  }

  // ---------------------------------------------------------------- the serializer

  function Target(r: Request): string {
    if r.query == "" then r.path else r.path + "?" + r.query
  }

  function HeaderLines(headers: map<string, string>, order: seq<string>): string
    requires forall name :: name in order ==> name in headers
  {
    if order == [] then "" else order[0] + ": " + headers[order[0]] + "\r\n" + HeaderLines(headers, order[1..])
  }

  /** `serialize_http_request`, for one enumeration order of the header map. */
  function Serialize(r: Request, order: seq<string>): string
    requires forall name :: name in order ==> name in r.headers
  {
    VerbText(r.verb) + " " + Target(r) + " " + VersionText(r.version) + "\r\n"
    + HeaderLines(r.headers, order) + "\r\n" + r.body
  }
}
