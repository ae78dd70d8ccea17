/** The parser object and the serializer loop, which compute what `HttpRequest` specifies. */
module HttpParser {
  import opened Collections
  import opened HttpRequest
  import opened HttpRequestLaws

  /** `HttpRequestParser` */
  class RequestParser {
    var phase: Phase
    var request: Request
    var error: Option<string>
    var length: nat

    function View(): Parser
      reads this
    {
      Parser(phase, request, error, length)
    }

    constructor ()
      ensures View() == FRESH
    {
      phase, request, error, length := RequestLine, EMPTY, None, 0;
    }

    method Reset()
      modifies this
      ensures View() == FRESH
    {
      phase, request, error, length := RequestLine, EMPTY, None, 0;
    }

    method ParseRequestLine(line: string) returns (ok: bool)
      requires error.None?
      modifies this
      ensures View() == ReadRequestLine(old(View()), line)
      ensures ok == error.None?
    {
      var verb := Token(line, 0);
      if verb.None? {
        error := Some("Invalid request line");
        return false;
      }
      var target := Token(line, verb.value.1);
      if target.None? {
        error := Some("Invalid request line");
        return false;
      }
      request := request.(verb := VerbFrom(verb.value.0));
      var text := target.value.0;
      var mark := FindFirst(text, 0, IsQuestion);
      if mark < |text| {
        request := request.(path := text[..mark]);
        request := request.(query := text[mark + 1..]);
      } else {
        request := request.(path := text);
        assert text[..mark] == text;
      }
      var version := Token(line, target.value.1);
      if version.None? {
        error := Some("Missing HTTP version");
        return false;
      }
      request := request.(version := VersionFrom(version.value.0));
      return true;
    }

    method ParseHeader(line: string) returns (ok: bool)
      requires error.None?
      modifies this
      ensures View() == ReadHeader(old(View()), line)
      ensures ok == error.None?
    {
      hide Stoul;
      var colon := FindFirst(line, 0, IsColon);
      if colon == |line| {
        error := Some("Invalid header format");
        return false;
      }
      var name := line[..colon];
      var value := TrimBlanks(line[colon + 1..]);
      request := request.(headers := request.headers[name := value]);
      if IsLengthName(name) {
        var announced := Stoul(value);
        if announced.None? {
          error := Some("Invalid Content-Length");
          return false;
        }
        length := announced.value;
      }
      return true;
    }

    method ParseBody(b: string, from: nat) returns (ok: bool, consumed: nat)
      requires from <= |b|
      modifies this`request
      ensures var o := ReadBody(old(View()), b, from);
        ok == o.ok && consumed == o.consumed && View() == o.parser.(phase := phase)
    {
      if length == 0 {
        return true, from;
      }
      if |b| - from < length {
        return false, from;
      }
      request := request.(body := b[from..from + length]);
      return true, from + length;
    }

    method Parse(b: string) returns (ok: bool, consumed: nat)
      modifies this
      ensures Outcome(View(), ok, consumed) == HttpRequest.Parse(old(View()), b)
      ensures consumed <= |b|
    {
      ghost var start := View();
      hide ReadRequestLine, ReadHeader, NextLine;
      consumed := 0;
      if error.Some? {
        return false, 0;
      }
      var pos := 0;
      while phase.RequestLine? || phase.Headers?
        invariant consumed == pos <= |b| && error.None?
        invariant ParseFrom(View(), b, pos, consumed) == HttpRequest.Parse(start, b)
        decreases |b| - pos
      {
        var line, next := FindLine(b, pos);
        if line.None? {
          return false, consumed;
        }
        pos, consumed := next, next;
        if phase.RequestLine? {
          RequestLineKeepsPhase(View(), line.value);
          ok := ParseRequestLine(line.value);
          if !ok {
            return false, consumed;
          }
          phase := Headers;
        } else {
          if line.value == "" {
            phase := Body;
            break;
          }
          HeaderKeepsPhase(View(), line.value);
          ok := ParseHeader(line.value);
          if !ok {
            return false, consumed;
          }
        }
      }
      if phase.Body? {
        ok, consumed := ParseBody(b, consumed);
        if !ok {
          return false, consumed;
        }
        phase := Complete;
      }
      return phase.Complete?, consumed;
    }
  }

  /** The scanning loops: the first position from `i` on that satisfies `p`. */
  method FindFirst(s: string, i: nat, p: char -> bool) returns (j: nat)
    requires i <= |s|
    ensures j == First(s, i, p)
  {
    j := i;
    while j < |s| && !p(s[j])
      invariant i <= j <= |s|
      invariant First(s, i, p) == First(s, j, p)
    {
      j := j + 1;
    }
  }

  /** The next line and where the one after it starts, unless its end has not arrived. */
  method FindLine(b: string, pos: nat) returns (line: Option<string>, next: nat)
    requires pos <= |b|
    ensures line.None? ==> NextLine(b, pos).NoLine?
    ensures line.Some? ==> NextLine(b, pos) == Line(line.value, next) && pos < next <= |b|
  {
    var end := FindFirst(b, pos, IsBreak);
    if end >= |b| {
      return None, pos;
    }
    if b[end] == '\r' && end + 1 < |b| && b[end + 1] == '\n' {
      return Some(b[pos..end]), end + 2;
    } else if b[end] == '\n' {
      return Some(b[pos..end]), end + 1;
    } else {
      return None, pos;
    }
  }

  method TrimBlanks(s: string) returns (value: string)
    ensures value == TrimBack(TrimFront(s))
  {
    value := s;
    while value != "" && IsBlank(value[0])
      invariant TrimFront(value) == TrimFront(s)
      decreases |value|
    {
      TrimOne(value);
      value := value[1..];
    }
    assert TrimFront(value) == value;
    while value != "" && IsBlank(value[|value| - 1])
      invariant TrimBack(value) == TrimBack(TrimFront(s))
      decreases |value|
    {
      value := value[..|value| - 1];
    }
  }

  lemma TrimOne(s: string)
    requires s != "" && IsBlank(s[0])
    ensures TrimFront(s[1..]) == TrimFront(s)
  {
    var p := c => !IsBlank(c);
    var j := First(s[1..], 0, p);
    assert forall k :: 1 <= k <= j ==> s[k] == s[1..][k - 1];
    FirstIs(s, 0, p, j + 1);
    assert s[1..][j..] == s[j + 1..];
  }

  /** `serialize_http_request`; `order` is the order in which the header map is iterated. */
  method SerializeRequest(r: Request, order: seq<string>) returns (text: string)
    requires forall name :: name in order ==> name in r.headers
    ensures text == Serialize(r, order)
  {
    hide VerbText, VersionText;
    text := VerbText(r.verb) + " " + r.path;
    if r.query != "" {
      text := text + "?" + r.query;
    }
    text := text + " " + VersionText(r.version) + "\r\n";
    ghost var first := text;
    assert first == VerbText(r.verb) + " " + Target(r) + " " + VersionText(r.version) + "\r\n";
    for i := 0 to |order|
      invariant text + HeaderLines(r.headers, order[i..]) == first + HeaderLines(r.headers, order)
    {
      ghost var before := text;
      text := text + order[i] + ": " + r.headers[order[i]] + "\r\n";
      assert order[i..][1..] == order[i + 1..];
      assert before + HeaderLines(r.headers, order[i..]) == text + HeaderLines(r.headers, order[i + 1..]);
    }
    text := text + "\r\n";
    if r.body != "" {
      text := text + r.body;
    }
  }
}
