/** Parsing undoes serializing. */
module HttpRoundTrip {
  import opened Collections
  import opened HttpRequest
  import opened HttpRequestLaws

  ghost predicate Free(s: string, p: char -> bool) {
    forall k :: 0 <= k < |s| ==> !p(s[k])
  }

  ghost predicate Trimmed(s: string) {
    s != "" ==> !IsBlank(s[0]) && !IsBlank(s[|s| - 1])
  }

  ghost predicate HeaderOk(name: string, value: string) {
    Free(name, IsColon) && Free(name, IsBreak) && Free(value, IsBreak) && Trimmed(value)
  }

  /** Every length header announces the body that is there, and a body is announced. */
  ghost predicate LengthsAgree(r: Request) {
    && (forall name :: name in r.headers && IsLengthName(name) ==> Stoul(r.headers[name]) == Some(|r.body|))
    && ("Content-Length" !in r.headers && "content-length" !in r.headers ==> r.body == "")
  }

  /** The requests whose text says everything about them (sections 3, 5 and 6.2 of RFC 9112). */
  ghost predicate WellFormed(r: Request) {
    && !r.version.UnknownVersion?
    && Target(r) != "" && Free(Target(r), IsSpace) && Free(r.path, IsQuestion)
    && (forall name :: name in r.headers ==> HeaderOk(name, r.headers[name]))
    && LengthsAgree(r)
  }

  // ---------------------------------------------------------------- one line

  lemma LineAt(pre: string, text: string, rest: string)
    requires Free(text, IsBreak)
    ensures NextLine(pre + text + "\r\n" + rest, |pre|) == Line(text, |pre| + |text| + 2)
  {
    var b := pre + text + "\r\n" + rest;
    var end := |pre| + |text|;
    assert forall k :: |pre| <= k < end ==> b[k] == text[k - |pre|];
    assert b[end] == '\r' && b[end + 1] == '\n';
    FirstIs(b, |pre|, IsBreak, end);
    assert b[|pre|..end] == text;
  }

  lemma TokenAt(pre: string, word: string, rest: string)
    requires word != "" && Free(word, IsSpace) && Free(pre, IsSolid) && (rest == "" || IsSpace(rest[0]))
    ensures Token(pre + word + rest, 0) == Some((word, |pre| + |word|))
  {
    var s := pre + word + rest;
    FirstIs(s, 0, IsSolid, |pre|);
    FirstIs(s, |pre|, IsSpace, |pre| + |word|);
    assert s[|pre|..|pre| + |word|] == word;
  }

  /** Extraction from a position is extraction from the rest. */
  lemma TokenFrom(head: string, tail: string)
    ensures Token(head + tail, |head|) ==
      match Token(tail, 0) case None => None case Some(t) => Some((t.0, |head| + t.1))
  {
    var s := head + tail;
    assert forall k :: 0 <= k < |tail| ==> s[|head| + k] == tail[k];
    var from := First(tail, 0, IsSolid);
    FirstIs(s, |head|, IsSolid, |head| + from);
    if from < |tail| {
      var to := First(tail, from, IsSpace);
      FirstIs(s, |head| + from, IsSpace, |head| + to);
      assert s[|head| + from..|head| + to] == tail[from..to];
    }
  }

  lemma VerbsRoundTrip(v: Verb)
    ensures VerbFrom(VerbText(v)) == v
    ensures VerbText(v) != "" && Free(VerbText(v), IsSpace) && Free(VerbText(v), IsBreak)
  {
  }

  lemma VersionsRoundTrip(v: Version)
    ensures VersionFrom(VersionText(v)) == (if v.UnknownVersion? then Http11 else v)
    ensures VersionText(v) != "" && Free(VersionText(v), IsSpace) && Free(VersionText(v), IsBreak)
  {
  }

  lemma ThreeTokens(a: string, t: string, v: string)
    requires a != "" && t != "" && v != "" && Free(a, IsSpace) && Free(t, IsSpace) && Free(v, IsSpace)
    ensures var line := a + " " + t + " " + v;
      && Token(line, 0) == Some((a, |a|))
      && Token(line, |a|) == Some((t, |a| + 1 + |t|))
      && Token(line, |a| + 1 + |t|) == Some((v, |line|))
  {
    hide Token, Free;
    assert Free("", IsSolid) && Free(" ", IsSolid) by { Blanks(); }
    var line := a + " " + t + " " + v;
    assert line == "" + a + (" " + t + " " + v);
    TokenAt("", a, " " + t + " " + v);
    assert line == a + (" " + t + (" " + v));
    TokenAt(" ", t, " " + v);
    TokenFrom(a, " " + t + (" " + v));
    assert line == (a + " " + t) + (" " + v + "");
    TokenAt(" ", v, "");
    TokenFrom(a + " " + t, " " + v + "");
  }

  lemma Blanks()
    ensures Free("", IsSolid) && Free(" ", IsSolid)
  {
  }

  lemma TargetSplits(r: Request)
    requires Free(r.path, IsQuestion)
    ensures var mark := First(Target(r), 0, IsQuestion);
      && Target(r)[..mark] == r.path
      && (mark < |Target(r)| <==> r.query != "")
      && (r.query != "" ==> Target(r)[mark + 1..] == r.query)
  {
    FirstIs(Target(r), 0, IsQuestion, |r.path|);
  }

  /** `r` with the version that its text shows. */
  function Known(r: Request): Request {
    if r.version.UnknownVersion? then r.(version := Http11) else r
  }

  /** All of a request line but an unknown version comes back. */
  lemma RequestLineRoundTrip(r: Request)
    requires Target(r) != "" && Free(Target(r), IsSpace) && Free(r.path, IsQuestion)
    ensures ReadRequestLine(FRESH, FirstLine(r)) == Opened(Known(r)).(phase := RequestLine)
  {
    hide Token, VerbFrom, VerbText, VersionFrom, VersionText, Target, First, Free;
    VerbsRoundTrip(r.verb);
    VersionsRoundTrip(r.version);
    TargetSplits(r);
    ThreeTokens(VerbText(r.verb), Target(r), VersionText(r.version));
  }

  // ---------------------------------------------------------------- the headers

  lemma TrimSpaced(value: string)
    requires Trimmed(value)
    ensures TrimBack(TrimFront(" " + value)) == value
  {
    FirstIs(" " + value, 0, c => !IsBlank(c), 1);
    assert (" " + value)[1..] == value;
  }

  /** A header enters the parser. */
  function Add(ps: Parser, name: string, value: string): Parser {
    ps.(request := ps.request.(headers := ps.request.headers[name := value]),
        length := if IsLengthName(name) && Stoul(value).Some? then Stoul(value).value else ps.length)
  }

  lemma HeaderRoundTrip(ps: Parser, name: string, value: string)
    requires HeaderOk(name, value) && (IsLengthName(name) ==> Stoul(value).Some?)
    ensures ReadHeader(ps, name + ": " + value) == Add(ps, name, value)
  {
    var line := name + ": " + value;
    FirstIs(line, 0, IsColon, |name|);
    assert line[..|name|] == name;
    assert line[|name| + 1..] == " " + value;
    TrimSpaced(value);
    hide Stoul, IsLengthName, TrimFront, TrimBack;
  }

  function AddAll(ps: Parser, headers: map<string, string>, order: seq<string>): Parser
    requires forall name :: name in order ==> name in headers
    decreases |order|
  {
    if order == [] then ps else AddAll(Add(ps, order[0], headers[order[0]]), headers, order[1..])
  }

  lemma HeaderLineIsSolid(name: string, value: string)
    requires HeaderOk(name, value)
    ensures Free(name + ": " + value, IsBreak) && name + ": " + value != ""
  {
  }

  /** The parser reads back every header line and then the empty line. */
  lemma {:induction false} HeadersRoundTrip(ps: Parser, pre: string, headers: map<string, string>,
      order: seq<string>, rest: string)
    requires ps.phase.Headers? && ps.error.None?
    requires forall name :: name in order ==>
      name in headers && HeaderOk(name, headers[name]) && (IsLengthName(name) ==> Stoul(headers[name]).Some?)
    ensures var b := pre + HeaderLines(headers, order) + "\r\n" + rest;
      var k := |pre| + |HeaderLines(headers, order)| + 2;
      && AddAll(ps, headers, order).phase.Headers? && AddAll(ps, headers, order).error.None?
      && ParseFrom(ps, b, |pre|, |pre|) == ReadBody(AddAll(ps, headers, order).(phase := Body), b, k)
    decreases |order|
  {
    hide ReadHeader, ReadBody, HeaderOk, Add, NextLine, Stoul, IsLengthName;
    var b := pre + HeaderLines(headers, order) + "\r\n" + rest;
    if order == [] {
      assert b == pre + "" + "\r\n" + rest;
      LineAt(pre, "", rest);
    } else {
      var name := order[0];
      var line := name + ": " + headers[name];
      var tail := HeaderLines(headers, order[1..]);
      assert name in headers && HeaderOk(name, headers[name]) && (IsLengthName(name) ==> Stoul(headers[name]).Some?);
      assert HeaderLines(headers, order) == line + "\r\n" + tail;
      assert b == pre + line + "\r\n" + (tail + "\r\n" + rest);
      HeaderLineIsSolid(name, headers[name]);
      LineAt(pre, line, tail + "\r\n" + rest);
      HeaderRoundTrip(ps, name, headers[name]);
      var ps' := Add(ps, name, headers[name]);
      assert ps'.phase.Headers? && ps'.error.None? by { AddKeepsPhase(ps, name, headers[name]); }
      var pre' := pre + line + "\r\n";
      assert b == pre' + tail + "\r\n" + rest;
      HeadersRoundTrip(ps', pre', headers, order[1..], rest);
    }
  }

  lemma AddKeepsPhase(ps: Parser, name: string, value: string)
    ensures Add(ps, name, value).phase == ps.phase && Add(ps, name, value).error == ps.error
  {
  }

  /** What has been added: the map gains the listed headers, and the length is settled as soon
      as one length header has been read, if they agree. */
  lemma {:induction false} AddAllCollects(ps: Parser, headers: map<string, string>, order: seq<string>, length: nat)
    requires forall name :: name in order ==> name in headers
    requires forall name :: name in order && IsLengthName(name) ==> Stoul(headers[name]) == Some(length)
    ensures var t := AddAll(ps, headers, order);
      && t == ps.(request := ps.request.(headers := t.request.headers), length := t.length)
      && (forall name :: name in t.request.headers <==> name in ps.request.headers || name in order)
      && (forall name :: name in order ==> t.request.headers[name] == headers[name])
      && (forall name :: name in ps.request.headers && name !in order ==>
            t.request.headers[name] == ps.request.headers[name])
      && t.length == (if exists name :: name in order && IsLengthName(name) then length else ps.length)
    decreases |order|
  {
    hide Stoul, IsLengthName;
    if order != [] {
      var ps' := Add(ps, order[0], headers[order[0]]);
      AddAllCollects(ps', headers, order[1..], length);
      assert order == [order[0]] + order[1..];
    }
  }

  // ---------------------------------------------------------------- the whole request

  function FirstLine(r: Request): string {
    VerbText(r.verb) + " " + Target(r) + " " + VersionText(r.version)
  }

  /** The parser once it has read the request line of `r`. */
  function Opened(r: Request): Parser {
    FRESH.(phase := Headers, request := EMPTY.(verb := r.verb, path := r.path, query := r.query, version := r.version))
  }

  lemma SerializeSplits(r: Request, order: seq<string>)
    requires forall name :: name in order ==> name in r.headers
    ensures Serialize(r, order) == FirstLine(r) + "\r\n" + HeaderLines(r.headers, order) + "\r\n" + r.body
  {
    hide VerbText, VersionText, Target, HeaderLines;
  }

  lemma RequestLineIsRead(r: Request, after: string)
    requires WellFormed(r)
    ensures var b := FirstLine(r) + "\r\n" + after;
      Parse(FRESH, b) == ParseFrom(Opened(r), b, |FirstLine(r)| + 2, |FirstLine(r)| + 2)
  {
    hide LengthsAgree, HeaderOk, Target, ReadRequestLine, NextLine, FirstLine, Free;
    FirstLineIsSolid(r);
    RequestLineRoundTrip(r);
    assert "" + FirstLine(r) + "\r\n" + after == FirstLine(r) + "\r\n" + after;
    LineAt("", FirstLine(r), after);
  }

  /** For every well-formed request, every enumeration order of its headers and every text that
      follows, a fresh parser returns the request and consumes exactly its text. */
  lemma ParseUndoesSerialize(r: Request, order: seq<string>, rest: string)
    requires WellFormed(r) && Enumerates(order, r.headers)
    ensures Parse(FRESH, Serialize(r, order) + rest)
         == Outcome(Parser(Complete, r, None, |r.body|), true, |Serialize(r, order)|)
  {
    hide Parse, ParseFrom, HeaderLines, FirstLine, AddAll, Serialize, HeaderOk, Stoul, Target, Free;
    var first, lines := FirstLine(r), HeaderLines(r.headers, order);
    var pre, k := first + "\r\n", |first| + 2 + |lines| + 2;
    var b := pre + lines + "\r\n" + (r.body + rest);
    SerializeSplits(r, order);
    Regroup(Serialize(r, order), first, lines, r.body, rest);
    RequestLineIsRead(r, lines + "\r\n" + (r.body + rest));
    HeadersRoundTrip(Opened(r), pre, r.headers, order, r.body + rest);
    HeadersAreBack(r, order, Opened(r));
  }

  lemma Regroup(text: string, first: string, lines: string, body: string, rest: string)
    requires text == first + "\r\n" + lines + "\r\n" + body
    ensures var b, k := text + rest, |first| + 2 + |lines| + 2;
      && b == first + "\r\n" + lines + "\r\n" + (body + rest)
      && b == first + "\r\n" + (lines + "\r\n" + (body + rest))
      && |text| == k + |body| && b[k..k + |body|] == body
  {
  }

  lemma FirstLineIsSolid(r: Request)
    requires Free(Target(r), IsSpace)
    ensures Free(FirstLine(r), IsBreak)
  {
    VerbsRoundTrip(r.verb);
    VersionsRoundTrip(r.version);
    hide VerbText, VersionText, Target;
    assert forall k :: 0 <= k < |Target(r)| ==> !IsSpace(Target(r)[k]);
  }

  lemma HeadersAreBack(r: Request, order: seq<string>, ps: Parser)
    requires LengthsAgree(r) && Enumerates(order, r.headers) && ps.request.headers == map[] && ps.length == 0
    ensures AddAll(ps, r.headers, order) == ps.(request := ps.request.(headers := r.headers), length := |r.body|)
  {
    hide Stoul, AddAll;
    AddAllCollects(ps, r.headers, order, |r.body|);
    assert AddAll(ps, r.headers, order).request.headers == r.headers;
    if "Content-Length" in order {
      assert IsLengthName("Content-Length");
    } else if "content-length" in order {
      assert IsLengthName("content-length");
    }
  }
}
