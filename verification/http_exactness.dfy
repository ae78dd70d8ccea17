/** The well-formed requests are exactly those that survive serializing and parsing. */
module HttpExactness {
  import opened Collections
  import opened HttpRequest
  import opened HttpRequestLaws
  import opened HttpRoundTrip

  /** What the parser can put into a request. */
  ghost predicate Clean(r: Request) {
    && Free(r.path, IsQuestion) && Free(r.path, IsSpace) && Free(r.query, IsSpace)
    && HeadersOk(r.headers)
  }

  ghost predicate HeadersOk(headers: map<string, string>) {
    forall name :: name in headers ==> HeaderOk(name, headers[name])
  }

  // ---------------------------------------------------------------- what comes out is clean

  lemma {:induction false} TrimBackIsTrimmed(s: string)
    ensures TrimBack(s) <= s
    ensures TrimBack(s) != "" ==> !IsBlank(TrimBack(s)[|TrimBack(s)| - 1])
  {
    if s != "" && IsBlank(s[|s| - 1]) {
      TrimBackIsTrimmed(s[..|s| - 1]);
    }
  }

  lemma TrimIsTrimmed(s: string)
    requires Free(s, IsBreak)
    ensures Trimmed(TrimBack(TrimFront(s))) && Free(TrimBack(TrimFront(s)), IsBreak)
  {
    TrimBackIsTrimmed(TrimFront(s));
  }

  lemma HeaderIsClean(ps: Parser, line: string)
    requires Clean(ps.request) && Free(line, IsBreak)
    ensures Clean(ReadHeader(ps, line).request)
  {
    hide Stoul, IsLengthName;
    var colon := First(line, 0, IsColon);
    if colon < |line| {
      var name, raw := line[..colon], line[colon + 1..];
      assert Free(raw, IsBreak) && Free(name, IsBreak) && Free(name, IsColon);
      TrimIsTrimmed(raw);
      hide TrimFront, TrimBack, Trimmed, Free, First;
      assert HeaderOk(name, TrimBack(TrimFront(raw)));
    }
  }

  lemma TokenIsSolid(s: string, i: nat)
    requires i <= |s|
    ensures Token(s, i).Some? ==> Free(Token(s, i).value.0, IsSpace)
  {
  }

  lemma RequestLineIsClean(ps: Parser, line: string)
    requires Clean(ps.request)
    ensures Clean(ReadRequestLine(ps, line).request)
  {
    hide HeadersOk, VerbFrom, VersionFrom;
    var verb := Token(line, 0);
    if verb.Some? {
      TokenIsSolid(line, verb.value.1);
      hide Token;
    }
  }

  lemma LineIsSolid(b: string, pos: nat)
    requires pos <= |b| && NextLine(b, pos).Line?
    ensures Free(NextLine(b, pos).text, IsBreak) && pos < NextLine(b, pos).next <= |b|
  {
  }

  lemma {:induction false} ParsedIsClean(ps: Parser, b: string, pos: nat, consumed: nat)
    requires pos <= |b| && consumed <= |b| && Clean(ps.request)
    ensures Clean(ParseFrom(ps, b, pos, consumed).parser.request)
    decreases |b| - pos
  {
    hide ReadRequestLine, ReadHeader, NextLine, HeadersOk, Free;
    if ps.phase.RequestLine? || ps.phase.Headers? {
      var line := NextLine(b, pos);
      if line.Line? {
        LineIsSolid(b, pos);
        if ps.phase.RequestLine? {
          RequestLineIsClean(ps, line.text);
          var ps' := ReadRequestLine(ps, line.text);
          if ps'.error.None? {
            ParsedIsClean(ps'.(phase := Headers), b, line.next, line.next);
          }
        } else if line.text != "" {
          HeaderIsClean(ps, line.text);
          var ps' := ReadHeader(ps, line.text);
          if ps'.error.None? {
            ParsedIsClean(ps', b, line.next, line.next);
          }
        }
      }
    }
  }

  // ---------------------------------------------------------------- the request line must say everything

  /** With an empty target the line has two words, and the version is missed. */
  lemma EmptyTargetIsRefused(a: string, v: string)
    requires a != "" && v != "" && Free(a, IsSpace) && Free(v, IsSpace)
    ensures ReadRequestLine(FRESH, a + " " + "" + " " + v).error.Some?
  {
    hide Token, Free, VerbFrom, VersionFrom;
    var line := a + " " + "" + " " + v;
    assert Free("", IsSolid) && Free("  ", IsSolid) by { Blanks(); TwoBlanks(); }
    assert line == "" + a + ("  " + v);
    TokenAt("", a, "  " + v);
    assert line == a + ("  " + v + "");
    TokenAt("  ", v, "");
    TokenFrom(a, "  " + v + "");
    assert Token(line, |line|).None? by { NoTokenAtEnd(line); }
  }

  lemma TwoBlanks()
    ensures Free("  ", IsSolid)
  {
  }

  lemma NoTokenAtEnd(s: string)
    ensures Token(s, |s|).None?
  {
  }

  /** The request line as the parser takes it: all but an unknown version comes back. */
  lemma CleanLineIsRead(r: Request, after: string)
    requires Clean(r)
    ensures var b := FirstLine(r) + "\r\n" + after;
      var n := |FirstLine(r)| + 2;
      if Target(r) == "" then !Parse(FRESH, b).ok
      else Parse(FRESH, b) == ParseFrom(Opened(Known(r)), b, n, n)
  {
    hide ReadRequestLine, HeadersOk;
    var b := FirstLine(r) + "\r\n" + after;
    CleanTarget(r);
    FirstLineIsSolid(r);
    assert "" + FirstLine(r) + "\r\n" + after == b;
    LineAt("", FirstLine(r), after);
    VerbsRoundTrip(r.verb);
    VersionsRoundTrip(r.version);
    if Target(r) == "" {
      EmptyTargetIsRefused(VerbText(r.verb), VersionText(r.version));
    } else {
      RequestLineRoundTrip(r);
    }
  }

  lemma CleanTarget(r: Request)
    requires Clean(r)
    ensures Free(Target(r), IsSpace)
  {
    hide HeadersOk;
  }

  // ---------------------------------------------------------------- the lengths must agree

  /** A length header without a number stops the parser. */
  lemma {:induction false} LengthsAreNumbers(ps: Parser, pre: string, headers: map<string, string>,
      order: seq<string>, rest: string)
    requires ps.phase.Headers? && ps.error.None?
    requires forall name :: name in order ==> name in headers && HeaderOk(name, headers[name])
    requires ParseFrom(ps, pre + HeaderLines(headers, order) + "\r\n" + rest, |pre|, |pre|).ok
    ensures forall name :: name in order && IsLengthName(name) ==> Stoul(headers[name]).Some?
    decreases |order|
  {
    hide ReadHeader, HeaderOk, Add, NextLine, Stoul, IsLengthName;
    if order != [] {
      var b := pre + HeaderLines(headers, order) + "\r\n" + rest;
      var name := order[0];
      var line := name + ": " + headers[name];
      var tail := HeaderLines(headers, order[1..]);
      assert HeaderOk(name, headers[name]);
      assert b == pre + line + "\r\n" + (tail + "\r\n" + rest);
      HeaderLineIsSolid(name, headers[name]);
      LineAt(pre, line, tail + "\r\n" + rest);
      NumberIsNeeded(ps, name, headers[name]);
      var ps' := ReadHeader(ps, line);
      HeaderKeepsPhase(ps, line);
      var pre' := pre + line + "\r\n";
      assert b == pre' + tail + "\r\n" + rest;
      LengthsAreNumbers(ps', pre', headers, order[1..], rest);
      assert order == [name] + order[1..];
    }
  }

  lemma NumberIsNeeded(ps: Parser, name: string, value: string)
    requires HeaderOk(name, value)
    ensures IsLengthName(name) && Stoul(value).None? ==> ReadHeader(ps, name + ": " + value).error.Some?
  {
    var line := name + ": " + value;
    FirstIs(line, 0, IsColon, |name|);
    assert line[..|name|] == name;
    assert line[|name| + 1..] == " " + value;
    TrimSpaced(value);
    hide Stoul, IsLengthName, TrimFront, TrimBack;
  }

  lemma {:induction false} AddLast(ps: Parser, headers: map<string, string>, order: seq<string>, name: string)
    requires name in headers && forall n :: n in order ==> n in headers
    ensures (forall n :: n in order + [name] ==> n in headers)
    ensures AddAll(ps, headers, order + [name]) == Add(AddAll(ps, headers, order), name, headers[name])
    decreases |order|
  {
    hide Add;
    if order != [] {
      assert (order + [name])[1..] == order[1..] + [name];
      AddLast(Add(ps, order[0], headers[order[0]]), headers, order[1..], name);
    } else {
      assert order + [name] == [name] && [name][1..] == [];
    }
  }

  /** The body is as long as the parser was told. */
  lemma ToldLength(ps: Parser, b: string, k: nat)
    requires k <= |b| && ps.request.body == "" && ReadBody(ps, b, k).ok
    ensures var q := ReadBody(ps, b, k).parser.request;
      |q.body| == ps.length && q.(body := "") == ps.request
  {
  }

  lemma {:induction false} AddAllKeeps(ps: Parser, headers: map<string, string>, order: seq<string>)
    requires forall n :: n in order ==> n in headers
    ensures AddAll(ps, headers, order).request.(headers := map[]) == ps.request.(headers := map[])
    ensures (forall n :: n in order ==> !IsLengthName(n)) ==> AddAll(ps, headers, order).length == ps.length
    decreases |order|
  {
    hide Stoul, IsLengthName;
    if order != [] {
      AddAllKeeps(Add(ps, order[0], headers[order[0]]), headers, order[1..]);
      assert order == [order[0]] + order[1..];
    }
  }

  /** A fresh parser gets `r` back, and no more, from its text in this order. */
  ghost predicate ComesBack(r: Request, order: seq<string>, rest: string)
    requires Enumerates(order, r.headers)
  {
    var o := Parse(FRESH, Serialize(r, order) + rest);
    o.ok && o.parser.request == r && o.consumed == |Serialize(r, order)|
  }

  /** What one order that comes back shows of the request. */
  lemma OneOrder(r: Request, order: seq<string>)
    requires Enumerates(order, r.headers) && ComesBack(r, order, "")
    ensures Clean(r) && Target(r) != "" && !r.version.UnknownVersion?
    ensures forall name :: name in order && IsLengthName(name) ==> Stoul(r.headers[name]).Some?
    ensures AddAll(Opened(r), r.headers, order).length == |r.body|
  {
    hide Parse, ParseFrom, HeaderLines, FirstLine, AddAll, Serialize, HeaderOk, Stoul, IsLengthName, ReadBody,
        Free, Target;
    var first, lines := FirstLine(r), HeaderLines(r.headers, order);
    var pre := first + "\r\n";
    var b := pre + lines + "\r\n" + r.body;
    SerializeSplits(r, order);
    assert Serialize(r, order) + "" == b == first + "\r\n" + (lines + "\r\n" + r.body);
    FreshIsClean(b);
    CleanLineIsRead(r, lines + "\r\n" + r.body);
    var ps := Opened(Known(r));
    LengthsAreNumbers(ps, pre, r.headers, order, r.body);
    HeadersRoundTrip(ps, pre, r.headers, order, r.body);
    var k := |pre| + |lines| + 2;
    AddAllKeeps(ps, r.headers, order);
    ToldLength(AddAll(ps, r.headers, order).(phase := Body), b, k);
  }

  lemma FreshIsClean(b: string)
    ensures Clean(Parse(FRESH, b).parser.request)
  {
    ParsedIsClean(FRESH, b, 0, 0);
  }

  // ---------------------------------------------------------------- orders

  /** A request comes back from every enumeration of its headers, whatever follows it, if and
      only if it is well formed. */
  lemma ComesBackIffWellFormed(r: Request)
    ensures WellFormed(r) <==> forall order, rest :: Enumerates(order, r.headers) ==> ComesBack(r, order, rest)
  {
    hide WellFormed, ComesBack, Enumerates;
    if WellFormed(r) {
      forall order, rest | Enumerates(order, r.headers)
        ensures ComesBack(r, order, rest)
      {
        WellFormedComesBack(r, order, rest);
      }
    }
    if forall order, rest :: Enumerates(order, r.headers) ==> ComesBack(r, order, rest) {
      OnlyWellFormed(r);
    }
  }

  lemma WellFormedComesBack(r: Request, order: seq<string>, rest: string)
    requires WellFormed(r) && Enumerates(order, r.headers)
    ensures ComesBack(r, order, rest)
  {
    hide Parse, Serialize, WellFormed;
    ParseUndoesSerialize(r, order, rest);
  }

  lemma OnlyWellFormed(r: Request)
    requires forall order :: Enumerates(order, r.headers) ==> ComesBack(r, order, "")
    ensures WellFormed(r)
  {
    hide ComesBack, Free, Target, HeaderOk, Stoul, AddAll, Add, IsLengthName;
    var order := SomeOrder(r.headers.Keys);
    OneOrder(r, order);
    CleanTarget(r);
    forall name | name in r.headers && IsLengthName(name)
      ensures Stoul(r.headers[name]) == Some(|r.body|)
    {
      LengthIsAnnounced(r, name);
    }
    if "Content-Length" !in r.headers && "content-length" !in r.headers {
      OtherNames(order);
      AddAllKeeps(Opened(r), r.headers, order);
    }
  }

  lemma OtherNames(order: seq<string>)
    requires "Content-Length" !in order && "content-length" !in order
    ensures forall name :: name in order ==> !IsLengthName(name)
  {
  }

  /** Put last, a length header is the one that counts. */
  lemma LengthIsAnnounced(r: Request, name: string)
    requires forall order :: Enumerates(order, r.headers) ==> ComesBack(r, order, "")
    requires name in r.headers && IsLengthName(name)
    ensures Stoul(r.headers[name]) == Some(|r.body|)
  {
    hide ComesBack, Clean, Target, Stoul, AddAll, IsLengthName;
    var order, _ := SomeOrdersAround(r.headers, name);
    var front := order[..|order| - 1];
    assert order == front + [name];
    OneOrder(r, order);
    assert name in order;
    AddLast(Opened(r), r.headers, front, name);
  }

  // ---------------------------------------------------------------- what the forwarder meets

  /** A request that the parser has produced comes back exactly when its version is known, its
      target is not empty and its length headers agree with its body. */
  lemma ParsedComesBackIff(b: string)
    requires Parse(FRESH, b).ok
    ensures var r := Parse(FRESH, b).parser.request;
      (forall order, rest :: Enumerates(order, r.headers) ==> ComesBack(r, order, rest))
      <==> !r.version.UnknownVersion? && Target(r) != "" && LengthsAgree(r)
  {
    hide Parse, ComesBack, Enumerates, Free, HeaderOk, Target, LengthsAgree;
    var r := Parse(FRESH, b).parser.request;
    FreshIsClean(b);
    CleanTarget(r);
    ComesBackIffWellFormed(r);
  }

  /** The text of a request without headers and body. */
  function Bare(verb: string, target: string, version: string): string {
    verb + " " + target + " " + version + "\r\n" + "\r\n"
  }

  lemma BareRequestIsParsed(verb: string, target: string, version: string, mark: nat)
    requires verb != "" && target != "" && version != ""
    requires Free(verb, IsSpace) && Free(target, IsSpace) && Free(version, IsSpace)
    requires mark == First(target, 0, IsQuestion)
    ensures var o := Parse(FRESH, Bare(verb, target, version));
      && o.ok
      && o.parser.request == Request(VerbFrom(verb), target[..mark],
           if mark < |target| then target[mark + 1..] else "", VersionFrom(version), map[], "")
  {
    hide ReadRequestLine, First, VerbFrom, VersionFrom, Free, Parse;
    var line := verb + " " + target + " " + version;
    ThreeWordsAreRead(verb, target, version);
    ThreeWordsAreSolid(verb, target, version);
    LineAloneIsParsed(line);
  }

  lemma ThreeWordsAreRead(verb: string, target: string, version: string)
    requires verb != "" && target != "" && version != ""
    requires Free(verb, IsSpace) && Free(target, IsSpace) && Free(version, IsSpace)
    ensures var mark := First(target, 0, IsQuestion);
      ReadRequestLine(FRESH, verb + " " + target + " " + version)
      == FRESH.(request := Request(VerbFrom(verb), target[..mark],
           if mark < |target| then target[mark + 1..] else "", VersionFrom(version), map[], ""))
  {
    hide Token, First, VerbFrom, VersionFrom, Free, ReadRequestLine;
    ThreeTokens(verb, target, version);
    var line := verb + " " + target + " " + version;
    TokensAreRead(line, verb, |verb|, target, |verb| + 1 + |target|, version);
  }

  lemma TokensAreRead(line: string, verb: string, i: nat, target: string, j: nat, version: string)
    requires i <= |line| && j <= |line| && Token(line, 0) == Some((verb, i)) && Token(line, i) == Some((target, j))
    requires Token(line, j) == Some((version, |line|))
    ensures var mark := First(target, 0, IsQuestion);
      ReadRequestLine(FRESH, line) == FRESH.(request := Request(VerbFrom(verb), target[..mark],
        if mark < |target| then target[mark + 1..] else "", VersionFrom(version), map[], ""))
  {
    hide Token, First, VerbFrom, VersionFrom;
  }

  lemma LineAloneIsParsed(line: string)
    requires Free(line, IsBreak)
    requires var ps := ReadRequestLine(FRESH, line); ps == FRESH.(request := ps.request)
    ensures var o := Parse(FRESH, line + "\r\n" + "\r\n");
      o.ok && o.parser == ReadRequestLine(FRESH, line).(phase := Complete)
  {
    hide NextLine, ReadRequestLine, Free;
    var b, n := line + "\r\n" + "\r\n", |line| + 2;
    assert b == "" + line + "\r\n" + "\r\n";
    LineAt("", line, "\r\n");
    assert b == (line + "\r\n") + "" + "\r\n" + "";
    EmptyIsFree();
    LineAt(line + "\r\n", "", "");
    var ps := ReadRequestLine(FRESH, line).(phase := Headers);
    assert Parse(FRESH, b) == ParseFrom(ps, b, n, n);
  }

  lemma EmptyIsFree()
    ensures Free("", IsBreak)
  {
  }

  lemma ThreeWordsAreSolid(verb: string, target: string, version: string)
    requires Free(verb, IsSpace) && Free(target, IsSpace) && Free(version, IsSpace)
    ensures Free(verb + " " + target + " " + version, IsBreak)
  {
  }

  lemma SomeWords()
    ensures Free("GET", IsSpace) && Free("?", IsSpace) && Free("/", IsSpace)
    ensures Free("HTTP/1.1", IsSpace) && Free("HTTP/3", IsSpace)
    ensures First("?", 0, IsQuestion) == 0 && First("/", 0, IsQuestion) == 1
  {
    FirstIs("/", 0, IsQuestion, 1);
  }

  /** "GET ? HTTP/1.1" is accepted, and what is made of it is refused. */
  lemma LoneQuestionMarkIsLost()
    ensures var o := Parse(FRESH, Bare("GET", "?", "HTTP/1.1"));
      o.ok && o.parser.request.headers == map[] && !Parse(FRESH, Serialize(o.parser.request, [])).ok
  {
    var r := Request(Get, "", "", Http11, map[], "");
    hide Parse, First, Free, Bare, FirstLine;
    SomeWords();
    BareRequestIsParsed("GET", "?", "HTTP/1.1", 0);
    assert Parse(FRESH, Bare("GET", "?", "HTTP/1.1")).parser.request == r;
    assert Clean(r) by { FreshIsClean(Bare("GET", "?", "HTTP/1.1")); }
    SerializeSplits(r, []);
    hide VerbFrom, VersionFrom, Serialize, Clean;
    assert HeaderLines(r.headers, []) == "";
    assert Serialize(r, []) == FirstLine(r) + "\r\n" + "\r\n";
    CleanLineIsRead(r, "\r\n");
  }

  /** "GET / HTTP/3" is accepted, and comes back as HTTP/1.1. */
  lemma UnknownVersionIsLost()
    ensures var o := Parse(FRESH, Bare("GET", "/", "HTTP/3"));
      && o.ok && o.parser.request.version.UnknownVersion? && o.parser.request.headers == map[]
      && var again := Parse(FRESH, Serialize(o.parser.request, []));
         again.ok && again.parser.request == o.parser.request.(version := Http11)
  {
    var r := Request(Get, "/", "", UnknownVersion, map[], "");
    hide Parse, First, Free;
    SomeWords();
    assert "/"[..1] == "/";
    BareRequestIsParsed("GET", "/", "HTTP/3", 1);
    BareRequestIsParsed("GET", "/", "HTTP/1.1", 1);
    assert Parse(FRESH, Bare("GET", "/", "HTTP/3")).parser.request == r;
    hide VerbFrom, VersionFrom;
    assert Serialize(r, []) == Bare("GET", "/", "HTTP/1.1");
  }
}
