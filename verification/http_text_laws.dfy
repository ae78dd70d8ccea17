/** How the parser takes text apart: lines, words, header fields, and what it waits for. */
module HttpTextLaws {
  import opened Collections
  import opened HttpRequest
  import opened HttpRequestLaws
  import opened HttpRoundTrip

  /** The characters that separate words, surround values and end lines, by their codes. */
  lemma CharacterClasses(c: char)
    ensures IsSpace(c) <==> c as int in {9, 10, 11, 12, 13, 32}
    ensures IsBlank(c) <==> c as int in {9, 32}
    ensures IsBreak(c) <==> c as int in {10, 13}
    ensures IsDigit(c) <==> 48 <= c as int <= 57
    ensures (IsColon(c) <==> c as int == 58) && (IsQuestion(c) <==> c as int == 63)
  {
  }

  // ---------------------------------------------------------------- lines

  /** A line ends with CRLF or with LF alone; with CR alone, or with nothing yet, it has not ended. */
  lemma LineEndings(pre: string, text: string, rest: string)
    requires Free(text, IsBreak)
    ensures NextLine(pre + text + "\r\n" + rest, |pre|) == Line(text, |pre| + |text| + 2)
    ensures NextLine(pre + text + "\n" + rest, |pre|) == Line(text, |pre| + |text| + 1)
    ensures rest == "" || rest[0] != '\n' ==> NextLine(pre + text + "\r" + rest, |pre|) == NoLine
    ensures NextLine(pre + text, |pre|) == NoLine
  {
    LineAt(pre, text, rest);
    LineAtNewline(pre, text, rest);
    LineAtReturn(pre, text, rest);
    LineAtEnd(pre, text);
  }

  lemma LineAtNewline(pre: string, text: string, rest: string)
    requires Free(text, IsBreak)
    ensures NextLine(pre + text + "\n" + rest, |pre|) == Line(text, |pre| + |text| + 1)
  {
    var b, end := pre + text + "\n" + rest, |pre| + |text|;
    assert forall k :: |pre| <= k < end ==> b[k] == text[k - |pre|];
    assert b[end] == '\n';
    FirstIs(b, |pre|, IsBreak, end);
    assert b[|pre|..end] == text;
  }

  lemma LineAtReturn(pre: string, text: string, rest: string)
    requires Free(text, IsBreak)
    ensures rest == "" || rest[0] != '\n' ==> NextLine(pre + text + "\r" + rest, |pre|) == NoLine
  {
    var b, end := pre + text + "\r" + rest, |pre| + |text|;
    assert forall k :: |pre| <= k < end ==> b[k] == text[k - |pre|];
    assert b[end] == '\r';
    assert rest != "" ==> b[end + 1] == rest[0];
    FirstIs(b, |pre|, IsBreak, end);
  }

  lemma LineAtEnd(pre: string, text: string)
    requires Free(text, IsBreak)
    ensures NextLine(pre + text, |pre|) == NoLine
  {
    var b := pre + text;
    assert forall k :: |pre| <= k < |b| ==> b[k] == text[k - |pre|];
    FirstIs(b, |pre|, IsBreak, |b|);
  }

  // ---------------------------------------------------------------- words

  /** The words of a text: its maximal runs of solid characters. */
  function Words(s: string): seq<string> {
    if s == "" then []
    else if IsSpace(s[0]) then Words(s[1..])
    else if |s| > 1 && !IsSpace(s[1]) && Words(s[1..]) != [] then
      [[s[0]] + Words(s[1..])[0]] + Words(s[1..])[1..]
    else [[s[0]]] + Words(s[1..])
  }

  lemma {:induction false} SpaceHasNoWords(s: string, rest: string)
    requires forall k :: 0 <= k < |s| ==> IsSpace(s[k])
    ensures Words(s + rest) == Words(rest)
    decreases |s|
  {
    if s == "" {
      assert s + rest == rest;
    } else {
      assert (s + rest)[1..] == s[1..] + rest;
      SpaceHasNoWords(s[1..], rest);
    }
  }

  /** A run of solid characters in front of a space or the end is the first word. */
  lemma {:induction false} FirstWord(word: string, rest: string)
    requires word != "" && Free(word, IsSpace) && (rest != "" ==> IsSpace(rest[0]))
    ensures Words(word + rest) == [word] + Words(rest)
    decreases |word|
  {
    var s := word + rest;
    assert s[1..] == word[1..] + rest;
    if |word| == 1 {
      assert word[1..] + rest == rest && word == [s[0]];
    } else {
      FirstWord(word[1..], rest);
      assert [s[0]] + word[1..] == word;
      assert s[1] == word[1];
    }
  }

  /** What the stream extracts is the first word that is left, and it leaves the others. */
  lemma TokenIsFirstWord(s: string, i: nat)
    requires i <= |s|
    ensures Token(s, i).None? <==> Words(s[i..]) == []
    ensures Token(s, i).Some? ==>
      var (word, j) := Token(s, i).value; j <= |s| && Words(s[i..]) == [word] + Words(s[j..])
  {
    var from := First(s, i, IsSolid);
    SkipSpace(s, i);
    if from < |s| {
      var to := First(s, from, IsSpace);
      TakeWord(s, from, to);
      hide Words, First;
    } else {
      assert s[from..] == "";
    }
  }

  lemma SkipSpace(s: string, i: nat)
    requires i <= |s|
    ensures Words(s[i..]) == Words(s[First(s, i, IsSolid)..])
  {
    hide Words;
    var from := First(s, i, IsSolid);
    var space := s[i..from];
    assert s[i..] == space + s[from..];
    assert forall k :: 0 <= k < |space| ==> space[k] == s[i + k];
    SpaceHasNoWords(space, s[from..]);
  }

  lemma TakeWord(s: string, from: nat, to: nat)
    requires from < |s| && IsSolid(s[from]) && to == First(s, from, IsSpace)
    ensures from < to <= |s| && Words(s[from..]) == [s[from..to]] + Words(s[to..])
  {
    hide Words;
    var word := s[from..to];
    assert s[from..] == word + s[to..];
    assert forall k :: 0 <= k < |word| ==> word[k] == s[from + k];
    FirstWord(word, s[to..]);
  }

  /** A request line is its words: with fewer than two it is invalid, with two it lacks a version,
      and otherwise the second is the target, split at its first question mark. */
  lemma RequestLineMeans(line: string)
    ensures var ps, words := ReadRequestLine(FRESH, line), Words(line);
      if |words| < 2 then ps.error == Some("Invalid request line")
      else if |words| == 2 then ps.error == Some("Missing HTTP version")
      else
        && ps.error.None? && ps.phase.RequestLine? && ps.length == 0
        && ps.request.verb == VerbFrom(words[0]) && ps.request.version == VersionFrom(words[2])
        && Free(ps.request.path, IsQuestion) && ps.request.headers == map[] && ps.request.body == ""
        && (words[1] == ps.request.path + "?" + ps.request.query
            || (words[1] == ps.request.path && ps.request.query == ""))
  {
    hide Words, Token, VerbFrom, VersionFrom;
    assert line[0..] == line;
    TokenIsFirstWord(line, 0);
    if Token(line, 0).Some? {
      var i := Token(line, 0).value.1;
      TokenIsFirstWord(line, i);
      if Token(line, i).Some? {
        var (target, j) := Token(line, i).value;
        TokenIsFirstWord(line, j);
        var mark := First(target, 0, IsQuestion);
        if mark < |target| {
          assert target == target[..mark] + "?" + target[mark + 1..];
        } else {
          assert target[..mark] == target;
        }
      }
    }
  }

  // ---------------------------------------------------------------- header fields

  ghost predicate Blank(s: string) {
    forall k :: 0 <= k < |s| ==> IsBlank(s[k])
  }

  lemma {:induction false} TrimBackCuts(s: string) returns (blanks: string)
    ensures s == TrimBack(s) + blanks && Blank(blanks)
    ensures TrimBack(s) != "" ==> !IsBlank(TrimBack(s)[|TrimBack(s)| - 1])
  {
    if s != "" && IsBlank(s[|s| - 1]) {
      var fewer := TrimBackCuts(s[..|s| - 1]);
      blanks := fewer + [s[|s| - 1]];
    } else {
      blanks := "";
    }
  }

  lemma TrimCuts(s: string) returns (front: string, back: string)
    ensures s == front + TrimBack(TrimFront(s)) + back && Blank(front) && Blank(back)
    ensures Trimmed(TrimBack(TrimFront(s)))
  {
    front := TrimFrontCuts(s);
    back := TrimBackCuts(TrimFront(s));
    hide TrimFront, TrimBack;
    var value := TrimBack(TrimFront(s));
    assert value != "" ==> value[0] == TrimFront(s)[0];
    assert s == front + (value + back) == front + value + back;
  }

  lemma TrimFrontCuts(s: string) returns (blanks: string)
    ensures s == blanks + TrimFront(s) && Blank(blanks)
    ensures TrimFront(s) != "" ==> !IsBlank(TrimFront(s)[0])
  {
    blanks := s[..First(s, 0, c => !IsBlank(c))];
  }

  /** A header line is split at its first colon, and its value is what is left between blanks;
      without a colon, or with a length that is no number, it is an error. The header replaces one
      of the same name, and only a length header changes the announced length. */
  lemma HeaderMeans(ps: Parser, line: string) returns (name: string, front: string, value: string, back: string)
    requires ps.error.None?
    ensures var q := ReadHeader(ps, line);
      if forall k :: 0 <= k < |line| ==> line[k] != ':' then q == ps.(error := Some("Invalid header format"))
      else
        && line == name + ":" + front + value + back && Free(name, IsColon)
        && Blank(front) && Blank(back) && Trimmed(value)
        && q.request == ps.request.(headers := ps.request.headers[name := value]) && q.phase == ps.phase
        && if name != "Content-Length" && name != "content-length" then q.error.None? && q.length == ps.length
           else if Stoul(value).None? then q.error == Some("Invalid Content-Length")
           else q.error.None? && Some(q.length) == Stoul(value)
  {
    hide Stoul, TrimFront, TrimBack;
    var colon := First(line, 0, IsColon);
    name, front, value, back := "", "", "", "";
    if colon < |line| {
      name := line[..colon];
      front, back := TrimCuts(line[colon + 1..]);
      value := TrimBack(TrimFront(line[colon + 1..]));
      assert line == name + ":" + line[colon + 1..];
      assert line == name + ":" + (front + value + back);
    }
  }

  // ---------------------------------------------------------------- waiting

  /** A request that has not arrived completely is waited for: every proper prefix of the text of
      a well-formed request is neither a request nor an error. */
  lemma IncompleteWaits(r: Request, order: seq<string>, k: nat)
    requires WellFormed(r) && Enumerates(order, r.headers) && k < |Serialize(r, order)|
    ensures var o := Parse(FRESH, Serialize(r, order)[..k]); !o.ok && o.parser.error.None?
  {
    hide Parse, Serialize, WellFormed;
    var text := Serialize(r, order);
    assert text[..k] + text[k..] == text == text + "";
    ParseUndoesSerialize(r, order, "");
    ParsingStaysInTheBuffer(text[..k]);
    if Settled(Parse(FRESH, text[..k])) {
      MoreBytesChangeNothing(text[..k], text[k..]);
    }
  }

  // ---------------------------------------------------------------- the serialized text

  /** Lines, each with its CRLF. */
  function Joined(lines: seq<string>): string {
    if lines == [] then "" else lines[0] + "\r\n" + Joined(lines[1..])
  }

  function FieldLines(headers: map<string, string>, order: seq<string>): seq<string>
    requires forall name :: name in order ==> name in headers
  {
    if order == [] then [] else [order[0] + ": " + headers[order[0]]] + FieldLines(headers, order[1..])
  }

  lemma {:induction false} FieldsAreLines(headers: map<string, string>, order: seq<string>, rest: seq<string>)
    requires forall name :: name in order ==> name in headers
    ensures HeaderLines(headers, order) + Joined(rest) == Joined(FieldLines(headers, order) + rest)
    decreases |order|
  {
    if order == [] {
      assert [] + rest == rest;
    } else {
      FieldsAreLines(headers, order[1..], rest);
      var line, tail := order[0] + ": " + headers[order[0]], FieldLines(headers, order[1..]) + rest;
      assert FieldLines(headers, order) + rest == [line] + tail;
      assert HeaderLines(headers, order) == line + "\r\n" + HeaderLines(headers, order[1..]);
      hide FieldLines, HeaderLines;
      assert ([line] + tail)[1..] == tail;
    }
  }

  /** A serialized request is its request line, a line for each header in the order of iteration,
      and an empty line, each ended by CRLF, and then the body. */
  lemma SerializedTextIs(r: Request, order: seq<string>)
    requires forall name :: name in order ==> name in r.headers
    ensures Serialize(r, order) ==
      Joined([VerbText(r.verb) + " " + (if r.query == "" then r.path else r.path + "?" + r.query) + " "
              + VersionText(r.version)] + (FieldLines(r.headers, order) + [""])) + r.body
  {
    hide VerbText, VersionText;
    FieldsAreLines(r.headers, order, [""]);
    assert Joined([""]) == "\r\n" by { assert [""][1..] == []; }
    var first, more := FirstLine(r), FieldLines(r.headers, order) + [""];
    assert ([first] + more)[0] == first && ([first] + more)[1..] == more;
    SerializeSplits(r, order);
    hide Serialize;
  }
}
