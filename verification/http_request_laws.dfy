/** What the request parser and the serializer promise. */
module HttpRequestLaws {
  import opened HttpRequest

  // ---------------------------------------------------------------- scanning

  /** `First` is the only position with its property. */
  lemma {:induction false} FirstIs(s: string, i: nat, p: char -> bool, j: nat)
    requires i <= j <= |s|
    requires forall k :: i <= k < j ==> !p(s[k])
    requires j < |s| ==> p(s[j])
    ensures First(s, i, p) == j
  {
  }

  /** A line that is found in one buffer is found in every buffer that agrees up to its end. */
  lemma SameLine(b: string, c: string, pos: nat)
    requires pos <= |b| && NextLine(b, pos).Line?
    requires NextLine(b, pos).next <= |c| && c[..NextLine(b, pos).next] == b[..NextLine(b, pos).next]
    ensures pos <= |c| && NextLine(c, pos) == NextLine(b, pos)
    ensures pos < NextLine(b, pos).next <= |b|
  {
    var end, next := First(b, pos, IsBreak), NextLine(b, pos).next;
    assert forall k :: 0 <= k < next ==> c[k] == c[..next][k] == b[..next][k] == b[k];
    FirstIs(c, pos, IsBreak, end);
    assert c[pos..end] == b[pos..end];
  }

  // ---------------------------------------------------------------- prefix determinism

  /** The call has decided: it completed or found an error. */
  ghost predicate Settled(o: Outcome) {
    o.ok || o.parser.error.Some?
  }

  /** Both buffers begin with the same `k` bytes. */
  ghost predicate Share(b: string, c: string, k: nat) {
    k <= |b| && k <= |c| && c[..k] == b[..k]
  }

  lemma {:induction false} ParseFromIsBounded(ps: Parser, b: string, pos: nat, consumed: nat)
    requires pos <= |b| && consumed <= |b|
    ensures ParseFrom(ps, b, pos, consumed).consumed <= |b|
    ensures consumed <= pos ==> consumed <= ParseFrom(ps, b, pos, consumed).consumed
    decreases |b| - pos
  {
    hide ReadHeader, ReadRequestLine;
    if !ps.phase.Complete? && !ps.phase.Body? {
      var line := NextLine(b, pos);
      if line.Line? {
        SameLine(b, b, pos);
        hide NextLine;
        if ps.phase.RequestLine? {
          var ps' := ReadRequestLine(ps, line.text);
          if ps'.error.None? {
            ParseFromIsBounded(ps'.(phase := Headers), b, line.next, line.next);
          }
        } else if line.text != "" {
          var ps' := ReadHeader(ps, line.text);
          if ps'.error.None? {
            ParseFromIsBounded(ps', b, line.next, line.next);
          }
        }
      }
    }
  }

  /** A settled outcome depends only on the bytes consumed. */
  lemma {:induction false} ParseFromIsPrefixDetermined(ps: Parser, b: string, c: string, pos: nat, consumed: nat)
    requires pos <= |b| && consumed <= pos && (ps.phase.RequestLine? || ps.phase.Headers?) && ps.error.None?
    requires var o := ParseFrom(ps, b, pos, consumed); Settled(o) && Share(b, c, o.consumed)
    ensures pos <= |c| && ParseFrom(ps, c, pos, consumed) == ParseFrom(ps, b, pos, consumed)
    decreases |b| - pos
  {
    hide ReadHeader, ReadRequestLine;
    var k := ParseFrom(ps, b, pos, consumed).consumed;
    var line := NextLine(b, pos);
    assert line.Line?;
    assert line.next <= k by {
      LineIsConsumed(ps, b, pos, consumed);
    }
    assert c[..line.next] == c[..k][..line.next] == b[..k][..line.next] == b[..line.next];
    SameLine(b, c, pos);
    hide NextLine;
    if ps.phase.RequestLine? {
      var ps' := ReadRequestLine(ps, line.text);
      if ps'.error.None? {
        RequestLineKeepsPhase(ps, line.text);
        ParseFromIsPrefixDetermined(ps'.(phase := Headers), b, c, line.next, line.next);
      }
    } else if line.text == "" {
      if ps.length > 0 {
        assert c[line.next..k] == c[..k][line.next..] == b[..k][line.next..] == b[line.next..k];
      }
    } else {
      var ps' := ReadHeader(ps, line.text);
      if ps'.error.None? {
        HeaderKeepsPhase(ps, line.text);
        ParseFromIsPrefixDetermined(ps', b, c, line.next, line.next);
      }
    }
  }

  lemma LineIsConsumed(ps: Parser, b: string, pos: nat, consumed: nat)
    requires pos <= |b| && consumed <= pos && (ps.phase.RequestLine? || ps.phase.Headers?)
    requires NextLine(b, pos).Line?
    ensures NextLine(b, pos).next <= ParseFrom(ps, b, pos, consumed).consumed
  {
    hide ReadHeader, ReadRequestLine;
    var line := NextLine(b, pos);
    SameLine(b, b, pos);
    hide NextLine;
    if ps.phase.RequestLine? {
      ParseFromIsBounded(ReadRequestLine(ps, line.text).(phase := Headers), b, line.next, line.next);
    } else {
      ParseFromIsBounded(ReadHeader(ps, line.text), b, line.next, line.next);
    }
  }

  lemma RequestLineKeepsPhase(ps: Parser, line: string)
    ensures ReadRequestLine(ps, line).phase == ps.phase && ReadRequestLine(ps, line).length == ps.length
  {
  }

  lemma HeaderKeepsPhase(ps: Parser, line: string)
    ensures ReadHeader(ps, line).phase == ps.phase
  {
  }

  /** A fresh parser that succeeds or fails after `k` bytes does exactly the same on every
      buffer that shares those `k` bytes, and `k` is never more than there is. */
  lemma ParsingIsPrefixDetermined(b: string, c: string)
    requires var o := Parse(FRESH, b); Settled(o) && Share(b, c, o.consumed)
    ensures Parse(FRESH, c) == Parse(FRESH, b)
  {
    ParseFromIsPrefixDetermined(FRESH, b, c, 0, 0);
  }

  /** What is decided stays decided, the same way, when more bytes arrive behind. */
  lemma MoreBytesChangeNothing(b: string, more: string)
    requires Settled(Parse(FRESH, b))
    ensures Parse(FRESH, b + more) == Parse(FRESH, b)
  {
    hide Parse;
    ParsingStaysInTheBuffer(b);
    var k := Parse(FRESH, b).consumed;
    assert (b + more)[..k] == b[..k];
    ParsingIsPrefixDetermined(b, b + more);
  }

  lemma ParsingStaysInTheBuffer(b: string)
    ensures Parse(FRESH, b).consumed <= |b|
  {
    ParseFromIsBounded(FRESH, b, 0, 0);
  }
}
