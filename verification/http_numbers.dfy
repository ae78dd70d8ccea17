/** What number a length header announces. */
module HttpNumbers {
  import opened Collections
  import opened Words
  import opened HttpRequest
  import opened HttpRequestLaws

  const DIGITS := "0123456789"

  /** The decimal text of a number, without leading zeros. */
  function Decimal(n: nat): (s: string)
    ensures s != ""
  {
    if n < 10 then [DIGITS[n]] else Decimal(n / 10) + [DIGITS[n % 10]]
  }

  ghost predicate AllDigits(s: string) {
    forall k :: 0 <= k < |s| ==> IsDigit(s[k])
  }

  /** The digits end here. */
  ghost predicate NoDigitFirst(rest: string) {
    rest != "" ==> !IsDigit(rest[0])
  }

  // ---------------------------------------------------------------- runs of digits

  function Worth(c: char): int { c as int - '0' as int }

  lemma DigitsAre()
    ensures forall d :: 0 <= d < 10 ==> IsDigit(DIGITS[d]) && Worth(DIGITS[d]) == d
  {
  }

  lemma {:induction false} DecimalIsDigits(n: nat)
    ensures AllDigits(Decimal(n))
  {
    DigitsAre();
    if n >= 10 {
      DecimalIsDigits(n / 10);
    }
  }

  /** What follows the digits does not matter. */
  lemma {:induction false} DigitsStop(s: string, rest: string, value: nat)
    requires AllDigits(s) && NoDigitFirst(rest)
    ensures Digits(s + rest, value) == Digits(s, value)
    decreases |s|
  {
    if s == "" {
      assert s + rest == rest;
    } else {
      assert (s + rest)[1..] == s[1..] + rest;
      DigitsStop(s[1..], rest, value * 10 + Worth(s[0]));
    }
  }

  lemma {:induction false} DigitsSnoc(s: string, c: char, value: nat)
    requires AllDigits(s) && IsDigit(c)
    ensures Digits(s + [c], value) == Digits(s, value) * 10 + Worth(c)
    decreases |s|
  {
    if s == "" {
      assert s + [c] == [c] && [c][1..] == "";
    } else {
      assert (s + [c])[1..] == s[1..] + [c];
      DigitsSnoc(s[1..], c, value * 10 + Worth(s[0]));
    }
  }

  lemma {:induction false} DigitsOfDecimal(n: nat)
    ensures Digits(Decimal(n), 0) == n
  {
    DigitsAre();
    if n < 10 {
      assert Decimal(n)[1..] == "";
    } else {
      DecimalIsDigits(n / 10);
      DigitsOfDecimal(n / 10);
      DigitsSnoc(Decimal(n / 10), DIGITS[n % 10], 0);
    }
  }

  lemma {:induction false} LeadingZeros(zeros: string, s: string)
    requires forall k :: 0 <= k < |zeros| ==> zeros[k] == '0'
    ensures Digits(zeros + s, 0) == Digits(s, 0)
    decreases |zeros|
  {
    if zeros == "" {
      assert zeros + s == s;
    } else {
      assert (zeros + s)[1..] == zeros[1..] + s;
      LeadingZeros(zeros[1..], s);
    }
  }

  // ---------------------------------------------------------------- stoul

  /** Space, an optional sign and a run of digits: the value of the digits counts if it fits in 64
      bits, and a minus sign negates it modulo 2^64. Without digits there is no number. */
  lemma StoulReads(space: string, sign: string, digits: string, rest: string)
    requires (forall k :: 0 <= k < |space| ==> IsSpace(space[k])) && sign in {"", "+", "-"}
    requires AllDigits(digits) && NoDigitFirst(rest)
    requires digits == "" && rest != "" && sign == "" ==> !IsSpace(rest[0]) && rest[0] != '+' && rest[0] != '-'
    ensures Stoul(space + sign + digits + rest) ==
      if digits == "" || Digits(digits, 0) >= WORD64 then None
      else if sign == "-" then Some((WORD64 - Digits(digits, 0)) % WORD64)
      else Some(Digits(digits, 0))
  {
    hide Digits;
    var s := space + sign + digits + rest;
    var i, from := |space|, |space| + |sign|;
    assert forall k :: 0 <= k < i ==> s[k] == space[k];
    assert s[from..] == digits + rest;
    assert sign != "" ==> s[i] == sign[0];
    assert digits != "" ==> s[from] == digits[0];
    assert digits == "" && rest != "" ==> s[from] == rest[0];
    FirstIs(s, 0, IsSolid, i);
    if digits != "" {
      DigitsStop(digits, rest, 0);
    }
  }

  /** `Content-Length` is decimal: with leading space, a plus sign or none, leading zeros and
      anything behind it that is not a digit, the text of n announces n, if n fits in 64 bits. */
  lemma LengthIsDecimal(space: string, sign: string, zeros: string, n: nat, rest: string)
    requires (forall k :: 0 <= k < |space| ==> IsSpace(space[k])) && sign in {"", "+"}
    requires (forall k :: 0 <= k < |zeros| ==> zeros[k] == '0') && NoDigitFirst(rest)
    ensures Stoul(space + sign + (zeros + Decimal(n)) + rest) == if n < WORD64 then Some(n) else None
  {
    hide Stoul, Digits;
    DecimalIsDigits(n);
    DigitsOfDecimal(n);
    LeadingZeros(zeros, Decimal(n));
    StoulReads(space, sign, zeros + Decimal(n), rest);
  }

  /** A well-formed request may announce its body in decimal. */
  lemma DecimalLengthComesBack(n: nat)
    requires n < WORD64
    ensures Stoul(Decimal(n)) == Some(n)
  {
    hide Stoul;
    LengthIsDecimal("", "", "", n, "");
    assert "" + "" + ("" + Decimal(n)) + "" == Decimal(n);
  }

  // ---------------------------------------------------------------- names

  /** The methods and versions under their names in section 9.1 of RFC 9110 and section 2.3 of
      RFC 9112; every other word is unknown. */
  lemma NamesAreStandard(s: string)
    ensures VerbText(Get) == "GET" && VerbText(Post) == "POST" && VerbText(Put) == "PUT"
    ensures VerbText(Delete) == "DELETE" && VerbText(Patch) == "PATCH" && VerbText(Head) == "HEAD"
    ensures VerbText(Options) == "OPTIONS" && VerbText(UnknownVerb) == "UNKNOWN"
    ensures forall v :: v != UnknownVerb ==> (VerbFrom(s) == v <==> s == VerbText(v))
    ensures VersionText(Http10) == "HTTP/1.0" && VersionText(Http11) == "HTTP/1.1" && VersionText(Http20) == "HTTP/2.0"
    ensures VersionFrom(s) == Http10 <==> s == "HTTP/1.0"
    ensures VersionFrom(s) == Http11 <==> s == "HTTP/1.1"
    ensures VersionFrom(s) == Http20 <==> s == "HTTP/2.0" || s == "HTTP/2"
  {
  }
}
