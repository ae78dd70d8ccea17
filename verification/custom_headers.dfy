/** `apply_custom_headers`: the edits a rule makes to a header map, whatever order its maps are
    iterated in. Header names are compared without case (section 5.1 of RFC 9110). */
module CustomHeaders {
  import opened Collections

  type Headers = map<string, string>

  function LowerChar(c: char): char {
    if 'A' <= c <= 'Z' then (c as int + 32) as char else c
  }

  function Lower(s: string): (r: string)
    ensures |r| == |s|
  {
    seq(|s|, i requires 0 <= i < |s| => LowerChar(s[i]))
  }

  // ---------------------------------------------------------------- the edits

  /** The erase loop: every key that is this name in some case goes. */
  function Drop(h: Headers, name: string): Headers {
    map k | k in h && Lower(k) != Lower(name) :: h[k]
  }

  function DropBelow(h: Headers, removed: seq<string>, n: nat): Headers
    requires n <= |removed|
    decreases n
  {
    if n == 0 then h else Drop(DropBelow(h, removed, n - 1), removed[n - 1])
  }

  /** One configured header: an empty value removes, another replaces the value of some key
      with this name, or enters under the name as configured if there is none. */
  ghost predicate SetOne(h: Headers, name: string, value: string, r: Headers) {
    if value == "" then r == Drop(h, name)
    else if exists k :: k in h && Lower(k) == Lower(name) then
      exists k :: k in h && Lower(k) == Lower(name) && r == h[k := value]
    else r == h[name := value]
  }

  /** What the first `n` configured headers, in this order, may lead to. */
  ghost predicate SetBelow(h: Headers, added: Headers, order: seq<string>, n: nat, r: Headers)
    requires n <= |order| && forall name :: name in order ==> name in added
    decreases n, 0
  {
    if n == 0 then r == h else SetNext(h, added, order, n - 1, r)
  }

  ghost predicate SetNext(h: Headers, added: Headers, order: seq<string>, i: nat, r: Headers)
    requires i < |order| && forall name :: name in order ==> name in added
    decreases i, 1
  {
    exists mid :: SetBelow(h, added, order, i, mid) && SetOne(mid, order[i], added[order[i]], r)
  }

  /** The maps that the whole edit may lead to, for one order of the configured headers. */
  ghost predicate MayBecome(h: Headers, added: Headers, removed: seq<string>, order: seq<string>, r: Headers)
    requires Enumerates(order, added)
  {
    SetBelow(DropBelow(h, removed, |removed|), added, order, |order|, r)
  }

  // ---------------------------------------------------------------- the methods

  method EraseMatching(h: Headers, name: string) returns (r: Headers)
    ensures r == Drop(h, name)
  {
    r := h;
    var todo := h.Keys;
    while todo != {}
      invariant todo <= h.Keys
      invariant forall k :: k in r <==> k in h && (k in todo || Lower(k) != Lower(name))
      invariant forall k :: k in r ==> r[k] == h[k]
      decreases todo
    {
      hide Lower;
      var k :| k in todo;
      if Lower(k) == Lower(name) {
        r := r - {k};
      }
      todo := todo - {k};
    }
  }

  method Assign(h: Headers, name: string, value: string) returns (r: Headers)
    requires value != ""
    ensures SetOne(h, name, value, r)
  {
    hide Lower;
    var todo := h.Keys;
    while todo != {}
      invariant todo <= h.Keys
      invariant forall k :: k in h && k !in todo ==> Lower(k) != Lower(name)
      decreases todo
    {
      var k :| k in todo;
      if Lower(k) == Lower(name) {
        return h[k := value];
      }
      todo := todo - {k};
    }
    return h[name := value];
  }

  method ApplyCustomHeaders(h: Headers, added: Headers, removed: seq<string>, order: seq<string>) returns (r: Headers)
    requires Enumerates(order, added)
    ensures MayBecome(h, added, removed, order, r)
  {
    hide Drop, SetOne;
    r := h;
    for i := 0 to |removed|
      invariant r == DropBelow(h, removed, i)
    {
      r := EraseMatching(r, removed[i]);
    }
    ghost var base := r;
    for i := 0 to |order|
      invariant SetBelow(base, added, order, i, r)
    {
      ghost var mid := r;
      var value := added[order[i]];
      if value == "" {
        r := EraseMatching(r, order[i]);
        EmptyDrops(mid, order[i]);
      } else {
        r := Assign(r, order[i], value);
      }
      assert SetBelow(base, added, order, i, mid) && SetOne(mid, order[i], value, r);
    }
  }

  lemma EmptyDrops(h: Headers, name: string)
    ensures SetOne(h, name, "", Drop(h, name))
  {
  }

  // ---------------------------------------------------------------- name by name

  /** No two keys are the same name. */
  ghost predicate Unambiguous(h: Headers) {
    forall a, b :: a in h && b in h && Lower(a) == Lower(b) ==> a == b
  }

  /** Two configured names that are the same name both remove it. */
  ghost predicate Harmless(added: Headers) {
    forall a, b :: a in added && b in added && a != b && Lower(a) == Lower(b) ==> added[a] == added[b] == ""
  }

  /** The key and the value of a lower-case name. */
  ghost function Entry(h: Headers, lower: string): Option<(string, string)> {
    var keys := set k | k in h && Lower(k) == lower;
    if keys == {} then None else Some((Pick(keys), h[Pick(keys)]))
  }

  ghost predicate Mentions(removed: seq<string>, lower: string) {
    exists i :: 0 <= i < |removed| && Lower(removed[i]) == lower
  }

  /** What a configured header makes of what is there under its name. */
  function Set(was: Option<(string, string)>, name: string, value: string): Option<(string, string)> {
    if value == "" then None
    else Some((if was.Some? then was.value.0 else name, value))
  }

  /** What the rule means for one name: removed, replaced, added or untouched. */
  ghost function Expected(h: Headers, added: Headers, removed: seq<string>, lower: string): Option<(string, string)> {
    var was := if Mentions(removed, lower) then None else Entry(h, lower);
    match Entry(added, lower)
    case None => was
    case Some((name, value)) => Set(was, name, value)
  }

  // ---------------------------------------------------------------- maps are their entries

  lemma EntryOf(h: Headers, k: string)
    requires Unambiguous(h) && k in h
    ensures Entry(h, Lower(k)) == Some((k, h[k]))
  {
    hide Lower;
    var keys := set j | j in h && Lower(j) == Lower(k);
    assert k in keys && Pick(keys) in keys;
  }

  lemma EntryIsThere(h: Headers, lower: string)
    ensures var e := Entry(h, lower);
      && (e.Some? ==> e.value.0 in h && h[e.value.0] == e.value.1 && Lower(e.value.0) == lower)
      && (e.None? ==> forall k :: k in h ==> Lower(k) != lower)
  {
    hide Lower;
    var keys := set k | k in h && Lower(k) == lower;
    if keys == {} {
      forall k | k in h
        ensures Lower(k) != lower
      {
        assert k !in keys;
      }
    }
  }

  lemma SameEntries(h: Headers, g: Headers)
    requires Unambiguous(h) && Unambiguous(g) && forall lower :: Entry(h, lower) == Entry(g, lower)
    ensures h == g
  {
    hide Entry, Lower;
    forall k | k in h
      ensures k in g && g[k] == h[k]
    {
      EntryOf(h, k);
      EntryIsThere(g, Lower(k));
    }
    forall k | k in g
      ensures k in h
    {
      EntryOf(g, k);
      EntryIsThere(h, Lower(k));
    }
  }

  /** An unambiguous map with a known entry. */
  lemma EntryIs(h: Headers, lower: string, e: Option<(string, string)>)
    requires Unambiguous(h)
    requires e.Some? ==> e.value.0 in h && h[e.value.0] == e.value.1 && Lower(e.value.0) == lower
    requires e.None? ==> forall k :: k in h ==> Lower(k) != lower
    ensures Entry(h, lower) == e
  {
    hide Entry, Lower;
    EntryIsThere(h, lower);
    if e.Some? {
      EntryOf(h, e.value.0);
    }
  }

  lemma DropEntry(h: Headers, name: string, lower: string)
    requires Unambiguous(h)
    ensures Unambiguous(Drop(h, name))
    ensures Entry(Drop(h, name), lower) == if lower == Lower(name) then None else Entry(h, lower)
  {
    hide Entry, Lower;
    EntryIsThere(h, lower);
    EntryIs(Drop(h, name), lower, if lower == Lower(name) then None else Entry(h, lower));
  }

  lemma SetEntry(h: Headers, name: string, value: string, r: Headers, lower: string)
    requires Unambiguous(h) && SetOne(h, name, value, r)
    ensures Unambiguous(r)
    ensures Entry(r, lower) == if lower == Lower(name) then Set(Entry(h, lower), name, value) else Entry(h, lower)
  {
    hide Entry, Lower;
    if value == "" {
      DropEntry(h, name, lower);
    } else {
      EntryIsThere(h, lower);
      EntryIsThere(h, Lower(name));
      if k :| k in h && Lower(k) == Lower(name) && r == h[k := value] {
        EntryOf(h, k);
        EntryIs(r, lower, if lower == Lower(name) then Some((k, value)) else Entry(h, lower));
      } else {
        assert r == h[name := value];
        EntryIs(r, lower, if lower == Lower(name) then Some((name, value)) else Entry(h, lower));
      }
    }
  }

  // ---------------------------------------------------------------- whole edits

  lemma {:induction false} DropBelowEntry(h: Headers, removed: seq<string>, n: nat, lower: string)
    requires Unambiguous(h) && n <= |removed|
    ensures Unambiguous(DropBelow(h, removed, n))
    ensures Entry(DropBelow(h, removed, n), lower) == if Mentions(removed[..n], lower) then None else Entry(h, lower)
    decreases n
  {
    hide Entry, Lower, Drop, Unambiguous;
    if n > 0 {
      DropBelowEntry(h, removed, n - 1, lower);
      DropEntry(DropBelow(h, removed, n - 1), removed[n - 1], lower);
      MentionsMore(removed, n, lower);
    }
  }

  lemma MentionsMore(removed: seq<string>, n: nat, lower: string)
    requires 0 < n <= |removed|
    ensures Mentions(removed[..n], lower) <==> Mentions(removed[..n - 1], lower) || Lower(removed[n - 1]) == lower
  {
    hide Lower;
    if Mentions(removed[..n - 1], lower) {
      var i :| 0 <= i < n - 1 && Lower(removed[..n - 1][i]) == lower;
      assert Lower(removed[..n][i]) == lower;
    }
    if Lower(removed[n - 1]) == lower {
      assert Lower(removed[..n][n - 1]) == lower;
    }
    if Mentions(removed[..n], lower) && Lower(removed[n - 1]) != lower {
      var i :| 0 <= i < n && Lower(removed[..n][i]) == lower;
      assert Lower(removed[..n - 1][i]) == lower;
    }
  }

  /** What the first `n` configured headers make, one after the other, of one name. */
  function SetAll(was: Option<(string, string)>, added: Headers, order: seq<string>, n: nat, lower: string)
    : Option<(string, string)>
    requires n <= |order| && forall name :: name in order ==> name in added
    decreases n
  {
    if n == 0 then was
    else
      var before := SetAll(was, added, order, n - 1, lower);
      if Lower(order[n - 1]) == lower then Set(before, order[n - 1], added[order[n - 1]]) else before
  }

  /** Only headers configured under a name matter to it, whatever else the rule says. */
  lemma {:induction false} SetBelowEntry(h: Headers, added: Headers, order: seq<string>, n: nat, r: Headers,
      lower: string)
    requires Unambiguous(h) && Enumerates(order, added) && n <= |order| && SetBelow(h, added, order, n, r)
    ensures Unambiguous(r)
    ensures Entry(r, lower) == SetAll(Entry(h, lower), added, order, n, lower)
    decreases n
  {
    hide Entry, Lower, Unambiguous, SetOne, Set;
    if n > 0 {
      var i := n - 1;
      assert SetNext(h, added, order, i, r);
      var mid :| SetBelow(h, added, order, i, mid) && SetOne(mid, order[i], added[order[i]], r);
      SetBelowEntry(h, added, order, i, mid, lower);
      SetEntry(mid, order[i], added[order[i]], r, lower);
    }
  }

  /** In a harmless rule each configured header of a name decides alone. */
  lemma {:induction false} OneDecides(was: Option<(string, string)>, added: Headers, order: seq<string>,
      n: nat, lower: string)
    requires Harmless(added) && Enumerates(order, added) && n <= |order|
    ensures forall i :: 0 <= i < n && Lower(order[i]) == lower ==>
      SetAll(was, added, order, n, lower) == Set(was, order[i], added[order[i]])
    ensures (forall i :: 0 <= i < n ==> Lower(order[i]) != lower) ==> SetAll(was, added, order, n, lower) == was
    decreases n
  {
    hide Lower;
    if n > 0 {
      OneDecides(was, added, order, n - 1, lower);
      var last := order[n - 1];
      forall i | 0 <= i < n && Lower(order[i]) == lower
        ensures SetAll(was, added, order, n, lower) == Set(was, order[i], added[order[i]])
      {
        assert order[i] in order && last in order;
        if i < n - 1 && Lower(last) == lower {
          assert added[order[i]] == added[last] == "";
        }
      }
    }
  }

  /** Every outcome has, under every name, exactly what the rule means for that name; and no name
      becomes ambiguous. */
  lemma EditIsAsExpected(h: Headers, added: Headers, removed: seq<string>, order: seq<string>, r: Headers,
      lower: string)
    requires Unambiguous(h) && Harmless(added) && Enumerates(order, added) && MayBecome(h, added, removed, order, r)
    ensures Unambiguous(r) && Entry(r, lower) == Expected(h, added, removed, lower)
  {
    hide Entry, Unambiguous, Harmless, SetBelow, DropBelow, Mentions, Lower, Set, SetAll;
    var base := DropBelow(h, removed, |removed|);
    DropBelowEntry(h, removed, |removed|, lower);
    assert removed[..|removed|] == removed;
    SetBelowEntry(base, added, order, |order|, r, lower);
    OneDecides(Entry(base, lower), added, order, |order|, lower);
    EntryIsThere(added, lower);
    if Entry(added, lower).Some? {
      var name := Entry(added, lower).value.0;
      var i :| 0 <= i < |order| && order[i] == name;
    }
  }

  /** What a configured header means: an empty value removes every key of its name; another value
      is under the key that was there before, or under the configured name if the name was not
      there or was removed first. */
  lemma ConfiguredHeaderMeans(h: Headers, added: Headers, removed: seq<string>, order: seq<string>, r: Headers,
      name: string)
    requires Unambiguous(h) && Unambiguous(added) && Enumerates(order, added) && MayBecome(h, added, removed, order, r)
    requires name in added
    ensures added[name] == "" ==> forall k :: k in r ==> Lower(k) != Lower(name)
    ensures added[name] != "" ==>
      exists k :: k in r && Lower(k) == Lower(name) && r[k] == added[name]
        && if k in h && !Mentions(removed, Lower(name)) then true else k == name
  {
    hide Entry, Unambiguous, MayBecome, Mentions, Lower;
    assert Harmless(added) by { UnambiguousIsHarmless(added); }
    EditIsAsExpected(h, added, removed, order, r, Lower(name));
    EntryOf(added, name);
    EntryIsThere(r, Lower(name));
    EntryIsThere(h, Lower(name));
  }

  /** A removed name that is not configured is gone. */
  lemma RemovedHeaderMeans(h: Headers, added: Headers, removed: seq<string>, order: seq<string>, r: Headers, i: nat)
    requires Unambiguous(h) && Harmless(added) && Enumerates(order, added) && MayBecome(h, added, removed, order, r)
    requires i < |removed| && forall a :: a in added ==> Lower(a) != Lower(removed[i])
    ensures forall k :: k in r ==> Lower(k) != Lower(removed[i])
  {
    hide Entry, Unambiguous, Harmless, MayBecome, Lower;
    EditIsAsExpected(h, added, removed, order, r, Lower(removed[i]));
    EntryIsThere(added, Lower(removed[i]));
    EntryIsThere(r, Lower(removed[i]));
  }

  lemma UnambiguousIsHarmless(added: Headers)
    requires Unambiguous(added)
    ensures Harmless(added)
  {
  }

  /** The order of iteration, of either map, does not matter. */
  lemma OrderDoesNotMatter(h: Headers, added: Headers, removed: seq<string>, order: seq<string>,
      order': seq<string>, r: Headers, r': Headers)
    requires Unambiguous(h) && Harmless(added) && Enumerates(order, added) && Enumerates(order', added)
    requires MayBecome(h, added, removed, order, r) && MayBecome(h, added, removed, order', r')
    ensures r == r'
  {
    hide Entry, Unambiguous, Harmless, MayBecome, Expected;
    forall lower
      ensures Entry(r, lower) == Entry(r', lower)
    {
      EditIsAsExpected(h, added, removed, order, r, lower);
      EditIsAsExpected(h, added, removed, order', r', lower);
    }
    EditIsAsExpected(h, added, removed, order, r, "");
    EditIsAsExpected(h, added, removed, order', r', "");
    SameEntries(r, r');
  }

  /** A second application, in any order, changes nothing. */
  lemma EditIsIdempotent(h: Headers, added: Headers, removed: seq<string>, order: seq<string>,
      order': seq<string>, r: Headers, r': Headers)
    requires Unambiguous(h) && Harmless(added) && Enumerates(order, added) && Enumerates(order', added)
    requires MayBecome(h, added, removed, order, r) && MayBecome(r, added, removed, order', r')
    ensures r' == r
  {
    hide Entry, Unambiguous, Harmless, MayBecome, Mentions;
    EditIsAsExpected(h, added, removed, order, r, "");
    forall lower
      ensures Entry(r, lower) == Entry(r', lower)
    {
      EditIsAsExpected(h, added, removed, order, r, lower);
      EditIsAsExpected(r, added, removed, order', r', lower);
    }
    EditIsAsExpected(r, added, removed, order', r', "");
    SameEntries(r, r');
  }

  /** A header that the rule does not name stays as it is. */
  lemma OthersAreUntouched(h: Headers, added: Headers, removed: seq<string>, order: seq<string>, r: Headers, k: string)
    requires Unambiguous(h) && Harmless(added) && Enumerates(order, added) && MayBecome(h, added, removed, order, r)
    requires !Mentions(removed, Lower(k)) && Entry(added, Lower(k)).None?
    ensures k in r <==> k in h
    ensures k in h ==> r[k] == h[k]
  {
    hide Entry, Harmless, MayBecome, Mentions, Lower;
    EditIsAsExpected(h, added, removed, order, r, Lower(k));
    EntryIsThere(h, Lower(k));
    EntryIsThere(r, Lower(k));
    if k in h {
      EntryOf(h, k);
    }
    if k in r {
      EntryOf(r, k);
    }
  }

  /** With two keys for one name the outcome depends on the order of iteration. */
  lemma AmbiguousHeadersAreNotSafe()
    ensures var h := map["A" := "1", "a" := "2"];
      var added := map["A" := "3"];
      && MayBecome(h, added, [], ["A"], map["A" := "3", "a" := "2"])
      && MayBecome(h, added, [], ["A"], map["A" := "1", "a" := "3"])
  {
    var h := map["A" := "1", "a" := "2"];
    var added := map["A" := "3"];
    var one, two := map["A" := "3", "a" := "2"], map["A" := "1", "a" := "3"];
    assert Lower("A") == "a" == Lower("a");
    assert "A" in h && "a" in h;
    assert one == h["A" := "3"] && two == h["a" := "3"];
    assert SetOne(h, "A", "3", one) && SetOne(h, "A", "3", two);
    assert SetBelow(h, added, ["A"], 0, h);
    assert SetNext(h, added, ["A"], 0, one) && SetNext(h, added, ["A"], 0, two);
    assert DropBelow(h, [], 0) == h;
  }

  /** All iteration orders lead to one map. */
  ghost predicate Decided(h: Headers, added: Headers, removed: seq<string>) {
    forall order, order', r, r' ::
      (&& Enumerates(order, added) && Enumerates(order', added)
       && MayBecome(h, added, removed, order, r) && MayBecome(h, added, removed, order', r'))
      ==> r == r'
  }

  /** Two keys for one name: the rule that sets this name has two outcomes. */
  lemma TwoKeysTwoOutcomes(h: Headers, a: string, b: string)
    requires a in h && b in h && a != b && Lower(a) == Lower(b)
    ensures Harmless(map[a := h[a] + "x"]) && !Decided(h, map[a := h[a] + "x"], [])
  {
    hide Lower, Drop, Harmless;
    var value := h[a] + "x";
    var added, order := map[a := value], [a];
    assert Harmless(added) by { OneIsHarmless(a, value); }
    var r, r' := h[a := value], h[b := value];
    assert r[a] == value && r'[a] == h[a] && |value| == |h[a]| + 1;
    assert SetOne(h, a, value, r) && SetOne(h, a, value, r');
    assert SetBelow(h, added, order, 0, h);
    assert SetNext(h, added, order, 0, r) && SetNext(h, added, order, 0, r');
    assert DropBelow(h, [], 0) == h;
    assert Enumerates(order, added);
    assert MayBecome(h, added, [], order, r) && MayBecome(h, added, [], order, r');
  }

  lemma OneIsHarmless(name: string, value: string)
    ensures Harmless(map[name := value])
  {
  }

  /** Every harmless rule has one outcome exactly when the headers are unambiguous. */
  lemma SafeIffUnambiguous(h: Headers)
    ensures Unambiguous(h) <==> forall added, removed :: Harmless(added) ==> Decided(h, added, removed)
  {
    hide Lower, Harmless;
    if Unambiguous(h) {
      forall added, removed | Harmless(added)
        ensures Decided(h, added, removed)
      {
        HarmlessIsDecided(h, added, removed);
      }
    } else {
      var a, b :| a in h && b in h && Lower(a) == Lower(b) && a != b;
      hide Unambiguous, Decided;
      TwoKeysTwoOutcomes(h, a, b);
    }
  }

  lemma HarmlessIsDecided(h: Headers, added: Headers, removed: seq<string>)
    requires Unambiguous(h) && Harmless(added)
    ensures Decided(h, added, removed)
  {
    hide MayBecome, Unambiguous, Harmless, Enumerates;
    forall order, order', r, r' |
      && Enumerates(order, added) && Enumerates(order', added)
      && MayBecome(h, added, removed, order, r) && MayBecome(h, added, removed, order', r')
      ensures r == r'
    {
      OrderDoesNotMatter(h, added, removed, order, order', r, r');
    }
  }

  // ---------------------------------------------------------------- rules that name a header twice

  /** Every order leads somewhere. */
  lemma {:induction false} SomeOutcome(h: Headers, added: Headers, order: seq<string>, n: nat) returns (r: Headers)
    requires n <= |order| && forall name :: name in order ==> name in added
    ensures SetBelow(h, added, order, n, r)
    decreases n
  {
    if n == 0 {
      r := h;
    } else {
      hide Lower, SetOne;
      var mid := SomeOutcome(h, added, order, n - 1);
      r := SomeSet(mid, order[n - 1], added[order[n - 1]]);
      assert SetNext(h, added, order, n - 1, r);
    }
  }

  lemma SomeSet(h: Headers, name: string, value: string) returns (r: Headers)
    ensures SetOne(h, name, value, r)
  {
    hide Lower;
    if value == "" {
      r := Drop(h, name);
    } else if k :| k in h && Lower(k) == Lower(name) {
      r := h[k := value];
    } else {
      r := h[name := value];
    }
  }

  /** No headers, and a rule that sets one name twice: the outcome is the order's. */
  lemma TwiceNamedRulesAreNotSafe()
    ensures var added := map["A" := "1", "a" := "2"];
      && MayBecome(map[], added, [], ["A", "a"], map["A" := "2"])
      && MayBecome(map[], added, [], ["a", "A"], map["a" := "1"])
  {
    var added := map["A" := "1", "a" := "2"];
    assert Lower("A") == "a" == Lower("a");
    TwoSet(added, "A", "a");
    TwoSet(added, "a", "A");
  }

  lemma TwoSet(added: Headers, a: string, b: string)
    requires a in added && b in added && Lower(a) == Lower(b) && added[a] != "" && added[b] != "" && a != b
    requires added.Keys == {a, b}
    ensures Enumerates([a, b], added) && MayBecome(map[], added, [], [a, b], map[a := added[b]])
  {
    hide Lower;
    var none, one, two := map[], map[a := added[a]], map[a := added[b]];
    var order := [a, b];
    assert one == none[a := added[a]] && two == one[a := added[b]];
    assert SetOne(none, a, added[a], one) && SetOne(one, b, added[b], two);
    assert SetBelow(none, added, order, 0, none);
    assert SetNext(none, added, order, 0, one);
    assert SetBelow(none, added, order, 1, one);
    assert SetNext(none, added, order, 1, two);
    assert DropBelow(none, [], 0) == none;
  }
}
