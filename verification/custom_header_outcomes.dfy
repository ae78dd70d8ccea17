/** For one header map and one rule: exactly when the order of iteration does not matter. */
module CustomHeaderOutcomes {
  import opened Collections
  import opened CustomHeaders

  /** The entries under one lower-case name. */
  ghost function Part(h: Headers, lower: string): Headers {
    map k | k in h && Lower(k) == lower :: h[k]
  }

  ghost predicate Single(h: Headers) {
    forall a, b :: a in h && b in h ==> a == b
  }

  ghost predicate All(h: Headers, value: string) {
    forall k :: k in h ==> h[k] == value
  }

  /** What is there under a name, and what the rule configures under it, leave one outcome: the
      rule only removes the name; or it adds the name, once; or it sets it, always to the same
      value, and there is one key to set or every key has this value already. */
  ghost predicate Settles(there: Headers, named: Headers) {
    All(named, "") || forall a :: a in named ==> SetsAlike(there, named, named[a])
  }

  ghost predicate SetsAlike(there: Headers, named: Headers, value: string) {
    && value != "" && All(named, value)
    && if there == map[] then Single(named) else Single(there) || All(there, value)
  }

  // ---------------------------------------------------------------- one name at a time

  lemma PartOf(h: Headers, lower: string, k: string)
    ensures k in Part(h, lower) <==> k in h && Lower(k) == lower
    ensures k in Part(h, lower) ==> Part(h, lower)[k] == h[k]
  {
  }

  lemma SameParts(h: Headers, g: Headers)
    requires forall lower :: Part(h, lower) == Part(g, lower)
    ensures h == g
  {
    hide Part, Lower;
    forall k
      ensures k in h <==> k in g
      ensures k in h ==> h[k] == g[k]
    {
      PartOf(h, Lower(k), k);
      PartOf(g, Lower(k), k);
      assert Part(h, Lower(k)) == Part(g, Lower(k));
    }
  }

  /** Setting one name does not touch the others. */
  lemma OtherPart(h: Headers, name: string, value: string, r: Headers, lower: string)
    requires SetOne(h, name, value, r) && Lower(name) != lower
    ensures Part(r, lower) == Part(h, lower)
  {
    hide Lower;
  }

  /** And under the name itself it is the same edit. */
  lemma OwnPart(h: Headers, name: string, value: string, r: Headers)
    requires SetOne(h, name, value, r)
    ensures SetOne(Part(h, Lower(name)), name, value, Part(r, Lower(name)))
  {
    hide Lower;
    var lower := Lower(name);
    var p, q := Part(h, lower), Part(r, lower);
    if value == "" {
      assert q == Drop(p, name);
    } else if exists k :: k in h && Lower(k) == Lower(name) {
      var k :| k in h && Lower(k) == Lower(name) && r == h[k := value];
      assert k in p && q == p[k := value];
    } else {
      assert q == p[name := value];
    }
  }

  // ---------------------------------------------------------------- one outcome

  /** The outcome under a name once the rule has set it. */
  ghost function Goal(there: Headers, named: Headers): Headers {
    if All(named, "") then map[]
    else if there == map[] then named
    else
      var a := Pick(named.Keys);
      map k | k in there :: named[a]
  }

  /** Every configured header of the name leads to the goal, from what was there and from the goal. */
  lemma OneStepSettles(there: Headers, named: Headers, name: string, q: Headers)
    requires Settles(there, named) && name in named
    requires forall k :: k in there || k in named ==> Lower(k) == Lower(name)
    requires SetOne(there, name, named[name], q) || SetOne(Goal(there, named), name, named[name], q)
    ensures q == Goal(there, named)
  {
    hide Lower;
    if All(named, "") {
      assert q == map[];
    } else if there == map[] {
      assert Goal(there, named) == named == map[name := named[name]];
      assert q == map[name := named[name]];
    } else {
      var value := named[name];
      assert forall a :: a in named ==> named[a] == value;
      var goal := map k | k in there :: value;
      assert Goal(there, named) == goal;
      assert SetsAlike(there, named, value);
      hide Goal, Settles, SetsAlike;
      assert goal != map[] by { var k :| k in there; assert k in goal; }
      if SetOne(there, name, value, q) {
        ValueStays(there, there, name, value, q);
      } else {
        ValueStays(there, goal, name, value, q);
      }
    }
  }

  lemma ValueStays(there: Headers, from: Headers, name: string, value: string, q: Headers)
    requires value != "" && from != map[] && from.Keys == there.Keys && (Single(from) || All(from, value))
    requires (forall k :: k in from ==> Lower(k) == Lower(name)) && SetOne(from, name, value, q)
    ensures q == map k | k in there :: value
  {
    hide Lower;
    var j :| j in from;
    var k :| k in from && q == from[k := value];
    assert q.Keys == there.Keys;
  }

  /** Somewhere among the first `n` the rule names this header. */
  ghost predicate NamedBelow(order: seq<string>, n: nat, lower: string)
    requires n <= |order|
  {
    exists i :: 0 <= i < n && Lower(order[i]) == lower
  }

  /** If a name settles, every order leaves the same under it. */
  lemma {:induction false} SettledOutcome(h: Headers, added: Headers, order: seq<string>, n: nat, r: Headers,
      lower: string)
    requires Enumerates(order, added) && n <= |order| && SetBelow(h, added, order, n, r)
    requires Settles(Part(h, lower), Part(added, lower))
    ensures var there, named := Part(h, lower), Part(added, lower);
      Part(r, lower) == if NamedBelow(order, n, lower) then Goal(there, named) else there
    decreases n
  {
    hide Lower, SetOne, Settles, Goal, Part;
    if n > 0 {
      var i := n - 1;
      assert SetNext(h, added, order, i, r);
      var mid :| SetBelow(h, added, order, i, mid) && SetOne(mid, order[i], added[order[i]], r);
      SettledOutcome(h, added, order, i, mid, lower);
      if Lower(order[i]) != lower {
        OtherPart(mid, order[i], added[order[i]], r, lower);
      } else {
        OwnPart(mid, order[i], added[order[i]], r);
        PartOf(added, lower, order[i]);
        SamePart(h, added, lower);
        OneStepSettles(Part(h, lower), Part(added, lower), order[i], Part(r, lower));
      }
    }
  }

  lemma SamePart(h: Headers, added: Headers, lower: string)
    ensures forall k :: k in Part(h, lower) || k in Part(added, lower) ==> Lower(k) == lower
  {
  }

  lemma SettlingIsDecided(h: Headers, added: Headers, removed: seq<string>)
    requires forall lower :: Settles(Part(DropBelow(h, removed, |removed|), lower), Part(added, lower))
    ensures Decided(h, added, removed)
  {
    hide Lower, Settles, Goal, Part, DropBelow, SetBelow, NamedBelow;
    var base := DropBelow(h, removed, |removed|);
    forall order, order', r, r' |
      && Enumerates(order, added) && Enumerates(order', added)
      && MayBecome(h, added, removed, order, r) && MayBecome(h, added, removed, order', r')
      ensures r == r'
    {
      forall lower
        ensures Part(r, lower) == Part(r', lower)
      {
        assert Settles(Part(base, lower), Part(added, lower));
        SettledOutcome(base, added, order, |order|, r, lower);
        SettledOutcome(base, added, order', |order'|, r', lower);
        NamedEither(added, order, order', lower);
      }
      SameParts(r, r');
    }
  }

  lemma NamedEither(added: Headers, order: seq<string>, order': seq<string>, lower: string)
    requires Enumerates(order, added) && Enumerates(order', added)
    ensures NamedBelow(order, |order|, lower) <==> NamedBelow(order', |order'|, lower)
  {
    hide Lower;
    if NamedBelow(order, |order|, lower) {
      NamedToo(added, order, order', lower);
    }
    if NamedBelow(order', |order'|, lower) {
      NamedToo(added, order', order, lower);
    }
  }

  lemma NamedToo(added: Headers, order: seq<string>, order': seq<string>, lower: string)
    requires Enumerates(order, added) && Enumerates(order', added) && NamedBelow(order, |order|, lower)
    ensures NamedBelow(order', |order'|, lower)
  {
    hide Lower;
    var i :| 0 <= i < |order| && Lower(order[i]) == lower;
    assert order[i] in order';
    var j :| 0 <= j < |order'| && order'[j] == order[i];
  }

  // ---------------------------------------------------------------- two outcomes

  /** Two outcomes of one rule, in some orders. */
  ghost predicate Torn(h: Headers, added: Headers) {
    exists order, order', r, r' :: Enumerates(order, added) && Enumerates(order', added) && r != r'
      && SetBelow(h, added, order, |order|, r) && SetBelow(h, added, order', |order'|, r')
  }

  lemma AreTorn(h: Headers, added: Headers, order: seq<string>, order': seq<string>, r: Headers, r': Headers)
    requires Enumerates(order, added) && Enumerates(order', added) && r != r'
    requires SetBelow(h, added, order, |order|, r) && SetBelow(h, added, order', |order'|, r')
    ensures Torn(h, added)
  {
  }

  /** The last header of a name decides whether anything is left under it. */
  lemma LastLeaves(h: Headers, added: Headers, order: seq<string>, name: string, r: Headers)
    requires Enumerates(order, added) && order != [] && order[|order| - 1] == name
    requires SetBelow(h, added, order, |order|, r)
    ensures (exists k :: k in r && Lower(k) == Lower(name)) <==> added[name] != ""
  {
    hide Lower;
    assert SetNext(h, added, order, |order| - 1, r);
    var mid :| SetBelow(h, added, order, |order| - 1, mid) && SetOne(mid, name, added[name], r);
    SetLeaves(mid, name, added[name], r);
  }

  lemma SetLeaves(h: Headers, name: string, value: string, r: Headers)
    requires SetOne(h, name, value, r)
    ensures (exists k :: k in r && Lower(k) == Lower(name)) <==> value != ""
  {
    hide Lower;
    if value != "" {
      if exists k :: k in h && Lower(k) == Lower(name) {
        var k :| k in h && Lower(k) == Lower(name) && r == h[k := value];
        assert k in r;
      } else {
        assert name in r;
      }
    }
  }

  /** A name that is removed and set. */
  lemma RemovedAndSet(h: Headers, added: Headers, a: string, c: string)
    requires a in added && c in added && Lower(a) == Lower(c) && added[a] != "" && added[c] == ""
    ensures Torn(h, added)
  {
    hide Lower, SetBelow, Torn;
    var order, _ := SomeOrdersAround(added, a);
    var order', _ := SomeOrdersAround(added, c);
    var r := SomeOutcome(h, added, order, |order|);
    var r' := SomeOutcome(h, added, order', |order'|);
    LastLeaves(h, added, order, a, r);
    LastLeaves(h, added, order', c, r');
    AreTorn(h, added, order, order', r, r');
  }

  /** With nothing there, the first header of a name gives its key. */
  lemma {:induction false} FirstKey(h: Headers, added: Headers, order: seq<string>, n: nat, r: Headers)
    requires Enumerates(order, added) && 0 < n <= |order| && SetBelow(h, added, order, n, r)
    requires forall k :: k in h ==> Lower(k) != Lower(order[0])
    requires forall a :: a in added && Lower(a) == Lower(order[0]) ==> added[a] != ""
    ensures forall k :: k in r && Lower(k) == Lower(order[0]) ==> k == order[0]
    ensures order[0] in r
    decreases n
  {
    hide Lower;
    var i := n - 1;
    assert order[i] in order;
    assert SetNext(h, added, order, i, r);
    var mid :| SetBelow(h, added, order, i, mid) && SetOne(mid, order[i], added[order[i]], r);
    if i > 0 {
      FirstKey(h, added, order, i, mid);
    }
  }

  lemma AddedTwice(h: Headers, added: Headers, a: string, b: string)
    requires a in added && b in added && a != b && Lower(a) == Lower(b)
    requires forall k :: k in h ==> Lower(k) != Lower(a)
    requires forall c :: c in added && Lower(c) == Lower(a) ==> added[c] != ""
    ensures Torn(h, added)
  {
    hide Lower, SetBelow, Torn;
    var _, order := SomeOrdersAround(added, a);
    var _, order' := SomeOrdersAround(added, b);
    var r := SomeOutcome(h, added, order, |order|);
    var r' := SomeOutcome(h, added, order', |order'|);
    FirstKey(h, added, order, |order|, r);
    FirstKey(h, added, order', |order'|, r');
    AreTorn(h, added, order, order', r, r');
  }

  /** The value of the last header of a name among the first `n`. */
  function LastValue(was: string, added: Headers, order: seq<string>, n: nat, lower: string): string
    requires n <= |order| && forall name :: name in order ==> name in added
    decreases n
  {
    if n == 0 then was
    else if Lower(order[n - 1]) == lower then added[order[n - 1]]
    else LastValue(was, added, order, n - 1, lower)
  }

  /** One outcome is to set the same key each time. */
  lemma {:induction false} AlwaysAt(h: Headers, added: Headers, order: seq<string>, n: nat, x: string)
      returns (r: Headers)
    requires Enumerates(order, added) && n <= |order| && x in h
    requires forall a :: a in added && Lower(a) == Lower(x) ==> added[a] != ""
    ensures SetBelow(h, added, order, n, r)
    ensures x in r && r[x] == LastValue(h[x], added, order, n, Lower(x))
    ensures forall y :: y in h && y != x && Lower(y) == Lower(x) ==> y in r && r[y] == h[y]
    decreases n
  {
    hide Lower;
    if n == 0 {
      r := h;
    } else {
      var i := n - 1;
      var name := order[i];
      assert name in order;
      var mid := AlwaysAt(h, added, order, i, x);
      if Lower(name) == Lower(x) {
        r := mid[x := added[name]];
      } else {
        r := SomeSet(mid, name, added[name]);
        OtherNamesStay(mid, name, added[name], r);
      }
      assert SetOne(mid, name, added[name], r);
      assert SetNext(h, added, order, i, r);
    }
  }

  lemma OtherNamesStay(h: Headers, name: string, value: string, r: Headers)
    requires SetOne(h, name, value, r)
    ensures forall y :: y in h && Lower(y) != Lower(name) ==> y in r && r[y] == h[y]
  {
    hide Lower;
  }

  lemma SetDifferently(h: Headers, added: Headers, x: string, a: string, b: string)
    requires x in h && a in added && b in added && Lower(a) == Lower(b) == Lower(x) && added[a] != added[b]
    requires forall c :: c in added && Lower(c) == Lower(x) ==> added[c] != ""
    ensures Torn(h, added)
  {
    hide Lower, SetBelow, Torn;
    var order, _ := SomeOrdersAround(added, a);
    var order', _ := SomeOrdersAround(added, b);
    var r := AlwaysAt(h, added, order, |order|, x);
    var r' := AlwaysAt(h, added, order', |order'|, x);
    AreTorn(h, added, order, order', r, r');
  }

  lemma SetElsewhere(h: Headers, added: Headers, x: string, y: string, a: string)
    requires x in h && y in h && x != y && Lower(x) == Lower(y) && a in added && Lower(a) == Lower(x)
    requires forall c :: c in added && Lower(c) == Lower(x) ==> added[c] != ""
    requires h[x] != added[a]
    ensures Torn(h, added)
  {
    hide Lower, SetBelow, Torn;
    var order, _ := SomeOrdersAround(added, a);
    var r := AlwaysAt(h, added, order, |order|, x);
    var r' := AlwaysAt(h, added, order, |order|, y);
    AreTorn(h, added, order, order, r, r');
  }

  /** A name that does not settle has two outcomes. */
  lemma UnsettledIsTorn(h: Headers, added: Headers, lower: string)
    requires !Settles(Part(h, lower), Part(added, lower))
    ensures Torn(h, added)
  {
    hide Lower, Torn;
    var there, named := Part(h, lower), Part(added, lower);
    var a :| a in named && named[a] != "";
    if c :| c in named && named[c] == "" {
      RemovedAndSet(h, added, a, c);
      return;
    }
    forall c | c in added && Lower(c) == lower
      ensures added[c] != ""
    {
      assert c in named;
    }
    if b :| b in named && named[b] != named[a] {
      if x :| x in there {
        SetDifferently(h, added, x, a, b);
      } else {
        NothingUnder(h, lower);
        AddedTwice(h, added, a, b);
      }
    } else {
      AllAlikeIsTorn(h, added, lower, a);
    }
  }

  lemma AllAlikeIsTorn(h: Headers, added: Headers, lower: string, a: string)
    requires !Settles(Part(h, lower), Part(added, lower)) && a in Part(added, lower)
    requires Part(added, lower)[a] != "" && All(Part(added, lower), Part(added, lower)[a])
    ensures Torn(h, added)
  {
    hide Lower, Torn;
    var there, named := Part(h, lower), Part(added, lower);
    forall c | c in added && Lower(c) == lower
      ensures added[c] != ""
    {
      assert c in named;
    }
    if there == map[] {
      NothingUnder(h, lower);
      assert !Single(named);
      var b, c :| b in named && c in named && b != c;
      AddedTwice(h, added, b, c);
    } else {
      assert !Single(there) && !All(there, named[a]);
      var x :| x in there && there[x] != named[a];
      var p, q :| p in there && q in there && p != q;
      SetElsewhere(h, added, x, if p != x then p else q, a);
    }
  }

  lemma NothingUnder(h: Headers, lower: string)
    requires forall k :: k !in Part(h, lower)
    ensures forall k :: k in h ==> Lower(k) != lower
  {
    hide Lower;
    forall k | k in h
      ensures Lower(k) != lower
    {
      assert k !in Part(h, lower);
    }
  }

  // ---------------------------------------------------------------- exactly when

  /** The headers that the removals leave. */
  ghost function Remaining(h: Headers, removed: seq<string>): Headers {
    map k | k in h && !Mentions(removed, Lower(k)) :: h[k]
  }

  /** A rule has one outcome on given headers exactly when every name settles. */
  lemma DecidedIff(h: Headers, added: Headers, removed: seq<string>)
    ensures Decided(h, added, removed) <==>
      forall lower :: Settles(Part(Remaining(h, removed), lower), Part(added, lower))
  {
    hide Settles, Part, DropBelow, Decided, Mentions;
    var base := DropBelow(h, removed, |removed|);
    DropBelowIs(h, removed, |removed|);
    assert removed[..|removed|] == removed;
    assert base == Remaining(h, removed);
    hide Remaining;
    if forall lower :: Settles(Part(base, lower), Part(added, lower)) {
      SettlingIsDecided(h, added, removed);
    } else {
      var lower :| !Settles(Part(base, lower), Part(added, lower));
      UnsettledIsTorn(base, added, lower);
      TornIsUndecided(h, added, removed);
    }
  }

  lemma TornIsUndecided(h: Headers, added: Headers, removed: seq<string>)
    requires Torn(DropBelow(h, removed, |removed|), added)
    ensures !Decided(h, added, removed)
  {
    hide SetBelow, DropBelow;
    var base := DropBelow(h, removed, |removed|);
    var order, order', r, r' :| Enumerates(order, added) && Enumerates(order', added) && r != r'
      && SetBelow(base, added, order, |order|, r) && SetBelow(base, added, order', |order'|, r');
    assert MayBecome(h, added, removed, order, r) && MayBecome(h, added, removed, order', r');
  }

  /** What is left after the removals, in closed form. */
  lemma {:induction false} DropBelowIs(h: Headers, removed: seq<string>, n: nat)
    requires n <= |removed|
    ensures DropBelow(h, removed, n) == map k | k in h && !Mentions(removed[..n], Lower(k)) :: h[k]
    decreases n
  {
    hide Lower, Mentions;
    if n == 0 {
      assert forall k :: !Mentions(removed[..0], Lower(k)) by { NothingMentioned(); assert removed[..0] == []; }
    } else {
      DropBelowIs(h, removed, n - 1);
      forall k
        ensures Mentions(removed[..n], Lower(k)) <==>
          Mentions(removed[..n - 1], Lower(k)) || Lower(removed[n - 1]) == Lower(k)
      {
        MentionsMore(removed, n, Lower(k));
      }
    }
  }

  lemma NothingMentioned()
    ensures forall lower :: !Mentions([], lower)
  {
  }

  /** A rule has one outcome on all unambiguous headers exactly when it is harmless. */
  lemma SafeIffHarmless(added: Headers)
    ensures Harmless(added) <==> forall h, removed :: Unambiguous(h) ==> Decided(h, added, removed)
  {
    hide Lower, Unambiguous, Decided, Part, Settles;
    if Harmless(added) {
      forall h, removed | Unambiguous(h)
        ensures Decided(h, added, removed)
      {
        HarmlessIsDecided(h, added, removed);
      }
    } else {
      var a, b :| a in added && b in added && a != b && Lower(a) == Lower(b) && !(added[a] == added[b] == "");
      assert Unambiguous(map[]) by { NothingIsUnambiguous(); }
      TwiceNamedDoesNotSettle(added, a, b);
      DecidedIff(map[], added, []);
    }
  }

  lemma NothingIsUnambiguous()
    ensures Unambiguous(map[])
  {
  }

  lemma TwiceNamedDoesNotSettle(added: Headers, a: string, b: string)
    requires a in added && b in added && a != b && Lower(a) == Lower(b) && !(added[a] == added[b] == "")
    ensures !Settles(Part(Remaining(map[], []), Lower(a)), Part(added, Lower(a)))
  {
    hide Lower, Mentions;
    var there, named := Part(Remaining(map[], []), Lower(a)), Part(added, Lower(a));
    assert there == map[];
    assert a in named && b in named;
  }
}
