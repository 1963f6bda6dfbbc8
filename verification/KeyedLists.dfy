/**
 Lists whose elements carry a string key, the shape of nearly every list in a pod spec.
 The merge library folds such a list into a Go map (the last element with a key wins), overlays
 two maps with an element merge, walks the result in whatever order the runtime picks, and sorts.
 */
module KeyedLists {
  import opened Strings

  // ----- What a list means: per key, its elements in order; as a map, the last of them -----

  /** The elements with the given key, in list order. */
  function WithKey<T>(xs: seq<T>, key: T -> string, k: string): seq<T> {
    if xs == [] then []
    else
      var last := xs[|xs| - 1];
      WithKey(xs[..|xs| - 1], key, k) + if key(last) == k then [last] else []
  }

  /** The map a loop `m[key(x)] = x` builds. */
  function LastWins<T>(xs: seq<T>, key: T -> string): map<string, T> {
    if xs == [] then map[]
    else LastWins(xs[..|xs| - 1], key)[key(xs[|xs| - 1]) := xs[|xs| - 1]]
  }

  lemma {:induction false} LastWinsIsLastWithKey<T>(xs: seq<T>, key: T -> string, k: string)
    ensures k in LastWins(xs, key) <==> WithKey(xs, key, k) != []
    ensures k in LastWins(xs, key) ==>
      var ws := WithKey(xs, key, k); LastWins(xs, key)[k] == ws[|ws| - 1] && key(LastWins(xs, key)[k]) == k
  {
    if xs != [] {
      LastWinsIsLastWithKey(xs[..|xs| - 1], key, k);
    }
  }

  lemma {:induction false} WithKeyHas<T>(xs: seq<T>, key: T -> string, i: nat)
    requires i < |xs|
    ensures xs[i] in WithKey(xs, key, key(xs[i]))
  {
    if i < |xs| - 1 {
      WithKeyHas(xs[..|xs| - 1], key, i);
    }
  }

  lemma {:induction false} WithKeyHasTwo<T>(xs: seq<T>, key: T -> string, i: nat, j: nat)
    requires i < j < |xs| && key(xs[i]) == key(xs[j])
    ensures |WithKey(xs, key, key(xs[i]))| >= 2
  {
    if j < |xs| - 1 {
      WithKeyHasTwo(xs[..|xs| - 1], key, i, j);
    } else {
      WithKeyHas(xs[..|xs| - 1], key, i);
    }
  }

  lemma {:induction false} WithKeyOnly<T>(xs: seq<T>, key: T -> string, k: string)
    ensures forall x :: x in WithKey(xs, key, k) ==> x in xs && key(x) == k
  {
    if xs != [] {
      WithKeyOnly(xs[..|xs| - 1], key, k);
    }
  }

  lemma {:induction false} WithKeyAppend<T>(xs: seq<T>, ys: seq<T>, key: T -> string, k: string)
    ensures WithKey(xs + ys, key, k) == WithKey(xs, key, k) + WithKey(ys, key, k)
  {
    if ys == [] {
      assert xs + ys == xs;
    } else {
      var n := |ys| - 1;
      WithKeyAppend(xs, ys[..n], key, k);
      assert (xs + ys)[..|xs + ys| - 1] == xs + ys[..n];
    }
  }

  // ----- sort.SliceStable -----

  predicate Sorted<T>(xs: seq<T>, key: T -> string) {
    forall i, j :: 0 <= i < j < |xs| ==> !Less(key(xs[j]), key(xs[i]))
  }

  predicate StrictlySorted<T>(xs: seq<T>, key: T -> string) {
    forall i, j :: 0 <= i < j < |xs| ==> Less(key(xs[i]), key(xs[j]))
  }

  /** Puts x behind every element whose key is not greater. */
  function Insert<T>(ys: seq<T>, x: T, key: T -> string): seq<T> {
    if ys != [] && Less(key(x), key(ys[|ys| - 1]))
    then Insert(ys[..|ys| - 1], x, key) + [ys[|ys| - 1]]
    else ys + [x]
  }

  function StableSort<T>(xs: seq<T>, key: T -> string): seq<T> {
    if xs == [] then [] else Insert(StableSort(xs[..|xs| - 1], key), xs[|xs| - 1], key)
  }

  lemma {:induction false} InsertIsPermutation<T>(ys: seq<T>, x: T, key: T -> string)
    ensures multiset(Insert(ys, x, key)) == multiset(ys) + multiset{x}
  {
    if ys != [] && Less(key(x), key(ys[|ys| - 1])) {
      InsertIsPermutation(ys[..|ys| - 1], x, key);
      assert ys == ys[..|ys| - 1] + [ys[|ys| - 1]];
    }
  }

  lemma {:induction false} InsertSorted<T>(ys: seq<T>, x: T, key: T -> string)
    requires Sorted(ys, key)
    ensures Sorted(Insert(ys, x, key), key)
  {
    var n := |ys| - 1;
    if ys != [] && Less(key(x), key(ys[n])) {
      var front := Insert(ys[..n], x, key);
      InsertSorted(ys[..n], x, key);
      InsertIsPermutation(ys[..n], x, key);
      LessTrichotomy(key(x), key(ys[n]));
      forall i | 0 <= i < |front| ensures !Less(key(ys[n]), key(front[i])) {
        assert front[i] in multiset(front);
        assert front[i] in ys[..n] || front[i] == x;
      }
    } else {
      forall i | 0 <= i < |ys| ensures !Less(key(x), key(ys[i])) {
        LessTrichotomy(key(ys[i]), key(ys[n]));
        if Less(key(x), key(ys[i])) && Less(key(ys[i]), key(ys[n])) {
          LessTransitive(key(x), key(ys[i]), key(ys[n]));
        }
      }
    }
  }

  lemma {:induction false} InsertIsStable<T>(ys: seq<T>, x: T, key: T -> string, k: string)
    ensures WithKey(Insert(ys, x, key), key, k) == WithKey(ys, key, k) + WithKey([x], key, k)
  {
    var n := |ys| - 1;
    if ys != [] && Less(key(x), key(ys[n])) {
      InsertIsStable(ys[..n], x, key, k);
      var front := Insert(ys[..n], x, key);
      WithKeyAppend(front, [ys[n]], key, k);
      WithKeyAppend(ys[..n], [ys[n]], key, k);
      assert ys == ys[..n] + [ys[n]];
      LessTrichotomy(key(x), key(ys[n]));
      assert WithKey([x], key, k) == [] || WithKey([ys[n]], key, k) == [];
    } else {
      WithKeyAppend(ys, [x], key, k);
    }
  }

  /** The result is sorted, a permutation, and keeps equal keys in their order. */
  lemma {:induction false} StableSortIsStable<T>(xs: seq<T>, key: T -> string)
    ensures Sorted(StableSort(xs, key), key)
    ensures multiset(StableSort(xs, key)) == multiset(xs)
    ensures forall k :: WithKey(StableSort(xs, key), key, k) == WithKey(xs, key, k)
  {
    if xs != [] {
      var n := |xs| - 1;
      StableSortIsStable(xs[..n], key);
      var ys := StableSort(xs[..n], key);
      InsertSorted(ys, xs[n], key);
      InsertIsPermutation(ys, xs[n], key);
      assert xs == xs[..n] + [xs[n]];
      forall k ensures WithKey(StableSort(xs, key), key, k) == WithKey(xs, key, k) {
        OneMoreIsStable(xs[..n], ys, xs[n], key, k);
      }
    }
  }

  lemma OneMoreIsStable<T>(xs: seq<T>, ys: seq<T>, x: T, key: T -> string, k: string)
    requires WithKey(ys, key, k) == WithKey(xs, key, k)
    ensures WithKey(Insert(ys, x, key), key, k) == WithKey(xs + [x], key, k)
  {
    InsertIsStable(ys, x, key, k);
    WithKeyAppend(xs, [x], key, k);
  }

  lemma SnocInjective<T>(a: seq<T>, x: T, b: seq<T>, y: T)
    requires a + [x] == b + [y]
    ensures a == b && x == y
  {
    assert |a + [x]| == |b + [y]| && (a + [x])[|a|] == x && (b + [y])[|b|] == y;
    assert (a + [x])[..|a|] == a && (b + [y])[..|b|] == b;
  }

  lemma AppendCancel<T>(a: seq<T>, b: seq<T>, t: seq<T>)
    requires a + t == b + t
    ensures a == b
  {
    assert |a + t| == |b + t|;
    assert (a + t)[..|a|] == a && (b + t)[..|b|] == b;
  }

  /** Sortedness and stability leave no freedom, so any stable sort returns this list. */
  lemma {:induction false} StableSortUnique<T>(xs: seq<T>, ys: seq<T>, key: T -> string)
    requires Sorted(xs, key) && Sorted(ys, key)
    requires forall k :: WithKey(xs, key, k) == WithKey(ys, key, k)
    ensures xs == ys
  {
    if xs == [] || ys == [] {
      if xs != [] { WithKeyHas(xs, key, 0); }
      if ys != [] { WithKeyHas(ys, key, 0); }
    } else {
      var m, n := |xs| - 1, |ys| - 1;
      WithKeyHas(xs, key, m);
      WithKeyHas(ys, key, n);
      WithKeyOnly(ys, key, key(xs[m]));
      WithKeyOnly(xs, key, key(ys[n]));
      LessTrichotomy(key(xs[m]), key(ys[n]));
      var k0 := key(xs[m]);
      assert key(ys[n]) == k0;
      SnocInjective(WithKey(xs[..m], key, k0), xs[m], WithKey(ys[..n], key, k0), ys[n]);
      forall k ensures WithKey(xs[..m], key, k) == WithKey(ys[..n], key, k) {
        assert WithKey(xs, key, k) == WithKey(ys, key, k);
        AppendCancel(WithKey(xs[..m], key, k), WithKey(ys[..n], key, k), if key(xs[m]) == k then [xs[m]] else []);
      }
      StableSortUnique(xs[..m], ys[..n], key);
      assert xs == xs[..m] + [xs[m]] && ys == ys[..n] + [ys[n]];
    }
  }

  method SliceStable<T>(xs: seq<T>, key: T -> string) returns (r: seq<T>)
    ensures r == StableSort(xs, key)
    ensures Sorted(r, key) && multiset(r) == multiset(xs)
    ensures forall k :: WithKey(r, key, k) == WithKey(xs, key, k)
  {
    r := [];
    for i := 0 to |xs|
      invariant r == StableSort(xs[..i], key)
    {
      assert xs[..i + 1][..i] == xs[..i];
      r := Insert(r, xs[i], key);
    }
    assert xs[..|xs|] == xs;
    StableSortIsStable(xs, key);
  }

  // ----- The canonical list of a map -----

  /** The greatest key; it exists because Less is a total order. */
  lemma {:induction false} GreatestExists(s: set<string>) returns (g: string)
    requires s != {}
    ensures g in s && forall k :: k in s && k != g ==> Less(k, g)
  {
    var x :| x in s;
    if s == {x} {
      g := x;
    } else {
      g := GreatestExists(s - {x});
      LessTrichotomy(x, g);
      if Less(g, x) {
        forall k | k in s && k != x ensures Less(k, x) {
          if k != g { LessTransitive(k, g, x); }
        }
        g := x;
      }
    }
  }

  ghost function Greatest(s: set<string>): (g: string)
    requires s != {}
    ensures g in s && forall k :: k in s && k != g ==> Less(k, g)
  {
    assert exists g :: g in s && forall k :: k in s && k != g ==> Less(k, g) by {
      var g := GreatestExists(s);
    }
    var g :| g in s && forall k :: k in s && k != g ==> Less(k, g);
    g
  }

  /** The values of m in the order of their keys. */
  ghost function Listing<T>(m: map<string, T>): seq<T> {
    if m == map[] then []
    else
      assert m.Keys != {};
      var g := Greatest(m.Keys);
      assert |(m - {g}).Keys| < |m.Keys| by { assert (m - {g}).Keys == m.Keys - {g}; }
      Listing(m - {g}) + [m[g]]
  }

  /** Every value sits under its own key. */
  ghost predicate Consistent<T>(m: map<string, T>, key: T -> string) {
    forall k :: k in m ==> key(m[k]) == k
  }

  lemma LastWinsConsistent<T>(xs: seq<T>, key: T -> string)
    ensures Consistent(LastWins(xs, key), key)
  {
    forall k | k in LastWins(xs, key) ensures key(LastWins(xs, key)[k]) == k {
      LastWinsIsLastWithKey(xs, key, k);
    }
  }

  lemma {:induction false} ListingKeysBelow<T>(m: map<string, T>, key: T -> string)
    requires Consistent(m, key)
    ensures forall x :: x in Listing(m) ==> key(x) in m
  {
    if m != map[] {
      var g := Greatest(m.Keys);
      assert (m - {g}).Keys == m.Keys - {g};
      ListingKeysBelow(m - {g}, key);
    }
  }

  lemma {:induction false} ListingSorted<T>(m: map<string, T>, key: T -> string)
    requires Consistent(m, key)
    ensures StrictlySorted(Listing(m), key)
    decreases |m.Keys|
  {
    if m != map[] {
      var g := Greatest(m.Keys);
      var m' := m - {g};
      assert m'.Keys == m.Keys - {g};
      ListingSorted(m', key);
      ListingKeysBelow(m', key);
      var xs := Listing(m');
      forall i | 0 <= i < |xs| ensures Less(key(xs[i]), g) {
        assert xs[i] in xs;
      }
    }
  }

  lemma LastWinsSnoc<T>(xs: seq<T>, x: T, key: T -> string)
    ensures LastWins(xs + [x], key) == LastWins(xs, key)[key(x) := x]
  {
    assert (xs + [x])[..|xs|] == xs;
  }

  lemma {:induction false} LastWinsListing<T>(m: map<string, T>, key: T -> string)
    requires Consistent(m, key)
    ensures LastWins(Listing(m), key) == m
    decreases |m.Keys|
  {
    if m != map[] {
      var g := Greatest(m.Keys);
      var m' := m - {g};
      assert m'.Keys == m.Keys - {g};
      assert Consistent(m', key);
      LastWinsListing(m', key);
      calc {
        LastWins(Listing(m), key);
        LastWins(Listing(m') + [m[g]], key);
        { LastWinsSnoc(Listing(m'), m[g], key); }
        m'[g := m[g]];
        m;
      }
    }
  }

  /** The listing starts with the value of the least key. */
  lemma {:induction false} ListingFirst<T>(m: map<string, T>, key: T -> string)
    requires Consistent(m, key) && m != map[]
    ensures Listing(m) != [] && key(Listing(m)[0]) in m && m[key(Listing(m)[0])] == Listing(m)[0]
    ensures forall k :: k in m && k != key(Listing(m)[0]) ==> Less(key(Listing(m)[0]), k)
    decreases |m.Keys|
  {
    var g := Greatest(m.Keys);
    var m' := m - {g};
    assert m'.Keys == m.Keys - {g};
    if m' == map[] {
      assert m'.Keys == {};
      assert Listing(m') == [];
      forall k | k in m ensures k == g {
        assert k == g || k in m'.Keys;
      }
    } else {
      ListingFirst(m', key);
      assert Listing(m)[0] == Listing(m')[0];
    }
  }

  /** A change at one key does not show in the first element when a smaller key is there. */
  lemma ListingFirstUnchanged<T>(m: map<string, T>, n: map<string, T>, key: T -> string, changed: string, k: string)
    requires Consistent(m, key) && Consistent(n, key) && m.Keys == n.Keys
    requires forall k' :: k' in m && k' != changed ==> m[k'] == n[k']
    requires k in m && Less(k, changed)
    ensures Listing(m) != [] && Listing(n) != [] && Listing(m)[0] == Listing(n)[0]
  {
    ListingFirst(m, key);
    ListingFirst(n, key);
    var p, q := key(Listing(m)[0]), key(Listing(n)[0]);
    LessTrichotomy(p, q);
    LessTrichotomy(k, changed);
    LessTrichotomy(p, k);
  }

  /** Maps with the same keys and related values have related listings. */
  lemma {:induction false} ListingRelated<T>(m: map<string, T>, n: map<string, T>, related: (T, T) -> bool)
    requires m.Keys == n.Keys && forall k :: k in m ==> related(m[k], n[k])
    ensures |Listing(m)| == |Listing(n)| == |m.Keys|
    ensures forall i :: 0 <= i < |Listing(m)| ==> related(Listing(m)[i], Listing(n)[i])
    decreases |m.Keys|
  {
    if m.Keys == {} {
      assert m == map[] && n == map[];
    } else {
      assert m != map[] && n != map[];
      var g := Greatest(m.Keys);
      assert (m - {g}).Keys == m.Keys - {g} == (n - {g}).Keys;
      ListingRelated(m - {g}, n - {g}, related);
    }
  }

  lemma StrictKeysBelow<T>(xs: seq<T>, key: T -> string, k: string)
    requires StrictlySorted(xs, key) && xs != []
    ensures k in LastWins(xs[..|xs| - 1], key) ==> Less(k, key(xs[|xs| - 1])) && k != key(xs[|xs| - 1])
  {
    var n := |xs| - 1;
    LessTrichotomy(k, key(xs[n]));
    LastWinsIsLastWithKey(xs[..n], key, k);
    WithKeyOnly(xs[..n], key, k);
    var ws := WithKey(xs[..n], key, k);
    assert ws != [] ==> ws[|ws| - 1] in ws;
  }

  /** A strictly sorted list is determined by the map it folds to. */
  lemma {:induction false} CanonicalUnique<T>(xs: seq<T>, ys: seq<T>, key: T -> string)
    requires StrictlySorted(xs, key) && StrictlySorted(ys, key)
    requires LastWins(xs, key) == LastWins(ys, key)
    ensures xs == ys
  {
    assert xs != [] ==> key(xs[|xs| - 1]) in LastWins(xs, key);
    assert ys != [] ==> key(ys[|ys| - 1]) in LastWins(ys, key);
    if xs != [] && ys != [] {
      var m, n := |xs| - 1, |ys| - 1;
      var p, q := LastWins(xs[..m], key), LastWins(ys[..n], key);
      LessTrichotomy(key(xs[m]), key(ys[n]));
      StrictKeysBelow(ys, key, key(xs[m]));
      StrictKeysBelow(xs, key, key(ys[n]));
      assert key(xs[m]) == key(ys[n]) && xs[m] == ys[n];
      assert p == LastWins(xs, key) - {key(xs[m])};
      assert q == LastWins(ys, key) - {key(ys[n])};
      CanonicalUnique(xs[..m], ys[..n], key);
      assert xs == xs[..m] + [xs[m]] && ys == ys[..n] + [ys[n]];
    }
  }

  lemma {:induction false} StrictHasAll<T>(xs: seq<T>, key: T -> string, i: nat)
    requires StrictlySorted(xs, key) && i < |xs|
    ensures key(xs[i]) in LastWins(xs, key) && LastWins(xs, key)[key(xs[i])] == xs[i]
  {
    if i < |xs| - 1 {
      StrictHasAll(xs[..|xs| - 1], key, i);
      LessTrichotomy(key(xs[i]), key(xs[|xs| - 1]));
    }
  }

  /** An order in which a Go `range` over m may visit its keys. */
  ghost predicate Visits(ks: seq<string>, keys: set<string>) {
    && (forall i, j :: 0 <= i < j < |ks| ==> ks[i] != ks[j])
    && (forall k :: k in keys <==> k in ks)
  }

  function ValuesIn<T>(m: map<string, T>, ks: seq<string>): (vs: seq<T>)
    requires forall k :: k in ks ==> k in m
  {
    seq(|ks|, i requires 0 <= i < |ks| => m[ks[i]])
  }

  lemma {:induction false} LastWinsOfVisit<T>(m: map<string, T>, ks: seq<string>, key: T -> string)
    requires Consistent(m, key)
    requires forall k :: k in ks ==> k in m
    requires forall i, j :: 0 <= i < j < |ks| ==> ks[i] != ks[j]
    ensures LastWins(ValuesIn(m, ks), key) == map k | k in m && k in ks :: m[k]
  {
    if ks != [] {
      var n := |ks| - 1;
      LastWinsOfVisit(m, ks[..n], key);
      var before := LastWins(ValuesIn(m, ks[..n]), key);
      assert ValuesIn(m, ks)[..n] == ValuesIn(m, ks[..n]);
      assert LastWins(ValuesIn(m, ks), key) == before[ks[n] := m[ks[n]]];
      assert forall k :: k in ks <==> k in ks[..n] || k == ks[n];
    }
  }

  lemma LastWinsStableSort<T>(xs: seq<T>, key: T -> string)
    ensures LastWins(StableSort(xs, key), key) == LastWins(xs, key)
  {
    var ys := StableSort(xs, key);
    StableSortIsStable(xs, key);
    forall k ensures k in LastWins(ys, key) <==> k in LastWins(xs, key)
      ensures k in LastWins(xs, key) ==> LastWins(ys, key)[k] == LastWins(xs, key)[k]
    {
      LastWinsIsLastWithKey(ys, key, k);
      LastWinsIsLastWithKey(xs, key, k);
    }
  }

  lemma SortedVisitIsStrict<T>(m: map<string, T>, ks: seq<string>, key: T -> string)
    requires Consistent(m, key) && Visits(ks, m.Keys)
    ensures StrictlySorted(StableSort(ValuesIn(m, ks), key), key)
  {
    var vs := ValuesIn(m, ks);
    var xs := StableSort(vs, key);
    StableSortIsStable(vs, key);
    forall i, j | 0 <= i < j < |xs| ensures Less(key(xs[i]), key(xs[j])) {
      LessTrichotomy(key(xs[i]), key(xs[j]));
      if key(xs[i]) == key(xs[j]) {
        WithKeyHasTwo(xs, key, i, j);
        VisitHasNoTwo(m, ks, key, key(xs[i]));
      }
    }
  }

  /** Sorting loses the visiting order: whatever the runtime picked, the canonical list comes out. */
  lemma VisitOrderIrrelevant<T>(m: map<string, T>, ks: seq<string>, key: T -> string)
    requires Consistent(m, key) && Visits(ks, m.Keys)
    ensures StableSort(ValuesIn(m, ks), key) == Listing(m)
  {
    LastWinsOfVisit(m, ks, key);
    assert LastWins(ValuesIn(m, ks), key) == m;
    LastWinsStableSort(ValuesIn(m, ks), key);
    SortedVisitIsStrict(m, ks, key);
    ListingSorted(m, key);
    LastWinsListing(m, key);
    CanonicalUnique(StableSort(ValuesIn(m, ks), key), Listing(m), key);
  }

  lemma {:induction false} VisitHasNoTwo<T>(m: map<string, T>, ks: seq<string>, key: T -> string, k: string)
    requires Consistent(m, key)
    requires forall k' :: k' in ks ==> k' in m
    requires forall i, j :: 0 <= i < j < |ks| ==> ks[i] != ks[j]
    ensures |WithKey(ValuesIn(m, ks), key, k)| <= 1
    ensures k !in ks ==> WithKey(ValuesIn(m, ks), key, k) == []
  {
    if ks != [] {
      var n := |ks| - 1;
      VisitHasNoTwo(m, ks[..n], key, k);
      assert ValuesIn(m, ks)[..n] == ValuesIn(m, ks[..n]);
      assert ks[n] in ks;
      assert forall k' :: k' in ks[..n] ==> k' in ks;
    }
  }

  // ----- Overlaying one keyed list on another -----

  function Overlay<T>(original: map<string, T>, override: map<string, T>, combine: (T, T) -> T): map<string, T> {
    map k | k in original.Keys + override.Keys ::
      if k !in override then original[k]
      else if k !in original then override[k]
      else combine(original[k], override[k])
  }

  /** The element merge never moves an element of these two lists to another key. */
  ghost predicate KeepsKeys<T>(a: seq<T>, b: seq<T>, key: T -> string, combine: (T, T) -> T) {
    Consistent(Overlay(LastWins(a, key), LastWins(b, key), combine), key)
  }

  ghost function Merged<T>(a: seq<T>, b: seq<T>, key: T -> string, combine: (T, T) -> T): seq<T> {
    Listing(Overlay(LastWins(a, key), LastWins(b, key), combine))
  }

  /** Override semantics: strictly sorted, and as a map the overlay of the two lists. */
  lemma MergedMeaning<T>(a: seq<T>, b: seq<T>, key: T -> string, combine: (T, T) -> T)
    requires KeepsKeys(a, b, key, combine)
    ensures StrictlySorted(Merged(a, b, key, combine), key)
    ensures LastWins(Merged(a, b, key, combine), key) == Overlay(LastWins(a, key), LastWins(b, key), combine)
  {
    var m := Overlay(LastWins(a, key), LastWins(b, key), combine);
    ListingSorted(m, key);
    LastWinsListing(m, key);
  }

  /** Each element of a merged list is an entry of the union. */
  lemma MergedFrom<T>(a: seq<T>, b: seq<T>, key: T -> string, combine: (T, T) -> T, m: T)
    requires KeepsKeys(a, b, key, combine) && m in Merged(a, b, key, combine)
    ensures var u := Overlay(LastWins(a, key), LastWins(b, key), combine);
      key(m) in u && m == u[key(m)]
  {
    var r := Merged(a, b, key, combine);
    MergedMeaning(a, b, key, combine);
    var i :| 0 <= i < |r| && r[i] == m;
    StrictHasAll(r, key, i);
  }

  lemma MergedWithNothing<T>(a: seq<T>, key: T -> string, combine: (T, T) -> T)
    requires StrictlySorted(a, key)
    ensures Merged(a, [], key, combine) == a
  {
    LastWinsConsistent(a, key);
    assert Overlay(LastWins(a, key), map[], combine) == LastWins(a, key);
    MergedMeaning(a, [], key, combine);
    CanonicalUnique(Merged(a, [], key, combine), a, key);
  }

  lemma OverlayAssociative<T>(x: map<string, T>, y: map<string, T>, z: map<string, T>, combine: (T, T) -> T)
    requires forall k :: k in x && k in y && k in z ==>
      combine(combine(x[k], y[k]), z[k]) == combine(x[k], combine(y[k], z[k]))
    ensures Overlay(Overlay(x, y, combine), z, combine) == Overlay(x, Overlay(y, z, combine), combine)
  {
    var l, r := Overlay(Overlay(x, y, combine), z, combine), Overlay(x, Overlay(y, z, combine), combine);
    assert l.Keys == x.Keys + y.Keys + z.Keys == r.Keys;
    forall k | k in l ensures l[k] == r[k] {
    }
  }

  /** Merging three layers of lists is associative as soon as merging three elements is. */
  lemma {:induction false} MergedAssociative<T>(a: seq<T>, b: seq<T>, c: seq<T>, key: T -> string, combine: (T, T) -> T)
    requires KeepsKeys(a, b, key, combine) && KeepsKeys(b, c, key, combine)
    requires forall k :: k in LastWins(a, key) && k in LastWins(b, key) && k in LastWins(c, key) ==>
      var x, y, z := LastWins(a, key)[k], LastWins(b, key)[k], LastWins(c, key)[k];
      combine(combine(x, y), z) == combine(x, combine(y, z))
    ensures Merged(Merged(a, b, key, combine), c, key, combine) == Merged(a, Merged(b, c, key, combine), key, combine)
  {
    MergedMeaning(a, b, key, combine);
    MergedMeaning(b, c, key, combine);
    OverlayAssociative(LastWins(a, key), LastWins(b, key), LastWins(c, key), combine);
  }

  method CreateMap<T>(xs: seq<T>, key: T -> string) returns (m: map<string, T>)
    ensures m == LastWins(xs, key)
  {
    m := map[];
    for i := 0 to |xs|
      invariant m == LastWins(xs[..i], key)
    {
      assert xs[..i + 1][..i] == xs[..i];
      m := m[key(xs[i]) := xs[i]];
    }
    assert xs[..|xs|] == xs;
  }

  /**
   A Go `for _, v := range m { xs = append(xs, v) }`. The visiting order is the runtime's choice;
   the ghost result records it.
   */
  method Collect<T>(m: map<string, T>) returns (xs: seq<T>, ghost ks: seq<string>)
    ensures Visits(ks, m.Keys)
    ensures xs == ValuesIn(m, ks)
  {
    xs, ks := [], [];
    var todo := m.Keys;
    while todo != {}
      invariant todo <= m.Keys
      invariant forall k :: k in ks <==> k in m.Keys && k !in todo
      invariant forall i, j :: 0 <= i < j < |ks| ==> ks[i] != ks[j]
      invariant xs == ValuesIn(m, ks)
      decreases todo
    {
      var k :| k in todo;
      xs, ks, todo := xs + [m[k]], ks + [k], todo - {k};
    }
  }

  /** A Go `for k, v := range originalMap { mergedMap[k] = v }`. */
  method CopyMap<T>(originalMap: map<string, T>) returns (mergedMap: map<string, T>)
    ensures mergedMap == originalMap
  {
    mergedMap := map[];
    var todo := originalMap.Keys;
    while todo != {}
      invariant todo <= originalMap.Keys
      invariant mergedMap == map k | k in originalMap && k !in todo :: originalMap[k]
      decreases todo
    {
      var k :| k in todo;
      mergedMap, todo := mergedMap[k := originalMap[k]], todo - {k};
    }
  }

  /** original overlaid with the part of override whose keys are done; merges says what an element merge gives. */
  ghost predicate Overlaid<T>(merged: map<string, T>, original: map<string, T>, override: map<string, T>,
                              done: set<string>, merges: (T, T, T) -> bool)
  {
    && merged.Keys == original.Keys + override.Keys * done
    && forall k :: k in merged ==>
         if k !in override || k !in done then k in original && merged[k] == original[k]
         else if k !in original then merged[k] == override[k]
         else merges(merged[k], original[k], override[k])
  }

  lemma OverlaidStep<T>(merged: map<string, T>, original: map<string, T>, override: map<string, T>,
                        done: set<string>, merges: (T, T, T) -> bool, k: string, x: T)
    requires Overlaid(merged, original, override, done, merges) && k in override && k !in done
    requires if k in original then merges(x, original[k], override[k]) else x == override[k]
    ensures Overlaid(merged[k := x], original, override, done + {k}, merges)
  {
  }

  /** If each element merge is related to combine, the filled map lists like the overlay up to that relation. */
  lemma OverlaidRelated<T>(merged: map<string, T>, original: map<string, T>, override: map<string, T>,
                           merges: (T, T, T) -> bool, combine: (T, T) -> T, related: (T, T) -> bool)
    requires Overlaid(merged, original, override, override.Keys, merges)
    requires forall k :: k in merged && k in original && k in override ==>
      related(merged[k], combine(original[k], override[k]))
    requires forall k :: k in merged ==> related(merged[k], merged[k])
    ensures merged.Keys == Overlay(original, override, combine).Keys
    ensures forall k :: k in merged ==> related(merged[k], Overlay(original, override, combine)[k])
    ensures var xs, ys := Listing(merged), Listing(Overlay(original, override, combine));
      |xs| == |ys| && forall i :: 0 <= i < |xs| ==> related(xs[i], ys[i])
  {
    ListingRelated(merged, Overlay(original, override, combine), related);
  }

  /** The two `range` loops that fill the merged map, each in an order of the runtime's choice. */
  method OverlayMaps<T>(originalMap: map<string, T>, overrideMap: map<string, T>, combine: (T, T) -> T)
    returns (mergedMap: map<string, T>)
    ensures mergedMap == Overlay(originalMap, overrideMap, combine)
  {
    mergedMap := CopyMap(originalMap);
    ghost var merges := (x: T, o: T, v: T) => x == combine(o, v);
    var todo := overrideMap.Keys;
    while todo != {}
      invariant todo <= overrideMap.Keys
      invariant Overlaid(mergedMap, originalMap, overrideMap, overrideMap.Keys - todo, merges)
      decreases todo
    {
      var k :| k in todo;
      var x := if k in originalMap then combine(originalMap[k], overrideMap[k]) else overrideMap[k];
      OverlaidStep(mergedMap, originalMap, overrideMap, overrideMap.Keys - todo, merges, k, x);
      assert overrideMap.Keys - (todo - {k}) == (overrideMap.Keys - todo) + {k};
      mergedMap, todo := mergedMap[k := x], todo - {k};
    }
  }

  /** Appending straight from the two maps: first the defaults, merged where overridden, then the new keys. */
  method CollectBoth<T>(defaultMap: map<string, T>, overrideMap: map<string, T>, combine: (T, T) -> T)
    returns (merged: seq<T>, ghost order: seq<string>)
    ensures var m := Overlay(defaultMap, overrideMap, combine);
      Visits(order, m.Keys) && merged == ValuesIn(m, order)
  {
    ghost var m := Overlay(defaultMap, overrideMap, combine);
    merged, order := [], [];
    var todo := defaultMap.Keys;
    while todo != {}
      invariant todo <= defaultMap.Keys
      invariant forall k :: k in order <==> k in defaultMap.Keys && k !in todo
      invariant forall i, j :: 0 <= i < j < |order| ==> order[i] != order[j]
      invariant merged == ValuesIn(m, order)
      decreases todo
    {
      var k :| k in todo;
      var x := if k in overrideMap then combine(defaultMap[k], overrideMap[k]) else defaultMap[k];
      merged, order, todo := merged + [x], order + [k], todo - {k};
    }
    todo := overrideMap.Keys;
    while todo != {}
      invariant todo <= overrideMap.Keys
      invariant forall k :: k in order <==> k in defaultMap.Keys || (k in overrideMap.Keys && k !in todo)
      invariant forall i, j :: 0 <= i < j < |order| ==> order[i] != order[j]
      invariant merged == ValuesIn(m, order)
      decreases todo
    {
      var k :| k in todo;
      if k !in defaultMap {
        merged, order := merged + [overrideMap[k]], order + [k];
      }
      todo := todo - {k};
    }
  }

  /**
   The body shared by Envs, VolumeDevices and VolumeMounts. Only when the element merge keeps keys is
   the result independent of the visiting order; otherwise ties are broken by that order.
   */
  method MergeByKey<T>(original: seq<T>, override: seq<T>, key: T -> string, combine: (T, T) -> T)
    returns (merged: seq<T>, ghost order: seq<string>)
    ensures var m := Overlay(LastWins(original, key), LastWins(override, key), combine);
      Visits(order, m.Keys) && merged == StableSort(ValuesIn(m, order), key)
    ensures KeepsKeys(original, override, key, combine) ==> merged == Merged(original, override, key, combine)
  {
    var originalMap := CreateMap(original, key);
    var overrideMap := CreateMap(override, key);
    var mergedMap := OverlayMaps(originalMap, overrideMap, combine);
    merged, order := Collect(mergedMap);
    merged := SliceStable(merged, key);
    if KeepsKeys(original, override, key, combine) {
      VisitOrderIrrelevant(mergedMap, order, key);
    }
  }
}
