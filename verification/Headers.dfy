/** Ordered dictionaries of headers: treq_MergeDicts(), treq_OptionListMergeDicts()
    and the layering of session and request headers. Header names are compared
    without regard to the case of ASCII letters (section 5.1 of RFC 9110). */
module Headers {
  import opened Common
  import opened Dictionary

  type Dict = seq<Entry<string>>

  /** curl_strequal() */
  predicate SameName(a: string, b: string) {
    LowerAll(a) == LowerAll(b)
  }

  /** The same character, or the two cases of one letter. */
  predicate SameLetter(c: char, d: char) {
    c == d || UpperAndLower(c, d) || UpperAndLower(d, c)
  }

  lemma SameLetterIff(c: char, d: char)
    ensures Lower(c) == Lower(d) <==> SameLetter(c, d)
  {
    CapitalIff(c, d);
    CapitalIff(d, c);
  }

  /** Two names are the same when they agree up to the case of the letters A to Z. */
  lemma SameNameIff(a: string, b: string)
    ensures SameName(a, b) <==> |a| == |b| && forall i :: 0 <= i < |a| ==> SameLetter(a[i], b[i])
  {
    forall c, d ensures Lower(c) == Lower(d) <==> SameLetter(c, d) { SameLetterIff(c, d); }
    if LowerAll(a) == LowerAll(b) {
      assert forall i :: 0 <= i < |a| ==> LowerAll(a)[i] == LowerAll(b)[i];
    }
  }

  /** Some entry has this name. */
  predicate Named(d: Dict, k: string) {
    exists i :: 0 <= i < |d| && SameName(d[i].key, k)
  }

  /** What a set of headers should guarantee. */
  ghost predicate NamesDistinct(d: Dict) {
    forall i, j :: 0 <= i < j < |d| ==> !SameName(d[i].key, d[j].key)
  }

  // ------------------------------------------------------------------ merging

  /** The index of the first entry with this name, or the length. */
  function FirstNamed(d: Dict, k: string): (i: nat)
    ensures i <= |d| && (i < |d| ==> SameName(d[i].key, k))
    ensures forall j :: 0 <= j < i ==> !SameName(d[j].key, k)
  {
    if d == [] then 0
    else if SameName(d[0].key, k) then 0
    else 1 + FirstNamed(d[1..], k)
  }

  /** One turn of the merge: a duplicate name is removed, then the entry is put. */
  function MergeEntry(d: Dict, e: Entry<string>): Dict {
    var i := FirstNamed(d, e.key);
    Put(if i < |d| then Remove(d, d[i].key) else d, e)
  }

  function MergeLoop(d: Dict, es: Dict): Dict {
    if es == [] then d else MergeEntry(MergeLoop(d, es[..|es| - 1]), es[|es| - 1])
  }

  /** The inner search of the merge. */
  method FindName(dict: Dict, k: string) returns (i: nat)
    ensures i == FirstNamed(dict, k)
  {
    i := 0;
    while i < |dict| && !SameName(dict[i].key, k)
      invariant 0 <= i <= |dict|
      invariant forall j :: 0 <= j < i ==> !SameName(dict[j].key, k)
    {
      i := i + 1;
    }
  }

  /** treq_MergeDicts() */
  method MergeDicts(dict1: Option<Dict>, dict2: Dict, caseInsensitive: bool) returns (dict: Dict)
    requires dict1.Some? ==> KeysDistinct(dict1.value)
    ensures caseInsensitive ==> dict == MergeLoop(if dict1.None? then [] else dict1.value, dict2)
    ensures !caseInsensitive ==> dict == PutAll(if dict1.None? then [] else dict1.value, dict2)
    ensures KeysDistinct(dict)
  {
    hide Put, Remove, FirstNamed, SameName;
    ghost var start := if dict1.None? then [] else dict1.value;
    dict := if dict1.None? then [] else dict1.value;
    var n := 0;
    while n < |dict2|
      invariant 0 <= n <= |dict2| && KeysDistinct(dict)
      invariant caseInsensitive ==> dict == MergeLoop(start, dict2[..n])
      invariant !caseInsensitive ==> PutAll(dict, dict2[n..]) == PutAll(start, dict2)
    {
      var e := dict2[n];
      MergeLoopNext(start, dict2, n);
      PutAllNext(dict, dict2, n);
      hide MergeLoop, PutAll;
      if caseInsensitive {
        var i := FindName(dict, e.key);
        if i < |dict| {
          RemoveKeys(dict, dict[i].key);
          dict := Remove(dict, dict[i].key);
        }
      }
      PutKeys(dict, e);
      dict := Put(dict, e);
      n := n + 1;
    }
    assert dict2[..|dict2|] == dict2;
  }

  lemma MergeLoopNext(d: Dict, es: Dict, n: nat)
    requires n < |es|
    ensures MergeLoop(d, es[..n + 1]) == MergeEntry(MergeLoop(d, es[..n]), es[n])
  {
    assert es[..n + 1][..n] == es[..n];
  }

  // --------------------------------------------------------------- the closed form

  /** The entries with any other name, in order. */
  function Without(d: Dict, k: string): Dict {
    if d == [] then []
    else (if SameName(d[0].key, k) then [] else [d[0]]) + Without(d[1..], k)
  }

  /** The entries whose name the other dictionary does not have, in order. */
  function NotOverridden(d: Dict, over: Dict): Dict {
    if d == [] then []
    else (if Named(over, d[0].key) then [] else [d[0]]) + NotOverridden(d[1..], over)
  }

  /** The last entry of each name, in order. */
  function LastOfEach(d: Dict): Dict {
    if d == [] then []
    else (if Named(d[1..], d[0].key) then [] else [d[0]]) + LastOfEach(d[1..])
  }

  /** The merge in closed form. */
  function Merged(d1: Dict, d2: Dict): Dict {
    NotOverridden(d1, d2) + LastOfEach(d2)
  }

  lemma NamedAppend(a: Dict, b: Dict, k: string)
    ensures Named(a + b, k) <==> Named(a, k) || Named(b, k)
  {
    if Named(a, k) {
      var i :| 0 <= i < |a| && SameName(a[i].key, k);
      assert (a + b)[i] == a[i];
    }
    if Named(b, k) {
      var i :| 0 <= i < |b| && SameName(b[i].key, k);
      assert (a + b)[|a| + i] == b[i];
    }
  }

  lemma NamedHead(d: Dict, k: string)
    requires d != []
    ensures Named(d, k) <==> SameName(d[0].key, k) || Named(d[1..], k)
  {
    assert d == [d[0]] + d[1..];
    NamedAppend([d[0]], d[1..], k);
    assert Named([d[0]], k) <==> SameName([d[0]][0].key, k);
  }

  lemma {:induction false} WithoutAppend(a: Dict, b: Dict, k: string)
    ensures Without(a + b, k) == Without(a, k) + Without(b, k)
  {
    if a == [] {
      assert a + b == b;
    } else {
      assert (a + b)[1..] == a[1..] + b;
      WithoutAppend(a[1..], b, k);
    }
  }

  lemma {:induction false} NotOverriddenNext(d: Dict, over: Dict, e: Entry<string>)
    ensures NotOverridden(d, over + [e]) == Without(NotOverridden(d, over), e.key)
  {
    if d != [] {
      NotOverriddenNext(d[1..], over, e);
      NamedAppend(over, [e], d[0].key);
      NamedHead([e], d[0].key);
      var h := if Named(over, d[0].key) then [] else [d[0]];
      WithoutAppend(h, NotOverridden(d[1..], over), e.key);
    }
  }

  lemma {:induction false} LastOfEachNext(d: Dict, e: Entry<string>)
    ensures LastOfEach(d + [e]) == Without(LastOfEach(d), e.key) + [e]
  {
    if d == [] {
      assert d + [e] == [e];
    } else {
      assert (d + [e])[1..] == d[1..] + [e];
      LastOfEachNext(d[1..], e);
      NamedAppend(d[1..], [e], d[0].key);
      NamedHead([e], d[0].key);
      var h := if Named(d[1..], d[0].key) then [] else [d[0]];
      WithoutAppend(h, LastOfEach(d[1..]), e.key);
    }
  }

  lemma MergedNext(d1: Dict, d2: Dict, e: Entry<string>)
    ensures Merged(d1, d2 + [e]) == Without(Merged(d1, d2), e.key) + [e]
  {
    NotOverriddenNext(d1, d2, e);
    LastOfEachNext(d2, e);
    WithoutAppend(NotOverridden(d1, d2), LastOfEach(d2), e.key);
  }

  lemma {:induction false} WithoutSub(d: Dict, k: string)
    ensures forall x :: x in Without(d, k) <==> x in d && !SameName(x.key, k)
    ensures NamesDistinct(d) ==> NamesDistinct(Without(d, k))
    ensures |Without(d, k)| <= |d|
  {
    hide SameName;
    if d != [] {
      assert d == [d[0]] + d[1..];
      WithoutSub(d[1..], k);
      assert forall x :: x in d <==> x == d[0] || x in d[1..];
      if NamesDistinct(d) {
        assert forall x :: x in d[1..] ==> !SameName(d[0].key, x.key);
        var r := [d[0]] + Without(d[1..], k);
        forall i, j | 0 <= i < j < |r| ensures !SameName(r[i].key, r[j].key) {
          assert r[j] in Without(d[1..], k);
        }
      }
    }
  }

  lemma {:induction false} RemoveIsWithout(d: Dict, k: string)
    requires NamesDistinct(d)
    ensures var i := FirstNamed(d, k);
            (if i < |d| then Remove(d, d[i].key) else d) == Without(d, k)
  {
    if d == [] {
    } else if SameName(d[0].key, k) {
      WithoutNone(d[1..], k);
    } else {
      RemoveIsWithout(d[1..], k);
      var i := FirstNamed(d[1..], k);
      if i < |d[1..]| { assert d[i + 1].key != d[0].key; }
    }
  }

  lemma {:induction false} WithoutNone(d: Dict, k: string)
    requires forall i :: 0 <= i < |d| ==> !SameName(d[i].key, k)
    ensures Without(d, k) == d
  {
    if d != [] { WithoutNone(d[1..], k); }
  }

  lemma MergeEntryAppends(d: Dict, e: Entry<string>)
    requires NamesDistinct(d)
    ensures MergeEntry(d, e) == Without(d, e.key) + [e]
  {
    RemoveIsWithout(d, e.key);
    WithoutSub(d, e.key);
    var w := Without(d, e.key);
    hide Without, NamesDistinct;
    assert !HasKey(w, e.key) by {
      assert forall i :: 0 <= i < |w| ==> w[i] in w;
    }
    PutNew(w, e);
  }

  /** On distinct names one turn of the merge drops the name and appends the entry. */
  lemma MergeEntryClosed(d: Dict, e: Entry<string>)
    requires NamesDistinct(d)
    ensures MergeEntry(d, e) == Without(d, e.key) + [e]
    ensures NamesDistinct(MergeEntry(d, e))
  {
    hide Without, MergeEntry;
    WithoutSub(d, e.key);
    var w := Without(d, e.key);
    MergeEntryAppends(d, e);
    var r := w + [e];
    forall i, j | 0 <= i < j < |r| ensures !SameName(r[i].key, r[j].key) {
      assert r[i] in w;
    }
  }

  /** The merge is its closed form: first the entries of the first dictionary that
      are not overridden, then the last entry of each name of the second. No two
      names of the result are equal. */
  lemma {:induction false} MergeClosed(d1: Dict, d2: Dict)
    requires NamesDistinct(d1)
    ensures MergeLoop(d1, d2) == Merged(d1, d2)
    ensures NamesDistinct(Merged(d1, d2))
  {
    if d2 == [] {
      NotOverriddenNone(d1);
    } else {
      var init, e := d2[..|d2| - 1], d2[|d2| - 1];
      MergeClosed(d1, init);
      MergeEntryClosed(Merged(d1, init), e);
      MergedNext(d1, init, e);
      assert d2 == init + [e];
    }
  }

  lemma {:induction false} NotOverriddenNone(d: Dict)
    ensures NotOverridden(d, []) == d
  {
    if d != [] { NotOverriddenNone(d[1..]); }
  }

  /** The closed form describes every merge into a dictionary exactly when its own
      names are distinct, as every session's are. */
  lemma MergeClosedIff(d1: Dict)
    requires KeysDistinct(d1)
    ensures (forall d2 :: MergeLoop(d1, d2) == Merged(d1, d2)) <==> NamesDistinct(d1)
  {
    if NamesDistinct(d1) {
      forall d2 ensures MergeLoop(d1, d2) == Merged(d1, d2) { MergeClosed(d1, d2); }
    } else {
      var i, j :| 0 <= i < j < |d1| && SameName(d1[i].key, d1[j].key);
      var first := FirstNamed(d1, d1[i].key);
      var e := Entry(d1[first].key, "");
      OneMergeSize(d1, e, first);
      MergedOne(d1, e);
      WithoutDropsTwo(d1, e.key, first, j);
      assert |MergeLoop(d1, [e])| != |Merged(d1, [e])|;
    }
  }

  lemma MergedOne(d1: Dict, e: Entry<string>)
    ensures Merged(d1, [e]) == Without(d1, e.key) + [e]
  {
    NotOverriddenNone(d1);
    assert Merged(d1, []) == d1;
    MergedNext(d1, [], e);
    assert [] + [e] == [e];
  }

  lemma {:induction false} WithoutDropsTwo(d: Dict, k: string, i: nat, j: nat)
    requires i < j < |d| && SameName(d[i].key, k) && SameName(d[j].key, k)
    ensures |Without(d, k)| <= |d| - 2
  {
    if i == 0 {
      WithoutDropsOne(d[1..], k, j - 1);
    } else {
      WithoutDropsTwo(d[1..], k, i - 1, j - 1);
    }
  }

  lemma {:induction false} WithoutDropsOne(d: Dict, k: string, j: nat)
    requires j < |d| && SameName(d[j].key, k)
    ensures |Without(d, k)| <= |d| - 1
  {
    if j == 0 { WithoutSub(d[1..], k); } else { WithoutDropsOne(d[1..], k, j - 1); }
  }

  lemma OneMergeSize(d1: Dict, e: Entry<string>, first: nat)
    requires first < |d1| && KeysDistinct(d1) && d1[first].key == e.key && FirstNamed(d1, e.key) == first
    ensures |MergeLoop(d1, [e])| >= |d1|
  {
    assert [e][..0] == [];
    assert MergeLoop(d1, [e]) == MergeEntry(d1, e);
    RemoveSize(d1, e.key);
    var r := Remove(d1, e.key);
    PutSize(r, e);
    RemoveKeys(d1, e.key);
    assert !HasKey(r, e.key) by {
      assert forall i :: 0 <= i < |r| ==> r[i] in r;
    }
  }

  // -------------------------------------------------------------- laws of the merge

  lemma {:induction false} LastOfEachNames(d: Dict, k: string)
    ensures Named(LastOfEach(d), k) <==> Named(d, k)
  {
    if d != [] {
      LastOfEachNames(d[1..], k);
      NamedHead(d, k);
      var h := if Named(d[1..], d[0].key) then [] else [d[0]];
      NamedAppend(h, LastOfEach(d[1..]), k);
      if h != [] { NamedHead(h, k); }
      if Named(d[1..], d[0].key) && SameName(d[0].key, k) {
        var i :| 0 <= i < |d[1..]| && SameName(d[1..][i].key, d[0].key);
        assert SameName(d[1..][i].key, k);
      }
    }
  }

  lemma {:induction false} NotOverriddenBySame(d: Dict, a: Dict, b: Dict)
    requires forall k :: Named(a, k) <==> Named(b, k)
    ensures NotOverridden(d, a) == NotOverridden(d, b)
  {
    if d != [] { NotOverriddenBySame(d[1..], a, b); }
  }

  lemma {:induction false} NotOverriddenAppend(a: Dict, b: Dict, over: Dict)
    ensures NotOverridden(a + b, over) == NotOverridden(a, over) + NotOverridden(b, over)
  {
    if a == [] {
      assert a + b == b;
    } else {
      assert (a + b)[1..] == a[1..] + b;
      NotOverriddenAppend(a[1..], b, over);
    }
  }

  lemma NotOverriddenOne(e: Entry<string>, over: Dict)
    ensures NotOverridden([e], over) == if Named(over, e.key) then [] else [e]
  {
    assert [e][1..] == [];
  }

  lemma {:induction false} NotOverriddenTwice(d: Dict, a: Dict, b: Dict)
    ensures NotOverridden(NotOverridden(d, a), b) == NotOverridden(d, a + b)
  {
    if d != [] {
      NotOverriddenTwice(d[1..], a, b);
      NamedAppend(a, b, d[0].key);
      var h := if Named(a, d[0].key) then [] else [d[0]];
      NotOverriddenAppend(h, NotOverridden(d[1..], a), b);
      NotOverriddenOne(d[0], b);
    }
  }

  lemma {:induction false} NotOverriddenAll(d: Dict, over: Dict)
    requires forall i :: 0 <= i < |d| ==> Named(over, d[i].key)
    ensures NotOverridden(d, over) == []
  {
    if d != [] { NotOverriddenAll(d[1..], over); }
  }

  lemma {:induction false} LastOfEachDistinct(d: Dict)
    requires NamesDistinct(d)
    ensures LastOfEach(d) == d
  {
    if d != [] {
      assert forall i :: 0 <= i < |d[1..]| ==> d[1..][i] == d[i + 1];
      LastOfEachDistinct(d[1..]);
    }
  }

  lemma {:induction false} FilteredNames(d: Dict, over: Dict, k: string)
    ensures Named(NotOverridden(d, over), k) <==> Named(d, k) && !Named(over, k)
  {
    if d != [] {
      FilteredNames(d[1..], over, k);
      NamedHead(d, k);
      var h := if Named(over, d[0].key) then [] else [d[0]];
      NamedAppend(h, NotOverridden(d[1..], over), k);
      if h != [] { NamedHead(h, k); }
      if SameName(d[0].key, k) { SameNameNamed(over, d[0].key, k); }
    }
  }

  lemma SameNameNamed(d: Dict, a: string, b: string)
    requires SameName(a, b)
    ensures Named(d, a) <==> Named(d, b)
  {
    if Named(d, a) {
      var i :| 0 <= i < |d| && SameName(d[i].key, a);
      assert SameName(d[i].key, b);
    }
    if Named(d, b) {
      var i :| 0 <= i < |d| && SameName(d[i].key, b);
      assert SameName(d[i].key, a);
    }
  }

  lemma MergedNames(a: Dict, b: Dict, k: string)
    ensures Named(Merged(a, b), k) <==> Named(a, k) || Named(b, k)
  {
    NamedAppend(NotOverridden(a, b), LastOfEach(b), k);
    FilteredNames(a, b, k);
    LastOfEachNames(b, k);
  }

  lemma MergedTwice(a: Dict, b: Dict)
    ensures Merged(Merged(a, b), b) == Merged(a, b)
  {
    NotOverriddenAppend(NotOverridden(a, b), LastOfEach(b), b);
    NotOverriddenTwice(a, b, b);
    forall k ensures Named(b + b, k) <==> Named(b, k) { NamedAppend(b, b, k); }
    NotOverriddenBySame(a, b + b, b);
    forall i | 0 <= i < |LastOfEach(b)| ensures Named(b, LastOfEach(b)[i].key) {
      var last := LastOfEach(b);
      assert SameName(last[i].key, last[i].key);
      LastOfEachNames(b, last[i].key);
    }
    NotOverriddenAll(LastOfEach(b), b);
    assert NotOverridden(a, b) + [] == NotOverridden(a, b);
  }

  /** Merging the same dictionary twice is merging it once. */
  lemma MergeIdempotent(a: Dict, b: Dict)
    requires NamesDistinct(a)
    ensures MergeLoop(MergeLoop(a, b), b) == MergeLoop(a, b)
  {
    hide Merged, MergeLoop;
    MergeClosed(a, b);
    MergeClosed(Merged(a, b), b);
    MergedTwice(a, b);
  }

  lemma MergedLeft(a: Dict, b: Dict, c: Dict)
    ensures Merged(Merged(a, b), c) == NotOverridden(a, b + c) + NotOverridden(LastOfEach(b), c) + LastOfEach(c)
  {
    NotOverriddenAppend(NotOverridden(a, b), LastOfEach(b), c);
    NotOverriddenTwice(a, b, c);
  }

  lemma MergedSameNames(a: Dict, b: Dict, c: Dict)
    ensures NotOverridden(a, b + c) == NotOverridden(a, Merged(b, c))
  {
    var bc := Merged(b, c);
    forall k ensures Named(b + c, k) <==> Named(bc, k) {
      NamedAppend(b, c, k);
      MergedNames(b, c, k);
    }
    NotOverriddenBySame(a, b + c, bc);
  }

  lemma MergedRight(a: Dict, b: Dict, c: Dict)
    requires NamesDistinct(b) && NamesDistinct(Merged(b, c))
    ensures Merged(a, Merged(b, c)) == NotOverridden(a, Merged(b, c)) + (NotOverridden(b, c) + LastOfEach(c))
    ensures LastOfEach(b) == b
  {
    LastOfEachDistinct(b);
    LastOfEachDistinct(Merged(b, c));
  }

  lemma MergedAssociative(a: Dict, b: Dict, c: Dict)
    requires NamesDistinct(b) && NamesDistinct(Merged(b, c))
    ensures Merged(Merged(a, b), c) == Merged(a, Merged(b, c))
  {
    hide Merged, NotOverridden, LastOfEach, NamesDistinct;
    MergedLeft(a, b, c);
    MergedSameNames(a, b, c);
    MergedRight(a, b, c);
    AppendAssociative(NotOverridden(a, Merged(b, c)), NotOverridden(b, c), LastOfEach(c));
  }

  lemma AppendAssociative(x: Dict, y: Dict, z: Dict)
    ensures (x + y) + z == x + (y + z)
  {}

  /** Layering is associative: defaults under session headers under request headers
      come out the same whichever two are merged first. */
  lemma MergeAssociative(a: Dict, b: Dict, c: Dict)
    requires NamesDistinct(a) && NamesDistinct(b)
    ensures MergeLoop(MergeLoop(a, b), c) == MergeLoop(a, MergeLoop(b, c))
  {
    hide Merged, MergeLoop;
    MergeClosed(a, b);
    MergeClosed(Merged(a, b), c);
    MergeClosed(b, c);
    MergeClosed(a, Merged(b, c));
    MergedAssociative(a, b, c);
  }

  // -------------------------------------------------------------------- looking up

  /** The last entry with this name. */
  function LastNamed(d: Dict, k: string): Option<Entry<string>> {
    if d == [] then None
    else if SameName(d[|d| - 1].key, k) then Some(d[|d| - 1])
    else LastNamed(d[..|d| - 1], k)
  }

  lemma {:induction false} LastNamedAppend(a: Dict, b: Dict, k: string)
    ensures LastNamed(a + b, k) == if Named(b, k) then LastNamed(b, k) else LastNamed(a, k)
  {
    if b == [] {
      assert a + b == a;
    } else {
      var bi, e := b[..|b| - 1], b[|b| - 1];
      assert (a + b)[..|a + b| - 1] == a + bi;
      assert b == bi + [e];
      LastNamedAppend(a, bi, k);
      NamedAppend(bi, [e], k);
      NamedHead([e], k);
    }
  }

  lemma LastNamedSome(d: Dict, k: string)
    ensures LastNamed(d, k).Some? <==> Named(d, k)
  {
    if d != [] {
      var di, e := d[..|d| - 1], d[|d| - 1];
      assert d == di + [e];
      NamedAppend(di, [e], k);
      NamedHead([e], k);
      LastNamedSome(di, k);
    }
  }

  lemma {:induction false} LastNamedWithout(d: Dict, j: string, k: string)
    ensures LastNamed(Without(d, j), k) == if SameName(j, k) then None else LastNamed(d, k)
  {
    if d != [] {
      var di, e := d[..|d| - 1], d[|d| - 1];
      assert d == di + [e];
      WithoutAppend(di, [e], j);
      LastNamedWithout(di, j, k);
      assert Without([e], j) == if SameName(e.key, j) then [] else [e] by { assert [e][1..] == []; }
      var w := Without(di, j);
      assert w + [] == w && (w + [e])[..|w|] == w;
    }
  }

  /** The value in force under a name: the second dictionary's last entry for it,
      or else the first dictionary's. */
  lemma {:induction false} MergedLookup(a: Dict, b: Dict, k: string)
    ensures LastNamed(Merged(a, b), k) == if Named(b, k) then LastNamed(b, k) else LastNamed(a, k)
  {
    if b == [] {
      NotOverriddenNone(a);
      assert Merged(a, b) == a;
    } else {
      var bi, e := b[..|b| - 1], b[|b| - 1];
      assert b == bi + [e];
      MergedLookup(a, bi, k);
      MergedNext(a, bi, e);
      LastNamedWithout(Merged(a, bi), e.key, k);
      var w := Without(Merged(a, bi), e.key);
      assert (w + [e])[..|w|] == w;
      NamedAppend(bi, [e], k);
      NamedHead([e], k);
    }
  }

  // ---------------------------------------------------- repeated header options

  datatype ListOption = Refused | Empty | Given(dict: Dict)

  /** All entries of the dictionaries, in order. */
  function Flat(objv: seq<Dict>): Dict {
    if objv == [] then [] else objv[0] + Flat(objv[1..])
  }

  /** The dictionaries given first come first. */
  lemma {:induction false} FlatAppend(a: seq<Dict>, b: seq<Dict>)
    ensures Flat(a + b) == Flat(a) + Flat(b)
    ensures |a| == 1 ==> Flat(a) == a[0]
  {
    if a == [] {
      assert a + b == b;
    } else {
      assert (a + b)[1..] == a[1..] + b;
      FlatAppend(a[1..], b);
    }
  }

  /** The inner loop of treq_OptionListMergeDicts(). */
  method PutEntries(d: Dict, es: Dict) returns (r: Dict)
    ensures r == PutAll(d, es)
  {
    hide Put;
    r := d;
    var n := 0;
    while n < |es|
      invariant 0 <= n <= |es|
      invariant PutAll(r, es[n..]) == PutAll(d, es)
    {
      assert es[n..][1..] == es[n + 1..];
      r := Put(r, es[n]);
      n := n + 1;
    }
  }

  /** treq_OptionListMergeDicts(): an option given several times is one dictionary
      with everything put into it in order. None stands for a text that is no dictionary. */
  method MergeOptionList(objv: seq<Option<Dict>>) returns (r: ListOption)
    requires objv != []
    requires forall i :: 0 <= i < |objv| && objv[i].Some? ==> KeysDistinct(objv[i].value)
    ensures r.Refused? <==> exists i :: 0 <= i < |objv| && objv[i].None?
    ensures !r.Refused? ==>
              var dicts := seq(|objv|, i requires 0 <= i < |objv| => if objv[i].Some? then objv[i].value else []);
              var all := PutAll([], Flat(dicts));
              r == if all == [] then Empty else Given(all)
  {
    hide Put, PutAll, Flat, KeysDistinct;
    ghost var ds := seq(|objv|, i requires 0 <= i < |objv| => if objv[i].Some? then objv[i].value else []);
    if objv[0].None? {
      return Refused;
    }
    var result := objv[0].value;
    FirstDict(ds);
    if |objv| < 2 {
      assert ds[..1] == ds;
      return if result == [] then Empty else Given(result);
    }
    var i := 1;
    while i < |objv|
      invariant 1 <= i <= |objv|
      invariant forall j :: 0 <= j < i ==> objv[j].Some?
      invariant result == PutAll([], Flat(ds[..i]))
    {
      if objv[i].None? {
        return Refused;
      }
      FlatNext(ds, i);
      PutAllAppend([], Flat(ds[..i]), ds[i]);
      result := PutEntries(result, objv[i].value);
      i := i + 1;
    }
    assert ds[..|ds|] == ds;
    r := if result == [] then Empty else Given(result);
  }

  lemma FirstDict(ds: seq<Dict>)
    requires ds != [] && KeysDistinct(ds[0])
    ensures PutAll([], Flat(ds[..1])) == ds[0]
  {
    assert ds[..1] == [ds[0]];
    FlatAppend([ds[0]], []);
    hide Flat, KeysDistinct, PutAll;
    assert [] + ds[0] == ds[0];
    PutAllNew([], ds[0]);
  }

  lemma FlatNext(ds: seq<Dict>, i: nat)
    requires i < |ds|
    ensures Flat(ds[..i + 1]) == Flat(ds[..i]) + ds[i]
  {
    FlatAppend(ds[..i], [ds[i]]);
    FlatAppend([ds[i]], []);
    assert ds[..i + 1] == ds[..i] + [ds[i]];
  }

  // ------------------------------------------------------------- the layering

  /** The headers of a session: treq_SessionCmd(). */
  method SessionHeaders(option: ListOption) returns (headers: Option<Dict>)
    requires !option.Refused? && (option.Given? ==> KeysDistinct(option.dict))
    ensures headers == if option.Given? then Some(LastOfEach(option.dict)) else None
    ensures headers.Some? ==> NamesDistinct(headers.value) && KeysDistinct(headers.value)
  {
    headers := None;
    if option.Given? {
      var d := MergeDicts(None, option.dict, true);
      MergeClosed([], option.dict);
      assert Merged([], option.dict) == LastOfEach(option.dict);
      headers := Some(d);
    }
  }

  /** The headers of a request: treq_CreateNewRequest(). */
  method RequestHeaders(session: Option<Dict>, option: ListOption) returns (headers: Option<Dict>)
    requires session.Some? ==> NamesDistinct(session.value) && KeysDistinct(session.value)
    requires !option.Refused? && (option.Given? ==> KeysDistinct(option.dict))
    ensures headers.Some? <==> session.Some? || option.Given?
    ensures headers.Some? ==> NamesDistinct(headers.value)
    ensures headers.Some? ==>
              headers.value ==
                  Merged(if session.Some? then session.value else [], if option.Given? then option.dict else [])
  {
    if option.Given? {
      var d := MergeDicts(session, option.dict, true);
      MergeClosed(if session.None? then [] else session.value, option.dict);
      headers := Some(d);
    } else {
      headers := session;
      if session.Some? {
        NotOverriddenNone(session.value);
        assert Merged(session.value, []) == session.value;
      }
    }
  }

  // ---------------------------------------------------- does the last option win?

  /** The spelling of the name that came up last for the first time. */
  function NewestSpelling(es: Dict, k: string): Option<string> {
    if es == [] then None
    else
      var init, e := es[..|es| - 1], es[|es| - 1];
      if SameName(e.key, k) && !HasKey(init, e.key) then Some(e.key) else NewestSpelling(init, k)
  }

  /** Putting an existing key changes its value where it stands. */
  lemma {:induction false} PutInPlace(d: Dict, e: Entry<string>, k: string)
    requires HasKey(d, e.key) && KeysDistinct(d)
    ensures var w := LastNamed(d, k);
            LastNamed(Put(d, e), k) == if w.Some? && w.value.key == e.key then Some(e) else w
  {
    HasKeyTail(d, e.key);
    var t := d[1..];
    assert d == [d[0]] + t;
    LastNamedAppend([d[0]], t, k);
    LastNamedOne(d[0], k);
    LastNamedSome(t, k);
    LastNamedFrom(t, k);
    if d[0].key == e.key {
      LastNamedAppend([e], t, k);
      LastNamedOne(e, k);
      assert forall x :: x in t ==> x.key != e.key;
    } else {
      PutInPlace(t, e, k);
      LastNamedAppend([d[0]], Put(t, e), k);
      LastNamedSome(Put(t, e), k);
    }
  }

  lemma LastNamedOne(e: Entry<string>, k: string)
    ensures LastNamed([e], k) == if SameName(e.key, k) then Some(e) else None
  {
    assert [e][..0] == [];
  }

  lemma {:induction false} LastNamedFrom(d: Dict, k: string)
    ensures LastNamed(d, k).Some? ==> LastNamed(d, k).value in d && SameName(LastNamed(d, k).value.key, k)
  {
    if d != [] && !SameName(d[|d| - 1].key, k) { LastNamedFrom(d[..|d| - 1], k); }
  }

  lemma {:induction false} SurvivorIsNewest(es: Dict, k: string)
    ensures var w := LastNamed(PutAll([], es), k);
            if w.None? then NewestSpelling(es, k).None? else NewestSpelling(es, k) == Some(w.value.key)
    decreases |es|
  {
    if es == [] {
    } else {
      var init, e := es[..|es| - 1], es[|es| - 1];
      var d := PutAll([], init);
      PutAllSnoc(es);
      SurvivorIsNewest(init, k);
      PutAllHasKey(init, e.key);
      PutAllDistinct(init);
      LastNamedPut(d, e, k);
      hide PutAll, Put, HasKey, KeysDistinct, LastNamed, SameName;
    }
  }

  lemma LastNamedPut(d: Dict, e: Entry<string>, k: string)
    requires KeysDistinct(d)
    ensures var w := LastNamed(d, k);
            LastNamed(Put(d, e), k) ==
            if HasKey(d, e.key) then (if w.Some? && w.value.key == e.key then Some(e) else w)
            else if SameName(e.key, k) then Some(e) else w
  {
    if HasKey(d, e.key) {
      PutInPlace(d, e, k);
    } else {
      PutNew(d, e);
      assert (d + [e])[..|d|] == d;
    }
  }

  /** When header options repeat a name, the header that is sent is the one given
      last exactly when its spelling is the one that came up last for the first time:
      within the option list names are still compared with their case, and an
      existing key keeps its place. */
  lemma LastOptionWinsIff(es: Dict, k: string)
    requires es != [] && SameName(es[|es| - 1].key, k)
    ensures LastNamed(Merged([], PutAll([], es)), k) == Some(es[|es| - 1]) <==>
            NewestSpelling(es, k) == Some(es[|es| - 1].key)
  {
    var init, e := es[..|es| - 1], es[|es| - 1];
    var d, all := PutAll([], init), PutAll([], es);
    MergedLookup([], all, k);
    LastNamedSome(all, k);
    SurvivorIsNewest(es, k);
    PutAllSnoc(es);
    PutAllHasKey(init, e.key);
    PutAllDistinct(init);
    LastNamedPut(d, e, k);
  }

  /** An input at which the last option loses: `A: 1`, `a: 2`, `A: 3` is sent as `a: 2`. */
  lemma LastOptionCanLose()
    ensures var es := [Entry("A", "1"), Entry("a", "2"), Entry("A", "3")];
            Merged([], PutAll([], es)) == [Entry("a", "2")]
  {
    var a1, a2, a3: Entry<string> := Entry("A", "1"), Entry("a", "2"), Entry("A", "3");
    assert [a1, a2, a3][1..] == [a2, a3] && [a2, a3][1..] == [a3] && [a3][1..] == [];
    assert Put([], a1) == [a1];
    assert Put([a1], a2) == [a1, a2] by { assert [a1][1..] == []; }
    assert Put([a1, a2], a3) == [a3, a2] by { assert [a1, a2][1..] == [a2]; }
    assert PutAll([], [a1, a2, a3]) == PutAll([a1], [a2, a3]) == PutAll([a1, a2], [a3]) == PutAll([a3, a2], []);
    assert SameName("a", "A") && Named([a2], "A") by { assert [a2][0].key == "a"; }
    assert [a3, a2][1..] == [a2] && [a2][1..] == [];
    assert LastOfEach([a2]) == [a2];
    assert LastOfEach([a3, a2]) == [a2];
  }
}
