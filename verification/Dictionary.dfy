/** Tcl's dictionaries: entries in order of first insertion, keys distinct. */
module Dictionary {

  datatype Entry<V> = Entry(key: string, value: V)

  predicate HasKey<V>(d: seq<Entry<V>>, k: string) {
    exists i :: 0 <= i < |d| && d[i].key == k
  }

  predicate KeysDistinct<V>(d: seq<Entry<V>>) {
    forall i, j :: 0 <= i < j < |d| ==> d[i].key != d[j].key
  }

  /** Tcl_DictObjPut(): an existing key keeps its place. */
  function Put<V>(d: seq<Entry<V>>, e: Entry<V>): seq<Entry<V>> {
    if d == [] then [e]
    else if d[0].key == e.key then [e] + d[1..]
    else [d[0]] + Put(d[1..], e)
  }

  /** Tcl_DictObjRemove() */
  function Remove<V>(d: seq<Entry<V>>, k: string): seq<Entry<V>> {
    if d == [] then []
    else if d[0].key == k then d[1..]
    else [d[0]] + Remove(d[1..], k)
  }

  function PutAll<V>(d: seq<Entry<V>>, es: seq<Entry<V>>): seq<Entry<V>>
    decreases |es|
  {
    if es == [] then d else PutAll(Put(d, es[0]), es[1..])
  }

  lemma {:induction false} RemoveMembers<V>(d: seq<Entry<V>>, k: string, x: Entry<V>)
    requires KeysDistinct(d)
    ensures x in Remove(d, k) <==> x in d && x.key != k
  {
    if d != [] {
      assert d == [d[0]] + d[1..];
      RemoveMembers(d[1..], k, x);
      if d[0].key == k && x in d[1..] {
        var i :| 0 <= i < |d[1..]| && d[1..][i] == x;
        assert d[i + 1] == x;
      }
    }
  }

  lemma {:induction false} RemoveKeys<V>(d: seq<Entry<V>>, k: string)
    requires KeysDistinct(d)
    ensures KeysDistinct(Remove(d, k)) && !HasKey(Remove(d, k), k)
  {
    if d != [] {
      RemoveKeys(d[1..], k);
      if d[0].key == k {
        assert forall i :: 0 <= i < |d[1..]| ==> d[1..][i] == d[i + 1];
      } else {
        var r := Remove(d[1..], k);
        var q := [d[0]] + r;
        HasKeyTail(q, k);
        forall i, j | 0 <= i < j < |q| ensures q[i].key != q[j].key {
          var x := r[j - 1];
          assert x in r;
          RemoveMembers(d[1..], k, x);
          var m :| 0 <= m < |d[1..]| && d[1..][m] == x;
          assert d[m + 1] == x;
          if i > 0 { assert q[i] == r[i - 1]; }
        }
      }
    }
  }

  lemma {:induction false} PutKeys<V>(d: seq<Entry<V>>, e: Entry<V>)
    requires KeysDistinct(d)
    ensures KeysDistinct(Put(d, e))
    ensures forall x :: x in Put(d, e) ==> x == e || (x in d && x.key != e.key)
  {
    if d != [] {
      assert d == [d[0]] + d[1..];
      assert forall x :: x in d[1..] ==> x.key != d[0].key;
      PutKeys(d[1..], e);
      if d[0].key != e.key {
        var r := Put(d[1..], e);
        var q := [d[0]] + r;
        forall i, j | 0 <= i < j < |q| ensures q[i].key != q[j].key {
          assert q[j] == r[j - 1] && q[j] in r;
        }
      }
    }
  }

  lemma HasKeyTail<V>(d: seq<Entry<V>>, k: string)
    requires d != []
    ensures HasKey(d, k) <==> d[0].key == k || HasKey(d[1..], k)
  {
    var t := d[1..];
    if HasKey(t, k) {
      var i :| 0 <= i < |t| && t[i].key == k;
      assert d[i + 1].key == k;
    }
    if HasKey(d, k) && d[0].key != k {
      var i :| 0 <= i < |d| && d[i].key == k;
      assert t[i - 1].key == k;
    }
  }

  lemma {:induction false} PutNew<V>(d: seq<Entry<V>>, e: Entry<V>)
    requires !HasKey(d, e.key)
    ensures Put(d, e) == d + [e]
  {
    if d != [] {
      HasKeyTail(d, e.key);
      PutNew(d[1..], e);
    }
  }

  /** Putting an existing key gives it the new value where it stands. */
  lemma {:induction false} PutOld<V>(a: seq<Entry<V>>, x: Entry<V>, b: seq<Entry<V>>, e: Entry<V>)
    requires !HasKey(a, e.key) && x.key == e.key
    ensures Put(a + [x] + b, e) == a + [e] + b
  {
    var d := a + [x] + b;
    if a == [] {
      assert d[1..] == b;
    } else {
      HasKeyTail(a, e.key);
      hide HasKey;
      assert d[1..] == a[1..] + [x] + b;
      PutOld(a[1..], x, b, e);
      assert [a[0]] + (a[1..] + [e] + b) == a + [e] + b;
    }
  }

  /** Removing a key takes its entry out and leaves the others where they were. */
  lemma {:induction false} RemoveIs<V>(a: seq<Entry<V>>, x: Entry<V>, b: seq<Entry<V>>)
    requires !HasKey(a, x.key)
    ensures Remove(a + [x] + b, x.key) == a + b
  {
    var d := a + [x] + b;
    if a == [] {
      assert d[1..] == b == a + b;
    } else {
      HasKeyTail(a, x.key);
      hide HasKey;
      assert d[1..] == a[1..] + [x] + b;
      RemoveIs(a[1..], x, b);
      assert [a[0]] + (a[1..] + b) == a + b;
    }
  }

  lemma {:induction false} RemoveSize<V>(d: seq<Entry<V>>, k: string)
    ensures |Remove(d, k)| >= |d| - 1
  {
    if d != [] && d[0].key != k { RemoveSize(d[1..], k); }
  }

  lemma {:induction false} PutSize<V>(d: seq<Entry<V>>, e: Entry<V>)
    ensures |Put(d, e)| == if HasKey(d, e.key) then |d| else |d| + 1
  {
    if d == [] {
    } else {
      HasKeyTail(d, e.key);
      if d[0].key != e.key { PutSize(d[1..], e); }
    }
  }

  lemma {:induction false} PutAllAppend<V>(d: seq<Entry<V>>, a: seq<Entry<V>>, b: seq<Entry<V>>)
    ensures PutAll(d, a + b) == PutAll(PutAll(d, a), b)
    decreases |a|
  {
    if a == [] {
      assert a + b == b;
    } else {
      assert (a + b)[1..] == a[1..] + b;
      PutAllAppend(Put(d, a[0]), a[1..], b);
    }
  }

  lemma {:induction false} PutAllNew<V>(d: seq<Entry<V>>, es: seq<Entry<V>>)
    requires KeysDistinct(d + es)
    ensures PutAll(d, es) == d + es
    decreases |es|
  {
    if es == [] {
      assert d + es == d;
    } else {
      forall i | 0 <= i < |d| ensures d[i].key != es[0].key {
        assert (d + es)[i].key != (d + es)[|d|].key;
      }
      PutNew(d, es[0]);
      assert (d + [es[0]]) + es[1..] == d + es;
      PutAllNew(d + [es[0]], es[1..]);
    }
  }

  lemma PutAllNext<V>(d: seq<Entry<V>>, es: seq<Entry<V>>, n: nat)
    requires n < |es|
    ensures PutAll(d, es[n..]) == PutAll(Put(d, es[n]), es[n + 1..])
  {
    assert es[n..][1..] == es[n + 1..];
  }

  lemma PutAllSnoc<V>(es: seq<Entry<V>>)
    requires es != []
    ensures PutAll([], es) == Put(PutAll([], es[..|es| - 1]), es[|es| - 1])
  {
    var init, e := es[..|es| - 1], es[|es| - 1];
    assert es == init + [e];
    PutAllAppend([], init, [e]);
    assert [e][1..] == [];
  }

  lemma {:induction false} PutHasKey<V>(d: seq<Entry<V>>, e: Entry<V>, k: string)
    ensures HasKey(Put(d, e), k) <==> HasKey(d, k) || e.key == k
  {
    if d == [] {
      assert Put(d, e) == [e];
      HasKeyTail([e], k);
    } else {
      HasKeyTail(d, k);
      var p := Put(d, e);
      HasKeyTail(p, k);
      if d[0].key == e.key {
        assert p[1..] == d[1..];
      } else {
        assert p[1..] == Put(d[1..], e);
        PutHasKey(d[1..], e, k);
      }
    }
  }

  lemma {:induction false} PutAllHasKey<V>(es: seq<Entry<V>>, k: string)
    ensures HasKey(PutAll([], es), k) <==> HasKey(es, k)
    decreases |es|
  {
    if es == [] {
    } else {
      var init, e := es[..|es| - 1], es[|es| - 1];
      PutAllSnoc(es);
      PutAllHasKey(init, k);
      PutHasKey(PutAll([], init), e, k);
      if HasKey(es, k) && e.key != k {
        var i :| 0 <= i < |es| && es[i].key == k;
        assert init[i].key == k;
      }
      if HasKey(init, k) {
        var i :| 0 <= i < |init| && init[i].key == k;
        assert es[i].key == k;
      }
    }
  }

  lemma {:induction false} PutAllDistinct<V>(es: seq<Entry<V>>)
    ensures KeysDistinct(PutAll([], es))
    decreases |es|
  {
    if es != [] {
      PutAllSnoc(es);
      PutAllDistinct(es[..|es| - 1]);
      PutKeys(PutAll([], es[..|es| - 1]), es[|es| - 1]);
    }
  }
}
