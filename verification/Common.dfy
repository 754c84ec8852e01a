/** Small datatypes and sequence facts shared by every module. */
module Common {

  datatype Option<+T> = None | Some(value: T)

  predicate NoDuplicates<T(==)>(q: seq<T>) {
    forall i, j :: 0 <= i < j < |q| ==> q[i] != q[j]
  }

  function Elements<T>(q: seq<T>): set<T> {
    set x | x in q
  }

  /** The list without the first occurrence of `x`: see RemoveFirstIs. */
  function RemoveFirst<T(==)>(q: seq<T>, x: T): seq<T> {
    if q == [] then []
    else if q[0] == x then q[1..]
    else [q[0]] + RemoveFirst(q[1..], x)
  }

  lemma {:induction false} RemoveFirstMembers<T>(q: seq<T>, x: T)
    requires NoDuplicates(q)
    ensures NoDuplicates(RemoveFirst(q, x))
    ensures forall y :: y in RemoveFirst(q, x) <==> y in q && y != x
    ensures |RemoveFirst(q, x)| == if x in q then |q| - 1 else |q|
  {
    if q != [] {
      assert q == [q[0]] + q[1..];
      assert forall y :: y in q <==> y == q[0] || y in q[1..];
      assert q[0] !in q[1..];
      if q[0] != x {
        RemoveFirstMembers(q[1..], x);
        var r := RemoveFirst(q[1..], x);
        forall i, j | 0 <= i < j < |[q[0]] + r| ensures ([q[0]] + r)[i] != ([q[0]] + r)[j] {
          assert ([q[0]] + r)[j] in r;
        }
      }
    }
  }

  /** Taking the first occurrence out leaves the others where they were. */
  lemma {:induction false} RemoveFirstIs<T>(a: seq<T>, x: T, b: seq<T>)
    requires x !in a
    ensures RemoveFirst(a + [x] + b, x) == a + b
    ensures RemoveFirst(a, x) == a
  {
    var q := a + [x] + b;
    if a == [] {
      assert q[1..] == b == a + b;
    } else {
      assert a == [a[0]] + a[1..];
      assert q[1..] == a[1..] + [x] + b;
      RemoveFirstIs(a[1..], x, b);
      assert [a[0]] + (a[1..] + b) == a + b;
    }
  }

  lemma {:induction false} ElementsSize<T>(q: seq<T>)
    requires NoDuplicates(q)
    ensures |Elements(q)| == |q|
  {
    if q == [] {
    } else {
      ElementsSize(q[1..]);
      assert q == [q[0]] + q[1..];
      assert q[0] !in q[1..];
      assert Elements(q) == {q[0]} + Elements(q[1..]);
    }
  }

  /** tolower() in the C locale. */
  function Lower(c: char): char {
    if 'A' <= c <= 'Z' then (c as int + 32) as char else c
  }

  function LowerAll(s: string): (r: string)
    ensures |r| == |s| && forall i :: 0 <= i < |s| ==> r[i] == Lower(s[i])
  {
    seq(|s|, i requires 0 <= i < |s| => Lower(s[i]))
  }

  const UPPER_CASE := "ABCDEFGHIJKLMNOPQRSTUVWXYZ"
  const LOWER_CASE := "abcdefghijklmnopqrstuvwxyz"

  lemma LettersAre(k: nat)
    requires k < 26
    ensures UPPER_CASE[k] as int == 65 + k && LOWER_CASE[k] as int == 97 + k
  {}

  /** The characters are the two cases of one letter, the upper case first. */
  predicate UpperAndLower(c: char, d: char) {
    exists k :: 0 <= k < 26 && UPPER_CASE[k] == c && LOWER_CASE[k] == d
  }

  lemma CapitalIff(c: char, d: char)
    ensures UpperAndLower(c, d) <==> 'A' <= c <= 'Z' && d as int == c as int + 32
  {
    if UpperAndLower(c, d) {
      var k :| 0 <= k < 26 && UPPER_CASE[k] == c && LOWER_CASE[k] == d;
      LettersAre(k);
    }
    if 'A' <= c <= 'Z' {
      LettersAre(c as int - 65);
      assert UPPER_CASE[c as int - 65] == c;
    }
  }

  /** tolower() is the lower case of a capital letter, and any other character itself. */
  lemma LowerIff(c: char, d: char)
    ensures Lower(c) == d <==> UpperAndLower(c, d) || (d == c && c !in UPPER_CASE)
  {
    CapitalIff(c, d);
    if c in UPPER_CASE {
      var k :| 0 <= k < 26 && UPPER_CASE[k] == c;
      LettersAre(k);
    }
    if 'A' <= c <= 'Z' {
      LettersAre(c as int - 65);
      assert UPPER_CASE[c as int - 65] == c;
    }
  }

  /** The lower-cased text, letter by letter of the alphabet. */
  lemma LowerAllIff(s: string, r: string)
    ensures LowerAll(s) == r <==>
            |r| == |s| && forall i :: 0 <= i < |s| ==>
              UpperAndLower(s[i], r[i]) || (r[i] == s[i] && s[i] !in UPPER_CASE)
  {
    forall c, d ensures Lower(c) == d <==> UpperAndLower(c, d) || (d == c && c !in UPPER_CASE) { LowerIff(c, d); }
  }
}
