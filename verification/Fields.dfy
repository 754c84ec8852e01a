/** The data options of a request (`-data`, `-data_fields`, `-params`, ...):
    treq_ValidateOptionData(), what it computes, and how a server reads it back. */
module Fields {
  import opened Common
  import opened Encoding

  // ------------------------------------------------------- what is computed

  /** One element of the option's list: its text, and its own elements if the text
      is a valid list. */
  datatype Item = Item(text: Bytes, elements: Option<seq<Bytes>>)

  datatype Kind = Kind(urlencoded: bool, fields: bool, typed: bool)

  type Pair = (Bytes, Bytes)

  function Encoded(urlencoded: bool, text: Bytes): Bytes {
    if urlencoded then Escape(text) else text
  }

  /** A pair as it is sent; an empty value is left out together with its equals sign. */
  function EncodedPair(urlencoded: bool, p: Pair): Bytes {
    Encoded(urlencoded, p.0) + if p.1 == [] then [] else [EQUALS] + Encoded(urlencoded, p.1)
  }

  /** The parts with ampersands in between. */
  function Joined(parts: seq<Bytes>): Bytes {
    if parts == [] then []
    else if |parts| == 1 then parts[0]
    else parts[0] + [AMPERSAND] + Joined(parts[1..])
  }

  /** The key-value pairs of a list of even length. */
  function PairsOf(kv: seq<Bytes>): seq<Pair>
    requires |kv| % 2 == 0
  {
    if kv == [] then [] else [(kv[0], kv[1])] + PairsOf(kv[2..])
  }

  predicate ValidFields(items: seq<Item>) {
    forall i :: 0 <= i < |items| ==> items[i].elements.Some? && |items[i].elements.value| % 2 == 0
  }

  /** All pairs of all the lists given, in order. */
  function AllPairs(items: seq<Item>): seq<Pair>
    requires ValidFields(items)
  {
    if items == [] then [] else PairsOf(items[0].elements.value) + AllPairs(items[1..])
  }

  function EncodedPairs(urlencoded: bool, ps: seq<Pair>): (parts: seq<Bytes>)
    ensures |parts| == |ps| && forall i :: 0 <= i < |ps| ==> parts[i] == EncodedPair(urlencoded, ps[i])
  {
    seq(|ps|, i requires 0 <= i < |ps| => EncodedPair(urlencoded, ps[i]))
  }

  /** The plain values that are not empty, encoded if asked for. */
  function PlainParts(urlencoded: bool, items: seq<Item>): seq<Bytes> {
    if items == [] then []
    else (if items[0].text == [] then [] else [Encoded(urlencoded, items[0].text)]) + PlainParts(urlencoded, items[1..])
  }

  /** The option's value in closed form; None for input that is refused. */
  function DataValue(kind: Kind, items: seq<Item>): Option<Bytes> {
    if kind.typed && |items| != 1 then None
    else if !kind.fields then Some(Joined(PlainParts(kind.urlencoded, items)))
    else if !ValidFields(items) then None
    else Some(Joined(EncodedPairs(kind.urlencoded, AllPairs(items))))
  }

  // ------------------------------------------------------------- joining

  lemma {:induction false} JoinedAppend(a: seq<Bytes>, b: seq<Bytes>)
    requires a != [] && b != []
    ensures Joined(a + b) == Joined(a) + [AMPERSAND] + Joined(b)
  {
    if |a| == 1 {
      assert (a + b)[1..] == b;
    } else {
      assert (a + b)[1..] == a[1..] + b;
      JoinedAppend(a[1..], b);
    }
  }

  lemma {:induction false} PairsOfAppend(a: seq<Bytes>, b: seq<Bytes>)
    requires |a| % 2 == 0 && |b| % 2 == 0
    ensures PairsOf(a + b) == PairsOf(a) + PairsOf(b)
  {
    if a == [] {
      assert a + b == b;
    } else {
      assert (a + b)[2..] == a[2..] + b;
      PairsOfAppend(a[2..], b);
    }
  }

  lemma {:induction false} AllPairsAppend(a: seq<Item>, b: seq<Item>)
    requires ValidFields(a) && ValidFields(b)
    ensures ValidFields(a + b) && AllPairs(a + b) == AllPairs(a) + AllPairs(b)
  {
    if a == [] {
      assert a + b == b;
    } else {
      assert (a + b)[1..] == a[1..] + b;
      assert a[0] == (a + b)[0];
      AllPairsAppend(a[1..], b);
    }
  }

  lemma {:induction false} PlainPartsAppend(u: bool, a: seq<Item>, b: seq<Item>)
    ensures PlainParts(u, a + b) == PlainParts(u, a) + PlainParts(u, b)
  {
    if a == [] {
      assert a + b == b;
    } else {
      assert (a + b)[1..] == a[1..] + b;
      PlainPartsAppend(u, a[1..], b);
    }
  }

  /** The elements of all the lists, one after the other. */
  function Flattened(items: seq<Item>): (kv: seq<Bytes>)
    requires ValidFields(items)
    ensures |kv| % 2 == 0
  {
    if items == [] then [] else items[0].elements.value + Flattened(items[1..])
  }

  lemma {:induction false} FlattenedPairs(items: seq<Item>)
    requires ValidFields(items)
    ensures PairsOf(Flattened(items)) == AllPairs(items)
  {
    if items != [] {
      PairsOfAppend(items[0].elements.value, Flattened(items[1..]));
      FlattenedPairs(items[1..]);
    }
  }

  /** Giving a field option several times is giving it once with the lists put
      together; empty lists contribute nothing. */
  lemma {:induction false} RepeatedOption(kind: Kind, items: seq<Item>, text: Bytes)
    requires kind.fields && !kind.typed && ValidFields(items)
    ensures DataValue(kind, items) == DataValue(kind, [Item(text, Some(Flattened(items)))])
  {
    var one := [Item(text, Some(Flattened(items)))];
    FlattenedPairs(items);
    assert one[0].elements.value == Flattened(items) && one[1..] == [];
    assert ValidFields(one) && AllPairs(one[1..]) == [];
    assert AllPairs(one) == PairsOf(Flattened(items)) + AllPairs(one[1..]) == AllPairs(items);
  }

  // ------------------------------------------------------------ reading it back

  /** The pieces between the occurrences of `c`. */
  function SplitAt(s: Bytes, c: Byte): (parts: seq<Bytes>)
    ensures parts != []
  {
    if s == [] then [[]]
    else
      var rest := SplitAt(s[1..], c);
      if s[0] == c then [[]] + rest else [[s[0]] + rest[0]] + rest[1..]
  }

  lemma {:induction false} SplitNone(p: Bytes, c: Byte)
    requires c !in p
    ensures SplitAt(p, c) == [p]
  {
    if p != [] {
      assert p == [p[0]] + p[1..];
      SplitNone(p[1..], c);
    }
  }

  lemma {:induction false} SplitHead(p: Bytes, c: Byte, rest: Bytes)
    requires c !in p
    ensures SplitAt(p + [c] + rest, c) == [p] + SplitAt(rest, c)
  {
    var s := p + [c] + rest;
    if p == [] {
      assert s[1..] == rest;
    } else {
      assert p == [p[0]] + p[1..];
      assert s[1..] == p[1..] + [c] + rest;
      SplitHead(p[1..], c, rest);
    }
  }

  /** A received pair: cut at the first equals sign, if there is one, and decoded. */
  function DecodedPair(s: Bytes): Pair {
    var parts := SplitAt(s, EQUALS);
    (Unescape(parts[0]), Unescape(if |s| == |parts[0]| then [] else s[SmallerPart(s)..]))
  }

  /** Where the text behind the first equals sign starts. */
  function SmallerPart(s: Bytes): (k: nat)
    requires |SplitAt(s, EQUALS)[0]| != |s|
    ensures k <= |s| && k == |SplitAt(s, EQUALS)[0]| + 1
  {
    FirstPartShort(s, EQUALS);
    |SplitAt(s, EQUALS)[0]| + 1
  }

  lemma {:induction false} FirstPartShort(s: Bytes, c: Byte)
    ensures |SplitAt(s, c)[0]| <= |s|
    ensures |SplitAt(s, c)[0]| < |s| ==> s[|SplitAt(s, c)[0]|] == c
  {
    if s != [] { FirstPartShort(s[1..], c); }
  }

  function DecodedPairs(parts: seq<Bytes>): seq<Pair> {
    seq(|parts|, i requires 0 <= i < |parts| => DecodedPair(parts[i]))
  }

  /** What a server makes of a query string or a form body. */
  function ReadBack(s: Bytes): seq<Pair> {
    DecodedPairs(SplitAt(s, AMPERSAND))
  }

  lemma PairRoundTrip(p: Pair)
    ensures DecodedPair(EncodedPair(true, p)) == p
    ensures AMPERSAND !in EncodedPair(true, p)
  {
    hide Escape, Unescape;
    var s := EncodedPair(true, p);
    EscapeShape(p.0);
    EscapeShape(p.1);
    UnescapeEscape(p.0);
    UnescapeEscape(p.1);
    if p.1 == [] {
      assert s == Escape(p.0) && Escape(p.1) == [];
      SplitNone(s, EQUALS);
    } else {
      assert s == Escape(p.0) + [EQUALS] + Escape(p.1);
      SplitHead(Escape(p.0), EQUALS, Escape(p.1));
      assert s[|Escape(p.0)| + 1..] == Escape(p.1);
    }
  }

  lemma {:induction false} SplitJoined(parts: seq<Bytes>)
    requires parts != [] && forall i :: 0 <= i < |parts| ==> AMPERSAND !in parts[i]
    ensures SplitAt(Joined(parts), AMPERSAND) == parts
  {
    if |parts| == 1 {
      SplitNone(parts[0], AMPERSAND);
    } else {
      SplitJoined(parts[1..]);
      SplitHead(parts[0], AMPERSAND, Joined(parts[1..]));
    }
  }

  /** Round trip: whatever pairs are given, in however many lists, with empty keys or
      empty values, reading the encoded option back gives exactly these pairs in order. */
  lemma {:induction false} FieldsRoundTrip(kind: Kind, items: seq<Item>)
    requires kind.fields && kind.urlencoded && ValidFields(items) && AllPairs(items) != []
    requires kind.typed ==> |items| == 1
    ensures DataValue(kind, items).Some?
    ensures ReadBack(DataValue(kind, items).value) == AllPairs(items)
  {
    var ps := AllPairs(items);
    var parts := EncodedPairs(true, ps);
    forall i | 0 <= i < |ps| ensures AMPERSAND !in parts[i] && DecodedPair(parts[i]) == ps[i] {
      PairRoundTrip(ps[i]);
    }
    SplitJoined(parts);
  }

  // -------------------------------------------------------- the text that is sent

  lemma PairSplit(p: Pair)
    ensures SplitAt(EncodedPair(true, p), EQUALS) ==
            if p.1 == [] then [Escape(p.0)] else [Escape(p.0), Escape(p.1)]
  {
    hide Escape, SplitAt;
    EscapeShape(p.0);
    EscapeShape(p.1);
    if p.1 == [] {
      assert EncodedPair(true, p) == Escape(p.0);
      SplitNone(Escape(p.0), EQUALS);
    } else {
      assert EncodedPair(true, p) == Escape(p.0) + [EQUALS] + Escape(p.1);
      SplitHead(Escape(p.0), EQUALS, Escape(p.1));
      SplitNone(Escape(p.1), EQUALS);
    }
  }

  /** The text itself: between the ampersands there is one part for each pair, and the part
      is the encoded key alone, without an equals sign, exactly when the value is empty. */
  lemma {:induction false} FieldsSplit(kind: Kind, items: seq<Item>)
    requires kind.fields && kind.urlencoded && ValidFields(items) && AllPairs(items) != []
    requires kind.typed ==> |items| == 1
    ensures DataValue(kind, items).Some?
    ensures var ps, parts := AllPairs(items), SplitAt(DataValue(kind, items).value, AMPERSAND);
            && |parts| == |ps|
            && forall i :: 0 <= i < |ps| ==>
                 SplitAt(parts[i], EQUALS) ==
                 if ps[i].1 == [] then [Escape(ps[i].0)] else [Escape(ps[i].0), Escape(ps[i].1)]
  {
    var ps := AllPairs(items);
    var parts := EncodedPairs(true, ps);
    hide Escape, Unescape, EncodedPair, DecodedPair, Joined;
    forall i | 0 <= i < |ps| ensures AMPERSAND !in parts[i] { PairRoundTrip(ps[i]); }
    SplitJoined(parts);
    forall i | 0 <= i < |ps|
      ensures SplitAt(parts[i], EQUALS) ==
              if ps[i].1 == [] then [Escape(ps[i].0)] else [Escape(ps[i].0), Escape(ps[i].1)]
    {
      PairSplit(ps[i]);
    }
  }

  /** How many pairs have a value. */
  function Filled(ps: seq<Pair>): nat {
    if ps == [] then 0 else (if ps[0].1 == [] then 0 else 1) + Filled(ps[1..])
  }

  /** The equals signs inside the keys and values themselves. */
  function OwnSigns(u: bool, ps: seq<Pair>): nat {
    if ps == [] then 0
    else Count(Encoded(u, ps[0].0), EQUALS) + Count(Encoded(u, ps[0].1), EQUALS) + OwnSigns(u, ps[1..])
  }

  lemma PairSigns(u: bool, p: Pair)
    ensures Count(EncodedPair(u, p), EQUALS) ==
            Count(Encoded(u, p.0), EQUALS) + Count(Encoded(u, p.1), EQUALS) + if p.1 == [] then 0 else 1
  {
    var k, v := Encoded(u, p.0), Encoded(u, p.1);
    if p.1 == [] {
      assert EncodedPair(u, p) == k && v == [];
    } else {
      assert EncodedPair(u, p) == k + ([EQUALS] + v);
      CountAppend(k, [EQUALS] + v, EQUALS);
      CountAppend([EQUALS], v, EQUALS);
      assert Count([EQUALS], EQUALS) == 1 by { assert [EQUALS][1..] == []; }
    }
  }

  lemma {:induction false} JoinedSigns(u: bool, ps: seq<Pair>)
    ensures Count(Joined(EncodedPairs(u, ps)), EQUALS) == Filled(ps) + OwnSigns(u, ps)
  {
    if ps != [] {
      var parts := EncodedPairs(u, ps);
      assert parts[1..] == EncodedPairs(u, ps[1..]);
      PairSigns(u, ps[0]);
      JoinedSigns(u, ps[1..]);
      if |ps| > 1 {
        var rest := Joined(parts[1..]);
        hide EncodedPair, EncodedPairs, Encoded;
        assert Joined(parts) == parts[0] + ([AMPERSAND] + rest);
        CountAppend(parts[0], [AMPERSAND] + rest, EQUALS);
        assert ([AMPERSAND] + rest)[1..] == rest;
      }
    }
  }

  /** Encoded or not, the value has one equals sign for each pair whose value is not empty,
      besides those of the keys and values; encoded ones have none. */
  lemma {:induction false} EqualsSigns(kind: Kind, items: seq<Item>)
    requires kind.fields && ValidFields(items) && (kind.typed ==> |items| == 1)
    ensures DataValue(kind, items).Some?
    ensures Count(DataValue(kind, items).value, EQUALS) ==
            Filled(AllPairs(items)) + if kind.urlencoded then 0 else OwnSigns(false, AllPairs(items))
  {
    JoinedSigns(kind.urlencoded, AllPairs(items));
    NoOwnSigns(AllPairs(items));
  }

  lemma {:induction false} NoOwnSigns(ps: seq<Pair>)
    ensures OwnSigns(true, ps) == 0
  {
    if ps != [] {
      hide Escape;
      EscapeShape(ps[0].0);
      EscapeShape(ps[0].1);
      CountNone(Escape(ps[0].0), EQUALS);
      CountNone(Escape(ps[0].1), EQUALS);
      NoOwnSigns(ps[1..]);
    }
  }

  predicate Malformed(it: Item) {
    it.elements.None? || |it.elements.value| % 2 == 1
  }

  /** What is refused: a typed option given several times, and a field option with an
      element that is no list or a list of odd length. */
  lemma {:induction false} RefusedIff(kind: Kind, items: seq<Item>)
    ensures DataValue(kind, items).None? <==>
            || (kind.typed && |items| != 1)
            || (kind.fields && exists i :: 0 <= i < |items| && Malformed(items[i]))
  {}

  // --------------------------------------------------------------- plain values

  /** The texts that are not empty. */
  function Given(items: seq<Item>): seq<Bytes> {
    if items == [] then []
    else (if items[0].text == [] then [] else [items[0].text]) + Given(items[1..])
  }

  lemma {:induction false} PlainGiven(u: bool, items: seq<Item>)
    ensures |PlainParts(u, items)| == |Given(items)|
    ensures forall i :: 0 <= i < |Given(items)| ==>
              Given(items)[i] != [] && PlainParts(u, items)[i] == Encoded(u, Given(items)[i])
  {
    hide Encoded;
    if items != [] { PlainGiven(u, items[1..]); }
  }

  /** A plain option that is percent-encoded: the parts between the ampersands are the
      encoded texts in order, and no part is empty. */
  lemma {:induction false} PlainRoundTrip(kind: Kind, items: seq<Item>)
    requires !kind.fields && kind.urlencoded && Given(items) != [] && (kind.typed ==> |items| == 1)
    ensures DataValue(kind, items).Some?
    ensures var parts := SplitAt(DataValue(kind, items).value, AMPERSAND);
            && |parts| == |Given(items)|
            && forall i :: 0 <= i < |parts| ==> parts[i] != [] && Unescape(parts[i]) == Given(items)[i]
  {
    var parts := PlainParts(true, items);
    PlainGiven(true, items);
    hide Escape, Unescape, PlainParts, Given;
    forall i | 0 <= i < |parts|
      ensures AMPERSAND !in parts[i] && parts[i] != [] && Unescape(parts[i]) == Given(items)[i]
    {
      EscapeShape(Given(items)[i]);
      UnescapeEscape(Given(items)[i]);
    }
    SplitJoined(parts);
  }

  /** A plain option as it is: the texts are found again between the ampersands exactly
      when there is no ampersand in any of them; a single one is sent as it is. */
  lemma {:induction false} PlainRawIff(kind: Kind, items: seq<Item>)
    requires !kind.fields && !kind.urlencoded && Given(items) != [] && (kind.typed ==> |items| == 1)
    ensures DataValue(kind, items).Some?
    ensures var v := DataValue(kind, items).value;
            && (SplitAt(v, AMPERSAND) == Given(items) <==>
                  forall i :: 0 <= i < |Given(items)| ==> AMPERSAND !in Given(items)[i])
            && (|Given(items)| == 1 ==> v == Given(items)[0])
  {
    var parts := PlainParts(false, items);
    PlainGiven(false, items);
    assert parts == Given(items);
    hide PlainParts, Given;
    SplitCount(Joined(parts), AMPERSAND);
    JoinedCount(parts);
    if forall i :: 0 <= i < |parts| ==> AMPERSAND !in parts[i] { SplitJoined(parts); }
  }

  /** Nothing given is an empty value. */
  lemma {:induction false} NothingGiven(kind: Kind, items: seq<Item>)
    requires kind.typed ==> |items| == 1
    requires if kind.fields then ValidFields(items) && AllPairs(items) == [] else Given(items) == []
    ensures DataValue(kind, items) == Some([])
  {
    PlainGiven(kind.urlencoded, items);
  }

  // ------------------------------------------------------------ without encoding

  /** There is no percent sequence in the text. */
  predicate Plain(s: Bytes) {
    forall i :: 0 <= i < |s| ==> !StartsEscape(s[i..])
  }

  /** The decoder leaves a text as it is exactly when there is no percent sequence in it. */
  lemma {:induction false} UnescapeSameIff(s: Bytes)
    ensures Unescape(s) == s <==> Plain(s)
  {
    if s == [] {
    } else {
      assert s[0..] == s;
      if StartsEscape(s) {
        UnescapeShrinks(s[3..]);
      } else {
        UnescapeSameIff(s[1..]);
        assert forall i :: 0 <= i < |s| - 1 ==> s[1..][i..] == s[i + 1..];
        assert forall i :: 1 <= i < |s| ==> s[i..] == s[1..][i - 1..];
        assert s == [s[0]] + s[1..];
      }
    }
  }

  /** The pair contains nothing that collides with the separators or the decoder: no `&`
      and no percent sequence, and no `=` in the key. */
  predicate Literal(p: Pair) {
    AMPERSAND !in p.0 && AMPERSAND !in p.1 && EQUALS !in p.0 && Plain(p.0) && Plain(p.1)
  }

  lemma {:induction false} UnescapeShrinks(s: Bytes)
    ensures |Unescape(s)| <= |s|
  {
    if s == [] {
    } else if StartsEscape(s) {
      HexRange(s[1], s[2]);
      UnescapeShrinks(s[3..]);
    } else {
      UnescapeShrinks(s[1..]);
    }
  }

  lemma {:induction false} FirstPartStops(s: Bytes, c: Byte, k: nat)
    requires k < |s| && s[k] == c
    ensures |SplitAt(s, c)[0]| <= k
  {
    if s[0] != c { FirstPartStops(s[1..], c, k - 1); }
  }

  lemma RawPair(p: Pair)
    requires EQUALS !in p.0
    ensures DecodedPair(EncodedPair(false, p)) == (Unescape(p.0), Unescape(p.1))
  {
    var s := EncodedPair(false, p);
    if p.1 == [] {
      assert s == p.0;
      SplitNone(s, EQUALS);
    } else {
      assert s == p.0 + [EQUALS] + p.1;
      SplitHead(p.0, EQUALS, p.1);
      assert s[|p.0| + 1..] == p.1;
    }
  }

  /** A part is decoded to its pair, and has no separator in it, exactly when the pair is literal. */
  lemma RawPartIff(p: Pair)
    ensures DecodedPair(EncodedPair(false, p)) == p && AMPERSAND !in EncodedPair(false, p) <==> Literal(p)
  {
    var s := EncodedPair(false, p);
    assert s == p.0 + if p.1 == [] then [] else [EQUALS] + p.1;
    assert AMPERSAND !in s <==> AMPERSAND !in p.0 && AMPERSAND !in p.1;
    UnescapeSameIff(p.0);
    UnescapeSameIff(p.1);
    hide Plain, Unescape;
    if EQUALS in p.0 {
      var k :| 0 <= k < |p.0| && p.0[k] == EQUALS;
      FirstPartStops(s, EQUALS, k);
      UnescapeShrinks(SplitAt(s, EQUALS)[0]);
    } else {
      RawPair(p);
    }
  }

  function Count(s: Bytes, c: Byte): nat {
    if s == [] then 0 else (if s[0] == c then 1 else 0) + Count(s[1..], c)
  }

  lemma {:induction false} CountAppend(a: Bytes, b: Bytes, c: Byte)
    ensures Count(a + b, c) == Count(a, c) + Count(b, c)
  {
    if a == [] {
      assert a + b == b;
    } else {
      assert (a + b)[1..] == a[1..] + b;
      CountAppend(a[1..], b, c);
    }
  }

  lemma {:induction false} CountNone(s: Bytes, c: Byte)
    ensures Count(s, c) == 0 <==> c !in s
  {
    if s != [] {
      CountNone(s[1..], c);
      assert s == [s[0]] + s[1..];
    }
  }

  lemma {:induction false} SplitCount(s: Bytes, c: Byte)
    ensures |SplitAt(s, c)| == Count(s, c) + 1
  {
    if s != [] { SplitCount(s[1..], c); }
  }

  /** The separators in the joined text: one between two parts, and those inside the parts. */
  lemma {:induction false} JoinedCount(parts: seq<Bytes>)
    requires parts != []
    ensures Count(Joined(parts), AMPERSAND) >= |parts| - 1
    ensures Count(Joined(parts), AMPERSAND) == |parts| - 1 ==>
              forall i :: 0 <= i < |parts| ==> AMPERSAND !in parts[i]
  {
    CountNone(parts[0], AMPERSAND);
    if |parts| > 1 {
      JoinedCount(parts[1..]);
      CountAppend(parts[0] + [AMPERSAND], Joined(parts[1..]), AMPERSAND);
      CountAppend(parts[0], [AMPERSAND], AMPERSAND);
      assert forall i :: 1 <= i < |parts| ==> parts[i] == parts[1..][i - 1];
    }
  }

  /** Joined parts that are read back as the pairs they came from had no separator inside. */
  lemma ReadBackSplits(parts: seq<Bytes>)
    requires parts != [] && |ReadBack(Joined(parts))| == |parts|
    ensures SplitAt(Joined(parts), AMPERSAND) == parts
    ensures forall i :: 0 <= i < |parts| ==> AMPERSAND !in parts[i]
  {
    SplitCount(Joined(parts), AMPERSAND);
    JoinedCount(parts);
    SplitJoined(parts);
  }

  /** Without percent-encoding (`-data_fields`) a list of pairs is read back as it was
      given exactly when every pair in it is literal. */
  lemma {:induction false} RawRoundTripIff(kind: Kind, items: seq<Item>)
    requires kind.fields && !kind.urlencoded && ValidFields(items) && AllPairs(items) != []
    requires kind.typed ==> |items| == 1
    ensures DataValue(kind, items).Some?
    ensures ReadBack(DataValue(kind, items).value) == AllPairs(items) <==>
              forall i :: 0 <= i < |AllPairs(items)| ==> Literal(AllPairs(items)[i])
  {
    var ps := AllPairs(items);
    RawJoinedIff(ps, EncodedPairs(false, ps));
  }

  lemma RawJoinedIff(ps: seq<Pair>, parts: seq<Bytes>)
    requires ps != [] && parts == EncodedPairs(false, ps)
    ensures ReadBack(Joined(parts)) == ps <==> forall i :: 0 <= i < |ps| ==> Literal(ps[i])
  {
    hide EncodedPair, DecodedPair, Joined, Literal, EncodedPairs;
    forall i | 0 <= i < |ps|
      ensures DecodedPair(parts[i]) == ps[i] && AMPERSAND !in parts[i] <==> Literal(ps[i])
    {
      RawPartIff(ps[i]);
    }
    var back := ReadBack(Joined(parts));
    if back == ps {
      ReadBackSplits(parts);
      assert forall i :: 0 <= i < |ps| ==> back[i] == DecodedPair(parts[i]);
    }
    if forall i :: 0 <= i < |ps| ==> Literal(ps[i]) {
      SplitJoined(parts);
      assert back == ps;
    }
  }

  /** For a single pair: the whole text is read back as that pair exactly when it is literal. */
  lemma RawPairIff(p: Pair)
    ensures ReadBack(EncodedPair(false, p)) == [p] <==> Literal(p)
  {
    RawJoinedIff([p], EncodedPairs(false, [p]));
    assert EncodedPairs(false, [p]) == [EncodedPair(false, p)];
  }

  // --------------------------------------------------------------- the objects

  /** A Tcl object: its text can be appended to, its list reading is given. */
  class TclObj {
    var text: Bytes
    const elements: Option<seq<TclObj>>

    constructor (text: Bytes)
      ensures this.text == text && elements == None
    {
      this.text := text;
      elements := None;
    }
  }

  ghost function Texts(objv: seq<TclObj>): (r: seq<Bytes>)
    reads objv
    ensures |r| == |objv| && forall i :: 0 <= i < |r| ==> r[i] == objv[i].text
  {
    seq(|objv|, i requires 0 <= i < |objv| reads objv => objv[i].text)
  }

  /** The elements of an object's list reading. */
  function Subs(o: TclObj): seq<TclObj> {
    if o.elements.None? then [] else o.elements.value
  }

  ghost function SubObjects(objv: seq<TclObj>): set<TclObj> {
    set i, e | 0 <= i < |objv| && e in Subs(objv[i]) :: e
  }

  ghost function ItemOf(o: TclObj): Item
    reads o, Subs(o)
  {
    Item(o.text, if o.elements.None? then None else Some(Texts(Subs(o))))
  }

  ghost function ItemsOf(objv: seq<TclObj>): (r: seq<Item>)
    reads objv, SubObjects(objv)
    ensures |r| == |objv| && forall i :: 0 <= i < |r| ==> r[i] == ItemOf(objv[i])
  {
    seq(|objv|, i requires 0 <= i < |objv| reads objv, SubObjects(objv) =>
      assert forall e :: e in Subs(objv[i]) ==> e in SubObjects(objv);
      ItemOf(objv[i]))
  }

  class DataOption {
    var isMissing: int
    var value: TclObj?
    const kind: Kind

    constructor (kind: Kind, isMissing: int, value: TclObj?)
    {
      this.kind := kind;
      this.isMissing := isMissing;
      this.value := value;
    }
  }

  datatype Status = TclOk | TclError

  // -------------------------------------------------------- the building loops

  /** treq_UrlencodeTclObject() on an object. */
  method UrlencodeObj(o: TclObj, memory: bool) returns (r: TclObj?)
    ensures memory ==> r != null
    ensures r != null ==> fresh(r) && r.text == Escape(o.text)
  {
    var e;
    ghost var pieces;
    e, pieces := Urlencode(o.text, memory);
    if e.None? {
      return null;
    }
    r := new TclObj(e.value);
  }

  /** The key or value as it is appended: a new object if it is to be encoded. */
  method EncodedObj(urlencoded: bool, o: TclObj, memory: bool) returns (r: TclObj?)
    ensures r == null ==> urlencoded && !memory
    ensures r != null ==> r.text == Encoded(urlencoded, o.text) && (r == o || fresh(r))
  {
    r := o;
    if urlencoded {
      r := UrlencodeObj(o, memory);
    }
  }

  method StartOrAppendKey(chunk: TclObj?, key: TclObj) returns (c: TclObj)
    requires chunk != key
    modifies chunk
    ensures chunk == null ==> fresh(c) && c.text == key.text
    ensures chunk != null ==> c == chunk && c.text == old(chunk.text) + [AMPERSAND] + key.text
  {
    if chunk == null {
      c := new TclObj(key.text);
    } else {
      c := chunk;
      c.text := c.text + [AMPERSAND];
      c.text := c.text + key.text;
    }
  }

  /** An empty value is skipped, and no equals sign is added. */
  method AppendValue(urlencoded: bool, c: TclObj, val: TclObj, memory: bool) returns (ok: bool)
    requires c != val
    modifies c
    ensures !ok ==> urlencoded && !memory
    ensures ok ==> c.text == old(c.text) + if val.text == [] then [] else [EQUALS] + Encoded(urlencoded, val.text)
  {
    if |val.text| == 0 {
      return true;
    }
    var v := EncodedObj(urlencoded, val, memory);
    if v == null {
      return false;
    }
    c.text := c.text + [EQUALS];
    c.text := c.text + v.text;
    ok := true;
  }

  /** What a pair is appended to. */
  ghost function Before(chunk: TclObj?): Bytes
    reads chunk
  {
    if chunk == null then [] else chunk.text + [AMPERSAND]
  }

  /** The body of the inner loop: one pair, appended to the chunk, or starting it. */
  method AppendPair(urlencoded: bool, chunk: TclObj?, key: TclObj, val: TclObj, memory: bool) returns (c: TclObj?)
    requires chunk != key && chunk != val
    modifies chunk
    ensures c == null ==> urlencoded && !memory
    ensures c != null ==> if chunk == null then fresh(c) else c == chunk
    ensures c != null ==> c.text == old(Before(chunk)) + EncodedPair(urlencoded, (key.text, val.text))
  {
    var k := EncodedObj(urlencoded, key, memory);
    if k == null {
      return null;
    }
    c := StartOrAppendKey(chunk, k);
    assert c.text == old(Before(chunk)) + k.text;
    var ok := AppendValue(urlencoded, c, val, memory);
    if !ok {
      c := null;
    }
  }

  /** The inner loop: the pairs of one list, into an object made here. It fails
      only where the escaper fails. */
  method FieldsChunk(urlencoded: bool, sub: seq<TclObj>, memory: bool) returns (chunk: TclObj?)
    requires sub != [] && |sub| % 2 == 0
    ensures chunk == null ==> urlencoded && !memory
    ensures chunk != null ==> fresh(chunk) && chunk.text == Joined(EncodedPairs(urlencoded, PairsOf(Texts(sub))))
  {
    hide Joined, EncodedPairs, EncodedPair, PairsOf;
    ghost var kv := Texts(sub);
    ghost var ps := PairsOf(kv);
    PairsOfSize(kv);
    chunk := null;
    var j := 0;
    while j < |sub|
      invariant 0 <= j <= |sub| && j % 2 == 0
      invariant forall o :: o in sub ==> o.text == old(o.text)
      invariant chunk == null <==> j == 0
      invariant chunk != null ==> fresh(chunk) && chunk.text == Joined(EncodedPairs(urlencoded, ps[..j / 2]))
    {
      assert kv[j] == sub[j].text && kv[j + 1] == sub[j + 1].text by {
        assert sub[j] in sub && sub[j + 1] in sub;
      }
      chunk := AppendPair(urlencoded, chunk, sub[j], sub[j + 1], memory);
      if chunk == null {
        return;
      }
      PairsOfAt(kv, j / 2);
      JoinedNext(urlencoded, ps, j / 2);
      j := j + 2;
    }
    assert ps[..|ps|] == ps;
  }

  lemma {:induction false} PairsOfSize(kv: seq<Bytes>)
    requires |kv| % 2 == 0
    ensures |PairsOf(kv)| == |kv| / 2
  {
    if kv != [] { PairsOfSize(kv[2..]); }
  }

  lemma {:induction false} PairsOfAt(kv: seq<Bytes>, i: nat)
    requires |kv| % 2 == 0 && 2 * i < |kv|
    ensures i < |PairsOf(kv)| && PairsOf(kv)[i] == (kv[2 * i], kv[2 * i + 1])
  {
    PairsOfSize(kv);
    if i > 0 { PairsOfAt(kv[2..], i - 1); }
  }

  lemma JoinedNext(u: bool, ps: seq<Pair>, i: nat)
    requires i < |ps|
    ensures Joined(EncodedPairs(u, ps[..i + 1])) ==
            if i == 0 then EncodedPair(u, ps[0])
            else Joined(EncodedPairs(u, ps[..i])) + [AMPERSAND] + EncodedPair(u, ps[i])
  {
    var a, b := EncodedPairs(u, ps[..i]), [EncodedPair(u, ps[i])];
    assert EncodedPairs(u, ps[..i + 1]) == a + b;
    if i > 0 { JoinedAppend(a, b); }
  }

  /** The parts of the value that the first elements of the option contribute. */
  ghost function Parts(kind: Kind, items: seq<Item>): seq<Bytes>
    requires kind.fields ==> ValidFields(items)
  {
    if kind.fields then EncodedPairs(kind.urlencoded, AllPairs(items)) else PlainParts(kind.urlencoded, items)
  }

  /** What one element contributes. */
  ghost function PartsOf(kind: Kind, it: Item): seq<Bytes>
    requires kind.fields ==> ValidFields([it])
  {
    Parts(kind, [it])
  }

  lemma PartsNext(kind: Kind, items: seq<Item>, i: nat)
    requires i < |items| && (kind.fields ==> ValidFields(items[..i + 1]))
    ensures kind.fields ==> ValidFields(items[..i]) && ValidFields([items[i]])
    ensures Parts(kind, items[..i + 1]) == Parts(kind, items[..i]) + PartsOf(kind, items[i])
  {
    assert items[..i + 1] == items[..i] + [items[i]];
    if kind.fields {
      assert forall k :: 0 <= k < i ==> items[..i][k] == items[..i + 1][k];
      assert items[..i + 1][i] == items[i];
      AllPairsAppend(items[..i], [items[i]]);
    } else {
      PlainPartsAppend(kind.urlencoded, items[..i], [items[i]]);
    }
  }

  datatype ChunkResult = Skipped | Failed | Chunk(obj: TclObj)

  /** One turn of the outer loop for a field list, up to the joining. */
  method FieldListChunk(kind: Kind, o: TclObj, memory: bool) returns (r: ChunkResult)
    requires kind.fields
    ensures r.Failed? ==> (kind.urlencoded && !memory) || !ValidFields([ItemOf(o)])
    ensures !r.Failed? ==> ValidFields([ItemOf(o)])
    ensures r.Skipped? ==> PartsOf(kind, ItemOf(o)) == []
    ensures r.Chunk? ==> PartsOf(kind, ItemOf(o)) != [] && r.obj.text == Joined(PartsOf(kind, ItemOf(o)))
    ensures r.Chunk? ==> fresh(r.obj)
  {
    ghost var it := ItemOf(o);
    assert it.elements == if o.elements.None? then None else Some(Texts(Subs(o)));
    hide Joined, EncodedPairs, EncodedPair, PairsOf, Parts, PartsOf, ValidFields, ItemOf;
    FieldsElement(kind, it);
    if o.elements.None? {
      return Failed;
    }
    var sub := o.elements.value;
    if |sub| == 0 {
      return Skipped;
    }
    if |sub| % 2 != 0 {
      return Failed;
    }
    var chunk := FieldsChunk(kind.urlencoded, sub, memory);
    assert ItemOf(o) == it;
    r := if chunk == null then Failed else Chunk(chunk);
  }

  /** One turn of the outer loop for a plain value, up to the joining. `first` says
      that there is no value yet, `many` that the option has more than one element:
      then the element is duplicated, because the value will be appended to. */
  method PlainChunk(urlencoded: bool, o: TclObj, first: bool, many: bool, memory: bool) returns (r: ChunkResult)
    ensures r.Failed? ==> urlencoded && !memory
    ensures o.text == [] <==> r.Skipped?
    ensures r.Chunk? ==> r.obj.text == Encoded(urlencoded, o.text)
    ensures r.Chunk? ==> fresh(r.obj) || (r.obj == o && !(first && many))
  {
    if |o.text| == 0 {
      return Skipped;
    }
    if urlencoded {
      var chunk := UrlencodeObj(o, memory);
      r := if chunk == null then Failed else Chunk(chunk);
    } else if first && many {
      var chunk := new TclObj(o.text);
      r := Chunk(chunk);
    } else {
      r := Chunk(o);
    }
  }

  /** One turn of the outer loop, up to the joining. */
  method ElementChunk(kind: Kind, o: TclObj, first: bool, many: bool, memory: bool) returns (r: ChunkResult)
    ensures r.Failed? ==> (kind.urlencoded && !memory) || (kind.fields && !ValidFields([ItemOf(o)]))
    ensures !r.Failed? && kind.fields ==> ValidFields([ItemOf(o)])
    ensures r.Skipped? ==> PartsOf(kind, ItemOf(o)) == []
    ensures r.Chunk? ==> PartsOf(kind, ItemOf(o)) != [] && r.obj.text == Joined(PartsOf(kind, ItemOf(o)))
    ensures r.Chunk? ==> fresh(r.obj) || (r.obj == o && !(first && many))
  {
    assert ItemOf(o).text == o.text;
    hide Joined, Parts, PartsOf, ItemOf, ValidFields, Encoded;
    if kind.fields {
      r := FieldListChunk(kind, o, memory);
    } else {
      PlainElement(kind, ItemOf(o));
      r := PlainChunk(kind.urlencoded, o, first, many, memory);
      SameItem(o);
    }
  }

  twostate lemma SameItem(o: TclObj)
    requires unchanged(o) && unchanged(Subs(o))
    ensures ItemOf(o) == old(ItemOf(o))
  {}

  lemma FieldsElement(kind: Kind, it: Item)
    requires kind.fields
    ensures ValidFields([it]) <==> it.elements.Some? && |it.elements.value| % 2 == 0
    ensures ValidFields([it]) ==> PartsOf(kind, it) == EncodedPairs(kind.urlencoded, PairsOf(it.elements.value))
    ensures ValidFields([it]) ==> (PartsOf(kind, it) == [] <==> it.elements.value == [])
  {
    SingleFields(it);
    if ValidFields([it]) { PairsOfSize(it.elements.value); }
  }

  lemma PlainElement(kind: Kind, it: Item)
    requires !kind.fields
    ensures PartsOf(kind, it) == if it.text == [] then [] else [Encoded(kind.urlencoded, it.text)]
    ensures Joined([Encoded(kind.urlencoded, it.text)]) == Encoded(kind.urlencoded, it.text)
  {
    hide Encoded;
    assert [it][1..] == [];
    assert PlainParts(kind.urlencoded, [it]) == if it.text == [] then [] else [Encoded(kind.urlencoded, it.text)];
  }

  lemma SingleFields(it: Item)
    ensures ValidFields([it]) <==> it.elements.Some? && |it.elements.value| % 2 == 0
    ensures ValidFields([it]) ==> AllPairs([it]) == PairsOf(it.elements.value)
  {
    assert [it][0] == it && [it][1..] == [];
    if ValidFields([it]) {
      assert AllPairs([it]) == PairsOf(it.elements.value) + AllPairs([it][1..]);
    }
  }

  lemma ValueNext(kind: Kind, items: seq<Item>, i: nat)
    requires i < |items| && (kind.fields ==> ValidFields(items[..i]) && ValidFields([items[i]]))
    ensures kind.fields ==> ValidFields(items[..i + 1])
    ensures Parts(kind, items[..i + 1]) == Parts(kind, items[..i]) + PartsOf(kind, items[i])
    ensures Parts(kind, items[..i]) == [] ==> Parts(kind, items[..i + 1]) == PartsOf(kind, items[i])
    ensures PartsOf(kind, items[i]) == [] ==> Parts(kind, items[..i + 1]) == Parts(kind, items[..i])
    ensures Parts(kind, items[..i]) != [] && PartsOf(kind, items[i]) != [] ==>
              Joined(Parts(kind, items[..i + 1])) ==
              Joined(Parts(kind, items[..i])) + [AMPERSAND] + Joined(PartsOf(kind, items[i]))
  {
    if kind.fields {
      var some := items[..i + 1];
      forall k | 0 <= k < |some| ensures some[k].elements.Some? && |some[k].elements.value| % 2 == 0 {
        if k < i { assert some[k] == items[..i][k]; } else { assert some[k] == [items[i]][0]; }
      }
    }
    PartsNext(kind, items, i);
    if Parts(kind, items[..i]) != [] && PartsOf(kind, items[i]) != [] {
      JoinedAppend(Parts(kind, items[..i]), PartsOf(kind, items[i]));
    }
  }

  /** An element that is refused makes the whole option refused. */
  lemma RefusedElement(kind: Kind, items: seq<Item>, i: nat)
    requires i < |items| && kind.fields && !ValidFields([items[i]])
    ensures DataValue(kind, items) == None
  {
    assert !(items[i].elements.Some? && |items[i].elements.value| % 2 == 0) by { SingleFields(items[i]); }
  }

  lemma AcceptedItems(kind: Kind, items: seq<Item>)
    requires kind.fields ==> ValidFields(items)
    requires kind.typed ==> |items| == 1
    ensures DataValue(kind, items) == Some(Joined(Parts(kind, items)))
  {}

  lemma NoParts(kind: Kind, items: seq<Item>)
    ensures ValidFields(items[..0]) && Parts(kind, items[..0]) == []
  {
    assert items[..0] == [];
  }

  lemma TypedOnce(kind: Kind, items: seq<Item>)
    requires kind.typed && |items| != 1
    ensures DataValue(kind, items) == None
  {}

  /** The items read the same as long as the texts are the same. */
  twostate lemma ItemsSame(objv: seq<TclObj>)
    requires forall i :: 0 <= i < |objv| ==> objv[i].text == old(objv[i].text)
    requires forall i, k :: 0 <= i < |objv| && 0 <= k < |Subs(objv[i])| ==>
            Subs(objv[i])[k].text == old(Subs(objv[i])[k].text)
    ensures ItemsOf(objv) == old(ItemsOf(objv))
  {
    forall i | 0 <= i < |objv| ensures ItemOf(objv[i]) == old(ItemOf(objv[i])) {
      assert Texts(Subs(objv[i])) == old(Texts(Subs(objv[i])));
    }
  }

  /** Joining the current chunk to the value. */
  method JoinChunk(value: TclObj?, chunk: TclObj) returns (r: TclObj)
    requires value != chunk
    modifies value
    ensures value == null ==> r == chunk && r.text == old(chunk.text)
    ensures value != null ==> r == value && r.text == old(value.text) + [AMPERSAND] + old(chunk.text)
  {
    if value == null {
      r := chunk;
    } else {
      r := value;
      r.text := r.text + [AMPERSAND];
      r.text := r.text + chunk.text;
    }
  }

  /** The outer loop: all elements, joined, in an object that is either made here or
      the option's only element. No object of the caller changes (there is no
      modifies clause). It fails only on refused input or where the escaper fails. */
  method BuildValue(kind: Kind, objv: seq<TclObj>, memory: bool) returns (status: Status, value: TclObj?)
    ensures status.TclError? ==> DataValue(kind, ItemsOf(objv)) == None || (kind.urlencoded && !memory)
    ensures status.TclOk? ==> value != null && DataValue(kind, ItemsOf(objv)) == Some(value.text)
    ensures status.TclOk? ==> fresh(value) || objv == [value]
    ensures ItemsOf(objv) == old(ItemsOf(objv))
  {
    hide DataValue, Joined, Parts, PartsOf, ItemOf, ValidFields;
    ghost var items := ItemsOf(objv);
    value := null;
    if kind.typed && |objv| != 1 {
      TypedOnce(kind, items);
      return TclError, null;
    }
    NoParts(kind, items);
    var i := 0;
    while i < |objv|
      invariant 0 <= i <= |objv| && ItemsOf(objv) == items
      invariant kind.fields ==> ValidFields(items[..i])
      invariant value == null <==> Parts(kind, items[..i]) == []
      invariant value != null ==> value.text == Joined(Parts(kind, items[..i]))
      invariant value != null ==> fresh(value) || objv == [value]
    {
      var r := ElementChunk(kind, objv[i], value == null, |objv| > 1, memory);
      ItemsSame(objv);
      if r.Failed? {
        if kind.fields && !ValidFields([items[i]]) { RefusedElement(kind, items, i); }
        return TclError, null;
      }
      ValueNext(kind, items, i);
      if r.Chunk? {
        value := JoinChunk(value, r.obj);
        ItemsSame(objv);
      }
      i := i + 1;
    }
    assert items[..|items|] == items;
    AcceptedItems(kind, items);
    status := TclOk;
    if value == null {
      NoneJoined();
      value := new TclObj([]);
    }
    ItemsSame(objv);
  }

  lemma NoneJoined()
    ensures Joined([]) == []
  {}

  /** treq_ValidateOptionData(). With memory to spare for the escaper, it fails exactly
      on refused input. */
  method ValidateOptionData(data: DataOption, memory: bool) returns (status: Status)
    requires data.isMissing == 0 ==> data.value != null && data.value.elements.Some?
    modifies data
    ensures data.isMissing == old(data.isMissing)
    ensures data.isMissing == 1 ==> status == TclError
    ensures data.isMissing != 0 && data.isMissing != 1 ==> status == TclOk
    ensures data.isMissing != 0 || status == TclError ==> data.value == old(data.value)
    ensures data.isMissing == 0 && status == TclOk ==>
              data.value != null && Some(data.value.text) ==
                  old(DataValue(data.kind, ItemsOf(data.value.elements.value)))
    ensures data.isMissing == 0 && status == TclError ==>
              (data.kind.urlencoded && !memory) || old(DataValue(data.kind, ItemsOf(data.value.elements.value))) == None
  {
    if data.isMissing != 0 {
      return if data.isMissing == 1 then TclError else TclOk;
    }
    hide DataValue;
    var value;
    var objv := data.value.elements.value;
    status, value := BuildValue(data.kind, objv, memory);
    if status == TclOk {
      data.value := value;
    }
  }
}
