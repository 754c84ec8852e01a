/** The recursive-descent JSON parser of the test support package, on given tokens:
    a parser object whose cursor its procedures share. */
module Json {
  import opened Common
  import opened Dictionary

  /** A token as its first character classifies it. The text of a quoted string is
      what unquoting and unescaping make of it, None where they refuse. */
  datatype Token =
    | Punct(c: char)
    | Quoted(text: Option<string>)
    | Word(word: string)
    | Number(digits: string)
    | Junk(text0: string)

  datatype Json =
    | JString(s: string)
    | JWord(w: string)
    | JNumber(n: string)
    | JArray(elements: seq<Json>)
    | JObject(members: seq<Entry<Json>>)

  // ------------------------------------------------------------------ printing

  function Print(j: Json): seq<Token>
    decreases j, 1
  {
    match j
    case JString(s) => [Quoted(Some(s))]
    case JWord(w) => [Word(w)]
    case JNumber(n) => [Number(n)]
    case JArray(es) => [Punct('[')] + PrintElements(es) + [Punct(']')]
    case JObject(ms) => [Punct('{')] + PrintMembers(ms) + [Punct('}')]
  }

  function PrintElements(es: seq<Json>): seq<Token>
    decreases es, 0
  {
    if es == [] then []
    else if |es| == 1 then Print(es[0])
    else Print(es[0]) + [Punct(',')] + PrintElements(es[1..])
  }

  function PrintMember(m: Entry<Json>): seq<Token>
    decreases m, 2
  {
    [Quoted(Some(m.key)), Punct(':')] + Print(m.value)
  }

  function PrintMembers(ms: seq<Entry<Json>>): seq<Token>
    decreases ms, 0
  {
    if ms == [] then []
    else if |ms| == 1 then PrintMember(ms[0])
    else PrintMember(ms[0]) + [Punct(',')] + PrintMembers(ms[1..])
  }

  /** What a tree means as nested dictionaries: a repeated member name keeps its first
      place and takes its last value. */
  function Meaning(j: Json): Json
    decreases j, 1
  {
    match j
    case JArray(es) => JArray(MeaningOfElements(es))
    case JObject(ms) => JObject(PutAll([], MeaningOfMembers(ms)))
    case _ => j
  }

  function MeaningOfElements(es: seq<Json>): (r: seq<Json>)
    ensures |r| == |es|
    decreases es, 0
  {
    if es == [] then [] else [Meaning(es[0])] + MeaningOfElements(es[1..])
  }

  function MeaningOfMembers(ms: seq<Entry<Json>>): (r: seq<Entry<Json>>)
    ensures |r| == |ms|
    decreases ms, 0
  {
    if ms == [] then [] else [Entry(ms[0].key, Meaning(ms[0].value))] + MeaningOfMembers(ms[1..])
  }

  // ------------------------------------------------------------------- parsing

  datatype Parse<+T> = Fail | Got(value: T, rest: seq<Token>)

  function ParseValue(ts: seq<Token>): (r: Parse<Json>)
    ensures r.Got? ==> |r.rest| < |ts|
    decreases |ts|, 0
  {
    if ts == [] then Fail
    else
      match ts[0]
      case Punct('{') => ParseObject(ts[1..])
      case Punct('[') => ParseArray(ts[1..])
      case Quoted(Some(s)) => Got(JString(s), ts[1..])
      case Word(w) => Got(JWord(w), ts[1..])
      case Number(n) => Got(JNumber(n), ts[1..])
      case _ => Fail
  }

  function ParseObject(ts: seq<Token>): (r: Parse<Json>)
    ensures r.Got? ==> |r.rest| < |ts|
    decreases |ts|, 3
  {
    if ts == [] then Fail
    else if ts[0] == Punct('}') then Got(JObject([]), ts[1..])
    else
      match ParseMembers(ts, [])
      case Fail => Fail
      case Got(ms, rest) => Got(JObject(ms), rest)
  }

  function ParseMember(ts: seq<Token>): (r: Parse<Entry<Json>>)
    ensures r.Got? ==> |r.rest| < |ts|
    decreases |ts|, 1
  {
    if |ts| < 2 || !ts[0].Quoted? || ts[0].text.None? || ts[1] != Punct(':') then Fail
    else
      match ParseValue(ts[2..])
      case Fail => Fail
      case Got(v, rest) => Got(Entry(ts[0].text.value, v), rest)
  }

  /** The members up to the closing brace, put into the dictionary `d`. */
  function ParseMembers(ts: seq<Token>, d: seq<Entry<Json>>): (r: Parse<seq<Entry<Json>>>)
    ensures r.Got? ==> |r.rest| < |ts|
    decreases |ts|, 2
  {
    match ParseMember(ts)
    case Fail => Fail
    case Got(m, rest) =>
      if rest == [] then Fail
      else if rest[0] == Punct(',') then ParseMembers(rest[1..], Put(d, m))
      else if rest[0] == Punct('}') then Got(Put(d, m), rest[1..])
      else Fail
  }

  function ParseArray(ts: seq<Token>): (r: Parse<Json>)
    ensures r.Got? ==> |r.rest| < |ts|
    decreases |ts|, 3
  {
    if ts == [] then Fail
    else if ts[0] == Punct(']') then Got(JArray([]), ts[1..])
    else
      match ParseElements(ts, [])
      case Fail => Fail
      case Got(es, rest) => Got(JArray(es), rest)
  }

  /** The elements up to the closing bracket, appended to `es`. */
  function ParseElements(ts: seq<Token>, es: seq<Json>): (r: Parse<seq<Json>>)
    ensures r.Got? ==> |r.rest| < |ts|
    decreases |ts|, 2
  {
    match ParseValue(ts)
    case Fail => Fail
    case Got(v, rest) =>
      if rest == [] then Fail
      else if rest[0] == Punct(',') then ParseElements(rest[1..], es + [v])
      else if rest[0] == Punct(']') then Got(es + [v], rest[1..])
      else Fail
  }

  // ---------------------------------------------------- whatever is printed parses

  lemma {:induction false} PrintNonEmpty(j: Json)
    ensures Print(j) != [] && Print(j)[0] != Punct(']') && Print(j)[0] != Punct('}')
  {}

  /** Parsing the tokens of a tree, whatever follows them, gives the tree's meaning
      and stops right behind it. */
  lemma {:induction false} PrintedParses(j: Json, rest: seq<Token>)
    ensures ParseValue(Print(j) + rest) == Got(Meaning(j), rest)
    decreases j, 1
  {
    var ts := Print(j) + rest;
    match j {
      case JString(s) => assert ts[1..] == rest;
      case JWord(w) => assert ts[1..] == rest;
      case JNumber(n) => assert ts[1..] == rest;
      case JArray(es) =>
        assert ts[1..] == PrintElements(es) + [Punct(']')] + rest;
        if es == [] {
          assert ts[1..][1..] == rest;
        } else {
          PrintedElementsParse(es, [], rest);
          ElementsStart(es);
          assert ts[1..][0] == PrintElements(es)[0];
          assert [] + MeaningOfElements(es) == MeaningOfElements(es);
        }
      case JObject(ms) =>
        assert ts[1..] == PrintMembers(ms) + [Punct('}')] + rest;
        if ms == [] {
          assert ts[1..][1..] == rest;
        } else {
          PrintedMembersParse(ms, [], rest);
          MembersStart(ms);
          assert ts[1..][0] == PrintMembers(ms)[0];
        }
    }
  }

  lemma MembersStart(ms: seq<Entry<Json>>)
    requires ms != []
    ensures PrintMembers(ms) != [] && PrintMembers(ms)[0] == Quoted(Some(ms[0].key))
  {}

  lemma ElementsStart(es: seq<Json>)
    requires es != []
    ensures PrintElements(es) != [] && PrintElements(es)[0] != Punct(']')
  {
    PrintNonEmpty(es[0]);
  }

  lemma {:induction false} PrintedElementsParse(es: seq<Json>, done: seq<Json>, rest: seq<Token>)
    requires es != []
    ensures ParseElements(PrintElements(es) + [Punct(']')] + rest, done) == Got(done + MeaningOfElements(es), rest)
    decreases es, 0
  {
    var ts := PrintElements(es) + [Punct(']')] + rest;
    if |es| == 1 {
      var tail := [Punct(']')] + rest;
      assert ts == Print(es[0]) + tail;
      PrintedParses(es[0], tail);
      assert tail[1..] == rest;
      assert es[1..] == [] && MeaningOfElements(es) == [Meaning(es[0])];
    } else {
      var next := PrintElements(es[1..]) + [Punct(']')] + rest;
      var tail := [Punct(',')] + next;
      assert ts == Print(es[0]) + tail;
      PrintedParses(es[0], tail);
      assert tail[1..] == next;
      PrintedElementsParse(es[1..], done + [Meaning(es[0])], rest);
      assert (done + [Meaning(es[0])]) + MeaningOfElements(es[1..]) == done + MeaningOfElements(es);
    }
  }

  lemma PrintedMemberParses(m: Entry<Json>, rest: seq<Token>)
    ensures ParseMember(PrintMember(m) + rest) == Got(Entry(m.key, Meaning(m.value)), rest)
    decreases m, 2
  {
    var ts := PrintMember(m) + rest;
    assert ts[2..] == Print(m.value) + rest;
    PrintedParses(m.value, rest);
  }

  lemma {:induction false} PrintedMembersParse(ms: seq<Entry<Json>>, d: seq<Entry<Json>>, rest: seq<Token>)
    requires ms != []
    ensures ParseMembers(PrintMembers(ms) + [Punct('}')] + rest, d) == Got(PutAll(d, MeaningOfMembers(ms)), rest)
    decreases ms, 0
  {
    hide PrintMember, ParseMember, Put, Meaning;
    var m := ms[0];
    if |ms| == 1 {
      assert ms == [m];
      MembersOne(m, d);
      PrintedMemberParses(m, [Punct('}')] + rest);
      LastMember(m, d, rest);
    } else {
      var more := ms[1..];
      assert ms == [m] + more;
      MembersCons(m, more, d);
      var next := PrintMembers(more) + [Punct('}')] + rest;
      PrintedMemberParses(m, [Punct(',')] + next);
      PrintedMembersParse(more, Put(d, Entry(m.key, Meaning(m.value))), rest);
      MoreMembers(m, d, next);
      assert PrintMembers(ms) + [Punct('}')] + rest == PrintMember(m) + ([Punct(',')] + next);
    }
  }

  lemma LastMember(m: Entry<Json>, d: seq<Entry<Json>>, rest: seq<Token>)
    requires var tail := [Punct('}')] + rest;
             ParseMember(PrintMember(m) + tail) == Got(Entry(m.key, Meaning(m.value)), tail)
    ensures ParseMembers(PrintMember(m) + [Punct('}')] + rest, d) == Got(Put(d, Entry(m.key, Meaning(m.value))), rest)
  {
    var tail := [Punct('}')] + rest;
    assert PrintMember(m) + [Punct('}')] + rest == PrintMember(m) + tail;
    assert tail[1..] == rest;
    hide PrintMember, ParseMember, Put, Meaning;
  }

  lemma MoreMembers(m: Entry<Json>, d: seq<Entry<Json>>, next: seq<Token>)
    requires var tail := [Punct(',')] + next;
             ParseMember(PrintMember(m) + tail) == Got(Entry(m.key, Meaning(m.value)), tail)
    ensures ParseMembers(PrintMember(m) + ([Punct(',')] + next), d) ==
            ParseMembers(next, Put(d, Entry(m.key, Meaning(m.value))))
  {
    var tail := [Punct(',')] + next;
    assert tail[1..] == next;
    hide PrintMember, ParseMember, Put, Meaning;
  }

  // --------------------------------------------------- whatever parses was printed

  /** A successful parse read exactly the tokens of some tree. */
  lemma {:induction false} ParsedWasPrinted(ts: seq<Token>) returns (j: Json)
    requires ParseValue(ts).Got?
    ensures ts == Print(j) + ParseValue(ts).rest && ParseValue(ts).value == Meaning(j)
    decreases |ts|, 0
  {
    var rest := ParseValue(ts).rest;
    match ts[0] {
      case Punct(c) =>
        if c == '{' {
          j := ObjectWasPrinted(ts[1..]);
        } else {
          j := ArrayWasPrinted(ts[1..]);
        }
        assert ts == [ts[0]] + ts[1..];
      case Quoted(t) => j := JString(t.value);
      case Word(w) => j := JWord(w);
      case Number(n) => j := JNumber(n);
      case Junk(_) =>
    }
  }

  lemma {:induction false} ArrayWasPrinted(ts: seq<Token>) returns (j: Json)
    requires ParseArray(ts).Got?
    ensures [Punct('[')] + ts == Print(j) + ParseArray(ts).rest && ParseArray(ts).value == Meaning(j)
    decreases |ts|, 3
  {
    if ts[0] == Punct(']') {
      j := JArray([]);
    } else {
      var es := ElementsWerePrinted(ts, []);
      j := JArray(es);
      assert [] + MeaningOfElements(es) == MeaningOfElements(es);
      ArrayTokens(es, ts, ParseElements(ts, []).rest);
      hide PrintElements, MeaningOfElements, ParseElements;
    }
  }

  lemma ArrayTokens(es: seq<Json>, ts: seq<Token>, rest: seq<Token>)
    requires ts == PrintElements(es) + [Punct(']')] + rest
    ensures [Punct('[')] + ts == Print(JArray(es)) + rest
  {
    hide PrintElements;
  }

  lemma ElementsOne(j: Json)
    ensures PrintElements([j]) == Print(j) && MeaningOfElements([j]) == [Meaning(j)]
  {
    assert [j][1..] == [];
  }

  lemma ElementsCons(j: Json, more: seq<Json>)
    requires more != []
    ensures PrintElements([j] + more) == Print(j) + [Punct(',')] + PrintElements(more)
    ensures MeaningOfElements([j] + more) == [Meaning(j)] + MeaningOfElements(more)
  {
    assert ([j] + more)[1..] == more;
  }

  /** How the element loop goes on after one value. */
  lemma ElementsTurn(ts: seq<Token>, done: seq<Json>)
    requires ParseElements(ts, done).Got?
    ensures var v := ParseValue(ts);
            && v.Got? && v.rest != []
            && if v.rest[0] == Punct(']') then ParseElements(ts, done) == Got(done + [v.value], v.rest[1..])
               else v.rest[0] == Punct(',') && ParseElements(ts, done) == ParseElements(v.rest[1..], done + [v.value])
  {}

  lemma {:induction false} ElementsWerePrinted(ts: seq<Token>, done: seq<Json>) returns (es: seq<Json>)
    requires ParseElements(ts, done).Got?
    ensures es != [] && ts == PrintElements(es) + [Punct(']')] + ParseElements(ts, done).rest
    ensures ParseElements(ts, done).value == done + MeaningOfElements(es)
    decreases |ts|, 2
  {
    hide PrintElements, MeaningOfElements, ParseElements, ParseValue, Print, Meaning;
    ElementsTurn(ts, done);
    var j := ParsedWasPrinted(ts);
    var v := ParseValue(ts);
    assert v.rest == [v.rest[0]] + v.rest[1..];
    if v.rest[0] == Punct(']') {
      es := [j];
      ElementsOne(j);
    } else {
      var more := ElementsWerePrinted(v.rest[1..], done + [v.value]);
      es := [j] + more;
      ElementsCons(j, more);
    }
  }

  lemma {:induction false} MemberWasPrinted(ts: seq<Token>) returns (m: Entry<Json>)
    requires ParseMember(ts).Got?
    ensures ts == PrintMember(m) + ParseMember(ts).rest
    ensures ParseMember(ts).value == Entry(m.key, Meaning(m.value))
    decreases |ts|, 1
  {
    var j := ParsedWasPrinted(ts[2..]);
    m := Entry(ts[0].text.value, j);
    assert ts == [ts[0], ts[1]] + ts[2..];
  }

  lemma MembersOne(m: Entry<Json>, d: seq<Entry<Json>>)
    ensures PrintMembers([m]) == PrintMember(m)
    ensures PutAll(d, MeaningOfMembers([m])) == Put(d, Entry(m.key, Meaning(m.value)))
  {
    assert [m][1..] == [];
    assert MeaningOfMembers([m])[1..] == [];
  }

  lemma MembersCons(m: Entry<Json>, more: seq<Entry<Json>>, d: seq<Entry<Json>>)
    requires more != []
    ensures PrintMembers([m] + more) == PrintMember(m) + [Punct(',')] + PrintMembers(more)
    ensures PutAll(d, MeaningOfMembers([m] + more)) ==
            PutAll(Put(d, Entry(m.key, Meaning(m.value))), MeaningOfMembers(more))
  {
    assert ([m] + more)[1..] == more;
    assert MeaningOfMembers([m] + more)[1..] == MeaningOfMembers(more);
  }

  /** How the member loop goes on after one member. */
  lemma MembersTurn(ts: seq<Token>, d: seq<Entry<Json>>)
    requires ParseMembers(ts, d).Got?
    ensures var v := ParseMember(ts);
            && v.Got? && v.rest != []
            && if v.rest[0] == Punct('}') then ParseMembers(ts, d) == Got(Put(d, v.value), v.rest[1..])
               else v.rest[0] == Punct(',') && ParseMembers(ts, d) == ParseMembers(v.rest[1..], Put(d, v.value))
  {}

  lemma {:induction false} MembersWerePrinted(ts: seq<Token>, d: seq<Entry<Json>>) returns (ms: seq<Entry<Json>>)
    requires ParseMembers(ts, d).Got?
    ensures ms != [] && ts == PrintMembers(ms) + [Punct('}')] + ParseMembers(ts, d).rest
    ensures ParseMembers(ts, d).value == PutAll(d, MeaningOfMembers(ms))
    decreases |ts|, 2
  {
    hide PrintMembers, PrintMember, MeaningOfMembers, ParseMembers, ParseMember, Print, Meaning, Put, PutAll;
    MembersTurn(ts, d);
    var m := MemberWasPrinted(ts);
    var v := ParseMember(ts);
    assert v.rest == [v.rest[0]] + v.rest[1..];
    if v.rest[0] == Punct('}') {
      ms := [m];
      MembersOne(m, d);
    } else {
      var more := MembersWerePrinted(v.rest[1..], Put(d, v.value));
      ms := [m] + more;
      MembersCons(m, more, d);
    }
  }

  lemma {:induction false} ObjectWasPrinted(ts: seq<Token>) returns (j: Json)
    requires ParseObject(ts).Got?
    ensures [Punct('{')] + ts == Print(j) + ParseObject(ts).rest && ParseObject(ts).value == Meaning(j)
    decreases |ts|, 3
  {
    if ts[0] == Punct('}') {
      j := JObject([]);
      assert PutAll([], MeaningOfMembers([])) == [];
    } else {
      var ms := MembersWerePrinted(ts, []);
      j := JObject(ms);
    }
  }

  /** The parser accepts exactly the token lists that begin with the tokens of a tree. */
  lemma ParsesIffPrinted(ts: seq<Token>)
    ensures ParseValue(ts).Got? <==> exists j: Json, rest: seq<Token> :: ts == Print(j) + rest
  {
    if ParseValue(ts).Got? {
      var j := ParsedWasPrinted(ts);
      assert ts == Print(j) + ParseValue(ts).rest;
    }
    forall j: Json, rest: seq<Token> | ts == Print(j) + rest ensures ParseValue(ts).Got? {
      PrintedParses(j, rest);
    }
  }

  // -------------------------------------------------- trees with distinct names

  /** In every object of the tree the member names are distinct. */
  predicate DistinctNames(j: Json)
    decreases j, 1
  {
    match j
    case JArray(es) => DistinctElements(es)
    case JObject(ms) => KeysDistinct(ms) && DistinctMembers(ms)
    case _ => true
  }

  predicate DistinctElements(es: seq<Json>)
    decreases es, 0
  {
    es != [] ==> DistinctNames(es[0]) && DistinctElements(es[1..])
  }

  predicate DistinctMembers(ms: seq<Entry<Json>>)
    decreases ms, 0
  {
    ms != [] ==> DistinctNames(ms[0].value) && DistinctMembers(ms[1..])
  }

  /** A tree with distinct names is its own meaning. */
  lemma {:induction false} DistinctMeansItself(j: Json)
    requires DistinctNames(j)
    ensures Meaning(j) == j
    decreases j, 1
  {
    match j {
      case JArray(es) => DistinctElementsMean(es);
      case JObject(ms) =>
        DistinctMembersMean(ms);
        assert [] + ms == ms;
        PutAllNew([], ms);
      case _ =>
    }
  }

  lemma {:induction false} DistinctElementsMean(es: seq<Json>)
    requires DistinctElements(es)
    ensures MeaningOfElements(es) == es
    decreases es, 0
  {
    if es != [] {
      DistinctMeansItself(es[0]);
      DistinctElementsMean(es[1..]);
    }
  }

  lemma {:induction false} DistinctMembersMean(ms: seq<Entry<Json>>)
    requires DistinctMembers(ms)
    ensures MeaningOfMembers(ms) == ms
    decreases ms, 0
  {
    if ms != [] {
      DistinctMeansItself(ms[0].value);
      DistinctMembersMean(ms[1..]);
    }
  }

  /** Print and parse are inverse on trees with distinct member names. */
  lemma PrintParseInverse(j: Json, rest: seq<Token>)
    requires DistinctNames(j)
    ensures ParseValue(Print(j) + rest) == Got(j, rest)
  {
    PrintedParses(j, rest);
    DistinctMeansItself(j);
  }

  // ---------------------------------------------------------------- the procedures

  /** The procedures share the cursor. An error (None) unwinds them all. */
  class Parser {
    const tokens: seq<Token>
    var cursor: nat

    constructor (tokens: seq<Token>)
      ensures this.tokens == tokens && cursor == 0
    {
      this.tokens := tokens;
      cursor := 0;
    }

    /** The tokens that are left. */
    ghost function Left(): seq<Token>
      reads this
      requires cursor <= |tokens|
    {
      tokens[cursor..]
    }

    /** The outcome `r` is what `p` says, and on success the cursor has advanced from
        `start` to where `p` says. */
    ghost predicate Follows<T(!new)>(p: Parse<T>, r: Option<T>, start: nat)
      reads this
    {
      match p
      case Fail => r.None?
      case Got(v, rest) => r == Some(v) && start < cursor <= |tokens| && Left() == rest
    }

    /** parseValue */
    method Value() returns (r: Option<Json>)
      requires cursor <= |tokens|
      modifies this`cursor
      ensures Follows(ParseValue(old(Left())), r, old(cursor))
      decreases |tokens| - cursor, 0
    {
      if cursor == |tokens| {
        return None;
      }
      var token := tokens[cursor];
      cursor := cursor + 1;
      assert Left() == old(Left())[1..];
      match token
      case Punct(c) =>
        if c == '{' {
          r := Object();
        } else if c == '[' {
          r := Array();
        } else {
          r := None;
        }
      case Quoted(t) => r := if t.None? then None else Some(JString(t.value));
      case Word(w) => r := Some(JWord(w));
      case Number(n) => r := Some(JNumber(n));
      case Junk(_) => r := None;
    }

    /** parseObject, behind the opening brace */
    method Object() returns (r: Option<Json>)
      requires cursor <= |tokens|
      modifies this`cursor
      ensures Follows(ParseObject(old(Left())), r, old(cursor))
      decreases |tokens| - cursor, 3
    {
      if cursor == |tokens| {
        return None;
      }
      if tokens[cursor] == Punct('}') {
        cursor := cursor + 1;
        return Some(JObject([]));
      }
      var d := Members([]);
      r := if d.None? then None else Some(JObject(d.value));
    }

    /** parseObjectMember */
    method Member() returns (r: Option<Entry<Json>>)
      requires cursor <= |tokens|
      modifies this`cursor
      ensures Follows(ParseMember(old(Left())), r, old(cursor))
      decreases |tokens| - cursor, 1
    {
      if cursor == |tokens| {
        return None;
      }
      var token := tokens[cursor];
      cursor := cursor + 1;
      if !token.Quoted? || token.text.None? || cursor == |tokens| {
        return None;
      }
      var colon := tokens[cursor];
      cursor := cursor + 1;
      if colon != Punct(':') {
        return None;
      }
      assert Left() == old(Left())[2..];
      var v := Value();
      r := if v.None? then None else Some(Entry(token.text.value, v.value));
    }

    /** parseObjectMembers, on the dictionary `start` */
    method Members(start: seq<Entry<Json>>) returns (r: Option<seq<Entry<Json>>>)
      requires cursor <= |tokens|
      modifies this`cursor
      ensures Follows(ParseMembers(old(Left()), start), r, old(cursor))
      decreases |tokens| - cursor, 2
    {
      var d := start;
      while true
        invariant old(cursor) <= cursor <= |tokens|
        invariant ParseMembers(Left(), d) == ParseMembers(old(Left()), start)
        decreases |tokens| - cursor
      {
        ghost var ts := Left();
        var m := Member();
        if m.None? || cursor == |tokens| {
          return None;
        }
        d := Put(d, m.value);
        var token := tokens[cursor];
        cursor := cursor + 1;
        assert Left() == ParseMember(ts).rest[1..];
        if token == Punct('}') {
          return Some(d);
        }
        if token != Punct(',') {
          return None;
        }
      }
    }

    /** parseArray, behind the opening bracket */
    method Array() returns (r: Option<Json>)
      requires cursor <= |tokens|
      modifies this`cursor
      ensures Follows(ParseArray(old(Left())), r, old(cursor))
      decreases |tokens| - cursor, 3
    {
      if cursor == |tokens| {
        return None;
      }
      if tokens[cursor] == Punct(']') {
        cursor := cursor + 1;
        return Some(JArray([]));
      }
      var es := Elements([]);
      r := if es.None? then None else Some(JArray(es.value));
    }

    /** parseArrayElements, on the list `start` */
    method Elements(start: seq<Json>) returns (r: Option<seq<Json>>)
      requires cursor <= |tokens|
      modifies this`cursor
      ensures Follows(ParseElements(old(Left()), start), r, old(cursor))
      decreases |tokens| - cursor, 2
    {
      var es := start;
      while true
        invariant old(cursor) <= cursor <= |tokens|
        invariant ParseElements(Left(), es) == ParseElements(old(Left()), start)
        decreases |tokens| - cursor
      {
        ghost var ts := Left();
        var v := Value();
        if v.None? || cursor == |tokens| {
          return None;
        }
        es := es + [v.value];
        var token := tokens[cursor];
        cursor := cursor + 1;
        assert Left() == ParseValue(ts).rest[1..];
        if token == Punct(']') {
          return Some(es);
        }
        if token != Punct(',') {
          return None;
        }
      }
    }
  }

  // ---------------------------------------------------------------- many values

  /** The values at the front of the tokens, at most `n` of them unless `n` is negative. */
  function ParseMany(ts: seq<Token>, n: int): Option<seq<Json>>
    decreases |ts|
  {
    if n == 0 then Some([])
    else if ts == [] then (if n > 0 then None else Some([]))
    else
      match ParseValue(ts)
      case Fail => None
      case Got(v, rest) => Prefixed([v], ParseMany(rest, if n > 0 then n - 1 else n))
  }

  function Prefixed(front: seq<Json>, more: Option<seq<Json>>): Option<seq<Json>> {
    if more.None? then None else Some(front + more.value)
  }

  lemma PrefixedTwice(a: seq<Json>, b: seq<Json>, more: Option<seq<Json>>)
    ensures Prefixed(a, Prefixed(b, more)) == Prefixed(a + b, more)
    ensures Prefixed([], more) == more
  {
    if more.Some? {
      assert a + (b + more.value) == (a + b) + more.value;
      assert [] + more.value == more.value;
    }
  }

  /** many-json2dict: a limit of zero is refused, a negative one means all. */
  method ManyJson2Dict(tokens: seq<Token>, max: int) returns (r: Option<seq<Json>>)
    ensures r == if max == 0 then None else ParseMany(tokens, max)
  {
    if max == 0 {
      return None;
    }
    var p := new Parser(tokens);
    var result: seq<Json> := [];
    var n := max;
    assert p.Left() == tokens;
    PrefixedTwice([], [], ParseMany(tokens, max));
    while n != 0 && p.cursor < |tokens|
      invariant p.tokens == tokens && p.cursor <= |tokens| && fresh(p)
      invariant ParseMany(tokens, max) == Prefixed(result, ParseMany(p.Left(), n))
      decreases |tokens| - p.cursor
    {
      ghost var before := p.Left();
      var v := p.Value();
      if v.None? {
        return None;
      }
      PrefixedTwice(result, [v.value], ParseMany(p.Left(), if n > 0 then n - 1 else n));
      result := result + [v.value];
      if n > 0 {
        n := n - 1;
      }
    }
    if n > 0 {
      return None;
    }
    assert result + [] == result;
    r := Some(result);
  }

  function PrintAll(js: seq<Json>): seq<Token> {
    if js == [] then [] else Print(js[0]) + PrintAll(js[1..])
  }

  /** Values printed one after the other are all read back; with a limit the first
      so many, and asking for more than there are is an error. */
  lemma {:induction false} ManyRoundTrip(js: seq<Json>, n: int)
    requires forall i :: 0 <= i < |js| ==> DistinctNames(js[i])
    ensures ParseMany(PrintAll(js), n) ==
            if n < 0 then Some(js) else if n <= |js| then Some(js[..n]) else None
  {
    hide Print, ParseValue, DistinctNames;
    if n == 0 {
    } else if js == [] {
    } else {
      PrintParseInverse(js[0], PrintAll(js[1..]));
      PrintNonEmpty(js[0]);
      var k := if n > 0 then n - 1 else n;
      ManyRoundTrip(js[1..], k);
      assert PrintAll(js) == Print(js[0]) + PrintAll(js[1..]);
      if n < 0 { assert [js[0]] + js[1..] == js; }
      if 0 < n <= |js| { assert [js[0]] + js[1..][..n - 1] == js[..n]; }
    }
  }

  /** `js` are the trees whose tokens are read, with `rest` left. */
  lemma {:induction false} PrintedAllParse(js: seq<Json>, rest: seq<Token>, n: int)
    requires if n < 0 then rest == [] else n == |js|
    ensures ParseMany(PrintAll(js) + rest, n) == Some(MeaningOfElements(js))
    decreases |js|
  {
    var ts := PrintAll(js) + rest;
    if js != [] {
      var tail := PrintAll(js[1..]) + rest;
      assert ts == Print(js[0]) + tail;
      PrintedParses(js[0], tail);
      PrintNonEmpty(js[0]);
      PrintedAllParse(js[1..], rest, if n > 0 then n - 1 else n);
    }
  }

  /** Whatever is read as many values was printed as so many trees: all of the tokens
      without a limit, a beginning of them with one. */
  lemma {:induction false} ManyWerePrinted(ts: seq<Token>, n: int) returns (js: seq<Json>, rest: seq<Token>)
    requires ParseMany(ts, n).Some?
    ensures ts == PrintAll(js) + rest && (if n < 0 then rest == [] else n == |js|)
    ensures ParseMany(ts, n).value == MeaningOfElements(js)
    decreases |ts|
  {
    hide Print, ParseValue, Meaning;
    if n == 0 || ts == [] {
      js, rest := [], ts;
    } else {
      var j := ParsedWasPrinted(ts);
      var more;
      more, rest := ManyWerePrinted(ParseValue(ts).rest, if n > 0 then n - 1 else n);
      js := [j] + more;
      assert js[1..] == more;
      assert ts == Print(j) + (PrintAll(more) + rest);
    }
  }

  /** Many values are read exactly from the tokens of that many trees: without a limit the
      tokens must be those of trees to the very end, with a limit of `n` they must begin
      with those of `n` trees. In all other cases, a broken value among them, the whole
      call fails; and what is read are the trees' meanings, in order. */
  lemma ManyIff(ts: seq<Token>, n: int, r: seq<Json>)
    ensures ParseMany(ts, n) == Some(r) <==>
            exists js: seq<Json>, rest: seq<Token> ::
              && ts == PrintAll(js) + rest && (if n < 0 then rest == [] else n == |js|)
              && r == MeaningOfElements(js)
  {
    if ParseMany(ts, n) == Some(r) {
      var js, rest := ManyWerePrinted(ts, n);
      assert ts == PrintAll(js) + rest;
    }
    forall js: seq<Json>, rest: seq<Token> |
      && ts == PrintAll(js) + rest && (if n < 0 then rest == [] else n == |js|)
      && r == MeaningOfElements(js)
      ensures ParseMany(ts, n) == Some(r)
    {
      PrintedAllParse(js, rest, n);
    }
  }
}
