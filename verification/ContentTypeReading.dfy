/** What treq_ParseContentType() makes of a string, in terms of the positions in it:
    where a parameter starts, where the word "charset" stands, where a value ends. */
module ContentTypeReading {
  import opened Common
  import opened ContentType

  // ------------------------------------------------------------- where things are

  const BLANKS := " \t\n\r\U{0b}\U{0c}"

  lemma IsSpaceIff(c: char)
    ensures IsSpace(c) <==> c in BLANKS
  {
    if IsSpace(c) {
      assert BLANKS[0] == c || BLANKS[1] == c || BLANKS[2] == c || BLANKS[3] == c || BLANKS[4] == c || BLANKS[5] == c;
    }
  }

  predicate AllBlank(s: string) {
    forall i :: 0 <= i < |s| ==> s[i] in BLANKS
  }

  /** The word "charset", in whatever case, stands at `m`. */
  predicate WordAt(s: string, m: nat) {
    m + 7 <= |s| && LowerAll(s[m..m + 7]) == "charset"
  }

  /** From `k` on there is nothing but blanks before the word at `m`. */
  predicate Leads(s: string, k: nat, m: nat) {
    k <= m && WordAt(s, m) && AllBlank(s[k..m])
  }

  ghost predicate CharsetBehind(s: string, k: nat) {
    exists m: nat :: Leads(s, k, m)
  }

  /** A section starts at `k`. */
  predicate Start(s: string, k: nat) {
    k <= |s| && (k == 0 || s[k - 1] == ';')
  }

  lemma WordNotBlank(s: string, m: nat)
    requires WordAt(s, m)
    ensures !IsSpace(s[m]) && forall i :: m <= i < m + 7 ==> s[i] != ';'
  {
    var w := s[m..m + 7];
    assert LowerAll(w)[0] == 'c' && w[0] == s[m];
    forall i | m <= i < m + 7 ensures s[i] != ';' {
      assert w[i - m] == s[i] && LowerAll(w)[i - m] == "charset"[i - m];
    }
  }

  lemma {:induction false} TrimBlanks(s: string, m: nat)
    requires m <= |s| && AllBlank(s[..m]) && (m < |s| ==> !IsSpace(s[m]))
    ensures Trim(s) == s[m..]
  {
    if m == 0 {
      assert s[0..] == s;
    } else {
      IsSpaceIff(s[0]);
      assert s[..m][0] == s[0] && s[..m][1..] == s[1..][..m - 1] && s[1..][m - 1..] == s[m..];
      TrimBlanks(s[1..], m - 1);
    }
  }

  lemma {:induction false} FirstNonBlank(s: string) returns (m: nat)
    ensures m <= |s| && AllBlank(s[..m]) && (m < |s| ==> !IsSpace(s[m])) && Trim(s) == s[m..]
  {
    m := 0;
    while m < |s| && IsSpace(s[m])
      invariant m <= |s| && AllBlank(s[..m])
    {
      IsSpaceIff(s[m]);
      assert s[..m + 1] == s[..m] + [s[m]];
      m := m + 1;
    }
    TrimBlanks(s, m);
  }

  lemma IsCharsetIff(sec: string)
    ensures IsCharset(sec) <==> CharsetBehind(sec, 0)
  {
    var m := FirstNonBlank(sec);
    if IsCharset(sec) {
      assert Trim(sec)[..7] == sec[m..m + 7];
      assert Leads(sec, 0, m);
    }
    if CharsetBehind(sec, 0) {
      var n: nat :| Leads(sec, 0, n);
      WordNotBlank(sec, n);
      TrimBlanks(sec, n);
      assert sec[n..][..7] == sec[n..n + 7];
    }
  }

  lemma BlankIff(sec: string)
    ensures Blank(sec) <==> AllBlank(sec)
  {
    var m := FirstNonBlank(sec);
    if m < |sec| {
      IsSpaceIff(sec[m]);
    } else {
      assert sec[..m] == sec;
    }
  }

  /** A section and what is behind it. */
  lemma SectionsUnfold(s: string, k: nat)
    requires k == NextSemicolon(s)
    ensures Sections(s) == [s[..k]] + if k < |s| then Sections(s[k + 1..]) else []
  {
    SectionsSkip(s, k);
    assert s[..k] + "" == s[..k];
    if k < |s| {
      assert s[k..][1..] == s[k + 1..];
      assert Sections(s[k..]) == [""] + Sections(s[k + 1..]);
    } else {
      assert s[k..] == "";
    }
  }

  /** Looking for the word does not depend on what is in front, nor behind the section. */
  lemma LeadsShift(s: string, d: nat, k: nat, m: nat)
    requires d <= |s|
    ensures Leads(s[d..], k, m) <==> Leads(s, k + d, m + d)
  {
    if m + d + 7 <= |s| { assert s[d..][m..m + 7] == s[m + d..m + d + 7]; }
    if k <= m && m + d <= |s| { assert s[d..][k..m] == s[k + d..m + d]; }
  }

  lemma LeadsHere(s: string, k: nat, m: nat)
    requires k == NextSemicolon(s)
    ensures Leads(s, 0, m) <==> Leads(s[..k], 0, m)
  {
    if Leads(s, 0, m) {
      WordNotBlank(s, m);
      forall i | 0 <= i < m ensures s[i] != ';' { assert s[0..m][i] == s[i]; }
      assert m + 7 <= k;
    }
    if m + 7 <= k {
      assert s[..k][m..m + 7] == s[m..m + 7] && s[..k][0..m] == s[0..m];
    }
  }

  lemma CharsetHereIff(s: string, k: nat)
    requires k == NextSemicolon(s)
    ensures IsCharset(s[..k]) <==> CharsetBehind(s, 0)
  {
    IsCharsetIff(s[..k]);
    forall m: nat ensures Leads(s, 0, m) <==> Leads(s[..k], 0, m) { LeadsHere(s, k, m); }
  }

  lemma AfterCharsetCons(sec: string, more: seq<string>)
    ensures AfterCharset([sec] + more) ==
            if IsCharset(sec) then Some(Trim(sec)[7..] + Behind(more)) else AfterCharset(more)
  {
    assert ([sec] + more)[1..] == more;
  }

  /** Behind the first section's semicolon. */
  lemma StartShift(s: string, d: nat, j: nat)
    requires d <= |s| && (d > 0 ==> s[d - 1] == ';')
    ensures Start(s[d..], j) <==> Start(s, j + d)
    ensures CharsetBehind(s[d..], j) <==> CharsetBehind(s, j + d)
  {
    if CharsetBehind(s[d..], j) {
      var m: nat :| Leads(s[d..], j, m);
      LeadsShift(s, d, j, m);
    }
    if CharsetBehind(s, j + d) {
      var m: nat :| Leads(s, j + d, m);
      LeadsShift(s, d, j, m - d);
    }
  }

  lemma LaterStart(s: string, e: nat, k: nat)
    requires e == NextSemicolon(s) && Start(s, k) && k != 0
    ensures e < k <= |s| && Start(s[e + 1..], k - e - 1)
  {}

  /** No section that starts before `k` is the charset. */
  ghost predicate NoneBefore(s: string, k: nat) {
    forall j: nat :: j < k && Start(s, j) ==> !CharsetBehind(s, j)
  }

  lemma NoneBeforeTail(s: string, e: nat, k: nat)
    requires e == NextSemicolon(s) && Start(s, k) && k > 0 && NoneBefore(s, k)
    ensures e < k <= |s| && Start(s[e + 1..], k - e - 1) && NoneBefore(s[e + 1..], k - e - 1)
    ensures !CharsetBehind(s, 0)
  {
    assert Start(s, 0);
    LaterStart(s, e, k);
    hide Start, CharsetBehind, NextSemicolon;
    var t, d := s[e + 1..], e + 1;
    forall j: nat | j < k - d && Start(t, j) ensures !CharsetBehind(t, j) { StartShift(s, d, j); }
  }

  /** The first section that is the charset, by position. */
  lemma {:induction false} FoundAt(s: string, k: nat, m: nat)
    requires Start(s, k) && Leads(s, k, m) && NoneBefore(s, k)
    ensures m + 7 <= |s| && AfterCharset(Sections(s)) == Some(s[m + 7..])
  {
    hide Leads, Sections, IsCharset, CharsetBehind, Start, AfterCharset, NextSemicolon, NoneBefore;
    var e := NextSemicolon(s);
    if k == 0 {
      HereAt(s, e, m);
    } else {
      NoneBeforeTail(s, e, k);
      CharsetHereIff(s, e);
      LeadsBound(s, k, m);
      LeadsShift(s, e + 1, k - e - 1, m - e - 1);
      FoundAt(s[e + 1..], k - e - 1, m - e - 1);
      FoundLater(s, e, m - e - 1);
    }
  }

  lemma FoundLater(s: string, e: nat, m: nat)
    requires e == NextSemicolon(s) && e < |s| && !IsCharset(s[..e]) && m + 7 <= |s[e + 1..]|
    requires AfterCharset(Sections(s[e + 1..])) == Some(s[e + 1..][m + 7..])
    ensures AfterCharset(Sections(s)) == Some(s[e + 1 + m + 7..])
  {
    hide AfterCharset, Sections, IsCharset;
    SectionsUnfold(s, e);
    AfterCharsetCons(s[..e], Sections(s[e + 1..]));
  }

  lemma LeadsBound(s: string, k: nat, m: nat)
    requires Leads(s, k, m)
    ensures k <= m && m + 7 <= |s|
  {}

  lemma HereAt(s: string, e: nat, m: nat)
    requires e == NextSemicolon(s) && Leads(s, 0, m)
    ensures m + 7 <= |s| && AfterCharset(Sections(s)) == Some(s[m + 7..])
  {
    HereTrimmed(s, e, m);
    hide LowerAll, Sections, Trim, IsCharset, CharsetBehind, Leads, Behind, AfterCharset;
    CharsetHereIff(s, e);
    SectionsUnfold(s, e);
    SectionsJoin(s);
    var more := if e < |s| then Sections(s[e + 1..]) else [];
    AfterCharsetCons(s[..e], more);
    assert Sections(s)[1..] == more;
    CutFront(s[..e], Behind(more), m);
  }

  lemma CutFront(a: string, b: string, m: nat)
    requires m + 7 <= |a|
    ensures (a + b)[m + 7..] == a[m..][7..] + b
  {}

  lemma HereTrimmed(s: string, e: nat, m: nat)
    requires e == NextSemicolon(s) && Leads(s, 0, m)
    ensures m + 7 <= e && Trim(s[..e]) == s[..e][m..] && CharsetBehind(s, 0)
  {
    LeadsHere(s, e, m);
    hide LowerAll;
    assert m + 7 <= e;
    WordNotBlank(s[..e], m);
    assert s[..e][0..m] == s[..e][..m];
    TrimBlanks(s[..e], m);
  }

  /** No section is the charset. */
  ghost predicate NoCharset(s: string) {
    forall k: nat :: Start(s, k) ==> !CharsetBehind(s, k)
  }

  lemma NoCharsetTail(s: string, e: nat)
    requires e == NextSemicolon(s) && e < |s| && NoCharset(s)
    ensures NoCharset(s[e + 1..])
  {
    hide CharsetBehind, Start, NextSemicolon;
    var t := s[e + 1..];
    forall k: nat | Start(t, k) ensures !CharsetBehind(t, k) { StartShift(s, e + 1, k); }
  }

  lemma NoCharsetJoin(s: string, e: nat)
    requires e == NextSemicolon(s) && !CharsetBehind(s, 0) && (e < |s| ==> NoCharset(s[e + 1..]))
    ensures NoCharset(s)
  {
    hide CharsetBehind, Start, NextSemicolon;
    forall k: nat | Start(s, k) ensures !CharsetBehind(s, k) {
      if k != 0 {
        LaterStart(s, e, k);
        StartShift(s, e + 1, k - e - 1);
      }
    }
  }

  lemma NoCharsetUnfold(s: string, e: nat)
    requires e == NextSemicolon(s)
    ensures NoCharset(s) <==> !CharsetBehind(s, 0) && (e < |s| ==> NoCharset(s[e + 1..]))
  {
    assert Start(s, 0);
    hide CharsetBehind, Start, NextSemicolon;
    if NoCharset(s) {
      if e < |s| { NoCharsetTail(s, e); }
    } else if !CharsetBehind(s, 0) && (e < |s| ==> NoCharset(s[e + 1..])) {
      NoCharsetJoin(s, e);
    }
  }

  /** No section is the charset, by position. */
  lemma {:induction false} NoneAt(s: string)
    ensures AfterCharset(Sections(s)).None? <==> NoCharset(s)
    decreases |s|
  {
    var e := NextSemicolon(s);
    hide Sections, AfterCharset, IsCharset, CharsetBehind, NoCharset, NextSemicolon;
    CharsetHereIff(s, e);
    NoCharsetUnfold(s, e);
    SectionsUnfold(s, e);
    AfterCharsetCons(s[..e], if e < |s| then Sections(s[e + 1..]) else []);
    if e < |s| { NoneAt(s[e + 1..]); } else { NoSections(); }
  }

  lemma NoSections()
    ensures AfterCharset([]).None?
  {}

  /** The last section is blank, by position. */
  lemma {:induction false} LastBlankAt(s: string)
    ensures Blank(Sections(s)[|Sections(s)| - 1]) <==> exists k: nat :: Start(s, k) && AllBlank(s[k..])
    decreases |s|
  {
    var e := NextSemicolon(s);
    hide Sections, Blank, AllBlank, NextSemicolon;
    SectionsUnfold(s, e);
    BlankIff(s[..e]);
    assert s[0..] == s;
    if e < |s| {
      var t, d := s[e + 1..], e + 1;
      LastBlankAt(t);
      if k: nat :| Start(t, k) && AllBlank(t[k..]) {
        StartShift(s, d, k);
        assert Start(s, k + d) && s[k + d..] == t[k..];
      }
      forall k: nat | Start(s, k) && AllBlank(s[k..]) ensures k >= d && Start(t, k - d) && s[k..] == t[k - d..] {
        if k <= e { BlankNoSemicolon(s, k, e); }
        StartShift(s, d, k - d);
      }
    } else {
      assert s[..e] == s;
      assert forall k: nat :: Start(s, k) ==> k == 0;
      assert Start(s, 0);
    }
  }

  lemma BlankNoSemicolon(s: string, k: nat, e: nat)
    requires k <= e < |s| && s[e] == ';'
    ensures !AllBlank(s[k..])
  {
    assert s[k..][e - k] == ';';
  }

  /** A parameter starts at `k`, right behind a semicolon. */
  predicate ParamAt(s: string, k: nat) {
    1 <= k <= |s| && s[k - 1] == ';'
  }

  lemma ParamShift(data: string, f: nat, k: nat)
    requires f == NextSemicolon(data)
    ensures ParamAt(data, k) <==> f < k <= |data| && Start(data[f + 1..], k - f - 1)
  {
    if f < k <= |data| { assert k - f - 1 > 0 ==> data[f + 1..][k - f - 2] == data[k - 1]; }
  }

  lemma ParamCharset(data: string, f: nat, k: nat)
    requires f == NextSemicolon(data) && ParamAt(data, k)
    ensures f < k && (CharsetBehind(data, k) <==> CharsetBehind(data[f + 1..], k - f - 1))
    ensures data[k..] == data[f + 1..][k - f - 1..]
  {
    hide NextSemicolon, Start, ParamAt, CharsetBehind;
    ParamShift(data, f, k);
    SemicolonAt(data, f, k);
    StartShift(data, f + 1, k - f - 1);
  }

  lemma SemicolonAt(data: string, f: nat, k: nat)
    requires f == NextSemicolon(data) && f < k <= |data|
    ensures data[f] == ';'
  {}

  lemma ParamNoCharset(data: string, f: nat)
    requires f == NextSemicolon(data) && f < |data|
    ensures NoCharset(data[f + 1..]) <==> forall k: nat :: ParamAt(data, k) ==> !CharsetBehind(data, k)
  {
    hide CharsetBehind, Start, ParamAt, NextSemicolon, NoCharset;
    if NoCharset(data[f + 1..]) {
      forall k: nat | ParamAt(data, k) ensures !CharsetBehind(data, k) { ParamNone(data, f, k); }
    } else {
      var k := ParamSome(data, f);
    }
  }

  lemma ParamNone(data: string, f: nat, k: nat)
    requires f == NextSemicolon(data) && f < |data| && NoCharset(data[f + 1..]) && ParamAt(data, k)
    ensures !CharsetBehind(data, k)
  {
    hide CharsetBehind, Start, ParamAt, NextSemicolon;
    ParamShift(data, f, k);
    ParamCharset(data, f, k);
  }

  lemma ParamSome(data: string, f: nat) returns (k: nat)
    requires f == NextSemicolon(data) && f < |data| && !NoCharset(data[f + 1..])
    ensures ParamAt(data, k) && CharsetBehind(data, k)
  {
    hide CharsetBehind, Start, ParamAt, NextSemicolon;
    var p := data[f + 1..];
    var j: nat :| Start(p, j) && CharsetBehind(p, j);
    StartBound(p, j);
    k := j + f + 1;
    ParamShift(data, f, k);
    ParamCharset(data, f, k);
  }

  lemma StartBound(s: string, k: nat)
    requires Start(s, k)
    ensures k <= |s|
  {}

  lemma ParamLastBlank(data: string, f: nat)
    requires f == NextSemicolon(data) && f < |data|
    ensures Blank(Sections(data[f + 1..])[|Sections(data[f + 1..])| - 1]) <==>
            exists k: nat :: ParamAt(data, k) && AllBlank(data[k..])
  {
    var p := data[f + 1..];
    LastBlankAt(p);
    hide Start, ParamAt, NextSemicolon, AllBlank, Sections, Blank;
    if k: nat :| ParamAt(data, k) && AllBlank(data[k..]) {
      ParamShift(data, f, k);
      ParamCharset(data, f, k);
    }
    if j: nat :| Start(p, j) && AllBlank(p[j..]) {
      StartBound(p, j);
      ParamShift(data, f, j + f + 1);
      ParamCharset(data, f, j + f + 1);
    }
  }

  lemma DataSections(data: string)
    ensures var f := NextSemicolon(data);
            && Sections(data)[0] == data[..f]
            && Sections(data)[1..] == if f < |data| then Sections(data[f + 1..]) else []
  {
    hide Sections, NextSemicolon;
    SectionsUnfold(data, NextSemicolon(data));
  }

  /** The scan leaves the string exactly when there is a semicolon, and behind no semicolon
      comes, after blanks, the word "charset" or the end of the string. */
  lemma OverrunIff(data: string)
    ensures ContentTypeOf(data).OutOfBounds? <==>
            ';' in data && forall k: nat :: ParamAt(data, k) ==> !CharsetBehind(data, k) && !AllBlank(data[k..])
  {
    var f := NextSemicolon(data);
    DataSections(data);
    hide NextSemicolon, Sections, Start, ParamAt, Blank, CharsetBehind, AllBlank, NoCharset;
    if f < |data| {
      NoneAt(data[f + 1..]);
      ParamNoCharset(data, f);
      ParamLastBlank(data, f);
    } else {
      assert data[..f] == data;
    }
  }

  /** What is parsed when the first parameter that is the charset starts at `k`, with the
      word at `m`: the type in front of the first semicolon and the value behind the word. */
  lemma CharsetIs(data: string, k: nat, m: nat)
    requires ParamAt(data, k) && Leads(data, k, m)
    requires forall j: nat :: j < k && ParamAt(data, j) ==> !CharsetBehind(data, j)
    ensures m + 7 <= |data|
    ensures ContentTypeOf(data) == Parsed(TypeOf(data[..NextSemicolon(data)]), CharsetOf(Some(data[m + 7..])))
  {
    var f := NextSemicolon(data);
    hide NextSemicolon, Sections, ParamAt, CharsetBehind, Leads, AfterCharset, TypeOf, CharsetOf;
    DataSections(data);
    ParamsFound(data, f, k, m);
  }

  lemma ParamsFound(data: string, f: nat, k: nat, m: nat)
    requires f == NextSemicolon(data) && ParamAt(data, k) && Leads(data, k, m)
    requires forall j: nat :: j < k && ParamAt(data, j) ==> !CharsetBehind(data, j)
    ensures m + 7 <= |data| && f < |data| && AfterCharset(Sections(data[f + 1..])) == Some(data[m + 7..])
  {
    hide NextSemicolon, Sections, Start, ParamAt, CharsetBehind, Leads, AfterCharset;
    LeadsBound(data, k, m);
    ParamShift(data, f, k);
    var p, d := data[f + 1..], f + 1;
    LeadsShift(data, d, k - d, m - d);
    ParamsNoneBefore(data, f, k);
    FoundAt(p, k - d, m - d);
  }

  lemma ParamsNoneBefore(data: string, f: nat, k: nat)
    requires f == NextSemicolon(data) && f < k
    requires forall j: nat :: j < k && ParamAt(data, j) ==> !CharsetBehind(data, j)
    ensures f < |data| ==> NoneBefore(data[f + 1..], k - f - 1)
  {
    hide NextSemicolon, Start, ParamAt, CharsetBehind;
    if f < |data| {
      var p, d := data[f + 1..], f + 1;
      forall j: nat | j < k - d && Start(p, j) ensures !CharsetBehind(p, j) {
        StartBound(p, j);
        ParamShift(data, f, j + d);
        ParamCharset(data, f, j + d);
      }
    }
  }

  /** Without a charset, and within the string, the charset is empty. */
  lemma NoCharsetIs(data: string)
    requires forall k: nat :: ParamAt(data, k) ==> !CharsetBehind(data, k)
    requires ';' in data ==> exists k: nat :: ParamAt(data, k) && AllBlank(data[k..])
    ensures ContentTypeOf(data) == Parsed(TypeOf(data[..NextSemicolon(data)]), "")
  {
    var f := NextSemicolon(data);
    DataSections(data);
    hide NextSemicolon, Sections, Start, ParamAt, CharsetBehind, AllBlank, NoCharset, Blank;
    if f < |data| {
      NoneAt(data[f + 1..]);
      ParamNoCharset(data, f);
      ParamLastBlank(data, f);
    } else {
      NoSections();
    }
  }

  /** The type: without its blanks, at most 128 characters of it. */
  lemma TypeIs(section: string)
    ensures var t := NonSpaces(section); TypeOf(section) == LowerAll(if |t| <= 128 then t else t[..128])
  {}

  lemma {:induction false} NonSpacesAppend(a: string, b: string)
    ensures NonSpaces(a + b) == NonSpaces(a) + NonSpaces(b)
  {
    if a == "" {
      assert a + b == b;
    } else {
      assert (a + b)[1..] == a[1..] + b;
      NonSpacesAppend(a[1..], b);
    }
  }

  lemma NonSpacesOne(c: char)
    ensures NonSpaces([c]) == if c in BLANKS then "" else [c]
  {
    IsSpaceIff(c);
    assert [c][1..] == "";
  }

  lemma BlankThen(b: string, t: string)
    requires AllBlank(b) && (t == "" || t[0] !in BLANKS)
    ensures Trim(b + t) == t
  {
    if t != "" { IsSpaceIff(t[0]); }
    assert (b + t)[..|b|] == b && (b + t)[|b|..] == t;
    TrimBlanks(b + t, |b|);
  }

  lemma {:induction false} UntilQuoteIs(v: string, tail: string)
    requires '"' !in v && (tail == "" || tail[0] == '"')
    ensures UntilQuote(v + tail) == v
  {
    if v == "" {
      assert v + tail == tail;
    } else {
      assert (v + tail)[1..] == v[1..] + tail;
      assert v == [v[0]] + v[1..];
      UntilQuoteIs(v[1..], tail);
    }
  }

  lemma {:induction false} UntilEndIs(v: string, tail: string)
    requires ';' !in v && (forall i :: 0 <= i < |v| ==> v[i] !in BLANKS)
    requires tail == "" || tail[0] == ';' || tail[0] in BLANKS
    ensures UntilEnd(v + tail) == v
  {
    if v == "" {
      assert v + tail == tail;
      if tail != "" { IsSpaceIff(tail[0]); }
    } else {
      IsSpaceIff(v[0]);
      assert (v + tail)[1..] == v[1..] + tail;
      assert v == [v[0]] + v[1..];
      UntilEndIs(v[1..], tail);
    }
  }

  /** The value: blanks may stand around the equals sign; in quotes it goes to the next
      quote, without quotes to the next semicolon or blank; 32 characters of it are kept. */
  lemma ValueIs(b1: string, b2: string, quoted: bool, v: string, tail: string)
    requires AllBlank(b1) && AllBlank(b2)
    requires quoted ==> '"' !in v && (tail == "" || tail[0] == '"')
    requires !quoted ==>
            && ';' !in v && (forall i :: 0 <= i < |v| ==> v[i] !in BLANKS) && (v != "" ==> v[0] != '"')
            && (tail == "" || tail[0] == ';' || (tail[0] in BLANKS && v != ""))
    ensures CharsetOf(Some(b1 + ("=" + (b2 + ((if quoted then "\"" else "") + v + tail))))) ==
            LowerAll(if |v| <= 32 then v else v[..32])
  {
    var w := (if quoted then "\"" else "") + v + tail;
    assert w != "" ==> w[0] !in BLANKS;
    BlankThen(b2, w);
    BlankThen(b1, "=" + (b2 + w));
    assert ("=" + (b2 + w))[1..] == b2 + w;
    if quoted {
      assert w[1..] == v + tail;
      UntilQuoteIs(v, tail);
    } else {
      assert w == v + tail;
      UntilEndIs(v, tail);
    }
  }

  /** Without an equals sign there is no value. */
  lemma NoValueIs(b1: string, tail: string)
    requires AllBlank(b1) && (tail == "" || (tail[0] !in BLANKS && tail[0] != '='))
    ensures CharsetOf(Some(b1 + tail)) == ""
  {
    BlankThen(b1, tail);
  }
}
