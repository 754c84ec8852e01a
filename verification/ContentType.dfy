/** The Content-Type scanner: treq_ParseContentType(). */
module ContentType {
  import opened Common

  const TYPE_SIZE: nat := 128
  const CHARSET_SIZE: nat := 32

  /** isspace() in the C locale. */
  predicate IsSpace(c: char) {
    c == ' ' || c == '\t' || c == '\n' || c == '\r' || c as int == 11 || c as int == 12
  }

  // -------------------------------------------------------- the specification

  function Take(s: string, n: nat): string {
    if |s| <= n then s else s[..n]
  }

  function NonSpaces(s: string): string {
    if s == "" then "" else (if IsSpace(s[0]) then "" else [s[0]]) + NonSpaces(s[1..])
  }

  /** The text without its leading white space. */
  function Trim(s: string): string {
    if s != "" && IsSpace(s[0]) then Trim(s[1..]) else s
  }

  function Sections(s: string): (secs: seq<string>)
    ensures secs != []
  {
    if s == "" then [""]
    else
      var rest := Sections(s[1..]);
      if s[0] == ';' then [""] + rest else [[s[0]] + rest[0]] + rest[1..]
  }

  /** The sections with their semicolons put back. */
  function Behind(secs: seq<string>): string {
    if secs == [] then "" else ";" + secs[0] + Behind(secs[1..])
  }

  predicate IsCharset(section: string) {
    |Trim(section)| >= 7 && LowerAll(Trim(section)[..7]) == "charset"
  }

  predicate Blank(section: string) {
    Trim(section) == ""
  }

  /** What follows the word "charset" of the first section that begins with it. */
  function AfterCharset(secs: seq<string>): Option<string> {
    if secs == [] then None
    else if IsCharset(secs[0]) then Some(Trim(secs[0])[7..] + Behind(secs[1..]))
    else AfterCharset(secs[1..])
  }

  function UntilQuote(s: string): string {
    if s == "" || s[0] == '"' then "" else [s[0]] + UntilQuote(s[1..])
  }

  function UntilEnd(s: string): string {
    if s == "" || s[0] == ';' || IsSpace(s[0]) then "" else [s[0]] + UntilEnd(s[1..])
  }

  /** The value behind the equals sign, quoted or not. */
  function CharsetText(rest: string): string {
    var t := Trim(rest);
    if t == "" || t[0] != '=' then ""
    else
      var v := Trim(t[1..]);
      if v != "" && v[0] == '"' then UntilQuote(v[1..]) else UntilEnd(v)
  }

  datatype Outcome = Parsed(kind: string, charset: string) | OutOfBounds

  function CharsetOf(rest: Option<string>): string {
    if rest.None? then "" else LowerAll(Take(CharsetText(rest.value), CHARSET_SIZE))
  }

  function TypeOf(section: string): string {
    LowerAll(Take(NonSpaces(section), TYPE_SIZE))
  }

  /** The section scan leaves the string: there are parameters, none is the charset,
      and the last is not blank. */
  predicate Overruns(params: seq<string>) {
    params != [] && AfterCharset(params).None? && !Blank(params[|params| - 1])
  }

  /** The scanner as the documents describe it, and where it goes wrong. */
  function ContentTypeOf(data: string): Outcome {
    var secs := Sections(data);
    if Overruns(secs[1..]) then OutOfBounds
    else Parsed(TypeOf(secs[0]), CharsetOf(AfterCharset(secs[1..])))
  }

  // ------------------------------------------------------------ about sections

  lemma {:induction false} SectionsJoin(s: string)
    ensures s == Sections(s)[0] + Behind(Sections(s)[1..])
  {
    if s != "" {
      SectionsJoin(s[1..]);
      var rest := Sections(s[1..]);
      assert s == [s[0]] + s[1..];
      if s[0] == ';' {
        assert ([""] + rest)[1..] == rest;
      } else {
        assert ([[s[0]] + rest[0]] + rest[1..])[1..] == rest[1..];
      }
    }
  }

  lemma {:induction false} SectionsSkip(s: string, k: nat)
    requires k <= |s| && forall i :: 0 <= i < k ==> s[i] != ';'
    ensures Sections(s) == [s[..k] + Sections(s[k..])[0]] + Sections(s[k..])[1..]
  {
    if k > 0 {
      SectionsSkip(s[1..], k - 1);
      assert s[1..][k - 1..] == s[k..];
      assert s[..k] == [s[0]] + s[1..][..k - 1];
      var r, q := Sections(s[1..]), Sections(s[k..]);
      assert r == [s[1..][..k - 1] + q[0]] + q[1..];
      assert r[1..] == q[1..];
      assert [s[0]] + (s[1..][..k - 1] + q[0]) == s[..k] + q[0];
    } else {
      assert s[0..] == s && "" + Sections(s)[0] == Sections(s)[0];
      assert [Sections(s)[0]] + Sections(s)[1..] == Sections(s);
    }
  }

  lemma {:induction false} TrimHead(s: string)
    ensures s != "" && !IsSpace(s[0]) ==> Trim(s) == s
    ensures Trim(s) == "" || !IsSpace(Trim(s)[0])
  {
    if s != "" && IsSpace(s[0]) { TrimHead(s[1..]); }
  }

  lemma TrimSpace(c: char, s: string)
    requires IsSpace(c)
    ensures Trim([c] + s) == Trim(s)
  {
    assert ([c] + s)[1..] == s;
  }

  /** A space or a semicolon in front of the parameters changes nothing. */
  lemma SkipOne(s: string)
    requires s != "" && (IsSpace(s[0]) || s[0] == ';')
    ensures AfterCharset(Sections(s)) == AfterCharset(Sections(s[1..]))
    ensures Overruns(Sections(s)) <==> Overruns(Sections(s[1..]))
  {
    var rest := Sections(s[1..]);
    if s[0] == ';' {
      assert Sections(s) == [""] + rest && Sections(s)[1..] == rest;
      assert Trim("") == "" && !IsCharset("");
    } else {
      assert Sections(s) == [[s[0]] + rest[0]] + rest[1..];
      assert Sections(s)[1..] == rest[1..];
      TrimSpace(s[0], rest[0]);
    }
  }

  /** A section that is not the charset, with its semicolon. */
  lemma SkipSection(s: string, k: nat)
    requires 0 < k < |s| && s[k] == ';' && (forall i :: 0 <= i < k ==> s[i] != ';')
    requires !IsSpace(s[0]) && !IsCharset(s[..k])
    ensures AfterCharset(Sections(s)) == AfterCharset(Sections(s[k + 1..]))
    ensures Overruns(Sections(s)) <==> Overruns(Sections(s[k + 1..]))
  {
    SectionsSkip(s, k);
    assert s[k..][1..] == s[k + 1..];
    assert Sections(s[k..]) == [""] + Sections(s[k + 1..]);
    assert s[..k] + "" == s[..k];
    assert Sections(s)[1..] == Sections(s[k + 1..]);
  }

  /** The last section, if it is not the charset. */
  lemma LastSection(s: string)
    requires s != "" && (forall i :: 0 <= i < |s| ==> s[i] != ';')
    requires !IsSpace(s[0]) && !IsCharset(s)
    ensures Sections(s) == [s] && AfterCharset(Sections(s)) == None && Overruns(Sections(s))
  {
    SectionsSkip(s, |s|);
    assert s[|s|..] == "" && s[..|s|] + "" == s;
    TrimHead(s);
    assert Sections(s)[1..] == [];
  }

  lemma FirstSection(s: string, k: nat)
    requires k <= |s| && (forall i :: 0 <= i < k ==> s[i] != ';') && (k < |s| ==> s[k] == ';')
    ensures Sections(s)[0] == s[..k]
  {
    SectionsSkip(s, k);
    assert s[..k] + "" == s[..k];
  }

  /** Whether the charset begins here does not depend on where the section ends. */
  lemma CharsetHere(s: string, k: nat)
    requires k <= |s| && (k < |s| ==> s[k] == ';')
    requires k > 0 && !IsSpace(s[0])
    ensures IsCharset(s[..k]) <==> |s| >= 7 && LowerAll(s[..7]) == "charset"
  {
    TrimHead(s[..k]);
    assert Trim(s[..k]) == s[..k];
    if k >= 7 {
      assert s[..k][..7] == s[..7];
    } else if |s| >= 7 {
      assert LowerAll(s[..7])[k] == ';';
      assert forall i :: 0 <= i < 7 ==> "charset"[i] != ';';
    }
  }

  lemma FoundCharset(s: string, k: nat)
    requires k <= |s| && (forall i :: 0 <= i < k ==> s[i] != ';') && (k < |s| ==> s[k] == ';')
    requires |s| >= 7 && !IsSpace(s[0]) && s[0] != ';' && LowerAll(s[..7]) == "charset"
    ensures AfterCharset(Sections(s)) == Some(s[7..]) && !Overruns(Sections(s))
  {
    hide Sections, Behind, LowerAll;
    CharsetHere(s, k);
    FirstSection(s, k);
    SectionsJoin(s);
    TrimHead(s[..k]);
    var b := Behind(Sections(s)[1..]);
    assert s == s[..k] + b;
    assert s[7..] == s[..k][7..] + b;
  }

  // --------------------------------------------------------------- the scanner

  function NextSemicolon(s: string): (k: nat)
    ensures k <= |s| && (forall i :: 0 <= i < k ==> s[i] != ';') && (k < |s| ==> s[k] == ';')
  {
    if s == "" || s[0] == ';' then 0 else 1 + NextSemicolon(s[1..])
  }

  /** The text of the type so far. */
  ghost predicate TypeSoFar(kind: string, scanned: string) {
    kind == TypeOf(scanned)
  }

  lemma {:induction false} NonSpacesNext(s: string, k: nat)
    requires k < |s|
    ensures NonSpaces(s[..k + 1]) == NonSpaces(s[..k]) + if IsSpace(s[k]) then "" else [s[k]]
  {
    if k == 0 {
      assert s[..1][1..] == "" && s[..0] == "";
    } else {
      NonSpacesNext(s[1..], k - 1);
      assert s[..k + 1][1..] == s[1..][..k] && s[..k][1..] == s[1..][..k - 1];
    }
  }

  lemma TypeNext(kind: string, s: string, k: nat)
    requires k < |s| && TypeSoFar(kind, s[..k])
    ensures TypeSoFar(if !IsSpace(s[k]) && |kind| < TYPE_SIZE then kind + [Lower(s[k])] else kind, s[..k + 1])
  {
    NonSpacesNext(s, k);
  }

  /** The first loop: the type in front of the parameters. `cursor` is left behind
      the first semicolon, or at the end; `params` says which. */
  method ScanType(data: string) returns (kind: string, cursor: nat, ghost params: bool)
    ensures kind == TypeOf(Sections(data)[0])
    ensures cursor <= |data|
    ensures if params then Sections(data)[1..] == Sections(data[cursor..])
            else cursor == |data| && Sections(data)[1..] == []
  {
    ghost var k := NextSemicolon(data);
    FirstSection(data, k);
    kind, cursor, params := "", 0, false;
    while cursor < |data|
      invariant 0 <= cursor <= k
      invariant TypeSoFar(kind, data[..cursor])
    {
      if data[cursor] == ';' {
        ParamsBehind(data, cursor);
        cursor := cursor + 1;
        params := true;
        return;
      }
      TypeNext(kind, data, cursor);
      if !IsSpace(data[cursor]) && |kind| < TYPE_SIZE {
        kind := kind + [Lower(data[cursor])];
      }
      cursor := cursor + 1;
    }
    SectionsSkip(data, |data|);
    assert data[|data|..] == "";
  }

  lemma ParamsBehind(s: string, k: nat)
    requires k < |s| && s[k] == ';' && (forall i :: 0 <= i < k ==> s[i] != ';')
    ensures Sections(s)[1..] == Sections(s[k + 1..])
  {
    SectionsSkip(s, k);
    assert s[k..][1..] == s[k + 1..];
    assert Sections(s[k..]) == [""] + Sections(s[k + 1..]);
  }

  /** The second loop: looks for the section "charset". None when the cursor would
      be read beyond the terminator. */
  method ScanSections(data: string, start: nat) returns (cursor: Option<nat>, ghost found: bool)
    requires start <= |data|
    ensures cursor.None? <==> Overruns(Sections(data[start..]))
    ensures cursor.Some? ==> cursor.value <= |data|
    ensures cursor.Some? && found ==> AfterCharset(Sections(data[start..])) == Some(data[cursor.value..])
    ensures cursor.Some? && !found ==> cursor.value == |data| && AfterCharset(Sections(data[start..])).None?
  {
    hide Sections, AfterCharset, Overruns, IsCharset, IsSpace, Trim, LowerAll;
    ghost var params := data[start..];
    var ptr := start;
    while ptr < |data|
      invariant start <= ptr <= |data|
      invariant AfterCharset(Sections(data[ptr..])) == AfterCharset(Sections(params))
      invariant Overruns(Sections(data[ptr..])) <==> Overruns(Sections(params))
    {
      ghost var s := data[ptr..];
      assert s[1..] == data[ptr + 1..];
      if IsSpace(data[ptr]) || data[ptr] == ';' {
        SkipOne(s);
        ptr := ptr + 1;
        continue;
      }
      ghost var k := NextSemicolon(s);
      CharsetHere(s, k);
      if |data| - ptr >= 7 && LowerAll(data[ptr..ptr + 7]) == "charset" {
        assert s[..7] == data[ptr..ptr + 7];
        FoundCharset(s, k);
        assert s[7..] == data[ptr + 7..];
        return Some(ptr + 7), true;
      }
      assert |s| >= 7 ==> s[..7] == data[ptr..ptr + 7];
      var end := ptr;
      while end < |data| && data[end] != ';'
        invariant ptr <= end <= ptr + k
      {
        end := end + 1;
      }
      if end == |data| {
        assert s[..k] == s;
        LastSection(s);
        return None, false;
      }
      SkipSection(s, k);
      assert s[k + 1..] == data[end + 1..];
      ptr := end + 1;
    }
    NothingLeft(data, ptr);
    return Some(ptr), false;
  }

  lemma NothingLeft(data: string, ptr: nat)
    requires ptr == |data|
    ensures AfterCharset(Sections(data[ptr..])).None? && !Overruns(Sections(data[ptr..]))
  {
    assert data[ptr..] == "";
    assert [""][1..] == [] && [""][0] == "";
    assert Trim("") == "";
  }

  /** Skipping white space from a cursor. */
  method SkipSpaces(data: string, start: nat) returns (ptr: nat)
    requires start <= |data|
    ensures start <= ptr <= |data| && data[ptr..] == Trim(data[start..])
  {
    ptr := start;
    while ptr < |data| && IsSpace(data[ptr])
      invariant start <= ptr <= |data|
      invariant Trim(data[ptr..]) == Trim(data[start..])
    {
      assert data[ptr..][1..] == data[ptr + 1..];
      ptr := ptr + 1;
    }
  }

  predicate Stops(quoted: bool, c: char) {
    if quoted then c == '"' else c == ';' || IsSpace(c)
  }

  function Until(quoted: bool, s: string): string {
    if quoted then UntilQuote(s) else UntilEnd(s)
  }

  lemma UntilNext(quoted: bool, s: string)
    ensures Until(quoted, s) == if s == "" || Stops(quoted, s[0]) then "" else [s[0]] + Until(quoted, s[1..])
  {}

  lemma BufferNext(charset: string, got: string, c: char)
    requires charset == LowerAll(Take(got, CHARSET_SIZE))
    ensures (if |charset| < CHARSET_SIZE then charset + [Lower(c)] else charset) ==
            LowerAll(Take(got + [c], CHARSET_SIZE))
  {}

  /** The last loop: the value, cut off at the size of its buffer. */
  method ScanValue(data: string, start: nat, quoted: bool) returns (charset: string)
    requires start <= |data|
    ensures charset == LowerAll(Take(Until(quoted, data[start..]), CHARSET_SIZE))
  {
    hide Until, Stops, Take, LowerAll;
    ghost var whole := Until(quoted, data[start..]);
    ghost var got := "";
    var ptr := start;
    EmptyBuffer();
    charset := "";
    while ptr < |data| && !Stops(quoted, data[ptr])
      invariant start <= ptr <= |data|
      invariant whole == got + Until(quoted, data[ptr..])
      invariant charset == LowerAll(Take(got, CHARSET_SIZE))
    {
      UntilNext(quoted, data[ptr..]);
      assert data[ptr..][1..] == data[ptr + 1..];
      BufferNext(charset, got, data[ptr]);
      if |charset| < CHARSET_SIZE {
        charset := charset + [Lower(data[ptr])];
      }
      got := got + [data[ptr]];
      ptr := ptr + 1;
    }
    UntilNext(quoted, data[ptr..]);
    assert whole == got;
  }

  lemma EmptyBuffer()
    ensures LowerAll(Take("", CHARSET_SIZE)) == ""
  {}

  /** treq_ParseContentType(): it computes what is described, or reads beyond the
      string, and that exactly when there are parameters, none of them is the
      charset, and the last one is not blank. */
  method ParseContentType(data: string) returns (r: Outcome)
    ensures r == ContentTypeOf(data)
    ensures r.OutOfBounds? <==> Overruns(Sections(data)[1..])
  {
    hide Sections, TypeOf, LowerAll, Take, Trim, UntilQuote, UntilEnd;
    EmptyBuffer();
    var kind, cursor;
    ghost var params;
    kind, cursor, params := ScanType(data);
    var at: Option<nat>;
    ghost var found;
    at, found := ScanSections(data, cursor);
    if !params { NothingLeft(data, cursor); }
    if at.None? {
      return OutOfBounds;
    }
    var ptr := SkipSpaces(data, at.value);
    if !found { AtEnd(data, at.value); }
    if ptr == |data| || data[ptr] != '=' {
      return Parsed(kind, "");
    }
    ptr := SkipSpaces(data, ptr + 1);
    var quoted := ptr < |data| && data[ptr] == '"';
    if quoted {
      ptr := ptr + 1;
    }
    var charset := ScanValue(data, ptr, quoted);
    r := Parsed(kind, charset);
  }

  lemma AtEnd(data: string, ptr: nat)
    requires ptr == |data|
    ensures Trim(data[ptr..]) == ""
  {
    assert data[ptr..] == "";
  }

  // ------------------------------------------------------------- writing and reading

  predicate Plain(s: string) {
    forall i :: 0 <= i < |s| ==> !IsSpace(s[i]) && s[i] != ';' && Lower(s[i]) == s[i]
  }

  /** A header value with a charset, the way servers write it. */
  function Rendered(kind: string, charset: string, quoted: bool): string {
    kind + "; charset=" + if quoted then "\"" + charset + "\"" else charset
  }

  lemma {:induction false} NonSpacesPlain(s: string)
    requires Plain(s)
    ensures NonSpaces(s) == s && LowerAll(s) == s
  {
    if s != "" { NonSpacesPlain(s[1..]); }
  }

  lemma {:induction false} UntilQuotePlain(s: string)
    requires '"' !in s
    ensures UntilQuote(s + "\"") == s
  {
    if s != "" {
      assert (s + "\"")[1..] == s[1..] + "\"";
      assert s == [s[0]] + s[1..];
      UntilQuotePlain(s[1..]);
    }
  }

  lemma {:induction false} UntilEndPlain(s: string)
    requires Plain(s)
    ensures UntilEnd(s) == s
  {
    if s != "" { UntilEndPlain(s[1..]); }
  }

  lemma LowerPlain(s: string)
    requires forall i :: 0 <= i < |s| ==> Lower(s[i]) == s[i]
    ensures LowerAll(s) == s
  {}

  /** The value behind "charset". */
  lemma RenderedCharset(charset: string, quoted: bool)
    requires if quoted then '"' !in charset else Plain(charset) && charset != "" && charset[0] != '"'
    ensures CharsetText("=" + if quoted then "\"" + charset + "\"" else charset) == charset
  {
    var v := if quoted then "\"" + charset + "\"" else charset;
    assert ("=" + v)[1..] == v;
    TrimHead("=" + v);
    TrimHead(v);
    if quoted {
      assert v[1..] == charset + "\"";
      UntilQuotePlain(charset);
    } else {
      UntilEndPlain(charset);
    }
  }

  /** Reading back what was written: every type and every charset that fits comes
      out as it went in, quoted or not. */
  lemma ContentTypeRoundTrip(kind: string, charset: string, quoted: bool)
    requires Plain(kind) && |kind| <= TYPE_SIZE && |charset| <= CHARSET_SIZE
    requires forall i :: 0 <= i < |charset| ==> Lower(charset[i]) == charset[i]
    requires if quoted then '"' !in charset else Plain(charset) && charset != "" && charset[0] != '"'
    ensures ContentTypeOf(Rendered(kind, charset, quoted)) == Parsed(kind, charset)
  {
    var v := if quoted then "\"" + charset + "\"" else charset;
    var data := Rendered(kind, charset, quoted);
    var p := " charset=" + v;
    assert data == kind + ";" + p;
    RenderedSections(kind, p);
    RenderedFound(v);
    RenderedCharset(charset, quoted);
    NonSpacesPlain(kind);
    LowerPlain(charset);
  }

  lemma RenderedSections(kind: string, p: string)
    requires Plain(kind)
    ensures Sections(kind + ";" + p)[0] == kind && Sections(kind + ";" + p)[1..] == Sections(p)
  {
    var data := kind + ";" + p;
    FirstSection(data, |kind|);
    ParamsBehind(data, |kind|);
    assert data[..|kind|] == kind && data[|kind| + 1..] == p;
  }

  lemma RenderedFound(v: string)
    ensures AfterCharset(Sections(" charset=" + v)) == Some("=" + v) && !Overruns(Sections(" charset=" + v))
  {
    var p := " charset=" + v;
    var s := "charset=" + v;
    assert p[1..] == s;
    SkipOne(p);
    assert s[..7] == "charset";
    LowerPlain("charset");
    FoundCharset(s, NextSemicolon(s));
    assert s[7..] == "=" + v;
  }

  /** An input at which the scan leaves the string: a parameter, but no charset. */
  lemma ParameterOverruns()
    ensures ContentTypeOf("text/html; x=1") == OutOfBounds
  {
    hide Sections, Overruns;
    TwoSections("text/html", " x=1");
    assert "text/html; x=1" == "text/html" + ";" + " x=1";
    assert ["text/html", " x=1"][1..] == [" x=1"];
    LoneParameter();
  }

  lemma LoneParameter()
    ensures Overruns([" x=1"])
  {
    assert Trim(" x=1") == "x=1" by { assert " x=1"[1..] == "x=1"; }
    assert !IsCharset(" x=1");
  }

  lemma TwoSections(a: string, b: string)
    requires forall i :: 0 <= i < |a| ==> a[i] != ';'
    requires forall i :: 0 <= i < |b| ==> b[i] != ';'
    ensures Sections(a + ";" + b) == [a, b]
  {
    var s := a + ";" + b;
    SectionsSkip(s, |a|);
    SectionsSkip(b, |b|);
    assert s[..|a|] == a && s[|a|..] == ";" + b && s[|a|..][1..] == b;
    assert b[..|b|] == b && b[|b|..] == "" && b + "" == b;
    assert Sections(b) == [b];
    assert a + "" == a;
  }
}
