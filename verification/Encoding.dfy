/** Percent-encoding of byte strings: treq_UrlencodeTclObject(),
    treq_UrldecodeString(). The escaping rule itself is libcurl's: everything but
    the unreserved characters becomes %XX (sections 2.1 and 2.3 of RFC 3986). */
module Encoding {
  import opened Common

  type Byte = x: int | 0 <= x < 256
  type Bytes = seq<Byte>

  const CURL_MAX_INPUT_LENGTH: nat := 8000000
  const INT_MAX: nat := 0x7fff_ffff

  const PERCENT: Byte := 0x25
  const AMPERSAND: Byte := 0x26
  const EQUALS: Byte := 0x3d

  predicate Unreserved(b: Byte) {
    || 0x41 <= b <= 0x5a || 0x61 <= b <= 0x7a || 0x30 <= b <= 0x39
    || b == 0x2d || b == 0x2e || b == 0x5f || b == 0x7e
  }

  function HexDigit(n: nat): Byte
    requires n < 16
  {
    if n < 10 then 0x30 + n else 0x37 + n
  }

  function HexValue(b: Byte): Option<nat> {
    if 0x30 <= b <= 0x39 then Some(b - 0x30)
    else if 0x41 <= b <= 0x46 then Some(b - 0x37)
    else if 0x61 <= b <= 0x66 then Some(b - 0x57)
    else None
  }

  function EscapeByte(b: Byte): Bytes {
    if Unreserved(b) then [b] else [PERCENT, HexDigit(b / 16), HexDigit(b % 16)]
  }

  /** curl_easy_escape() */
  function Escape(data: Bytes): Bytes {
    if data == [] then [] else EscapeByte(data[0]) + Escape(data[1..])
  }

  predicate StartsEscape(data: Bytes) {
    |data| >= 3 && data[0] == PERCENT && HexValue(data[1]).Some? && HexValue(data[2]).Some?
  }

  /** curl_easy_unescape(): a percent sign without two hexadecimal digits stands for itself. */
  function Unescape(data: Bytes): Bytes {
    if data == [] then []
    else if StartsEscape(data) then
      HexRange(data[1], data[2]);
      [HexValue(data[1]).value * 16 + HexValue(data[2]).value] + Unescape(data[3..])
    else [data[0]] + Unescape(data[1..])
  }

  lemma HexRange(a: Byte, b: Byte)
    requires HexValue(a).Some? && HexValue(b).Some?
    ensures 0 <= HexValue(a).value * 16 + HexValue(b).value < 256
  {}

  lemma HexRoundTrip(b: Byte)
    ensures HexValue(HexDigit(b / 16)) == Some(b / 16) && HexValue(HexDigit(b % 16)) == Some(b % 16)
  {}

  // ------------------------------------------------------- the characters involved

  const DIGITS := "0123456789"
  const UNRESERVED := UPPER_CASE + LOWER_CASE + DIGITS + "-._~"
  const HEX_UPPER := "0123456789ABCDEF"
  const HEX_LOWER := "0123456789abcdef"

  /** The characters that stay as they are (section 2.3 of RFC 3986). */
  lemma UnreservedIff(b: Byte)
    ensures Unreserved(b) <==> b as char in UNRESERVED
  {
    var c := b as char;
    assert c in UPPER_CASE <==> 0x41 <= b <= 0x5a by {
      if c in UPPER_CASE { var k :| 0 <= k < 26 && UPPER_CASE[k] == c; LettersAre(k); }
      if 0x41 <= b <= 0x5a { LettersAre(b - 0x41); }
    }
    assert c in LOWER_CASE <==> 0x61 <= b <= 0x7a by {
      if c in LOWER_CASE { var k :| 0 <= k < 26 && LOWER_CASE[k] == c; LettersAre(k); }
      if 0x61 <= b <= 0x7a { LettersAre(b - 0x61); }
    }
    assert c in DIGITS <==> 0x30 <= b <= 0x39;
  }

  /** A digit of a percent sequence that is read: both cases of the letters count. */
  lemma HexValueIff(b: Byte, n: nat)
    ensures HexValue(b) == Some(n) <==> n < 16 && (HEX_UPPER[n] == b as char || HEX_LOWER[n] == b as char)
  {}

  /** A percent sequence: the sign and two hexadecimal digits, in either case. */
  lemma StartsEscapeIff(s: Bytes)
    ensures StartsEscape(s) <==>
            && |s| >= 3 && s[0] as char == '%'
            && (s[1] as char in HEX_UPPER || s[1] as char in HEX_LOWER)
            && (s[2] as char in HEX_UPPER || s[2] as char in HEX_LOWER)
  {
    if |s| >= 3 {
      IsHexDigit(s[1]);
      IsHexDigit(s[2]);
    }
    hide HexValue;
  }

  lemma IsHexDigit(b: Byte)
    ensures HexValue(b).Some? <==> b as char in HEX_UPPER || b as char in HEX_LOWER
  {
    hide HexValue;
    if HexValue(b).Some? { HexValueIff(b, HexValue(b).value); }
    if b as char in HEX_UPPER {
      var n :| 0 <= n < 16 && HEX_UPPER[n] == b as char;
      HexValueIff(b, n);
    }
    if b as char in HEX_LOWER {
      var n :| 0 <= n < 16 && HEX_LOWER[n] == b as char;
      HexValueIff(b, n);
    }
  }

  /** One byte is encoded as itself, or as a percent sign and its two digits in capitals.
      With EscapeAppend this settles every text. */
  lemma EscapeOne(b: Byte)
    ensures b as char in UNRESERVED ==> Escape([b]) == [b]
    ensures b as char !in UNRESERVED ==>
              && |Escape([b])| == 3 && Escape([b])[0] as char == '%'
              && Escape([b])[1] as char == HEX_UPPER[b / 16] && Escape([b])[2] as char == HEX_UPPER[b % 16]
  {
    SingleEscape(b);
    UnreservedIff(b);
    hide Escape;
    HexValueIff(HexDigit(b / 16), b / 16);
    HexValueIff(HexDigit(b % 16), b % 16);
  }

  lemma SingleEscape(b: Byte)
    ensures Escape([b]) == EscapeByte(b)
  {
    hide EscapeByte;
    assert [b][1..] == [] && Escape([]) == [];
  }

  lemma UnescapeHead(b: Byte, rest: Bytes)
    ensures Unescape(EscapeByte(b) + rest) == [b] + Unescape(rest)
  {
    var e := EscapeByte(b);
    HexRoundTrip(b);
    assert (e + rest)[|e|..] == rest;
    if !Unreserved(b) {
      assert StartsEscape(e + rest);
    }
  }

  /** Decoding undoes encoding, for every byte string. */
  lemma {:induction false} UnescapeEscape(data: Bytes)
    ensures Unescape(Escape(data)) == data
  {
    if data == [] {
    } else {
      hide EscapeByte, Unescape;
      UnescapeEscape(data[1..]);
      UnescapeHead(data[0], Escape(data[1..]));
    }
  }

  /** Encoding piece by piece is encoding the whole. */
  lemma {:induction false} EscapeAppend(a: Bytes, b: Bytes)
    ensures Escape(a + b) == Escape(a) + Escape(b)
  {
    if a == [] {
      assert a + b == b;
    } else {
      assert (a + b)[1..] == a[1..] + b;
      EscapeAppend(a[1..], b);
    }
  }

  /** Encoded text has no `&` and no `=` in it, and is at most three times as long. */
  lemma {:induction false} EscapeShape(data: Bytes)
    ensures forall c :: c in Escape(data) ==> Unreserved(c) || c == PERCENT
    ensures AMPERSAND !in Escape(data) && EQUALS !in Escape(data)
    ensures |data| <= |Escape(data)| <= 3 * |data|
  {
    if data != [] {
      EscapeShape(data[1..]);
      assert forall c :: c in EscapeByte(data[0]) ==> Unreserved(c) || c == PERCENT;
    }
  }

  /** libcurl's escaper as the library sees it: without memory to spare it may fail.
      It is never handed an empty piece (length 0 means "up to the terminator" to it)
      nor one above its limit. */
  method CurlEasyEscape(piece: Bytes, memory: bool) returns (r: Option<Bytes>)
    requires 0 < |piece| <= CURL_MAX_INPUT_LENGTH
    ensures memory ==> r.Some?
    ensures r.Some? ==> r.value == Escape(piece)
  {
    if !memory {
      if * { return None; }
    }
    r := Some(Escape(piece));
  }

  method CurlEasyUnescape(data: Bytes, memory: bool) returns (r: Option<Bytes>)
    requires |data| <= INT_MAX
    ensures memory ==> r.Some?
    ensures r.Some? ==> r.value == Unescape(data)
  {
    if !memory {
      if * { return None; }
    }
    r := Some(Unescape(data));
  }

  function Concat(pieces: seq<Bytes>): Bytes {
    if pieces == [] then [] else Concat(pieces[..|pieces| - 1]) + pieces[|pieces| - 1]
  }

  lemma ConcatNext(pieces: seq<Bytes>, piece: Bytes)
    ensures Concat(pieces + [piece]) == Concat(pieces) + piece
  {
    assert (pieces + [piece])[..|pieces|] == pieces;
  }

  /** treq_UrlencodeTclObject(): piece by piece, whatever the positive bound on the pieces.
      The pieces handed to the escaper are not empty, not above the bound, as long as the
      bound but for the last, and together the data. */
  method Urlencode(data: Bytes, memory: bool, bound: nat := CURL_MAX_INPUT_LENGTH)
    returns (r: Option<Bytes>, ghost pieces: seq<Bytes>)
    requires 0 < bound <= CURL_MAX_INPUT_LENGTH
    ensures memory ==> r.Some?
    ensures r.Some? ==> r.value == Escape(data) && Concat(pieces) == data
    ensures forall i :: 0 <= i < |pieces| ==> 0 < |pieces[i]| <= bound <= 8_000_000
    ensures forall i :: 0 <= i < |pieces| - 1 ==> |pieces[i]| == bound
  {
    hide Escape, Concat;
    var result: Bytes := [];
    pieces := [];
    NothingYet(data);
    var pos, bytesLeft := 0, |data|;
    while bytesLeft != 0
      invariant 0 <= pos && 0 <= bytesLeft && pos + bytesLeft == |data|
      invariant result == Escape(data[..pos]) && Concat(pieces) == data[..pos]
      invariant forall i :: 0 <= i < |pieces| ==> 0 < |pieces[i]| <= bound
      invariant bytesLeft != 0 ==> forall i :: 0 <= i < |pieces| ==> |pieces[i]| == bound
      invariant forall i :: 0 <= i < |pieces| - 1 ==> |pieces[i]| == bound
    {
      var bytesToEncode := if bytesLeft > bound then bound else bytesLeft;
      var piece := data[pos..pos + bytesToEncode];
      ConcatNext(pieces, piece);
      pieces := pieces + [piece];
      var encoded := CurlEasyEscape(piece, memory);
      if encoded.None? {
        r := None;
        return;
      }
      EscapeNext(data, pos, bytesToEncode);
      result := result + encoded.value;
      pos := pos + bytesToEncode;
      bytesLeft := bytesLeft - bytesToEncode;
    }
    assert data[..pos] == data;
    r := Some(result);
  }

  lemma NothingYet(data: Bytes)
    ensures Escape(data[..0]) == [] && Concat([]) == data[..0]
  {}

  lemma EscapeNext(data: Bytes, pos: nat, n: nat)
    requires pos + n <= |data|
    ensures data[..pos + n] == data[..pos] + data[pos..pos + n]
    ensures Escape(data[..pos + n]) == Escape(data[..pos]) + Escape(data[pos..pos + n])
  {
    EscapeAppend(data[..pos], data[pos..pos + n]);
    assert data[..pos + n] == data[..pos] + data[pos..pos + n];
  }

  /** treq_UrldecodeString(): refuses what libcurl's decoder cannot take. */
  method Urldecode(data: Bytes, memory: bool) returns (r: Option<Bytes>)
    ensures |data| > 2_147_483_647 ==> r.None?
    ensures memory && |data| <= 2_147_483_647 ==> r.Some?
    ensures r.Some? ==> r.value == Unescape(data)
  {
    if |data| > INT_MAX {
      return None;
    }
    r := CurlEasyUnescape(data, memory);
  }
}
