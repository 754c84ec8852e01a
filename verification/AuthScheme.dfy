/** The option `-auth_scheme`: treq_RequestAuthParseOption(). */
module AuthScheme {
  import opened Common

  datatype Scheme = Any | AnySafe | Only | Basic | Digest | DigestIe | Bearer | Negotiate | Ntlm | AwsSigv4

  /** A C long as the set of its one bits; the C code's bitwise or is the union. */
  type Mask = set<nat>

  const ALL_BITS: Mask := set b: nat | 0 <= b < 64

  const CURLAUTH_BASIC: Mask := {0}
  const CURLAUTH_DIGEST: Mask := {1}
  const CURLAUTH_NEGOTIATE: Mask := {2}
  const CURLAUTH_NTLM: Mask := {3}
  const CURLAUTH_DIGEST_IE: Mask := {4}
  const CURLAUTH_BEARER: Mask := {6}
  const CURLAUTH_AWS_SIGV4: Mask := {7}
  const CURLAUTH_ONLY: Mask := {31}
  const CURLAUTH_ANY: Mask := ALL_BITS - CURLAUTH_DIGEST_IE
  const CURLAUTH_ANYSAFE: Mask := ALL_BITS - (CURLAUTH_BASIC + CURLAUTH_DIGEST_IE)

  function Bits(s: Scheme): Mask {
    match s
    case Any => CURLAUTH_ANY
    case AnySafe => CURLAUTH_ANYSAFE
    case Only => CURLAUTH_ONLY
    case Basic => CURLAUTH_BASIC
    case Digest => CURLAUTH_DIGEST
    case DigestIe => CURLAUTH_DIGEST_IE
    case Bearer => CURLAUTH_BEARER
    case Negotiate => CURLAUTH_NEGOTIATE
    case Ntlm => CURLAUTH_NTLM
    case AwsSigv4 => CURLAUTH_AWS_SIGV4
  }

  /** The mask of a set of schemes. */
  function MaskOf(present: set<Scheme>): Mask {
    set s, b | s in present && b in Bits(s) :: b
  }

  lemma MaskAdd(present: set<Scheme>, s: Scheme)
    ensures MaskOf(present + {s}) == MaskOf(present) + Bits(s)
  {}

  /** The rules: "any" and "anysafe" stand alone; "only" goes with exactly one other. */
  ghost predicate Allowed(options: seq<Option<Scheme>>) {
    && options != []
    && (forall i :: 0 <= i < |options| ==> options[i].Some?)
    && (Some(Any) in options || Some(AnySafe) in options ==> |options| == 1)
    && (Some(Only) in options ==> |options| == 2 && options[0] != options[1])
  }

  function Present(options: seq<Option<Scheme>>): set<Scheme> {
    set o | o in options && o.Some? :: o.value
  }

  /** treq_RequestAuthParseOption(): accepts exactly the allowed lists, and the mask
      depends on nothing but which schemes are in the list. */
  method ParseOption(options: seq<Option<Scheme>>) returns (r: Option<Mask>)
    ensures r.Some? <==> Allowed(options)
    ensures r.Some? ==> r.value == MaskOf(Present(options))
  {
    if |options| == 0 {
      return None;
    }
    var result: Mask := {};
    var i := 0;
    while i < |options|
      invariant 0 <= i <= |options|
      invariant forall j :: 0 <= j < i ==> options[j].Some?
      invariant forall j :: 0 <= j < i && (options[j] == Some(Any) || options[j] == Some(AnySafe)) ==> |options| == 1
      invariant forall j :: 0 <= j < i && options[j] == Some(Only) ==> |options| == 2
      invariant i == 2 && |options| == 2 && options[1] == Some(Only) ==> options[0] != Some(Only)
      invariant result == MaskOf(Present(options[..i]))
    {
      if options[i].None? {
        return None;
      }
      var s := options[i].value;
      PresentNext(options, i);
      MaskAdd(Present(options[..i]), s);
      match s {
        case Any =>
          if |options| != 1 { return None; }
          AloneMask(s, options, i);
          result := CURLAUTH_ANY;
        case AnySafe =>
          if |options| != 1 { return None; }
          AloneMask(s, options, i);
          result := CURLAUTH_ANYSAFE;
        case Only =>
          if |options| != 2 { return None; }
          OnlyTwice(options, i, result);
          if i == 1 && result == CURLAUTH_ONLY { return None; }
          result := result + CURLAUTH_ONLY;
        case Basic => result := result + CURLAUTH_BASIC;
        case Digest => result := result + CURLAUTH_DIGEST;
        case DigestIe => result := result + CURLAUTH_DIGEST_IE;
        case Bearer => result := result + CURLAUTH_BEARER;
        case Negotiate => result := result + CURLAUTH_NEGOTIATE;
        case Ntlm => result := result + CURLAUTH_NTLM;
        case AwsSigv4 => result := result + CURLAUTH_AWS_SIGV4;
      }
      i := i + 1;
    }
    assert options[..|options|] == options;
    r := Some(result);
  }

  lemma PresentNext(options: seq<Option<Scheme>>, i: nat)
    requires i < |options| && options[i].Some?
    ensures Present(options[..i + 1]) == Present(options[..i]) + {options[i].value}
  {
    assert options[..i + 1] == options[..i] + [options[i]];
  }

  lemma AloneMask(s: Scheme, options: seq<Option<Scheme>>, i: nat)
    requires i < |options| && |options| == 1
    ensures MaskOf(Present(options[..i])) + Bits(s) == Bits(s)
  {
    assert Present(options[..0]) == {};
  }

  /** With two options the mask is that of "only" alone exactly when the first is "only". */
  lemma OnlyTwice(options: seq<Option<Scheme>>, i: nat, result: Mask)
    requires i < |options| && |options| == 2 && result == MaskOf(Present(options[..i]))
    requires i == 1 ==> options[0].Some? && options[0] != Some(Any) && options[0] != Some(AnySafe)
    ensures i == 1 ==> (result == CURLAUTH_ONLY <==> options[0] == Some(Only))
  {
    if i == 1 {
      var s := options[0].value;
      assert options[..1] == [options[0]];
      assert Present(options[..1]) == {s};
      MaskAdd({}, s);
      assert MaskOf({}) == {} && {} + {s} == {s};
      assert result == Bits(s);
      assert 31 in Bits(s) <==> s == Only;
    }
  }

  /** Which schemes set a bit of the mask, by the numbers of curl.h. The bits without a
      name of their own are set by `any` and `anysafe`. */
  function Setters(b: nat): set<Scheme> {
    match b
    case 0 => {Basic, Any}
    case 1 => {Digest, Any, AnySafe}
    case 2 => {Negotiate, Any, AnySafe}
    case 3 => {Ntlm, Any, AnySafe}
    case 4 => {DigestIe}
    case 6 => {Bearer, Any, AnySafe}
    case 7 => {AwsSigv4, Any, AnySafe}
    case 31 => {Only, Any, AnySafe}
    case _ => {Any, AnySafe}
  }

  lemma BitBySetters(s: Scheme, b: nat)
    requires b < 64
    ensures b in Bits(s) <==> s in Setters(b)
  {
    match s {
      case Any => assert b in Bits(s) <==> b != 4;
      case AnySafe => assert b in Bits(s) <==> b != 4 && b != 0;
      case _ =>
    }
  }

  /** The mask read bit by bit. */
  lemma MaskByBits(present: set<Scheme>, b: nat)
    requires b < 64
    ensures b in MaskOf(present) <==> exists s :: s in present && s in Setters(b)
  {
    forall s ensures b in Bits(s) <==> s in Setters(b) { BitBySetters(s, b); }
  }

  /** The order of the schemes does not matter. Their repetition does: `any` is accepted
      once and refused twice. */
  lemma OrderIrrelevant(a: seq<Option<Scheme>>, b: seq<Option<Scheme>>)
    requires multiset(a) == multiset(b)
    ensures Allowed(a) <==> Allowed(b)
    ensures MaskOf(Present(a)) == MaskOf(Present(b))
  {
    SameMembers(a, b);
    assert Present(a) == Present(b);
    assert |multiset(a)| == |a| && |multiset(b)| == |b|;
    AllowedByMembers(a);
    AllowedByMembers(b);
  }

  lemma SameMembers(a: seq<Option<Scheme>>, b: seq<Option<Scheme>>)
    requires multiset(a) == multiset(b)
    ensures forall o :: o in a <==> o in b
  {
    forall o ensures o in a <==> o in b {
      assert o in a <==> o in multiset(a);
      assert o in b <==> o in multiset(b);
    }
  }

  /** The rules in terms of the multiset of options. */
  lemma AllowedByMembers(a: seq<Option<Scheme>>)
    ensures Allowed(a) <==>
            && a != [] && None !in a
            && (Some(Any) in a || Some(AnySafe) in a ==> |a| == 1)
            && (Some(Only) in a ==> |a| == 2 && multiset(a)[Some(Only)] == 1)
  {
    if |a| == 2 { assert a == [a[0], a[1]]; }
  }
}
