/** UTF-8 as RFC 3629 defines it, and lossy decoding as section 3.9 of the Unicode Standard
    recommends: one U+FFFD for each maximal subpart of an ill-formed sequence. A string is
    represented by its UTF-8 bytes. */
module Utf8 {
  import opened Bytes

  // ----- encoding (section 3 of RFC 3629) -----

  predicate IsScalar(c: int) {
    0 <= c < 0xD800 || 0xE000 <= c <= 0x10FFFF
  }

  type Scalar = c: int | 0 <= c < 0xD800 || 0xE000 <= c <= 0x10FFFF

  function Encode(c: Scalar): seq<Byte> {
    if c < 0x80 then [c as Byte]
    else if c < 0x800 then [(0xC0 + c / 64) as Byte, (0x80 + c % 64) as Byte]
    else if c < 0x10000 then [(0xE0 + c / 4096) as Byte, (0x80 + c / 64 % 64) as Byte, (0x80 + c % 64) as Byte]
    else [(0xF0 + c / 262144) as Byte, (0x80 + c / 4096 % 64) as Byte, (0x80 + c / 64 % 64) as Byte,
        (0x80 + c % 64) as Byte]
  }

  function EncodeAll(cs: seq<Scalar>): seq<Byte> {
    if cs == [] then [] else Encode(cs[0]) + EncodeAll(cs[1..])
  }

  // ----- recognising one character (section 4 of RFC 3629) -----

  function Width(lead: Byte): nat {
    if lead < 0x80 then 1
    else if 0xC2 <= lead <= 0xDF then 2
    else if 0xE0 <= lead <= 0xEF then 3
    else if 0xF0 <= lead <= 0xF4 then 4
    else 0
  }

  predicate Tail(b: Byte) {
    0x80 <= b <= 0xBF
  }

  predicate SecondAllowed(lead: Byte, b: Byte) {
    if lead == 0xE0 then 0xA0 <= b <= 0xBF
    else if lead == 0xED then 0x80 <= b <= 0x9F
    else if lead == 0xF0 then 0x90 <= b <= 0xBF
    else if lead == 0xF4 then 0x80 <= b <= 0x8F
    else Tail(b)
  }

  /** What a non-empty byte string starts with: a character, an ill-formed subpart, or the
      beginning of a character that more bytes may complete. */
  datatype Head = Good(len: nat) | Bad(len: nat) | Partial

  function Next(s: seq<Byte>): (h: Head)
    requires s != []
    ensures h.Good? ==> 1 <= h.len <= 4 && h.len <= |s|
    ensures h.Bad? ==> 1 <= h.len <= 3 && h.len <= |s|
    ensures h.Partial? ==> |s| <= 3
  {
    var w := Width(s[0]);
    if w == 0 then Bad(1)
    else if w == 1 then Good(1)
    else if |s| == 1 then Partial
    else if !SecondAllowed(s[0], s[1]) then Bad(1)
    else if w == 2 then Good(2)
    else if |s| == 2 then Partial
    else if !Tail(s[2]) then Bad(2)
    else if w == 3 then Good(3)
    else if |s| == 3 then Partial
    else if !Tail(s[3]) then Bad(3)
    else Good(4)
  }

  const REPLACEMENT: seq<Byte> := [0xEF, 0xBF, 0xBD]

  function Lossy(s: seq<Byte>): seq<Byte> {
    if s == [] then []
    else match Next(s)
      case Good(n) => s[..n] + Lossy(s[n..])
      case Bad(n) => REPLACEMENT + Lossy(s[n..])
      case Partial => REPLACEMENT
  }

  // ----- the recogniser is the grammar -----

  function Value(s: seq<Byte>): int
    requires 1 <= |s| <= 4
  {
    match |s|
    case 1 => s[0] as int
    case 2 => (s[0] as int - 0xC0) * 64 + (s[1] as int - 0x80)
    case 3 => (s[0] as int - 0xE0) * 4096 + (s[1] as int - 0x80) * 64 + (s[2] as int - 0x80)
    case _ =>
      (s[0] as int - 0xF0) * 262144 + (s[1] as int - 0x80) * 4096 + (s[2] as int - 0x80) * 64 + (s[3] as int - 0x80)
  }

  lemma GoodEncodes(s: seq<Byte>)
    requires s != [] && Next(s).Good?
    ensures var n := Next(s).len;
            IsScalar(Value(s[..n])) && Encode(Value(s[..n])) == s[..n]
  {
    match Next(s).len {
      case 1 =>
      case 2 => TwoBytes(s[0], s[1]);
      case 3 => ThreeBytes(s[0], s[1], s[2]);
      case _ => FourBytes(s[0], s[1], s[2], s[3]);
    }
  }

  lemma TwoBytes(a: Byte, b: Byte)
    requires Width(a) == 2 && Tail(b)
    ensures IsScalar(Value([a, b])) && Encode(Value([a, b])) == [a, b]
  {
    var c := Value([a, b]);
    assert c / 64 == a as int - 0xC0 && c % 64 == b as int - 0x80;
  }

  lemma ThreeBytes(a: Byte, b: Byte, d: Byte)
    requires Width(a) == 3 && SecondAllowed(a, b) && Tail(d)
    ensures IsScalar(Value([a, b, d])) && Encode(Value([a, b, d])) == [a, b, d]
  {
    var x, y, z := a as int - 0xE0, b as int - 0x80, d as int - 0x80;
    var c := Value([a, b, d]);
    assert c == (x * 64 + y) * 64 + z;
    assert c / 64 == x * 64 + y && c % 64 == z;
    assert c / 64 % 64 == y && c / 4096 == x;
  }

  lemma FourBytes(a: Byte, b: Byte, d: Byte, e: Byte)
    requires Width(a) == 4 && SecondAllowed(a, b) && Tail(d) && Tail(e)
    ensures IsScalar(Value([a, b, d, e])) && Encode(Value([a, b, d, e])) == [a, b, d, e]
  {
    var w, x, y, z := a as int - 0xF0, b as int - 0x80, d as int - 0x80, e as int - 0x80;
    var c := Value([a, b, d, e]);
    assert c == ((w * 64 + x) * 64 + y) * 64 + z;
    assert c / 64 == (w * 64 + x) * 64 + y && c % 64 == z;
    assert c / 4096 == w * 64 + x && c / 64 % 64 == y;
    assert c / 262144 == w && c / 4096 % 64 == x;
  }

  lemma EncodesGood(c: Scalar, rest: seq<Byte>)
    ensures Next(Encode(c) + rest) == Good(|Encode(c)|)
  {
    var s := Encode(c) + rest;
    assert forall i :: 0 <= i < |Encode(c)| ==> s[i] == Encode(c)[i];
    if 0x800 <= c < 0x10000 {
      assert c / 64 == c / 4096 * 64 + c / 64 % 64;
    } else if c >= 0x10000 {
      assert c / 4096 == c / 262144 * 64 + c / 4096 % 64;
    }
  }

  /** A byte string starts with a character exactly when some scalar value encodes to a prefix. */
  lemma GoodIff(s: seq<Byte>, n: nat)
    requires s != [] && n <= |s|
    ensures Next(s) == Good(n) <==> exists c: Scalar :: Encode(c) == s[..n]
  {
    if Next(s) == Good(n) {
      GoodEncodes(s);
      var c: Scalar := Value(s[..n]);
      assert Encode(c) == s[..n];
    }
    if c: Scalar :| Encode(c) == s[..n] {
      EncodesGood(c, s[n..]);
      assert s == Encode(c) + s[n..];
    }
  }

  // ----- maximal subparts -----

  /** `s` is the beginning, and not the whole, of some character. */
  ghost predicate Begins(s: seq<Byte>) {
    exists c: Scalar :: s < Encode(c)
  }

  /** One more byte that keeps a beginning alive. */
  function Continue(s: seq<Byte>): Byte
    requires s != []
  {
    if |s| == 1 && s[0] == 0xE0 then 0xA0 else if |s| == 1 && s[0] == 0xF0 then 0x90 else 0x80
  }

  lemma {:induction false} PartialBegins(s: seq<Byte>)
    requires s != [] && Next(s).Partial?
    ensures Begins(s)
    decreases 4 - |s|
  {
    var more := s + [Continue(s)];
    match Next(more) {
      case Good(n) =>
        GoodEncodes(more);
        assert more[..n] == more;
        var c: Scalar := Value(more);
        assert s < Encode(c);
      case Partial =>
        PartialBegins(more);
        var c: Scalar :| more < Encode(c);
        assert s < Encode(c);
    }
  }

  lemma BeginsPartial(s: seq<Byte>)
    requires s != [] && Begins(s)
    ensures Next(s).Partial?
  {
    var c: Scalar :| s < Encode(c);
    EncodesGood(c, []);
    assert Encode(c) + [] == Encode(c);
    assert forall i :: 0 <= i < |s| ==> s[i] == Encode(c)[i];
  }

  /** Each replacement stands for a maximal subpart: the longest piece that begins a
      character, or one byte when none does. */
  lemma BadIsMaximal(s: seq<Byte>)
    requires s != [] && Next(s).Bad?
    ensures var n := Next(s).len;
            && (n == 1 || Begins(s[..n]))
            && (forall m :: n < m <= |s| ==> !Begins(s[..m]))
            && (forall m, c: Scalar :: 0 < m <= |s| ==> s[..m] != Encode(c))
  {
    var n := Next(s).len;
    if n > 1 { PartialBegins(s[..n]); }
    forall m | n < m <= |s|
      ensures !Begins(s[..m])
    {
      if Begins(s[..m]) { BeginsPartial(s[..m]); }
    }
    forall m, c: Scalar | 0 < m <= |s|
      ensures s[..m] != Encode(c)
    {
      GoodIff(s, m);
    }
  }

  /** Well-formed input passes unchanged. */
  lemma {:induction false} LossyKeeps(cs: seq<Scalar>)
    ensures Lossy(EncodeAll(cs)) == EncodeAll(cs)
  {
    if cs != [] {
      LossyKeeps(cs[1..]);
      var s := EncodeAll(cs);
      EncodesGood(cs[0], EncodeAll(cs[1..]));
      assert s[..|Encode(cs[0])|] == Encode(cs[0]) && s[|Encode(cs[0])|..] == EncodeAll(cs[1..]);
    }
  }

  lemma {:induction false} LossyOne(c: Scalar, s: seq<Byte>)
    ensures Lossy(Encode(c) + s) == Encode(c) + Lossy(s)
  {
    hide Encode, Next;
    EncodesGood(c, s);
    EncodeSome(c);
    assert (Encode(c) + s)[..|Encode(c)|] == Encode(c) && (Encode(c) + s)[|Encode(c)|..] == s;
  }

  /** Characters are passed on as they are. */
  lemma {:induction false} LossyAfter(cs: seq<Scalar>, s: seq<Byte>)
    ensures Lossy(EncodeAll(cs) + s) == EncodeAll(cs) + Lossy(s)
  {
    hide Encode, Lossy;
    if cs == [] {
      assert EncodeAll(cs) + s == s && EncodeAll(cs) + Lossy(s) == Lossy(s);
    } else {
      LossyAfter(cs[1..], s);
      var first, rest := Encode(cs[0]), EncodeAll(cs[1..]);
      LossyOne(cs[0], rest + s);
      assert EncodeAll(cs) + s == first + (rest + s);
      assert first + (rest + Lossy(s)) == EncodeAll(cs) + Lossy(s);
    }
  }

  lemma EncodeSome(c: Scalar)
    ensures Encode(c) != []
  {
  }

  /** Each maximal subpart becomes one U+FFFD, also at the end. With `LossyAfter`, `BadIsMaximal`
      and `GoodIff` this says what any input is decoded to. */
  lemma {:induction false} LossyBad(s: seq<Byte>)
    ensures s != [] && Next(s).Bad? ==> Lossy(s) == Encode(0xFFFD) + Lossy(s[Next(s).len..])
    ensures s != [] && Begins(s) ==> Lossy(s) == Encode(0xFFFD)
    ensures s == [] ==> Lossy(s) == []
  {
    hide Next, Begins;
    assert Encode(0xFFFD) == REPLACEMENT;
    if s != [] && Begins(s) { BeginsPartial(s); }
  }

  /** Whatever the input, the result is well-formed. */
  lemma {:induction false} LossyWellFormed(s: seq<Byte>) returns (cs: seq<Scalar>)
    ensures Lossy(s) == EncodeAll(cs)
  {
    if s == [] {
      cs := [];
    } else {
      assert Encode(0xFFFD) == REPLACEMENT;
      match Next(s) {
        case Good(n) =>
          GoodEncodes(s);
          var rest := LossyWellFormed(s[n..]);
          cs := [Value(s[..n])] + rest;
          assert cs[1..] == rest;
        case Bad(n) =>
          var rest := LossyWellFormed(s[n..]);
          cs := [0xFFFD] + rest;
          assert cs[1..] == rest;
        case Partial =>
          cs := [0xFFFD];
          assert cs[1..] == [];
          assert EncodeAll(cs) == Encode(0xFFFD) + EncodeAll([]);
      }
    }
  }

  // ----- reading ahead -----

  /** What is recognised stays recognised when more bytes follow. */
  lemma NextStable(s: seq<Byte>, more: seq<Byte>)
    requires s != [] && !Next(s).Partial?
    ensures Next(s + more) == Next(s)
  {
    assert forall i :: 0 <= i < |s| ==> (s + more)[i] == s[i];
  }

  /** The length of the longest well-formed prefix. */
  function ValidUpTo(s: seq<Byte>): (n: nat)
    ensures n <= |s|
  {
    if s != [] && Next(s).Good? then Next(s).len + ValidUpTo(s[Next(s).len..]) else 0
  }

  lemma LossyGood(s: seq<Byte>, more: seq<Byte>)
    requires s != [] && Next(s).Good?
    ensures var k := Next(s).len; Lossy(s + more) == s[..k] + Lossy(s[k..] + more)
  {
    var k := Next(s).len;
    NextStable(s, more);
    assert (s + more)[k..] == s[k..] + more && (s + more)[..k] == s[..k];
  }

  lemma {:induction false} ValidPrefix(s: seq<Byte>, more: seq<Byte>)
    ensures var n := ValidUpTo(s);
            && Lossy(s + more) == s[..n] + Lossy(s[n..] + more)
            && (n < |s| ==> !Next(s[n..]).Good?)
  {
    hide Lossy, Next;
    if s != [] && Next(s).Good? {
      var k := Next(s).len;
      LossyGood(s, more);
      ValidPrefix(s[k..], more);
      var n := ValidUpTo(s);
      assert s[..k] + s[k..][..n - k] == s[..n] && s[k..][n - k..] == s[n..];
    } else {
      assert s[..0] == [] && s[0..] == s;
    }
  }

  // ----- well-formed strings -----

  predicate WellFormed(s: seq<Byte>) {
    ValidUpTo(s) == |s|
  }

  /** Well-formed strings are the encodings of sequences of scalar values, and no others. */
  lemma WellFormedIff(s: seq<Byte>)
    ensures WellFormed(s) <==> exists cs: seq<Scalar> :: EncodeAll(cs) == s
  {
    if WellFormed(s) {
      var cs := Decoded(s);
    }
    if cs: seq<Scalar> :| EncodeAll(cs) == s { EncodedWellFormed(cs); }
  }

  lemma {:induction false} Decoded(s: seq<Byte>) returns (cs: seq<Scalar>)
    requires WellFormed(s)
    ensures EncodeAll(cs) == s
  {
    if s == [] {
      cs := [];
    } else {
      var n := Next(s).len;
      GoodEncodes(s);
      var rest := Decoded(s[n..]);
      cs := [Value(s[..n])] + rest;
      assert cs[1..] == rest;
    }
  }

  lemma {:induction false} EncodedWellFormed(cs: seq<Scalar>)
    ensures WellFormed(EncodeAll(cs))
  {
    if cs != [] {
      EncodedWellFormed(cs[1..]);
      EncodesGood(cs[0], EncodeAll(cs[1..]));
      assert EncodeAll(cs)[|Encode(cs[0])|..] == EncodeAll(cs[1..]);
    }
  }

  lemma {:induction false} ValidIsWellFormed(s: seq<Byte>)
    ensures WellFormed(s[..ValidUpTo(s)])
  {
    if s != [] && Next(s).Good? {
      var k, n := Next(s).len, ValidUpTo(s);
      ValidIsWellFormed(s[k..]);
      assert s[..n][k..] == s[k..][..n - k];
      HeadKept(s, n);
    }
  }

  lemma HeadKept(s: seq<Byte>, n: nat)
    requires s != [] && Next(s).Good? && Next(s).len <= n <= |s|
    ensures Next(s[..n]) == Next(s)
  {
    assert forall i :: 0 <= i < n ==> s[..n][i] == s[i];
  }

  // ----- character boundaries -----

  predicate IsBoundary(s: seq<Byte>, k: nat)
    requires k <= |s|
  {
    k == 0 || k == |s| || !Tail(s[k])
  }

  /** The last boundary that is not after `limit`. */
  function Boundary(s: seq<Byte>, limit: nat): (k: nat)
    requires limit <= |s|
    ensures k <= limit && IsBoundary(s, k)
    ensures forall j :: k < j <= limit ==> !IsBoundary(s, j)
  {
    if IsBoundary(s, limit) then limit else Boundary(s, limit - 1)
  }

  lemma HeadBytes(s: seq<Byte>)
    requires s != [] && Next(s).Good?
    ensures !Tail(s[0]) && forall i :: 1 <= i < Next(s).len ==> Tail(s[i])
  {
  }

  lemma Slices(s: seq<Byte>, n: nat, k: nat)
    requires n <= k <= |s|
    ensures s[..k][n..] == s[n..][..k - n] && s[n..][k - n..] == s[k..]
  {
  }

  /** Cutting a well-formed string at a boundary leaves two well-formed strings. */
  lemma {:induction false} CutWellFormed(s: seq<Byte>, k: nat)
    requires WellFormed(s) && k <= |s| && IsBoundary(s, k)
    ensures WellFormed(s[..k]) && WellFormed(s[k..])
  {
    if k == 0 || k == |s| {
      assert s[..0] == [] && s[0..] == s && s[..|s|] == s && s[|s|..] == [];
    } else {
      var n := Next(s).len;
      HeadBytes(s);
      assert k >= n;
      assert k < |s| ==> s[n..][k - n] == s[k];
      CutWellFormed(s[n..], k - n);
      HeadKept(s, k);
      Slices(s, n, k);
    }
  }

  /** A boundary is at most three bytes back. */
  lemma {:induction false} BoundaryNear(s: seq<Byte>, limit: nat)
    requires WellFormed(s) && limit <= |s|
    ensures limit - Boundary(s, limit) <= 3
  {
    if s != [] {
      var n := Next(s).len;
      HeadBytes(s);
      if limit >= n {
        BoundaryNear(s[n..], limit - n);
        var k := n + Boundary(s[n..], limit - n);
        assert IsBoundary(s, k) by {
          if n < k < |s| { assert s[n..][k - n] == s[k]; }
          if k == n < |s| { HeadBytes(s[n..]); assert s[n..][0] == s[n]; }
        }
      }
    }
  }

  lemma {:induction false} JoinWellFormed(a: seq<Byte>, b: seq<Byte>)
    requires WellFormed(a) && WellFormed(b)
    ensures WellFormed(a + b)
  {
    if a == [] {
      assert a + b == b;
    } else {
      var n := Next(a).len;
      NextStable(a, b);
      JoinWellFormed(a[n..], b);
      assert (a + b)[n..] == a[n..] + b;
    }
  }
}
