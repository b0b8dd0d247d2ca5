/**
  The fixed-width subset of the Borsh binary layout that the lock client relies on:
  unsigned little-endian integers, one-byte booleans (0 or 1) and fixed-size byte
  arrays, concatenated in declaration order with no length prefixes or tags.

  `EncodeFields` is what a derived `try_to_vec` writes for a struct made of such
  fields; `DecodeFields` is what a derived `try_from_slice` reads back: it fails on
  a short input, on bytes left over after the last field, and on a boolean byte
  other than 0 or 1.
*/
module Borsh {
  import opened Wrappers

  type Byte = b: int | 0 <= b < 256

  const U64_LIMIT: nat := 0x1_0000_0000_0000_0000
  const U128_LIMIT: nat := 0x1_0000_0000_0000_0000_0000_0000_0000_0000

  type U64 = n: int | 0 <= n < U64_LIMIT
  type U128 = n: int | 0 <= n < U128_LIMIT

  /** A 32-byte account address. */
  type Pubkey = s: seq<Byte> | |s| == 32 witness seq(32, _ => 0)

  // ---------------------------------------------------------------------------
  // Little-endian integers

  function Pow256(n: nat): (r: nat)
    ensures r > 0
  {
    if n == 0 then 1 else 256 * Pow256(n - 1)
  }

  lemma Pow256Widths()
    ensures Pow256(1) == 256
    ensures Pow256(8) == U64_LIMIT
    ensures Pow256(16) == U128_LIMIT
  {
    assert Pow256(2) == 0x1_0000;
    assert Pow256(4) == 0x1_0000_0000;
    assert Pow256(8) == 0x1_0000_0000_0000_0000;
    assert Pow256(12) == 0x1_0000_0000_0000_0000_0000_0000;
  }

  /** The n-byte little-endian representation of x. */
  function LeBytes(x: nat, n: nat): (r: seq<Byte>)
    requires x < Pow256(n)
    ensures |r| == n
  {
    if n == 0 then [] else [x % 256] + LeBytes(x / 256, n - 1)
  }

  /** The unsigned value of a little-endian byte string. */
  function LeValue(s: seq<Byte>): (r: nat)
    ensures r < Pow256(|s|)
  {
    if s == [] then 0 else s[0] + 256 * LeValue(s[1..])
  }

  lemma {:induction false} LeValueOfLeBytes(x: nat, n: nat)
    requires x < Pow256(n)
    ensures LeValue(LeBytes(x, n)) == x
  {
    if n > 0 {
      var r := LeBytes(x, n);
      assert r[1..] == LeBytes(x / 256, n - 1);
      LeValueOfLeBytes(x / 256, n - 1);
    }
  }

  lemma {:induction false} LeBytesOfLeValue(s: seq<Byte>)
    ensures LeBytes(LeValue(s), |s|) == s
  {
    if s != [] {
      var v := LeValue(s[1..]);
      assert (s[0] + 256 * v) % 256 == s[0];
      assert (s[0] + 256 * v) / 256 == v;
      LeBytesOfLeValue(s[1..]);
    }
  }

  // ---------------------------------------------------------------------------
  // Fields

  datatype FieldKind = BoolK | U64K | U128K | BytesK(len: nat)

  datatype FieldValue =
    | BoolV(b: bool)
    | U64V(u: U64)
    | U128V(w: U128)
    | BytesV(bytes: seq<Byte>)

  function KindOf(v: FieldValue): FieldKind {
    match v
    case BoolV(_) => BoolK
    case U64V(_) => U64K
    case U128V(_) => U128K
    case BytesV(bs) => BytesK(|bs|)
  }

  function Width(k: FieldKind): nat {
    match k
    case BoolK => 1
    case U64K => 8
    case U128K => 16
    case BytesK(n) => n
  }

  function KindsOf(vs: seq<FieldValue>): (ks: seq<FieldKind>)
    ensures |ks| == |vs|
    ensures forall i | 0 <= i < |vs| :: KindOf(vs[i]) == ks[i]
  {
    seq(|vs|, i requires 0 <= i < |vs| => KindOf(vs[i]))
  }

  function SumWidths(ks: seq<FieldKind>): nat {
    if ks == [] then 0 else Width(ks[0]) + SumWidths(ks[1..])
  }

  predicate NoBool(ks: seq<FieldKind>) {
    forall i | 0 <= i < |ks| :: !ks[i].BoolK?
  }

  /** The byte written for a bool. */
  function BoolByte(b: bool): Byte {
    if b then 1 else 0
  }

  function EncodeField(v: FieldValue): (r: seq<Byte>)
    ensures |r| == Width(KindOf(v))
  {
    Pow256Widths();
    match v
    case BoolV(b) => [BoolByte(b)]
    case U64V(u) => LeBytes(u, 8)
    case U128V(w) => LeBytes(w, 16)
    case BytesV(bs) => bs
  }

  /** Reads one field of kind k from exactly Width(k) bytes. */
  function DecodeField(k: FieldKind, s: seq<Byte>): (r: Option<FieldValue>)
    requires |s| == Width(k)
    ensures r.Some? ==> KindOf(r.value) == k && EncodeField(r.value) == s
    ensures r.None? <==> k.BoolK? && s[0] > 1
  {
    Pow256Widths();
    LeBytesOfLeValue(s);
    match k
    case BoolK => if s[0] == 0 then Some(BoolV(false)) else if s[0] == 1 then Some(BoolV(true)) else None
    case U64K => Some(U64V(LeValue(s)))
    case U128K => Some(U128V(LeValue(s)))
    case BytesK(_) => Some(BytesV(s))
  }

  function EncodeFields(vs: seq<FieldValue>): (r: seq<Byte>)
    ensures |r| == SumWidths(KindsOf(vs))
  {
    if vs == [] then []
    else
      assert KindsOf(vs)[1..] == KindsOf(vs[1..]);
      EncodeField(vs[0]) + EncodeFields(vs[1..])
  }

  lemma EncodeFieldsCons(v: FieldValue, vs: seq<FieldValue>)
    ensures KindsOf([v] + vs) == [KindOf(v)] + KindsOf(vs)
    ensures EncodeFields([v] + vs) == EncodeField(v) + EncodeFields(vs)
  {
    var w := [v] + vs;
    assert w[0] == v;
    assert w[1..] == vs;
  }

  /** Reads the fields of kinds ks, in order, from s; every byte of s must be consumed. */
  function DecodeFields(ks: seq<FieldKind>, s: seq<Byte>): (r: Option<seq<FieldValue>>)
    ensures r.Some? ==> KindsOf(r.value) == ks && EncodeFields(r.value) == s
  {
    if ks == [] then
      if s == [] then Some([]) else None
    else if |s| < Width(ks[0]) then None
    else
      var w := Width(ks[0]);
      match DecodeField(ks[0], s[..w])
      case None => None
      case Some(v) =>
        match DecodeFields(ks[1..], s[w..])
        case None => None
        case Some(vs) =>
          EncodeFieldsCons(v, vs);
          assert s == s[..w] + s[w..];
          assert ks == [ks[0]] + ks[1..];
          Some([v] + vs)
  }

  lemma {:induction false} DecodeEncodeFields(vs: seq<FieldValue>)
    ensures DecodeFields(KindsOf(vs), EncodeFields(vs)) == Some(vs)
  {
    if vs != [] {
      var ks, s := KindsOf(vs), EncodeFields(vs);
      var head := EncodeField(vs[0]);
      assert ks[1..] == KindsOf(vs[1..]);
      assert s == head + EncodeFields(vs[1..]);
      assert s[..|head|] == head;
      assert s[|head|..] == EncodeFields(vs[1..]);
      DecodeEncodeField(vs[0]);
      DecodeEncodeFields(vs[1..]);
      assert [vs[0]] + vs[1..] == vs;
    }
  }

  lemma DecodeEncodeField(v: FieldValue)
    ensures DecodeField(KindOf(v), EncodeField(v)) == Some(v)
  {
    Pow256Widths();
    match v
    case BoolV(_) =>
    case U64V(u) => LeValueOfLeBytes(u, 8);
    case U128V(w) => LeValueOfLeBytes(w, 16);
    case BytesV(_) =>
  }

  /** Without boolean fields, every input of the right length decodes. */
  lemma {:induction false} DecodeFieldsTotal(ks: seq<FieldKind>, s: seq<Byte>)
    requires NoBool(ks) && |s| == SumWidths(ks)
    ensures DecodeFields(ks, s).Some?
  {
    if ks != [] {
      var w := Width(ks[0]);
      assert NoBool(ks[1..]);
      DecodeFieldsTotal(ks[1..], s[w..]);
    }
  }

  /** A run of u64 fields takes eight bytes per field. */
  lemma {:induction false} U64sWidth(ks: seq<FieldKind>)
    requires forall i | 0 <= i < |ks| :: ks[i] == U64K
    ensures SumWidths(ks) == 8 * |ks|
    ensures NoBool(ks)
  {
    if ks != [] {
      U64sWidth(ks[1..]);
    }
  }

  lemma {:induction false} SumWidthsAppend(a: seq<FieldKind>, b: seq<FieldKind>)
    ensures SumWidths(a + b) == SumWidths(a) + SumWidths(b)
  {
    if a == [] {
      assert a + b == b;
    } else {
      assert (a + b)[1..] == a[1..] + b;
      SumWidthsAppend(a[1..], b);
    }
  }
}
