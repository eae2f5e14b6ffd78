/** The varint writers of protobuf-3.20.0/conformance/binary_json_conformance_suite.cc and the
    reading of what they write, after the sections "Base 128 Varints" and "Message Structure" of
    the Protocol Buffers Encoding specification.  Bytes are numbers; masks and shifts of unsigned
    integers are arithmetic. */
module Varint {
  import opened Wrappers

  newtype byte = x: int | 0 <= x < 256

  const VARINT_MAX_LEN := 10
  const UINT32 := 0x1_0000_0000
  const UINT64 := 0x1_0000_0000_0000_0000

  // ---------------------------------------------------------------- the format

  /** The groups of seven bits of `val`, lowest first, without zero groups at the end; one zero
      group for 0. */
  function Groups(val: nat): (r: seq<byte>)
    ensures r != [] && forall i :: 0 <= i < |r| ==> r[i] < 128
  {
    if val < 128 then [val as byte] else [(val % 128) as byte] + Groups(val / 128)
  }

  function Zeros(n: nat): (r: seq<byte>)
    ensures |r| == n && forall i :: 0 <= i < n ==> r[i] == 0
  {
    seq(n, _ => 0)
  }

  /** Sets the continuation bit of all groups but the last. */
  function Mark(groups: seq<byte>): (r: seq<byte>)
    requires forall i :: 0 <= i < |groups| ==> groups[i] < 128
    ensures |r| == |groups|
    ensures forall i :: 0 <= i < |r| ==> r[i] == if i < |r| - 1 then groups[i] + 128 else groups[i]
  {
    if |groups| <= 1 then groups else [groups[0] + 128] + Mark(groups[1..])
  }

  /** `val` as a varint that is `extra` bytes longer than it needs to be. */
  function Padded(val: nat, extra: nat): seq<byte> {
    Mark(Groups(val) + Zeros(extra))
  }

  /** Reads one varint: its value and its length.  None if the bytes end within it. */
  function Decode(s: seq<byte>): (r: Option<(nat, nat)>)
    ensures r.Some? ==> 1 <= r.value.1 <= |s|
  {
    if s == [] then None
    else if s[0] < 128 then Some((s[0] as nat, 1))
    else
      match Decode(s[1..])
      case None => None
      case Some((v, n)) => Some(((s[0] as nat - 128) + 128 * v, n + 1))
  }

  // ---------------------------------------------------------------- reading back

  function ValueOf(groups: seq<byte>): nat {
    if groups == [] then 0 else groups[0] as nat + 128 * ValueOf(groups[1..])
  }

  lemma {:induction false} DecodeMarked(groups: seq<byte>, rest: seq<byte>)
    requires groups != [] && forall i :: 0 <= i < |groups| ==> groups[i] < 128
    ensures Decode(Mark(groups) + rest) == Some((ValueOf(groups), |groups|))
  {
    var s := Mark(groups) + rest;
    if |groups| > 1 {
      DecodeMarked(groups[1..], rest);
      assert s[1..] == Mark(groups[1..]) + rest;
    } else {
      assert ValueOf(groups[1..]) == 0;
    }
  }

  lemma {:induction false} ValueOfZeros(n: nat)
    ensures ValueOf(Zeros(n)) == 0
  {
    if n > 0 {
      assert Zeros(n)[1..] == Zeros(n - 1);
      ValueOfZeros(n - 1);
    }
  }

  lemma {:induction false} ValueOfPadded(val: nat, extra: nat)
    ensures ValueOf(Groups(val) + Zeros(extra)) == val
  {
    var g := Groups(val) + Zeros(extra);
    if val < 128 {
      assert g[1..] == Zeros(extra);
      ValueOfZeros(extra);
    } else {
      assert g[1..] == Groups(val / 128) + Zeros(extra);
      ValueOfPadded(val / 128, extra);
    }
  }

  /** A varint, however long, is read back whatever follows it. */
  lemma DecodePadded(val: nat, extra: nat, rest: seq<byte>)
    ensures Decode(Padded(val, extra) + rest) == Some((val, |Padded(val, extra)|))
  {
    DecodeMarked(Groups(val) + Zeros(extra), rest);
    ValueOfPadded(val, extra);
  }

  /** No varint of the same value is shorter than the groups of the value. */
  lemma {:induction false} GroupsAreMinimal(s: seq<byte>)
    ensures Decode(s).Some? ==> |Groups(Decode(s).value.0)| <= Decode(s).value.1
  {
    if s != [] && s[0] >= 128 {
      GroupsAreMinimal(s[1..]);
      if Decode(s[1..]).Some? {
        var v := Decode(s[1..]).value.0;
        assert (s[0] as nat - 128 + 128 * v) / 128 == v;
      }
    }
  }

  function Pow128(k: nat): nat {
    if k == 0 then 1 else 128 * Pow128(k - 1)
  }

  lemma {:induction false} GroupsBound(val: nat, k: nat)
    requires val < Pow128(k) && k >= 1
    ensures |Groups(val)| <= k
  {
    if val >= 128 { GroupsBound(val / 128, k - 1); }
  }

  lemma Uint64Fits(val: nat)
    requires val < UINT64
    ensures |Groups(val)| <= VARINT_MAX_LEN
  {
    assert Pow128(5) == 0x8_0000_0000;
    assert Pow128(10) >= UINT64;
    GroupsBound(val, VARINT_MAX_LEN);
  }

  // ---------------------------------------------------------------- the writers

  lemma FirstGroup(val: nat)
    ensures Groups(val)[0] == (val % 128) as byte
    ensures Groups(val)[1..] == if val < 128 then [] else Groups(val / 128)
  {
  }

  lemma PaddedAt(val: nat, extra: nat)
    ensures |Padded(val, extra)| == |Groups(val)| + extra
    ensures forall i :: 0 <= i < |Groups(val)| ==>
              Padded(val, extra)[i] ==
              if i < |Groups(val)| - 1 || extra != 0 then Groups(val)[i] + 128 else Groups(val)[i]
    ensures forall i :: |Groups(val)| <= i < |Padded(val, extra)| ==>
              Padded(val, extra)[i] == if i < |Padded(val, extra)| - 1 then 0x80 else 0
  {
    hide Mark, Groups, Zeros;
  }

  /** One round of the loop over the groups: `v` is what is left of `val` after `i` rounds. */
  lemma GroupWritten(val: nat, extra: nat, i: nat, v: nat)
    requires v != 0 && i < |Groups(val)| && Groups(val)[i..] == Groups(v)
    ensures |Padded(val, extra)| == |Groups(val)| + extra
    ensures var b := (v % 128) as byte;
            Padded(val, extra)[i] == if v / 128 != 0 || extra != 0 then b + 128 else b
    ensures if v / 128 == 0 then i + 1 == |Groups(val)|
            else i + 1 < |Groups(val)| && Groups(val)[i + 1..] == Groups(v / 128)
  {
    hide Padded, Groups;
    PaddedAt(val, extra);
    FirstGroup(v);
    var g := Groups(val);
    assert g[i] == g[i..][0] && g[i + 1..] == g[i..][1..];
  }

  /** One round of the loop over the extra bytes, of which `over` are still to come. */
  lemma ExtraWritten(val: nat, extra: nat, over: nat)
    requires 0 < over <= extra
    ensures |Padded(val, extra)| == |Groups(val)| + extra
    ensures Padded(val, extra)[|Groups(val)| + extra - over] == if over - 1 != 0 then 0x80 else 0
  {
    hide Padded, Groups;
    PaddedAt(val, extra);
  }

  method VEncode64(val: nat, overEncodedBytes: nat, buf: array<byte>) returns (i: nat)
    requires val < UINT64 && buf.Length == VARINT_MAX_LEN
    requires val == 0 || |Groups(val)| + overEncodedBytes <= VARINT_MAX_LEN
    modifies buf
    ensures i <= buf.Length
    ensures buf[..i] == Padded(val, if val == 0 then 0 else overEncodedBytes)
  {
    hide Padded, Groups;
    if val == 0 {
      ZeroPadded();
      buf[0] := 0;
      return 1;
    }
    ghost var groups, padded := Groups(val), Padded(val, overEncodedBytes);
    PaddedLength(val, overEncodedBytes);
    i := 0;
    var v, over := val, overEncodedBytes;
    while v != 0
      invariant if v == 0 then i == |groups| else i < |groups| && groups[i..] == Groups(v)
      invariant buf[..i] == padded[..i]
    {
      GroupWritten(val, over, i, v);
      var b := (v % 128) as byte;
      v := v / 128;
      if v != 0 || over != 0 {
        b := b + 128;
      }
      buf[i] := b;
      i := i + 1;
    }
    while over != 0
      invariant 0 <= over <= overEncodedBytes && i + over == |padded|
      invariant buf[..i] == padded[..i]
    {
      ExtraWritten(val, overEncodedBytes, over);
      over := over - 1;
      buf[i] := if over != 0 then 0x80 else 0;
      i := i + 1;
    }
  }

  lemma PaddedLength(val: nat, extra: nat)
    ensures |Padded(val, extra)| == |Groups(val)| + extra && Groups(val)[0..] == Groups(val)
  {
    hide Mark, Groups, Zeros;
  }

  lemma ZeroPadded()
    ensures Padded(0, 0) == [0]
  {
  }

  /** A varint of `x` that is read back whatever follows, `extra` bytes longer than need be
      exactly if `x` is not 0 or nothing extra is asked for. */
  method LongVarint(x: nat, extra: nat) returns (s: seq<byte>)
    requires x < UINT64 && (x == 0 || |Groups(x)| + extra <= VARINT_MAX_LEN)
    ensures forall rest :: Decode(s + rest) == Some((x, |s|))
    ensures forall i :: 0 <= i < |s| ==> (s[i] < 128 <==> i == |s| - 1)
    ensures |s| == |Groups(x)| + extra <==> x != 0 || extra == 0
  {
    var buf := new byte[VARINT_MAX_LEN];
    var len := VEncode64(x, extra, buf);
    s := buf[..len];
    forall rest ensures Decode(s + rest) == Some((x, |s|)) {
      DecodePadded(x, if x == 0 then 0 else extra, rest);
    }
  }

  method Varint(x: nat) returns (s: seq<byte>)
    requires x < UINT64
    ensures s == Padded(x, 0)
  {
    Uint64Fits(x);
    var buf := new byte[VARINT_MAX_LEN];
    var len := VEncode64(x, 0, buf);
    s := buf[..len];
  }

  /** Reads a string with its length in front; the bytes after it are left. */
  function ReadDelimited(s: seq<byte>): Option<(seq<byte>, seq<byte>)> {
    match Decode(s)
    case Some((v, n)) => if n + v <= |s| then Some((s[n..n + v], s[n + v..])) else None
    case None => None
  }

  method Delim(buf: seq<byte>) returns (s: seq<byte>)
    requires |buf| < UINT64
    ensures forall rest :: ReadDelimited(s + rest) == Some((buf, rest))
  {
    var length := Varint(|buf|);
    s := length + buf;
    forall rest ensures ReadDelimited(s + rest) == Some((buf, rest)) {
      assert s + rest == length + (buf + rest);
      DecodePadded(|buf|, 0, buf + rest);
    }
  }

  /** The key of a field, read as field number and wire type: right exactly for field numbers of
      at most 29 bits. */
  method Tag(fieldnum: nat, wireType: nat) returns (s: seq<byte>)
    requires fieldnum < UINT32 && wireType < 8
    ensures forall rest :: Decode(s + rest).Some? && Decode(s + rest).value.1 == |s|
    ensures forall rest :: Decode(s + rest).Some? ==>
              Decode(s + rest).value.0 % 8 == wireType
              && (Decode(s + rest).value.0 / 8 == fieldnum <==> fieldnum < 0x2000_0000)
  {
    var key: nat := fieldnum * 8 % UINT32 + wireType;
    s := Varint(key);
    forall rest ensures Decode(s + rest) == Some((key, |s|)) {
      DecodePadded(key, 0, rest);
    }
  }

  // ---------------------------------------------------------------- several varints

  /** The varints of the values, each with its extra bytes, one after the other. */
  function Stream(xs: seq<(nat, nat)>): seq<byte> {
    if xs == [] then [] else Padded(xs[0].0, xs[0].1) + Stream(xs[1..])
  }

  function Values(xs: seq<(nat, nat)>): seq<nat> {
    if xs == [] then [] else [xs[0].0] + Values(xs[1..])
  }

  function DecodeAll(s: seq<byte>): Option<seq<nat>>
    decreases |s|
  {
    if s == [] then Some([])
    else
      match Decode(s)
      case None => None
      case Some((v, n)) =>
        match DecodeAll(s[n..])
        case None => None
        case Some(vs) => Some([v] + vs)
  }

  /** A stream of varints can be read in only one way. */
  lemma {:induction false} StreamDecodes(xs: seq<(nat, nat)>)
    ensures DecodeAll(Stream(xs)) == Some(Values(xs))
  {
    if xs != [] {
      var p := Padded(xs[0].0, xs[0].1);
      StreamDecodes(xs[1..]);
      DecodePadded(xs[0].0, xs[0].1, Stream(xs[1..]));
      assert Stream(xs)[|p|..] == Stream(xs[1..]);
    }
  }
}
