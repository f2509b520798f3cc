/**
 The decoder's side of the wire: Apache Avro 1.11, section "Binary Encoding" (a long is a
 zig-zag number written in base-128 groups, low group first, high bit set on all but the last
 group; a string is a long byte count and then the bytes; a record is its fields in order),
 and the five-byte Confluent header in front of it.
 */
module AvroBinary {
  import opened Wrappers

  type byte = x: int | 0 <= x < 256
  type int64 = x: int | -0x8000_0000_0000_0000 <= x < 0x8000_0000_0000_0000
  type uint64 = x: int | 0 <= x < 0x1_0000_0000_0000_0000

  // A long of 64 bits never needs more than ten groups of seven bits.
  const MAX_GROUPS: nat := 10

  function ZigZag(v: int64): (n: uint64)
    ensures UnZigZag(n) == v
  {
    if v >= 0 then 2 * v else -2 * v - 1
  }

  function UnZigZag(n: uint64): int64 {
    if n % 2 == 0 then n / 2 else -(n + 1) / 2
  }

  function Groups(n: nat): (bs: seq<byte>)
    ensures |bs| >= 1
  {
    if n < 128 then [n] else [n % 128 + 128] + Groups(n / 128)
  }

  function AvroLong(v: int64): seq<byte> {
    Groups(ZigZag(v))
  }

  function AvroString(s: seq<byte>): seq<byte>
    requires |s| < 0x8000_0000_0000_0000
  {
    AvroLong(|s|) + s
  }

  // Reads at most `limit` groups; the second component is what was not consumed.
  function ReadGroups(bs: seq<byte>, limit: nat): (r: Option<(nat, seq<byte>)>) {
    if limit == 0 || bs == [] then None
    else if bs[0] < 128 then Some((bs[0], bs[1..]))
    else match ReadGroups(bs[1..], limit - 1)
      case None => None
      case Some((high, rest)) => Some((bs[0] - 128 + 128 * high, rest))
  }

  function ReadLong(bs: seq<byte>): Option<(int64, seq<byte>)> {
    match ReadGroups(bs, MAX_GROUPS)
    case None => None
    case Some((n, rest)) =>
      if n < 0x1_0000_0000_0000_0000 then Some((UnZigZag(n), rest)) else None
  }

  function ReadString(bs: seq<byte>): Option<(seq<byte>, seq<byte>)> {
    match ReadLong(bs)
    case None => None
    case Some((n, rest)) =>
      if 0 <= n <= |rest| then Some((rest[..n], rest[n..])) else None
  }

  datatype Frame = Frame(schemaId: nat, userId: seq<byte>, provider: seq<byte>, millis: int64)

  function ReadBigEndian32(bs: seq<byte>): nat
    requires |bs| == 4
  {
    var b0: nat, b1: nat, b2: nat, b3: nat := bs[0], bs[1], bs[2], bs[3];
    ((b0 * 256 + b1) * 256 + b2) * 256 + b3
  }

  // The whole message: magic byte, schema id, then the UserCreated record and nothing more.
  function ReadFrame(bs: seq<byte>): Option<Frame> {
    if |bs| < 5 || bs[0] != 0 then None
    else match ReadString(bs[5..])
      case None => None
      case Some((userId, afterUser)) =>
        match ReadString(afterUser)
        case None => None
        case Some((provider, afterProvider)) =>
          match ReadLong(afterProvider)
          case None => None
          case Some((millis, rest)) =>
            if rest == [] then Some(Frame(ReadBigEndian32(bs[1..5]), userId, provider, millis)) else None
  }

  function Pow128(k: nat): nat {
    if k == 0 then 1 else 128 * Pow128(k - 1)
  }

  lemma SixtyFourBitsFitTenGroups()
    ensures 0x1_0000_0000_0000_0000 <= Pow128(MAX_GROUPS)
  {
    assert Pow128(2) == 0x4000;
    assert Pow128(4) == 0x1000_0000;
    assert Pow128(6) == 0x400_0000_0000;
    assert Pow128(8) == 0x100_0000_0000_0000;
  }

  // The group count is the least k >= 1 with n < 128^k.
  lemma {:induction false} GroupCount(n: nat, k: nat)
    requires k >= 1
    ensures |Groups(n)| <= k <==> n < Pow128(k)
  {
    if k == 1 {
      assert Pow128(1) == 128 * Pow128(0);
    } else if n < 128 {
      Pow128Positive(k - 1);
    } else {
      GroupCount(n / 128, k - 1);
    }
  }

  lemma {:induction false} Pow128Positive(k: nat)
    ensures Pow128(k) >= 1
  {
    if k > 0 { Pow128Positive(k - 1); }
  }

  lemma {:induction false} GroupsRoundTrip(n: nat, rest: seq<byte>, limit: nat)
    requires limit >= |Groups(n)|
    ensures ReadGroups(Groups(n) + rest, limit) == Some((n, rest))
  {
    var bs := Groups(n) + rest;
    if n < 128 {
      assert bs[1..] == rest;
    } else {
      assert bs[1..] == Groups(n / 128) + rest;
      GroupsRoundTrip(n / 128, rest, limit - 1);
    }
  }

  // Whatever the reader accepts in canonical form (no zero group at the top) is what the writer
  // writes, so on canonical input reading and writing undo each other both ways.
  lemma {:induction false} CanonicalGroupsRewrite(bs: seq<byte>, limit: nat)
    requires ReadGroups(bs, limit).Some?
    ensures var (n, rest) := ReadGroups(bs, limit).value;
            && |rest| < |bs|
            && bs[|bs| - |rest|..] == rest
            && (bs == Groups(n) + rest <==> |bs| - |rest| == 1 || bs[|bs| - |rest| - 1] != 0)
  {
    if bs[0] >= 128 {
      CanonicalGroupsRewrite(bs[1..], limit - 1);
      var (high, rest) := ReadGroups(bs[1..], limit - 1).value;
      var n := bs[0] - 128 + 128 * high;
      var used := |bs| - |rest|;
      if high == 0 {
        if used == 2 {
          assert bs[1] == 0 by { ZeroHasOneGroup(bs[1..], limit - 1); }
          assert |Groups(n) + rest| < |bs|;
        } else {
          assert |Groups(n) + rest| < |bs|;
          ZeroEndsInZero(bs[1..], limit - 1);
        }
      } else {
        assert Groups(n) + rest == [bs[0]] + (Groups(high) + rest);
        assert bs == [bs[0]] + bs[1..];
        if used == 2 {
          assert bs[1] == high;
          assert bs[1..] == [bs[1]] + rest;
        }
      }
    } else {
      assert bs == [bs[0]] + bs[1..];
    }
  }

  lemma ZeroHasOneGroup(bs: seq<byte>, limit: nat)
    requires ReadGroups(bs, limit).Some? && ReadGroups(bs, limit).value.0 == 0
    requires |bs| - |ReadGroups(bs, limit).value.1| == 1
    ensures bs[0] == 0
  {
    if bs[0] >= 128 { ReaderConsumes(bs[1..], limit - 1); }
  }

  lemma {:induction false} ReaderConsumes(bs: seq<byte>, limit: nat)
    requires ReadGroups(bs, limit).Some?
    ensures |ReadGroups(bs, limit).value.1| < |bs|
  {
    if bs[0] >= 128 { ReaderConsumes(bs[1..], limit - 1); }
  }

  lemma {:induction false} ZeroEndsInZero(bs: seq<byte>, limit: nat)
    requires ReadGroups(bs, limit).Some? && ReadGroups(bs, limit).value.0 == 0
    ensures var used := |bs| - |ReadGroups(bs, limit).value.1|;
            0 < used <= |bs| && bs[used - 1] == 0
  {
    if bs[0] >= 128 { ZeroEndsInZero(bs[1..], limit - 1); }
  }

  // One to ten bytes, undone by the reader with the trailing bytes left alone.
  lemma LongRoundTrip(v: int64, rest: seq<byte>)
    ensures 1 <= |AvroLong(v)| <= MAX_GROUPS
    ensures ReadLong(AvroLong(v) + rest) == Some((v, rest))
  {
    SixtyFourBitsFitTenGroups();
    GroupCount(ZigZag(v), MAX_GROUPS);
    GroupsRoundTrip(ZigZag(v), rest, MAX_GROUPS);
  }

  // No encoding is a proper prefix of another, and different longs never share one.
  lemma LongsArePrefixFree(v: int64, w: int64, tail: seq<byte>)
    requires AvroLong(v) + tail == AvroLong(w)
    ensures v == w && tail == []
  {
    LongRoundTrip(v, tail);
    LongRoundTrip(w, []);
    assert AvroLong(w) + [] == AvroLong(w);
  }

  lemma StringRoundTrip(s: seq<byte>, rest: seq<byte>)
    requires |s| < 0x8000_0000_0000_0000
    ensures ReadString(AvroString(s) + rest) == Some((s, rest))
  {
    LongRoundTrip(|s|, s + rest);
    assert AvroString(s) + rest == AvroLong(|s|) + (s + rest);
  }

  // The examples of the specification, for longs and for a string.
  lemma SpecificationExamples()
    ensures AvroLong(0) == [0x00] && AvroLong(-1) == [0x01] && AvroLong(1) == [0x02] && AvroLong(-2) == [0x03]
    ensures AvroLong(2) == [0x04] && AvroLong(-64) == [0x7f] && AvroLong(64) == [0x80, 0x01]
    ensures AvroString([0x66, 0x6f, 0x6f]) == [0x06, 0x66, 0x6f, 0x6f]
  {
  }
}
