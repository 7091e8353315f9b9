/**
 * Mumble's variable-length integers: big-endian, prefix-coded, with two negative
 * forms. Written for the positive widths, read for all of them.
 */
module Varints {
  import opened Types

  type Byte = x: int | 0 <= x < 0x100

  /** Rust's `u64` and `i64`. */
  type U64 = x: int | 0 <= x < 0x1_0000_0000_0000_0000
  type I64 = x: int | -0x8000_0000_0000_0000 <= x < 0x8000_0000_0000_0000

  /** A growing `Vec<u8>`. */
  class ByteVec {
    var bytes: seq<Byte>

    constructor ()
      ensures bytes == []
    {
      bytes := [];
    }

    method Push(b: Byte)
      modifies this
      ensures bytes == old(bytes) + [b]
    {
      bytes := bytes + [b];
    }

    method Extend(more: seq<Byte>)
      modifies this
      ensures bytes == old(bytes) + more
    {
      bytes := bytes + more;
    }
  }

  // -- Big-endian bytes -----------------------------------------------------

  function Power256(n: nat): (p: nat)
    ensures p > 0
  {
    if n == 0 then 1 else 256 * Power256(n - 1)
  }

  /** The low `n` bytes of `v`, most significant first. */
  function BigEndian(v: nat, n: nat): (bytes: seq<Byte>)
    ensures |bytes| == n
  {
    if n == 0 then [] else BigEndian(v / 256, n - 1) + [v % 256]
  }

  /** A value read, if there was one, and where the reader is left. */
  datatype Taken<T> = Taken(value: Option<T>, pos: nat)

  /** `n` bytes accumulated big-endian, stopping where the buffer does. */
  function TakeAt(buf: seq<Byte>, pos: nat, n: nat): (r: Taken<nat>)
    requires pos <= |buf|
    ensures pos <= r.pos <= |buf|
    ensures r.value.Some? <==> pos + n <= |buf|
    ensures r.value.Some? ==> r.pos == pos + n && r.value.value < Power256(n)
  {
    if n == 0 then Taken(Some(0), pos)
    else
      var front := TakeAt(buf, pos, n - 1);
      if front.value.None? || front.pos == |buf| then Taken(None, front.pos)
      else Taken(Some(256 * front.value.value + buf[front.pos]), front.pos + 1)
  }

  lemma {:induction false} TakeReadsBigEndian(before: seq<Byte>, v: nat, n: nat, after: seq<Byte>)
    requires v < Power256(n)
    ensures TakeAt(before + BigEndian(v, n) + after, |before|, n) == Taken(Some(v), |before| + n)
  {
    if n > 0 {
      var bytes := BigEndian(v, n);
      var rest := [v % 256] + after;
      assert before + bytes + after == before + BigEndian(v / 256, n - 1) + rest;
      TakeReadsBigEndian(before, v / 256, n - 1, rest);
    }
  }

  // -- Decoding -------------------------------------------------------------

  /** `as i64`: two's complement. */
  function AsI64(v: U64): I64 {
    if v < 0x8000_0000_0000_0000 then v else v - 0x1_0000_0000_0000_0000
  }

  /** Negation that wraps at the one value without an opposite. */
  function Negate(v: I64): I64 {
    if v == -0x8000_0000_0000_0000 then v else -v
  }

  /** The first byte's payload above `n` more bytes. */
  function Wide(high: nat, buf: seq<Byte>, pos: nat, n: nat): (r: Taken<I64>)
    requires pos <= |buf| && n <= 8 && high < 0x40 && (high > 0 ==> n <= 3)
    ensures pos <= r.pos <= |buf|
  {
    var low := TakeAt(buf, pos, n);
    assert Power256(1) == 0x100 && Power256(2) == 0x1_0000 && Power256(3) == 0x100_0000 && Power256(4) == 0x1_0000_0000;
    assert Power256(8) == 0x1_0000_0000_0000_0000 by {
      assert Power256(5) == 256 * Power256(4) && Power256(6) == 256 * Power256(5) && Power256(7) == 256 * Power256(6);
    }
    if low.value.None? then Taken(None, low.pos)
    else
      PowerGrows(n, 8);
      Taken(Some(AsI64(if n <= 3 then high * Power256(n) + low.value.value else low.value.value)), low.pos)
  }

  lemma {:induction false} PowerGrows(n: nat, m: nat)
    requires n <= m
    ensures Power256(n) <= Power256(m)
    decreases m
  {
    if n < m {
      PowerGrows(n, m - 1);
    }
  }

  function VarintAt(buf: seq<Byte>, pos: nat): (r: Taken<I64>)
    requires pos <= |buf|
    ensures pos <= r.pos <= |buf|
    ensures r.value.Some? ==> r.pos > pos
    decreases |buf| - pos
  {
    if pos == |buf| then Taken(None, pos)
    else
      var v, next := buf[pos], pos + 1;
      if v < 0x80 then Taken(Some(v), next)
      else if v < 0xC0 then Wide(v - 0x80, buf, next, 1)
      else if v < 0xE0 then Wide(v - 0xC0, buf, next, 2)
      else if v < 0xF0 then Wide(v - 0xE0, buf, next, 3)
      else if v < 0xF4 then Wide(0, buf, next, 4)
      else if v < 0xF8 then Wide(0, buf, next, 8)
      else if v < 0xFC then
        var inner := VarintAt(buf, next);
        if inner.value.None? then inner else Taken(Some(Negate(inner.value.value)), inner.pos)
      else Taken(Some(-(v - 0xFC)), next)
  }

  /** The masks of the reader are these ranges of the first byte. */
  lemma MasksAreRanges(v: bv8)
    ensures v & 0x80 == 0x00 <==> v < 0x80
    ensures v & 0xC0 == 0x80 <==> 0x80 <= v < 0xC0
    ensures v & 0xE0 == 0xC0 <==> 0xC0 <= v < 0xE0
    ensures v & 0xF0 == 0xE0 <==> 0xE0 <= v < 0xF0
    ensures v & 0xFC == 0xF0 <==> 0xF0 <= v < 0xF4
    ensures v & 0xFC == 0xF4 <==> 0xF4 <= v < 0xF8
    ensures v & 0xFC == 0xF8 <==> 0xF8 <= v < 0xFC
    ensures v & 0xFC == 0xFC <==> 0xFC <= v
  {
  }

  // -- Encoding -------------------------------------------------------------

  function Encode(value: U64): seq<Byte> {
    if value < 0x80 then [value]
    else if value < 0x4000 then [0x80 + value / 0x100] + BigEndian(value % 0x100, 1)
    else if value < 0x20_0000 then [0xC0 + value / 0x1_0000] + BigEndian(value % 0x1_0000, 2)
    else if value < 0x1000_0000 then [0xE0 + value / 0x100_0000] + BigEndian(value % 0x100_0000, 3)
    else if value < 0x1_0000_0000 then [0xF0] + BigEndian(value, 4)
    else [0xF4] + BigEndian(value, 8)
  }

  lemma Powers()
    ensures Power256(1) == 0x100 && Power256(2) == 0x1_0000 && Power256(3) == 0x100_0000
    ensures Power256(4) == 0x1_0000_0000 && Power256(8) == 0x1_0000_0000_0000_0000
  {
    assert Power256(5) == 256 * Power256(4) && Power256(6) == 256 * Power256(5) && Power256(7) == 256 * Power256(6);
  }

  /** One prefix byte and `n` more, read back. */
  lemma WideReads(before: seq<Byte>, head: Byte, high: nat, low: nat, n: nat, after: seq<Byte>)
    requires 1 <= n <= 8 && high < 0x40 && (high > 0 ==> n <= 3) && low < Power256(n)
    ensures var buf := before + ([head] + BigEndian(low, n)) + after;
            && |before| + 1 + n <= |buf| && buf[|before|] == head
            && Wide(high, buf, |before| + 1, n) == Taken(Some(AsI64(Joined(high, low, n))), |before| + 1 + n)
  {
    hide BigEndian;
    hide TakeAt;
    hide Power256;
    Powers();
    PowerGrows(n, 8);
    var buf := before + ([head] + BigEndian(low, n)) + after;
    assert buf == (before + [head]) + BigEndian(low, n) + after;
    TakeReadsBigEndian(before + [head], low, n, after);
    JoinedIs(high, low, n);
  }

  /** `(high << 8n) | low`. */
  function Joined(high: nat, low: nat, n: nat): (v: nat)
    requires n <= 8 && high < 0x40 && (high > 0 ==> n <= 3) && low < Power256(n)
    ensures v < 0x1_0000_0000_0000_0000
  {
    Powers();
    PowerGrows(n, 8);
    if n == 1 then high * 0x100 + low
    else if n == 2 then high * 0x1_0000 + low
    else if n == 3 then high * 0x100_0000 + low
    else low
  }

  lemma JoinedIs(high: nat, low: nat, n: nat)
    requires 1 <= n <= 8 && high < 0x40 && (high > 0 ==> n <= 3) && low < Power256(n)
    ensures Joined(high, low, n) == if n <= 3 then high * Power256(n) + low else low
  {
    Powers();
  }

  lemma Widths(buf: seq<Byte>, pos: nat)
    requires pos < |buf|
    ensures var v, next := buf[pos], pos + 1;
            && (v < 0x80 ==> VarintAt(buf, pos) == Taken(Some(v), next))
            && (0x80 <= v < 0xC0 ==> VarintAt(buf, pos) == Wide(v - 0x80, buf, next, 1))
            && (0xC0 <= v < 0xE0 ==> VarintAt(buf, pos) == Wide(v - 0xC0, buf, next, 2))
            && (0xE0 <= v < 0xF0 ==> VarintAt(buf, pos) == Wide(v - 0xE0, buf, next, 3))
            && (v == 0xF0 ==> VarintAt(buf, pos) == Wide(0, buf, next, 4))
            && (v == 0xF4 ==> VarintAt(buf, pos) == Wide(0, buf, next, 8))
  {
    hide Wide;
  }

  /** The first byte a width writes over `high`. */
  function Head(high: nat, n: nat): nat {
    if n == 1 then 0x80 + high else if n == 2 then 0xC0 + high else if n == 3 then 0xE0 + high
    else if n == 4 then 0xF0 else 0xF4
  }

  predicate IsWidth(high: nat, n: nat) {
    (n == 1 && high < 0x40) || (n == 2 && high < 0x20) || (n == 3 && high < 0x10) || (high == 0 && (n == 4 || n == 8))
  }

  lemma WidthRoundTrip(before: seq<Byte>, high: nat, low: nat, n: nat, after: seq<Byte>)
    requires IsWidth(high, n) && low < Power256(n)
    ensures var buf := before + ([Head(high, n)] + BigEndian(low, n)) + after;
            VarintAt(buf, |before|) == Taken(Some(AsI64(Joined(high, low, n))), |before| + 1 + n)
  {
    hide BigEndian;
    hide Power256;
    hide Wide;
    hide VarintAt;
    hide AsI64;
    hide Joined;
    WideReads(before, Head(high, n), high, low, n, after);
    Widths(before + ([Head(high, n)] + BigEndian(low, n)) + after, |before|);
  }

  lemma EncodedWidth(value: U64) returns (high: nat, low: nat, n: nat)
    requires value >= 0x80
    ensures IsWidth(high, n) && low < Power256(n) && Joined(high, low, n) == value
    ensures Encode(value) == [Head(high, n)] + BigEndian(low, n)
  {
    hide BigEndian;
    hide Power256;
    Powers();
    n := if value < 0x4000 then 1 else if value < 0x20_0000 then 2 else if value < 0x1000_0000 then 3
         else if value < 0x1_0000_0000 then 4 else 8;
    var m := if n == 1 then 0x100 else if n == 2 then 0x1_0000 else 0x100_0000;
    high, low := if n <= 3 then value / m else 0, if n <= 3 then value % m else value;
  }

  /** A prefix code: whatever comes before and after, reading what was written gives the
      value back, as an `i64`, and consumes exactly its bytes. */
  lemma RoundTrip(before: seq<Byte>, value: U64, after: seq<Byte>)
    ensures var buf := before + Encode(value) + after;
            VarintAt(buf, |before|) == Taken(Some(AsI64(value)), |before| + |Encode(value)|)
  {
    hide VarintAt;
    hide BigEndian;
    hide AsI64;
    hide Joined;
    hide Head;
    if value < 0x80 {
      SmallRoundTrip(before, value, after);
    } else {
      var high, low, n := EncodedWidth(value);
      hide Encode;
      WidthRoundTrip(before, high, low, n, after);
    }
  }

  lemma SmallRoundTrip(before: seq<Byte>, value: U64, after: seq<Byte>)
    requires value < 0x80
    ensures var buf := before + Encode(value) + after;
            VarintAt(buf, |before|) == Taken(Some(AsI64(value)), |before| + |Encode(value)|)
  {
    hide VarintAt;
    Widths(before + [value] + after, |before|);
  }

  lemma AsI64Injective(a: U64, b: U64)
    requires AsI64(a) == AsI64(b)
    ensures a == b
  {
  }

  /** So no encoding is the start of another. */
  lemma NoEncodingStartsAnother(a: U64, b: U64, after: seq<Byte>)
    requires Encode(b) == Encode(a) + after
    ensures a == b && after == []
  {
    hide Encode;
    hide VarintAt;
    RoundTrip([], a, after);
    RoundTrip([], b, []);
    assert [] + Encode(a) + after == [] + Encode(b) + [];
    AsI64Injective(a, b);
  }

  /** A negative marker, 0xF8 to 0xFB, turns round whatever number follows it. */
  lemma MarkerNegates(buf: seq<Byte>, pos: nat)
    requires pos < |buf| && 0xF8 <= buf[pos] < 0xFC
    ensures var inner, r := VarintAt(buf, pos + 1), VarintAt(buf, pos);
            && r.pos == inner.pos && (r.value.Some? <==> inner.value.Some?)
            && (inner.value.Some? && inner.value.value > -0x8000_0000_0000_0000 ==> r.value == Some(-inner.value.value))
            && (inner.value == Some(-0x8000_0000_0000_0000) ==> r.value == inner.value)
  {
    hide Wide;
  }

  /** Any number of markers before a number below 2^63: its negative for an odd number of
      them, itself for an even one. */
  lemma {:induction false} NegativesRead(before: seq<Byte>, marks: seq<Byte>, value: U64, after: seq<Byte>)
    requires value < 0x8000_0000_0000_0000 && forall b :: b in marks ==> 0xF8 <= b < 0xFC
    ensures var v: int := value;
            VarintAt(before + marks + Encode(value) + after, |before|) ==
            Taken(Some(if |marks| % 2 == 0 then v else -v), |before| + |marks| + |Encode(value)|)
    decreases |marks|
  {
    hide VarintAt;
    hide Encode;
    var buf := before + marks + Encode(value) + after;
    RoundTrip(before + marks, value, after);
    if marks == [] {
      assert before + marks == before;
    } else {
      assert before + [marks[0]] + marks[1..] == before + marks;
      assert buf[|before|] == marks[0] && marks[0] in marks;
      assert forall b :: b in marks[1..] ==> b in marks;
      NegativesRead(before + [marks[0]], marks[1..], value, after);
      MarkerNegates(buf, |before|);
    }
  }

  /** The short negatives stand for nought to minus three in a single byte. */
  lemma ShortNegativesRead(before: seq<Byte>, n: int, after: seq<Byte>)
    requires 0 <= n < 4
    ensures VarintAt(before + [(252 + n) as Byte] + after, |before|) == Taken(Some(-n), |before| + 1)
  {
    hide Wide;
    assert (before + [(252 + n) as Byte] + after)[|before|] == 252 + n;
  }

  // -- The code -------------------------------------------------------------

  /** The encoding byte by byte, as it is pushed. */
  lemma EncodedBytes(value: U64)
    ensures 0x80 <= value < 0x4000 ==> Encode(value) == [0x80 + value / 0x100, value % 0x100]
    ensures 0x4000 <= value < 0x20_0000 ==>
      Encode(value) == [0xC0 + value / 0x1_0000, value / 0x100 % 0x100, value % 0x100]
    ensures 0x20_0000 <= value < 0x1000_0000 ==>
      Encode(value) == [0xE0 + value / 0x100_0000, value / 0x1_0000 % 0x100, value / 0x100 % 0x100, value % 0x100]
  {
    hide BigEndian;
    OneByte(value % 0x100);
    TwoBytes(value % 0x1_0000);
    ThreeBytes(value % 0x100_0000);
    LowDigits(value);
  }

  lemma LowDigits(value: nat)
    ensures value % 0x100 % 256 == value % 0x100
    ensures value % 0x1_0000 / 256 % 256 == value / 0x100 % 0x100 && value % 0x1_0000 % 256 == value % 0x100
    ensures value % 0x100_0000 / 65536 % 256 == value / 0x1_0000 % 0x100
    ensures value % 0x100_0000 / 256 % 256 == value / 0x100 % 0x100 && value % 0x100_0000 % 256 == value % 0x100
  {
    SecondDigit(value / 0x1_0000, value % 0x1_0000);
    SecondDigit(256 * (value / 0x100_0000), value % 0x100_0000);
    ThirdDigit(value / 0x100_0000, value % 0x100_0000);
  }

  lemma SecondDigit(q: nat, r: nat)
    ensures (0x1_0000 * q + r) / 256 % 256 == r / 256 % 256
    ensures (0x1_0000 * q + r) % 256 == r % 256
  {
    assert 0x1_0000 * q + r == 256 * (256 * q) + r;
    assert (256 * (256 * q) + r) / 256 == 256 * q + r / 256;
  }

  lemma ThirdDigit(q: nat, r: nat)
    ensures (0x100_0000 * q + r) / 65536 % 256 == r / 65536 % 256
  {
    assert 0x100_0000 * q + r == 65536 * (256 * q) + r;
    assert (65536 * (256 * q) + r) / 65536 == 256 * q + r / 65536;
  }

  lemma OneByte(v: nat)
    ensures BigEndian(v, 1) == [v % 256]
  {
    assert BigEndian(v / 256, 0) == [];
  }

  lemma TwoBytes(v: nat)
    ensures BigEndian(v, 2) == [v / 256 % 256, v % 256]
  {
    OneByte(v / 256);
  }

  lemma ThreeBytes(v: nat)
    ensures BigEndian(v, 3) == [v / 65536 % 256, v / 256 % 256, v % 256]
  {
    TwoBytes(v / 256);
    assert v / 256 / 256 == v / 65536;
  }

  method WriteVarint(out: ByteVec, value: U64)
    modifies out
    ensures out.bytes == old(out.bytes) + Encode(value)
  {
    hide BigEndian;
    EncodedBytes(value);
    if value < 0x80 {
      out.Push(value);
    } else if value < 0x4000 {
      out.Push(0x80 + value / 0x100);
      out.Push(value % 0x100);
    } else if value < 0x20_0000 {
      out.Push(0xC0 + value / 0x1_0000);
      out.Push(value / 0x100 % 0x100);
      out.Push(value % 0x100);
    } else if value < 0x1000_0000 {
      out.Push(0xE0 + value / 0x100_0000);
      out.Push(value / 0x1_0000 % 0x100);
      out.Push(value / 0x100 % 0x100);
      out.Push(value % 0x100);
    } else if value < 0x1_0000_0000 {
      out.Push(0xF0);
      out.Extend(BigEndian(value, 4));
    } else {
      out.Push(0xF4);
      out.Extend(BigEndian(value, 8));
    }
  }

  class Reader {
    const buf: seq<Byte>
    var pos: nat

    ghost predicate Valid()
      reads this
    {
      pos <= |buf|
    }

    constructor (buf: seq<Byte>)
      ensures Valid() && pos == 0 && this.buf == buf
    {
      this.buf, pos := buf, 0;
    }

    function Remaining(): (n: nat)
      requires Valid()
      reads this
      ensures pos + n == |buf|
    {
      |buf| - pos
    }

    method Byte() returns (b: Option<Byte>)
      requires Valid()
      modifies this
      ensures Valid() && (b.None? <==> old(pos) == |buf|)
      ensures b == (if old(pos) < |buf| then Some(buf[old(pos)]) else None)
      ensures pos == if b.Some? then old(pos) + 1 else old(pos)
    {
      if pos == |buf| {
        return None;
      }
      b := Some(buf[pos]);
      pos := pos + 1;
    }

    method Take(n: nat) returns (v: Option<nat>)
      requires Valid()
      modifies this
      ensures Valid() && Taken(v, pos) == TakeAt(buf, old(pos), n)
    {
      var acc: nat := 0;
      for i := 0 to n
        invariant Valid() && Taken(Some(acc), pos) == TakeAt(buf, old(pos), i)
      {
        var b := Byte();
        if b.None? {
          TakeStops(buf, old(pos), i + 1, n);
          return None;
        }
        acc := 256 * acc + b.value;
      }
      v := Some(acc);
    }

    method High(high: nat, n: nat) returns (v: Option<I64>)
      requires Valid() && n <= 8 && high < 0x40 && (high > 0 ==> n <= 3)
      modifies this
      ensures Valid() && Taken(v, pos) == Wide(high, buf, old(pos), n)
    {
      hide TakeAt;
      var low := Take(n);
      if low.None? {
        return None;
      }
      ghost var w := Wide(high, buf, old(pos), n);
      PowerGrows(n, 8);
      Powers();
      if n <= 3 {
        PowerGrows(n, 3);
        Shifted(high, n);
        v := Some(AsI64(high * Power256(n) + low.value));
      } else {
        v := Some(AsI64(low.value));
      }
    }

    method Varint() returns (r: Option<I64>)
      requires Valid()
      modifies this
      ensures Valid() && Taken(r, pos) == VarintAt(buf, old(pos))
      decreases |buf| - pos
    {
      hide Wide;
      var b := Byte();
      if b.None? {
        return None;
      }
      var v: int := b.value;
      if v < 0x80 {
        return Some(v);
      } else if v < 0xC0 {
        r := High(v - 0x80, 1);
      } else if v < 0xE0 {
        r := High(v - 0xC0, 2);
      } else if v < 0xF0 {
        r := High(v - 0xE0, 3);
      } else if v < 0xF4 {
        r := High(0, 4);
      } else if v < 0xF8 {
        r := High(0, 8);
      } else if v < 0xFC {
        var inner := Varint();
        if inner.None? {
          return None;
        }
        return Some(Negate(inner.value));
      } else {
        return Some(-(v - 0xFC));
      }
    }
  }

  lemma Shifted(high: nat, n: nat)
    requires high < 0x40 && n <= 3
    ensures high * Power256(n) + Power256(n) <= 0x4000_0000
  {
    PowerGrows(n, 3);
    Powers();
    assert high * Power256(n) + Power256(n) == (high + 1) * Power256(n);
    assert (high + 1) * Power256(n) <= 0x40 * Power256(n);
  }

  lemma {:induction false} TakeStops(buf: seq<Byte>, pos: nat, i: nat, n: nat)
    requires pos <= |buf| && 0 < i <= n && TakeAt(buf, pos, i).value.None?
    ensures TakeAt(buf, pos, n) == TakeAt(buf, pos, i)
  {
    if i < n {
      TakeStops(buf, pos, i, n - 1);
    }
  }
}
