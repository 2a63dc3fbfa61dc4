/** Writing values into a report and reading them back; when the sums of a frame are exact. */
module HidRoundTrip {
  import opened Bits
  import opened Masks
  import opened HidMap
  import opened HidParser
  import opened HidDecode

  // ---- Writing

  // `v` with its bit `i` set to `b`.
  function SetBit(v: nat, i: nat, b: bit): nat
    decreases i
  {
    if i == 0 then v / 2 * 2 + b else SetBit(v / 2, i - 1, b) * 2 + v % 2
  }

  lemma {:induction false} SetBitReads(v: nat, i: nat, b: bit, j: nat)
    ensures BitOf(SetBit(v, i, b), j) == if i == j then b else BitOf(v, j)
    decreases i
  {
    if i == 0 {
      assert (v / 2 * 2 + b) / 2 == v / 2;
    } else {
      var w := SetBit(v / 2, i - 1, b);
      assert (w * 2 + v % 2) / 2 == w && (w * 2 + v % 2) % 2 == v % 2;
      if j > 0 {
        SetBitReads(v / 2, i - 1, b, j - 1);
      }
    }
  }

  lemma {:induction false} SetBitBound(v: nat, i: nat, b: bit, n: nat)
    requires i < n && v < Pow2(n)
    ensures SetBit(v, i, b) < Pow2(n)
    decreases i
  {
    var half := Pow2(n - 1);
    assert Pow2(n) == 2 * half && v / 2 < half;
    if i > 0 {
      SetBitBound(v / 2, i - 1, b, n - 1);
    }
  }

  function SetDataBit(data: seq<byte>, k: nat, b: bit): (r: seq<byte>)
    requires k < 8 * |data|
    ensures |r| == |data|
  {
    Pow2Values();
    SetBitBound(data[k / 8], k % 8, b, 8);
    data[k / 8 := SetBit(data[k / 8], k % 8, b)]
  }

  lemma SetDataBitReads(data: seq<byte>, k: nat, b: bit, j: nat)
    requires k < 8 * |data| && j < 8 * |data|
    ensures DataBit(SetDataBit(data, k, b), j) == if j == k then b else DataBit(data, j)
  {
    if j / 8 == k / 8 {
      SetBitReads(data[k / 8], k % 8, b, j % 8);
    }
  }

  // The low `size` bits of `v`, written from bit `start` on.
  function WriteBits(data: seq<byte>, start: nat, size: nat, v: nat): (r: seq<byte>)
    requires start + size <= 8 * |data|
    ensures |r| == |data|
  {
    if size == 0 then data
    else SetDataBit(WriteBits(data, start, size - 1, v), start + size - 1, BitOf(v, size - 1))
  }

  lemma {:induction false} WriteBitsReads(data: seq<byte>, start: nat, size: nat, v: nat, j: nat)
    requires start + size <= 8 * |data| && j < 8 * |data|
    ensures DataBit(WriteBits(data, start, size, v), j)
            == if start <= j < start + size then BitOf(v, j - start) else DataBit(data, j)
  {
    if size > 0 {
      WriteBitsReads(data, start, size - 1, v, j);
      SetDataBitReads(WriteBits(data, start, size - 1, v), start + size - 1, BitOf(v, size - 1), j);
    }
  }

  lemma {:induction false} RawElsewhere(data: seq<byte>, start: nat, size: nat, v: nat, from: nat, n: nat)
    requires start + size <= 8 * |data| && from + n <= 8 * |data|
    requires from + n <= start || start + size <= from
    ensures Raw(WriteBits(data, start, size, v), from, n) == Raw(data, from, n)
  {
    if n > 0 {
      RawElsewhere(data, start, size, v, from, n - 1);
      WriteBitsReads(data, start, size, v, from + n - 1);
    }
  }

  lemma {:induction false} RawWritten(data: seq<byte>, start: nat, size: nat, v: nat, n: nat)
    requires start + size <= 8 * |data| && n <= size
    ensures Raw(WriteBits(data, start, size, v), start, n) == v % Pow2(n)
  {
    if n > 0 {
      RawWritten(data, start, size, v, n - 1);
      WriteBitsReads(data, start, size, v, start + n - 1);
      NextBit(v, n - 1);
    }
  }

  lemma NextBit(v: nat, n: nat)
    ensures v % Pow2(n + 1) == v % Pow2(n) + BitOf(v, n) * Pow2(n)
  {
    var w := v % Pow2(n + 1);
    LowBitsSame(v, n + 1, n);
    TopBit(w, n);
    ModMod(v, Pow2(n));
  }

  lemma ModMod(v: nat, p: nat)
    requires p > 0
    ensures v % (2 * p) % p == v % p
  {
    var q, r := v / (2 * p), v % (2 * p);
    assert v == q * (2 * p) + r == (2 * q) * p + r;
    var q', r' := r / p, r % p;
    assert r == q' * p + r';
    assert v == (2 * q + q') * p + r';
    DivUnique(v, p, 2 * q + q', r');
  }

  // ---- One field

  // The value can be reported in the field.
  predicate InRange(f: Field, v: int)
    requires f.size >= 1
  {
    if f.isSigned then -(Pow2(f.size - 1) as int) <= v < Pow2(f.size - 1) else 0 <= v < Pow2(f.size)
  }

  // What the decoder makes of it: an unsigned value too large for an int32 is cut to the largest.
  function Clamped(f: Field, v: int): int {
    if !f.isSigned && v > INT32_MAX then INT32_MAX else v
  }

  function WriteField(data: seq<byte>, f: Field, v: int): (r: seq<byte>)
    requires Inside(f, |data|)
    ensures |r| == |data|
  {
    WriteBits(data, f.bit, f.size, v % Pow2(f.size))
  }

  lemma WriteFieldReads(data: seq<byte>, f: Field, v: int)
    requires Inside(f, |data|) && InRange(f, v)
    ensures FieldValue(WriteField(data, f, v), f) == Clamped(f, v)
  {
    var p := Pow2(f.size);
    RawWritten(data, f.bit, f.size, v % p, f.size);
    DivUnique(v % p, p, 0, v % p);
    assert Raw(WriteField(data, f, v), f.bit, f.size) == v % p;
    if f.isSigned {
      SignedBitsInverts(v, f.size);
    } else {
      UnsignedInverts(v, p);
    }
  }

  lemma UnsignedInverts(v: int, p: nat)
    requires 0 <= v < p
    ensures v % p == v
  {
  }

  /** Writing one field leaves every field outside its bits as it was. */
  lemma WriteFieldElsewhere(data: seq<byte>, f: Field, v: int, g: Field)
    requires Inside(f, |data|) && Inside(g, |data|)
    requires f.bit + f.size <= g.bit || g.bit + g.size <= f.bit
    ensures FieldValue(WriteField(data, f, v), g) == FieldValue(data, g)
  {
    RawElsewhere(data, f.bit, f.size, v % Pow2(f.size), g.bit, g.size);
  }

  // ---- A whole report

  // Every field of report `index`, given its value.
  function Pack(fields: seq<Field>, index: nat, values: seq<int>, data: seq<byte>): (r: seq<byte>)
    requires AllInside(fields, index, |data|) && |values| == |fields|
    ensures |r| == |data|
  {
    if fields == [] then data
    else
      var n := |fields| - 1;
      var before := Pack(fields[..n], index, values[..n], data);
      if fields[n].report == index then WriteField(before, fields[n], values[n]) else before
  }

  ghost predicate Reportable(fields: seq<Field>, index: nat, values: seq<int>)
    requires |values| == |fields|
  {
    forall k :: 0 <= k < |fields| && fields[k].report == index ==> fields[k].size >= 1 && InRange(fields[k], values[k])
  }

  lemma {:induction false} PackReads(fields: seq<Field>, index: nat, values: seq<int>, data: seq<byte>, k: nat)
    requires AllInside(fields, index, |data|) && |values| == |fields| && Increasing(fields)
    requires Reportable(fields, index, values)
    requires k < |fields| && fields[k].report == index
    ensures FieldValue(Pack(fields, index, values, data), fields[k]) == Clamped(fields[k], values[k])
    decreases |fields|
  {
    var n := |fields| - 1;
    var before := Pack(fields[..n], index, values[..n], data);
    if k == n {
      WriteFieldReads(before, fields[n], values[n]);
    } else {
      assert fields[..n][k] == fields[k] && values[..n][k] == values[k];
      PackReads(fields[..n], index, values[..n], data, k);
      if fields[n].report == index {
        WriteFieldElsewhere(before, fields[n], values[n], fields[k]);
      }
    }
  }

  /** For any layout the parser leaves: in-range values packed into a report are read back, all of them. */
  lemma ReportRoundTrip(m: Layout, index: nat, values: seq<int>, data: seq<byte>, k: nat)
    requires WellFormed(m) && index < |m.reports| && |data| == ReportBytes(m.reports[index].bits)
    requires |values| == |m.fields| && Reportable(m.fields, index, values)
    requires k < |m.fields| && m.fields[k].report == index
    ensures AllInside(m.fields, index, |data|)
    ensures FieldValue(Pack(m.fields, index, values, data), m.fields[k]) == Clamped(m.fields[k], values[k])
  {
    FieldsInside(m, index, |data|);
    PackReads(m.fields, index, values, data, k);
  }

  // ---- Sums

  predicate OnAxis(f: Field, index: nat, u: Usage) {
    f.report == index && f.usage == u
  }

  // The mathematical sum of the axis.
  function AxisSum(fields: seq<Field>, index: nat, u: Usage, data: seq<byte>): int
    requires AllInside(fields, index, |data|)
  {
    if fields == [] then 0
    else
      var f := fields[|fields| - 1];
      AxisSum(fields[..|fields| - 1], index, u, data) + if OnAxis(f, index, u) then FieldValue(data, f) else 0
  }

  function Most(f: Field): int
    requires f.size >= 1
  {
    if f.isSigned then Pow2(f.size - 1) - 1 else Clamped(f, Pow2(f.size) - 1)
  }

  function Least(f: Field): int
    requires f.size >= 1
  {
    if f.isSigned then -(Pow2(f.size - 1) as int) else 0
  }

  ghost predicate Sized(fields: seq<Field>) {
    forall k :: 0 <= k < |fields| ==> 1 <= fields[k].size <= 32
  }

  function MostSum(fields: seq<Field>, index: nat, u: Usage): int
    requires Sized(fields)
  {
    if fields == [] then 0
    else
      var f := fields[|fields| - 1];
      MostSum(fields[..|fields| - 1], index, u) + if OnAxis(f, index, u) then Most(f) else 0
  }

  function LeastSum(fields: seq<Field>, index: nat, u: Usage): int
    requires Sized(fields)
  {
    if fields == [] then 0
    else
      var f := fields[|fields| - 1];
      LeastSum(fields[..|fields| - 1], index, u) + if OnAxis(f, index, u) then Least(f) else 0
  }

  lemma ValueBounds(data: seq<byte>, f: Field)
    requires Inside(f, |data|)
    ensures Least(f) <= FieldValue(data, f) <= Most(f) && Least(f) <= 0 <= Most(f)
  {
    RawBound(data, f.bit, f.size);
  }

  // The frame's axis never saturates when the largest and smallest possible sums fit.
  lemma {:induction false} SumsFit(fields: seq<Field>, index: nat, u: Usage, data: seq<byte>, frame: Frame)
    requires AllInside(fields, index, |data|) && Sized(fields) && u != MouseButton && frame.Axis(u) == 0
    requires MostSum(fields, index, u) <= INT32_MAX && LeastSum(fields, index, u) >= INT32_MIN
    ensures DecodeFields(fields, index, data, frame).Axis(u) == AxisSum(fields, index, u, data)
    ensures LeastSum(fields, index, u) <= AxisSum(fields, index, u, data) <= MostSum(fields, index, u)
  {
    if fields != [] {
      var f := fields[|fields| - 1];
      if f.report == index {
        ValueBounds(data, f);
      }
      SumsFit(fields[..|fields| - 1], index, u, data, frame);
    }
  }

  // The value that pushes field `k`'s axis furthest up, or down.
  function Extremes(fields: seq<Field>, up: bool): (values: seq<int>)
    requires Sized(fields)
    ensures |values| == |fields|
  {
    seq(|fields|, k requires 0 <= k < |fields| =>
      if up then (if fields[k].isSigned then Pow2(fields[k].size - 1) - 1 else Pow2(fields[k].size) - 1)
      else Least(fields[k]))
  }

  lemma {:induction false} ExtremeSum(all: seq<Field>, n: nat, index: nat, u: Usage, up: bool, data: seq<byte>)
    requires n <= |all| && Sized(all) && AllInside(all, index, |data|)
    requires forall k :: 0 <= k < |all| && all[k].report == index ==>
               FieldValue(data, all[k]) == if up then Most(all[k]) else Least(all[k])
    ensures AxisSum(all[..n], index, u, data)
            == if up then MostSum(all[..n], index, u) else LeastSum(all[..n], index, u)
  {
    if n > 0 {
      assert all[..n][..n - 1] == all[..n - 1];
      ExtremeSum(all, n - 1, index, u, up, data);
    }
  }

  lemma ExtremeReport(m: Layout, index: nat, u: Usage, up: bool, blank: seq<byte>) returns (data: seq<byte>)
    requires WellFormed(m) && index < |m.reports| && |blank| == ReportBytes(m.reports[index].bits)
    ensures |data| == |blank| && AllInside(m.fields, index, |data|) && Sized(m.fields)
    ensures AxisSum(m.fields, index, u, data) == if up then MostSum(m.fields, index, u) else LeastSum(m.fields, index, u)
  {
    FieldsInside(m, index, |blank|);
    forall k | 0 <= k < |m.fields|
      ensures 1 <= m.fields[k].size <= 32
    {
      assert m.fields[k] in m.fields;
    }
    var values := Extremes(m.fields, up);
    data := Pack(m.fields, index, values, blank);
    forall k | 0 <= k < |m.fields| && m.fields[k].report == index
      ensures FieldValue(data, m.fields[k]) == if up then Most(m.fields[k]) else Least(m.fields[k])
    {
      PackReads(m.fields, index, values, blank, k);
    }
    ExtremeSum(m.fields, |m.fields|, index, u, up, data);
    assert m.fields[..|m.fields|] == m.fields;
  }

  // Every report of the right length decodes to the exact sum of the axis.
  ghost predicate AlwaysExact(m: Layout, index: nat, u: Usage, frame: Frame)
    requires WellFormed(m) && index < |m.reports| && u != MouseButton
  {
    forall data: seq<byte> :: |data| == ReportBytes(m.reports[index].bits) ==>
      AllInside(m.fields, index, |data|)
      && DecodeFields(m.fields, index, data, frame).Axis(u) == AxisSum(m.fields, index, u, data)
  }

  /** Decoding an axis is exact for every report exactly when its fields' extreme values sum within an int32. */
  lemma ExactIff(m: Layout, index: nat, u: Usage, frame: Frame)
    requires WellFormed(m) && index < |m.reports| && u != MouseButton && frame.Axis(u) == 0
    ensures Sized(m.fields)
    ensures AlwaysExact(m, index, u, frame) <==>
            MostSum(m.fields, index, u) <= INT32_MAX && LeastSum(m.fields, index, u) >= INT32_MIN
  {
    var length := ReportBytes(m.reports[index].bits);
    FieldsInside(m, index, length);
    forall k | 0 <= k < |m.fields|
      ensures 1 <= m.fields[k].size <= 32
    {
      assert m.fields[k] in m.fields;
    }
    if MostSum(m.fields, index, u) <= INT32_MAX && LeastSum(m.fields, index, u) >= INT32_MIN {
      forall data: seq<byte> | |data| == length
        ensures DecodeFields(m.fields, index, data, frame).Axis(u) == AxisSum(m.fields, index, u, data)
      {
        SumsFit(m.fields, index, u, data, frame);
      }
    } else {
      var up := MostSum(m.fields, index, u) > INT32_MAX;
      var data := ExtremeReport(m, index, u, up, seq(length, _ => 0));
      var decoded: int32 := DecodeFields(m.fields, index, data, frame).Axis(u);
      assert decoded != AxisSum(m.fields, index, u, data);
    }
  }

  // Every field of the axis pushes it up, or every one down.
  ghost predicate OneWay(fields: seq<Field>, index: nat, u: Usage, data: seq<byte>, up: bool)
    requires AllInside(fields, index, |data|)
  {
    forall k :: 0 <= k < |fields| && OnAxis(fields[k], index, u) ==>
      if up then FieldValue(data, fields[k]) >= 0 else FieldValue(data, fields[k]) <= 0
  }

  /** Fields that push an axis one way add up to their sum, or stop at that end of the int32 range. */
  lemma {:induction false} SaturatesAtEnd(fields: seq<Field>, index: nat, u: Usage, data: seq<byte>, frame: Frame, up: bool)
    requires AllInside(fields, index, |data|) && u != MouseButton && frame.Axis(u) == 0 && OneWay(fields, index, u, data, up)
    ensures var sum, got := AxisSum(fields, index, u, data), DecodeFields(fields, index, data, frame).Axis(u);
            if up then sum >= 0 && got == (if sum > 0x7fff_ffff then 0x7fff_ffff else sum)
            else sum <= 0 && got == if sum + 0x8000_0000 < 0 then -0x8000_0000 else sum
  {
    if fields != [] {
      var init := fields[..|fields| - 1];
      assert forall k :: 0 <= k < |init| ==> init[k] == fields[k];
      SaturatesAtEnd(init, index, u, data, frame, up);
    }
  }

  // ---- Narrow fields

  const NARROW := 26

  lemma {:induction false} PowerRatio(s: nat, n: nat)
    requires 1 <= s <= n
    ensures n * Pow2(s) <= s * Pow2(n)
    decreases n - s
  {
    if s < n {
      PowerRatio(s + 1, n);
      var p := Pow2(s);
      assert n * Pow2(s + 1) == 2 * (n * p);
      assert (s + 1) * Pow2(n) == s * Pow2(n) + Pow2(n);
      MulAtLeast(s, Pow2(n));
    }
  }

  function SizeSum(fields: seq<Field>, index: nat, u: Usage): nat {
    if fields == [] then 0
    else
      var f := fields[|fields| - 1];
      SizeSum(fields[..|fields| - 1], index, u) + if OnAxis(f, index, u) then f.size else 0
  }

  // Disjoint fields below bit `end` have at most `end` bits between them.
  lemma {:induction false} SizesFit(fields: seq<Field>, index: nat, u: Usage, end: nat)
    requires Increasing(fields)
    requires forall k :: 0 <= k < |fields| && fields[k].report == index ==> fields[k].bit + fields[k].size <= end
    ensures SizeSum(fields, index, u) <= end
  {
    if fields != [] {
      var f := fields[|fields| - 1];
      SizesFit(fields[..|fields| - 1], index, u, if f.report == index then f.bit else end);
    }
  }

  const NARROW_SPAN: int := 0x400_0000     // 2^26

  lemma NarrowField(f: Field)
    requires 1 <= f.size <= NARROW
    ensures NARROW * Most(f) <= f.size * NARROW_SPAN && NARROW * Least(f) + f.size * NARROW_SPAN >= 0
  {
    PowerRatio(f.size, NARROW);
    Pow2Values();
  }

  lemma {:induction false} NarrowSums(fields: seq<Field>, index: nat, u: Usage)
    requires Sized(fields) && forall k :: 0 <= k < |fields| && OnAxis(fields[k], index, u) ==> fields[k].size <= NARROW
    ensures NARROW * MostSum(fields, index, u) <= SizeSum(fields, index, u) * NARROW_SPAN
    ensures NARROW * LeastSum(fields, index, u) + SizeSum(fields, index, u) * NARROW_SPAN >= 0
  {
    if fields != [] {
      var f := fields[|fields| - 1];
      NarrowSums(fields[..|fields| - 1], index, u);
      if OnAxis(f, index, u) {
        NarrowField(f);
      }
    }
  }

  /** An axis whose fields are at most 26 bits wide is decoded exactly, whatever the report. */
  lemma NarrowIsExact(m: Layout, index: nat, u: Usage, frame: Frame)
    requires WellFormed(m) && index < |m.reports| && u != MouseButton && frame.Axis(u) == 0
    requires forall k :: 0 <= k < |m.fields| && OnAxis(m.fields[k], index, u) ==> m.fields[k].size <= NARROW
    ensures AlwaysExact(m, index, u, frame)
  {
    ExactIff(m, index, u, frame);
    forall k | 0 <= k < |m.fields| && m.fields[k].report == index
      ensures m.fields[k].bit + m.fields[k].size <= MAX_REPORT_BITS
    {
      assert m.fields[k] in m.fields && m.reports[index] in m.reports;
    }
    SizesFit(m.fields, index, u, MAX_REPORT_BITS);
    NarrowSums(m.fields, index, u);
    Pow2Values();
  }
}
