/** Reading a report through a layout: `mouse_hid_decode` of src/hid_parser.c. */
module HidDecode {
  import opened Bits
  import opened Masks
  import opened HidMap
  import opened HidParser
  import HidParserLoop

  const INT32_MIN := -0x8000_0000
  const INT32_MAX := 0x7fff_ffff

  datatype Frame = Frame(x: int32, y: int32, wheel: int32, pan: int32, buttons: bv8, present: bv8) {
    function Axis(u: Usage): int32
      requires u != MouseButton
    {
      match u
      case MouseX => x
      case MouseY => y
      case MouseWheel => wheel
      case MousePan => pan
    }
  }

  const NO_FRAME := Frame(0, 0, 0, 0, 0, 0)

  // ---- Values

  // Bit `k` of a report, counting from the low bit of its first byte.
  function DataBit(data: seq<byte>, k: nat): bit
    requires k < 8 * |data|
  {
    BitOf(data[k / 8], k % 8)
  }

  function Raw(data: seq<byte>, start: nat, size: nat): nat
    requires start + size <= 8 * |data|
  {
    if size == 0 then 0
    else Raw(data, start, size - 1) + DataBit(data, start + size - 1) * Pow2(size - 1)
  }

  lemma {:induction false} RawBound(data: seq<byte>, start: nat, size: nat)
    requires start + size <= 8 * |data|
    ensures Raw(data, start, size) < Pow2(size)
  {
    if size > 0 {
      RawBound(data, start, size - 1);
    }
  }

  predicate Inside(f: Field, length: nat) {
    1 <= f.size <= 32 && f.bit + f.size <= 8 * length
  }

  function FieldValue(data: seq<byte>, f: Field): int32
    requires Inside(f, |data|)
  {
    RawBound(data, f.bit, f.size);
    Pow2Grows(f.size, 32);
    Pow2Values();
    var raw := Raw(data, f.bit, f.size);
    if f.isSigned then SignedBits(raw, f.size) else if raw > INT32_MAX then INT32_MAX else raw
  }

  function AddSaturated(a: int32, b: int32): int32 {
    var sum := a + b;
    if sum > INT32_MAX then INT32_MAX else if sum < INT32_MIN then INT32_MIN else sum
  }

  // ---- Frames

  function Apply(frame: Frame, f: Field, value: int32): Frame {
    match f.usage
    case MouseX => frame.(x := AddSaturated(frame.x, value))
    case MouseY => frame.(y := AddSaturated(frame.y, value))
    case MouseWheel => frame.(wheel := AddSaturated(frame.wheel, value))
    case MousePan => frame.(pan := AddSaturated(frame.pan, value))
    case MouseButton => if value != 0 then frame.(buttons := frame.buttons | BitMask(f.button)) else frame
  }

  ghost predicate AllInside(fields: seq<Field>, index: nat, length: nat) {
    forall k :: 0 <= k < |fields| && fields[k].report == index ==> Inside(fields[k], length)
  }

  // The frame after the fields of report `index` have been read, in order.
  function DecodeFields(fields: seq<Field>, index: nat, data: seq<byte>, frame: Frame): Frame
    requires AllInside(fields, index, |data|)
  {
    if fields == [] then frame
    else
      var f := fields[|fields| - 1];
      var before := DecodeFields(fields[..|fields| - 1], index, data, frame);
      if f.report == index then Apply(before, f, FieldValue(data, f)) else before
  }

  // The fewest bytes that hold so many bits.
  function ReportBytes(bits: nat): (n: nat)
    ensures 8 * n >= bits && (n > 0 ==> 8 * (n - 1) < bits)
  {
    (bits + 7) / 8
  }

  lemma FieldsInside(m: Layout, index: nat, length: nat)
    requires WellFormed(m) && index < |m.reports| && length == ReportBytes(m.reports[index].bits)
    ensures AllInside(m.fields, index, length) && length <= 64
  {
    forall k | 0 <= k < |m.fields| && m.fields[k].report == index
      ensures Inside(m.fields[k], length)
    {
      assert m.fields[k] in m.fields;
    }
    assert m.reports[index] in m.reports;
  }

  // Some field of report `index` for button `b` holds anything but zero.
  ghost predicate Pressed(fields: seq<Field>, index: nat, data: seq<byte>, b: Button)
    requires AllInside(fields, index, |data|)
  {
    exists k :: 0 <= k < |fields| && fields[k].report == index && fields[k].usage == MouseButton
                && fields[k].button == b && FieldValue(data, fields[k]) != 0
  }

  lemma ApplyButton(frame: Frame, f: Field, value: int32, b: Button)
    ensures Has(Apply(frame, f, value).buttons, b)
            <==> Has(frame.buttons, b) || (f.usage == MouseButton && f.button == b && value != 0)
  {
  }

  /** A decoded button is down exactly when some field of the report says so. */
  lemma {:induction false} ButtonsDecoded(fields: seq<Field>, index: nat, data: seq<byte>, frame: Frame, b: Button)
    requires AllInside(fields, index, |data|)
    ensures Has(DecodeFields(fields, index, data, frame).buttons, b)
            <==> Has(frame.buttons, b) || Pressed(fields, index, data, b)
  {
    if fields != [] {
      var init, f := fields[..|fields| - 1], fields[|fields| - 1];
      ButtonsDecoded(init, index, data, frame, b);
      if f.report == index {
        ApplyButton(DecodeFields(init, index, data, frame), f, FieldValue(data, f), b);
      }
      assert Pressed(init, index, data, b) ==> Pressed(fields, index, data, b) by {
        assert forall k :: 0 <= k < |init| ==> init[k] == fields[k];
      }
    }
  }

  lemma JoinBit(data: seq<byte>, start: nat, i: nat)
    requires start + i < 8 * |data|
    ensures Or(Raw(data, start, i), DataBit(data, start + i) * Pow2(i)) == Raw(data, start, i + 1)
  {
    RawBound(data, start, i);
    OrAdds(Raw(data, start, i), DataBit(data, start + i), i);
  }

  /** `extract_field`: assembles the value bit by bit. */
  method ExtractField(data: array<byte>, f: Field) returns (value: int32)
    requires Inside(f, data.Length)
    ensures value == FieldValue(data[..], f)
  {
    var raw: nat := 0;
    for i := 0 to f.size
      invariant raw == Raw(data[..], f.bit, i)
    {
      var b := f.bit + i;
      JoinBit(data[..], f.bit, i);
      raw := Or(raw, BitOf(data[b / 8], b % 8) * Pow2(i));
    }
    RawBound(data[..], f.bit, f.size);
    Pow2Grows(f.size, 32);
    Pow2Values();
    value := if f.isSigned then SignedBits(raw, f.size) else if raw > INT32_MAX then INT32_MAX else raw;
  }

  /** The caller's frame, left untouched unless the report is decoded. */
  class FrameBuffer {
    var frame: Frame
  }

  /**
   `mouse_hid_decode`. No read leaves the report: every field of a layout that the parser
   left behind lies inside a report of the only length accepted for it.
   */
  method Decode(layout: HidParserLoop.LayoutBuffer?, id: byte, data: array?<byte>, out: FrameBuffer?)
    returns (status: Status)
    requires layout != null ==> WellFormed(layout.View())
    modifies if out == null then {} else {out}
    ensures layout == null || data == null || out == null ==> status == Einval
    ensures layout != null && data != null && out != null ==>
              var m := layout.View(); var index := FindReport(m.reports, id);
              if index == |m.reports| || !m.reports[index].useful then status == Enoent
              else if data.Length != ReportBytes(m.reports[index].bits) then status == Emsgsize
              else status == Ok && AllInside(m.fields, index, data.Length)
                   && out.frame == DecodeFields(m.fields, index, data[..], NO_FRAME.(present := m.reports[index].buttons))
    ensures status != Ok && out != null ==> out.frame == old(out.frame)
  {
    if layout == null || data == null || out == null {
      return Einval;
    }
    var index, none := ReportIndex(layout.reports, id);
    if none || !layout.reports[index].useful {
      return Enoent;
    }
    if data.Length != ReportBytes(layout.reports[index].bits) {
      return Emsgsize;
    }
    FieldsInside(layout.View(), index, data.Length);
    out.frame := DecodeReport(layout.fields, index, data, layout.reports[index].buttons);
    status := Ok;
  }

  method DecodeReport(fields: seq<Field>, index: nat, data: array<byte>, present: bv8) returns (frame: Frame)
    requires AllInside(fields, index, data.Length)
    ensures frame == DecodeFields(fields, index, data[..], NO_FRAME.(present := present))
  {
    frame := NO_FRAME.(present := present);
    ghost var start := frame;
    for i := 0 to |fields|
      invariant frame == DecodeFields(fields[..i], index, data[..], start)
    {
      var f := fields[i];
      assert fields[..i + 1][..i] == fields[..i];
      if f.report == index {
        var value := ExtractField(data, f);
        frame := Apply(frame, f, value);
      }
    }
    assert fields[..|fields|] == fields;
  }
}
