/**
 The report-descriptor parser of src/hid_parser.c, a subset of section 6.2.2 of the USB
 Device Class Definition for Human Interface Devices, version 1.11.
 */
module HidParser {
  import opened Bits
  import opened Masks
  import opened HidMap

  const STACK_DEPTH := 8
  const LOCAL_USAGES := 32
  const NO_USAGE: u32 := 0xffff_ffff
  const MOUSE_COLLECTION: u32 := 0x0001_0002

  type int32 = x: int | -0x8000_0000 <= x < 0x8000_0000

  datatype Global = Global(page: u16, size: u32, count: u32, minimum: int32, id: byte)

  datatype Local = Local(usages: seq<u32>, minimum: u32, maximum: u32, hasMinimum: bool, hasMaximum: bool)

  const NO_GLOBAL := Global(0, 0, 0, 0, 0)
  const NO_LOCAL := Local([], 0, 0, false, false)

  // Everything the parse loop carries: `stack` and `collections` hold only their live part.
  datatype Parser = Parser(
    layout: Layout, global: Global, stack: seq<Global>, local: Local, collections: seq<bool>)

  const START := Parser(NO_LAYOUT, NO_GLOBAL, [], NO_LOCAL, [])

  // ---- Integers of items

  function LittleEndian(data: seq<byte>): nat {
    if data == [] then 0
    else LittleEndian(data[..|data| - 1]) + data[|data| - 1] * Pow2(8 * (|data| - 1))
  }

  lemma {:induction false} LittleEndianBound(data: seq<byte>)
    ensures LittleEndian(data) < Pow2(8 * |data|)
  {
    if data != [] {
      var n := |data| - 1;
      LittleEndianBound(data[..n]);
      NextDigit(LittleEndian(data[..n]), data[n], 8 * n);
    }
  }

  lemma NextDigit(v: nat, digit: byte, n: nat)
    requires v < Pow2(n)
    ensures v + digit * Pow2(n) < Pow2(8 + n)
  {
    Pow2Splits(8, n);
    Pow2Values();
    var p := Pow2(n);
    assert digit * p + (0xff - digit) * p == 0xff * p;
    assert (0xff - digit) * p >= 0;
  }

  lemma ItemBound(data: seq<byte>)
    requires |data| <= 4
    ensures 0 <= LittleEndian(data) < 0x1_0000_0000
    ensures |data| <= 2 ==> LittleEndian(data) < 0x1_0000
  {
    LittleEndianBound(data);
    Pow2Grows(8 * |data|, 32);
    if |data| <= 2 {
      Pow2Grows(8 * |data|, 16);
    }
    Pow2Values();
  }

  // The two's complement reading of a 32-bit word.
  function ToInt32(value: u32): int32 {
    if value < 0x8000_0000 then value else value - 0x1_0000_0000
  }

  function SignedBits(value: u32, bits: nat): (r: int32)
    requires 1 <= bits <= 32 && value < Pow2(bits)
    ensures r == if value < Pow2(bits - 1) then value else value - Pow2(bits)
  {
    Pow2Values();
    if bits == 32 then ToInt32(value)
    else
      Pow2Grows(bits, 31);
      XorTop(value, bits - 1);
      ToInt32(Xor(value, Pow2(bits - 1))) - Pow2(bits - 1)
  }

  /** `signed_bits` inverts the truncation of any value of the signed range to `bits` bits. */
  lemma SignedBitsInverts(v: int, bits: nat)
    requires 1 <= bits <= 32 && v < Pow2(bits - 1) && 0 <= v + Pow2(bits - 1)
    ensures 0 <= v % Pow2(bits) < Pow2(bits) <= 0x1_0000_0000 && SignedBits(v % Pow2(bits), bits) == v
  {
    var p := Pow2(bits);
    Pow2Grows(bits, 32);
    Pow2Values();
    ModOnce(v, p);
  }

  lemma ModOnce(v: int, p: int)
    requires p > 0 && -p <= v < p
    ensures v % p == if v < 0 then v + p else v
  {
    DivUnique(v, p, if v < 0 then -1 else 0, if v < 0 then v + p else v);
  }

  // ---- Items

  datatype Framed =
    | Truncated
    | Long(used: nat)
    | Short(kind: nat, tag: nat, data: seq<byte>, used: nat)

  // The item that starts `rest`: prefix bits 0-1 give the size, 2-3 the type, 4-7 the tag.
  function Frame(rest: seq<byte>): (r: Framed)
    requires rest != []
    ensures !r.Truncated? ==> 0 < r.used <= |rest|
    ensures r.Short? ==> |r.data| in {0, 1, 2, 4} && r.kind < 4 && r.tag < 16
  {
    if rest[0] == 0xfe then
      if |rest| < 3 || rest[1] > |rest| - 3 then Truncated else Long(3 + (rest[1] as int))
    else
      var size := ItemSize(rest[0]);
      if size > |rest| - 1 then Truncated
      else Short(rest[0] / 4 % 4, rest[0] / 16, rest[1..1 + size], 1 + size)
  }

  function ItemSize(prefix: byte): (n: nat)
    ensures n in {0, 1, 2, 4}
  {
    if prefix % 4 == 3 then 4 else prefix % 4
  }

  function Value(data: seq<byte>): u32
    requires |data| <= 4
  {
    ItemBound(data);
    LittleEndian(data)
  }

  datatype Progress = Going(parser: Parser) | Stopped(status: Status, layout: Layout)

  function GlobalItem(p: Parser, tag: nat, data: seq<byte>): Progress
    requires |data| in {0, 1, 2, 4}
  {
    var value := Value(data);
    if tag == 0 then
      if value > 0xffff then Stopped(Einval, p.layout) else Going(p.(global := p.global.(page := value)))
    else if tag == 1 then
      if data == [] then Stopped(Einval, p.layout)
      else
        LittleEndianBound(data);
        Going(p.(global := p.global.(minimum := SignedBits(value, 8 * |data|))))
    else if tag == 7 then Going(p.(global := p.global.(size := value)))
    else if tag == 8 then
      if value == 0 || value > 255 then Stopped(Einval, p.layout) else Going(p.(global := p.global.(id := value)))
    else if tag == 9 then Going(p.(global := p.global.(count := value)))
    else if tag == 10 then
      if |p.stack| == STACK_DEPTH then Stopped(E2big, p.layout) else Going(p.(stack := p.stack + [p.global]))
    else if tag == 11 then
      if p.stack == [] then Stopped(Einval, p.layout)
      else Going(p.(global := p.stack[|p.stack| - 1], stack := p.stack[..|p.stack| - 1]))
    else Going(p)
  }

  // A usage of fewer than four bytes is completed by the page in force.
  function FullUsage(page: u16, data: seq<byte>): u32
    requires |data| in {0, 1, 2, 4}
  {
    ItemBound(data);
    if |data| == 4 then Value(data) else page * 0x1_0000 + Value(data)
  }

  function LocalItem(p: Parser, tag: nat, data: seq<byte>): Progress
    requires |data| in {0, 1, 2, 4}
  {
    var usage := FullUsage(p.global.page, data);
    if tag == 0 then
      if |p.local.usages| == LOCAL_USAGES then Stopped(E2big, p.layout)
      else Going(p.(local := p.local.(usages := p.local.usages + [usage])))
    else if tag == 1 then Going(p.(local := p.local.(minimum := usage, hasMinimum := true)))
    else if tag == 2 then Going(p.(local := p.local.(maximum := usage, hasMaximum := true)))
    else if tag == 10 then Stopped(Enotsup, p.layout)
    else Going(p)
  }

  function LocalUsage(l: Local, index: nat): u32 {
    if index < |l.usages| then l.usages[index]
    else if l.hasMinimum && l.hasMaximum && l.maximum >= l.minimum && index <= l.maximum - l.minimum then
      l.minimum + index
    else if l.usages != [] then l.usages[|l.usages| - 1]
    else NO_USAGE
  }

  function InMouse(p: Parser): bool {
    p.collections != [] && p.collections[|p.collections| - 1]
  }

  function MainItem(p: Parser, tag: nat, data: seq<byte>): Progress
    requires |data| in {0, 1, 2, 4}
  {
    var value := Value(data);
    if tag == 10 then
      if |p.collections| == STACK_DEPTH then Stopped(E2big, p.layout)
      else
        var mouse := if value == 1 then LocalUsage(p.local, 0) == MOUSE_COLLECTION else InMouse(p);
        Going(p.(collections := p.collections + [mouse], local := NO_LOCAL))
    else if tag == 12 then
      if p.collections == [] then Stopped(Einval, p.layout)
      else Going(p.(collections := p.collections[..|p.collections| - 1], local := NO_LOCAL))
    else if tag == 8 then
      var added := AddInput(p.layout, p.global, p.local, value, InMouse(p));
      if added.status != Ok then Stopped(added.status, added.layout)
      else Going(p.(layout := added.layout, local := NO_LOCAL))
    else Going(p.(local := NO_LOCAL))
  }

  // ---- Input items

  datatype Added = Added(status: Status, layout: Layout)

  // The field that the `i`-th usage of an Input item defines, if this mouse has any use for it.
  function InputField(g: Global, l: Local, flags: u32, inMouse: bool, report: nat, bit: nat, i: nat): (r: seq<Field>)
    ensures |r| <= 1 && forall f :: f in r ==> f.report == report
  {
    var usage := LocalUsage(l, i);
    var page, code := usage / 0x1_0000, usage % 0x1_0000;
    var relative := BitOf(flags, 2) == 1;
    var f := Field(bit, g.size, report, MouseButton, 0, g.minimum < 0);
    if inMouse && page == 9 && 1 <= code <= 5 then [f.(button := code - 1)]
    else if inMouse && page == 1 && relative && code == 0x30 then [f.(usage := MouseX)]
    else if inMouse && page == 1 && relative && code == 0x31 then [f.(usage := MouseY)]
    else if inMouse && page == 1 && relative && code == 0x38 then [f.(usage := MouseWheel)]
    else if page == 0x0c && relative && code == 0x238 then [f.(usage := MousePan)]
    else if page == 0x0c && (code == 0x224 || code == 0x225) then [f.(button := if code == 0x224 then 3 else 4)]
    else []
  }

  // The axis flag is raised before the field table is found to be full.
  function MarkAxis(m: Layout, u: Usage): (r: Layout)
    ensures r == m.(x := r.x, y := r.y, wheel := r.wheel, pan := r.pan)
  {
    match u
    case MouseX => m.(x := true)
    case MouseY => m.(y := true)
    case MouseWheel => m.(wheel := true)
    case MousePan => m.(pan := true)
    case MouseButton => m
  }

  function FieldMask(f: Field): bv8 {
    if f.usage == MouseButton then BitMask(f.button) else 0
  }

  function Useful(r: Report, f: Field): Report {
    r.(useful := true, buttons := r.buttons | FieldMask(f))
  }

  function AddField(m: Layout, f: Field): Added
    requires f.report < |m.reports|
  {
    var marked := MarkAxis(m, f.usage);
    if |m.fields| >= MAX_FIELDS then Added(E2big, marked)
    else
      Added(Ok, marked.(fields := m.fields + [f],
                        reports := m.reports[f.report := Useful(m.reports[f.report], f)],
                        buttons := m.buttons | FieldMask(f)))
  }

  // The `i`-th usage of the item: the field it defines, if any, starts at `bit`.
  function AddUsage(m: Layout, g: Global, l: Local, flags: u32, inMouse: bool, report: nat, bit: nat, i: nat): (r: Added)
    requires report < |m.reports|
    ensures |r.layout.reports| == |m.reports|
  {
    AddAny(m, InputField(g, l, flags, inMouse, report, bit, i))
  }

  function AddAny(m: Layout, field: seq<Field>): (r: Added)
    requires forall f :: f in field ==> f.report < |m.reports|
    ensures |r.layout.reports| == |m.reports|
  {
    if field == [] then Added(Ok, m) else AddField(m, field[0])
  }

  // The fields that the usages from the `i`-th on define, each one field width behind the one before.
  function InputFields(g: Global, l: Local, flags: u32, inMouse: bool, report: nat, bit: nat, i: nat): (r: seq<Field>)
    requires i <= g.count
    ensures forall f :: f in r ==> f.report == report
    decreases g.count - i
  {
    if i == g.count then []
    else InputField(g, l, flags, inMouse, report, bit, i) + InputFields(g, l, flags, inMouse, report, bit + g.size, i + 1)
  }

  // Up to the first that is refused.
  function AddAll(m: Layout, fields: seq<Field>): (r: Added)
    requires forall f :: f in fields ==> f.report < |m.reports|
    ensures |r.layout.reports| == |m.reports|
    decreases |fields|
  {
    if fields == [] then Added(Ok, m)
    else
      var added := AddField(m, fields[0]);
      if added.status != Ok then added else AddAll(added.layout, fields[1..])
  }

  function AddFields(m: Layout, g: Global, l: Local, flags: u32, inMouse: bool, report: nat, bit: nat, i: nat): (r: Added)
    requires report < |m.reports| && i <= g.count
  {
    AddAll(m, InputFields(g, l, flags, inMouse, report, bit, i))
  }

  lemma AddAllJoins(m: Layout, first: seq<Field>, rest: seq<Field>)
    requires |first| <= 1 && forall f :: f in first + rest ==> f.report < |m.reports|
    ensures var added := AddAny(m, first);
            AddAll(m, first + rest) == if added.status != Ok then added else AddAll(added.layout, rest)
  {
    assert first == [] ==> first + rest == rest;
    assert first != [] ==> (first + rest)[1..] == rest;
  }

  // The fields are added usage by usage.
  lemma AddFieldsNext(m: Layout, g: Global, l: Local, flags: u32, inMouse: bool, report: nat, bit: nat, i: nat)
    requires report < |m.reports| && i < g.count
    ensures var added := AddUsage(m, g, l, flags, inMouse, report, bit, i);
            AddFields(m, g, l, flags, inMouse, report, bit, i)
            == if added.status != Ok then added
               else AddFields(added.layout, g, l, flags, inMouse, report, bit + g.size, i + 1)
  {
    AddAllJoins(m, InputField(g, l, flags, inMouse, report, bit, i),
                InputFields(g, l, flags, inMouse, report, bit + g.size, i + 1));
  }

  // The layout with a report for this id.
  function WithReport(m: Layout, id: byte): (r: Layout)
    ensures FindReport(m.reports, id) < |r.reports| && r.fields == m.fields
  {
    if FindReport(m.reports, id) == |m.reports| then m.(reports := m.reports + [Report(id, 0, 0, false)]) else m
  }

  // The layout with so many bits more in report `index`.
  function Lengthened(m: Layout, index: nat, bits: nat): (r: Layout)
    requires index < |m.reports|
    ensures |r.reports| == |m.reports| && r.fields == m.fields
  {
    m.(reports := m.reports[index := m.reports[index].(bits := m.reports[index].bits + bits)])
  }

  function AddInput(m: Layout, g: Global, l: Local, flags: u32, inMouse: bool): Added {
    if g.count == 0 || g.size == 0 || g.size > 32 || g.count > MAX_REPORT_BITS / g.size then Added(E2big, m)
    else
      var index := FindReport(m.reports, g.id);
      if index == |m.reports| && |m.reports| >= MAX_REPORTS then Added(E2big, m)
      else
        var m1 := WithReport(m, g.id);
        var start, bits := m1.reports[index].bits, g.size * g.count;
        if bits > MAX_REPORT_BITS - start then Added(E2big, m1)
        else
          var m2 := Lengthened(m1, index, bits);
          if BitOf(flags, 0) == 1 || BitOf(flags, 1) == 0 then Added(Ok, m2)
          else AddFields(m2, g, l, flags, inMouse, index, start, 0)
  }

  // ---- The parse loop

  function Item(p: Parser, item: Framed): Progress
    requires item.Long? || (item.Short? && |item.data| in {0, 1, 2, 4})
  {
    if item.Long? then Going(p)
    else if item.kind == 1 then GlobalItem(p, item.tag, item.data)
    else if item.kind == 2 then LocalItem(p, item.tag, item.data)
    else if item.kind == 0 then MainItem(p, item.tag, item.data)
    else Going(p)
  }

  function Finish(p: Parser): Added {
    if p.collections != [] || p.stack != [] then Added(Einval, p.layout)
    else Added(if p.layout.x && p.layout.y then Ok else Enotsup, p.layout)
  }

  function ParseFrom(rest: seq<byte>, p: Parser): Added
    decreases |rest|
  {
    if rest == [] then Finish(p)
    else
      var item := Frame(rest);
      if item.Truncated? then Added(Einval, p.layout)
      else
        match Item(p, item)
        case Stopped(status, layout) => Added(status, layout)
        case Going(p') => ParseFrom(rest[item.used..], p')
  }

  // The result for a descriptor of acceptable length.
  function Parse(data: seq<byte>): Added
  {
    ParseFrom(data, START)
  }

  // What `mouse_hid_parse` returns for a descriptor of any length, and the layout it leaves.
  function Result(data: seq<byte>, before: Layout): Added {
    if data == [] || |data| > MAX_MAP_BYTES then Added(Einval, before) else Parse(data)
  }
}
