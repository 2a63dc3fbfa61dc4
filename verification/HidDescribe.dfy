/**
 Writing descriptors, and reading them back: collections one inside the other, and Input items of every
 kind, data, constant or array, whose usages are listed, given as a range, or repeated.
 */
module HidDescribe {
  import opened Bits
  import opened Masks
  import opened HidMap
  import opened HidParser

  // ---- What there is to describe

  // What one slot of an Input item reports; `Nothing` is a usage that this mouse has no use for.
  datatype Target =
    | PointerX | PointerY | Wheel | Pan
    | Numbered(button: Button)
    | Back | Forward
    | Nothing(code: u32)

  // Usage pages and usages: Generic Desktop 0x01, Button 0x09, Consumer 0x0c.
  function Code(t: Target): u32 {
    match t
    case PointerX => 0x0001_0030
    case PointerY => 0x0001_0031
    case Wheel => 0x0001_0038
    case Pan => 0x000c_0238
    case Numbered(b) => 0x0009_0001 + b
    case Back => 0x000c_0224
    case Forward => 0x000c_0225
    case Nothing(code) => code
  }

  predicate Meaningless(code: u32) {
    !(0x0009_0001 <= code <= 0x0009_0005)
    && code !in {0x0001_0030, 0x0001_0031, 0x0001_0038, 0x000c_0238, 0x000c_0224, 0x000c_0225}
  }

  // Which of the slots are fields of the mouse: movement must be relative, and all but the Consumer page's
  // usages lie in the Mouse collection.
  predicate OfUse(t: Target, relative: bool, inMouse: bool) {
    match t
    case PointerX => inMouse && relative
    case PointerY => inMouse && relative
    case Wheel => inMouse && relative
    case Pan => relative
    case Numbered(_) => inMouse
    case Back => true
    case Forward => true
    case Nothing(_) => false
  }

  function UsageOf(t: Target): Usage {
    match t
    case PointerX => MouseX
    case PointerY => MouseY
    case Wheel => MouseWheel
    case Pan => MousePan
    case _ => MouseButton
  }

  // Buttons count from zero; Back and Forward are the fourth and the fifth.
  function ButtonOf(t: Target): Button {
    match t
    case Numbered(b) => b
    case Back => 3
    case Forward => 4
    case _ => 0
  }

  // How an item names its slots: the first `listed` one by one; those from there up to `ranged` by their place
  // in the range of usages that starts at `first`; any others by repeating the last one listed. `short` usages
  // take their page from a Usage Page item.
  datatype Naming = Naming(short: bool, listed: nat, first: u32, ranged: nat)

  const ONE_LISTED := Naming(false, 1, 0, 0)

  // An Input item: as many slots as targets, one after the other in report `id`, all of one size.
  datatype Group = Group(id: byte, minimum: int, size: byte, flags: byte, naming: Naming, targets: seq<Target>)

  datatype Element =
    | Open(kind: byte, usage: u32)
    | Close
    | Input(group: Group)
    | Elsewhere(feature: bool, group: Group)      // an Output or a Feature item

  const MOUSE: u32 := 0x0001_0002
  const APPLICATION: byte := 1

  predicate NamedRight(n: Naming, ts: seq<Target>) {
    && n.listed <= |ts| && n.first + n.ranged <= 0x1_0000_0000
    && forall k :: n.listed <= k < |ts| ==>
         if k < n.ranged then Code(ts[k]) == n.first + k
         else if n.listed > 0 then ts[k] == ts[n.listed - 1]
         else ts[k] == Nothing(NO_USAGE)
  }

  // The item can be written down: its count and its minimum fit into one byte each.
  predicate Writable(g: Group) {
    && -0x80 <= g.minimum < 0x80 && |g.targets| < 0x100 && NamedRight(g.naming, g.targets)
    && forall k :: 0 <= k < |g.targets| && g.targets[k].Nothing? ==> Meaningless(g.targets[k].code)
  }

  predicate CanWrite(e: Element) {
    e.Input? || e.Elsewhere? ==> Writable(e.group)
  }

  predicate AllWritable(es: seq<Element>) {
    forall k :: 0 <= k < |es| ==> CanWrite(es[k])
  }

  // ---- The descriptor

  function Bytes2(v: u16): seq<byte> {
    [v % 0x100, v / 0x100]
  }

  function Bytes4(v: u32): seq<byte> {
    [v % 0x100, v / 0x100 % 0x100, v / 0x1_0000 % 0x100, v / 0x100_0000]
  }

  const USAGE: nat := 0
  const USAGE_MINIMUM: nat := 1
  const USAGE_MAXIMUM: nat := 2

  function UsageItem(tag: nat, code: u32, short: bool): seq<byte>
    requires tag <= 2
  {
    if short then ([0x06] + Bytes2(code / 0x1_0000)) + ([0x10 * tag + 0x0a] + Bytes2(code % 0x1_0000))
    else [0x10 * tag + 0x0b] + Bytes4(code)
  }

  function UsageItems(ts: seq<Target>, short: bool): seq<byte> {
    if ts == [] then [] else UsageItems(ts[..|ts| - 1], short) + UsageItem(USAGE, Code(ts[|ts| - 1]), short)
  }

  function RangeItems(n: Naming): seq<byte>
    requires n.first + n.ranged <= 0x1_0000_0000
  {
    if n.ranged == 0 then []
    else UsageItem(USAGE_MINIMUM, n.first, n.short) + UsageItem(USAGE_MAXIMUM, n.first + n.ranged - 1, n.short)
  }

  // Report ID, Logical Minimum, Report Size, Report Count.
  function Head(g: Group): seq<byte>
    requires Writable(g)
  {
    ([0x85, g.id] + [0x15, g.minimum % 0x100]) + ([0x75, g.size] + [0x95, |g.targets|])
  }

  // What precedes the Main item.
  function Prelude(g: Group): seq<byte>
    requires Writable(g)
  {
    Head(g) + (UsageItems(g.targets[..g.naming.listed], g.naming.short) + RangeItems(g.naming))
  }

  function DescribeElement(e: Element): seq<byte>
    requires CanWrite(e)
  {
    match e
    case Open(kind, usage) => UsageItem(USAGE, usage, false) + [0xa1, kind]
    case Close => [0xc0]
    case Input(g) => Prelude(g) + [0x81, g.flags]
    case Elsewhere(feature, g) => Prelude(g) + [if feature then 0xb1 else 0x91, g.flags]
  }

  function Describe(es: seq<Element>): seq<byte>
    requires AllWritable(es)
  {
    if es == [] then [] else Describe(es[..|es| - 1]) + DescribeElement(es[|es| - 1])
  }

  // ---- The layout it should have

  // Report ids in the order of their first Input item.
  function Ids(es: seq<Element>): seq<byte> {
    if es == [] then []
    else
      var before, e := Ids(es[..|es| - 1]), es[|es| - 1];
      if !e.Input? || e.group.id in before then before else before + [e.group.id]
  }

  // Bits of report `id`: those of all its Input items, whatever their kind.
  function BitsOf(es: seq<Element>, id: byte): nat {
    if es == [] then 0
    else
      var e := es[|es| - 1];
      BitsOf(es[..|es| - 1], id) + if e.Input? && e.group.id == id then e.group.size * |e.group.targets| else 0
  }

  // For each open collection the usage of the innermost application around, or 0.
  function Enclosing(es: seq<Element>): seq<u32> {
    if es == [] then []
    else
      var outer := Enclosing(es[..|es| - 1]);
      match es[|es| - 1]
      case Open(kind, usage) =>
        outer + [if kind == APPLICATION then usage else if outer == [] then 0 else outer[|outer| - 1]]
      case Close => if outer == [] then [] else outer[..|outer| - 1]
      case _ => outer
  }

  predicate InsideMouse(es: seq<Element>) {
    Enclosing(es) != [] && Enclosing(es)[|Enclosing(es)| - 1] == MOUSE
  }

  function IndexOf(ids: seq<byte>, id: byte): (i: nat)
    ensures i <= |ids|
    ensures i < |ids| ==> ids[i] == id
    ensures id in ids ==> i < |ids|
  {
    if ids == [] then 0 else if ids[0] == id then 0 else 1 + IndexOf(ids[1..], id)
  }

  // Neither constant (bit 0) nor an array (bit 1 clear), and of use; bit 2 says relative.
  predicate Gives(g: Group, inMouse: bool, i: nat)
    requires i < |g.targets|
  {
    g.flags % 2 == 0 && g.flags / 2 % 2 == 1 && OfUse(g.targets[i], g.flags / 4 % 2 == 1, inMouse)
  }

  function FieldOf(g: Group, start: nat, report: nat, i: nat): Field
    requires i < |g.targets|
  {
    Field(start + i * g.size, g.size, report, UsageOf(g.targets[i]), ButtonOf(g.targets[i]), g.minimum < 0)
  }

  function SlotFields(g: Group, inMouse: bool, start: nat, report: nat, i: nat): seq<Field>
    requires i < |g.targets|
  {
    if Gives(g, inMouse, i) then [FieldOf(g, start, report, i)] else []
  }

  // The fields of the first `n` slots.
  function GroupFields(g: Group, inMouse: bool, start: nat, report: nat, n: nat): seq<Field>
    requires n <= |g.targets|
  {
    if n == 0 then []
    else GroupFields(g, inMouse, start, report, n - 1) + SlotFields(g, inMouse, start, report, n - 1)
  }

  // The fields that the last of these elements adds.
  function NewFields(es: seq<Element>): seq<Field>
    requires es != []
  {
    var init, e := es[..|es| - 1], es[|es| - 1];
    if !e.Input? then []
    else GroupFields(e.group, InsideMouse(init), BitsOf(init, e.group.id), IndexOf(Ids(es), e.group.id), |e.group.targets|)
  }

  function FieldsOf(es: seq<Element>): seq<Field> {
    if es == [] then [] else FieldsOf(es[..|es| - 1]) + NewFields(es)
  }

  // Report ids start at 1, and 32 usages may be listed.
  predicate WellNamed(g: Group) {
    g.id >= 1 && g.naming.listed <= 32
  }

  // The last element is within the parser's limits.
  predicate Admitted(es: seq<Element>)
    requires es != []
  {
    match es[|es| - 1]
    case Open(_, _) => |Enclosing(es)| <= 8
    case Close => Enclosing(es[..|es| - 1]) != []
    case Input(g) =>
      && WellNamed(g) && 1 <= g.size <= 32 && g.targets != []
      && BitsOf(es, g.id) <= 512 && |Ids(es)| <= 8 && |FieldsOf(es)| <= 48
    case Elsewhere(_, g) => WellNamed(g)
  }

  predicate Legal(es: seq<Element>) {
    es == [] || (Legal(es[..|es| - 1]) && Admitted(es))
  }
}
