/**
 The mouse of tests/fixtures/hid_reports.h: packed axes behind five buttons and three constant bits, a vendor
 report, and the Back and Forward buttons of a consumer report.
 */
module HidFixture {
  import opened Bits
  import opened Masks
  import opened HidMap
  import opened HidParser
  import opened HidDescribe
  import opened HidDescriptors
  import HidSummary

  const UNNAMED := Naming(false, 0, 0, 0)

  const BUTTON_GROUP :=
    Group(7, 0, 1, 2, Naming(true, 0, 0x0009_0001, 5), [Numbered(0), Numbered(1), Numbered(2), Numbered(3), Numbered(4)])
  const FILLER := Group(7, 0, 3, 3, UNNAMED, [Nothing(NO_USAGE)])
  const AXES_GROUP := Group(7, -1, 12, 6, Naming(true, 2, 0, 0), [PointerX, PointerY])
  const WHEEL_GROUP := Group(7, -127, 8, 6, Naming(true, 1, 0, 0), [Wheel])
  const PAN_GROUP := Group(7, -127, 8, 6, Naming(true, 1, 0, 0), [Pan])
  const VENDOR_GROUP := Group(0x11, -127, 8, 2, UNNAMED, seq(20, _ => Nothing(NO_USAGE)))
  const BACK_GROUP := Group(0x2a, 0, 1, 2, Naming(true, 2, 0, 0), [Back, Forward])
  const END_FILLER := Group(0x2a, 0, 6, 3, UNNAMED, [Nothing(NO_USAGE)])

  // The Mouse collection, with a Physical one inside it.
  const MOUSE_PART: seq<Element> :=
    [Open(APPLICATION, MOUSE)] + [Open(0, 0x0001_0001)] + [Input(BUTTON_GROUP)] + [Input(FILLER)] + [Input(AXES_GROUP)]
    + [Elsewhere(true, Group(7, 0, 8, 2, ONE_LISTED, [Nothing(0x0001_0048)]))]
    + [Input(WHEEL_GROUP)] + [Input(PAN_GROUP)] + [Close] + [Close]

  const VENDOR_PART: seq<Element> := MOUSE_PART + [Open(APPLICATION, 0xff00_0001)] + [Input(VENDOR_GROUP)] + [Close]

  const FIXTURE: seq<Element> :=
    VENDOR_PART + [Open(APPLICATION, 0x000c_0001)] + [Input(BACK_GROUP)] + [Input(END_FILLER)] + [Close]

  // What has been described so far.
  ghost predicate SoFar(es: seq<Element>, ids: seq<byte>, bits: (nat, nat, nat), fields: seq<Field>, enclosing: seq<u32>) {
    && Legal(es) && Ids(es) == ids && FieldsOf(es) == fields && Enclosing(es) == enclosing
    && BitsOf(es, 7) == bits.0 && BitsOf(es, 0x11) == bits.1 && BitsOf(es, 0x2a) == bits.2
  }

  lemma Opened(es: seq<Element>, kind: byte, usage: u32, ids: seq<byte>, bits: (nat, nat, nat), fields: seq<Field>,
               enclosing: seq<u32>)
    requires SoFar(es, ids, bits, fields, enclosing) && |enclosing| < 8
    ensures SoFar(es + [Open(kind, usage)], ids, bits, fields,
                  enclosing + [if kind == 1 then usage else if enclosing == [] then 0 else enclosing[|enclosing| - 1]])
  {
    OneMoreElement(es, Open(kind, usage));
    assert (es + [Open(kind, usage)])[..|es|] == es;
  }

  lemma Closed(es: seq<Element>, ids: seq<byte>, bits: (nat, nat, nat), fields: seq<Field>, enclosing: seq<u32>)
    requires SoFar(es, ids, bits, fields, enclosing) && enclosing != []
    ensures SoFar(es + [Close], ids, bits, fields, enclosing[..|enclosing| - 1])
  {
    OneMoreElement(es, Close);
    assert (es + [Close])[..|es|] == es;
  }

  lemma Ignored(es: seq<Element>, g: Group, ids: seq<byte>, bits: (nat, nat, nat), fields: seq<Field>, enclosing: seq<u32>)
    requires SoFar(es, ids, bits, fields, enclosing) && WellNamed(g)
    ensures SoFar(es + [Elsewhere(true, g)], ids, bits, fields, enclosing)
  {
    OneMoreElement(es, Elsewhere(true, g));
    assert (es + [Elsewhere(true, g)])[..|es|] == es;
  }

  // Where the item's report stands, and the ids and bits with it.
  function WithId(ids: seq<byte>, id: byte): seq<byte> {
    if id in ids then ids else ids + [id]
  }

  function WithBits(bits: (nat, nat, nat), id: byte, n: nat): (nat, nat, nat) {
    if id == 7 then (bits.0 + n, bits.1, bits.2) else if id == 0x11 then (bits.0, bits.1 + n, bits.2)
    else (bits.0, bits.1, bits.2 + n)
  }

  function BitsIn(bits: (nat, nat, nat), id: byte): nat {
    if id == 7 then bits.0 else if id == 0x11 then bits.1 else bits.2
  }

  lemma Added(es: seq<Element>, g: Group, ids: seq<byte>, bits: (nat, nat, nat), fields: seq<Field>, enclosing: seq<u32>,
              more: seq<Field>)
    requires SoFar(es, ids, bits, fields, enclosing) && g.id in {7, 0x11, 0x2a} && WellNamed(g)
    requires 1 <= g.size <= 32 && g.targets != [] && BitsIn(bits, g.id) + g.size * |g.targets| <= 512 && |ids| < 8
    requires |fields| + |more| <= 48
    requires var inMouse := enclosing != [] && enclosing[|enclosing| - 1] == MOUSE;
             more == GroupFields(g, inMouse, BitsIn(bits, g.id), IndexOf(WithId(ids, g.id), g.id), |g.targets|)
    ensures SoFar(es + [Input(g)], WithId(ids, g.id), WithBits(bits, g.id, g.size * |g.targets|), fields + more, enclosing)
  {
    OneMoreInput(es, g);
  }

  function Key(bit: nat, report: nat, button: Button): Field {
    Field(bit, 1, report, MouseButton, button, false)
  }

  const KEYS: seq<Field> := [Key(0, 0, 0), Key(1, 0, 1), Key(2, 0, 2), Key(3, 0, 3), Key(4, 0, 4)]
  const MOTION: seq<Field> := [Field(8, 12, 0, MouseX, 0, true), Field(20, 12, 0, MouseY, 0, true)]
  const WHEELS: seq<Field> := [Field(32, 8, 0, MouseWheel, 0, true), Field(40, 8, 0, MousePan, 0, true)]
  const SIDE_KEYS: seq<Field> := [Key(0, 2, 3), Key(1, 2, 4)]

  lemma OneSlot(g: Group, inMouse: bool, start: nat, report: nat)
    requires |g.targets| == 1
    ensures GroupFields(g, inMouse, start, report, 1) == SlotFields(g, inMouse, start, report, 0)
  {
    assert GroupFields(g, inMouse, start, report, 0) == [];
  }

  lemma TwoSlots(g: Group, inMouse: bool, start: nat, report: nat)
    requires |g.targets| == 2
    ensures GroupFields(g, inMouse, start, report, 2)
            == SlotFields(g, inMouse, start, report, 0) + SlotFields(g, inMouse, start, report, 1)
  {
    assert GroupFields(g, inMouse, start, report, 0) == [];
    assert GroupFields(g, inMouse, start, report, 1) == SlotFields(g, inMouse, start, report, 0);
  }

  lemma ButtonsAre(n: nat)
    requires n <= 5
    ensures GroupFields(BUTTON_GROUP, true, 0, 0, n) == KEYS[..n]
  {
    if n > 0 {
      ButtonsAre(n - 1);
      assert SlotFields(BUTTON_GROUP, true, 0, 0, n - 1) == [KEYS[n - 1]];
      assert KEYS[..n] == KEYS[..n - 1] + [KEYS[n - 1]];
    }
  }

  lemma NoVendorFields(n: nat)
    requires n <= 20
    ensures GroupFields(VENDOR_GROUP, false, 0, 1, n) == []
  {
    if n > 0 {
      NoVendorFields(n - 1);
    }
  }

  lemma ButtonsPart()
    ensures SoFar([Open(APPLICATION, MOUSE)] + [Open(0, 0x0001_0001)] + [Input(BUTTON_GROUP)] + [Input(FILLER)],
                  [7], (8, 0, 0), KEYS, [MOUSE, MOUSE])
  {
    OpenMouse();
    var e0 := [Open(APPLICATION, MOUSE)];
    Opened(e0, 0, 0x0001_0001, [], (0, 0, 0), [], [MOUSE]);
    var e1 := e0 + [Open(0, 0x0001_0001)];
    ButtonsAre(5);
    Added(e1, BUTTON_GROUP, [], (0, 0, 0), [], [MOUSE, MOUSE], KEYS);
    OneSlot(FILLER, true, 5, 0);
    Added(e1 + [Input(BUTTON_GROUP)], FILLER, [7], (5, 0, 0), KEYS, [MOUSE, MOUSE], []);
  }

  lemma MotionPart()
    ensures SoFar([Open(APPLICATION, MOUSE)] + [Open(0, 0x0001_0001)] + [Input(BUTTON_GROUP)] + [Input(FILLER)]
                  + [Input(AXES_GROUP)] + [Elsewhere(true, Group(7, 0, 8, 2, ONE_LISTED, [Nothing(0x0001_0048)]))],
                  [7], (32, 0, 0), KEYS + MOTION, [MOUSE, MOUSE])
  {
    var es := [Open(APPLICATION, MOUSE)] + [Open(0, 0x0001_0001)] + [Input(BUTTON_GROUP)] + [Input(FILLER)];
    ButtonsPart();
    TwoSlots(AXES_GROUP, true, 8, 0);
    Added(es, AXES_GROUP, [7], (8, 0, 0), KEYS, [MOUSE, MOUSE], MOTION);
    Ignored(es + [Input(AXES_GROUP)], Group(7, 0, 8, 2, ONE_LISTED, [Nothing(0x0001_0048)]),
            [7], (32, 0, 0), KEYS + MOTION, [MOUSE, MOUSE]);
  }

  lemma MousePart()
    ensures SoFar(MOUSE_PART, [7], (48, 0, 0), KEYS + MOTION + WHEELS, [])
  {
    var es := [Open(APPLICATION, MOUSE)] + [Open(0, 0x0001_0001)] + [Input(BUTTON_GROUP)] + [Input(FILLER)]
              + [Input(AXES_GROUP)] + [Elsewhere(true, Group(7, 0, 8, 2, ONE_LISTED, [Nothing(0x0001_0048)]))];
    MotionPart();
    OneSlot(WHEEL_GROUP, true, 32, 0);
    Added(es, WHEEL_GROUP, [7], (32, 0, 0), KEYS + MOTION, [MOUSE, MOUSE], [WHEELS[0]]);
    OneSlot(PAN_GROUP, true, 40, 0);
    Added(es + [Input(WHEEL_GROUP)], PAN_GROUP, [7], (40, 0, 0), KEYS + MOTION + [WHEELS[0]], [MOUSE, MOUSE], [WHEELS[1]]);
    assert KEYS + MOTION + [WHEELS[0]] + [WHEELS[1]] == KEYS + MOTION + WHEELS;
    Closed(es + [Input(WHEEL_GROUP)] + [Input(PAN_GROUP)], [7], (48, 0, 0), KEYS + MOTION + WHEELS, [MOUSE, MOUSE]);
    Closed(es + [Input(WHEEL_GROUP)] + [Input(PAN_GROUP)] + [Close], [7], (48, 0, 0), KEYS + MOTION + WHEELS, [MOUSE]);
  }

  // Whatever has been described before: a vendor's report, and a consumer's.
  lemma VendorAfter(es: seq<Element>, fields: seq<Field>)
    requires SoFar(es, [7], (48, 0, 0), fields, []) && |fields| <= 48
    ensures SoFar(es + [Open(APPLICATION, 0xff00_0001)] + [Input(VENDOR_GROUP)] + [Close], [7, 0x11], (48, 160, 0), fields, [])
  {
    var within := es + [Open(APPLICATION, 0xff00_0001)];
    Opened(es, APPLICATION, 0xff00_0001, [7], (48, 0, 0), fields, []);
    NoVendorFields(20);
    Added(within, VENDOR_GROUP, [7], (48, 0, 0), fields, [0xff00_0001], []);
    Closed(within + [Input(VENDOR_GROUP)], [7, 0x11], (48, 160, 0), fields, [0xff00_0001]);
  }

  lemma SideAfter(es: seq<Element>, fields: seq<Field>)
    requires SoFar(es, [7, 0x11], (48, 160, 0), fields, []) && |fields| <= 46
    ensures SoFar(es + [Open(APPLICATION, 0x000c_0001)] + [Input(BACK_GROUP)], [7, 0x11, 0x2a], (48, 160, 2),
                  fields + SIDE_KEYS, [0x000c_0001])
  {
    Opened(es, APPLICATION, 0x000c_0001, [7, 0x11], (48, 160, 0), fields, []);
    SideKeys();
    Added(es + [Open(APPLICATION, 0x000c_0001)], BACK_GROUP, [7, 0x11], (48, 160, 0), fields, [0x000c_0001], SIDE_KEYS);
  }

  lemma SideKey(i: nat)
    requires i < 2
    ensures SlotFields(BACK_GROUP, false, 0, 2, i) == [Key(i, 2, 3 + i)]
  {
  }

  lemma SideKeys()
    ensures GroupFields(BACK_GROUP, false, 0, 2, 2) == SIDE_KEYS
  {
    TwoSlots(BACK_GROUP, false, 0, 2);
    SideKey(0);
    SideKey(1);
  }

  lemma ConsumerAfter(es: seq<Element>, fields: seq<Field>)
    requires SoFar(es, [7, 0x11], (48, 160, 0), fields, []) && |fields| <= 46
    ensures SoFar(es + [Open(APPLICATION, 0x000c_0001)] + [Input(BACK_GROUP)] + [Input(END_FILLER)] + [Close],
                  [7, 0x11, 0x2a], (48, 160, 8), fields + SIDE_KEYS, [])
  {
    var side := es + [Open(APPLICATION, 0x000c_0001)] + [Input(BACK_GROUP)];
    SideAfter(es, fields);
    OneSlot(END_FILLER, false, 2, 2);
    Added(side, END_FILLER, [7, 0x11, 0x2a], (48, 160, 2), fields + SIDE_KEYS, [0x000c_0001], []);
    Closed(side + [Input(END_FILLER)], [7, 0x11, 0x2a], (48, 160, 8), fields + SIDE_KEYS, [0x000c_0001]);
  }

  lemma ConsumerPart()
    ensures SoFar(FIXTURE, [7, 0x11, 0x2a], (48, 160, 8), KEYS + MOTION + WHEELS + SIDE_KEYS, [])
  {
    MousePart();
    VendorAfter(MOUSE_PART, KEYS + MOTION + WHEELS);
    ConsumerAfter(VENDOR_PART, KEYS + MOTION + WHEELS);
  }

  const FIELDS := KEYS + MOTION + WHEELS + SIDE_KEYS

  // Every element is short: two usages listed at most.
  predicate Short(e: Element) {
    e.Input? || e.Elsewhere? ==> e.group.naming.listed <= 2
  }

  ghost predicate Fine(es: seq<Element>) {
    AllWritable(es) && forall k :: 0 <= k < |es| ==> Short(es[k])
  }

  lemma FineJoins(a: seq<Element>, b: seq<Element>)
    requires Fine(a) && Fine(b)
    ensures Fine(a + b)
  {
  }

  lemma GroupsFine()
    ensures Writable(BUTTON_GROUP) && Writable(FILLER) && Writable(AXES_GROUP) && Writable(WHEEL_GROUP)
    ensures Writable(PAN_GROUP) && Writable(BACK_GROUP) && Writable(END_FILLER)
    ensures Writable(Group(7, 0, 8, 2, ONE_LISTED, [Nothing(0x0001_0048)]))
  {
  }

  lemma VendorFine()
    ensures Writable(VENDOR_GROUP)
  {
  }

  lemma MousePartFine()
    ensures Fine(MOUSE_PART) && |MOUSE_PART| == 10
  {
    GroupsFine();
    FineJoins([Open(APPLICATION, MOUSE)] + [Open(0, 0x0001_0001)] + [Input(BUTTON_GROUP)] + [Input(FILLER)] + [Input(AXES_GROUP)],
              [Elsewhere(true, Group(7, 0, 8, 2, ONE_LISTED, [Nothing(0x0001_0048)]))] + [Input(WHEEL_GROUP)] + [Input(PAN_GROUP)]
              + [Close] + [Close]);
    assert MOUSE_PART
        == ([Open(APPLICATION, MOUSE)] + [Open(0, 0x0001_0001)] + [Input(BUTTON_GROUP)] + [Input(FILLER)] + [Input(AXES_GROUP)])
           + ([Elsewhere(true, Group(7, 0, 8, 2, ONE_LISTED, [Nothing(0x0001_0048)]))] + [Input(WHEEL_GROUP)] + [Input(PAN_GROUP)]
              + [Close] + [Close]);
  }

  lemma AllShort()
    ensures AllWritable(FIXTURE) && (forall k :: 0 <= k < |FIXTURE| ==> Short(FIXTURE[k])) && |FIXTURE| == 17
  {
    var vendor := [Open(APPLICATION, 0xff00_0001)] + [Input(VENDOR_GROUP)] + [Close];
    var consumer := [Open(APPLICATION, 0x000c_0001)] + [Input(BACK_GROUP)] + [Input(END_FILLER)] + [Close];
    MousePartFine();
    VendorFine();
    GroupsFine();
    FineJoins(MOUSE_PART, vendor);
    FineJoins(MOUSE_PART + vendor, consumer);
    assert FIXTURE == (MOUSE_PART + vendor) + consumer;
  }

  lemma {:induction false} UsageItemsLength(ts: seq<Target>, short: bool)
    ensures |UsageItems(ts, short)| <= 6 * |ts|
  {
    if ts != [] {
      UsageItemsLength(ts[..|ts| - 1], short);
    }
  }

  lemma ElementLength(e: Element)
    requires CanWrite(e) && Short(e)
    ensures 0 < |DescribeElement(e)| <= 34
  {
    if e.Input? || e.Elsewhere? {
      var n := e.group.naming;
      UsageItemsLength(e.group.targets[..n.listed], n.short);
      assert |Head(e.group)| == 8 && |RangeItems(n)| <= 12;
    }
  }

  lemma {:induction false} DescribeLength(es: seq<Element>)
    requires AllWritable(es) && forall k :: 0 <= k < |es| ==> Short(es[k])
    ensures |es| <= |Describe(es)| <= 34 * |es|
  {
    if es != [] {
      DescribeLength(es[..|es| - 1]);
      ElementLength(es[|es| - 1]);
    }
  }

  lemma FixturePoints()
    ensures Points(FIXTURE)
  {
    ConsumerPart();
    assert FIELDS[5].usage == MouseX && FIELDS[6].usage == MouseY;
  }

  /** The fixture's mouse is accepted, with each field at its place: X at bit 8, behind five buttons and three constant bits. */
  lemma FixtureParses()
    ensures AllWritable(FIXTURE) && 0 < |Describe(FIXTURE)| <= MAX_MAP_BYTES
    ensures var r := Parse(Describe(FIXTURE));
            && r.status == Ok && r.layout.fields == FIELDS && HidSummary.Tells(r.layout) && |r.layout.reports| == 3
            && r.layout.reports[0].id == 7 && r.layout.reports[0].bits == 48
            && r.layout.reports[1].id == 0x11 && r.layout.reports[1].bits == 160
            && r.layout.reports[2].id == 0x2a && r.layout.reports[2].bits == 8
  {
    AllShort();
    DescribeLength(FIXTURE);
    ConsumerPart();
    FixturePoints();
    DescribeRoundTrip(FIXTURE);
  }
}
