/** The summary flags of a layout say exactly what its fields hold. */
module HidSummary {
  import opened Bits
  import opened Masks
  import opened HidMap
  import opened HidParser

  ghost predicate HasUsage(fields: seq<Field>, u: Usage) {
    exists k :: 0 <= k < |fields| && fields[k].usage == u
  }

  ghost predicate HasButton(fields: seq<Field>, b: Button) {
    exists k :: 0 <= k < |fields| && fields[k].usage == MouseButton && fields[k].button == b
  }

  ghost predicate HasField(fields: seq<Field>, r: nat) {
    exists k :: 0 <= k < |fields| && fields[k].report == r
  }

  ghost predicate HasReportButton(fields: seq<Field>, r: nat, b: Button) {
    exists k :: 0 <= k < |fields| && fields[k].report == r && fields[k].usage == MouseButton && fields[k].button == b
  }

  ghost predicate AxesTell(m: Layout) {
    && (m.x <==> HasUsage(m.fields, MouseX)) && (m.y <==> HasUsage(m.fields, MouseY))
    && (m.wheel <==> HasUsage(m.fields, MouseWheel)) && (m.pan <==> HasUsage(m.fields, MousePan))
  }

  ghost predicate ButtonsTell(m: Layout) {
    m.buttons & ALL_BUTTONS == m.buttons && forall b: Button :: Has(m.buttons, b) <==> HasButton(m.fields, b)
  }

  ghost predicate ReportTells(m: Layout, r: nat)
    requires r < |m.reports|
  {
    && (m.reports[r].useful <==> HasField(m.fields, r))
    && m.reports[r].buttons & ALL_BUTTONS == m.reports[r].buttons
    && forall b: Button :: Has(m.reports[r].buttons, b) <==> HasReportButton(m.fields, r, b)
  }

  ghost predicate Tells(m: Layout) {
    && AxesTell(m) && ButtonsTell(m)
    && (forall k :: 0 <= k < |m.fields| ==> m.fields[k].report < |m.reports|)
    && forall r :: 0 <= r < |m.reports| ==> ReportTells(m, r)
  }

  lemma OneMoreField(fields: seq<Field>, f: Field, u: Usage, r: nat, b: Button)
    ensures HasUsage(fields + [f], u) <==> HasUsage(fields, u) || f.usage == u
    ensures HasField(fields + [f], r) <==> HasField(fields, r) || f.report == r
    ensures HasButton(fields + [f], b) <==> HasButton(fields, b) || (f.usage == MouseButton && f.button == b)
    ensures HasReportButton(fields + [f], r, b) <==>
            HasReportButton(fields, r, b) || (f.report == r && f.usage == MouseButton && f.button == b)
  {
    var more := fields + [f];
    assert more[|fields|] == f;
    assert forall k :: 0 <= k < |fields| ==> more[k] == fields[k];
  }

  lemma AddFieldTells(m: Layout, f: Field)
    requires Tells(m) && f.report < |m.reports| && AddField(m, f).status == Ok
    ensures Tells(AddField(m, f).layout)
  {
    var n := AddField(m, f).layout;
    AddFieldAxes(m, f);
    FiveBitsStay(m.buttons, f);
    forall b: Button
      ensures Has(n.buttons, b) <==> HasButton(n.fields, b)
    {
      AddFieldButton(m, f, b);
    }
    forall r | 0 <= r < |n.reports|
      ensures ReportTells(n, r)
    {
      AddFieldReport(m, f, r);
    }
    assert n.fields == m.fields + [f];
  }

  lemma AddFieldAxes(m: Layout, f: Field)
    requires AxesTell(m) && f.report < |m.reports| && AddField(m, f).status == Ok
    ensures AxesTell(AddField(m, f).layout)
  {
    OneMoreField(m.fields, f, MouseX, 0, 0);
    OneMoreField(m.fields, f, MouseY, 0, 0);
    OneMoreField(m.fields, f, MouseWheel, 0, 0);
    OneMoreField(m.fields, f, MousePan, 0, 0);
  }

  predicate AxisFlag(m: Layout, u: Usage) {
    match u
    case MouseX => m.x
    case MouseY => m.y
    case MouseWheel => m.wheel
    case MousePan => m.pan
    case MouseButton => false
  }

  /**
   Adding a field keeps the axis flags true to the fields, accepted or not, except exactly when the table
   is full and the field is the first of its axis: then the flag is raised for a field that is not there.
   */
  lemma AddFieldKeepsAxesExactly(m: Layout, f: Field)
    requires AxesTell(m) && f.report < |m.reports|
    ensures AxesTell(AddField(m, f).layout)
            <==> !(|m.fields| >= MAX_FIELDS && f.usage != MouseButton && !AxisFlag(m, f.usage))
  {
    if |m.fields| < MAX_FIELDS {
      AddFieldAxes(m, f);
    }
  }

  // One flag is up for a field that the full table has refused; the others are true to the fields.
  ghost predicate OneFlagAhead(m: Layout, u: Usage) {
    && |m.fields| >= MAX_FIELDS && AxisFlag(m, u) && !HasUsage(m.fields, u)
    && forall v: Usage :: v != MouseButton && v != u ==> (AxisFlag(m, v) <==> HasUsage(m.fields, v))
  }

  ghost predicate AxesLeft(r: Added) {
    AxesTell(r.layout) || (r.status == E2big && exists u :: OneFlagAhead(r.layout, u))
  }

  lemma AddFieldLeaves(m: Layout, f: Field)
    requires AxesTell(m) && f.report < |m.reports|
    ensures AxesLeft(AddField(m, f)) && (AddField(m, f).status == Ok ==> AxesTell(AddField(m, f).layout))
  {
    AddFieldKeepsAxesExactly(m, f);
    if |m.fields| >= MAX_FIELDS && f.usage != MouseButton && !AxisFlag(m, f.usage) {
      assert OneFlagAhead(AddField(m, f).layout, f.usage);
    }
  }

  lemma {:induction false} AddAllLeaves(m: Layout, fields: seq<Field>)
    requires AxesTell(m) && forall f :: f in fields ==> f.report < |m.reports|
    ensures AxesLeft(AddAll(m, fields)) && (AddAll(m, fields).status == Ok ==> AxesTell(AddAll(m, fields).layout))
    decreases |fields|
  {
    if fields != [] {
      AddFieldLeaves(m, fields[0]);
      if AddField(m, fields[0]).status == Ok {
        AddAllLeaves(AddField(m, fields[0]).layout, fields[1..]);
      }
    }
  }

  lemma AddInputLeaves(m: Layout, g: Global, l: Local, flags: u32, inMouse: bool)
    requires AxesTell(m)
    ensures var r := AddInput(m, g, l, flags, inMouse); AxesLeft(r) && (r.status == Ok ==> AxesTell(r.layout))
  {
    if g.count != 0 && g.size != 0 && g.size <= 32 && g.count <= MAX_REPORT_BITS / g.size {
      var index, m1 := FindReport(m.reports, g.id), WithReport(m, g.id);
      var m2, start := Lengthened(m1, index, g.size * g.count), m1.reports[index].bits;
      assert AxesTell(m1) && AxesTell(m2);
      AddAllLeaves(m2, InputFields(g, l, flags, inMouse, index, start, 0));
    }
  }

  lemma ItemLeaves(p: Parser, item: Framed)
    requires AxesTell(p.layout) && (item.Long? || (item.Short? && |item.data| in {0, 1, 2, 4}))
    ensures match Item(p, item)
            case Going(q) => AxesTell(q.layout)
            case Stopped(status, layout) => AxesLeft(Added(status, layout))
  {
    if item.Short? && item.kind == 0 && item.tag == 8 {
      AddInputLeaves(p.layout, p.global, p.local, Value(item.data), InMouse(p));
    }
  }

  /**
   Whatever the descriptor, accepted or not, each axis flag says what the fields hold, or the parse has
   ended with E2BIG at a full table, and exactly one flag is up for the field that it refused.
   */
  lemma {:induction false} ParseKeepsAxes(rest: seq<byte>, p: Parser)
    requires AxesTell(p.layout)
    ensures AxesLeft(ParseFrom(rest, p))
    decreases |rest|
  {
    if rest != [] && !Frame(rest).Truncated? {
      var item := Frame(rest);
      ItemLeaves(p, item);
      var next := Item(p, item);
      if next.Going? {
        ParseKeepsAxes(rest[item.used..], next.parser);
      }
    }
  }

  lemma FiveBitsStay(m: bv8, f: Field)
    requires m & ALL_BUTTONS == m
    ensures (m | FieldMask(f)) & ALL_BUTTONS == m | FieldMask(f)
  {
  }

  lemma HasFieldMask(m: bv8, f: Field, b: Button)
    ensures Has(m | FieldMask(f), b) <==> Has(m, b) || (f.usage == MouseButton && f.button == b)
  {
  }

  lemma AddFieldButton(m: Layout, f: Field, b: Button)
    requires ButtonsTell(m) && f.report < |m.reports| && AddField(m, f).status == Ok
    ensures var n := AddField(m, f).layout; Has(n.buttons, b) <==> HasButton(n.fields, b)
  {
    HasFieldMask(m.buttons, f, b);
    OneMoreField(m.fields, f, MouseX, 0, b);
  }

  lemma AddFieldReport(m: Layout, f: Field, r: nat)
    requires Tells(m) && f.report < |m.reports| && AddField(m, f).status == Ok && r < |m.reports|
    ensures ReportTells(AddField(m, f).layout, r)
  {
    var n := AddField(m, f).layout;
    assert ReportTells(m, r);
    OneMoreField(m.fields, f, MouseX, r, 0);
    FiveBitsStay(m.reports[r].buttons, f);
    forall b: Button
      ensures Has(n.reports[r].buttons, b) <==> HasReportButton(n.fields, r, b)
    {
      HasFieldMask(m.reports[r].buttons, f, b);
      OneMoreField(m.fields, f, MouseX, r, b);
    }
  }

  lemma {:induction false} AddAllTells(m: Layout, fields: seq<Field>)
    requires Tells(m) && forall f :: f in fields ==> f.report < |m.reports|
    ensures AddAll(m, fields).status == Ok ==> Tells(AddAll(m, fields).layout)
    decreases |fields|
  {
    if fields != [] && AddField(m, fields[0]).status == Ok {
      AddFieldTells(m, fields[0]);
      AddAllTells(AddField(m, fields[0]).layout, fields[1..]);
    }
  }

  lemma ReshapeTells(m: Layout, reports: seq<Report>)
    requires Tells(m) && |m.reports| <= |reports|
    requires forall r :: 0 <= r < |m.reports| ==>
               reports[r].useful == m.reports[r].useful && reports[r].buttons == m.reports[r].buttons
    requires forall r :: |m.reports| <= r < |reports| ==> !reports[r].useful && reports[r].buttons == 0
    ensures Tells(m.(reports := reports))
  {
    var n := m.(reports := reports);
    forall r | 0 <= r < |reports|
      ensures ReportTells(n, r)
    {
      if r < |m.reports| {
        assert ReportTells(m, r);
      } else {
        forall b: Button
          ensures !Has(reports[r].buttons, b)
        {
          HasAll(b);
        }
      }
    }
  }

  lemma WithReportTells(m: Layout, id: byte)
    requires Tells(m)
    ensures Tells(WithReport(m, id))
  {
    if FindReport(m.reports, id) == |m.reports| {
      ReshapeTells(m, m.reports + [Report(id, 0, 0, false)]);
    }
  }

  lemma LengthenedTells(m: Layout, index: nat, bits: nat)
    requires Tells(m) && index < |m.reports|
    ensures Tells(Lengthened(m, index, bits))
  {
    ReshapeTells(m, Lengthened(m, index, bits).reports);
  }

  lemma AddInputTells(m: Layout, g: Global, l: Local, flags: u32, inMouse: bool)
    requires Tells(m) && AddInput(m, g, l, flags, inMouse).status == Ok
    ensures Tells(AddInput(m, g, l, flags, inMouse).layout)
  {
    var m1, index := WithReport(m, g.id), FindReport(m.reports, g.id);
    WithReportTells(m, g.id);
    LengthenedTells(m1, index, g.size * g.count);
    if BitOf(flags, 0) == 0 && BitOf(flags, 1) == 1 {
      AddAllTells(Lengthened(m1, index, g.size * g.count),
                  InputFields(g, l, flags, inMouse, index, m1.reports[index].bits, 0));
    }
  }

  lemma ItemTells(p: Parser, item: Framed)
    requires Tells(p.layout) && (item.Long? || (item.Short? && |item.data| in {0, 1, 2, 4})) && Item(p, item).Going?
    ensures Tells(Item(p, item).parser.layout)
  {
    if item.Short? && item.kind == 0 && item.tag == 8 {
      AddInputTells(p.layout, p.global, p.local, Value(item.data), InMouse(p));
    }
  }

  /** An accepted layout has both pointer axes, and each flag and mask says exactly what the fields hold. */
  lemma {:induction false} AcceptedLayoutTells(rest: seq<byte>, p: Parser)
    requires Tells(p.layout)
    ensures var r := ParseFrom(rest, p); r.status == Ok ==> Tells(r.layout) && r.layout.x && r.layout.y
    decreases |rest|
  {
    if rest != [] && !Frame(rest).Truncated? {
      var item := Frame(rest);
      var next := Item(p, item);
      if next.Going? {
        ItemTells(p, item);
        AcceptedLayoutTells(rest[item.used..], next.parser);
      }
    }
  }

  lemma StartTells()
    ensures Tells(START.layout)
  {
  }
}
