/** Describing one field more than the table holds: the one case in which a flag outruns the fields. */
module HidOverflow {
  import opened Bits
  import opened HidMap
  import opened HidParser
  import opened HidInsertion
  import opened HidDescribe
  import opened HidReadBack
  import opened HidAccept
  import opened HidDescriptors
  import HidSummary

  // The table of fields is full, and an Input item within all other limits begins with the first field of an axis.
  ghost predicate Overflows(es: seq<Element>, g: Group) {
    var more := es + [Input(g)];
    && AllWritable(more) && Legal(es) && |FieldsOf(es)| == MAX_FIELDS
    && WellNamed(g) && Countable(more, g) && NewFields(more) != [] && FirstOfAxis(es, NewFields(more)[0].usage)
  }

  ghost predicate FirstOfAxis(es: seq<Element>, u: Usage) {
    u != MouseButton && !HidSummary.HasUsage(FieldsOf(es), u)
  }

  function Axis(es: seq<Element>, g: Group): Usage
    requires Overflows(es, g)
  {
    NewFields(es + [Input(g)])[0].usage
  }

  // The axis flag is up, but no field is on the axis.
  ghost predicate RaisedAlone(m: Layout, u: Usage) {
    HidSummary.AxisFlag(m, u) && !HidSummary.HasUsage(m.fields, u)
  }

  // The field is refused, but its axis is flagged.
  lemma FullTableRefuses(m: Layout, fields: seq<Field>)
    requires |m.fields| == MAX_FIELDS && fields != [] && forall f :: f in fields ==> f.report < |m.reports|
    requires fields[0].usage != MouseButton && !HidSummary.HasUsage(m.fields, fields[0].usage)
    ensures var r := AddAll(m, fields); r.status == E2big && RaisedAlone(r.layout, fields[0].usage)
  {
  }

  lemma InputOverflows(m: Layout, es: seq<Element>, g: Group, page: u16)
    requires Overflows(es, g) && Holds(m, es)
    ensures var r := AddIt(m, g, page, InsideMouse(es)); r.status == E2big && RaisedAlone(r.layout, Axis(es, g))
  {
    var more := es + [Input(g)];
    assert more[..|more| - 1] == es;
    assert CanWrite(more[|es|]) && EndsWith(more, g);
    AddedAre(m, more, g, page);
    GrownHolds(m, more, g);
    FullTableRefuses(Grown(m, g), NewFields(more));
  }

  // The parse ends here, with the flag alone.
  ghost predicate EndsAlone(next: Progress, u: Usage) {
    next.Stopped? && next.status == E2big && RaisedAlone(next.layout, u)
  }

  lemma ItemStops(p: Parser, q: Parser, es: seq<Element>, g: Group)
    requires Overflows(es, g) && Between(p, es) && Ready(p, q, g)
    ensures EndsAlone(Item(q, Short(0, 8, [g.flags], 2)), Axis(es, g))
  {
    MouseIs(p, es);
    InputItem(q, g.flags);
    InputOverflows(p.layout, es, g, q.global.page);
  }

  lemma ElementStops(p: Parser, es: seq<Element>, g: Group)
    requires Overflows(es, g) && Between(p, es) && Writable(g)
    ensures var bytes := DescribeElement(Input(g)); ItemBoundary(bytes) && EndsAlone(Feed(bytes, p), Axis(es, g))
  {
    var ready := PreludeFeeds(g, p);
    var q := ready.parser;
    ItemStops(p, q, es, g);
    MainByteFeeds(0x81, 8, g.flags, q, Item(q, Short(0, 8, [g.flags], 2)));
    ThenFeed(Prelude(g), [0x81, g.flags], p, q);
  }

  lemma Reached(es: seq<Element>) returns (p: Parser)
    requires AllWritable(es) && Legal(es)
    ensures ItemBoundary(Describe(es)) && Feed(Describe(es), START) == Going(p)
    ensures Between(p, es) && HidSummary.Tells(p.layout)
  {
    DescribeFeeds(es);
    HidSummary.StartTells();
    FeedTells(Describe(es), START);
    p := Feed(Describe(es), START).parser;
  }

  lemma CanWriteBoth(es: seq<Element>, g: Group)
    requires Overflows(es, g)
    ensures AllWritable(es) && Writable(g)
  {
    var more := es + [Input(g)];
    assert CanWrite(more[|es|]);
    assert forall k :: 0 <= k < |es| ==> more[k] == es[k];
  }

  /** Such a descriptor is refused, and leaves the axis flag raised with no field behind it. */
  lemma OverflowRaisesFlag(es: seq<Element>, g: Group, after: seq<byte>)
    requires Overflows(es, g)
    ensures AllWritable(es) && Writable(g)
    ensures var r := Parse(Describe(es) + DescribeElement(Input(g)) + after);
            r.status == E2big && RaisedAlone(r.layout, Axis(es, g)) && !HidSummary.AxesTell(r.layout)
  {
    CanWriteBoth(es, g);
    var p := Reached(es);
    ElementStops(p, es, g);
    FeedSplits(Describe(es), DescribeElement(Input(g)), START);
    ParseSplits(Describe(es) + DescribeElement(Input(g)), after, START);
  }

  // ---- Forty-eight buttons, and then an X axis

  const MANY_BUTTONS := Group(1, 0, 1, 2, ONE_LISTED, seq(48, _ => Numbered(0)))
  const X_GROUP := Group(1, -1, 8, 6, ONE_LISTED, [PointerX])

  lemma {:induction false} OnlyButtons(n: nat)
    requires n <= 48
    ensures var fields := GroupFields(MANY_BUTTONS, true, 0, 0, n);
            |fields| == n && forall k :: 0 <= k < n ==> fields[k].usage == MouseButton
  {
    if n > 0 {
      OnlyButtons(n - 1);
      assert |SlotFields(MANY_BUTTONS, true, 0, 0, n - 1)| == 1;
    }
  }

  lemma ButtonsDescribed()
    ensures var es := [Open(APPLICATION, MOUSE)] + [Input(MANY_BUTTONS)];
            && Legal(es) && Ids(es) == [1] && BitsOf(es, 1) == 48 && InsideMouse(es)
            && FieldsOf(es) == GroupFields(MANY_BUTTONS, true, 0, 0, 48)
  {
    OpenMouse();
    OneMoreInput([Open(APPLICATION, MOUSE)], MANY_BUTTONS);
    assert IndexOf([1], 1) == 0;
    OnlyButtons(48);
  }

  lemma XIsNew(start: nat)
    ensures GroupFields(X_GROUP, true, start, 0, 1) == [Field(start, 8, 0, MouseX, 0, true)]
  {
    assert GroupFields(X_GROUP, true, start, 0, 0) == [];
    assert SlotFields(X_GROUP, true, start, 0, 0) == [Field(start, 8, 0, MouseX, 0, true)];
  }

  lemma XOverflows(es: seq<Element>)
    requires Ids(es) == [1] && BitsOf(es, 1) == 48 && InsideMouse(es)
    ensures var more := es + [Input(X_GROUP)];
            Countable(more, X_GROUP) && NewFields(more) == [Field(48, 8, 0, MouseX, 0, true)]
  {
    var more := es + [Input(X_GROUP)];
    OneMoreInput(es, X_GROUP);
    XIsNew(48);
    assert IndexOf([1], 1) == 0;
    assert more[..|more| - 1] == es;
  }

  lemma BothWritable()
    ensures AllWritable([Open(APPLICATION, MOUSE)] + [Input(MANY_BUTTONS)] + [Input(X_GROUP)])
  {
    assert Writable(MANY_BUTTONS) && Writable(X_GROUP);
  }

  /** There is such a descriptor. */
  lemma OverflowHappens()
    ensures Overflows([Open(APPLICATION, MOUSE)] + [Input(MANY_BUTTONS)], X_GROUP)
  {
    ButtonsDescribed();
    OnlyButtons(48);
    XOverflows([Open(APPLICATION, MOUSE)] + [Input(MANY_BUTTONS)]);
    BothWritable();
  }
}
