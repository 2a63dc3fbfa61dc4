/** Whole descriptors: what is described is what is parsed, or it is refused. */
module HidDescriptors {
  import opened Bits
  import opened HidMap
  import opened HidParser
  import opened HidInsertion
  import opened HidDescribe
  import opened HidReadBack
  import opened HidAccept
  import HidSummary

  // Between two elements of the descriptor.
  ghost predicate Between(p: Parser, es: seq<Element>) {
    && p.stack == [] && p.local == NO_LOCAL && Holds(p.layout, es)
    && |p.collections| == |Enclosing(es)|
    && forall k :: 0 <= k < |p.collections| ==> (p.collections[k] <==> Enclosing(es)[k] == MOUSE)
  }

  // The last element is taken if it is within the limits, and refused otherwise.
  ghost predicate Takes(next: Progress, es: seq<Element>)
    requires es != []
  {
    if Admitted(es) then next.Going? && Between(next.parser, es) else next.Stopped? && next.status in {Einval, E2big}
  }

  // ---- Main items

  lemma MainByteFeeds(prefix: byte, tag: nat, b: byte, p: Parser, next: Progress)
    requires prefix == 0x10 * tag + 1 && tag in {8, 9, 10, 11} && Item(p, Short(0, tag, [b], 2)) == next
    ensures ItemBoundary([prefix, b]) && Feed([prefix, b], p) == next
  {
    ByteFeeds(prefix, 0, tag, b, p, next);
  }

  lemma MouseIs(p: Parser, es: seq<Element>)
    requires Between(p, es)
    ensures InMouse(p) <==> InsideMouse(es)
  {
  }

  // ---- Input

  lemma InputItem(q: Parser, flags: byte)
    ensures var added := AddInput(q.layout, q.global, q.local, flags, InMouse(q));
            Item(q, Short(0, 8, [flags], 2))
            == if added.status != Ok then Stopped(added.status, added.layout)
               else Going(q.(layout := added.layout, local := NO_LOCAL))
  {
    OneByte(flags);
  }

  lemma InputLeads(p: Parser, q: Parser, es: seq<Element>, g: Group)
    requires EndsWith(es, g) && WellNamed(g) && Legal(es[..|es| - 1]) && Between(p, es[..|es| - 1]) && Ready(p, q, g)
    ensures Takes(Item(q, Short(0, 8, [g.flags], 2)), es)
  {
    MouseIs(p, es[..|es| - 1]);
    InputItem(q, g.flags);
    InputAdds(p.layout, es, g, q.global.page);
  }

  lemma InputFeeds(p: Parser, es: seq<Element>, g: Group)
    requires EndsWith(es, g) && Legal(es[..|es| - 1]) && Between(p, es[..|es| - 1])
    ensures var bytes := DescribeElement(Input(g)); ItemBoundary(bytes) && Takes(Feed(bytes, p), es)
  {
    var ready := PreludeFeeds(g, p);
    MainByteFeeds(0x81, 8, g.flags, START, Item(START, Short(0, 8, [g.flags], 2)));
    FeedSplits(Prelude(g), [0x81, g.flags], p);
    if WellNamed(g) {
      var q := ready.parser;
      InputLeads(p, q, es, g);
      MainByteFeeds(0x81, 8, g.flags, q, Item(q, Short(0, 8, [g.flags], 2)));
    }
  }

  // ---- Output and Feature

  // An element without Input leaves the layout as it was.
  lemma SameLayout(m: Layout, es: seq<Element>)
    requires es != [] && !es[|es| - 1].Input? && Holds(m, es[..|es| - 1])
    ensures Holds(m, es)
  {
    assert Ids(es) == Ids(es[..|es| - 1]) && FieldsOf(es) == FieldsOf(es[..|es| - 1]);
    forall id: byte
      ensures BitsOf(es, id) == BitsOf(es[..|es| - 1], id)
    {
    }
  }

  lemma IgnoredItem(q: Parser, tag: nat, flags: byte)
    requires tag == 9 || tag == 11
    ensures Item(q, Short(0, tag, [flags], 2)) == Going(q.(local := NO_LOCAL))
  {
  }

  lemma ElsewhereFeeds(p: Parser, es: seq<Element>, feature: bool, g: Group)
    requires es != [] && es[|es| - 1] == Elsewhere(feature, g) && Writable(g) && Between(p, es[..|es| - 1])
    ensures var bytes := DescribeElement(Elsewhere(feature, g)); ItemBoundary(bytes) && Takes(Feed(bytes, p), es)
  {
    var ready := PreludeFeeds(g, p);
    var prefix, tag: nat := if feature then 0xb1 else 0x91, if feature then 11 else 9;
    IgnoredItem(START, tag, g.flags);
    MainByteFeeds(prefix, tag, g.flags, START, Going(START));
    FeedSplits(Prelude(g), [prefix, g.flags], p);
    if WellNamed(g) {
      var q := ready.parser;
      IgnoredItem(q, tag, g.flags);
      MainByteFeeds(prefix, tag, g.flags, q, Going(q.(local := NO_LOCAL)));
      SameLayout(p.layout, es);
    }
  }

  // ---- Collections

  lemma OpenItem(q: Parser, kind: byte, usage: u32)
    requires q.local == NO_LOCAL.(usages := [usage])
    ensures Item(q, Short(0, 10, [kind], 2))
            == if |q.collections| == STACK_DEPTH then Stopped(E2big, q.layout)
               else Going(q.(collections := q.collections + [if kind == 1 then usage == MOUSE else InMouse(q)],
                             local := NO_LOCAL))
  {
    OneByte(kind);
    assert LocalUsage(q.local, 0) == usage;
  }

  lemma OpenLeads(p: Parser, q: Parser, es: seq<Element>, kind: byte, usage: u32)
    requires es != [] && es[|es| - 1] == Open(kind, usage) && Legal(es[..|es| - 1]) && Between(p, es[..|es| - 1])
    requires q == p.(global := q.global, local := NO_LOCAL.(usages := [usage]))
    ensures Takes(Item(q, Short(0, 10, [kind], 2)), es)
  {
    LegalFits(es[..|es| - 1]);
    OpenItem(q, kind, usage);
    MouseIs(p, es[..|es| - 1]);
    SameLayout(p.layout, es);
  }

  lemma OpenFeeds(p: Parser, es: seq<Element>, kind: byte, usage: u32)
    requires es != [] && es[|es| - 1] == Open(kind, usage) && Legal(es[..|es| - 1]) && Between(p, es[..|es| - 1])
    ensures var bytes := DescribeElement(Open(kind, usage)); ItemBoundary(bytes) && Takes(Feed(bytes, p), es)
  {
    var q := AfterUsage(USAGE, usage, false, p);
    UsageFeeds(USAGE, usage, false, p);
    assert q.local == NO_LOCAL.(usages := [usage]);
    OpenLeads(p, q, es, kind, usage);
    MainByteFeeds(0xa1, 10, kind, q, Item(q, Short(0, 10, [kind], 2)));
    ThenFeed(UsageItem(USAGE, usage, false), [0xa1, kind], p, q);
  }

  lemma CloseLeads(p: Parser, es: seq<Element>)
    requires es != [] && es[|es| - 1] == Close && Between(p, es[..|es| - 1])
    ensures Takes(Item(p, Short(0, 12, [], 1)), es)
  {
    SameLayout(p.layout, es);
  }

  lemma CloseFeeds(p: Parser, es: seq<Element>)
    requires es != [] && es[|es| - 1] == Close && Between(p, es[..|es| - 1])
    ensures ItemBoundary([0xc0]) && Takes(Feed([0xc0], p), es)
  {
    CloseLeads(p, es);
    ItemFeeds(0xc0, 0, 12, [], p, Item(p, Short(0, 12, [], 1)));
    assert [0xc0] + [] == [0xc0];
  }

  // ---- A whole descriptor

  lemma ElementFeeds(p: Parser, es: seq<Element>)
    requires es != [] && CanWrite(es[|es| - 1]) && Legal(es[..|es| - 1]) && Between(p, es[..|es| - 1])
    ensures var bytes := DescribeElement(es[|es| - 1]); ItemBoundary(bytes) && Takes(Feed(bytes, p), es)
  {
    match es[|es| - 1] {
      case Open(kind, usage) => OpenFeeds(p, es, kind, usage);
      case Close => CloseFeeds(p, es);
      case Input(g) => InputFeeds(p, es, g);
      case Elsewhere(feature, g) => ElsewhereFeeds(p, es, feature, g);
    }
  }

  ghost predicate Reads(next: Progress, es: seq<Element>) {
    if Legal(es) then next.Going? && Between(next.parser, es) else next.Stopped? && next.status in {Einval, E2big}
  }

  lemma {:induction false} DescribeFeeds(es: seq<Element>)
    requires AllWritable(es)
    ensures ItemBoundary(Describe(es)) && Reads(Feed(Describe(es), START), es)
  {
    if es != [] {
      var init, e := es[..|es| - 1], es[|es| - 1];
      DescribeFeeds(init);
      OneMoreFeeds(es);
    }
  }

  lemma OneMoreFeeds(es: seq<Element>)
    requires AllWritable(es) && es != []
    requires var bytes := Describe(es[..|es| - 1]); ItemBoundary(bytes) && Reads(Feed(bytes, START), es[..|es| - 1])
    ensures ItemBoundary(Describe(es)) && Reads(Feed(Describe(es), START), es)
  {
    var init, e := es[..|es| - 1], es[|es| - 1];
    ElementBoundary(e);
    FeedSplits(Describe(init), DescribeElement(e), START);
    if Legal(init) {
      ElementFeeds(Feed(Describe(init), START).parser, es);
    }
  }

  // Whatever stands before it, an element is a whole number of items.
  lemma ElementBoundary(e: Element)
    requires CanWrite(e)
    ensures ItemBoundary(DescribeElement(e))
  {
    EmptyBetween(e);
    ElementFeeds(START, [e]);
  }

  lemma EmptyBetween(e: Element)
    ensures [e][..|[e]| - 1] == [] && Legal([]) && Between(START, [])
  {
  }

  lemma {:induction false} FeedTells(bytes: seq<byte>, p: Parser)
    requires ItemBoundary(bytes) && HidSummary.Tells(p.layout) && Feed(bytes, p).Going?
    ensures HidSummary.Tells(Feed(bytes, p).parser.layout)
    decreases |bytes|
  {
    if bytes != [] {
      HidSummary.ItemTells(p, Frame(bytes));
      FeedTells(bytes[Frame(bytes).used..], Item(p, Frame(bytes)).parser);
    }
  }

  lemma ParseIsFeed(bytes: seq<byte>)
    requires ItemBoundary(bytes)
    ensures Parse(bytes) == match Feed(bytes, START)
                            case Stopped(status, layout) => HidParser.Added(status, layout)
                            case Going(p) => Finish(p)
  {
    ParseSplits(bytes, [], START);
    assert bytes + [] == bytes;
  }

  // Both pointer axes are among the described fields.
  ghost predicate Points(es: seq<Element>) {
    HidSummary.HasUsage(FieldsOf(es), MouseX) && HidSummary.HasUsage(FieldsOf(es), MouseY)
  }

  /**
   Whatever is described, the parser makes of the descriptor exactly those reports and those fields, each
   behind all earlier Input items of its report, constant and array items counted in full; and it accepts the
   descriptor if and only if every element is within its limits, every collection is closed, and both pointer
   axes are among the fields. Otherwise -ENOTSUP says that only an axis is missing.
   */
  lemma DescribeRoundTrip(es: seq<Element>)
    requires AllWritable(es)
    ensures var r := Parse(Describe(es));
            && (r.status == Ok <==> Legal(es) && Enclosing(es) == [] && Points(es))
            && (r.status == Enotsup <==> Legal(es) && Enclosing(es) == [] && !Points(es))
            && (r.status == Ok || r.status == Enotsup ==> Holds(r.layout, es) && HidSummary.Tells(r.layout))
  {
    DescribeFeeds(es);
    ParseIsFeed(Describe(es));
    if Legal(es) {
      HidSummary.StartTells();
      FeedTells(Describe(es), START);
    }
  }

  // ---- Descriptions one element longer

  lemma OneMoreElement(es: seq<Element>, e: Element)
    requires !e.Input?
    ensures Ids(es + [e]) == Ids(es) && FieldsOf(es + [e]) == FieldsOf(es)
    ensures forall id: byte :: BitsOf(es + [e], id) == BitsOf(es, id)
    ensures Legal(es + [e]) <==> Legal(es) && Admitted(es + [e])
  {
    assert (es + [e])[..|es|] == es;
  }

  lemma OneMoreInput(es: seq<Element>, g: Group)
    ensures var more := es + [Input(g)];
            && Ids(more) == (if g.id in Ids(es) then Ids(es) else Ids(es) + [g.id])
            && BitsOf(more, g.id) == BitsOf(es, g.id) + g.size * |g.targets|
            && (forall id: byte :: id != g.id ==> BitsOf(more, id) == BitsOf(es, id))
            && FieldsOf(more)
               == FieldsOf(es) + GroupFields(g, InsideMouse(es), BitsOf(es, g.id), IndexOf(Ids(more), g.id), |g.targets|)
            && Enclosing(more) == Enclosing(es)
            && (Legal(more) <==> Legal(es) && Admitted(more))
  {
    assert (es + [Input(g)])[..|es|] == es;
  }

  lemma OpenMouse()
    ensures var es := [Open(APPLICATION, MOUSE)];
            && Ids(es) == [] && FieldsOf(es) == [] && (forall id: byte :: BitsOf(es, id) == 0)
            && Enclosing(es) == [MOUSE] && Legal(es) && AllWritable(es)
  {
    assert [] + [Open(APPLICATION, MOUSE)] == [Open(APPLICATION, MOUSE)];
    OneMoreElement([], Open(APPLICATION, MOUSE));
  }
}
