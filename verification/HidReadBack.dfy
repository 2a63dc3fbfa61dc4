/** The parser reads back what `HidDescribe` writes, and refuses exactly what is beyond its limits. */
module HidReadBack {
  import opened Bits
  import opened HidMap
  import opened HidParser
  import opened HidInsertion
  import opened HidDescribe

  // ---- Feeding the items

  lemma OneMoreByte(data: seq<byte>, b: byte)
    ensures LittleEndian(data + [b]) == LittleEndian(data) + b * Pow2(8 * |data|)
  {
  }

  lemma OneByte(b: byte)
    ensures LittleEndian([b]) == b
  {
  }

  lemma FourBytesJoin(s1: seq<byte>, b1: byte, b2: byte, b3: byte)
    requires |s1| == 1
    ensures LittleEndian(s1 + [b1] + [b2] + [b3]) == LittleEndian(s1) + b1 * 0x100 + b2 * 0x1_0000 + b3 * 0x100_0000
  {
    OneMoreByte(s1, b1);
    OneMoreByte(s1 + [b1], b2);
    OneMoreByte(s1 + [b1] + [b2], b3);
    Pow2Splits(16, 8);
    Pow2Values();
  }

  lemma DigitsJoin(v: u32)
    ensures v % 0x100 + v / 0x100 % 0x100 * 0x100 + v / 0x1_0000 % 0x100 * 0x1_0000 + v / 0x100_0000 * 0x100_0000 == v
  {
    var q1, q2 := v / 0x100, v / 0x1_0000;
    assert q1 / 0x100 == q2 && q2 / 0x100 == v / 0x100_0000;
    assert v == q1 * 0x100 + v % 0x100 && q1 == q2 * 0x100 + q1 % 0x100;
  }

  lemma FourBytes(v: u32)
    ensures LittleEndian(Bytes4(v)) == v
  {
    var b := Bytes4(v);
    OneByte(b[0]);
    FourBytesJoin(b[..1], b[1], b[2], b[3]);
    assert b[..1] == [b[0]] && b[..1] + [b[1]] + [b[2]] + [b[3]] == b;
    DigitsJoin(v);
  }

  lemma TwoBytes(v: u16)
    ensures LittleEndian(Bytes2(v)) == v
  {
    var b := Bytes2(v);
    OneByte(b[0]);
    OneMoreByte(b[..1], b[1]);
    Pow2Values();
    assert b[..1] == [b[0]] && b[..1] + [b[1]] == b;
  }

  lemma FrameIs(prefix: byte, data: seq<byte>)
    requires prefix != 0xfe && |data| == ItemSize(prefix)
    ensures Frame([prefix] + data) == Short(prefix / 4 % 4, prefix / 16, data, 1 + |data|)
    ensures ([prefix] + data)[1 + |data|..] == []
  {
    assert ([prefix] + data)[1..1 + |data|] == data;
  }

  // What the item does is what feeding its bytes does.
  lemma ItemFeeds(prefix: byte, kind: nat, tag: nat, data: seq<byte>, p: Parser, next: Progress)
    requires prefix != 0xfe && |data| == ItemSize(prefix) && kind == prefix / 4 % 4 && tag == prefix / 16
    requires Item(p, Short(kind, tag, data, 1 + |data|)) == next
    ensures ItemBoundary([prefix] + data) && Feed([prefix] + data, p) == next
  {
    FrameIs(prefix, data);
  }

  // An item with one byte of data.
  lemma ByteFeeds(prefix: byte, kind: nat, tag: nat, b: byte, p: Parser, next: Progress)
    requires prefix % 4 == 1 && kind == prefix / 4 % 4 && tag == prefix / 16 && Item(p, Short(kind, tag, [b], 2)) == next
    ensures ItemBoundary([prefix, b]) && Feed([prefix, b], p) == next
  {
    ItemFeeds(prefix, kind, tag, [b], p, next);
    assert [prefix] + [b] == [prefix, b];
  }

  lemma ThenFeed(a: seq<byte>, b: seq<byte>, p: Parser, q: Parser)
    requires ItemBoundary(a) && ItemBoundary(b) && Feed(a, p) == Going(q)
    ensures ItemBoundary(a + b) && Feed(a + b, p) == Feed(b, q)
  {
    FeedSplits(a, b, p);
  }


  lemma ShortFeeds(prefix: byte, kind: nat, tag: nat, v: u16, p: Parser, next: Progress)
    requires prefix != 0xfe && prefix % 4 == 2 && kind == prefix / 4 % 4 && tag == prefix / 16
    requires Item(p, Short(kind, tag, Bytes2(v), 3)) == next
    ensures ItemBoundary([prefix] + Bytes2(v)) && Feed([prefix] + Bytes2(v), p) == next
  {
    ItemFeeds(prefix, kind, tag, Bytes2(v), p, next);
  }

  // ---- Usages

  // The Local state with one usage, or one end of a range, more.
  function Noted(l: Local, tag: nat, code: u32): Local {
    if tag == USAGE then l.(usages := l.usages + [code])
    else if tag == USAGE_MINIMUM then l.(minimum := code, hasMinimum := true)
    else l.(maximum := code, hasMaximum := true)
  }

  function OnPage(p: Parser, page: u16): Parser {
    p.(global := p.global.(page := page))
  }

  function PageOf(p: Parser, code: u32, short: bool): u16 {
    if short then code / 0x1_0000 else p.global.page
  }

  lemma NoteItem(tag: nat, code: u32, data: seq<byte>, p: Parser)
    requires tag <= 2 && |data| in {0, 1, 2, 4} && FullUsage(p.global.page, data) == code
    requires tag == USAGE ==> |p.local.usages| < LOCAL_USAGES
    ensures Item(p, Short(2, tag, data, 1 + |data|)) == Going(p.(local := Noted(p.local, tag, code)))
  {
  }

  lemma PageFeeds(page: u16, p: Parser)
    ensures ItemBoundary([0x06] + Bytes2(page)) && Feed([0x06] + Bytes2(page), p) == Going(OnPage(p, page))
  {
    TwoBytes(page);
    ShortFeeds(0x06, 1, 0, page, p, Going(OnPage(p, page)));
  }

  lemma UsagePrefix(tag: nat)
    requires tag <= 2
    ensures var wide, short := 0x10 * tag + 0x0b, 0x10 * tag + 0x0a;
            && wide / 4 % 4 == 2 && wide / 16 == tag && wide % 4 == 3
            && short / 4 % 4 == 2 && short / 16 == tag && short % 4 == 2
  {
  }

  lemma WideUsageFeeds(tag: nat, code: u32, p: Parser)
    requires tag <= 2 && (tag == USAGE ==> |p.local.usages| < LOCAL_USAGES)
    ensures var item := UsageItem(tag, code, false);
            ItemBoundary(item) && Feed(item, p) == Going(p.(local := Noted(p.local, tag, code)))
  {
    UsagePrefix(tag);
    FourBytes(code);
    assert FullUsage(p.global.page, Bytes4(code)) == code;
    NoteItem(tag, code, Bytes4(code), p);
    ItemFeeds(0x10 * tag + 0x0b, 2, tag, Bytes4(code), p, Going(p.(local := Noted(p.local, tag, code))));
  }

  lemma PagedUsage(code: u32)
    ensures FullUsage(code / 0x1_0000, Bytes2(code % 0x1_0000)) == code
  {
    TwoBytes(code % 0x1_0000);
  }

  lemma ShortUsageFeeds(tag: nat, code: u32, p: Parser)
    requires tag <= 2 && (tag == USAGE ==> |p.local.usages| < LOCAL_USAGES)
    ensures var item := UsageItem(tag, code, true); var q := OnPage(p, code / 0x1_0000);
            ItemBoundary(item) && Feed(item, p) == Going(q.(local := Noted(p.local, tag, code)))
  {
    var q := OnPage(p, code / 0x1_0000);
    PageFeeds(code / 0x1_0000, p);
    UsagePrefix(tag);
    PagedUsage(code);
    NoteItem(tag, code, Bytes2(code % 0x1_0000), q);
    ShortFeeds(0x10 * tag + 0x0a, 2, tag, code % 0x1_0000, q, Going(q.(local := Noted(p.local, tag, code))));
    ThenFeed([0x06] + Bytes2(code / 0x1_0000), [0x10 * tag + 0x0a] + Bytes2(code % 0x1_0000), p, q);
  }

  // The parser after a usage item.
  function AfterUsage(tag: nat, code: u32, short: bool, p: Parser): Parser {
    OnPage(p, PageOf(p, code, short)).(local := Noted(p.local, tag, code))
  }

  lemma UsageFeeds(tag: nat, code: u32, short: bool, p: Parser)
    requires tag <= 2 && (tag == USAGE ==> |p.local.usages| < LOCAL_USAGES)
    ensures var item := UsageItem(tag, code, short);
            ItemBoundary(item) && Feed(item, p) == Going(AfterUsage(tag, code, short, p))
  {
    if short {
      ShortUsageFeeds(tag, code, p);
    } else {
      WideUsageFeeds(tag, code, p);
    }
  }

  function Codes(ts: seq<Target>): seq<u32> {
    seq(|ts|, k requires 0 <= k < |ts| => Code(ts[k]))
  }

  // The parser once usages have been named: on some page, with this Local state.
  ghost predicate Named(p: Parser, next: Progress, l: Local) {
    next.Going? && next.parser == OnPage(p, next.parser.global.page).(local := l)
  }

  lemma NextUsageFeeds(items: seq<byte>, codes: seq<u32>, code: u32, short: bool, p: Parser)
    requires ItemBoundary(items) && |codes| < LOCAL_USAGES && Named(p, Feed(items, p), NO_LOCAL.(usages := codes))
    ensures var more := items + UsageItem(USAGE, code, short);
            ItemBoundary(more) && Named(p, Feed(more, p), NO_LOCAL.(usages := codes + [code]))
  {
    var q := Feed(items, p).parser;
    UsageFeeds(USAGE, code, short, q);
    ThenFeed(items, UsageItem(USAGE, code, short), p, q);
  }

  lemma {:induction false} UsagesFeed(ts: seq<Target>, short: bool, p: Parser)
    requires |ts| <= LOCAL_USAGES && p.local == NO_LOCAL
    ensures var items := UsageItems(ts, short);
            ItemBoundary(items) && Named(p, Feed(items, p), NO_LOCAL.(usages := Codes(ts)))
  {
    if ts == [] {
      NothingFed(p);
      assert Codes(ts) == [];
    } else {
      var init, t := ts[..|ts| - 1], ts[|ts| - 1];
      UsagesFeed(init, short, p);
      NextUsageFeeds(UsageItems(init, short), Codes(init), Code(t), short, p);
      CodesNext(ts);
    }
  }

  lemma CodesNext(ts: seq<Target>)
    requires ts != []
    ensures Codes(ts) == Codes(ts[..|ts| - 1]) + [Code(ts[|ts| - 1])]
  {
  }

  lemma NothingFed(p: Parser)
    ensures ItemBoundary([]) && Named(p, Feed([], p), p.local)
  {
  }

  lemma StopFeeds(a: seq<byte>, b: seq<byte>, p: Parser)
    requires ItemBoundary(a) && ItemBoundary(b) && Feed(a, p).Stopped?
    ensures ItemBoundary(a + b) && Feed(a + b, p) == Feed(a, p)
  {
    FeedSplits(a, b, p);
  }

  lemma UsageBoundary(tag: nat, code: u32, short: bool)
    requires tag <= 2
    ensures ItemBoundary(UsageItem(tag, code, short))
  {
    UsageFeeds(tag, code, short, START);
  }

  lemma OneTooManyWide(code: u32, p: Parser)
    requires |p.local.usages| == LOCAL_USAGES
    ensures var item := UsageItem(USAGE, code, false);
            ItemBoundary(item) && Feed(item, p) == Stopped(E2big, p.layout)
  {
    ItemFeeds(0x0b, 2, 0, Bytes4(code), p, Stopped(E2big, p.layout));
  }

  lemma OneTooManyShort(code: u32, p: Parser)
    requires |p.local.usages| == LOCAL_USAGES
    ensures var item := UsageItem(USAGE, code, true);
            ItemBoundary(item) && Feed(item, p) == Stopped(E2big, p.layout)
  {
    var q := OnPage(p, code / 0x1_0000);
    PageFeeds(code / 0x1_0000, p);
    ShortFeeds(0x0a, 2, 0, code % 0x1_0000, q, Stopped(E2big, p.layout));
    ThenFeed([0x06] + Bytes2(code / 0x1_0000), [0x0a] + Bytes2(code % 0x1_0000), p, q);
  }

  // The table of usages is full.
  lemma OneTooMany(code: u32, short: bool, p: Parser)
    requires |p.local.usages| == LOCAL_USAGES
    ensures var item := UsageItem(USAGE, code, short);
            ItemBoundary(item) && Feed(item, p) == Stopped(E2big, p.layout)
  {
    if short {
      OneTooManyShort(code, p);
    } else {
      OneTooManyWide(code, p);
    }
  }

  lemma {:induction false} TooManyUsages(ts: seq<Target>, short: bool, p: Parser)
    requires |ts| > LOCAL_USAGES && p.local == NO_LOCAL
    ensures ItemBoundary(UsageItems(ts, short)) && Feed(UsageItems(ts, short), p) == Stopped(E2big, p.layout)
  {
    var init, t := ts[..|ts| - 1], ts[|ts| - 1];
    UsageBoundary(USAGE, Code(t), short);
    if |init| > LOCAL_USAGES {
      TooManyUsages(init, short, p);
      StopFeeds(UsageItems(init, short), UsageItem(USAGE, Code(t), short), p);
    } else {
      UsagesFeed(init, short, p);
      var q := Feed(UsageItems(init, short), p).parser;
      OneTooMany(Code(t), short, q);
      ThenFeed(UsageItems(init, short), UsageItem(USAGE, Code(t), short), p, q);
    }
  }

  // The Local state that a naming leaves.
  function LocalOf(n: Naming, ts: seq<Target>): Local
    requires NamedRight(n, ts)
  {
    var l := NO_LOCAL.(usages := Codes(ts[..n.listed]));
    if n.ranged == 0 then l
    else l.(minimum := n.first, maximum := n.first + n.ranged - 1, hasMinimum := true, hasMaximum := true)
  }

  lemma EndsFeed(first: u32, last: u32, short: bool, p: Parser)
    ensures var items := UsageItem(USAGE_MINIMUM, first, short) + UsageItem(USAGE_MAXIMUM, last, short);
            && ItemBoundary(items)
            && Feed(items, p) == Going(AfterUsage(USAGE_MAXIMUM, last, short, AfterUsage(USAGE_MINIMUM, first, short, p)))
  {
    var q := AfterUsage(USAGE_MINIMUM, first, short, p);
    UsageFeeds(USAGE_MINIMUM, first, short, p);
    UsageFeeds(USAGE_MAXIMUM, last, short, q);
    ThenFeed(UsageItem(USAGE_MINIMUM, first, short), UsageItem(USAGE_MAXIMUM, last, short), p, q);
  }

  lemma EndsNoted(first: u32, last: u32, short: bool, p: Parser)
    ensures var q := AfterUsage(USAGE_MAXIMUM, last, short, AfterUsage(USAGE_MINIMUM, first, short, p));
            Named(p, Going(q), p.local.(minimum := first, maximum := last, hasMinimum := true, hasMaximum := true))
  {
  }

  lemma RangeIs(n: Naming, ts: seq<Target>)
    requires NamedRight(n, ts) && n.ranged > 0
    ensures RangeItems(n)
            == UsageItem(USAGE_MINIMUM, n.first, n.short) + UsageItem(USAGE_MAXIMUM, n.first + n.ranged - 1, n.short)
  {
  }

  lemma EndsNamed(first: u32, last: u32, short: bool, p: Parser)
    ensures var items := UsageItem(USAGE_MINIMUM, first, short) + UsageItem(USAGE_MAXIMUM, last, short);
            && ItemBoundary(items)
            && Named(p, Feed(items, p), p.local.(minimum := first, maximum := last, hasMinimum := true, hasMaximum := true))
  {
    EndsFeed(first, last, short, p);
    EndsNoted(first, last, short, p);
  }

  lemma LocalOfRange(n: Naming, ts: seq<Target>)
    requires NamedRight(n, ts) && n.ranged > 0
    ensures LocalOf(n, ts) == NO_LOCAL.(usages := Codes(ts[..n.listed])).(
                                minimum := n.first, maximum := n.first + n.ranged - 1, hasMinimum := true, hasMaximum := true)
  {
  }

  lemma SameNamed(items: seq<byte>, same: seq<byte>, p: Parser, l: Local)
    requires same == items && ItemBoundary(items) && Named(p, Feed(items, p), l)
    ensures ItemBoundary(same) && Named(p, Feed(same, p), l)
  {
  }

  lemma SomeRangeFeeds(n: Naming, ts: seq<Target>, p: Parser)
    requires NamedRight(n, ts) && n.ranged > 0 && p.local == NO_LOCAL.(usages := Codes(ts[..n.listed]))
    ensures ItemBoundary(RangeItems(n)) && Named(p, Feed(RangeItems(n), p), LocalOf(n, ts))
  {
    var last := n.first + n.ranged - 1;
    RangeIs(n, ts);
    LocalOfRange(n, ts);
    EndsNamed(n.first, last, n.short, p);
    SameNamed(UsageItem(USAGE_MINIMUM, n.first, n.short) + UsageItem(USAGE_MAXIMUM, last, n.short), RangeItems(n), p, LocalOf(n, ts));
  }

  lemma RangeFeeds(n: Naming, ts: seq<Target>, p: Parser)
    requires NamedRight(n, ts) && p.local == NO_LOCAL.(usages := Codes(ts[..n.listed]))
    ensures ItemBoundary(RangeItems(n)) && Named(p, Feed(RangeItems(n), p), LocalOf(n, ts))
  {
    if n.ranged == 0 {
      NothingFed(p);
    } else {
      SomeRangeFeeds(n, ts, p);
    }
  }

  lemma EndsBoundary(first: u32, last: u32, short: bool)
    ensures ItemBoundary(UsageItem(USAGE_MINIMUM, first, short) + UsageItem(USAGE_MAXIMUM, last, short))
  {
    UsageBoundary(USAGE_MINIMUM, first, short);
    UsageBoundary(USAGE_MAXIMUM, last, short);
    FeedSplits(UsageItem(USAGE_MINIMUM, first, short), UsageItem(USAGE_MAXIMUM, last, short), START);
  }

  lemma RangeBoundary(n: Naming)
    requires n.first + n.ranged <= 0x1_0000_0000
    ensures ItemBoundary(RangeItems(n))
  {
    if n.ranged > 0 {
      EndsBoundary(n.first, n.first + n.ranged - 1, n.short);
      SameBoundary(UsageItem(USAGE_MINIMUM, n.first, n.short) + UsageItem(USAGE_MAXIMUM, n.first + n.ranged - 1, n.short),
                   RangeItems(n));
    } else {
      SameBoundary([], RangeItems(n));
    }
  }

  lemma SameBoundary(items: seq<byte>, same: seq<byte>)
    requires same == items && ItemBoundary(items)
    ensures ItemBoundary(same)
  {
  }

  lemma NamingFeeds(n: Naming, ts: seq<Target>, p: Parser)
    requires NamedRight(n, ts) && p.local == NO_LOCAL && n.listed <= LOCAL_USAGES
    ensures var items := UsageItems(ts[..n.listed], n.short) + RangeItems(n);
            ItemBoundary(items) && Named(p, Feed(items, p), LocalOf(n, ts))
  {
    UsagesFeed(ts[..n.listed], n.short, p);
    var q := Feed(UsageItems(ts[..n.listed], n.short), p).parser;
    RangeFeeds(n, ts, q);
    ThenFeed(UsageItems(ts[..n.listed], n.short), RangeItems(n), p, q);
  }

  lemma NamingStops(n: Naming, ts: seq<Target>, p: Parser)
    requires NamedRight(n, ts) && p.local == NO_LOCAL && n.listed > LOCAL_USAGES
    ensures var items := UsageItems(ts[..n.listed], n.short) + RangeItems(n);
            ItemBoundary(items) && Feed(items, p) == Stopped(E2big, p.layout)
  {
    TooManyUsages(ts[..n.listed], n.short, p);
    RangeBoundary(n);
    StopFeeds(UsageItems(ts[..n.listed], n.short), RangeItems(n), p);
  }

  /** Listed, ranged or repeated, each slot has the usage that it is meant to have. */
  lemma SlotUsage(n: Naming, ts: seq<Target>, i: nat)
    requires NamedRight(n, ts) && i < |ts|
    ensures LocalUsage(LocalOf(n, ts), i) == Code(ts[i])
  {
  }

  // ---- The Global items of a group

  function GlobalOf(g: Group, page: u16): Global
    requires Writable(g)
  {
    Global(page, g.size, |g.targets|, g.minimum, g.id)
  }

  lemma SizeFeeds(b: byte, p: Parser)
    ensures ItemBoundary([0x75, b]) && Feed([0x75, b], p) == Going(p.(global := p.global.(size := b)))
  {
    OneByte(b);
    ByteFeeds(0x75, 1, 7, b, p, Going(p.(global := p.global.(size := b))));
  }

  lemma CountFeeds(b: byte, p: Parser)
    ensures ItemBoundary([0x95, b]) && Feed([0x95, b], p) == Going(p.(global := p.global.(count := b)))
  {
    OneByte(b);
    ByteFeeds(0x95, 1, 9, b, p, Going(p.(global := p.global.(count := b))));
  }

  lemma IdFeeds(b: byte, p: Parser)
    ensures ItemBoundary([0x85, b])
    ensures Feed([0x85, b], p) == if b == 0 then Stopped(Einval, p.layout) else Going(p.(global := p.global.(id := b)))
  {
    OneByte(b);
    ByteFeeds(0x85, 1, 8, b, p, if b == 0 then Stopped(Einval, p.layout) else Going(p.(global := p.global.(id := b))));
  }

  lemma MinimumItem(minimum: int, p: Parser)
    requires -0x80 <= minimum < 0x80
    ensures Item(p, Short(1, 1, [minimum % 0x100], 2)) == Going(p.(global := p.global.(minimum := minimum)))
  {
    OneByte(minimum % 0x100);
    Pow2Values();
    Pow2Splits(1, 7);
    SignedBitsInverts(minimum, 8);
  }

  lemma MinimumByteFeeds(b: byte, p: Parser, next: Progress)
    requires Item(p, Short(1, 1, [b], 2)) == next
    ensures ItemBoundary([0x15, b]) && Feed([0x15, b], p) == next
  {
    ByteFeeds(0x15, 1, 1, b, p, next);
  }

  lemma MinimumFeeds(minimum: int, p: Parser)
    requires -0x80 <= minimum < 0x80
    ensures var item := [0x15, minimum % 0x100];
            ItemBoundary(item) && Feed(item, p) == Going(p.(global := p.global.(minimum := minimum)))
  {
    MinimumItem(minimum, p);
    MinimumByteFeeds(minimum % 0x100, p, Going(p.(global := p.global.(minimum := minimum))));
  }

  lemma SizesFeed(g: Group, p: Parser)
    requires Writable(g)
    ensures var items := [0x75, g.size] + [0x95, |g.targets|];
            ItemBoundary(items) && Feed(items, p) == Going(p.(global := p.global.(size := g.size, count := |g.targets|)))
  {
    var sized := p.(global := p.global.(size := g.size));
    SizeFeeds(g.size, p);
    CountFeeds(|g.targets|, sized);
    ThenFeed([0x75, g.size], [0x95, |g.targets|], p, sized);
  }

  lemma SignFeeds(g: Group, p: Parser)
    requires Writable(g)
    ensures var items := [0x85, g.id] + [0x15, g.minimum % 0x100];
            && ItemBoundary(items)
            && Feed(items, p) == if g.id == 0 then Stopped(Einval, p.layout)
                                 else Going(p.(global := p.global.(id := g.id, minimum := g.minimum)))
  {
    var identified := p.(global := p.global.(id := g.id));
    IdFeeds(g.id, p);
    MinimumFeeds(g.minimum, identified);
    FeedSplits([0x85, g.id], [0x15, g.minimum % 0x100], p);
  }

  lemma HeadFeeds(g: Group, p: Parser)
    requires Writable(g)
    ensures ItemBoundary(Head(g))
    ensures Feed(Head(g), p) == if g.id == 0 then Stopped(Einval, p.layout)
                                else Going(p.(global := GlobalOf(g, p.global.page)))
  {
    var q := p.(global := p.global.(id := g.id, minimum := g.minimum));
    SignFeeds(g, p);
    SizesFeed(g, q);
    FeedSplits([0x85, g.id] + [0x15, g.minimum % 0x100], [0x75, g.size] + [0x95, |g.targets|], p);
  }

  // Before the Main item: the group's Global and Local state is set up, and nothing else has changed.
  ghost predicate Ready(p: Parser, q: Parser, g: Group)
    requires Writable(g)
  {
    q == p.(global := GlobalOf(g, q.global.page), local := LocalOf(g.naming, g.targets))
  }

  // The group's state is set up, or the descriptor refused for its id or for too many usages.
  ghost predicate SetsUp(p: Parser, next: Progress, g: Group)
    requires Writable(g)
  {
    if WellNamed(g) then next.Going? && Ready(p, next.parser, g) else next.Stopped? && next.status in {Einval, E2big}
  }

  lemma NamesFeed(g: Group, p: Parser) returns (next: Progress)
    requires Writable(g) && p.local == NO_LOCAL
    ensures var names := UsageItems(g.targets[..g.naming.listed], g.naming.short) + RangeItems(g.naming);
            ItemBoundary(names) && Feed(names, p) == next
    ensures if g.naming.listed <= 32 then Named(p, next, LocalOf(g.naming, g.targets)) else next == Stopped(E2big, p.layout)
  {
    if g.naming.listed <= 32 {
      NamingFeeds(g.naming, g.targets, p);
    } else {
      NamingStops(g.naming, g.targets, p);
    }
    next := Feed(UsageItems(g.targets[..g.naming.listed], g.naming.short) + RangeItems(g.naming), p);
  }

  lemma PreludeFeeds(g: Group, p: Parser) returns (next: Progress)
    requires Writable(g) && p.local == NO_LOCAL
    ensures ItemBoundary(Prelude(g)) && Feed(Prelude(g), p) == next && SetsUp(p, next, g)
  {
    var headed := p.(global := GlobalOf(g, p.global.page));
    var names := UsageItems(g.targets[..g.naming.listed], g.naming.short) + RangeItems(g.naming);
    HeadFeeds(g, p);
    var named := NamesFeed(g, headed);
    FeedSplits(Head(g), names, p);
    next := if g.id == 0 then Stopped(Einval, p.layout) else named;
  }
}
