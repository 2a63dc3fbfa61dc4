/** The parser reads a descriptor item by item, so neutral items may stand between any two of its items. */
module HidInsertion {
  import opened Bits
  import opened HidMap
  import opened HidParser

  // `bytes` is a whole number of items.
  predicate ItemBoundary(bytes: seq<byte>)
    decreases |bytes|
  {
    bytes == [] || (!Frame(bytes).Truncated? && ItemBoundary(bytes[Frame(bytes).used..]))
  }

  // The parser after a whole number of items.
  function Feed(bytes: seq<byte>, p: Parser): Progress
    requires ItemBoundary(bytes)
    decreases |bytes|, p
  {
    if bytes == [] then Going(p)
    else
      match Item(p, Frame(bytes))
      case Stopped(status, layout) => Stopped(status, layout)
      case Going(q) => Feed(bytes[Frame(bytes).used..], q)
  }

  lemma FrameIsLocal(a: seq<byte>, b: seq<byte>)
    requires a != [] && !Frame(a).Truncated?
    ensures Frame(a + b) == Frame(a)
    ensures (a + b)[Frame(a).used..] == a[Frame(a).used..] + b
  {
  }

  /** Parsing is compositional at item boundaries. */
  lemma {:induction false} ParseSplits(a: seq<byte>, b: seq<byte>, p: Parser)
    requires ItemBoundary(a)
    ensures ParseFrom(a + b, p) == match Feed(a, p)
                                   case Stopped(status, layout) => Added(status, layout)
                                   case Going(q) => ParseFrom(b, q)
    decreases |a|
  {
    if a == [] {
      assert a + b == b;
    } else {
      FrameIsLocal(a, b);
      var next := Item(p, Frame(a));
      if next.Going? {
        ParseSplits(a[Frame(a).used..], b, next.parser);
      }
    }
  }

  lemma {:induction false} FeedSplits(a: seq<byte>, b: seq<byte>, p: Parser)
    requires ItemBoundary(a) && ItemBoundary(b)
    ensures ItemBoundary(a + b)
    ensures Feed(a + b, p) == match Feed(a, p)
                              case Stopped(status, layout) => Stopped(status, layout)
                              case Going(q) => Feed(b, q)
    decreases |a|
  {
    if a == [] {
      assert a + b == b;
    } else {
      FrameIsLocal(a, b);
      var rest := a[Frame(a).used..];
      var next := Item(p, Frame(a));
      if next.Going? {
        FeedSplits(rest, b, next.parser);
      } else {
        FeedSplits(rest, b, p);
      }
    }
  }

  // Neutral in the state that the descriptor's own items reach.
  ghost predicate Neutral(bytes: seq<byte>, p: Parser) {
    ItemBoundary(bytes) && Feed(bytes, p) == Going(p)
  }

  lemma InsertNeutral(before: seq<byte>, inserted: seq<byte>, after: seq<byte>, p: Parser)
    requires ItemBoundary(before)
    requires Feed(before, p).Going? ==> Neutral(inserted, Feed(before, p).parser)
    ensures ParseFrom(before + inserted + after, p) == ParseFrom(before + after, p)
  {
    assert before + inserted + after == before + (inserted + after);
    ParseSplits(before, inserted + after, p);
    ParseSplits(before, after, p);
    if Feed(before, p).Going? {
      ParseSplits(inserted, after, Feed(before, p).parser);
    }
  }

  // ---- Long items (section 6.2.2.3)

  function LongItem(tag: byte, payload: seq<byte>): seq<byte>
    requires |payload| < 0x100
  {
    [0xfe, |payload|, tag] + payload
  }

  /** A well-formed long item changes neither the result nor the layout. */
  lemma InsertLongItem(before: seq<byte>, tag: byte, payload: seq<byte>, after: seq<byte>)
    requires ItemBoundary(before) && |payload| < 0x100
    ensures Parse(before + LongItem(tag, payload) + after) == Parse(before + after)
  {
    var item := LongItem(tag, payload);
    assert Frame(item) == Long(|item|);
    assert item[|item|..] == [];
    InsertNeutral(before, item, after, START);
  }

  // Two descriptors of acceptable length, the shorter one not empty.
  predicate BothAcceptable(shorter: seq<byte>, longer: seq<byte>) {
    shorter != [] && |shorter| <= |longer| <= MAX_MAP_BYTES
  }

  /** A long item between the items of a non-empty descriptor changes nothing that the parser returns, if it still fits. */
  lemma LongItemKeepsResult(before: seq<byte>, tag: byte, payload: seq<byte>, after: seq<byte>, layout: Layout)
    requires ItemBoundary(before) && |payload| < 0x100
    requires BothAcceptable(before + after, before + LongItem(tag, payload) + after)
    ensures Result(before + LongItem(tag, payload) + after, layout) == Result(before + after, layout)
  {
    InsertLongItem(before, tag, payload, after);
  }

  // ---- Push, Global items, Pop (section 6.2.2.7)

  const PUSH: nat := 10
  const POP: nat := 11

  predicate IsGlobal(bytes: seq<byte>, tag: nat)
    requires bytes != []
  {
    var item := Frame(bytes);
    item.Short? && item.kind == 1 && item.tag == tag && item.used == |bytes|
  }

  // The Global item is accepted by the parser whatever the state, given stack room for a Push and something to Pop.
  predicate ValidGlobal(item: Framed) {
    && item.Short? && item.kind == 1 && |item.data| in {0, 1, 2, 4}
    && (item.tag == 0 ==> Value(item.data) <= 0xffff)
    && (item.tag == 1 ==> item.data != [])
    && (item.tag == 8 ==> 1 <= Value(item.data) <= 255)
  }

  // Global items whose Pushes and Pops balance: `open` Pushes are still to be popped, and at most `room` may be open.
  predicate Balanced(bytes: seq<byte>, open: nat, room: nat)
    decreases |bytes|
  {
    if bytes == [] then open == 0
    else
      var item := Frame(bytes);
      && ValidGlobal(item)
      && var rest := bytes[item.used..];
         if item.tag == PUSH then open < room && Balanced(rest, open + 1, room)
         else if item.tag == POP then open > 0 && Balanced(rest, open - 1, room)
         else Balanced(rest, open, room)
  }

  // `q` differs from `p` in the Global state and in what is stacked above `p`'s stack only.
  ghost predicate OnlyGlobals(p: Parser, q: Parser, open: nat) {
    && q == p.(global := q.global, stack := q.stack)
    && |q.stack| == |p.stack| + open && q.stack[..|p.stack|] == p.stack
  }

  lemma GlobalStep(p: Parser, q: Parser, item: Framed, open: nat, room: nat)
    requires ValidGlobal(item) && OnlyGlobals(p, q, open) && |p.stack| + room <= STACK_DEPTH
    requires item.tag == PUSH ==> open < room
    requires item.tag == POP ==> open > 0
    ensures Item(q, item).Going?
    ensures OnlyGlobals(p, Item(q, item).parser,
                        if item.tag == PUSH then open + 1 else if item.tag == POP then open - 1 else open)
  {
  }

  lemma {:induction false} BalancedKeeps(bytes: seq<byte>, p: Parser, q: Parser, open: nat, room: nat)
    requires Balanced(bytes, open, room) && OnlyGlobals(p, q, open) && |p.stack| + room <= STACK_DEPTH
    ensures ItemBoundary(bytes) && Feed(bytes, q).Going? && OnlyGlobals(p, Feed(bytes, q).parser, 0)
    decreases |bytes|
  {
    if bytes != [] {
      var item := Frame(bytes);
      GlobalStep(p, q, item, open, room);
      var next := if item.tag == PUSH then open + 1 else if item.tag == POP then open - 1 else open;
      BalancedKeeps(bytes[item.used..], p, Item(q, item).parser, next, room);
    }
  }

  lemma OneItem(bytes: seq<byte>, tag: nat, p: Parser)
    requires bytes != [] && IsGlobal(bytes, tag)
    ensures ItemBoundary(bytes) && Feed(bytes, p) == Item(p, Frame(bytes))
  {
  }

  lemma PushPopNeutral(push: seq<byte>, body: seq<byte>, pop: seq<byte>, p: Parser, room: nat)
    requires push != [] && IsGlobal(push, PUSH) && pop != [] && IsGlobal(pop, POP)
    requires Balanced(body, 0, room) && |p.stack| + 1 + room <= STACK_DEPTH
    ensures Neutral(push + body + pop, p)
  {
    var pushed := p.(stack := p.stack + [p.global]);
    OneItem(push, PUSH, p);
    BalancedKeeps(body, pushed, pushed, 0, room);
    var q := Feed(body, pushed).parser;
    assert q.stack == pushed.stack;
    OneItem(pop, POP, q);
    assert q.stack[..|q.stack| - 1] == p.stack && q.stack[|q.stack| - 1] == p.global;
    FeedSplits(push, body, p);
    FeedSplits(push + body, pop, p);
  }

  /**
   Push, any valid balanced Global items, then Pop change neither the result nor the layout,
   as long as the parser's stack has room for them where they stand.
   */
  lemma InsertPushPop(before: seq<byte>, push: seq<byte>, body: seq<byte>, pop: seq<byte>, after: seq<byte>, room: nat)
    requires ItemBoundary(before)
    requires push != [] && IsGlobal(push, PUSH) && pop != [] && IsGlobal(pop, POP) && Balanced(body, 0, room)
    requires Feed(before, START).Going? ==> |Feed(before, START).parser.stack| + 1 + room <= STACK_DEPTH
    ensures Parse(before + (push + body + pop) + after) == Parse(before + after)
  {
    if Feed(before, START).Going? {
      PushPopNeutral(push, body, pop, Feed(before, START).parser, room);
    }
    InsertNeutral(before, push + body + pop, after, START);
  }

  /** Push, Global items and Pop leave what `mouse_hid_parse` returns as it was, too. */
  lemma PushPopKeepsResult(before: seq<byte>, push: seq<byte>, body: seq<byte>, pop: seq<byte>, after: seq<byte>, room: nat,
                           layout: Layout)
    requires ItemBoundary(before)
    requires push != [] && IsGlobal(push, PUSH) && pop != [] && IsGlobal(pop, POP) && Balanced(body, 0, room)
    requires Feed(before, START).Going? ==> |Feed(before, START).parser.stack| + 1 + room <= STACK_DEPTH
    requires BothAcceptable(before + after, before + (push + body + pop) + after)
    ensures Result(before + (push + body + pop) + after, layout) == Result(before + after, layout)
  {
    InsertPushPop(before, push, body, pop, after, room);
  }
}
