/** Which items the parser refuses, and which it passes over (sections 6.2.2.4 to 6.2.2.8). */
module HidRefusals {
  import opened Bits
  import opened HidMap
  import opened HidParser
  import opened HidInsertion

  const MAIN := 0
  const GLOBAL := 1
  const LOCAL := 2

  // ---- Refused items

  // A usage page beyond 16 bits, a minimum without data, a report id of 0 or beyond a byte, a ninth Push, or a
  // Pop of nothing.
  predicate BadGlobal(p: Parser, tag: nat, data: seq<byte>) {
    || (tag == 0 && LittleEndian(data) >= 0x1_0000)
    || (tag == 1 && data == [])
    || (tag == 8 && (LittleEndian(data) == 0 || LittleEndian(data) >= 0x100))
    || (tag == 10 && |p.stack| == 8)
    || (tag == 11 && p.stack == [])
  }

  // A thirty-third usage, or alternative usages.
  predicate BadLocal(p: Parser, tag: nat) {
    (tag == 0 && |p.local.usages| == 32) || tag == 10
  }

  // A ninth collection inside the others, or the end of none.
  predicate BadCollection(p: Parser, tag: nat) {
    (tag == 10 && |p.collections| == 8) || (tag == 12 && p.collections == [])
  }

  function Refusal(p: Parser, kind: nat, tag: nat, data: seq<byte>): Status
    requires BadGlobal(p, tag, data) || BadLocal(p, tag) || BadCollection(p, tag)
  {
    if kind == GLOBAL then (if tag == 10 then E2big else Einval)
    else if kind == LOCAL then (if tag == 10 then Enotsup else E2big)
    else if tag == 10 then E2big else Einval
  }

  predicate Bad(p: Parser, kind: nat, tag: nat, data: seq<byte>) {
    if kind == GLOBAL then BadGlobal(p, tag, data)
    else if kind == LOCAL then BadLocal(p, tag)
    else kind == MAIN && BadCollection(p, tag)
  }

  /** But for Input items, an item is refused exactly for these reasons, and leaves the layout as it was. */
  lemma RefusedExactly(p: Parser, kind: nat, tag: nat, data: seq<byte>)
    requires |data| in {0, 1, 2, 4} && |p.stack| <= 8 && |p.collections| <= 8 && |p.local.usages| <= 32
    requires !(kind == MAIN && tag == 8)
    ensures var next := Item(p, Short(kind, tag, data, 1 + |data|));
            && (next.Stopped? <==> Bad(p, kind, tag, data))
            && (next.Stopped? ==> next == Stopped(Refusal(p, kind, tag, data), p.layout))
            && (next.Going? ==> next.parser.layout == p.layout)
  {
    ItemBound(data);
  }

  /**
   What each type of item is about, and nothing else: a Main item ends the Local state, and opens or closes one
   collection; a Global item changes the Global state and its stack, a Local item the Local state.
   */
  lemma ItemScope(p: Parser, kind: nat, tag: nat, data: seq<byte>)
    requires |data| in {0, 1, 2, 4} && Item(p, Short(kind, tag, data, 1 + |data|)).Going?
    ensures var q := Item(p, Short(kind, tag, data, 1 + |data|)).parser;
            if kind == MAIN then
              && q == p.(layout := q.layout, local := NO_LOCAL, collections := q.collections)
              && (tag == 10 ==> |q.collections| == |p.collections| + 1 && q.collections[..|p.collections|] == p.collections)
              && (tag == 12 ==> q.collections == p.collections[..|p.collections| - 1])
              && (tag != 10 && tag != 12 ==> q.collections == p.collections)
            else if kind == GLOBAL then q == p.(global := q.global, stack := q.stack)
            else if kind == LOCAL then q == p.(local := q.local)
            else q == p
  {
  }

  // Fewer bytes are left than the item's prefix calls for (section 6.2.2.2), or a long item's (6.2.2.3).
  predicate CutShort(tail: seq<byte>)
    requires tail != []
  {
    if tail[0] == 0xfe then |tail| < 3 || |tail| - 3 < tail[1]
    else |tail| - 1 < if tail[0] % 4 == 3 then 4 else tail[0] % 4
  }

  /** A descriptor that is cut short within an item is refused, with the layout of the items before. */
  lemma CutShortIsRefused(before: seq<byte>, tail: seq<byte>)
    requires ItemBoundary(before) && tail != [] && CutShort(tail)
    ensures match Feed(before, START)
            case Going(p) => Parse(before + tail) == Added(Einval, p.layout)
            case Stopped(status, layout) => Parse(before + tail) == Added(status, layout)
  {
    ParseSplits(before, tail, START);
  }

  /** At its end a descriptor is accepted exactly if nothing is open or pushed and both pointer axes have been seen. */
  lemma EndExactly(bytes: seq<byte>)
    requires ItemBoundary(bytes) && Feed(bytes, START).Going?
    ensures var p := Feed(bytes, START).parser; var r := Parse(bytes);
            && r.layout == p.layout
            && (r.status == Einval <==> p.collections != [] || p.stack != [])
            && (r.status == Ok <==> p.collections == [] && p.stack == [] && p.layout.x && p.layout.y)
            && r.status in {Ok, Einval, Enotsup}
  {
    ParseSplits(bytes, [], START);
    assert bytes + [] == bytes;
  }

  // ---- Items that are passed over

  // Maxima, physical limits, units and exponents; designators, strings and delimited local items; the reserved type.
  predicate Ignored(item: Framed) {
    item.Short? &&
    match item.kind
    case 1 => item.tag !in {0, 1, 7, 8, 9, 10, 11}
    case 2 => item.tag !in {0, 1, 2, 10}
    case _ => item.kind == 3
  }

  lemma IgnoredNeutral(item: seq<byte>, p: Parser)
    requires item != [] && Ignored(Frame(item)) && Frame(item).used == |item|
    ensures Neutral(item, p)
  {
  }

  /** Such an item between any two others changes neither the result nor the layout. */
  lemma InsertIgnored(before: seq<byte>, item: seq<byte>, after: seq<byte>)
    requires ItemBoundary(before) && item != [] && Ignored(Frame(item)) && Frame(item).used == |item|
    ensures Parse(before + item + after) == Parse(before + after)
  {
    if Feed(before, START).Going? {
      IgnoredNeutral(item, Feed(before, START).parser);
    }
    InsertNeutral(before, item, after, START);
  }
}
