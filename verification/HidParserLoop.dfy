/** The parser as the C file runs it: one pass over an array, filling the caller's layout in place. */
module HidParserLoop {
  import opened Bits
  import opened Masks
  import opened HidMap
  import opened HidParser

  // Where the `i`-th field of an item starts.
  function Place(start: nat, size: nat, i: nat): nat {
    if i == 0 then start else Place(start, size, i - 1) + size
  }

  lemma {:induction false} PlaceIs(start: nat, size: nat, i: nat)
    ensures Place(start, size, i) == start + i * size
  {
    if i > 0 {
      PlaceIs(start, size, i - 1);
      NextProduct(i - 1, size);
    }
  }

  method FieldBit(start: nat, size: nat, i: nat) returns (bit: nat)
    ensures bit == Place(start, size, i)
  {
    PlaceIs(start, size, i);
    bit := start + i * size;
  }

  /** `struct mouse_hid_map`; its counters are the lengths of the two sequences. */
  class LayoutBuffer {
    var reports: seq<Report>
    var fields: seq<Field>
    var buttons: bv8
    var x: bool
    var y: bool
    var wheel: bool
    var pan: bool

    function View(): Layout
      reads this
    {
      Layout(reports, fields, buttons, x, y, wheel, pan)
    }

    constructor ()
      ensures View() == NO_LAYOUT
    {
      reports, fields, buttons, x, y, wheel, pan := [], [], 0, false, false, false, false;
    }

    method Clear()
      modifies this
      ensures View() == NO_LAYOUT
    {
      reports, fields, buttons, x, y, wheel, pan := [], [], 0, false, false, false, false;
    }

    method Mark(u: Usage)
      modifies this
      ensures View() == MarkAxis(old(View()), u)
    {
      match u {
        case MouseX => x := true;
        case MouseY => y := true;
        case MouseWheel => wheel := true;
        case MousePan => pan := true;
        case MouseButton =>
      }
    }

    method Store(f: Field)
      requires f.report < |reports|
      modifies this
      ensures View() == old(View()).(fields := old(fields) + [f], buttons := old(buttons) | FieldMask(f),
                                     reports := old(reports)[f.report := Useful(old(reports)[f.report], f)])
    {
      fields := fields + [f];
      var mask := FieldMask(f);
      var report := reports[f.report];
      reports := reports[f.report := report.(useful := true, buttons := report.buttons | mask)];
      buttons := buttons | mask;
    }

    method Append(f: Field) returns (status: Status)
      requires f.report < |reports|
      modifies this
      ensures Added(status, View()) == AddField(old(View()), f)
    {
      ghost var m := View();
      Mark(f.usage);
      assert fields == m.fields && reports == m.reports && buttons == m.buttons;
      if |fields| >= MAX_FIELDS {
        return E2big;
      }
      Store(f);
      status := Ok;
    }

    method AppendUsage(g: Global, l: Local, flags: u32, inMouse: bool, report: nat, bit: nat, i: nat)
      returns (status: Status)
      requires report < |reports| && i < g.count
      modifies this
      ensures |reports| == old(|reports|)
      ensures AddFields(old(View()), g, l, flags, inMouse, report, bit, i)
              == if status != Ok then Added(status, View())
                 else AddFields(View(), g, l, flags, inMouse, report, bit + g.size, i + 1)
    {
      AddFieldsNext(View(), g, l, flags, inMouse, report, bit, i);
      var field := InputField(g, l, flags, inMouse, report, bit, i);
      if field == [] {
        return Ok;
      }
      status := Append(field[0]);
    }

    method AppendFields(g: Global, l: Local, flags: u32, inMouse: bool, report: nat, start: nat) returns (status: Status)
      requires report < |reports|
      modifies this
      ensures Added(status, View()) == AddFields(old(View()), g, l, flags, inMouse, report, start, 0)
    {
      var i := 0;
      ghost var goal := AddFields(View(), g, l, flags, inMouse, report, start, 0);
      while i < g.count
        invariant 0 <= i <= g.count && report < |reports|
        invariant AddFields(View(), g, l, flags, inMouse, report, Place(start, g.size, i), i) == goal
      {
        var bit := FieldBit(start, g.size, i);
        status := AppendUsage(g, l, flags, inMouse, report, bit, i);
        if status != Ok {
          return;
        }
        i := i + 1;
      }
      status := Ok;
    }

    method ReportFor(id: byte) returns (index: nat, full: bool)
      modifies this`reports
      ensures index == FindReport(old(reports), id)
      ensures full <==> index == |old(reports)| && |old(reports)| >= MAX_REPORTS
      ensures View() == if full then old(View()) else WithReport(old(View()), id)
    {
      var none;
      index, none := ReportIndex(reports, id);
      full := none && |reports| >= MAX_REPORTS;
      if none && !full {
        reports := reports + [Report(id, 0, 0, false)];
      }
    }

    method InputItem(g: Global, l: Local, flags: u32, inMouse: bool) returns (status: Status)
      modifies this
      ensures Added(status, View()) == AddInput(old(View()), g, l, flags, inMouse)
    {
      if g.count == 0 || g.size == 0 || g.size > 32 || g.count > MAX_REPORT_BITS / g.size {
        return E2big;
      }
      var index, full := ReportFor(g.id);
      if full {
        return E2big;
      }
      var start, bits := reports[index].bits, g.size * g.count;
      if bits > MAX_REPORT_BITS - start {
        return E2big;
      }
      reports := reports[index := reports[index].(bits := start + bits)];
      if BitOf(flags, 0) == 1 || BitOf(flags, 1) == 0 {
        return Ok;
      }
      status := AppendFields(g, l, flags, inMouse, index, start);
    }
  }

  /** `unsigned_item`: joins up to four bytes with shifts and `|`. */
  method UnsignedItem(data: array<byte>, offset: nat, size: nat) returns (result: u32)
    requires size <= 4 && offset + size <= data.Length
    ensures result == Value(data[offset..offset + size])
  {
    result := 0;
    for i := 0 to size
      invariant result == Value(data[offset..offset + i])
    {
      NextByteAt(data[..], offset, i);
      result := Or(result, data[offset + i] * Pow2(8 * i));
    }
  }

  lemma NextByteAt(data: seq<byte>, offset: nat, i: nat)
    requires i < 4 && offset + i < |data|
    ensures Or(Value(data[offset..offset + i]), data[offset + i] * Pow2(8 * i)) == Value(data[offset..offset + i + 1])
  {
    assert data[offset..offset + i + 1] == data[offset..offset + i] + [data[offset + i]];
    NextByte(data[offset..offset + i], data[offset + i]);
  }

  lemma NextByte(data: seq<byte>, next: byte)
    requires |data| < 4
    ensures Or(Value(data), next * Pow2(8 * |data|)) == Value(data + [next])
  {
    var more := data + [next];
    assert more[..|data|] == data;
    LittleEndianBound(data);
    OrAdds(LittleEndian(data), next, 8 * |data|);
    ItemBound(more);
  }

  method ApplyGlobal(p: Parser, tag: nat, data: seq<byte>, value: u32)
    returns (status: Status, global: Global, stack: seq<Global>)
    requires |data| in {0, 1, 2, 4} && value == Value(data)
    ensures status != Ok ==> GlobalItem(p, tag, data) == Stopped(status, p.layout)
    ensures status == Ok ==> GlobalItem(p, tag, data) == Going(p.(global := global, stack := stack))
  {
    status, global, stack := Ok, p.global, p.stack;
    if tag == 0 {
      if value > 0xffff {
        return Einval, global, stack;
      }
      global := global.(page := value);
    } else if tag == 1 {
      if data == [] {
        return Einval, global, stack;
      }
      LittleEndianBound(data);
      global := global.(minimum := SignedBits(value, 8 * |data|));
    } else if tag == 7 {
      global := global.(size := value);
    } else if tag == 8 {
      if value == 0 || value > 255 {
        return Einval, global, stack;
      }
      global := global.(id := value);
    } else if tag == 9 {
      global := global.(count := value);
    } else if tag == 10 {
      if |stack| == STACK_DEPTH {
        return E2big, global, stack;
      }
      stack := stack + [global];
    } else if tag == 11 {
      if stack == [] {
        return Einval, global, stack;
      }
      global, stack := stack[|stack| - 1], stack[..|stack| - 1];
    }
  }

  // size == 4 ? value : (page << 16) | value
  method JoinPage(page: u16, data: seq<byte>, value: u32) returns (usage: u32)
    requires |data| in {0, 1, 2, 4} && value == Value(data)
    ensures usage == FullUsage(page, data)
  {
    if |data| == 4 {
      return value;
    }
    ItemBound(data);
    Pow2Values();
    OrAdds(value, page, 16);
    usage := Or(value, page * Pow2(16));
  }

  method ApplyLocal(p: Parser, tag: nat, data: seq<byte>, value: u32) returns (status: Status, local: Local)
    requires |data| in {0, 1, 2, 4} && value == Value(data)
    ensures status != Ok ==> LocalItem(p, tag, data) == Stopped(status, p.layout)
    ensures status == Ok ==> LocalItem(p, tag, data) == Going(p.(local := local))
  {
    status, local := Ok, p.local;
    var usage := JoinPage(p.global.page, data, value);
    if tag == 0 {
      if |local.usages| == LOCAL_USAGES {
        return E2big, local;
      }
      local := local.(usages := local.usages + [usage]);
    } else if tag == 1 {
      local := local.(minimum := usage, hasMinimum := true);
    } else if tag == 2 {
      local := local.(maximum := usage, hasMaximum := true);
    } else if tag == 10 {
      return Enotsup, local;
    }
  }

  method ApplyMain(layout: LayoutBuffer, p: Parser, tag: nat, data: seq<byte>, value: u32)
    returns (status: Status, collections: seq<bool>)
    requires |data| in {0, 1, 2, 4} && value == Value(data) && p.layout == layout.View()
    modifies layout
    ensures status != Ok ==> MainItem(p, tag, data) == Stopped(status, layout.View())
    ensures status == Ok ==>
              MainItem(p, tag, data) == Going(p.(layout := layout.View(), collections := collections, local := NO_LOCAL))
  {
    status, collections := Ok, p.collections;
    if tag == 10 {
      if |collections| == STACK_DEPTH {
        return E2big, collections;
      }
      var mouse := collections != [] && collections[|collections| - 1];
      if value == 1 {
        mouse := LocalUsage(p.local, 0) == MOUSE_COLLECTION;
      }
      collections := collections + [mouse];
    } else if tag == 12 {
      if collections == [] {
        return Einval, collections;
      }
      collections := collections[..|collections| - 1];
    } else if tag == 8 {
      status := layout.InputItem(p.global, p.local, value, collections != [] && collections[|collections| - 1]);
    }
  }

  /** `mouse_hid_parse`: the result and the layout left behind, whether the descriptor is accepted or not. */
  method ParseDescriptor(data: array?<byte>, length: nat, layout: LayoutBuffer?) returns (status: Status)
    requires data != null ==> length <= data.Length
    modifies if layout == null then {} else {layout}
    ensures data == null || layout == null ==> status == Einval && (layout != null ==> layout.View() == old(layout.View()))
    ensures data != null && layout != null ==>
              Added(status, layout.View()) == Result(old(data[..length]), old(layout.View()))
  {
    if data == null || layout == null || length == 0 || length > MAX_MAP_BYTES {
      return Einval;
    }
    layout.Clear();
    status := ParseItems(data, length, layout);
  }

  lemma SubSlice(data: seq<byte>, offset: nat, length: nat, lo: nat, hi: nat)
    requires lo <= hi && offset + hi <= length <= |data|
    ensures data[offset..length][lo..hi] == data[offset + lo..offset + hi]
    ensures data[offset..length][hi..] == data[offset + hi..length]
  {
    var rest := data[offset..length];
    forall k | 0 <= k < hi - lo
      ensures rest[lo..hi][k] == data[offset + lo..offset + hi][k]
    {
      assert rest[lo + k] == data[offset + lo + k];
    }
    forall k | 0 <= k < length - offset - hi
      ensures rest[hi..][k] == data[offset + hi..length][k]
    {
      assert rest[hi + k] == data[offset + hi + k];
    }
  }

  lemma ItemLeads(rest: seq<byte>, p: Parser, item: Framed, next: Progress)
    requires rest != [] && item == Frame(rest) && !item.Truncated? && next == Item(p, item)
    ensures ParseFrom(rest, p)
            == match next
               case Stopped(status, layout) => Added(status, layout)
               case Going(q) => ParseFrom(rest[item.used..], q)
  {
  }

  // The item at `offset`, and its data as an integer.
  method ReadItem(data: array<byte>, offset: nat, length: nat) returns (item: Framed, value: u32)
    requires offset < length <= data.Length
    ensures item == Frame(data[offset..length]) && (item.Short? ==> value == Value(item.data))
  {
    value := 0;
    var prefix, next := data[offset], offset + 1;
    ghost var rest := data[offset..length];
    if prefix == 0xfe {
      if length - next < 2 || data[next] > length - next - 2 {
        return Truncated, 0;
      }
      return Long(1 + 2 + (data[next] as int)), 0;
    }
    var size := ItemSize(prefix);
    if size > length - next {
      return Truncated, 0;
    }
    value := UnsignedItem(data, next, size);
    var bytes := data[next..next + size];
    SubSlice(data[..], offset, length, 1, 1 + size);
    item := Short(prefix / 4 % 4, prefix / 16, bytes, 1 + size);
  }

  method ParseItems(data: array<byte>, length: nat, layout: LayoutBuffer) returns (status: Status)
    requires length <= data.Length && layout.View() == NO_LAYOUT
    modifies layout
    ensures Added(status, layout.View()) == Parse(data[..length])
  {
    var p, offset := START, 0;
    ghost var goal, rest := Parse(data[..length]), data[..length];
    while offset < length
      invariant 0 <= offset <= length && p.layout == layout.View()
      invariant rest == data[offset..length] && ParseFrom(rest, p) == goal
    {
      var used;
      status, used, p := NextItem(data, offset, length, rest, layout, p);
      if status != Ok {
        return;
      }
      SubSlice(data[..], offset, length, 0, used);
      offset, rest := offset + used, rest[used..];
    }
    if p.collections != [] || p.stack != [] {
      return Einval;
    }
    status := if layout.x && layout.y then Ok else Enotsup;
  }

  // One turn of the loop; `rest` is what is left of the descriptor.
  method NextItem(data: array<byte>, offset: nat, length: nat, ghost rest: seq<byte>, layout: LayoutBuffer, p: Parser)
    returns (status: Status, used: nat, q: Parser)
    requires offset < length <= data.Length && rest == data[offset..length] && p.layout == layout.View()
    modifies layout
    ensures status == Ok ==> 0 < used <= length - offset && q.layout == layout.View()
    ensures ParseFrom(rest, p) == if status == Ok then ParseFrom(rest[used..], q) else Added(status, layout.View())
  {
    var item, value := ReadItem(data, offset, length);
    if item.Truncated? {
      return Einval, 0, p;
    }
    status, used, q := Ok, item.used, p;
    ItemLeads(rest, p, item, Item(p, item));
    if item.Short? {
      status, q := ApplyItem(layout, p, item, value);
    }
  }

  // The switch over item types; `p` holds the loop's local variables and mirrors the layout buffer.
  method ApplyItem(layout: LayoutBuffer, p: Parser, item: Framed, value: u32) returns (status: Status, q: Parser)
    requires item.Short? && |item.data| in {0, 1, 2, 4} && value == Value(item.data) && p.layout == layout.View()
    modifies layout
    ensures q.layout == layout.View()
    ensures Item(p, item) == if status == Ok then Going(q) else Stopped(status, layout.View())
  {
    status, q := Ok, p;
    if item.kind == 1 {
      var global, stack;
      status, global, stack := ApplyGlobal(p, item.tag, item.data, value);
      q := p.(global := global, stack := stack);
    } else if item.kind == 2 {
      var local;
      status, local := ApplyLocal(p, item.tag, item.data, value);
      q := p.(local := local);
    } else if item.kind == 0 {
      var collections;
      status, collections := ApplyMain(layout, p, item.tag, item.data, value);
      q := p.(layout := layout.View(), collections := collections, local := NO_LOCAL);
    }
  }
}
