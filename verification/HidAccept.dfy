/** What the parser makes of a described descriptor, element by element: exactly the described layout, or a refusal. */
module HidAccept {
  import opened Bits
  import opened HidMap
  import opened HidParser
  import opened HidDescribe
  import opened HidReadBack
  import HidInvariant

  // ---- The fields of one Input item

  lemma FlagBits(flags: byte)
    ensures BitOf(flags, 0) == flags % 2 && BitOf(flags, 1) == flags / 2 % 2 && BitOf(flags, 2) == flags / 4 % 2
  {
    assert BitOf(flags, 1) == BitOf(flags / 2, 0);
    assert BitOf(flags, 2) == BitOf(flags / 2, 1) == BitOf(flags / 2 / 2, 0);
    assert flags / 2 / 2 == flags / 4;
  }

  // Data and variable: the item defines fields.
  predicate Defines(g: Group) {
    g.flags % 2 == 0 && g.flags / 2 % 2 == 1
  }

  // What the parser makes of a usage is what its target is of use for.
  lemma TargetField(t: Target, g: Global, l: Local, flags: u32, inMouse: bool, report: nat, bit: nat, i: nat)
    requires LocalUsage(l, i) == Code(t) && (t.Nothing? ==> Meaningless(t.code))
    ensures InputField(g, l, flags, inMouse, report, bit, i)
            == if OfUse(t, BitOf(flags, 2) == 1, inMouse)
               then [Field(bit, g.size, report, UsageOf(t), ButtonOf(t), g.minimum < 0)] else []
  {
  }

  lemma SlotField(g: Group, page: u16, inMouse: bool, start: nat, report: nat, i: nat)
    requires Writable(g) && Defines(g) && i < |g.targets|
    ensures InputField(GlobalOf(g, page), LocalOf(g.naming, g.targets), g.flags, inMouse, report, start + i * g.size, i)
            == SlotFields(g, inMouse, start, report, i)
  {
    SlotUsage(g.naming, g.targets, i);
    FlagBits(g.flags);
    TargetField(g.targets[i], GlobalOf(g, page), LocalOf(g.naming, g.targets), g.flags, inMouse, report,
                start + i * g.size, i);
  }

  lemma NextSlot(g: Group, page: u16, inMouse: bool, start: nat, report: nat, i: nat, bit: nat)
    requires Writable(g) && Defines(g) && i < |g.targets| && bit == start + i * g.size
    ensures var global, l := GlobalOf(g, page), LocalOf(g.naming, g.targets);
            InputFields(global, l, g.flags, inMouse, report, bit, i)
            == SlotFields(g, inMouse, start, report, i) + InputFields(global, l, g.flags, inMouse, report, bit + g.size, i + 1)
    ensures GroupFields(g, inMouse, start, report, i + 1)
            == GroupFields(g, inMouse, start, report, i) + SlotFields(g, inMouse, start, report, i)
  {
    SlotField(g, page, inMouse, start, report, i);
  }

  // Taking one part from what follows to what has gone before leaves the whole as it is.
  lemma Regroup(before: seq<Field>, slot: seq<Field>, after: seq<Field>, whole: seq<Field>)
    requires (before + slot) + after == whole
    ensures before + (slot + after) == whole
  {
    assert before + (slot + after) == (before + slot) + after;
  }

  lemma NoSlotLeft(g: Group, page: u16, inMouse: bool, start: nat, report: nat, bit: nat)
    requires Writable(g)
    ensures var whole := GroupFields(g, inMouse, start, report, |g.targets|);
            whole + InputFields(GlobalOf(g, page), LocalOf(g.naming, g.targets), g.flags, inMouse, report, bit, |g.targets|) == whole
  {
  }

  // The fields from the `i`-th slot on are those still missing.
  lemma {:induction false} FieldsJoin(g: Group, page: u16, inMouse: bool, start: nat, report: nat, i: nat, bit: nat)
    requires Writable(g) && Defines(g) && i <= |g.targets| && bit == start + i * g.size
    ensures GroupFields(g, inMouse, start, report, i)
            + InputFields(GlobalOf(g, page), LocalOf(g.naming, g.targets), g.flags, inMouse, report, bit, i)
            == GroupFields(g, inMouse, start, report, |g.targets|)
    decreases |g.targets| - i
  {
    if i == |g.targets| {
      NoSlotLeft(g, page, inMouse, start, report, bit);
    } else {
      NextProduct(i, g.size);
      FieldsJoin(g, page, inMouse, start, report, i + 1, bit + g.size);
      JoinNext(g, page, inMouse, start, report, i, bit);
    }
  }

  lemma JoinNext(g: Group, page: u16, inMouse: bool, start: nat, report: nat, i: nat, bit: nat)
    requires Writable(g) && Defines(g) && i < |g.targets| && bit == start + i * g.size
    requires var global, l, whole := GlobalOf(g, page), LocalOf(g.naming, g.targets), GroupFields(g, inMouse, start, report, |g.targets|);
             GroupFields(g, inMouse, start, report, i + 1)
             + InputFields(global, l, g.flags, inMouse, report, bit + g.size, i + 1) == whole
    ensures var global, l, whole := GlobalOf(g, page), LocalOf(g.naming, g.targets), GroupFields(g, inMouse, start, report, |g.targets|);
            GroupFields(g, inMouse, start, report, i) + InputFields(global, l, g.flags, inMouse, report, bit, i) == whole
  {
    NextSlot(g, page, inMouse, start, report, i, bit);
    Regroup(GroupFields(g, inMouse, start, report, i), SlotFields(g, inMouse, start, report, i),
            InputFields(GlobalOf(g, page), LocalOf(g.naming, g.targets), g.flags, inMouse, report, bit + g.size, i + 1),
            GroupFields(g, inMouse, start, report, |g.targets|));
  }

  lemma AllFields(g: Group, page: u16, inMouse: bool, start: nat, report: nat)
    requires Writable(g) && Defines(g)
    ensures InputFields(GlobalOf(g, page), LocalOf(g.naming, g.targets), g.flags, inMouse, report, start, 0)
            == GroupFields(g, inMouse, start, report, |g.targets|)
  {
    assert start + 0 * g.size == start;
    FieldsJoin(g, page, inMouse, start, report, 0, start);
    assert GroupFields(g, inMouse, start, report, 0) == [];
  }

  lemma {:induction false} NoFields(g: Group, inMouse: bool, start: nat, report: nat, n: nat)
    requires !Defines(g) && n <= |g.targets|
    ensures GroupFields(g, inMouse, start, report, n) == []
  {
    if n > 0 {
      NoFields(g, inMouse, start, report, n - 1);
    }
  }

  lemma {:induction false} OfReport(g: Group, inMouse: bool, start: nat, report: nat, n: nat)
    requires n <= |g.targets|
    ensures forall f :: f in GroupFields(g, inMouse, start, report, n) ==> f.report == report
  {
    if n > 0 {
      OfReport(g, inMouse, start, report, n - 1);
    }
  }

  // As many fields as there is room for are added.
  lemma {:induction false} AllAdded(m: Layout, fields: seq<Field>)
    requires |m.fields| <= MAX_FIELDS && forall f :: f in fields ==> f.report < |m.reports|
    ensures var r := AddAll(m, fields);
            if |m.fields| + |fields| <= MAX_FIELDS then r.status == Ok && r.layout.fields == m.fields + fields
            else r.status == E2big
    decreases |fields|
  {
    if fields != [] && |m.fields| < MAX_FIELDS {
      AllAdded(AddField(m, fields[0]).layout, fields[1..]);
      assert fields == [fields[0]] + fields[1..];
    }
  }

  // ---- The layout so far

  // The layout holds exactly the fields and the report sizes that have been described.
  ghost predicate Holds(m: Layout, es: seq<Element>) {
    && |m.reports| == |Ids(es)| && m.fields == FieldsOf(es)
    && forall r :: 0 <= r < |m.reports| ==> m.reports[r].id == Ids(es)[r] && m.reports[r].bits == BitsOf(es, Ids(es)[r])
  }

  lemma {:induction false} IdsDistinct(es: seq<Element>)
    ensures forall i, j :: 0 <= i < j < |Ids(es)| ==> Ids(es)[i] != Ids(es)[j]
  {
    if es != [] {
      IdsDistinct(es[..|es| - 1]);
    }
  }

  lemma {:induction false} NoBitsYet(es: seq<Element>, id: byte)
    requires id !in Ids(es)
    ensures BitsOf(es, id) == 0
  {
    if es != [] {
      NoBitsYet(es[..|es| - 1], id);
    }
  }

  lemma {:induction false} FindIsIndex(reports: seq<Report>, ids: seq<byte>, id: byte)
    requires |reports| == |ids| && forall r :: 0 <= r < |ids| ==> reports[r].id == ids[r]
    ensures FindReport(reports, id) == IndexOf(ids, id)
  {
    if ids != [] {
      FindIsIndex(reports[1..], ids[1..], id);
    }
  }

  lemma {:induction false} IndexOfAppended(ids: seq<byte>, id: byte)
    requires id !in ids
    ensures IndexOf(ids, id) == |ids| == IndexOf(ids + [id], id)
  {
  }

  // The elements end with this Input item.
  ghost predicate EndsWith(es: seq<Element>, g: Group) {
    es != [] && es[|es| - 1] == Input(g) && Writable(g)
  }

  // The reports with this item's bits counted, as `add_input` leaves them before it adds the fields.
  function Grown(m: Layout, g: Group): Layout {
    Lengthened(WithReport(m, g.id), FindReport(m.reports, g.id), g.size * |g.targets|)
  }

  // The item's report is there, its bits not yet counted.
  lemma ReportThere(m: Layout, es: seq<Element>, g: Group)
    requires EndsWith(es, g) && Holds(m, es[..|es| - 1])
    ensures var n := WithReport(m, g.id); var init := es[..|es| - 1];
            && |n.reports| == |Ids(es)| && FindReport(m.reports, g.id) == IndexOf(Ids(es), g.id) < |n.reports|
            && forall r :: 0 <= r < |n.reports| ==>
                 n.reports[r].id == Ids(es)[r] && n.reports[r].bits == BitsOf(init, Ids(es)[r])
  {
    var init := es[..|es| - 1];
    FindIsIndex(m.reports, Ids(init), g.id);
    if g.id !in Ids(init) {
      NoBitsYet(init, g.id);
      IndexOfAppended(Ids(init), g.id);
    }
  }

  lemma GrownHolds(m: Layout, es: seq<Element>, g: Group)
    requires EndsWith(es, g) && Holds(m, es[..|es| - 1])
    ensures var n := Grown(m, g);
            && |n.reports| == |Ids(es)| && n.fields == m.fields
            && FindReport(m.reports, g.id) == IndexOf(Ids(es), g.id) < |n.reports|
            && forall r :: 0 <= r < |n.reports| ==>
                 n.reports[r].id == Ids(es)[r] && n.reports[r].bits == BitsOf(es, Ids(es)[r])
  {
    ReportThere(m, es, g);
    IdsDistinct(es);
  }

  lemma CountFits(size: nat, n: nat)
    requires 1 <= size
    ensures size * n <= MAX_REPORT_BITS <==> n <= MAX_REPORT_BITS / size
  {
    var q := MAX_REPORT_BITS / size;
    assert q * size + MAX_REPORT_BITS % size == MAX_REPORT_BITS;
    if n > q {
      HidInvariant.AtLeastZero(n - q - 1, size);
      assert size * n == q * size + size + (n - q - 1) * size;
    } else {
      HidInvariant.AtLeastZero(q - n, size);
      assert q * size == size * n + (q - n) * size;
    }
  }

  // What `add_input` checks before it counts the bits.
  predicate Countable(es: seq<Element>, g: Group) {
    1 <= g.size <= 32 && g.targets != [] && BitsOf(es, g.id) <= MAX_REPORT_BITS && |Ids(es)| <= MAX_REPORTS
  }

  function AddIt(m: Layout, g: Group, page: u16, inMouse: bool): HidParser.Added
    requires Writable(g)
  {
    AddInput(m, GlobalOf(g, page), LocalOf(g.naming, g.targets), g.flags, inMouse)
  }

  lemma BitsLeft(m: Layout, es: seq<Element>, g: Group)
    requires EndsWith(es, g) && Holds(m, es[..|es| - 1])
    ensures var index, init := FindReport(m.reports, g.id), es[..|es| - 1];
            && index < |WithReport(m, g.id).reports| == |Ids(es)|
            && WithReport(m, g.id).reports[index].bits == BitsOf(init, g.id)
            && BitsOf(es, g.id) == BitsOf(init, g.id) + g.size * |g.targets|
            && (index == |m.reports| <==> |Ids(es)| > |m.reports|)
  {
    ReportThere(m, es, g);
    assert Ids(es)[IndexOf(Ids(es), g.id)] == g.id;
  }

  // Beyond the limits, the item is refused before its bits are counted.
  lemma NotCountable(m: Layout, es: seq<Element>, g: Group, page: u16, inMouse: bool)
    requires EndsWith(es, g) && Holds(m, es[..|es| - 1]) && !Countable(es, g) && |m.reports| <= MAX_REPORTS
    ensures AddIt(m, g, page, inMouse).status == E2big
  {
    BitsLeft(m, es, g);
    if 1 <= g.size {
      CountFits(g.size, |g.targets|);
    }
  }

  // Within them, its bits are counted, and it adds its fields, if it defines any.
  lemma IsCountable(m: Layout, es: seq<Element>, g: Group, page: u16, inMouse: bool)
    requires EndsWith(es, g) && Holds(m, es[..|es| - 1]) && Countable(es, g)
    ensures FindReport(m.reports, g.id) < |Grown(m, g).reports|
    ensures AddIt(m, g, page, inMouse)
            == if !Defines(g) then HidParser.Added(Ok, Grown(m, g))
               else AddFields(Grown(m, g), GlobalOf(g, page), LocalOf(g.naming, g.targets), g.flags, inMouse,
                              FindReport(m.reports, g.id), BitsOf(es[..|es| - 1], g.id), 0)
  {
    BitsLeft(m, es, g);
    CountFits(g.size, |g.targets|);
    FlagBits(g.flags);
  }

  lemma GroupAdds(m: Layout, g: Group, page: u16, inMouse: bool, index: nat, start: nat)
    requires Writable(g) && Defines(g) && index < |m.reports|
    ensures var fields := GroupFields(g, inMouse, start, index, |g.targets|);
            && (forall f :: f in fields ==> f.report < |m.reports|)
            && AddFields(m, GlobalOf(g, page), LocalOf(g.naming, g.targets), g.flags, inMouse, index, start, 0)
               == AddAll(m, fields)
  {
    OfReport(g, inMouse, start, index, |g.targets|);
    AllFields(g, page, inMouse, start, index);
  }

  lemma NothingAdds(m: Layout, g: Group, inMouse: bool, index: nat, start: nat)
    requires !Defines(g)
    ensures GroupFields(g, inMouse, start, index, |g.targets|) == []
    ensures AddAll(m, []) == HidParser.Added(Ok, m)
  {
    NoFields(g, inMouse, start, index, |g.targets|);
  }

  lemma NewFieldsAre(m: Layout, es: seq<Element>, g: Group)
    requires EndsWith(es, g) && Holds(m, es[..|es| - 1])
    ensures var init := es[..|es| - 1];
            NewFields(es) == GroupFields(g, InsideMouse(init), BitsOf(init, g.id), FindReport(m.reports, g.id), |g.targets|)
  {
    ReportThere(m, es, g);
  }

  // What the item adds to the layout so far.
  lemma AddedAre(m: Layout, es: seq<Element>, g: Group, page: u16)
    requires EndsWith(es, g) && Holds(m, es[..|es| - 1]) && Countable(es, g)
    ensures (forall f :: f in NewFields(es) ==> f.report < |Grown(m, g).reports|)
    ensures AddIt(m, g, page, InsideMouse(es[..|es| - 1])) == AddAll(Grown(m, g), NewFields(es))
  {
    var init := es[..|es| - 1];
    IsCountable(m, es, g, page, InsideMouse(init));
    NewFieldsAre(m, es, g);
    if Defines(g) {
      GroupAdds(Grown(m, g), g, page, InsideMouse(init), FindReport(m.reports, g.id), BitsOf(init, g.id));
    } else {
      NothingAdds(Grown(m, g), g, InsideMouse(init), FindReport(m.reports, g.id), BitsOf(init, g.id));
    }
  }

  /**
   An Input item of any kind adds exactly its fields behind all the bits that its report has had, constant and
   array items counted, and its own bits to the report; beyond the parser's limits it is refused.
   */
  lemma InputAdds(m: Layout, es: seq<Element>, g: Group, page: u16)
    requires EndsWith(es, g) && WellNamed(g) && Legal(es[..|es| - 1]) && Holds(m, es[..|es| - 1])
    ensures var r := AddIt(m, g, page, InsideMouse(es[..|es| - 1]));
            if Admitted(es) then r.status == Ok && Holds(r.layout, es) else r.status == E2big
  {
    LegalFits(es[..|es| - 1]);
    if !Countable(es, g) {
      NotCountable(m, es, g, page, InsideMouse(es[..|es| - 1]));
    } else {
      AddedAre(m, es, g, page);
      GrownHolds(m, es, g);
      AllAdded(Grown(m, g), NewFields(es));
      HidInvariant.AddAllShape(Grown(m, g), NewFields(es));
    }
  }

  lemma {:induction false} LegalFits(es: seq<Element>)
    requires Legal(es)
    ensures |Ids(es)| <= MAX_REPORTS && |FieldsOf(es)| <= MAX_FIELDS && |Enclosing(es)| <= STACK_DEPTH
  {
    if es != [] {
      LegalFits(es[..|es| - 1]);
    }
  }
}
