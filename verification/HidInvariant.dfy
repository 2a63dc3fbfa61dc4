/** What every layout has in common, however far its descriptor was parsed. */
module HidInvariant {
  import opened Bits
  import opened Masks
  import opened HidMap
  import opened HidParser

  // Same reports as far as ids and sizes go.
  ghost predicate SameShape(a: seq<Report>, b: seq<Report>) {
    |a| == |b| && forall k :: 0 <= k < |a| ==> a[k].id == b[k].id && a[k].bits == b[k].bits
  }

  ghost predicate ShapeOk(reports: seq<Report>) {
    && |reports| <= MAX_REPORTS && DistinctIds(reports)
    && forall k :: 0 <= k < |reports| ==> reports[k].bits <= MAX_REPORT_BITS
  }

  ghost predicate FieldsOk(m: Layout) {
    && |m.fields| <= MAX_FIELDS
    && (forall k :: 0 <= k < |m.fields| ==> FieldFits(m.fields[k], m.reports))
    && Increasing(m.fields)
  }

  lemma WellFormedParts(m: Layout)
    ensures WellFormed(m) <==> ShapeOk(m.reports) && FieldsOk(m)
  {
  }

  // Every field of report `r` ends by bit `end`.
  ghost predicate FilledTo(fields: seq<Field>, r: nat, end: nat) {
    forall k :: 0 <= k < |fields| && fields[k].report == r ==> fields[k].bit + fields[k].size <= end
  }

  lemma AppendKeeps(fields: seq<Field>, reports: seq<Report>, f: Field)
    requires forall k :: 0 <= k < |fields| ==> FieldFits(fields[k], reports)
    requires Increasing(fields) && FieldFits(f, reports) && FilledTo(fields, f.report, f.bit)
    ensures forall k :: 0 <= k < |fields + [f]| ==> FieldFits((fields + [f])[k], reports)
    ensures Increasing(fields + [f]) && FilledTo(fields + [f], f.report, f.bit + f.size)
  {
  }

  lemma SameShapeKeeps(a: seq<Report>, b: seq<Report>)
    requires SameShape(a, b) && ShapeOk(b)
    ensures ShapeOk(a)
    ensures forall f: Field :: FieldFits(f, b) ==> FieldFits(f, a)
  {
  }

  lemma AddFieldKeeps(m: Layout, f: Field)
    requires ShapeOk(m.reports) && FieldsOk(m) && FieldFits(f, m.reports) && FilledTo(m.fields, f.report, f.bit)
    ensures var r := AddField(m, f).layout;
            && ShapeOk(r.reports) && FieldsOk(r) && SameShape(r.reports, m.reports)
            && FilledTo(r.fields, f.report, f.bit + f.size)
  {
    var r := AddField(m, f).layout;
    if |m.fields| < MAX_FIELDS {
      AddedShape(m, f);
      SameShapeKeeps(r.reports, m.reports);
      AppendKeeps(m.fields, m.reports, f);
    }
  }

  lemma AddedShape(m: Layout, f: Field)
    requires f.report < |m.reports| && |m.fields| < MAX_FIELDS
    ensures var r := AddField(m, f).layout; SameShape(r.reports, m.reports) && r.fields == m.fields + [f]
  {
  }

  lemma InputFieldPlace(g: Global, l: Local, flags: u32, inMouse: bool, report: nat, bit: nat, i: nat)
    ensures var field := InputField(g, l, flags, inMouse, report, bit, i);
            field != [] ==> |field| == 1 && field[0].bit == bit && field[0].size == g.size && field[0].report == report
  {
  }

  lemma FilledFurther(fields: seq<Field>, r: nat, end: nat, further: nat)
    requires FilledTo(fields, r, end) && end <= further
    ensures FilledTo(fields, r, further)
  {
  }

  // One usage of an Input item, with its field at `bit`, keeps the layout well formed.
  lemma AddUsageKeeps(m: Layout, g: Global, l: Local, flags: u32, inMouse: bool, report: nat, bit: nat, i: nat)
    requires ShapeOk(m.reports) && FieldsOk(m)
    requires 1 <= g.size <= 32 && report < |m.reports| && bit + g.size <= m.reports[report].bits
    requires FilledTo(m.fields, report, bit)
    ensures var r := AddUsage(m, g, l, flags, inMouse, report, bit, i).layout;
            && ShapeOk(r.reports) && FieldsOk(r) && SameShape(r.reports, m.reports)
            && FilledTo(r.fields, report, bit + g.size)
  {
    InputFieldPlace(g, l, flags, inMouse, report, bit, i);
    var field := InputField(g, l, flags, inMouse, report, bit, i);
    if field == [] {
      FilledFurther(m.fields, report, bit, bit + g.size);
    } else {
      AddFieldKeeps(m, field[0]);
    }
  }

  lemma {:induction false} AddFieldsKeeps(m: Layout, g: Global, l: Local, flags: u32, inMouse: bool,
                                          report: nat, bit: nat, i: nat)
    requires ShapeOk(m.reports) && FieldsOk(m)
    requires 1 <= g.size <= 32 && report < |m.reports| && i <= g.count
    requires bit + (g.count - i) * g.size <= m.reports[report].bits
    requires FilledTo(m.fields, report, bit)
    ensures var r := AddFields(m, g, l, flags, inMouse, report, bit, i).layout;
            ShapeOk(r.reports) && FieldsOk(r)
    decreases g.count - i
  {
    if i < g.count {
      AddFieldsNext(m, g, l, flags, inMouse, report, bit, i);
      NextProduct(g.count - i - 1, g.size);
      AtLeastZero(g.count - i - 1, g.size);
      AddUsageKeeps(m, g, l, flags, inMouse, report, bit, i);
      var added := AddUsage(m, g, l, flags, inMouse, report, bit, i);
      if added.status == Ok {
        AddFieldsKeeps(added.layout, g, l, flags, inMouse, report, bit + g.size, i + 1);
      }
    }
  }

  lemma {:induction false} AddAllShape(m: Layout, fields: seq<Field>)
    requires forall f :: f in fields ==> f.report < |m.reports|
    ensures SameShape(AddAll(m, fields).layout.reports, m.reports)
    decreases |fields|
  {
    if fields != [] && AddField(m, fields[0]).status == Ok {
      AddAllShape(AddField(m, fields[0]).layout, fields[1..]);
    }
  }

  lemma AtLeastZero(n: nat, size: nat)
    ensures n * size >= 0
  {
  }

  lemma AddAllFieldsKeeps(m: Layout, g: Global, l: Local, flags: u32, inMouse: bool, report: nat, start: nat)
    requires ShapeOk(m.reports) && FieldsOk(m) && 1 <= g.size <= 32 && report < |m.reports|
    requires start + g.size * g.count <= m.reports[report].bits && FilledTo(m.fields, report, start)
    ensures var r := AddFields(m, g, l, flags, inMouse, report, start, 0).layout; ShapeOk(r.reports) && FieldsOk(r)
  {
    assert (g.count - 0) * g.size == g.size * g.count;
    AddFieldsKeeps(m, g, l, flags, inMouse, report, start, 0);
  }

  lemma AddInputKeepsParts(m: Layout, g: Global, l: Local, flags: u32, inMouse: bool)
    requires ShapeOk(m.reports) && FieldsOk(m)
    ensures var r := AddInput(m, g, l, flags, inMouse).layout; ShapeOk(r.reports) && FieldsOk(r)
  {
    if g.count != 0 && g.size != 0 && g.size <= 32 && g.count <= MAX_REPORT_BITS / g.size {
      var index := FindReport(m.reports, g.id);
      if index < |m.reports| || |m.reports| < MAX_REPORTS {
        var m1 := WithReport(m, g.id);
        NewReportKeeps(m, g.id);
        var start, bits := m1.reports[index].bits, g.size * g.count;
        if bits <= MAX_REPORT_BITS - start {
          var m2 := Lengthened(m1, index, bits);
          GrowReportKeeps(m1, index, bits);
          if BitOf(flags, 0) == 0 && BitOf(flags, 1) == 1 {
            AddAllFieldsKeeps(m2, g, l, flags, inMouse, index, start);
          }
        }
      }
    }
  }

  lemma AddInputKeeps(m: Layout, g: Global, l: Local, flags: u32, inMouse: bool)
    requires WellFormed(m)
    ensures WellFormed(AddInput(m, g, l, flags, inMouse).layout)
  {
    WellFormedParts(m);
    AddInputKeepsParts(m, g, l, flags, inMouse);
    WellFormedParts(AddInput(m, g, l, flags, inMouse).layout);
  }

  lemma NewReportKeeps(m: Layout, id: byte)
    requires ShapeOk(m.reports) && FieldsOk(m)
    ensures FindReport(m.reports, id) < |m.reports| || |m.reports| < MAX_REPORTS ==>
              ShapeOk(WithReport(m, id).reports) && FieldsOk(WithReport(m, id))
  {
  }

  lemma GrowReportKeeps(m: Layout, index: nat, bits: nat)
    requires ShapeOk(m.reports) && FieldsOk(m) && index < |m.reports| && m.reports[index].bits + bits <= MAX_REPORT_BITS
    ensures var r := Lengthened(m, index, bits);
            ShapeOk(r.reports) && FieldsOk(r) && FilledTo(r.fields, index, m.reports[index].bits)
            && r.reports[index].bits == m.reports[index].bits + bits
  {
  }

  lemma ItemKeeps(p: Parser, item: Framed)
    requires WellFormed(p.layout) && (item.Long? || (item.Short? && |item.data| in {0, 1, 2, 4}))
    ensures match Item(p, item)
            case Going(q) => WellFormed(q.layout)
            case Stopped(_, layout) => WellFormed(layout)
  {
    if item.Short? && item.kind == 0 && item.tag == 8 {
      AddInputKeeps(p.layout, p.global, p.local, Value(item.data), InMouse(p));
    }
  }

  /** Every byte string, accepted or rejected part-way, yields a well-formed layout. */
  lemma {:induction false} ParseWellFormed(rest: seq<byte>, p: Parser)
    requires WellFormed(p.layout)
    ensures WellFormed(ParseFrom(rest, p).layout)
    decreases |rest|
  {
    if rest != [] && !Frame(rest).Truncated? {
      ItemKeeps(p, Frame(rest));
      var next := Item(p, Frame(rest));
      if next.Going? {
        ParseWellFormed(rest[Frame(rest).used..], next.parser);
      }
    }
  }
}
