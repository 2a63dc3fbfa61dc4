/** The report layout that the descriptor parser produces (include/ble_mouse/hid_parser.h). */
module HidMap {
  import opened Bits
  import opened Masks

  const MAX_REPORTS := 8
  const MAX_FIELDS := 48
  const MAX_REPORT_BITS := 512      // 64 bytes
  const MAX_MAP_BYTES := 1024

  datatype Status = Ok | Einval | E2big | Enotsup | Enoent | Emsgsize

  datatype Usage = MouseX | MouseY | MouseWheel | MousePan | MouseButton

  datatype Field = Field(bit: nat, size: nat, report: nat, usage: Usage, button: Button, isSigned: bool)

  datatype Report = Report(id: byte, bits: nat, buttons: bv8, useful: bool)

  datatype Layout = Layout(
    reports: seq<Report>, fields: seq<Field>, buttons: bv8, x: bool, y: bool, wheel: bool, pan: bool)

  const NO_LAYOUT := Layout([], [], 0, false, false, false, false)

  // The first report with this id, or the number of reports.
  function FindReport(reports: seq<Report>, id: byte): (i: nat)
    ensures i <= |reports|
    ensures i < |reports| ==> reports[i].id == id
    ensures forall k :: 0 <= k < i ==> reports[k].id != id
  {
    if reports == [] then 0
    else if reports[0].id == id then 0
    else 1 + FindReport(reports[1..], id)
  }

  /** `mouse_hid_report_index`; `none` stands for -ENOENT. */
  method ReportIndex(reports: seq<Report>, id: byte) returns (i: nat, none: bool)
    ensures i == FindReport(reports, id) && (none <==> i == |reports|)
  {
    i := 0;
    while i < |reports|
      invariant 0 <= i <= |reports|
      invariant i + FindReport(reports[i..], id) == FindReport(reports, id)
    {
      if reports[i].id == id {
        return i, false;
      }
      i := i + 1;
    }
    none := true;
  }

  // ---- Well-formedness

  ghost predicate DistinctIds(reports: seq<Report>) {
    forall i, j :: 0 <= i < j < |reports| ==> reports[i].id != reports[j].id
  }

  ghost predicate FieldFits(f: Field, reports: seq<Report>) {
    1 <= f.size <= 32 && f.report < |reports| && f.bit + f.size <= reports[f.report].bits
  }

  ghost predicate Increasing(fields: seq<Field>) {
    forall i, j :: 0 <= i < j < |fields| && fields[i].report == fields[j].report ==>
      fields[i].bit + fields[i].size <= fields[j].bit
  }

  ghost predicate WellFormed(m: Layout) {
    && |m.reports| <= MAX_REPORTS
    && |m.fields| <= MAX_FIELDS
    && DistinctIds(m.reports)
    && (forall r :: r in m.reports ==> r.bits <= MAX_REPORT_BITS)
    && (forall f :: f in m.fields ==> FieldFits(f, m.reports))
    && Increasing(m.fields)
  }
}
