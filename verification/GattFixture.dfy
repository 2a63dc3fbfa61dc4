/** An M720: a peer with the fixture's report map, which the set-up brings to READY. */
module GattFixture {
  import opened Bits
  import opened Masks
  import opened HidMap
  import HidParser
  import HidDescribe
  import HidSummary
  import opened HidFixture
  import opened GattDiscovery
  import opened GattCoverage
  import opened GattSetup
  import opened GattSetupRuns
  import opened GattReferences
  import opened GattPeer
  import opened GattReady

  const MAP := Characteristic(10, 11, ReportMap, 2)
  const FIRST := Characteristic(12, 13, InputReport, 18)
  const SECOND := Characteristic(16, 17, InputReport, 18)
  const THIRD := Characteristic(20, 21, InputReport, 18)
  const MODE := Characteristic(24, 25, ProtocolMode, 6)
  const CONTROL := Characteristic(26, 27, ControlPoint, 4)

  function Listed(): seq<Characteristic> {
    [] + [MAP] + [FIRST] + [SECOND] + [THIRD] + [MODE] + [CONTROL]
  }

  // A reference and a configuration for each report.
  function Pair(after: Handle): seq<Descriptor>
    requires after < 100
  {
    [] + [Descriptor(after + 1, Reference)] + [Descriptor(after + 2, Ccc)]
  }

  function Descriptors(): seq<Descriptor> {
    Pair(13) + Pair(17) + Pair(21)
  }

  // The second report is the vendor's, which is of no use.
  function M720(reportMap: seq<byte>): Peer {
    Peer(9, 40, Listed(), Descriptors(), map[11 := reportMap, 14 := [7, 1], 18 := [0x11, 1], 22 := [0x2a, 1]], true)
  }

  lemma OneMoreListed(cs: seq<Characteristic>, c: Characteristic)
    ensures ReportPositions(cs + [c]) == ReportPositions(cs) + if c.kind == InputReport then [|cs|] else []
    ensures forall kind :: LastOf(cs + [c], kind) == if c.kind == kind then [c] else LastOf(cs, kind)
  {
    assert (cs + [c])[..|cs|] == cs;
  }

  lemma Positions()
    ensures ReportPositions(Listed()) == [1, 2, 3] && LastOf(Listed(), ReportMap) == [MAP]
  {
    var cs := [] + [MAP] + [FIRST] + [SECOND];
    FirstPositions();
    OneMoreListed(cs, THIRD);
    OneMoreListed(cs + [THIRD], MODE);
    OneMoreListed(cs + [THIRD] + [MODE], CONTROL);
  }

  lemma FirstPositions()
    ensures var cs := [] + [MAP] + [FIRST] + [SECOND]; ReportPositions(cs) == [1, 2] && LastOf(cs, ReportMap) == [MAP]
  {
    OneMoreListed([], MAP);
    OneMoreListed([] + [MAP], FIRST);
    OneMoreListed([] + [MAP] + [FIRST], SECOND);
  }

  lemma {:induction false} WithinJoins(a: seq<Descriptor>, b: seq<Descriptor>, kind: DescKind, after: Handle, end: int)
    ensures LastWithin(a + b, kind, after, end)
            == if LastWithin(b, kind, after, end) != 0 then LastWithin(b, kind, after, end) else LastWithin(a, kind, after, end)
  {
    if b == [] {
      assert a + b == a;
    } else {
      assert (a + b)[..|a + b| - 1] == a + b[..|b| - 1];
      WithinJoins(a, b[..|b| - 1], kind, after, end);
    }
  }

  // A pair lies within its own report only.
  lemma PairWithin(own: Handle, after: Handle, end: int)
    requires own < 100 && 0 < after < 100 && after + 2 <= end && (own <= after - 2 || own == after || end <= own)
    ensures LastWithin(Pair(own), Reference, after, end) == if own == after then after + 1 else 0
    ensures LastWithin(Pair(own), Ccc, after, end) == if own == after then after + 2 else 0
  {
    var one := [] + [Descriptor(own + 1, Reference)];
    OneWithin([], Descriptor(own + 1, Reference), Reference, after, end);
    OneWithin([], Descriptor(own + 1, Reference), Ccc, after, end);
    OneWithin(one, Descriptor(own + 2, Ccc), Reference, after, end);
    OneWithin(one, Descriptor(own + 2, Ccc), Ccc, after, end);
  }

  lemma OneWithin(ds: seq<Descriptor>, d: Descriptor, kind: DescKind, after: Handle, end: int)
    ensures LastWithin(ds + [d], kind, after, end)
            == if d.kind == kind && after < d.handle <= end then d.handle else LastWithin(ds, kind, after, end)
  {
    assert (ds + [d])[..|ds|] == ds;
  }

  lemma Within(after: Handle, end: int)
    requires (after, end) in {(13, 15), (17, 19), (21, 23)}
    ensures LastWithin(Descriptors(), Reference, after, end) == after + 1
    ensures LastWithin(Descriptors(), Ccc, after, end) == after + 2
  {
    PairWithin(13, after, end);
    PairWithin(17, after, end);
    PairWithin(21, after, end);
    WithinJoins(Pair(13), Pair(17), Reference, after, end);
    WithinJoins(Pair(13), Pair(17), Ccc, after, end);
    WithinJoins(Pair(13) + Pair(17), Pair(21), Reference, after, end);
    WithinJoins(Pair(13) + Pair(17), Pair(21), Ccc, after, end);
  }

  const REPORTS: seq<ReportHandles> := [ReportHandles(13, 15, 14, 15), ReportHandles(17, 19, 18, 19), ReportHandles(21, 23, 22, 23)]

  lemma InOrder()
    ensures Ordered(40, Listed())
  {
  }

  lemma ListedRight()
    ensures !NoteAll(40, Listed()).full && ReportPositions(Listed()) == [1, 2, 3]
    ensures NoteAll(40, Listed()).listing.map_ == 11
  {
    Positions();
    FullExactlyBeyondTwelve(40, Listed());
    HandlesFound(40, Listed());
  }

  lemma ReportFound(k: nat)
    requires k < 3
    ensures var reports := NoteAll(40, Listed()).listing.reports;
            |reports| == 3 && NoteDescriptors(reports, Descriptors())[k] == REPORTS[k]
  {
    InOrder();
    ListedRight();
    FullExactlyBeyondTwelve(40, Listed());
    DiscoveryFindsDescriptors(40, Listed(), Descriptors(), k);
    Within(REPORTS[k].handle, REPORTS[k].end);
  }

  lemma ReportsFound(reportMap: seq<byte>)
    ensures var peer := M720(reportMap);
            !NoteAll(40, Listed()).full && Full(peer).map_ == 11 && Full(peer).reports == REPORTS
  {
    ListedRight();
    ReportFound(0);
    ReportFound(1);
    ReportFound(2);
    assert Descriptors()[..|Descriptors()|] == Descriptors();
  }

  const IDS: seq<ReportId> := [ReportId(7, 1), ReportId(0x11, 1), ReportId(0x2a, 1)]

  lemma AllAreReferred(reportMap: seq<byte>)
    ensures AllRefer(M720(reportMap), IDS)
  {
    ReportsFound(reportMap);
  }

  // The layout of the fixture.
  ghost predicate OfFixture(layout: Layout) {
    && layout.fields == FIELDS && HidSummary.Tells(layout) && |layout.reports| == 3
    && layout.reports[0].id == 7 && layout.reports[1].id == 0x11 && layout.reports[2].id == 0x2a
  }

  lemma UsefulReports(layout: Layout)
    requires OfFixture(layout)
    ensures layout.reports[0].useful && !layout.reports[1].useful && layout.reports[2].useful
  {
    assert HidSummary.ReportTells(layout, 0) && HidSummary.ReportTells(layout, 1) && HidSummary.ReportTells(layout, 2);
    assert FIELDS[0].report == 0 && FIELDS[9].report == 2;
  }

  lemma ReportsAt(layout: Layout)
    requires OfFixture(layout)
    ensures FindReport(layout.reports, 7) == 0 && FindReport(layout.reports, 0x11) == 1 && FindReport(layout.reports, 0x2a) == 2
  {
  }

  lemma ChosenReports(layout: Layout)
    requires OfFixture(layout)
    ensures Chosen(layout, IDS, |IDS|) == [0, 2]
  {
    UsefulReports(layout);
    ReportsAt(layout);
    assert Chosen(layout, IDS, 1) == [0];
    assert Chosen(layout, IDS, 2) == [0];
  }

  lemma FieldsAreComplete()
    ensures Complete(FIELDS, [0, 2])
  {
    forall b: Button
      ensures ButtonIn(FIELDS, [0, 2], b)
    {
      assert FIELDS[b].button == b;
    }
    forall u: Usage | u != MouseButton
      ensures AxisIn(FIELDS, [0, 2], u)
    {
      var k := if u == MouseX then 5 else if u == MouseY then 6 else if u == MouseWheel then 7 else 8;
      assert FIELDS[k].usage == u;
    }
  }

  // Its summary is complete.
  lemma FixtureSummary(layout: Layout)
    requires OfFixture(layout)
    ensures layout.buttons == ALL_BUTTONS && layout.wheel && layout.pan
  {
    forall b: Button
      ensures Has(layout.buttons, b)
    {
      assert FIELDS[b].usage == MouseButton && FIELDS[b].button == b;
    }
    HasAllExactly(layout.buttons);
    assert FIELDS[7].usage == MouseWheel && FIELDS[8].usage == MousePan;
  }

  lemma FixtureLayout() returns (layout: Layout)
    ensures HidDescribe.AllWritable(FIXTURE) && OfFixture(layout) && Parsed(HidDescribe.Describe(FIXTURE), layout)
  {
    FixtureParses();
    layout := HidParser.Parse(HidDescribe.Describe(FIXTURE)).layout;
    FixtureSummary(layout);
  }

  lemma IsOne(reportMap: seq<byte>, layout: Layout)
    requires OfFixture(layout) && Parsed(reportMap, layout)
    ensures Good(M720(reportMap))
  {
    ReportsFound(reportMap);
    AllAreReferred(reportMap);
    ChosenReports(layout);
    FieldsAreComplete();
    assert IsM720(M720(reportMap), layout, IDS);
  }

  /** There is an M720: the set-up can bring this peer to READY. */
  lemma M720ReachesReady() returns (moves: seq<Move>)
    ensures HidDescribe.AllWritable(FIXTURE) && ReadyAt(M720(HidDescribe.Describe(FIXTURE)), moves)
  {
    var layout := FixtureLayout();
    var reportMap := HidDescribe.Describe(FIXTURE);
    IsOne(reportMap, layout);
    moves := ReachesReady(M720(reportMap), []);
    assert [] + moves == moves;
  }
}
