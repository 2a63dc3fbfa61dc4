/**
 Setting up one connection (src/ble_mouse.c): from service discovery to READY, one GATT request at a
 time, driven by the discovery worker and the response callbacks.
 */
module GattSetup {
  import opened Bits
  import opened Masks
  import opened HidMap
  import HidParser
  import opened GattDiscovery
  import opened GattCoverage

  const WRITE_WITHOUT_RESPONSE := 4
  const INPUT_TYPE: byte := 1

  datatype Stage = Service | Characteristics | Descriptors | MapStage | References | Protocol | Subscriptions | Ready
  {
    // The stages that go through the reports one by one.
    predicate OnReports() { this == References || this == Subscriptions }
  }

  // A request, with the handles that it names.
  datatype Request =
    | Discover(start: Handle, end: Handle)
    | Read(handle: Handle)
    | WriteProtocol(handle: Handle)
    | Subscribe(value: Handle, ccc: Handle)

  // A value written to the peer, with or without a response.
  datatype Write = Write(handle: Handle, value: byte, response: bool)

  const REPORT_PROTOCOL: byte := 1

  // The report reference of a characteristic, once read.
  datatype ReportId = ReportId(id: byte, kind: byte)

  datatype Setup = Setup(
    stage: Stage,
    failed: bool,
    serviceStart: Handle,
    serviceEnd: Handle,
    listing: Listing,
    ids: seq<ReportId>,              // one for each report of the listing
    index: nat,
    mapData: seq<byte>,
    reference: seq<byte>,
    layout: Layout,
    subscribed: nat,
    coveredButtons: bv8,
    coveredAxes: bv8,
    work: bool,                      // discovery_work is submitted
    outstanding: seq<Request>,       // requests whose response is awaited
    // History.
    operations: nat,
    writes: seq<Write>,
    sources: seq<nat>)               // the layout's reports that have been subscribed to

  const BEGIN := Setup(Service, false, 0, 0, NOTHING, [], 0, [], [], NO_LAYOUT, 0, 0, 0, true, [], 0, [], [])

  datatype Event =
    | Work(ok: bool, okAfter: bool, admitted: bool)     // the worker; what its GATT calls and the final admission answer
    | ServiceFound(declaration: Handle, end: Handle)
    | CharacteristicFound(c: Characteristic)
    | DescriptorFound(d: Descriptor)
    | DiscoveryEnded
    | ReadData(data: seq<byte>)
    | ReadEnded
    | Answered                                          // a write or subscription has succeeded
    | ErrorResponse
    | Abandoned                                         // a timeout, a disconnection or a Clear

  // The parsed map, and what has been subscribed of it, are the same.
  predicate SameLayout(s: Setup, r: Setup) {
    && r.layout == s.layout && r.mapData == s.mapData && r.sources == s.sources
    && r.coveredButtons == s.coveredButtons && r.coveredAxes == s.coveredAxes
  }

  function Fail(s: Setup): Setup {
    s.(failed := true)
  }

  function Next(s: Setup, stage: Stage): Setup {
    s.(stage := stage, work := true)
  }

  // One more operation; `awaits` lists the request whose response it awaits, if any.
  function Issue(s: Setup, ok: bool, awaits: seq<Request>): (r: Setup)
    ensures SameLayout(s, r)
  {
    var s := s.(operations := s.operations + 1);
    if ok then s.(outstanding := s.outstanding + awaits) else Fail(s)
  }

  // A write of the report protocol, alone or with a response to come.
  function IssueWrite(s: Setup, ok: bool, handle: Handle, response: bool): (r: Setup)
    ensures SameLayout(s, r)
  {
    var s := s.(writes := if ok then s.writes + [Write(handle, REPORT_PROTOCOL, response)] else s.writes);
    Issue(s, ok, if response then [WriteProtocol(handle)] else [])
  }

  // ---- The worker

  // The first report from `i` on that has a reference to read.
  function SkipUnreferenced(reports: seq<ReportHandles>, i: nat): (j: nat)
    requires i <= |reports|
    ensures i <= j <= |reports|
    ensures j < |reports| ==> reports[j].reference != 0
    decreases |reports| - i
  {
    if i < |reports| && reports[i].reference == 0 then SkipUnreferenced(reports, i + 1) else i
  }

  predicate Wanted(layout: Layout, r: ReportId) {
    var k := FindReport(layout.reports, r.id);
    r.kind == INPUT_TYPE && k < |layout.reports| && layout.reports[k].useful
  }

  function SkipUnwanted(layout: Layout, ids: seq<ReportId>, i: nat): (j: nat)
    requires i <= |ids|
    ensures i <= j <= |ids|
    ensures j < |ids| ==> Wanted(layout, ids[j])
    decreases |ids| - i
  {
    if i < |ids| && !Wanted(layout, ids[i]) then SkipUnwanted(layout, ids, i + 1) else i
  }

  // What the parser made of the report map; only the layout and the verdict change.
  function Adopt(s: Setup, parsed: HidParser.Added): (r: Setup)
    ensures r == s.(layout := parsed.layout, failed := r.failed) && (s.failed ==> r.failed)
  {
    var s := s.(layout := parsed.layout);
    if parsed.status != Ok || s.layout.buttons != ALL_BUTTONS || !s.layout.wheel || !s.layout.pan then Fail(s) else s
  }

  // Parses the report map the first time round; a layout without reports has not been parsed.
  function ParseOnce(s: Setup): (r: Setup)
    ensures r == s.(layout := r.layout, failed := r.failed) && (s.failed ==> r.failed)
  {
    if s.layout.reports != [] then s
    else if s.mapData == [] || |s.mapData| > MAX_MAP_BYTES then Fail(s)
    else Adopt(s, HidParser.Parse(s.mapData))
  }

  function WorkReferences(s: Setup, ok: bool): Setup
    requires s.index <= |s.listing.reports|
  {
    var s := ParseOnce(s);
    if s.failed then s
    else
      var s := s.(index := SkipUnreferenced(s.listing.reports, s.index));
      if s.index == |s.listing.reports| then Next(s.(index := 0), Protocol)
      else Issue(s.(reference := []), ok, [Read(s.listing.reports[s.index].reference)])
  }

  function WorkProtocol(s: Setup, ok: bool, okAfter: bool): (r: Setup)
    ensures SameLayout(s, r)
  {
    var s := if s.listing.control != 0 then IssueWrite(s, ok, s.listing.control, false) else s;
    if s.failed then s else ChooseReportProtocol(s, okAfter)
  }

  function ChooseReportProtocol(s: Setup, okAfter: bool): (r: Setup)
    ensures SameLayout(s, r)
  {
    if s.listing.protocol == 0 then Next(s, Subscriptions)
    else if s.listing.properties / WRITE_WITHOUT_RESPONSE % 2 == 1 then
      var s := IssueWrite(s, okAfter, s.listing.protocol, false);
      if s.failed then s else Next(s, Subscriptions)
    else IssueWrite(s, okAfter, s.listing.protocol, true)
  }

  // `finish_ready`; `admitted` is false when a new candidate is not bonded or cannot be saved.
  function Finish(s: Setup, admitted: bool): (r: Setup)
    ensures SameLayout(s, r)
  {
    if s.subscribed == 0 || s.coveredButtons != ALL_BUTTONS || s.coveredAxes != ALL_AXES || !admitted then Fail(s)
    else s.(stage := Ready)
  }

  function WorkSubscriptions(s: Setup, ok: bool, admitted: bool): (r: Setup)
    requires s.index <= |s.ids| == |s.listing.reports|
    ensures SameLayout(s, r)
  {
    var s := s.(index := SkipUnwanted(s.layout, s.ids, s.index));
    if s.index == |s.ids| then Finish(s, admitted)
    else if s.listing.reports[s.index].ccc == 0 then Fail(s)
    else Issue(s, ok, [Subscribe(s.listing.reports[s.index].handle, s.listing.reports[s.index].ccc)])
  }

  function DoWork(s: Setup, ok: bool, okAfter: bool, admitted: bool): Setup
    requires s.index <= |s.ids| == |s.listing.reports|
  {
    if !s.work then s
    else
      var s := s.(work := false);
      if s.failed then s
      else
        match s.stage
        case Service => Issue(s, ok, [Discover(1, 0xffff)])
        case Characteristics => Issue(s, ok, [Discover(s.serviceStart, s.serviceEnd)])
        case Descriptors => Issue(s, ok, [Discover(s.serviceStart, s.serviceEnd)])
        case MapStage => Issue(s, ok, [Read(s.listing.map_)])
        case References => WorkReferences(s, ok)
        case Protocol => WorkProtocol(s, ok, okAfter)
        case Subscriptions => WorkSubscriptions(s, ok, admitted)
        case Ready => s
  }

  // ---- Callbacks

  function OnCharacteristic(s: Setup, c: Characteristic): Setup {
    var noted := NoteCharacteristic(s.listing, s.serviceEnd, c);
    var s := s.(listing := noted.listing,
                ids := s.ids + if |noted.listing.reports| > |s.listing.reports| then [ReportId(0, 0)] else []);
    if noted.full then Fail(s).(outstanding := []) else s
  }

  function OnDiscoveryEnded(s: Setup): Setup {
    var s := s.(outstanding := []);
    match s.stage
    case Characteristics =>
      if s.listing.map_ == 0 || s.listing.reports == [] then Fail(s) else Next(s, Descriptors)
    case Descriptors => Next(s, MapStage)
    case _ => Fail(s)
  }

  function OnReadData(s: Setup, data: seq<byte>): Setup {
    if s.stage == MapStage then
      if |data| > MAX_MAP_BYTES - |s.mapData| then Fail(s).(outstanding := [])
      else s.(mapData := s.mapData + data)
    else if s.stage == References then
      if |data| > 2 - |s.reference| then Fail(s).(outstanding := []) else s.(reference := s.reference + data)
    else s
  }

  function OnReadEnded(s: Setup): Setup
    requires s.stage == References ==> s.index < |s.ids|
  {
    var s := s.(outstanding := []);
    if s.stage == MapStage then Next(s, References)
    else if s.stage == References then
      if |s.reference| != 2 then Fail(s)
      else s.(ids := s.ids[s.index := ReportId(s.reference[0], s.reference[1])], index := s.index + 1, work := true)
    else s
  }

  function OnSubscribed(s: Setup): Setup
    requires s.index < |s.ids|
  {
    var k := FindReport(s.layout.reports, s.ids[s.index].id);
    s.(outstanding := [], coveredButtons := MarkButtons(s.coveredButtons, s.layout.fields, k),
       coveredAxes := MarkAxes(s.coveredAxes, s.layout.fields, k),
       subscribed := s.subscribed + 1, index := s.index + 1, work := true, sources := s.sources + [k])
  }

  // ---- Steps

  predicate Discovering(s: Setup) {
    s.outstanding != [] && s.outstanding[0].Discover?
  }

  predicate Reading(s: Setup) {
    s.outstanding != [] && s.outstanding[0].Read?
  }

  predicate Writing(s: Setup) {
    s.outstanding != [] && s.outstanding[0].WriteProtocol?
  }

  predicate Subscribing(s: Setup) {
    s.outstanding != [] && s.outstanding[0].Subscribe?
  }

  // A callback runs only for the request it answers.
  predicate Answers(s: Setup, e: Event) {
    match e
    case Work(_, _, _) => true
    case ServiceFound(_, _) => Discovering(s) && s.stage == Service
    case CharacteristicFound(_) => Discovering(s) && s.stage == Characteristics
    case DescriptorFound(_) => Discovering(s) && s.stage == Descriptors
    case DiscoveryEnded => Discovering(s)
    case ReadData(_) => Reading(s)
    case ReadEnded => Reading(s)
    case Answered => Writing(s) || Subscribing(s)
    case ErrorResponse => s.outstanding != [] && !Discovering(s)
    case Abandoned => true
  }

  function Callback(s: Setup, e: Event): Setup
    requires Inv(s) && Answers(s, e) && !s.failed && !e.Work?
  {
    match e
    case ServiceFound(declaration, end) =>
      Next(s.(serviceStart := (declaration + 1) % 0x1_0000, serviceEnd := end, outstanding := []), Characteristics)
    case CharacteristicFound(c) => OnCharacteristic(s, c)
    case DescriptorFound(d) => s.(listing := s.listing.(reports := NoteDescriptor(s.listing.reports, d)))
    case DiscoveryEnded => OnDiscoveryEnded(s)
    case ReadData(data) => OnReadData(s, data)
    case ReadEnded => OnReadEnded(s)
    case Answered =>
      if Writing(s) then Next(s.(outstanding := []), Subscriptions) else OnSubscribed(s)
    case ErrorResponse => Fail(s).(outstanding := [])
    case Abandoned => Fail(s)
  }

  function Step(s: Setup, e: Event): Setup
    requires Inv(s)
  {
    if !Answers(s, e) then s
    else if e.Work? then DoWork(s, e.ok, e.okAfter, e.admitted)
    else if s.failed then s
    else Callback(s, e)
  }

  // ---- Invariants

  // The request that the stage makes now.
  function RequestOf(s: Setup): seq<Request>
    requires s.stage.OnReports() ==> s.index < |s.listing.reports|
  {
    match s.stage
    case Service => [Discover(1, 0xffff)]
    case Characteristics => [Discover(s.serviceStart, s.serviceEnd)]
    case Descriptors => [Discover(s.serviceStart, s.serviceEnd)]
    case MapStage => [Read(s.listing.map_)]
    case References => [Read(s.listing.reports[s.index].reference)]
    case Protocol => [WriteProtocol(s.listing.protocol)]
    case Subscriptions => [Subscribe(s.listing.reports[s.index].handle, s.listing.reports[s.index].ccc)]
    case Ready => []
  }

  // Either the worker is due, or exactly the stage's own request is awaited.
  predicate Alternates(s: Setup) {
    if s.work then s.outstanding == []
    else (s.stage.OnReports() ==> s.index < |s.listing.reports|) && s.outstanding == RequestOf(s)
  }

  // Operations that may still be issued before READY.
  function Left(s: Setup): int {
    var work, remaining := if s.work then 1 else 0, |s.ids| - s.index;
    match s.stage
    case Service => 29 + work
    case Characteristics => 28 + work
    case Descriptors => 27 + work
    case MapStage => 26 + work
    case References => 13 + work + remaining
    case Protocol => 12 + 2 * work
    case Subscriptions => remaining + work - 1
    case Ready => 0
  }

  ghost predicate Inv(s: Setup) {
    && |s.ids| == |s.listing.reports| <= MAX_CHARACTERISTICS
    && s.index <= |s.ids| && |s.mapData| <= MAX_MAP_BYTES && |s.reference| <= 2
    && (s.stage != Ready && !s.stage.OnReports() ==> s.index == 0)
    && |s.outstanding| <= 1 && s.operations <= 30
    && (!s.failed ==> Alternates(s) && s.operations + Left(s) <= 30)
    && (s.stage.OnReports() && s.outstanding != [] ==> s.index < |s.ids|)
    && s.subscribed == |s.sources|
  }
}
