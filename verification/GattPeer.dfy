/**
 Setting up a peer that answers what it is asked (src/ble_mouse.c): it is brought to READY exactly if it is
 an M720, whatever the parts in which its answers arrive.
 */
module GattPeer {
  import opened Bits
  import opened HidMap
  import opened GattDiscovery
  import opened GattCoverage
  import opened GattSetup
  import opened GattSetupRuns
  import opened GattReferences

  // What the peer lists of its HID service, the values that can be read, and whether it may be adopted: a
  // candidate that is bonded and can be saved, or the saved mouse.
  datatype Peer = Peer(
    service: Handle,
    end: Handle,
    cs: seq<Characteristic>,
    ds: seq<Descriptor>,
    values: map<Handle, seq<byte>>,
    admitted: bool)

  // ---- A conversation

  // The worker runs, the peer tells the next part of its answer, of so many bytes, or it has told all.
  datatype Move = Works | Tells(n: nat) | Ends

  datatype Reply = Silent | Says(event: Event)

  function Start(peer: Peer): Handle {
    (peer.service + 1) % 0x1_0000
  }

  // What is asked of the HID service as it was found.
  predicate AsksService(peer: Peer, request: Request) {
    request == Discover(Start(peer), peer.end)
  }

  function Part(peer: Peer, s: Setup, told: nat, n: nat): Reply
    requires s.outstanding != []
  {
    match s.outstanding[0]
    case Discover(start, end) =>
      if s.stage == Service && (start, end) == (1, 0xffff) then Says(ServiceFound(peer.service, peer.end))
      else if s.stage == Characteristics && AsksService(peer, s.outstanding[0]) && told < |peer.cs| then
        Says(CharacteristicFound(peer.cs[told]))
      else if s.stage == Descriptors && AsksService(peer, s.outstanding[0]) && told < |peer.ds| then
        Says(DescriptorFound(peer.ds[told]))
      else Silent
    case Read(h) =>
      if h in peer.values && told + n <= |peer.values[h]| then Says(ReadData(peer.values[h][told..told + n])) else Silent
    case _ => Silent
  }

  function End(peer: Peer, s: Setup, told: nat): Reply
    requires s.outstanding != []
  {
    match s.outstanding[0]
    case Discover(_, _) =>
      if s.stage == Characteristics && told == |peer.cs| then Says(DiscoveryEnded)
      else if s.stage == Descriptors && told == |peer.ds| then Says(DiscoveryEnded)
      else Silent
    case Read(h) => if h in peer.values && told == |peer.values[h]| then Says(ReadEnded) else Silent
    case _ => Says(Answered)
  }

  function ReplyOf(peer: Peer, s: Setup, told: nat, m: Move): Reply {
    if m.Works? then Says(Work(true, true, peer.admitted))
    else if s.outstanding == [] then Silent
    else if m.Tells? then Part(peer, s, told, m.n)
    else End(peer, s, told)
  }

  // How much of the answer to the present request has been told.
  function ToldAfter(s: Setup, told: nat, m: Move): nat {
    match m
    case Works => if s.work then 0 else told
    case Tells(n) => if Reading(s) then told + n else told + 1
    case Ends => 0
  }

  ghost function Said(peer: Peer, s: Setup, told: nat, m: Move): (r: Setup)
    requires Inv(s)
    ensures Inv(r)
  {
    match ReplyOf(peer, s, told, m)
    case Silent => s
    case Says(e) => StepKeepsInv(s, e); Step(s, e)
  }

  datatype Talk = Talk(events: seq<Event>, told: nat)

  ghost function Talks(peer: Peer, moves: seq<Move>): Talk {
    if moves == [] then Talk([], 0)
    else
      var t, m := Talks(peer, moves[..|moves| - 1]), moves[|moves| - 1];
      var s := Run(t.events);
      match ReplyOf(peer, s, t.told, m)
      case Silent => t
      case Says(e) => Talk(t.events + [e], ToldAfter(s, t.told, m))
  }

  ghost function Reached(peer: Peer, moves: seq<Move>): (s: Setup)
    ensures Inv(s)
  {
    Run(Talks(peer, moves).events)
  }

  // ---- What the peer is

  function WithDescriptors(peer: Peer, n: nat): Listing
    requires n <= |peer.ds|
  {
    var l := NoteAll(peer.end, peer.cs).listing;
    l.(reports := NoteDescriptors(l.reports, peer.ds[..n]))
  }

  function Full(peer: Peer): Listing {
    WithDescriptors(peer, |peer.ds|)
  }

  // What the reference of a report says: its id and type, or nothing if it has no reference.
  ghost predicate Refers(peer: Peer, r: ReportHandles, id: ReportId) {
    if r.reference == 0 then id == UNREAD
    else
      && r.reference in peer.values && |peer.values[r.reference]| == 2
      && id == ReportId(peer.values[r.reference][0], peer.values[r.reference][1])
  }

  ghost predicate AllRefer(peer: Peer, ids: seq<ReportId>) {
    |ids| == |Full(peer).reports| && forall k :: 0 <= k < |ids| ==> Refers(peer, Full(peer).reports[k], ids[k])
  }

  // Every report that is wanted can be subscribed to.
  ghost predicate AllConfigurable(peer: Peer, layout: Layout, ids: seq<ReportId>) {
    |ids| == |Full(peer).reports|
    && forall k :: 0 <= k < |ids| && Wanted(layout, ids[k]) ==> Full(peer).reports[k].ccc != 0
  }

  // It lists a report map and one to twelve reports; the map is accepted; every reference has its two bytes;
  // the input reports with a use have a client configuration, and together all five buttons and four axes.
  ghost predicate IsM720(peer: Peer, layout: Layout, ids: seq<ReportId>) {
    && !NoteAll(peer.end, peer.cs).full && Full(peer).map_ != 0 && Full(peer).reports != []
    && Full(peer).map_ in peer.values && Parsed(peer.values[Full(peer).map_], layout)
    && AllRefer(peer, ids) && AllConfigurable(peer, layout, ids)
    && Complete(layout.fields, Chosen(layout, ids, |ids|)) && peer.admitted
  }

  ghost predicate Good(peer: Peer) {
    exists layout, ids :: IsM720(peer, layout, ids)
  }
}
