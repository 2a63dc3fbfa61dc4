/** What a conversation with an answering peer has brought the set-up to, stage by stage. */
module GattTalk {
  import opened Bits
  import opened HidMap
  import opened GattDiscovery
  import opened GattSetup
  import opened GattSetupRuns
  import opened GattReferences
  import opened GattPeer

  // ---- The listing

  ghost predicate Listable(peer: Peer) {
    var noted := NoteAll(peer.end, peer.cs);
    !noted.full && noted.listing.map_ != 0 && noted.listing.reports != []
  }

  ghost predicate InService(peer: Peer, s: Setup) {
    s.serviceStart == Start(peer) && s.serviceEnd == peer.end
  }

  // What has been told of the answer that is under way.
  function Heard(s: Setup, told: nat): nat {
    if s.work then 0 else told
  }

  ghost predicate Listed(peer: Peer, s: Setup, told: nat) {
    var n := Heard(s, told);
    match s.stage
    case Service => s.listing == NOTHING
    case Characteristics =>
      InService(peer, s) && n <= |peer.cs| && NoteAll(peer.end, peer.cs[..n]) == Noted(false, s.listing)
    case Descriptors =>
      InService(peer, s) && n <= |peer.ds| && Listable(peer) && s.listing == WithDescriptors(peer, n)
    case _ => Listable(peer) && s.listing == Full(peer)
  }

  // ---- The values read

  // What has arrived of the value that is being read.
  function Arrived(s: Setup): seq<byte> {
    if s.stage == MapStage then s.mapData else s.reference
  }

  ghost predicate ReadSoFar(peer: Peer, s: Setup, told: nat) {
    Reading(s) ==>
      var h := s.outstanding[0].handle;
      if h in peer.values then told <= |peer.values[h]| && Arrived(s) == peer.values[h][..told] else told == 0 && Arrived(s) == []
  }

  ghost predicate MapRead(peer: Peer, s: Setup) {
    if !Early(s.stage) then Full(peer).map_ in peer.values && s.mapData == peer.values[Full(peer).map_]
    else s.stage != MapStage || s.work ==> s.mapData == []
  }

  // Each report that has been gone through is known by its reference, the others by nothing.
  ghost predicate IdsRead(peer: Peer, s: Setup)
    requires Inv(s)
  {
    forall k :: 0 <= k < |s.ids| ==>
      if Early(s.stage) || (s.stage == References && k >= s.index) then s.ids[k] == UNREAD
      else Refers(peer, s.listing.reports[k], s.ids[k])
  }

  // ---- The subscriptions

  ghost predicate Configured(peer: Peer, s: Setup)
    requires Inv(s)
  {
    && (s.stage == Subscriptions || s.stage == Ready ==>
          forall k :: 0 <= k < |s.ids| && (s.stage == Ready || k < s.index) && Wanted(s.layout, s.ids[k]) ==>
            s.listing.reports[k].ccc != 0)
    && (s.stage == Subscriptions && !s.work && s.index < |s.ids| ==> s.listing.reports[s.index].ccc != 0)
    && (s.stage == Ready ==> peer.admitted)
  }

  ghost predicate Follows(peer: Peer, s: Setup, told: nat)
    requires Inv(s)
  {
    Listed(peer, s, told) && ReadSoFar(peer, s, told) && MapRead(peer, s) && IdsRead(peer, s) && Configured(peer, s)
  }

  // What a step from here keeps.
  ghost predicate GoesOn(peer: Peer, r: Setup, told: nat) {
    Inv(r) && (!r.failed ==> Follows(peer, r, told))
  }

  // ---- The worker

  lemma EarlyWorks(peer: Peer, s: Setup, told: nat)
    requires Inv(s) && s.work && !s.failed && Early(s.stage) && Follows(peer, s, told)
    ensures GoesOn(peer, DoWork(s, true, true, peer.admitted), 0)
  {
    WorkAdvances(s, true, true, peer.admitted);
  }

  // The reports gone through without a reference are known by nothing.
  lemma SkippedRefer(peer: Peer, s: Setup, now: Setup)
    requires Called(s, now) && s.stage == References && IdsRead(peer, s)
    ensures forall k :: 0 <= k < |s.ids| ==>
              if k >= SkipUnreferenced(s.listing.reports, s.index) then s.ids[k] == UNREAD
              else Refers(peer, s.listing.reports[k], s.ids[k])
  {
    forall k | s.index <= k < SkipUnreferenced(s.listing.reports, s.index)
      ensures s.listing.reports[k].reference == 0
    {
      Skipped(s.listing.reports, s.index, k);
    }
  }

  lemma ReferencesIds(peer: Peer, s: Setup, now: Setup)
    requires Called(s, now) && s.stage == References && IdsRead(peer, s)
    ensures var r := WorkReferences(now, true); Inv(r) && (!r.failed ==> IdsRead(peer, r))
  {
    ReferencesAdvance(s, now, true);
    ReferencesLayout(s, now, true);
    SkippedRefer(peer, s, now);
  }

  lemma ReferencesRest(peer: Peer, s: Setup, now: Setup, told: nat)
    requires Called(s, now) && s.stage == References && Follows(peer, s, told)
    ensures var r := WorkReferences(now, true);
            Inv(r) && (!r.failed ==> Listed(peer, r, 0) && ReadSoFar(peer, r, 0) && MapRead(peer, r) && Configured(peer, r))
  {
    ReferencesAdvance(s, now, true);
    ReferencesLayout(s, now, true);
  }

  lemma ReferencesWorks(peer: Peer, s: Setup, told: nat)
    requires Inv(s) && s.work && !s.failed && s.stage == References && Follows(peer, s, told)
    ensures GoesOn(peer, DoWork(s, true, true, peer.admitted), 0)
  {
    ReferencesIds(peer, s, s.(work := false));
    ReferencesRest(peer, s, s.(work := false), told);
  }

  lemma ProtocolWorks(peer: Peer, s: Setup, told: nat)
    requires Inv(s) && s.work && !s.failed && s.stage == Protocol && Follows(peer, s, told)
    ensures GoesOn(peer, DoWork(s, true, true, peer.admitted), 0)
  {
    WorkAdvances(s, true, true, peer.admitted);
    ProtocolStage(s, s.(work := false), true, true);
    ProtocolSame(s.(work := false), true, true);
  }

  lemma {:induction false} SkippedUnwanted(layout: Layout, ids: seq<ReportId>, i: nat, k: nat)
    requires i <= |ids| && i <= k < SkipUnwanted(layout, ids, i)
    ensures k < |ids| && !Wanted(layout, ids[k])
    decreases |ids| - i
  {
    if i < k {
      SkippedUnwanted(layout, ids, i + 1, k);
    }
  }

  lemma SkippedConfigured(peer: Peer, s: Setup, now: Setup)
    requires Called(s, now) && s.stage == Subscriptions && Configured(peer, s)
    ensures var r := WorkSubscriptions(now, true, peer.admitted); Inv(r) && (!r.failed ==> Configured(peer, r))
  {
    SubscriptionsAdvance(s, now, true, peer.admitted);
    SubscriptionsStage(s, now, true, peer.admitted);
    forall k | s.index <= k < SkipUnwanted(s.layout, s.ids, s.index)
      ensures !Wanted(s.layout, s.ids[k])
    {
      SkippedUnwanted(s.layout, s.ids, s.index, k);
    }
  }

  lemma SubscriptionsRest(peer: Peer, s: Setup, now: Setup, told: nat)
    requires Called(s, now) && s.stage == Subscriptions && Follows(peer, s, told)
    ensures var r := WorkSubscriptions(now, true, peer.admitted);
            Inv(r) && (!r.failed ==> Listed(peer, r, 0) && ReadSoFar(peer, r, 0) && MapRead(peer, r) && IdsRead(peer, r))
  {
    SubscriptionsAdvance(s, now, true, peer.admitted);
    SubscriptionsStage(s, now, true, peer.admitted);
  }

  lemma SubscriptionsWorks(peer: Peer, s: Setup, told: nat)
    requires Inv(s) && s.work && !s.failed && s.stage == Subscriptions && Follows(peer, s, told)
    ensures GoesOn(peer, DoWork(s, true, true, peer.admitted), 0)
  {
    SkippedConfigured(peer, s, s.(work := false));
    SubscriptionsRest(peer, s, s.(work := false), told);
  }

  lemma WorkerGoesOn(peer: Peer, s: Setup, told: nat)
    requires Inv(s) && !s.failed && Follows(peer, s, told)
    ensures GoesOn(peer, DoWork(s, true, true, peer.admitted), if s.work then 0 else told)
  {
    if s.work {
      match s.stage {
        case References => ReferencesWorks(peer, s, told);
        case Protocol => ProtocolWorks(peer, s, told);
        case Subscriptions => SubscriptionsWorks(peer, s, told);
        case Ready =>
        case _ => EarlyWorks(peer, s, told);
      }
    }
  }

  // ---- Parts of an answer

  lemma ServiceTold(peer: Peer, s: Setup, told: nat)
    requires Inv(s) && !s.failed && s.stage == Service && s.outstanding != [] && Follows(peer, s, told)
    ensures GoesOn(peer, Callback(s, ServiceFound(peer.service, peer.end)), told + 1)
  {
    CallbackAdvances(s, ServiceFound(peer.service, peer.end));
    assert peer.cs[..0] == [];
  }

  lemma NoteOneMore(peer: Peer, n: nat)
    requires n < |peer.cs| && !NoteAll(peer.end, peer.cs[..n]).full
    ensures NoteAll(peer.end, peer.cs[..n + 1])
            == NoteCharacteristic(NoteAll(peer.end, peer.cs[..n]).listing, peer.end, peer.cs[n])
  {
    assert peer.cs[..n + 1][..n] == peer.cs[..n];
  }

  lemma CharacteristicTold(peer: Peer, s: Setup, told: nat)
    requires Inv(s) && !s.failed && s.stage == Characteristics && s.outstanding != [] && Follows(peer, s, told)
    requires told < |peer.cs|
    ensures GoesOn(peer, Callback(s, CharacteristicFound(peer.cs[told])), told + 1)
  {
    DeliveryDelivers(s, CharacteristicFound(peer.cs[told]));
    NoteOneMore(peer, told);
  }

  lemma DescriptorTold(peer: Peer, s: Setup, told: nat)
    requires Inv(s) && !s.failed && s.stage == Descriptors && s.outstanding != [] && Follows(peer, s, told)
    requires told < |peer.ds|
    ensures GoesOn(peer, Callback(s, DescriptorFound(peer.ds[told])), told + 1)
  {
    DeliveryDelivers(s, DescriptorFound(peer.ds[told]));
    assert peer.ds[..told + 1][..told] == peer.ds[..told];
  }

  lemma ValueTold(peer: Peer, s: Setup, told: nat, n: nat)
    requires Inv(s) && !s.failed && Reading(s) && Follows(peer, s, told)
    requires s.outstanding[0].handle in peer.values && told + n <= |peer.values[s.outstanding[0].handle]|
    ensures GoesOn(peer, Callback(s, ReadData(peer.values[s.outstanding[0].handle][told..told + n])), told + n)
  {
    var v := peer.values[s.outstanding[0].handle];
    DeliveryDelivers(s, ReadData(v[told..told + n]));
    assert v[..told] + v[told..told + n] == v[..told + n];
  }

  // ---- The end of an answer

  lemma ListingEnds(peer: Peer, s: Setup, told: nat)
    requires Inv(s) && !s.failed && s.stage == Characteristics && s.outstanding != [] && Follows(peer, s, told)
    requires told == |peer.cs|
    ensures GoesOn(peer, Callback(s, DiscoveryEnded), 0)
  {
    CallbackAdvances(s, DiscoveryEnded);
    assert peer.cs[..told] == peer.cs && peer.ds[..0] == [];
  }

  lemma DescriptorsEnd(peer: Peer, s: Setup, told: nat)
    requires Inv(s) && !s.failed && s.stage == Descriptors && s.outstanding != [] && Follows(peer, s, told)
    requires told == |peer.ds|
    ensures GoesOn(peer, Callback(s, DiscoveryEnded), 0)
  {
    CallbackAdvances(s, DiscoveryEnded);
  }

  lemma MapEnds(peer: Peer, s: Setup, told: nat)
    requires Inv(s) && !s.failed && s.stage == MapStage && Reading(s) && Follows(peer, s, told)
    requires s.outstanding[0].handle in peer.values && told == |peer.values[s.outstanding[0].handle]|
    ensures GoesOn(peer, Callback(s, ReadEnded), 0)
  {
    var v := peer.values[s.outstanding[0].handle];
    EndOfReadAdvances(s);
    assert v[..told] == v;
  }

  lemma ReferenceEnds(peer: Peer, s: Setup, told: nat)
    requires Inv(s) && !s.failed && s.stage == References && Reading(s) && Follows(peer, s, told) && ReadsReference(s)
    requires s.outstanding[0].handle in peer.values && told == |peer.values[s.outstanding[0].handle]|
    ensures GoesOn(peer, Callback(s, ReadEnded), 0)
  {
    var v := peer.values[s.outstanding[0].handle];
    EndOfReadAdvances(s);
    assert v[..told] == v;
  }

  lemma ProtocolAnswered(peer: Peer, s: Setup, told: nat)
    requires Inv(s) && !s.failed && Writing(s) && Follows(peer, s, told)
    ensures GoesOn(peer, Callback(s, Answered), 0)
  {
    CallbackAdvances(s, Answered);
  }

  // One report more is subscribed to; nothing else has changed.
  lemma SubscribedIs(s: Setup)
    requires Inv(s) && !s.failed && Subscribing(s)
    ensures var r := Callback(s, Answered);
            && Inv(r) && s.stage == Subscriptions && r.stage == Subscriptions && r.work && r.outstanding == []
            && r.index == s.index + 1 <= |s.ids| && !s.work && SameReports(s, r) && r.layout == s.layout && r.mapData == s.mapData
  {
    SubscribedAdvances(s);
  }

  lemma SubscriptionAnswered(peer: Peer, s: Setup, told: nat)
    requires Inv(s) && !s.failed && Subscribing(s) && Follows(peer, s, told)
    ensures GoesOn(peer, Callback(s, Answered), 0)
  {
    SubscribedIs(s);
  }

  // ---- Any move

  lemma ServicePart(peer: Peer, s: Setup, told: nat, n: nat)
    requires Inv(s) && !s.failed && Follows(peer, s, told) && Discovering(s) && Part(peer, s, told, n).Says?
    ensures GoesOn(peer, Callback(s, Part(peer, s, told, n).event), told + 1)
  {
    match s.stage {
      case Service => ServiceTold(peer, s, told);
      case Characteristics => CharacteristicTold(peer, s, told);
      case Descriptors => DescriptorTold(peer, s, told);
      case _ =>
    }
  }

  lemma ReadPart(peer: Peer, s: Setup, told: nat, n: nat)
    requires Inv(s) && !s.failed && Follows(peer, s, told) && Reading(s) && Part(peer, s, told, n).Says?
    ensures GoesOn(peer, Callback(s, Part(peer, s, told, n).event), told + n)
  {
    ValueTold(peer, s, told, n);
  }

  // What the peer tells is an answer to what is asked.
  lemma PartAnswers(peer: Peer, s: Setup, told: nat, n: nat)
    requires Inv(s) && !s.failed && s.outstanding != [] && Part(peer, s, told, n).Says?
    ensures var e := Part(peer, s, told, n).event;
            Answers(s, e) && !e.Work? && Said(peer, s, told, Tells(n)) == Callback(s, e)
  {
  }

  lemma PartGoesOn(peer: Peer, s: Setup, told: nat, n: nat)
    requires Inv(s) && !s.failed && Follows(peer, s, told) && s.outstanding != [] && Part(peer, s, told, n).Says?
    ensures GoesOn(peer, Said(peer, s, told, Tells(n)), ToldAfter(s, told, Tells(n)))
  {
    PartAnswers(peer, s, told, n);
    if Reading(s) {
      ReadPart(peer, s, told, n);
    } else {
      ServicePart(peer, s, told, n);
    }
  }

  lemma DiscoveryEnds(peer: Peer, s: Setup, told: nat)
    requires Inv(s) && !s.failed && Follows(peer, s, told) && Discovering(s) && End(peer, s, told).Says?
    ensures GoesOn(peer, Callback(s, DiscoveryEnded), 0)
  {
    if s.stage == Characteristics {
      ListingEnds(peer, s, told);
    } else {
      DescriptorsEnd(peer, s, told);
    }
  }

  lemma ReadEnds(peer: Peer, s: Setup, told: nat)
    requires Inv(s) && !s.failed && Follows(peer, s, told) && Reading(s) && End(peer, s, told).Says? && ReadsReference(s)
    ensures GoesOn(peer, Callback(s, ReadEnded), 0)
  {
    if s.stage == MapStage {
      MapEnds(peer, s, told);
    } else {
      ReferenceEnds(peer, s, told);
    }
  }

  lemma EndAnswers(peer: Peer, s: Setup, told: nat)
    requires Inv(s) && !s.failed && s.outstanding != [] && End(peer, s, told).Says?
    ensures var e := End(peer, s, told).event;
            Answers(s, e) && !e.Work? && Said(peer, s, told, Ends) == Callback(s, e)
  {
  }

  lemma EndGoesOn(peer: Peer, s: Setup, told: nat)
    requires Inv(s) && !s.failed && Follows(peer, s, told) && s.outstanding != [] && ReadsReference(s)
    requires End(peer, s, told).Says?
    ensures GoesOn(peer, Said(peer, s, told, Ends), 0)
  {
    EndAnswers(peer, s, told);
    match s.outstanding[0] {
      case Discover(_, _) => DiscoveryEnds(peer, s, told);
      case Read(_) => ReadEnds(peer, s, told);
      case WriteProtocol(_) => ProtocolAnswered(peer, s, told);
      case Subscribe(_, _) => SubscriptionAnswered(peer, s, told);
    }
  }

  lemma BeginFollows(peer: Peer)
    ensures Inv(BEGIN) && Follows(peer, BEGIN, 0)
  {
  }
}
