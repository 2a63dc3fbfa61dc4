/** An answering peer reaches READY exactly if it is an M720. */
module GattReady {
  import opened Masks
  import opened HidMap
  import opened GattDiscovery
  import opened GattCoverage
  import opened GattSetup
  import opened GattSetupRuns
  import opened GattReferences
  import opened GattPeer
  import opened GattTalk

  // ---- Induction over conversations

  ghost predicate Kept(holds: seq<Move> -> bool, moves: seq<Move>, m: Move) {
    holds(moves) ==> holds(moves + [m])
  }

  lemma {:induction false} Always(holds: seq<Move> -> bool, moves: seq<Move>)
    requires holds([]) && forall before, m :: Kept(holds, before, m)
    ensures holds(moves)
  {
    if moves != [] {
      var init, m := moves[..|moves| - 1], moves[|moves| - 1];
      Always(holds, init);
      assert Kept(holds, init, m) && init + [m] == moves;
    }
  }

  ghost predicate Closer(rank: seq<Move> -> nat, left: seq<Move> -> nat, moves: seq<Move>, m: Move) {
    var more := moves + [m];
    rank(more) < rank(moves) || (rank(more) == rank(moves) && left(more) < left(moves))
  }

  lemma {:induction false} Arrives(done: seq<Move> -> bool, rank: seq<Move> -> nat, left: seq<Move> -> nat, moves: seq<Move>)
      returns (more: seq<Move>)
    requires forall before :: !done(before) ==> exists m :: Closer(rank, left, before, m)
    ensures done(moves + more)
    decreases rank(moves), left(moves)
  {
    if done(moves) {
      more := [];
      assert moves + [] == moves;
    } else {
      var m :| Closer(rank, left, moves, m);
      var rest := Arrives(done, rank, left, moves + [m]);
      more := [m] + rest;
      assert moves + more == moves + [m] + rest;
    }
  }

  // ---- Every conversation

  lemma OneMoreEvent(events: seq<Event>, e: Event)
    ensures Run(events + [e]) == Step(Run(events), e)
  {
    assert (events + [e])[..|events|] == events;
  }

  lemma OneMoreMove(peer: Peer, moves: seq<Move>, m: Move)
    ensures var t := Talks(peer, moves);
            && Reached(peer, moves + [m]) == Said(peer, Run(t.events), t.told, m)
            && Talks(peer, moves + [m]).told
               == (if ReplyOf(peer, Run(t.events), t.told, m).Says? then ToldAfter(Run(t.events), t.told, m) else t.told)
  {
    assert (moves + [m])[..|moves|] == moves;
    var t := Talks(peer, moves);
    match ReplyOf(peer, Run(t.events), t.told, m) {
      case Silent =>
      case Says(e) => OneMoreEvent(t.events, e);
    }
  }

  lemma MoveGoesOn(peer: Peer, s: Setup, told: nat, m: Move)
    requires Inv(s) && !s.failed && Follows(peer, s, told) && ReadsReference(s)
    ensures GoesOn(peer, Said(peer, s, told, m), if ReplyOf(peer, s, told, m).Says? then ToldAfter(s, told, m) else told)
  {
    match m {
      case Works => WorkerGoesOn(peer, s, told);
      case Tells(n) => if ReplyOf(peer, s, told, m).Says? { PartGoesOn(peer, s, told, n); }
      case Ends => if ReplyOf(peer, s, told, m).Says? { EndGoesOn(peer, s, told); }
    }
  }

  lemma SaidFailed(peer: Peer, s: Setup, told: nat, m: Move)
    requires Inv(s) && s.failed
    ensures Said(peer, s, told, m).failed
  {
  }

  // What every run of the set-up keeps.
  ghost predicate Sound(s: Setup) {
    Inv(s) && LayoutInv(s) && CoverInv(s) && SourcesInv(s) && ReadsReference(s)
  }

  lemma RunSound(events: seq<Event>)
    ensures var s := Run(events); !s.failed ==> Sound(s)
  {
    RunParsesAndCovers(events);
    RunSources(events);
    RunRefAt(events, 0);
  }

  ghost predicate FollowsAt(peer: Peer, moves: seq<Move>) {
    var s := Reached(peer, moves); !s.failed ==> Follows(peer, s, Talks(peer, moves).told) && Sound(s)
  }

  lemma FollowsOn(peer: Peer, moves: seq<Move>, m: Move)
    requires FollowsAt(peer, moves)
    ensures FollowsAt(peer, moves + [m])
  {
    var s, told := Reached(peer, moves), Talks(peer, moves).told;
    OneMoreMove(peer, moves, m);
    RunSound(Talks(peer, moves + [m]).events);
    if s.failed {
      SaidFailed(peer, s, told, m);
    } else {
      MoveGoesOn(peer, s, told, m);
    }
  }

  lemma BeginsFollowing(peer: Peer)
    ensures FollowsAt(peer, [])
  {
    RunSound([]);
    BeginFollows(peer);
  }

  lemma TalkFollows(peer: Peer, moves: seq<Move>)
    ensures FollowsAt(peer, moves)
  {
    var holds := before => FollowsAt(peer, before);
    BeginsFollowing(peer);
    forall before, m
      ensures Kept(holds, before, m)
    {
      if holds(before) { FollowsOn(peer, before, m); }
    }
    Always(holds, moves);
  }

  // ---- READY means an M720

  lemma ReadyIsM720(peer: Peer, s: Setup, told: nat)
    requires Sound(s) && !s.failed && s.stage == Ready && Follows(peer, s, told)
    ensures IsM720(peer, s.layout, s.ids)
  {
    FullMasksExactly(s.layout.fields, s.sources, s.coveredButtons, s.coveredAxes);
  }

  // ---- An M720 does not fail

  lemma IdsAreUnique(peer: Peer, a: seq<ReportId>, b: seq<ReportId>)
    requires AllRefer(peer, a) && AllRefer(peer, b)
    ensures a == b
  {
    forall k | 0 <= k < |a|
      ensures a[k] == b[k]
    {
      assert Refers(peer, Full(peer).reports[k], a[k]) && Refers(peer, Full(peer).reports[k], b[k]);
    }
  }

  // From the subscriptions on, the layout and the ids are the peer's.
  lemma Identified(peer: Peer, layout: Layout, ids: seq<ReportId>, s: Setup, told: nat)
    requires Sound(s) && !s.failed && Follows(peer, s, told) && IsM720(peer, layout, ids)
    requires s.stage == Subscriptions
    ensures s.layout == layout && s.ids == ids
  {
    assert AllRefer(peer, s.ids);
    IdsAreUnique(peer, s.ids, ids);
  }

  lemma ParseSucceeds(peer: Peer, layout: Layout, ids: seq<ReportId>, s: Setup, told: nat)
    requires Sound(s) && !s.failed && s.work && Follows(peer, s, told) && IsM720(peer, layout, ids) && s.stage == References
    ensures !DoWork(s, true, true, peer.admitted).failed
  {
    assert s.mapData == peer.values[Full(peer).map_];
    assert Parsed(s.mapData, layout);
    assert !ParseOnce(s.(work := false)).failed;
  }

  lemma ProtocolSucceeds(s: Setup, admitted: bool)
    requires Inv(s) && !s.failed && s.work && s.stage == Protocol
    ensures !DoWork(s, true, true, admitted).failed
  {
  }

  lemma CompleteNeedsSources(fields: seq<Field>, sources: seq<nat>)
    requires Complete(fields, sources)
    ensures sources != []
  {
    assert ButtonIn(fields, sources, 0);
  }

  lemma FinishSucceeds(peer: Peer, layout: Layout, ids: seq<ReportId>, s: Setup, told: nat)
    requires Sound(s) && !s.failed && Follows(peer, s, told) && IsM720(peer, layout, ids) && s.stage == Subscriptions
    requires SkipUnwanted(s.layout, s.ids, s.index) == |s.ids|
    ensures s.subscribed > 0 && s.coveredButtons == ALL_BUTTONS && s.coveredAxes == ALL_AXES
  {
    Identified(peer, layout, ids, s, told);
    SkipChooses(s.layout, s.ids, s.index);
    FullMasksExactly(s.layout.fields, s.sources, s.coveredButtons, s.coveredAxes);
    CompleteNeedsSources(s.layout.fields, s.sources);
  }

  lemma SubscriptionsSucceed(peer: Peer, layout: Layout, ids: seq<ReportId>, s: Setup, told: nat)
    requires Sound(s) && !s.failed && s.work && Follows(peer, s, told) && IsM720(peer, layout, ids) && s.stage == Subscriptions
    ensures !DoWork(s, true, true, peer.admitted).failed
  {
    Identified(peer, layout, ids, s, told);
    if SkipUnwanted(s.layout, s.ids, s.index) == |s.ids| {
      FinishSucceeds(peer, layout, ids, s, told);
    }
  }

  lemma WorkSucceeds(peer: Peer, layout: Layout, ids: seq<ReportId>, s: Setup, told: nat)
    requires Sound(s) && !s.failed && Follows(peer, s, told) && IsM720(peer, layout, ids)
    ensures !DoWork(s, true, true, peer.admitted).failed
  {
    if s.work {
      match s.stage {
        case References => ParseSucceeds(peer, layout, ids, s, told);
        case Protocol => ProtocolSucceeds(s, peer.admitted);
        case Subscriptions => SubscriptionsSucceed(peer, layout, ids, s, told);
        case _ =>
      }
    }
  }

  lemma {:induction false} NeverFull(end: Handle, cs: seq<Characteristic>, n: nat)
    requires n <= |cs| && !NoteAll(end, cs).full
    ensures !NoteAll(end, cs[..n]).full
    decreases |cs|
  {
    if n < |cs| {
      var init := cs[..|cs| - 1];
      NeverFull(end, init, n);
      assert init[..n] == cs[..n];
    } else {
      assert cs[..n] == cs;
    }
  }

  lemma CharacteristicSucceeds(peer: Peer, s: Setup, told: nat)
    requires Inv(s) && !s.failed && s.stage == Characteristics && s.outstanding != [] && Follows(peer, s, told)
    requires told < |peer.cs| && Listable(peer)
    ensures !Callback(s, CharacteristicFound(peer.cs[told])).failed
  {
    NoteOneMore(peer, told);
    NeverFull(peer.end, peer.cs, told + 1);
  }

  // What is read fits, and a reference has two bytes.
  lemma ValueFits(peer: Peer, layout: Layout, ids: seq<ReportId>, s: Setup, told: nat)
    requires Sound(s) && !s.failed && Reading(s) && Follows(peer, s, told) && IsM720(peer, layout, ids)
    ensures var h := s.outstanding[0].handle;
            && h in peer.values
            && |peer.values[h]| <= (if s.stage == MapStage then MAX_MAP_BYTES else 2)
            && (s.stage == References ==> |peer.values[h]| == 2)
  {
    if s.stage == References {
      assert Refers(peer, Full(peer).reports[s.index], ids[s.index]);
    }
  }

  lemma PartSucceeds(peer: Peer, layout: Layout, ids: seq<ReportId>, s: Setup, told: nat, n: nat)
    requires Sound(s) && !s.failed && s.outstanding != [] && Follows(peer, s, told) && IsM720(peer, layout, ids)
    requires Part(peer, s, told, n).Says?
    ensures !Said(peer, s, told, Tells(n)).failed
  {
    PartAnswers(peer, s, told, n);
    if Reading(s) {
      ValueFits(peer, layout, ids, s, told);
    } else if s.stage == Characteristics {
      CharacteristicSucceeds(peer, s, told);
    }
  }

  lemma EndSucceeds(peer: Peer, layout: Layout, ids: seq<ReportId>, s: Setup, told: nat)
    requires Sound(s) && !s.failed && s.outstanding != [] && Follows(peer, s, told) && IsM720(peer, layout, ids)
    requires End(peer, s, told).Says?
    ensures !Said(peer, s, told, Ends).failed
  {
    EndAnswers(peer, s, told);
    if Reading(s) {
      ValueFits(peer, layout, ids, s, told);
    } else if s.stage == Characteristics {
      assert peer.cs[..|peer.cs|] == peer.cs;
    }
  }

  lemma MoveSucceeds(peer: Peer, layout: Layout, ids: seq<ReportId>, s: Setup, told: nat, m: Move)
    requires Sound(s) && !s.failed && Follows(peer, s, told) && IsM720(peer, layout, ids)
    ensures !Said(peer, s, told, m).failed
  {
    match m {
      case Works => WorkSucceeds(peer, layout, ids, s, told);
      case Tells(n) => if ReplyOf(peer, s, told, m).Says? { PartSucceeds(peer, layout, ids, s, told, n); }
      case Ends => if ReplyOf(peer, s, told, m).Says? { EndSucceeds(peer, layout, ids, s, told); }
    }
  }

  ghost predicate FineAt(peer: Peer, moves: seq<Move>) {
    !Reached(peer, moves).failed
  }

  lemma FineOn(peer: Peer, moves: seq<Move>, m: Move)
    requires Good(peer) && FineAt(peer, moves)
    ensures FineAt(peer, moves + [m])
  {
    TalkFollows(peer, moves);
    OneMoreMove(peer, moves, m);
    var layout, ids :| IsM720(peer, layout, ids);
    MoveSucceeds(peer, layout, ids, Reached(peer, moves), Talks(peer, moves).told, m);
  }

  /** However its answers arrive, the set-up of an M720 never fails. */
  lemma NeverFails(peer: Peer, moves: seq<Move>)
    requires Good(peer)
    ensures FineAt(peer, moves)
  {
    var holds := before => FineAt(peer, before);
    forall before, m
      ensures Kept(holds, before, m)
    {
      if holds(before) { FineOn(peer, before, m); }
    }
    Always(holds, moves);
  }

  // ---- And comes to an end

  // How much of the answer is still to be told.
  ghost function Remaining(peer: Peer, s: Setup, told: nat): nat {
    if s.work || s.outstanding == [] then 0
    else
      match s.outstanding[0]
      case Discover(_, _) =>
        var n := if s.stage == Characteristics then |peer.cs| else if s.stage == Descriptors then |peer.ds| else 0;
        if told <= n then n - told else 0
      case Read(h) => if h in peer.values && told <= |peer.values[h]| then |peer.values[h]| - told else 0
      case _ => 0
  }

  // What brings the conversation on: the worker, the rest of the answer, or its end.
  ghost function NextMove(peer: Peer, s: Setup, told: nat): Move {
    if s.work then Works
    else if s.stage == Service || Remaining(peer, s, told) > 0 then Tells(Remaining(peer, s, told))
    else Ends
  }

  ghost predicate Nearer(peer: Peer, s: Setup, told: nat, r: Setup, toldAfter: nat)
    requires Inv(s) && Inv(r)
  {
    Rank(r) < Rank(s) || (Rank(r) == Rank(s) && Remaining(peer, r, toldAfter) < Remaining(peer, s, told))
  }

  lemma TellingBringsNearer(peer: Peer, layout: Layout, ids: seq<ReportId>, s: Setup, told: nat)
    requires Sound(s) && !s.failed && !s.work && s.stage != Service && Follows(peer, s, told) && IsM720(peer, layout, ids)
    requires Remaining(peer, s, told) > 0
    ensures var m := Tells(Remaining(peer, s, told));
            && ReplyOf(peer, s, told, m).Says?
            && Nearer(peer, s, told, Said(peer, s, told, m), ToldAfter(s, told, m))
  {
    var n := Remaining(peer, s, told);
    var e := Part(peer, s, told, n).event;
    DeliveryDelivers(s, e);
    PartSucceeds(peer, layout, ids, s, told, n);
  }

  lemma ServiceBringsNearer(peer: Peer, s: Setup, told: nat)
    requires Inv(s) && !s.failed && !s.work && s.stage == Service
    ensures ReplyOf(peer, s, told, Tells(0)) == Says(ServiceFound(peer.service, peer.end))
    ensures Nearer(peer, s, told, Said(peer, s, told, Tells(0)), ToldAfter(s, told, Tells(0)))
  {
    CallbackAdvances(s, ServiceFound(peer.service, peer.end));
  }

  // With everything told, the peer ends its answer.
  lemma EndSays(peer: Peer, layout: Layout, ids: seq<ReportId>, s: Setup, told: nat)
    requires Sound(s) && !s.failed && !s.work && s.stage != Service && s.stage != Ready
    requires Follows(peer, s, told) && IsM720(peer, layout, ids) && Remaining(peer, s, told) == 0
    ensures s.outstanding != [] && End(peer, s, told).Says? && !Delivery(End(peer, s, told).event)
  {
    if Reading(s) {
      ValueFits(peer, layout, ids, s, told);
    }
  }

  lemma EndBringsNearer(peer: Peer, layout: Layout, ids: seq<ReportId>, s: Setup, told: nat)
    requires Sound(s) && !s.failed && !s.work && s.stage != Service && s.stage != Ready
    requires Follows(peer, s, told) && IsM720(peer, layout, ids) && Remaining(peer, s, told) == 0
    ensures ReplyOf(peer, s, told, Ends).Says? && Nearer(peer, s, told, Said(peer, s, told, Ends), 0)
  {
    EndSays(peer, layout, ids, s, told);
    EndAnswers(peer, s, told);
    EndSucceeds(peer, layout, ids, s, told);
    CallbackAdvances(s, End(peer, s, told).event);
  }

  lemma WorkBringsNearer(peer: Peer, layout: Layout, ids: seq<ReportId>, s: Setup, told: nat)
    requires Sound(s) && !s.failed && s.work && Follows(peer, s, told) && IsM720(peer, layout, ids)
    ensures Nearer(peer, s, told, Said(peer, s, told, Works), 0)
  {
    WorkAdvances(s, true, true, peer.admitted);
    WorkSucceeds(peer, layout, ids, s, told);
  }

  lemma BringsNearer(peer: Peer, layout: Layout, ids: seq<ReportId>, s: Setup, told: nat)
    requires Sound(s) && !s.failed && s.stage != Ready && Follows(peer, s, told) && IsM720(peer, layout, ids)
    ensures var m := NextMove(peer, s, told);
            && ReplyOf(peer, s, told, m).Says?
            && Nearer(peer, s, told, Said(peer, s, told, m), ToldAfter(s, told, m))
  {
    if s.work {
      WorkBringsNearer(peer, layout, ids, s, told);
    } else if s.stage == Service {
      assert Remaining(peer, s, told) == 0;
      ServiceBringsNearer(peer, s, told);
    } else if Remaining(peer, s, told) > 0 {
      TellingBringsNearer(peer, layout, ids, s, told);
    } else {
      EndBringsNearer(peer, layout, ids, s, told);
    }
  }

  ghost function RankAt(peer: Peer, moves: seq<Move>): nat {
    Rank(Reached(peer, moves))
  }

  ghost function LeftAt(peer: Peer, moves: seq<Move>): nat {
    Remaining(peer, Reached(peer, moves), Talks(peer, moves).told)
  }

  ghost predicate ReadyAt(peer: Peer, moves: seq<Move>) {
    Reached(peer, moves).stage == Ready && !Reached(peer, moves).failed
  }

  ghost predicate CloserAt(peer: Peer, moves: seq<Move>, m: Move) {
    RankAt(peer, moves + [m]) < RankAt(peer, moves)
    || (RankAt(peer, moves + [m]) == RankAt(peer, moves) && LeftAt(peer, moves + [m]) < LeftAt(peer, moves))
  }

  lemma NearerAt(peer: Peer, moves: seq<Move>, m: Move)
    requires var s, told := Reached(peer, moves), Talks(peer, moves).told;
             ReplyOf(peer, s, told, m).Says? && Nearer(peer, s, told, Said(peer, s, told, m), ToldAfter(s, told, m))
    ensures CloserAt(peer, moves, m)
  {
    OneMoreMove(peer, moves, m);
  }

  lemma NextBringsNearer(peer: Peer, moves: seq<Move>) returns (m: Move)
    requires Good(peer) && !ReadyAt(peer, moves)
    ensures CloserAt(peer, moves, m)
  {
    var s, told := Reached(peer, moves), Talks(peer, moves).told;
    NeverFails(peer, moves);
    TalkFollows(peer, moves);
    var layout, ids :| IsM720(peer, layout, ids);
    BringsNearer(peer, layout, ids, s, told);
    m := NextMove(peer, s, told);
    NearerAt(peer, moves, m);
  }

  /** From wherever it is, a conversation with an M720 can be carried on to READY. */
  lemma ReachesReady(peer: Peer, moves: seq<Move>) returns (more: seq<Move>)
    requires Good(peer)
    ensures ReadyAt(peer, moves + more)
  {
    var done := before => ReadyAt(peer, before);
    var rank: seq<Move> -> nat := before => RankAt(peer, before);
    var left: seq<Move> -> nat := before => LeftAt(peer, before);
    forall before | !done(before)
      ensures exists m :: Closer(rank, left, before, m)
    {
      var m := NextBringsNearer(peer, before);
      assert Closer(rank, left, before, m);
    }
    more := Arrives(done, rank, left, moves);
  }

  /**
   A peer that answers what it is asked can be brought to READY if and only if it is an M720 that may be
   adopted: its listing, its report map, its references and its client configurations are as they must be.
   */
  lemma ReadyExactly(peer: Peer)
    ensures Good(peer) <==> exists moves :: ReadyAt(peer, moves)
  {
    if Good(peer) {
      var moves := ReachesReady(peer, []);
      assert ReadyAt(peer, [] + moves);
    }
    forall moves | ReadyAt(peer, moves)
      ensures Good(peer)
    {
      TalkFollows(peer, moves);
      ReadyIsM720(peer, Reached(peer, moves), Talks(peer, moves).told);
    }
  }
}
