/**
 The client and the set-up of its connection together: `finish_ready` of src/ble_mouse.c takes from the one
 what the subscribed reports cover, and from the other whether the peer may be adopted.
 */
module ClientSetup {
  import C = MouseClient
  import R = ClientRuns
  import T = ClientTending
  import P = ClientProperties
  import F = ClientSafety
  import G = GattSetup
  import S = GattSetupRuns
  import opened GattCoverage

  datatype Joint = Joint(client: C.Client, setup: G.Setup)

  datatype Move = OfClient(action: C.Action) | OfSetup(event: G.Event, saveOk: bool)

  function StageOf(stage: G.Stage): C.Stage {
    match stage
    case Service => C.Service
    case Characteristics => C.Characteristics
    case Descriptors => C.Descriptors
    case MapStage => C.ReportMap
    case References => C.References
    case Protocol => C.Protocol
    case Subscriptions => C.Subscriptions
    case Ready => C.Ready
  }

  predicate SetUp(s: C.Client) {
    C.InSetup(s) && F.PastSecurity(s.stage)
  }

  // A peer that is known, or a candidate that is bonded and has been saved.
  predicate Admitted(s: C.Client, saveOk: bool) {
    s.newCandidate ==> s.candidateBonded && s.conn != C.None && s.conn.value in s.bonds && saveOk
  }

  // What a step of the set-up does to the client.
  function Follow(s: C.Client, before: G.Setup, after: G.Setup, saveOk: bool): C.Client {
    if after.failed then C.Step(s, C.SetupFails)
    else if after.stage == before.stage then s
    else if after.stage == G.Ready then C.Step(s, C.SetupFinishes(true, saveOk))
    else C.Step(s, C.SetupAdvances)
  }

  function EventFor(s: C.Client, e: G.Event, saveOk: bool): G.Event {
    if e.Work? then e.(admitted := Admitted(s, saveOk)) else e
  }

  // The set-up begins when the link is secure; what abandons it comes from the client's side.
  ghost function Moved(j: Joint, m: Move): Joint
    requires G.Inv(j.setup)
  {
    match m
    case OfClient(a) =>
      if C.FromSetup(a) then j
      else
        var r := C.Step(j.client, a);
        Joint(r, if r.stage == C.Service && j.client.stage != C.Service then G.BEGIN else j.setup)
    case OfSetup(e, saveOk) =>
      if !SetUp(j.client) || e.Abandoned? then j
      else
        var after := G.Step(j.setup, EventFor(j.client, e, saveOk));
        Joint(Follow(j.client, j.setup, after, saveOk), after)
  }

  // ---- Both move in step

  ghost predicate InStep(j: Joint) {
    SetUp(j.client) ==>
      !j.setup.failed && j.client.stage == StageOf(j.setup.stage) && S.LayoutInv(j.setup) && S.CoverInv(j.setup)
  }

  ghost predicate JointInv(j: Joint) {
    R.Inv(j.client) && T.HostInv(j.client) && G.Inv(j.setup) && InStep(j)
  }

  // A handler on the client's side that is past security has found the set-up so, or has begun it.
  ghost predicate Follows(s: C.Client, r: C.Client) {
    SetUp(r) ==> (SetUp(s) && r.stage == s.stage) || (r.stage == C.Service && s.stage != C.Service)
  }

  lemma IdleFollows(s: C.Client, r: C.Client)
    requires r.conn == C.None
    ensures Follows(s, r)
  {
  }

  lemma StartFollows(s: C.Client, answer: C.SecurityAnswer)
    requires s.stage == C.Connecting
    ensures Follows(s, C.StartSecurity(s, answer))
  {
  }

  lemma ConnectedFollows(s: C.Client, t: C.Client, answer: C.SecurityAnswer, host: C.Host)
    requires T.HostInv(s) && R.Taking(s, t, C.Connected)
    ensures Follows(s, C.DoConnectedWork(t, answer, host))
  {
    if t.conn != C.None {
      var disarmed := C.Disarmed(t);
      if t.connectedError {
        IdleFollows(s, C.LetGo(disarmed, host));
      } else if !t.failure && t.stage != C.Closing {
        StartFollows(disarmed, answer);
      }
    }
  }

  lemma FailureFollows(s: C.Client, disconnect: C.DisconnectAnswer, host: C.Host)
    ensures Follows(s, C.DoFailureWork(s, disconnect, host))
  {
  }

  lemma WorkFollows(s: C.Client, t: C.Client, a: C.Action)
    requires R.Core(s) && T.HostInv(s) && C.IsWork(a) && R.Taking(s, t, C.JobFor(a))
    ensures Follows(s, C.Perform(t, a))
  {
    match a {
      case ConnectedWork(answer, host) => ConnectedFollows(s, t, answer, host);
      case FailureWork(disconnect, host) => FailureFollows(t, disconnect, host);
      case _ =>
    }
  }

  lemma ConnectFollows(s: C.Client, addr: C.Address, ok: bool)
    ensures Follows(s, C.DoConnect(s, addr, ok))
  {
  }

  lemma SecurityFollows(s: C.Client, addr: C.Address, error: bool, secure: bool)
    ensures Follows(s, C.OnSecurityChanged(s, addr, error, secure))
  {
  }

  lemma SameStageFollows(s: C.Client, r: C.Client)
    requires r.conn == s.conn && r.stage == s.stage && (s.failure ==> r.failure)
    ensures Follows(s, r)
  {
  }

  lemma ReportFollows(s: C.Client, addr: C.Address, error: bool)
    ensures Follows(s, C.OnConnectedEvent(s, addr, error))
  {
    SameStageFollows(s, C.OnConnectedEvent(s, addr, error));
  }

  lemma PairingFollows(s: C.Client, addr: C.Address, bonded: bool)
    ensures Follows(s, C.OnPairingComplete(s, addr, bonded))
  {
    SameStageFollows(s, C.OnPairingComplete(s, addr, bonded));
  }

  lemma DisconnectedFollows(s: C.Client, addr: C.Address)
    ensures Follows(s, C.OnDisconnectedEvent(s, addr))
  {
  }

  lemma HostFollows(s: C.Client, a: C.Action)
    requires C.FromHost(a)
    ensures Follows(s, C.HostCalls(s, a))
  {
    match a {
      case ConnectedEvent(addr, error) => ReportFollows(s, addr, error);
      case DisconnectedEvent(addr) => DisconnectedFollows(s, addr);
      case SecurityChanged(addr, error, secure) => SecurityFollows(s, addr, error, secure);
      case PairingComplete(addr, bonded) => PairingFollows(s, addr, bonded);
      case PairingFailed(_) => SameStageFollows(s, C.Fail(s));
    }
  }

  lemma RestFollows(s: C.Client, a: C.Action)
    requires !C.IsWork(a) && !C.FromHost(a) && !C.FromSetup(a)
    ensures Follows(s, C.RestMoves(s, a))
  {
    if a.ConnectWork? {
      ConnectWorkFollows(s, a.stopped, a.ok);
    } else {
      SameStageFollows(s, C.RestMoves(s, a));
    }
  }

  lemma ConnectWorkFollows(s: C.Client, stopped: bool, ok: bool)
    ensures Follows(s, C.DoConnectWork(s, stopped, ok))
  {
    if s.request != C.None {
      ConnectFollows(s.(request := C.None), s.request.value, ok);
    }
  }

  lemma EventFollows(s: C.Client, a: C.Action)
    requires !C.IsWork(a) && !C.FromSetup(a)
    ensures Follows(s, C.Perform(s, a))
  {
    if C.FromHost(a) {
      HostFollows(s, a);
    } else {
      RestFollows(s, a);
    }
  }

  lemma ClientFollows(s: C.Client, a: C.Action)
    requires R.Core(s) && T.HostInv(s) && !C.FromSetup(a)
    ensures Follows(s, C.Step(s, a))
  {
    if C.Possible(s, a) {
      if !C.IsWork(a) {
        EventFollows(s, a);
      } else {
        WorkFollows(s, C.Called(s, a), a);
      }
    }
  }

  lemma BeginsInStep(s: C.Client)
    requires s.stage == C.Service
    ensures InStep(Joint(s, G.BEGIN)) && G.Inv(G.BEGIN)
  {
    NothingCovered([]);
  }

  lemma ClientMoveKeeps(j: Joint, a: C.Action)
    requires JointInv(j) && !C.FromSetup(a)
    ensures JointInv(Moved(j, OfClient(a)))
  {
    R.StepKeepsInv(j.client, a);
    T.StepKeepsHost(j.client, a);
    ClientFollows(j.client, a);
    var r := C.Step(j.client, a);
    if r.stage == C.Service && j.client.stage != C.Service {
      BeginsInStep(r);
    }
  }

  // ---- The set-up's side

  // The next stage, if it changes; READY only from the reports' stage, by the worker, with the peer admitted.
  ghost predicate NextStage(s: G.Setup, e: G.Event, r: G.Setup) {
    r.failed || r.stage == s.stage
    || (r.stage == G.Ready && s.stage == G.Subscriptions && e.Work? && e.admitted)
    || (r.stage != G.Ready && StageOf(r.stage) == C.After(StageOf(s.stage)))
  }

  lemma WorkNextStage(s: G.Setup, e: G.Event)
    requires G.Inv(s) && s.work && !s.failed && e.Work?
    ensures NextStage(s, e, G.DoWork(s, e.ok, e.okAfter, e.admitted))
  {
    var now := s.(work := false);
    match s.stage {
      case References => S.ReferencesLayout(s, now, e.ok);
      case Protocol => S.ProtocolStage(s, now, e.ok, e.okAfter);
      case Subscriptions => AdmittedOnly(s, now, e.ok, e.admitted);
      case Service => IssueStays(now, e.ok, G.RequestOf(s));
      case Characteristics => IssueStays(now, e.ok, G.RequestOf(s));
      case Descriptors => IssueStays(now, e.ok, G.RequestOf(s));
      case MapStage => IssueStays(now, e.ok, G.RequestOf(s));
      case Ready =>
    }
  }

  lemma IssueStays(s: G.Setup, ok: bool, requests: seq<G.Request>)
    ensures var r := G.Issue(s, ok, requests); r.failed || r.stage == s.stage
  {
  }

  lemma AdmittedOnly(s: G.Setup, now: G.Setup, ok: bool, admitted: bool)
    requires S.Called(s, now) && s.stage == G.Subscriptions
    ensures var r := G.WorkSubscriptions(now, ok, admitted);
            r.failed || r.stage == G.Subscriptions || (r.stage == G.Ready && admitted)
  {
  }

  lemma ReadEndedNextStage(s: G.Setup)
    requires G.Inv(s) && G.Answers(s, G.ReadEnded) && !s.failed
    ensures NextStage(s, G.ReadEnded, G.OnReadEnded(s))
  {
  }

  lemma AnsweredNextStage(s: G.Setup)
    requires G.Inv(s) && G.Answers(s, G.Answered) && !s.failed
    ensures NextStage(s, G.Answered, G.Callback(s, G.Answered))
  {
  }

  lemma CallbackNextStage(s: G.Setup, e: G.Event)
    requires G.Inv(s) && G.Answers(s, e) && !s.failed && !e.Work?
    ensures NextStage(s, e, G.Callback(s, e))
  {
    match e {
      case ReadEnded => ReadEndedNextStage(s);
      case Answered => AnsweredNextStage(s);
      case _ =>
    }
  }

  // What the set-up establishes, if it has not failed.
  lemma SetupKeeps(s: G.Setup, e: G.Event)
    requires G.Inv(s) && !s.failed && S.LayoutInv(s) && S.CoverInv(s)
    ensures var r := G.Step(s, e);
            G.Inv(r) && NextStage(s, e, r) && (!r.failed ==> S.LayoutInv(r) && S.CoverInv(r))
  {
    S.StepKeepsInv(s, e);
    if e.Work? && s.work {
      WorkNextStage(s, e);
      S.WorkKeepsLayout(s, e.ok, e.okAfter, e.admitted);
      S.WorkKeepsCover(s, e.ok, e.okAfter, e.admitted);
    } else if !e.Work? && G.Answers(s, e) {
      CallbackNextStage(s, e);
      S.CallbackKeepsLayout(s, e);
      S.CallbackKeepsCover(s, e);
    }
  }

  lemma FollowIsStep(s: C.Client, before: G.Setup, after: G.Setup, saveOk: bool)
    requires R.Inv(s) && T.HostInv(s)
    ensures R.Inv(Follow(s, before, after, saveOk)) && T.HostInv(Follow(s, before, after, saveOk))
  {
    R.StepKeepsInv(s, C.SetupFails);
    R.StepKeepsInv(s, C.SetupAdvances);
    R.StepKeepsInv(s, C.SetupFinishes(true, saveOk));
    T.StepKeepsHost(s, C.SetupFails);
    T.StepKeepsHost(s, C.SetupAdvances);
    T.StepKeepsHost(s, C.SetupFinishes(true, saveOk));
  }

  // The client ends in the set-up's stage, or has failed with it.
  lemma FollowInStep(s: C.Client, before: G.Setup, e: G.Event, after: G.Setup, saveOk: bool)
    requires SetUp(s) && !before.failed && s.stage == StageOf(before.stage) && NextStage(before, e, after)
    requires e.Work? ==> e.admitted == Admitted(s, saveOk)
    ensures var r := Follow(s, before, after, saveOk);
            if after.failed then r.failure && !SetUp(r) else r.stage == StageOf(after.stage)
  {
  }

  lemma SetupMoveKeeps(j: Joint, e: G.Event, saveOk: bool)
    requires JointInv(j)
    ensures JointInv(Moved(j, OfSetup(e, saveOk)))
  {
    if SetUp(j.client) && !e.Abandoned? {
      var event := EventFor(j.client, e, saveOk);
      var after := G.Step(j.setup, event);
      SetupKeeps(j.setup, event);
      FollowIsStep(j.client, j.setup, after, saveOk);
      FollowInStep(j.client, j.setup, event, after, saveOk);
    }
  }

  // ---- Every run of both

  ghost function Runs(saved: C.Option<C.Address>, anyone: C.Address, bonds: set<C.Address>, capacity: nat,
                      moves: seq<Move>): (j: Joint)
    ensures JointInv(j)
  {
    if moves == [] then
      R.BeginInv(saved, anyone, bonds, capacity);
      Joint(C.Begin(saved, anyone, bonds, capacity), G.BEGIN)
    else
      var j, m := Runs(saved, anyone, bonds, capacity, moves[..|moves| - 1]), moves[|moves| - 1];
      MoveKeeps(j, m);
      Moved(j, m)
  }

  lemma MoveKeeps(j: Joint, m: Move)
    requires JointInv(j)
    ensures JointInv(Moved(j, m))
  {
    match m {
      case OfClient(a) => if !C.FromSetup(a) { ClientMoveKeeps(j, a); }
      case OfSetup(e, saveOk) => SetupMoveKeeps(j, e, saveOk);
    }
  }

  // The layout is the one accepted for the map that was read, and the subscribed reports carry every button and axis.
  ghost predicate FullyCovered(s: G.Setup) {
    && S.Parsed(s.mapData, s.layout) && s.sources != [] && S.SourcesFit(s.layout, s.sources)
    && Complete(s.layout.fields, s.sources)
  }

  /** In every run of both a ready client has a peer, over a connection that is fully covered. */
  lemma ReadyIsCovered(saved: C.Option<C.Address>, anyone: C.Address, bonds: set<C.Address>, capacity: nat, moves: seq<Move>)
    ensures var j := Runs(saved, anyone, bonds, capacity, moves);
            j.client.stage == C.Ready && !j.client.failure ==> j.client.havePeer && FullyCovered(j.setup)
  {
    var j := Runs(saved, anyone, bonds, capacity, moves);
    if j.client.stage == C.Ready && !j.client.failure {
      assert SetUp(j.client);
      ReadySetupIsCovered(j.setup);
    }
  }

  lemma FinishAdopts(s: C.Client, saveOk: bool)
    requires R.Core(s) && SetUp(s) && !s.havePeer
    ensures var r := C.Step(s, C.SetupFinishes(true, saveOk));
            r.havePeer ==> s.pairing && s.conn == C.Some(r.peer) && r.peer in s.bonds && r.saved == C.Some(r.peer)
  {
    if s.stage == C.Subscriptions {
      P.FinishAdopts(s, true, saveOk);
    }
  }

  lemma OthersDoNotAdopt(s: C.Client)
    requires !s.havePeer
    ensures !C.Step(s, C.SetupFails).havePeer && !C.Step(s, C.SetupAdvances).havePeer
  {
    P.OnlyFinishAdopts(s, C.SetupFails);
    P.OnlyFinishAdopts(s, C.SetupAdvances);
  }

  // A peer that is adopted is adopted at the end of set-up, and no other step adopts one.
  lemma OnlyReadyAdopts(s: C.Client, before: G.Setup, after: G.Setup, saveOk: bool)
    requires R.Core(s) && SetUp(s) && !s.havePeer
    ensures var r := Follow(s, before, after, saveOk);
            r.havePeer ==>
              && !after.failed && after.stage == G.Ready && s.pairing && s.conn == C.Some(r.peer)
              && r.peer in s.bonds && r.saved == C.Some(r.peer)
  {
    FinishAdopts(s, saveOk);
    OthersDoNotAdopt(s);
  }

  lemma SetupAdopts(j: Joint, e: G.Event, saveOk: bool)
    requires JointInv(j) && !j.client.havePeer && Moved(j, OfSetup(e, saveOk)).client.havePeer
    ensures var r := Moved(j, OfSetup(e, saveOk));
            && j.client.pairing && j.client.conn == C.Some(r.client.peer) && r.client.peer in j.client.bonds
            && r.client.saved == C.Some(r.client.peer) && FullyCovered(r.setup)
  {
    var event := EventFor(j.client, e, saveOk);
    var after := G.Step(j.setup, event);
    SetupKeeps(j.setup, event);
    OnlyReadyAdopts(j.client, j.setup, after, saveOk);
    ReadySetupIsCovered(after);
  }

  lemma ReadySetupIsCovered(s: G.Setup)
    requires G.Inv(s) && S.LayoutInv(s) && S.CoverInv(s) && s.stage == G.Ready
    ensures FullyCovered(s)
  {
    FullMasksExactly(s.layout.fields, s.sources, s.coveredButtons, s.coveredAxes);
  }

  /**
   A peer is adopted only while the window is open, bonded and saved, over a connection whose subscribed
   reports carry all five buttons and all four axes of the accepted layout.
   */
  lemma AdoptedIsCovered(saved: C.Option<C.Address>, anyone: C.Address, bonds: set<C.Address>, capacity: nat,
                         moves: seq<Move>, m: Move)
    ensures var j := Runs(saved, anyone, bonds, capacity, moves); var r := Moved(j, m);
            r.client.havePeer && !j.client.havePeer ==>
              && m.OfSetup? && j.client.pairing && j.client.conn == C.Some(r.client.peer)
              && r.client.peer in j.client.bonds && r.client.saved == C.Some(r.client.peer)
              && FullyCovered(r.setup)
  {
    var j := Runs(saved, anyone, bonds, capacity, moves);
    var r := Moved(j, m);
    if r.client.havePeer && !j.client.havePeer {
      match m {
        case OfClient(a) => P.OnlyFinishAdopts(j.client, a);
        case OfSetup(e, saveOk) => SetupAdopts(j, e, saveOk);
      }
    }
  }
}
