/**
 Runs that keep the order of the work queue, first in first out, and the state of the link. They are among
 the runs of the client, whose theorems hold in any order; here are the runs that break a promise.
 */
module ClientOrder {
  import opened MouseClient
  import opened ClientRuns
  import opened ClientProperties
  import opened ClientLooking
  import opened ClientTending

  // The coordinator's connect work shares the queue.
  datatype Item = Job(work: Work) | ConnectJob

  datatype Ordered = Ordered(client: Client, queue: seq<Item>, up: bool)

  datatype Move = Expires(work: Work) | Does(action: Action)

  // Delayed work enters the queue when its timer expires, the rest when it is submitted.
  predicate Delayed(w: Work) {
    w == Retry || w == Timeout || w == PairTimeout || w == Clear
  }

  function JobOf(a: Action): seq<Item> {
    if IsWork(a) then [Job(JobFor(a))] else if a.ConnectWork? then [ConnectJob] else []
  }

  predicate LinkAllows(up: bool, a: Action) {
    match a
    case ConnectedEvent(_, _) => !up
    case DisconnectedEvent(_) => up
    case SecurityChanged(_, _, _) => up
    case PairingComplete(_, _) => up
    case PairingFailed(_) => up
    case SetupAdvances => up
    case SetupFinishes(_, _) => up
    case _ => true
  }

  predicate Allowed(o: Ordered, m: Move) {
    match m
    case Expires(w) => Delayed(w) && w in o.client.due && Job(w) !in o.queue
    case Does(a) => Possible(o.client, a) && LinkAllows(o.up, a) && JobOf(a) <= o.queue
  }

  predicate Awaits(s: Client, item: Item) {
    match item
    case Job(w) => w in s.due
    case ConnectJob => s.request != None
  }

  // What is cancelled leaves the queue.
  function Kept(queue: seq<Item>, s: Client): seq<Item> {
    if queue == [] then []
    else
      var last := queue[|queue| - 1];
      Kept(queue[..|queue| - 1], s) + if Awaits(s, last) then [last] else []
  }

  function NewJob(w: Work, t: Client, r: Client): seq<Item> {
    if w in r.due && w !in t.due then [Job(w)] else []
  }

  // What the handler has submitted.
  function Submitted(t: Client, r: Client): seq<Item> {
    NewJob(Connected, t, r) + NewJob(Disconnected, t, r) + NewJob(Failure, t, r) + NewJob(Pair, t, r)
    + if r.request != None && t.request == None then [ConnectJob] else []
  }

  function Moved(o: Ordered, m: Move): Ordered {
    if !Allowed(o, m) then o
    else
      match m
      case Expires(w) => o.(queue := o.queue + [Job(w)])
      case Does(a) =>
        var t, r := Called(o.client, a), Step(o.client, a);
        Ordered(r, Kept(o.queue[|JobOf(a)|..], r) + Submitted(t, r), LinkAfter(o.up, a))
  }

  predicate LinkAfter(up: bool, a: Action) {
    if a.ConnectedEvent? then !a.error else up && !a.DisconnectedEvent?
  }

  function Runs(o: Ordered, moves: seq<Move>): Ordered {
    if moves == [] then o else Moved(Runs(o, moves[..|moves| - 1]), moves[|moves| - 1])
  }

  function Start(saved: Option<Address>, anyone: Address, bonds: set<Address>, capacity: nat): Ordered {
    Ordered(Begin(saved, anyone, bonds, capacity), [], false)
  }

  // Some run in order leads to this state.
  ghost predicate Occurs(o: Ordered) {
    exists saved, anyone, bonds, capacity, moves :: o == Runs(Start(saved, anyone, bonds, capacity), moves)
  }

  lemma StartOccurs(saved: Option<Address>, anyone: Address, bonds: set<Address>, capacity: nat)
    ensures Occurs(Start(saved, anyone, bonds, capacity))
  {
    assert Start(saved, anyone, bonds, capacity) == Runs(Start(saved, anyone, bonds, capacity), []);
  }

  lemma MoveOccurs(o: Ordered, m: Move)
    requires Occurs(o)
    ensures Occurs(Moved(o, m))
  {
    var saved, anyone, bonds, capacity, moves :| o == Runs(Start(saved, anyone, bonds, capacity), moves);
    assert (moves + [m])[..|moves|] == moves;
    assert Moved(o, m) == Runs(Start(saved, anyone, bonds, capacity), moves + [m]);
  }

  lemma {:induction false} RunIsReachable(o: Ordered, moves: seq<Move>)
    requires Reachable(o.client)
    ensures Reachable(Runs(o, moves).client)
  {
    if moves != [] {
      var init, m := moves[..|moves| - 1], moves[|moves| - 1];
      RunIsReachable(o, init);
      if m.Does? {
        ExtendReachable(Runs(o, init).client, m.action);
      }
    }
  }

  /** What occurs in order is reachable, so every theorem about reachable clients is about it too. */
  lemma OccursIsReachable(o: Ordered)
    requires Occurs(o)
    ensures Reachable(o.client)
  {
    var saved, anyone, bonds, capacity, moves :| o == Runs(Start(saved, anyone, bonds, capacity), moves);
    BeginReachable(saved, anyone, bonds, capacity);
    RunIsReachable(Start(saved, anyone, bonds, capacity), moves);
  }

  // ---- A client that pairs, up to the link being reported

  const YES := Host(true, true, true)

  lemma KeptAll(queue: seq<Item>, s: Client)
    requires forall item :: item in queue ==> Awaits(s, item)
    ensures Kept(queue, s) == queue
  {
    if queue != [] {
      KeptAll(queue[..|queue| - 1], s);
    }
  }

  // An action from outside, which leaves the queue's jobs due.
  lemma OutsideMove(o: Ordered, a: Action, r: Client)
    requires Allowed(o, Does(a)) && JobOf(a) == [] && r == Step(o.client, a)
    requires forall item :: item in o.queue ==> Awaits(r, item)
    ensures Moved(o, Does(a)) == Ordered(r, o.queue + Submitted(o.client, r), LinkAfter(o.up, a))
  {
    KeptAll(o.queue, r);
    assert Called(o.client, a) == o.client;
  }

  lemma PairRequested(c: Address) returns (o: Ordered)
    ensures Occurs(o) && o.queue == [Job(Pair)] && !o.up
    ensures o.client == Begin(None, c, {}, 1).(due := {Retry, Pair})
  {
    var o0 := Start(None, c, {}, 1);
    StartOccurs(None, c, {}, 1);
    OutsideMove(o0, PairRequest, o0.client.(due := {Retry, Pair}));
    o := Moved(o0, Does(PairRequest));
    MoveOccurs(o0, Does(PairRequest));
  }

  lemma WindowOpened(c: Address) returns (o: Ordered)
    ensures Occurs(o) && o.queue == [] && !o.up
    ensures o.client == Begin(None, c, {}, 1).(pairing := true, scanWanted := true, due := {Retry, PairTimeout})
  {
    var o1 := PairRequested(c);
    o := Moved(o1, Does(PairWork));
    MoveOccurs(o1, Does(PairWork));
    assert Called(o1.client, PairWork).due == {Retry};
  }

  lemma RequestPosted(c: Address) returns (o: Ordered)
    ensures Occurs(o) && o.queue == [ConnectJob] && !o.up
    ensures o.client == Begin(None, c, {}, 1).(pairing := true, scanWanted := true, due := {Retry, PairTimeout},
                                               request := Some(c))
  {
    var o2 := WindowOpened(c);
    OutsideMove(o2, Advertised(c), o2.client.(request := Some(c)));
    o := Moved(o2, Does(Advertised(c)));
    MoveOccurs(o2, Does(Advertised(c)));
  }

  lemma CandidateTaken(c: Address) returns (o: Ordered)
    ensures Occurs(o) && o.queue == [] && !o.up
    ensures var s := o.client;
            && s.conn == Some(c) && s.stage == Connecting && s.newCandidate && !s.havePeer && !s.failure && s.log.armed
            && !s.forgetRequested && s.bonds == {} && s.log.leaked == {} && !s.log.owed && s.request == None
            && s.due == {Retry, PairTimeout, Timeout}
  {
    var o3 := RequestPosted(c);
    o := Moved(o3, Does(ConnectWork(true, true)));
    MoveOccurs(o3, Does(ConnectWork(true, true)));
  }

  // ---- A leaked bond

  lemma LinkReported(c: Address) returns (o: Ordered)
    ensures Occurs(o) && o.queue == [Job(Connected)] && o.up
    ensures var s := o.client;
            && s.conn == Some(c) && s.newCandidate && !s.havePeer && !s.forgetRequested && s.log.armed
            && s.bonds == {} && s.log.leaked == {} && s.request == None
            && s.due == {Retry, PairTimeout, Timeout, Connected}
  {
    var o4 := CandidateTaken(c);
    OutsideMove(o4, ConnectedEvent(c, false), Step(o4.client, ConnectedEvent(c, false)));
    o := Moved(o4, Does(ConnectedEvent(c, false)));
    MoveOccurs(o4, Does(ConnectedEvent(c, false)));
  }

  // The peer has paired before the worker has got to the connection.
  lemma CandidateBonded(c: Address) returns (o: Ordered)
    ensures Occurs(o) && o.queue == [Job(Connected)] && o.up
    ensures var s := o.client;
            && s.conn == Some(c) && s.newCandidate && !s.havePeer && !s.forgetRequested && s.log.armed
            && s.bonds == {c} && s.candidateBonded && s.log.leaked == {} && s.request == None
            && s.due == {Retry, PairTimeout, Timeout, Connected}
  {
    var o5 := LinkReported(c);
    OutsideMove(o5, PairingComplete(c, true), Step(o5.client, PairingComplete(c, true)));
    o := Moved(o5, Does(PairingComplete(c, true)));
    MoveOccurs(o5, Does(PairingComplete(c, true)));
  }

  lemma LinkLost(c: Address) returns (o: Ordered)
    ensures Occurs(o) && o.queue == [Job(Connected), Job(Disconnected)] && !o.up
    ensures var s := o.client;
            && s.conn == Some(c) && s.newCandidate && !s.havePeer && !s.forgetRequested && s.log.armed
            && s.bonds == {c} && s.log.leaked == {} && s.request == None
            && s.due == {Retry, PairTimeout, Timeout, Connected, Disconnected}
  {
    var o6 := CandidateBonded(c);
    OutsideMove(o6, DisconnectedEvent(c), Step(o6.client, DisconnectedEvent(c)));
    o := Moved(o6, Does(DisconnectedEvent(c)));
    MoveOccurs(o6, Does(DisconnectedEvent(c)));
  }

  /**
   A leak does happen: the link is up and the peer pairs, the link is lost, and the automatic reconnection
   fails, all before the worker gets to the first report of the connection, which now reads as a failure.
   */
  lemma LeakHappens(c: Address) returns (o: Ordered, a: Action)
    ensures Occurs(o) && Allowed(o, Does(a)) && Leaks(o.client, a) && o.client.log.leaked == {}
    ensures var r := Moved(o, Does(a)).client; r.bonds == {c} && Mine(r) == {}
  {
    var o7 := LinkLost(c);
    OutsideMove(o7, ConnectedEvent(c, true), Step(o7.client, ConnectedEvent(c, true)));
    o := Moved(o7, Does(ConnectedEvent(c, true)));
    MoveOccurs(o7, Does(ConnectedEvent(c, true)));
    a := ConnectedWork(Started, YES);
  }

  // ---- A stalled Clear

  const REFUSES := Host(true, false, true)

  function Saved(c: Address): Ordered {
    Start(Some(c), c, {c}, 1)
  }

  // The retry has run, and has posted its request.
  function Requesting(c: Address): Ordered {
    Ordered(Saved(c).client.(due := {}, scanWanted := true, request := Some(c)), [ConnectJob], false)
  }

  lemma RetryRequests(c: Address)
    ensures Moved(Moved(Saved(c), Expires(Retry)), Does(RetryWork)) == Requesting(c)
  {
    var o := Moved(Saved(c), Expires(Retry));
    assert o == Saved(c).(queue := [Job(Retry)]);
    assert Called(o.client, RetryWork).due == {};
  }

  /** An attempt to reach the saved mouse that fails ends where it began, but for the length of the next delay. */
  lemma FailedAttemptReturns(c: Address)
    ensures Moved(Moved(Moved(Saved(c), Expires(Retry)), Does(RetryWork)), Does(ConnectWork(true, false))) == Saved(c)
  {
    RetryRequests(c);
  }

  // The retry and the held Clear expire one after the other.
  lemma BothExpired(c: Address) returns (o: Ordered)
    ensures Occurs(o) && o.queue == [Job(Retry), Job(Clear)] && !o.up
    ensures o.client == Saved(c).client.(clearHeld := true, due := {Retry, Clear})
  {
    var o0 := Saved(c);
    StartOccurs(Some(c), c, {c}, 1);
    OutsideMove(o0, ClearHold(true), o0.client.(clearHeld := true, due := {Retry, Clear}));
    var o1 := Moved(o0, Does(ClearHold(true)));
    MoveOccurs(o0, Does(ClearHold(true)));
    var o2 := Moved(o1, Expires(Retry));
    MoveOccurs(o1, Expires(Retry));
    o := Moved(o2, Expires(Clear));
    MoveOccurs(o2, Expires(Clear));
  }

  lemma RetriedBeforeClear(c: Address) returns (o: Ordered)
    ensures Occurs(o) && o.queue == [Job(Clear), ConnectJob] && !o.up
    ensures o.client == Saved(c).client.(clearHeld := true, due := {Clear}, scanWanted := true, request := Some(c))
  {
    var o3 := BothExpired(c);
    assert Called(o3.client, RetryWork).due == {Clear};
    assert o3.queue[1..] == [Job(Clear)];
    o := Moved(o3, Does(RetryWork));
    MoveOccurs(o3, Does(RetryWork));
    KeptAll([Job(Clear)], o.client);
  }

  lemma RefusedClear(s: Client)
    requires s.clearHeld && s.conn == None && s.due == {}
    ensures DoClearWork(s, REFUSES) == s.(pairing := false, scanWanted := false, forgetRequested := false)
  {
    assert s.due - {PairTimeout} == s.due;
  }

  lemma RefusedStep(s: Client)
    requires s.clearHeld && s.conn == None && s.due == {Clear}
    ensures Possible(s, ClearWork(REFUSES)) && Called(s, ClearWork(REFUSES)) == s.(due := {})
    ensures Step(s, ClearWork(REFUSES)) == s.(due := {}, pairing := false, scanWanted := false, forgetRequested := false)
  {
    var t := s.(due := {});
    assert s.due - {Clear} == {};
    RefusedClear(t);
  }

  lemma ClearRefused(c: Address) returns (o: Ordered, a: Action)
    ensures Occurs(o) && Stalls(o.client, a) && Allowed(o, Does(a))
    ensures var r := Moved(o, Does(a));
            && r.queue == [ConnectJob] && !r.up
            && r.client == Saved(c).client.(clearHeld := true, due := {}, request := Some(c))
  {
    o := RetriedBeforeClear(c);
    a := ClearWork(REFUSES);
    RefusedStep(o.client);
    assert JobOf(a) == [Job(Clear)] && o.queue[1..] == [ConnectJob];
    KeptAll([ConnectJob], Step(o.client, a));
  }

  /**
   A stall does happen: a Clear that the host refuses runs just after the retry and before its request is
   served, which then finds nothing wanted. A bonded mouse is left that nothing will look for.
   */
  lemma StallHappens(c: Address) returns (o: Ordered)
    ensures Occurs(o) && Lacks(o.client) && !Looks(o.client)
    ensures o.client.due == {} && o.client.request == None && o.queue == []
  {
    var before, a := ClearRefused(c);
    var cleared := Moved(before, Does(a));
    MoveOccurs(before, Does(a));
    o := Moved(cleared, Does(ConnectWork(true, true)));
    MoveOccurs(cleared, Does(ConnectWork(true, true)));
  }

  // ---- An abandoned connection

  lemma RequestingOccurs(c: Address)
    ensures Occurs(Requesting(c))
  {
    StartOccurs(Some(c), c, {c}, 1);
    MoveOccurs(Saved(c), Expires(Retry));
    MoveOccurs(Moved(Saved(c), Expires(Retry)), Does(RetryWork));
    RetryRequests(c);
  }

  // The saved mouse is being connected to, and nothing but this work is due.
  predicate Reaching(s: Client, c: Address, w: Work) {
    s.conn == Some(c) && s.stage == Connecting && !s.newCandidate && !s.clearHeld && !s.log.owed
    && s.due == {w} && s.request == None
  }

  lemma MouseTaken(c: Address) returns (o: Ordered)
    ensures Occurs(o) && o.queue == [] && Reaching(o.client, c, Timeout)
  {
    RequestingOccurs(c);
    o := Moved(Requesting(c), Does(ConnectWork(true, true)));
    MoveOccurs(Requesting(c), Does(ConnectWork(true, true)));
  }

  lemma MouseTimedOut(c: Address) returns (o: Ordered)
    ensures Occurs(o) && o.queue == [Job(Timeout)] && Reaching(o.client, c, Timeout)
  {
    var o1 := MouseTaken(c);
    o := Moved(o1, Expires(Timeout));
    MoveOccurs(o1, Expires(Timeout));
  }

  lemma FailedByTimer(c: Address) returns (o: Ordered)
    ensures Occurs(o) && o.queue == [Job(Failure)] && Reaching(o.client, c, Failure)
  {
    var o2 := MouseTimedOut(c);
    o := Moved(o2, Does(TimeoutWork));
    MoveOccurs(o2, Does(TimeoutWork));
    assert Called(o2.client, TimeoutWork).due == {};
    assert o2.queue[1..] == [];
  }

  /**
   An abandoned connection does happen: the saved mouse is not reached in time, and the host refuses to end
   the attempt. The connection is held, with nothing due, queued or requested.
   */
  lemma AbandonHappens(c: Address) returns (o: Ordered, a: Action)
    ensures Occurs(o) && Allowed(o, Does(a)) && Abandons(o.client, a) && Tended(o.client)
    ensures var r := Moved(o, Does(a));
            && !Tended(r.client) && r.client.conn == Some(c)
            && r.client.due == {} && r.client.request == None && r.queue == []
  {
    o := FailedByTimer(c);
    a := FailureWork(Rejected, YES);
    assert Called(o.client, a).due == {};
    assert o.queue[1..] == [];
  }
}
