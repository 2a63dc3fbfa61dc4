/**
 The client and the output stream together (src/ble_mouse.c, src/mouse_output.c): notifications reach the
 stream only from a ready client, and what has been ready is never dropped without disconnecting the stream.
 */
module ClientOutput {
  import C = MouseClient
  import R = ClientRuns
  import T = ClientTending
  import K = ClientCauses
  import P = OutputPipeline
  import opened Masks
  import opened MouseOutput

  const MAX_CHARACTERISTICS := 12

  // `held` are the buttons of each report of the session; `live`: the connection that is held has been ready.
  datatype Joint = Joint(client: C.Client, output: P.Pipeline, held: seq<bv8>, live: bool)

  datatype Move =
    | OfClient(action: C.Action)
    | Report(index: nat, motion: Motion, buttons: bv8)   // `notify_cb`, with a report that decodes
    | EndpointChanges
    | OfOutput(step: P.Action)                // a submission, initialization, or the worker

  // ---- The calls of `zmk_mouse_output_disconnect`

  function OfForgetting(s: C.Client, host: C.Host): nat {
    if s.havePeer && !host.forgetOk then 0 else 1
  }

  function OfDropping(s: C.Client, host: C.Host): nat {
    1 + if s.forgetRequested then OfForgetting(s, host) else 0
  }

  // How many of them the step makes. Dropping a connection that was reported to have failed makes none of its own.
  function Disconnections(s: C.Client, a: C.Action): nat {
    if !C.Possible(s, a) then 0
    else
      match a
      case DisconnectedWork(host) => if s.conn == C.None then 0 else OfDropping(s, host)
      case FailureWork(answer, host) => if s.conn == C.None || answer != C.NotConnected then 0 else OfDropping(s, host)
      case ConnectedWork(_, host) =>
        if s.conn == C.None || !s.connectedError || !s.forgetRequested then 0 else OfForgetting(s, host)
      case ClearWork(host) => if s.clearHeld && s.conn == C.None then OfForgetting(s, host) else 0
      case _ => 0
  }

  function Disconnected(capacity: nat, output: P.Pipeline, calls: nat): P.Pipeline {
    if calls == 0 then output
    else P.Step(capacity, Disconnected(capacity, output, calls - 1), P.ResetStream(true))
  }

  // ---- The buttons of all reports

  const NONE_HELD: seq<bv8> := [0, 0, 0, 0, 0, 0, 0, 0, 0, 0, 0, 0]

  function Union(held: seq<bv8>): bv8 {
    if held == [] then 0 else Union(held[..|held| - 1]) | held[|held| - 1]
  }

  lemma {:induction false} UnionMeaning(held: seq<bv8>, i: Button)
    ensures Has(Union(held), i) <==> exists k :: 0 <= k < |held| && Has(held[k], i)
  {
    if held == [] {
      HasAll(i);
    } else {
      var n := |held| - 1;
      UnionMeaning(held[..n], i);
      HasOr(Union(held[..n]), held[n], i);
    }
  }

  lemma {:induction false} UnionOfNone(held: seq<bv8>)
    requires forall k :: 0 <= k < |held| ==> held[k] == 0
    ensures Union(held) == 0
  {
    if held != [] {
      UnionOfNone(held[..|held| - 1]);
    }
  }

  // The loop of `notify_cb`.
  method JoinButtons(held: seq<bv8>) returns (physical: bv8)
    ensures physical == Union(held)
  {
    physical := 0;
    for i := 0 to |held|
      invariant physical == Union(held[..i])
    {
      assert held[..i + 1][..i] == held[..i];
      physical := physical | held[i];
    }
    assert held[..|held|] == held;
  }

  // ---- Steps

  // The step attempts a connection, and with it begins a new session.
  predicate Begins(s: C.Client, a: C.Action) {
    a.ConnectWork? && a.stopped && s.request != C.None
    && C.ConnectVerdict(s.(request := C.None), s.request.value, a.ok) in {C.Taken, C.NotFound}
  }

  predicate Reporting(s: C.Client) {
    s.conn != C.None && !s.failure && s.stage == C.Ready
  }

  predicate Scheduling(a: P.Action) {
    a.Submit? || a.Initialize? || a.Worker?
  }

  function Stepped(capacity: nat, j: Joint, a: C.Action): Joint {
    var r := C.Step(j.client, a);
    Joint(r, Disconnected(capacity, j.output, Disconnections(j.client, a)),
          if Begins(j.client, a) then NONE_HELD else j.held, r.conn != C.None && (j.live || r.stage == C.Ready))
  }

  function Reported(capacity: nat, j: Joint, motion: Motion, held: seq<bv8>): Joint {
    j.(held := held, output := P.Step(capacity, j.output, P.Receive(motion, Union(held))))
  }

  function Moved(capacity: nat, j: Joint, m: Move): Joint {
    match m
    case OfClient(a) => Stepped(capacity, j, a)
    case Report(index, motion, buttons) =>
      if Reporting(j.client) && index < |j.held| then Reported(capacity, j, motion, j.held[index := buttons]) else j
    case EndpointChanges => j.(output := P.Step(capacity, j.output, P.ResetStream(false)))
    case OfOutput(a) => if Scheduling(a) then j.(output := P.Step(capacity, j.output, a)) else j
  }

  // ---- A connection that has been ready

  // It is not waiting to be reported: no such report is left, and none will come.
  ghost predicate Established(s: C.Client) {
    s.conn != C.None && (s.stage == C.Ready || s.stage == C.Closing) && !s.log.armed && C.Connected !in s.due
  }

  ghost predicate LiveInv(j: Joint) {
    && (j.live ==> Established(j.client))
    && (j.client.stage == C.Ready ==> j.live)
    && (!j.live ==> j.output.shared.physical == 0)
  }

  // The stream has exactly the buttons that the session's reports hold.
  ghost predicate HeldInv(j: Joint) {
    && |j.held| == MAX_CHARACTERISTICS
    && (j.client.conn != C.None && !j.live ==> Union(j.held) == 0)
    && (j.live ==> j.output.shared.physical == Union(j.held) & ALL_BUTTONS)
  }

  ghost predicate JointInv(j: Joint) {
    R.Inv(j.client) && T.HostInv(j.client) && P.Inv(j.output) && LiveInv(j) && HeldInv(j)
  }

  // It stays so until it is dropped, with a disconnection of the stream.
  ghost predicate Stays(s: C.Client, a: C.Action, r: C.Client) {
    Established(r) || (r.conn == C.None && Disconnections(s, a) > 0)
  }

  lemma SameEstablished(s: C.Client, r: C.Client)
    requires Established(s) && r.conn == s.conn && r.stage in {s.stage, C.Closing} && r.log.armed == s.log.armed
    requires C.Connected !in r.due
    ensures Established(r)
  {
  }

  lemma ClosingStays(s: C.Client, t: C.Client, answer: C.DisconnectAnswer, host: C.Host)
    requires Established(s) && R.Taking(s, t, C.Failure) && answer != C.NotConnected
    ensures Established(C.DoFailureWork(t, answer, host))
  {
  }

  lemma FailureStays(s: C.Client, t: C.Client, answer: C.DisconnectAnswer, host: C.Host)
    requires Established(s) && R.Taking(s, t, C.Failure) && C.Possible(s, C.FailureWork(answer, host))
    ensures Stays(s, C.FailureWork(answer, host), C.DoFailureWork(t, answer, host))
  {
    if answer != C.NotConnected {
      ClosingStays(s, t, answer, host);
    }
  }

  lemma WorkStays(s: C.Client, t: C.Client, a: C.Action)
    requires Established(s) && C.IsWork(a) && C.Possible(s, a) && R.Taking(s, t, C.JobFor(a))
    ensures Stays(s, a, C.Perform(t, a))
  {
    match a {
      case ConnectedWork(_, _) => assert false;
      case DisconnectedWork(host) =>
      case FailureWork(answer, host) => FailureStays(s, t, answer, host);
      case RetryWork => SameEstablished(s, C.Rescan(t));
      case TimeoutWork => SameEstablished(s, C.Perform(t, a));
      case PairTimeoutWork => SameEstablished(s, C.DoPairTimeout(t));
      case PairWork => SameEstablished(s, C.DoPairWork(t));
      case ClearWork(host) => SameEstablished(s, C.DoClearWork(t, host));
    }
  }

  lemma LinkLostStays(s: C.Client, addr: C.Address)
    requires Established(s)
    ensures Established(C.OnDisconnectedEvent(s, addr))
  {
  }

  lemma SecurityStays(s: C.Client, addr: C.Address, error: bool, secure: bool)
    requires Established(s)
    ensures Established(C.OnSecurityChanged(s, addr, error, secure))
  {
  }

  lemma PairingStays(s: C.Client, addr: C.Address, bonded: bool)
    requires Established(s)
    ensures Established(C.OnPairingComplete(s, addr, bonded))
  {
    if !bonded && C.Owns(s, addr) {
      SameEstablished(s, C.Fail(s.(candidateBonded := false)));
    }
  }

  lemma HostStays(s: C.Client, a: C.Action)
    requires Established(s) && C.FromHost(a) && C.Plausible(s, a)
    ensures Established(C.HostCalls(s, a))
  {
    match a {
      case ConnectedEvent(_, _) => assert false;
      case DisconnectedEvent(addr) => LinkLostStays(s, addr);
      case SecurityChanged(addr, error, secure) => SecurityStays(s, addr, error, secure);
      case PairingComplete(addr, bonded) => PairingStays(s, addr, bonded);
      case PairingFailed(_) => SameEstablished(s, C.Fail(s));
    }
  }

  lemma SetupStays(s: C.Client, a: C.Action)
    requires Established(s) && C.FromSetup(a)
    ensures Established(C.SetupMoves(s, a))
  {
    SameEstablished(s, C.SetupMoves(s, a));
  }

  lemma ConnectWorkStays(s: C.Client, stopped: bool, ok: bool)
    requires Established(s)
    ensures Established(C.DoConnectWork(s, stopped, ok))
  {
    SameEstablished(s, C.DoConnectWork(s, stopped, ok));
  }

  lemma RestStays(s: C.Client, a: C.Action)
    requires Established(s) && !C.IsWork(a) && !C.FromHost(a) && !C.FromSetup(a)
    ensures Established(C.RestMoves(s, a))
  {
    if a.ConnectWork? {
      ConnectWorkStays(s, a.stopped, a.ok);
    } else {
      SameEstablished(s, C.RestMoves(s, a));
    }
  }

  lemma StepStays(s: C.Client, a: C.Action)
    requires Established(s)
    ensures Stays(s, a, C.Step(s, a))
  {
    if C.Possible(s, a) {
      if C.IsWork(a) {
        WorkStays(s, C.Called(s, a), a);
      } else if C.FromHost(a) {
        HostStays(s, a);
      } else if C.FromSetup(a) {
        SetupStays(s, a);
      } else {
        RestStays(s, a);
      }
    }
  }

  // A client that becomes ready has nothing left to be reported.
  lemma ReadyIsEstablished(r: C.Client)
    requires R.Inv(r) && T.HostInv(r) && r.stage == C.Ready
    ensures Established(r)
  {
  }

  lemma ConnectTakes(s: C.Client, addr: C.Address, ok: bool)
    requires s.conn == C.None
    ensures var r := C.DoConnect(s, addr, ok);
            r.conn != C.None ==> C.ConnectVerdict(s, addr, ok) == C.Taken && r.stage == C.Connecting
  {
  }

  // A connection is held from the start of a session on, at first only being made.
  lemma TakenInSession(s: C.Client, a: C.Action)
    requires s.conn == C.None
    ensures var r := C.Step(s, a); r.conn != C.None ==> Begins(s, a) && r.stage == C.Connecting
  {
    if !a.ConnectWork? {
      K.StepStaysFree(s, a);
    } else if s.request != C.None {
      ConnectTakes(s.(request := C.None), s.request.value, a.ok);
    }
  }

  lemma NoneHeld()
    ensures |NONE_HELD| == MAX_CHARACTERISTICS && Union(NONE_HELD) == 0
  {
    UnionOfNone(NONE_HELD);
  }

  // ---- The stream

  lemma OutputKeeps(capacity: nat, output: P.Pipeline, a: P.Action)
    requires P.Inv(output)
    ensures P.Inv(P.Step(capacity, output, a))
  {
    P.StepKeepsInv(capacity, output, a);
  }

  lemma {:induction false} DisconnectedKeeps(capacity: nat, output: P.Pipeline, calls: nat)
    requires P.Inv(output)
    ensures var r := Disconnected(capacity, output, calls);
            P.Inv(r) && r.shared.physical == if calls > 0 then 0 else output.shared.physical
  {
    if calls > 0 {
      DisconnectedKeeps(capacity, output, calls - 1);
      OutputKeeps(capacity, Disconnected(capacity, output, calls - 1), P.ResetStream(true));
    }
  }

  lemma KeepsPhysical(capacity: nat, output: P.Pipeline, a: P.Action)
    requires Scheduling(a) || a == P.ResetStream(false)
    ensures P.Step(capacity, output, a).shared.physical == output.shared.physical
  {
  }

  // ---- Every run of both

  lemma ClientMoveKeeps(capacity: nat, j: Joint, a: C.Action)
    requires JointInv(j)
    ensures JointInv(Moved(capacity, j, OfClient(a)))
  {
    var r := C.Step(j.client, a);
    R.StepKeepsInv(j.client, a);
    T.StepKeepsHost(j.client, a);
    DisconnectedKeeps(capacity, j.output, Disconnections(j.client, a));
    if j.live {
      StepStays(j.client, a);
    }
    if r.stage == C.Ready {
      ReadyIsEstablished(r);
    }
    NoneHeld();
    if j.client.conn == C.None {
      TakenInSession(j.client, a);
    }
    SessionKeeps(j, a);
  }

  // A session begins only without a connection, and while one is held that has been ready nothing is disconnected.
  lemma SessionKeeps(j: Joint, a: C.Action)
    requires JointInv(j)
    ensures Begins(j.client, a) ==> j.client.conn == C.None
    ensures j.client.conn != C.None && C.Step(j.client, a).conn != C.None ==> Disconnections(j.client, a) == 0
  {
  }

  lemma ReportKeeps(capacity: nat, j: Joint, index: nat, motion: Motion, buttons: bv8)
    requires JointInv(j)
    ensures JointInv(Moved(capacity, j, Report(index, motion, buttons)))
  {
    if Reporting(j.client) && index < |j.held| {
      OutputKeeps(capacity, j.output, P.Receive(motion, Union(j.held[index := buttons])));
    }
  }

  lemma OutputMoveKeeps(capacity: nat, j: Joint, a: P.Action)
    requires JointInv(j) && (Scheduling(a) || a == P.ResetStream(false))
    ensures JointInv(j.(output := P.Step(capacity, j.output, a)))
  {
    OutputKeeps(capacity, j.output, a);
    KeepsPhysical(capacity, j.output, a);
  }

  lemma MoveKeeps(capacity: nat, j: Joint, m: Move)
    requires JointInv(j)
    ensures JointInv(Moved(capacity, j, m))
  {
    match m {
      case OfClient(a) => ClientMoveKeeps(capacity, j, a);
      case Report(index, motion, buttons) => ReportKeeps(capacity, j, index, motion, buttons);
      case EndpointChanges => OutputMoveKeeps(capacity, j, P.ResetStream(false));
      case OfOutput(a) => if Scheduling(a) { OutputMoveKeeps(capacity, j, a); }
    }
  }

  ghost function Runs(capacity: nat, saved: C.Option<C.Address>, anyone: C.Address, bonds: set<C.Address>, most: nat,
                      moves: seq<Move>): (j: Joint)
    ensures JointInv(j)
  {
    if moves == [] then
      R.BeginInv(saved, anyone, bonds, most);
      P.InitialInv();
      NoneHeld();
      Joint(C.Begin(saved, anyone, bonds, most), P.INITIAL, NONE_HELD, false)
    else
      var j, m := Runs(capacity, saved, anyone, bonds, most, moves[..|moves| - 1]), moves[|moves| - 1];
      MoveKeeps(capacity, j, m);
      Moved(capacity, j, m)
  }

  /**
   In every run a connection that has been ready is dropped only by a step that disconnects the stream; the
   report of a failed connection, which drops its connection without doing so, never meets one.
   */
  lemma DroppingDisconnects(capacity: nat, saved: C.Option<C.Address>, anyone: C.Address, bonds: set<C.Address>, most: nat,
                            moves: seq<Move>, a: C.Action)
    ensures var j := Runs(capacity, saved, anyone, bonds, most, moves);
            j.live ==>
              && (C.Step(j.client, a).conn == C.None ==> Disconnections(j.client, a) > 0)
              && !(a.ConnectedWork? && C.Possible(j.client, a))
  {
    var j := Runs(capacity, saved, anyone, bonds, most, moves);
    if j.live {
      StepStays(j.client, a);
    }
  }

  // Some report of the session has the button down.
  ghost predicate SomeHolds(held: seq<bv8>, i: Button) {
    exists k :: 0 <= k < |held| && Has(held[k], i)
  }

  /**
   In every run a button is physically down for the stream exactly if the connection that is held has been
   ready and some report of it has the button down; once the stream's worker is idle with nothing waiting,
   exactly those buttons are forwarded or suppressed, and the listener holds only such. So without a mouse
   it holds none.
   */
  lemma HeldExactly(capacity: nat, saved: C.Option<C.Address>, anyone: C.Address, bonds: set<C.Address>, most: nat,
                    moves: seq<Move>, i: Button)
    ensures var j := Runs(capacity, saved, anyone, bonds, most, moves); var o := j.output;
            && (Has(o.shared.physical, i) <==> j.live && SomeHolds(j.held, i))
            && (o.pc.Idle? && !P.WorkWaits(o) ==>
                  && (Has(o.buttons.forwarded, i) || Has(o.buttons.suppressed, i) <==> j.live && SomeHolds(j.held, i))
                  && P.Net(o.sent, i) == if Has(o.buttons.forwarded, i) then 1 else 0)
  {
    var j := Runs(capacity, saved, anyone, bonds, most, moves);
    HeldNow(j, i);
    if j.output.pc.Idle? && !P.WorkWaits(j.output) {
      P.SettledNow(j.output, i);
      HasOr(j.output.buttons.forwarded, j.output.buttons.suppressed, i);
    }
  }

  lemma HeldNow(j: Joint, i: Button)
    requires JointInv(j)
    ensures Has(j.output.shared.physical, i) <==> j.live && SomeHolds(j.held, i)
  {
    UnionMeaning(j.held, i);
    HasAll(i);
    HasAnd(Union(j.held), ALL_BUTTONS, i);
  }
}
