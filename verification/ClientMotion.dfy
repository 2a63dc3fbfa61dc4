/** From the notifications of a ready mouse to the listener (src/ble_mouse.c, src/mouse_output.c): the motion that arrives. */
module ClientMotion {
  import C = MouseClient
  import P = OutputPipeline
  import M = OutputMotion
  import opened MouseOutput
  import opened ClientOutput

  // ---- The stream's side of a joint run

  function Resets(n: nat): seq<P.Action> {
    if n == 0 then [] else Resets(n - 1) + [P.ResetStream(true)]
  }

  function ActsOf(j: Joint, m: Move): seq<P.Action> {
    match m
    case OfClient(a) => Resets(Disconnections(j.client, a))
    case Report(index, motion, buttons) =>
      if Reporting(j.client) && index < |j.held| then [P.Receive(motion, Union(j.held[index := buttons]))] else []
    case EndpointChanges => [P.ResetStream(false)]
    case OfOutput(a) => if Scheduling(a) then [a] else []
  }

  // How a joint run begins.
  datatype Setting = Setting(
    capacity: nat, saved: C.Option<C.Address>, anyone: C.Address, bonds: set<C.Address>, most: nat)

  ghost function At(setting: Setting, moves: seq<Move>): Joint {
    Runs(setting.capacity, setting.saved, setting.anyone, setting.bonds, setting.most, moves)
  }

  ghost function Acts(setting: Setting, moves: seq<Move>): seq<P.Action> {
    if moves == [] then []
    else Acts(setting, moves[..|moves| - 1]) + ActsOf(At(setting, moves[..|moves| - 1]), moves[|moves| - 1])
  }

  lemma OneMoreAct(capacity: nat, acts: seq<P.Action>, a: P.Action)
    ensures P.Run(capacity, acts + [a]) == P.Step(capacity, P.Run(capacity, acts), a)
  {
    assert (acts + [a])[..|acts|] == acts;
  }

  lemma OneMoreReset(acts: seq<P.Action>, n: nat)
    requires n > 0
    ensures acts + Resets(n) == (acts + Resets(n - 1)) + [P.ResetStream(true)]
  {
  }

  lemma {:induction false} ResetsRun(capacity: nat, acts: seq<P.Action>, n: nat)
    ensures P.Run(capacity, acts + Resets(n)) == Disconnected(capacity, P.Run(capacity, acts), n)
  {
    if n == 0 {
      assert acts + [] == acts;
    } else {
      ResetsRun(capacity, acts, n - 1);
      OneMoreAct(capacity, acts + Resets(n - 1), P.ResetStream(true));
      OneMoreReset(acts, n);
    }
  }

  lemma MoveRuns(capacity: nat, acts: seq<P.Action>, j: Joint, m: Move)
    requires j.output == P.Run(capacity, acts)
    ensures Moved(capacity, j, m).output == P.Run(capacity, acts + ActsOf(j, m))
  {
    if m.OfClient? {
      ResetsRun(capacity, acts, Disconnections(j.client, m.action));
    } else if ActsOf(j, m) == [] {
      assert acts + [] == acts;
    } else {
      OneMoreAct(capacity, acts, ActsOf(j, m)[0]);
    }
  }

  lemma AtNext(setting: Setting, moves: seq<Move>)
    requires moves != []
    ensures At(setting, moves) == Moved(setting.capacity, At(setting, moves[..|moves| - 1]), moves[|moves| - 1])
  {
  }

  /** The stream of a joint run does what it does in a run of its own, so every theorem about those is about it too. */
  lemma {:induction false} StreamRuns(setting: Setting, moves: seq<Move>)
    ensures At(setting, moves).output == P.Run(setting.capacity, Acts(setting, moves))
  {
    if moves != [] {
      var init, m := moves[..|moves| - 1], moves[|moves| - 1];
      StreamRuns(setting, init);
      MoveRuns(setting.capacity, Acts(setting, init), At(setting, init), m);
      AtNext(setting, moves);
    }
  }

  // ---- What the reports ask for

  // The move purges the queue: a disconnection, a changed endpoint, or a report that finds the queue full.
  predicate Purging(capacity: nat, j: Joint, m: Move) {
    match m
    case OfClient(a) => Disconnections(j.client, a) > 0
    case Report(index, _, _) => Reporting(j.client) && index < |j.held| && |j.output.shared.queue| >= capacity
    case EndpointChanges => true
    case OfOutput(_) => false
  }

  // The motion that reports of a ready mouse have asked for since the queue was last purged.
  ghost function ReportsAsk(setting: Setting, moves: seq<Move>, a: Axis): int {
    if moves == [] then 0
    else
      var init, m := moves[..|moves| - 1], moves[|moves| - 1];
      var j := At(setting, init);
      if Purging(setting.capacity, j, m) then 0
      else
        ReportsAsk(setting, init, a)
        + if m.Report? && Reporting(j.client) && m.index < |j.held| then M.Whole(m.motion.Axis(a), a) else 0
  }

  // What the stream counts as asked for since its last purge.
  function AskedSince(capacity: nat, acts: seq<P.Action>, a: Axis): int {
    M.Asked(acts, M.Since(capacity, acts), a)
  }

  lemma {:induction false} NothingAsked(acts: seq<P.Action>, a: Axis)
    ensures M.Asked(acts, |acts|, a) == 0
  {
  }

  lemma SinceNext(capacity: nat, acts: seq<P.Action>, act: P.Action, a: Axis)
    ensures AskedSince(capacity, acts + [act], a)
            == if M.Purges(capacity, P.Run(capacity, acts), act) then 0
               else AskedSince(capacity, acts, a) + if act.Receive? then M.Whole(act.motion.Axis(a), a) else 0
  {
    assert (acts + [act])[..|acts|] == acts;
    NothingAsked(acts + [act], a);
    M.AskedOneMore(acts, act, M.Since(capacity, acts), a);
  }

  lemma ResetsPurge(capacity: nat, acts: seq<P.Action>, n: nat, a: Axis)
    ensures AskedSince(capacity, acts + Resets(n), a) == if n == 0 then AskedSince(capacity, acts, a) else 0
  {
    if n == 0 {
      assert acts + [] == acts;
    } else {
      SinceNext(capacity, acts + Resets(n - 1), P.ResetStream(true), a);
      OneMoreReset(acts, n);
    }
  }

  lemma MoveAsks(capacity: nat, acts: seq<P.Action>, j: Joint, m: Move, a: Axis)
    requires j.output == P.Run(capacity, acts)
    ensures AskedSince(capacity, acts + ActsOf(j, m), a)
            == if Purging(capacity, j, m) then 0
               else AskedSince(capacity, acts, a)
                    + if m.Report? && Reporting(j.client) && m.index < |j.held| then M.Whole(m.motion.Axis(a), a) else 0
  {
    if m.OfClient? {
      ResetsPurge(capacity, acts, Disconnections(j.client, m.action), a);
    } else if ActsOf(j, m) == [] {
      assert acts + [] == acts;
    } else {
      SinceNext(capacity, acts, ActsOf(j, m)[0], a);
    }
  }

  lemma {:induction false} StreamAsks(setting: Setting, moves: seq<Move>, a: Axis)
    ensures AskedSince(setting.capacity, Acts(setting, moves), a) == ReportsAsk(setting, moves, a)
  {
    if moves != [] {
      var init, m := moves[..|moves| - 1], moves[|moves| - 1];
      StreamAsks(setting, init, a);
      StreamRuns(setting, init);
      MoveAsks(setting.capacity, Acts(setting, init), At(setting, init), m, a);
    }
  }

  // No move of the run purges the queue.
  ghost predicate NeverPurged(setting: Setting, moves: seq<Move>) {
    moves == [] ||
    (NeverPurged(setting, moves[..|moves| - 1])
     && !Purging(setting.capacity, At(setting, moves[..|moves| - 1]), moves[|moves| - 1]))
  }

  lemma NotPurged(capacity: nat, acts: seq<P.Action>, j: Joint, m: Move)
    requires j.output == P.Run(capacity, acts) && !Purging(capacity, j, m) && M.Since(capacity, acts) == 0
    ensures M.Since(capacity, acts + ActsOf(j, m)) == 0
  {
    if ActsOf(j, m) == [] {
      assert acts + [] == acts;
    } else {
      assert (acts + ActsOf(j, m))[..|acts|] == acts;
    }
  }

  lemma {:induction false} NeverSince(setting: Setting, moves: seq<Move>)
    requires NeverPurged(setting, moves)
    ensures M.Since(setting.capacity, Acts(setting, moves)) == 0
  {
    if moves != [] {
      var init := moves[..|moves| - 1];
      NeverSince(setting, init);
      StreamRuns(setting, init);
      NotPurged(setting.capacity, Acts(setting, init), At(setting, init), moves[|moves| - 1]);
    }
  }

  /**
   In every run of client and stream, once the stream's worker is idle with nothing waiting: the reports that a
   ready mouse has sent since the last disconnection, change of endpoint or overflow have been given exactly
   the motion they ask for; and without any of these, that is all the motion that the listener has been given.
   */
  lemma ReportsArrive(setting: Setting, moves: seq<Move>, a: Axis)
    ensures var o, acts := At(setting, moves).output, Acts(setting, moves);
            o.pc.Idle? && !P.WorkWaits(o) ==>
              && M.Given(M.Traced(setting.capacity, acts).frames, M.Since(setting.capacity, acts), a)
                 == ReportsAsk(setting, moves, a)
              && (NeverPurged(setting, moves) ==> Delivered(P.EventsOf(o.sent), a) == ReportsAsk(setting, moves, a))
  {
    StreamRuns(setting, moves);
    StreamAsks(setting, moves, a);
    M.DrainedMotion(setting.capacity, Acts(setting, moves), a);
    if NeverPurged(setting, moves) {
      NeverSince(setting, moves);
    }
  }
}
