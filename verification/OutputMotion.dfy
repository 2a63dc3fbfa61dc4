/**
 Every report's motion, from `zmk_mouse_output_receive` to the packets of `send_frame`
 (src/mouse_output.c), in every interleaving of the producers and the worker.
 */
module OutputMotion {
  import opened Masks
  import ButtonState
  import opened MouseOutput
  import opened OutputStream
  import opened OutputPipeline

  // A frame that the worker has begun: the action that queued it, and the motions of its packets so far.
  datatype Frame = Frame(source: nat, moved: seq<Motion>)

  // History beside a run: the actions that queued what waits in the queue and what the worker took last.
  datatype Trace = Trace(queued: seq<nat>, hand: nat, frames: seq<Frame>)

  // The action purges the queue: a reset, or a report that finds it full.
  predicate Purges(capacity: nat, s: Pipeline, a: Action) {
    a.ResetStream? || (a.Receive? && |s.shared.queue| >= capacity)
  }

  function Follow(capacity: nat, s: Pipeline, at: nat, a: Action, t: Trace): Trace {
    if Purges(capacity, s, a) then t.(queued := [])
    else if a.Receive? then t.(queued := t.queued + [at])
    else if a.Worker? then FollowWorker(s, t)
    else t
  }

  function FollowWorker(s: Pipeline, t: Trace): Trace {
    if s.pc.AtGet? && t.queued != [] then t.(queued := t.queued[1..], hand := t.queued[0])
    else if s.pc.AtUpdate? then t.(frames := t.frames + [Frame(t.hand, [])])
    else if s.pc.AtSend? && t.frames != [] then
      t.(frames := OneMorePacket(t.frames, WorkerStep(s).sent[|WorkerStep(s).sent| - 1].motion))
    else t
  }

  function OneMorePacket(frames: seq<Frame>, m: Motion): seq<Frame>
    requires frames != []
  {
    var f := frames[|frames| - 1];
    frames[|frames| - 1 := f.(moved := f.moved + [m])]
  }

  function Traced(capacity: nat, acts: seq<Action>): Trace {
    if acts == [] then Trace([], 0, [])
    else
      var init := acts[..|acts| - 1];
      Follow(capacity, Run(capacity, init), |init|, acts[|acts| - 1], Traced(capacity, init))
  }

  // The number of actions up to the last purge.
  function Since(capacity: nat, acts: seq<Action>): (n: nat)
    ensures n <= |acts|
  {
    if acts == [] then 0
    else
      var init := acts[..|acts| - 1];
      if Purges(capacity, Run(capacity, init), acts[|acts| - 1]) then |acts| else Since(capacity, init)
  }

  // ---- Sums

  // What a whole frame carries of `v`.
  function Whole(v: int, a: Axis): (r: int)
    ensures Carries(32, a, v, r)
  {
    ClampCarries(MAX_PACKETS, a, v);
    Clamp(v, MAX_PACKETS * Limit(a))
  }

  // What the reports received after the first `since` actions ask for, one by one.
  function Asked(acts: seq<Action>, since: nat, a: Axis): int {
    if |acts| <= since then 0
    else
      var last := acts[|acts| - 1];
      Asked(acts[..|acts| - 1], since, a) + if last.Receive? then Whole(last.motion.Axis(a), a) else 0
  }

  // What the frames of those reports have been given.
  function Given(frames: seq<Frame>, since: nat, a: Axis): int {
    if frames == [] then 0
    else
      var f := frames[|frames| - 1];
      Given(frames[..|frames| - 1], since, a) + if f.source >= since then Sum(f.moved, a) else 0
  }

  function Waiting(queue: seq<QueuedInput>, a: Axis): int {
    if queue == [] then 0 else Whole(queue[0].motion.Axis(a), a) + Waiting(queue[1..], a)
  }

  lemma {:induction false} SumOfAppend(moved: seq<Motion>, m: Motion, a: Axis)
    ensures Sum(moved + [m], a) == Sum(moved, a) + m.Axis(a)
  {
    if moved == [] {
      assert [] + [m] == [m];
    } else {
      assert (moved + [m])[1..] == moved[1..] + [m];
      SumOfAppend(moved[1..], m, a);
    }
  }

  lemma {:induction false} WaitingOfAppend(queue: seq<QueuedInput>, q: QueuedInput, a: Axis)
    ensures Waiting(queue + [q], a) == Waiting(queue, a) + Whole(q.motion.Axis(a), a)
  {
    if queue == [] {
      assert [] + [q] == [q];
    } else {
      assert (queue + [q])[1..] == queue[1..] + [q];
      WaitingOfAppend(queue[1..], q, a);
    }
  }

  lemma {:induction false} NoneGiven(frames: seq<Frame>, since: nat, a: Axis)
    requires forall k :: 0 <= k < |frames| ==> frames[k].source < since
    ensures Given(frames, since, a) == 0
  {
    if frames != [] {
      NoneGiven(frames[..|frames| - 1], since, a);
    }
  }

  lemma GivenOneMore(frames: seq<Frame>, m: Motion, since: nat, a: Axis)
    requires frames != []
    ensures Given(OneMorePacket(frames, m), since, a)
            == Given(frames, since, a) + if frames[|frames| - 1].source >= since then m.Axis(a) else 0
  {
    var f := frames[|frames| - 1];
    SumOfAppend(f.moved, m, a);
    assert OneMorePacket(frames, m)[..|frames| - 1] == frames[..|frames| - 1];
  }

  lemma GivenNewFrame(frames: seq<Frame>, source: nat, since: nat, a: Axis)
    ensures Given(frames + [Frame(source, [])], since, a) == Given(frames, since, a)
  {
    assert (frames + [Frame(source, [])])[..|frames|] == frames;
  }

  // ---- Where everything comes from

  // Action `p` is the receipt of this record.
  ghost predicate Queued(acts: seq<Action>, p: nat, q: QueuedInput) {
    p < |acts| && acts[p] == Receive(q.motion, q.buttons)
  }

  ghost predicate Increasing(ps: seq<nat>) {
    forall j, k :: 0 <= j < k < |ps| ==> ps[j] < ps[k]
  }

  function Sources(t: Trace, pc: Pc): seq<nat> {
    seq(|t.frames|, k requires 0 <= k < |t.frames| => t.frames[k].source) + (if Hand(pc) == [] then [] else [t.hand]) + t.queued
  }

  ghost predicate PlaceInv(acts: seq<Action>, s: Pipeline, t: Trace) {
    && |t.queued| == |s.shared.queue|
    && (forall k :: 0 <= k < |t.queued| ==> Queued(acts, t.queued[k], s.shared.queue[k]))
    && (Hand(s.pc) != [] ==> Queued(acts, t.hand, Hand(s.pc)[0]))
    && Increasing(Sources(t, s.pc)) && (forall p :: p in Sources(t, s.pc) ==> p < |acts|)
  }

  ghost predicate EachFrame(acts: seq<Action>, t: Trace) {
    forall k :: 0 <= k < |t.frames| ==> FrameCarries(acts, t.frames[k])
  }

  // The packets of the frame have carried what so many packets may of the report's motion, one after the other.
  ghost predicate FrameCarries(acts: seq<Action>, f: Frame) {
    && f.source < |acts| && acts[f.source].Receive? && |f.moved| <= MAX_PACKETS
    && forall j: nat, a :: j <= |f.moved| ==> Carries(j, a, acts[f.source].motion.Axis(a), Sum(f.moved[..j], a))
  }

  // The frame being sent holds the rest of its report's motion.
  ghost predicate SendInv(acts: seq<Action>, s: Pipeline, t: Trace) {
    s.pc.AtSend? || s.pc.AtRecheck? ==>
      && t.frames != []
      && var f := t.frames[|t.frames| - 1];
      && f.source < |acts| && acts[f.source].Receive? && |f.moved| == s.pc.i < MAX_PACKETS
      && forall a :: s.pc.motion.Axis(a) == acts[f.source].motion.Axis(a) - Sum(f.moved, a)
  }

  ghost predicate TraceInv(acts: seq<Action>, s: Pipeline, t: Trace) {
    PlaceInv(acts, s, t) && EachFrame(acts, t) && SendInv(acts, s, t)
  }

  // One more action leaves the earlier ones where they are.
  lemma MoreActions(acts: seq<Action>, act: Action, s: Pipeline, t: Trace)
    requires TraceInv(acts, s, t)
    ensures TraceInv(acts + [act], s, t)
  {
    forall k | 0 <= k < |t.frames|
      ensures FrameCarries(acts + [act], t.frames[k])
    {
      assert FrameCarries(acts, t.frames[k]);
    }
  }

  lemma PurgeKeeps(acts: seq<Action>, s: Pipeline, t: Trace, n: Pipeline)
    requires TraceInv(acts, s, t) && n.pc == s.pc && n.shared.queue == []
    ensures TraceInv(acts, n, t.(queued := []))
  {
    var r := t.(queued := []);
    assert Sources(t, s.pc) == Sources(r, n.pc) + t.queued;
    assert forall k :: 0 <= k < |Sources(r, n.pc)| ==> Sources(r, n.pc)[k] == Sources(t, s.pc)[k];
  }

  lemma QueueKeeps(acts: seq<Action>, act: Action, s: Pipeline, t: Trace, n: Pipeline)
    requires TraceInv(acts, s, t) && act.Receive? && n.pc == s.pc
    requires n.shared.queue == s.shared.queue + [QueuedInput(act.motion, act.physical, s.shared.epoch)]
    ensures TraceInv(acts + [act], n, t.(queued := t.queued + [|acts|]))
  {
    var r := t.(queued := t.queued + [|acts|]);
    MoreActions(acts, act, s, t);
    assert Sources(r, n.pc) == Sources(t, s.pc) + [|acts|];
  }

  lemma GetKeeps(acts: seq<Action>, s: Pipeline, t: Trace)
    requires TraceInv(acts, s, t) && s.pc.AtGet?
    ensures TraceInv(acts, WorkerStep(s), FollowWorker(s, t))
  {
    var n, r := WorkerStep(s), FollowWorker(s, t);
    if t.queued != [] {
      assert [t.queued[0]] + t.queued[1..] == t.queued;
      assert Sources(r, n.pc) == Sources(t, s.pc);
    }
  }

  lemma UpdateKeeps(acts: seq<Action>, s: Pipeline, t: Trace)
    requires TraceInv(acts, s, t) && s.pc.AtUpdate?
    ensures TraceInv(acts, WorkerStep(s), FollowWorker(s, t))
  {
    var n, r := WorkerStep(s), FollowWorker(s, t);
    assert Sources(r, n.pc) == Sources(t, s.pc);
    assert FrameCarries(acts, Frame(t.hand, []));
  }

  lemma CheckKeeps(acts: seq<Action>, s: Pipeline, t: Trace, n: Pipeline)
    requires TraceInv(acts, s, t) && n.shared.queue == s.shared.queue
    requires Hand(n.pc) == Hand(s.pc) || Hand(n.pc) == []
    requires n.pc.AtSend? || n.pc.AtRecheck? ==>
               (s.pc.AtSend? || s.pc.AtRecheck?) && n.pc.i == s.pc.i && n.pc.motion == s.pc.motion
    ensures TraceInv(acts, n, t)
  {
    if Hand(n.pc) == Hand(s.pc) {
      assert Sources(t, n.pc) == Sources(t, s.pc);
    } else {
      var k := |t.frames|;
      assert forall j :: 0 <= j < |Sources(t, n.pc)| ==> Sources(t, n.pc)[j] == Sources(t, s.pc)[if j < k then j else j + 1];
    }
  }

  // One packet more.
  lemma PacketKeeps(acts: seq<Action>, f: Frame, rest: Motion)
    requires FrameCarries(acts, f) && |f.moved| < MAX_PACKETS
    requires forall a :: rest.Axis(a) == acts[f.source].motion.Axis(a) - Sum(f.moved, a)
    ensures var g := f.(moved := f.moved + [Chunk(rest)]);
            && FrameCarries(acts, g)
            && forall a :: Rest(rest).Axis(a) == acts[f.source].motion.Axis(a) - Sum(g.moved, a)
  {
    var g := f.(moved := f.moved + [Chunk(rest)]);
    var n := |f.moved|;
    forall a
      ensures Carries(n + 1, a, acts[f.source].motion.Axis(a), Sum(g.moved, a))
      ensures Rest(rest).Axis(a) == acts[f.source].motion.Axis(a) - Sum(g.moved, a)
    {
      assert f.moved[..n] == f.moved;
      assert Carries(n, a, acts[f.source].motion.Axis(a), Sum(f.moved, a));
      CarriesOneMore(n, a, acts[f.source].motion.Axis(a), Sum(f.moved, a));
      SumOfAppend(f.moved, Chunk(rest), a);
      AxisOfChunk(rest, a);
    }
    forall j: nat, a | j <= n + 1
      ensures Carries(j, a, acts[f.source].motion.Axis(a), Sum(g.moved[..j], a))
    {
      if j <= n {
        assert g.moved[..j] == f.moved[..j];
      } else {
        assert g.moved[..j] == g.moved;
      }
    }
  }

  lemma CarriesOneMore(n: nat, a: Axis, v: int, sum: int)
    requires Carries(n, a, v, sum)
    ensures Carries(n + 1, a, v, sum + Clamp(v - sum, Limit(a)))
  {
  }

  lemma SendKeeps(acts: seq<Action>, s: Pipeline, t: Trace)
    requires TraceInv(acts, s, t) && s.pc.AtSend?
    ensures TraceInv(acts, WorkerStep(s), FollowWorker(s, t))
  {
    var n, r, k := WorkerStep(s), FollowWorker(s, t), |t.frames| - 1;
    PacketKeeps(acts, t.frames[k], s.pc.motion);
    assert r.frames == t.frames[k := t.frames[k].(moved := t.frames[k].moved + [Chunk(s.pc.motion)])];
    assert Sources(r, n.pc) == Sources(t, s.pc);
  }

  lemma WorkerKeeps(acts: seq<Action>, s: Pipeline, t: Trace)
    requires TraceInv(acts, s, t)
    ensures TraceInv(acts, WorkerStep(s), FollowWorker(s, t))
  {
    if s.pc.AtGet? {
      GetKeeps(acts, s, t);
    } else if s.pc.AtUpdate? {
      UpdateKeeps(acts, s, t);
    } else if s.pc.AtSend? {
      SendKeeps(acts, s, t);
    } else {
      CheckKeeps(acts, s, t, WorkerStep(s));
    }
  }

  lemma FollowKeeps(capacity: nat, acts: seq<Action>, act: Action, s: Pipeline, t: Trace)
    requires TraceInv(acts, s, t)
    ensures TraceInv(acts + [act], Step(capacity, s, act), Follow(capacity, s, |acts|, act, t))
  {
    var n := Step(capacity, s, act);
    MoreActions(acts, act, s, t);
    if Purges(capacity, s, act) {
      PurgeKeeps(acts + [act], s, t, n);
    } else if act.Receive? {
      QueueKeeps(acts, act, s, t, n);
    } else if act.Worker? {
      WorkerKeeps(acts + [act], s, t);
    } else {
      CheckKeeps(acts + [act], s, t, n);
    }
  }

  lemma {:induction false} RunTraced(capacity: nat, acts: seq<Action>)
    ensures TraceInv(acts, Run(capacity, acts), Traced(capacity, acts))
  {
    if acts != [] {
      var init := acts[..|acts| - 1];
      RunTraced(capacity, init);
      FollowKeeps(capacity, init, acts[|acts| - 1], Run(capacity, init), Traced(capacity, init));
      assert init + [acts[|acts| - 1]] == acts;
    }
  }

  // ---- Epochs and purges

  // What came before the last purge is of an earlier epoch, and nothing else is.
  ghost predicate CutInv(s: Pipeline, t: Trace, cut: nat) {
    && (forall k :: 0 <= k < |t.queued| ==> t.queued[k] >= cut)
    && (Hand(s.pc) != [] ==> (t.hand >= cut <==> Hand(s.pc)[0].epoch == s.shared.epoch))
    && ((s.pc.AtSend? || s.pc.AtRecheck?) && t.frames != [] ==>
          (t.frames[|t.frames| - 1].source >= cut <==> s.pc.frameEpoch == s.shared.epoch))
  }

  lemma CutPurge(capacity: nat, acts: seq<Action>, act: Action, s: Pipeline, t: Trace, cut: nat)
    requires EpochInv(s) && TraceInv(acts, s, t) && CutInv(s, t, cut) && Purges(capacity, s, act)
    ensures CutInv(Step(capacity, s, act), Follow(capacity, s, |acts|, act, t), |acts| + 1)
  {
    var n := Step(capacity, s, act);
    assert n.pc == s.pc && n.shared.epoch == s.shared.epoch + 1;
  }

  lemma CutGet(s: Pipeline, t: Trace, cut: nat)
    requires CurrentQueue(s.shared) && |t.queued| == |s.shared.queue| && CutInv(s, t, cut) && s.pc.AtGet?
    ensures CutInv(WorkerStep(s), FollowWorker(s, t), cut)
  {
    if t.queued != [] {
      assert s.shared.queue[0] in s.shared.queue;
    }
  }

  lemma CutUpdate(s: Pipeline, t: Trace, cut: nat)
    requires CutInv(s, t, cut) && s.pc.AtUpdate?
    ensures CutInv(WorkerStep(s), FollowWorker(s, t), cut)
  {
  }

  lemma CutSend(s: Pipeline, t: Trace, cut: nat)
    requires CutInv(s, t, cut) && s.pc.AtSend? && t.frames != []
    ensures CutInv(WorkerStep(s), FollowWorker(s, t), cut)
  {
  }

  lemma CutRest(s: Pipeline, t: Trace, cut: nat)
    requires CutInv(s, t, cut) && !s.pc.AtGet? && !s.pc.AtUpdate? && !s.pc.AtSend?
    ensures CutInv(WorkerStep(s), t, cut)
  {
  }

  lemma CutWorker(acts: seq<Action>, s: Pipeline, t: Trace, cut: nat)
    requires EpochInv(s) && TraceInv(acts, s, t) && CutInv(s, t, cut)
    ensures CutInv(WorkerStep(s), FollowWorker(s, t), cut)
  {
    if s.pc.AtGet? {
      CutGet(s, t, cut);
    } else if s.pc.AtUpdate? {
      CutUpdate(s, t, cut);
    } else if s.pc.AtSend? {
      CutSend(s, t, cut);
    } else {
      CutRest(s, t, cut);
    }
  }

  lemma CutStep(capacity: nat, acts: seq<Action>, act: Action, s: Pipeline, t: Trace, cut: nat)
    requires EpochInv(s) && TraceInv(acts, s, t) && CutInv(s, t, cut) && cut <= |acts|
    ensures CutInv(Step(capacity, s, act), Follow(capacity, s, |acts|, act, t),
                   if Purges(capacity, s, act) then |acts| + 1 else cut)
  {
    if Purges(capacity, s, act) {
      CutPurge(capacity, acts, act, s, t, cut);
    } else if act.Worker? {
      CutWorker(acts, s, t, cut);
    }
  }

  // ---- The account

  // What the worker still holds of the reports since the last purge.
  function InFlight(s: Pipeline, t: Trace, cut: nat, a: Axis): int {
    if Hand(s.pc) != [] then (if t.hand >= cut then Whole(Hand(s.pc)[0].motion.Axis(a), a) else 0)
    else if (s.pc.AtSend? || s.pc.AtRecheck?) && t.frames != [] && t.frames[|t.frames| - 1].source >= cut then
      Clamp(s.pc.motion.Axis(a), (MAX_PACKETS - s.pc.i) * Limit(a))
    else 0
  }

  // Since the last purge: given, held and waiting make up what was asked for.
  ghost predicate Accounted(acts: seq<Action>, s: Pipeline, t: Trace, cut: nat, a: Axis) {
    Given(t.frames, cut, a) + InFlight(s, t, cut, a) + Waiting(s.shared.queue, a) == Asked(acts, cut, a)
  }

  lemma AccountPurge(capacity: nat, acts: seq<Action>, act: Action, s: Pipeline, t: Trace, a: Axis)
    requires TraceInv(acts, s, t) && Purges(capacity, s, act)
    ensures Accounted(acts + [act], Step(capacity, s, act), Follow(capacity, s, |acts|, act, t), |acts| + 1, a)
  {
    NoneGiven(t.frames, |acts| + 1, a);
  }

  lemma AskedOneMore(acts: seq<Action>, act: Action, cut: nat, a: Axis)
    requires cut <= |acts|
    ensures Asked(acts + [act], cut, a) == Asked(acts, cut, a) + if act.Receive? then Whole(act.motion.Axis(a), a) else 0
  {
    assert (acts + [act])[..|acts|] == acts;
  }

  lemma AccountProducer(capacity: nat, acts: seq<Action>, act: Action, s: Pipeline, t: Trace, cut: nat, a: Axis)
    requires Accounted(acts, s, t, cut, a) && cut <= |acts| && !Purges(capacity, s, act) && !act.Worker?
    ensures Accounted(acts + [act], Step(capacity, s, act), Follow(capacity, s, |acts|, act, t), cut, a)
  {
    AskedOneMore(acts, act, cut, a);
    if act.Receive? {
      WaitingOfAppend(s.shared.queue, QueuedInput(act.motion, act.physical, s.shared.epoch), a);
    }
  }

  // Nothing is given, and nothing leaves the worker's hands or the queue.
  lemma AccountQuiet(acts: seq<Action>, s: Pipeline, n: Pipeline, t: Trace, r: Trace, cut: nat, a: Axis)
    requires Accounted(acts, s, t, cut, a) && Given(r.frames, cut, a) == Given(t.frames, cut, a)
    requires InFlight(n, r, cut, a) + Waiting(n.shared.queue, a) == InFlight(s, t, cut, a) + Waiting(s.shared.queue, a)
    ensures Accounted(acts, n, r, cut, a)
  {
  }

  // What is held of the frame, before the `i`-th packet.
  lemma SendingHolds(s: Pipeline, t: Trace, cut: nat, a: Axis)
    requires (s.pc.AtSend? || s.pc.AtRecheck?) && t.frames != []
    ensures InFlight(s, t, cut, a)
            == if t.frames[|t.frames| - 1].source >= cut then Clamp(s.pc.motion.Axis(a), (MAX_PACKETS - s.pc.i) * Limit(a)) else 0
  {
  }

  lemma SentHolds(s: Pipeline, t: Trace, cut: nat, a: Axis)
    requires s.pc.AtSend? && t.frames != [] && s.pc.i < MAX_PACKETS
    ensures InFlight(WorkerStep(s), FollowWorker(s, t), cut, a)
            == if t.frames[|t.frames| - 1].source >= cut
               then Clamp(Rest(s.pc.motion).Axis(a), (MAX_PACKETS - 1 - s.pc.i) * Limit(a)) else 0
  {
    var n, r, rest := WorkerStep(s), FollowWorker(s, t), Rest(s.pc.motion);
    assert r.frames != [] && r.frames[|r.frames| - 1].source == t.frames[|t.frames| - 1].source;
    if rest == NO_MOTION {
      assert rest.Axis(a) == 0;
      NothingLeft((MAX_PACKETS - 1 - s.pc.i) * Limit(a));
    } else if s.pc.i + 1 < MAX_PACKETS {
      SendingHolds(n, r, cut, a);
    }
  }

  lemma NothingLeft(limit: nat)
    ensures Clamp(0, limit) == 0
  {
  }

  lemma AccountSend(acts: seq<Action>, s: Pipeline, t: Trace, cut: nat, a: Axis)
    requires Accounted(acts, s, t, cut, a) && s.pc.AtSend? && t.frames != [] && s.pc.i < MAX_PACKETS
    ensures Accounted(acts, WorkerStep(s), FollowWorker(s, t), cut, a)
  {
    var rest, i := s.pc.motion, s.pc.i;
    GivenOneMore(t.frames, Chunk(rest), cut, a);
    AxisOfChunk(rest, a);
    ClampAdd(rest.Axis(a), Limit(a), MAX_PACKETS - 1 - i);
    SendingHolds(s, t, cut, a);
    SentHolds(s, t, cut, a);
    assert FollowWorker(s, t).frames == OneMorePacket(t.frames, Chunk(rest));
  }

  lemma AccountUpdate(acts: seq<Action>, s: Pipeline, t: Trace, cut: nat, a: Axis)
    requires Accounted(acts, s, t, cut, a) && s.pc.AtUpdate?
    ensures Accounted(acts, WorkerStep(s), FollowWorker(s, t), cut, a)
  {
    GivenNewFrame(t.frames, t.hand, cut, a);
    SendingHolds(WorkerStep(s), FollowWorker(s, t), cut, a);
    AccountQuiet(acts, s, WorkerStep(s), t, FollowWorker(s, t), cut, a);
  }

  // What is taken from the queue is held.
  lemma GetHolds(s: Pipeline, t: Trace, cut: nat, a: Axis)
    requires s.pc.AtGet? && s.shared.queue != [] && t.queued != [] && t.queued[0] >= cut
    ensures InFlight(WorkerStep(s), FollowWorker(s, t), cut, a) == Whole(s.shared.queue[0].motion.Axis(a), a)
  {
  }

  lemma AccountGet(acts: seq<Action>, s: Pipeline, t: Trace, cut: nat, a: Axis)
    requires |t.queued| == |s.shared.queue| && CutInv(s, t, cut) && Accounted(acts, s, t, cut, a) && s.pc.AtGet?
    ensures Accounted(acts, WorkerStep(s), FollowWorker(s, t), cut, a)
  {
    assert InFlight(s, t, cut, a) == 0;
    if t.queued != [] {
      GetHolds(s, t, cut, a);
    }
    AccountQuiet(acts, s, WorkerStep(s), t, FollowWorker(s, t), cut, a);
  }

  lemma AccountRecheck(acts: seq<Action>, s: Pipeline, t: Trace, cut: nat, a: Axis)
    requires CutInv(s, t, cut) && Accounted(acts, s, t, cut, a) && s.pc.AtRecheck? && t.frames != []
    ensures Accounted(acts, WorkerStep(s), t, cut, a)
  {
    SendingHolds(s, t, cut, a);
    AccountQuiet(acts, s, WorkerStep(s), t, t, cut, a);
  }

  lemma AccountRest(acts: seq<Action>, s: Pipeline, t: Trace, cut: nat, a: Axis)
    requires CutInv(s, t, cut) && Accounted(acts, s, t, cut, a)
    requires s.pc.Idle? || s.pc.AtReset? || s.pc.AtApply? || s.pc.AtCheck?
    ensures Accounted(acts, WorkerStep(s), t, cut, a)
  {
    AccountQuiet(acts, s, WorkerStep(s), t, t, cut, a);
  }

  lemma AccountWorker(acts: seq<Action>, s: Pipeline, t: Trace, cut: nat, a: Axis)
    requires TraceInv(acts, s, t) && CutInv(s, t, cut) && Accounted(acts, s, t, cut, a)
    ensures Accounted(acts, WorkerStep(s), FollowWorker(s, t), cut, a)
  {
    if s.pc.AtSend? {
      AccountSend(acts, s, t, cut, a);
    } else if s.pc.AtUpdate? {
      AccountUpdate(acts, s, t, cut, a);
    } else if s.pc.AtGet? {
      AccountGet(acts, s, t, cut, a);
    } else if s.pc.AtRecheck? {
      AccountRecheck(acts, s, t, cut, a);
    } else {
      AccountRest(acts, s, t, cut, a);
    }
  }

  lemma AccountStep(capacity: nat, acts: seq<Action>, act: Action, s: Pipeline, t: Trace, cut: nat, a: Axis)
    requires EpochInv(s) && TraceInv(acts, s, t) && CutInv(s, t, cut) && Accounted(acts, s, t, cut, a) && cut <= |acts|
    ensures Accounted(acts + [act], Step(capacity, s, act), Follow(capacity, s, |acts|, act, t),
                      if Purges(capacity, s, act) then |acts| + 1 else cut, a)
  {
    if Purges(capacity, s, act) {
      AccountPurge(capacity, acts, act, s, t, a);
    } else if act.Worker? {
      AskedOneMore(acts, act, cut, a);
      AccountWorker(acts, s, t, cut, a);
    } else {
      AccountProducer(capacity, acts, act, s, t, cut, a);
    }
  }

  // One action more: the run, its trace and its last purge.
  lemma RunUnfolds(capacity: nat, acts: seq<Action>)
    requires acts != []
    ensures var init, act := acts[..|acts| - 1], acts[|acts| - 1]; var s := Run(capacity, init);
            && Run(capacity, acts) == Step(capacity, s, act)
            && Traced(capacity, acts) == Follow(capacity, s, |init|, act, Traced(capacity, init))
            && init + [act] == acts
  {
  }

  lemma SinceUnfolds(capacity: nat, acts: seq<Action>)
    requires acts != []
    ensures var init, act := acts[..|acts| - 1], acts[|acts| - 1];
            Since(capacity, acts) == if Purges(capacity, Run(capacity, init), act) then |acts| else Since(capacity, init)
  {
  }

  lemma RunEpochs(capacity: nat, acts: seq<Action>)
    ensures EpochInv(Run(capacity, acts))
  {
    Invariant(capacity, acts);
  }

  lemma {:induction false} RunAccounted(capacity: nat, acts: seq<Action>, a: Axis)
    ensures var s, t, cut := Run(capacity, acts), Traced(capacity, acts), Since(capacity, acts);
            CutInv(s, t, cut) && Accounted(acts, s, t, cut, a)
  {
    if acts != [] {
      var init, act := acts[..|acts| - 1], acts[|acts| - 1];
      RunAccounted(capacity, init, a);
      RunTraced(capacity, init);
      RunEpochs(capacity, init);
      RunUnfolds(capacity, acts);
      SinceUnfolds(capacity, acts);
      AccountOn(capacity, init, act, Run(capacity, init), Traced(capacity, init), Since(capacity, init), a);
    }
  }

  lemma AccountOn(capacity: nat, acts: seq<Action>, act: Action, s: Pipeline, t: Trace, cut: nat, a: Axis)
    requires EpochInv(s) && TraceInv(acts, s, t) && CutInv(s, t, cut) && Accounted(acts, s, t, cut, a) && cut <= |acts|
    ensures var n, r := Step(capacity, s, act), Follow(capacity, s, |acts|, act, t);
            var next := if Purges(capacity, s, act) then |acts| + 1 else cut;
            CutInv(n, r, next) && Accounted(acts + [act], n, r, next, a)
  {
    CutStep(capacity, acts, act, s, t, cut);
    AccountStep(capacity, acts, act, s, t, cut, a);
  }

  // ---- What the listener is given

  lemma DeliveredByPacket(sent: seq<Sent>, x: Sent, a: Axis)
    ensures Delivered(EventsOf(sent + [x]), a) == Delivered(EventsOf(sent), a) + x.motion.Axis(a)
  {
    var keys, rels := KeyEvents(x.edges, BUTTONS), RelEvents(x.motion, |AXES|);
    assert (sent + [x])[..|sent|] == sent;
    NetOfConcat(EventsOf(sent), Packet(x.edges, x.motion), 0, a);
    NetOfSyncLast(keys + rels, 0, a);
    NetOfConcat(keys, rels, 0, a);
    NetOfKeys(x.edges, BUTTONS, 0, a);
    NetOfRels(x.motion, |AXES|, 0, a);
  }

  // The listener's motion is what the frames have been given: resets move nothing.
  ghost predicate AllIn(sent: seq<Sent>, frames: seq<Frame>, a: Axis) {
    Delivered(EventsOf(sent), a) == Given(frames, 0, a)
  }

  lemma OneMoreIn(sent: seq<Sent>, frames: seq<Frame>, x: Sent, a: Axis)
    requires AllIn(sent, frames, a) && frames != []
    ensures AllIn(sent + [x], OneMorePacket(frames, x.motion), a)
  {
    DeliveredByPacket(sent, x, a);
    GivenOneMore(frames, x.motion, 0, a);
  }

  lemma SendAdds(s: Pipeline, t: Trace)
    requires s.pc.AtSend? && t.frames != []
    ensures var x := Sent(s.pc.edges, Chunk(s.pc.motion));
            WorkerStep(s).sent == s.sent + [x] && FollowWorker(s, t).frames == OneMorePacket(t.frames, x.motion)
  {
  }

  lemma GivenSend(s: Pipeline, t: Trace, a: Axis)
    requires s.pc.AtSend? && t.frames != [] && AllIn(s.sent, t.frames, a)
    ensures AllIn(WorkerStep(s).sent, FollowWorker(s, t).frames, a)
  {
    SendAdds(s, t);
    OneMoreIn(s.sent, t.frames, Sent(s.pc.edges, Chunk(s.pc.motion)), a);
  }

  lemma UpdateAdds(s: Pipeline, t: Trace)
    requires s.pc.AtUpdate?
    ensures WorkerStep(s).sent == s.sent && FollowWorker(s, t).frames == t.frames + [Frame(t.hand, [])]
  {
  }

  lemma GivenReset(s: Pipeline, a: Axis)
    requires s.pc.AtApply?
    ensures Delivered(EventsOf(WorkerStep(s).sent), a) == Delivered(EventsOf(s.sent), a)
  {
    if s.pc.taken {
      DeliveredByPacket(s.sent, Sent(ButtonState.ResetEdges(s.buttons), NO_MOTION), a);
    }
  }

  lemma GivenWorker(s: Pipeline, t: Trace, a: Axis)
    requires (s.pc.AtSend? ==> t.frames != []) && AllIn(s.sent, t.frames, a)
    ensures AllIn(WorkerStep(s).sent, FollowWorker(s, t).frames, a)
  {
    if s.pc.AtSend? {
      GivenSend(s, t, a);
    } else if s.pc.AtUpdate? {
      UpdateAdds(s, t);
      GivenNewFrame(t.frames, t.hand, 0, a);
    } else if s.pc.AtApply? {
      GivenReset(s, a);
      assert FollowWorker(s, t) == t;
    } else {
      WorkerSendsNothing(s, t);
    }
  }

  lemma WorkerSendsNothing(s: Pipeline, t: Trace)
    requires !s.pc.AtSend? && !s.pc.AtUpdate? && !s.pc.AtApply?
    ensures WorkerStep(s).sent == s.sent && FollowWorker(s, t).frames == t.frames
  {
  }

  lemma NothingSent(capacity: nat, s: Pipeline, act: Action, at: nat, t: Trace)
    requires !act.Worker?
    ensures Step(capacity, s, act).sent == s.sent && Follow(capacity, s, at, act, t).frames == t.frames
  {
  }

  lemma GivenStep(capacity: nat, s: Pipeline, act: Action, at: nat, t: Trace, a: Axis)
    requires (s.pc.AtSend? ==> t.frames != []) && AllIn(s.sent, t.frames, a)
    ensures AllIn(Step(capacity, s, act).sent, Follow(capacity, s, at, act, t).frames, a)
  {
    if act.Worker? {
      GivenWorker(s, t, a);
    } else {
      NothingSent(capacity, s, act, at, t);
    }
  }

  lemma {:induction false} AllGiven(capacity: nat, acts: seq<Action>, a: Axis)
    ensures AllIn(Run(capacity, acts).sent, Traced(capacity, acts).frames, a)
  {
    if acts != [] {
      var init := acts[..|acts| - 1];
      AllGiven(capacity, init, a);
      FramesThere(capacity, init);
      RunUnfolds(capacity, acts);
      GivenStep(capacity, Run(capacity, init), acts[|acts| - 1], |init|, Traced(capacity, init), a);
    }
  }

  lemma FramesThere(capacity: nat, acts: seq<Action>)
    ensures Run(capacity, acts).pc.AtSend? ==> Traced(capacity, acts).frames != []
  {
    RunTraced(capacity, acts);
  }

  /**
   In every run: the frames begun are those of different reports, in the order of their receipt; each was
   queued by its report; after `j` packets it has moved each axis by the report's delta, or by `j` packets'
   worth of it; and all that the listener was moved by is these packets.
   */
  lemma FramesCarryTheirReports(capacity: nat, acts: seq<Action>, k: nat, j: nat, a: Axis)
    requires k < |Traced(capacity, acts).frames| && j <= |Traced(capacity, acts).frames[k].moved|
    ensures var frames := Traced(capacity, acts).frames; var f := frames[k];
            && f.source < |acts| && acts[f.source].Receive? && (k > 0 ==> frames[k - 1].source < f.source)
            && |f.moved| <= 32 && Carries(j, a, acts[f.source].motion.Axis(a), Sum(f.moved[..j], a))
            && Delivered(EventsOf(Run(capacity, acts).sent), a) == Given(frames, 0, a)
  {
    RunTraced(capacity, acts);
    AllGiven(capacity, acts, a);
    FrameAt(acts, Run(capacity, acts), Traced(capacity, acts), k, j, a);
  }

  lemma FrameAt(acts: seq<Action>, s: Pipeline, t: Trace, k: nat, j: nat, a: Axis)
    requires TraceInv(acts, s, t) && k < |t.frames| && j <= |t.frames[k].moved|
    ensures var f := t.frames[k];
            && f.source < |acts| && acts[f.source].Receive? && (k > 0 ==> t.frames[k - 1].source < f.source)
            && |f.moved| <= 32 && Carries(j, a, acts[f.source].motion.Axis(a), Sum(f.moved[..j], a))
  {
    assert FrameCarries(acts, t.frames[k]);
    assert k > 0 ==> Sources(t, s.pc)[k - 1] == t.frames[k - 1].source && Sources(t, s.pc)[k] == t.frames[k].source;
  }

  /**
   Whatever the interleaving, once nothing waits and the worker is idle, every report received since the last
   reset or overflow has been given exactly its whole frame's motion, on each axis; if there was no reset and
   no overflow, the listener has been moved by exactly the sum over all reports received.
   */
  lemma DrainedMotion(capacity: nat, acts: seq<Action>, a: Axis)
    ensures var s, since := Run(capacity, acts), Since(capacity, acts);
            s.pc.Idle? && !WorkWaits(s) ==>
              && Given(Traced(capacity, acts).frames, since, a) == Asked(acts, since, a)
              && (since == 0 ==> Delivered(EventsOf(s.sent), a) == Asked(acts, 0, a))
  {
    RunAccounted(capacity, acts, a);
    AllGiven(capacity, acts, a);
  }

  // Action `k` resets the stream, or is a report that finds the queue full.
  ghost predicate PurgesAt(capacity: nat, acts: seq<Action>, k: nat)
    requires k < |acts|
  {
    acts[k].ResetStream? || (acts[k].Receive? && |Run(capacity, acts[..k]).shared.queue| >= capacity)
  }

  lemma PurgesAtBefore(capacity: nat, acts: seq<Action>, k: nat)
    requires k + 1 < |acts|
    ensures PurgesAt(capacity, acts, k) <==> PurgesAt(capacity, acts[..|acts| - 1], k)
  {
    assert acts[..|acts| - 1][..k] == acts[..k];
  }

  /** The count since the last purge starts at zero exactly if no action was a reset, and none found the queue full. */
  lemma {:induction false} SinceTheStart(capacity: nat, acts: seq<Action>)
    ensures Since(capacity, acts) == 0 <==> forall k :: 0 <= k < |acts| ==> !PurgesAt(capacity, acts, k)
  {
    if acts != [] {
      var n := |acts| - 1;
      var init := acts[..n];
      SinceTheStart(capacity, init);
      forall k | 0 <= k < n
        ensures PurgesAt(capacity, acts, k) <==> PurgesAt(capacity, init, k)
      {
        PurgesAtBefore(capacity, acts, k);
      }
      assert PurgesAt(capacity, acts, n) <==> Purges(capacity, Run(capacity, init), acts[n]);
    }
  }
}
