/**
 Every interleaving of the producers and the worker of src/mouse_output.c. Each locked section,
 queue get, unlocked epoch read, packet and work submission is one step.
 */
module OutputPipeline {
  import opened Masks
  import opened ButtonState
  import opened MouseOutput
  import opened OutputStream

  // Which of the three calls of `apply_pending_reset` the worker is in.
  datatype Where = Begin | Holding(hand: QueuedInput) | End

  // What the worker does next.
  datatype Pc =
    | Idle
    | AtReset(at: Where)                               // lock, read and clear the mailbox
    | AtApply(at: Where, taken: bool, value: bv8)      // apply what was read
    | AtGet                                            // take from the queue
    | AtCheck(hand: QueuedInput)                       // compare epochs
    | AtUpdate(hand: QueuedInput)                      // the check has passed
    | AtSend(frameEpoch: nat, i: nat, edges: Edges, motion: Motion)
    | AtRecheck(frameEpoch: nat, i: nat, motion: Motion)

  // A packet that was started: its frame's epoch, the epoch then, and the last reset applied by then.
  datatype Started = Started(frameEpoch: nat, epoch: nat, applied: nat)

  datatype Sent = Sent(edges: Edges, motion: Motion)

  datatype Pipeline = Pipeline(
    shared: Shared,
    buttons: Buttons,
    pc: Pc,
    submitted: bool,         // output_work is in the work queue
    unsubmitted: nat,        // producers between their unlock and their submit
    initialized: bool,       // the work queue has been started
    // The rest is history, read by nothing in the program.
    missed: bool,            // the latest submission was dropped: the work queue had not been started
    sent: seq<Sent>,         // every packet given to the input device
    started: seq<Started>,
    readEpoch: nat,          // the epoch at the worker's last mailbox read
    applied: nat)            // the epoch whose reset the buttons reflect

  const INITIAL := Pipeline(EMPTY, NO_BUTTONS, Idle, false, 0, false, false, [], [], 0, 0)

  datatype Action =
    | Receive(motion: Motion, physical: bv8)
    | ResetStream(disconnected: bool)
    | Submit
    | Initialize
    | Worker

  function Step(capacity: nat, s: Pipeline, a: Action): Pipeline {
    match a
    case Receive(m, p) => s.(shared := Received(s.shared, capacity, m, p), unsubmitted := s.unsubmitted + 1)
    case ResetStream(d) => s.(shared := AfterStreamReset(s.shared, d), unsubmitted := s.unsubmitted + 1)
    case Submit =>
      if s.unsubmitted == 0 then s
      else if s.initialized then s.(unsubmitted := s.unsubmitted - 1, submitted := true, missed := false)
      else s.(unsubmitted := s.unsubmitted - 1, missed := true)
    case Initialize => s.(initialized := true)
    case Worker => WorkerStep(s)
  }

  function WorkerStep(s: Pipeline): Pipeline {
    match s.pc
    case Idle => if s.submitted then s.(pc := AtReset(Begin), submitted := false) else s
    case AtReset(at) =>
      s.(shared := ResetTaken(s.shared), pc := AtApply(at, s.shared.pending, s.shared.resetButtons),
         readEpoch := s.shared.epoch)
    case AtApply(at, taken, value) => Applied(s, taken, value).(pc := AfterApply(at))
    case AtGet =>
      if s.shared.queue == [] then s.(pc := AtReset(End))
      else s.(shared := Popped(s.shared), pc := AtReset(Holding(s.shared.queue[0])))
    case AtCheck(h) => s.(pc := if h.epoch == s.shared.epoch then AtUpdate(h) else AtGet)
    case AtUpdate(h) =>
      s.(buttons := AfterUpdate(s.buttons, h.buttons),
         pc := AtSend(h.epoch, 0, UpdateEdges(s.buttons, h.buttons), h.motion))
    case AtSend(e, i, edges, m) =>
      s.(sent := s.sent + [Sent(edges, Chunk(m))],
         started := s.started + [Started(e, s.shared.epoch, s.applied)],
         pc := if Rest(m) == NO_MOTION || i + 1 >= MAX_PACKETS then AtGet else AtRecheck(e, i + 1, Rest(m)))
    case AtRecheck(e, i, m) => s.(pc := if e == s.shared.epoch then AtSend(e, i, NO_EDGES, m) else AtGet)
  }

  function Applied(s: Pipeline, taken: bool, value: bv8): Pipeline {
    if taken then
      s.(buttons := AfterReset(value), sent := s.sent + [Sent(ResetEdges(s.buttons), NO_MOTION)], applied := s.readEpoch)
    else s
  }

  function AfterApply(at: Where): Pc {
    match at
    case Begin => AtGet
    case Holding(h) => AtCheck(h)
    case End => Idle
  }

  function Run(capacity: nat, acts: seq<Action>): Pipeline {
    if acts == [] then INITIAL else Step(capacity, Run(capacity, acts[..|acts| - 1]), acts[|acts| - 1])
  }

  // ---- Epochs

  // The frame that the worker holds but has not yet applied to the buttons.
  function Hand(pc: Pc): seq<QueuedInput> {
    match pc
    case AtReset(Holding(h)) => [h]
    case AtApply(Holding(h), _, _) => [h]
    case AtCheck(h) => [h]
    case AtUpdate(h) => [h]
    case _ => []
  }

  // The epoch of a frame that has passed its check and may still start a packet unchecked.
  function Committed(pc: Pc): seq<nat> {
    match pc
    case AtUpdate(h) => [h.epoch]
    case AtSend(e, _, _, _) => [e]
    case _ => []
  }

  function EffectiveApplied(s: Pipeline): nat {
    if s.pc.AtApply? && s.pc.taken then s.readEpoch else s.applied
  }

  ghost predicate EpochInv(s: Pipeline) {
    && CurrentQueue(s.shared)
    && (Hand(s.pc) != [] ==> Hand(s.pc)[0].epoch <= s.shared.epoch)
    && s.applied <= EffectiveApplied(s) <= s.shared.epoch
    && (!s.shared.pending ==> EffectiveApplied(s) == s.shared.epoch)
    // The mailbox has been read since this frame was queued.
    && (!s.pc.AtReset? && Hand(s.pc) != [] && Hand(s.pc)[0].epoch == s.shared.epoch ==> !s.shared.pending)
    && (s.pc.AtUpdate? && s.pc.hand.epoch != s.shared.epoch ==> s.shared.pending)
    && (Committed(s.pc) != [] ==> Committed(s.pc)[0] <= s.applied)
    && (s.pc.AtRecheck? ==> s.pc.frameEpoch <= s.applied)
  }

  lemma EpochStep(capacity: nat, s: Pipeline, a: Action)
    requires EpochInv(s)
    ensures EpochInv(Step(capacity, s, a))
  {
    match a
    case Receive(m, p) =>
      EpochReceive(capacity, s, m, p);
    case ResetStream(d) =>
      EpochResetStream(capacity, s, d);
    case Submit =>
      EpochScheduling(s, Step(capacity, s, a));
    case Initialize =>
      EpochScheduling(s, Step(capacity, s, a));
    case Worker =>
      EpochWorker(s);
  }

  lemma EpochResetStream(capacity: nat, s: Pipeline, d: bool)
    requires EpochInv(s)
    ensures EpochInv(Step(capacity, s, ResetStream(d)))
  {
    EpochReset(s, AfterStreamReset(s.shared, d));
  }

  lemma EpochScheduling(s: Pipeline, n: Pipeline)
    requires EpochInv(s) && n.shared == s.shared && n.pc == s.pc && n.applied == s.applied && n.readEpoch == s.readEpoch
    ensures EpochInv(n)
  {
  }

  lemma EpochWorker(s: Pipeline)
    requires EpochInv(s)
    ensures EpochInv(WorkerStep(s))
  {
    if s.pc.AtReset? || s.pc.AtApply? {
      EpochMailbox(s);
    } else if s.pc.AtGet? {
      EpochGet(s);
    } else if s.pc.AtSend? || s.pc.AtRecheck? {
      EpochSend(s);
    } else {
      EpochCheck(s);
    }
  }

  lemma EpochReset(s: Pipeline, shared: Shared)
    requires EpochInv(s) && shared.queue == [] && shared.epoch == s.shared.epoch + 1 && shared.pending
    ensures EpochInv(s.(shared := shared, unsubmitted := s.unsubmitted + 1))
  {
  }

  lemma EpochReceive(capacity: nat, s: Pipeline, m: Motion, p: bv8)
    requires EpochInv(s)
    ensures EpochInv(Step(capacity, s, Receive(m, p)))
  {
    if |s.shared.queue| >= capacity {
      EpochReset(s, Received(s.shared, capacity, m, p));
    }
  }

  lemma EpochMailbox(s: Pipeline)
    requires EpochInv(s) && (s.pc.AtReset? || s.pc.AtApply?)
    ensures EpochInv(WorkerStep(s))
  {
  }

  lemma EpochGet(s: Pipeline)
    requires EpochInv(s) && s.pc.AtGet?
    ensures EpochInv(WorkerStep(s))
  {
    if s.shared.queue != [] {
      assert s.shared.queue[0] in s.shared.queue;
    }
  }

  lemma EpochSend(s: Pipeline)
    requires EpochInv(s) && (s.pc.AtSend? || s.pc.AtRecheck?)
    ensures EpochInv(WorkerStep(s))
  {
  }

  lemma EpochCheck(s: Pipeline)
    requires EpochInv(s) && (s.pc.Idle? || s.pc.AtCheck? || s.pc.AtUpdate?)
    ensures EpochInv(WorkerStep(s))
  {
  }

  // ---- The button state the worker is heading for

  // What `forwarded | suppressed` will be once nothing is left to do.
  function Target(s: Pipeline): bv8 {
    TargetOf(s.shared, Hand(s.pc), Settled(s.pc, s.buttons))
  }

  function TargetOf(shared: Shared, hand: seq<QueuedInput>, settled: bv8): bv8 {
    if shared.queue != [] then shared.queue[|shared.queue| - 1].buttons & ALL_BUTTONS
    else if hand != [] && hand[0].epoch == shared.epoch then hand[0].buttons & ALL_BUTTONS
    else if shared.pending then shared.resetButtons
    else settled
  }

  function Settled(pc: Pc, buttons: Buttons): bv8 {
    if pc.AtApply? && pc.taken then pc.value else buttons.forwarded | buttons.suppressed
  }

  predicate FiveBits(m: bv8) {
    m & ALL_BUTTONS == m
  }

  ghost predicate BitsInv(s: Pipeline) {
    && Consistent(s.buttons)
    && FiveBits(s.shared.physical) && FiveBits(s.shared.resetButtons)
    && (s.pc.AtApply? ==> FiveBits(s.pc.value))
  }

  ghost predicate TargetInv(s: Pipeline) {
    Target(s) == s.shared.physical
  }

  lemma BitsStep(capacity: nat, s: Pipeline, a: Action)
    requires BitsInv(s)
    ensures BitsInv(Step(capacity, s, a))
  {
    if a.Worker? {
      BitsWorker(s);
    } else {
      BitsProducer(capacity, s, a);
    }
  }

  lemma BitsProducer(capacity: nat, s: Pipeline, a: Action)
    requires BitsInv(s) && !a.Worker?
    ensures BitsInv(Step(capacity, s, a))
  {
  }

  lemma BitsWorker(s: Pipeline)
    requires BitsInv(s)
    ensures BitsInv(WorkerStep(s))
  {
    if s.pc.AtApply? {
      BitsApply(s);
    } else if s.pc.AtUpdate? {
      BitsUpdate(s);
    } else {
      SameBits(s, WorkerStep(s));
    }
  }

  lemma SameBits(s: Pipeline, n: Pipeline)
    requires BitsInv(s) && n.buttons == s.buttons && n.shared.physical == s.shared.physical
    requires n.shared.resetButtons == s.shared.resetButtons
    requires n.pc.AtApply? ==> n.pc.value == s.shared.resetButtons
    ensures BitsInv(n)
  {
  }

  lemma BitsApply(s: Pipeline)
    requires BitsInv(s) && s.pc.AtApply?
    ensures BitsInv(WorkerStep(s))
  {
    if s.pc.taken {
      ResetIsConsistent(s.pc.value);
    }
  }

  lemma BitsUpdate(s: Pipeline)
    requires BitsInv(s) && s.pc.AtUpdate?
    ensures BitsInv(WorkerStep(s))
  {
  }

  lemma TargetResetStream(capacity: nat, s: Pipeline, d: bool)
    requires EpochInv(s) && TargetInv(s)
    ensures TargetInv(Step(capacity, s, ResetStream(d)))
  {
    TargetReset(s, if d then 0 else s.shared.physical);
  }

  lemma TargetStep(capacity: nat, s: Pipeline, a: Action)
    requires EpochInv(s) && BitsInv(s) && TargetInv(s)
    ensures TargetInv(Step(capacity, s, a))
  {
    match a
    case Receive(m, p) =>
      TargetReceive(capacity, s, m, p);
    case ResetStream(d) =>
      TargetResetStream(capacity, s, d);
    case Submit =>
      TargetScheduling(s, Step(capacity, s, a));
    case Initialize =>
      TargetScheduling(s, Step(capacity, s, a));
    case Worker =>
      TargetWorker(s);
  }

  lemma TargetScheduling(s: Pipeline, n: Pipeline)
    requires TargetInv(s) && n.shared == s.shared && n.pc == s.pc && n.buttons == s.buttons
    ensures TargetInv(n)
  {
  }

  lemma TargetWorker(s: Pipeline)
    requires EpochInv(s) && BitsInv(s) && TargetInv(s)
    ensures TargetInv(WorkerStep(s))
  {
    if s.pc.AtReset? {
      TargetMailbox(s);
    } else if s.pc.AtCheck? {
      TargetCheck(s);
    } else if s.pc.AtApply? {
      TargetApply(s);
    } else if s.pc.AtUpdate? {
      TargetUpdate(s);
    } else if s.pc.AtGet? {
      TargetGet(s);
    } else {
      SameTarget(s, WorkerStep(s));
    }
  }

  lemma SameTarget(s: Pipeline, n: Pipeline)
    requires TargetInv(s) && n.shared == s.shared && Hand(n.pc) == Hand(s.pc)
    requires Settled(n.pc, n.buttons) == Settled(s.pc, s.buttons)
    ensures TargetInv(n)
  {
  }

  lemma TargetReset(s: Pipeline, p: bv8)
    requires EpochInv(s) && TargetInv(s)
    ensures TargetInv(s.(shared := Shared([], s.shared.epoch + 1, p, true, p), unsubmitted := s.unsubmitted + 1))
  {
  }

  lemma TargetReceive(capacity: nat, s: Pipeline, m: Motion, p: bv8)
    requires EpochInv(s) && TargetInv(s)
    ensures TargetInv(Step(capacity, s, Receive(m, p)))
  {
    if |s.shared.queue| >= capacity {
      TargetReset(s, p & ALL_BUTTONS);
    }
  }

  lemma TargetMailbox(s: Pipeline)
    requires TargetInv(s) && s.pc.AtReset?
    ensures TargetInv(WorkerStep(s))
  {
    var n := WorkerStep(s);
    assert n.shared == ResetTaken(s.shared) && Hand(n.pc) == Hand(s.pc);
    assert Settled(n.pc, n.buttons) == if s.shared.pending then s.shared.resetButtons else Settled(s.pc, s.buttons);
  }

  lemma TargetCheck(s: Pipeline)
    requires TargetInv(s) && s.pc.AtCheck?
    ensures TargetInv(WorkerStep(s))
  {
    var n := WorkerStep(s);
    assert n.shared == s.shared && Settled(n.pc, n.buttons) == Settled(s.pc, s.buttons);
    assert Hand(n.pc) == if s.pc.hand.epoch == s.shared.epoch then Hand(s.pc) else [];
  }

  lemma TargetApply(s: Pipeline)
    requires EpochInv(s) && TargetInv(s) && s.pc.AtApply? && FiveBits(s.pc.value)
    ensures TargetInv(WorkerStep(s))
  {
    var n := WorkerStep(s);
    assert Hand(n.pc) == Hand(s.pc) && n.shared == s.shared;
    if s.pc.taken {
      ResetIsConsistent(s.pc.value);
      assert n.buttons == AfterReset(s.pc.value);
    } else {
      assert n.buttons == s.buttons;
    }
  }

  lemma TargetUpdate(s: Pipeline)
    requires EpochInv(s) && TargetInv(s) && s.pc.AtUpdate?
    ensures TargetInv(WorkerStep(s))
  {
  }

  lemma TargetGet(s: Pipeline)
    requires EpochInv(s) && TargetInv(s) && s.pc.AtGet?
    ensures TargetInv(WorkerStep(s))
  {
    if s.shared.queue != [] {
      assert s.shared.queue[0] in s.shared.queue;
      TargetTaken(s.shared, Settled(s.pc, s.buttons));
    }
  }

  // The frame in hand counts for what the queue held.
  lemma TargetTaken(shared: Shared, settled: bv8)
    requires shared.queue != [] && shared.queue[0].epoch == shared.epoch
    ensures TargetOf(Popped(shared), [shared.queue[0]], settled) == TargetOf(shared, [], settled)
  {
  }

  // ---- What the listener downstream has been told

  function EventsOf(sent: seq<Sent>): seq<Event> {
    if sent == [] then []
    else EventsOf(sent[..|sent| - 1]) + Packet(sent[|sent| - 1].edges, sent[|sent| - 1].motion)
  }

  // Presses minus releases of button `i` that this module has sent.
  function Net(sent: seq<Sent>, i: Button): int {
    KeyNet(EventsOf(sent), i)
  }

  lemma NetOfOneMore(sent: seq<Sent>, x: Sent, i: Button)
    requires x.edges.press & x.edges.release == 0
    ensures Net(sent + [x], i)
            == Net(sent, i) + if Has(x.edges.press, i) then 1 else if Has(x.edges.release, i) then -1 else 0
  {
    assert (sent + [x])[..|sent|] == sent;
    NetOfConcat(EventsOf(sent), Packet(x.edges, x.motion), i, X);
    PacketMeaning(x.edges, x.motion, i, X);
  }

  // Forwarded and already reported as pressed: the edges of a packet about to start are still to come.
  function Down(s: Pipeline, i: Button): bool {
    match s.pc
    case AtSend(_, _, e, _) => (Has(s.buttons.forwarded, i) && !Has(e.press, i)) || Has(e.release, i)
    case _ => Has(s.buttons.forwarded, i)
  }

  ghost predicate EdgesFit(s: Pipeline) {
    s.pc.AtSend? ==>
      && s.pc.edges.press & s.pc.edges.release == 0
      && forall i: Button :: (Has(s.pc.edges.press, i) ==> Has(s.buttons.forwarded, i))
                          && (Has(s.pc.edges.release, i) ==> !Has(s.buttons.forwarded, i))
  }

  ghost predicate NetInv(s: Pipeline) {
    EdgesFit(s) && forall i: Button :: Net(s.sent, i) == if Down(s, i) then 1 else 0
  }

  lemma NetStep(capacity: nat, s: Pipeline, a: Action)
    requires NetInv(s)
    ensures NetInv(Step(capacity, s, a))
  {
    if a.Worker? {
      if s.pc.AtApply? && s.pc.taken {
        NetApply(s);
      } else if s.pc.AtUpdate? {
        NetUpdate(s);
      } else if s.pc.AtSend? {
        NetSend(s);
      } else {
        NetUnchanged(s, WorkerStep(s));
      }
    } else {
      NetUnchanged(s, Step(capacity, s, a));
    }
  }

  lemma NetUnchanged(s: Pipeline, n: Pipeline)
    requires NetInv(s) && n.sent == s.sent && n.buttons == s.buttons
    requires n.pc == s.pc || (!s.pc.AtSend? && (n.pc.AtSend? ==> n.pc.edges == NO_EDGES))
    ensures NetInv(n)
  {
  }

  lemma NetApply(s: Pipeline)
    requires NetInv(s) && s.pc.AtApply? && s.pc.taken
    ensures NetInv(WorkerStep(s))
  {
    forall i: Button
      ensures Net(WorkerStep(s).sent, i) == if Down(WorkerStep(s), i) then 1 else 0
    {
      ResetBit(s.buttons, s.pc.value, i);
      NetOfOneMore(s.sent, Sent(ResetEdges(s.buttons), NO_MOTION), i);
    }
  }

  lemma NetUpdate(s: Pipeline)
    requires NetInv(s) && s.pc.AtUpdate?
    ensures NetInv(WorkerStep(s))
  {
    var n := WorkerStep(s);
    UpdateEdgesDisjoint(s.buttons, s.pc.hand.buttons);
    forall i: Button
      ensures Down(n, i) == Down(s, i)
      ensures Has(n.pc.edges.press, i) ==> Has(n.buttons.forwarded, i)
      ensures Has(n.pc.edges.release, i) ==> !Has(n.buttons.forwarded, i)
    {
      UpdateBit(s.buttons, s.pc.hand.buttons, i);
    }
  }

  lemma UpdateEdgesDisjoint(b: Buttons, p: bv8)
    ensures UpdateEdges(b, p).press & UpdateEdges(b, p).release == 0
  {
  }

  lemma NetSend(s: Pipeline)
    requires NetInv(s) && s.pc.AtSend?
    ensures NetInv(WorkerStep(s))
  {
    forall i: Button
      ensures Net(WorkerStep(s).sent, i) == if Down(WorkerStep(s), i) then 1 else 0
    {
      NetOfOneMore(s.sent, Sent(s.pc.edges, Chunk(s.pc.motion)), i);
    }
  }

  // ---- Wake-ups

  ghost predicate WorkWaits(s: Pipeline) {
    s.shared.queue != [] || s.shared.pending
  }

  // The worker will read the queue again, or the mailbox again, before it goes idle.
  predicate WillGet(pc: Pc) {
    match pc
    case Idle => false
    case AtReset(End) => false
    case AtApply(End, _, _) => false
    case _ => true
  }

  predicate WillRead(pc: Pc) {
    WillGet(pc) || pc.AtReset?
  }

  ghost predicate Coming(s: Pipeline) {
    s.submitted || s.unsubmitted > 0 || s.missed
  }

  ghost predicate WakeInv(s: Pipeline) {
    && (s.shared.queue != [] ==> Coming(s) || WillGet(s.pc))
    && (s.shared.pending ==> Coming(s) || WillRead(s.pc))
    && (!s.initialized || s.missed ==> s.pc.Idle? && !s.submitted)
    && (s.missed ==> WorkWaits(s))
    && (!s.initialized && s.unsubmitted > 0 ==> WorkWaits(s))
  }

  lemma WakeStep(capacity: nat, s: Pipeline, a: Action)
    requires WakeInv(s)
    ensures WakeInv(Step(capacity, s, a))
  {
    if a.Worker? {
      WakeWorker(s);
    }
  }

  lemma WakeWorker(s: Pipeline)
    requires WakeInv(s)
    ensures WakeInv(WorkerStep(s))
  {
  }

  // ---- Late packets

  // Packets started, at or after the reset to epoch `k`, for frames received before it.
  function Late(started: seq<Started>, k: nat): nat {
    if started == [] then 0
    else
      var x := started[|started| - 1];
      Late(started[..|started| - 1], k) + if x.frameEpoch < k <= x.epoch then 1 else 0
  }

  lemma {:induction false} NoneLate(started: seq<Started>, k: nat)
    requires forall x :: x in started ==> x.epoch < k
    ensures Late(started, k) == 0
  {
    if started != [] {
      NoneLate(started[..|started| - 1], k);
    }
  }

  ghost predicate LateInv(s: Pipeline) {
    && (forall x :: x in s.started ==> x.epoch <= s.shared.epoch && x.frameEpoch <= x.applied <= s.applied)
    // Nothing has started since this frame passed its check.
    && (Committed(s.pc) != [] ==> forall x :: x in s.started ==> x.epoch <= Committed(s.pc)[0])
    && forall k: nat :: Late(s.started, k) <= 1
  }

  // No packet is started, and a frame that passes its check now is current.
  lemma LateStays(s: Pipeline, n: Pipeline)
    requires LateInv(s) && n.started == s.started && n.shared.epoch >= s.shared.epoch && n.applied >= s.applied
    requires Committed(n.pc) == [] || Committed(n.pc) == Committed(s.pc) || Committed(n.pc) == [s.shared.epoch]
    ensures LateInv(n)
  {
  }

  lemma LateStep(capacity: nat, s: Pipeline, a: Action)
    requires EpochInv(s) && LateInv(s)
    ensures LateInv(Step(capacity, s, a))
  {
    if a.Worker? {
      LateWorker(s);
    } else {
      LateStays(s, Step(capacity, s, a));
    }
  }

  lemma LateWorker(s: Pipeline)
    requires EpochInv(s) && LateInv(s)
    ensures LateInv(WorkerStep(s))
  {
    if s.pc.AtSend? {
      LateSend(s);
    } else {
      LateStays(s, WorkerStep(s));
    }
  }

  lemma LateSend(s: Pipeline)
    requires EpochInv(s) && LateInv(s) && s.pc.AtSend?
    ensures LateInv(WorkerStep(s))
  {
    var x := Started(s.pc.frameEpoch, s.shared.epoch, s.applied);
    var n := WorkerStep(s);
    assert n.started == s.started + [x];
    forall k: nat
      ensures Late(n.started, k) <= 1
    {
      assert n.started[..|s.started|] == s.started;
      if x.frameEpoch < k <= x.epoch {
        NoneLate(s.started, k);
      }
    }
  }

  // ---- Every run

  ghost predicate Inv(s: Pipeline) {
    EpochInv(s) && BitsInv(s) && TargetInv(s) && NetInv(s) && WakeInv(s) && LateInv(s)
  }

  lemma StepKeepsInv(capacity: nat, s: Pipeline, a: Action)
    requires Inv(s)
    ensures Inv(Step(capacity, s, a))
  {
    EpochStep(capacity, s, a);
    BitsStep(capacity, s, a);
    TargetStep(capacity, s, a);
    NetStep(capacity, s, a);
    WakeStep(capacity, s, a);
    LateStep(capacity, s, a);
  }

  lemma {:induction false} Invariant(capacity: nat, acts: seq<Action>)
    ensures Inv(Run(capacity, acts))
  {
    if acts == [] {
      InitialInv();
    } else {
      Invariant(capacity, acts[..|acts| - 1]);
      StepKeepsInv(capacity, Run(capacity, acts[..|acts| - 1]), acts[|acts| - 1]);
    }
  }

  lemma InitialInv()
    ensures Inv(INITIAL)
  {
  }

  // With nothing left to do, the invariant says this.
  lemma SettledNow(s: Pipeline, i: Button)
    requires Inv(s) && s.pc.Idle? && !WorkWaits(s)
    ensures s.buttons.forwarded & s.buttons.suppressed == 0
    ensures s.buttons.forwarded | s.buttons.suppressed == s.shared.physical
    ensures Net(s.sent, i) == if Has(s.buttons.forwarded, i) then 1 else 0
  {
  }

  /**
   Whatever the interleaving, once nothing waits and the worker is idle, the buttons are split into
   forwarded and suppressed ones, together exactly those physically down, and the listener holds
   exactly one press of each forwarded button.
   */
  lemma SettledState(capacity: nat, acts: seq<Action>, i: Button)
    ensures var s := Run(capacity, acts);
            s.pc.Idle? && !WorkWaits(s) ==>
              && s.buttons.forwarded & s.buttons.suppressed == 0
              && s.buttons.forwarded | s.buttons.suppressed == s.shared.physical
              && Net(s.sent, i) == if Has(s.buttons.forwarded, i) then 1 else 0
  {
    Invariant(capacity, acts);
  }

  /** No wake-up is lost, and an idle system is drained, exactly unless the last submission came before initialization. */
  lemma NoLostWakeUp(capacity: nat, acts: seq<Action>)
    ensures var s := Run(capacity, acts);
            && (s.shared.queue != [] ==> s.submitted || s.unsubmitted > 0 || s.missed || WillGet(s.pc))
            && (s.shared.pending ==> s.submitted || s.unsubmitted > 0 || s.missed || WillRead(s.pc))
            && (s.pc.Idle? && !s.submitted && s.unsubmitted == 0 ==> (WorkWaits(s) <==> s.missed))
  {
    Invariant(capacity, acts);
  }

  /** An endpoint change before the work queue starts is left waiting even after it has started. */
  lemma MissedWakeUpHappens(capacity: nat)
    ensures var s := Run(capacity, [ResetStream(false), Submit, Initialize]);
            s.initialized && s.pc.Idle? && !s.submitted && s.unsubmitted == 0 && s.shared.pending
  {
    RunOneMore(capacity, [], ResetStream(false));
    RunOneMore(capacity, [ResetStream(false)], Submit);
    RunOneMore(capacity, [ResetStream(false), Submit], Initialize);
    assert [] + [ResetStream(false)] == [ResetStream(false)];
    assert [ResetStream(false)] + [Submit] == [ResetStream(false), Submit];
    assert [ResetStream(false), Submit] + [Initialize] == [ResetStream(false), Submit, Initialize];
  }

  lemma RunOneMore(capacity: nat, acts: seq<Action>, a: Action)
    ensures Run(capacity, acts + [a]) == Step(capacity, Run(capacity, acts), a)
  {
  }

  /** Every queued record is current; after a reset or overflow at most one packet of an earlier frame still starts. */
  lemma StaleFramesStop(capacity: nat, acts: seq<Action>, k: nat)
    ensures var s := Run(capacity, acts);
            && CurrentQueue(s.shared)
            && Late(s.started, k) <= 1
  {
    Invariant(capacity, acts);
  }

  /** No packet of a frame starts before the reset that opened its epoch has reached the buttons. */
  lemma ResetBeforeFrame(capacity: nat, acts: seq<Action>)
    ensures var s := Run(capacity, acts);
            && (forall x :: x in s.started ==> x.frameEpoch <= x.applied <= s.applied)
            && (s.pc.AtUpdate? ==> s.pc.hand.epoch <= s.applied)
  {
    Invariant(capacity, acts);
  }
}
