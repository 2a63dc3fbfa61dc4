/**
 The mouse output stream of src/mouse_output.c: a bounded queue, an epoch and a one-slot
 reset mailbox, shared under a lock by any number of producers and one worker.
 */
module OutputStream {
  import opened Masks
  import opened ButtonState
  import opened MouseOutput

  // What `input_state_lock` protects.
  datatype Shared = Shared(
    queue: seq<QueuedInput>, epoch: nat, physical: bv8, pending: bool, resetButtons: bv8)

  const EMPTY := Shared([], 0, 0, false, 0)

  // The locked section of `zmk_mouse_output_receive`.
  function Received(s: Shared, capacity: nat, motion: Motion, physical: bv8): Shared {
    var p := physical & ALL_BUTTONS;
    if |s.queue| < capacity then
      s.(queue := s.queue + [QueuedInput(motion, physical, s.epoch)], physical := p)
    else
      Shared([], s.epoch + 1, p, true, p)
  }

  // The locked section of `reset_stream`.
  function AfterStreamReset(s: Shared, disconnected: bool): Shared {
    var p := if disconnected then 0 else s.physical;
    Shared([], s.epoch + 1, p, true, p)
  }

  // The locked section of `apply_pending_reset`.
  function ResetTaken(s: Shared): Shared {
    s.(pending := false)
  }

  function Popped(s: Shared): Shared
    requires s.queue != []
  {
    s.(queue := s.queue[1..])
  }

  // The buttons once everything queued has been sent, in order, by an undisturbed worker.
  function Drained(b: Buttons, queue: seq<QueuedInput>): Buttons
    decreases |queue|
  {
    if queue == [] then b else Drained(AfterUpdate(b, queue[0].buttons), queue[1..])
  }

  // The events of sending it.
  function DrainEvents(b: Buttons, queue: seq<QueuedInput>): seq<Event>
    decreases |queue|
  {
    if queue == [] then []
    else FrameEvents(b, queue[0]) + DrainEvents(AfterUpdate(b, queue[0].buttons), queue[1..])
  }

  lemma DrainTurn(events: seq<Event>, b: Buttons, queue: seq<QueuedInput>)
    requires queue != []
    ensures events + DrainEvents(b, queue)
            == (events + FrameEvents(b, queue[0])) + DrainEvents(AfterUpdate(b, queue[0].buttons), queue[1..])
    ensures Drained(b, queue) == Drained(AfterUpdate(b, queue[0].buttons), queue[1..])
  {
  }

  function FrameEvents(b: Buttons, input: QueuedInput): seq<Event> {
    Flat(Packets(UpdateEdges(b, input.buttons), Motions(input.motion, seq(MAX_PACKETS, _ => true))))
  }

  function Flat(packets: seq<seq<Event>>): seq<Event> {
    if packets == [] then [] else packets[0] + Flat(packets[1..])
  }

  function AfterPending(s: Shared, b: Buttons): Buttons {
    if s.pending then AfterReset(s.resetButtons) else b
  }

  function PendingEvents(s: Shared, b: Buttons): seq<Event> {
    if s.pending then Packet(ResetEdges(b), NO_MOTION) else []
  }

  ghost predicate CurrentQueue(s: Shared) {
    forall q :: q in s.queue ==> q.epoch == s.epoch
  }

  /** The stream's variables, updated in place by its three entry points and its worker. */
  class Stream {
    const capacity: nat
    var queue: seq<QueuedInput>
    var epoch: nat
    var physical: bv8
    var pending: bool
    var resetButtons: bv8
    const buttons: Tracker

    function View(): Shared
      reads this
    {
      Shared(queue, epoch, physical, pending, resetButtons)
    }

    constructor (capacity: nat)
      ensures this.capacity == capacity && View() == EMPTY
      ensures fresh(buttons) && buttons.View() == NO_BUTTONS
    {
      this.capacity := capacity;
      queue, epoch, physical, pending, resetButtons := [], 0, 0, false, 0;
      buttons := new Tracker();
    }

    method Receive(motion: Motion, physical: bv8)
      modifies this
      ensures View() == Received(old(View()), capacity, motion, physical)
      ensures this.physical == physical & 0x1f
      ensures old(|queue|) < capacity ==> queue == old(queue) + [QueuedInput(motion, physical, old(epoch))] && epoch == old(epoch)
      ensures old(|queue|) >= capacity ==> queue == [] && epoch == old(epoch) + 1 && pending && resetButtons == physical & 0x1f
    {
      this.physical := physical & ALL_BUTTONS;
      var overflow := |queue| >= capacity;
      if overflow {
        epoch := epoch + 1;
        resetButtons := physical & ALL_BUTTONS;
        pending := true;
        queue := [];
      } else {
        queue := queue + [QueuedInput(motion, physical, epoch)];
      }
    }

    method ResetStream(disconnected: bool)
      modifies this
      ensures View() == AfterStreamReset(old(View()), disconnected)
    {
      if disconnected {
        physical := 0;
      }
      epoch := epoch + 1;
      resetButtons := physical;
      pending := true;
      queue := [];
    }

    method ApplyPendingReset() returns (events: seq<Event>)
      modifies this, buttons
      ensures View() == ResetTaken(old(View()))
      ensures buttons.View() == AfterPending(old(View()), old(buttons.View()))
      ensures events == PendingEvents(old(View()), old(buttons.View()))
    {
      var taken := pending;
      pending := false;
      events := [];
      if taken {
        var release := buttons.Reset(resetButtons);
        events := SendPacket(Edges(0, release), NO_MOTION);
      }
    }

    method SendUndisturbed(input: QueuedInput) returns (events: seq<Event>)
      requires input.epoch == epoch
      modifies buttons
      ensures buttons.View() == AfterUpdate(old(buttons.View()), input.buttons)
      ensures events == FrameEvents(old(buttons.View()), input)
    {
      var current := epoch;
      var observed := seq(MAX_PACKETS, _ => current);
      var packets := SendFrame(buttons, input, observed);
      assert Live(input.epoch, observed) == seq(MAX_PACKETS, _ => true);
      events := Flat(packets);
    }

    // One turn of the queue loop.
    method TakeOne() returns (events: seq<Event>)
      requires queue != [] && !pending && queue[0].epoch == epoch
      modifies this, buttons
      ensures View() == Popped(old(View()))
      ensures buttons.View() == AfterUpdate(old(buttons.View()), old(queue[0].buttons))
      ensures events == FrameEvents(old(buttons.View()), old(queue[0]))
    {
      var input := queue[0];
      queue := queue[1..];
      events := ApplyPendingReset();
      if input.epoch == epoch {
        var sent := SendUndisturbed(input);
        events := events + sent;
      }
    }

    method DrainQueue() returns (events: seq<Event>)
      requires CurrentQueue(View()) && !pending
      modifies this, buttons
      ensures View() == Shared([], old(epoch), old(physical), false, old(resetButtons))
      ensures buttons.View() == Drained(old(buttons.View()), old(queue))
      ensures events == DrainEvents(old(buttons.View()), old(queue))
    {
      events := [];
      ghost var settled := Drained(buttons.View(), queue);
      ghost var all := DrainEvents(buttons.View(), queue);
      while queue != []
        invariant CurrentQueue(View())
        invariant View() == Shared(queue, old(epoch), old(physical), false, old(resetButtons))
        invariant Drained(buttons.View(), queue) == settled
        invariant events + DrainEvents(buttons.View(), queue) == all
        decreases |queue|
      {
        assert queue[0] in View().queue;
        DrainTurn(events, buttons.View(), queue);
        var sent := TakeOne();
        events := events + sent;
      }
    }

    /** `output_work_cb` when nothing interferes: apply the mailbox, then send the whole queue. */
    method OutputWork() returns (events: seq<Event>)
      requires CurrentQueue(View())
      modifies this, buttons
      ensures View() == old(View()).(queue := [], pending := false)
      ensures var b := AfterPending(old(View()), old(buttons.View()));
              && buttons.View() == Drained(b, old(queue))
              && events == PendingEvents(old(View()), old(buttons.View())) + DrainEvents(b, old(queue))
    {
      events := ApplyPendingReset();
      var sent := DrainQueue();
      var last := ApplyPendingReset();
      events := events + sent + last;
    }
  }
}
