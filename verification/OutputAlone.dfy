/** The worker of the interleaving machine, left alone, does exactly what `Stream.OutputWork` does. */
module OutputAlone {
  import opened Masks
  import opened ButtonState
  import opened MouseOutput
  import opened OutputStream
  import opened OutputPipeline

  function Steps(s: Pipeline, n: nat): Pipeline
    decreases n
  {
    if n == 0 then s else Steps(WorkerStep(s), n - 1)
  }

  lemma {:induction false} StepsAdd(s: Pipeline, m: nat, n: nat)
    ensures Steps(Steps(s, m), n) == Steps(s, m + n)
    decreases m
  {
    if m > 0 {
      StepsAdd(WorkerStep(s), m - 1, n);
    }
  }

  // Some number of the worker's own steps leads from `s` to `r`, with these further events.
  ghost predicate Leads(s: Pipeline, r: Pipeline, events: seq<Event>) {
    Gets(s, r) && r.submitted == s.submitted && EventsOf(r.sent) == EventsOf(s.sent) + events
  }

  ghost predicate Gets(s: Pipeline, r: Pipeline) {
    exists n: nat :: r == Steps(s, n)
  }

  lemma GetsOn(s: Pipeline, r: Pipeline, t: Pipeline)
    requires Gets(s, r) && Gets(r, t)
    ensures Gets(s, t)
  {
    var m: nat :| r == Steps(s, m);
    var n: nat :| t == Steps(r, n);
    StepsAdd(s, m, n);
    assert t == Steps(s, m + n);
  }

  lemma GetsNext(s: Pipeline)
    ensures Gets(s, WorkerStep(s))
  {
    assert Steps(s, 1) == Steps(WorkerStep(s), 0);
  }

  lemma Regroup<T>(a: seq<T>, b: seq<T>, c: seq<T>)
    ensures (a + b) + c == a + (b + c)
  {
  }

  lemma Joined(s: Pipeline, r: Pipeline, t: Pipeline, e1: seq<Event>, e2: seq<Event>)
    requires Leads(s, r, e1) && Leads(r, t, e2)
    ensures Leads(s, t, e1 + e2)
  {
    GetsOn(s, r, t);
    Regroup(EventsOf(s.sent), e1, e2);
  }

  // A step that sends nothing.
  lemma QuietStep(s: Pipeline)
    requires WorkerStep(s).sent == s.sent && s.pc != Idle
    ensures Leads(s, WorkerStep(s), [])
  {
    GetsNext(s);
  }

  lemma EventsOfOneMore(sent: seq<Sent>, x: Sent)
    ensures EventsOf(sent + [x]) == EventsOf(sent) + Packet(x.edges, x.motion)
  {
  }

  function AllLive(n: nat): seq<bool> {
    seq(n, _ => true)
  }

  // What the packets of a frame hold from its `i`-th packet on.
  function RestOfFrame(i: nat, edges: Edges, m: Motion): seq<Event>
    requires i <= MAX_PACKETS
  {
    Flat(Packets(edges, Motions(m, AllLive(MAX_PACKETS - i))))
  }

  lemma NoneLive(m: Motion, live: seq<bool>)
    ensures live == [] ==> Motions(m, live) == []
  {
  }

  lemma RestUnfolds(i: nat, edges: Edges, m: Motion)
    requires i < MAX_PACKETS
    ensures RestOfFrame(i, edges, m)
            == Packet(edges, Chunk(m))
               + if Rest(m) == NO_MOTION || i + 1 == MAX_PACKETS then [] else RestOfFrame(i + 1, NO_EDGES, Rest(m))
  {
    var live := AllLive(MAX_PACKETS - i);
    assert live[1..] == AllLive(MAX_PACKETS - (i + 1));
    var after := MotionsAfter(m, live);
    assert live != [] && live[0];
    assert Motions(m, live) == [Chunk(m)] + after;
    assert ([Chunk(m)] + after)[1..] == after;
    var packets := Packets(NO_EDGES, after);
    assert Packets(edges, [Chunk(m)] + after) == [Packet(edges, Chunk(m))] + packets;
    assert ([Packet(edges, Chunk(m))] + packets)[1..] == packets;
    assert RestOfFrame(i, edges, m) == Packet(edges, Chunk(m)) + Flat(packets);
    if Rest(m) == NO_MOTION || i + 1 == MAX_PACKETS {
      NoneLive(Rest(m), live[1..]);
      assert after == [] && packets == [];
    } else {
      assert after == Motions(Rest(m), AllLive(MAX_PACKETS - (i + 1)));
    }
  }

  lemma SendingStep(s: Pipeline, x: Sent)
    requires WorkerStep(s).sent == s.sent + [x] && s.pc != Idle
    ensures Leads(s, WorkerStep(s), Packet(x.edges, x.motion))
  {
    EventsOfOneMore(s.sent, x);
    GetsNext(s);
  }

  lemma SendStep(s: Pipeline)
    requires s.pc.AtSend?
    ensures Leads(s, WorkerStep(s), Packet(s.pc.edges, Chunk(s.pc.motion)))
  {
    SendingStep(s, Sent(s.pc.edges, Chunk(s.pc.motion)));
  }

  ghost predicate Done(r: Pipeline, pc: Pc, shared: Shared, buttons: Buttons) {
    r.pc == pc && r.shared == shared && r.buttons == buttons
  }

  lemma SendOne(s: Pipeline) returns (r: Pipeline)
    requires s.pc.AtSend? && s.pc.i + 1 < MAX_PACKETS && Rest(s.pc.motion) != NO_MOTION
    ensures Leads(s, r, Packet(s.pc.edges, Chunk(s.pc.motion)))
    ensures Done(r, AtRecheck(s.pc.frameEpoch, s.pc.i + 1, Rest(s.pc.motion)), s.shared, s.buttons)
  {
    SendStep(s);
    r := WorkerStep(s);
  }

  lemma RecheckPasses(s: Pipeline) returns (r: Pipeline)
    requires s.pc.AtRecheck? && s.pc.frameEpoch == s.shared.epoch
    ensures Leads(s, r, [])
    ensures Done(r, AtSend(s.pc.frameEpoch, s.pc.i, NO_EDGES, s.pc.motion), s.shared, s.buttons)
  {
    QuietStep(s);
    r := WorkerStep(s);
  }

  // One packet, and the epoch found unchanged before the next.
  lemma SendMore(s: Pipeline) returns (r: Pipeline)
    requires s.pc.AtSend? && s.pc.frameEpoch == s.shared.epoch && s.pc.i + 1 < MAX_PACKETS && Rest(s.pc.motion) != NO_MOTION
    ensures Leads(s, r, Packet(s.pc.edges, Chunk(s.pc.motion)))
    ensures Done(r, AtSend(s.pc.frameEpoch, s.pc.i + 1, NO_EDGES, Rest(s.pc.motion)), s.shared, s.buttons)
  {
    var packet := Packet(s.pc.edges, Chunk(s.pc.motion));
    var t := SendOne(s);
    r := RecheckPasses(t);
    Joined(s, t, r, packet, []);
    assert packet + [] == packet;
  }

  lemma SendLast(s: Pipeline) returns (r: Pipeline)
    requires s.pc.AtSend? && (Rest(s.pc.motion) == NO_MOTION || s.pc.i + 1 == MAX_PACKETS)
    ensures Leads(s, r, Packet(s.pc.edges, Chunk(s.pc.motion))) && Done(r, AtGet, s.shared, s.buttons)
  {
    SendStep(s);
    r := WorkerStep(s);
  }

  lemma {:induction false} SendAlone(s: Pipeline) returns (r: Pipeline)
    requires s.pc.AtSend? && s.pc.frameEpoch == s.shared.epoch && s.pc.i < MAX_PACKETS
    ensures Leads(s, r, RestOfFrame(s.pc.i, s.pc.edges, s.pc.motion)) && Done(r, AtGet, s.shared, s.buttons)
    decreases MAX_PACKETS - s.pc.i
  {
    var i, edges, m := s.pc.i, s.pc.edges, s.pc.motion;
    var packet := Packet(edges, Chunk(m));
    RestUnfolds(i, edges, m);
    if Rest(m) == NO_MOTION || i + 1 == MAX_PACKETS {
      r := SendLast(s);
      assert packet + [] == packet;
    } else {
      var again := SendMore(s);
      r := SendAlone(again);
      Joined(s, again, r, packet, RestOfFrame(i + 1, NO_EDGES, Rest(m)));
    }
  }

  lemma ApplyStep(s: Pipeline)
    requires s.pc.AtApply?
    ensures Leads(s, WorkerStep(s), if s.pc.taken then Packet(ResetEdges(s.buttons), NO_MOTION) else [])
  {
    if s.pc.taken {
      SendingStep(s, Sent(ResetEdges(s.buttons), NO_MOTION));
    } else {
      QuietStep(s);
    }
  }

  lemma MailboxAlone(s: Pipeline) returns (r: Pipeline)
    requires s.pc.AtReset?
    ensures Leads(s, r, PendingEvents(s.shared, s.buttons))
    ensures Done(r, AfterApply(s.pc.at), ResetTaken(s.shared), AfterPending(s.shared, s.buttons))
  {
    var s1 := WorkerStep(s);
    QuietStep(s);
    ApplyStep(s1);
    r := WorkerStep(s1);
    Joined(s, s1, r, [], PendingEvents(s.shared, s.buttons));
  }

  // Gets a current frame, finds the mailbox empty and the epoch unchanged, and updates the buttons.
  lemma GetFrame(s: Pipeline) returns (r: Pipeline)
    requires s.pc == AtGet && s.shared.queue != [] && !s.shared.pending && s.shared.queue[0].epoch == s.shared.epoch
    ensures var h := s.shared.queue[0];
            && Leads(s, r, [])
            && Done(r, AtSend(h.epoch, 0, UpdateEdges(s.buttons, h.buttons), h.motion), Popped(s.shared),
                    AfterUpdate(s.buttons, h.buttons))
  {
    QuietStep(s);
    var s1 := WorkerStep(s);
    var s3 := MailboxAlone(s1);
    QuietStep(s3);
    var s4 := WorkerStep(s3);
    QuietStep(s4);
    r := WorkerStep(s4);
    Joined(s, s1, s3, [], []);
    Joined(s, s3, s4, [], []);
    Joined(s, s4, r, [], []);
  }

  lemma TakeFrame(s: Pipeline) returns (r: Pipeline)
    requires s.pc == AtGet && s.shared.queue != [] && !s.shared.pending && s.shared.queue[0].epoch == s.shared.epoch
    ensures var h := s.shared.queue[0];
            && Leads(s, r, RestOfFrame(0, UpdateEdges(s.buttons, h.buttons), h.motion))
            && Done(r, AtGet, Popped(s.shared), AfterUpdate(s.buttons, h.buttons))
  {
    var sending := GetFrame(s);
    r := SendAlone(sending);
    var events := RestOfFrame(0, sending.pc.edges, sending.pc.motion);
    Joined(s, sending, r, [], events);
    assert [] + events == events;
  }

  lemma TakeAlone(s: Pipeline) returns (r: Pipeline)
    requires s.pc == AtGet && s.shared.queue != [] && !s.shared.pending && s.shared.queue[0].epoch == s.shared.epoch
    ensures var h := s.shared.queue[0];
            Leads(s, r, FrameEvents(s.buttons, h)) && Done(r, AtGet, Popped(s.shared), AfterUpdate(s.buttons, h.buttons))
  {
    WholeFrame(s.buttons, s.shared.queue[0]);
    r := TakeFrame(s);
  }

  lemma WholeFrame(b: Buttons, h: QueuedInput)
    ensures FrameEvents(b, h) == RestOfFrame(0, UpdateEdges(b, h.buttons), h.motion)
  {
  }

  lemma {:induction false} DrainAlone(s: Pipeline) returns (r: Pipeline)
    requires s.pc == AtGet && !s.shared.pending && CurrentQueue(s.shared)
    ensures Leads(s, r, DrainEvents(s.buttons, s.shared.queue))
    ensures Done(r, AtGet, s.shared.(queue := []), Drained(s.buttons, s.shared.queue))
    decreases |s.shared.queue|
  {
    r := s;
    assert s == Steps(s, 0);
    if s.shared.queue != [] {
      var h := s.shared.queue[0];
      assert h in s.shared.queue;
      var t := TakeAlone(s);
      r := DrainAlone(t);
      Joined(s, t, r, FrameEvents(s.buttons, h), DrainEvents(t.buttons, t.shared.queue));
    }
  }

  /**
   Submitted and undisturbed, the worker goes back to idle having emptied the mailbox and the queue,
   with the buttons and the events that `Stream.OutputWork` promises.
   */
  lemma WorkerAlone(s: Pipeline) returns (r: Pipeline)
    requires s.pc == Idle && s.submitted && CurrentQueue(s.shared)
    ensures var b := AfterPending(s.shared, s.buttons);
            && Gets(s, r) && Done(r, Idle, s.shared.(queue := [], pending := false), Drained(b, s.shared.queue))
            && EventsOf(r.sent) == EventsOf(s.sent) + (PendingEvents(s.shared, s.buttons) + DrainEvents(b, s.shared.queue))
  {
    var b := AfterPending(s.shared, s.buttons);
    var reset, drained := PendingEvents(s.shared, s.buttons), DrainEvents(b, s.shared.queue);
    var s1 := WorkerStep(s);
    var s3 := MailboxAlone(s1);
    var s4 := DrainAlone(s3);
    Joined(s1, s3, s4, reset, drained);
    QuietStep(s4);
    var s5 := WorkerStep(s4);
    Joined(s1, s4, s5, reset + drained, []);
    r := MailboxAlone(s5);
    Joined(s1, s5, r, reset + drained + [], []);
    GetsNext(s);
    GetsOn(s, s1, r);
  }
}
