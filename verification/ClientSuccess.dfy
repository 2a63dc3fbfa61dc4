/** What the client is for, in runs that keep the order of the queue: it pairs, it comes back, and it forgets. */
module ClientSuccess {
  import opened MouseClient
  import opened ClientOrder

  lemma Next(o: Ordered, a: Action) returns (r: Ordered)
    requires Occurs(o) && Allowed(o, Does(a))
    ensures Occurs(r) && r == Moved(o, Does(a)) && r.client == Step(o.client, a)
  {
    r := Moved(o, Does(a));
    MoveOccurs(o, Does(a));
  }

  // ---- Pairing

  // The candidate is connected, up to this stage; nothing is queued.
  ghost predicate Trying(o: Ordered, c: Address, stage: Stage, bonded: bool) {
    && Occurs(o) && o.queue == [] && o.up
    && var s := o.client;
    && s.conn == Some(c) && s.stage == stage && s.newCandidate && !s.havePeer && s.pairing && !s.failure
    && !s.forgetRequested && !s.clearHeld && s.request == None
    && s.candidateBonded == bonded && s.bonds == (if bonded then {c} else {})
    && s.due == {Retry, PairTimeout, Timeout}
  }

  // The attempt at the candidate, before the worker has got to its connection.
  ghost predicate Attempt(o: Ordered, c: Address, due: set<Work>) {
    && Occurs(o)
    && var s := o.client;
    && s.conn == Some(c) && s.stage == Connecting && s.newCandidate && !s.havePeer && s.pairing && !s.failure
    && !s.forgetRequested && !s.clearHeld && s.request == None && !s.candidateBonded && s.bonds == {} && !s.connectedError
    && s.due == {Retry, PairTimeout, Timeout} + due && s.log.armed
  }

  lemma AttemptMade(c: Address) returns (o: Ordered)
    ensures Attempt(o, c, {}) && o.queue == [] && !o.up
  {
    var o3 := RequestPosted(c);
    o := Next(o3, ConnectWork(true, true));
  }

  lemma LinkUp(c: Address) returns (o: Ordered)
    ensures Attempt(o, c, {Connected}) && o.queue == [Job(Connected)] && o.up
  {
    var o4 := AttemptMade(c);
    o := Next(o4, ConnectedEvent(c, false));
  }

  lemma SecurityBegun(c: Address) returns (o: Ordered)
    ensures Trying(o, c, Security, false)
  {
    var o5 := LinkUp(c);
    o := Next(o5, ConnectedWork(Started, YES));
    assert Called(o5.client, ConnectedWork(Started, YES)).due == {Retry, PairTimeout, Timeout};
    assert o5.queue[1..] == [];
  }

  lemma Bonded(c: Address) returns (o: Ordered)
    ensures Trying(o, c, Security, true)
  {
    var o6 := SecurityBegun(c);
    o := Next(o6, PairingComplete(c, true));
  }

  lemma Encrypted(c: Address) returns (o: Ordered)
    ensures Trying(o, c, Service, true)
  {
    var o7 := Bonded(c);
    o := Next(o7, SecurityChanged(c, false, true));
  }

  lemma Advanced(o: Ordered, c: Address, stage: Stage, next: Stage) returns (r: Ordered)
    requires Trying(o, c, stage, true) && next == After(stage) && stage != Closing
    ensures Trying(r, c, next, true)
  {
    r := Next(o, SetupAdvances);
  }

  lemma ReportsSubscribed(c: Address) returns (o: Ordered)
    ensures Trying(o, c, Subscriptions, true)
  {
    o := Encrypted(c);
    o := Advanced(o, c, Service, Characteristics);
    o := Advanced(o, c, Characteristics, Descriptors);
    o := Advanced(o, c, Descriptors, ReportMap);
    o := Advanced(o, c, ReportMap, References);
    o := Advanced(o, c, References, Protocol);
    o := Advanced(o, c, Protocol, Subscriptions);
  }

  // Paired, saved and in use.
  ghost predicate InUse(o: Ordered, c: Address) {
    && Occurs(o) && o.queue == [] && o.up
    && var s := o.client;
    && s.conn == Some(c) && s.stage == Ready && s.havePeer && s.peer == c && s.saved == Some(c) && s.bonds == {c}
    && !s.newCandidate && !s.pairing && !s.failure && !s.forgetRequested && !s.clearHeld && s.request == None
    && s.due <= {Retry}
  }

  /** A mouse that pairs, and whose set-up covers everything, is adopted: bonded, saved, ready, and the window closed. */
  lemma PairingSucceeds(c: Address) returns (o: Ordered)
    ensures InUse(o, c)
  {
    var o14 := ReportsSubscribed(c);
    o := Next(o14, SetupFinishes(true, true));
  }

  // ---- Coming back

  ghost predicate Returning(o: Ordered, c: Address, stage: Stage) {
    && Occurs(o) && o.queue == [] && o.up
    && var s := o.client;
    && s.conn == Some(c) && s.stage == stage && !s.newCandidate && s.havePeer && s.peer == c && s.saved == Some(c)
    && !s.pairing && !s.failure && !s.forgetRequested && !s.clearHeld && s.request == None && s.bonds == {c}
    && s.due == {Timeout}
  }

  lemma MouseBack(c: Address) returns (o: Ordered)
    ensures Occurs(o) && o.queue == [Job(Connected)] && o.up
    ensures var s := o.client;
            && s.conn == Some(c) && s.stage == Connecting && !s.newCandidate && s.havePeer && s.peer == c && s.saved == Some(c)
            && !s.pairing && !s.failure && !s.forgetRequested && !s.clearHeld && s.request == None && s.bonds == {c}
            && s.due == {Timeout, Connected} && !s.connectedError
  {
    RequestingOccurs(c);
    var o1 := Next(Requesting(c), ConnectWork(true, true));
    o := Next(o1, ConnectedEvent(c, false));
  }

  lemma BackSecure(c: Address) returns (o: Ordered)
    ensures Returning(o, c, Service)
  {
    var o2 := MouseBack(c);
    o := Next(o2, ConnectedWork(AlreadySecure, YES));
    assert Called(o2.client, ConnectedWork(AlreadySecure, YES)).due == {Timeout};
    assert o2.queue[1..] == [];
  }

  lemma BackAdvanced(o: Ordered, c: Address, stage: Stage, next: Stage) returns (r: Ordered)
    requires Returning(o, c, stage) && next == After(stage) && stage != Closing
    ensures Returning(r, c, next)
  {
    r := Next(o, SetupAdvances);
  }

  lemma BackSubscribed(c: Address) returns (o: Ordered)
    ensures Returning(o, c, Subscriptions)
  {
    o := BackSecure(c);
    o := BackAdvanced(o, c, Service, Characteristics);
    o := BackAdvanced(o, c, Characteristics, Descriptors);
    o := BackAdvanced(o, c, Descriptors, ReportMap);
    o := BackAdvanced(o, c, ReportMap, References);
    o := BackAdvanced(o, c, References, Protocol);
    o := BackAdvanced(o, c, Protocol, Subscriptions);
  }

  /** A saved mouse that answers again is ready again, without a window and without a new bond. */
  lemma ReconnectSucceeds(c: Address) returns (o: Ordered)
    ensures InUse(o, c)
  {
    var subscribed := BackSubscribed(c);
    o := Next(subscribed, SetupFinishes(true, true));
  }

  // ---- Forgetting

  // A Clear is being held long enough.
  lemma ClearExpired(o: Ordered, c: Address) returns (r: Ordered)
    requires InUse(o, c)
    ensures Occurs(r) && r.queue == [Job(Clear)] && r.up
    ensures r.client == o.client.(clearHeld := true, due := o.client.due + {Clear})
  {
    var held := Next(o, ClearHold(true));
    r := Moved(held, Expires(Clear));
    MoveOccurs(held, Expires(Clear));
  }

  // The connection is to be ended, and then the mouse to be forgotten.
  ghost predicate Ending(o: Ordered, c: Address, due: set<Work>) {
    && Occurs(o)
    && var s := o.client;
    && s.conn == Some(c) && s.havePeer && s.peer == c && s.saved == Some(c) && s.bonds == {c}
    && !s.newCandidate && s.forgetRequested && s.request == None && s.due - {Retry} == due
  }

  lemma ClearFails(o: Ordered, c: Address) returns (r: Ordered)
    requires InUse(o, c)
    ensures Ending(r, c, {Failure}) && r.queue == [Job(Failure)] && r.up
  {
    var expired := ClearExpired(o, c);
    r := Next(expired, ClearWork(YES));
    assert expired.queue[1..] == [];
  }

  lemma Ended(o: Ordered, c: Address) returns (r: Ordered)
    requires InUse(o, c)
    ensures Ending(r, c, {}) && r.queue == [] && r.up
  {
    var failed := ClearFails(o, c);
    r := Next(failed, FailureWork(Accepted, YES));
    assert failed.queue[1..] == [];
  }

  lemma LinkDown(o: Ordered, c: Address) returns (r: Ordered)
    requires InUse(o, c)
    ensures Ending(r, c, {Disconnected}) && r.queue == [Job(Disconnected)]
  {
    var ended := Ended(o, c);
    r := Next(ended, DisconnectedEvent(c));
  }

  /** Holding Clear over a mouse in use ends its connection and forgets it: no bond, no setting, no mouse. */
  lemma ClearingSucceeds(o: Ordered, c: Address) returns (r: Ordered)
    requires InUse(o, c)
    ensures Occurs(r) && r.queue == []
    ensures var s := r.client;
            s.conn == None && !s.havePeer && s.bonds == {} && s.saved == None && !s.forgetRequested && Retry in s.due
  {
    var down := LinkDown(o, c);
    r := Next(down, DisconnectedWork(YES));
    assert down.queue[1..] == [];
  }
}
