/** Whether a connection that is held will be let go or become ready: what may be left with nothing to come. */
module ClientTending {
  import opened MouseClient
  import opened ClientRuns
  import opened ClientProperties

  // Automatic connection is on only until its connection has been worked on; a connection being set up has its timer.
  ghost predicate HostInv(s: Client) {
    && (s.log.armed ==> s.conn != None && (s.stage == Connecting || s.stage == Closing))
    && (s.conn != None && Connected in s.due ==> s.log.armed)
    && (s.conn != None && s.stage != Ready && s.stage != Closing && !s.failure ==> Timeout in s.due)
  }

  lemma LetGoKeepsHost(s: Client, host: Host)
    ensures HostInv(LetGo(s, host))
  {
  }

  lemma DisconnectedKeepsHost(s: Client, t: Client, host: Host)
    requires HostInv(s) && Taking(s, t, Disconnected)
    ensures HostInv(DoDisconnectedWork(t, host))
  {
    LetGoKeepsHost(Unpaired(t, host), host);
  }

  lemma DisarmedKeepsHost(s: Client, t: Client)
    requires HostInv(s) && Taking(s, t, Connected)
    ensures HostInv(Disarmed(t)) && (t.conn != None ==> t.stage == Connecting || t.stage == Closing)
  {
  }

  lemma StartKeepsHost(s: Client, answer: SecurityAnswer)
    requires HostInv(s) && s.conn != None && !s.failure && s.stage == Connecting && !s.log.armed
    ensures HostInv(StartSecurity(s, answer))
  {
    match answer {
      case Refused =>
      case Started =>
      case AlreadySecure =>
    }
  }

  lemma OnConnectedKeepsHost(s: Client, answer: SecurityAnswer, host: Host)
    requires HostInv(s) && s.conn != None && (s.stage == Connecting || s.stage == Closing) && !s.log.armed
    ensures HostInv(OnConnected(s, answer, host))
  {
    if s.connectedError {
      LetGoKeepsHost(s, host);
    } else if !s.failure && s.stage != Closing {
      StartKeepsHost(s, answer);
    }
  }

  lemma ConnectedKeepsHost(s: Client, t: Client, answer: SecurityAnswer, host: Host)
    requires HostInv(s) && Taking(s, t, Connected)
    ensures HostInv(DoConnectedWork(t, answer, host))
  {
    DisarmedKeepsHost(s, t);
    if t.conn != None {
      OnConnectedKeepsHost(Disarmed(t), answer, host);
    }
  }

  lemma IdleKeepsHost(s: Client, t: Client)
    requires HostInv(s) && Taking(s, t, Failure) && s.conn == None
    ensures HostInv(BackToIdle(Closed(t)))
  {
  }

  lemma ClosedKeepsHost(s: Client, t: Client, disconnect: DisconnectAnswer, host: Host)
    requires HostInv(s) && Taking(s, t, Failure) && s.conn != None && disconnect != NotConnected
    ensures HostInv(DoFailureWork(t, disconnect, host))
  {
  }

  lemma FailureKeepsHost(s: Client, t: Client, disconnect: DisconnectAnswer, host: Host)
    requires Core(s) && HostInv(s) && Taking(s, t, Failure)
    ensures HostInv(DoFailureWork(t, disconnect, host))
  {
    if t.conn == None {
      IdleKeepsHost(s, t);
    } else if disconnect == NotConnected {
      LetGoKeepsHost(Unpaired(Closed(t), host), host);
    } else {
      ClosedKeepsHost(s, t, disconnect, host);
    }
  }

  lemma ConnectKeepsHost(s: Client, addr: Address, ok: bool)
    requires Core(s) && HostInv(s)
    ensures HostInv(DoConnect(s, addr, ok))
  {
  }

  lemma PairTimeoutKeepsHost(s: Client, t: Client)
    requires Core(s) && HostInv(s) && Taking(s, t, PairTimeout)
    ensures HostInv(DoPairTimeout(t))
  {
  }

  lemma PairKeepsHost(s: Client, t: Client)
    requires HostInv(s) && Taking(s, t, Pair)
    ensures HostInv(DoPairWork(t))
  {
  }

  lemma ClearKeepsHost(s: Client, t: Client, host: Host)
    requires Core(s) && HostInv(s) && Taking(s, t, Clear)
    ensures HostInv(DoClearWork(t, host))
  {
  }

  lemma TimeoutKeepsHost(s: Client, t: Client)
    requires Core(s) && HostInv(s) && Taking(s, t, Timeout)
    ensures HostInv(Perform(t, TimeoutWork))
  {
  }

  lemma WorkKeepsHost(s: Client, t: Client, a: Action)
    requires Core(s) && HostInv(s) && IsWork(a) && Taking(s, t, JobFor(a))
    ensures HostInv(Perform(t, a))
  {
    match a {
      case ConnectedWork(answer, host) => ConnectedKeepsHost(s, t, answer, host);
      case DisconnectedWork(host) => DisconnectedKeepsHost(s, t, host);
      case FailureWork(disconnect, host) => FailureKeepsHost(s, t, disconnect, host);
      case TimeoutWork => TimeoutKeepsHost(s, t);
      case PairTimeoutWork => PairTimeoutKeepsHost(s, t);
      case PairWork => PairKeepsHost(s, t);
      case ClearWork(host) => ClearKeepsHost(s, t, host);
      case RetryWork =>
    }
  }

  lemma SecurityKeepsHost(s: Client, addr: Address, error: bool, secure: bool)
    requires Core(s) && HostInv(s)
    ensures HostInv(OnSecurityChanged(s, addr, error, secure))
  {
  }

  lemma FinishKeepsHost(s: Client, covered: bool, saveOk: bool)
    requires Core(s) && HostInv(s) && InSetup(s) && s.stage == Subscriptions
    ensures HostInv(Finish(s, covered, saveOk))
  {
  }

  lemma AdvanceKeepsHost(s: Client)
    requires HostInv(s)
    ensures HostInv(s.(stage := After(s.stage)))
  {
  }

  lemma HostKeepsHost(s: Client, a: Action)
    requires Core(s) && HostInv(s) && FromHost(a) && Plausible(s, a)
    ensures HostInv(HostCalls(s, a))
  {
    if a.SecurityChanged? {
      SecurityKeepsHost(s, a.addr, a.error, a.secure);
    }
  }

  lemma SetupKeepsHost(s: Client, a: Action)
    requires Core(s) && HostInv(s) && FromSetup(a)
    ensures HostInv(SetupMoves(s, a))
  {
    if InSetup(s) {
      match a {
        case SetupAdvances => AdvanceKeepsHost(s);
        case SetupFails =>
        case SetupFinishes(covered, saveOk) => if s.stage == Subscriptions { FinishKeepsHost(s, covered, saveOk); }
      }
    }
  }

  lemma ConnectWorkKeepsHost(s: Client, stopped: bool, ok: bool)
    requires Core(s) && HostInv(s)
    ensures HostInv(DoConnectWork(s, stopped, ok))
  {
    if s.request != None {
      ConnectKeepsHost(s.(request := None), s.request.value, ok);
    }
  }

  lemma EventKeepsHost(s: Client, a: Action)
    requires Core(s) && HostInv(s) && !IsWork(a) && Plausible(s, a)
    ensures HostInv(Perform(s, a))
  {
    if FromHost(a) {
      HostKeepsHost(s, a);
    } else if FromSetup(a) {
      SetupKeepsHost(s, a);
    } else if a.ConnectWork? {
      ConnectWorkKeepsHost(s, a.stopped, a.ok);
    }
  }

  lemma StepKeepsHost(s: Client, a: Action)
    requires Core(s) && HostInv(s)
    ensures HostInv(Step(s, a))
  {
    if Possible(s, a) {
      if !IsWork(a) {
        EventKeepsHost(s, a);
      } else {
        WorkKeepsHost(s, Called(s, a), a);
      }
    }
  }

  lemma {:induction false} RunKeepsHost(s: Client, actions: seq<Action>)
    requires Inv(s) && HostInv(s)
    ensures HostInv(Run(s, actions))
  {
    if actions != [] {
      var init := actions[..|actions| - 1];
      RunKeepsHost(s, init);
      RunKeepsInv(s, init);
      StepKeepsHost(Run(s, init), actions[|actions| - 1]);
    }
  }

  lemma ReachableHost(s: Client)
    requires Reachable(s)
    ensures Inv(s) && HostInv(s)
  {
    ReachableInv(s);
    var saved, anyone, bonds, capacity, actions :| s == Run(Begin(saved, anyone, bonds, capacity), actions);
    BeginInv(saved, anyone, bonds, capacity);
    RunKeepsHost(Begin(saved, anyone, bonds, capacity), actions);
  }

  // Work that takes up whatever connection is held.
  predicate HasWork(due: set<Work>) {
    Timeout in due || Failure in due || Connected in due || Disconnected in due
  }

  // The pairing window's timer fails a candidate's connection, though it has failed before.
  predicate ByWindow(s: Client) {
    s.newCandidate && PairTimeout in s.due
  }

  // So does a Clear that is being held.
  predicate ByClear(s: Client) {
    s.clearHeld && Clear in s.due
  }

  // No connection is held; or it is ready; or work is due that takes it up; or the host owes its end.
  predicate Tended(s: Client) {
    s.conn == None || s.stage == Ready || HasWork(s.due) || ByWindow(s) || ByClear(s) || s.log.owed
  }

  // The host refuses to disconnect, and nothing else is to come.
  predicate Refuses(s: Client, a: Action) {
    a.FailureWork? && Failure in s.due && s.conn != None && a.disconnect == Rejected
    && !HasWork(s.due - {Failure}) && !ByWindow(s) && !ByClear(s) && !s.log.owed
  }

  // The key is released before a Clear that was all that was to come.
  predicate Releases(s: Client, a: Action) {
    a == ClearHold(false) && s.conn != None && s.stage != Ready
    && !HasWork(s.due) && !ByWindow(s) && !s.log.owed
  }

  predicate Abandons(s: Client, a: Action) {
    Refuses(s, a) || Releases(s, a)
  }

  // What the handler leaves due, owed and in the stage tends the connection as before.
  lemma StillTends(s: Client, r: Client)
    requires Tended(s) && r.conn == s.conn && s.due <= r.due && (s.log.owed ==> r.log.owed)
    requires r.newCandidate == s.newCandidate && r.clearHeld == s.clearHeld && (s.stage == Ready ==> r.stage == Ready)
    ensures Tended(r)
  {
  }

  lemma SameTends(s: Client, r: Client)
    requires Tended(s) && r.conn == s.conn && r.stage == s.stage && r.due == s.due && r.log.owed == s.log.owed
    requires r.newCandidate == s.newCandidate && r.clearHeld == s.clearHeld
    ensures Tended(r)
  {
  }

  lemma FailTends(s: Client)
    ensures Tended(Fail(s))
  {
  }

  // ---- Work

  lemma FailureTends(s: Client, t: Client, disconnect: DisconnectAnswer, host: Host)
    requires Core(s) && HostInv(s) && Taking(s, t, Failure)
    ensures Tended(DoFailureWork(t, disconnect, host)) <==> !Refuses(s, FailureWork(disconnect, host))
  {
  }

  lemma ConnectedTends(s: Client, t: Client, answer: SecurityAnswer, host: Host)
    requires Core(s) && DueInv(s) && HostInv(s) && Taking(s, t, Connected)
    ensures Tended(DoConnectedWork(t, answer, host))
  {
  }

  lemma TimeoutTends(s: Client)
    ensures Tended(Perform(s, TimeoutWork))
  {
  }

  // The retry and Pair do not concern a connection.
  lemma OtherWorkTends(s: Client, t: Client, w: Work)
    requires Tended(s) && Taking(s, t, w) && (w == Retry || w == Pair)
    ensures Tended(t)
  {
  }

  lemma RescanTends(s: Client)
    requires Tended(s)
    ensures Tended(Rescan(s))
  {
    SameTends(s, Rescan(s));
  }

  lemma PairTends(s: Client)
    requires Tended(s)
    ensures Tended(DoPairWork(s))
  {
  }

  lemma PairTimeoutTends(s: Client, t: Client)
    requires Tended(s) && Taking(s, t, PairTimeout)
    ensures Tended(DoPairTimeout(t))
  {
    RescanTends(FailCandidate(t.(pairing := false)));
  }

  lemma ClearTends(s: Client, t: Client, host: Host)
    requires Tended(s) && Taking(s, t, Clear)
    ensures Tended(DoClearWork(t, host))
  {
  }

  lemma WorkTends(s: Client, t: Client, a: Action)
    requires Core(s) && DueInv(s) && HostInv(s) && Tended(s) && IsWork(a) && Taking(s, t, JobFor(a))
    ensures Tended(Perform(t, a)) <==> !Refuses(s, a)
  {
    match a {
      case ConnectedWork(answer, host) => ConnectedTends(s, t, answer, host);
      case DisconnectedWork(host) =>
      case FailureWork(disconnect, host) => FailureTends(s, t, disconnect, host);
      case RetryWork => OtherWorkTends(s, t, Retry); RescanTends(t);
      case TimeoutWork => TimeoutTends(t);
      case PairTimeoutWork => PairTimeoutTends(s, t);
      case PairWork => OtherWorkTends(s, t, Pair); PairTends(t);
      case ClearWork(host) => ClearTends(s, t, host);
    }
  }

  // ---- Everything else

  lemma ReportTends(s: Client, addr: Address, error: bool)
    requires Tended(s)
    ensures Tended(OnConnectedEvent(s, addr, error))
  {
  }

  lemma SecurityTends(s: Client, addr: Address, error: bool, secure: bool)
    requires Tended(s)
    ensures Tended(OnSecurityChanged(s, addr, error, secure))
  {
  }

  lemma PairingTends(s: Client, addr: Address, bonded: bool)
    requires Tended(s)
    ensures Tended(OnPairingComplete(s, addr, bonded))
  {
  }

  lemma HostTends(s: Client, a: Action)
    requires Tended(s) && FromHost(a)
    ensures Tended(HostCalls(s, a))
  {
    match a {
      case ConnectedEvent(addr, error) => ReportTends(s, addr, error);
      case DisconnectedEvent(_) =>
      case SecurityChanged(addr, error, secure) => SecurityTends(s, addr, error, secure);
      case PairingComplete(addr, bonded) => PairingTends(s, addr, bonded);
      case PairingFailed(_) => FailTends(s);
    }
  }

  lemma FinishTends(s: Client, covered: bool, saveOk: bool)
    ensures Tended(Finish(s, covered, saveOk))
  {
  }

  lemma AdvanceTends(s: Client)
    requires Tended(s)
    ensures Tended(s.(stage := After(s.stage)))
  {
    StillTends(s, s.(stage := After(s.stage)));
  }

  lemma SetupTends(s: Client, a: Action)
    requires Tended(s) && FromSetup(a)
    ensures Tended(SetupMoves(s, a))
  {
    match a {
      case SetupAdvances => AdvanceTends(s);
      case SetupFails => FailTends(s);
      case SetupFinishes(covered, saveOk) => FinishTends(s, covered, saveOk);
    }
  }

  lemma ConnectTends(s: Client, addr: Address, ok: bool)
    requires Core(s) && Tended(s)
    ensures Tended(DoConnect(s, addr, ok))
  {
  }

  lemma ConnectWorkTends(s: Client, stopped: bool, ok: bool)
    requires Core(s) && Tended(s)
    ensures Tended(DoConnectWork(s, stopped, ok))
  {
    if s.request != None {
      SameTends(s, s.(request := None));
      ConnectTends(s.(request := None), s.request.value, ok);
    }
  }

  lemma ClearHoldTends(s: Client, pressed: bool)
    requires Tended(s)
    ensures Tended(RestMoves(s, ClearHold(pressed))) <==> !Releases(s, ClearHold(pressed))
  {
  }

  lemma PairRequestTends(s: Client)
    requires Tended(s)
    ensures Tended(RestMoves(s, PairRequest))
  {
    StillTends(s, RestMoves(s, PairRequest));
  }

  lemma OthersTend(s: Client, a: Action)
    requires Tended(s) && (OfOthers(a) || a.Advertised?)
    ensures Tended(RestMoves(s, a))
  {
    SameTends(s, RestMoves(s, a));
  }

  lemma RestTends(s: Client, a: Action)
    requires Core(s) && Tended(s) && !IsWork(a) && !FromHost(a) && !FromSetup(a)
    ensures Tended(RestMoves(s, a)) <==> !Releases(s, a)
  {
    if a.ClearHold? {
      ClearHoldTends(s, a.pressed);
    } else if a.ConnectWork? {
      ConnectWorkTends(s, a.stopped, a.ok);
    } else if a.PairRequest? {
      PairRequestTends(s);
    } else {
      OthersTend(s, a);
    }
  }

  lemma EventTends(s: Client, a: Action)
    requires Core(s) && Tended(s) && !IsWork(a)
    ensures Tended(Perform(s, a)) <==> !Releases(s, a)
  {
    if FromHost(a) {
      HostTends(s, a);
    } else if FromSetup(a) {
      SetupTends(s, a);
    } else {
      RestTends(s, a);
    }
  }

  lemma StepTends(s: Client, a: Action)
    requires Core(s) && DueInv(s) && HostInv(s) && Tended(s)
    ensures Tended(Step(s, a)) <==> !Abandons(s, a)
  {
    if Possible(s, a) {
      if IsWork(a) {
        WorkTends(s, Called(s, a), a);
      } else {
        EventTends(s, a);
      }
    }
  }

  /**
   A held connection is ready, or work is due that takes it up, or the host owes its end. Exactly two things
   abandon it: a failure for which the host refuses to disconnect while nothing of that kind is left, and the
   release of the Clear key when its Clear was the last of that kind.
   */
  lemma TendedExactly(s: Client, a: Action)
    requires Reachable(s) && Tended(s)
    ensures Tended(Step(s, a)) <==> !Abandons(s, a)
  {
    ReachableHost(s);
    StepTends(s, a);
  }

  // No step of the run abandons the connection.
  ghost predicate Unabandoned(s: Client, actions: seq<Action>) {
    actions == [] ||
    (Unabandoned(s, actions[..|actions| - 1]) && !Abandons(Run(s, actions[..|actions| - 1]), actions[|actions| - 1]))
  }

  /** Through every run without such a step, a connection that is held at the end is tended. */
  lemma {:induction false} KeepsTending(s: Client, actions: seq<Action>)
    requires Reachable(s) && Tended(s) && Unabandoned(s, actions)
    ensures Reachable(Run(s, actions)) && Tended(Run(s, actions))
  {
    if actions != [] {
      var init, a := actions[..|actions| - 1], actions[|actions| - 1];
      KeepsTending(s, init);
      TendedExactly(Run(s, init), a);
      ExtendReachable(Run(s, init), a);
    }
  }
}
