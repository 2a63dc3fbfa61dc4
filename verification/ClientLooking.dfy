/** Whether a client without a connection goes on looking for its mouse. */
module ClientLooking {
  import opened MouseClient
  import opened ClientRuns
  import opened ClientProperties

  // Work is due that scans again: a retry, a failure, which without a connection asks for one, or Pair, which
  // with a saved mouse is nothing else. The window's timer rescans too, but is never due beside a saved mouse.
  predicate Rescans(s: Client) {
    Retry in s.due || Failure in s.due || (s.havePeer && Pair in s.due)
  }

  // There is something to look for: the saved mouse, still bonded, or any mouse while the window is open.
  predicate Lacks(s: Client) {
    s.conn == None && if s.havePeer then s.peer in s.bonds else s.pairing
  }

  // A client that could look for a mouse does so, or is about to.
  predicate Looks(s: Client) {
    Lacks(s) ==> s.scanWanted || Rescans(s)
  }

  // A Clear that the host refuses to carry out, while nothing is due that scans again.
  predicate Stalls(s: Client, a: Action) {
    a.ClearWork? && Clear in s.due && s.clearHeld && s.conn == None && s.havePeer && s.peer in s.bonds
    && !a.host.forgetOk && !Rescans(s)
  }

  lemma RescanLooks(s: Client)
    ensures Looks(Rescan(s))
  {
  }

  lemma HeldLooks(s: Client)
    requires s.conn != None
    ensures Looks(s)
  {
  }

  lemma ConnectLooks(s: Client, addr: Address, ok: bool)
    requires Core(s) && Looks(s)
    ensures Looks(DoConnect(s, addr, ok))
  {
  }

  lemma LetGoLooks(s: Client, host: Host)
    ensures Looks(LetGo(s, host))
  {
  }

  lemma OnConnectedHeld(s: Client, answer: SecurityAnswer, host: Host)
    requires s.conn != None && !s.connectedError
    ensures OnConnected(s, answer, host).conn == s.conn
  {
  }

  lemma ConnectedLooks(s: Client, t: Client, answer: SecurityAnswer, host: Host)
    requires Looks(s) && Taking(s, t, Connected)
    ensures Looks(DoConnectedWork(t, answer, host))
  {
    if t.conn != None {
      if t.connectedError {
        LetGoLooks(Disarmed(t), host);
      } else {
        OnConnectedHeld(Disarmed(t), answer, host);
        HeldLooks(OnConnected(Disarmed(t), answer, host));
      }
    }
  }

  lemma DisconnectedLooks(s: Client, t: Client, host: Host)
    requires Looks(s) && Taking(s, t, Disconnected)
    ensures Looks(DoDisconnectedWork(t, host))
  {
  }

  lemma FailureLooks(s: Client, disconnect: DisconnectAnswer, host: Host)
    ensures Looks(DoFailureWork(s, disconnect, host))
  {
  }

  lemma PairLooks(s: Client, t: Client)
    requires Core(s) && Looks(s) && Taking(s, t, Pair)
    ensures Looks(DoPairWork(t))
  {
  }

  lemma ClearLooks(s: Client, t: Client, host: Host)
    requires Core(s) && Looks(s) && Taking(s, t, Clear)
    ensures Looks(DoClearWork(t, host)) <==> !Stalls(s, ClearWork(host))
  {
  }

  // The same connection, peer and window, and no less wanted or due.
  lemma StillLooks(s: Client, r: Client)
    requires Looks(s) && r.conn == s.conn && r.havePeer == s.havePeer && r.peer == s.peer && r.pairing == s.pairing
    requires r.scanWanted == s.scanWanted && (Rescans(s) ==> Rescans(r))
    requires s.havePeer && s.conn == None && s.peer in r.bonds ==> s.peer in s.bonds
    ensures Looks(r)
  {
  }

  // A callback about an address acts only on its connection, which stays held.
  lemma OwnedLooks(s: Client, addr: Address, r: Client)
    requires Looks(s) && r.conn == s.conn && (!Owns(s, addr) ==> r == s)
    ensures Looks(r)
  {
  }

  lemma SecurityLooks(s: Client, addr: Address, error: bool, secure: bool)
    requires Looks(s)
    ensures Looks(OnSecurityChanged(s, addr, error, secure))
  {
    OwnedLooks(s, addr, OnSecurityChanged(s, addr, error, secure));
  }

  lemma PairingLooks(s: Client, addr: Address, bonded: bool)
    requires Looks(s)
    ensures Looks(OnPairingComplete(s, addr, bonded))
  {
    OwnedLooks(s, addr, OnPairingComplete(s, addr, bonded));
  }

  lemma UpLooks(s: Client, addr: Address, error: bool)
    requires Looks(s)
    ensures Looks(OnConnectedEvent(s, addr, error))
  {
    if Owns(s, addr) {
      HeldLooks(OnConnectedEvent(s, addr, error));
    }
  }

  lemma DownLooks(s: Client, addr: Address)
    requires Looks(s)
    ensures Looks(OnDisconnectedEvent(s, addr))
  {
    if Owns(s, addr) {
      HeldLooks(OnDisconnectedEvent(s, addr));
    }
  }

  lemma HostLooks(s: Client, a: Action)
    requires Looks(s) && FromHost(a)
    ensures Looks(HostCalls(s, a))
  {
    match a {
      case ConnectedEvent(addr, error) => UpLooks(s, addr, error);
      case DisconnectedEvent(addr) => DownLooks(s, addr);
      case SecurityChanged(addr, error, secure) => SecurityLooks(s, addr, error, secure);
      case PairingComplete(addr, bonded) => PairingLooks(s, addr, bonded);
      case PairingFailed(addr) => if Owns(s, addr) { HeldLooks(Fail(s)); }
    }
  }

  lemma ConnectWorkLooks(s: Client, stopped: bool, ok: bool)
    requires Core(s) && Looks(s)
    ensures Looks(DoConnectWork(s, stopped, ok))
  {
    if s.request != None {
      ConnectLooks(s.(request := None), s.request.value, ok);
    }
  }

  lemma EventLooks(s: Client, a: Action)
    requires Core(s) && Looks(s) && !IsWork(a) && Plausible(s, a)
    ensures Looks(Perform(s, a))
  {
    if FromHost(a) {
      HostLooks(s, a);
    } else if FromSetup(a) {
      if InSetup(s) { HeldLooks(SetupMoves(s, a)); }
    } else if a.ConnectWork? {
      ConnectWorkLooks(s, a.stopped, a.ok);
    } else {
      StillLooks(s, RestMoves(s, a));
    }
  }

  lemma WorkLooks(s: Client, t: Client, a: Action)
    requires Core(s) && Looks(s) && IsWork(a) && Taking(s, t, JobFor(a))
    ensures Looks(Perform(t, a)) <==> !Stalls(s, a)
  {
    match a {
      case ConnectedWork(answer, host) => ConnectedLooks(s, t, answer, host);
      case DisconnectedWork(host) => DisconnectedLooks(s, t, host);
      case FailureWork(disconnect, host) => FailureLooks(t, disconnect, host);
      case RetryWork => RescanLooks(t);
      case PairTimeoutWork => RescanLooks(FailCandidate(t.(pairing := false)));
      case PairWork => PairLooks(s, t);
      case ClearWork(host) => ClearLooks(s, t, host);
      case TimeoutWork =>
    }
  }

  /**
   A client that looks for its mouse goes on looking, until a Clear without a connection cannot unpair a
   bonded mouse while nothing is due that scans again: exactly then it stops.
   */
  lemma LooksExactly(s: Client, a: Action)
    requires Reachable(s) && Looks(s)
    ensures Looks(Step(s, a)) <==> !Stalls(s, a)
  {
    ReachableInv(s);
    if Possible(s, a) {
      if !IsWork(a) {
        EventLooks(s, a);
      } else {
        WorkLooks(s, Called(s, a), a);
      }
    }
  }

  // No step of the run stalls.
  ghost predicate Unstalled(s: Client, actions: seq<Action>) {
    actions == [] ||
    (Unstalled(s, actions[..|actions| - 1]) && !Stalls(Run(s, actions[..|actions| - 1]), actions[|actions| - 1]))
  }

  /** Through every run in which no Clear stalls, the client looks for its mouse at the end. */
  lemma {:induction false} KeepsLooking(s: Client, actions: seq<Action>)
    requires Reachable(s) && Looks(s) && Unstalled(s, actions)
    ensures Reachable(Run(s, actions)) && Looks(Run(s, actions))
  {
    if actions != [] {
      var init, a := actions[..|actions| - 1], actions[|actions| - 1];
      KeepsLooking(s, init);
      LooksExactly(Run(s, init), a);
      ExtendReachable(Run(s, init), a);
    }
  }
}
