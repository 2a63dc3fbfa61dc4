/** A Clear that is carried out forgets the saved mouse (src/ble_mouse.c), at once or when its connection is dropped. */
module ClientClearing {
  import opened MouseClient
  import opened ClientRuns
  import opened ClientProperties

  // No mouse is known any more, this one's bond is gone, and so is the setting if it could be deleted.
  ghost predicate Gone(r: Client, mouse: Address, deleteOk: bool) {
    !r.havePeer && mouse !in r.bonds && (r.saved == None <==> deleteOk)
  }

  // The mouse is still known, and no bond has been touched.
  ghost predicate Remembered(s: Client, r: Client) {
    r.havePeer && r.peer == s.peer && r.bonds == s.bonds && r.saved == Some(s.peer)
  }

  // ---- Without a connection

  /** A held Clear without a connection forgets the saved mouse at once, exactly when the host agrees to unpair. */
  lemma ClearForgets(s: Client, host: Host)
    requires Reachable(s) && s.clearHeld && Clear in s.due && s.conn == None && s.havePeer
    ensures var r := Step(s, ClearWork(host));
            && (Gone(r, s.peer, host.deleteOk) <==> host.forgetOk)
            && (Remembered(s, r) <==> !host.forgetOk)
            && !r.forgetRequested && !r.scanWanted && r.conn == None
  {
    ReachableInv(s);
  }

  // ---- With a connection

  // The mouse is connected, and to be forgotten.
  ghost predicate Doomed(s: Client, mouse: Address) {
    s.conn != None && s.havePeer && s.peer == mouse && s.forgetRequested
  }

  // What may drop a connection, and what the host answers then.
  predicate MayDrop(a: Action) {
    a.ConnectedWork? || a.DisconnectedWork? || a.FailureWork?
  }

  function HostOf(a: Action): Host
    requires MayDrop(a)
  {
    match a
    case ConnectedWork(_, host) => host
    case DisconnectedWork(host) => host
    case FailureWork(_, host) => host
  }

  // The mouse stays doomed, or its connection is dropped and it is forgotten if the host agrees.
  ghost predicate Follows(s: Client, a: Action, r: Client) {
    if r.conn != None then Doomed(r, s.peer)
    else
      && MayDrop(a) && !r.forgetRequested
      && (if HostOf(a).forgetOk then Gone(r, s.peer, HostOf(a).deleteOk) else Remembered(s, r))
  }

  lemma LetGoForgets(s: Client, host: Host)
    requires Core(s) && Doomed(s, s.peer)
    ensures var r := LetGo(s, host);
            && r.conn == None && !r.forgetRequested
            && if host.forgetOk then Gone(r, s.peer, host.deleteOk) else Remembered(s, r)
  {
  }

  lemma ConnectedFollows(s: Client, answer: SecurityAnswer, host: Host)
    requires Core(s) && Doomed(s, s.peer)
    ensures Follows(s, ConnectedWork(answer, host), DoConnectedWork(s, answer, host))
  {
    if s.connectedError {
      LetGoForgets(Disarmed(s), host);
    }
  }

  lemma DisconnectedFollows(s: Client, host: Host)
    requires Core(s) && Doomed(s, s.peer)
    ensures Follows(s, DisconnectedWork(host), DoDisconnectedWork(s, host))
  {
    assert !s.newCandidate;
    LetGoForgets(Unpaired(s, host), host);
  }

  lemma FailureFollows(s: Client, disconnect: DisconnectAnswer, host: Host)
    requires Core(s) && Doomed(s, s.peer)
    ensures Follows(s, FailureWork(disconnect, host), DoFailureWork(s, disconnect, host))
  {
    if disconnect == NotConnected {
      ClosedKeepsCore(s);
      DisconnectedFollows(Closed(s), host);
    }
  }

  // The connection, the mouse and the request stay as they are.
  lemma StillDoomed(s: Client, a: Action, r: Client)
    requires Doomed(s, s.peer) && r.conn == s.conn && r.havePeer && r.peer == s.peer && r.forgetRequested
    ensures Follows(s, a, r)
  {
  }

  lemma WorkFollows(s: Client, a: Action)
    requires Core(s) && Doomed(s, s.peer) && IsWork(a)
    ensures Follows(s, a, WorkRuns(s, a))
  {
    match a {
      case ConnectedWork(answer, host) => ConnectedFollows(s, answer, host);
      case DisconnectedWork(host) => DisconnectedFollows(s, host);
      case FailureWork(disconnect, host) => FailureFollows(s, disconnect, host);
      case RetryWork => StillDoomed(s, a, Rescan(s));
      case TimeoutWork => StillDoomed(s, a, WorkRuns(s, a));
      case PairTimeoutWork => StillDoomed(s, a, DoPairTimeout(s));
      case PairWork => StillDoomed(s, a, DoPairWork(s));
      case ClearWork(host) => StillDoomed(s, a, DoClearWork(s, host));
    }
  }

  lemma SecurityFollows(s: Client, addr: Address, error: bool, secure: bool)
    requires Doomed(s, s.peer)
    ensures Doomed(OnSecurityChanged(s, addr, error, secure), s.peer)
  {
  }

  lemma PairingFollows(s: Client, addr: Address, bonded: bool)
    requires Doomed(s, s.peer)
    ensures Doomed(OnPairingComplete(s, addr, bonded), s.peer)
  {
  }

  lemma HostFollows(s: Client, a: Action)
    requires Doomed(s, s.peer) && FromHost(a)
    ensures Doomed(HostCalls(s, a), s.peer)
  {
    match a {
      case ConnectedEvent(addr, error) =>
      case DisconnectedEvent(addr) =>
      case SecurityChanged(addr, error, secure) => SecurityFollows(s, addr, error, secure);
      case PairingComplete(addr, bonded) => PairingFollows(s, addr, bonded);
      case PairingFailed(_) =>
    }
  }

  lemma SetupFollows(s: Client, a: Action)
    requires Core(s) && Doomed(s, s.peer) && FromSetup(a)
    ensures Follows(s, a, SetupMoves(s, a))
  {
    StillDoomed(s, a, SetupMoves(s, a));
  }

  lemma RestFollows(s: Client, a: Action)
    requires Doomed(s, s.peer) && !IsWork(a) && !FromHost(a) && !FromSetup(a)
    ensures Doomed(RestMoves(s, a), s.peer)
  {
    match a {
      case ConnectWork(stopped, ok) =>
      case Advertised(_) =>
      case PairRequest =>
      case ClearHold(_) =>
      case OthersBond(_) =>
      case OthersUnbond(_) =>
    }
  }

  lemma StepFollows(s: Client, a: Action)
    requires Inv(s) && Doomed(s, s.peer)
    ensures Follows(s, a, Step(s, a))
  {
    if !Possible(s, a) {
      StillDoomed(s, a, s);
    } else if IsWork(a) {
      CalledKeeps(s, a);
      WorkFollows(Called(s, a), a);
    } else if FromHost(a) {
      HostFollows(s, a);
    } else if FromSetup(a) {
      SetupFollows(s, a);
    } else {
      RestFollows(s, a);
    }
  }

  // A connection is held after each of these actions.
  ghost predicate StaysConnected(s: Client, actions: seq<Action>) {
    s.conn != None && (actions == [] || (StaysConnected(s, actions[..|actions| - 1]) && Run(s, actions).conn != None))
  }

  lemma {:induction false} StaysDoomed(s: Client, actions: seq<Action>)
    requires Inv(s) && Doomed(s, s.peer) && StaysConnected(s, actions)
    ensures Inv(Run(s, actions)) && Doomed(Run(s, actions), s.peer)
  {
    if actions != [] {
      var init, a := actions[..|actions| - 1], actions[|actions| - 1];
      StaysDoomed(s, init);
      StepFollows(Run(s, init), a);
      StepKeepsInv(Run(s, init), a);
    }
  }

  /**
   In every run: a saved mouse that is connected when a held Clear is carried out is forgotten by the first
   step after it that drops the connection, exactly when the host agrees to unpair in that step; its setting
   is gone exactly if it could be deleted. Whatever happens until then, that step is the report of a failed
   connection, of a disconnection, or a failure that finds no connection.
   */
  lemma ClearTakesEffect(s: Client, host: Host, meanwhile: seq<Action>, a: Action)
    requires Reachable(s) && s.clearHeld && Clear in s.due && s.conn != None && s.havePeer
    requires var s1 := Step(s, ClearWork(host));
             StaysConnected(s1, meanwhile) && Step(Run(s1, meanwhile), a).conn == None
    ensures var t := Run(Step(s, ClearWork(host)), meanwhile); var r := Step(t, a);
            && MayDrop(a) && t.havePeer && t.peer == s.peer
            && (Gone(r, s.peer, HostOf(a).deleteOk) <==> HostOf(a).forgetOk)
            && (Remembered(t, r) <==> !HostOf(a).forgetOk)
  {
    DoomedByClear(s, host);
    DoomedGoes(Step(s, ClearWork(host)), meanwhile, a);
  }

  lemma DoomedByClear(s: Client, host: Host)
    requires Reachable(s) && s.clearHeld && Clear in s.due && s.conn != None && s.havePeer
    ensures Inv(Step(s, ClearWork(host))) && Doomed(Step(s, ClearWork(host)), s.peer)
  {
    ReachableInv(s);
    StepKeepsInv(s, ClearWork(host));
  }

  lemma DoomedGoes(s: Client, meanwhile: seq<Action>, a: Action)
    requires Inv(s) && Doomed(s, s.peer) && StaysConnected(s, meanwhile) && Step(Run(s, meanwhile), a).conn == None
    ensures var t := Run(s, meanwhile); var r := Step(t, a);
            && MayDrop(a) && t.havePeer && t.peer == s.peer
            && (Gone(r, s.peer, HostOf(a).deleteOk) <==> HostOf(a).forgetOk)
            && (Remembered(t, r) <==> !HostOf(a).forgetOk)
  {
    StaysDoomed(s, meanwhile);
    StepFollows(Run(s, meanwhile), a);
  }

  // ---- No request outlives its connection

  ghost predicate RequestHeld(s: Client) {
    s.forgetRequested ==> s.conn != None && !s.pairing
  }

  lemma DropEndsRequest(s: Client, host: Host)
    ensures !LetGo(s, host).forgetRequested
  {
  }

  lemma SecurityHoldsRequest(s: Client, answer: SecurityAnswer, host: Host)
    requires RequestHeld(s) && s.conn != None && !s.connectedError
    ensures RequestHeld(OnConnected(s, answer, host))
  {
  }

  lemma ConnectedHoldsRequest(s: Client, answer: SecurityAnswer, host: Host)
    requires RequestHeld(s)
    ensures RequestHeld(DoConnectedWork(s, answer, host))
  {
    if s.conn != None {
      if s.connectedError {
        DropEndsRequest(Disarmed(s), host);
      } else {
        SecurityHoldsRequest(Disarmed(s), answer, host);
      }
    }
  }

  lemma DisconnectedHoldsRequest(s: Client, host: Host)
    requires RequestHeld(s)
    ensures RequestHeld(DoDisconnectedWork(s, host))
  {
    DropEndsRequest(Unpaired(s, host), host);
  }

  lemma FailureHoldsRequest(s: Client, disconnect: DisconnectAnswer, host: Host)
    requires RequestHeld(s)
    ensures RequestHeld(DoFailureWork(s, disconnect, host))
  {
    if disconnect == NotConnected {
      DisconnectedHoldsRequest(Closed(s), host);
    }
  }

  lemma ClearHoldsRequest(s: Client, host: Host)
    requires RequestHeld(s)
    ensures RequestHeld(DoClearWork(s, host))
  {
  }

  lemma WorkHoldsRequest(s: Client, a: Action)
    requires RequestHeld(s) && IsWork(a)
    ensures RequestHeld(WorkRuns(s, a))
  {
    match a {
      case ConnectedWork(answer, host) => ConnectedHoldsRequest(s, answer, host);
      case DisconnectedWork(host) => DisconnectedHoldsRequest(s, host);
      case FailureWork(disconnect, host) => FailureHoldsRequest(s, disconnect, host);
      case RetryWork =>
      case TimeoutWork =>
      case PairTimeoutWork =>
      case PairWork =>
      case ClearWork(host) => ClearHoldsRequest(s, host);
    }
  }

  lemma EventHoldsRequest(s: Client, a: Action)
    requires RequestHeld(s) && !IsWork(a)
    ensures RequestHeld(Perform(s, a))
  {
    if FromHost(a) {
      HostHoldsRequest(s, a);
    } else if FromSetup(a) {
      SetupHoldsRequest(s, a);
    } else if a.ConnectWork? {
      ConnectHoldsRequest(s, a.stopped, a.ok);
    }
  }

  lemma SetupHoldsRequest(s: Client, a: Action)
    requires RequestHeld(s) && FromSetup(a)
    ensures RequestHeld(SetupMoves(s, a))
  {
  }

  // The host's callbacks leave the connection, the window and the requests alone.
  ghost predicate Untouched(s: Client, r: Client) {
    r.conn == s.conn && r.pairing == s.pairing && r.request == s.request && r.forgetRequested == s.forgetRequested
  }

  lemma ConnectedEventKeeps(s: Client, addr: Address, error: bool)
    ensures Untouched(s, OnConnectedEvent(s, addr, error))
  {
  }

  lemma DisconnectedEventKeeps(s: Client, addr: Address)
    ensures Untouched(s, OnDisconnectedEvent(s, addr))
  {
  }

  lemma SecurityChangedKeeps(s: Client, addr: Address, error: bool, secure: bool)
    ensures Untouched(s, OnSecurityChanged(s, addr, error, secure))
  {
  }

  lemma PairingCompleteKeeps(s: Client, addr: Address, bonded: bool)
    ensures Untouched(s, OnPairingComplete(s, addr, bonded))
  {
  }

  lemma HostKeeps(s: Client, a: Action)
    requires FromHost(a)
    ensures Untouched(s, HostCalls(s, a))
  {
    match a {
      case ConnectedEvent(addr, error) => ConnectedEventKeeps(s, addr, error);
      case DisconnectedEvent(addr) => DisconnectedEventKeeps(s, addr);
      case SecurityChanged(addr, error, secure) => SecurityChangedKeeps(s, addr, error, secure);
      case PairingComplete(addr, bonded) => PairingCompleteKeeps(s, addr, bonded);
      case PairingFailed(_) =>
    }
  }

  lemma HostHoldsRequest(s: Client, a: Action)
    requires RequestHeld(s) && FromHost(a)
    ensures RequestHeld(HostCalls(s, a))
  {
    HostKeeps(s, a);
  }

  lemma ConnectHoldsRequest(s: Client, stopped: bool, ok: bool)
    requires RequestHeld(s)
    ensures RequestHeld(DoConnectWork(s, stopped, ok))
  {
  }

  lemma {:induction false} RunHoldsRequest(s: Client, actions: seq<Action>)
    requires RequestHeld(s)
    ensures RequestHeld(Run(s, actions))
  {
    if actions != [] {
      var init, a := actions[..|actions| - 1], actions[|actions| - 1];
      RunHoldsRequest(s, init);
      var t := Called(Run(s, init), a);
      if IsWork(a) { WorkHoldsRequest(t, a); } else { EventHoldsRequest(t, a); }
    }
  }

  /**
   A Clear is carried out or given up with the connection: without one no mouse is waiting to be forgotten.
   Until then no window is open.
   */
  lemma RequestEndsWithConnection(s: Client)
    requires Reachable(s)
    ensures s.forgetRequested ==> s.conn != None && !s.pairing
  {
    var saved, anyone, bonds, capacity, actions :| s == Run(Begin(saved, anyone, bonds, capacity), actions);
    RunHoldsRequest(Begin(saved, anyone, bonds, capacity), actions);
  }
}
