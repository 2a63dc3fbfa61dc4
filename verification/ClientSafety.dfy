/** Encryption before set-up, and room for every bond: two more things that no run of the client breaks. */
module ClientSafety {
  import opened MouseClient
  import opened ClientRuns
  import opened ClientProperties

  // ---- Set-up only over an encrypted link

  predicate PastSecurity(stage: Stage) {
    match stage
    case Idle => false
    case Connecting => false
    case Security => false
    case Closing => false
    case _ => true
  }

  ghost predicate SecureInv(s: Client) {
    PastSecurity(s.stage) ==> s.log.secured
  }

  lemma WorkKeepsSecure(s: Client, a: Action)
    requires SecureInv(s) && IsWork(a)
    ensures SecureInv(Perform(s, a))
  {
    match a {
      case ConnectedWork(answer, host) => ConnectedKeepsSecure(s, answer, host);
      case DisconnectedWork(host) => DisconnectedKeepsSecure(s, host);
      case FailureWork(disconnect, host) => FailureKeepsSecure(s, disconnect, host);
      case PairTimeoutWork => PairTimeoutKeepsSecure(s);
      case PairWork =>
      case ClearWork(host) => ClearKeepsSecure(s, host);
      case _ =>
    }
  }

  lemma ConnectedKeepsSecure(s: Client, answer: SecurityAnswer, host: Host)
    requires SecureInv(s)
    ensures SecureInv(DoConnectedWork(s, answer, host))
  {
    if s.conn != None {
      OnConnectedKeepsSecure(Disarmed(s), answer, host);
    }
  }

  lemma OnConnectedKeepsSecure(s: Client, answer: SecurityAnswer, host: Host)
    requires SecureInv(s) && s.conn != None
    ensures SecureInv(OnConnected(s, answer, host))
  {
    if !s.connectedError && !s.failure && s.stage != Closing {
      StartKeepsSecure(s, answer);
    }
  }

  lemma StartKeepsSecure(s: Client, answer: SecurityAnswer)
    ensures SecureInv(StartSecurity(s, answer))
  {
  }

  lemma DisconnectedKeepsSecure(s: Client, host: Host)
    requires SecureInv(s)
    ensures SecureInv(DoDisconnectedWork(s, host))
  {
  }

  lemma FailureKeepsSecure(s: Client, disconnect: DisconnectAnswer, host: Host)
    requires SecureInv(s)
    ensures SecureInv(DoFailureWork(s, disconnect, host))
  {
  }

  lemma PairTimeoutKeepsSecure(s: Client)
    requires SecureInv(s)
    ensures SecureInv(DoPairTimeout(s))
  {
  }

  lemma ClearKeepsSecure(s: Client, host: Host)
    requires SecureInv(s)
    ensures SecureInv(DoClearWork(s, host))
  {
  }

  lemma ConnectKeepsSecure(s: Client, addr: Address, ok: bool)
    requires SecureInv(s)
    ensures SecureInv(DoConnect(s, addr, ok))
  {
  }

  lemma SecurityKeepsSecure(s: Client, addr: Address, error: bool, secure: bool)
    requires SecureInv(s)
    ensures SecureInv(OnSecurityChanged(s, addr, error, secure))
  {
  }

  lemma FinishKeepsSecure(s: Client, covered: bool, saveOk: bool)
    requires SecureInv(s) && s.stage == Subscriptions
    ensures SecureInv(Finish(s, covered, saveOk))
  {
  }

  lemma PairingKeepsSecure(s: Client, addr: Address, bonded: bool)
    requires SecureInv(s)
    ensures SecureInv(OnPairingComplete(s, addr, bonded))
  {
  }

  lemma AdvanceKeepsSecure(s: Client)
    requires SecureInv(s)
    ensures SecureInv(s.(stage := After(s.stage)))
  {
  }

  lemma SameStageKeepsSecure(s: Client, r: Client)
    requires SecureInv(s) && r.stage == s.stage && r.log.secured == s.log.secured
    ensures SecureInv(r)
  {
  }

  lemma HostKeepsSecure(s: Client, a: Action)
    requires SecureInv(s) && FromHost(a)
    ensures SecureInv(HostCalls(s, a))
  {
    match a {
      case ConnectedEvent(addr, error) => SameStageKeepsSecure(s, OnConnectedEvent(s, addr, error));
      case DisconnectedEvent(addr) =>
      case SecurityChanged(addr, error, secure) => SecurityKeepsSecure(s, addr, error, secure);
      case PairingComplete(addr, bonded) => PairingKeepsSecure(s, addr, bonded);
      case PairingFailed(_) => SameStageKeepsSecure(s, Fail(s));
    }
  }

  lemma SetupKeepsSecure(s: Client, a: Action)
    requires SecureInv(s) && FromSetup(a)
    ensures SecureInv(SetupMoves(s, a))
  {
    match a {
      case SetupAdvances => AdvanceKeepsSecure(s);
      case SetupFails => SameStageKeepsSecure(s, Fail(s));
      case SetupFinishes(covered, saveOk) => if s.stage == Subscriptions { FinishKeepsSecure(s, covered, saveOk); }
    }
  }

  lemma ConnectWorkKeepsSecure(s: Client, stopped: bool, ok: bool)
    requires SecureInv(s)
    ensures SecureInv(DoConnectWork(s, stopped, ok))
  {
    if s.request != None {
      ConnectKeepsSecure(s.(request := None), s.request.value, ok);
    }
  }

  lemma RestKeepsSecure(s: Client, a: Action)
    requires SecureInv(s) && !IsWork(a) && !FromHost(a) && !FromSetup(a)
    ensures SecureInv(RestMoves(s, a))
  {
    if a.ConnectWork? {
      ConnectWorkKeepsSecure(s, a.stopped, a.ok);
    } else {
      SameStageKeepsSecure(s, RestMoves(s, a));
    }
  }

  lemma EventKeepsSecure(s: Client, a: Action)
    requires SecureInv(s) && !IsWork(a)
    ensures SecureInv(Perform(s, a))
  {
    if FromHost(a) {
      HostKeepsSecure(s, a);
    } else if FromSetup(a) {
      SetupKeepsSecure(s, a);
    } else {
      RestKeepsSecure(s, a);
    }
  }

  lemma StepKeepsSecure(s: Client, a: Action)
    requires SecureInv(s)
    ensures SecureInv(Step(s, a))
  {
    var t := Called(s, a);
    if !IsWork(a) {
      EventKeepsSecure(t, a);
    } else {
      WorkKeepsSecure(t, a);
    }
  }

  /** No service is discovered, and no report is subscribed to, before the connection is encrypted. */
  lemma {:induction false} SetupIsEncrypted(saved: Option<Address>, anyone: Address, bonds: set<Address>, capacity: nat,
                                            actions: seq<Action>)
    ensures SecureInv(Run(Begin(saved, anyone, bonds, capacity), actions))
  {
    if actions != [] {
      SetupIsEncrypted(saved, anyone, bonds, capacity, actions[..|actions| - 1]);
      StepKeepsSecure(Run(Begin(saved, anyone, bonds, capacity), actions[..|actions| - 1]), actions[|actions| - 1]);
    }
  }

  // ---- Room for every bond

  ghost predicate RoomInv(s: Client) {
    && |s.bonds| <= s.capacity
    && (s.conn != None && s.newCandidate && s.conn.value !in s.bonds ==> |s.bonds| < s.capacity)
    && (s.havePeer && (s.scanWanted || s.conn != None) ==> s.peer in s.bonds)
  }

  // The others take no new bond, and leave the mouse's alone.
  predicate Calm(s: Client, a: Action) {
    match a
    case OthersBond(_) => false
    case OthersUnbond(addr) => addr !in Mine(s)
    case _ => true
  }

  lemma ConnectLeavesRoom(s: Client, addr: Address, ok: bool)
    requires Core(s) && RoomInv(s)
    ensures RoomInv(DoConnect(s, addr, ok))
  {
  }

  lemma DisconnectedLeavesRoom(s: Client, host: Host)
    requires Core(s) && RoomInv(s)
    ensures RoomInv(DoDisconnectedWork(s, host))
  {
  }

  lemma LetGoLeavesRoom(s: Client, host: Host)
    requires Core(s) && RoomInv(s) && s.conn != None
    ensures RoomInv(LetGo(s, host))
  {
  }

  // The same bonds and peers, and no more wanted than before.
  lemma SameRoom(s: Client, r: Client)
    requires RoomInv(s) && r.bonds == s.bonds && r.capacity == s.capacity && r.conn == s.conn
    requires r.newCandidate == s.newCandidate && r.havePeer == s.havePeer && r.peer == s.peer
    requires r.scanWanted ==> s.scanWanted
    ensures RoomInv(r)
  {
  }

  lemma ConnectedLeavesRoom(s: Client, answer: SecurityAnswer, host: Host)
    requires Core(s) && RoomInv(s)
    ensures RoomInv(DoConnectedWork(s, answer, host))
  {
    if s.conn != None {
      if s.connectedError {
        LetGoLeavesRoom(Disarmed(s), host);
      } else {
        SameRoom(s, OnConnected(Disarmed(s), answer, host));
      }
    }
  }

  lemma FailureLeavesRoom(s: Client, disconnect: DisconnectAnswer, host: Host)
    requires Core(s) && RoomInv(s)
    ensures RoomInv(DoFailureWork(s, disconnect, host))
  {
    if s.conn != None {
      DisconnectedLeavesRoom(Closed(s), host);
    }
  }

  lemma PairingLeavesRoom(s: Client, addr: Address, bonded: bool)
    requires Core(s) && RoomInv(s)
    ensures RoomInv(OnPairingComplete(s, addr, bonded))
  {
  }

  lemma PairTimeoutLeavesRoom(s: Client)
    requires RoomInv(s)
    ensures RoomInv(DoPairTimeout(s))
  {
  }

  lemma PairLeavesRoom(s: Client)
    requires RoomInv(s)
    ensures RoomInv(DoPairWork(s))
  {
  }

  lemma ClearLeavesRoom(s: Client, host: Host)
    requires Core(s) && RoomInv(s)
    ensures RoomInv(DoClearWork(s, host))
  {
  }

  lemma FinishLeavesRoom(s: Client, covered: bool, saveOk: bool)
    requires Core(s) && RoomInv(s) && InSetup(s)
    ensures RoomInv(Finish(s, covered, saveOk))
  {
  }

  lemma WorkLeavesRoom(s: Client, a: Action)
    requires Core(s) && RoomInv(s) && IsWork(a)
    ensures RoomInv(Perform(s, a))
  {
    match a {
      case ConnectedWork(answer, host) => ConnectedLeavesRoom(s, answer, host);
      case DisconnectedWork(host) => DisconnectedLeavesRoom(s, host);
      case FailureWork(disconnect, host) => FailureLeavesRoom(s, disconnect, host);
      case PairTimeoutWork => PairTimeoutLeavesRoom(s);
      case PairWork => PairLeavesRoom(s);
      case ClearWork(host) => ClearLeavesRoom(s, host);
      case _ =>
    }
  }

  lemma UnbondLeavesRoom(s: Client, addr: Address)
    requires RoomInv(s) && addr !in Mine(s)
    ensures RoomInv(OthersUnbonded(s, addr))
  {
  }

  lemma SecurityLeavesRoom(s: Client, addr: Address, error: bool, secure: bool)
    requires RoomInv(s)
    ensures RoomInv(OnSecurityChanged(s, addr, error, secure))
  {
    SameRoom(s, OnSecurityChanged(s, addr, error, secure));
  }

  lemma HostLeavesRoom(s: Client, a: Action)
    requires Core(s) && RoomInv(s) && FromHost(a)
    ensures RoomInv(HostCalls(s, a))
  {
    if a.PairingComplete? {
      PairingLeavesRoom(s, a.addr, a.bonded);
    } else if a.SecurityChanged? {
      SecurityLeavesRoom(s, a.addr, a.error, a.secure);
    } else if a.DisconnectedEvent? {
      SameRoom(s, OnDisconnectedEvent(s, a.addr));
    }
  }

  lemma SetupLeavesRoom(s: Client, a: Action)
    requires Core(s) && RoomInv(s) && FromSetup(a)
    ensures RoomInv(SetupMoves(s, a))
  {
    if InSetup(s) && a.SetupFinishes? {
      FinishLeavesRoom(s, a.covered, a.saveOk);
    } else {
      SameRoom(s, SetupMoves(s, a));
    }
  }

  lemma ConnectWorkLeavesRoom(s: Client, stopped: bool, ok: bool)
    requires Core(s) && RoomInv(s)
    ensures RoomInv(DoConnectWork(s, stopped, ok))
  {
    if s.request != None {
      ConnectLeavesRoom(s.(request := None), s.request.value, ok);
    }
  }

  lemma RestLeavesRoom(s: Client, a: Action)
    requires Core(s) && RoomInv(s) && !IsWork(a) && !FromHost(a) && !FromSetup(a) && Calm(s, a)
    ensures RoomInv(RestMoves(s, a))
  {
    if a.ConnectWork? {
      ConnectWorkLeavesRoom(s, a.stopped, a.ok);
    } else if a.OthersUnbond? {
      UnbondLeavesRoom(s, a.addr);
    } else {
      SameRoom(s, RestMoves(s, a));
    }
  }

  lemma EventLeavesRoom(s: Client, a: Action)
    requires Core(s) && RoomInv(s) && !IsWork(a) && Calm(s, a)
    ensures RoomInv(Perform(s, a))
  {
    if FromHost(a) {
      HostLeavesRoom(s, a);
    } else if FromSetup(a) {
      SetupLeavesRoom(s, a);
    } else {
      RestLeavesRoom(s, a);
    }
  }

  lemma StepLeavesRoom(s: Client, a: Action)
    requires Core(s) && RoomInv(s) && Calm(s, a)
    ensures RoomInv(Step(s, a))
  {
    var t := Called(s, a);
    if !IsWork(a) {
      EventLeavesRoom(t, a);
    } else {
      WorkLeavesRoom(t, a);
    }
  }

  // At every step of the run.
  ghost predicate CalmRun(s: Client, actions: seq<Action>) {
    actions == [] ||
    (CalmRun(s, actions[..|actions| - 1]) && Calm(Run(s, actions[..|actions| - 1]), actions[|actions| - 1]))
  }

  lemma {:induction false} RunLeavesRoom(s: Client, actions: seq<Action>)
    requires Inv(s) && RoomInv(s) && CalmRun(s, actions)
    ensures RoomInv(Run(s, actions))
  {
    if actions != [] {
      var init := actions[..|actions| - 1];
      RunLeavesRoom(s, init);
      RunKeepsInv(s, init);
      StepLeavesRoom(Run(s, init), actions[|actions| - 1]);
    }
  }

  /** While the others take no new bond, this client never needs one more than the host can hold, so none is evicted. */
  lemma NoEviction(saved: Option<Address>, anyone: Address, bonds: set<Address>, capacity: nat, actions: seq<Action>)
    requires |bonds| <= capacity && CalmRun(Begin(saved, anyone, bonds, capacity), actions)
    ensures |Run(Begin(saved, anyone, bonds, capacity), actions).bonds| <= capacity
  {
    BeginInv(saved, anyone, bonds, capacity);
    RunLeavesRoom(Begin(saved, anyone, bonds, capacity), actions);
    RunKeepsCapacity(Begin(saved, anyone, bonds, capacity), actions);
  }

  lemma {:induction false} RunKeepsCapacity(s: Client, actions: seq<Action>)
    ensures Run(s, actions).capacity == s.capacity
  {
    if actions != [] {
      var init, a := actions[..|actions| - 1], actions[|actions| - 1];
      RunKeepsCapacity(s, init);
      PerformKeeps(Called(Run(s, init), a), a);
    }
  }
}
