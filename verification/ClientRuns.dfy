/** What holds over every run of the client. */
module ClientRuns {
  import opened MouseClient

  // ---- What every step leaves alone

  lemma WorkIsModest(s: Client, a: Action)
    requires IsWork(a)
    ensures var r := Perform(s, a);
            && Modest(s, r)
            && (!a.ConnectedWork? && !a.DisconnectedWork? && !a.FailureWork? ==> r.log.leaked == s.log.leaked)
  {
  }

  lemma EventIsTidy(s: Client, a: Action)
    requires !IsWork(a) && !a.SetupFinishes? && !OfOthers(a)
    ensures Tidy(s, Perform(s, a))
  {
    match a {
      case _ =>
    }
  }

  // Only the end of set-up adopts a peer; only the others change their bonds; only three handlers let a candidate go.
  lemma PerformKeeps(s: Client, a: Action)
    ensures var r := Perform(s, a);
            && r.capacity == s.capacity
            && (!a.SetupFinishes? ==> r.peer == s.peer && (r.havePeer ==> s.havePeer))
            && (!OfOthers(a) ==> r.log.others == s.log.others)
            && (!a.ConnectedWork? && !a.DisconnectedWork? && !a.FailureWork? && !a.OthersUnbond? ==>
                  r.log.leaked == s.log.leaked)
  {
    if IsWork(a) {
      WorkIsModest(s, a);
    } else if !a.SetupFinishes? && !OfOthers(a) {
      EventIsTidy(s, a);
    }
  }

  // ---- The connection and the pairing window

  ghost predicate LinkInv(s: Client) {
    (s.conn == None <==> s.stage == Idle) && (s.conn == None ==> !s.failure)
  }

  ghost predicate WindowInv(s: Client) {
    && (s.conn != None && s.newCandidate && s.stage != Closing && !s.failure ==> s.pairing)
    && (s.scanWanted ==> s.conn == None && (s.havePeer || s.pairing))
    && (s.conn != None && s.newCandidate ==> !s.havePeer && s.stage != Ready)
    && (s.conn != None && !s.newCandidate ==> s.havePeer && s.conn == Some(s.peer))
    && (s.pairing ==> !s.havePeer)
    && (s.havePeer ==> s.saved == Some(s.peer))
  }

  ghost predicate Core(s: Client) {
    LinkInv(s) && WindowInv(s)
  }

  lemma ForgetKeepsCore(s: Client, host: Host)
    requires Core(s) && s.conn == None
    ensures Core(ForgetPeer(s, host))
  {
  }

  lemma LetGoKeepsCore(s: Client, host: Host)
    requires Core(s) && s.conn != None
    ensures Core(LetGo(s, host))
  {
  }

  lemma ConnectKeepsCore(s: Client, addr: Address, ok: bool)
    requires Core(s)
    ensures Core(DoConnect(s, addr, ok))
  {
  }

  lemma ConnectWorkKeepsCore(s: Client, stopped: bool, ok: bool)
    requires Core(s)
    ensures Core(DoConnectWork(s, stopped, ok))
  {
    if s.request != None && stopped {
      ConnectKeepsCore(s.(request := None), s.request.value, ok);
    }
  }

  lemma RescanKeepsCore(s: Client)
    requires Core(s)
    ensures Core(Rescan(s))
  {
  }

  lemma ConnectedKeepsCore(s: Client, answer: SecurityAnswer, host: Host)
    requires Core(s)
    ensures Core(DoConnectedWork(s, answer, host))
  {
    if s.conn != None && s.connectedError {
      LetGoKeepsCore(Disarmed(s), host);
    }
  }

  lemma DisconnectedKeepsCore(s: Client, host: Host)
    requires Core(s)
    ensures Core(DoDisconnectedWork(s, host))
  {
  }

  lemma BackToIdleKeepsCore(s: Client)
    requires Core(s) && s.conn == None
    ensures Core(BackToIdle(Closed(s)))
  {
  }

  lemma ClosedKeepsCore(s: Client)
    requires Core(s) && s.conn != None
    ensures Core(Closed(s))
  {
  }

  lemma FailureKeepsCore(s: Client, disconnect: DisconnectAnswer, host: Host)
    requires Core(s)
    ensures Core(DoFailureWork(s, disconnect, host))
  {
    if s.conn != None {
      ClosedKeepsCore(s);
      DisconnectedKeepsCore(Closed(s), host);
    } else {
      BackToIdleKeepsCore(s);
    }
  }

  lemma FinishKeepsCore(s: Client, covered: bool, saveOk: bool)
    requires Core(s) && InSetup(s)
    ensures Core(Finish(s, covered, saveOk))
  {
  }

  lemma PairTimeoutKeepsCore(s: Client)
    requires Core(s)
    ensures Core(DoPairTimeout(s))
  {
  }

  lemma PairKeepsCore(s: Client)
    requires Core(s)
    ensures Core(DoPairWork(s))
  {
  }

  lemma ClearKeepsCore(s: Client, host: Host)
    requires Core(s)
    ensures Core(DoClearWork(s, host))
  {
    if s.clearHeld && s.conn == None {
      ForgetKeepsCore(s.(pairing := false, scanWanted := false, forgetRequested := true), host);
    }
  }

  lemma FailKeepsCore(s: Client)
    requires Core(s) && s.conn != None
    ensures Core(Fail(s))
  {
  }

  lemma PairingCompleteKeepsCore(s: Client, addr: Address, bonded: bool)
    requires Core(s)
    ensures Core(OnPairingComplete(s, addr, bonded))
  {
  }

  lemma SecurityKeepsCore(s: Client, addr: Address, error: bool, secure: bool)
    requires Core(s)
    ensures Core(OnSecurityChanged(s, addr, error, secure))
  {
  }

  lemma DisconnectedEventKeepsCore(s: Client, addr: Address)
    requires Core(s)
    ensures Core(OnDisconnectedEvent(s, addr))
  {
  }

  lemma WorkKeepsCore(s: Client, a: Action)
    requires Core(s) && IsWork(a)
    ensures Core(WorkRuns(s, a))
  {
    match a {
      case RetryWork => RescanKeepsCore(s);
      case ConnectedWork(answer, host) => ConnectedKeepsCore(s, answer, host);
      case DisconnectedWork(host) => DisconnectedKeepsCore(s, host);
      case FailureWork(disconnect, host) => FailureKeepsCore(s, disconnect, host);
      case TimeoutWork => if s.conn != None { FailKeepsCore(s); }
      case PairTimeoutWork => PairTimeoutKeepsCore(s);
      case PairWork => PairKeepsCore(s);
      case ClearWork(host) => ClearKeepsCore(s, host);
    }
  }

  lemma HostKeepsCore(s: Client, a: Action)
    requires Core(s) && FromHost(a)
    ensures Core(HostCalls(s, a))
  {
    match a {
      case ConnectedEvent(_, _) =>
      case DisconnectedEvent(addr) => DisconnectedEventKeepsCore(s, addr);
      case SecurityChanged(addr, error, secure) => SecurityKeepsCore(s, addr, error, secure);
      case PairingComplete(addr, bonded) => PairingCompleteKeepsCore(s, addr, bonded);
      case PairingFailed(addr) => if Owns(s, addr) { FailKeepsCore(s); }
    }
  }

  lemma SetupKeepsCore(s: Client, a: Action)
    requires Core(s) && FromSetup(a)
    ensures Core(SetupMoves(s, a))
  {
    if InSetup(s) {
      match a {
        case SetupAdvances =>
        case SetupFails => FailKeepsCore(s);
        case SetupFinishes(covered, saveOk) => FinishKeepsCore(s, covered, saveOk);
      }
    }
  }

  lemma RestKeepsCore(s: Client, a: Action)
    requires Core(s) && !IsWork(a) && !FromHost(a) && !FromSetup(a)
    ensures Core(RestMoves(s, a))
  {
    if a.ConnectWork? {
      ConnectWorkKeepsCore(s, a.stopped, a.ok);
    }
  }

  lemma PerformKeepsCore(s: Client, a: Action)
    requires Core(s)
    ensures Core(Perform(s, a))
  {
    if IsWork(a) {
      WorkKeepsCore(s, a);
    } else if FromHost(a) {
      HostKeepsCore(s, a);
    } else if FromSetup(a) {
      SetupKeepsCore(s, a);
    } else {
      RestKeepsCore(s, a);
    }
  }

  // ---- Bonds

  ghost predicate Accounted(bonds: set<Address>, others: set<Address>, leaked: set<Address>, mine: set<Address>) {
    bonds == others + leaked + bonds * mine && others !! mine && leaked !! mine
  }

  ghost predicate BondInv(s: Client) {
    Accounted(s.bonds, s.log.others, s.log.leaked, Mine(s)) && (Held(s) ==> s.candidateBonded)
  }

  lemma ForgetKeepsBonds(s: Client, host: Host)
    requires BondInv(s) && s.conn == None
    ensures BondInv(ForgetPeer(s, host))
  {
  }

  lemma LetGoKeepsBonds(s: Client, host: Host)
    requires Core(s) && BondInv(s) && s.conn != None
    ensures BondInv(LetGo(s, host))
  {
  }

  lemma SameBonds(s: Client, r: Client)
    requires BondInv(s) && r.bonds == s.bonds && r.log.others == s.log.others && r.log.leaked == s.log.leaked
    requires Mine(r) == Mine(s) && (Held(r) ==> Held(s) && r.candidateBonded == s.candidateBonded)
    ensures BondInv(r)
  {
  }

  // A new candidate is not bonded to anyone.
  lemma CandidateKeepsBonds(s: Client, r: Client, addr: Address)
    requires BondInv(s) && Mine(s) == {} && Mine(r) == {addr} && addr !in s.bonds
    requires r.bonds == s.bonds && r.log.others == s.log.others && r.log.leaked == s.log.leaked && r.conn == Some(addr)
    ensures BondInv(r)
  {
  }

  lemma ConnectKeepsBonds(s: Client, addr: Address, ok: bool)
    requires Core(s) && BondInv(s)
    ensures BondInv(DoConnect(s, addr, ok))
  {
    var r, verdict := DoConnect(s, addr, ok), ConnectVerdict(s, addr, ok);
    if verdict == Taken && !s.havePeer {
      CandidateKeepsBonds(s, r, addr);
    } else {
      SameBonds(s, r);
    }
  }

  lemma ConnectWorkKeepsBonds(s: Client, stopped: bool, ok: bool)
    requires Core(s) && BondInv(s)
    ensures BondInv(DoConnectWork(s, stopped, ok))
  {
    if s.request != None {
      SameBonds(s, s.(request := None));
      ConnectKeepsBonds(s.(request := None), s.request.value, ok);
    }
  }

  lemma ConnectedKeepsBonds(s: Client, answer: SecurityAnswer, host: Host)
    requires Core(s) && BondInv(s)
    ensures BondInv(DoConnectedWork(s, answer, host))
  {
    if s.conn != None && s.connectedError {
      LetGoKeepsBonds(s, host);
    }
  }

  lemma DisconnectedKeepsBonds(s: Client, host: Host)
    requires Core(s) && BondInv(s)
    ensures BondInv(DoDisconnectedWork(s, host))
  {
    if s.conn != None {
      assert BondInv(Unpaired(s, host));
      LetGoKeepsBonds(Unpaired(s, host), host);
    }
  }

  lemma FailureKeepsBonds(s: Client, disconnect: DisconnectAnswer, host: Host)
    requires Core(s) && BondInv(s)
    ensures BondInv(DoFailureWork(s, disconnect, host))
  {
    if s.conn != None {
      DisconnectedKeepsBonds(Closed(s), host);
    }
  }

  lemma FinishKeepsBonds(s: Client, covered: bool, saveOk: bool)
    requires Core(s) && BondInv(s) && InSetup(s)
    ensures BondInv(Finish(s, covered, saveOk))
  {
  }

  lemma PairingCompleteKeepsBonds(s: Client, addr: Address, bonded: bool)
    requires Core(s) && BondInv(s) && Plausible(s, PairingComplete(addr, bonded))
    ensures BondInv(OnPairingComplete(s, addr, bonded))
  {
  }

  lemma SecurityKeepsBonds(s: Client, addr: Address, error: bool, secure: bool)
    requires BondInv(s)
    ensures BondInv(OnSecurityChanged(s, addr, error, secure))
  {
    SameBonds(s, OnSecurityChanged(s, addr, error, secure));
  }

  lemma PairTimeoutKeepsBonds(s: Client)
    requires BondInv(s)
    ensures BondInv(DoPairTimeout(s))
  {
  }

  lemma PairKeepsBonds(s: Client)
    requires BondInv(s)
    ensures BondInv(DoPairWork(s))
  {
  }

  lemma ClearKeepsBonds(s: Client, host: Host)
    requires BondInv(s)
    ensures BondInv(DoClearWork(s, host))
  {
    var requested := s.(pairing := false, scanWanted := false, forgetRequested := true);
    SameBonds(s, requested);
    if s.clearHeld && s.conn == None {
      ForgetKeepsBonds(requested, host);
    }
  }

  lemma BondedByOthers(bonds: set<Address>, others: set<Address>, leaked: set<Address>, mine: set<Address>, addr: Address)
    requires Accounted(bonds, others, leaked, mine)
    ensures Accounted(bonds - {addr}, others - {addr}, leaked - {addr}, mine)
    ensures addr !in mine ==> Accounted(bonds + {addr}, others + {addr}, leaked, mine)
  {
  }

  lemma OthersBondedKeepsBonds(s: Client, addr: Address)
    requires BondInv(s) && addr !in Mine(s)
    ensures BondInv(OthersBonded(s, addr))
  {
    BondedByOthers(s.bonds, s.log.others, s.log.leaked, Mine(s), addr);
  }

  lemma OthersUnbondedKeepsBonds(s: Client, addr: Address)
    requires BondInv(s)
    ensures BondInv(OthersUnbonded(s, addr))
  {
    BondedByOthers(s.bonds, s.log.others, s.log.leaked, Mine(s), addr);
  }

  lemma WorkKeepsBonds(s: Client, a: Action)
    requires Core(s) && BondInv(s) && IsWork(a)
    ensures BondInv(WorkRuns(s, a))
  {
    match a {
      case ConnectedWork(answer, host) => ConnectedKeepsBonds(s, answer, host);
      case DisconnectedWork(host) => DisconnectedKeepsBonds(s, host);
      case FailureWork(disconnect, host) => FailureKeepsBonds(s, disconnect, host);
      case RetryWork => SameBonds(s, Rescan(s));
      case TimeoutWork => SameBonds(s, WorkRuns(s, a));
      case PairTimeoutWork => PairTimeoutKeepsBonds(s);
      case PairWork => PairKeepsBonds(s);
      case ClearWork(host) => ClearKeepsBonds(s, host);
    }
  }

  lemma HostKeepsBonds(s: Client, a: Action)
    requires Core(s) && BondInv(s) && FromHost(a) && Plausible(s, a)
    ensures BondInv(HostCalls(s, a))
  {
    match a {
      case PairingComplete(addr, bonded) => PairingCompleteKeepsBonds(s, addr, bonded);
      case SecurityChanged(addr, error, secure) => SecurityKeepsBonds(s, addr, error, secure);
      case ConnectedEvent(addr, error) => SameBonds(s, OnConnectedEvent(s, addr, error));
      case DisconnectedEvent(addr) => SameBonds(s, OnDisconnectedEvent(s, addr));
      case PairingFailed(_) => SameBonds(s, Fail(s));
    }
  }

  lemma SetupKeepsBonds(s: Client, a: Action)
    requires Core(s) && BondInv(s) && FromSetup(a)
    ensures BondInv(SetupMoves(s, a))
  {
    if InSetup(s) && a.SetupFinishes? {
      FinishKeepsBonds(s, a.covered, a.saveOk);
    } else {
      SameBonds(s, SetupMoves(s, a));
    }
  }

  lemma RestKeepsBonds(s: Client, a: Action)
    requires Core(s) && BondInv(s) && !IsWork(a) && !FromHost(a) && !FromSetup(a) && Plausible(s, a)
    ensures BondInv(RestMoves(s, a))
  {
    match a {
      case ConnectWork(stopped, ok) => ConnectWorkKeepsBonds(s, stopped, ok);
      case OthersBond(addr) => OthersBondedKeepsBonds(s, addr);
      case OthersUnbond(addr) => OthersUnbondedKeepsBonds(s, addr);
      case Advertised(addr) => SameBonds(s, OnAdvertised(s, addr));
      case PairRequest => SameBonds(s, RestMoves(s, a));
      case ClearHold(_) => SameBonds(s, RestMoves(s, a));
    }
  }

  lemma PerformKeepsBonds(s: Client, a: Action)
    requires Core(s) && BondInv(s) && Plausible(s, a)
    ensures BondInv(Perform(s, a))
  {
    if IsWork(a) {
      WorkKeepsBonds(s, a);
    } else if FromHost(a) {
      HostKeepsBonds(s, a);
    } else if FromSetup(a) {
      SetupKeepsBonds(s, a);
    } else {
      RestKeepsBonds(s, a);
    }
  }

  // ---- Work that is due

  // A failure is being handled, an open window has its timer, which no saved mouse has, and the timer of a
  // connection runs only while one is being made or set up.
  ghost predicate DueInv(s: Client) {
    && (s.failure ==> Failure in s.due || s.stage == Closing)
    && (s.pairing ==> PairTimeout in s.due)
    && (s.havePeer ==> PairTimeout !in s.due)
    && (Timeout in s.due ==> s.conn != None && s.stage != Ready)
  }

  predicate Taking(s: Client, t: Client, w: Work) {
    w in s.due && t == s.(due := s.due - {w})
  }

  lemma LetGoKeepsDue(s: Client, host: Host)
    requires DueInv(s)
    ensures DueInv(LetGo(s, host))
  {
  }

  lemma ConnectedKeepsDue(s: Client, t: Client, answer: SecurityAnswer, host: Host)
    requires Core(s) && DueInv(s) && Taking(s, t, Connected)
    ensures DueInv(DoConnectedWork(t, answer, host))
  {
    if t.conn != None && t.connectedError {
      LetGoKeepsDue(Disarmed(t), host);
    }
  }

  lemma FailureKeepsDue(s: Client, t: Client, disconnect: DisconnectAnswer, host: Host)
    requires Core(s) && DueInv(s) && Taking(s, t, Failure)
    ensures DueInv(DoFailureWork(t, disconnect, host))
  {
    if t.conn != None && disconnect == NotConnected {
      LetGoKeepsDue(Unpaired(Closed(t), host), host);
    }
  }

  lemma PairTimeoutKeepsDue(s: Client, t: Client)
    requires Core(s) && DueInv(s) && Taking(s, t, PairTimeout)
    ensures DueInv(DoPairTimeout(t))
  {
  }

  lemma PairKeepsDue(s: Client, t: Client)
    requires Core(s) && DueInv(s) && Taking(s, t, Pair)
    ensures DueInv(DoPairWork(t))
  {
  }

  lemma ClearKeepsDue(s: Client, t: Client, host: Host)
    requires Core(s) && DueInv(s) && Taking(s, t, Clear)
    ensures DueInv(DoClearWork(t, host))
  {
  }

  lemma ConnectKeepsDue(s: Client, addr: Address, ok: bool)
    requires Core(s) && DueInv(s)
    ensures DueInv(DoConnect(s, addr, ok))
  {
  }

  lemma ConnectWorkKeepsDue(s: Client, stopped: bool, ok: bool)
    requires Core(s) && DueInv(s)
    ensures DueInv(DoConnectWork(s, stopped, ok))
  {
    if s.request != None {
      ConnectKeepsDue(s.(request := None), s.request.value, ok);
    }
  }

  lemma DisconnectedKeepsDue(s: Client, t: Client, host: Host)
    requires Core(s) && DueInv(s) && Taking(s, t, Disconnected)
    ensures DueInv(DoDisconnectedWork(t, host))
  {
    if t.conn != None {
      LetGoKeepsDue(Unpaired(t, host), host);
    }
  }

  lemma FinishKeepsDue(s: Client, covered: bool, saveOk: bool)
    requires Core(s) && DueInv(s) && InSetup(s)
    ensures DueInv(Finish(s, covered, saveOk))
  {
  }

  lemma SecurityKeepsDue(s: Client, addr: Address, error: bool, secure: bool)
    requires Core(s) && DueInv(s)
    ensures DueInv(OnSecurityChanged(s, addr, error, secure))
  {
  }

  lemma HostKeepsDue(s: Client, a: Action)
    requires Core(s) && DueInv(s) && FromHost(a)
    ensures DueInv(HostCalls(s, a))
  {
    if a.SecurityChanged? {
      SecurityKeepsDue(s, a.addr, a.error, a.secure);
    }
  }

  lemma SetupKeepsDue(s: Client, a: Action)
    requires Core(s) && DueInv(s) && FromSetup(a)
    ensures DueInv(SetupMoves(s, a))
  {
    if InSetup(s) && a.SetupFinishes? {
      FinishKeepsDue(s, a.covered, a.saveOk);
    }
  }

  lemma EventKeepsDue(s: Client, a: Action)
    requires Core(s) && DueInv(s) && !IsWork(a)
    ensures DueInv(Perform(s, a))
  {
    if FromHost(a) {
      HostKeepsDue(s, a);
    } else if FromSetup(a) {
      SetupKeepsDue(s, a);
    } else if a.ConnectWork? {
      ConnectWorkKeepsDue(s, a.stopped, a.ok);
    }
  }

  lemma WorkKeepsDue(s: Client, t: Client, a: Action)
    requires Core(s) && DueInv(s) && IsWork(a) && Taking(s, t, JobFor(a))
    ensures DueInv(Perform(t, a))
  {
    match a {
      case ConnectedWork(answer, host) => ConnectedKeepsDue(s, t, answer, host);
      case DisconnectedWork(host) => DisconnectedKeepsDue(s, t, host);
      case FailureWork(disconnect, host) => FailureKeepsDue(s, t, disconnect, host);
      case PairTimeoutWork => PairTimeoutKeepsDue(s, t);
      case PairWork => PairKeepsDue(s, t);
      case ClearWork(host) => ClearKeepsDue(s, t, host);
      case _ =>
    }
  }

  lemma StepKeepsDue(s: Client, a: Action)
    requires Core(s) && DueInv(s)
    ensures DueInv(Step(s, a))
  {
    if Possible(s, a) {
      if !IsWork(a) {
        EventKeepsDue(s, a);
      } else {
        WorkKeepsDue(s, Called(s, a), a);
      }
    }
  }

  // ---- Runs

  ghost predicate Inv(s: Client) {
    Core(s) && BondInv(s) && DueInv(s)
  }

  lemma BeginInv(saved: Option<Address>, anyone: Address, bonds: set<Address>, capacity: nat)
    ensures Inv(Begin(saved, anyone, bonds, capacity))
  {
  }

  lemma CalledKeeps(s: Client, a: Action)
    requires Core(s) && BondInv(s) && Possible(s, a)
    ensures Core(Called(s, a)) && BondInv(Called(s, a)) && Plausible(Called(s, a), a)
  {
    SameBonds(s, Called(s, a));
  }

  lemma StepKeepsInv(s: Client, a: Action)
    requires Inv(s)
    ensures Inv(Step(s, a))
  {
    if Possible(s, a) {
      var t := Called(s, a);
      CalledKeeps(s, a);
      PerformKeepsCore(t, a);
      PerformKeepsBonds(t, a);
      StepKeepsDue(s, a);
    }
  }

  /** Every reachable state satisfies the invariant, whatever the handlers' order and the host's answers. */
  lemma {:induction false} RunKeepsInv(s: Client, actions: seq<Action>)
    requires Inv(s)
    ensures Inv(Run(s, actions))
  {
    if actions != [] {
      RunKeepsInv(s, actions[..|actions| - 1]);
      StepKeepsInv(Run(s, actions[..|actions| - 1]), actions[|actions| - 1]);
    }
  }
}
