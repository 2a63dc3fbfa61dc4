/** What makes the client act (src/ble_mouse.c): each change of its state, and exactly what brings it about. */
module ClientCauses {
  import opened MouseClient
  import opened ClientRuns
  import opened ClientProperties
  import opened ClientClearing

  // ---- The pairing window

  // Pair is being carried out without a connection and without a mouse, and there is room for another bond.
  predicate Opens(s: Client, a: Action) {
    a.PairWork? && Pair in s.due && s.conn == None && !s.havePeer && |s.bonds| < s.capacity
  }

  lemma WorkOpens(s: Client, t: Client, a: Action)
    requires Core(s) && IsWork(a) && Taking(s, t, JobFor(a)) && !s.pairing
    ensures WorkRuns(t, a).pairing <==> Opens(s, a)
  {
    match a {
      case ConnectedWork(answer, host) => ConnectedWindow(t, answer, host);
      case DisconnectedWork(host) => DisconnectedWindow(t, host);
      case FailureWork(answer, host) => FailureWindow(t, answer, host);
      case RetryWork =>
      case TimeoutWork =>
      case PairTimeoutWork =>
      case PairWork =>
      case ClearWork(host) =>
    }
  }

  lemma DropWindow(s: Client, host: Host)
    ensures LetGo(s, host).pairing == (s.pairing && !s.forgetRequested)
  {
  }

  lemma SecurityKeeps(s: Client, answer: SecurityAnswer)
    ensures var r := StartSecurity(s, answer); r.pairing == s.pairing && r.request == s.request
  {
  }

  lemma OnConnectedKeeps(s: Client, answer: SecurityAnswer, host: Host)
    requires s.conn != None && !s.connectedError
    ensures var r := OnConnected(s, answer, host); r.pairing == s.pairing && r.request == s.request
  {
    if !s.failure && s.stage != Closing {
      SecurityKeeps(s, answer);
    }
  }

  lemma ConnectedWindow(s: Client, answer: SecurityAnswer, host: Host)
    ensures DoConnectedWork(s, answer, host).pairing
            == (s.pairing && !(s.conn != None && s.connectedError && s.forgetRequested))
  {
    if s.conn != None {
      if s.connectedError {
        DropWindow(Disarmed(s), host);
      } else {
        OnConnectedKeeps(Disarmed(s), answer, host);
      }
    }
  }

  lemma DisconnectedWindow(s: Client, host: Host)
    ensures DoDisconnectedWork(s, host).pairing == (s.pairing && !(s.conn != None && s.forgetRequested))
  {
    DropWindow(Unpaired(s, host), host);
  }

  lemma FailureWindow(s: Client, answer: DisconnectAnswer, host: Host)
    ensures DoFailureWork(s, answer, host).pairing
            == (s.pairing && !(s.conn != None && answer == NotConnected && s.forgetRequested))
  {
    if s.conn != None {
      DisconnectedWindow(Closed(s), host);
    }
  }

  // There is no room for the candidate that is asked for.
  predicate NoRoom(s: Client, a: Action) {
    a.ConnectWork? && a.stopped && s.request != None && s.conn == None && s.scanWanted && !s.havePeer && s.pairing
    && s.request.value !in s.bonds && |s.bonds| >= s.capacity
  }

  // A candidate has been set up, bonded and saved.
  predicate Adopts(s: Client, a: Action) {
    a.SetupFinishes? && InSetup(s) && s.stage == Subscriptions && a.covered
    && (s.newCandidate ==> s.candidateBonded && s.conn.value in s.bonds && a.saveOk)
  }

  predicate Closes(s: Client, a: Action) {
    || (a.PairTimeoutWork? && PairTimeout in s.due)
    || (a.ClearWork? && Clear in s.due && s.clearHeld)
    || NoRoom(s, a) || Adopts(s, a)
  }

  // A mouse that is to be forgotten is not being paired.
  lemma RequestClosesWindow(s: Client)
    requires Reachable(s)
    ensures s.forgetRequested ==> s.conn != None && !s.pairing
  {
    RequestEndsWithConnection(s);
  }

  lemma WorkCloses(s: Client, t: Client, a: Action)
    requires Core(s) && IsWork(a) && Taking(s, t, JobFor(a)) && s.pairing && !s.forgetRequested
    ensures WorkRuns(t, a).pairing <==> !Closes(s, a)
  {
    match a {
      case ConnectedWork(answer, host) => ConnectedWindow(t, answer, host);
      case DisconnectedWork(host) => DisconnectedWindow(t, host);
      case FailureWork(answer, host) => FailureWindow(t, answer, host);
      case RetryWork =>
      case TimeoutWork =>
      case PairTimeoutWork =>
      case PairWork =>
      case ClearWork(host) =>
    }
  }

  lemma FinishWindow(s: Client, covered: bool, saveOk: bool)
    requires InSetup(s) && s.stage == Subscriptions
    ensures var r := Finish(s, covered, saveOk); var adopts := Adopts(s, SetupFinishes(covered, saveOk));
            && r.pairing == (s.pairing && !adopts)
            && r.failure == !adopts && (r.failure ==> Failure in r.due)
  {
  }

  lemma SetupWindow(s: Client, a: Action)
    requires FromSetup(a)
    ensures SetupMoves(s, a).pairing == (s.pairing && !Adopts(s, a))
  {
    if InSetup(s) && a.SetupFinishes? && s.stage == Subscriptions {
      FinishWindow(s, a.covered, a.saveOk);
    }
  }

  lemma ConnectWindow(s: Client, a: Action)
    requires a.ConnectWork?
    ensures DoConnectWork(s, a.stopped, a.ok).pairing == (s.pairing && !NoRoom(s, a))
  {
  }

  lemma RestWindow(s: Client, a: Action)
    requires !IsWork(a) && !FromHost(a) && !FromSetup(a)
    ensures RestMoves(s, a).pairing == (s.pairing && !NoRoom(s, a))
  {
    if a.ConnectWork? {
      ConnectWindow(s, a);
    }
  }

  lemma EventWindow(s: Client, a: Action)
    requires !IsWork(a)
    ensures Perform(s, a).pairing == (s.pairing && !Adopts(s, a) && !NoRoom(s, a))
  {
    if FromHost(a) {
      HostKeeps(s, a);
    } else if FromSetup(a) {
      SetupWindow(s, a);
    } else {
      RestWindow(s, a);
    }
  }

  /**
   The pairing window opens exactly when Pair is carried out without a connection and without a mouse, while
   there is room for another bond. It closes exactly when its time is up, when its candidate has been adopted,
   when there is no room for the candidate that is asked for, or under a held Clear.
   */
  lemma WindowExactly(s: Client, a: Action)
    requires Reachable(s)
    ensures Step(s, a).pairing <==> if s.pairing then !(Possible(s, a) && Closes(s, a)) else Opens(s, a)
  {
    ReachableInv(s);
    RequestClosesWindow(s);
    if Possible(s, a) {
      if !IsWork(a) {
        EventWindow(s, a);
      } else if s.pairing {
        WorkCloses(s, Called(s, a), a);
      } else {
        WorkOpens(s, Called(s, a), a);
      }
    }
  }

  // ---- Attempts

  // The address may be connected to: the saved mouse, or a candidate with room for its bond.
  predicate MayTry(s: Client, addr: Address) {
    if s.havePeer then addr == s.peer else s.pairing && addr !in s.bonds && |s.bonds| < s.capacity
  }

  // ---- Without an attempt

  lemma WorkStaysFree(s: Client, a: Action)
    requires s.conn == None && IsWork(a)
    ensures WorkRuns(s, a).conn == None
  {
    match a {
      case ConnectedWork(answer, host) =>
      case DisconnectedWork(host) =>
      case FailureWork(answer, host) => assert DoFailureWork(s, answer, host) == BackToIdle(Closed(s));
      case RetryWork =>
      case TimeoutWork =>
      case PairTimeoutWork =>
      case PairWork =>
      case ClearWork(host) =>
    }
  }

  lemma EventStaysFree(s: Client, a: Action)
    requires s.conn == None && !IsWork(a) && !a.ConnectWork?
    ensures Perform(s, a).conn == None
  {
    if FromHost(a) {
      HostStaysFree(s, a);
    } else if !FromSetup(a) {
      RestStaysFree(s, a);
    }
  }

  lemma HostStaysFree(s: Client, a: Action)
    requires s.conn == None && FromHost(a)
    ensures HostCalls(s, a) == s
  {
  }

  lemma RestStaysFree(s: Client, a: Action)
    requires s.conn == None && !IsWork(a) && !FromHost(a) && !FromSetup(a) && !a.ConnectWork?
    ensures RestMoves(s, a).conn == None
  {
    match a {
      case Advertised(_) =>
      case PairRequest =>
      case ClearHold(_) =>
      case OthersBond(_) =>
      case OthersUnbond(_) =>
    }
  }

  lemma StepStaysFree(s: Client, a: Action)
    requires s.conn == None && !a.ConnectWork?
    ensures Step(s, a).conn == None
  {
    if IsWork(a) {
      WorkStaysFree(Called(s, a), a);
    } else {
      EventStaysFree(s, a);
    }
  }

  // An attempt that has just begun.
  predicate Fresh(s: Client, r: Client) {
    && r.stage == Connecting && Timeout in r.due && !r.failure && !r.scanWanted
    && r.newCandidate == !s.havePeer && !r.candidateBonded
  }

  lemma ConnectTakesExactly(s: Client, addr: Address, ok: bool)
    requires s.conn == None && Core(s)
    ensures var r := DoConnect(s, addr, ok);
            && (r.conn != None <==> ok && s.scanWanted && MayTry(s, addr))
            && (r.conn != None ==> r.conn == Some(addr) && Fresh(s, r))
  {
  }

  lemma ConnectWorkTakes(s: Client, stopped: bool, ok: bool)
    requires s.conn == None && Core(s)
    ensures var r := DoConnectWork(s, stopped, ok);
            && (r.conn != None <==> s.request != None && stopped && ok && s.scanWanted && MayTry(s, s.request.value))
            && (r.conn != None ==> r.conn == s.request && Fresh(s, r))
  {
    if s.request != None && stopped {
      ConnectTakesExactly(s.(request := None), s.request.value, ok);
    }
  }

  /**
   A connection is attempted exactly when the coordinator serves a request with its scan stopped, while the
   client wants to scan, for the saved mouse or a candidate with room for its bond, and automatic connection
   takes. The connection is the one asked for, and nothing is left over from an earlier one.
   */
  lemma AttemptExactly(s: Client, a: Action)
    requires Reachable(s) && s.conn == None
    ensures Step(s, a).conn != None
            <==> a == ConnectWork(true, true) && s.request != None && s.scanWanted && MayTry(s, s.request.value)
    ensures Step(s, a).conn != None ==> Step(s, a).conn == s.request && Fresh(s, Step(s, a))
  {
    ReachableInv(s);
    if a.ConnectWork? {
      ConnectWorkTakes(s, a.stopped, a.ok);
    } else {
      StepStaysFree(s, a);
    }
  }

  // ---- Requests to connect

  // The address that is to be connected to next: one that advertises, if it is wanted, or the saved mouse.
  function Asks(s: Client, a: Action): Option<Address> {
    match a
    case Advertised(addr) =>
      if s.scanWanted && (if s.havePeer then addr == s.peer else s.pairing) then Some(addr) else None
    case RetryWork => if Retry in s.due then AsksAgain(s) else None
    case PairWork => if Pair in s.due then AsksAgain(s) else None
    case _ => None
  }

  function AsksAgain(s: Client): Option<Address> {
    if s.conn == None && s.havePeer && s.peer in s.bonds then Some(s.peer) else None
  }

  lemma DropAsksNothing(s: Client, host: Host)
    ensures LetGo(s, host).request == s.request
  {
  }

  lemma ConnectedAsksNothing(s: Client, answer: SecurityAnswer, host: Host)
    ensures DoConnectedWork(s, answer, host).request == s.request
  {
    if s.conn != None {
      if s.connectedError {
        DropAsksNothing(Disarmed(s), host);
      } else {
        OnConnectedKeeps(Disarmed(s), answer, host);
      }
    }
  }

  lemma DisconnectedAsksNothing(s: Client, host: Host)
    ensures DoDisconnectedWork(s, host).request == s.request
  {
    DropAsksNothing(Unpaired(s, host), host);
  }

  lemma FailureAsksNothing(s: Client, answer: DisconnectAnswer, host: Host)
    ensures DoFailureWork(s, answer, host).request == s.request
  {
    if s.conn != None && answer == NotConnected {
      DisconnectedAsksNothing(Closed(s), host);
    }
  }

  lemma RescanAsks(s: Client)
    requires s.request == None
    ensures Rescan(s).request == AsksAgain(s)
  {
  }

  lemma PairTimeoutAsksNothing(s: Client)
    requires s.request == None && !s.havePeer
    ensures DoPairTimeout(s).request == None
  {
    RescanAsks(FailCandidate(s.(pairing := false)));
  }

  lemma PairAsks(s: Client)
    requires s.request == None
    ensures DoPairWork(s).request == AsksAgain(s)
  {
    if s.conn == None {
      if s.havePeer { RescanAsks(s); } else { RescanAsks(s.(pairing := true, due := s.due + {PairTimeout})); }
    }
  }

  lemma ClearAsksNothing(s: Client, host: Host)
    ensures DoClearWork(s, host).request == s.request
  {
  }

  lemma WorkAsks(s: Client, t: Client, a: Action)
    requires DueInv(s) && IsWork(a) && Taking(s, t, JobFor(a)) && s.request == None
    ensures WorkRuns(t, a).request == Asks(s, a)
  {
    match a {
      case ConnectedWork(answer, host) => ConnectedAsksNothing(t, answer, host);
      case DisconnectedWork(host) => DisconnectedAsksNothing(t, host);
      case FailureWork(answer, host) => FailureAsksNothing(t, answer, host);
      case RetryWork => RescanAsks(t);
      case TimeoutWork =>
      case PairTimeoutWork => PairTimeoutAsksNothing(t);
      case PairWork => PairAsks(t);
      case ClearWork(host) => ClearAsksNothing(t, host);
    }
  }

  lemma SetupAsksNothing(s: Client, a: Action)
    requires FromSetup(a)
    ensures SetupMoves(s, a).request == s.request
  {
    match a {
      case SetupAdvances =>
      case SetupFails =>
      case SetupFinishes(covered, saveOk) => FinishAsksNothing(s, covered, saveOk);
    }
  }

  lemma FinishAsksNothing(s: Client, covered: bool, saveOk: bool)
    ensures Finish(s, covered, saveOk).request == s.request
  {
  }

  /**
   The empty mailbox is filled exactly by a wanted advertisement, or by a retry or Pair beside a saved mouse
   that is still bonded and not connected; and with that address.
   */
  lemma AsksExactly(s: Client, a: Action)
    requires Reachable(s) && s.request == None
    ensures Step(s, a).request == Asks(s, a)
  {
    ReachableInv(s);
    if Possible(s, a) {
      if IsWork(a) {
        WorkAsks(s, Called(s, a), a);
      } else if FromHost(a) {
        HostKeeps(s, a);
      } else if FromSetup(a) {
        SetupAsksNothing(s, a);
      }
    }
  }

  // ---- Failures

  // What fails a connection that has not failed yet.
  predicate Fails(s: Client, a: Action)
    requires s.conn != None
  {
    match a
    case ConnectedWork(answer, _) => Connected in s.due && !s.connectedError && (s.stage == Closing || answer == Refused)
    case SecurityChanged(addr, error, _) => s.conn.value == addr && s.stage != Closing && error
    case PairingComplete(addr, bonded) => s.conn.value == addr && !bonded && addr !in s.bonds
    case PairingFailed(addr) => s.conn.value == addr
    case SetupFails => s.stage != Closing
    case SetupFinishes(_, _) => s.stage == Subscriptions && !Adopts(s, a)
    case TimeoutWork => Timeout in s.due && s.stage != Ready
    case PairTimeoutWork => PairTimeout in s.due && s.newCandidate && s.stage != Ready
    case ClearWork(_) => Clear in s.due && s.clearHeld
    case _ => false
  }

  lemma ConnectedFails(s: Client, t: Client, answer: SecurityAnswer, host: Host)
    requires s.conn != None && !s.failure && Taking(s, t, Connected)
    ensures var r := DoConnectedWork(t, answer, host);
            (r.failure <==> Fails(s, ConnectedWork(answer, host))) && (r.failure ==> Failure in r.due)
  {
  }

  lemma DropFails(s: Client, host: Host)
    ensures !LetGo(s, host).failure
  {
  }

  lemma DisconnectedFails(s: Client, host: Host)
    requires s.conn != None
    ensures !DoDisconnectedWork(s, host).failure
  {
    DropFails(Unpaired(s, host), host);
  }

  lemma FailureFails(s: Client, answer: DisconnectAnswer, host: Host)
    requires s.conn != None && !s.failure
    ensures !DoFailureWork(s, answer, host).failure
  {
    if answer == NotConnected {
      DisconnectedFails(Closed(s), host);
    }
  }

  lemma WorkFails(s: Client, t: Client, a: Action)
    requires s.conn != None && !s.failure && IsWork(a) && Taking(s, t, JobFor(a))
    ensures var r := WorkRuns(t, a); (r.failure <==> Fails(s, a)) && (r.failure ==> Failure in r.due)
  {
    match a {
      case ConnectedWork(answer, host) => ConnectedFails(s, t, answer, host);
      case DisconnectedWork(host) => DisconnectedFails(t, host);
      case FailureWork(answer, host) => FailureFails(t, answer, host);
      case RetryWork =>
      case TimeoutWork =>
      case PairTimeoutWork =>
      case PairWork =>
      case ClearWork(_) =>
    }
  }

  lemma SecurityFails(s: Client, addr: Address, error: bool, secure: bool)
    requires s.conn != None && !s.failure
    ensures var r := OnSecurityChanged(s, addr, error, secure);
            (r.failure <==> s.conn.value == addr && s.stage != Closing && error) && (r.failure ==> Failure in r.due)
  {
  }

  lemma PairingFails(s: Client, addr: Address, bonded: bool)
    requires s.conn != None && !s.failure && (bonded || addr !in s.bonds)
    ensures var r := OnPairingComplete(s, addr, bonded);
            (r.failure <==> s.conn.value == addr && !bonded) && (r.failure ==> Failure in r.due)
  {
  }

  lemma HostFails(s: Client, a: Action)
    requires s.conn != None && !s.failure && FromHost(a) && Plausible(s, a)
    ensures var r := HostCalls(s, a); (r.failure <==> Fails(s, a)) && (r.failure ==> Failure in r.due)
  {
    match a {
      case ConnectedEvent(_, _) =>
      case DisconnectedEvent(_) =>
      case SecurityChanged(addr, error, secure) => SecurityFails(s, addr, error, secure);
      case PairingComplete(addr, bonded) => PairingFails(s, addr, bonded);
      case PairingFailed(_) =>
    }
  }

  lemma SetupStops(s: Client, a: Action)
    requires s.conn != None && !s.failure && FromSetup(a)
    ensures var r := SetupMoves(s, a); (r.failure <==> Fails(s, a)) && (r.failure ==> Failure in r.due)
  {
    if a.SetupFinishes? && s.stage == Subscriptions {
      FinishWindow(s, a.covered, a.saveOk);
    }
  }

  lemma RestFails(s: Client, a: Action)
    requires s.conn != None && !s.failure && !IsWork(a) && !FromHost(a) && !FromSetup(a)
    ensures !RestMoves(s, a).failure
  {
    match a {
      case ConnectWork(_, _) =>
      case Advertised(_) =>
      case PairRequest =>
      case ClearHold(_) =>
      case OthersBond(_) =>
      case OthersUnbond(_) =>
    }
  }

  /**
   A connection fails exactly for these reasons: a link lost or refused security before set-up, a failed
   encryption, a pairing that fails or makes no bond, a set-up that fails or does not end in adoption, its own
   timeout, the end of a candidate's window, or a held Clear. Then the failure is to be handled.
   */
  lemma FailsExactly(s: Client, a: Action)
    requires Reachable(s) && s.conn != None && !s.failure
    ensures Step(s, a).failure <==> Fails(s, a)
    ensures Step(s, a).failure ==> Failure in Step(s, a).due
  {
    ReachableInv(s);
    if Possible(s, a) {
      if IsWork(a) {
        WorkFails(s, Called(s, a), a);
      } else if FromHost(a) {
        HostFails(s, a);
      } else if FromSetup(a) {
        SetupStops(s, a);
      } else {
        RestFails(s, a);
      }
    }
  }
}
