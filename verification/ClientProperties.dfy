/** What the client promises, in every state that its handlers can reach. */
module ClientProperties {
  import opened MouseClient
  import opened ClientRuns

  ghost predicate Reachable(s: Client) {
    exists saved, anyone, bonds, capacity, actions :: s == Run(Begin(saved, anyone, bonds, capacity), actions)
  }

  lemma ReachableInv(s: Client)
    requires Reachable(s)
    ensures Inv(s)
  {
    var saved, anyone, bonds, capacity, actions :| s == Run(Begin(saved, anyone, bonds, capacity), actions);
    BeginInv(saved, anyone, bonds, capacity);
    RunKeepsInv(Begin(saved, anyone, bonds, capacity), actions);
  }

  // ---- The pairing window

  /** A candidate's connection that is neither failed nor closing means an open window, with its timer running. */
  lemma CandidateOnlyInWindow(s: Client)
    requires Reachable(s)
    ensures s.conn != None && s.newCandidate && s.stage != Closing && !s.failure ==> s.pairing && PairTimeout in s.due
    ensures s.scanWanted ==> s.conn == None && (s.havePeer || s.pairing)
    ensures s.conn == None <==> s.stage == Idle
    ensures s.failure ==> s.conn != None && (Failure in s.due || s.stage == Closing)
    ensures s.havePeer ==> !s.pairing && PairTimeout !in s.due
    ensures Timeout in s.due ==> s.conn != None && s.stage != Ready
  {
    ReachableInv(s);
  }

  lemma FinishAdopts(s: Client, covered: bool, saveOk: bool)
    requires Core(s) && InSetup(s) && s.stage == Subscriptions
    ensures var r := Finish(s, covered, saveOk);
            && (r.havePeer && !s.havePeer ==>
                  && covered && saveOk && s.pairing
                  && s.conn == Some(r.peer) && s.newCandidate && s.candidateBonded && r.peer in s.bonds
                  && r.saved == Some(r.peer) && r.stage == Ready && !r.pairing)
            && (r.havePeer && s.havePeer ==> r.peer == s.peer)
  {
  }

  lemma OnlyFinishAdopts(s: Client, a: Action)
    requires !a.SetupFinishes?
    ensures Step(s, a).peer == s.peer && (Step(s, a).havePeer ==> s.havePeer)
  {
    PerformKeeps(Called(s, a), a);
  }

  /** A peer is adopted only inside the window, while it is bonded, and saved; the peer never changes otherwise. */
  lemma AdoptedOnlyInWindow(s: Client, a: Action)
    requires Reachable(s)
    ensures var r := Step(s, a);
            && (r.havePeer && !s.havePeer ==>
                  && s.pairing && PairTimeout in s.due && s.stage == Subscriptions && a == SetupFinishes(true, true)
                  && s.conn == Some(r.peer) && s.newCandidate && s.candidateBonded && r.peer in s.bonds
                  && r.saved == Some(r.peer) && r.stage == Ready && !r.pairing)
            && (r.havePeer && s.havePeer ==> r.peer == s.peer)
  {
    ReachableInv(s);
    match a {
      case SetupFinishes(covered, saveOk) =>
        if InSetup(s) && s.stage == Subscriptions {
          FinishAdopts(s, covered, saveOk);
        }
      case _ => OnlyFinishAdopts(s, a);
    }
  }

  // `zmk_ble_mouse_legacy_pairing_allowed`, for a connection of the central role on the default identity;
  // `connecting` is the address that `connect_mouse` was last called for.
  predicate LegacyPairingAllowed(s: Client, addr: Address, connecting: Address) {
    && s.pairing && !s.havePeer && !s.failure && s.newCandidate && (s.stage == Connecting || s.stage == Security)
    && (Owns(s, addr) || (s.conn == None && s.stage == Connecting && addr == connecting))
  }

  /**
   Legacy pairing is allowed exactly for the connection of this attempt's candidate, from the attempt up to
   the start of set-up, unless it has failed. That candidate is bonded to nobody else, and the window's
   timer runs.
   */
  lemma LegacyExactlyForCandidate(s: Client, addr: Address, connecting: Address)
    requires Reachable(s)
    ensures LegacyPairingAllowed(s, addr, connecting)
            <==> s.conn == Some(addr) && s.newCandidate && !s.failure && s.stage in {Connecting, Security}
    ensures LegacyPairingAllowed(s, addr, connecting) ==>
              Mine(s) == {addr} && addr !in s.log.others && addr !in s.log.leaked && PairTimeout in s.due
  {
    ReachableInv(s);
  }

  /**
   Inside `connect_mouse`, where the stage says CONNECTING and the connection has not been looked up yet, it
   is allowed exactly for the address being connected to, unless that is the saved mouse. Nobody is bonded
   to it then.
   */
  lemma LegacyWhileConnecting(s: Client, addr: Address, connecting: Address, ok: bool)
    requires Reachable(s) && ConnectVerdict(s, connecting, ok) in {Taken, NotFound}
    ensures LegacyPairingAllowed(Attempted(s), addr, connecting) <==> addr == connecting && !s.havePeer
    ensures !s.havePeer ==> connecting !in s.bonds && |s.bonds| < s.capacity && PairTimeout in s.due
  {
    ReachableInv(s);
  }

  // ---- Bonds

  // The bond of the candidate outlives its attempt.
  predicate Leaks(s: Client, a: Action) {
    Held(s) && match a
               case ConnectedWork(_, _) => Connected in s.due && s.connectedError
               case DisconnectedWork(host) => Disconnected in s.due && !host.unpairOk
               case FailureWork(disconnect, host) => Failure in s.due && disconnect == NotConnected && !host.unpairOk
               case _ => false
  }

  lemma OthersUntouched(s: Client, a: Action)
    ensures !OfOthers(a) ==> Step(s, a).log.others == s.log.others
  {
    PerformKeeps(Called(s, a), a);
  }

  /** Every bond is accounted for: the others', those leaked by an attempt, and the mouse's own. */
  lemma BondsAccounted(s: Client, a: Action)
    requires Reachable(s)
    ensures s.bonds == s.log.others + s.log.leaked + s.bonds * Mine(s)
    ensures s.log.others !! Mine(s) && s.log.leaked !! Mine(s)
    ensures !OfOthers(a) ==> Step(s, a).log.others == s.log.others
  {
    ReachableInv(s);
    OthersUntouched(s, a);
  }

  lemma ConnectedLeaks(s: Client, answer: SecurityAnswer, host: Host)
    ensures DoConnectedWork(s, answer, host).log.leaked
            == s.log.leaked + if Held(s) && s.connectedError then {s.conn.value} else {}
  {
  }

  lemma DisconnectedLeaks(s: Client, host: Host)
    requires BondInv(s)
    ensures DoDisconnectedWork(s, host).log.leaked == s.log.leaked + if Held(s) && !host.unpairOk then {s.conn.value} else {}
  {
  }

  lemma FailureLeaks(s: Client, disconnect: DisconnectAnswer, host: Host)
    requires BondInv(s)
    ensures DoFailureWork(s, disconnect, host).log.leaked
            == s.log.leaked + if Held(s) && disconnect == NotConnected && !host.unpairOk then {s.conn.value} else {}
  {
  }

  lemma WorkLeaks(s: Client, t: Client, a: Action)
    requires BondInv(s) && IsWork(a) && Taking(s, t, JobFor(a))
    ensures Perform(t, a).log.leaked == s.log.leaked + if Leaks(s, a) then {s.conn.value} else {}
  {
    match a {
      case ConnectedWork(answer, host) => ConnectedLeaks(t, answer, host);
      case DisconnectedWork(host) => DisconnectedLeaks(t, host);
      case FailureWork(disconnect, host) => FailureLeaks(t, disconnect, host);
      case _ => PerformKeeps(t, a);
    }
  }

  /** A step leaks a bond exactly when it gives the bonded candidate up without unpairing it. */
  lemma LeaksExactly(s: Client, a: Action)
    requires Inv(s)
    ensures !a.OthersUnbond? ==> Step(s, a).log.leaked == s.log.leaked + if Leaks(s, a) then {s.conn.value} else {}
    ensures Leaks(s, a) ==> s.conn.value !in s.log.leaked
  {
    if Leaks(s, a) {
      assert s.conn.value in Mine(s);
    }
    if Possible(s, a) {
      if !IsWork(a) {
        PerformKeeps(s, a);
      } else {
        WorkLeaks(s, Called(s, a), a);
      }
    }
  }

  /**
   An attempt that ends without adopting its candidate leaves the bonds as the others have made them,
   if and only if it does not leak.
   */
  lemma AttemptRestores(s: Client, a: Action)
    requires Reachable(s) && !OfOthers(a)
    requires s.conn != None && s.newCandidate && Step(s, a).conn == None
    ensures Step(s, a).bonds == s.log.others + s.log.leaked <==> !Leaks(s, a)
  {
    ReachableInv(s);
    LeaksExactly(s, a);
    NothingMine(s, a);
    LeakShows(s.log.others, s.log.leaked, s.conn.value);
    assert s.conn.value in Mine(s);
  }

  lemma NothingMine(s: Client, a: Action)
    requires Inv(s) && !OfOthers(a) && s.conn != None && s.newCandidate && Step(s, a).conn == None
    ensures Step(s, a).bonds == s.log.others + Step(s, a).log.leaked
  {
    StepKeepsInv(s, a);
    OthersUntouched(s, a);
    NoneMine(Step(s, a));
  }

  lemma NoneMine(r: Client)
    requires Core(r) && BondInv(r) && !r.havePeer && r.conn == None
    ensures r.bonds == r.log.others + r.log.leaked
  {
    assert Mine(r) == {};
  }

  lemma LeakShows(others: set<Address>, leaked: set<Address>, addr: Address)
    ensures addr !in others && addr !in leaked ==> others + (leaked + {addr}) != others + leaked
  {
    assert addr in others + (leaked + {addr});
  }

  // No step of the run leaks, and nobody else changes the bonds.
  ghost predicate Undisturbed(s: Client, actions: seq<Action>) {
    actions == [] ||
    (var init, a := actions[..|actions| - 1], actions[|actions| - 1];
     Undisturbed(s, init) && !OfOthers(a) && !Leaks(Run(s, init), a))
  }

  lemma {:induction false} UndisturbedKeeps(s: Client, actions: seq<Action>)
    requires Inv(s) && Undisturbed(s, actions)
    ensures var r := Run(s, actions); r.log.others == s.log.others && r.log.leaked == s.log.leaked
  {
    if actions != [] {
      var init, a := actions[..|actions| - 1], actions[|actions| - 1];
      UndisturbedKeeps(s, init);
      RunKeepsInv(s, init);
      LeaksExactly(Run(s, init), a);
      OthersUntouched(Run(s, init), a);
    }
  }

  /**
   However many attempts are made, in whatever order handlers run: if none leaks and nobody else changes
   the bonds, a client that starts and ends without a mouse ends with exactly the bonds it started with.
   */
  lemma AttemptsRestore(s: Client, actions: seq<Action>)
    requires Reachable(s) && Undisturbed(s, actions)
    requires Mine(s) == {} && Mine(Run(s, actions)) == {}
    ensures Run(s, actions).bonds == s.bonds
  {
    ReachableInv(s);
    RunKeepsInv(s, actions);
    UndisturbedKeeps(s, actions);
  }

  // The host removes the saved peer's bond at a Clear that is being carried out.
  predicate Clearing(s: Client, a: Action) {
    s.forgetRequested || (a.ClearWork? && s.clearHeld)
  }

  // The saved peer stays, with its bond.
  ghost predicate PeerStays(s: Client, r: Client) {
    r.havePeer && r.peer == s.peer && s.bonds <= r.bonds && !r.forgetRequested
  }

  lemma DisconnectedKeepsPeer(s: Client, host: Host)
    requires Core(s) && s.havePeer && !s.forgetRequested
    ensures PeerStays(s, DoDisconnectedWork(s, host))
  {
  }

  lemma FailureKeepsPeer(s: Client, disconnect: DisconnectAnswer, host: Host)
    requires Core(s) && s.havePeer && !s.forgetRequested
    ensures PeerStays(s, DoFailureWork(s, disconnect, host))
  {
  }

  lemma ConnectedKeepsPeer(s: Client, answer: SecurityAnswer, host: Host)
    requires Core(s) && s.havePeer && !s.forgetRequested
    ensures PeerStays(s, DoConnectedWork(s, answer, host))
  {
  }

  lemma FinishKeepsPeer(s: Client, covered: bool, saveOk: bool)
    requires Core(s) && s.havePeer && !s.forgetRequested && InSetup(s)
    ensures PeerStays(s, Finish(s, covered, saveOk))
  {
  }

  lemma PairingKeepsPeer(s: Client)
    requires Core(s) && s.havePeer && !s.forgetRequested
    ensures PeerStays(s, DoPairTimeout(s)) && PeerStays(s, DoPairWork(s))
  {
  }

  lemma SetupKeepsPeer(s: Client, a: Action)
    requires Core(s) && s.havePeer && !s.forgetRequested && FromSetup(a)
    ensures PeerStays(s, SetupMoves(s, a))
  {
    if InSetup(s) && a.SetupFinishes? {
      FinishKeepsPeer(s, a.covered, a.saveOk);
    }
  }

  lemma SamePeer(s: Client, r: Client)
    requires s.havePeer && !s.forgetRequested && r.havePeer && r.peer == s.peer && r.bonds == s.bonds
    requires r.forgetRequested == s.forgetRequested
    ensures PeerStays(s, r)
  {
  }

  lemma BondKeepsPeer(s: Client, addr: Address, bonded: bool)
    requires s.havePeer && !s.forgetRequested
    ensures PeerStays(s, OnPairingComplete(s, addr, bonded))
  {
  }

  lemma HostKeepsPeer(s: Client, a: Action)
    requires s.havePeer && !s.forgetRequested && FromHost(a)
    ensures PeerStays(s, HostCalls(s, a))
  {
    match a {
      case ConnectedEvent(addr, error) => SamePeer(s, OnConnectedEvent(s, addr, error));
      case DisconnectedEvent(addr) => SamePeer(s, OnDisconnectedEvent(s, addr));
      case SecurityChanged(addr, error, secure) => SamePeer(s, OnSecurityChanged(s, addr, error, secure));
      case PairingComplete(addr, bonded) => BondKeepsPeer(s, addr, bonded);
      case PairingFailed(_) => SamePeer(s, Fail(s));
    }
  }

  lemma ConnectKeepsPeer(s: Client, stopped: bool, ok: bool)
    requires s.havePeer && !s.forgetRequested
    ensures PeerStays(s, DoConnectWork(s, stopped, ok))
  {
  }

  lemma EventKeepsPeer(s: Client, a: Action)
    requires Core(s) && s.havePeer && !s.forgetRequested && !IsWork(a) && !OfOthers(a)
    ensures PeerStays(s, Perform(s, a))
  {
    if FromHost(a) {
      HostKeepsPeer(s, a);
    } else if FromSetup(a) {
      SetupKeepsPeer(s, a);
    } else if a.ConnectWork? {
      ConnectKeepsPeer(s, a.stopped, a.ok);
    }
  }

  lemma WorkKeepsPeer(s: Client, a: Action)
    requires Core(s) && s.havePeer && !s.forgetRequested && IsWork(a) && !Clearing(s, a)
    ensures PeerStays(s, Perform(s, a))
  {
    match a {
      case ConnectedWork(answer, host) => ConnectedKeepsPeer(s, answer, host);
      case DisconnectedWork(host) => DisconnectedKeepsPeer(s, host);
      case FailureWork(disconnect, host) => FailureKeepsPeer(s, disconnect, host);
      case PairTimeoutWork => PairingKeepsPeer(s);
      case PairWork => PairingKeepsPeer(s);
      case _ =>
    }
  }

  /** Only a Clear, or somebody else, takes the saved mouse's bond away: no loss of the link or failure does. */
  lemma PeerKeepsItsBond(s: Client, a: Action)
    requires Reachable(s) && s.havePeer && !Clearing(s, a) && !OfOthers(a)
    ensures PeerStays(s, Step(s, a))
  {
    ReachableInv(s);
    var t := Called(s, a);
    if !IsWork(a) {
      EventKeepsPeer(t, a);
    } else {
      WorkKeepsPeer(t, a);
    }
  }

  /** The client's own handlers take away no bond but the candidate's, or the saved peer's under a Clear. */
  lemma RemovesOnlyItsOwn(s: Client, a: Action, b: Address)
    requires Reachable(s) && !OfOthers(a) && b in s.bonds && b !in Step(s, a).bonds
    ensures b in Mine(s) && (s.havePeer ==> Clearing(s, a))
  {
    ReachableInv(s);
    if s.havePeer && !Clearing(s, a) {
      PeerKeepsItsBond(s, a);
    }
    if b !in Mine(s) {
      ForeignStays(s, a, b);
    }
  }

  lemma ForeignStays(s: Client, a: Action, b: Address)
    requires Inv(s) && !OfOthers(a) && b in s.bonds && b !in Mine(s)
    ensures b in Step(s, a).bonds
  {
    assert b in s.log.others + s.log.leaked;
    StepKeepsInv(s, a);
    LeaksExactly(s, a);
    OthersUntouched(s, a);
    assert b in Step(s, a).log.others + Step(s, a).log.leaked;
  }

  lemma ExtendRun(s: Client, actions: seq<Action>, r: Client, a: Action)
    requires Run(s, actions) == r
    ensures Run(s, actions + [a]) == Step(r, a)
  {
  }

  lemma ExtendReachable(s: Client, a: Action)
    requires Reachable(s)
    ensures Reachable(Step(s, a))
  {
    var saved, anyone, bonds, capacity, actions :| s == Run(Begin(saved, anyone, bonds, capacity), actions);
    ExtendRun(Begin(saved, anyone, bonds, capacity), actions, s, a);
    assert Step(s, a) == Run(Begin(saved, anyone, bonds, capacity), actions + [a]);
  }

  lemma BeginReachable(saved: Option<Address>, anyone: Address, bonds: set<Address>, capacity: nat)
    ensures Reachable(Begin(saved, anyone, bonds, capacity))
  {
    assert Begin(saved, anyone, bonds, capacity) == Run(Begin(saved, anyone, bonds, capacity), []);
  }

  // Clears, and the others, leave the saved peer alone throughout.
  predicate NoClear(actions: seq<Action>) {
    forall k :: 0 <= k < |actions| ==> !actions[k].ClearWork? && !OfOthers(actions[k])
  }

  /** Through every run without a Clear the saved mouse keeps its bond, whatever happens to its connection. */
  lemma {:induction false} PeerSurvives(s: Client, actions: seq<Action>)
    requires Reachable(s) && s.havePeer && !s.forgetRequested && NoClear(actions)
    ensures Reachable(Run(s, actions)) && PeerStays(s, Run(s, actions))
  {
    if actions != [] {
      var init, a := actions[..|actions| - 1], actions[|actions| - 1];
      PeerSurvives(s, init);
      PeerKeepsItsBond(Run(s, init), a);
      ExtendReachable(Run(s, init), a);
    }
  }
}
