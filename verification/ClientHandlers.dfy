/** The client's handlers as they run, updating the client's variables in place (src/ble_mouse.c). */
module ClientHandlers {
  import opened MouseClient
  import opened ClientRuns

  class MouseState {
    var stage: Stage
    var conn: Option<Address>
    var failure: bool
    var pairing: bool
    var havePeer: bool
    var peer: Address
    var scanWanted: bool
    var clearHeld: bool
    var forgetRequested: bool
    var newCandidate: bool
    var candidateBonded: bool
    var connectedError: bool
    var due: set<Work>
    var request: Option<Address>     // the coordinator's mailbox
    var bonds: set<Address>          // the host's bonds
    var saved: Option<Address>       // the setting "ble_mouse/peer"
    const capacity: nat
    ghost var log: Log

    ghost function View(): Client
      reads this
    {
      Client(stage, conn, failure, pairing, havePeer, peer, scanWanted, clearHeld, forgetRequested, newCandidate,
             candidateBonded, connectedError, due, request, bonds, saved, capacity, log)
    }

    // After the settings have been loaded and `zmk_ble_mouse_start`.
    constructor (saved: Option<Address>, anyone: Address, bonds: set<Address>, capacity: nat)
      ensures View() == Begin(saved, anyone, bonds, capacity)
    {
      stage, conn, failure, pairing := Idle, None, false, false;
      havePeer, peer := saved.Some?, if saved.Some? then saved.value else anyone;
      scanWanted, clearHeld, forgetRequested, newCandidate := false, false, false, false;
      candidateBonded, connectedError, due, request := false, false, {Retry}, None;
      this.bonds, this.saved, this.capacity := bonds, saved, capacity;
      log := Log(bonds - (if saved.Some? then {saved.value} else {}), {}, false, false, false);
    }

    method FailNow()
      modifies this`failure, this`due
      ensures View() == Fail(old(View()))
    {
      failure := true;
      due := due + {Failure};
    }

    method RetryLater()
      modifies this`scanWanted, this`due
      ensures View() == RequestRetry(old(View()))
    {
      scanWanted := false;
      due := due + {Retry};
    }

    // `zmk_ble_central_connect`.
    method Post(addr: Address)
      modifies this`request
      ensures View() == Posted(old(View()), addr)
    {
      if request == None {
        request := Some(addr);
      }
    }

    method RetryWorkRun()
      modifies this`scanWanted, this`request
      ensures View() == Rescan(old(View()))
    {
      var wanted := conn == None && (havePeer || pairing);
      if havePeer && peer !in bonds {
        wanted := false;
      }
      scanWanted := wanted;
      if wanted && havePeer {
        Post(peer);
      }
    }

    method Forget(host: Host)
      modifies this
      ensures View() == ForgetPeer(old(View()), host)
    {
      StopPairing();
      if havePeer && host.forgetOk {
        bonds := bonds - {peer};
        if host.deleteOk {
          saved := None;
        }
        havePeer := false;
      }
    }

    method StopPairing()
      modifies this`pairing, this`scanWanted, this`due, this`forgetRequested
      ensures View() == old(View()).(pairing := false, scanWanted := false, forgetRequested := false,
                                     due := old(due) - {PairTimeout})
    {
      pairing, scanWanted, forgetRequested, due := false, false, false, due - {PairTimeout};
    }

    // ---- Connections

    method ConnectMouse(addr: Address, ok: bool) returns (verdict: Verdict)
      modifies this
      ensures View() == DoConnect(old(View()), addr, ok)
      ensures verdict == ConnectVerdict(old(View()), addr, ok)
    {
      if conn != None || !scanWanted {
        return Already;
      }
      var known := havePeer;
      if (known && addr != peer) || (!known && !pairing) {
        return Canceled;
      }
      if !known && addr in bonds {
        return Already;
      }
      if !known && |bonds| >= capacity {
        pairing, scanWanted := false, false;
        return NoMemory;
      }
      Try(addr, ok);
      verdict := if ok then Taken else NotFound;
    }

    // `ok` is false when automatic connection or its lookup fails.
    method Try(addr: Address, ok: bool)
      requires conn == None
      modifies this
      ensures View() == TryConnect(old(View()), addr, ok)
    {
      Attempt();
      if ok {
        log := log.(armed := true);
        conn, due := Some(addr), due + {Timeout};
      } else {
        stage := Idle;
        RetryLater();
      }
    }

    method Attempt()
      modifies this`newCandidate, this`candidateBonded, this`failure, this`scanWanted, this`stage, this`log
      ensures View() == Attempted(old(View()))
    {
      newCandidate, candidateBonded, failure, scanWanted := !havePeer, false, false, false;
      stage, log := Connecting, log.(secured := false, armed := false, owed := false);
    }

    // The tail of `zmk_ble_mouse_advertisement`.
    method AdvertisedCallback(addr: Address)
      modifies this`request
      ensures View() == OnAdvertised(old(View()), addr)
    {
      if scanWanted && (if havePeer then addr == peer else pairing) {
        Post(addr);
      }
    }

    // `connect_work_cb`; `stopped` is false when the coordinator's own scan cannot be stopped.
    method ConnectWorkRun(stopped: bool, ok: bool)
      modifies this
      ensures View() == DoConnectWork(old(View()), stopped, ok)
    {
      if request == None {
        return;
      }
      var addr := request.value;
      request := None;
      if stopped {
        var _ := ConnectMouse(addr, ok);
      }
    }

    method ConnectedCallback(addr: Address, error: bool)
      modifies this`connectedError, this`due
      ensures View() == Perform(old(View()), ConnectedEvent(addr, error))
    {
      if conn == Some(addr) {
        connectedError := error;
        due := due + {Connected};
      }
    }

    method ConnectedWorkRun(answer: SecurityAnswer, host: Host)
      modifies this
      ensures View() == DoConnectedWork(old(View()), answer, host)
    {
      if conn != None {
        log := log.(armed := false);     // bt_le_set_auto_conn(..., NULL)
        OnConnection(answer, host);
      }
    }

    method OnConnection(answer: SecurityAnswer, host: Host)
      requires conn != None
      modifies this
      ensures View() == OnConnected(old(View()), answer, host)
    {
      if connectedError {
        Drop(host);
      } else if failure || stage == Closing {
        FailNow();
      } else {
        stage := Security;
        if answer == Refused {
          FailNow();
        } else if answer == AlreadySecure {
          stage, log := Service, log.(secured := true);
        }
      }
    }

    method Release()
      requires conn != None
      modifies this
      ensures View() == Released(old(View()))
    {
      log := log.(leaked := if Held(View()) then log.leaked + {conn.value} else log.leaked, armed := false, owed := false);
      conn, failure, stage, due := None, false, Idle, due - {Timeout};
    }

    // The end that both ways of losing the connection share.
    method Drop(host: Host)
      requires conn != None
      modifies this
      ensures View() == LetGo(old(View()), host)
    {
      Release();
      if forgetRequested {
        Forget(host);
      }
      RetryLater();
    }

    method DisconnectedCallback(addr: Address)
      modifies this`stage, this`scanWanted, this`due, this`log
      ensures View() == Perform(old(View()), DisconnectedEvent(addr))
    {
      if conn == Some(addr) {
        Close();
        due, log := due + {Disconnected}, log.(owed := false);
      }
    }

    // Only a bond made during this attempt is removed.
    method Unpair(host: Host)
      requires conn != None
      modifies this`bonds
      ensures View() == Unpaired(old(View()), host)
    {
      if newCandidate && candidateBonded && host.unpairOk {
        bonds := bonds - {conn.value};
      }
    }

    method DisconnectedWorkRun(host: Host)
      modifies this
      ensures View() == DoDisconnectedWork(old(View()), host)
    {
      if conn == None {
        return;
      }
      Unpair(host);
      Drop(host);
      candidateBonded := false;
    }

    method Close()
      modifies this`stage, this`scanWanted
      ensures View() == Closed(old(View()))
    {
      stage, scanWanted := Closing, false;
    }

    method FailureWorkRun(disconnect: DisconnectAnswer, host: Host)
      modifies this
      ensures View() == DoFailureWork(old(View()), disconnect, host)
    {
      Close();
      if conn == None {
        ReturnToIdle();
      } else if disconnect == NotConnected {
        DisconnectedWorkRun(host);
      } else {
        log := log.(owed := log.owed || disconnect == Accepted);
      }
    }

    method ReturnToIdle()
      modifies this`stage, this`failure, this`scanWanted, this`due
      ensures View() == BackToIdle(old(View()))
    {
      stage, failure := Idle, false;
      RetryLater();
    }

    // ---- Security and set-up

    method SecurityCallback(addr: Address, error: bool, secure: bool)
      modifies this`failure, this`due, this`stage, this`log
      ensures View() == OnSecurityChanged(old(View()), addr, error, secure)
    {
      if conn != Some(addr) || failure || stage == Closing {
        return;
      }
      if error {
        FailNow();
      } else if secure {
        log := log.(secured := true);
        if stage == Security {
          stage := Service;
        }
      }
    }

    // The host has stored the bond, if there is one.
    method PairingCompleteCallback(addr: Address, bonded: bool)
      modifies this
      ensures View() == OnPairingComplete(old(View()), addr, bonded)
    {
      if conn == Some(addr) {
        candidateBonded := bonded;
        if bonded {
          bonds := bonds + {addr};
        } else {
          FailNow();
        }
      }
    }

    method PairingFailedCallback(addr: Address)
      modifies this`failure, this`due
      ensures View() == Perform(old(View()), PairingFailed(addr))
    {
      if conn == Some(addr) {
        FailNow();
      }
    }

    method FinishReady(covered: bool, saveOk: bool)
      requires conn != None && !failure && stage == Subscriptions
      modifies this
      ensures View() == Finish(old(View()), covered, saveOk)
    {
      if !covered || (newCandidate && !candidateBonded) {
        FailNow();
        return;
      }
      if newCandidate {
        if conn.value !in bonds || !saveOk {
          FailNow();
          return;
        }
        Adopt();
      }
      pairing, stage, due := false, Ready, due - {PairTimeout, Timeout};
    }

    method Adopt()
      requires conn != None
      modifies this`saved, this`peer, this`havePeer, this`newCandidate
      ensures View() == old(View()).(saved := conn, peer := conn.value, havePeer := true, newCandidate := false)
    {
      saved, peer, havePeer, newCandidate := conn, conn.value, true, false;
    }

    method TimeoutWorkRun()
      modifies this`failure, this`due
      ensures View() == Perform(old(View()), TimeoutWork)
    {
      if conn != None && stage != Ready {
        FailNow();
      }
    }

    // ---- Pairing and clearing

    method PairTimeoutRun()
      modifies this
      ensures View() == DoPairTimeout(old(View()))
    {
      pairing := false;
      if conn != None && newCandidate && stage != Ready {
        FailNow();
      }
      RetryWorkRun();
    }

    method PairWorkRun()
      modifies this
      ensures View() == DoPairWork(old(View()))
    {
      if conn != None {
        return;
      }
      if havePeer {
        RetryWorkRun();
        return;
      }
      if |bonds| >= capacity {
        return;
      }
      pairing := true;
      due := due + {PairTimeout};
      RetryWorkRun();
    }

    method ClearHoldCallback(pressed: bool)
      modifies this`clearHeld, this`due
      ensures View() == Perform(old(View()), ClearHold(pressed))
    {
      clearHeld := pressed;
      due := if pressed then due + {Clear} else due - {Clear};
    }

    method ClearWorkRun(host: Host)
      modifies this
      ensures View() == DoClearWork(old(View()), host)
    {
      if !clearHeld {
        return;
      }
      RequestClear();
      if conn != None {
        FailNow();
      } else {
        Forget(host);
      }
    }

    method RequestClear()
      modifies this`pairing, this`scanWanted, this`forgetRequested
      ensures View() == old(View()).(pairing := false, scanWanted := false, forgetRequested := true)
    {
      pairing, scanWanted, forgetRequested := false, false, true;
    }

    // ---- Everything that happens to the client, one handler at a time

    // The set-up handlers of this file are in their own class; here is what they tell the client.
    method SetupRun(a: Action)
      requires FromSetup(a)
      modifies this
      ensures View() == Perform(old(View()), a)
    {
      if conn == None || failure || stage == Closing {
        return;
      }
      if a.SetupAdvances? {
        stage := After(stage);
      } else if a.SetupFails? {
        FailNow();
      } else if stage == Subscriptions {
        FinishReady(a.covered, a.saveOk);
      }
    }

    // Another part of the keyboard pairs or unpairs.
    method OthersRun(a: Action)
      requires OfOthers(a)
      modifies this
      ensures View() == Perform(old(View()), a)
    {
      match a {
        case OthersBond(addr) =>
          bonds, log := bonds + {addr}, log.(others := log.others + {addr});
        case OthersUnbond(addr) =>
          bonds := bonds - {addr};
          log := log.(others := log.others - {addr}, leaked := log.leaked - {addr});
      }
    }

    method CallbackRun(a: Action)
      requires !IsWork(a) && !OfOthers(a)
      modifies this
      ensures View() == Perform(old(View()), a)
    {
      match a {
        case Advertised(addr) => AdvertisedCallback(addr);
        case ConnectWork(stopped, ok) => ConnectWorkRun(stopped, ok);
        case ConnectedEvent(addr, error) => ConnectedCallback(addr, error);
        case DisconnectedEvent(addr) => DisconnectedCallback(addr);
        case SecurityChanged(addr, error, secure) => SecurityCallback(addr, error, secure);
        case PairingComplete(addr, bonded) => PairingCompleteCallback(addr, bonded);
        case PairingFailed(addr) => PairingFailedCallback(addr);
        case PairRequest => due := due + {Pair};
        case ClearHold(pressed) => ClearHoldCallback(pressed);
        case SetupAdvances => SetupRun(a);
        case SetupFails => SetupRun(a);
        case SetupFinishes(_, _) => SetupRun(a);
      }
    }

    method WorkRun(a: Action)
      requires IsWork(a)
      modifies this
      ensures View() == Perform(old(View()), a)
    {
      match a {
        case ConnectedWork(answer, host) => ConnectedWorkRun(answer, host);
        case DisconnectedWork(host) => DisconnectedWorkRun(host);
        case FailureWork(disconnect, host) => FailureWorkRun(disconnect, host);
        case RetryWork => RetryWorkRun();
        case TimeoutWork => TimeoutWorkRun();
        case PairTimeoutWork => PairTimeoutRun();
        case PairWork => PairWorkRun();
        case ClearWork(host) => ClearWorkRun(host);
      }
    }

    method Dispatch(a: Action)
      modifies this
      ensures View() == Perform(old(View()), a)
    {
      if OfOthers(a) {
        OthersRun(a);
      } else if !IsWork(a) {
        CallbackRun(a);
      } else {
        WorkRun(a);
      }
    }

    // The work queue takes the item that is about to run.
    method Take(a: Action)
      modifies this`due
      ensures View() == Called(old(View()), a)
    {
      if IsWork(a) {
        due := due - {JobFor(a)};
      }
    }

    /** One turn: whatever may happen next, its handler takes the step of the machine and keeps its invariant. */
    method Handle(a: Action)
      requires Inv(View()) && Possible(View(), a)
      modifies this
      ensures View() == Step(old(View()), a) && Inv(View())
    {
      StepKeepsInv(View(), a);
      Take(a);
      Dispatch(a);
    }
  }
}
