/**
 The client's life (src/ble_mouse.c): connecting, pairing, failing and forgetting. One handler is one
 step; a work item runs only while it is due, and delayed work fires at any time once scheduled.
 */
module MouseClient {

  type Address(==, !new)

  datatype Option<T> = None | Some(value: T)

  datatype Stage =
    | Idle | Connecting | Security | Service | Characteristics | Descriptors
    | ReportMap | References | Protocol | Subscriptions | Ready | Closing

  datatype Work = Connected | Disconnected | Failure | Retry | Timeout | PairTimeout | Pair | Clear

  datatype Client = Client(
    stage: Stage,
    conn: Option<Address>,           // mouse_conn
    failure: bool,
    pairing: bool,                   // the pairing window is open
    havePeer: bool,
    peer: Address,
    scanWanted: bool,
    clearHeld: bool,
    forgetRequested: bool,
    newCandidate: bool,
    candidateBonded: bool,
    connectedError: bool,
    due: set<Work>,
    request: Option<Address>,        // the coordinator's mailbox: an address to connect to
    // The Bluetooth host and the settings.
    bonds: set<Address>,
    saved: Option<Address>,
    capacity: nat,                   // CONFIG_BT_MAX_PAIRED
    log: Log)

  // The host's side, and history; no handler reads any of it.
  datatype Log = Log(
    others: set<Address>,            // bonds that are none of this client's making
    leaked: set<Address>,            // candidates given up with their bond still there
    secured: bool,                   // this connection has reached encryption
    armed: bool,                     // automatic connection is on: a connection may be reported
    owed: bool)                      // a disconnection has been accepted and is still to be reported

  // What the host answers when bonds and settings are removed.
  datatype Host = Host(unpairOk: bool, forgetOk: bool, deleteOk: bool)

  datatype SecurityAnswer = Refused | Started | AlreadySecure

  datatype DisconnectAnswer = Accepted | NotConnected | Rejected

  datatype Action =
    | Advertised(addr: Address)      // an advertisement that calls for a connection
    | ConnectWork(stopped: bool, ok: bool)   // the coordinator: its scan has stopped; automatic connection took
    | ConnectedEvent(addr: Address, error: bool)
    | ConnectedWork(answer: SecurityAnswer, host: Host)
    | DisconnectedEvent(addr: Address)
    | DisconnectedWork(host: Host)
    | SecurityChanged(addr: Address, error: bool, secure: bool)
    | PairingComplete(addr: Address, bonded: bool)
    | PairingFailed(addr: Address)
    | SetupAdvances                  // `next_stage`, from the discovery worker or its callbacks
    | SetupFails
    | SetupFinishes(covered: bool, saveOk: bool)
    | FailureWork(disconnect: DisconnectAnswer, host: Host)
    | RetryWork
    | TimeoutWork
    | PairTimeoutWork
    | PairRequest
    | PairWork
    | ClearHold(pressed: bool)
    | ClearWork(host: Host)
    | OthersBond(addr: Address)      // another part of the keyboard
    | OthersUnbond(addr: Address)

  function Begin(saved: Option<Address>, anyone: Address, bonds: set<Address>, capacity: nat): Client {
    var mine := if saved.Some? then {saved.value} else {};
    Client(Idle, None, false, false, saved.Some?, if saved.Some? then saved.value else anyone, false, false, false,
           false, false, false, {Retry}, None, bonds, saved, capacity, Log(bonds - mine, {}, false, false, false))
  }

  // ---- Common parts

  // The addresses of the saved mouse and of the candidate being tried.
  function Mine(s: Client): set<Address> {
    Single(if s.havePeer then Some(s.peer) else None) + Single(if s.newCandidate then s.conn else None)
  }

  function Single(addr: Option<Address>): set<Address> {
    if addr == None then {} else {addr.value}
  }

  // The candidate being tried has a bond.
  predicate Held(s: Client) {
    s.conn != None && s.newCandidate && s.conn.value in s.bonds
  }

  // No peer is adopted, and the bonds of others are not touched.
  predicate Modest(s: Client, r: Client) {
    r.peer == s.peer && (r.havePeer ==> s.havePeer) && r.capacity == s.capacity && r.log.others == s.log.others
  }

  predicate Tidy(s: Client, r: Client) {
    Modest(s, r) && r.log.leaked == s.log.leaked
  }

  predicate Owns(s: Client, addr: Address) {
    s.conn == Some(addr)
  }

  predicate ValidCallback(s: Client, addr: Address) {
    Owns(s, addr) && !s.failure && s.stage != Closing
  }

  function Fail(s: Client): (r: Client)
    ensures Tidy(s, r)
  {
    s.(failure := true, due := s.due + {Failure})
  }

  function RequestRetry(s: Client): (r: Client)
    ensures Tidy(s, r)
  {
    s.(scanWanted := false, due := s.due + {Retry})
  }

  // `zmk_ble_central_connect`: one request at a time.
  function Posted(s: Client, addr: Address): (r: Client)
    ensures r == s.(request := r.request)
  {
    if s.request == None then s.(request := Some(addr)) else s
  }

  predicate Wanted(s: Client) {
    s.conn == None && (s.havePeer || s.pairing) && (s.havePeer ==> s.peer in s.bonds)
  }

  function Rescan(s: Client): (r: Client)
    ensures Tidy(s, r) && r == s.(scanWanted := Wanted(s), request := r.request)
  {
    var s := s.(scanWanted := Wanted(s));
    if s.scanWanted && s.havePeer then Posted(s, s.peer) else s
  }

  function ForgetPeer(s: Client, host: Host): (r: Client)
    ensures Tidy(s, r)
  {
    var s := s.(pairing := false, scanWanted := false, forgetRequested := false, due := s.due - {PairTimeout});
    if !s.havePeer || !host.forgetOk then s
    else s.(bonds := s.bonds - {s.peer}, havePeer := false, saved := if host.deleteOk then None else s.saved)
  }

  // The connection is dropped; a candidate's bond that is still there stays behind.
  function Released(s: Client): (r: Client)
    ensures Modest(s, r) && r.conn == None && r.log.leaked == s.log.leaked + if Held(s) then {s.conn.value} else {}
  {
    s.(conn := None, failure := false, stage := Idle, due := s.due - {Timeout},
       log := s.log.(leaked := if Held(s) then s.log.leaked + {s.conn.value} else s.log.leaked,
                     armed := false, owed := false))
  }

  function ForgetIfRequested(s: Client, host: Host): (r: Client)
    ensures Tidy(s, r) && r.conn == s.conn
  {
    if s.forgetRequested then ForgetPeer(s, host) else s
  }

  function LetGo(s: Client, host: Host): (r: Client)
    ensures Modest(s, r) && r.conn == None && r.log.leaked == s.log.leaked + if Held(s) then {s.conn.value} else {}
  {
    RequestRetry(ForgetIfRequested(Released(s), host))
  }

  // ---- Connecting

  datatype Verdict = Taken | Already | Canceled | NoMemory | NotFound

  function ConnectVerdict(s: Client, addr: Address, ok: bool): Verdict {
    if s.conn != None || !s.scanWanted then Already
    else if if s.havePeer then addr != s.peer else !s.pairing then Canceled
    else if !s.havePeer && addr in s.bonds then Already
    else if !s.havePeer && |s.bonds| >= s.capacity then NoMemory
    else if ok then Taken
    else NotFound
  }

  function DoConnect(s: Client, addr: Address, ok: bool): (r: Client)
    ensures Tidy(s, r)
  {
    match ConnectVerdict(s, addr, ok)
    case Already => s
    case Canceled => s
    case NoMemory => s.(pairing := false, scanWanted := false)
    case Taken => TryConnect(s, addr, true)
    case NotFound => TryConnect(s, addr, false)
  }

  function TryConnect(s: Client, addr: Address, ok: bool): (r: Client)
    ensures Tidy(s, r)
  {
    if ok then Armed(Attempted(s)).(conn := Some(addr), due := s.due + {Timeout})
    else RequestRetry(Attempted(s).(stage := Idle))
  }

  function Attempted(s: Client): Client {
    s.(newCandidate := !s.havePeer, candidateBonded := false, failure := false, scanWanted := false,
       stage := Connecting, log := s.log.(secured := false, armed := false, owed := false))
  }

  function Armed(s: Client): Client {
    s.(log := s.log.(armed := true))
  }

  function Disarmed(s: Client): (r: Client)
    ensures Tidy(s, r) && Held(r) == Held(s)
  {
    s.(log := s.log.(armed := false))
  }

  // `zmk_ble_mouse_advertisement`, once the advertisement has called for a connection.
  function OnAdvertised(s: Client, addr: Address): Client {
    if s.scanWanted && (if s.havePeer then addr == s.peer else s.pairing) then Posted(s, addr) else s
  }

  // `connect_work_cb` of the coordinator.
  function DoConnectWork(s: Client, stopped: bool, ok: bool): (r: Client)
    ensures Tidy(s, r)
  {
    if s.request == None then s
    else if stopped then DoConnect(s.(request := None), s.request.value, ok)
    else s.(request := None)
  }

  function DoConnectedWork(s: Client, answer: SecurityAnswer, host: Host): (r: Client)
    ensures Modest(s, r)
    ensures r.log.leaked == s.log.leaked + if Held(s) && s.connectedError then {s.conn.value} else {}
  {
    if s.conn == None then s else OnConnected(Disarmed(s), answer, host)
  }

  function OnConnected(s: Client, answer: SecurityAnswer, host: Host): (r: Client)
    requires s.conn != None
    ensures Modest(s, r)
    ensures r.log.leaked == s.log.leaked + if Held(s) && s.connectedError then {s.conn.value} else {}
  {
    if s.connectedError then LetGo(s, host)
    else if s.failure || s.stage == Closing then Fail(s)
    else StartSecurity(s, answer)
  }

  function StartSecurity(s: Client, answer: SecurityAnswer): (r: Client)
    ensures Tidy(s, r)
  {
    match answer
    case Refused => Fail(s.(stage := Security))
    case Started => s.(stage := Security)
    case AlreadySecure => s.(stage := Service, log := s.log.(secured := true))
  }

  function DoDisconnectedWork(s: Client, host: Host): (r: Client)
    ensures Modest(s, r)
    ensures r.log.leaked == s.log.leaked + if Held(s) && !(s.candidateBonded && host.unpairOk) then {s.conn.value} else {}
  {
    if s.conn == None then s else LetGo(Unpaired(s, host), host).(candidateBonded := false)
  }

  // Only a bond made during this attempt is removed.
  function Unpaired(s: Client, host: Host): (r: Client)
    ensures Tidy(s, r) && Held(r) == (Held(s) && !(s.candidateBonded && host.unpairOk))
  {
    if s.conn != None && s.newCandidate && s.candidateBonded && host.unpairOk
    then s.(bonds := s.bonds - {s.conn.value}) else s
  }

  function Closed(s: Client): Client {
    s.(stage := Closing, scanWanted := false)
  }

  function BackToIdle(s: Client): (r: Client)
    ensures Tidy(s, r)
  {
    RequestRetry(s.(stage := Idle, failure := false))
  }

  function DoFailureWork(s: Client, disconnect: DisconnectAnswer, host: Host): (r: Client)
    ensures Modest(s, r)
    ensures r.log.leaked == s.log.leaked + if Held(s) && disconnect == NotConnected && !(s.candidateBonded && host.unpairOk)
                                  then {s.conn.value} else {}
  {
    var s := Closed(s);
    if s.conn == None then BackToIdle(s)
    else if disconnect == NotConnected then DoDisconnectedWork(s, host)
    else s.(log := s.log.(owed := s.log.owed || disconnect == Accepted))
  }

  function OnConnectedEvent(s: Client, addr: Address, error: bool): (r: Client)
    ensures Tidy(s, r)
  {
    if Owns(s, addr) then s.(connectedError := error, due := s.due + {Connected}) else s
  }

  function OnDisconnectedEvent(s: Client, addr: Address): (r: Client)
    ensures Tidy(s, r)
  {
    if Owns(s, addr) then Closed(s).(due := s.due + {Disconnected}, log := s.log.(owed := false)) else s
  }

  // ---- Security and set-up

  function OnPairingComplete(s: Client, addr: Address, bonded: bool): (r: Client)
    ensures Tidy(s, r)
  {
    if !Owns(s, addr) then s
    else if bonded then s.(candidateBonded := true, bonds := s.bonds + {addr})
    else Fail(s.(candidateBonded := false))
  }

  function OnSecurityChanged(s: Client, addr: Address, error: bool, secure: bool): (r: Client)
    ensures Tidy(s, r)
  {
    if !ValidCallback(s, addr) then s
    else if error then Fail(s)
    else if secure then s.(stage := if s.stage == Security then Service else s.stage, log := s.log.(secured := true))
    else s
  }

  predicate InSetup(s: Client) {
    s.conn != None && !s.failure && s.stage != Closing
  }

  function After(stage: Stage): Stage {
    match stage
    case Service => Characteristics
    case Characteristics => Descriptors
    case Descriptors => ReportMap
    case ReportMap => References
    case References => Protocol
    case Protocol => Subscriptions
    case _ => stage
  }

  function Finish(s: Client, covered: bool, saveOk: bool): (r: Client)
    ensures r.log.others == s.log.others && r.log.leaked == s.log.leaked
    ensures r.capacity == s.capacity
  {
    if !covered || (s.newCandidate && !s.candidateBonded) then Fail(s)
    else if s.newCandidate && (s.conn == None || s.conn.value !in s.bonds || !saveOk) then Fail(s)
    else
      var s := if !s.newCandidate then s
               else s.(saved := s.conn, peer := s.conn.value, havePeer := true, newCandidate := false);
      s.(pairing := false, stage := Ready, due := s.due - {PairTimeout, Timeout})
  }

  // ---- Pairing and clearing

  function FailCandidate(s: Client): (r: Client)
    ensures Tidy(s, r)
  {
    if s.conn != None && s.newCandidate && s.stage != Ready then Fail(s) else s
  }

  function DoPairTimeout(s: Client): (r: Client)
    ensures Tidy(s, r)
  {
    Rescan(FailCandidate(s.(pairing := false)))
  }

  function DoPairWork(s: Client): (r: Client)
    ensures Tidy(s, r)
  {
    if s.conn != None then s
    else if s.havePeer then Rescan(s)
    else if |s.bonds| >= s.capacity then s
    else Rescan(s.(pairing := true, due := s.due + {PairTimeout}))
  }

  function DoClearWork(s: Client, host: Host): (r: Client)
    ensures Tidy(s, r)
  {
    if !s.clearHeld then s
    else
      var s := s.(pairing := false, scanWanted := false, forgetRequested := true);
      if s.conn != None then Fail(s) else ForgetPeer(s, host)
  }

  // ---- Another part of the keyboard

  function OthersBonded(s: Client, addr: Address): Client {
    s.(bonds := s.bonds + {addr}, log := s.log.(others := s.log.others + {addr}))
  }

  function OthersUnbonded(s: Client, addr: Address): Client {
    s.(bonds := s.bonds - {addr}, log := s.log.(others := s.log.others - {addr}, leaked := s.log.leaked - {addr}))
  }

  // ---- Steps

  predicate IsWork(a: Action) {
    a.ConnectedWork? || a.DisconnectedWork? || a.FailureWork? || a.RetryWork? || a.TimeoutWork?
    || a.PairTimeoutWork? || a.PairWork? || a.ClearWork?
  }

  function JobFor(a: Action): Work
    requires IsWork(a)
  {
    match a
    case ConnectedWork(_, _) => Connected
    case DisconnectedWork(_) => Disconnected
    case FailureWork(_, _) => Failure
    case RetryWork => Retry
    case TimeoutWork => Timeout
    case PairTimeoutWork => PairTimeout
    case PairWork => Pair
    case ClearWork(_) => Clear
  }

  // The host's callbacks.
  predicate FromHost(a: Action) {
    a.ConnectedEvent? || a.DisconnectedEvent? || a.SecurityChanged? || a.PairingComplete? || a.PairingFailed?
  }

  predicate FromSetup(a: Action) {
    a.SetupAdvances? || a.SetupFails? || a.SetupFinishes?
  }

  predicate OfOthers(a: Action) {
    a.OthersBond? || a.OthersUnbond?
  }

  // What the environment may do: nobody else pairs with the mouse, a pairing that made no bond finds none, and
  // a connection is reported only while automatic connection is on.
  predicate Plausible(s: Client, a: Action) {
    match a
    case OthersBond(addr) => addr !in Mine(s)
    case PairingComplete(addr, bonded) => bonded || addr !in s.bonds
    case ConnectedEvent(_, _) => s.log.armed
    case ConnectWork(_, _) => s.request != None
    case _ => true
  }

  predicate Possible(s: Client, a: Action) {
    (IsWork(a) ==> JobFor(a) in s.due) && Plausible(s, a)
  }

  function WorkRuns(s: Client, a: Action): Client
    requires IsWork(a)
  {
    match a
    case ConnectedWork(answer, host) => DoConnectedWork(s, answer, host)
    case DisconnectedWork(host) => DoDisconnectedWork(s, host)
    case FailureWork(disconnect, host) => DoFailureWork(s, disconnect, host)
    case RetryWork => Rescan(s)
    case TimeoutWork => if s.conn != None && s.stage != Ready then Fail(s) else s
    case PairTimeoutWork => DoPairTimeout(s)
    case PairWork => DoPairWork(s)
    case ClearWork(host) => DoClearWork(s, host)
  }

  function HostCalls(s: Client, a: Action): Client
    requires FromHost(a)
  {
    match a
    case ConnectedEvent(addr, error) => OnConnectedEvent(s, addr, error)
    case DisconnectedEvent(addr) => OnDisconnectedEvent(s, addr)
    case SecurityChanged(addr, error, secure) => OnSecurityChanged(s, addr, error, secure)
    case PairingComplete(addr, bonded) => OnPairingComplete(s, addr, bonded)
    case PairingFailed(addr) => if Owns(s, addr) then Fail(s) else s
  }

  function SetupMoves(s: Client, a: Action): Client
    requires FromSetup(a)
  {
    if !InSetup(s) then s
    else
      match a
      case SetupAdvances => s.(stage := After(s.stage))
      case SetupFails => Fail(s)
      case SetupFinishes(covered, saveOk) => if s.stage == Subscriptions then Finish(s, covered, saveOk) else s
  }

  function RestMoves(s: Client, a: Action): Client
    requires !IsWork(a) && !FromHost(a) && !FromSetup(a)
  {
    match a
    case Advertised(addr) => OnAdvertised(s, addr)
    case ConnectWork(stopped, ok) => DoConnectWork(s, stopped, ok)
    case PairRequest => s.(due := s.due + {Pair})
    case ClearHold(pressed) =>
      s.(clearHeld := pressed, due := if pressed then s.due + {Clear} else s.due - {Clear})
    case OthersBond(addr) => OthersBonded(s, addr)
    case OthersUnbond(addr) => OthersUnbonded(s, addr)
  }

  function Perform(s: Client, a: Action): Client {
    if IsWork(a) then WorkRuns(s, a)
    else if FromHost(a) then HostCalls(s, a)
    else if FromSetup(a) then SetupMoves(s, a)
    else RestMoves(s, a)
  }

  // The work item that runs is no longer due.
  function Called(s: Client, a: Action): Client {
    if IsWork(a) then s.(due := s.due - {JobFor(a)}) else s
  }

  function Step(s: Client, a: Action): Client {
    if Possible(s, a) then Perform(Called(s, a), a) else s
  }

  function Run(s: Client, actions: seq<Action>): Client {
    if actions == [] then s else Step(Run(s, actions[..|actions| - 1]), actions[|actions| - 1])
  }
}
