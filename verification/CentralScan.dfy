/**
 The radio coordinator of src/central_scan.c at the granularity of its atomics: the module's worker
 and one Bluetooth callback thread share a scanner that other code uses too.
 */
module CentralScan {

  type Addr = nat

  // Who is scanning.
  datatype Scanner = Free | Mine | Other

  // `stop_own_scan`, step by step.
  datatype Stopping =
    | Cas         // compare-and-swap scan_owned from 1 to 0
    | Halt        // the swap succeeded: call bt_le_scan_stop
    | Restore     // the stop failed: set scan_owned again

  // Why scan_work stops its scan; it is scheduled again unless the scan is not wanted.
  datatype Reason = Unwanted | NotReady | Rechecked

  // Posting a connection request: `zmk_ble_central_connect`.
  datatype Posting = Claim(addr: Addr) | Fill(addr: Addr) | Announce

  datatype WorkerPc =
    | Idle
    | ReadConnecting
    | ReadWanted
    | ReadTransport(rechecking: bool)        // the status of the split transports
    | ReadSettling(rechecking: bool)
    | ReadOwned
    | StartScan
    | SetOwned
    | StopScan(step: Stopping, why: Reason)          // in scan_work
    | StopToConnect(step: Stopping)                  // in connect_work
    | TakeRequest
    | ClearConnecting(failed: bool)
    | ClearSettling
    | SetWanted(wants: bool, saved: bool, addr: Addr)   // in retry_work
    | WorkerPost(post: Posting)                      // in retry_work
    | ScheduleScan                                   // the last step of every handler but two

  datatype CallbackPc =
    | Waiting
    | SetSettling
    | StopNow(step: Stopping)
    | ScheduleSettle
    | CallbackPost(post: Posting)                    // in the advertising callback

  datatype Shared = Shared(
    wanted: bool,              // scan_wanted
    owned: bool,               // scan_owned
    settling: bool,            // split_settling
    connecting: bool,
    address: Addr,             // pending_address
    submitted: bool,           // connect_work
    scanDue: bool,             // scan_work is scheduled
    settleDue: bool,           // settle_work is scheduled
    initialized: bool,
    scanner: Scanner,
    log: Log)

  // History.
  datatype Log = Log(
    restored: bool,            // scan_owned has been set by a stop that failed, and not cleared since
    lost: bool,                // the latest schedule of settle_work came before initialization, and was dropped
    claimed: Addr,             // the address of the latest successful claim
    taken: seq<(Addr, Addr)>)  // requests taken: the address used, and the one claimed

  datatype Radio = Radio(shared: Shared, worker: WorkerPc, callback: CallbackPc)

  const NOTHING := Shared(false, false, false, false, 0, false, false, false, false, Free, Log(false, false, 0, []))

  const INITIAL := Radio(NOTHING, Idle, Waiting)

  // `retry_work` finds out whether a scan is wanted, and whether there is a saved mouse to connect to.
  datatype Handler = ScanWork | ConnectWork | SettleWork | RetryWork(wants: bool, saved: bool, addr: Addr)
  datatype Event = ConnectionChanged | Advertised(addr: Addr)

  // `ok` is what the environment answers where it is asked: ready transports, or a call that succeeds.
  datatype Action =
    | Run(handler: Handler)
    | WorkerStep(ok: bool)
    | Raise(event: Event)
    | CallbackStep(ok: bool)
    | OtherStarts
    | OtherStops
    | Refresh                  // `zmk_ble_central_scan_refresh`, from the client's other handlers
    | Unwant                   // any thread of the client clears scan_wanted
    | Initialize

  // ---- The shared pieces

  function Claimed(s: Shared, addr: Addr): Shared {
    s.(connecting := true, log := s.log.(claimed := addr))
  }

  function Post(s: Shared, p: Posting): Shared {
    match p
    case Claim(a) => if !s.initialized || s.connecting then s else Claimed(s, a)
    case Fill(a) => s.(address := a)
    case Announce => s.(submitted := true)
  }

  // The next step, if any.
  function PostNext(s: Shared, p: Posting): seq<Posting> {
    match p
    case Claim(a) => if !s.initialized || s.connecting then [] else [Fill(a)]
    case Fill(_) => [Announce]
    case Announce => []
  }

  function Owned(s: Shared, owned: bool, restored: bool): Shared {
    s.(owned := owned, log := s.log.(restored := restored))
  }

  function Stop(s: Shared, step: Stopping, ok: bool): Shared {
    match step
    case Cas => if s.owned then Owned(s, false, false) else s
    case Halt => if ok then s.(scanner := Free) else s
    case Restore => Owned(s, true, true)
  }

  function StopNext(s: Shared, step: Stopping, ok: bool): seq<Stopping> {
    match step
    case Cas => if s.owned then [Halt] else []
    case Halt => if ok then [] else [Restore]
    case Restore => []
  }

  // A connection that is taken up leaves no scan wanted.
  function Taken(s: Shared, ok: bool): Shared {
    s.(wanted := s.wanted && !ok, log := s.log.(taken := s.log.taken + [(s.address, s.log.claimed)]))
  }

  // `zmk_ble_mouse_schedule`: before initialization nothing is scheduled.
  function ScanDue(s: Shared): Shared {
    if s.initialized then s.(scanDue := true) else s
  }

  function SettleDue(s: Shared): Shared {
    if s.initialized then s.(settleDue := true, log := s.log.(lost := false)) else s.(log := s.log.(lost := true))
  }

  // ---- The threads

  function ConnectingRead(r: Radio): Radio
    requires r.worker == ReadConnecting
  {
    r.(worker := if r.shared.connecting then Idle else ReadWanted)
  }

  function WantedRead(r: Radio): Radio
    requires r.worker == ReadWanted
  {
    r.(worker := if r.shared.wanted then ReadTransport(false) else StopScan(Cas, Unwanted))
  }

  function TransportRead(r: Radio, re: bool, ok: bool): Radio
    requires r.worker == ReadTransport(re)
  {
    r.(worker := if ok then ReadSettling(re) else StopScan(Cas, if re then Rechecked else NotReady))
  }

  function SettlingRead(r: Radio, re: bool): Radio
    requires r.worker == ReadSettling(re)
  {
    r.(worker := if r.shared.settling then StopScan(Cas, if re then Rechecked else NotReady)
                 else if re then Idle else ReadOwned)
  }

  function OwnedRead(r: Radio): Radio
    requires r.worker == ReadOwned
  {
    r.(worker := if r.shared.owned then Idle else StartScan)
  }

  function ScanStarted(r: Radio, ok: bool): Radio
    requires r.worker == StartScan
  {
    if ok && r.shared.scanner == Free then r.(shared := r.shared.(scanner := Mine), worker := SetOwned)
    else r.(worker := ScheduleScan)
  }

  function OwnedSet(r: Radio): Radio
    requires r.worker == SetOwned
  {
    r.(shared := Owned(r.shared, true, false), worker := ReadTransport(true))
  }

  function ScanStopped(r: Radio, step: Stopping, why: Reason, ok: bool): Radio
    requires r.worker == StopScan(step, why)
  {
    var next := StopNext(r.shared, step, ok);
    r.(shared := Stop(r.shared, step, ok),
       worker := if next != [] then StopScan(next[0], why) else if why == Unwanted then Idle else ScheduleScan)
  }

  function StoppedToConnect(r: Radio, step: Stopping, ok: bool): Radio
    requires r.worker == StopToConnect(step)
  {
    var next := StopNext(r.shared, step, ok);
    r.(shared := Stop(r.shared, step, ok),
       worker := if next != [] then StopToConnect(next[0])
                 else if step == Restore then ClearConnecting(true) else TakeRequest)
  }

  function RequestTaken(r: Radio, ok: bool): Radio
    requires r.worker == TakeRequest
  {
    r.(shared := Taken(r.shared, ok), worker := ClearConnecting(!ok))
  }

  function ConnectingCleared(r: Radio, failed: bool): Radio
    requires r.worker == ClearConnecting(failed)
  {
    r.(shared := r.shared.(connecting := false), worker := if failed then ScheduleScan else Idle)
  }

  function SettlingCleared(r: Radio): Radio
    requires r.worker == ClearSettling
  {
    r.(shared := r.shared.(settling := false), worker := ScheduleScan)
  }

  function WantedSet(r: Radio, wants: bool, saved: bool, addr: Addr): Radio
    requires r.worker == SetWanted(wants, saved, addr)
  {
    r.(shared := r.shared.(wanted := wants), worker := if wants && saved then WorkerPost(Claim(addr)) else ScheduleScan)
  }

  function WorkerPosted(r: Radio, p: Posting): Radio
    requires r.worker == WorkerPost(p)
  {
    var next := PostNext(r.shared, p);
    r.(shared := Post(r.shared, p), worker := if next == [] then ScheduleScan else WorkerPost(next[0]))
  }

  function ScanScheduled(r: Radio): Radio
    requires r.worker == ScheduleScan
  {
    r.(shared := ScanDue(r.shared), worker := Idle)
  }

  function WorkerMove(r: Radio, ok: bool): Radio {
    match r.worker
    case Idle => r
    case ReadConnecting => ConnectingRead(r)
    case ReadWanted => WantedRead(r)
    case ReadTransport(re) => TransportRead(r, re, ok)
    case ReadSettling(re) => SettlingRead(r, re)
    case ReadOwned => OwnedRead(r)
    case StartScan => ScanStarted(r, ok)
    case SetOwned => OwnedSet(r)
    case StopScan(step, why) => ScanStopped(r, step, why, ok)
    case StopToConnect(step) => StoppedToConnect(r, step, ok)
    case TakeRequest => RequestTaken(r, ok)
    case ClearConnecting(failed) => ConnectingCleared(r, failed)
    case ClearSettling => SettlingCleared(r)
    case SetWanted(wants, saved, addr) => WantedSet(r, wants, saved, addr)
    case WorkerPost(p) => WorkerPosted(r, p)
    case ScheduleScan => ScanScheduled(r)
  }

  function SettlingSet(r: Radio): Radio
    requires r.callback == SetSettling
  {
    r.(shared := r.shared.(settling := true), callback := StopNow(Cas))
  }

  function StoppedNow(r: Radio, step: Stopping, ok: bool): Radio
    requires r.callback == StopNow(step)
  {
    var next := StopNext(r.shared, step, ok);
    r.(shared := Stop(r.shared, step, ok), callback := if next == [] then ScheduleSettle else StopNow(next[0]))
  }

  function SettleScheduled(r: Radio): Radio
    requires r.callback == ScheduleSettle
  {
    r.(shared := SettleDue(r.shared), callback := Waiting)
  }

  function CallbackPosted(r: Radio, p: Posting): Radio
    requires r.callback == CallbackPost(p)
  {
    var next := PostNext(r.shared, p);
    r.(shared := Post(r.shared, p), callback := if next == [] then Waiting else CallbackPost(next[0]))
  }

  function CallbackMove(r: Radio, ok: bool): Radio {
    match r.callback
    case Waiting => r
    case SetSettling => SettlingSet(r)
    case StopNow(step) => StoppedNow(r, step, ok)
    case ScheduleSettle => SettleScheduled(r)
    case CallbackPost(p) => CallbackPosted(r, p)
  }

  function Called(r: Radio, h: Handler): Radio
    requires r.worker == Idle
  {
    var s := r.shared;
    match h
    case ScanWork => if s.scanDue then r.(shared := s.(scanDue := false), worker := ReadConnecting) else r
    case ConnectWork => if s.submitted then r.(shared := s.(submitted := false), worker := StopToConnect(Cas)) else r
    case SettleWork => if s.settleDue then r.(shared := s.(settleDue := false), worker := ClearSettling) else r
    case RetryWork(wants, saved, addr) => r.(worker := SetWanted(wants, saved, addr))
  }

  function Raised(r: Radio, e: Event): Radio
    requires r.callback == Waiting
  {
    match e
    case ConnectionChanged => r.(callback := SetSettling)
    case Advertised(addr) => r.(callback := CallbackPost(Claim(addr)))
  }

  // What changes besides the two threads: other users of the scanner, and the rest of the client.
  function Around(s: Shared, a: Action): Shared {
    match a
    case OtherStarts => if s.scanner == Free then s.(scanner := Other) else s
    case OtherStops => if s.scanner == Other then s.(scanner := Free) else s
    case Refresh => ScanDue(s)
    case Unwant => s.(wanted := false)
    case Initialize => s.(initialized := true)
    case _ => s
  }

  function Step(r: Radio, a: Action): Radio {
    match a
    case Run(h) => if r.worker.Idle? && r.shared.initialized then Called(r, h) else r
    case WorkerStep(ok) => WorkerMove(r, ok)
    case Raise(e) => if r.callback.Waiting? then Raised(r, e) else r
    case CallbackStep(ok) => CallbackMove(r, ok)
    case _ => r.(shared := Around(r.shared, a))
  }

  function After(acts: seq<Action>): Radio {
    if acts == [] then INITIAL else Step(After(acts[..|acts| - 1]), acts[|acts| - 1])
  }

  // ---- One token for the module's scan

  function Count(b: bool): nat {
    if b then 1 else 0
  }

  predicate Holds(step: Stopping) {
    step == Halt || step == Restore
  }

  predicate WorkerHolds(pc: WorkerPc) {
    match pc
    case SetOwned => true
    case StopScan(step, _) => Holds(step)
    case StopToConnect(step) => Holds(step)
    case _ => false
  }

  predicate CallbackHolds(pc: CallbackPc) {
    pc.StopNow? && Holds(pc.step)
  }

  // Exactly one of the flag and the two threads answers for the module's scan, while there is one.
  ghost predicate TokenInv(r: Radio) {
    var s := r.shared;
    Count(s.owned) + Count(WorkerHolds(r.worker)) + Count(CallbackHolds(r.callback)) == Count(s.scanner == Mine)
  }

  // ---- The handshake

  // The worker has set scan_owned and not yet rechecked, or is about to stop after rechecking.
  predicate WorkerRechecks(pc: WorkerPc) {
    match pc
    case ReadTransport(re) => re
    case ReadSettling(re) => re
    case StopScan(step, why) => why == Rechecked && step == Cas
    case _ => false
  }

  ghost predicate HandshakeInv(r: Radio) {
    var s := r.shared;
    && (s.owned && s.settling ==> s.log.restored || WorkerRechecks(r.worker) || r.callback == StopNow(Cas))
    && (s.log.restored ==> s.owned)
  }

  // ---- The mailbox

  predicate Filling(p: Posting) {
    p.Fill? || p.Announce?
  }

  predicate WorkerFills(pc: WorkerPc) {
    pc.WorkerPost? && Filling(pc.post)
  }

  predicate CallbackFills(pc: CallbackPc) {
    pc.CallbackPost? && Filling(pc.post)
  }

  predicate Serving(pc: WorkerPc) {
    pc.StopToConnect? || pc.TakeRequest? || pc.ClearConnecting?
  }

  predicate Matches(r: Radio, p: Posting) {
    match p
    case Claim(_) => true
    case Fill(a) => a == r.shared.log.claimed
    case Announce => r.shared.address == r.shared.log.claimed
  }

  // `connecting` is held by exactly one poster, submitted request or request being served.
  ghost predicate MailInv(r: Radio) {
    var s := r.shared;
    && Count(WorkerFills(r.worker)) + Count(CallbackFills(r.callback)) + Count(s.submitted) + Count(Serving(r.worker))
       == Count(s.connecting)
    && (r.worker.WorkerPost? ==> Matches(r, r.worker.post))
    && (r.callback.CallbackPost? ==> Matches(r, r.callback.post))
    && (s.submitted || Serving(r.worker) ==> s.address == s.log.claimed)
    && forall k :: 0 <= k < |s.log.taken| ==> s.log.taken[k].0 == s.log.taken[k].1
  }

  // ---- What is still to come

  // The worker is before its schedule of scan_work, or before setting scan_owned.
  predicate WorkerReturns(pc: WorkerPc) {
    match pc
    case Idle => false
    case ReadTransport(re) => !re
    case ReadSettling(re) => !re
    case StopScan(_, why) => why != Unwanted
    case ClearConnecting(failed) => failed
    case _ => true
  }

  // The callback is before its schedule of settle_work.
  predicate CallbackReturns(pc: CallbackPc) {
    pc.SetSettling? || pc.StopNow? || pc.ScheduleSettle?
  }

  // A wanted scan is running, or something is to come that looks at it again.
  ghost predicate Pursued(r: Radio) {
    var s := r.shared;
    s.owned || s.scanDue || s.settleDue || s.connecting || WorkerReturns(r.worker) || CallbackReturns(r.callback)
  }

  ghost predicate WantInv(r: Radio) {
    && (r.shared.wanted ==> r.shared.initialized && Pursued(r))
    && (r.worker == ClearConnecting(false) || (r.worker.StopScan? && r.worker.why == Unwanted) ==> !r.shared.wanted)
    && (!r.shared.initialized ==> r.worker.Idle? && !r.shared.scanDue && !r.shared.connecting)
  }

  // ---- The end of settling

  ghost predicate SettleInv(r: Radio) {
    var s := r.shared;
    && (s.settling ==> s.settleDue || r.worker == ClearSettling || CallbackReturns(r.callback) || s.log.lost)
    && (s.log.lost ==> s.settling && !s.settleDue && r.worker != ClearSettling)
    && (!s.initialized ==> r.worker.Idle? && !s.settleDue)
    && (!s.initialized || s.log.lost ==>
          s.scanner != Mine && !r.worker.ReadOwned? && !r.worker.StartScan? && !r.worker.SetOwned?)
    && (!s.initialized && (r.callback.StopNow? || r.callback.ScheduleSettle?) ==> s.settling)
  }

  // ---- Every run

  ghost predicate Inv(r: Radio) {
    TokenInv(r) && HandshakeInv(r) && MailInv(r) && WantInv(r) && SettleInv(r)
  }

  lemma ConnectingReadKeeps(r: Radio)
    requires Inv(r) && r.worker == ReadConnecting
    ensures Inv(ConnectingRead(r))
  {
  }

  lemma WantedReadKeeps(r: Radio)
    requires Inv(r) && r.worker == ReadWanted
    ensures Inv(WantedRead(r))
  {
  }

  lemma TransportReadKeeps(r: Radio, re: bool, ok: bool)
    requires Inv(r) && r.worker == ReadTransport(re)
    ensures Inv(TransportRead(r, re, ok))
  {
  }

  lemma SettlingReadKeeps(r: Radio, re: bool)
    requires Inv(r) && r.worker == ReadSettling(re)
    ensures Inv(SettlingRead(r, re))
  {
  }

  lemma OwnedReadKeeps(r: Radio)
    requires Inv(r) && r.worker == ReadOwned
    ensures Inv(OwnedRead(r))
  {
  }

  lemma ScanStartedKeeps(r: Radio, ok: bool)
    requires Inv(r) && r.worker == StartScan
    ensures Inv(ScanStarted(r, ok))
  {
  }

  lemma OwnedSetKeeps(r: Radio)
    requires Inv(r) && r.worker == SetOwned
    ensures Inv(OwnedSet(r))
  {
  }

  lemma ScanStoppedKeeps(r: Radio, step: Stopping, why: Reason, ok: bool)
    requires Inv(r) && r.worker == StopScan(step, why)
    ensures Inv(ScanStopped(r, step, why, ok))
  {
  }

  lemma StoppedToConnectKeeps(r: Radio, step: Stopping, ok: bool)
    requires Inv(r) && r.worker == StopToConnect(step)
    ensures Inv(StoppedToConnect(r, step, ok))
  {
  }

  lemma RequestTakenKeeps(r: Radio, ok: bool)
    requires Inv(r) && r.worker == TakeRequest
    ensures Inv(RequestTaken(r, ok))
  {
  }

  lemma ConnectingClearedKeeps(r: Radio, failed: bool)
    requires Inv(r) && r.worker == ClearConnecting(failed)
    ensures Inv(ConnectingCleared(r, failed))
  {
  }

  lemma SettlingClearedKeeps(r: Radio)
    requires Inv(r) && r.worker == ClearSettling
    ensures Inv(SettlingCleared(r))
  {
  }

  lemma WantedSetKeeps(r: Radio, wants: bool, saved: bool, addr: Addr)
    requires Inv(r) && r.worker == SetWanted(wants, saved, addr)
    ensures Inv(WantedSet(r, wants, saved, addr))
  {
  }

  lemma WorkerPostedKeeps(r: Radio, p: Posting)
    requires Inv(r) && r.worker == WorkerPost(p)
    ensures Inv(WorkerPosted(r, p))
  {
  }

  lemma ScanScheduledKeeps(r: Radio)
    requires Inv(r) && r.worker == ScheduleScan
    ensures Inv(ScanScheduled(r))
  {
  }

  lemma WorkerKeeps(r: Radio, ok: bool)
    requires Inv(r)
    ensures Inv(WorkerMove(r, ok))
  {
    match r.worker {
      case Idle =>
      case ReadConnecting => ConnectingReadKeeps(r);
      case ReadWanted => WantedReadKeeps(r);
      case ReadTransport(re) => TransportReadKeeps(r, re, ok);
      case ReadSettling(re) => SettlingReadKeeps(r, re);
      case ReadOwned => OwnedReadKeeps(r);
      case StartScan => ScanStartedKeeps(r, ok);
      case SetOwned => OwnedSetKeeps(r);
      case StopScan(step, why) => ScanStoppedKeeps(r, step, why, ok);
      case StopToConnect(step) => StoppedToConnectKeeps(r, step, ok);
      case TakeRequest => RequestTakenKeeps(r, ok);
      case ClearConnecting(failed) => ConnectingClearedKeeps(r, failed);
      case ClearSettling => SettlingClearedKeeps(r);
      case SetWanted(wants, saved, addr) => WantedSetKeeps(r, wants, saved, addr);
      case WorkerPost(p) => WorkerPostedKeeps(r, p);
      case ScheduleScan => ScanScheduledKeeps(r);
    }
  }

  lemma SettlingSetKeeps(r: Radio)
    requires Inv(r) && r.callback == SetSettling
    ensures Inv(SettlingSet(r))
  {
  }

  lemma StoppedNowKeeps(r: Radio, step: Stopping, ok: bool)
    requires Inv(r) && r.callback == StopNow(step)
    ensures Inv(StoppedNow(r, step, ok))
  {
  }

  lemma SettleScheduledKeeps(r: Radio)
    requires Inv(r) && r.callback == ScheduleSettle
    ensures Inv(SettleScheduled(r))
  {
  }

  lemma CallbackPostedKeeps(r: Radio, p: Posting)
    requires Inv(r) && r.callback == CallbackPost(p)
    ensures Inv(CallbackPosted(r, p))
  {
  }

  lemma CallbackKeeps(r: Radio, ok: bool)
    requires Inv(r)
    ensures Inv(CallbackMove(r, ok))
  {
    match r.callback {
      case Waiting =>
      case SetSettling => SettlingSetKeeps(r);
      case StopNow(step) => StoppedNowKeeps(r, step, ok);
      case ScheduleSettle => SettleScheduledKeeps(r);
      case CallbackPost(p) => CallbackPostedKeeps(r, p);
    }
  }

  lemma CalledKeeps(r: Radio, h: Handler)
    requires Inv(r) && r.worker == Idle && r.shared.initialized
    ensures Inv(Called(r, h))
  {
  }

  lemma RaisedKeeps(r: Radio, e: Event)
    requires Inv(r) && r.callback == Waiting
    ensures Inv(Raised(r, e))
  {
  }

  lemma AroundKeeps(r: Radio, a: Action)
    requires Inv(r)
    ensures Inv(r.(shared := Around(r.shared, a)))
  {
  }

  lemma StepKeepsInv(r: Radio, a: Action)
    requires Inv(r)
    ensures Inv(Step(r, a))
  {
    match a {
      case Run(h) => if r.worker.Idle? && r.shared.initialized { CalledKeeps(r, h); }
      case WorkerStep(ok) => WorkerKeeps(r, ok);
      case Raise(e) => if r.callback.Waiting? { RaisedKeeps(r, e); }
      case CallbackStep(ok) => CallbackKeeps(r, ok);
      case _ => AroundKeeps(r, a);
    }
  }

  predicate AtRest(r: Radio) {
    r.worker == Idle && r.callback == Waiting
  }

  // Nothing has happened yet.
  predicate Fresh(r: Radio) {
    var s := r.shared;
    && AtRest(r) && !s.wanted && !s.owned && !s.settling && !s.connecting && !s.submitted && !s.scanDue && !s.settleDue
    && !s.initialized && s.scanner == Free && !s.log.restored && !s.log.lost && s.log.taken == []
  }

  lemma FreshInv(r: Radio)
    requires Fresh(r)
    ensures Inv(r)
  {
  }

  lemma InitialIsFresh()
    ensures Fresh(INITIAL)
  {
  }

  lemma {:induction false} Invariant(acts: seq<Action>)
    ensures Inv(After(acts))
  {
    if acts == [] {
      InitialIsFresh();
      FreshInv(INITIAL);
    } else {
      Invariant(acts[..|acts| - 1]);
      StepKeepsInv(After(acts[..|acts| - 1]), acts[|acts| - 1]);
    }
  }

  /** Whenever either thread is about to stop the scanner, the scan is this module's own; at most one thread is. */
  lemma StopsOnlyOwnScan(acts: seq<Action>)
    ensures var r := After(acts); var s := r.shared;
            && (r.worker == StopToConnect(Halt) || (r.worker.StopScan? && r.worker.step == Halt) ==> s.scanner == Mine)
            && (r.callback == StopNow(Halt) ==> s.scanner == Mine)
            && !(WorkerHolds(r.worker) && CallbackHolds(r.callback))
            && (s.owned ==> s.scanner == Mine)
  {
    Invariant(acts);
  }

  /**
   Scanning while the split link settles is transient: unless the flag stands restored by a stop that failed,
   one of the two threads is still between its own write and the recheck or stop that follows it. With both
   threads at rest the module scans on exactly if the flag stands restored.
   */
  lemma SettlingYields(acts: seq<Action>)
    ensures var r := After(acts); var s := r.shared;
            && (s.owned && s.settling ==> s.log.restored || WorkerRechecks(r.worker) || r.callback == StopNow(Cas))
            && (AtRest(r) ==> (s.owned && s.settling <==> s.log.restored && s.settling))
  {
    Invariant(acts);
  }

  /** A request is connected to the address it was claimed for, however claims and requests interleave. */
  lemma RequestsKeepTheirAddress(acts: seq<Action>, k: nat)
    requires k < |After(acts).shared.log.taken|
    ensures After(acts).shared.log.taken[k].0 == After(acts).shared.log.taken[k].1
  {
    Invariant(acts);
  }

  /**
   A wanted scan is never forgotten: while it is not running, scan_work or settle_work is scheduled, a
   connection request is held, or a thread is still before its schedule. A request that is held is being
   posted, submitted or served. With nothing of that left, the module scans.
   */
  lemma WantedIsPursued(acts: seq<Action>)
    ensures var r := After(acts); var s := r.shared;
            && (s.wanted && !s.owned ==>
                  s.scanDue || s.settleDue || s.connecting || WorkerReturns(r.worker) || CallbackReturns(r.callback))
            && (s.connecting ==> WorkerFills(r.worker) || CallbackFills(r.callback) || s.submitted || Serving(r.worker))
            && (AtRest(r) && !s.submitted && !s.scanDue && !s.settleDue && s.wanted ==> s.scanner == Mine)
  {
    Invariant(acts);
  }

  /**
   With both threads at rest a settling link will be let settle, exactly unless the schedule of settle_work
   was dropped, before initialization; and until the next schedule of settle_work the module then never scans.
   */
  lemma SettlingEnds(acts: seq<Action>)
    ensures var r := After(acts); var s := r.shared;
            && (AtRest(r) ==> (s.settling && !s.settleDue <==> s.log.lost))
            && (s.log.lost ==> s.settling && s.scanner != Mine)
  {
    Invariant(acts);
  }

  // Only another changed connection schedules it.
  lemma LostUntilScheduled(r: Radio, a: Action)
    requires r.shared.log.lost && !(a.CallbackStep? && r.callback == ScheduleSettle)
    ensures Step(r, a).shared.log.lost
  {
    match a {
      case WorkerStep(ok) => WorkerKeepsLost(r, ok);
      case CallbackStep(ok) => CallbackKeepsLost(r, ok);
      case _ =>
    }
  }

  lemma StopKeepsLost(s: Shared, step: Stopping, ok: bool)
    ensures Stop(s, step, ok).log.lost <==> s.log.lost
  {
    match step {
      case Cas => OwnedKeepsLost(s, false, false);
      case Halt =>
      case Restore => OwnedKeepsLost(s, true, true);
    }
  }

  lemma OwnedKeepsLost(s: Shared, owned: bool, restored: bool)
    ensures Owned(s, owned, restored).log.lost <==> s.log.lost
  {
  }

  lemma PostKeepsLost(s: Shared, p: Posting)
    ensures Post(s, p).log.lost <==> s.log.lost
  {
    if p.Claim? {
      ClaimedKeepsLost(s, p.addr);
    }
  }

  lemma ClaimedKeepsLost(s: Shared, addr: Addr)
    ensures Claimed(s, addr).log.lost <==> s.log.lost
  {
  }

  lemma WorkerKeepsLost(r: Radio, ok: bool)
    ensures WorkerMove(r, ok).shared.log.lost == r.shared.log.lost
  {
    match r.worker {
      case StopScan(step, _) => StopKeepsLost(r.shared, step, ok);
      case StopToConnect(step) => StopKeepsLost(r.shared, step, ok);
      case WorkerPost(p) => PostKeepsLost(r.shared, p);
      case _ =>
    }
  }

  lemma CallbackKeepsLost(r: Radio, ok: bool)
    requires r.callback != ScheduleSettle
    ensures CallbackMove(r, ok).shared.log.lost == r.shared.log.lost
  {
    match r.callback {
      case StopNow(step) => StopKeepsLost(r.shared, step, ok);
      case CallbackPost(p) => PostKeepsLost(r.shared, p);
      case _ =>
    }
  }

  // ---- What does happen

  // Some run leads to this state.
  ghost predicate Occurs(r: Radio) {
    exists acts :: r == After(acts)
  }

  lemma OneMore(r: Radio, a: Action, n: Radio)
    requires Occurs(r) && n == Step(r, a)
    ensures Occurs(n)
  {
    var acts :| r == After(acts);
    assert (acts + [a])[..|acts|] == acts;
    assert n == After(acts + [a]);
  }
}
