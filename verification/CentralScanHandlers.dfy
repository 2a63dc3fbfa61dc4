/**
 The coordinator's handlers as they run, updating its variables in place. Each one, undisturbed, does
 exactly what its thread of the two-thread machine does when it runs to its end.
 */
module CentralScanHandlers {
  import opened CentralScan

  // What the environment answers during one handler.
  datatype Answers = Answers(ready: bool, startOk: bool, readyAgain: bool, stopOk: bool, connectOk: bool)

  function AnswerFor(pc: WorkerPc, e: Answers): bool {
    match pc
    case ReadTransport(rechecking) => if rechecking then e.readyAgain else e.ready
    case StartScan => e.startOk
    case TakeRequest => e.connectOk
    case _ => e.stopOk
  }

  // ---- Running one thread to its end

  function StopRank(step: Stopping): nat {
    match step
    case Cas => 3
    case Halt => 2
    case Restore => 1
  }

  function PostRank(post: Posting): nat {
    match post
    case Claim(_) => 3
    case Fill(_) => 2
    case Announce => 1
  }

  function WorkerRank(pc: WorkerPc): nat {
    match pc
    case Idle => 0
    case ReadConnecting => 13
    case ReadWanted => 12
    case ReadTransport(rechecking) => if rechecking then 6 else 11
    case ReadSettling(rechecking) => if rechecking then 5 else 10
    case ReadOwned => 9
    case StartScan => 8
    case SetOwned => 7
    case StopScan(step, _) => 1 + StopRank(step)
    case StopToConnect(step) => 3 + StopRank(step)
    case TakeRequest => 3
    case ClearConnecting(_) => 2
    case ClearSettling => 2
    case SetWanted(_, _, _) => 5
    case WorkerPost(post) => 1 + PostRank(post)
    case ScheduleScan => 1
  }

  function CallbackRank(pc: CallbackPc): nat {
    match pc
    case Waiting => 0
    case SetSettling => 5
    case StopNow(step) => 1 + StopRank(step)
    case ScheduleSettle => 1
    case CallbackPost(post) => PostRank(post)
  }

  lemma StopRankFalls(s: Shared, step: Stopping, ok: bool)
    ensures var next := StopNext(s, step, ok); |next| <= 1 && (next != [] ==> StopRank(next[0]) < StopRank(step))
  {
  }

  lemma PostRankFalls(s: Shared, post: Posting)
    ensures var next := PostNext(s, post); |next| <= 1 && (next != [] ==> PostRank(next[0]) < PostRank(post))
  {
  }

  lemma StopFalls(r: Radio, step: Stopping, why: Reason, ok: bool)
    requires r.worker == StopScan(step, why)
    ensures WorkerRank(ScanStopped(r, step, why, ok).worker) < 1 + StopRank(step)
  {
    StopRankFalls(r.shared, step, ok);
  }

  lemma YieldFalls(r: Radio, step: Stopping, ok: bool)
    requires r.worker == StopToConnect(step)
    ensures WorkerRank(StoppedToConnect(r, step, ok).worker) < 3 + StopRank(step)
  {
    StopRankFalls(r.shared, step, ok);
  }

  lemma PostFalls(r: Radio, post: Posting)
    requires r.worker == WorkerPost(post)
    ensures WorkerRank(WorkerPosted(r, post).worker) < 1 + PostRank(post)
  {
    PostRankFalls(r.shared, post);
  }

  lemma RankFalls(r: Radio, ok: bool)
    requires r.worker != Idle
    ensures WorkerRank(WorkerMove(r, ok).worker) < WorkerRank(r.worker)
  {
    match r.worker {
      case StopScan(step, why) => StopFalls(r, step, why, ok);
      case StopToConnect(step) => YieldFalls(r, step, ok);
      case WorkerPost(post) => PostFalls(r, post);
      case _ =>
    }
  }

  function WorkerNext(r: Radio, e: Answers): (n: Radio)
    ensures r.worker != Idle ==> WorkerRank(n.worker) < WorkerRank(r.worker)
  {
    if r.worker == Idle then r
    else
      RankFalls(r, AnswerFor(r.worker, e));
      WorkerMove(r, AnswerFor(r.worker, e))
  }

  function CallbackNext(r: Radio, stopOk: bool): (n: Radio)
    ensures r.callback != Waiting ==> CallbackRank(n.callback) < CallbackRank(r.callback)
  {
    CallbackMove(r, stopOk)
  }

  function WorkerAlone(r: Radio, e: Answers): Radio
    decreases WorkerRank(r.worker)
  {
    if r.worker == Idle then r else WorkerAlone(WorkerNext(r, e), e)
  }

  function CallbackAlone(r: Radio, stopOk: bool): Radio
    decreases CallbackRank(r.callback)
  {
    if r.callback == Waiting then r else CallbackAlone(CallbackNext(r, stopOk), stopOk)
  }

  lemma WorkerEnds(r: Radio, e: Answers)
    requires WorkerNext(r, e).worker == Idle
    ensures WorkerAlone(r, e) == WorkerNext(r, e)
  {
  }

  // ---- What stopping and posting amount to

  function Stopped(s: Shared, ok: bool): Shared {
    if !s.owned then s else if ok then Owned(s, false, false).(scanner := Free) else Owned(s, true, true)
  }

  function Posted(s: Shared, addr: Addr): Shared {
    if !s.initialized || s.connecting then s else Claimed(s, addr).(address := addr, submitted := true)
  }

  function Cleared(s: Shared, failed: bool): Shared {
    var s := s.(connecting := false);
    if failed then ScanDue(s) else s
  }

  // The worker ends with this.
  function Done(r: Radio, s: Shared): Radio {
    r.(shared := s, worker := Idle)
  }

  lemma ScheduleAlone(r: Radio, e: Answers)
    requires r.worker == ScheduleScan
    ensures WorkerAlone(r, e) == Done(r, ScanDue(r.shared))
  {
    WorkerEnds(r, e);
  }

  function Afterwards(s: Shared, why: Reason): Shared {
    if why == Unwanted then s else ScanDue(s)
  }

  // The last step of a stop in scan_work.
  lemma StopEnds(r: Radio, e: Answers, step: Stopping, why: Reason)
    requires r.worker == StopScan(step, why) && StopNext(r.shared, step, e.stopOk) == []
    ensures WorkerAlone(r, e) == Done(r, Afterwards(Stop(r.shared, step, e.stopOk), why))
  {
    if why == Unwanted {
      WorkerEnds(r, e);
    } else {
      ScheduleAlone(WorkerNext(r, e), e);
    }
  }

  lemma StopScanAlone(r: Radio, e: Answers, why: Reason)
    requires r.worker == StopScan(Cas, why)
    ensures WorkerAlone(r, e) == Done(r, Afterwards(Stopped(r.shared, e.stopOk), why))
  {
    if !r.shared.owned {
      StopEnds(r, e, Cas, why);
    } else {
      HaltAlone(WorkerNext(r, e), e, why);
    }
  }

  lemma HaltAlone(r: Radio, e: Answers, why: Reason)
    requires r.worker == StopScan(Halt, why)
    ensures WorkerAlone(r, e)
            == Done(r, Afterwards(if e.stopOk then r.shared.(scanner := Free) else Owned(r.shared, true, true), why))
  {
    if e.stopOk {
      StopEnds(r, e, Halt, why);
    } else {
      StopEnds(WorkerNext(r, e), e, Restore, why);
    }
  }

  // Started, and published: `scan_owned` is set.
  function Published(s: Shared): Shared {
    Owned(s.(scanner := Mine), true, false)
  }

  function Rechecking(s: Shared, e: Answers): Shared {
    if e.readyAgain && !s.settling then s else ScanDue(Stopped(s, e.stopOk))
  }

  lemma SettlingAlone(r: Radio, e: Answers)
    requires r.worker == ReadSettling(true)
    ensures WorkerAlone(r, e) == Done(r, if !r.shared.settling then r.shared else ScanDue(Stopped(r.shared, e.stopOk)))
  {
    if r.shared.settling {
      StopScanAlone(WorkerNext(r, e), e, Rechecked);
    } else {
      WorkerEnds(r, e);
    }
  }

  lemma RecheckAlone(r: Radio, e: Answers)
    requires r.worker == ReadTransport(true)
    ensures WorkerAlone(r, e) == Done(r, Rechecking(r.shared, e))
  {
    if e.readyAgain {
      SettlingAlone(WorkerNext(r, e), e);
    } else {
      StopScanAlone(WorkerNext(r, e), e, Rechecked);
    }
  }

  // Start, publish, and look again.
  function Starts(s: Shared, e: Answers): Shared {
    if e.startOk && s.scanner == Free then Rechecking(Published(s), e) else ScanDue(s)
  }

  lemma StartAlone(r: Radio, e: Answers)
    requires r.worker == StartScan
    ensures WorkerAlone(r, e) == Done(r, Starts(r.shared, e))
  {
    var r1 := WorkerNext(r, e);
    if e.startOk && r.shared.scanner == Free {
      PublishAlone(r1, e);
    } else {
      ScheduleAlone(r1, e);
    }
  }

  lemma PublishAlone(r: Radio, e: Answers)
    requires r.worker == SetOwned
    ensures WorkerAlone(r, e) == Done(r, Rechecking(Owned(r.shared, true, false), e))
  {
    RecheckAlone(WorkerNext(r, e), e);
  }

  lemma OwnedAlone(r: Radio, e: Answers)
    requires r.worker == ReadOwned
    ensures WorkerAlone(r, e) == Done(r, if r.shared.owned then r.shared else Starts(r.shared, e))
  {
    if r.shared.owned {
      WorkerEnds(r, e);
    } else {
      StartAlone(WorkerNext(r, e), e);
    }
  }

  // Whatever `split_ready` has to say about it.
  function Looks(s: Shared, e: Answers): Shared {
    if !e.ready || s.settling then ScanDue(Stopped(s, e.stopOk)) else if s.owned then s else Starts(s, e)
  }

  lemma CalmAlone(r: Radio, e: Answers)
    requires r.worker == ReadSettling(false) && e.ready
    ensures WorkerAlone(r, e) == Done(r, Looks(r.shared, e))
  {
    if r.shared.settling {
      StopScanAlone(WorkerNext(r, e), e, NotReady);
    } else {
      OwnedAlone(WorkerNext(r, e), e);
    }
  }

  lemma ReadyAlone(r: Radio, e: Answers)
    requires r.worker == ReadTransport(false)
    ensures WorkerAlone(r, e) == Done(r, Looks(r.shared, e))
  {
    if e.ready {
      CalmAlone(WorkerNext(r, e), e);
    } else {
      StopScanAlone(WorkerNext(r, e), e, NotReady);
    }
  }

  function Scans(s: Shared, e: Answers): Shared {
    if s.connecting then s else if s.wanted then Looks(s, e) else Stopped(s, e.stopOk)
  }

  lemma WantedAlone(r: Radio, e: Answers)
    requires r.worker == ReadWanted
    ensures WorkerAlone(r, e) == Done(r, if r.shared.wanted then Looks(r.shared, e) else Stopped(r.shared, e.stopOk))
  {
    if r.shared.wanted {
      ReadyAlone(WorkerNext(r, e), e);
    } else {
      StopScanAlone(WorkerNext(r, e), e, Unwanted);
    }
  }

  lemma ScanAlone(r: Radio, e: Answers)
    requires r.worker == ReadConnecting
    ensures WorkerAlone(r, e) == Done(r, Scans(r.shared, e))
  {
    if r.shared.connecting {
      WorkerEnds(r, e);
    } else {
      WantedAlone(WorkerNext(r, e), e);
    }
  }

  lemma ClearAlone(r: Radio, e: Answers, failed: bool)
    requires r.worker == ClearConnecting(failed)
    ensures WorkerAlone(r, e) == Done(r, Cleared(r.shared, failed))
  {
    if failed {
      ScheduleAlone(WorkerNext(r, e), e);
    } else {
      WorkerEnds(r, e);
    }
  }

  // The request is served, unless the module's own scan cannot be stopped.
  function Serves(s: Shared, e: Answers): Shared {
    var stopped := Stopped(s, e.stopOk);
    if s.owned && !e.stopOk then Cleared(stopped, true) else Cleared(Taken(stopped, e.connectOk), !e.connectOk)
  }

  lemma TakeAlone(r: Radio, e: Answers)
    requires r.worker == TakeRequest
    ensures WorkerAlone(r, e) == Done(r, Cleared(Taken(r.shared, e.connectOk), !e.connectOk))
  {
    ClearAlone(WorkerNext(r, e), e, !e.connectOk);
  }

  lemma HaltToConnectAlone(r: Radio, e: Answers)
    requires r.worker == StopToConnect(Halt)
    ensures WorkerAlone(r, e)
            == Done(r, if e.stopOk then Cleared(Taken(r.shared.(scanner := Free), e.connectOk), !e.connectOk)
                       else Cleared(Owned(r.shared, true, true), true))
  {
    var r1 := WorkerNext(r, e);
    if e.stopOk {
      TakeAlone(r1, e);
    } else {
      ClearAlone(WorkerNext(r1, e), e, true);
      assert WorkerAlone(r1, e) == WorkerAlone(WorkerNext(r1, e), e);
    }
  }

  lemma ServeAlone(r: Radio, e: Answers)
    requires r.worker == StopToConnect(Cas)
    ensures WorkerAlone(r, e) == Done(r, Serves(r.shared, e))
  {
    if r.shared.owned {
      HaltToConnectAlone(WorkerNext(r, e), e);
    } else {
      TakeAlone(WorkerNext(r, e), e);
    }
  }

  lemma SettleAlone(r: Radio, e: Answers)
    requires r.worker == ClearSettling
    ensures WorkerAlone(r, e) == Done(r, ScanDue(r.shared.(settling := false)))
  {
    ScheduleAlone(WorkerNext(r, e), e);
  }

  // The callback ends with this.
  function Over(r: Radio, s: Shared): Radio {
    r.(shared := s, callback := Waiting)
  }

  lemma ScheduleSettleAlone(r: Radio, ok: bool)
    requires r.callback == ScheduleSettle
    ensures CallbackAlone(r, ok) == Over(r, SettleDue(r.shared))
  {
    assert CallbackNext(r, ok).callback == Waiting;
  }

  lemma HaltNowAlone(r: Radio, ok: bool)
    requires r.callback == StopNow(Halt)
    ensures CallbackAlone(r, ok)
            == Over(r, SettleDue(if ok then r.shared.(scanner := Free) else Owned(r.shared, true, true)))
  {
    var r1 := CallbackNext(r, ok);
    if ok {
      ScheduleSettleAlone(r1, ok);
    } else {
      ScheduleSettleAlone(CallbackNext(r1, ok), ok);
      assert CallbackAlone(r1, ok) == CallbackAlone(CallbackNext(r1, ok), ok);
    }
  }

  lemma StopNowAlone(r: Radio, ok: bool)
    requires r.callback == StopNow(Cas)
    ensures CallbackAlone(r, ok) == Over(r, SettleDue(Stopped(r.shared, ok)))
  {
    if r.shared.owned {
      HaltNowAlone(CallbackNext(r, ok), ok);
    } else {
      ScheduleSettleAlone(CallbackNext(r, ok), ok);
    }
  }

  function Changes(s: Shared, ok: bool): Shared {
    SettleDue(Stopped(s.(settling := true), ok))
  }

  // A connection changes.
  lemma ChangeAlone(r: Radio, ok: bool)
    requires r.callback == SetSettling
    ensures CallbackAlone(r, ok) == Over(r, Changes(r.shared, ok))
  {
    StopNowAlone(CallbackNext(r, ok), ok);
  }

  lemma FillAlone(r: Radio, addr: Addr, ok: bool)
    requires r.callback == CallbackPost(Fill(addr))
    ensures CallbackAlone(r, ok) == Over(r, r.shared.(address := addr, submitted := true))
  {
    var r1 := CallbackNext(r, ok);
    assert CallbackAlone(r1, ok) == CallbackNext(r1, ok);
  }

  lemma PostAlone(r: Radio, addr: Addr, ok: bool)
    requires r.callback == CallbackPost(Claim(addr))
    ensures CallbackAlone(r, ok) == Over(r, Posted(r.shared, addr))
  {
    if r.shared.initialized && !r.shared.connecting {
      FillAlone(CallbackNext(r, ok), addr, ok);
    }
  }

  // ---- One run of scan_work

  lemma StartsExactly(s: Shared, e: Answers)
    requires s.initialized && !s.owned && !s.settling
    ensures var n := Starts(s, e);
            && (n.owned <==> e.startOk && s.scanner == Free && (e.readyAgain || !e.stopOk))
            && (n.owned || n.scanDue) && (n.owned ==> n.scanner == Mine)
  {
    if e.startOk && s.scanner == Free {
      RecheckedExactly(Published(s), e);
    }
  }

  lemma RecheckedExactly(s: Shared, e: Answers)
    requires s.initialized && s.owned && !s.settling && s.scanner == Mine
    ensures var n := Rechecking(s, e);
            (n.owned <==> e.readyAgain || !e.stopOk) && (n.owned || n.scanDue) && (n.owned ==> n.scanner == Mine)
  {
  }

  /**
   Undisturbed, scan_work leaves a wanted scan running exactly if no request is held, the transports are ready
   and settled, the scanner was free and has started, and the second look did not stop it again; a wanted scan
   that it leaves off is scheduled again, unless a request is held.
   */
  lemma ScanWorkStarts(r: Radio, e: Answers)
    requires r.worker == Idle && r.shared.initialized && r.shared.scanDue && !r.shared.owned
    ensures var s, n := r.shared, WorkerAlone(Step(r, Run(ScanWork)), e).shared;
            && (n.owned <==> !s.connecting && s.wanted && e.ready && !s.settling
                             && e.startOk && s.scanner == Free && (e.readyAgain || !e.stopOk))
            && (n.owned ==> n.scanner == Mine)
            && (s.wanted && !s.connecting ==> n.owned || n.scanDue)
  {
    var s := r.shared.(scanDue := false);
    ScanAlone(r.(shared := s, worker := ReadConnecting), e);
    if !s.settling {
      StartsExactly(s, e);
    }
  }

  // ---- What does happen

  lemma {:induction false} WorkerAloneOccurs(r: Radio, e: Answers)
    requires Occurs(r)
    ensures Occurs(WorkerAlone(r, e))
    decreases WorkerRank(r.worker)
  {
    if r.worker != Idle {
      OneMore(r, WorkerStep(AnswerFor(r.worker, e)), WorkerNext(r, e));
      WorkerAloneOccurs(WorkerNext(r, e), e);
    }
  }

  lemma {:induction false} CallbackAloneOccurs(r: Radio, ok: bool)
    requires Occurs(r)
    ensures Occurs(CallbackAlone(r, ok))
    decreases CallbackRank(r.callback)
  {
    if r.callback != Waiting {
      OneMore(r, CallbackStep(ok), CallbackNext(r, ok));
      CallbackAloneOccurs(CallbackNext(r, ok), ok);
    }
  }

  // A run to this state, with both threads at rest.
  ghost predicate Leads(s: Shared) {
    Occurs(Radio(s, Idle, Waiting))
  }

  lemma FreshLeads() returns (s: Shared)
    ensures Leads(s) && Fresh(Radio(s, Idle, Waiting))
  {
    s := INITIAL.shared;
    InitialIsFresh();
    assert INITIAL == After([]);
    assert INITIAL == Radio(s, Idle, Waiting);
  }

  lemma InitializeLeads(s: Shared)
    requires Leads(s)
    ensures Leads(s.(initialized := true))
  {
    OneMore(Radio(s, Idle, Waiting), Initialize, Radio(s.(initialized := true), Idle, Waiting));
  }

  lemma ChangesLead(s: Shared, ok: bool)
    requires Leads(s)
    ensures Leads(Changes(s, ok))
  {
    var r := Radio(s, Idle, SetSettling);
    OneMore(Radio(s, Idle, Waiting), Raise(ConnectionChanged), r);
    CallbackAloneOccurs(r, ok);
    ChangeAlone(r, ok);
  }

  // A retry wants a scan, without a saved mouse.
  lemma RetryLeads(s: Shared)
    requires Leads(s) && s.initialized
    ensures Leads(s.(wanted := true, scanDue := true))
  {
    var e := Answers(true, true, true, true, true);
    var r := Radio(s, SetWanted(true, false, 0), Waiting);
    OneMore(Radio(s, Idle, Waiting), Run(RetryWork(true, false, 0)), r);
    WorkerAloneOccurs(r, e);
    ScheduleAlone(WorkerNext(r, e), e);
  }

  lemma ScanLeads(s: Shared, e: Answers)
    requires Leads(s) && s.initialized && s.scanDue
    ensures Leads(Scans(s.(scanDue := false), e))
  {
    var r := Radio(s.(scanDue := false), ReadConnecting, Waiting);
    OneMore(Radio(s, Idle, Waiting), Run(ScanWork), r);
    WorkerAloneOccurs(r, e);
    ScanAlone(r, e);
  }

  /** A connection that changes after the callbacks are registered, but before initialization, settles for ever. */
  lemma LostSettlingHappens() returns (s: Shared)
    ensures Leads(s) && s.initialized && s.settling && !s.settleDue && s.log.lost
  {
    var s0 := FreshLeads();
    ChangesLead(s0, true);
    InitializeLeads(Changes(s0, true));
    s := Changes(s0, true).(initialized := true);
  }

  lemma ScanRuns() returns (s: Shared)
    ensures Leads(s) && s.owned
  {
    var e := Answers(true, true, true, true, true);
    var s0 := FreshLeads();
    InitializeLeads(s0);
    var s1 := s0.(initialized := true);
    RetryLeads(s1);
    var s2 := s1.(wanted := true, scanDue := true);
    ScanLeads(s2, e);
    s := Scans(s2.(scanDue := false), e);
  }

  /** A stop that fails does leave the module scanning while the link settles, with both threads at rest. */
  lemma FailedStopKeepsScanning() returns (s: Shared)
    ensures Leads(s) && s.owned && s.settling && s.log.restored
  {
    var s0 := ScanRuns();
    ChangesLead(s0, false);
    s := Changes(s0, false);
  }

  // ---- The handlers in place

  class Coordinator {
    var wanted: bool               // scan_wanted
    var owned: bool                // scan_owned
    var settling: bool             // split_settling
    var connecting: bool
    var address: Addr              // pending_address
    var submitted: bool            // connect_work
    var scanDue: bool              // scan_work
    var settleDue: bool            // settle_work
    var initialized: bool
    var scanner: Scanner
    ghost var log: Log

    ghost function Variables(): Shared
      reads this
    {
      Shared(wanted, owned, settling, connecting, address, submitted, scanDue, settleDue, initialized, scanner, log)
    }

    // Between handlers.
    ghost function View(): Radio
      reads this
    {
      Radio(Variables(), Idle, Waiting)
    }

    constructor ()
      ensures View() == INITIAL
    {
      wanted, owned, settling, connecting, address, submitted := false, false, false, false, 0, false;
      scanDue, settleDue, initialized, scanner := false, false, false, Free;
      log := NOTHING.log;
    }

    // `zmk_ble_central_scan_init`
    method Init()
      modifies this`initialized
      ensures View() == Step(old(View()), Initialize)
    {
      if initialized {
        return;
      }
      initialized := true;
    }

    // `zmk_ble_central_scan_refresh`, and each schedule of scan_work.
    method ScheduleScanWork()
      modifies this`scanDue
      ensures Variables() == ScanDue(old(Variables()))
    {
      if initialized {
        scanDue := true;
      }
    }

    method ScheduleSettleWork()
      modifies this`settleDue, this`log
      ensures Variables() == SettleDue(old(Variables()))
    {
      if initialized {
        settleDue := true;
      }
      log := log.(lost := !initialized);
    }

    method StopOwnScan(stopOk: bool) returns (failed: bool)
      modifies this`owned, this`scanner, this`log
      ensures Variables() == Stopped(old(Variables()), stopOk)
      ensures failed <==> old(owned) && !stopOk
    {
      if !owned {
        return false;
      }
      owned, log := false, log.(restored := false);
      if !stopOk {
        owned, log := true, log.(restored := true);
        return true;
      }
      scanner := Free;
      failed := false;
    }

    method ScanWorkRun(e: Answers)
      requires initialized && scanDue
      modifies this
      ensures View() == WorkerAlone(Step(old(View()), Run(ScanWork)), e)
    {
      scanDue := false;
      ScanAlone(View().(worker := ReadConnecting), e);
      if connecting {
        return;
      }
      if !wanted {
        var _ := StopOwnScan(e.stopOk);
        return;
      }
      LookAndStart(e);
    }

    // `scan_work_cb`, once the scan is known to be wanted.
    method LookAndStart(e: Answers)
      modifies this
      ensures Variables() == Looks(old(Variables()), e)
    {
      if !e.ready || settling {
        var _ := StopOwnScan(e.stopOk);
        ScheduleScanWork();
      } else if !owned {
        StartAndRecheck(e);
      }
    }

    // Its second half: start, publish, and look again.
    method StartAndRecheck(e: Answers)
      modifies this
      ensures Variables() == Starts(old(Variables()), e)
    {
      if !e.startOk || scanner != Free {
        ScheduleScanWork();
        return;
      }
      scanner := Mine;
      owned, log := true, log.(restored := false);
      assert Variables() == Published(old(Variables()));
      Recheck(e);
    }

    method Recheck(e: Answers)
      modifies this
      ensures Variables() == Rechecking(old(Variables()), e)
    {
      if !e.readyAgain || settling {
        var _ := StopOwnScan(e.stopOk);
        ScheduleScanWork();
      }
    }

    method ConnectWorkRun(e: Answers)
      requires initialized && submitted
      modifies this
      ensures View() == WorkerAlone(Step(old(View()), Run(ConnectWork)), e)
    {
      ServeAlone(Radio(Variables().(submitted := false), StopToConnect(Cas), Waiting), e);
      submitted := false;
      StopAndServe(e);
    }

    method StopAndServe(e: Answers)
      modifies this
      ensures Variables() == Serves(old(Variables()), e)
    {
      var failed := StopOwnScan(e.stopOk);
      if !failed {
        failed := TakePending(e.connectOk);
      }
      Clear(failed);
    }

    // The pending connect, which takes scan_wanted back if it succeeds.
    method TakePending(connectOk: bool) returns (failed: bool)
      modifies this`wanted, this`log
      ensures Variables() == Taken(old(Variables()), connectOk) && failed == !connectOk
    {
      log := log.(taken := log.taken + [(address, log.claimed)]);
      wanted := wanted && !connectOk;
      failed := !connectOk;
    }

    method Clear(failed: bool)
      modifies this`connecting, this`scanDue
      ensures Variables() == Cleared(old(Variables()), failed)
    {
      connecting := false;
      if failed {
        ScheduleScanWork();
      }
    }

    method SettleWorkRun(e: Answers)
      requires initialized && settleDue
      modifies this
      ensures View() == WorkerAlone(Step(old(View()), Run(SettleWork)), e)
    {
      ghost var s := Variables().(settleDue := false);
      SettleAlone(Radio(s, ClearSettling, Waiting), e);
      settleDue := false;
      settling := false;
      assert Variables() == s.(settling := false);
      ScheduleScanWork();
    }

    method ConnectionChangedCallback(stopOk: bool)
      modifies this
      ensures View() == CallbackAlone(Step(old(View()), Raise(ConnectionChanged)), stopOk)
    {
      ChangeAlone(View().(callback := SetSettling), stopOk);
      settling := true;
      var _ := StopOwnScan(stopOk);
      ScheduleSettleWork();
    }

    // `zmk_ble_central_connect`, as the advertising callback calls it.
    method Connect(addr: Addr) returns (busy: bool)
      modifies this
      ensures View() == CallbackAlone(Step(old(View()), Raise(Advertised(addr))), true)
      ensures busy == (!old(initialized) || old(connecting))
    {
      PostAlone(View().(callback := CallbackPost(Claim(addr))), addr, true);
      if !initialized || connecting {
        return true;
      }
      connecting, log := true, log.(claimed := addr);
      address := addr;
      submitted := true;
      busy := false;
    }
  }
}
