/** Which reports are subscribed to, and what is written to the peer, in every run of the set-up (src/ble_mouse.c). */
module GattReferences {
  import opened Bits
  import opened HidMap
  import HidParser
  import HidInvariant
  import opened GattDiscovery
  import opened GattSetup
  import opened GattSetupRuns

  // ---- The references that have been read

  // The event brings part of the reference of report `k`.
  ghost predicate Brings(s: Setup, e: Event, k: nat) {
    e.ReadData? && Answers(s, e) && !s.failed && s.stage == References && s.index == k
  }

  // All that was delivered for the reference of report `k`.
  ghost function ReferenceBytes(events: seq<Event>, k: nat): seq<byte> {
    if events == [] then []
    else
      var init, e := events[..|events| - 1], events[|events| - 1];
      ReferenceBytes(init, k) + if Brings(Run(init), e, k) then e.data else []
  }

  const UNREAD := ReportId(0, 0)

  // The report's id and type are the two bytes of its reference, if it has one.
  ghost predicate Known(s: Setup, k: nat, bytes: seq<byte>)
    requires k < |s.ids| == |s.listing.reports|
  {
    if s.listing.reports[k].reference == 0 then bytes == [] && s.ids[k] == UNREAD
    else |bytes| == 2 && s.ids[k] == ReportId(bytes[0], bytes[1])
  }

  ghost predicate RefAt(s: Setup, k: nat, bytes: seq<byte>)
    requires Inv(s)
  {
    if Early(s.stage) then bytes == [] && (k < |s.ids| ==> s.ids[k] == UNREAD)
    else if k >= |s.ids| then true
    else if s.stage != References || k < s.index then Known(s, k, bytes)
    else s.ids[k] == UNREAD && bytes == if k == s.index && !s.work then s.reference else []
  }

  lemma {:induction false} Skipped(reports: seq<ReportHandles>, i: nat, k: nat)
    requires i <= |reports| && i <= k < SkipUnreferenced(reports, i)
    ensures k < |reports| && reports[k].reference == 0
    decreases |reports| - i
  {
    if i < k {
      Skipped(reports, i + 1, k);
    }
  }

  // The worker has found the next reference to read, or none.
  lemma SkippedRefAt(s: Setup, now: Setup, ok: bool, k: nat, bytes: seq<byte>)
    requires Called(s, now) && s.stage == References && RefAt(s, k, bytes)
    ensures var r := WorkReferences(now, ok); Inv(r) && (!r.failed ==> RefAt(r, k, bytes))
  {
    ReferencesAdvance(s, now, ok);
    ReferencesLayout(s, now, ok);
    var r, j := WorkReferences(now, ok), SkipUnreferenced(s.listing.reports, s.index);
    if s.index <= k < j {
      Skipped(s.listing.reports, s.index, k);
    }
  }

  // The worker leaves what has been found and read alone.
  ghost predicate SameReports(s: Setup, r: Setup) {
    r.ids == s.ids && r.listing == s.listing
  }

  lemma IssueSame(s: Setup, ok: bool, awaits: seq<Request>)
    ensures var r := Issue(s, ok, awaits);
            SameReports(s, r) && r.stage == s.stage && r.sources == s.sources && r.index == s.index
  {
  }

  lemma ProtocolSame(s: Setup, ok: bool, okAfter: bool)
    ensures var r := WorkProtocol(s, ok, okAfter); SameReports(s, r) && r.sources == s.sources && r.index == s.index
  {
  }

  lemma SubscriptionsSame(s: Setup, ok: bool, admitted: bool)
    requires s.index <= |s.ids| == |s.listing.reports|
    ensures SameReports(s, WorkSubscriptions(s, ok, admitted))
  {
  }

  lemma SameRefAt(s: Setup, r: Setup, k: nat, bytes: seq<byte>)
    requires Inv(s) && Inv(r) && SameReports(s, r) && RefAt(s, k, bytes) && s.stage != References && r.stage != References
    requires Early(s.stage) == Early(r.stage)
    ensures RefAt(r, k, bytes)
  {
  }

  lemma WorkRefAt(s: Setup, e: Event, k: nat, bytes: seq<byte>)
    requires Inv(s) && s.work && !s.failed && e.Work? && RefAt(s, k, bytes)
    ensures var r := DoWork(s, e.ok, e.okAfter, e.admitted); Inv(r) && (!r.failed ==> RefAt(r, k, bytes))
  {
    var now, r := s.(work := false), DoWork(s, e.ok, e.okAfter, e.admitted);
    WorkAdvances(s, e.ok, e.okAfter, e.admitted);
    if s.stage == References {
      SkippedRefAt(s, now, e.ok, k, bytes);
    } else {
      RestOfWork(s, e);
      if !r.failed {
        SameRefAt(s, r, k, bytes);
      }
    }
  }

  lemma RestOfWork(s: Setup, e: Event)
    requires Inv(s) && s.work && !s.failed && e.Work? && s.stage != References
    ensures var r := DoWork(s, e.ok, e.okAfter, e.admitted);
            SameReports(s, r) && (!r.failed ==> r.stage != References && Early(r.stage) == Early(s.stage))
  {
    var now := s.(work := false);
    if Early(s.stage) {
      IssueSame(now, e.ok, RequestOf(s));
    } else if s.stage == Protocol {
      ProtocolStage(s, now, e.ok, e.okAfter);
      ProtocolSame(now, e.ok, e.okAfter);
    } else if s.stage == Subscriptions {
      SubscriptionsStage(s, now, e.ok, e.admitted);
      SubscriptionsSame(now, e.ok, e.admitted);
    }
  }

  lemma ReadEndedRefAt(s: Setup, k: nat, bytes: seq<byte>)
    requires Inv(s) && Answers(s, ReadEnded) && !s.failed && RefAt(s, k, bytes)
    requires s.stage == References ==> s.listing.reports[s.index].reference != 0
    ensures var r := OnReadEnded(s); Inv(r) && (!r.failed ==> RefAt(r, k, bytes))
  {
    EndOfReadAdvances(s);
  }

  lemma DeliveryRefAt(s: Setup, e: Event, k: nat, bytes: seq<byte>)
    requires Inv(s) && Answers(s, e) && !s.failed && Delivery(e) && RefAt(s, k, bytes)
    ensures var r := Callback(s, e); Inv(r) && (!r.failed ==> RefAt(r, k, bytes + if Brings(s, e, k) then e.data else []))
  {
    DeliveryDelivers(s, e);
  }

  lemma OtherRefAt(s: Setup, e: Event, k: nat, bytes: seq<byte>)
    requires Inv(s) && Answers(s, e) && !s.failed && !e.Work? && !Delivery(e) && !e.ReadEnded? && RefAt(s, k, bytes)
    ensures var r := Callback(s, e); Inv(r) && (!r.failed ==> RefAt(r, k, bytes))
  {
    CallbackAdvances(s, e);
  }

  // What is read is a reference that the report has.
  ghost predicate ReadsReference(s: Setup)
    requires Inv(s)
  {
    s.stage == References && s.outstanding != [] ==> s.listing.reports[s.index].reference != 0
  }

  lemma StepReadsReference(s: Setup, e: Event)
    requires Inv(s) && ReadsReference(s) && !s.failed
    ensures Inv(Step(s, e)) && (!Step(s, e).failed ==> ReadsReference(Step(s, e)))
  {
    StepKeepsInv(s, e);
    if e.Work? && s.work {
      WorkReadsReference(s, e);
    } else if !e.Work? && Answers(s, e) {
      CallbackReadsReference(s, e);
    }
  }

  lemma WorkReadsReference(s: Setup, e: Event)
    requires Inv(s) && s.work && !s.failed && e.Work?
    ensures var r := DoWork(s, e.ok, e.okAfter, e.admitted); Inv(r) && (!r.failed ==> ReadsReference(r))
  {
    WorkAdvances(s, e.ok, e.okAfter, e.admitted);
    if s.stage == References {
      ReferencesReads(s, s.(work := false), e.ok);
    } else {
      RestOfWork(s, e);
    }
  }

  lemma ReferencesReads(s: Setup, now: Setup, ok: bool)
    requires Called(s, now) && s.stage == References
    ensures var r := WorkReferences(now, ok); Inv(r) && (!r.failed ==> ReadsReference(r))
  {
    ReferencesAdvance(s, now, ok);
    ReferencesLayout(s, now, ok);
  }

  lemma CallbackReadsReference(s: Setup, e: Event)
    requires Inv(s) && !s.failed && !e.Work? && Answers(s, e) && ReadsReference(s)
    ensures var r := Callback(s, e); Inv(r) && (!r.failed ==> ReadsReference(r))
  {
    if Delivery(e) { DeliveryDelivers(s, e); } else { CallbackAdvances(s, e); }
  }

  lemma StepRefAt(s: Setup, e: Event, k: nat, bytes: seq<byte>)
    requires Inv(s) && ReadsReference(s) && !s.failed && RefAt(s, k, bytes)
    ensures var r := Step(s, e); Inv(r) && (!r.failed ==> RefAt(r, k, bytes + if Brings(s, e, k) then e.data else []))
  {
    StepKeepsInv(s, e);
    assert bytes + [] == bytes;
    if e.Work? {
      if s.work {
        WorkRefAt(s, e, k, bytes);
      }
    } else if Answers(s, e) {
      if Delivery(e) {
        DeliveryRefAt(s, e, k, bytes);
      } else if e.ReadEnded? {
        ReadEndedRefAt(s, k, bytes);
      } else {
        OtherRefAt(s, e, k, bytes);
      }
    }
  }

  lemma {:induction false} RunRefAt(events: seq<Event>, k: nat)
    ensures var s := Run(events); !s.failed ==> ReadsReference(s) && RefAt(s, k, ReferenceBytes(events, k))
  {
    if events != [] {
      var init, e := events[..|events| - 1], events[|events| - 1];
      RunRefAt(init, k);
      if !Run(init).failed {
        StepReadsReference(Run(init), e);
        StepRefAt(Run(init), e, k, ReferenceBytes(init, k));
      } else {
        FailedStays(Run(init), e);
      }
    }
  }

  lemma FailedStays(s: Setup, e: Event)
    requires Inv(s) && s.failed
    ensures Step(s, e).failed
  {
  }

  /**
   In every run, once the references have been read, each report that has one is known by its two bytes, the
   id and then the type, exactly as they were delivered for it; while they are being read, so are those before.
   */
  lemma ReferencesAreBytes(events: seq<Event>, k: nat)
    ensures var s := Run(events); var bytes := ReferenceBytes(events, k);
            !s.failed && k < |s.ids| && !Early(s.stage) && (s.stage == References ==> k < s.index) ==>
              if s.listing.reports[k].reference == 0 then s.ids[k] == ReportId(0, 0)
              else |bytes| == 2 && s.ids[k].id == bytes[0] && s.ids[k].kind == bytes[1]
  {
    RunRefAt(events, k);
  }

  // ---- The reports that are subscribed to

  // The layout's reports for those of the first `n` references that are wanted, in order.
  function Chosen(layout: Layout, ids: seq<ReportId>, n: nat): seq<nat>
    requires n <= |ids|
  {
    if n == 0 then []
    else
      Chosen(layout, ids, n - 1) + if Wanted(layout, ids[n - 1]) then [FindReport(layout.reports, ids[n - 1].id)] else []
  }

  lemma {:induction false} SkipChooses(layout: Layout, ids: seq<ReportId>, i: nat)
    requires i <= |ids|
    ensures Chosen(layout, ids, SkipUnwanted(layout, ids, i)) == Chosen(layout, ids, i)
    decreases |ids| - i
  {
    if i < |ids| && !Wanted(layout, ids[i]) {
      SkipChooses(layout, ids, i + 1);
    }
  }

  ghost predicate SourcesInv(s: Setup)
    requires Inv(s)
  {
    s.sources == if s.stage == Subscriptions then Chosen(s.layout, s.ids, s.index)
                 else if s.stage == Ready then Chosen(s.layout, s.ids, |s.ids|) else []
  }

  lemma SubscriptionsSources(s: Setup, now: Setup, ok: bool, admitted: bool)
    requires Called(s, now) && s.stage == Subscriptions && SourcesInv(s)
    ensures var r := WorkSubscriptions(now, ok, admitted); Inv(r) && (!r.failed ==> SourcesInv(r))
  {
    SubscriptionsAdvance(s, now, ok, admitted);
    SubscriptionsSkip(s, now, ok, admitted);
    SkipChooses(s.layout, s.ids, s.index);
  }

  lemma SubscriptionsSkip(s: Setup, now: Setup, ok: bool, admitted: bool)
    requires Called(s, now) && s.stage == Subscriptions
    ensures var r, j := WorkSubscriptions(now, ok, admitted), SkipUnwanted(s.layout, s.ids, s.index);
            && r.sources == s.sources && r.layout == s.layout && r.ids == s.ids
            && (!r.failed ==> r.index == j && (r.stage == Subscriptions || (r.stage == Ready && j == |s.ids|)))
  {
  }

  lemma WorkSources(s: Setup, e: Event)
    requires Inv(s) && s.work && !s.failed && e.Work? && SourcesInv(s)
    ensures var r := DoWork(s, e.ok, e.okAfter, e.admitted); Inv(r) && (!r.failed ==> SourcesInv(r))
  {
    var now, r := s.(work := false), DoWork(s, e.ok, e.okAfter, e.admitted);
    WorkAdvances(s, e.ok, e.okAfter, e.admitted);
    if s.stage == Subscriptions {
      SubscriptionsSources(s, now, e.ok, e.admitted);
    } else if s.stage == References {
      ReferencesLayout(s, now, e.ok);
    } else {
      RestOfWork(s, e);
      BeforeSubscriptions(s, e);
    }
  }

  lemma BeforeSubscriptions(s: Setup, e: Event)
    requires Inv(s) && s.work && !s.failed && e.Work? && s.stage != Subscriptions && s.stage != References
    ensures var r := DoWork(s, e.ok, e.okAfter, e.admitted);
            r.sources == s.sources && r.index == s.index && (!r.failed ==> (r.stage == Ready <==> s.stage == Ready))
  {
    var now := s.(work := false);
    if Early(s.stage) {
      IssueSame(now, e.ok, RequestOf(s));
    } else if s.stage == Protocol {
      ProtocolSame(now, e.ok, e.okAfter);
      ProtocolStage(s, now, e.ok, e.okAfter);
    }
  }

  lemma AnsweredSources(s: Setup)
    requires Inv(s) && Answers(s, Answered) && !s.failed && SourcesInv(s) && CoverInv(s)
    ensures var r := Callback(s, Answered); Inv(r) && (!r.failed ==> SourcesInv(r))
  {
    SubscribedAdvances(s);
  }

  lemma CallbackSources(s: Setup, e: Event)
    requires Inv(s) && Answers(s, e) && !s.failed && !e.Work? && SourcesInv(s) && CoverInv(s)
    ensures var r := Callback(s, e); Inv(r) && (!r.failed ==> SourcesInv(r))
  {
    if e.Answered? {
      AnsweredSources(s);
    } else if Delivery(e) {
      DeliveryDelivers(s, e);
    } else {
      CallbackAdvances(s, e);
    }
  }

  lemma {:induction false} RunSources(events: seq<Event>)
    ensures var s := Run(events); !s.failed ==> SourcesInv(s)
  {
    if events != [] {
      var init, e := events[..|events| - 1], events[|events| - 1];
      var s := Run(init);
      RunSources(init);
      RunParsesAndCovers(init);
      if e.Work? && s.work && !s.failed {
        WorkSources(s, e);
      } else if !e.Work? && Answers(s, e) && !s.failed {
        CallbackSources(s, e);
      }
    }
  }

  lemma {:induction false} ChosenAre(layout: Layout, ids: seq<ReportId>, n: nat, r: nat)
    requires n <= |ids| && DistinctIds(layout.reports)
    ensures r in Chosen(layout, ids, n)
            <==> r < |layout.reports| && layout.reports[r].useful
                 && exists k :: 0 <= k < n && ids[k] == ReportId(layout.reports[r].id, INPUT_TYPE)
  {
    if n > 0 {
      ChosenAre(layout, ids, n - 1, r);
    }
  }

  // The reference delivered for report `k` names this id, as an input report.
  ghost predicate NamedInput(events: seq<Event>, k: nat, id: byte) {
    ReferenceBytes(events, k) == [id, 1]
  }

  lemma NamedById(events: seq<Event>, k: nat, id: byte)
    requires var s := Run(events); !s.failed && !Early(s.stage) && s.stage != References && k < |s.ids|
    ensures Run(events).ids[k] == ReportId(id, INPUT_TYPE) <==> NamedInput(events, k, id)
  {
    RunRefAt(events, k);
  }

  /**
   In every run that ends READY, the subscribed reports are exactly those of the accepted layout that hold a
   field and that some report characteristic's reference, as it was delivered, names as an input report.
   */
  lemma SubscribedExactly(events: seq<Event>, r: nat)
    ensures var s := Run(events);
            s.stage == Ready && !s.failed ==>
              (r in s.sources <==> r < |s.layout.reports| && s.layout.reports[r].useful
                                   && exists k :: 0 <= k < |s.ids| && NamedInput(events, k, s.layout.reports[r].id))
  {
    var s := Run(events);
    if s.stage == Ready && !s.failed {
      RunSources(events);
      RunParsesAndCovers(events);
      HidInvariant.ParseWellFormed(s.mapData, HidParser.START);
      ChosenAre(s.layout, s.ids, |s.ids|, r);
      if r < |s.layout.reports| {
        forall k | 0 <= k < |s.ids|
          ensures s.ids[k] == ReportId(s.layout.reports[r].id, INPUT_TYPE) <==> NamedInput(events, k, s.layout.reports[r].id)
        {
          NamedById(events, k, s.layout.reports[r].id);
        }
      }
    }
  }

  // ---- What is written

  // One to the control point, so that the peer is not suspended, and one to the protocol mode: the report protocol.
  function ProperWrites(l: Listing): seq<Write> {
    (if l.control == 0 then [] else [Write(l.control, 1, false)])
    + if l.protocol == 0 then [] else [Write(l.protocol, 1, l.properties / 4 % 2 == 0)]
  }

  ghost predicate WritesInv(s: Setup) {
    s.writes == if Early(s.stage) || s.stage == References || (s.stage == Protocol && s.work) then []
                else ProperWrites(s.listing)
  }

  lemma ProtocolWrites(s: Setup, now: Setup, ok: bool, okAfter: bool)
    requires Called(s, now) && s.stage == Protocol && WritesInv(s)
    ensures var r := WorkProtocol(now, ok, okAfter); !r.failed ==> WritesInv(r)
  {
  }

  lemma IssueKeepsWrites(s: Setup, ok: bool, awaits: seq<Request>)
    ensures Issue(s, ok, awaits).writes == s.writes
  {
  }

  lemma SubscriptionsWrites(s: Setup, now: Setup, ok: bool, admitted: bool)
    requires Called(s, now) && s.stage == Subscriptions
    ensures WorkSubscriptions(now, ok, admitted).writes == s.writes
  {
  }

  lemma ReferencesWrites(s: Setup, now: Setup, ok: bool)
    requires Called(s, now) && s.stage == References && WritesInv(s)
    ensures var r := WorkReferences(now, ok); !r.failed ==> WritesInv(r)
  {
  }

  lemma WorkWrites(s: Setup, e: Event)
    requires Inv(s) && s.work && !s.failed && e.Work? && WritesInv(s)
    ensures var r := DoWork(s, e.ok, e.okAfter, e.admitted); !r.failed ==> WritesInv(r)
  {
    var now := s.(work := false);
    if s.stage == Protocol {
      ProtocolWrites(s, now, e.ok, e.okAfter);
    } else if s.stage == References {
      ReferencesWrites(s, now, e.ok);
    } else {
      RestOfWork(s, e);
      if Early(s.stage) {
        IssueKeepsWrites(now, e.ok, RequestOf(s));
      } else if s.stage == Subscriptions {
        SubscriptionsWrites(s, now, e.ok, e.admitted);
        SubscriptionsStage(s, now, e.ok, e.admitted);
      }
    }
  }

  lemma CallbackWrites(s: Setup, e: Event)
    requires Inv(s) && Answers(s, e) && !s.failed && !e.Work? && WritesInv(s)
    ensures var r := Callback(s, e); !r.failed ==> WritesInv(r)
  {
    match e {
      case ReadEnded =>
      case Answered =>
      case _ =>
    }
  }

  lemma {:induction false} RunWrites(events: seq<Event>)
    ensures var s := Run(events); !s.failed ==> WritesInv(s)
  {
    if events != [] {
      var init, e := events[..|events| - 1], events[|events| - 1];
      var s := Run(init);
      RunWrites(init);
      if e.Work? && s.work && !s.failed {
        WorkWrites(s, e);
      } else if !e.Work? && Answers(s, e) && !s.failed {
        CallbackWrites(s, e);
      }
    }
  }

  /**
   In every run, before any report is subscribed to, the report protocol is selected: a peer with a Protocol
   Mode characteristic has been written it, with a response exactly if the characteristic takes no write
   without one, after a control point has been told not to be suspended; and nothing else is ever written.
   */
  lemma ReportProtocolSelected(events: seq<Event>)
    ensures var s := Run(events);
            !s.failed && (s.stage == Subscriptions || s.stage == Ready) ==>
              && (s.listing.protocol != 0 ==>
                    s.writes != [] && s.writes[|s.writes| - 1] == Write(s.listing.protocol, 1, s.listing.properties / 4 % 2 == 0))
              && (s.listing.control != 0 ==> s.writes != [] && s.writes[0] == Write(s.listing.control, 1, false))
              && |s.writes| == (if s.listing.protocol != 0 then 1 else 0) + if s.listing.control != 0 then 1 else 0
  {
    RunWrites(events);
  }
}
