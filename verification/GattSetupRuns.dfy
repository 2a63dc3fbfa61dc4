/** What holds over every run of the connection set-up. */
module GattSetupRuns {
  import opened Bits
  import opened Masks
  import opened HidMap
  import HidParser
  import opened GattDiscovery
  import opened GattCoverage
  import opened GattSetup

  function Later(stage: Stage): nat {
    match stage
    case Service => 7
    case Characteristics => 6
    case Descriptors => 5
    case MapStage => 4
    case References => 3
    case Protocol => 2
    case Subscriptions => 1
    case Ready => 0
  }

  // Steps still to be taken, at most: first the stages to come, then the reports of this one.
  function Rank(s: Setup): nat
    requires Inv(s)
  {
    26 * Later(s.stage)
    + (if s.stage.OnReports() then 2 * (|s.ids| - s.index) else 0)
    + (if s.work then 1 else 0)
  }

  // ---- One request at a time, within the tables, within thirty operations

  lemma BeginInv()
    ensures Inv(BEGIN)
  {
  }

  ghost predicate Advances(s: Setup, r: Setup)
    requires Inv(s)
  {
    Inv(r) && (!r.failed ==> Rank(r) < Rank(s))
  }

  // The worker has been called: it is no longer due, and nothing is awaited.
  ghost predicate Called(s: Setup, now: Setup) {
    Inv(s) && s.work && !s.failed && now == s.(work := false)
  }

  lemma RequestAdvances(s: Setup, now: Setup, ok: bool, request: Request)
    requires Called(s, now) && s.stage !in {References, Protocol, Subscriptions, Ready} && RequestOf(s) == [request]
    ensures Advances(s, Issue(now, ok, [request]))
  {
  }

  lemma ReferencesAdvance(s: Setup, now: Setup, ok: bool)
    requires Called(s, now) && s.stage == References
    ensures Advances(s, WorkReferences(now, ok))
  {
  }

  lemma ChooseAdvances(s: Setup, now: Setup, okAfter: bool)
    requires Inv(s) && s.work && !s.failed && s.stage == Protocol
    requires now == s.(work := false, operations := now.operations, writes := now.writes)
    requires now.operations <= s.operations + 1
    ensures Advances(s, ChooseReportProtocol(now, okAfter))
  {
  }

  lemma ProtocolAdvances(s: Setup, now: Setup, ok: bool, okAfter: bool)
    requires Called(s, now) && s.stage == Protocol
    ensures Advances(s, WorkProtocol(now, ok, okAfter))
  {
    if now.listing.control == 0 {
      ChooseAdvances(s, now, okAfter);
    } else if ok {
      var written := IssueWrite(now, ok, now.listing.control, false);
      assert written.outstanding == [];
      ChooseAdvances(s, written, okAfter);
    }
  }

  lemma SubscriptionsAdvance(s: Setup, now: Setup, ok: bool, admitted: bool)
    requires Called(s, now) && s.stage == Subscriptions
    ensures Advances(s, WorkSubscriptions(now, ok, admitted))
  {
  }

  lemma WorkAdvances(s: Setup, ok: bool, okAfter: bool, admitted: bool)
    requires Inv(s) && s.work && !s.failed
    ensures Advances(s, DoWork(s, ok, okAfter, admitted))
  {
    var now := s.(work := false);
    match s.stage {
      case References => ReferencesAdvance(s, now, ok);
      case Protocol => ProtocolAdvances(s, now, ok, okAfter);
      case Subscriptions => SubscriptionsAdvance(s, now, ok, admitted);
      case Ready =>
      case _ => RequestAdvances(s, now, ok, RequestOf(s)[0]);
    }
  }

  // Deliveries bring one part of a response whose end is still to come.
  predicate Delivery(e: Event) {
    e.CharacteristicFound? || e.DescriptorFound? || e.ReadData?
  }

  ghost predicate Delivers(s: Setup, r: Setup)
    requires Inv(s)
  {
    Inv(r) && (!r.failed ==> Rank(r) == Rank(s) && r.outstanding == s.outstanding && r.operations == s.operations)
  }

  lemma DeliveryDelivers(s: Setup, e: Event)
    requires Inv(s) && Answers(s, e) && !s.failed && Delivery(e)
    ensures Delivers(s, Callback(s, e))
  {
  }

  lemma EndOfReadAdvances(s: Setup)
    requires Inv(s) && Answers(s, ReadEnded) && !s.failed
    ensures Advances(s, OnReadEnded(s))
  {
  }

  lemma SubscribedAdvances(s: Setup)
    requires Inv(s) && Answers(s, Answered) && !s.failed
    ensures Advances(s, Callback(s, Answered))
  {
  }

  lemma CallbackAdvances(s: Setup, e: Event)
    requires Inv(s) && Answers(s, e) && !s.failed && !e.Work? && !Delivery(e)
    ensures Advances(s, Callback(s, e))
  {
    match e {
      case ReadEnded => EndOfReadAdvances(s);
      case Answered => SubscribedAdvances(s);
      case _ =>
    }
  }

  lemma StepKeepsInv(s: Setup, e: Event)
    requires Inv(s)
    ensures Inv(Step(s, e))
  {
    if e.Work? && s.work && !s.failed {
      WorkAdvances(s, e.ok, e.okAfter, e.admitted);
    } else if !e.Work? && Answers(s, e) && !s.failed {
      if Delivery(e) { DeliveryDelivers(s, e); } else { CallbackAdvances(s, e); }
    }
  }

  // ---- Runs

  ghost function Run(events: seq<Event>): (r: Setup)
    ensures Inv(r)
  {
    if events == [] then BEGIN
    else
      var before := Run(events[..|events| - 1]);
      StepKeepsInv(before, events[|events| - 1]);
      Step(before, events[|events| - 1])
  }

  /** At most one request is awaited, the tables are respected, and setting up takes at most thirty operations. */
  lemma SetupBounds(events: seq<Event>)
    ensures var s := Run(events);
            && |s.outstanding| <= 1
            && s.index <= |s.listing.reports| <= MAX_CHARACTERISTICS
            && s.operations <= 30
            && (!s.failed && s.stage != Ready ==> (s.work && s.outstanding == []) || (!s.work && |s.outstanding| == 1))
  {
  }

  // An event that the set-up acts on, other than a delivery or its abandonment.
  predicate Effective(s: Setup, e: Event) {
    !s.failed && !Delivery(e) && !e.Abandoned? && Answers(s, e) && (e.Work? ==> s.work)
  }

  ghost function EffectiveSteps(events: seq<Event>): nat {
    if events == [] then 0
    else
      var init := events[..|events| - 1];
      EffectiveSteps(init) + if Effective(Run(init), events[|events| - 1]) then 1 else 0
  }

  /** Whatever the peer answers, the set-up ends: it takes at most 183 effective steps to READY or failure. */
  lemma {:induction false} SetupEnds(events: seq<Event>)
    ensures EffectiveSteps(events) + (if Run(events).failed then 0 else Rank(Run(events))) <= 183
  {
    if events != [] {
      var init, e := events[..|events| - 1], events[|events| - 1];
      var s := Run(init);
      SetupEnds(init);
      if e.Work? && s.work && !s.failed {
        WorkAdvances(s, e.ok, e.okAfter, e.admitted);
      } else if !e.Work? && Answers(s, e) && !s.failed {
        if Delivery(e) { DeliveryDelivers(s, e); } else { CallbackAdvances(s, e); }
      }
    }
  }

  lemma FailedOn(events: seq<Event>, e: Event)
    requires Run(events).failed || e.Abandoned? || (e.ErrorResponse? && Answers(Run(events), e))
    ensures Run(events + [e]).failed
  {
    assert (events + [e])[..|events|] == events;
    StepFails(Run(events), e);
  }

  lemma StepFails(s: Setup, e: Event)
    requires Inv(s) && (s.failed || e.Abandoned? || (e.ErrorResponse? && Answers(s, e)))
    ensures Step(s, e).failed
  {
  }

  /** An error response to what is awaited, and an abandonment, fail the set-up, and it never recovers. */
  lemma {:induction false} FailureIsFinal(events: seq<Event>, e: Event, more: seq<Event>)
    requires Run(events).failed || e.Abandoned? || (e.ErrorResponse? && Answers(Run(events), e))
    ensures Run(events + [e] + more).failed
  {
    if more == [] {
      FailedOn(events, e);
      assert events + [e] + [] == events + [e];
    } else {
      var init, last := more[..|more| - 1], more[|more| - 1];
      FailureIsFinal(events, e, init);
      FailedOn(events + [e] + init, last);
      assert events + [e] + more == (events + [e] + init) + [last];
    }
  }

  // ---- What READY means

  // The layout is what the parser accepted.
  ghost predicate Parsed(data: seq<byte>, layout: Layout) {
    && 0 < |data| <= 1024
    && HidParser.Parse(data) == HidParser.Added(Ok, layout)
    && layout.buttons == ALL_BUTTONS && layout.wheel && layout.pan
  }

  predicate Early(stage: Stage) {
    stage == Service || stage == Characteristics || stage == Descriptors || stage == MapStage
  }

  predicate MustBeParsed(s: Setup) {
    !Early(s.stage) && (s.stage == References ==> s.layout.reports != [] || s.outstanding != [])
  }

  ghost predicate LayoutInv(s: Setup) {
    (Early(s.stage) ==> s.layout.reports == []) && (MustBeParsed(s) ==> Parsed(s.mapData, s.layout))
  }

  lemma ParseOnceParses(s: Setup)
    requires !s.failed && (s.layout.reports != [] ==> Parsed(s.mapData, s.layout))
    ensures var r := ParseOnce(s); !r.failed ==> Parsed(r.mapData, r.layout)
  {
  }

  lemma ProtocolStage(s: Setup, now: Setup, ok: bool, okAfter: bool)
    requires Called(s, now) && s.stage == Protocol
    ensures var r := WorkProtocol(now, ok, okAfter); !r.failed ==> r.stage == Protocol || r.stage == Subscriptions
  {
  }

  lemma SubscriptionsStage(s: Setup, now: Setup, ok: bool, admitted: bool)
    requires Called(s, now) && s.stage == Subscriptions
    ensures var r := WorkSubscriptions(now, ok, admitted); !r.failed ==> r.stage == Subscriptions || r.stage == Ready
  {
  }

  lemma OtherWorkLayout(s: Setup, ok: bool, okAfter: bool, admitted: bool)
    requires Inv(s) && s.work && !s.failed && s.stage != References
    ensures var r := DoWork(s, ok, okAfter, admitted);
            && SameLayout(s, r)
            && (!r.failed ==> if Early(s.stage) then r.stage == s.stage else MustBeParsed(r) && MustBeParsed(s))
  {
    var now := s.(work := false);
    match s.stage {
      case Protocol => ProtocolStage(s, now, ok, okAfter);
      case Subscriptions => SubscriptionsStage(s, now, ok, admitted);
      case _ =>
    }
  }

  lemma ReferencesLayout(s: Setup, now: Setup, ok: bool)
    requires Called(s, now) && s.stage == References
    ensures var r := WorkReferences(now, ok); var parsed := ParseOnce(now);
            !r.failed ==> !parsed.failed && r.layout == parsed.layout && r.mapData == parsed.mapData
                          && (r.stage == References || r.stage == Protocol)
  {
  }

  lemma WorkKeepsLayout(s: Setup, ok: bool, okAfter: bool, admitted: bool)
    requires Inv(s) && s.work && !s.failed && LayoutInv(s)
    ensures var r := DoWork(s, ok, okAfter, admitted); !r.failed ==> LayoutInv(r)
  {
    if s.stage == References {
      ParseOnceParses(s.(work := false));
      ReferencesLayout(s, s.(work := false), ok);
    } else {
      OtherWorkLayout(s, ok, okAfter, admitted);
    }
  }

  // A callback leaves the layout alone, and the map too once it has been read.
  ghost predicate KeepsParsed(s: Setup, r: Setup) {
    && r.layout == s.layout
    && (!Early(s.stage) ==> r.mapData == s.mapData && !Early(r.stage))
    && (!r.failed && MustBeParsed(r) ==> MustBeParsed(s))
  }

  lemma ReadEndedLayout(s: Setup)
    requires Inv(s) && Answers(s, ReadEnded) && !s.failed && LayoutInv(s)
    ensures KeepsParsed(s, OnReadEnded(s))
  {
  }

  lemma AnsweredLayout(s: Setup)
    requires Inv(s) && Answers(s, Answered) && !s.failed && LayoutInv(s)
    ensures KeepsParsed(s, Callback(s, Answered))
  {
  }

  lemma CallbackLayout(s: Setup, e: Event)
    requires Inv(s) && Answers(s, e) && !s.failed && !e.Work? && LayoutInv(s)
    ensures KeepsParsed(s, Callback(s, e))
  {
    match e {
      case ReadEnded => ReadEndedLayout(s);
      case Answered => AnsweredLayout(s);
      case _ =>
    }
  }

  lemma CallbackKeepsLayout(s: Setup, e: Event)
    requires Inv(s) && Answers(s, e) && !s.failed && !e.Work? && LayoutInv(s)
    ensures var r := Callback(s, e); !r.failed ==> LayoutInv(r)
  {
    CallbackLayout(s, e);
  }

  ghost predicate SourcesFit(layout: Layout, sources: seq<nat>) {
    forall k :: k in sources ==> k < |layout.reports| && layout.reports[k].useful
  }

  ghost predicate CoverInv(s: Setup) {
    && Covers(s.layout.fields, s.sources, s.coveredButtons, s.coveredAxes)
    && SourcesFit(s.layout, s.sources)
    && (s.stage != Subscriptions && s.stage != Ready ==> s.sources == [] && s.coveredButtons == 0 && s.coveredAxes == 0)
    && (s.stage == Ready ==> s.sources != [] && s.coveredButtons == ALL_BUTTONS && s.coveredAxes == ALL_AXES)
    && (s.stage == Subscriptions && s.outstanding != [] && s.index < |s.ids| ==> Wanted(s.layout, s.ids[s.index]))
  }

  lemma FinishKeepsCover(s: Setup, now: Setup, ok: bool, admitted: bool)
    requires Called(s, now) && s.stage == Subscriptions && CoverInv(s)
    ensures var r := WorkSubscriptions(now, ok, admitted); !r.failed ==> CoverInv(r)
  {
    SubscriptionsStage(s, now, ok, admitted);
  }

  lemma ReferencesCover(s: Setup, now: Setup, ok: bool)
    requires Called(s, now) && s.stage == References && CoverInv(s)
    ensures var r := WorkReferences(now, ok); !r.failed ==> CoverInv(r)
  {
    ReferencesLayout(s, now, ok);
    NothingCovered(WorkReferences(now, ok).layout.fields);
  }

  lemma WorkKeepsCover(s: Setup, ok: bool, okAfter: bool, admitted: bool)
    requires Inv(s) && s.work && !s.failed && CoverInv(s)
    ensures var r := DoWork(s, ok, okAfter, admitted); !r.failed ==> CoverInv(r)
  {
    var now := s.(work := false);
    match s.stage {
      case References => ReferencesCover(s, now, ok);
      case Protocol => ProtocolStage(s, now, ok, okAfter);
      case Subscriptions => FinishKeepsCover(s, now, ok, admitted);
      case _ => OtherWorkLayout(s, ok, okAfter, admitted);
    }
  }

  lemma SubscribedKeepsCover(s: Setup)
    requires Inv(s) && Answers(s, Answered) && !s.failed && CoverInv(s)
    ensures CoverInv(Callback(s, Answered))
  {
    if s.stage == Subscriptions {
      CoverOneMore(s.layout.fields, s.sources, s.coveredButtons, s.coveredAxes,
                   FindReport(s.layout.reports, s.ids[s.index].id));
    }
  }

  lemma CallbackKeepsCover(s: Setup, e: Event)
    requires Inv(s) && Answers(s, e) && !s.failed && !e.Work? && CoverInv(s)
    ensures var r := Callback(s, e); !r.failed ==> CoverInv(r)
  {
    if e.Answered? {
      SubscribedKeepsCover(s);
    }
  }

  lemma {:induction false} RunParsesAndCovers(events: seq<Event>)
    ensures var s := Run(events); !s.failed ==> LayoutInv(s) && CoverInv(s)
  {
    if events == [] {
      NothingCovered([]);
    } else {
      var init, e := events[..|events| - 1], events[|events| - 1];
      var s := Run(init);
      RunParsesAndCovers(init);
      if e.Work? && s.work && !s.failed {
        WorkKeepsLayout(s, e.ok, e.okAfter, e.admitted);
        WorkKeepsCover(s, e.ok, e.okAfter, e.admitted);
      } else if !e.Work? && Answers(s, e) && !s.failed {
        CallbackKeepsLayout(s, e);
        CallbackKeepsCover(s, e);
      }
    }
  }

  /**
   READY is reached only with the layout that the parser accepted for the map that was read, at least
   one subscribed report, and all five buttons and all four axes among the subscribed reports' fields.
   */
  lemma ReadyMeansCovered(events: seq<Event>)
    ensures var s := Run(events);
            s.stage == Ready && !s.failed ==>
              && Parsed(s.mapData, s.layout)
              && s.sources != [] && SourcesFit(s.layout, s.sources)
              && Complete(s.layout.fields, s.sources)
  {
    var s := Run(events);
    RunParsesAndCovers(events);
    if s.stage == Ready && !s.failed {
      FullMasksExactly(s.layout.fields, s.sources, s.coveredButtons, s.coveredAxes);
    }
  }

  /** At the end of the reports set-up succeeds exactly when the subscribed fields are complete and the peer is admitted. */
  lemma FinishExactly(events: seq<Event>, admitted: bool)
    ensures var s := Run(events);
            s.stage == Subscriptions && !s.failed ==>
              (!Finish(s, admitted).failed <==> s.sources != [] && Complete(s.layout.fields, s.sources) && admitted)
  {
    var s := Run(events);
    RunParsesAndCovers(events);
    if s.stage == Subscriptions && !s.failed {
      FullMasksExactly(s.layout.fields, s.sources, s.coveredButtons, s.coveredAxes);
    }
  }
}
