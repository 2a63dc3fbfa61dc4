/** Runs of the advertiser table against an unbounded record of the same advertisements. */
module AdvertRuns {
  import opened Bits
  import opened AdvertCache

  // ---- What justifies a connection, in terms of the run alone

  ghost predicate Timed(run: seq<Advert>) {
    && (forall k :: 0 <= k < |run| ==> run[k].now >= 1)
    && forall j, k :: 0 <= j <= k < |run| ==> run[j].now <= run[k].now
  }

  // From advertisement `i` to `n`, the address of `n` is never silent for a whole window.
  ghost predicate Unbroken(run: seq<Advert>, i: nat, n: nat)
    requires n < |run|
  {
    && i <= n && run[i].addr == run[n].addr
    && forall k :: i < k <= n && run[k].addr == run[n].addr ==> HeardBefore(run, i, k)
  }

  ghost predicate HeardBefore(run: seq<Advert>, i: nat, k: nat)
    requires k < |run|
  {
    exists j :: i <= j < k && run[j].addr == run[k].addr && run[k].now - run[j].now < 2000
  }

  datatype Trait = IsAdvInd | IsNamed

  predicate Shows(a: Advert, t: Trait) {
    match t
    case IsAdvInd => a.isAdvInd
    case IsNamed => exists k :: 0 <= k < |a.data| && SaysM720(a.data[k])
  }

  // A shortened (8) or complete (9) local name that begins with "M720".
  predicate SaysM720(d: AdData) {
    d.kind in {8, 9} && |d.data| >= 4
    && d.data[0] == 'M' as int && d.data[1] == '7' as int && d.data[2] == '2' as int && d.data[3] == '0' as int
  }

  /** These are the names that the parser of advertising data looks for. */
  lemma NamedExactly(a: Advert)
    ensures Named(a) <==> Shows(a, IsNamed)
  {
    forall d | d in a.data
      ensures NamesMouse(d) <==> SaysM720(d)
    {
      assert |d.data| >= 4 ==> d.data[..4] == [d.data[0], d.data[1], d.data[2], d.data[3]];
    }
  }

  // An advertisement with the trait leads to `n` in an unbroken chain.
  ghost predicate Heard(run: seq<Advert>, n: nat, t: Trait)
    requires n < |run|
  {
    exists i: nat :: Unbroken(run, i, n) && Shows(run[i], t)
  }

  ghost predicate Justified(run: seq<Advert>, n: nat)
    requires n < |run|
  {
    Heard(run, n, IsAdvInd) && Heard(run, n, IsNamed)
  }

  // No later advertisement of this address before position `n`.
  ghost predicate LastBefore(run: seq<Advert>, u: nat, n: nat)
    requires u < n < |run|
  {
    run[u].addr == run[n].addr && forall k :: u < k < n ==> run[k].addr != run[n].addr
  }

  /** A chain reaches `n` through the last advertisement before it, or starts at `n`. */
  lemma HeardExtends(run: seq<Advert>, u: nat, n: nat, t: Trait)
    requires Timed(run) && u < n < |run| && LastBefore(run, u, n) && run[n].now - run[u].now < WINDOW
    ensures Heard(run, n, t) <==> Heard(run, u, t) || Shows(run[n], t)
  {
  }

  lemma HeardFresh(run: seq<Advert>, n: nat, t: Trait)
    requires n < |run| && !HeardBefore(run, 0, n)
    ensures Heard(run, n, t) <==> Shows(run[n], t)
  {
  }

  // ---- The unbounded tracker

  datatype Track = Track(seen: u32, connectable: bool, m720: bool)

  function Tracked(tracks: map<Addr, Track>, a: Advert): Track {
    var t := if a.addr in tracks && Age(a.now, tracks[a.addr].seen) < WINDOW then tracks[a.addr]
             else Track(0, false, false);
    Track(a.now, t.connectable || a.isAdvInd, t.m720 || Named(a))
  }

  function Tracker(run: seq<Advert>): map<Addr, Track> {
    if run == [] then map[]
    else
      var before, a := Tracker(run[..|run| - 1]), run[|run| - 1];
      before[a.addr := Tracked(before, a)]
  }

  predicate TrackerConnects(run: seq<Advert>, n: nat)
    requires n < |run|
  {
    var t := Tracked(Tracker(run[..n]), run[n]);
    t.connectable && t.m720
  }

  ghost predicate TrackFits(run: seq<Advert>, u: nat, t: Track)
    requires u < |run|
  {
    t.seen == run[u].now && (t.connectable <==> Heard(run, u, IsAdvInd)) && (t.m720 <==> Heard(run, u, IsNamed))
  }

  // The latest advertisement of `addr` before position `n`, or -1.
  function Latest(run: seq<Advert>, addr: Addr, n: nat): (u: int)
    requires n <= |run|
    ensures -1 <= u < n
    ensures u >= 0 ==> run[u].addr == addr
    ensures forall k :: u < k < n ==> run[k].addr != addr
  {
    if n == 0 then -1 else if run[n - 1].addr == addr then n - 1 else Latest(run, addr, n - 1)
  }

  lemma AgeIs(now: u32, seen: u32)
    requires seen <= now
    ensures Age(now, seen) == now - seen
  {
  }

  lemma TrackedFits(run: seq<Advert>, n: nat, tracks: map<Addr, Track>)
    requires Timed(run) && n < |run|
    requires var u := Latest(run, run[n].addr, n);
             if u < 0 then run[n].addr !in tracks
             else run[n].addr in tracks && TrackFits(run, u, tracks[run[n].addr])
    ensures TrackFits(run, n, Tracked(tracks, run[n]))
  {
    var u := Latest(run, run[n].addr, n);
    NamedExactly(run[n]);
    if u >= 0 {
      AgeIs(run[n].now, run[u].now);
    }
    if u >= 0 && run[n].now - run[u].now < WINDOW {
      HeardExtends(run, u, n, IsAdvInd);
      HeardExtends(run, u, n, IsNamed);
    } else {
      NotHeardBefore(run, n);
      HeardFresh(run, n, IsAdvInd);
      HeardFresh(run, n, IsNamed);
    }
  }

  lemma NotHeardBefore(run: seq<Advert>, n: nat)
    requires Timed(run) && n < |run|
    requires var u := Latest(run, run[n].addr, n); u >= 0 ==> run[n].now - run[u].now >= WINDOW
    ensures !HeardBefore(run, 0, n)
  {
  }

  lemma {:induction false} TrackerFits(run: seq<Advert>, n: nat, addr: Addr)
    requires Timed(run) && n <= |run|
    ensures var u := Latest(run, addr, n); var tracks := Tracker(run[..n]);
            if u < 0 then addr !in tracks else addr in tracks && TrackFits(run, u, tracks[addr])
    decreases n
  {
    if n > 0 {
      assert run[..n][..n - 1] == run[..n - 1];
      TrackerFits(run, n - 1, addr);
      if run[n - 1].addr == addr {
        TrackedFits(run, n - 1, Tracker(run[..n - 1]));
      }
    }
  }

  /** The tracker connects exactly when the run justifies it. */
  lemma TrackerIsExact(run: seq<Advert>, n: nat)
    requires Timed(run) && n < |run|
    ensures TrackerConnects(run, n) <==> Justified(run, n)
  {
    TrackerFits(run, n, run[n].addr);
    TrackedFits(run, n, Tracker(run[..n]));
  }

  // ---- The table

  function Table(run: seq<Advert>): (slots: seq<Slot>)
    ensures |slots| == SLOTS
  {
    if run == [] then seq(SLOTS, _ => UNUSED) else Recorded(Table(run[..|run| - 1]), run[|run| - 1])
  }

  predicate TableConnects(run: seq<Advert>, n: nat)
    requires n < |run|
  {
    Connects(Table(run[..n]), run[n])
  }

  lemma TableStep(run: seq<Advert>, n: nat)
    requires n < |run|
    ensures Table(run[..n + 1]) == Recorded(Table(run[..n]), run[n])
  {
    assert run[..n + 1][..n] == run[..n];
  }

  // A slot written at `u`; the address has since been silent for a window, if it was heard elsewhere at all.
  ghost predicate Written(run: seq<Advert>, n: nat, u: nat, s: Slot)
    requires n <= |run|
  {
    && u < n && s.addr == run[u].addr && s.seen == run[u].now
    && forall k :: u < k < n && run[k].addr == s.addr ==> run[k].now >= s.seen + WINDOW
  }

  ghost predicate Placed(run: seq<Advert>, n: nat, slots: seq<Slot>, at: seq<int>)
    requires n <= |run|
  {
    && |slots| == |at| == SLOTS
    && (forall i :: 0 <= i < SLOTS ==> if at[i] < 0 then slots[i] == UNUSED else Written(run, n, at[i], slots[i]))
    && (forall i, j :: 0 <= i < j < SLOTS && at[i] < 0 ==> at[j] < 0)
    && (forall i, j :: 0 <= i < j < SLOTS && at[i] == at[j] ==> at[i] < 0)
  }

  // Whether the slot's flags hold only what has been heard.
  ghost predicate Sound(run: seq<Advert>, u: nat, s: Slot)
    requires u < |run|
  {
    (s.connectable ==> Heard(run, u, IsAdvInd)) && (s.m720 ==> Heard(run, u, IsNamed))
  }

  ghost predicate SoundTable(run: seq<Advert>, n: nat, slots: seq<Slot>, at: seq<int>)
    requires n <= |run| && Placed(run, n, slots, at)
  {
    forall i :: 0 <= i < SLOTS && at[i] >= 0 ==> Sound(run, at[i], slots[i])
  }

  // At most one used slot matches, and it is the one found.
  lemma MatchIsUnique(run: seq<Advert>, n: nat, slots: seq<Slot>, at: seq<int>, j: nat)
    requires Timed(run) && n < |run| && Placed(run, n, slots, at)
    requires j < SLOTS && at[j] >= 0 && Matches(slots[j], run[n])
    ensures FindSlot(slots, run[n]) == j
  {
    AgeIs(run[n].now, slots[j].seen);
    var i := FindSlot(slots, run[n]);
    assert i <= j;
    AgeIs(run[n].now, slots[i].seen);
  }

  // A live slot was written at the latest advertisement of its address.
  lemma LiveIsLatest(run: seq<Advert>, n: nat, u: nat, s: Slot)
    requires Timed(run) && n < |run| && Written(run, n, u, s) && Matches(s, run[n])
    ensures LastBefore(run, u, n) && run[n].now - run[u].now < WINDOW
  {
  }

  // Unused slots are older than used ones, so a new address takes the first of them.
  lemma UnusedIsOldest(run: seq<Advert>, n: nat, slots: seq<Slot>, at: seq<int>, k: nat)
    requires Timed(run) && n < |run| && Placed(run, n, slots, at) && k < SLOTS && at[k] < 0
    ensures var i := Oldest(slots, run[n].now, SLOTS); i <= k && at[i] < 0 && forall j :: 0 <= j < i ==> at[j] >= 0
  {
  }

  lemma ChosenUnused(run: seq<Advert>, n: nat, slots: seq<Slot>, at: seq<int>)
    requires Timed(run) && n < |run| && Placed(run, n, slots, at)
    ensures forall k :: 0 <= k < Chosen(slots, run[n]) ==> at[k] >= 0
    ensures var i := Chosen(slots, run[n]);
            FindSlot(slots, run[n]) == SLOTS && at[i] >= 0 ==> forall k :: 0 <= k < SLOTS ==> at[k] >= 0
  {
    var i := Chosen(slots, run[n]);
    if FindSlot(slots, run[n]) == SLOTS {
      if k :| 0 <= k < SLOTS && at[k] < 0 {
        UnusedIsOldest(run, n, slots, at, k);
      }
    } else if k :| 0 <= k < i && at[k] < 0 {
      assert at[i] < 0 && slots[k] == slots[i];
    }
  }

  lemma PlacedStep(run: seq<Advert>, n: nat, slots: seq<Slot>, at: seq<int>)
    requires Timed(run) && n < |run| && Placed(run, n, slots, at)
    ensures Placed(run, n + 1, Recorded(slots, run[n]), at[Chosen(slots, run[n]) := n])
  {
    var a, i := run[n], Chosen(slots, run[n]);
    ChosenUnused(run, n, slots, at);
    forall j | 0 <= j < SLOTS && j != i && at[j] >= 0
      ensures Written(run, n + 1, at[j], slots[j])
    {
      AgeIs(a.now, slots[j].seen);
      if Matches(slots[j], a) {
        MatchIsUnique(run, n, slots, at, j);
      }
    }
    assert Written(run, n + 1, n, Entry(slots, a));
  }

  lemma EntryIsSound(run: seq<Advert>, n: nat, slots: seq<Slot>, at: seq<int>)
    requires Timed(run) && n < |run| && Placed(run, n, slots, at) && SoundTable(run, n, slots, at)
    ensures Sound(run, n, Entry(slots, run[n]))
  {
    var i := FindSlot(slots, run[n]);
    NamedExactly(run[n]);
    assert Unbroken(run, n, n);
    if i < SLOTS && at[i] >= 0 {
      LiveIsLatest(run, n, at[i], slots[i]);
      HeardExtends(run, at[i], n, IsAdvInd);
      HeardExtends(run, at[i], n, IsNamed);
    }
  }

  lemma EmptyTable(run: seq<Advert>) returns (slots: seq<Slot>, at: seq<int>)
    ensures slots == Table([]) && Placed(run, 0, slots, at)
    ensures forall k :: 0 <= k < |at| ==> at[k] < 0
  {
    slots, at := Table([]), seq(SLOTS, _ => -1);
  }

  lemma NothingUnsound(run: seq<Advert>, slots: seq<Slot>, at: seq<int>)
    requires Placed(run, 0, slots, at) && forall k :: 0 <= k < |at| ==> at[k] < 0
    ensures SoundTable(run, 0, slots, at)
  {
  }

  ghost predicate KeptBy(holds: (nat, seq<Slot>) -> bool, run: seq<Advert>, k: nat, slots: seq<Slot>)
    requires k < |run|
  {
    holds(k, slots) ==> |slots| == SLOTS && holds(k + 1, Recorded(slots, run[k]))
  }

  // What holds of the empty table and is kept by every advertisement holds of the table.
  lemma {:induction false} TableHas(holds: (nat, seq<Slot>) -> bool, run: seq<Advert>, n: nat)
    requires n <= |run| && holds(0, Table([])) && forall k: nat, slots :: k < |run| ==> KeptBy(holds, run, k, slots)
    ensures holds(n, Table(run[..n]))
  {
    if n == 0 {
      assert run[..n] == [];
    } else {
      TableHas(holds, run, n - 1);
      TableStep(run, n - 1);
      assert KeptBy(holds, run, n - 1, Table(run[..n - 1]));
    }
  }

  ghost predicate SoundAt(run: seq<Advert>, n: nat, slots: seq<Slot>, at: seq<int>) {
    n <= |run| && Placed(run, n, slots, at) && SoundTable(run, n, slots, at)
  }

  ghost predicate SoundTo(run: seq<Advert>, n: nat, slots: seq<Slot>) {
    exists at :: SoundAt(run, n, slots, at)
  }

  lemma EmptySound(run: seq<Advert>)
    ensures SoundTo(run, 0, Table([]))
  {
    var slots, at := EmptyTable(run);
    NothingUnsound(run, slots, at);
    assert SoundAt(run, 0, slots, at);
  }

  lemma TableIsSound(run: seq<Advert>, n: nat)
    requires Timed(run) && n <= |run|
    ensures SoundTo(run, n, Table(run[..n]))
  {
    var holds := (k: nat, slots: seq<Slot>) => SoundTo(run, k, slots);
    EmptySound(run);
    forall k: nat, slots: seq<Slot> | k < |run|
      ensures KeptBy(holds, run, k, slots)
    {
      if holds(k, slots) {
        SoundStep(run, k, slots);
      }
    }
    TableHas(holds, run, n);
  }

  lemma SoundStep(run: seq<Advert>, n: nat, slots: seq<Slot>)
    requires Timed(run) && n < |run| && SoundTo(run, n, slots)
    ensures |slots| == SLOTS && SoundTo(run, n + 1, Recorded(slots, run[n]))
  {
    var at :| SoundAt(run, n, slots, at);
    PlacedStep(run, n, slots, at);
    EntryIsSound(run, n, slots, at);
    assert SoundAt(run, n + 1, Recorded(slots, run[n]), at[Chosen(slots, run[n]) := n]);
  }

  /**
   Every connection is justified, however many devices advertise: an ADV_IND and an M720 name from
   that address lead up to it with no gap as long as the window.
   */
  lemma ConnectIsJustified(run: seq<Advert>, n: nat)
    requires Timed(run) && n < |run| && TableConnects(run, n)
    ensures Justified(run, n)
  {
    TableIsSound(run, n);
    var at :| SoundAt(run, n, Table(run[..n]), at);
    EntryIsSound(run, n, Table(run[..n]), at);
  }

  // ---- With at most eight addresses in any window

  ghost function WindowAddrs(run: seq<Advert>, n: nat): set<Addr>
    requires n < |run|
  {
    set j | 0 <= j <= n && run[n].now - run[j].now < WINDOW :: run[j].addr
  }

  ghost predicate Uncrowded(run: seq<Advert>) {
    forall n :: 0 <= n < |run| ==> |WindowAddrs(run, n)| <= SLOTS
  }

  ghost predicate Complete(run: seq<Advert>, u: nat, s: Slot)
    requires u < |run|
  {
    (Heard(run, u, IsAdvInd) ==> s.connectable) && (Heard(run, u, IsNamed) ==> s.m720)
  }

  // The latest advertisement of every recent address still has its slot.
  ghost predicate Present(run: seq<Advert>, n: nat, at: seq<int>)
    requires n <= |run| && |at| == SLOTS
  {
    forall u {:trigger run[u]} ::
      0 <= u < n && Latest(run, run[u].addr, n) == u && run[n - 1].now - run[u].now < WINDOW ==> u in at
  }

  ghost predicate CompleteTable(run: seq<Advert>, n: nat, slots: seq<Slot>, at: seq<int>)
    requires n <= |run| && Placed(run, n, slots, at)
  {
    && (forall i :: 0 <= i < SLOTS && at[i] >= 0 ==> Complete(run, at[i], slots[i]))
    && Present(run, n, at)
  }

  lemma EntryIsComplete(run: seq<Advert>, n: nat, slots: seq<Slot>, at: seq<int>)
    requires Timed(run) && n < |run| && Placed(run, n, slots, at) && CompleteTable(run, n, slots, at)
    ensures Complete(run, n, Entry(slots, run[n]))
  {
    var i, a := FindSlot(slots, run[n]), run[n];
    NamedExactly(a);
    if i < SLOTS && at[i] >= 0 {
      LiveIsLatest(run, n, at[i], slots[i]);
      HeardExtends(run, at[i], n, IsAdvInd);
      HeardExtends(run, at[i], n, IsNamed);
    } else {
      var u := Latest(run, a.addr, n);
      if u >= 0 && a.now - run[u].now < WINDOW {
        assert run[u].addr == a.addr;
        var j :| 0 <= j < SLOTS && at[j] == u;
        AgeIs(a.now, slots[j].seen);
        MatchIsUnique(run, n, slots, at, j);
      }
      NotHeardBefore(run, n);
      HeardFresh(run, n, IsAdvInd);
      HeardFresh(run, n, IsNamed);
    }
  }

  lemma {:induction false} DistinctFit(s: seq<Addr>, w: set<Addr>)
    requires forall i, j :: 0 <= i < j < |s| ==> s[i] != s[j]
    requires forall i :: 0 <= i < |s| ==> s[i] in w
    ensures |s| <= |w|
  {
    if s != [] {
      DistinctFit(s[..|s| - 1], w - {s[|s| - 1]});
    }
  }

  // When even the oldest slot is used and live, every slot is, each for another address.
  lemma AllLive(run: seq<Advert>, n: nat, slots: seq<Slot>, at: seq<int>, k: nat)
    requires Timed(run) && n < |run| && Placed(run, n, slots, at) && FindSlot(slots, run[n]) == SLOTS && k < SLOTS
    requires var i := Oldest(slots, run[n].now, SLOTS); at[i] >= 0 && run[n].now - slots[i].seen < WINDOW
    ensures at[k] >= 0 && Age(run[n].now, slots[k].seen) < WINDOW && slots[k].addr != run[n].addr
    ensures slots[k].addr in WindowAddrs(run, n)
  {
    var a, i := run[n], Oldest(slots, run[n].now, SLOTS);
    ChosenUnused(run, n, slots, at);
    AgeIs(a.now, slots[i].seen);
    AgeIs(a.now, slots[k].seen);
    assert !Matches(slots[k], a);
    assert run[at[k]].addr == slots[k].addr;
  }

  lemma LiveSlotsDiffer(run: seq<Advert>, n: nat, slots: seq<Slot>, at: seq<int>, j: nat, k: nat)
    requires Timed(run) && n < |run| && Placed(run, n, slots, at) && j < k < SLOTS && at[j] >= 0 && at[k] >= 0
    requires Age(run[n].now, slots[j].seen) < WINDOW && Age(run[n].now, slots[k].seen) < WINDOW
    ensures slots[j].addr != slots[k].addr
  {
  }

  function Addresses(slots: seq<Slot>): (addrs: seq<Addr>)
    ensures |addrs| == |slots|
  {
    seq(|slots|, k requires 0 <= k < |slots| => slots[k].addr)
  }

  // Evicting a live slot takes a ninth address within the window.
  lemma LiveEvictionIsCrowded(run: seq<Advert>, n: nat, slots: seq<Slot>, at: seq<int>)
    requires Timed(run) && n < |run| && Placed(run, n, slots, at) && FindSlot(slots, run[n]) == SLOTS
    requires var i := Oldest(slots, run[n].now, SLOTS); at[i] >= 0 && run[n].now - slots[i].seen < WINDOW
    ensures |WindowAddrs(run, n)| > SLOTS
  {
    var addrs := Addresses(slots) + [run[n].addr];
    forall k | 0 <= k < SLOTS
      ensures addrs[k] == slots[k].addr && addrs[k] != run[n].addr && addrs[k] in WindowAddrs(run, n)
    {
      AllLive(run, n, slots, at, k);
    }
    forall j, k | 0 <= j < k < SLOTS
      ensures addrs[j] != addrs[k]
    {
      AllLive(run, n, slots, at, j);
      AllLive(run, n, slots, at, k);
      LiveSlotsDiffer(run, n, slots, at, j, k);
    }
    assert run[n].addr in WindowAddrs(run, n);
    DistinctFit(addrs, WindowAddrs(run, n));
  }

  lemma PresentStep(run: seq<Advert>, n: nat, slots: seq<Slot>, at: seq<int>)
    requires Timed(run) && Uncrowded(run) && n < |run| && Placed(run, n, slots, at) && Present(run, n, at)
    ensures Present(run, n + 1, at[Chosen(slots, run[n]) := n])
  {
    var a, i := run[n], Chosen(slots, run[n]);
    forall u {:trigger run[u]} | 0 <= u <= n && Latest(run, run[u].addr, n + 1) == u && a.now - run[u].now < WINDOW
      ensures u in at[i := n]
    {
      if u == n {
        assert at[i := n][i] == n;
      } else {
        assert run[u].addr != a.addr && Latest(run, run[u].addr, n) == u;
        var j :| 0 <= j < SLOTS && at[j] == u;
        if j == i {
          assert slots[i].addr != a.addr;
          LiveEvictionIsCrowded(run, n, slots, at);
        }
        assert at[i := n][j] == u;
      }
    }
  }

  lemma NothingMissing(run: seq<Advert>, slots: seq<Slot>, at: seq<int>)
    requires Placed(run, 0, slots, at) && forall k :: 0 <= k < |at| ==> at[k] < 0
    ensures CompleteTable(run, 0, slots, at)
  {
  }

  ghost predicate CompleteAt(run: seq<Advert>, n: nat, slots: seq<Slot>, at: seq<int>) {
    n <= |run| && Placed(run, n, slots, at) && CompleteTable(run, n, slots, at)
  }

  ghost predicate CompleteTo(run: seq<Advert>, n: nat, slots: seq<Slot>) {
    exists at :: CompleteAt(run, n, slots, at)
  }

  lemma EmptyComplete(run: seq<Advert>)
    ensures CompleteTo(run, 0, Table([]))
  {
    var slots, at := EmptyTable(run);
    NothingMissing(run, slots, at);
    assert CompleteAt(run, 0, slots, at);
  }

  lemma TableIsComplete(run: seq<Advert>, n: nat)
    requires Timed(run) && Uncrowded(run) && n <= |run|
    ensures CompleteTo(run, n, Table(run[..n]))
  {
    var holds := (k: nat, slots: seq<Slot>) => CompleteTo(run, k, slots);
    EmptyComplete(run);
    forall k: nat, slots: seq<Slot> | k < |run|
      ensures KeptBy(holds, run, k, slots)
    {
      if holds(k, slots) {
        CompleteStep(run, k, slots);
      }
    }
    TableHas(holds, run, n);
  }

  lemma CompleteStep(run: seq<Advert>, n: nat, slots: seq<Slot>)
    requires Timed(run) && Uncrowded(run) && n < |run| && CompleteTo(run, n, slots)
    ensures |slots| == SLOTS && CompleteTo(run, n + 1, Recorded(slots, run[n]))
  {
    var at :| CompleteAt(run, n, slots, at);
    PlacedStep(run, n, slots, at);
    EntryIsComplete(run, n, slots, at);
    PresentStep(run, n, slots, at);
    assert CompleteAt(run, n + 1, Recorded(slots, run[n]), at[Chosen(slots, run[n]) := n]);
  }

  /** With at most eight addresses in any window, eight slots decide exactly as unbounded memory would. */
  lemma TableRefinesTracker(run: seq<Advert>, n: nat)
    requires Timed(run) && Uncrowded(run) && n < |run|
    ensures TableConnects(run, n) <==> TrackerConnects(run, n)
  {
    TrackerIsExact(run, n);
    if TableConnects(run, n) {
      ConnectIsJustified(run, n);
    } else {
      TableIsComplete(run, n);
      var at :| CompleteAt(run, n, Table(run[..n]), at);
      EntryIsComplete(run, n, Table(run[..n]), at);
    }
  }
}
