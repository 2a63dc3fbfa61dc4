/** Input packets and the splitting of one decoded frame into packets (src/mouse_output.c). */
module MouseOutput {
  import opened Masks
  import opened ButtonState

  const INT32_MIN := -0x8000_0000
  const INT32_MAX := 0x7fff_ffff
  const MAX_XY := 32767
  const MAX_WHEEL := 127
  const MAX_PACKETS := 32

  type int32 = x: int | INT32_MIN <= x <= INT32_MAX

  // One motion, in the order x, y, wheel, pan.
  datatype Motion = Motion(x: int32, y: int32, wheel: int32, pan: int32) {
    function Axis(a: Axis): int32 {
      match a
      case X => x
      case Y => y
      case Wheel => wheel
      case Pan => pan
    }
  }
  datatype Axis = X | Y | Wheel | Pan

  const NO_MOTION := Motion(0, 0, 0, 0)
  const AXES: seq<Axis> := [X, Y, Wheel, Pan]

  datatype Event =
    | Key(button: Button, down: bool, sync: bool)
    | Rel(axis: Axis, value: int32, sync: bool)

  // ---- One packet

  function KeyEvent(edges: Edges, i: Button): seq<Event> {
    if Has(edges.press | edges.release, i) then [Key(i, Has(edges.press, i), false)] else []
  }

  function RelEvent(m: Motion, a: Axis): seq<Event> {
    if m.Axis(a) != 0 then [Rel(a, m.Axis(a), false)] else []
  }

  // One part after the other.
  function Joined(parts: seq<seq<Event>>): seq<Event> {
    if parts == [] then [] else Joined(parts[..|parts| - 1]) + parts[|parts| - 1]
  }

  // Events of the first `n` buttons, before any is marked as the last.
  function KeyEvents(edges: Edges, n: nat): seq<Event>
    requires n <= BUTTONS
  {
    Joined(KeyParts(edges, n))
  }

  function KeyParts(edges: Edges, n: nat): seq<seq<Event>>
    requires n <= BUTTONS
  {
    seq(n, k requires 0 <= k < n => KeyEvent(edges, k))
  }

  lemma KeyEventsNext(edges: Edges, n: Button)
    ensures KeyEvents(edges, n + 1) == KeyEvents(edges, n) + KeyEvent(edges, n)
  {
    assert KeyParts(edges, n + 1) == KeyParts(edges, n) + [KeyEvent(edges, n)];
  }

  // Motion events of the first `n` axes.
  function RelEvents(m: Motion, n: nat): seq<Event>
    requires n <= |AXES|
    decreases m, n
  {
    if n == 0 then [] else RelEvents(m, n - 1) + RelEvent(m, AXES[n - 1])
  }

  function Synced(e: Event): Event {
    match e
    case Key(b, d, _) => Key(b, d, true)
    case Rel(a, v, _) => Rel(a, v, true)
  }

  function SyncLast(events: seq<Event>): seq<Event> {
    if events == [] then []
    else events[|events| - 1 := Synced(events[|events| - 1])]
  }

  function Packet(edges: Edges, m: Motion): seq<Event> {
    SyncLast(KeyEvents(edges, BUTTONS) + RelEvents(m, |AXES|))
  }

  /** The C function, event by event; `events` is what the input device is given. */
  method SendPacket(edges: Edges, m: Motion) returns (events: seq<Event>)
    ensures events == Packet(edges, m)
  {
    var keys := PendingKeys(edges);
    var pending := PendingRels(keys, m);
    events := Report(pending);
  }

  method PendingKeys(edges: Edges) returns (pending: seq<Event>)
    ensures pending == KeyEvents(edges, BUTTONS)
  {
    pending := [];
    for i := 0 to BUTTONS
      invariant pending == KeyEvents(edges, i)
    {
      KeyEventsNext(edges, i);
      if Has(edges.press | edges.release, i) {
        pending := pending + [Key(i, Has(edges.press, i), false)];
      }
    }
  }

  method PendingRels(keys: seq<Event>, m: Motion) returns (pending: seq<Event>)
    ensures pending == keys + RelEvents(m, |AXES|)
  {
    pending := keys;
    for a := 0 to |AXES|
      invariant pending == keys + RelEvents(m, a)
    {
      if m.Axis(AXES[a]) != 0 {
        pending := pending + [Rel(AXES[a], m.Axis(AXES[a]), false)];
      }
    }
  }

  method Report(pending: seq<Event>) returns (events: seq<Event>)
    ensures events == SyncLast(pending)
  {
    events := [];
    for n := 0 to |pending|
      invariant events == SyncLast(pending)[..n]
    {
      var sync := n + 1 == |pending|;
      events := events + [if sync then Synced(pending[n]) else pending[n]];
    }
  }

  // ---- What a packet means

  ghost predicate SyncOnlyLast(events: seq<Event>) {
    forall k :: 0 <= k < |events| ==> (events[k].sync <==> k == |events| - 1)
  }

  function KeyChange(e: Event, i: Button): int {
    if e.Key? && e.button == i then (if e.down then 1 else -1) else 0
  }

  function RelChange(e: Event, a: Axis): int {
    if e.Rel? && e.axis == a then e.value else 0
  }

  // Presses minus releases of button `i`.
  function KeyNet(events: seq<Event>, i: Button): int {
    if events == [] then 0 else KeyNet(events[..|events| - 1], i) + KeyChange(events[|events| - 1], i)
  }

  // Motion delivered along one axis.
  function Delivered(events: seq<Event>, a: Axis): int {
    if events == [] then 0 else Delivered(events[..|events| - 1], a) + RelChange(events[|events| - 1], a)
  }

  lemma {:induction false} NetOfConcat(s: seq<Event>, t: seq<Event>, i: Button, a: Axis)
    ensures KeyNet(s + t, i) == KeyNet(s, i) + KeyNet(t, i)
    ensures Delivered(s + t, a) == Delivered(s, a) + Delivered(t, a)
  {
    if t == [] {
      assert s + t == s;
    } else {
      assert (s + t)[..|s + t| - 1] == s + t[..|t| - 1];
      NetOfConcat(s, t[..|t| - 1], i, a);
    }
  }

  lemma NetOfAtMostOne(t: seq<Event>, i: Button, a: Axis)
    requires |t| <= 1
    ensures KeyNet(t, i) == if t == [] then 0 else KeyChange(t[0], i)
    ensures Delivered(t, a) == if t == [] then 0 else RelChange(t[0], a)
  {
  }

  lemma {:induction false} NetOfSyncLast(events: seq<Event>, i: Button, a: Axis)
    ensures KeyNet(SyncLast(events), i) == KeyNet(events, i)
    ensures Delivered(SyncLast(events), a) == Delivered(events, a)
  {
  }

  // The change that button `i`'s event makes.
  function KeyGain(edges: Edges, i: Button): int {
    if !Has(edges.press | edges.release, i) then 0 else if Has(edges.press, i) then 1 else -1
  }

  lemma NetOfAppend(s: seq<Event>, t: seq<Event>, i: Button, a: Axis)
    requires |t| <= 1
    ensures KeyNet(s + t, i) == KeyNet(s, i) + if t == [] then 0 else KeyChange(t[0], i)
    ensures Delivered(s + t, a) == Delivered(s, a) + if t == [] then 0 else RelChange(t[0], a)
  {
    NetOfConcat(s, t, i, a);
    NetOfAtMostOne(t, i, a);
  }

  lemma NetOfKey(edges: Edges, k: Button, i: Button, a: Axis)
    ensures KeyNet(KeyEvent(edges, k), i) == if k == i then KeyGain(edges, i) else 0
    ensures Delivered(KeyEvent(edges, k), a) == 0
  {
    NetOfAtMostOne(KeyEvent(edges, k), i, a);
  }

  lemma RelAdds(s: seq<Event>, m: Motion, b: Axis, i: Button, a: Axis)
    ensures KeyNet(s + RelEvent(m, b), i) == KeyNet(s, i)
    ensures Delivered(s + RelEvent(m, b), a) == Delivered(s, a) + if a == b then m.Axis(a) else 0
  {
    NetOfAppend(s, RelEvent(m, b), i, a);
  }

  // Only the `j`-th part, if there is one, has any of this button's events; none has any motion.
  lemma {:induction false} NetOfJoined(parts: seq<seq<Event>>, j: nat, i: Button, a: Axis)
    requires forall k :: 0 <= k < |parts| && k != j ==> KeyNet(parts[k], i) == 0
    requires forall k :: 0 <= k < |parts| ==> Delivered(parts[k], a) == 0
    ensures KeyNet(Joined(parts), i) == if j < |parts| then KeyNet(parts[j], i) else 0
    ensures Delivered(Joined(parts), a) == 0
  {
    if parts != [] {
      var init := parts[..|parts| - 1];
      NetOfJoined(init, j, i, a);
      NetOfConcat(Joined(init), parts[|parts| - 1], i, a);
    }
  }

  lemma NetOfKeys(edges: Edges, n: nat, i: Button, a: Axis)
    requires i < n <= BUTTONS
    ensures KeyNet(KeyEvents(edges, n), i) == KeyGain(edges, i)
    ensures Delivered(KeyEvents(edges, n), a) == 0
  {
    forall k: Button
      ensures KeyNet(KeyEvent(edges, k), i) == if k == i then KeyGain(edges, i) else 0
      ensures Delivered(KeyEvent(edges, k), a) == 0
    {
      NetOfKey(edges, k, i, a);
    }
    NetOfJoined(KeyParts(edges, n), i, i, a);
  }

  // The event reports a real edge of these edges, or the motion of its axis.
  predicate Reports(e: Event, edges: Edges, m: Motion) {
    match e
    case Key(b, down, _) => Has(edges.press | edges.release, b) && down == Has(edges.press, b)
    case Rel(a, v, _) => v == m.Axis(a) && v != 0
  }

  predicate AllReport(events: seq<Event>, edges: Edges, m: Motion) {
    forall k :: 0 <= k < |events| ==> Reports(events[k], edges, m)
  }

  predicate Unsynced(events: seq<Event>) {
    forall k :: 0 <= k < |events| ==> !events[k].sync
  }

  lemma KeyEventReports(edges: Edges, m: Motion, k: Button)
    ensures AllReport(KeyEvent(edges, k), edges, m) && Unsynced(KeyEvent(edges, k))
  {
  }

  lemma {:induction false} KeyEventsReport(edges: Edges, m: Motion, n: nat)
    requires n <= BUTTONS
    ensures AllReport(KeyEvents(edges, n), edges, m) && Unsynced(KeyEvents(edges, n))
    decreases n
  {
    if n > 0 {
      KeyEventsReport(edges, m, n - 1);
      KeyEventsNext(edges, n - 1);
      KeyEventReports(edges, m, n - 1);
    }
  }

  function Index(a: Axis): nat {
    match a
    case X => 0
    case Y => 1
    case Wheel => 2
    case Pan => 3
  }

  lemma IndexOfAxis(k: nat, a: Axis)
    requires k < |AXES|
    ensures Index(a) == k <==> a == AXES[k]
  {
  }

  lemma {:induction false} NetOfRels(m: Motion, n: nat, i: Button, a: Axis)
    requires n <= |AXES|
    ensures KeyNet(RelEvents(m, n), i) == 0
    ensures Delivered(RelEvents(m, n), a) == if Index(a) < n then m.Axis(a) else 0
  {
    if n > 0 {
      NetOfRels(m, n - 1, i, a);
      IndexOfAxis(n - 1, a);
      RelAdds(RelEvents(m, n - 1), m, AXES[n - 1], i, a);
    }
  }

  lemma {:induction false} RelEventsReport(edges: Edges, m: Motion, n: nat)
    requires n <= |AXES|
    ensures AllReport(RelEvents(m, n), edges, m) && Unsynced(RelEvents(m, n))
  {
    if n > 0 {
      RelEventsReport(edges, m, n - 1);
    }
  }

  lemma SyncLastKeepsReports(events: seq<Event>, edges: Edges, m: Motion)
    requires AllReport(events, edges, m) && Unsynced(events)
    ensures AllReport(SyncLast(events), edges, m) && SyncOnlyLast(SyncLast(events))
  {
  }

  lemma KeysNet(edges: Edges, n: nat, i: Button)
    requires edges.press & edges.release == 0 && i < n <= BUTTONS
    ensures KeyNet(KeyEvents(edges, n), i)
            == if Has(edges.press, i) then 1 else if Has(edges.release, i) then -1 else 0
  {
    NetOfKeys(edges, n, i, X);
    HasOr(edges.press, edges.release, i);
  }

  // `n` and `k` count the buttons and axes.
  lemma PartsMeaning(edges: Edges, m: Motion, n: nat, k: nat, i: Button, a: Axis)
    requires edges.press & edges.release == 0 && i < n <= BUTTONS && Index(a) < k <= |AXES|
    ensures var events := SyncLast(KeyEvents(edges, n) + RelEvents(m, k));
            && KeyNet(events, i) == (if Has(edges.press, i) then 1 else if Has(edges.release, i) then -1 else 0)
            && Delivered(events, a) == m.Axis(a)
  {
    var keys, rels := KeyEvents(edges, n), RelEvents(m, k);
    NetOfSyncLast(keys + rels, i, a);
    NetOfConcat(keys, rels, i, a);
    KeysNet(edges, n, i);
    NetOfKeys(edges, n, i, a);
    NetOfRels(m, k, i, a);
  }

  lemma PartsReport(edges: Edges, m: Motion, n: nat, k: nat)
    requires n <= BUTTONS && k <= |AXES|
    ensures var events := SyncLast(KeyEvents(edges, n) + RelEvents(m, k));
            AllReport(events, edges, m) && SyncOnlyLast(events)
  {
    KeyEventsReport(edges, m, n);
    RelEventsReport(edges, m, k);
    SyncLastKeepsReports(KeyEvents(edges, n) + RelEvents(m, k), edges, m);
  }

  /**
   A packet presses and releases exactly the edges and moves by exactly the motion,
   holds nothing else, and carries one sync, on its last event, unless it is empty.
   */
  lemma PacketMeaning(edges: Edges, m: Motion, i: Button, a: Axis)
    requires edges.press & edges.release == 0
    ensures KeyNet(Packet(edges, m), i)
            == if Has(edges.press, i) then 1 else if Has(edges.release, i) then -1 else 0
    ensures Delivered(Packet(edges, m), a) == m.Axis(a)
    ensures AllReport(Packet(edges, m), edges, m)
    ensures SyncOnlyLast(Packet(edges, m))
  {
    PartsMeaning(edges, m, BUTTONS, |AXES|, i, a);
    PartsReport(edges, m, BUTTONS, |AXES|);
  }

  // ---- One frame, cut into packets

  datatype QueuedInput = QueuedInput(motion: Motion, buttons: bv8, epoch: nat)

  function Limit(a: Axis): nat {
    match a
    case X => MAX_XY
    case Y => MAX_XY
    case Wheel => MAX_WHEEL
    case Pan => MAX_WHEEL
  }

  function Clamp(v: int, limit: int): int {
    if v < -limit then -limit else if v > limit then limit else v
  }

  // `total` is `v` cut to what `n` packets carry along this axis: 32767 each of x and y, 127 each of the wheels.
  ghost predicate Carries(n: nat, a: Axis, v: int, total: int) {
    var most := n * if a == X || a == Y then 32767 else 127;
    && (-most <= v <= most ==> total == v)
    && (v > most ==> total == most)
    && (v < -most ==> total == -most)
  }

  function Chunk(m: Motion): Motion {
    Motion(Clamp(m.x, MAX_XY), Clamp(m.y, MAX_XY), Clamp(m.wheel, MAX_WHEEL), Clamp(m.pan, MAX_WHEEL))
  }

  // No subtraction leaves the 32-bit range, INT32_MIN included.
  function Rest(m: Motion): Motion {
    var c := Chunk(m);
    Motion(m.x - c.x, m.y - c.y, m.wheel - c.wheel, m.pan - c.pan)
  }

  // The motions sent while `live` lasts: `live[k]` tells whether packet `k` may start.
  function Motions(m: Motion, live: seq<bool>): seq<Motion>
    decreases |live|
  {
    if live == [] || !live[0] then [] else [Chunk(m)] + MotionsAfter(m, live)
  }

  function MotionsAfter(m: Motion, live: seq<bool>): seq<Motion>
    requires live != []
    decreases |live|, 0
  {
    if Rest(m) == NO_MOTION then [] else Motions(Rest(m), live[1..])
  }

  // Edges ride on the first packet only.
  function Packets(edges: Edges, motions: seq<Motion>): seq<seq<Event>>
    decreases |motions|
  {
    if motions == [] then [] else [Packet(edges, motions[0])] + Packets(NO_EDGES, motions[1..])
  }

  function Sum(motions: seq<Motion>, a: Axis): int {
    if motions == [] then 0 else motions[0].Axis(a) + Sum(motions[1..], a)
  }

  // Packet 0 starts unconditionally; a later one only if the epoch read before it is still the frame's.
  function Live(epoch: nat, observed: seq<nat>): seq<bool> {
    seq(|observed|, k requires 0 <= k < |observed| => k == 0 || observed[k] == epoch)
  }

  /**
   `send_frame`: updates the buttons, then sends up to 32 packets, re-reading the stream
   epoch before every packet but the first. `observed[k]` is the epoch read before packet `k`.
   */
  method SendFrame(buttons: Tracker, input: QueuedInput, observed: seq<nat>)
    returns (packets: seq<seq<Event>>)
    requires |observed| == MAX_PACKETS
    modifies buttons
    ensures buttons.View() == AfterUpdate(old(buttons.View()), input.buttons)
    ensures packets == Packets(UpdateEdges(old(buttons.View()), input.buttons),
                               Motions(input.motion, Live(input.epoch, observed)))
  {
    var edges := buttons.Update(input.buttons);
    packets := SendMotion(edges, input.motion, input.epoch, observed);
  }

  method SendMotion(edges: Edges, motion: Motion, epoch: nat, observed: seq<nat>)
    returns (packets: seq<seq<Event>>)
    requires |observed| == MAX_PACKETS
    ensures packets == Packets(edges, Motions(motion, Live(epoch, observed)))
  {
    ghost var live := Live(epoch, observed);
    var e, rest := edges, motion;
    packets := [];
    var i := 0;
    while i < |observed|
      invariant 0 <= i <= |observed|
      invariant packets + Packets(e, Motions(rest, live[i..])) == Packets(edges, Motions(motion, live))
    {
      if i > 0 && epoch != observed[i] {
        MotionsStop(packets, rest, live[i..], e);
        return;
      }
      MotionsUnfold(packets, rest, live[i..], e);
      assert live[i..][1..] == live[i + 1..];
      var packet := SendPacket(e, Chunk(rest));
      packets := packets + [packet];
      e, rest := NO_EDGES, Rest(rest);
      if rest == NO_MOTION {
        return;
      }
      i := i + 1;
    }
  }

  lemma MotionsStop(packets: seq<seq<Event>>, m: Motion, live: seq<bool>, edges: Edges)
    requires live == [] || !live[0]
    ensures packets + Packets(edges, Motions(m, live)) == packets
  {
  }

  lemma MotionsUnfold(packets: seq<seq<Event>>, m: Motion, live: seq<bool>, edges: Edges)
    requires live != [] && live[0]
    ensures packets + Packets(edges, Motions(m, live))
            == (packets + [Packet(edges, Chunk(m))]) + Packets(NO_EDGES, MotionsAfter(m, live))
  {
  }

  lemma AxisOfChunk(m: Motion, a: Axis)
    ensures Chunk(m).Axis(a) == Clamp(m.Axis(a), Limit(a))
    ensures Rest(m).Axis(a) == m.Axis(a) - Chunk(m).Axis(a)
  {
  }

  lemma ClampAdd(v: int, l: nat, n: nat)
    ensures Clamp(v, l) + Clamp(v - Clamp(v, l), n * l) == Clamp(v, (n + 1) * l)
  {
  }

  lemma ClampCarries(n: nat, a: Axis, v: int)
    ensures Carries(n, a, v, Clamp(v, n * Limit(a)))
  {
  }

  lemma {:induction false} SumSoFar(m: Motion, live: seq<bool>, j: nat, a: Axis)
    requires j <= |Motions(m, live)|
    ensures Sum(Motions(m, live)[..j], a) == Clamp(m.Axis(a), j * Limit(a))
    decreases j
  {
    if j > 0 {
      var tail := MotionsAfter(m, live);
      assert Motions(m, live)[..j] == [Chunk(m)] + tail[..j - 1];
      SumOfCons(Chunk(m), tail[..j - 1], a);
      AxisOfChunk(m, a);
      ClampAdd(m.Axis(a), Limit(a), j - 1);
      if j > 1 {
        SumSoFar(Rest(m), live[1..], j - 1, a);
      }
    }
  }

  lemma SumOfCons(c: Motion, tail: seq<Motion>, a: Axis)
    ensures Sum([c] + tail, a) == c.Axis(a) + Sum(tail, a)
  {
  }

  lemma {:induction false} SumInFull(m: Motion, live: seq<bool>, a: Axis)
    requires forall k :: 0 <= k < |live| ==> live[k]
    ensures Sum(Motions(m, live), a) == Clamp(m.Axis(a), |live| * Limit(a))
    decreases |live|
  {
    if live != [] {
      var tail := MotionsAfter(m, live);
      SumOfCons(Chunk(m), tail, a);
      AxisOfChunk(m, a);
      ClampAdd(m.Axis(a), Limit(a), |live| - 1);
      if Rest(m) == NO_MOTION {
        assert m.Axis(a) - Chunk(m).Axis(a) == 0;
      } else {
        SumInFull(Rest(m), live[1..], a);
      }
    }
  }

  /**
   After `j` packets of a frame, interrupted or not, each axis has moved by its delta, or by `j` times the
   most that one packet carries if the delta is beyond that, in the delta's direction; packet `k` stays
   within that most.
   */
  lemma DeliveredSoFar(m: Motion, live: seq<bool>, j: nat, k: nat, a: Axis)
    requires k < j <= |Motions(m, live)|
    ensures Carries(j, a, m.Axis(a), Sum(Motions(m, live)[..j], a))
    ensures var most := if a == X || a == Y then 32767 else 127; -most <= Motions(m, live)[k].Axis(a) <= most
  {
    SumSoFar(m, live, j, a);
    ClampCarries(j, a, m.Axis(a));
    EachWithin(m, live, k, a);
  }

  lemma {:induction false} EachWithin(m: Motion, live: seq<bool>, k: nat, a: Axis)
    requires k < |Motions(m, live)|
    ensures 0 <= Motions(m, live)[k].Axis(a) + Limit(a) <= 2 * Limit(a)
    decreases k
  {
    AxisOfChunk(m, a);
    if k > 0 {
      EachWithin(Rest(m), live[1..], k - 1, a);
    }
  }

  /** With the epoch unchanged throughout, the whole delta is delivered, up to as many packets' worth as may be sent. */
  lemma DeliveredInFull(m: Motion, live: seq<bool>, a: Axis)
    requires forall k :: 0 <= k < |live| ==> live[k]
    ensures Carries(|live|, a, m.Axis(a), Sum(Motions(m, live), a))
  {
    SumInFull(m, live, a);
    ClampCarries(|live|, a, m.Axis(a));
  }

  // What the frame still holds after `j` packets.
  function Remaining(m: Motion, j: nat): Motion
    decreases j
  {
    if j == 0 then m else Remaining(Rest(m), j - 1)
  }

  /** Delivered plus remaining is the original delta, after every packet and on every axis. */
  lemma {:induction false} DeltaConserved(m: Motion, live: seq<bool>, j: nat, a: Axis)
    requires j <= |Motions(m, live)|
    ensures Sum(Motions(m, live)[..j], a) + Remaining(m, j).Axis(a) == m.Axis(a)
    decreases j
  {
    if j > 0 {
      var tail := MotionsAfter(m, live);
      assert Motions(m, live)[..j] == [Chunk(m)] + tail[..j - 1];
      SumOfCons(Chunk(m), tail[..j - 1], a);
      AxisOfChunk(m, a);
      if j > 1 {
        DeltaConserved(Rest(m), live[1..], j - 1, a);
      }
    }
  }

  /** Packet `k` moves by the `k`-th motion; only packet 0 presses or releases; each non-empty packet syncs once, last. */
  lemma {:induction false} FrameMeaning(edges: Edges, motions: seq<Motion>, k: nat, i: Button, a: Axis)
    requires edges.press & edges.release == 0 && k < |motions|
    ensures |Packets(edges, motions)| == |motions|
    ensures var packet := Packets(edges, motions)[k];
            && Delivered(packet, a) == motions[k].Axis(a)
            && KeyNet(packet, i) == (if k > 0 then 0 else if Has(edges.press, i) then 1
                                     else if Has(edges.release, i) then -1 else 0)
            && SyncOnlyLast(packet)
    decreases |motions|
  {
    if k == 0 {
      PacketMeaning(edges, motions[0], i, a);
      PacketCount(NO_EDGES, motions[1..]);
    } else {
      HasAll(i);
      FrameMeaning(NO_EDGES, motions[1..], k - 1, i, a);
    }
  }

  lemma {:induction false} PacketCount(edges: Edges, motions: seq<Motion>)
    ensures |Packets(edges, motions)| == |motions|
    decreases |motions|
  {
    if motions != [] {
      PacketCount(NO_EDGES, motions[1..]);
    }
  }
}
