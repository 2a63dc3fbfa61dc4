/** The eight-slot table of recent advertisers in `zmk_ble_mouse_advertisement` (src/ble_mouse.c). */
module AdvertCache {
  import opened Bits

  // A `bt_addr_le_t`; ANY is the all-zero address of an unused slot.
  type Addr = nat
  const ANY: Addr := 0

  const SLOTS := 8
  const WINDOW := 2000            // milliseconds
  const NAME: seq<byte> := [0x4d, 0x37, 0x32, 0x30]      // "M720"

  // One structure of an advertisement: its data type and its payload.
  datatype AdData = AdData(kind: byte, data: seq<byte>)
  const SHORTENED_NAME: byte := 0x08
  const COMPLETE_NAME: byte := 0x09

  datatype Advert = Advert(addr: Addr, now: u32, isAdvInd: bool, data: seq<AdData>)

  datatype Slot = Slot(addr: Addr, seen: u32, connectable: bool, m720: bool)
  const UNUSED := Slot(ANY, 0, false, false)

  predicate NamesMouse(d: AdData) {
    (d.kind == COMPLETE_NAME || d.kind == SHORTENED_NAME) && |d.data| >= 4 && d.data[..4] == NAME
  }

  predicate Named(a: Advert) {
    exists d :: d in a.data && NamesMouse(d)
  }

  function Age(now: u32, seen: u32): u32 {
    (now - seen) % 0x1_0000_0000
  }

  // ---- The table

  predicate Matches(s: Slot, a: Advert) {
    s.addr == a.addr && Age(a.now, s.seen) < WINDOW
  }

  // The first matching slot, or the number of slots.
  function FindSlot(slots: seq<Slot>, a: Advert): (i: nat)
    ensures i <= |slots|
    ensures i < |slots| ==> Matches(slots[i], a)
    ensures forall k :: 0 <= k < i ==> !Matches(slots[k], a)
  {
    if slots == [] then 0
    else if Matches(slots[0], a) then 0
    else 1 + FindSlot(slots[1..], a)
  }

  // The first slot of the greatest age among the first `n`.
  function Oldest(slots: seq<Slot>, now: u32, n: nat): (i: nat)
    requires 0 < n <= |slots|
    ensures i < n
    ensures forall k :: 0 <= k < n ==> Age(now, slots[k].seen) <= Age(now, slots[i].seen)
    ensures forall k :: 0 <= k < i ==> Age(now, slots[k].seen) < Age(now, slots[i].seen)
  {
    if n == 1 then 0
    else
      var i := Oldest(slots, now, n - 1);
      if Age(now, slots[n - 1].seen) > Age(now, slots[i].seen) then n - 1 else i
  }

  function Chosen(slots: seq<Slot>, a: Advert): (i: nat)
    requires |slots| == SLOTS
    ensures i < SLOTS
  {
    var i := FindSlot(slots, a);
    if i < SLOTS then i else Oldest(slots, a.now, SLOTS)
  }

  function Entry(slots: seq<Slot>, a: Advert): Slot
    requires |slots| == SLOTS
  {
    var i := FindSlot(slots, a);
    var s := if i < SLOTS then slots[i] else Slot(a.addr, 0, false, false);
    Slot(s.addr, a.now, s.connectable || a.isAdvInd, s.m720 || Named(a))
  }

  function Recorded(slots: seq<Slot>, a: Advert): (r: seq<Slot>)
    requires |slots| == SLOTS
    ensures |r| == SLOTS
  {
    slots[Chosen(slots, a) := Entry(slots, a)]
  }

  predicate Connects(slots: seq<Slot>, a: Advert)
    requires |slots| == SLOTS
  {
    Entry(slots, a).connectable && Entry(slots, a).m720
  }

  /** The C loop over the table: one pass finds the entry or the oldest slot. */
  method Record(slots: array<Slot>, a: Advert) returns (connect: bool)
    requires slots.Length == SLOTS
    modifies slots
    ensures slots[..] == Recorded(old(slots[..]), a)
    ensures connect <==> Connects(old(slots[..]), a)
  {
    ghost var before := slots[..];
    var entry, oldest := Search(slots, a);
    if entry == SLOTS {
      entry := oldest;
      slots[entry] := Slot(a.addr, 0, false, false);
    }
    var s := slots[entry];
    s := s.(seen := a.now, connectable := s.connectable || a.isAdvInd);
    for k := 0 to |a.data|
      invariant s == Slot(s.addr, a.now, s.connectable,
                          slots[entry].m720 || exists j :: 0 <= j < k && NamesMouse(a.data[j]))
      invariant s.addr == slots[entry].addr && s.connectable == (slots[entry].connectable || a.isAdvInd)
    {
      if NamesMouse(a.data[k]) {
        s := s.(m720 := true);
      }
    }
    assert Named(a) <==> exists j :: 0 <= j < |a.data| && NamesMouse(a.data[j]);
    slots[entry] := s;
    connect := s.connectable && s.m720;
    assert slots[..] == before[entry := s];
  }

  method Search(slots: array<Slot>, a: Advert) returns (entry: nat, oldest: nat)
    requires slots.Length == SLOTS
    ensures entry == FindSlot(slots[..], a)
    ensures entry == SLOTS ==> oldest == Oldest(slots[..], a.now, SLOTS)
  {
    entry, oldest := SLOTS, 0;
    var i := 0;
    while i < SLOTS
      invariant 0 <= i <= SLOTS && entry == SLOTS
      invariant forall k :: 0 <= k < i ==> !Matches(slots[k], a)
      invariant oldest == if i == 0 then 0 else Oldest(slots[..], a.now, i)
    {
      if Matches(slots[i], a) {
        return i, oldest;
      }
      if Age(a.now, slots[i].seen) > Age(a.now, slots[oldest].seen) {
        oldest := i;
      }
      i := i + 1;
    }
  }
}
