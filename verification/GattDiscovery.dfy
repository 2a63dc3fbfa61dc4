/** What the HID service listing leaves in the session: `discover_cb` of src/ble_mouse.c. */
module GattDiscovery {

  const MAX_CHARACTERISTICS := 12

  type Handle = h: int | 0 <= h < 0x1_0000

  datatype CharKind = ReportMap | ProtocolMode | ControlPoint | InputReport | OtherChar
  datatype Characteristic = Characteristic(declaration: Handle, value: Handle, kind: CharKind, properties: nat)

  datatype DescKind = Reference | Ccc | OtherDesc
  datatype Descriptor = Descriptor(handle: Handle, kind: DescKind)

  // The handles of one report characteristic; its descriptors lie after `handle`, up to `end`.
  datatype ReportHandles = ReportHandles(handle: Handle, end: int, reference: Handle, ccc: Handle)

  datatype Listing = Listing(
    map_: Handle, protocol: Handle, properties: nat, control: Handle, reports: seq<ReportHandles>)

  const NOTHING := Listing(0, 0, 0, 0, [])

  datatype Noted = Noted(full: bool, listing: Listing)

  // A new declaration closes the range of the last report, if it is still open.
  function Closed(reports: seq<ReportHandles>, serviceEnd: Handle, declaration: Handle): (r: seq<ReportHandles>)
    ensures |r| == |reports|
  {
    if reports != [] && reports[|reports| - 1].end == serviceEnd
    then reports[|reports| - 1 := reports[|reports| - 1].(end := declaration - 1)]
    else reports
  }

  function NoteCharacteristic(l: Listing, serviceEnd: Handle, c: Characteristic): Noted {
    var l := l.(reports := Closed(l.reports, serviceEnd, c.declaration));
    match c.kind
    case ReportMap => Noted(false, l.(map_ := c.value))
    case ProtocolMode => Noted(false, l.(protocol := c.value, properties := c.properties))
    case ControlPoint => Noted(false, l.(control := c.value))
    case InputReport =>
      if |l.reports| == MAX_CHARACTERISTICS then Noted(true, l)
      else Noted(false, l.(reports := l.reports + [ReportHandles(c.value, serviceEnd, 0, 0)]))
    case OtherChar => Noted(false, l)
  }

  function NoteInReport(r: ReportHandles, d: Descriptor): ReportHandles {
    if d.handle <= r.handle || d.handle > r.end then r
    else
      match d.kind
      case Reference => r.(reference := d.handle)
      case Ccc => r.(ccc := d.handle)
      case OtherDesc => r
  }

  function NoteDescriptor(reports: seq<ReportHandles>, d: Descriptor): (r: seq<ReportHandles>)
    ensures |r| == |reports|
  {
    seq(|reports|, k requires 0 <= k < |reports| => NoteInReport(reports[k], d))
  }

  /** The listing part of the session, updated by the discovery callback. */
  class Session {
    var serviceEnd: Handle
    var listing: Listing

    constructor (serviceEnd: Handle)
      ensures this.serviceEnd == serviceEnd && listing == NOTHING
    {
      this.serviceEnd := serviceEnd;
      listing := NOTHING;
    }

    method OnCharacteristic(c: Characteristic) returns (full: bool)
      modifies this`listing
      ensures Noted(full, listing) == NoteCharacteristic(old(listing), serviceEnd, c)
    {
      full := false;
      var reports := listing.reports;
      var n := |reports|;
      if n > 0 && reports[n - 1].end == serviceEnd {
        reports := reports[n - 1 := reports[n - 1].(end := c.declaration - 1)];
      }
      listing := listing.(reports := reports);
      match c.kind {
        case ReportMap => listing := listing.(map_ := c.value);
        case ProtocolMode => listing := listing.(protocol := c.value, properties := c.properties);
        case ControlPoint => listing := listing.(control := c.value);
        case InputReport =>
          if n == MAX_CHARACTERISTICS {
            return true;
          }
          listing := listing.(reports := reports + [ReportHandles(c.value, serviceEnd, 0, 0)]);
        case OtherChar =>
      }
    }

    method OnDescriptor(d: Descriptor)
      modifies this`listing
      ensures listing == old(listing).(reports := NoteDescriptor(old(listing.reports), d))
    {
      var reports := listing.reports;
      for i := 0 to |reports|
        invariant |reports| == |old(listing.reports)|
        invariant forall k :: 0 <= k < |reports| ==>
                    reports[k] == if k < i then NoteInReport(old(listing.reports)[k], d) else old(listing.reports)[k]
      {
        var r := reports[i];
        if !(d.handle <= r.handle || d.handle > r.end) {
          match d.kind {
            case Reference => r := r.(reference := d.handle);
            case Ccc => r := r.(ccc := d.handle);
            case OtherDesc =>
          }
          reports := reports[i := r];
        }
      }
      listing := listing.(reports := reports);
    }
  }

  // ---- Whole listings

  function NoteAll(serviceEnd: Handle, cs: seq<Characteristic>): Noted {
    if cs == [] then Noted(false, NOTHING)
    else
      var before := NoteAll(serviceEnd, cs[..|cs| - 1]);
      if before.full then before else NoteCharacteristic(before.listing, serviceEnd, cs[|cs| - 1])
  }

  // Positions of the report characteristics, in order.
  function ReportPositions(cs: seq<Characteristic>): (ps: seq<nat>)
    ensures forall k :: 0 <= k < |ps| ==> ps[k] < |cs| && cs[ps[k]].kind == InputReport
    ensures forall j, k :: 0 <= j < k < |ps| ==> ps[j] < ps[k]
  {
    if cs == [] then []
    else
      ReportPositions(cs[..|cs| - 1]) + if cs[|cs| - 1].kind == InputReport then [|cs| - 1] else []
  }

  // Declarations increase and each value lies between its declaration and the next.
  ghost predicate Ordered(serviceEnd: Handle, cs: seq<Characteristic>) {
    && (forall i :: 0 <= i < |cs| ==> 0 < cs[i].declaration < cs[i].value <= serviceEnd)
    && forall i, j :: 0 <= i < j < |cs| ==> cs[i].value < cs[j].declaration
  }

  // The last handle before the next declaration, or the end of the service.
  function RangeEnd(serviceEnd: Handle, cs: seq<Characteristic>, i: nat): int {
    if i + 1 < |cs| then cs[i + 1].declaration - 1 else serviceEnd
  }

  /** The listing is refused exactly when it has more than twelve report characteristics. */
  lemma {:induction false} FullExactlyBeyondTwelve(serviceEnd: Handle, cs: seq<Characteristic>)
    ensures NoteAll(serviceEnd, cs).full <==> |ReportPositions(cs)| > 12
    ensures !NoteAll(serviceEnd, cs).full ==> |NoteAll(serviceEnd, cs).listing.reports| == |ReportPositions(cs)|
  {
    if cs != [] {
      FullExactlyBeyondTwelve(serviceEnd, cs[..|cs| - 1]);
    }
  }

  // The last characteristic of this kind, if any.
  function LastOf(cs: seq<Characteristic>, kind: CharKind): seq<Characteristic> {
    if cs == [] then []
    else if cs[|cs| - 1].kind == kind then [cs[|cs| - 1]]
    else LastOf(cs[..|cs| - 1], kind)
  }

  ghost predicate ValueOf(handle: Handle, last: seq<Characteristic>) {
    handle == if last == [] then 0 else last[0].value
  }

  /** The report map, the protocol mode and the control point are found by the values of the last such characteristics. */
  lemma {:induction false} HandlesFound(serviceEnd: Handle, cs: seq<Characteristic>)
    requires !NoteAll(serviceEnd, cs).full
    ensures var l := NoteAll(serviceEnd, cs).listing; var mode := LastOf(cs, ProtocolMode);
            && ValueOf(l.map_, LastOf(cs, ReportMap)) && ValueOf(l.control, LastOf(cs, ControlPoint))
            && ValueOf(l.protocol, mode) && l.properties == (if mode == [] then 0 else mode[0].properties)
  {
    if cs != [] {
      HandlesFound(serviceEnd, cs[..|cs| - 1]);
    }
  }

  // What the listing of `cs` should give for the report characteristic at position `p`.
  function Expected(serviceEnd: Handle, cs: seq<Characteristic>, p: nat): ReportHandles
    requires p < |cs|
  {
    ReportHandles(cs[p].value, RangeEnd(serviceEnd, cs, p), 0, 0)
  }

  lemma ClosingFits(serviceEnd: Handle, cs: seq<Characteristic>, before: seq<ReportHandles>, ps: seq<nat>)
    requires cs != [] && Ordered(serviceEnd, cs) && |before| == |ps|
    requires var init := cs[..|cs| - 1];
             (forall k :: 0 <= k < |ps| ==> ps[k] < |init| && before[k] == Expected(serviceEnd, init, ps[k]))
    requires forall j, k :: 0 <= j < k < |ps| ==> ps[j] < ps[k]
    ensures var closed := Closed(before, serviceEnd, cs[|cs| - 1].declaration);
            forall k :: 0 <= k < |ps| ==> closed[k] == Expected(serviceEnd, cs, ps[k])
  {
  }

  /** Each report characteristic gets its value handle and the range up to the next declaration. */
  lemma {:induction false} RangesFound(serviceEnd: Handle, cs: seq<Characteristic>)
    requires Ordered(serviceEnd, cs) && |ReportPositions(cs)| <= MAX_CHARACTERISTICS
    ensures var reports := NoteAll(serviceEnd, cs).listing.reports; var ps := ReportPositions(cs);
            |reports| == |ps| && forall k :: 0 <= k < |ps| ==> reports[k] == Expected(serviceEnd, cs, ps[k])
  {
    FullExactlyBeyondTwelve(serviceEnd, cs);
    if cs != [] {
      var init := cs[..|cs| - 1];
      RangesFound(serviceEnd, init);
      FullExactlyBeyondTwelve(serviceEnd, init);
      ClosingFits(serviceEnd, cs, NoteAll(serviceEnd, init).listing.reports, ReportPositions(init));
    }
  }

  /** The descriptor ranges of two reports never meet. */
  lemma RangesDisjoint(serviceEnd: Handle, cs: seq<Characteristic>, j: nat, k: nat, handle: Handle)
    requires Ordered(serviceEnd, cs) && |ReportPositions(cs)| <= MAX_CHARACTERISTICS
    requires j < k < |ReportPositions(cs)|
    ensures var reports := NoteAll(serviceEnd, cs).listing.reports;
            && |reports| == |ReportPositions(cs)|
            && (handle <= reports[j].end ==> handle <= reports[k].handle)
  {
    RangesFound(serviceEnd, cs);
    RangeEndsBefore(serviceEnd, cs, ReportPositions(cs)[j], ReportPositions(cs)[k]);
  }

  lemma RangeEndsBefore(serviceEnd: Handle, cs: seq<Characteristic>, p: nat, q: nat)
    requires Ordered(serviceEnd, cs) && p < q < |cs|
    ensures RangeEnd(serviceEnd, cs, p) < cs[q].value
  {
  }

  // The last descriptor of this kind between two handles, or 0.
  function LastWithin(ds: seq<Descriptor>, kind: DescKind, after: Handle, end: int): Handle {
    if ds == [] then 0
    else
      var d := ds[|ds| - 1];
      if d.kind == kind && after < d.handle <= end then d.handle
      else LastWithin(ds[..|ds| - 1], kind, after, end)
  }

  function NoteDescriptors(reports: seq<ReportHandles>, ds: seq<Descriptor>): (r: seq<ReportHandles>)
    ensures |r| == |reports|
  {
    if ds == [] then reports else NoteDescriptor(NoteDescriptors(reports, ds[..|ds| - 1]), ds[|ds| - 1])
  }

  lemma {:induction false} LastDescriptorsKept(reports: seq<ReportHandles>, ds: seq<Descriptor>, k: nat)
    requires k < |reports| && reports[k].reference == 0 && reports[k].ccc == 0
    ensures var r := reports[k];
            NoteDescriptors(reports, ds)[k]
            == r.(reference := LastWithin(ds, Reference, r.handle, r.end), ccc := LastWithin(ds, Ccc, r.handle, r.end))
  {
    if ds != [] {
      LastDescriptorsKept(reports, ds[..|ds| - 1], k);
    }
  }

  /**
   After both discoveries the `k`-th report holds the last report reference and the last client
   configuration listed between its value and the next characteristic, or the end of the service.
   */
  lemma DiscoveryFindsDescriptors(serviceEnd: Handle, cs: seq<Characteristic>, ds: seq<Descriptor>, k: nat)
    requires Ordered(serviceEnd, cs) && |ReportPositions(cs)| <= MAX_CHARACTERISTICS
    requires k < |ReportPositions(cs)|
    ensures var p := ReportPositions(cs)[k]; var reports := NoteAll(serviceEnd, cs).listing.reports;
            var value, end := cs[p].value, RangeEnd(serviceEnd, cs, p);
            && k < |reports|
            && NoteDescriptors(reports, ds)[k]
               == ReportHandles(value, end, LastWithin(ds, Reference, value, end), LastWithin(ds, Ccc, value, end))
  {
    RangesFound(serviceEnd, cs);
    LastDescriptorsKept(NoteAll(serviceEnd, cs).listing.reports, ds, k);
  }
}
