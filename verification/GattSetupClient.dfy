/** The set-up handlers of src/ble_mouse.c as they run, updating the session in place. */
module GattSetupClient {
  import opened Bits
  import opened Masks
  import opened HidMap
  import HidParserLoop
  import opened GattDiscovery
  import opened GattCoverage
  import opened GattSetup

  class SetupClient {
    const session: Session               // the listing found by discovery
    const mapData: array<byte>
    const layout: HidParserLoop.LayoutBuffer
    var mapSize: nat
    var stage: Stage
    var failed: bool
    var ids: seq<ReportId>
    var index: nat
    var reference: seq<byte>
    var subscribed: nat
    var coveredButtons: bv8
    var coveredAxes: bv8
    var work: bool
    var outstanding: seq<Request>
    var serviceStart: Handle
    ghost var operations: nat
    ghost var writes: seq<Write>
    ghost var sources: seq<nat>

    ghost predicate Valid()
      reads this
    {
      mapSize <= mapData.Length == MAX_MAP_BYTES
    }

    ghost function View(): Setup
      requires Valid()
      reads this, session, layout, mapData
    {
      Setup(stage, failed, serviceStart, session.serviceEnd, session.listing, ids, index, mapData[..mapSize], reference,
            layout.View(), subscribed, coveredButtons, coveredAxes, work, outstanding, operations, writes, sources)
    }

    constructor ()
      ensures Valid() && View() == BEGIN
      ensures fresh(session) && fresh(mapData) && fresh(layout)
    {
      session := new Session(0);
      mapData := new byte[MAX_MAP_BYTES](_ => 0);
      layout := new HidParserLoop.LayoutBuffer();
      mapSize, stage, failed, ids, index, reference := 0, Service, false, [], 0, [];
      subscribed, coveredButtons, coveredAxes, work, outstanding := 0, 0, 0, true, [];
      serviceStart, operations, writes, sources := 0, 0, [], [];
    }

    method NextStage(next: Stage)
      requires Valid()
      modifies this`stage, this`work
      ensures Valid() && View() == Next(old(View()), next)
    {
      stage := next;
      work := true;
    }

    method Request(ok: bool, awaits: seq<Request>)
      requires Valid()
      modifies this`operations, this`outstanding, this`failed
      ensures Valid() && View() == Issue(old(View()), ok, awaits)
    {
      operations := operations + 1;
      if ok {
        outstanding := outstanding + awaits;
      } else {
        failed := true;
      }
    }

    method WriteReportProtocol(ok: bool, handle: Handle, response: bool)
      requires Valid()
      modifies this`operations, this`outstanding, this`failed, this`writes
      ensures Valid() && View() == IssueWrite(old(View()), ok, handle, response)
    {
      if ok {
        writes := writes + [Write(handle, REPORT_PROTOCOL, response)];
      }
      Request(ok, if response then [WriteProtocol(handle)] else []);
    }

    // ---- The worker

    method DiscoveryWork(ok: bool, okAfter: bool, admitted: bool)
      requires Valid() && Inv(View())
      modifies this, layout
      ensures Valid() && View() == Step(old(View()), Work(ok, okAfter, admitted))
    {
      if !work {
        return;
      }
      work := false;
      if failed {
        return;
      }
      match stage {
        case References => ReferencesWork(ok);
        case Protocol => ProtocolWork(ok, okAfter);
        case Subscriptions => SubscriptionsWork(ok, admitted);
        case Service => Request(ok, [Discover(1, 0xffff)]);
        case MapStage => Request(ok, [Read(session.listing.map_)]);
        case Ready =>
        case _ => Request(ok, [Discover(serviceStart, session.serviceEnd)]);
      }
    }

    method ParseMap()
      requires Valid() && !failed
      modifies layout, this`failed
      ensures Valid() && View() == ParseOnce(old(View()))
    {
      if layout.reports == [] {
        var status := HidParserLoop.ParseDescriptor(mapData, mapSize, layout);
        failed := status != Ok || layout.buttons != ALL_BUTTONS || !layout.wheel || !layout.pan;
      }
    }

    method ReferencesWork(ok: bool)
      requires Valid() && !failed && index <= |session.listing.reports|
      modifies this, layout
      ensures Valid() && View() == WorkReferences(old(View()), ok)
    {
      ParseMap();
      if failed {
        return;
      }
      SkipToReferenced();
      if index == |session.listing.reports| {
        index := 0;
        NextStage(Protocol);
      } else {
        reference := [];
        Request(ok, [Read(session.listing.reports[index].reference)]);
      }
    }

    method SkipToReferenced()
      requires Valid() && index <= |session.listing.reports|
      modifies this`index
      ensures Valid() && View() == old(View()).(index := SkipUnreferenced(session.listing.reports, old(index)))
    {
      var reports := session.listing.reports;
      while index < |reports| && reports[index].reference == 0
        invariant index <= |reports|
        invariant SkipUnreferenced(reports, old(index)) == SkipUnreferenced(reports, index)
      {
        index := index + 1;
      }
    }

    method ProtocolWork(ok: bool, okAfter: bool)
      requires Valid() && !failed
      modifies this
      ensures Valid() && View() == WorkProtocol(old(View()), ok, okAfter)
    {
      var listing := session.listing;
      if listing.control != 0 {
        WriteReportProtocol(ok, listing.control, false);
        if failed {
          return;
        }
      }
      if listing.protocol == 0 {
        NextStage(Subscriptions);
      } else if listing.properties / WRITE_WITHOUT_RESPONSE % 2 == 1 {
        WriteReportProtocol(okAfter, listing.protocol, false);
        if !failed {
          NextStage(Subscriptions);
        }
      } else {
        WriteReportProtocol(okAfter, listing.protocol, true);
      }
    }

    method SubscriptionsWork(ok: bool, admitted: bool)
      requires Valid() && !failed && index <= |ids| == |session.listing.reports|
      modifies this
      ensures Valid() && View() == WorkSubscriptions(old(View()), ok, admitted)
    {
      SkipToWanted();
      if index == |ids| {
        FinishReady(admitted);
      } else if session.listing.reports[index].ccc == 0 {
        failed := true;
      } else {
        Request(ok, [Subscribe(session.listing.reports[index].handle, session.listing.reports[index].ccc)]);
      }
    }

    method SkipToWanted()
      requires Valid() && index <= |ids|
      modifies this`index
      ensures Valid() && View() == old(View()).(index := SkipUnwanted(layout.View(), ids, old(index)))
    {
      var found := false;
      while index < |ids| && !found
        invariant index <= |ids|
        invariant SkipUnwanted(layout.View(), ids, old(index)) == SkipUnwanted(layout.View(), ids, index)
        invariant found ==> index < |ids| && Wanted(layout.View(), ids[index])
        decreases |ids| - index, !found
      {
        var k, none := ReportIndex(layout.reports, ids[index].id);
        if ids[index].kind != INPUT_TYPE || none || !layout.reports[k].useful {
          index := index + 1;
        } else {
          found := true;
        }
      }
    }

    method FinishReady(admitted: bool)
      requires Valid() && !failed
      modifies this`stage, this`failed
      ensures Valid() && View() == Finish(old(View()), admitted)
    {
      if subscribed == 0 || coveredButtons != ALL_BUTTONS || coveredAxes != ALL_AXES || !admitted {
        failed := true;
      } else {
        stage := Ready;
      }
    }

    // ---- The callbacks

    method ServiceCallback(declaration: Handle, end: Handle)
      requires Valid() && Inv(View()) && Answers(View(), ServiceFound(declaration, end))
      modifies this, session
      ensures Valid() && View() == Step(old(View()), ServiceFound(declaration, end))
    {
      if !failed {
        serviceStart := (declaration + 1) % 0x1_0000;
        session.serviceEnd := end;
        outstanding := [];
        NextStage(Characteristics);
      }
    }

    method CharacteristicCallback(c: Characteristic)
      requires Valid() && Inv(View()) && Answers(View(), CharacteristicFound(c))
      modifies this, session
      ensures Valid() && View() == Step(old(View()), CharacteristicFound(c))
    {
      if failed {
        return;
      }
      var known := |session.listing.reports|;
      var full := session.OnCharacteristic(c);
      if full {
        failed, outstanding := true, [];
      } else if |session.listing.reports| > known {
        ids := ids + [ReportId(0, 0)];
      }
    }

    method DescriptorCallback(d: Descriptor)
      requires Valid() && Inv(View()) && Answers(View(), DescriptorFound(d))
      modifies session
      ensures Valid() && View() == Step(old(View()), DescriptorFound(d))
    {
      if !failed {
        session.OnDescriptor(d);
      }
    }

    method DiscoveryEndedCallback()
      requires Valid() && Inv(View()) && Answers(View(), DiscoveryEnded)
      modifies this
      ensures Valid() && View() == Step(old(View()), DiscoveryEnded)
    {
      if failed {
        return;
      }
      outstanding := [];
      if stage == Characteristics && session.listing.map_ != 0 && session.listing.reports != [] {
        NextStage(Descriptors);
      } else if stage == Descriptors {
        NextStage(MapStage);
      } else {
        failed := true;
      }
    }

    method ReadDataCallback(data: array<byte>)
      requires Valid() && Inv(View()) && Answers(View(), ReadData(data[..])) && data != mapData
      modifies this, mapData
      ensures Valid() && View() == Step(old(View()), ReadData(old(data[..])))
    {
      if !failed && stage == MapStage {
        StoreMapData(data);
      } else if !failed && stage == References {
        if data.Length > 2 - |reference| {
          failed, outstanding := true, [];
        } else {
          reference := reference + data[..];
        }
      }
    }

    method StoreMapData(data: array<byte>)
      requires Valid() && stage == MapStage && data != mapData
      modifies this, mapData
      ensures Valid() && View() == OnReadData(old(View()), old(data[..]))
    {
      if data.Length > mapData.Length - mapSize {
        failed, outstanding := true, [];
        return;
      }
      forall k | 0 <= k < data.Length {
        mapData[mapSize + k] := data[k];
      }
      mapSize := mapSize + data.Length;
      assert mapData[..mapSize] == old(mapData[..mapSize]) + old(data[..]);
    }

    method ReadEndedCallback()
      requires Valid() && Inv(View()) && Answers(View(), ReadEnded)
      modifies this
      ensures Valid() && View() == Step(old(View()), ReadEnded)
    {
      if !failed {
        EndRead();
      }
    }

    method EndRead()
      requires Valid() && (stage == References ==> index < |ids|)
      modifies this
      ensures Valid() && View() == OnReadEnded(old(View()))
    {
      outstanding := [];
      if stage == MapStage {
        NextStage(References);
      } else if stage == References {
        if |reference| != 2 {
          failed := true;
          return;
        }
        ids := ids[index := ReportId(reference[0], reference[1])];
        index := index + 1;
        work := true;
      }
    }

    method WrittenCallback()
      requires Valid() && Inv(View()) && Answers(View(), Answered) && stage == Protocol
      modifies this
      ensures Valid() && View() == Step(old(View()), Answered)
    {
      if !failed {
        outstanding := [];
        NextStage(Subscriptions);
      }
    }

    method SubscribedCallback()
      requires Valid() && Inv(View()) && Answers(View(), Answered) && stage == Subscriptions
      modifies this
      ensures Valid() && View() == Step(old(View()), Answered)
    {
      if !failed {
        CountSubscription();
      }
    }

    method CountSubscription()
      requires Valid() && index < |ids|
      modifies this
      ensures Valid() && View() == OnSubscribed(old(View()))
    {
      var k, none := ReportIndex(layout.reports, ids[index].id);
      CoverReport(k);
      NextReport();
      sources := sources + [k];
    }

    method NextReport()
      modifies this`subscribed, this`index, this`work, this`outstanding
      ensures subscribed == old(subscribed) + 1 && index == old(index) + 1 && work && outstanding == []
    {
      subscribed, index, work, outstanding := subscribed + 1, index + 1, true, [];
    }

    // The loop of `subscribed_cb` over the fields of the layout.
    method CoverReport(k: nat)
      modifies this`coveredButtons, this`coveredAxes
      ensures coveredButtons == MarkButtons(old(coveredButtons), layout.fields, k)
      ensures coveredAxes == MarkAxes(old(coveredAxes), layout.fields, k)
    {
      var fields := layout.fields;
      for i := 0 to |fields|
        invariant coveredButtons == MarkButtons(old(coveredButtons), fields[..i], k)
        invariant coveredAxes == MarkAxes(old(coveredAxes), fields[..i], k)
      {
        var f := fields[i];
        assert fields[..i + 1][..i] == fields[..i];
        if f.report == k {
          if f.usage == MouseButton {
            coveredButtons := coveredButtons | BitMask(f.button);
          } else {
            coveredAxes := coveredAxes | BitMask(AxisBit(f.usage));
          }
        }
      }
      assert fields[..|fields|] == fields;
    }

    method ErrorCallback()
      requires Valid() && Inv(View()) && Answers(View(), ErrorResponse)
      modifies this
      ensures Valid() && View() == Step(old(View()), ErrorResponse)
    {
      if !failed {
        failed, outstanding := true, [];
      }
    }
  }
}
