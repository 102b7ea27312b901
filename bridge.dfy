/**
 * SnapcastBridge: the append-only registry of device-scoped command listeners, the dispatch of
 * command events to them, and the SET handler that turns a HomeKit write into a command.
 */
module Bridge {
  import opened Wrappers
  import opened Hap
  import opened Remote

  /** A registered listener; `callback` names the listener function. */
  datatype Listener = Listener(device: Device, callback: nat)

  /** One call of a listener's callback: the listener's position in the registry and the event. */
  datatype Delivery = Delivery(listener: nat, event: CommandEvent)

  /**
   * The callback calls that a filter-then-forEach over `listeners` makes for an event aimed at
   * `serial`: one per listener of that serial, in registration order.
   */
  function Matched(listeners: seq<Listener>, serial: string, event: CommandEvent): (r: seq<Delivery>)
    ensures |r| <= |listeners|
    ensures forall k :: 0 <= k < |r| ==> r[k].event == event && r[k].listener < |listeners|
    ensures forall a, b :: 0 <= a < b < |r| ==> r[a].listener < r[b].listener
  {
    if listeners == [] then []
    else
      var n := |listeners| - 1;
      Matched(listeners[..n], serial, event)
        + (if listeners[n].device.serialNumber == serial then [Delivery(n, event)] else [])
  }

  /** `isDopplerCommand`: the payload has a `dopplerId` key, whatever its value. */
  predicate IsDopplerCommand(event: CommandEvent)
  {
    !event.payload.dopplerId.Absent?
  }

  /** The callback calls that `onCommand` makes for one event, when nothing throws. */
  function Dispatch(listeners: seq<Listener>, event: CommandEvent): seq<Delivery>
  {
    match event.payload.dopplerId
    case Present(id) => Matched(listeners, id.deviceSerialNumber, event)
    case _ => []
  }

  /** A listener is called for an event aimed at `serial` exactly when its device has that serial. */
  lemma {:induction false} MatchedExactly(listeners: seq<Listener>, serial: string, event: CommandEvent, k: nat)
    ensures Delivery(k, event) in Matched(listeners, serial, event)
            <==> k < |listeners| && listeners[k].device.serialNumber == serial
  {
    if listeners != [] {
      var n := |listeners| - 1;
      MatchedExactly(listeners[..n], serial, event, k);
    }
  }

  /**
   * Dispatch of a Doppler event calls exactly the listeners of the target serial, each once;
   * listeners of other serials are never called.
   */
  lemma DispatchTargetsSerial(listeners: seq<Listener>, event: CommandEvent, k: nat)
    requires event.payload.dopplerId.Present?
    ensures Delivery(k, event) in Dispatch(listeners, event)
            <==> k < |listeners|
                 && listeners[k].device.serialNumber == event.payload.dopplerId.id.deviceSerialNumber
    ensures multiset(Dispatch(listeners, event))[Delivery(k, event)] <= 1
  {
    var r := Dispatch(listeners, event);
    MatchedExactly(listeners, event.payload.dopplerId.id.deviceSerialNumber, event, k);
    DistinctCountsOnce(r, Delivery(k, event));
  }

  /** In a sequence whose listener positions strictly increase, no call appears twice. */
  lemma {:induction false} DistinctCountsOnce(r: seq<Delivery>, d: Delivery)
    requires forall a, b :: 0 <= a < b < |r| ==> r[a].listener < r[b].listener
    ensures multiset(r)[d] <= 1
  {
    if r != [] {
      var n := |r| - 1;
      assert r == r[..n] + [r[n]];
      DistinctCountsOnce(r[..n], d);
      if d == r[n] {
        assert d !in r[..n] by {
          forall a | 0 <= a < n ensures r[..n][a] != d {
            assert r[a].listener < r[n].listener;
          }
        }
      }
    }
  }

  /** An event whose payload has no `dopplerId` key reaches no listener. */
  lemma NonDopplerReachesNoOne(listeners: seq<Listener>, event: CommandEvent)
    requires !IsDopplerCommand(event)
    ensures Dispatch(listeners, event) == []
  {
  }

  /**
   * Registering one more listener leaves the calls to the earlier listeners as they were, and
   * adds one call to the new listener exactly when its serial is the target.
   */
  lemma {:induction false} DispatchAfterRegistration(listeners: seq<Listener>, l: Listener, event: CommandEvent)
    ensures Dispatch(listeners + [l], event)
            == Dispatch(listeners, event)
               + (if event.payload.dopplerId.Present?
                     && l.device.serialNumber == event.payload.dopplerId.id.deviceSerialNumber
                  then [Delivery(|listeners|, event)] else [])
  {
    assert (listeners + [l])[..|listeners|] == listeners;
  }

  /** A SET write's command or command value: a static value, or a function of the written value that may throw. */
  datatype Resolvable<T> = Static(v: T) | Fn(f: CharacteristicValue -> Result<T, Error>)

  /** `'function' === typeof x ? x(value) : x`. */
  function Resolve<T>(r: Resolvable<T>, value: CharacteristicValue): (res: Result<T, Error>)
    ensures r.Static? ==> res == Ok(r.v)
    ensures r.Fn? ==> res == r.f(value)
  {
    match r
    case Static(v) => Ok(v)
    case Fn(f) => f(value)
  }

  /**
   * The two resolutions of the SET handler, command first: the first one that throws decides
   * the error; otherwise both resolved values.
   */
  function ResolveCommand<V>(getCommand: Resolvable<string>, getCommandValue: Resolvable<V>,
                             value: CharacteristicValue): (r: Result<(string, V), Error>)
    ensures r.Ok? <==> Resolve(getCommand, value).Ok? && Resolve(getCommandValue, value).Ok?
    ensures r.Ok? ==> r.value == (Resolve(getCommand, value).value, Resolve(getCommandValue, value).value)
    ensures Resolve(getCommand, value).Err? ==> r == Err(Resolve(getCommand, value).error)
    ensures Resolve(getCommand, value).Ok? && Resolve(getCommandValue, value).Err?
            ==> r == Err(Resolve(getCommandValue, value).error)
  {
    match Resolve(getCommand, value)
    case Err(e) => Err(e)
    case Ok(command) =>
      match Resolve(getCommandValue, value)
      case Err(e) => Err(e)
      case Ok(commandValue) => Ok((command, commandValue))
  }

  /**
   * The handler `onCharacteristicSet` attaches to the characteristic's SET event, for one write:
   * the arguments it passes to the SET callback. The send is not performed, so a write that
   * resolves makes no call; one that throws makes exactly one call, with the thrown error, and
   * the exception does not leave the handler.
   */
  function OnSet<V>(getCommand: Resolvable<string>, getCommandValue: Resolvable<V>,
                    value: CharacteristicValue): (calls: seq<Error>)
    ensures |calls| <= 1
    ensures calls == [] <==> ResolveCommand(getCommand, getCommandValue, value).Ok?
    ensures calls != [] ==> calls[0] == ResolveCommand(getCommand, getCommandValue, value).error
  {
    match ResolveCommand(getCommand, getCommandValue, value)
    case Ok(_) => []
    case Err(e) => [e]
  }

  /** The bridge object: its listener registry and the ghost record of what it has called. */
  class SnapcastBridge {
    var listeners: seq<Listener>
    /** Every listener call made by `onCommand`, in call order. */
    ghost var deliveries: seq<Delivery>
    /** How often the first-registration branch of `onDeviceCommand` has been taken. */
    ghost var firstRegistrations: nat

    /** The first-registration branch has been taken once if anything is registered, never otherwise. */
    ghost predicate Valid()
      reads this
    {
      firstRegistrations == (if listeners == [] then 0 else 1)
    }

    constructor ()
      ensures Valid()
      ensures listeners == [] && deliveries == [] && firstRegistrations == 0
    {
      listeners := [];
      deliveries := [];
      firstRegistrations := 0;
    }

    /** `onDeviceCommand`: appends one listener; the upstream subscription it guards is not performed. */
    method OnDeviceCommand(device: Device, callback: nat)
      requires Valid()
      modifies this
      ensures Valid() && firstRegistrations <= 1
      ensures listeners == old(listeners) + [Listener(device, callback)]
      ensures firstRegistrations == old(firstRegistrations) + (if old(listeners) == [] then 1 else 0)
      ensures deliveries == old(deliveries)
    {
      if |listeners| == 0 {
        firstRegistrations := firstRegistrations + 1;
      }
      listeners := listeners + [Listener(device, callback)];
    }

    /**
     * `onCommand`: for a Doppler event, calls every listener of the target serial in registration
     * order. A present but null `dopplerId` makes the filter throw a TypeError (`threw`) before
     * any call, provided there is a listener to test.
     */
    method OnCommand(event: CommandEvent) returns (threw: bool)
      modifies this`deliveries
      ensures listeners == old(listeners) && firstRegistrations == old(firstRegistrations)
      ensures threw <==> event.payload.dopplerId.Nullish? && listeners != []
      ensures deliveries == old(deliveries) + Dispatch(listeners, event)
    {
      threw := false;
      if IsDopplerCommand(event) {
        if event.payload.dopplerId.Nullish? {
          threw := listeners != [];
          return;
        }
        var serial := event.payload.dopplerId.id.deviceSerialNumber;
        ghost var before := deliveries;
        var i := 0;
        while i < |listeners|
          invariant 0 <= i <= |listeners|
          invariant deliveries == before + Matched(listeners[..i], serial, event)
        {
          assert listeners[..i + 1][..i] == listeners[..i];
          if listeners[i].device.serialNumber == serial {
            deliveries := deliveries + [Delivery(i, event)];
          }
          i := i + 1;
        }
        assert listeners[..i] == listeners;
      }
    }
  }

  /** Two listeners for two devices: an event for the first device calls the first listener once and never the second. */
  lemma TwoDevicesDispatch(a: Device, b: Device, ca: nat, cb: nat, event: CommandEvent)
    requires a.serialNumber != b.serialNumber
    requires event.payload.dopplerId.Present? && event.payload.dopplerId.id.deviceSerialNumber == a.serialNumber
    ensures Dispatch([Listener(a, ca), Listener(b, cb)], event) == [Delivery(0, event)]
  {
    var la, lb := Listener(a, ca), Listener(b, cb);
    DispatchAfterRegistration([], la, event);
    assert [] + [la] == [la];
    DispatchAfterRegistration([la], lb, event);
    assert [la] + [lb] == [la, lb];
  }

  /**
   * Two listeners for device A and one for device B on a new bridge: the first-registration
   * branch is taken once, and an event for A calls both A listeners in order and never B's.
   */
  method ThreeListenersScenario(a: Device, b: Device, event: CommandEvent) returns (bridge: SnapcastBridge)
    requires a.serialNumber != b.serialNumber
    requires event.payload.dopplerId.Present? && event.payload.dopplerId.id.deviceSerialNumber == a.serialNumber
    ensures bridge.Valid() && bridge.firstRegistrations == 1
    ensures bridge.deliveries == [Delivery(0, event), Delivery(2, event)]
  {
    bridge := new SnapcastBridge();
    bridge.OnDeviceCommand(a, 0);
    bridge.OnDeviceCommand(b, 1);
    bridge.OnDeviceCommand(a, 2);
    assert bridge.listeners == [Listener(a, 0), Listener(b, 1), Listener(a, 2)];
    var threw := bridge.OnCommand(event);
    SameDeviceTwice(a, b, event);
    assert bridge.deliveries == [] + Dispatch(bridge.listeners, event);
  }

  /** Two listeners of one device and one of another: the event for the first device reaches both of its listeners, in order. */
  lemma SameDeviceTwice(a: Device, b: Device, event: CommandEvent)
    requires a.serialNumber != b.serialNumber
    requires event.payload.dopplerId.Present? && event.payload.dopplerId.id.deviceSerialNumber == a.serialNumber
    ensures Dispatch([Listener(a, 0), Listener(b, 1), Listener(a, 2)], event) == [Delivery(0, event), Delivery(2, event)]
  {
    var la, lb, la2 := Listener(a, 0), Listener(b, 1), Listener(a, 2);
    TwoDevicesDispatch(a, b, 0, 1, event);
    DispatchAfterRegistration([la, lb], la2, event);
    assert [la, lb] + [la2] == [la, lb, la2];
  }
}
