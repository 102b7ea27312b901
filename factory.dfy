/**
 * AccessoryFactory: one accessory per discovered device; on each, every applicable service is
 * looked up or added, and every characteristic initializer whose characteristic that service
 * requires is bound to it, in registration order.
 */
module Factory {
  import opened Wrappers
  import opened Hap
  import opened Remote
  import opened ServiceInitializers

  /**
   * A characteristic initializer as the factory sees it: the characteristic `getCharacteristic()`
   * returns, and a name `id` for the initializer.
   */
  datatype CharacteristicInitializer = CharacteristicInitializer(characteristic: CharacteristicType, id: nat)
  {
    /** `initialize(service, device, media)`: records that this initializer was bound to the service. */
    method Initialize(accessory: PlatformAccessory, service: nat, device: Device, media: Media)
      requires service < |accessory.services|
      modifies accessory
      ensures accessory.services == old(accessory.services)
      ensures accessory.bindings == old(accessory.bindings) + [Binding(accessory.services[service], id)]
    {
      accessory.bindings := accessory.bindings + [Binding(accessory.services[service], id)];
    }
  }

  /**
   * The homebridge API as the factory uses it: `hap.uuid.generate`, and the services HAP itself
   * installs on a new platform accessory.
   */
  datatype HomebridgeApi = HomebridgeApi(generate: string -> string, preinstalled: seq<ServiceType>)

  /** Concatenation is associative. */
  lemma ConcatAssociative<T>(x: seq<T>, y: seq<T>, z: seq<T>)
    ensures (x + y) + z == x + (y + z)
  {
  }

  // ---------------------------------------------------------------------------------------------
  // Required characteristics and the filter over characteristic initializers

  /** `new Set(characteristics.map(char => char.UUID))`. */
  function UuidSet(cs: seq<CharacteristicType>): set<Uuid>
  {
    if cs == [] then {} else UuidSet(cs[..|cs| - 1]) + {cs[|cs| - 1].TypeUuid()}
  }

  /** A UUID is in the set exactly when some listed characteristic has it. */
  lemma {:induction false} UuidSetMembership(cs: seq<CharacteristicType>, u: Uuid)
    ensures u in UuidSet(cs) <==> exists c :: c in cs && c.TypeUuid() == u
  {
    if cs != [] {
      var n := |cs| - 1;
      UuidSetMembership(cs[..n], u);
      assert cs == cs[..n] + [cs[n]];
    }
  }

  /** Lists with the same members, however often each is repeated, give the same set. */
  lemma UuidSetIgnoresRepetition(a: seq<CharacteristicType>, b: seq<CharacteristicType>)
    requires forall c :: c in a <==> c in b
    ensures UuidSet(a) == UuidSet(b)
  {
    forall u ensures u in UuidSet(a) <==> u in UuidSet(b) {
      UuidSetMembership(a, u);
      UuidSetMembership(b, u);
    }
  }

  /** The UUIDs of the characteristics a service initializer requires for a device. */
  function Required(si: ServiceInitializer, device: Device): set<Uuid>
  {
    UuidSet(si.getCharacteristics(device))
  }

  /** `characteristicInitializers.filter(ci => required.has(ci.getCharacteristic().UUID))`. */
  function Matching(cis: seq<CharacteristicInitializer>, required: set<Uuid>): (r: seq<CharacteristicInitializer>)
    ensures |r| <= |cis|
  {
    if cis == [] then []
    else
      var n := |cis| - 1;
      Matching(cis[..n], required) + (if cis[n].characteristic.TypeUuid() in required then [cis[n]] else [])
  }

  /** An initializer survives the filter exactly when it is registered and its UUID is required. */
  lemma {:induction false} MatchingMembership(cis: seq<CharacteristicInitializer>, required: set<Uuid>,
                                              ci: CharacteristicInitializer)
    ensures ci in Matching(cis, required) <==> ci in cis && ci.characteristic.TypeUuid() in required
  {
    if cis != [] {
      var n := |cis| - 1;
      MatchingMembership(cis[..n], required, ci);
      assert cis == cis[..n] + [cis[n]];
    }
  }

  /**
   * The filter keeps a required initializer exactly as often as it is registered (once, for an
   * initializer registered once), however often its characteristic is listed.
   */
  lemma {:induction false} MatchingMultiplicity(cis: seq<CharacteristicInitializer>, required: set<Uuid>,
                                                ci: CharacteristicInitializer)
    ensures multiset(Matching(cis, required))[ci]
            == if ci.characteristic.TypeUuid() in required then multiset(cis)[ci] else 0
  {
    if cis != [] {
      var n := |cis| - 1;
      MatchingMultiplicity(cis[..n], required, ci);
      assert cis == cis[..n] + [cis[n]];
    }
  }

  /** The filter keeps registration order: filtering a concatenation concatenates the filtered parts. */
  lemma {:induction false} MatchingAppend(a: seq<CharacteristicInitializer>, b: seq<CharacteristicInitializer>,
                                          required: set<Uuid>)
    ensures Matching(a + b, required) == Matching(a, required) + Matching(b, required)
  {
    if b == [] {
      assert a + b == a;
    } else {
      var n := |b| - 1;
      MatchingAppend(a, b[..n], required);
      assert (a + b)[..|a + b| - 1] == a + b[..n];
      ConcatAssociative(Matching(a, required), Matching(b[..n], required),
                        if b[n].characteristic.TypeUuid() in required then [b[n]] else []);
    }
  }

  /** When every registered initializer is required, the filter keeps them all. */
  lemma {:induction false} MatchingKeepsAll(cis: seq<CharacteristicInitializer>, required: set<Uuid>)
    requires forall k :: 0 <= k < |cis| ==> cis[k].characteristic.TypeUuid() in required
    ensures Matching(cis, required) == cis
  {
    if cis != [] {
      var n := |cis| - 1;
      MatchingKeepsAll(cis[..n], required);
      assert cis == cis[..n] + [cis[n]];
    }
  }

  /** When no registered initializer is required, the filter keeps none. */
  lemma {:induction false} MatchingDropsAll(cis: seq<CharacteristicInitializer>, required: set<Uuid>)
    requires forall k :: 0 <= k < |cis| ==> cis[k].characteristic.TypeUuid() !in required
    ensures Matching(cis, required) == []
  {
    if cis != [] {
      MatchingDropsAll(cis[..|cis| - 1], required);
    }
  }

  // ---------------------------------------------------------------------------------------------
  // The bindings one pass makes, and the services it leaves on the accessory

  /** The `forEach(ci => ci.initialize(service, ...))` over the filtered initializers. */
  function BindingsOn(service: ServiceType, m: seq<CharacteristicInitializer>): (r: seq<Binding>)
    ensures |r| == |m|
  {
    if m == [] then [] else BindingsOn(service, m[..|m| - 1]) + [Binding(service, m[|m| - 1].id)]
  }

  /** The k-th binding is the k-th filtered initializer's, on the one service. */
  lemma {:induction false} BindingsOnElements(service: ServiceType, m: seq<CharacteristicInitializer>)
    ensures forall k :: 0 <= k < |m| ==> BindingsOn(service, m)[k] == Binding(service, m[k].id)
  {
    if m != [] {
      var n := |m| - 1;
      BindingsOnElements(service, m[..n]);
    }
  }

  /** Extending the filtered prefix of the registered initializers by one more initializer. */
  lemma MatchingSnoc(cis: seq<CharacteristicInitializer>, j: nat, required: set<Uuid>)
    requires j < |cis|
    ensures Matching(cis[..j + 1], required)
            == Matching(cis[..j], required) + (if cis[j].characteristic.TypeUuid() in required then [cis[j]] else [])
  {
    assert cis[..j + 1][..j] == cis[..j];
  }

  /** Binding one more initializer appends one binding. */
  lemma BindingsOnSnoc(service: ServiceType, m: seq<CharacteristicInitializer>, ci: CharacteristicInitializer)
    ensures BindingsOn(service, m + [ci]) == BindingsOn(service, m) + [Binding(service, ci.id)]
  {
    assert (m + [ci])[..|m|] == m;
  }

  /** The bindings one service initializer causes: none when its service type is undefined. */
  function Step(si: ServiceInitializer, cis: seq<CharacteristicInitializer>, device: Device): seq<Binding>
  {
    match si.getServiceType(device)
    case None => []
    case Some(t) => BindingsOn(t, Matching(cis, Required(si, device)))
  }

  /** The bindings of the first `i` service initializers' steps, in list order. */
  function PlanUpTo(sis: seq<ServiceInitializer>, i: nat, cis: seq<CharacteristicInitializer>, device: Device): seq<Binding>
    requires i <= |sis|
  {
    if i == 0 then [] else PlanUpTo(sis, i - 1, cis, device) + Step(sis[i - 1], cis, device)
  }

  /** The bindings of `createAccessory`: every service initializer's step, in list order. */
  function Plan(sis: seq<ServiceInitializer>, cis: seq<CharacteristicInitializer>, device: Device): seq<Binding>
  {
    PlanUpTo(sis, |sis|, cis, device)
  }

  /** On the first part of a concatenated list, the steps are those of the first part alone. */
  lemma {:induction false} PlanUpToPrefix(a: seq<ServiceInitializer>, b: seq<ServiceInitializer>, i: nat,
                                          cis: seq<CharacteristicInitializer>, device: Device)
    requires i <= |a|
    ensures PlanUpTo(a + b, i, cis, device) == PlanUpTo(a, i, cis, device)
  {
    if i > 0 {
      PlanUpToPrefix(a, b, i - 1, cis, device);
      assert (a + b)[i - 1] == a[i - 1];
    }
  }

  /** Past the first part of a concatenated list, the steps continue with those of the second part. */
  lemma {:induction false} PlanUpToSuffix(a: seq<ServiceInitializer>, b: seq<ServiceInitializer>, k: nat,
                                          cis: seq<CharacteristicInitializer>, device: Device)
    requires k <= |b|
    ensures PlanUpTo(a + b, |a| + k, cis, device) == Plan(a, cis, device) + PlanUpTo(b, k, cis, device)
  {
    if k == 0 {
      PlanUpToPrefix(a, b, |a|, cis, device);
    } else {
      PlanUpToSuffix(a, b, k - 1, cis, device);
      assert (a + b)[|a| + k - 1] == b[k - 1];
      ConcatAssociative(Plan(a, cis, device), PlanUpTo(b, k - 1, cis, device), Step(b[k - 1], cis, device));
    }
  }

  /** Service initializers are processed in list order. */
  lemma PlanAppend(a: seq<ServiceInitializer>, b: seq<ServiceInitializer>,
                   cis: seq<CharacteristicInitializer>, device: Device)
    ensures Plan(a + b, cis, device) == Plan(a, cis, device) + Plan(b, cis, device)
  {
    PlanUpToSuffix(a, b, |b|, cis, device);
  }

  /** A service initializer whose service type is undefined binds nothing and adds no service. */
  lemma UndefinedServiceTypeDoesNothing(si: ServiceInitializer, cis: seq<CharacteristicInitializer>,
                                        services: seq<ServiceType>, device: Device)
    requires si.getServiceType(device).None?
    ensures Plan([si], cis, device) == []
    ensures ServicesAfter(services, [si], device) == services
  {
    assert Plan([si], cis, device) == PlanUpTo([si], 0, cis, device) + Step(si, cis, device);
    assert ServicesAfter(services, [si], device) == ServicesUpTo(services, [si], 0, device);
  }

  /** The bindings of a list of initializers to `service` name exactly the initializers in the list. */
  lemma BindingsOnMembership(service: ServiceType, m: seq<CharacteristicInitializer>, b: Binding)
    ensures b in BindingsOn(service, m) <==> b.service == service && exists ci :: ci in m && ci.id == b.initializer
  {
    var r := BindingsOn(service, m);
    BindingsOnElements(service, m);
    if b in r {
      var k :| 0 <= k < |r| && r[k] == b;
      assert m[k] in m;
    }
  }

  /** Service initializer `si` binds characteristic initializer `ci` as binding `b` for the device. */
  predicate Binds(si: ServiceInitializer, ci: CharacteristicInitializer, device: Device, b: Binding)
  {
    && si.getServiceType(device) == Some(b.service)
    && ci.id == b.initializer
    && ci.characteristic.TypeUuid() in Required(si, device)
  }

  /** One service initializer's step makes exactly the bindings it `Binds` to a registered initializer. */
  lemma StepMembership(si: ServiceInitializer, cis: seq<CharacteristicInitializer>, device: Device, b: Binding)
    ensures b in Step(si, cis, device) <==> exists j :: 0 <= j < |cis| && Binds(si, cis[j], device, b)
  {
    if si.getServiceType(device).Some? {
      var t := si.getServiceType(device).value;
      var m := Matching(cis, Required(si, device));
      BindingsOnMembership(t, m, b);
      if b in Step(si, cis, device) {
        var ci :| ci in m && ci.id == b.initializer;
        MatchingMembership(cis, Required(si, device), ci);
        var j :| 0 <= j < |cis| && cis[j] == ci;
        assert Binds(si, cis[j], device, b);
      }
      forall j | 0 <= j < |cis| && Binds(si, cis[j], device, b)
        ensures b in Step(si, cis, device)
      {
        MatchingMembership(cis, Required(si, device), cis[j]);
      }
    }
  }

  /**
   * After the first `i` service initializers, a binding has been made exactly when one of them
   * `Binds` it to a registered characteristic initializer.
   */
  lemma {:induction false} PlanUpToMembership(sis: seq<ServiceInitializer>, i: nat,
                                              cis: seq<CharacteristicInitializer>, device: Device, b: Binding)
    requires i <= |sis|
    ensures b in PlanUpTo(sis, i, cis, device)
            <==> exists k, j :: 0 <= k < i && 0 <= j < |cis| && Binds(sis[k], cis[j], device, b)
  {
    if i > 0 {
      var n := i - 1;
      var before, step := PlanUpTo(sis, n, cis, device), Step(sis[n], cis, device);
      assert PlanUpTo(sis, i, cis, device) == before + step;
      PlanUpToMembership(sis, n, cis, device, b);
      StepMembership(sis[n], cis, device, b);
      if b in step {
        var j :| 0 <= j < |cis| && Binds(sis[n], cis[j], device, b);
        assert 0 <= n < i;
      }
      forall k, j | 0 <= k < i && 0 <= j < |cis| && Binds(sis[k], cis[j], device, b)
        ensures b in before + step
      {
        if k == n {
          assert b in step;
        } else {
          assert b in before;
        }
      }
    }
  }

  /**
   * A characteristic initializer is bound to a service of type `t` exactly when some service
   * initializer yields `t` for the device and requires that initializer's characteristic.
   */
  lemma PlanMembership(sis: seq<ServiceInitializer>, cis: seq<CharacteristicInitializer>,
                       device: Device, b: Binding)
    ensures b in Plan(sis, cis, device)
            <==> exists i, j :: 0 <= i < |sis| && 0 <= j < |cis|
                                && sis[i].getServiceType(device) == Some(b.service)
                                && cis[j].id == b.initializer
                                && cis[j].characteristic.TypeUuid() in Required(sis[i], device)
  {
    PlanUpToMembership(sis, |sis|, cis, device, b);
  }

  /** A characteristic's UUID is required exactly when the service initializer lists that characteristic. */
  lemma RequiredByType(si: ServiceInitializer, device: Device, c: CharacteristicType)
    ensures c.TypeUuid() in Required(si, device) <==> c in si.getCharacteristics(device)
  {
    UuidSetMembership(si.getCharacteristics(device), c.TypeUuid());
    forall d | d in si.getCharacteristics(device) && d.TypeUuid() == c.TypeUuid()
      ensures d == c
    {
      TypeUuidInjective(d, c);
    }
  }

  /**
   * A characteristic initializer is bound to a service of type `t` exactly when some service
   * initializer yields `t` for the device and lists that initializer's characteristic.
   */
  lemma PlanMembershipByType(sis: seq<ServiceInitializer>, cis: seq<CharacteristicInitializer>,
                             device: Device, b: Binding)
    ensures b in Plan(sis, cis, device)
            <==> exists i, j :: 0 <= i < |sis| && 0 <= j < |cis|
                                && sis[i].getServiceType(device) == Some(b.service)
                                && cis[j].id == b.initializer
                                && cis[j].characteristic in sis[i].getCharacteristics(device)
  {
    PlanMembership(sis, cis, device, b);
    forall i, j | 0 <= i < |sis| && 0 <= j < |cis|
      ensures cis[j].characteristic.TypeUuid() in Required(sis[i], device)
              <==> cis[j].characteristic in sis[i].getCharacteristics(device)
    {
      RequiredByType(sis[i], device, cis[j].characteristic);
    }
  }

  /** `getService`'s effect on the service list: unchanged if the type is there, else one appended. */
  function GetOrAdd(services: seq<ServiceType>, t: ServiceType): (r: seq<ServiceType>)
    ensures t in r && services <= r && |r| <= |services| + 1
    ensures t in services ==> r == services
    ensures forall x :: x in r <==> x in services || x == t
    ensures NoDuplicates(services) ==> NoDuplicates(r)
  {
    if t in services then services else services + [t]
  }

  /** One service initializer's effect on the service list: `getService` when its type is defined. */
  function ServicesStep(services: seq<ServiceType>, si: ServiceInitializer, device: Device): seq<ServiceType>
  {
    match si.getServiceType(device)
    case None => services
    case Some(t) => GetOrAdd(services, t)
  }

  /** The services after the first `i` service initializers, in list order. */
  function ServicesUpTo(services: seq<ServiceType>, sis: seq<ServiceInitializer>, i: nat, device: Device): seq<ServiceType>
    requires i <= |sis|
  {
    if i == 0 then services else ServicesStep(ServicesUpTo(services, sis, i - 1, device), sis[i - 1], device)
  }

  /** The services after the pass over every service initializer, in list order. */
  function ServicesAfter(services: seq<ServiceType>, sis: seq<ServiceInitializer>, device: Device): seq<ServiceType>
  {
    ServicesUpTo(services, sis, |sis|, device)
  }

  /**
   * The pass keeps the accessory's existing services in place, never duplicates one, and ends
   * with exactly the existing services and the defined service types.
   */
  lemma {:induction false} ServicesUpToContents(services: seq<ServiceType>, sis: seq<ServiceInitializer>, i: nat,
                                                device: Device)
    requires i <= |sis|
    ensures services <= ServicesUpTo(services, sis, i, device)
    ensures NoDuplicates(services) ==> NoDuplicates(ServicesUpTo(services, sis, i, device))
    ensures forall x :: x in ServicesUpTo(services, sis, i, device)
                        <==> x in services || exists k :: 0 <= k < i && sis[k].getServiceType(device) == Some(x)
  {
    if i > 0 {
      ServicesUpToContents(services, sis, i - 1, device);
    }
  }

  /** A pass over an accessory that already has every applicable service adds nothing. */
  lemma {:induction false} ServicesUpToSaturated(services: seq<ServiceType>, sis: seq<ServiceInitializer>, i: nat,
                                                 device: Device)
    requires i <= |sis|
    requires forall k :: 0 <= k < |sis| && sis[k].getServiceType(device).Some?
                         ==> sis[k].getServiceType(device).value in services
    ensures ServicesUpTo(services, sis, i, device) == services
  {
    if i > 0 {
      ServicesUpToSaturated(services, sis, i - 1, device);
    }
  }

  /** Running the pass again on the same accessory adds no service: the pass is idempotent on services. */
  lemma ServicesAfterIdempotent(services: seq<ServiceType>, sis: seq<ServiceInitializer>, device: Device)
    ensures ServicesAfter(ServicesAfter(services, sis, device), sis, device) == ServicesAfter(services, sis, device)
  {
    var once := ServicesAfter(services, sis, device);
    ServicesUpToContents(services, sis, |sis|, device);
    forall k | 0 <= k < |sis| && sis[k].getServiceType(device).Some?
      ensures sis[k].getServiceType(device).value in once
    {
    }
    ServicesUpToSaturated(once, sis, |sis|, device);
  }

  // ---------------------------------------------------------------------------------------------
  // Discovery

  /** `getDevices()`: rejects with the callback's error, else resolves to `data.devices`. */
  function GetDevices(client: Client): (r: Result<seq<Device>, Error>)
    ensures r.Err? <==> client.devicesReply.error.Some?
    ensures r.Err? ==> r.error == client.devicesReply.error.value
    ensures r.Ok? ==> r.value == client.devicesReply.data.devices
  {
    match Settle(client.devicesReply)
    case Err(e) => Err(e)
    case Ok(list) => Ok(list.devices)
  }

  /** `getMedia(device)`: asks for the media of the device's serial number. */
  function GetMedia(client: Client, device: Device): (r: Result<Media, Error>)
    ensures r.Err? <==> client.mediaReply(device.serialNumber).error.Some?
    ensures r.Err? ==> r.error == client.mediaReply(device.serialNumber).error.value
    ensures r.Ok? ==> r.value == client.mediaReply(device.serialNumber).data
  {
    Settle(client.mediaReply(device.serialNumber))
  }

  /**
   * The media of every device: all of them in device order, or the error of the first device
   * whose fetch fails.
   */
  function FetchAllMedia(client: Client, devices: seq<Device>): (r: Result<seq<Media>, Error>)
    ensures r.Ok? <==> forall k :: 0 <= k < |devices| ==> GetMedia(client, devices[k]).Ok?
    ensures r.Ok? ==> |r.value| == |devices|
                      && forall k :: 0 <= k < |devices| ==> r.value[k] == GetMedia(client, devices[k]).value
    ensures r.Err? ==> exists k :: 0 <= k < |devices| && GetMedia(client, devices[k]) == Err(r.error)
                                   && forall j :: 0 <= j < k ==> GetMedia(client, devices[j]).Ok?
  {
    if devices == [] then Ok([])
    else
      var n := |devices| - 1;
      assert forall k :: 0 <= k < n ==> devices[..n][k] == devices[k];
      match FetchAllMedia(client, devices[..n])
      case Err(e) => Err(e)
      case Ok(ms) =>
        match GetMedia(client, devices[n])
        case Err(e) => Err(e)
        case Ok(m) => Ok(ms + [m])
  }

  /** The devices of a pass, or the error that rejects the whole pass. */
  function Discovery(client: Client): (r: Result<seq<Device>, Error>)
    ensures r.Err? <==> GetDevices(client).Err? || FetchAllMedia(client, GetDevices(client).value).Err?
    ensures r.Ok? ==> r.value == GetDevices(client).value
    ensures GetDevices(client).Err? ==> r == Err(GetDevices(client).error)
    ensures GetDevices(client).Ok? && FetchAllMedia(client, GetDevices(client).value).Err?
            ==> r == Err(FetchAllMedia(client, GetDevices(client).value).error)
  {
    match GetDevices(client)
    case Err(e) => Err(e)
    case Ok(devices) =>
      match FetchAllMedia(client, devices)
      case Err(e) => Err(e)
      case Ok(_) => Ok(devices)
  }

  /** When the first `k` fetches succeed and the k-th fails, all media fail with that error. */
  lemma FirstFailureDecides(client: Client, devices: seq<Device>, k: nat)
    requires k < |devices|
    requires forall j :: 0 <= j < k ==> GetMedia(client, devices[j]).Ok?
    requires GetMedia(client, devices[k]).Err?
    ensures FetchAllMedia(client, devices) == Err(GetMedia(client, devices[k]).error)
  {
    var r := FetchAllMedia(client, devices);
    var i :| 0 <= i < |devices| && GetMedia(client, devices[i]) == Err(r.error)
             && forall j :: 0 <= j < i ==> GetMedia(client, devices[j]).Ok?;
    assert !(i < k) && !(k < i);
  }

  // ---------------------------------------------------------------------------------------------
  // The factory

  class AccessoryFactory {
    const homebridge: HomebridgeApi
    const snapcast: Client
    const serviceInitializers: seq<ServiceInitializer>
    const characteristicInitializers: seq<CharacteristicInitializer>

    constructor (homebridge: HomebridgeApi, snapcast: Client, serviceInitializers: seq<ServiceInitializer>,
                 characteristicInitializers: seq<CharacteristicInitializer>)
      requires NoDuplicates(homebridge.preinstalled)
      ensures this.homebridge == homebridge && this.snapcast == snapcast
      ensures this.serviceInitializers == serviceInitializers
      ensures this.characteristicInitializers == characteristicInitializers
    {
      this.homebridge := homebridge;
      this.snapcast := snapcast;
      this.serviceInitializers := serviceInitializers;
      this.characteristicInitializers := characteristicInitializers;
    }

    ghost predicate Valid()
    {
      NoDuplicates(homebridge.preinstalled)
    }

    /** What `createAccessory(device)` leaves behind: identity, services and bindings. */
    ghost predicate Built(accessory: PlatformAccessory, device: Device)
      reads accessory
    {
      && accessory.Valid()
      && accessory.displayName == device.accountName
      && accessory.uuid == homebridge.generate(device.serialNumber)
      && accessory.category == SPEAKER
      && accessory.services == ServicesAfter(homebridge.preinstalled, serviceInitializers, device)
      && accessory.bindings == Plan(serviceInitializers, characteristicInitializers, device)
    }

    /** `newAccessory`: named by the account name, identified by the UUID generated from the serial, a speaker. */
    method NewAccessory(device: Device) returns (accessory: PlatformAccessory)
      requires Valid()
      ensures fresh(accessory) && accessory.Valid()
      ensures accessory.displayName == device.accountName
      ensures accessory.uuid == homebridge.generate(device.serialNumber)
      ensures accessory.category == SPEAKER
      ensures accessory.services == homebridge.preinstalled && accessory.bindings == []
    {
      var name := device.accountName;
      var serialNumber := device.serialNumber;
      var uuid := homebridge.generate(serialNumber);
      accessory := new PlatformAccessory(name, uuid, SPEAKER, homebridge.preinstalled);
    }

    /** `getService`: the existing service of type `t`, or a newly added one; never a duplicate. */
    method GetService(accessory: PlatformAccessory, t: ServiceType) returns (service: nat)
      requires accessory.Valid()
      modifies accessory
      ensures accessory.Valid()
      ensures accessory.services == GetOrAdd(old(accessory.services), t)
      ensures service < |accessory.services| && accessory.services[service] == t
      ensures accessory.bindings == old(accessory.bindings)
    {
      var existing := accessory.GetService(t);
      if existing.None? {
        service := accessory.AddService(t);
      } else {
        service := existing.value;
      }
    }

    /**
     * The `forEach` over the filtered characteristic initializers: each one whose characteristic
     * the service requires is bound to the service at index `service`, in registration order.
     */
    method BindCharacteristics(accessory: PlatformAccessory, service: nat, required: set<Uuid>,
                               device: Device, media: Media)
      requires service < |accessory.services|
      modifies accessory
      ensures accessory.services == old(accessory.services)
      ensures accessory.bindings
              == old(accessory.bindings)
                 + BindingsOn(accessory.services[service], Matching(characteristicInitializers, required))
    {
      var cis := characteristicInitializers;
      ghost var t := accessory.services[service];
      ghost var before := accessory.bindings;
      for j := 0 to |cis|
        invariant accessory.services == old(accessory.services)
        invariant accessory.bindings == before + BindingsOn(t, Matching(cis[..j], required))
      {
        ghost var m := Matching(cis[..j], required);
        MatchingSnoc(cis, j, required);
        if cis[j].characteristic.TypeUuid() in required {
          BindingsOnSnoc(t, m, cis[j]);
          ConcatAssociative(before, BindingsOn(t, m), [Binding(t, cis[j].id)]);
          cis[j].Initialize(accessory, service, device, media);
        } else {
          assert m + [] == m;
        }
      }
      assert cis[..|cis|] == cis;
    }

    /**
     * One service initializer's turn in `createAccessory`: if it yields a service type, that
     * service is looked up or added and the characteristic initializers it requires are bound.
     */
    method ApplyServiceInitializer(accessory: PlatformAccessory, si: ServiceInitializer, device: Device, media: Media)
      requires accessory.Valid()
      modifies accessory
      ensures accessory.Valid()
      ensures accessory.services == ServicesStep(old(accessory.services), si, device)
      ensures accessory.bindings == old(accessory.bindings) + Step(si, characteristicInitializers, device)
    {
      var serviceType := si.getServiceType(device);
      if serviceType.Some? {
        var service := GetService(accessory, serviceType.value);
        BindCharacteristics(accessory, service, Required(si, device), device, media);
      } else {
        assert accessory.bindings + [] == accessory.bindings;
      }
    }

    /**
     * `createAccessory(device)`: fetches the device's media (rejecting with its error), then
     * builds the accessory service initializer by service initializer.
     */
    method CreateAccessory(device: Device) returns (r: Result<PlatformAccessory, Error>)
      requires Valid()
      ensures r.Err? <==> GetMedia(snapcast, device).Err?
      ensures r.Err? ==> r.error == GetMedia(snapcast, device).error
      ensures r.Ok? ==> fresh(r.value) && Built(r.value, device)
    {
      var fetched := GetMedia(snapcast, device);
      if fetched.Err? {
        return Err(fetched.error);
      }
      var media := fetched.value;
      var accessory := NewAccessory(device);
      var sis, cis := serviceInitializers, characteristicInitializers;
      for i := 0 to |sis|
        invariant accessory.Valid()
        invariant accessory.displayName == device.accountName
        invariant accessory.uuid == homebridge.generate(device.serialNumber)
        invariant accessory.category == SPEAKER
        invariant accessory.services == ServicesUpTo(homebridge.preinstalled, sis, i, device)
        invariant accessory.bindings == PlanUpTo(sis, i, cis, device)
      {
        ApplyServiceInitializer(accessory, sis[i], device, media);
      }
      return Ok(accessory);
    }

    /**
     * The `Promise.all` over `devices.map(createAccessory)`: one accessory per device, in device
     * order; if any device's media cannot be fetched, the whole result is that error.
     */
    method CreateAll(devices: seq<Device>) returns (r: Result<seq<PlatformAccessory>, Error>)
      requires Valid()
      ensures r.Err? <==> FetchAllMedia(snapcast, devices).Err?
      ensures r.Err? ==> r.error == FetchAllMedia(snapcast, devices).error
      ensures r.Ok? ==> |r.value| == |devices|
      ensures r.Ok? ==> forall k :: 0 <= k < |r.value| ==> fresh(r.value[k]) && Built(r.value[k], devices[k])
      ensures r.Ok? ==> forall a, b :: 0 <= a < b < |r.value| ==> r.value[a] != r.value[b]
    {
      var accessories: seq<PlatformAccessory> := [];
      for i := 0 to |devices|
        invariant |accessories| == i
        invariant forall j :: 0 <= j < i ==> GetMedia(snapcast, devices[j]).Ok?
        invariant forall k :: 0 <= k < i ==> fresh(accessories[k]) && Built(accessories[k], devices[k])
        invariant forall a, b :: 0 <= a < b < i ==> accessories[a] != accessories[b]
      {
        var created := CreateAccessory(devices[i]);
        if created.Err? {
          FirstFailureDecides(snapcast, devices, i);
          return Err(created.error);
        }
        var next := accessories + [created.value];
        assert forall k :: 0 <= k < i ==> next[k] == accessories[k];
        accessories := next;
      }
      return Ok(accessories);
    }

    /**
     * `createAccessories()`: one accessory per device, in device order; if the device list or any
     * device's media cannot be fetched, the whole result is that error.
     */
    method CreateAccessories() returns (r: Result<seq<PlatformAccessory>, Error>)
      requires Valid()
      ensures r.Err? <==> Discovery(snapcast).Err?
      ensures r.Err? ==> r.error == Discovery(snapcast).error
      ensures r.Ok? ==> |r.value| == |Discovery(snapcast).value|
      ensures r.Ok? ==> forall k :: 0 <= k < |r.value| ==> fresh(r.value[k]) && Built(r.value[k], Discovery(snapcast).value[k])
      ensures r.Ok? ==> forall a, b :: 0 <= a < b < |r.value| ==> r.value[a] != r.value[b]
    {
      var listed := GetDevices(snapcast);
      if listed.Err? {
        return Err(listed.error);
      }
      r := CreateAll(listed.value);
    }
  }
}
