/**
 * The HomeKit Accessory Protocol types the core refers to, reduced to what the core observes:
 * characteristic types as opaque UUID tokens, service types as an enumeration, and a platform
 * accessory as the sequence of its services plus a log of the characteristic initializers bound
 * to them.
 */
module Hap {
  import opened Wrappers

  /** An opaque HAP UUID; tokens stand in for HAP's UUID strings. */
  datatype Uuid = Uuid(token: nat)

  /** The `hap.Characteristic` classes the plugin names. */
  datatype CharacteristicType =
    | CurrentMediaState | TargetMediaState | Volume | Mute
    | Manufacturer | Model | Name | SerialNumber | FirmwareRevision | Identify
  {
    /** The static `UUID` of the characteristic class. */
    function TypeUuid(): Uuid
    {
      match this
      case CurrentMediaState => Uuid(0)
      case TargetMediaState => Uuid(1)
      case Volume => Uuid(2)
      case Mute => Uuid(3)
      case Manufacturer => Uuid(4)
      case Model => Uuid(5)
      case Name => Uuid(6)
      case SerialNumber => Uuid(7)
      case FirmwareRevision => Uuid(8)
      case Identify => Uuid(9)
    }
  }

  /** Distinct characteristic classes have distinct UUIDs, so matching by UUID is matching by type. */
  lemma TypeUuidInjective(a: CharacteristicType, b: CharacteristicType)
    ensures a.TypeUuid() == b.TypeUuid() <==> a == b
  {
  }

  /** The `hap.Service` classes the plugin names. */
  datatype ServiceType = SmartSpeaker | AccessoryInformation

  /** A HAP accessory category code. */
  type Category = nat

  /** `Categories.SPEAKER` of HAP-NodeJS. */
  const SPEAKER: Category := 26

  /** A value written to a characteristic by HomeKit (numbers are modelled as integers). */
  datatype CharacteristicValue = BoolValue(b: bool) | NumberValue(n: int) | StringValue(s: string)

  /** One `initialize` call: a characteristic initializer bound to a service of the accessory. */
  datatype Binding = Binding(service: ServiceType, initializer: nat)

  ghost predicate NoDuplicates<T>(s: seq<T>)
  {
    forall i, j :: 0 <= i < j < |s| ==> s[i] != s[j]
  }

  /** The position of the first service of type `t`, as `accessory.getService(t)` finds it. */
  function IndexOf(services: seq<ServiceType>, t: ServiceType): (r: Option<nat>)
    ensures r.None? <==> t !in services
    ensures r.Some? ==> r.value < |services| && services[r.value] == t
    ensures r.Some? ==> forall k :: 0 <= k < r.value ==> services[k] != t
  {
    if services == [] then None
    else if services[0] == t then Some(0)
    else match IndexOf(services[1..], t)
      case None => None
      case Some(k) => Some(k + 1)
  }

  /** A homebridge platform accessory. */
  class PlatformAccessory {
    const displayName: string
    const uuid: string
    const category: Category
    var services: seq<ServiceType>
    /** Every characteristic initializer bound on this accessory, in call order. */
    ghost var bindings: seq<Binding>

    /** HAP never holds two services of one type (without subtypes) on an accessory. */
    ghost predicate Valid()
      reads this
    {
      NoDuplicates(services)
    }

    /** `new PlatformAccessory(name, uuid, category)`; HAP installs `preinstalled` services itself. */
    constructor (displayName: string, uuid: string, category: Category, preinstalled: seq<ServiceType>)
      requires NoDuplicates(preinstalled)
      ensures Valid()
      ensures this.displayName == displayName && this.uuid == uuid && this.category == category
      ensures services == preinstalled && bindings == []
    {
      this.displayName := displayName;
      this.uuid := uuid;
      this.category := category;
      services := preinstalled;
      bindings := [];
    }

    /** `accessory.getService(t)`: the position of the service of type `t`, if there is one. */
    function GetService(t: ServiceType): (r: Option<nat>)
      reads this
      ensures r.None? <==> t !in services
      ensures r.Some? ==> r.value < |services| && services[r.value] == t
    {
      IndexOf(services, t)
    }

    /** `accessory.addService(t)`; HAP throws on a duplicate, which the caller rules out. */
    method AddService(t: ServiceType) returns (index: nat)
      requires Valid() && t !in services
      modifies this
      ensures Valid()
      ensures services == old(services) + [t] && index == |old(services)|
      ensures bindings == old(bindings)
    {
      services := services + [t];
      index := |services| - 1;
    }
  }
}
