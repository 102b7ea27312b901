/**
 * Service initializers: for a device, the HAP service type that applies (if any) and the
 * characteristics that service needs.
 */
module ServiceInitializers {
  import opened Wrappers
  import opened Hap
  import opened Remote

  /** The `ServiceInitializer` interface; `None` is the `undefined` service type. */
  datatype ServiceInitializer = ServiceInitializer(
    getServiceType: Device -> Option<ServiceType>,
    getCharacteristics: Device -> seq<CharacteristicType>)

  /** Neither answer of the initializer depends on the device it is asked about. */
  ghost predicate DeviceIndependent(si: ServiceInitializer)
  {
    forall d1: Device, d2: Device ::
      si.getServiceType(d1) == si.getServiceType(d2) && si.getCharacteristics(d1) == si.getCharacteristics(d2)
  }

  /** The SmartSpeaker service's list: the four media characteristics. */
  const SMART_SPEAKER_CHARACTERISTICS: seq<CharacteristicType> :=
    [CurrentMediaState, TargetMediaState, Volume, Mute]

  /** The AccessoryInformation service's list; Model is listed twice and Identify is not listed. */
  const ACCESSORY_INFO_CHARACTERISTICS: seq<CharacteristicType> :=
    [Manufacturer, Model, Name, Model, SerialNumber, FirmwareRevision]

  /** `SmartSpeakerServiceInitializer`: always the SmartSpeaker service, whatever the device. */
  function SmartSpeakerServiceInitializer(): (si: ServiceInitializer)
    ensures DeviceIndependent(si)
    ensures forall d :: si.getServiceType(d) == Some(SmartSpeaker)
    ensures forall d :: si.getCharacteristics(d) == SMART_SPEAKER_CHARACTERISTICS
  {
    ServiceInitializer(_ => Some(SmartSpeaker), _ => SMART_SPEAKER_CHARACTERISTICS)
  }

  /** `AccessoryInfoServiceInitializer`: always the AccessoryInformation service, never undefined. */
  function AccessoryInfoServiceInitializer(): (si: ServiceInitializer)
    ensures DeviceIndependent(si)
    ensures forall d :: si.getServiceType(d) == Some(AccessoryInformation)
    ensures forall d :: si.getCharacteristics(d) == ACCESSORY_INFO_CHARACTERISTICS
  {
    ServiceInitializer(_ => Some(AccessoryInformation), _ => ACCESSORY_INFO_CHARACTERISTICS)
  }

  /** Exactly CurrentMediaState, TargetMediaState, Volume and Mute, each once. */
  lemma SmartSpeakerList()
    ensures forall c :: multiset(SMART_SPEAKER_CHARACTERISTICS)[c]
                        == if c in {CurrentMediaState, TargetMediaState, Volume, Mute} then 1 else 0
  {
  }

  /** Manufacturer, Model (twice), Name, SerialNumber and FirmwareRevision; Identify is absent. */
  lemma AccessoryInfoList()
    ensures forall c :: multiset(ACCESSORY_INFO_CHARACTERISTICS)[c]
                        == if c == Model then 2
                           else if c in {Manufacturer, Name, SerialNumber, FirmwareRevision} then 1
                           else 0
    ensures Identify !in ACCESSORY_INFO_CHARACTERISTICS
  {
  }
}
