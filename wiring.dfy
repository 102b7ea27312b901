/**
 * The initializer lists the platform plugin hands to the factory, and what one pass over a
 * device builds from them.
 */
module Wiring {
  import opened Wrappers
  import opened Hap
  import opened Remote
  import opened ServiceInitializers
  import opened Factory

  /** The service initializers, in the plugin's order. */
  function PluginServiceInitializers(): seq<ServiceInitializer>
  {
    [AccessoryInfoServiceInitializer(), SmartSpeakerServiceInitializer()]
  }

  /** The plugin's first four characteristic initializers: the media state, mute and volume ones. */
  const MEDIA_INITIALIZERS: seq<CharacteristicInitializer> :=
    [ CharacteristicInitializer(CurrentMediaState, 0), CharacteristicInitializer(TargetMediaState, 1),
      CharacteristicInitializer(Mute, 2), CharacteristicInitializer(Volume, 3) ]

  /** The plugin's last five characteristic initializers: the accessory information ones. */
  const INFO_INITIALIZERS: seq<CharacteristicInitializer> :=
    [ CharacteristicInitializer(Manufacturer, 4), CharacteristicInitializer(Model, 5),
      CharacteristicInitializer(FirmwareRevision, 6), CharacteristicInitializer(Name, 7),
      CharacteristicInitializer(SerialNumber, 8) ]

  /**
   * The characteristic initializers, in the plugin's order, numbered by position; each handles
   * the characteristic its class is named after.
   */
  function PluginCharacteristicInitializers(): seq<CharacteristicInitializer>
  {
    MEDIA_INITIALIZERS + INFO_INITIALIZERS
  }

  /** The UUIDs the AccessoryInformation service requires: Model's appears once. */
  lemma InformationRequired(device: Device)
    ensures Required(AccessoryInfoServiceInitializer(), device) == { Manufacturer.TypeUuid(), Model.TypeUuid(), Name.TypeUuid(),
                 SerialNumber.TypeUuid(), FirmwareRevision.TypeUuid() }
  {
    var l := ACCESSORY_INFO_CHARACTERISTICS;
    assert l[..1][..0] == [] && l[..2][..1] == l[..1] && l[..3][..2] == l[..2];
    assert l[..4][..3] == l[..3] && l[..5][..4] == l[..4] && l[..5] == l[..|l| - 1];
    assert UuidSet(l[..1]) == {Uuid(4)};
    assert UuidSet(l[..2]) == {Uuid(4), Uuid(5)};
    assert UuidSet(l[..3]) == {Uuid(4), Uuid(5), Uuid(6)};
    assert UuidSet(l[..4]) == {Uuid(4), Uuid(5), Uuid(6)};
    assert UuidSet(l[..5]) == {Uuid(4), Uuid(5), Uuid(6), Uuid(7)};
  }

  /** The UUIDs the SmartSpeaker service requires. */
  lemma SpeakerRequired(device: Device)
    ensures Required(SmartSpeakerServiceInitializer(), device)
            == {CurrentMediaState.TypeUuid(), TargetMediaState.TypeUuid(), Volume.TypeUuid(), Mute.TypeUuid()}
  {
    var l := SMART_SPEAKER_CHARACTERISTICS;
    assert l[..1][..0] == [] && l[..2][..1] == l[..1] && l[..3][..2] == l[..2] && l[..3] == l[..|l| - 1];
    assert UuidSet(l[..1]) == {Uuid(0)};
    assert UuidSet(l[..2]) == {Uuid(0), Uuid(1)};
    assert UuidSet(l[..3]) == {Uuid(0), Uuid(1), Uuid(2)};
  }

  /** The information initializers, Model once, bound to AccessoryInformation in registration order. */
  lemma InformationStep(device: Device)
    ensures Step(AccessoryInfoServiceInitializer(), PluginCharacteristicInitializers(), device)
            == [ Binding(AccessoryInformation, 4), Binding(AccessoryInformation, 5),
                 Binding(AccessoryInformation, 6), Binding(AccessoryInformation, 7),
                 Binding(AccessoryInformation, 8) ]
  {
    var info := Required(AccessoryInfoServiceInitializer(), device);
    InformationRequired(device);
    MatchingAppend(MEDIA_INITIALIZERS, INFO_INITIALIZERS, info);
    MatchingDropsAll(MEDIA_INITIALIZERS, info);
    MatchingKeepsAll(INFO_INITIALIZERS, info);
    assert [] + INFO_INITIALIZERS == INFO_INITIALIZERS;
    assert Step(AccessoryInfoServiceInitializer(), PluginCharacteristicInitializers(), device)
           == BindingsOn(AccessoryInformation, INFO_INITIALIZERS);
    InformationBindings();
  }

  /** Binding the information initializers, in order, to AccessoryInformation. */
  lemma InformationBindings()
    ensures BindingsOn(AccessoryInformation, INFO_INITIALIZERS)
            == [ Binding(AccessoryInformation, 4), Binding(AccessoryInformation, 5),
                 Binding(AccessoryInformation, 6), Binding(AccessoryInformation, 7),
                 Binding(AccessoryInformation, 8) ]
  {
    BindingsOnElements(AccessoryInformation, INFO_INITIALIZERS);
  }

  /** The four media initializers bound to SmartSpeaker in registration order. */
  lemma SpeakerStep(device: Device)
    ensures Step(SmartSpeakerServiceInitializer(), PluginCharacteristicInitializers(), device)
            == [ Binding(SmartSpeaker, 0), Binding(SmartSpeaker, 1),
                 Binding(SmartSpeaker, 2), Binding(SmartSpeaker, 3) ]
  {
    var speaker := Required(SmartSpeakerServiceInitializer(), device);
    SpeakerRequired(device);
    MatchingAppend(MEDIA_INITIALIZERS, INFO_INITIALIZERS, speaker);
    MatchingKeepsAll(MEDIA_INITIALIZERS, speaker);
    MatchingDropsAll(INFO_INITIALIZERS, speaker);
    assert MEDIA_INITIALIZERS + [] == MEDIA_INITIALIZERS;
    assert Step(SmartSpeakerServiceInitializer(), PluginCharacteristicInitializers(), device)
           == BindingsOn(SmartSpeaker, MEDIA_INITIALIZERS);
    SpeakerBindings();
  }

  /** Binding the media initializers, in order, to SmartSpeaker. */
  lemma SpeakerBindings()
    ensures BindingsOn(SmartSpeaker, MEDIA_INITIALIZERS)
            == [ Binding(SmartSpeaker, 0), Binding(SmartSpeaker, 1),
                 Binding(SmartSpeaker, 2), Binding(SmartSpeaker, 3) ]
  {
    BindingsOnElements(SmartSpeaker, MEDIA_INITIALIZERS);
  }

  /**
   * For any device, the pass binds the information initializers to AccessoryInformation, Model
   * once despite being listed twice, and then the four media initializers to SmartSpeaker.
   */
  lemma PluginBindings(device: Device)
    ensures Plan(PluginServiceInitializers(), PluginCharacteristicInitializers(), device)
            == [ Binding(AccessoryInformation, 4), Binding(AccessoryInformation, 5),
                 Binding(AccessoryInformation, 6), Binding(AccessoryInformation, 7),
                 Binding(AccessoryInformation, 8),
                 Binding(SmartSpeaker, 0), Binding(SmartSpeaker, 1),
                 Binding(SmartSpeaker, 2), Binding(SmartSpeaker, 3) ]
  {
    var sis := PluginServiceInitializers();
    var cis := PluginCharacteristicInitializers();
    var info, speaker := Step(sis[0], cis, device), Step(sis[1], cis, device);
    assert PlanUpTo(sis, 1, cis, device) == [] + info;
    assert Plan(sis, cis, device) == ([] + info) + speaker;
    InformationStep(device);
    SpeakerStep(device);
  }

  /**
   * For any device the accessory ends with the AccessoryInformation and SmartSpeaker services,
   * whether or not HAP pre-installed the first.
   */
  lemma PluginServices(device: Device, preinstalled: seq<ServiceType>)
    requires preinstalled == [] || preinstalled == [AccessoryInformation]
    ensures ServicesAfter(preinstalled, PluginServiceInitializers(), device) == [AccessoryInformation, SmartSpeaker]
  {
    var sis := PluginServiceInitializers();
    assert ServicesUpTo(preinstalled, sis, 1, device) == [AccessoryInformation];
  }

  /**
   * One pass against a remote that lists the single device SN1 ("Kitchen"): exactly one
   * accessory, named Kitchen, identified by the UUID generated from SN1, with both services and
   * every plugin characteristic initializer bound.
   */
  method KitchenPass(generate: string -> string, preinstalled: seq<ServiceType>)
    returns (accessories: seq<PlatformAccessory>)
    requires preinstalled == [] || preinstalled == [AccessoryInformation]
    ensures |accessories| == 1 && fresh(accessories[0])
    ensures accessories[0].displayName == "Kitchen" && accessories[0].uuid == generate("SN1")
    ensures accessories[0].services == [AccessoryInformation, SmartSpeaker]
    ensures accessories[0].bindings
            == Plan(PluginServiceInitializers(), PluginCharacteristicInitializers(), Device("SN1", "Kitchen"))
  {
    var kitchen := Device("SN1", "Kitchen");
    var client := Client(Reply(None, DeviceList([kitchen])), _ => Reply(None, Media(map[])));
    var factory := new AccessoryFactory(HomebridgeApi(generate, preinstalled), client,
                                        PluginServiceInitializers(), PluginCharacteristicInitializers());
    PluginServices(kitchen, preinstalled);
    var r := factory.CreateAccessories();
    assert GetMedia(client, kitchen).Ok?;
    assert Discovery(client) == Ok([kitchen]);
    accessories := r.value;
  }
}
