# homebridge-snapcast-player: a Dafny model of accessory composition and command routing

This project models the core of a Homebridge platform plugin that exposes remote smart speakers as
HomeKit accessories. It covers three source files.

- **Service initializers** (`src/serviceInitializer.ts`). Each one says, for a device, which HAP
  service applies (or `undefined`) and which characteristics that service needs. The two
  initializers the plugin ships are constant tables that ignore the device.
- **The accessory factory** (`src/accessoryFactory.ts`). It fetches the device list, then each
  device's media, and builds one accessory per device. Each accessory is named by the device's
  account name, identified by the UUID generated from its serial number, and has category SPEAKER.
  For each service initializer in list order, it gets or adds the service (never duplicating it).
  It then binds every characteristic initializer whose characteristic UUID is in the required
  set, in registration order. Any fetch error rejects the whole pass.
- **The bridge** (`src/snapcastBridge.ts`). It keeps an append-only registry of (device, callback)
  listeners. It routes Doppler command events to exactly the listeners whose device serial matches
  the event's `dopplerId.deviceSerialNumber`. Its SET handler resolves a command and a command
  value, each static or a function of the written value, and reports a thrown error to the SET
  callback.

Modules, one per file:

- `Wrappers` (`wrappers.dfy`): `Option` and `Result`.
- `Remote` (`remote.dfy`): the snapcast-remote2 entities (`Device`, `Media`, `CommandEvent`) and
  the (error, data) callback, turned into a `Result` by `Settle`. The remote client's answers for
  one pass are a `Client` value.
- `Hap` (`hap.dfy`): characteristic types as opaque UUID tokens, service types as an enumeration, and the category
  code. It also holds `PlatformAccessory`, a class whose `services` sequence HAP's
  `getService`/`addService` read and change. A ghost `bindings` log records every
  characteristic-initializer `initialize` call.
- `ServiceInitializers` (`service_initializers.dfy`): the `ServiceInitializer` interface as a
  record of two functions of the device, and the two shipped initializers.
- `Bridge` (`bridge.dfy`): the `SnapcastBridge` class with its listener registry. A ghost log
  records listener calls. A ghost counter records the first-registration branch. The file also
  holds the SET-handler functions.
- `Factory` (`factory.dfy`): the `AccessoryFactory` class. Its methods are proved against
  specification functions: `GetOrAdd`, `ServicesStep` and `ServicesAfter` for services, `Matching`, `Step` and
  `Plan` for bindings, and `FetchAllMedia` and `Discovery` for the all-or-nothing fetches.
  Lemmas state the properties of those functions.
- `Wiring` (`wiring.dfy`): the initializer lists the platform plugin passes to the factory. It
  also holds the end-to-end result of one pass over them, for any device and for the single device
  SN1 ("Kitchen").

External behaviour becomes parameters:
- `hap.uuid.generate` is the function `HomebridgeApi.generate`.
- The services HAP pre-installs on a new accessory are `HomebridgeApi.preinstalled`.
- The remote's replies are a `Client`.
- A characteristic initializer is a record of its characteristic and an id. Its `initialize` only
  appends (service, id) to the accessory's ghost log.

The model follows the code as it stands:
- The command send in the SET handler is commented out, so a write that resolves makes no
  callback and sends nothing. Only a thrown error reaches the SET callback.
- The upstream `command` subscription in `onDeviceCommand` is commented out. The model only
  counts, in a ghost field, how often its branch is taken (once, on the first registration).
  Nothing in the current code calls `onCommand`. The model still gives its behaviour.
- `getCharacteristics` returns a list, with Model twice for AccessoryInformation, and the factory
  collapses that list to a set of UUIDs.
- `Promise.all` keeps device order, so the accessories come out in device order.

## Model

| member | source | states |
|---|---|---|
| `Remote.Settle` | src/accessoryFactory.ts:42-64 | a callback with an error set rejects with that error; otherwise it resolves to the data |
| `Hap.TypeUuidInjective` | src/accessoryFactory.ts:31-34 | two characteristic types have the same UUID exactly when they are the same type, so matching by UUID matches by type |
| `Hap.IndexOf` | src/accessoryFactory.ts:78 | the lookup `accessory.getService` does: nothing exactly when no service of the type is present, otherwise the first position holding that type |
| `Hap.PlatformAccessory.constructor` | src/accessoryFactory.ts:74 | a new accessory has the given name, UUID and category, HAP's pre-installed services and no bindings |
| `Hap.PlatformAccessory.GetService` | src/accessoryFactory.ts:78 | the lookup finds nothing exactly when no service of the type exists; otherwise it gives the position of one of that type |
| `Hap.PlatformAccessory.AddService` | src/accessoryFactory.ts:80-82 | adding a type that is absent appends exactly one service of that type and keeps the services duplicate-free |
| `ServiceInitializers.SmartSpeakerServiceInitializer` | src/serviceInitializer.ts:17-30 | the service type is SmartSpeaker for every device, and both answers are independent of the device |
| `ServiceInitializers.AccessoryInfoServiceInitializer` | src/serviceInitializer.ts:32-48 | the service type is AccessoryInformation (never undefined) for every device, and both answers are independent of the device |
| `ServiceInitializers.SmartSpeakerList` | src/serviceInitializer.ts:22-29 | the SmartSpeaker list holds exactly CurrentMediaState, TargetMediaState, Volume and Mute, once each |
| `ServiceInitializers.AccessoryInfoList` | src/serviceInitializer.ts:37-47 | the AccessoryInformation list holds Manufacturer, Name, SerialNumber and FirmwareRevision once, Model twice, and no Identify |
| `Factory.CharacteristicInitializer.Initialize` | src/accessoryFactory.ts:35 | an `initialize` call records one binding of this initializer to the given service and changes no service |
| `Factory.UuidSet` | src/accessoryFactory.ts:31 | `new Set(list.map(char => char.UUID))`; no contract of its own, its meaning is stated by `UuidSetMembership` and `UuidSetIgnoresRepetition` |
| `Factory.Required` | src/accessoryFactory.ts:31 | the required UUIDs of one service initializer for a device; no contract of its own, its meaning is stated by `RequiredByType` |
| `Factory.RequiredByType` | src/accessoryFactory.ts:31-34 | a characteristic's UUID is required exactly when the service initializer lists that characteristic |
| `Factory.UuidSetMembership` | src/accessoryFactory.ts:31 | a UUID is in the required set exactly when some listed characteristic has that UUID |
| `Factory.UuidSetIgnoresRepetition` | src/accessoryFactory.ts:31 | two lists with the same members, however often each is repeated, give the same required set |
| `Factory.Matching` | src/accessoryFactory.ts:33-34 | the filter never yields more initializers than are registered |
| `Factory.MatchingMembership` | src/accessoryFactory.ts:33-34 | an initializer passes the filter exactly when it is registered and its characteristic's UUID is required |
| `Factory.MatchingMultiplicity` | src/accessoryFactory.ts:31-34 | a required initializer passes exactly as often as it is registered, and an unrequired one never does, whatever duplicates the required list has |
| `Factory.MatchingAppend` | src/accessoryFactory.ts:33-35 | the filter keeps registration order: filtering a concatenation gives the concatenation of the filtered parts |
| `Factory.MatchingKeepsAll` | src/accessoryFactory.ts:33-34 | if every registered initializer is required, the filter keeps the whole list |
| `Factory.MatchingDropsAll` | src/accessoryFactory.ts:33-34 | if no registered initializer is required, the filter keeps nothing |
| `Factory.BindingsOn` | src/accessoryFactory.ts:35 | the initialize calls over the filtered list make exactly one binding per filtered initializer |
| `Factory.BindingsOnElements` | src/accessoryFactory.ts:35 | the k-th binding is the k-th filtered initializer's, on the one service, so the calls follow the filter's order |
| `Factory.BindingsOnMembership` | src/accessoryFactory.ts:35 | a binding is made exactly when its service is the given one and some filtered initializer has its id |
| `Factory.Step` | src/accessoryFactory.ts:27-35 | the bindings of one service initializer's turn; no contract of its own, its meaning is stated by `StepMembership` and `UndefinedServiceTypeDoesNothing` |
| `Factory.PlanUpTo` | src/accessoryFactory.ts:26-37 | the bindings after the first `i` service initializers' turns; no contract of its own, its meaning is stated by `PlanUpToMembership`, `PlanUpToPrefix` and `PlanUpToSuffix` |
| `Factory.Plan` | src/accessoryFactory.ts:26-37 | the bindings of the whole pass; no contract of its own, its meaning is stated by `PlanMembership`, `PlanMembershipByType` and `PlanAppend` |
| `Factory.StepMembership` | src/accessoryFactory.ts:27-35 | one service initializer's turn binds an initializer exactly when the initializer is registered, the service type is defined and the initializer's characteristic is required |
| `Factory.PlanUpToPrefix` | src/accessoryFactory.ts:26 | on the first part of a concatenated initializer list, the bindings made so far are those of the first part alone |
| `Factory.PlanUpToSuffix` | src/accessoryFactory.ts:26 | past the first part of a concatenated list, the bindings continue with those of the second part's initializers |
| `Factory.PlanAppend` | src/accessoryFactory.ts:26-37 | service initializers are processed in list order: the bindings for a concatenated list are the bindings of the first part followed by those of the second |
| `Factory.UndefinedServiceTypeDoesNothing` | src/accessoryFactory.ts:27-29 | a service initializer whose service type is undefined binds nothing and adds no service |
| `Factory.PlanUpToMembership` | src/accessoryFactory.ts:26-37 | after the first `i` service initializers, a binding exists exactly when one of those initializers binds it to a registered characteristic initializer |
| `Factory.PlanMembership` | src/accessoryFactory.ts:26-37 | initializer `id` is bound to a service of type `t` exactly when some service initializer gives `t` and some registered initializer with that id has a required UUID |
| `Factory.PlanMembershipByType` | src/accessoryFactory.ts:26-37 | initializer `id` is bound to a service of type `t` exactly when some service initializer gives `t` and lists the characteristic of some registered initializer with that id |
| `Factory.GetOrAdd` | src/accessoryFactory.ts:77-85 | after get-or-add the type is present, the old services are a prefix, at most one service was added, none when the type was already there, and no duplicate arises |
| `Factory.ServicesStep` | src/accessoryFactory.ts:27-30 | one service initializer's effect on the services: get-or-add of its type when defined; no contract of its own, its meaning follows from `GetOrAdd`'s |
| `Factory.ServicesUpTo` | src/accessoryFactory.ts:26-30 | the services after the first `i` service initializers; no contract of its own, its meaning is stated by `ServicesUpToContents` and `ServicesUpToSaturated` |
| `Factory.ServicesAfter` | src/accessoryFactory.ts:26-30 | the services after the whole pass; no contract of its own, its meaning is stated by `ServicesUpToContents` and `ServicesAfterIdempotent` |
| `Factory.ServicesUpToContents` | src/accessoryFactory.ts:26-30 | after the first `i` service initializers, a pass keeps the existing services in place and duplicate-free, and ends with exactly the existing services plus the defined service types |
| `Factory.ServicesUpToSaturated` | src/accessoryFactory.ts:77-85 | a pass over an accessory that already has every applicable service leaves its services unchanged |
| `Factory.ServicesAfterIdempotent` | src/accessoryFactory.ts:26-30 | running the service part of the pass twice gives the same services as running it once |
| `Factory.GetDevices` | src/accessoryFactory.ts:42-52 | the device fetch rejects exactly when the callback reports an error, with that error; otherwise it resolves to the listed devices |
| `Factory.GetMedia` | src/accessoryFactory.ts:54-64 | the media fetch asks for the device's serial number and rejects exactly when that callback reports an error |
| `Factory.FetchAllMedia` | src/accessoryFactory.ts:15-23 | media fetching succeeds exactly when every device's fetch succeeds, giving one media per device in order; otherwise it fails with the error of the first failing device |
| `Factory.Discovery` | src/accessoryFactory.ts:15-52 | a pass fails exactly when the device fetch or some media fetch fails: with the device fetch's error when that fails, otherwise with the media error `FetchAllMedia` gives; on success it covers exactly the fetched devices |
| `Factory.FirstFailureDecides` | src/accessoryFactory.ts:16-18 | when every fetch before device `k` succeeds and device `k`'s fails, the whole media fetch fails with device `k`'s error |
| `Factory.AccessoryFactory.constructor` | src/accessoryFactory.ts:7-13 | the factory keeps the API, remote client and both initializer lists it is given |
| `Factory.AccessoryFactory.Built` | src/accessoryFactory.ts:22-40 | what `createAccessory` leaves behind: the identity from `newAccessory`, the services `ServicesAfter` gives and the bindings `Plan` gives; a predicate used in the contracts of `CreateAccessory`, `CreateAll` and `CreateAccessories` |
| `Factory.AccessoryFactory.NewAccessory` | src/accessoryFactory.ts:66-75 | the new accessory is named by the account name, has the UUID generated from the serial number and category SPEAKER, and starts with HAP's services only |
| `Factory.AccessoryFactory.GetService` | src/accessoryFactory.ts:77-85 | the result is the position of a service of type `t`; the services become `GetOrAdd` of the old ones; bindings are unchanged |
| `Factory.AccessoryFactory.BindCharacteristics` | src/accessoryFactory.ts:31-35 | the characteristic initializers whose characteristic is required are bound, in registration order, to the one service, and the services do not change |
| `Factory.AccessoryFactory.ApplyServiceInitializer` | src/accessoryFactory.ts:27-36 | one service initializer's turn updates the services as `ServicesStep` says and appends exactly that initializer's `Step` bindings |
| `Factory.AccessoryFactory.CreateAccessory` | src/accessoryFactory.ts:22-40 | the result fails exactly when the media fetch fails; otherwise it is a fresh accessory with the identity, services and bindings that `Built` describes |
| `Factory.AccessoryFactory.CreateAll` | src/accessoryFactory.ts:16-18 | building every device's accessory fails exactly when some media fetch fails, with the first failing device's error; otherwise it gives one distinct fresh accessory per device, in order, each as `Built` describes |
| `Factory.AccessoryFactory.CreateAccessories` | src/accessoryFactory.ts:15-19 | the result fails exactly when discovery fails, and then with its error; otherwise it holds one distinct fresh accessory per device, in device order, each as `Built` describes |
| `Bridge.Matched` | src/snapcastBridge.ts:57-59 | the listener calls for a serial use only that event, go to registered listeners, and follow strictly increasing registry positions, so each listener is called at most once and in registration order |
| `Bridge.IsDopplerCommand` | src/snapcastBridge.ts:63-65 | `'dopplerId' in command.payload`: holds exactly when the key is there, even with a null value; no contract of its own, used by `OnCommand`'s throw condition and `NonDopplerReachesNoOne` |
| `Bridge.Dispatch` | src/snapcastBridge.ts:55-61 | the listener calls `onCommand` makes when nothing throws; no contract of its own, its meaning is stated by `MatchedExactly`, `DispatchTargetsSerial` and `NonDopplerReachesNoOne` |
| `Bridge.MatchedExactly` | src/snapcastBridge.ts:57-59 | listener `k` is called exactly when it is registered and its device has the event's serial |
| `Bridge.DispatchTargetsSerial` | src/snapcastBridge.ts:55-60 | a Doppler event calls exactly the listeners of its target serial, each at most once, and never a listener of another serial |
| `Bridge.DistinctCountsOnce` | src/snapcastBridge.ts:58-59 | with strictly increasing listener positions, no call occurs twice |
| `Bridge.NonDopplerReachesNoOne` | src/snapcastBridge.ts:55-65 | an event whose payload has no `dopplerId` key reaches no listener |
| `Bridge.DispatchAfterRegistration` | src/snapcastBridge.ts:49-59 | registering one more listener keeps the earlier listeners' calls and adds a call to the new one exactly when its serial is the target |
| `Bridge.TwoDevicesDispatch` | src/snapcastBridge.ts:57-59 | with listeners for devices A and B, an event for A calls A's listener once and never B's |
| `Bridge.SameDeviceTwice` | src/snapcastBridge.ts:57-59 | two listeners of one device both receive its event, in registration order, and a listener of another device does not |
| `Bridge.Resolve` | src/snapcastBridge.ts:25-26 | a static value passes through unchanged, including an undefined one; a function is applied to the written value |
| `Bridge.ResolveCommand` | src/snapcastBridge.ts:24-26 | resolution succeeds exactly when both parts resolve, giving both values; a throwing command decides the error, and otherwise a throwing command value does |
| `Bridge.OnSet` | src/snapcastBridge.ts:23-40 | a write calls the SET callback at most once: never when resolution succeeds (nothing is sent), and once with the thrown error when it throws |
| `Bridge.SnapcastBridge.constructor` | src/snapcastBridge.ts:10 | the registry starts empty, with no calls and no first registration |
| `Bridge.SnapcastBridge.OnDeviceCommand` | src/snapcastBridge.ts:44-53 | appends exactly one listener and leaves earlier entries unchanged; the first-registration branch counts once on an empty registry, so it is never taken more than once |
| `Bridge.SnapcastBridge.OnCommand` | src/snapcastBridge.ts:55-65 | the registry is unchanged; the calls made are those of `Dispatch`; it throws exactly when `dopplerId` is present but null and some listener exists |
| `Bridge.ThreeListenersScenario` | src/snapcastBridge.ts:44-60 | on a new bridge with two A listeners and one B listener, the first-registration branch is taken once and an A event reaches positions 0 and 2 only |
| `Wiring.PluginServiceInitializers` | src/snapcastPlatformPlugin.ts:35-38 | the plugin's service initializers, AccessoryInformation first and then SmartSpeaker; no contract of its own, used by `PluginBindings` and `PluginServices` |
| `Wiring.PluginCharacteristicInitializers` | src/snapcastPlatformPlugin.ts:39-49 | the plugin's nine characteristic initializers in registration order, numbered 0 to 8; no contract of its own, used by `InformationStep`, `SpeakerStep` and `PluginBindings` |
| `Wiring.InformationRequired` | src/serviceInitializer.ts:37-47 | the AccessoryInformation list yields five UUIDs; Model's duplicate collapses |
| `Wiring.SpeakerRequired` | src/serviceInitializer.ts:22-29 | the SmartSpeaker list yields the four media UUIDs |
| `Wiring.InformationStep` | src/accessoryFactory.ts:31-35 | with the plugin's initializers, Manufacturer, Model (once), FirmwareRevision, Name and SerialNumber are bound to AccessoryInformation, in registration order |
| `Wiring.InformationBindings` | src/accessoryFactory.ts:35 | the five information initializers are bound to AccessoryInformation in registration order |
| `Wiring.SpeakerBindings` | src/accessoryFactory.ts:35 | the four media initializers are bound to SmartSpeaker in registration order |
| `Wiring.SpeakerStep` | src/accessoryFactory.ts:31-35 | with the plugin's initializers, CurrentMediaState, TargetMediaState, Mute and Volume are bound to SmartSpeaker, in registration order |
| `Wiring.PluginBindings` | src/snapcastPlatformPlugin.ts:35-49 | with the plugin's two lists, a pass binds the five information initializers and then the four media initializers, each exactly once, for any device |
| `Wiring.PluginServices` | src/snapcastPlatformPlugin.ts:35-38 | with the plugin's service initializers, the accessory ends with AccessoryInformation and SmartSpeaker, whether or not HAP pre-installed the first |
| `Wiring.KitchenPass` | src/accessoryFactory.ts:15-40 | a remote listing only SN1 ("Kitchen") gives one accessory named Kitchen, with the UUID generated from SN1, both services, and the plugin's bindings |

## Left out

- Logging: the `debug` line in `newAccessory` and the `error` line in the SET handler's catch, with their `JSON.stringify` messages.
- The commented-out remote calls: `sendCommand` in the SET handler and `on('command', …)` in `onDeviceCommand`. They are not modelled as running.
- The HAP runtime. `getCharacteristic(...).on(SET, …)` is not modelled, so `onCharacteristicSet` appears only through the handler's behaviour on one write (`Bridge.OnSet`); which handlers are attached is not recorded. HAP's UUID strings, the UUID hashing of `hap.uuid.generate` (a parameter) and its lookup of services by UUID or name (modelled as lookup by type) are left out too.
- `src/characteristicInitializer.ts` is not part of this model. A characteristic initializer is its characteristic and an id, and `initialize` only records a binding. The media passed to `initialize` is not recorded. `Wiring` assumes each plugin initializer handles the characteristic it is named after.
- `src/snapcastPlatformPlugin.ts`: configuration loading and validation, `fs` and Ajv are left out. Only its two initializer lists are used, in `Wiring`.
- `scripts/generateConfigSchema.ts`, `src/index.ts` and `src/snapcastPlatformConfig.ts` are left out: build-time I/O, registration and type declarations.
- `BaseServiceInitializer`'s `config` is never read. Its `hap` is read only for the constant Service and Characteristic classes, which the `Hap` enumerations replace. Both fields are left out.
- `Factory.AccessoryFactory.CreateAll` (and so `CreateAccessories`): runs the devices one after another and stops at the first device whose media fetch fails, reporting that device's error. `Factory.FetchAllMedia`, `Factory.Discovery` and `Factory.FirstFailureDecides` fix that device-order choice of error. In the source the per-device calls run concurrently and `Promise.all` rejects with whichever fails first in time. `Promise.all` cancels nothing: every device whose media fetch succeeds is still built, and its characteristic initializers still run, before or after the rejection. The model never builds the devices after the first failing one, and the accessories built before it are discarded from the result.
- `Bridge.SnapcastBridge.OnCommand`: listener callbacks are opaque ids, so a callback that throws (ending the `forEach` early) or re-enters the bridge is not modelled. A payload that is itself undefined, and a `deviceSerialNumber` that is not a string, are not modelled either.
- `Hap.CharacteristicValue`: JavaScript numbers are modelled as integers.
- Re-running a pass: `newAccessory` always builds a new accessory, so the source never re-binds on an existing accessory. Duplicate SET handlers on reused accessories therefore do not arise and are not modelled. `Factory.ServicesAfterIdempotent` covers only the services part.
