/**
 * The parts of the snapcast-remote2 client that the core uses: devices, media, command events,
 * and the (error, data) callbacks of its fetch calls. The client itself is not part of this model:
 * its answers for one accessory-creation pass are a value of type Client.
 */
module Remote {
  import opened Wrappers

  /** A speaker known to the remote API. */
  datatype Device = Device(serialNumber: string, accountName: string)

  /** Current playback state of one device; its fields are opaque to the core. */
  datatype Media = Media(fields: map<string, string>)

  /** The `data` argument of the `getDevices` callback. */
  datatype DeviceList = DeviceList(devices: seq<Device>)

  /** An error reported by the remote API or thrown while handling a write. */
  datatype Error = Error(message: string)

  /**
   * The two arguments a Node-style callback is called with. `error` is None when the
   * JavaScript value is falsy (null or undefined), which is what `if (error)` tests.
   */
  datatype Reply<T> = Reply(error: Option<Error>, data: T)

  /** What the remote client answers during one pass: the device list and the media of each serial. */
  datatype Client = Client(devicesReply: Reply<DeviceList>, mediaReply: string -> Reply<Media>)

  /**
   * The promise wrapper around a callback: `reject(error)` when the error is set,
   * `resolve(data)` otherwise.
   */
  function Settle<T>(reply: Reply<T>): (r: Result<T, Error>)
    ensures r.Err? <==> reply.error.Some?
    ensures r.Err? ==> r.error == reply.error.value
    ensures r.Ok? ==> r.value == reply.data
  {
    match reply.error
    case Some(e) => Err(e)
    case None => Ok(reply.data)
  }

  /** The target of a Doppler command event. */
  datatype DopplerId = DopplerId(deviceSerialNumber: string, deviceType: string)

  /**
   * The `dopplerId` key of a command payload: missing, present but null or undefined,
   * or present with a value.
   */
  datatype DopplerField = Absent | Nullish | Present(id: DopplerId)

  datatype Payload = Payload(dopplerId: DopplerField)

  /** A `command` event of the remote API. */
  datatype CommandEvent = CommandEvent(command: string, payload: Payload)
}
