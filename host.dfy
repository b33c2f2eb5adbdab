/**
 * The host-side values the core handles without interpreting them:
 * the Web Serial port records, the values a foreign call may throw,
 * and the identity of an esptool-js `Transport`.
 */
module Host {
  import opened Wrappers

  /** `SerialPortInfo`: the USB identifiers of a port; either may be `undefined`. */
  datatype PortInfo = PortInfo(usbVendorId: Option<int>, usbProductId: Option<int>)

  /** A `SerialPort` handle; `handle` tells two physical devices apart, `info` is what `getInfo()` returns. */
  datatype SerialPort = SerialPort(handle: nat, info: PortInfo)

  /** The two calls a `getPort` makes to find a port: ask the user, then list the authorized ports. */
  datatype PortPrompt =
    | RequestSerialPort   // `workbench.experimental.requestSerialPort`
    | GetAuthorizedPorts  // `navigator.serial.getPorts()`

  /** A thrown value: an `Error` object with its message, or anything else. */
  datatype Thrown = ErrorObject(message: string) | NonError

  /** The message the program shows for a thrown value: `error instanceof Error ? error.message : 'Unknown error'`. */
  function MessageOf(e: Thrown): (m: string)
    ensures e.ErrorObject? ==> m == e.message
    ensures e.NonError? ==> m == "Unknown error"
  {
    match e
    case ErrorObject(msg) => msg
    case NonError => "Unknown error"
  }

  /**
   * An esptool-js `Transport` over one port. Only its identity and the port it
   * was built over matter to the core; every call made on it is recorded by
   * the caller.
   */
  class Transport {
    const device: SerialPort

    constructor (device: SerialPort)
      ensures this.device == device
    {
      this.device := device;
    }
  }
}
