/**
 * Transport selection in `UavcanCommunicatorV0.__init__`: the device-type
 * string picks one of two fixed sets of connection parameters (the keyword
 * arguments handed to `uavcan.make_node`), or nothing, which the wrapper
 * turns into a fatal exit before any node is made.
 */
module Transport {
  import opened Wrappers

  /** Serial device used by the serial-bridge transport (`DEV_PATH`). */
  const DEV_PATH: string := "/dev/ttyACM0"
  /** The device type the script selects (`CAN_DEVICE_TYPE`). */
  const CAN_DEVICE_TYPE: string := "serial"

  /** A value in the keyword-argument dictionary: a string or an integer. */
  datatype Value = Text(s: string) | Number(n: int)

  /** The two connection variants the wrapper knows. */
  datatype Config =
    | SerialBridge(deviceName: string, baudrate: nat)
    | SocketCan(deviceName: string, busType: string, bitrate: nat)

  const SERIAL_CONFIG: Config := SerialBridge(DEV_PATH, 1000000)
  const SLCAN_CONFIG: Config := SocketCan("slcan0", "socketcan", 1000000)

  /** The device-type string that names a configuration. */
  function DeviceType(c: Config): string
  {
    if c.SerialBridge? then "serial" else "can-slcan"
  }

  /** The configuration a device-type string selects; `None` is the fatal case. */
  function SelectTransport(deviceType: string): (r: Option<Config>)
    ensures r.Some? <==> deviceType == "serial" || deviceType == "can-slcan"
    ensures r.Some? ==> DeviceType(r.value) == deviceType
  {
    if deviceType == "serial" then Some(SERIAL_CONFIG)
    else if deviceType == "can-slcan" then Some(SLCAN_CONFIG)
    else None
  }

  /** The keyword arguments a configuration becomes in the `make_node` call. */
  function Kwargs(c: Config): (m: map<string, Value>)
    ensures c.SerialBridge? ==> m.Keys == {"can_device_name", "baudrate"}
    ensures c.SocketCan? ==> m.Keys == {"can_device_name", "bustype", "bitrate"}
    ensures "can_device_name" in m && m["can_device_name"] == Text(c.deviceName)
  {
    match c
    case SerialBridge(device, baud) =>
      map["can_device_name" := Text(device), "baudrate" := Number(baud)]
    case SocketCan(device, bus, bit) =>
      map["can_device_name" := Text(device), "bustype" := Text(bus), "bitrate" := Number(bit)]
  }

  /** Selection and naming are inverse to each other on the two known configurations. */
  lemma SelectTransportInverse(deviceType: string, c: Config)
    ensures SelectTransport(deviceType) == Some(c)
        <==> (c == SERIAL_CONFIG || c == SLCAN_CONFIG) && deviceType == DeviceType(c)
  {
  }

  /** The exact keyword arguments each accepted device type produces. */
  lemma SelectedKwargs(deviceType: string)
    ensures deviceType == "serial" ==>
      SelectTransport(deviceType).Some? &&
      Kwargs(SelectTransport(deviceType).value)
        == map["can_device_name" := Text("/dev/ttyACM0"), "baudrate" := Number(1000000)]
    ensures deviceType == "can-slcan" ==>
      SelectTransport(deviceType).Some? &&
      Kwargs(SelectTransport(deviceType).value)
        == map["can_device_name" := Text("slcan0"), "bustype" := Text("socketcan"),
               "bitrate" := Number(1000000)]
    ensures deviceType != "serial" && deviceType != "can-slcan" ==>
      SelectTransport(deviceType).None?
  {
  }
}
