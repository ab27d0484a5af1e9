/**
 * The serial-port enumerations of the .NET runtime that the controller and the
 * configuration use, and the settings a port object is configured with.
 */
module Ports {

  /** Parity checking mode of a serial line. */
  datatype Parity = None | Odd | Even | Mark | Space

  /** Number of stop bits per transmitted byte. */
  datatype StopBits = None | One | Two | OnePointFive

  /** Flow-control protocol of a serial line. */
  datatype Handshake = None | XOnXOff | RequestToSend | RequestToSendXOnXOff

  /** The properties the controller assigns to a new port object before opening it. */
  datatype PortSettings = PortSettings(
    portName: string,
    baudRate: int,
    dataBits: int,
    parity: Parity,
    stopBits: StopBits,
    handshake: Handshake,
    readTimeout: int,
    writeTimeout: int)
}
