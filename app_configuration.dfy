/**
 * The serial and console sections of the application's configuration, and
 * the conversions from the strings a configuration file holds to the port
 * enumerations.
 */
module AppConfiguration {
  import Ports

  /** The configuration-file spelling of each parity. */
  function ParityName(p: Ports.Parity): string
  {
    match p
    case None => "None"
    case Odd => "Odd"
    case Even => "Even"
    case Mark => "Mark"
    case Space => "Space"
  }

  /** The configuration-file spelling of each stop-bits setting. */
  function StopBitsName(b: Ports.StopBits): string
  {
    match b
    case None => "None"
    case One => "One"
    case Two => "Two"
    case OnePointFive => "OnePointFive"
  }

  /** Every parity string the conversion recognises. */
  const ParityNames: set<string> := {"None", "Odd", "Even", "Mark", "Space"}

  /** Every stop-bits string the conversion recognises. */
  const StopBitsNames: set<string> := {"None", "One", "Two", "OnePointFive"}

  /** Serial port communication settings as read from the configuration file. */
  datatype SerialPortConfig = SerialPortConfig(
    portName: string,
    baudRate: int,
    dataBits: int,
    parity: string,
    stopBits: string,
    readTimeout: int,
    writeTimeout: int)
  {
    /** A recognised name selects the parity of that name; anything else falls back to no parity. */
    function GetParity(): (p: Ports.Parity)
      ensures parity in ParityNames ==> ParityName(p) == parity
      ensures parity !in ParityNames ==> p == Ports.Parity.None
    {
      match parity
      case "None" => Ports.Parity.None
      case "Odd" => Ports.Parity.Odd
      case "Even" => Ports.Parity.Even
      case "Mark" => Ports.Parity.Mark
      case "Space" => Ports.Parity.Space
      case _ => Ports.Parity.None
    }

    /** A recognised name selects the stop bits of that name; anything else falls back to one stop bit. */
    function GetStopBits(): (b: Ports.StopBits)
      ensures stopBits in StopBitsNames ==> StopBitsName(b) == stopBits
      ensures stopBits !in StopBitsNames ==> b == Ports.StopBits.One
    {
      match stopBits
      case "None" => Ports.StopBits.None
      case "One" => Ports.StopBits.One
      case "Two" => Ports.StopBits.Two
      case "OnePointFive" => Ports.StopBits.OnePointFive
      case _ => Ports.StopBits.One
    }
  }

  /** The serial settings a configuration starts with when the file does not set them. */
  function DefaultSerialPortConfig(): (c: SerialPortConfig)
    ensures c.portName == "COM1" && c.baudRate == 19200 && c.dataBits == 8
    ensures c.parity == "None" && c.stopBits == "One"
    ensures c.readTimeout == 500 && c.writeTimeout == 500
    ensures c.GetParity() == Ports.Parity.None && c.GetStopBits() == Ports.StopBits.One
  {
    SerialPortConfig("COM1", 19200, 8, "None", "One", 500, 500)
  }

  /** Console hardware description. */
  datatype ConsoleConfig = ConsoleConfig(model: string, channelCount: int, vcaGroups: int)

  /** The console description a configuration starts with: an Otari Status 18R. */
  function DefaultConsoleConfig(): (c: ConsoleConfig)
    ensures c.channelCount == 32 && c.vcaGroups == 8
  {
    ConsoleConfig("Otari Status 18R", 32, 8)
  }

  /** Writing a parity under its own name and reading it back gives the same parity. */
  lemma ParityRoundTrip(c: SerialPortConfig, p: Ports.Parity)
    ensures c.(parity := ParityName(p)).GetParity() == p
  {
  }

  /** Writing a stop-bits value under its own name and reading it back gives the same value. */
  lemma StopBitsRoundTrip(c: SerialPortConfig, b: Ports.StopBits)
    ensures c.(stopBits := StopBitsName(b)).GetStopBits() == b
  {
  }
}
