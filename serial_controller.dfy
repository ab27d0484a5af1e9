/**
 * The serial connection controller of the console: connection lifecycle,
 * the three command setters, raw command transmission and the receive
 * handler.
 *
 * The physical port is abstract. Every place where the runtime's port object
 * can succeed or fail is a parameter of the operation: whether configuring
 * and opening succeed, whether closing faults, whether a write faults, and
 * how many bytes are waiting and what a read returns. Each public operation
 * is atomic: the monitor that serialises them is not modelled.
 *
 * The first part is a state machine over values (ControllerState and one
 * function per operation) that states what each operation does and the
 * properties proved about it. The class SerialController keeps the same
 * state in fields and updates it step by step; each of its methods is proved
 * to end in the state the matching function describes.
 */
module Controllers {
  import opened Common
  import opened Models
  import Ports
  import ProtocolHandler

  /** The channel range SetFaderLevel accepts; it is fixed, not read from the configuration. */
  const MinChannel := 1
  const MaxChannel := 32

  /** The port object the controller holds: how it was configured and whether it is open. */
  datatype SerialPort = SerialPort(settings: Ports.PortSettings, isOpen: bool)

  /**
   * Everything the controller owns or has made observable: the port object
   * (absent when null), the connected flag, the values passed to
   * ConnectionStatusChanged, the arrays passed to DataReceived, and the byte
   * arrays that reached the port through writes, in order.
   */
  datatype ControllerState = ControllerState(
    port: Option<SerialPort>,
    connected: bool,
    statusEvents: seq<bool>,
    dataEvents: seq<seq<Byte>>,
    writes: seq<seq<Byte>>)

  /** What the runtime does when Connect configures and opens a new port object. */
  datatype OpenOutcome =
    | SettingsRejected  // a property of the new port object is rejected: it is never assigned
    | OpenFails         // the port object is assigned but opening it throws
    | Opens             // the port opens

  /** What a read of the waiting bytes returns: the bytes it copied, or a fault. */
  datatype ReadOutcome = ReadBytes(data: seq<Byte>) | ReadFails

  /** SetFaderLevel either returns whether the command was sent or throws for a bad channel. */
  datatype FaderOutcome = Returned(sent: bool) | ChannelOutOfRange

  /** A freshly constructed controller: no port, not connected, nothing observed yet. */
  const Initial := ControllerState(None, false, [], [], [])

  predicate PortOpen(s: ControllerState)
  {
    s.port.Some? && s.port.value.isOpen
  }

  /** The IsConnected property: the flag is set and a port exists and is open. */
  predicate IsConnectedIn(s: ControllerState)
  {
    s.connected && PortOpen(s)
  }

  /**
   * What every reachable state satisfies: whenever a port object exists the
   * flag equals its open state, and the port carries the fixed line settings
   * Connect assigns.
   */
  ghost predicate Invariant(s: ControllerState)
  {
    s.port.Some? ==>
      && s.connected == s.port.value.isOpen
      && s.port.value.settings == ConnectSettings(s.port.value.settings.portName, s.port.value.settings.baudRate)
  }

  /** The settings Connect gives every port: 8 data bits, no parity, one stop bit, no handshake, 500 ms timeouts. */
  function ConnectSettings(portName: string, baudRate: int): Ports.PortSettings
  {
    Ports.PortSettings(portName, baudRate, 8, Ports.Parity.None, Ports.StopBits.One,
                       Ports.Handshake.None, 500, 500)
  }

  /**
   * Disconnect. An open port is closed. When closing throws, the handler only
   * logs, so neither the flag nor the event is updated; in every case the port
   * object is released.
   */
  function DisconnectStep(s: ControllerState, closeFails: bool): (t: ControllerState)
    ensures t.port.None? && !IsConnectedIn(t) && Invariant(t)
    ensures t.writes == s.writes && t.dataEvents == s.dataEvents
    ensures PortOpen(s) && closeFails ==> t.connected == s.connected && t.statusEvents == s.statusEvents
    ensures !(PortOpen(s) && closeFails) ==> !t.connected && t.statusEvents == s.statusEvents + [false]
  {
    if PortOpen(s) && closeFails then
      s.(port := None)
    else
      s.(port := None, connected := false, statusEvents := s.statusEvents + [false])
  }

  /**
   * Connect(portName, baudRate). It disconnects first, then configures a new
   * port object and opens it. Any exception on the way is caught: the flag is
   * cleared, false is reported and returned.
   */
  function ConnectStep(s: ControllerState, portName: string, baudRate: int,
                       closeFails: bool, open: OpenOutcome): (result: (ControllerState, bool))
    ensures result.1 <==> open == Opens
    ensures result.1 <==> IsConnectedIn(result.0)
    ensures result.0.connected == result.1
    ensures Invariant(result.0)
    ensures result.0.statusEvents == DisconnectStep(s, closeFails).statusEvents + [result.1]
    ensures result.0.writes == s.writes && result.0.dataEvents == s.dataEvents
    ensures open == Opens ==> result.0.port == Some(SerialPort(ConnectSettings(portName, baudRate), true))
    ensures open == OpenFails ==> result.0.port == Some(SerialPort(ConnectSettings(portName, baudRate), false))
    ensures open == SettingsRejected ==> result.0.port.None?
  {
    var d := DisconnectStep(s, closeFails);
    match open
    case SettingsRejected =>
      (d.(connected := false, statusEvents := d.statusEvents + [false]), false)
    case OpenFails =>
      var port := SerialPort(ConnectSettings(portName, baudRate), false);
      (d.(port := Some(port), connected := false, statusEvents := d.statusEvents + [false]), false)
    case Opens =>
      var port := SerialPort(ConnectSettings(portName, baudRate), true);
      (d.(port := Some(port), connected := port.isOpen, statusEvents := d.statusEvents + [port.isOpen]), port.isOpen)
  }

  /**
   * SendCommand(command). Nothing is written unless a port exists and is
   * open; a faulting write is caught and reported as false.
   */
  function SendCommandStep(s: ControllerState, command: seq<Byte>, writeOk: bool): (result: (ControllerState, bool))
    ensures result.1 <==> PortOpen(s) && writeOk
    ensures result.0 == s.(writes := if result.1 then s.writes + [command] else s.writes)
  {
    if !PortOpen(s) then (s, false)
    else if writeOk then (s.(writes := s.writes + [command]), true)
    else (s, false)
  }

  /** SetAutomationMode(mode): only when connected is the mode command sent. */
  function SetAutomationModeStep(s: ControllerState, mode: AutomationMode, writeOk: bool): (result: (ControllerState, bool))
    ensures result.1 <==> IsConnectedIn(s) && writeOk
    ensures result.0 == s.(writes := if result.1 then s.writes + [[0x00]] else s.writes)
  {
    if !IsConnectedIn(s) then (s, false)
    else SendCommandStep(s, ProtocolHandler.BuildAutomationModeCommand(mode), writeOk)
  }

  /**
   * SetFaderLevel(channel, level): the connection is checked before the
   * channel, and a bad channel on a connected controller throws before
   * anything is encoded or written.
   */
  function SetFaderLevelStep(s: ControllerState, channel: int, level: int, writeOk: bool): (result: (ControllerState, FaderOutcome))
    ensures result.1 == ChannelOutOfRange <==> IsConnectedIn(s) && !(MinChannel <= channel <= MaxChannel)
    ensures result.1 == Returned(true) <==> IsConnectedIn(s) && MinChannel <= channel <= MaxChannel && writeOk
    ensures result.0 == s.(writes := if result.1 == Returned(true) then s.writes + [[0x00]] else s.writes)
  {
    if !IsConnectedIn(s) then (s, Returned(false))
    else if channel < MinChannel || channel > MaxChannel then (s, ChannelOutOfRange)
    else
      var (t, ok) := SendCommandStep(s, ProtocolHandler.BuildFaderCommand(channel, level), writeOk);
      (t, Returned(ok))
  }

  /** SetSwitchState(channel, switchType, state): connection check only; the channel is not checked. */
  function SetSwitchStateStep(s: ControllerState, channel: int, switchType: SwitchType, state: bool, writeOk: bool)
    : (result: (ControllerState, bool))
    ensures result.1 <==> IsConnectedIn(s) && writeOk
    ensures result.0 == s.(writes := if result.1 then s.writes + [[0x00]] else s.writes)
  {
    if !IsConnectedIn(s) then (s, false)
    else SendCommandStep(s, ProtocolHandler.BuildSwitchCommand(channel, switchType, state), writeOk)
  }

  /**
   * The array the receive handler allocates for bytesToRead bytes after a read
   * copied data into it: a read that copies fewer bytes leaves zeros at the end,
   * and a read copies at most bytesToRead bytes.
   */
  function ReadBuffer(bytesToRead: nat, data: seq<Byte>): (buffer: seq<Byte>)
    ensures |buffer| == bytesToRead
    ensures |data| <= bytesToRead ==> buffer[..|data|] == data
    ensures forall i :: |data| <= i < bytesToRead ==> buffer[i] == 0
    ensures bytesToRead <= |data| ==> buffer == data[..bytesToRead]
  {
    seq(bytesToRead, i requires 0 <= i < bytesToRead => if i < |data| then data[i] else 0)
  }

  /**
   * The DataReceived handler: when the port is open and bytes are waiting,
   * they are read into a new array and the array is reported; a read fault is
   * caught and reports nothing.
   */
  function DataReceivedStep(s: ControllerState, bytesToRead: nat, read: ReadOutcome): (t: ControllerState)
    ensures t == s.(dataEvents := t.dataEvents)
    ensures t.dataEvents == s.dataEvents || |t.dataEvents| == |s.dataEvents| + 1
    ensures t.dataEvents[..|s.dataEvents|] == s.dataEvents
    ensures |t.dataEvents| == |s.dataEvents| + 1 <==> PortOpen(s) && bytesToRead > 0 && read.ReadBytes?
    ensures |t.dataEvents| == |s.dataEvents| + 1 ==>
              var reported := t.dataEvents[|s.dataEvents|];
              reported != [] && reported == ReadBuffer(bytesToRead, read.data)
  {
    if !PortOpen(s) || bytesToRead == 0 then s
    else
      match read
      case ReadFails => s
      case ReadBytes(data) => s.(dataEvents := s.dataEvents + [ReadBuffer(bytesToRead, data)])
  }

  /** IsConnected in a reachable state depends only on the port: the flag adds nothing. */
  lemma IsConnectedIffPortOpen(s: ControllerState)
    requires Invariant(s)
    ensures IsConnectedIn(s) <==> PortOpen(s)
  {
  }

  /**
   * Disconnecting twice: the second call always takes the normal path,
   * whatever the first did, so it leaves the port absent and the flag clear
   * and adds exactly one false event.
   */
  lemma DisconnectTwice(s: ControllerState, closeFails: bool, closeFails': bool)
    ensures var t := DisconnectStep(s, closeFails);
            DisconnectStep(t, closeFails') == t.(connected := false, statusEvents := t.statusEvents + [false])
  {
  }

  /** When closing does not fault, Connect reports false (its own Disconnect) and then its result. */
  lemma ConnectReportsTwice(s: ControllerState, portName: string, baudRate: int,
                            closeFails: bool, open: OpenOutcome)
    requires !(PortOpen(s) && closeFails)
    ensures var (t, ok) := ConnectStep(s, portName, baudRate, closeFails, open);
            t.statusEvents == s.statusEvents + [false, ok]
  {
  }

  /** Every operation the controller offers, with the outcomes the port gives it. */
  datatype Call =
    | Connect(portName: string, baudRate: int, closeFails: bool, open: OpenOutcome)
    | Disconnect(closeFails: bool)
    | Dispose(closeFails: bool)
    | SetAutomationMode(mode: AutomationMode, writeOk: bool)
    | SetFaderLevel(channel: int, level: int, writeOk: bool)
    | SetSwitchState(channel: int, switchType: SwitchType, state: bool, writeOk: bool)
    | DataReceived(bytesToRead: nat, read: ReadOutcome)

  /** The state after one call; a call that throws leaves the state as it was. */
  function Step(s: ControllerState, c: Call): ControllerState
  {
    match c
    case Connect(name, baud, closeFails, open) => ConnectStep(s, name, baud, closeFails, open).0
    case Disconnect(closeFails) => DisconnectStep(s, closeFails)
    case Dispose(closeFails) => DisconnectStep(s, closeFails)
    case SetAutomationMode(mode, writeOk) => SetAutomationModeStep(s, mode, writeOk).0
    case SetFaderLevel(channel, level, writeOk) => SetFaderLevelStep(s, channel, level, writeOk).0
    case SetSwitchState(channel, switchType, state, writeOk) =>
      SetSwitchStateStep(s, channel, switchType, state, writeOk).0
    case DataReceived(bytesToRead, read) => DataReceivedStep(s, bytesToRead, read)
  }

  /** The state after a sequence of calls, one after the other. */
  function Run(s: ControllerState, calls: seq<Call>): ControllerState
    decreases |calls|
  {
    if calls == [] then s else Run(Step(s, calls[0]), calls[1..])
  }

  lemma StepPreservesInvariant(s: ControllerState, c: Call)
    requires Invariant(s)
    ensures Invariant(Step(s, c))
  {
  }

  /** Every state a controller reaches by any sequence of calls satisfies the invariant. */
  lemma {:induction false} RunPreservesInvariant(s: ControllerState, calls: seq<Call>)
    requires Invariant(s)
    ensures Invariant(Run(s, calls))
    decreases |calls|
  {
    if calls != [] {
      StepPreservesInvariant(s, calls[0]);
      RunPreservesInvariant(Step(s, calls[0]), calls[1..]);
    }
  }

  /** Both event traces and the write log only ever grow at the end. */
  lemma {:induction false} RunAppendsOnly(s: ControllerState, calls: seq<Call>)
    ensures var t := Run(s, calls);
            && s.statusEvents <= t.statusEvents
            && s.dataEvents <= t.dataEvents
            && s.writes <= t.writes
    decreases |calls|
  {
    if calls != [] {
      RunAppendsOnly(Step(s, calls[0]), calls[1..]);
    }
  }

  /**
   * Whatever the calls, everything that reaches the port is the one-byte
   * placeholder frame: each successful command writes exactly one byte.
   */
  lemma {:induction false} RunWritesPlaceholderFrames(s: ControllerState, calls: seq<Call>)
    ensures var t := Run(s, calls);
            && s.writes <= t.writes
            && forall i :: |s.writes| <= i < |t.writes| ==> t.writes[i] == [0x00]
    decreases |calls|
  {
    if calls != [] {
      var s' := Step(s, calls[0]);
      assert s.writes <= s'.writes;
      assert forall i :: |s.writes| <= i < |s'.writes| ==> s'.writes[i] == [0x00];
      RunWritesPlaceholderFrames(s', calls[1..]);
    }
  }

  /** A controller that is not connected writes nothing until some Connect call. */
  lemma {:induction false} NoWritesWithoutConnect(s: ControllerState, calls: seq<Call>)
    requires !IsConnectedIn(s)
    requires forall i :: 0 <= i < |calls| ==> !calls[i].Connect?
    ensures Run(s, calls).writes == s.writes
    ensures !IsConnectedIn(Run(s, calls))
    decreases |calls|
  {
    if calls != [] {
      NoWritesWithoutConnect(Step(s, calls[0]), calls[1..]);
    }
  }

  /** The last reported connection status, if any, matches IsConnected. */
  ghost predicate StatusReported(s: ControllerState)
  {
    s.statusEvents != [] ==> s.statusEvents[|s.statusEvents| - 1] == IsConnectedIn(s)
  }

  /** A Disconnect or Dispose whose close of an open port throws; it is the only call that reports no status. */
  predicate SilentClose(c: Call)
  {
    (c.Disconnect? || c.Dispose?) && c.closeFails
  }

  lemma StepReportsStatus(s: ControllerState, c: Call)
    requires StatusReported(s) && !SilentClose(c)
    ensures StatusReported(Step(s, c))
  {
  }

  /**
   * As long as no Disconnect or Dispose has its close fault, a listener that
   * tracks the last ConnectionStatusChanged value agrees with IsConnected.
   */
  lemma {:induction false} RunReportsStatus(s: ControllerState, calls: seq<Call>)
    requires StatusReported(s)
    requires forall i :: 0 <= i < |calls| ==> !SilentClose(calls[i])
    ensures StatusReported(Run(s, calls))
    decreases |calls|
  {
    if calls != [] {
      StepReportsStatus(s, calls[0]);
      RunReportsStatus(Step(s, calls[0]), calls[1..]);
    }
  }

  /**
   * A close that throws breaks that agreement: after connecting and then
   * disconnecting with a faulting close, the last status reported is true,
   * the controller is not connected, and the stale flag is still set.
   */
  lemma SilentCloseLeavesStaleStatus()
    ensures var t := Run(Initial, [Connect("COM1", 19200, false, Opens), Disconnect(true)]);
            && t.statusEvents == [false, true]
            && !IsConnectedIn(t)
            && t.connected
  {
  }

  /**
   * Connecting to a port that opens and moving fader 5 writes exactly one
   * frame; asking for channel 40 then throws and writes nothing more.
   */
  lemma ConnectThenFaderScenario()
    ensures var (s1, ok) := ConnectStep(Initial, "COM3", 19200, false, Opens);
            var (s2, r2) := SetFaderLevelStep(s1, 5, 64, true);
            var (s3, r3) := SetFaderLevelStep(s2, 40, 64, true);
            && ok && s1.statusEvents == [false, true]
            && r2 == Returned(true) && s2.writes == [[0x00]]
            && r3 == ChannelOutOfRange && s3.writes == [[0x00]]
  {
  }

  /**
   * The controller object: the same state kept in fields that its methods
   * update in place. Each method is proved to end in the state the matching
   * function above describes.
   */
  class SerialController {
    var port: Option<SerialPort>
    var connected: bool
    var statusEvents: seq<bool>
    var dataEvents: seq<seq<Byte>>
    var writes: seq<seq<Byte>>

    /** The fields as one state value. */
    function State(): ControllerState
      reads this
    {
      ControllerState(port, connected, statusEvents, dataEvents, writes)
    }

    ghost predicate Valid()
      reads this
    {
      Invariant(State())
    }

    constructor ()
      ensures State() == Initial && Valid()
    {
      port := None;
      connected := false;
      statusEvents := [];
      dataEvents := [];
      writes := [];
    }

    /** Connected means the flag is set and a port exists and is open. */
    predicate IsConnected()
      reads this
      ensures IsConnected() == IsConnectedIn(State())
      ensures Valid() ==> (IsConnected() <==> port.Some? && port.value.isOpen)
    {
      connected && port.Some? && port.value.isOpen
    }

    method Disconnect(closeFails: bool)
      modifies this
      ensures State() == DisconnectStep(old(State()), closeFails)
      ensures Valid() && !IsConnected()
    {
      if port.Some? && port.value.isOpen {
        if !closeFails {
          port := Some(port.value.(isOpen := false));
          connected := false;
          statusEvents := statusEvents + [false];
        }
      } else {
        connected := false;
        statusEvents := statusEvents + [false];
      }
      port := None;
    }

    method Connect(portName: string, baudRate: int, closeFails: bool, open: OpenOutcome) returns (ok: bool)
      modifies this
      ensures (State(), ok) == ConnectStep(old(State()), portName, baudRate, closeFails, open)
      ensures Valid() && ok == IsConnected()
    {
      Disconnect(closeFails);
      if open == SettingsRejected {
        connected := false;
        statusEvents := statusEvents + [false];
        return false;
      }
      port := Some(SerialPort(ConnectSettings(portName, baudRate), false));
      if open == OpenFails {
        connected := false;
        statusEvents := statusEvents + [false];
        return false;
      }
      port := Some(port.value.(isOpen := true));
      connected := port.value.isOpen;
      statusEvents := statusEvents + [connected];
      return connected;
    }

    method SetAutomationMode(mode: AutomationMode, writeOk: bool) returns (ok: bool)
      modifies this
      ensures (State(), ok) == SetAutomationModeStep(old(State()), mode, writeOk)
    {
      if !IsConnected() {
        return false;
      }
      var command := ProtocolHandler.BuildAutomationModeCommand(mode);
      ok := SendCommand(command, writeOk);
    }

    method SetFaderLevel(channel: int, level: int, writeOk: bool) returns (outcome: FaderOutcome)
      modifies this
      ensures (State(), outcome) == SetFaderLevelStep(old(State()), channel, level, writeOk)
    {
      if !IsConnected() {
        return Returned(false);
      }
      if channel < MinChannel || channel > MaxChannel {
        return ChannelOutOfRange;
      }
      var command := ProtocolHandler.BuildFaderCommand(channel, level);
      var ok := SendCommand(command, writeOk);
      return Returned(ok);
    }

    method SetSwitchState(channel: int, switchType: SwitchType, state: bool, writeOk: bool) returns (ok: bool)
      modifies this
      ensures (State(), ok) == SetSwitchStateStep(old(State()), channel, switchType, state, writeOk)
    {
      if !IsConnected() {
        return false;
      }
      var command := ProtocolHandler.BuildSwitchCommand(channel, switchType, state);
      ok := SendCommand(command, writeOk);
    }

    method SendCommand(command: seq<Byte>, writeOk: bool) returns (ok: bool)
      modifies this
      ensures (State(), ok) == SendCommandStep(old(State()), command, writeOk)
    {
      if !(port.Some? && port.value.isOpen) {
        return false;
      }
      if !writeOk {
        return false;
      }
      writes := writes + [command];
      return true;
    }

    method OnDataReceived(bytesToRead: nat, read: ReadOutcome)
      modifies this
      ensures State() == DataReceivedStep(old(State()), bytesToRead, read)
    {
      if !(port.Some? && port.value.isOpen) {
        return;
      }
      if bytesToRead == 0 {
        return;
      }
      match read
      case ReadFails =>
      case ReadBytes(data) =>
        var buffer := ReadBuffer(bytesToRead, data);
        dataEvents := dataEvents + [buffer];
    }

    method Dispose(closeFails: bool)
      modifies this
      ensures State() == DisconnectStep(old(State()), closeFails)
      ensures Valid() && !IsConnected()
    {
      Disconnect(closeFails);
    }
  }
}
