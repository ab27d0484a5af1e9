# Eagle Automation: serial control core in Dafny

Eagle Automation is control software for an Otari Status 18R mixing console. The console is driven over an RS-232 link. This project models the part of the software that talks to the console:

- **`SerialController`** (`serial_controller.dfy`, module `Controllers`) is the connection controller. It holds an optional serial port object and a connected flag.
  - `Connect` closes any existing connection, configures a port with fixed line settings and opens it.
  - `Disconnect` closes and releases the port.
  - `SetAutomationMode`, `SetFaderLevel` and `SetSwitchState` encode a command and send it through `SendCommand` when the controller is connected.
  - The receive handler reads the waiting bytes and reports them through `DataReceived`.
  - Status changes are reported through `ConnectionStatusChanged`.
- **`ProtocolHandler`** (`protocol_handler.dfy`) is the command encoder and response decoder. The console's wire protocol has not been reverse-engineered yet, so:
  - every builder returns the single byte `0x00`;
  - the parser recognises nothing;
  - the checksum is `0`.

  The model states exactly that.
- **`AppConfiguration`** (`app_configuration.dfy`) holds the serial-port and console sections of the configuration, with their defaults. It also holds the conversions from configuration strings to parity and stop-bits values.
- `ports.dfy` declares the runtime's port enumerations. `models.dfy` declares the console's enumerations. `common.dfy` declares `Byte` and `Option`.

**How the controller is modelled.** The controller is modelled twice:

- `ControllerState` is a value. It holds the port, the flag, the trace of `ConnectionStatusChanged` values, the trace of `DataReceived` arrays, and the log of byte arrays written to the port.
- Each operation has a function (`ConnectStep`, `DisconnectStep`, …). Its contract states what the operation does.
- The class `SerialController` keeps the same state in fields and updates them in place. Each of its methods is proved to end in the state its function describes.
- `Run` applies a sequence of calls. The lemmas about `Run` prove properties of every reachable state.

The physical port is abstract. Each point where the runtime can succeed or fail is a parameter of the operation:

- whether configuring and opening a port succeeds (`OpenOutcome`);
- whether closing it throws;
- whether a write throws;
- how many bytes are waiting, and what a read returns (`ReadOutcome`).

**Behaviour of the code worth knowing:**

- A failed `Connect` reports `false` twice: once from its internal `Disconnect`, once from its own handler. A successful `Connect` reports `false` and then `true`. The exception is when closing the previously open port throws: the internal `Disconnect` then reports nothing, so a failed `Connect` reports one `false` and a successful one reports only `true`.
- When the controller is connected, `SetFaderLevel` with a channel outside 1..32 throws `ArgumentOutOfRangeException`. It does not return `false`. The model returns `ChannelOutOfRange`. When the controller is not connected, the same call returns `false`.
- The channel bound 1..32 is fixed in the code and does not come from `ChannelCount`.
- `SetSwitchState` does not check the channel.
- If closing the port throws during `Disconnect`, the flag is not cleared and no `false` is reported. The port is still released, so `IsConnected` is false. A listener that tracks the last reported status is then left believing the controller is connected (`SilentCloseLeavesStaleStatus`).
- `Connect(portName, baudRate)` always uses 8 data bits, no parity, one stop bit, no handshake and 500 ms timeouts. The parity and stop-bits strings of the configuration are not used.
- There is no frame buffering, framing, checksum checking or decoding. The encoder sends one placeholder byte for every command.

## Model

| member | source | states |
|---|---|---|
| Models.AutomationMode.Value | EagleAutomation/Models/AutomationMode.cs:7-45 | the integer an automation mode is declared with lies in 0..5 |
| Models.SwitchType.Value | EagleAutomation/Models/Models.cs:6-32 | the integer a switch type is declared with lies in 0..4 |
| Models.AutomationModeValuesNumberModes | EagleAutomation/Models/AutomationMode.cs:7-45 | listed in declaration order, Read..Glide have the integers 0..5; every mode is in that list and different modes have different integers |
| Models.SwitchTypeValuesNumberTypes | EagleAutomation/Models/Models.cs:6-32 | listed in declaration order, Mute..Dynamics have the integers 0..4; every switch type is in that list and different types have different integers |
| ProtocolHandler.BuildAutomationModeCommand | EagleAutomation/Controllers/ProtocolHandler.cs:46-69 | the automation-mode command is the single byte 0x00 for every mode |
| ProtocolHandler.BuildFaderCommand | EagleAutomation/Controllers/ProtocolHandler.cs:84-108 | the fader command is the single byte 0x00 for every channel and level |
| ProtocolHandler.BuildSwitchCommand | EagleAutomation/Controllers/ProtocolHandler.cs:124-152 | the switch command is the single byte 0x00 for every channel, switch type and state |
| ProtocolHandler.ParseIncomingData | EagleAutomation/Controllers/ProtocolHandler.cs:166-196 | no input decodes to a message |
| ProtocolHandler.CalculateChecksum | EagleAutomation/Controllers/ProtocolHandler.cs:207-218 | the checksum of every input is 0 |
| ProtocolHandler.BuildersAgree | EagleAutomation/Controllers/ProtocolHandler.cs:46-152 | all three builders return the same frame whatever their arguments, so commands cannot be told apart on the wire |
| AppConfiguration.SerialPortConfig.GetParity | EagleAutomation/Models/AppConfiguration.cs:34-45 | a recognised name ("None", "Odd", "Even", "Mark", "Space") gives the parity of that name; any other string gives None |
| AppConfiguration.SerialPortConfig.GetStopBits | EagleAutomation/Models/AppConfiguration.cs:50-60 | a recognised name ("None", "One", "Two", "OnePointFive") gives the stop bits of that name; any other string gives One |
| AppConfiguration.ParityRoundTrip | EagleAutomation/Models/AppConfiguration.cs:34-45 | a parity stored under its own name converts back to itself |
| AppConfiguration.StopBitsRoundTrip | EagleAutomation/Models/AppConfiguration.cs:50-60 | a stop-bits value stored under its own name converts back to itself |
| AppConfiguration.DefaultSerialPortConfig | EagleAutomation/Models/AppConfiguration.cs:21-29 | the default serial settings are COM1 at 19200 baud, 8 data bits, parity "None", stop bits "One" and 500 ms timeouts; those strings convert to parity None and one stop bit |
| AppConfiguration.DefaultConsoleConfig | EagleAutomation/Models/AppConfiguration.cs:102-107 | the default console has 32 channels and 8 VCA groups |
| Controllers.DisconnectStep | EagleAutomation/Controllers/SerialController.cs:94-121 | Disconnect always releases the port and leaves the controller not connected, with the write log and data trace unchanged. Normally it clears the flag and reports false. When closing an open port throws, the flag and the status trace are left as they were |
| Controllers.ConnectStep | EagleAutomation/Controllers/SerialController.cs:39-89 | Connect returns true exactly when the port opens, and then IsConnected holds. The flag always ends equal to the result. Its status events are those of its internal Disconnect followed by the result. The port holds the fixed line settings, is absent if configuring fails, and is closed if opening fails. The invariant holds afterwards from any state. Writes and data events are unchanged |
| Controllers.SendCommandStep | EagleAutomation/Controllers/SerialController.cs:222-244 | SendCommand returns true exactly when a port is open and the write succeeds. Then the given bytes are appended to the write log once. Nothing else changes |
| Controllers.SetAutomationModeStep | EagleAutomation/Controllers/SerialController.cs:128-163 | SetAutomationMode succeeds exactly when the controller is connected and the write succeeds. Then exactly the frame [0x00] is written. Otherwise nothing is written and nothing else changes |
| Controllers.SetFaderLevelStep | EagleAutomation/Controllers/SerialController.cs:171-190 | When not connected, SetFaderLevel returns false whatever the channel. When connected, a channel outside 1..32 throws and nothing is written. When connected with a good channel, it returns true exactly when the write succeeds, and then [0x00] is written |
| Controllers.SetSwitchStateStep | EagleAutomation/Controllers/SerialController.cs:199-215 | SetSwitchState succeeds exactly when the controller is connected and the write succeeds, for any channel. Then [0x00] is written. Otherwise nothing changes |
| Controllers.ReadBuffer | EagleAutomation/Controllers/SerialController.cs:256-261 | the receive buffer has exactly as many bytes as were waiting. It starts with the bytes the read copied, and any bytes the read did not fill are zero |
| Controllers.DataReceivedStep | EagleAutomation/Controllers/SerialController.cs:249-280 | the handler reports one array exactly when a port is open, bytes are waiting and the read succeeds. That array is non-empty and is the read buffer. The handler changes nothing else |
| Controllers.IsConnectedIffPortOpen | EagleAutomation/Controllers/SerialController.cs:21 | in every reachable state, IsConnected holds exactly when a port exists and is open |
| Controllers.DisconnectTwice | EagleAutomation/Controllers/SerialController.cs:94-121 | a second Disconnect always takes the normal path. It leaves the port absent and the flag clear, and adds exactly one false event |
| Controllers.ConnectReportsTwice | EagleAutomation/Controllers/SerialController.cs:39-87 | when closing does not throw, Connect adds exactly [false, result] to the status trace |
| Controllers.StepPreservesInvariant | EagleAutomation/Controllers/SerialController.cs:39-297 | every operation preserves the invariant. The invariant says that an existing port's open state equals the flag and that the port carries the fixed line settings |
| Controllers.RunPreservesInvariant | EagleAutomation/Controllers/SerialController.cs:39-297 | every state reached by any sequence of calls satisfies the invariant |
| Controllers.RunAppendsOnly | EagleAutomation/Controllers/SerialController.cs:26-31 | the status trace, the data trace and the write log only ever grow at the end |
| Controllers.RunWritesPlaceholderFrames | EagleAutomation/Controllers/SerialController.cs:155-208 | after any sequence of calls, every new entry in the write log is the one-byte frame [0x00] |
| Controllers.NoWritesWithoutConnect | EagleAutomation/Controllers/SerialController.cs:128-244 | a controller that is not connected writes nothing and stays not connected until a Connect call |
| Controllers.StepReportsStatus | EagleAutomation/Controllers/SerialController.cs:74-109 | every call except a Disconnect or Dispose whose close throws keeps the last reported status equal to IsConnected |
| Controllers.RunReportsStatus | EagleAutomation/Controllers/SerialController.cs:74-109 | over any calls without such a faulting close, the last reported status equals IsConnected |
| Controllers.SilentCloseLeavesStaleStatus | EagleAutomation/Controllers/SerialController.cs:98-119 | connecting and then disconnecting with a close that throws leaves the trace [false, true] and the flag set, while IsConnected is false |
| Controllers.ConnectThenFaderScenario | EagleAutomation/Controllers/SerialController.cs:39-190 | connecting to COM3 succeeds and reports [false, true]. Fader 5 then writes exactly one frame. Fader 40 then throws and writes nothing |
| Controllers.SerialController.constructor | EagleAutomation/Controllers/SerialController.cs:14-16 | a new controller has no port, is not connected and has observed nothing |
| Controllers.SerialController.IsConnected | EagleAutomation/Controllers/SerialController.cs:21 | the getter requires both the flag and an open port. Under the object invariant it is exactly "a port exists and is open" |
| Controllers.SerialController.Disconnect | EagleAutomation/Controllers/SerialController.cs:94-121 | the fields end as DisconnectStep describes, and the controller is valid and not connected |
| Controllers.SerialController.Connect | EagleAutomation/Controllers/SerialController.cs:39-89 | the fields and the result are those of ConnectStep, and the result equals IsConnected |
| Controllers.SerialController.SetAutomationMode | EagleAutomation/Controllers/SerialController.cs:128-163 | the fields and the result are those of SetAutomationModeStep |
| Controllers.SerialController.SetFaderLevel | EagleAutomation/Controllers/SerialController.cs:171-190 | the fields and the outcome are those of SetFaderLevelStep |
| Controllers.SerialController.SetSwitchState | EagleAutomation/Controllers/SerialController.cs:199-215 | the fields and the result are those of SetSwitchStateStep |
| Controllers.SerialController.SendCommand | EagleAutomation/Controllers/SerialController.cs:222-244 | the fields and the result are those of SendCommandStep |
| Controllers.SerialController.OnDataReceived | EagleAutomation/Controllers/SerialController.cs:249-280 | the fields end as DataReceivedStep describes |
| Controllers.SerialController.Dispose | EagleAutomation/Controllers/SerialController.cs:294-297 | Dispose is Disconnect |

## Left out

- `GetAvailablePorts` asks the operating system for its port names. That is I/O and is not modelled.
- The `_lock` monitor and the background thread that runs the receive handler are not modelled. Each public operation is modelled as atomic, one after another.
- Debug logging is not modelled. Neither are the exception messages passed to it.
- Event listeners are assumed not to throw. A listener of `ConnectionStatusChanged` that throws inside `Connect` would be caught by `Connect`'s handler. That path is not modelled.
- `SendCommandStep`: a write that throws is modelled as reaching the port with no bytes. A timed-out write might in fact have sent part of the array.
- `DataReceivedStep`: a fault while querying the number of waiting bytes is not separated from a fault in the read. Both report nothing.
- Disposal of a released port object is not modelled. The model only drops the reference.
- C# `int` is 32 bits wide. The controller does no arithmetic on channels, levels or baud rates; it only compares and forwards them. So the model uses unbounded integers.
- The commented-out example byte layouts in the controller and protocol handler are not code. Nothing implements framing, checksums, decoding, fragmentation or resynchronisation, so none of them is modelled.
- Several configuration sections are property bags that the core does not use: time code, file paths, auto-save and logging. The `Model` field of `ConsoleConfig` is kept but not used.
- `ConsoleMessage` is declared only as the parser's result type. The channel-strip and mix-file records have no behaviour and are not modelled.
- The application start-up (JSON configuration load and save, exception dialogs), the main window, the channel strip and the preferences window are UI and file I/O. They are not part of this model. The main window calls a `Connect` overload that takes a configuration object; no such overload exists in the controller, so only `Connect(string, int)` is modelled.
- The logging set-up in `Infrastructure/LoggingConfiguration.cs` is not part of this model.
