/**
 * The command encoder and response decoder. The device protocol has not been
 * worked out yet, so every builder emits the same one-byte placeholder frame,
 * the parser recognises nothing and the checksum is constant.
 */
module ProtocolHandler {
  import opened Common
  import opened Models

  /** The single byte every placeholder builder returns. */
  const PlaceholderFrame: seq<Byte> := [0x00]

  /** Command selecting a console-wide automation mode. */
  function BuildAutomationModeCommand(mode: AutomationMode): (command: seq<Byte>)
    ensures |command| == 1 && command[0] == 0x00
  {
    PlaceholderFrame
  }

  /** Command moving the fader of one channel to a level. */
  function BuildFaderCommand(channel: int, level: int): (command: seq<Byte>)
    ensures |command| == 1 && command[0] == 0x00
  {
    PlaceholderFrame
  }

  /** Command setting one switch of one channel on or off. */
  function BuildSwitchCommand(channel: int, switchType: SwitchType, state: bool): (command: seq<Byte>)
    ensures |command| == 1 && command[0] == 0x00
  {
    PlaceholderFrame
  }

  /** Decodes bytes received from the console; no frame is recognised yet. */
  function ParseIncomingData(data: seq<Byte>): (message: Option<ConsoleMessage>)
    ensures message.None?
  {
    None
  }

  /** Checksum over a command's bytes; the algorithm is not known yet. */
  function CalculateChecksum(data: seq<Byte>): (checksum: Byte)
    ensures checksum == 0
  {
    0
  }

  /**
   * The placeholder encoder does not distinguish commands: whatever the
   * command and its arguments, the same frame comes out, so the device could
   * not tell a fader move from a mode change.
   */
  lemma BuildersAgree(mode: AutomationMode, channel: int, level: int,
                      channel': int, switchType: SwitchType, state: bool)
    ensures BuildAutomationModeCommand(mode) == BuildFaderCommand(channel, level)
    ensures BuildFaderCommand(channel, level) == BuildSwitchCommand(channel', switchType, state)
  {
  }
}
