/** The enumerations of the console's data model. */
module Models {
  import opened Common

  /** Console-wide automation modes. */
  datatype AutomationMode = Read | Write | Update | Touch | Isolate | Glide {

    /** The integer each mode is declared with. */
    function Value(): (v: int)
      ensures 0 <= v <= 5
    {
      match this
      case Read => 0
      case Write => 1
      case Update => 2
      case Touch => 3
      case Isolate => 4
      case Glide => 5
    }
  }

  /** Channel switches the console can set. */
  datatype SwitchType = Mute | Solo | EQ | Insert | Dynamics {

    /** The integer each switch type is declared with. */
    function Value(): (v: int)
      ensures 0 <= v <= 4
    {
      match this
      case Mute => 0
      case Solo => 1
      case EQ => 2
      case Insert => 3
      case Dynamics => 4
    }
  }

  /** The automation modes in the order they are declared. */
  const AllModes: seq<AutomationMode> := [Read, Write, Update, Touch, Isolate, Glide]

  /** The switch types in the order they are declared. */
  const AllSwitchTypes: seq<SwitchType> := [Mute, Solo, EQ, Insert, Dynamics]

  /**
   * The declared integers number the automation modes 0..5 in declaration
   * order, without gaps or repeats.
   */
  lemma AutomationModeValuesNumberModes()
    ensures forall m: AutomationMode :: m in AllModes
    ensures forall i :: 0 <= i < |AllModes| ==> AllModes[i].Value() == i
    ensures forall m: AutomationMode, m': AutomationMode :: m.Value() == m'.Value() ==> m == m'
  {
    forall m: AutomationMode ensures m in AllModes {
      assert AllModes[m.Value()] == m;
    }
  }

  /**
   * The declared integers number the switch types 0..4 in declaration order,
   * without gaps or repeats.
   */
  lemma SwitchTypeValuesNumberTypes()
    ensures forall t: SwitchType :: t in AllSwitchTypes
    ensures forall i :: 0 <= i < |AllSwitchTypes| ==> AllSwitchTypes[i].Value() == i
    ensures forall t: SwitchType, t': SwitchType :: t.Value() == t'.Value() ==> t == t'
  {
    forall t: SwitchType ensures t in AllSwitchTypes {
      assert AllSwitchTypes[t.Value()] == t;
    }
  }

  /** Kinds of message the console may send back. */
  datatype MessageType = Acknowledgment | FaderUpdate | SwitchUpdate | TimeCodeSync | Error | Unknown

  /** A decoded message from the console; only the parser's result type refers to it. */
  datatype ConsoleMessage = ConsoleMessage(
    messageType: MessageType,
    channel: Option<int>,
    data: seq<Byte>,
    value: Option<int>,
    errorMessage: Option<string>)
}
