/**
 * The plugin's three persisted boolean settings: show debug messages, set
 * the UTC date as note, prevent adding duplicate entries.
 */
module PluginSettings {

  datatype Flag = DebugMessage | DateAsNote | PreventDuplicate

  /** A snapshot of the three settings. */
  datatype Flags = Flags(debugMessage: bool, dateAsNote: bool, preventDuplicate: bool) {

    function Get(f: Flag): bool {
      match f
      case DebugMessage => debugMessage
      case DateAsNote => dateAsNote
      case PreventDuplicate => preventDuplicate
    }

    /** The snapshot with `f` negated and the other two settings kept. */
    function Toggle(f: Flag): (r: Flags)
      ensures r.Get(f) == !Get(f)
      ensures forall g :: g != f ==> r.Get(g) == Get(g)
    {
      match f
      case DebugMessage => this.(debugMessage := !debugMessage)
      case DateAsNote => this.(dateAsNote := !dateAsNote)
      case PreventDuplicate => this.(preventDuplicate := !preventDuplicate)
    }
  }

  /** Toggling the same setting twice restores the original snapshot. */
  lemma ToggleTwice(s: Flags, f: Flag)
    ensures s.Toggle(f).Toggle(f) == s
  {
  }

  /** Toggles of two different settings commute. */
  lemma ToggleCommutes(s: Flags, f: Flag, g: Flag)
    ensures s.Toggle(f).Toggle(g) == s.Toggle(g).Toggle(f)
  {
  }

  /** The process-wide settings object, whose fields the menu handlers flip in place. */
  class Settings {
    var debugMessage: bool
    var dateAsNote: bool
    var preventDuplicate: bool

    constructor (stored: Flags)
      ensures Current() == stored
    {
      debugMessage := stored.debugMessage;
      dateAsNote := stored.dateAsNote;
      preventDuplicate := stored.preventDuplicate;
    }

    /** The values the settings hold now. */
    function Current(): Flags
      reads this
    {
      Flags(debugMessage, dateAsNote, preventDuplicate)
    }
  }
}
