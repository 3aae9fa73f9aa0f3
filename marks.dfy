/** Marks and the result of the modifier-key handlers shared by the three
    inline formatting plugins. */
module Marks {
  import opened Js

  datatype Mark = Bold | Code | Italic | Underlined | Strikethrough

  /** The key event: the key and whether Mod and Mod+Alt are held. */
  datatype ModKey = ModKey(key: string, isMod: bool, isModAlt: bool)

  /** What a handler does with a key. */
  datatype KeyResult =
      /** Returns undefined: the next plugin handles the key. */
    | Unhandled
      /** Toggles one mark and prevents the default; `None` is `toggleMark`
          called with `undefined`. */
    | Toggle(mark: Option<Mark>)

  /** The key each mark is meant to be bound to; `code` has none. */
  function KeyOf(m: Mark): Option<string>
  {
    match m
    case Bold => Some("b")
    case Italic => Some("i")
    case Underlined => Some("u")
    case Strikethrough => Some("s")
    case Code => None
  }
}
