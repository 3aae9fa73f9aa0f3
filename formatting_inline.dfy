/** The inline formatting plugin: Mod+B, Mod+I, Mod+U and Mod+Alt+S toggle
    bold, italic, underline and strikethrough. */
module FormattingInline {
  import opened Js
  import opened Marks

  /** The marks the plugin's schema declares. */
  const SchemaMarks: set<Mark> := {Bold, Italic, Underlined, Strikethrough}

  /** `onKeyDown`. Mod+S without Alt still toggles, with an undefined mark. */
  function OnKeyDown(data: ModKey): (r: KeyResult)
    ensures !data.isMod ==> r == Unhandled
    ensures r.Toggle? <==> data.isMod && data.key in {"b", "i", "u", "s"}
    ensures r == Toggle(None) <==> data.isMod && data.key == "s" && !data.isModAlt
    ensures r.Toggle? && r.mark.Some? ==> r.mark.value in SchemaMarks
  {
    if !data.isMod then Unhandled
    else if data.key == "b" then Toggle(Some(Bold))
    else if data.key == "i" then Toggle(Some(Italic))
    else if data.key == "u" then Toggle(Some(Underlined))
    else if data.key == "s" then Toggle(if data.isModAlt then Some(Strikethrough) else None)
    else Unhandled
  }

  /** Every declared mark has its key: Mod and that key toggle it, with Alt
      as well for strikethrough, and nothing else does. */
  lemma KeyBindings(data: ModKey, m: Mark)
    ensures OnKeyDown(data) == Toggle(Some(m)) <==>
      && m in SchemaMarks
      && data.isMod
      && KeyOf(m) == Some(data.key)
      && (m == Strikethrough ==> data.isModAlt)
  {
  }
}
