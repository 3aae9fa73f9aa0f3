/** The basic Mod shortcuts plugin: bold, italic and underline only. */
module BasicModShortcuts {
  import opened Js
  import opened Marks

  /** The marks the plugin's schema declares. */
  const SchemaMarks: set<Mark> := {Bold, Code, Italic, Underlined}

  /** `onKeyDown`: Mod+B, Mod+I and Mod+U; every other key, `s` included,
      is left alone. */
  function OnKeyDown(data: ModKey): (r: KeyResult)
    ensures !data.isMod ==> r == Unhandled
    ensures r.Toggle? <==> data.isMod && data.key in {"b", "i", "u"}
    ensures r.Toggle? ==> r.mark.Some? && r.mark.value in SchemaMarks && r.mark.value != Code
  {
    if !data.isMod then Unhandled
    else if data.key == "b" then Toggle(Some(Bold))
    else if data.key == "i" then Toggle(Some(Italic))
    else if data.key == "u" then Toggle(Some(Underlined))
    else Unhandled
  }

  /** A mark is toggled exactly by Mod and its key, for bold, italic and
      underline; strikethrough and `code` are never toggled. */
  lemma KeyBindings(data: ModKey, m: Mark)
    ensures OnKeyDown(data) == Toggle(Some(m)) <==>
      && data.isMod
      && KeyOf(m) == Some(data.key)
      && m != Strikethrough
    ensures Code in SchemaMarks && OnKeyDown(data) != Toggle(Some(Code))
  {
  }
}
