/** The basic keyboard shortcuts plugin: the same bindings as inline
    formatting, with a `code` mark declared that no key reaches. */
module BasicKeyboardShortcuts {
  import opened Js
  import opened Marks

  /** The marks the plugin's schema declares. */
  const SchemaMarks: set<Mark> := {Bold, Code, Italic, Underlined, Strikethrough}

  /** `onKeyDown`. Mod+S without Alt still toggles, with an undefined mark. */
  function OnKeyDown(data: ModKey): (r: KeyResult)
    ensures !data.isMod ==> r == Unhandled
    ensures r.Toggle? <==> data.isMod && data.key in {"b", "i", "u", "s"}
    ensures r == Toggle(None) <==> data.isMod && data.key == "s" && !data.isModAlt
    ensures r.Toggle? && r.mark.Some? ==> r.mark.value in SchemaMarks && r.mark.value != Code
  {
    if !data.isMod then Unhandled
    else if data.key == "b" then Toggle(Some(Bold))
    else if data.key == "i" then Toggle(Some(Italic))
    else if data.key == "u" then Toggle(Some(Underlined))
    else if data.key == "s" then Toggle(if data.isModAlt then Some(Strikethrough) else None)
    else Unhandled
  }

  /** A declared mark is toggled exactly by Mod and its key (with Alt for
      strikethrough); `code`, which has no key, is never toggled. */
  lemma KeyBindings(data: ModKey, m: Mark)
    ensures OnKeyDown(data) == Toggle(Some(m)) <==>
      && data.isMod
      && KeyOf(m) == Some(data.key)
      && (m == Strikethrough ==> data.isModAlt)
    ensures Code in SchemaMarks && OnKeyDown(data) != Toggle(Some(Code))
  {
  }
}
