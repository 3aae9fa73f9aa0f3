/** The auto-styling plugin: the markdown shortcuts it knows, and Enter after
    `---` turning the line into a divider. */
module AutoMarkdownStyling {
  import opened Js
  import EditorDocument

  /** The node types the shortcut table names. */
  datatype NodeType =
    | BulletList
    | HeadingOne | HeadingTwo | HeadingThree | HeadingFour
    | Divider

  /** The heading level of a heading node type, 0 for the others. */
  function HeadingLevel(t: NodeType): nat
  {
    match t
    case HeadingOne => 1
    case HeadingTwo => 2
    case HeadingThree => 3
    case HeadingFour => 4
    case _ => 0
  }

  /** `chars` is `n` hashes and nothing else. */
  predicate AllHashes(chars: string)
  {
    forall i :: 0 <= i < |chars| ==> chars[i] == '#'
  }

  /** `shortcutKeysToNodeType`: a bullet for `*`, `-` and `+`, a heading of
      level n for n hashes up to four, a divider for `---`, null otherwise. */
  function ShortcutKeysToNodeType(chars: string): (r: Option<NodeType>)
    ensures r == Some(BulletList) <==> |chars| == 1 && chars[0] in "*-+"
    ensures r.Some? && HeadingLevel(r.value) > 0 <==> 1 <= |chars| <= 4 && AllHashes(chars)
    ensures r.Some? && HeadingLevel(r.value) > 0 ==> HeadingLevel(r.value) == |chars|
    ensures r == Some(Divider) <==> chars == "---"
  {
    if chars == "*" || chars == "-" || chars == "+" then Some(BulletList)
    else if chars == "#" then Some(HeadingOne)
    else if chars == "##" then Some(HeadingTwo)
    else if chars == "###" then Some(HeadingThree)
    else if chars == "####" then Some(HeadingFour)
    else if chars == "---" then Some(Divider)
    else None
  }

  /** Everything outside the table maps to null; in particular five hashes,
      a heading the block plugin does know, and the empty string. */
  lemma UnlistedShortcutsMapToNull(chars: string)
    ensures ShortcutKeysToNodeType(chars).None? <==>
      && !(|chars| == 1 && chars[0] in "*-+")
      && !(1 <= |chars| <= 4 && AllHashes(chars))
      && chars != "---"
    ensures ShortcutKeysToNodeType("#####").None? && ShortcutKeysToNodeType("").None?
  {
    if ShortcutKeysToNodeType(chars).Some? {
      var t := ShortcutKeysToNodeType(chars).value;
      assert t == BulletList || HeadingLevel(t) > 0 || t == Divider;
    }
    assert !AllHashes("---") by { assert "---"[0] != '#'; }
  }

  /** `getTextFromStartOfBlock`: the text left of the cursor. */
  function GetTextFromStartOfBlock(block: EditorDocument.Block, sel: EditorDocument.Selection): (r: string)
    ensures r <= block.text
    ensures |r| == Clamp(sel.startOffset, |block.text|)
  {
    Slice(block.text, 0, sel.startOffset)
  }

  /** The transform Enter applies after `---`: delete back to the start of
      the block, make it a divider, split, and make the new half a
      paragraph. */
  datatype Transform = ReplaceLineWithDivider

  /** `onEnter`: a divider exactly when the text left of the cursor is
      `---`; otherwise undefined. */
  function OnEnter(block: EditorDocument.Block, sel: EditorDocument.Selection): (r: Option<Transform>)
    ensures r.Some? <==> "---" <= block.text && Clamp(sel.startOffset, |block.text|) == 3
  {
    var chars := GetTextFromStartOfBlock(block, sel);
    if ShortcutKeysToNodeType(chars) == Some(Divider) then Some(ReplaceLineWithDivider) else None
  }

  /** `onSpace`: an empty handler. */
  function OnSpace(block: EditorDocument.Block, sel: EditorDocument.Selection): (r: Option<Transform>)
    ensures r.None?
  {
    None
  }

  /** `onBackspace`: an empty handler. */
  function OnBackspace(block: EditorDocument.Block, sel: EditorDocument.Selection): (r: Option<Transform>)
    ensures r.None?
  {
    None
  }

  /** `onKeyDown`: only Enter after `---` does anything. */
  function OnKeyDown(key: string, block: EditorDocument.Block, sel: EditorDocument.Selection): (r: Option<Transform>)
    ensures r.Some? <==> key == "enter" && "---" <= block.text && Clamp(sel.startOffset, |block.text|) == 3
  {
    if key == "space" then OnSpace(block, sel)
    else if key == "backspace" then OnBackspace(block, sel)
    else if key == "enter" then OnEnter(block, sel)
    else None
  }
}
