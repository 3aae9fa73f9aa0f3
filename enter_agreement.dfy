/** The three plugins that react to `---` and Enter agree on when a divider
    is made. */
module EnterAgreement {
  import opened Js
  import opened EditorDocument
  import MarkdownBlocks
  import MarkdownDivider
  import AutoMarkdownStyling

  /** Enter makes a divider in each of the three plugins on exactly the same
      blocks and cursors: `---` and nothing else left of the cursor. */
  lemma DividerOnEnterAgrees(block: Block, sel: Selection)
    ensures var dashes := "---" <= block.text && Clamp(sel.startOffset, |block.text|) == 3;
      && (MarkdownBlocks.OnKeyDownEnter(block, sel) == MarkdownBlocks.CreateDivider <==> dashes)
      && (MarkdownDivider.OnKeyDownEnter(block, sel) == MarkdownDivider.CreateDivider <==> dashes)
      && (AutoMarkdownStyling.OnEnter(block, sel).Some? <==> dashes)
  {
  }

  /** A `---` line is never a list item, so Enter at its end is never taken
      for a list continuation. */
  lemma DashesAreNotAListMarker(block: Block)
    requires "---" <= block.text
    ensures !MarkdownBlocks.BulletPrefix(block.text) && !MarkdownBlocks.NumberedPrefix(block.text)
  {
    MarkdownBlocks.LeadingTabsUnique(block.text, 0);
    assert block.text[..3] == "---";
    var t := block.text[0..];
    assert t == block.text;
    var d := IndexOf(t, ". ");
    if d > 0 {
      assert t[..d][0] == '-';
    }
  }
}
