/** The divider plugin: `---` and Enter make a divider, Backspace right after
    a divider deletes it, and Left at the start of a block jumps over the
    dividers in front of it. */
module MarkdownDivider {
  import opened Js
  import opened EditorDocument

  /** The key event as the editor reports it. */
  datatype KeyData = KeyData(key: string, isCtrl: bool, isAlt: bool)

  /** What a handler hands back to the editor. */
  datatype Outcome =
      /** `undefined`: the next plugin handles the key. */
    | Pass
      /** Make the block a divider, split it and make the new half a paragraph. */
    | CreateDivider
      /** Put the cursor at the end of block `index` and move it forward one. */
    | CollapseToEndOf(index: nat)
      /** An empty transform, so that the core plugin does nothing. */
    | EmptyTransform
      /** Delete from the start of divider `divider` to the start of the next
          block and make what is left a paragraph. */
    | DeleteDivider(divider: nat)
      /** A property read on `null` throws a TypeError. */
    | TypeError

  /** `document.getPreviousBlock`: the leaf block before block `k`, or null. */
  function PreviousBlock(k: nat): (r: Option<nat>)
    ensures r.None? <==> k == 0
    ensures r.Some? ==> r.value + 1 == k
  {
    if k == 0 then None else Some(k - 1)
  }

  /** The last block at or before `k` that is not a divider, or -1. */
  function NearestNonDivider(doc: seq<Block>, k: int): (r: int)
    requires -1 <= k < |doc|
    decreases k + 1
    ensures -1 <= r <= k
    ensures r >= 0 ==> doc[r].blockType != Divider
    ensures forall j :: r < j <= k ==> doc[j].blockType == Divider
  {
    if k < 0 then -1
    else if doc[k].blockType != Divider then k
    else NearestNonDivider(doc, k - 1)
  }

  /** The guards of `onKeyDownLeft` before it looks at the previous block. */
  predicate LeftApplies(data: KeyData, sel: Selection)
  {
    !data.isCtrl && !data.isAlt && sel.startOffset == 0 && sel.isCollapsed
  }

  /** What `onKeyDownLeft` does, read as written: at the first block of the
      document the previous block is null and reading its type throws. */
  function LeftSpec(data: KeyData, doc: seq<Block>, start: nat, sel: Selection): (r: Outcome)
    requires start < |doc|
    ensures r == TypeError <==> LeftApplies(data, sel) && start == 0
    ensures r != Pass && r != TypeError ==>
      LeftApplies(data, sel) && start > 0 && doc[start - 1].blockType == Divider
    ensures r.Pass? || r.TypeError? || r.CollapseToEndOf? || r.EmptyTransform?
  {
    if !LeftApplies(data, sel) then Pass
    else if start == 0 then TypeError
    else if doc[start - 1].blockType != Divider then Pass
    else
      var p := NearestNonDivider(doc, start - 1);
      if p >= 0 then CollapseToEndOf(p) else EmptyTransform
  }

  /** `onKeyDownLeft` as written, walking back over the dividers one block at
      a time. */
  method OnKeyDownLeft(data: KeyData, doc: seq<Block>, start: nat, sel: Selection) returns (r: Outcome)
    requires start < |doc|
    ensures r == LeftSpec(data, doc, start, sel)
  {
    if data.isCtrl { return Pass; }
    if data.isAlt { return Pass; }
    if sel.startOffset != 0 { return Pass; }
    if !sel.isCollapsed { return Pass; }
    var prevBlock: Option<nat> := PreviousBlock(start);
    if prevBlock.None? { return TypeError; }
    if doc[prevBlock.value].blockType != Divider { return Pass; }
    while prevBlock.Some? && doc[prevBlock.value].blockType == Divider
      invariant prevBlock.Some? ==> prevBlock.value < start < |doc|
      invariant prevBlock.Some? ==> NearestNonDivider(doc, prevBlock.value) == NearestNonDivider(doc, start - 1)
      invariant prevBlock.None? ==> NearestNonDivider(doc, start - 1) == -1
      decreases if prevBlock.Some? then prevBlock.value + 1 else 0
    {
      prevBlock := PreviousBlock(prevBlock.value);
    }
    if prevBlock.Some? {
      return CollapseToEndOf(prevBlock.value);
    } else {
      return EmptyTransform;
    }
  }

  /** `onKeyDownLeft` with the null check the first block needs: there Left
      is passed on like any other Left the handler does not want. */
  method OnKeyDownLeftChecked(data: KeyData, doc: seq<Block>, start: nat, sel: Selection) returns (r: Outcome)
    requires start < |doc|
    ensures r != TypeError
    ensures start == 0 ==> r == Pass
    ensures start > 0 ==> r == LeftSpec(data, doc, start, sel)
  {
    if start == 0 {
      return Pass;
    }
    r := OnKeyDownLeft(data, doc, start, sel);
  }

  /** Left at the start of a block after dividers lands on the nearest block
      before them that is not a divider; nothing else makes it move. */
  lemma LeftJumpsOverDividers(data: KeyData, doc: seq<Block>, start: nat, sel: Selection, p: nat)
    requires start < |doc|
    ensures LeftSpec(data, doc, start, sel) == CollapseToEndOf(p) <==>
      && LeftApplies(data, sel)
      && p + 1 < start
      && doc[p].blockType != Divider
      && (forall j :: p < j < start ==> doc[j].blockType == Divider)
  {
    if LeftApplies(data, sel) && p + 1 < start && doc[p].blockType != Divider
       && (forall j :: p < j < start ==> doc[j].blockType == Divider) {
      assert doc[start - 1].blockType == Divider;
      var q := NearestNonDivider(doc, start - 1);
    }
  }

  /** When every block before the cursor's is a divider (and there is one),
      Left is swallowed by an empty transform. */
  lemma LeftOverLeadingDividers(data: KeyData, doc: seq<Block>, start: nat, sel: Selection)
    requires start < |doc|
    ensures LeftSpec(data, doc, start, sel) == EmptyTransform <==>
      && LeftApplies(data, sel)
      && 0 < start
      && (forall j :: 0 <= j < start ==> doc[j].blockType == Divider)
  {
    if LeftApplies(data, sel) && 0 < start && (forall j :: 0 <= j < start ==> doc[j].blockType == Divider) {
      var q := NearestNonDivider(doc, start - 1);
    }
  }

  /** The discrepancy: Left with a bare cursor at the start of the first block
      reads the type of a null previous block. */
  lemma LeftAtDocumentStartThrows(doc: seq<Block>, sel: Selection)
    requires |doc| > 0 && sel.startOffset == 0 && sel.isCollapsed
    ensures LeftSpec(KeyData("left", false, false), doc, 0, sel) == TypeError
  {
  }

  /** `onKeyDownBackspace` as written: `prevBlock.type` is read once the
      cursor is a bare cursor at offset 0, also when there is no previous
      block. */
  function OnKeyDownBackspace(doc: seq<Block>, start: nat, sel: Selection): (r: Outcome)
    requires start < |doc|
    ensures r == TypeError <==> sel.isCollapsed && sel.startOffset == 0 && start == 0
  {
    var prevBlock := PreviousBlock(start);
    if sel.isCollapsed && sel.startOffset == 0 then
      if prevBlock.None? then TypeError
      else if doc[prevBlock.value].blockType == Divider then DeleteDivider(prevBlock.value)
      else Pass
    else Pass
  }

  /** `onKeyDownBackspace` with the null check: Backspace deletes exactly a
      divider right before a bare cursor at the start of a block. */
  function OnKeyDownBackspaceChecked(doc: seq<Block>, start: nat, sel: Selection): (r: Outcome)
    requires start < |doc|
    ensures r != TypeError
    ensures r.DeleteDivider? <==>
      sel.isCollapsed && sel.startOffset == 0 && start > 0 && doc[start - 1].blockType == Divider
    ensures r.DeleteDivider? ==> r.divider + 1 == start
    ensures !r.DeleteDivider? ==> r == Pass
  {
    if start == 0 then Pass else OnKeyDownBackspace(doc, start, sel)
  }

  /** The discrepancy: Backspace with a bare cursor at the start of the first
      block reads the type of a null previous block. */
  lemma BackspaceAtDocumentStartThrows(doc: seq<Block>)
    requires |doc| > 0
    ensures OnKeyDownBackspace(doc, 0, Selection(0, true)) == TypeError
    ensures OnKeyDownBackspaceChecked(doc, 0, Selection(0, true)) == Pass
  {
  }

  /** `onKeyDownEnter`: a divider exactly when the text left of the cursor is
      `---`. */
  function OnKeyDownEnter(block: Block, sel: Selection): (r: Outcome)
    ensures r == CreateDivider <==> "---" <= block.text && Clamp(sel.startOffset, |block.text|) == 3
    ensures r != CreateDivider ==> r == Pass
  {
    var leftChars := Substring(block.text, 0, sel.startOffset);
    assert leftChars == block.text[..Clamp(sel.startOffset, |block.text|)];
    if leftChars == "---" then CreateDivider else Pass
  }

  /** `onKeyDown` as written: Enter, Backspace and Left go to their handlers,
      and Backspace or Left with a bare cursor at the start of the first block
      throws. */
  method OnKeyDown(data: KeyData, doc: seq<Block>, start: nat, sel: Selection) returns (r: Outcome)
    requires start < |doc|
    ensures r == TypeError <==>
      && start == 0 && sel.isCollapsed && sel.startOffset == 0
      && (data.key == "backspace" || (data.key == "left" && !data.isCtrl && !data.isAlt))
    ensures data.key == "enter" ==> r == OnKeyDownEnter(doc[start], sel)
    ensures data.key == "backspace" ==> r == OnKeyDownBackspace(doc, start, sel)
    ensures data.key == "left" ==> r == LeftSpec(data, doc, start, sel)
    ensures data.key != "enter" && data.key != "backspace" && data.key != "left" ==> r == Pass
  {
    if data.key == "enter" {
      r := OnKeyDownEnter(doc[start], sel);
    } else if data.key == "backspace" {
      r := OnKeyDownBackspace(doc, start, sel);
    } else if data.key == "left" {
      r := OnKeyDownLeft(data, doc, start, sel);
    } else {
      r := Pass;
    }
  }

  /** `onKeyDown` with the null checks in place: Enter, Backspace and Left go
      to their handlers, other keys are passed on, and nothing throws. */
  method OnKeyDownChecked(data: KeyData, doc: seq<Block>, start: nat, sel: Selection) returns (r: Outcome)
    requires start < |doc|
    ensures r != TypeError
    ensures data.key == "enter" ==> r == OnKeyDownEnter(doc[start], sel)
    ensures data.key == "backspace" ==> r == OnKeyDownBackspaceChecked(doc, start, sel)
    ensures data.key == "left" && start > 0 ==> r == LeftSpec(data, doc, start, sel)
    ensures data.key == "left" && start == 0 ==> r == Pass
    ensures data.key != "enter" && data.key != "backspace" && data.key != "left" ==> r == Pass
  {
    if data.key == "enter" {
      r := OnKeyDownEnter(doc[start], sel);
    } else if data.key == "backspace" {
      r := OnKeyDownBackspaceChecked(doc, start, sel);
    } else if data.key == "left" {
      r := OnKeyDownLeftChecked(data, doc, start, sel);
    } else {
      r := Pass;
    }
  }
}
