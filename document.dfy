/** The part of the editor's document the plugins look at: leaf blocks with a
    type and a text, and the cursor inside the block that holds it. */
module EditorDocument {
  import opened Js

  /** The block types the editor's plugins create. */
  datatype BlockType =
    | Paragraph
    | HeadingOne | HeadingTwo | HeadingThree | HeadingFour | HeadingFive
    | ListItemBullet | ListItemNumber
    | Divider

  /** The container blocks list items are wrapped in. */
  datatype ListType = BulletList | NumberedList

  /** The type's name in the document. */
  function Name(t: BlockType): string
  {
    match t
    case Paragraph => "paragraph"
    case HeadingOne => "heading-one"
    case HeadingTwo => "heading-two"
    case HeadingThree => "heading-three"
    case HeadingFour => "heading-four"
    case HeadingFive => "heading-five"
    case ListItemBullet => "list-item-bullet"
    case ListItemNumber => "list-item-number"
    case Divider => "divider"
  }

  /** The list item types. */
  predicate IsListItem(t: BlockType)
  {
    t == ListItemBullet || t == ListItemNumber
  }

  /** The plugins' test `type.indexOf('list-item-') === 0` picks out exactly
      the list item types. */
  lemma ListItemByName(t: BlockType)
    ensures IndexOf(Name(t), "list-item-") == 0 <==> IsListItem(t)
  {
    IndexOfZeroIsPrefix(Name(t), "list-item-");
    assert Name(t)[0] == 'l' <==> IsListItem(t);
    assert IsListItem(t) ==> Name(t)[..10] == "list-item-";
  }

  datatype Block = Block(blockType: BlockType, text: string)

  /** Where the selection starts inside the start block, and whether it is a
      bare cursor. */
  datatype Selection = Selection(startOffset: nat, isCollapsed: bool)
}
