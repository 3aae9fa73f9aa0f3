# fried-notes editor plugins, modelled in Dafny

fried-notes is a browser markdown editor built from plugins over an editable
document framework. This project models the plugins' own decisions. Each
decision reads a block's type and text and the position of the selection,
and picks what to do on a key.

- **Markdown blocks** (`markdown_blocks.dfy`):
  - Rule table. An ordered table of rules classifies a block's text as a
    heading (`#` to `#####`, then a space), a bullet item (tabs, then `+`,
    `-` or `*`, then a space) or a numbered item (tabs, then an integer, `. `).
  - Shared table. The plugin writes the text it matched and the tab count
    into the shared table rows. These rows are a `seq` field of the
    `MarkdownBlocksPlugin` class, and the matcher updates them in place.
  - Block decisions. For a block, the plugin either applies a rule, removes
    a rule, or strips stray marker marks.
  - Enter, Backspace and Tab inside list items. Enter continues the list
    with the next marker or leaves the list. Backspace removes one tab or
    removes the item. Tab indents.
  - Enter after `---` makes a divider.
- **Divider** (`markdown_divider.dfy`):
  - Enter after `---` makes a divider.
  - Backspace at the start of a block deletes the divider before it.
  - Left at the start of a block walks back over a run of dividers. This
    walk is a loop over the document's blocks.
- **Auto styling** (`auto_markdown_styling.dfy`): the shortcut table from
  markdown prefixes to node types, and Enter after `---`.
- **Mark shortcuts** (`formatting_inline.dfy`, `basic_keyboard_shortcuts.dfy`,
  `basic_mod_shortcuts.dfy`, with the shared `marks.dfy`): the Mod-key
  bindings that toggle bold, italic, underline and strikethrough.
- **JavaScript semantics** (`js.dfy`): the string and number operations
  these plugins use, with JavaScript's semantics:
  - `indexOf` returns -1 when nothing is found.
  - `substring` clamps its bounds and swaps them when they cross.
  - `slice` counts negative bounds from the end.
  - `parseInt` reads leading digits.
  - `String(n)` writes decimal digits.
- **Plugin agreement** (`enter_agreement.dfy`): the three plugins make a
  divider on Enter under exactly the same condition.

The framework's transforms (split, wrap, unwrap, add and remove marks, move
the selection) are not part of the model. Each handler returns an action
datatype naming the transform it would run.

A document is a sequence of blocks, and the selection is the index of its
start block plus an offset.

The shared table is a hazard in the source. Each match writes its tab count
into the table row. Removing a rule later reads that stored count
(`markdown-blocks.js:401`), which may belong to a different block. The
`MarkdownBlocks.StaleIndentationScenario` method shows this step by step:
1. A bullet item with two tabs is matched, which stores 2 in the bullet row.
2. A bullet item with no tabs then loses its marker.
3. Its removal is asked for with the stored count 2, although it has no tabs.

## Model

| member | source | states |
|---|---|---|
| Js.IndexOfFrom | src/app/plugins/markdown-blocks.js:162 | `indexOf` gives -1 or a position where the pattern occurs, and the pattern occurs nowhere earlier |
| Js.IndexOfZeroIsPrefix | src/app/plugins/markdown-blocks.js:525 | `indexOf(p) === 0` holds exactly when the text starts with `p` |
| Js.IndexOfChar | src/app/plugins/markdown-blocks.js:233 | the first space is found at the first index that holds a space |
| Js.Substring | src/app/plugins/markdown-blocks.js:183 | `substring` with ordered in-range bounds is that part of the text, and it is never longer than the text |
| Js.Slice | src/app/plugins/auto-markdown-styling.js:87 | `slice` with ordered in-range bounds is that part of the text |
| Js.Decimal | src/app/plugins/markdown-blocks.js:189-190 | a number prints as a non-empty string of digits with no leading zero (only 0 prints as `0`) that reads back as the same number |
| Js.DigitRun | src/app/plugins/markdown-blocks.js:188 | `parseInt` reads the longest run of digits at the start |
| Js.ParseInt | src/app/plugins/markdown-blocks.js:188 | `parseInt` gives NaN exactly when the string does not start with a digit |
| Js.ParseIntDigits | src/app/plugins/markdown-blocks.js:187-188 | a string of digits parses to its whole value |
| Js.IsIntDecimal | src/app/plugins/markdown-blocks.js:562-566 | the printed form of a number passes `isInt` exactly when the number is below 2^31, where `x \| 0` leaves it unchanged |
| EditorDocument.ListItemByName | src/app/plugins/markdown-blocks.js:158 | `type.indexOf('list-item-') === 0` holds for the bullet and numbered item types and no others |
| MarkdownBlocks.LeadingTabs | src/app/plugins/markdown-blocks.js:552-560 | the count n is at most the length, the first n characters are tabs, and character n is not a tab |
| MarkdownBlocks.GetIndentationCountForText | src/app/plugins/markdown-blocks.js:552-560 | the loop returns exactly the number of leading tabs |
| MarkdownBlocks.LeadingTabsOfIndented | src/app/plugins/markdown-blocks.js:552-560 | one more tab in front adds one to the count |
| MarkdownBlocks.MatchOneMarker | src/app/plugins/markdown-blocks.js:510-528 | a fixed marker text matches exactly when it and a space start the text to match, and the match is the marker |
| MarkdownBlocks.MatchOneNumber | src/app/plugins/markdown-blocks.js:513-521 | the numbered marker matches exactly when the first `. ` is at d > 0 and the text before it passes `isInt`; the match is that text and its dot |
| MarkdownBlocks.TextToMatchSkipsTabs | src/app/plugins/markdown-blocks.js:497-507 | heading rules match the raw text with indentation 0; list rules match the text after the leading tabs, with the tab count as indentation |
| MarkdownBlocks.FirstMatchFrom | src/app/plugins/markdown-blocks.js:492-537 | the reported rule matches, with its matched text and the indentation of its kind, and no earlier rule matches |
| MarkdownBlocks.FirstMatchingRule | src/app/plugins/markdown-blocks.js:492-494 | when rule i matches and no earlier rule does, the match reported is rule i's |
| MarkdownBlocks.HeadingRuleMatch | src/app/plugins/markdown-blocks.js:37-41 | heading rule k matches the raw text exactly when it starts with k+1 `#` and a space |
| MarkdownBlocks.BulletRuleMatch | src/app/plugins/markdown-blocks.js:42-45 | the bullet rule matches exactly when `+ `, `- ` or `* ` follows the tabs, and the match is the bullet character |
| MarkdownBlocks.NumberedRuleMatch | src/app/plugins/markdown-blocks.js:515-521 | the numbered rule matches exactly when the first `. ` after the tabs is at d > 0 and the text before it is an int, and the match is that number with its dot |
| MarkdownBlocks.HeadingPrefixesExclusive | src/app/plugins/markdown-blocks.js:37-41 | no text has the markers of two different heading levels |
| MarkdownBlocks.HeadingClassification | src/app/plugins/markdown-blocks.js:501-533 | a heading level is chosen exactly when the text starts with that many `#` and a space, its match is the hashes, and its indentation is 0 |
| MarkdownBlocks.BulletClassification | src/app/plugins/markdown-blocks.js:501-533 | the bullet rule is chosen exactly when a bullet and a space follow the tabs, the match is the bullet, and the indentation is the tab count |
| MarkdownBlocks.NumberedClassification | src/app/plugins/markdown-blocks.js:515-533 | the numbered rule is chosen exactly when an int and `. ` follow the tabs, the match is the number and dot, and the indentation is the tab count |
| MarkdownBlocks.NoMatchClassification | src/app/plugins/markdown-blocks.js:489-537 | nothing is chosen exactly when there is no heading marker, no bullet marker and no numbered marker |
| MarkdownBlocks.MarkerFollowedBySpace | src/app/plugins/markdown-blocks.js:444-455 | the marked prefix is the tabs plus the matched text, and the next character is the first space of the text |
| MarkdownBlocks.BulletIndented | src/app/plugins/markdown-blocks.js:504-507 | a tab in front keeps a bullet marker, and the match is the same with the indentation one higher |
| MarkdownBlocks.NumberedIndented | src/app/plugins/markdown-blocks.js:504-507 | a tab in front keeps a numbered marker and its number, and the match is the same with the indentation one higher |
| MarkdownBlocks.IndentKeepsListMatch | src/app/plugins/markdown-blocks.js:504-507 | a tab in front keeps a list match the same match with the indentation one higher, and list matching is unchanged either way |
| MarkdownBlocks.FindByType | src/app/plugins/markdown-blocks.js:328-329 | a table row is found for every block type except paragraph and divider, and the row found has that type |
| MarkdownBlocks.ApplyBlockTransformation | src/app/plugins/markdown-blocks.js:441-483 | a rule is applied exactly when the block does not already have its type; the action marks the tabs and matched text and clears the mark at the cursor exactly when a bare cursor sits right after that marker |
| MarkdownBlocks.RemoveBlockTransformation | src/app/plugins/markdown-blocks.js:399-404 | a rule is removed only from a block of that rule's type, with the indentation stored in its row |
| MarkdownBlocks.RemoveExtraBlockMarkers | src/app/plugins/markdown-blocks.js:359-371 | marks are cleared up to the end of the text: over the whole text when no row has the block's type, else from just past the first space (from 0 when there is none) |
| MarkdownBlocks.BlockTransformation | src/app/plugins/markdown-blocks.js:321-350 | apply exactly when a rule matches and the block has another type; remove exactly when nothing matches and a row has the block's type; otherwise strip stray marks |
| MarkdownBlocks.ApplyWhenTypeDiffers | src/app/plugins/markdown-blocks.js:441-483 | apply is chosen exactly when a rule of another type matches; it marks exactly the tabs and the matched text, and clears the mark at the cursor exactly when a bare cursor sits right after the marker |
| MarkdownBlocks.RemoveWhenNothingMatches | src/app/plugins/markdown-blocks.js:327-334 | remove is chosen exactly when nothing matches a block of a table type, for that type's row, with the indentation stored in that row |
| MarkdownBlocks.StripSparesMarker | src/app/plugins/markdown-blocks.js:359-371 | a block that already has its rule's type only loses marks after its marker and the space |
| MarkdownBlocks.StripWholePlainBlock | src/app/plugins/markdown-blocks.js:342-347 | a paragraph or divider that matches nothing loses marks over its whole text, and one that matches is given the rule |
| MarkdownBlocks.MatchTexts | src/app/plugins/markdown-blocks.js:510-529 | the inner loop returns the first of a rule's texts that matches |
| MarkdownBlocks.MarkdownBlocksPlugin.constructor | src/app/plugins/markdown-blocks.js:36-50 | the table starts with the seven rules and nothing written into them |
| MarkdownBlocks.MarkdownBlocksPlugin.TransformDataForBlock | src/app/plugins/markdown-blocks.js:489-538 | returns the first matching rule, writes its match and indentation into that rule's row, and changes no other row |
| MarkdownBlocks.MarkdownBlocksPlugin.StateAfterBlockTransformation | src/app/plugins/markdown-blocks.js:321-350 | records the match, then decides from the match and the row of the block's type, reading the indentation stored there |
| MarkdownBlocks.ListBlockTypeFromTable | src/app/plugins/markdown-blocks.js:168-174 | the table row found for a list item type exists and names that type's list container |
| MarkdownBlocks.ContinueListItemCases | src/app/plugins/markdown-blocks.js:155-178 | Enter acts exactly in a list item with the cursor at or past its first space, and leaves the list, with the item's container, exactly for a bare cursor right after that space |
| MarkdownBlocks.NextNumber | src/app/plugins/markdown-blocks.js:188 | `parseInt(s) + 1` is NaN exactly when `s` does not start with a digit, and otherwise at least 1 |
| MarkdownBlocks.NextNumberOfDigits | src/app/plugins/markdown-blocks.js:187-188 | the next number after a string of digits is its value plus one |
| MarkdownBlocks.ContinueByCursor | src/app/plugins/markdown-blocks.js:155-178 | for a list item whose text matches a rule, Enter is left to block splitting exactly when the cursor is at or before the end of the marker, and leaves the list exactly when a bare cursor sits right after the marker's space |
| MarkdownBlocks.BulletNextText | src/app/plugins/markdown-blocks.js:162-185 | the first space of a bullet item is the one after its bullet, and the next item's text is the same tabs, bullet and space |
| MarkdownBlocks.BulletContinuationClassified | src/app/plugins/markdown-blocks.js:185-197 | the new item after the split (the tabs, bullet and space, then the text after the cursor) is matched exactly as the current item is |
| MarkdownBlocks.ContinueBulletItem | src/app/plugins/markdown-blocks.js:162-197 | Enter past a bullet marker, except a bare cursor right after its space, splits the item and inserts the next item's text |
| MarkdownBlocks.NumberedNextText | src/app/plugins/markdown-blocks.js:182-191 | the first space of a numbered item is the one after its dot, and the next item's text is the same tabs, the number plus one in decimal, and `. ` |
| MarkdownBlocks.NumberedTextClassified | src/app/plugins/markdown-blocks.js:186-197 | the new item after the split (the tabs, next number and `. `, then the text after the cursor) is a numbered item at the same depth, matched as that number and its dot, exactly when the number is below 2^31 |
| MarkdownBlocks.ContinueNumberedItem | src/app/plugins/markdown-blocks.js:162-197 | Enter past a numbered marker, except a bare cursor right after its space, splits the item and inserts the next item's text |
| MarkdownBlocks.ListIndentationDeletion | src/app/plugins/markdown-blocks.js:222-268 | a tab is removed only from a list item with a bare cursor right after the first space and a tab at the start; the item is removed only when it has no tabs and the cursor is at its end |
| MarkdownBlocks.BackspaceOutdents | src/app/plugins/markdown-blocks.js:233-266 | right after the marker, a tab goes and the item stays the same one level up with the cursor after its marker; with no tabs, the item is removed exactly when nothing follows |
| MarkdownBlocks.ListItemAddIndentation | src/app/plugins/markdown-blocks.js:204-216 | Tab acts exactly on list items: it puts one tab in front of the text, keeps the type, adds one to the tab count and moves the cursor one forward |
| MarkdownBlocks.TabIndentsListItem | src/app/plugins/markdown-blocks.js:204-216 | Tab indents a list item; the indented item keeps its rule one level deeper, and a transformation pass run on it only strips stray marks past its one-longer marker |
| MarkdownBlocks.OnKeyDownEnter | src/app/plugins/markdown-blocks.js:122-138 | a divider exactly when `---` alone is left of the cursor; otherwise list continuation if it applies, else block splitting |
| MarkdownBlocks.StaleIndentationDecisions | src/app/plugins/markdown-blocks.js:321-350 | a paragraph reading `\t\t- a` is given the bullet rule with its marker ending at 3, and a bullet item reading `-b` with 2 stored in the bullet row is removed with that stored 2 |
| MarkdownBlocks.StaleIndentationScenario | src/app/plugins/markdown-blocks.js:321-350 | through the plugin's shared table, `\t\t- a` is given the bullet rule, and then `-b`, which has no tabs, is removed with the stored count 2 |
| MarkdownDivider.NearestNonDivider | src/app/plugins/markdown/markdown-divider.js:62-65 | finds the last block at or before k that is not a divider, with only dividers after it |
| MarkdownDivider.PreviousBlock | src/app/plugins/markdown/markdown-divider.js:59-64 | the block before block k is k-1, and there is none (null) exactly for the first block |
| MarkdownDivider.LeftSpec | src/app/plugins/markdown/markdown-divider.js:48-79 | Left throws exactly at the start of the first block; otherwise it acts only when the block before is a divider, by moving the cursor or applying the empty transform |
| MarkdownDivider.OnKeyDownLeft | src/app/plugins/markdown/markdown-divider.js:48-80 | the loop over previous blocks gives the as-written decision, including the throw at the first block |
| MarkdownDivider.OnKeyDownLeftChecked | src/app/plugins/markdown/markdown-divider.js:55-60 | with the null check Left never throws; it passes at the first block and behaves as written elsewhere |
| MarkdownDivider.LeftJumpsOverDividers | src/app/plugins/markdown/markdown-divider.js:49-74 | Left moves to block p exactly when no Ctrl or Alt is held, a bare cursor is at offset 0, p is not a divider and only dividers lie between p and the cursor's block |
| MarkdownDivider.LeftOverLeadingDividers | src/app/plugins/markdown/markdown-divider.js:75-79 | the empty transform comes exactly when every block before the cursor's block is a divider |
| MarkdownDivider.LeftAtDocumentStartThrows | src/app/plugins/markdown/markdown-divider.js:59-60 | Left at the start of the first block reads the type of a null block |
| MarkdownDivider.OnKeyDownBackspace | src/app/plugins/markdown/markdown-divider.js:82-89 | as written it throws exactly for a bare cursor at the start of the first block |
| MarkdownDivider.OnKeyDownBackspaceChecked | src/app/plugins/markdown/markdown-divider.js:84-88 | Backspace deletes exactly the divider right before a bare cursor at offset 0, and otherwise passes |
| MarkdownDivider.BackspaceAtDocumentStartThrows | src/app/plugins/markdown/markdown-divider.js:85-86 | Backspace at the start of the first block throws as written and passes with the check |
| MarkdownDivider.OnKeyDownEnter | src/app/plugins/markdown/markdown-divider.js:37-46 | a divider exactly when `---` alone is left of the cursor, otherwise nothing |
| MarkdownDivider.OnKeyDown | src/app/plugins/markdown/markdown-divider.js:27-35 | as written: Enter, Backspace and Left go to their handlers and other keys pass; it throws exactly for Backspace, or Left without Ctrl or Alt, with a bare cursor at the start of the first block |
| MarkdownDivider.OnKeyDownChecked | src/app/plugins/markdown/markdown-divider.js:27-35 | with the null checks nothing throws: Enter and Backspace go to their (checked) handlers, Left acts as written except at the first block, where it passes |
| AutoMarkdownStyling.ShortcutKeysToNodeType | src/app/plugins/auto-markdown-styling.js:32-44 | a bullet exactly for `*`, `-` or `+`; a heading of level n exactly for n hashes with 1 ≤ n ≤ 4; a divider exactly for `---` |
| AutoMarkdownStyling.UnlistedShortcutsMapToNull | src/app/plugins/auto-markdown-styling.js:41-42 | every other string maps to null, including `#####` and the empty string |
| AutoMarkdownStyling.GetTextFromStartOfBlock | src/app/plugins/auto-markdown-styling.js:85-89 | the text left of the cursor: a prefix of the block text of the clamped offset's length |
| AutoMarkdownStyling.OnEnter | src/app/plugins/auto-markdown-styling.js:66-83 | a transform exactly when `---` alone is left of the cursor, otherwise undefined |
| AutoMarkdownStyling.OnSpace | src/app/plugins/auto-markdown-styling.js:58-60 | Space is left to the other plugins (undefined) |
| AutoMarkdownStyling.OnBackspace | src/app/plugins/auto-markdown-styling.js:62-64 | Backspace is left to the other plugins (undefined) |
| AutoMarkdownStyling.OnKeyDown | src/app/plugins/auto-markdown-styling.js:46-64 | Space and Backspace do nothing; only Enter after `---` changes the state |
| FormattingInline.OnKeyDown | src/app/plugins/formatting/formatting-inline.js:29-57 | without Mod nothing; with Mod only b, i, u and s toggle a mark; s without Alt toggles an undefined mark; every mark toggled is declared |
| FormattingInline.KeyBindings | src/app/plugins/formatting/formatting-inline.js:12-46 | each declared mark is toggled exactly by Mod and its key, with Alt for strikethrough |
| BasicKeyboardShortcuts.OnKeyDown | src/app/plugins/basic-keyboard-shortcuts.js:30-60 | without Mod nothing; with Mod only b, i, u and s toggle a mark; s without Alt toggles an undefined mark; code is never toggled |
| BasicKeyboardShortcuts.KeyBindings | src/app/plugins/basic-keyboard-shortcuts.js:8-51 | a mark is toggled exactly by Mod and its key (Alt for strikethrough); the declared code mark has no key |
| BasicModShortcuts.OnKeyDown | src/app/plugins/basic-mod-shortcuts.js:27-52 | without Mod nothing; with Mod exactly b, i and u toggle a declared mark that is not code |
| BasicModShortcuts.KeyBindings | src/app/plugins/basic-mod-shortcuts.js:8-43 | bold, italic and underline are toggled exactly by Mod and their key; strikethrough and code never are |
| EnterAgreement.DividerOnEnterAgrees | src/app/plugins/auto-markdown-styling.js:66-83 | the blocks, divider and auto-styling plugins make a divider on exactly the same blocks and cursors |
| EnterAgreement.DashesAreNotAListMarker | src/app/plugins/markdown-blocks.js:126-134 | a line starting with `---` has neither a bullet nor a numbered marker |

## Left out

- The framework's transforms, selection and document primitives are not modelled. This covers `splitBlock`, `wrapBlock`, `unwrapBlock`, `addMark`, `removeMark`, `toggleMark`, `delete`, `moveTo…`, `getMarksAtRange`, `getPreviousBlock` and the `slateCore` handlers. Each handler returns an action naming what it would run. The framework's code is not part of this model.
- Js.IsInt: `isInt` is modelled on non-empty strings of decimal digits, with a value below 2^31, the range `x | 0` leaves unchanged. The source's `parseFloat` also accepts a sign, leading spaces, a fraction, an exponent or trailing characters (for example `-1`, `1.0` or `2a`), and such texts would match the numbered rule. The model does not match them, because floating-point parsing is out of scope.
- Js.ParseInt: reads only the leading digits, into an unbounded integer. It does not model a sign or leading spaces. It also does not model JavaScript numbers being doubles: `parseInt(s) + 1` loses precision above 2^53, and `String(n)` switches to exponent form from 10^21. The model computes the next number exactly and prints it in plain digits. This differs from the source only when a numbered item's number is far beyond 2^31. Such an item no longer passes `isInt`, yet it keeps the numbered-item type while Enter continues it.
- MarkdownBlocks.RemoveBlockTransformation: only the type guard (`markdown-blocks.js:404`) is modelled. The action carries the stored indentation (line 401). The mark removal, the unwrapping and the deletion of `indentationCount` characters (lines 407-433) are not modelled, because they are framework range operations.
- MarkdownBlocks.RemoveExtraBlockMarkers: returns the range to clear. Whether the range holds marks, which decides between a new state and `undefined` (lines 376-391), is document state the model does not hold.
- MarkdownBlocks.MarkdownBlocksPlugin.TransformDataForBlock: the source writes `matchedText` (lines 520, 527) and `indentationCount` (line 533) into the row one after the other. The model writes both in one update. The state after the loop is the same.
- Some handlers of the blocks plugin are not modelled, because they run a framework handler first:
  - `onKeyDown` (`markdown-blocks.js:90-100`) is pure dispatch. It sends Enter to `onKeyDownEnter` (modelled as `MarkdownBlocks.OnKeyDownEnter`) and Tab to `onKeyDownTab` (modelled as `MarkdownBlocks.ListItemAddIndentation`). It sends Backspace and Delete to the handlers below, and returns `undefined` for other keys.
  - `onKeyDownBackspace` (lines 102-111) first tries `stateAfterListIndentationDeletion` (modelled as `MarkdownBlocks.ListIndentationDeletion`). Only when that gives nothing does it run the framework's Backspace and then `stateAfterBlockTransformation` on the result. That fallback is not modelled.
  - `onKeyDownDelete` (lines 113-116), `onBeforeInput` (lines 140-143) and `onPaste` (lines 145-148) each run the framework's handler and then `stateAfterBlockTransformation` on the resulting state. The framework's edit is not modelled. The decision on the resulting block is modelled as `MarkdownBlocks.MarkdownBlocksPlugin.StateAfterBlockTransformation`.
- `handleBlockSplitting` (`markdown-blocks.js:275-310`) is not modelled. It splits through the framework and then runs the modelled decision on both halves.
- `createDivider` and `deleteDivider` are represented by the actions `CreateDivider` and `DeleteDivider`, not by their effect on the document.
- The document is a flat sequence of leaf blocks. The previous block of block k is block k-1. List containers are not represented, and the framework's `getPreviousBlock` also skips them.
- A table row's `indentationCount` that was never written (`undefined`) is `None`.
- `e.preventDefault()` is not modelled. Actions carry no record of whether the default was prevented. The source does not call it on every handled path. For example, the divider plugin's Left (`markdown-divider.js:68-79`) and Backspace (lines 86-87) return a new state without it. So do the blocks plugin's Backspace, Delete, input and paste handlers (`markdown-blocks.js:109-110`, 114-115 and 141-147).
- Logging, the React schema renderers and the editor wiring are not modelled. `src/app/plugins/markdown/markdown-code.js` (entirely commented out) and `src/app/plugins/base-behaviour.js` (pass-throughs) are not part of this model.

## Findings

| source | as written | input that shows it | evidently intended | confidence | as-written member | corrected member |
|---|---|---|---|---|---|---|
| src/app/plugins/markdown/markdown-divider.js:59-60 | `prevBlock.type` is read without checking that a previous block exists | Left, no Ctrl or Alt, bare cursor at offset 0 of the first block: `getPreviousBlock` gives null and reading `.type` throws a TypeError | pass the key on, as when the previous block is not a divider | medium; not executed | MarkdownDivider.LeftAtDocumentStartThrows, MarkdownDivider.OnKeyDown | MarkdownDivider.OnKeyDownLeftChecked, MarkdownDivider.OnKeyDownChecked |
| src/app/plugins/markdown/markdown-divider.js:85-86 | `isCollapsed && startOffset === 0 && prevBlock.type` reads the type of a null block | Backspace with a bare cursor at offset 0 of the first block | pass the key on to the core plugin | medium; not executed | MarkdownDivider.BackspaceAtDocumentStartThrows, MarkdownDivider.OnKeyDown | MarkdownDivider.OnKeyDownBackspaceChecked, MarkdownDivider.OnKeyDownChecked |

Both rows meet in the divider plugin's `onKeyDown` (`markdown-divider.js:27-35`). `MarkdownDivider.OnKeyDown` is that dispatch as written, and it throws exactly in the two cases above. `MarkdownDivider.OnKeyDownChecked` is the dispatch over the corrected handlers, and it never throws.
