/** Markdown block detection. A block whose text starts with a heading marker
    (`#` to `#####`), a bullet marker (`+`, `-`, `*`) or a numbered marker
    (`12.`), each followed by a space, becomes a heading or a list item, and
    the marker text gets a marker mark; list markers may be preceded by tabs,
    one per indentation level. When the marker goes away the block turns back
    into a paragraph. The editor framework's transforms are modelled as the
    actions the plugin asks for, not as changes to a document. */
module MarkdownBlocks {
  import opened Js
  import opened EditorDocument

  // ---------------------------------------------------------------------------
  // The rule table
  // ---------------------------------------------------------------------------

  /** The marks applied to the marker text of a transformed block. */
  datatype TextMarker = HeadingMarker | ListMarker

  /** One row of the rule table. A row with a single `text` is kept as the
      one-element list of `texts` the matcher turns it into. */
  datatype Rule = Rule(blockType: BlockType, textMarker: TextMarker, texts: seq<string>, listBlockType: Option<ListType>)

  /** The placeholder text that stands for "a number followed by a dot". */
  const NumberedListText: string := "[numbered-list]"

  /** The rules in the order they are tried. */
  const Table: seq<Rule> := [
    Rule(HeadingOne, HeadingMarker, ["#"], None),
    Rule(HeadingTwo, HeadingMarker, ["##"], None),
    Rule(HeadingThree, HeadingMarker, ["###"], None),
    Rule(HeadingFour, HeadingMarker, ["####"], None),
    Rule(HeadingFive, HeadingMarker, ["#####"], None),
    Rule(ListItemBullet, ListMarker, ["+", "-", "*"], Some(BulletList)),
    Rule(ListItemNumber, ListMarker, [NumberedListText], Some(NumberedList))
  ]

  const BulletRule: nat := 5
  const NumberedRule: nat := 6

  /** `n` copies of `c`: the tabs of an indentation, the hashes of a heading. */
  function Repeat(c: char, n: nat): (s: string)
    ensures |s| == n && forall i :: 0 <= i < n ==> s[i] == c
  {
    seq(n, _ => c)
  }

  // ---------------------------------------------------------------------------
  // Indentation
  // ---------------------------------------------------------------------------

  /** The end of the run of tabs in `text` that starts at `i`. */
  function TabRunFrom(text: string, i: nat): (n: nat)
    requires i <= |text|
    decreases |text| - i
    ensures i <= n <= |text|
    ensures forall j :: i <= j < n ==> text[j] == '\t'
    ensures n < |text| ==> text[n] != '\t'
  {
    if i < |text| && text[i] == '\t' then TabRunFrom(text, i + 1) else i
  }

  /** The number of tabs a text starts with. */
  function LeadingTabs(text: string): (n: nat)
    ensures n <= |text|
    ensures forall i :: 0 <= i < n ==> text[i] == '\t'
    ensures n < |text| ==> text[n] != '\t'
  {
    TabRunFrom(text, 0)
  }

  /** `getIndentationCountForText`: walks the text while it reads tabs. */
  method GetIndentationCountForText(text: string) returns (indentationCount: nat)
    ensures indentationCount == LeadingTabs(text)
  {
    var index := 0;
    indentationCount := 0;
    while index < |text| && text[index] == '\t'
      invariant index == indentationCount <= |text|
      invariant forall i :: 0 <= i < index ==> text[i] == '\t'
    {
      index := index + 1;
      indentationCount := indentationCount + 1;
    }
  }

  /** One more tab in front adds one to the count. */
  lemma LeadingTabsOfIndented(text: string)
    ensures LeadingTabs("\t" + text) == LeadingTabs(text) + 1
  {
    assert ("\t" + text)[1..] == text;
  }

  /** Tabs up to `n` and no tab at `n` is what LeadingTabs counts. */
  lemma LeadingTabsUnique(text: string, n: nat)
    requires n <= |text| && forall i :: 0 <= i < n ==> text[i] == '\t'
    requires n < |text| ==> text[n] != '\t'
    ensures LeadingTabs(text) == n
  {
  }

  // ---------------------------------------------------------------------------
  // Matching (what `transformDataForBlock` computes)
  // ---------------------------------------------------------------------------

  /** Whether `textToMatch` matches the rule text `matchText`, and the text it
      matched: either the number and its dot, or `matchText` itself when it is
      followed by a space. */
  function MatchOne(matchText: string, textToMatch: string): Option<string>
  {
    if matchText == NumberedListText then
      var dotIndex := IndexOf(textToMatch, ". ");
      if dotIndex > 0 && IsInt(Substring(textToMatch, 0, dotIndex)) then
        Some(Substring(textToMatch, 0, dotIndex + 1))
      else None
    else if IndexOf(textToMatch, matchText + " ") == 0 then Some(matchText)
    else None
  }

  /** The first of `texts[j..]` that matches. */
  function MatchTextsFrom(texts: seq<string>, textToMatch: string, j: nat): Option<string>
    decreases |texts| - j
  {
    if j >= |texts| then None
    else if MatchOne(texts[j], textToMatch).Some? then MatchOne(texts[j], textToMatch)
    else MatchTextsFrom(texts, textToMatch, j + 1)
  }

  /** The indentation a rule records: the leading tabs for list rules, 0 otherwise. */
  function RuleIndentation(rule: Rule, text: string): nat
  {
    if rule.listBlockType.Some? then LeadingTabs(text) else 0
  }

  /** List rules look past the leading tabs; heading rules see the raw text. */
  function TextToMatch(rule: Rule, text: string): string
  {
    if rule.listBlockType.Some? then Substring(text, LeadingTabs(text), |text|) else text
  }

  /** What rule `i` matches in a block text. */
  function RuleMatch(i: nat, text: string): Option<string>
    requires i < |Table|
  {
    MatchTextsFrom(Table[i].texts, TextToMatch(Table[i], text), 0)
  }

  /** A rule text other than the numbered placeholder matches exactly when
      the text starts with it and a space, and the match is the rule text. */
  lemma MatchOneMarker(matchText: string, textToMatch: string)
    requires matchText != NumberedListText
    ensures MatchOne(matchText, textToMatch) == if matchText + " " <= textToMatch then Some(matchText) else None
  {
    IndexOfZeroIsPrefix(textToMatch, matchText + " ");
  }

  /** The numbered placeholder matches exactly when the first `. ` is at some
      d > 0 with an integer before it, and the match is that integer and its
      dot. */
  lemma MatchOneNumber(textToMatch: string)
    ensures MatchOne(NumberedListText, textToMatch).Some? <==>
      IndexOf(textToMatch, ". ") > 0 && IsInt(textToMatch[..IndexOf(textToMatch, ". ")])
    ensures MatchOne(NumberedListText, textToMatch).Some? ==>
      && IndexOf(textToMatch, ". ") + 1 < |textToMatch|
      && MatchOne(NumberedListText, textToMatch).value == textToMatch[..IndexOf(textToMatch, ". ")] + "."
  {
    var d := IndexOf(textToMatch, ". ");
    if d > 0 {
      assert OccursAt(textToMatch, ". ", d);
      assert textToMatch[..d + 1] == textToMatch[..d] + ".";
    }
  }

  /** List rules match the text after its leading tabs and record their
      number; heading rules match the raw text and record 0. */
  lemma TextToMatchSkipsTabs(i: nat, text: string)
    requires i < |Table|
    ensures TextToMatch(Table[i], text) == if i >= BulletRule then text[LeadingTabs(text)..] else text
    ensures RuleIndentation(Table[i], text) == if i >= BulletRule then LeadingTabs(text) else 0
  {
  }

  /** The transformation found for a block: the rule, the text matched after
      the tabs, and the number of tabs. */
  datatype TransformData = TransformData(rule: nat, matchedText: string, indentationCount: nat)

  /** The first rule from `k` on that matches. */
  function FirstMatchFrom(text: string, k: nat): (r: Option<TransformData>)
    decreases |Table| - k
    ensures r.Some? ==> k <= r.value.rule < |Table|
    ensures r.Some? ==> RuleMatch(r.value.rule, text) == Some(r.value.matchedText)
    ensures r.Some? ==> r.value.indentationCount == RuleIndentation(Table[r.value.rule], text)
    ensures forall j :: k <= j < |Table| && (r.None? || j < r.value.rule) ==> RuleMatch(j, text).None?
  {
    if k >= |Table| then None
    else match RuleMatch(k, text)
      case Some(m) => Some(TransformData(k, m, RuleIndentation(Table[k], text)))
      case None => FirstMatchFrom(text, k + 1)
  }

  /** The rules tried in table order; the first that matches wins. */
  function FirstMatch(text: string): Option<TransformData>
  {
    FirstMatchFrom(text, 0)
  }

  /** The number of leading characters a transformation marks. */
  function MarkerLength(td: TransformData): nat
  {
    td.indentationCount + |td.matchedText|
  }

  /** The rule that matches first is what FirstMatch reports. */
  lemma FirstMatchingRule(text: string, i: nat)
    requires i < |Table| && RuleMatch(i, text).Some?
    requires forall j :: 0 <= j < i ==> RuleMatch(j, text).None?
    ensures FirstMatch(text) == Some(TransformData(i, RuleMatch(i, text).value, RuleIndentation(Table[i], text)))
  {
  }

  // --- the three kinds of marker, read off the text ---------------------------

  /** `#` repeated `k` times and a space at the very start of the text. */
  predicate HeadingPrefix(text: string, k: nat)
  {
    Repeat('#', k) + " " <= text
  }

  /** After the tabs: `+`, `-` or `*`, then a space. */
  predicate BulletPrefix(text: string)
  {
    var n := LeadingTabs(text);
    n + 1 < |text| && text[n] in "+-*" && text[n + 1] == ' '
  }

  /** After the tabs: a non-empty integer, then ". ". */
  predicate NumberedPrefix(text: string)
  {
    var t := text[LeadingTabs(text)..];
    var d := IndexOf(t, ". ");
    d > 0 && IsInt(t[..d])
  }

  /** The digits of a numbered marker. */
  function NumberedDigits(text: string): (s: string)
    requires NumberedPrefix(text)
    ensures IsInt(s)
  {
    var t := text[LeadingTabs(text)..];
    t[..IndexOf(t, ". ")]
  }

  lemma HeadingRuleMatch(k: nat, text: string)
    requires k < 5
    ensures RuleMatch(k, text) == if HeadingPrefix(text, k + 1) then Some(Repeat('#', k + 1)) else None
  {
    var h := Repeat('#', k + 1);
    assert Table[k].texts == [h] by {
      if k == 0 { assert "#" == h; }
      else if k == 1 { assert "##" == h; }
      else if k == 2 { assert "###" == h; }
      else if k == 3 { assert "####" == h; }
      else { assert "#####" == h; }
    }
    assert h != NumberedListText by { assert h[0] != NumberedListText[0]; }
    IndexOfZeroIsPrefix(text, h + " ");
    assert MatchTextsFrom([h], text, 1) == None;
  }

  lemma BulletMatchOne(t: string, c: char)
    requires c in "+-*"
    ensures MatchOne([c], t) == if |t| >= 2 && t[0] == c && t[1] == ' ' then Some([c]) else None
  {
    assert [c] != NumberedListText;
    IndexOfZeroIsPrefix(t, [c] + " ");
    if |t| >= 2 && t[0] == c && t[1] == ' ' {
      assert t[..2] == [c] + " ";
    }
  }

  lemma BulletRuleMatch(text: string)
    ensures RuleMatch(BulletRule, text) == if BulletPrefix(text) then Some([text[LeadingTabs(text)]]) else None
  {
    var n := LeadingTabs(text);
    var t := text[n..];
    var texts := Table[BulletRule].texts;
    assert texts == ["+", "-", "*"];
    assert TextToMatch(Table[BulletRule], text) == t;
    BulletMatchOne(t, '+');
    BulletMatchOne(t, '-');
    BulletMatchOne(t, '*');
    assert MatchTextsFrom(texts, t, 3) == None;
    assert MatchTextsFrom(texts, t, 2) == MatchOne("*", t);
    assert MatchTextsFrom(texts, t, 1) == if MatchOne("-", t).Some? then MatchOne("-", t) else MatchOne("*", t);
  }

  lemma NumberedRuleMatch(text: string)
    ensures RuleMatch(NumberedRule, text) ==
      if NumberedPrefix(text) then Some(NumberedDigits(text) + ".") else None
  {
    var n := LeadingTabs(text);
    var t := text[n..];
    assert TextToMatch(Table[NumberedRule], text) == t;
    assert MatchTextsFrom([NumberedListText], t, 1) == None;
    var d := IndexOf(t, ". ");
    if d > 0 {
      assert OccursAt(t, ". ", d);
      assert t[d] == t[d..d + 2][0] == '.';
      assert t[..d + 1] == t[..d] + ".";
    }
  }

  /** Two different heading levels never both fit. */
  lemma HeadingPrefixesExclusive(text: string, j: nat, k: nat)
    requires 0 < j < k && HeadingPrefix(text, k)
    ensures !HeadingPrefix(text, j)
  {
    assert text[j] == (Repeat('#', k) + " ")[j] == '#';
  }

  /** A heading marker needs '#' as the very first character. */
  lemma HeadingPrefixStartsWithHash(text: string, k: nat)
    ensures HeadingPrefix(text, k) && k > 0 ==> |text| > 0 && text[0] == '#'
  {
    if HeadingPrefix(text, k) && k > 0 {
      assert text[0] == (Repeat('#', k) + " ")[0];
    }
  }

  /** Heading rule `k` (for `#` repeated k + 1 times) is what matches exactly
      when the raw text, tabs included, starts with that many `#` and a space;
      it records no indentation. */
  lemma HeadingClassification(text: string, k: nat)
    requires k < 5
    ensures (FirstMatch(text).Some? && FirstMatch(text).value.rule == k) <==> HeadingPrefix(text, k + 1)
    ensures HeadingPrefix(text, k + 1) ==> FirstMatch(text) == Some(TransformData(k, Repeat('#', k + 1), 0))
  {
    HeadingRuleMatch(k, text);
    if HeadingPrefix(text, k + 1) {
      forall j | 0 <= j < k ensures RuleMatch(j, text).None? {
        HeadingRuleMatch(j, text);
        HeadingPrefixesExclusive(text, j + 1, k + 1);
      }
      FirstMatchingRule(text, k);
    }
  }

  /** The bullet rule is what matches exactly when, after the tabs, the text
      reads `+ `, `- ` or `* `; it records the one marker character and the
      number of tabs. */
  lemma BulletClassification(text: string)
    ensures (FirstMatch(text).Some? && FirstMatch(text).value.rule == BulletRule) <==> BulletPrefix(text)
    ensures BulletPrefix(text) ==>
      FirstMatch(text) == Some(TransformData(BulletRule, [text[LeadingTabs(text)]], LeadingTabs(text)))
  {
    BulletRuleMatch(text);
    if BulletPrefix(text) {
      forall j | 0 <= j < BulletRule ensures RuleMatch(j, text).None? {
        HeadingRuleMatch(j, text);
        HeadingPrefixStartsWithHash(text, j + 1);
      }
      FirstMatchingRule(text, BulletRule);
    }
  }

  /** The numbered rule is what matches exactly when, after the tabs, the
      first ". " has a non-empty integer in front of it; it records that
      number with its dot and the number of tabs. */
  lemma NumberedClassification(text: string)
    ensures (FirstMatch(text).Some? && FirstMatch(text).value.rule == NumberedRule) <==> NumberedPrefix(text)
    ensures NumberedPrefix(text) ==>
      FirstMatch(text) == Some(TransformData(NumberedRule, NumberedDigits(text) + ".", LeadingTabs(text)))
  {
    NumberedRuleMatch(text);
    if NumberedPrefix(text) {
      var n := LeadingTabs(text);
      var digits := NumberedDigits(text);
      assert text[n] == digits[0];
      forall j | 0 <= j < BulletRule ensures RuleMatch(j, text).None? {
        HeadingRuleMatch(j, text);
      }
      BulletRuleMatch(text);
      FirstMatchingRule(text, NumberedRule);
    }
  }

  /** Nothing matches exactly when none of the three kinds of marker is there. */
  lemma NoMatchClassification(text: string)
    ensures FirstMatch(text).None? <==>
      (forall k :: 1 <= k <= 5 ==> !HeadingPrefix(text, k)) && !BulletPrefix(text) && !NumberedPrefix(text)
  {
    forall k | 1 <= k <= 5 ensures HeadingPrefix(text, k) ==> FirstMatch(text).Some? {
      HeadingClassification(text, k - 1);
    }
    BulletClassification(text);
    NumberedClassification(text);
    if FirstMatch(text).Some? {
      var r := FirstMatch(text).value.rule;
      if r < 5 {
        HeadingClassification(text, r);
      }
    }
  }

  /** The marked prefix of a match: tabs, then the matched text, then a space
      that is the first space of the text. */
  predicate MarkerThenSpace(text: string, td: TransformData)
  {
    && MarkerLength(td) < |text|
    && text[..MarkerLength(td)] == Repeat('\t', td.indentationCount) + td.matchedText
    && text[MarkerLength(td)] == ' '
    && IndexOf(text, " ") == MarkerLength(td)
  }

  lemma HeadingMarkerThenSpace(text: string, k: nat)
    requires k < 5 && HeadingPrefix(text, k + 1)
    ensures MarkerThenSpace(text, TransformData(k, Repeat('#', k + 1), 0))
  {
    var m := k + 1;
    assert text[..m + 1] == Repeat('#', m) + " ";
    assert text[..m] == Repeat('\t', 0) + Repeat('#', m);
    forall i | 0 <= i < m ensures text[i] != ' ' {
      assert text[i] == text[..m + 1][i];
    }
    IndexOfChar(text, ' ', m);
  }

  lemma BulletMarkerThenSpace(text: string)
    requires BulletPrefix(text)
    ensures MarkerThenSpace(text, TransformData(BulletRule, [text[LeadingTabs(text)]], LeadingTabs(text)))
  {
    var n := LeadingTabs(text);
    assert text[..n + 1] == Repeat('\t', n) + [text[n]];
    IndexOfChar(text, ' ', n + 1);
  }

  lemma NumberedMarkerThenSpace(text: string)
    requires NumberedPrefix(text)
    ensures MarkerThenSpace(text, TransformData(NumberedRule, NumberedDigits(text) + ".", LeadingTabs(text)))
  {
    var n := LeadingTabs(text);
    var t := text[n..];
    var d := IndexOf(t, ". ");
    var digits := NumberedDigits(text);
    assert OccursAt(t, ". ", d);
    assert text[n + d] == t[d] == '.';
    assert text[n + d + 1] == t[d + 1] == ' ';
    forall i | n <= i < n + d ensures text[i] == digits[i - n] && text[i] != ' ' {
      assert text[i] == t[i - n];
    }
    assert text[..n + d + 1] == Repeat('\t', n) + digits + ".";
    IndexOfChar(text, ' ', n + d + 1);
  }

  /** Whatever matched is a run of tabs and the matched text, the character
      right after it is a space, and that is the first space of the text. */
  lemma MarkerFollowedBySpace(text: string)
    requires FirstMatch(text).Some?
    ensures MarkerThenSpace(text, FirstMatch(text).value)
  {
    var td := FirstMatch(text).value;
    if td.rule < 5 {
      HeadingClassification(text, td.rule);
      HeadingMarkerThenSpace(text, td.rule);
    } else if td.rule == BulletRule {
      BulletClassification(text);
      BulletMarkerThenSpace(text);
    } else {
      NumberedClassification(text);
      NumberedMarkerThenSpace(text);
    }
  }

  /** A text matched by one of the two list rules. */
  predicate ListMatch(text: string)
  {
    FirstMatch(text).Some? && FirstMatch(text).value.rule >= BulletRule
  }

  /** A list match is a bullet or a numbered marker after the tabs. */
  lemma ListMatchByPrefix(text: string)
    ensures ListMatch(text) <==> BulletPrefix(text) || NumberedPrefix(text)
  {
    BulletClassification(text);
    NumberedClassification(text);
  }

  /** A tab in front keeps a bullet marker, one level deeper. */
  lemma BulletIndented(text: string)
    ensures BulletPrefix("\t" + text) <==> BulletPrefix(text)
    ensures BulletPrefix(text) ==>
      && FirstMatch(text).Some?
      && FirstMatch("\t" + text) == Some(FirstMatch(text).value.(indentationCount := FirstMatch(text).value.indentationCount + 1))
  {
    var u := "\t" + text;
    LeadingTabsOfIndented(text);
    var n := LeadingTabs(text);
    assert n + 1 < |text| ==> u[n + 1] == text[n] && u[n + 2] == text[n + 1];
    if BulletPrefix(text) {
      BulletClassification(text);
      BulletClassification(u);
    }
  }

  /** A tab in front keeps a numbered marker and its number, one level deeper. */
  lemma NumberedIndented(text: string)
    ensures NumberedPrefix("\t" + text) <==> NumberedPrefix(text)
    ensures NumberedPrefix(text) ==>
      && FirstMatch(text).Some?
      && FirstMatch("\t" + text) == Some(FirstMatch(text).value.(indentationCount := FirstMatch(text).value.indentationCount + 1))
  {
    var u := "\t" + text;
    LeadingTabsOfIndented(text);
    var n := LeadingTabs(text);
    assert u[n + 1..] == text[n..];
    if NumberedPrefix(text) {
      assert NumberedDigits(u) == NumberedDigits(text);
      NumberedClassification(text);
      NumberedClassification(u);
    }
  }

  /** Adding a tab in front keeps a list item the same item one level deeper,
      and removing one (when it is there) undoes that. */
  lemma IndentKeepsListMatch(text: string)
    ensures ListMatch("\t" + text) <==> ListMatch(text)
    ensures ListMatch(text) ==>
      FirstMatch("\t" + text) == Some(FirstMatch(text).value.(indentationCount := FirstMatch(text).value.indentationCount + 1))
  {
    ListMatchByPrefix(text);
    ListMatchByPrefix("\t" + text);
    BulletIndented(text);
    NumberedIndented(text);
  }

  // ---------------------------------------------------------------------------
  // Deciding what to do with a block (`stateAfterBlockTransformation`)
  // ---------------------------------------------------------------------------

  /** What the plugin asks the framework to do with a block. */
  datatype Action =
      /** Back to a paragraph: remove the rule's marker mark and unwrap its list;
          `storedIndentation` is the count the rule's table entry holds when
          the removal reads it. */
    | RemoveTransformation(rule: nat, storedIndentation: Option<nat>)
      /** Mark `[0, markerEnd)`, unmark `[markerEnd, end)`, set the rule's block
          type and wrap its list; optionally drop the mark at the cursor. */
    | ApplyTransformation(rule: nat, markerEnd: nat, clearMarkAtCursor: bool)
      /** Remove whatever marker marks lie in `[from, to)`. */
    | StripMarkers(from: nat, to: nat)

  /** The first table entry for a block type (`Array.prototype.find`). */
  function FindByTypeFrom(t: BlockType, k: nat): (r: Option<nat>)
    decreases |Table| - k
    ensures r.Some? ==> k <= r.value < |Table| && Table[r.value].blockType == t
    ensures r.None? ==> forall j :: k <= j < |Table| ==> Table[j].blockType != t
  {
    if k >= |Table| then None
    else if Table[k].blockType == t then Some(k)
    else FindByTypeFrom(t, k + 1)
  }

  function FindByType(t: BlockType): (r: Option<nat>)
    ensures r.Some? ==> r.value < |Table| && Table[r.value].blockType == t
    ensures r.None? <==> t == Paragraph || t == Divider
  {
    FindByTypeFrom(t, 0)
  }

  /** `removeBlockTransformation`, up to its type guard. */
  function RemoveBlockTransformation(block: Block, rule: nat, stored: Option<nat>): (r: Option<Action>)
    requires rule < |Table|
    ensures r.Some? <==> block.blockType == Table[rule].blockType
    ensures r.Some? ==> r.value == RemoveTransformation(rule, stored)
  {
    if block.blockType != Table[rule].blockType then None
    else Some(RemoveTransformation(rule, stored))
  }

  /** `applyBlockTransformation`: nothing when the block already has the type. */
  function ApplyBlockTransformation(block: Block, sel: Selection, td: TransformData): (r: Option<Action>)
    requires td.rule < |Table|
    ensures r.Some? <==> block.blockType != Table[td.rule].blockType
    ensures r.Some? ==> r.value.ApplyTransformation? && r.value.rule == td.rule && r.value.markerEnd == MarkerLength(td)
    ensures r.Some? ==> (r.value.clearMarkAtCursor <==> sel.isCollapsed && sel.startOffset == MarkerLength(td) + 1)
  {
    var markerMatchLength := td.indentationCount + |td.matchedText|;
    if block.blockType == Table[td.rule].blockType then None
    else Some(ApplyTransformation(td.rule, markerMatchLength,
                                  sel.isCollapsed && sel.startOffset == markerMatchLength + 1))
  }

  /** `removeExtraBlockMarkersFromBlock`: past the first space for a block of a
      table type, the whole block otherwise. */
  function RemoveExtraBlockMarkers(block: Block, current: Option<nat>): (r: Action)
    ensures r.StripMarkers? && r.from <= r.to == |block.text|
    ensures current.None? ==> r.from == 0
    ensures current.Some? && r.from > 0 ==> block.text[r.from - 1] == ' '
    ensures current.Some? ==>
      forall i :: 0 <= i < |block.text| && (r.from == 0 || i < r.from - 1) ==> block.text[i] != ' '
  {
    IndexOfCharFirst(block.text, ' ');
    if current.Some? then StripMarkers(IndexOf(block.text, " ") + 1, |block.text|)
    else StripMarkers(0, |block.text|)
  }

  /** `stateAfterBlockTransformation` given what the matcher found. */
  function BlockTransformation(block: Block, sel: Selection, target: Option<TransformData>, stored: Option<nat>): (r: Action)
    requires target.Some? ==> target.value.rule < |Table|
    ensures r.ApplyTransformation? <==> target.Some? && block.blockType != Table[target.value.rule].blockType
    ensures r.RemoveTransformation? <==> target.None? && FindByType(block.blockType).Some?
  {
    var current := FindByType(block.blockType);
    var newState :=
      if target.None? && current.Some? then RemoveBlockTransformation(block, current.value, stored)
      else if target.Some? then ApplyBlockTransformation(block, sel, target.value)
      else None;
    if newState.None? then RemoveExtraBlockMarkers(block, current) else newState.value
  }

  /** The decision on a block, with the matcher's answer for its text. */
  function Transformation(block: Block, sel: Selection, stored: Option<nat>): Action
  {
    BlockTransformation(block, sel, FirstMatch(block.text), stored)
  }

  /** A block whose text matches a rule of another type is given that type,
      with exactly the tabs and the marker text marked. */
  lemma ApplyWhenTypeDiffers(block: Block, sel: Selection, stored: Option<nat>)
    ensures var a := Transformation(block, sel, stored);
      a.ApplyTransformation? <==>
        FirstMatch(block.text).Some? && Table[FirstMatch(block.text).value.rule].blockType != block.blockType
    ensures var a := Transformation(block, sel, stored);
      a.ApplyTransformation? ==>
        var td := FirstMatch(block.text).value;
        && a.rule == td.rule
        && a.markerEnd == MarkerLength(td) < |block.text|
        && block.text[..a.markerEnd] == Repeat('\t', td.indentationCount) + td.matchedText
        && (a.clearMarkAtCursor <==> sel.isCollapsed && sel.startOffset == a.markerEnd + 1)
  {
    if FirstMatch(block.text).Some? {
      MarkerFollowedBySpace(block.text);
    }
  }

  /** A block of a table type whose text no longer matches any rule is turned
      back, and the removal reads the indentation stored in that rule's entry. */
  lemma RemoveWhenNothingMatches(block: Block, sel: Selection, stored: Option<nat>)
    ensures var a := Transformation(block, sel, stored);
      a.RemoveTransformation? <==>
        FirstMatch(block.text).None? && block.blockType != Paragraph && block.blockType != Divider
    ensures var a := Transformation(block, sel, stored);
      a.RemoveTransformation? ==> Table[a.rule].blockType == block.blockType && a.storedIndentation == stored
  {
  }

  /** A block that already has the type its text calls for only loses stray
      marker marks after its first space, so its own marker stays marked. */
  lemma StripSparesMarker(block: Block, sel: Selection, stored: Option<nat>)
    requires FirstMatch(block.text).Some?
    requires Table[FirstMatch(block.text).value.rule].blockType == block.blockType
    ensures Transformation(block, sel, stored) ==
      StripMarkers(MarkerLength(FirstMatch(block.text).value) + 1, |block.text|)
  {
    MarkerFollowedBySpace(block.text);
  }

  /** A block of no table type whose text matches nothing has marker marks
      stripped from all of it. */
  lemma StripWholePlainBlock(block: Block, sel: Selection, stored: Option<nat>)
    requires block.blockType == Paragraph || block.blockType == Divider
    ensures FirstMatch(block.text).None? ==> Transformation(block, sel, stored) == StripMarkers(0, |block.text|)
    ensures FirstMatch(block.text).Some? ==> Transformation(block, sel, stored).ApplyTransformation?
  {
    if FirstMatch(block.text).Some? {
      var r := FirstMatch(block.text).value.rule;
      assert Table[r].blockType != Paragraph && Table[r].blockType != Divider;
    }
  }

  /** The inner loop of `transformDataForBlock`: tries a rule's texts in order. */
  method MatchTexts(matchTexts: seq<string>, textToMatch: string) returns (matchedText: Option<string>)
    ensures matchedText == MatchTextsFrom(matchTexts, textToMatch, 0)
  {
    matchedText := None;
    var j := 0;
    while j < |matchTexts|
      invariant 0 <= j <= |matchTexts|
      invariant matchedText.None? ==> MatchTextsFrom(matchTexts, textToMatch, j) == MatchTextsFrom(matchTexts, textToMatch, 0)
      invariant matchedText.Some? ==> matchedText == MatchTextsFrom(matchTexts, textToMatch, 0)
    {
      if matchedText.None? {
        var matchText := matchTexts[j];
        if matchText == NumberedListText {
          var dotIndex := IndexOf(textToMatch, ". ");
          var listNumberString := Substring(textToMatch, 0, dotIndex);
          if dotIndex > 0 && IsInt(listNumberString) {
            matchedText := Some(Substring(textToMatch, 0, dotIndex + 1));
          }
        } else if IndexOf(textToMatch, matchText + " ") == 0 {
          matchedText := Some(matchText);
        }
      }
      j := j + 1;
    }
  }

  // ---------------------------------------------------------------------------
  // The plugin object and its rule table, updated in place
  // ---------------------------------------------------------------------------

  /** A table entry: the rule, and the two fields the matcher writes into it. */
  datatype Entry = Entry(rule: Rule, matchedText: Option<string>, indentationCount: Option<nat>)

  /** The entries after a match has been written into its row. */
  function Recorded(entries: seq<Entry>, r: Option<TransformData>): seq<Entry>
    requires r.Some? ==> r.value.rule < |entries|
  {
    if r.None? then entries
    else entries[r.value.rule := entries[r.value.rule].(matchedText := Some(r.value.matchedText),
                                                        indentationCount := Some(r.value.indentationCount))]
  }

  /** The indentation stored in the entry for a block type, if it has one. */
  function StoredIndentation(entries: seq<Entry>, t: BlockType): Option<nat>
    requires |entries| == |Table|
  {
    var current := FindByType(t);
    if current.Some? then entries[current.value].indentationCount else None
  }

  class MarkdownBlocksPlugin {
    var blockTransformData: seq<Entry>

    /** The table keeps its rules; only the written fields change. */
    ghost predicate Valid()
      reads this
    {
      && |blockTransformData| == |Table|
      && forall k :: 0 <= k < |Table| ==> blockTransformData[k].rule == Table[k]
    }

    constructor ()
      ensures Valid()
      ensures forall k :: 0 <= k < |Table| ==>
        blockTransformData[k].matchedText.None? && blockTransformData[k].indentationCount.None?
    {
      blockTransformData := seq(|Table|, k requires 0 <= k < |Table| => Entry(Table[k], None, None));
    }

    /** `transformDataForBlock`: tries the rules in order and writes the match
        into the row that matched. */
    method TransformDataForBlock(blockText: string) returns (r: Option<TransformData>)
      requires Valid()
      modifies this
      ensures Valid()
      ensures r == FirstMatch(blockText)
      ensures blockTransformData == Recorded(old(blockTransformData), r)
    {
      var transformData: Option<nat> := None;
      var i := 0;
      while i < |blockTransformData|
        invariant Valid()
        invariant 0 <= i <= |Table|
        invariant transformData.None? ==>
          FirstMatchFrom(blockText, i) == FirstMatch(blockText) && blockTransformData == old(blockTransformData)
        invariant transformData.Some? ==>
          && FirstMatch(blockText).Some?
          && transformData.value == FirstMatch(blockText).value.rule < i
          && blockTransformData == Recorded(old(blockTransformData), FirstMatch(blockText))
      {
        if transformData.None? {
          var matchData := blockTransformData[i];
          var textToMatch := blockText;
          var isListBlock := matchData.rule.listBlockType.Some?;
          var listBlockIndentation := 0;
          if isListBlock {
            listBlockIndentation := GetIndentationCountForText(blockText);
            textToMatch := Substring(blockText, listBlockIndentation, |blockText|);
          }
          var matchedText := MatchTexts(matchData.rule.texts, textToMatch);
          if matchedText.Some? {
            transformData := Some(i);
            blockTransformData := blockTransformData[i := blockTransformData[i].(
              matchedText := matchedText, indentationCount := Some(listBlockIndentation))];
          }
        }
        i := i + 1;
      }
      if transformData.Some? {
        var entry := blockTransformData[transformData.value];
        r := Some(TransformData(transformData.value, entry.matchedText.value, entry.indentationCount.value));
      } else {
        r := None;
      }
    }

    /** `stateAfterBlockTransformation`: matches the block's text, then asks
        for a removal, an application or a clean-up of stray marker marks. */
    method StateAfterBlockTransformation(block: Block, sel: Selection) returns (a: Action)
      requires Valid()
      modifies this
      ensures Valid()
      ensures blockTransformData == Recorded(old(blockTransformData), FirstMatch(block.text))
      ensures a == Transformation(block, sel, StoredIndentation(blockTransformData, block.blockType))
    {
      var targetData := TransformDataForBlock(block.text);
      var stored := StoredIndentation(blockTransformData, block.blockType);
      a := BlockTransformation(block, sel, targetData, stored);
    }
  }

  // ---------------------------------------------------------------------------
  // Enter, Backspace and Tab inside list items
  // ---------------------------------------------------------------------------

  /** The container of a list item. */
  function ListBlockTypeOf(t: BlockType): ListType
    requires IsListItem(t)
  {
    if t == ListItemBullet then BulletList else NumberedList
  }

  /** The container is the one the item type's table row names. */
  lemma ListBlockTypeFromTable(t: BlockType)
    requires IsListItem(t)
    ensures FindByType(t).Some? && Table[FindByType(t).value].listBlockType == Some(ListBlockTypeOf(t))
  {
    var k := FindByType(t).value;
    assert k == BulletRule || k == NumberedRule by {
      assert forall j :: 0 <= j < BulletRule ==> Table[j].blockType != t;
    }
  }

  /** What Enter does in a list item. */
  datatype ContinueOutcome =
      /** The cursor sits right after the marker's space: select `[0, markerEnd)`,
          unwrap the list, make a paragraph, delete the selection and split. */
    | ExitList(listType: ListType, markerEnd: nat)
      /** Split the block and type `newText`, the marker of the next item. */
    | SplitAndInsert(newText: string)

  /** `Number.parseInt(numberStr, 10) + 1`, NaN staying NaN. */
  function NextNumber(numberStr: string): (r: Option<nat>)
    ensures r.None? <==> |numberStr| == 0 || !IsDigit(numberStr[0])
    ensures r.Some? ==> r.value >= 1
  {
    match ParseInt(numberStr)
    case None => None
    case Some(v) => Some(v + 1)
  }

  /** `stateAfterContinueListItem`: nothing unless the block is a list item and
      the cursor is past the first space. */
  function ContinueListItem(block: Block, sel: Selection): Option<ContinueOutcome>
  {
    if !IsListItem(block.blockType) then None
    else
      var blockText := block.text;
      var indexAfterSpace := IndexOf(blockText, " ") + 1;
      if sel.startOffset < indexAfterSpace then None
      else if sel.isCollapsed && sel.startOffset == indexAfterSpace then
        Some(ExitList(ListBlockTypeOf(block.blockType), indexAfterSpace))
      else Some(SplitAndInsert(NextItemText(blockText, indexAfterSpace)))
  }

  /** The marker the next item starts with: the same tabs and the next number
      after a marker ending in `.`, else everything up to the first space. */
  function NextItemText(blockText: string, indexAfterSpace: int): string
  {
    var indentationCount := LeadingTabs(blockText);
    var markerText := Substring(blockText, indentationCount, indexAfterSpace - 1);
    var isNumberList := Slice(markerText, -1, |markerText|) == ".";
    if isNumberList then
      Substring(blockText, 0, indentationCount) + NumberText(NextNumber(Slice(markerText, 0, -1))) + ". "
    else Substring(blockText, 0, indexAfterSpace)
  }

  /** Enter acts only in a list item with the cursor at or past the end of
      its first space; a bare cursor right there leaves the list, with the
      list container of the item's type. */
  lemma ContinueListItemCases(block: Block, sel: Selection)
    ensures ContinueListItem(block, sel).Some? <==>
      IsListItem(block.blockType) && sel.startOffset >= IndexOf(block.text, " ") + 1
    ensures ContinueListItem(block, sel).Some? && ContinueListItem(block, sel).value.ExitList? <==>
      IsListItem(block.blockType) && sel.isCollapsed && sel.startOffset == IndexOf(block.text, " ") + 1
    ensures ContinueListItem(block, sel).Some? && ContinueListItem(block, sel).value.ExitList? ==>
      ContinueListItem(block, sel).value == ExitList(ListBlockTypeOf(block.blockType), IndexOf(block.text, " ") + 1)
  {
  }

  /** Past the first space, and not a bare cursor right after it, Enter in a
      list item continues the list with the next item's marker. */
  lemma ContinueSplits(block: Block, sel: Selection)
    requires IsListItem(block.blockType)
    requires sel.startOffset > IndexOf(block.text, " ") + 1 ||
      (sel.startOffset == IndexOf(block.text, " ") + 1 && !sel.isCollapsed)
    ensures ContinueListItem(block, sel) == Some(SplitAndInsert(NextItemText(block.text, IndexOf(block.text, " ") + 1)))
  {
  }

  /** For a list item whose text matches its rule, the cursor decides: up to
      the end of the marker Enter is left to block splitting, a bare cursor
      right after the marker's space leaves the list, anything further on
      continues it. */
  lemma ContinueByCursor(block: Block, sel: Selection, td: TransformData)
    requires IsListItem(block.blockType) && FirstMatch(block.text) == Some(td)
    ensures ContinueListItem(block, sel).None? <==> sel.startOffset <= MarkerLength(td)
    ensures ContinueListItem(block, sel) == Some(ExitList(ListBlockTypeOf(block.blockType), MarkerLength(td) + 1))
      <==> sel.isCollapsed && sel.startOffset == MarkerLength(td) + 1
  {
    FirstSpaceAfterMarker(block.text);
  }

  /** The first space of a matching text is the one right after its marker. */
  lemma FirstSpaceAfterMarker(text: string)
    requires FirstMatch(text).Some?
    ensures IndexOf(text, " ") == MarkerLength(FirstMatch(text).value)
  {
    MarkerFollowedBySpace(text);
  }

  /** The first space of a bullet item is the one after its bullet, and the
      next item's text is everything up to and including that space: the
      same tabs, bullet and space. */
  lemma BulletNextText(text: string)
    requires BulletPrefix(text)
    ensures IndexOf(text, " ") + 1 == LeadingTabs(text) + 2
    ensures NextItemText(text, IndexOf(text, " ") + 1) == text[..LeadingTabs(text) + 2]
  {
    var n := LeadingTabs(text);
    BulletMarkerThenSpace(text);
    var markerText := Substring(text, n, n + 1);
    assert markerText == [text[n]];
  }

  /** Enter past the marker of a bullet item (not a bare cursor right after
      its space) splits the item and starts the new one with the text
      `BulletNextText` describes. */
  lemma ContinueBulletItem(block: Block, sel: Selection)
    requires IsListItem(block.blockType) && BulletPrefix(block.text)
    requires sel.startOffset > LeadingTabs(block.text) + 2 ||
      (sel.startOffset == LeadingTabs(block.text) + 2 && !sel.isCollapsed)
    ensures ContinueListItem(block, sel) == Some(SplitAndInsert(NextItemText(block.text, IndexOf(block.text, " ") + 1)))
  {
    BulletNextText(block.text);
    ContinueSplits(block, sel);
  }

  /** The new item after the split (the tabs, bullet and space, then whatever
      followed the cursor) is classified as the whole item is. */
  lemma BulletContinuationClassified(text: string, rest: string)
    requires BulletPrefix(text)
    ensures FirstMatch(text[..LeadingTabs(text) + 2] + rest) == FirstMatch(text)
  {
    var n := LeadingTabs(text);
    var newText := text[..n + 2] + rest;
    assert newText[n] == text[n] && newText[n + 1] == ' ';
    LeadingTabsUnique(newText, n);
    BulletClassification(text);
    BulletClassification(newText);
  }

  /** `. ` right after a run of digits is found right there. */
  lemma IndexOfAfterDigits(digits: string, rest: string)
    requires AllDigits(digits)
    ensures IndexOf(digits + ". " + rest, ". ") == |digits|
  {
    var s := digits + ". " + rest;
    assert OccursAt(s, ". ", |digits|) by {
      assert s[|digits|..|digits| + 2] == ". ";
    }
    forall k | 0 <= k < |digits| ensures !OccursAt(s, ". ", k) {
      assert s[k..k + 2][0] == s[k] == digits[k];
    }
  }

  /** A marker of digits and a dot ends in `.`, and dropping that `.` leaves
      the digits. */
  lemma NumberMarkerSlices(digits: string)
    ensures Slice(digits + ".", -1, |digits| + 1) == "."
    ensures Slice(digits + ".", 0, -1) == digits
  {
    var markerText := digits + ".";
    assert markerText[|digits|..|digits| + 1] == ".";
    assert markerText[0..|digits|] == digits;
  }

  /** `parseInt` reads a digit string in full, so the next number is its
      value plus one. */
  lemma NextNumberOfDigits(digits: string)
    requires |digits| > 0 && AllDigits(digits)
    ensures NextNumber(digits) == Some(DigitsValue(digits) + 1)
  {
    ParseIntDigits(digits);
  }

  /** The next number of a digit string, as text, is the decimal form of its
      value plus one. */
  lemma NextNumberTextOfDigits(digits: string)
    requires IsInt(digits)
    ensures NumberText(NextNumber(digits)) == Decimal(DigitsValue(digits) + 1)
  {
    NextNumberOfDigits(digits);
  }

  /** A marker of digits and a dot continues with the same tabs and the next
      number. */
  lemma NextItemTextOfNumber(blockText: string, indexAfterSpace: int, digits: string)
    requires Substring(blockText, LeadingTabs(blockText), indexAfterSpace - 1) == digits + "."
    ensures NextItemText(blockText, indexAfterSpace) ==
      Repeat('\t', LeadingTabs(blockText)) + NumberText(NextNumber(digits)) + ". "
  {
    assert Substring(blockText, 0, LeadingTabs(blockText)) == Repeat('\t', LeadingTabs(blockText));
    NumberMarkerSlices(digits);
  }

  /** The pieces of a numbered item's text that its continuation copies:
      the first space is the one after the marker, and the text between the
      tabs and that space is the digits and the dot. */
  lemma NumberedMarkerPieces(text: string)
    requires NumberedPrefix(text)
    ensures IndexOf(text, " ") + 1 == LeadingTabs(text) + |NumberedDigits(text)| + 2
    ensures Substring(text, LeadingTabs(text), IndexOf(text, " ") + 1 - 1) == NumberedDigits(text) + "."
  {
    var n := LeadingTabs(text);
    var digits := NumberedDigits(text);
    var d := |digits|;
    NumberedMarkerThenSpace(text);
    assert text[..n + d + 1][n..] == text[n..n + d + 1];
  }

  /** The next marker of a numbered item, read off its text: its tabs, the
      number `parseInt` reads from its digits plus one, and `. `. */
  lemma NumberedNextItemText(text: string)
    requires NumberedPrefix(text)
    ensures NextItemText(text, IndexOf(text, " ") + 1) ==
      Repeat('\t', LeadingTabs(text)) + NumberText(NextNumber(NumberedDigits(text))) + ". "
  {
    NumberedMarkerPieces(text);
    NextItemTextOfNumber(text, IndexOf(text, " ") + 1, NumberedDigits(text));
  }

  /** The number after a numbered item's digits, as text. */
  lemma NumberedNextNumberText(text: string)
    requires NumberedPrefix(text)
    ensures NumberText(NextNumber(NumberedDigits(text))) == Decimal(DigitsValue(NumberedDigits(text)) + 1)
  {
    NextNumberTextOfDigits(NumberedDigits(text));
  }

  /** The first space of a numbered item is the one after its dot, and the
      next item's text is its tabs, its number plus one, and `. `. */
  lemma NumberedNextText(text: string)
    requires NumberedPrefix(text)
    ensures IndexOf(text, " ") + 1 == LeadingTabs(text) + |NumberedDigits(text)| + 2
    ensures NextItemText(text, IndexOf(text, " ") + 1) ==
      Repeat('\t', LeadingTabs(text)) + Decimal(DigitsValue(NumberedDigits(text)) + 1) + ". "
  {
    NumberedMarkerPieces(text);
    NumberedNextItemText(text);
    NumberedNextNumberText(text);
  }

  /** Tabs, a number and `. `, then whatever followed the cursor, are a
      numbered item at that depth exactly when the number is below 2^31. */
  lemma NumberedTextClassified(n: nat, v: nat, rest: string)
    ensures FirstMatch(Repeat('\t', n) + Decimal(v) + ". " + rest) == Some(TransformData(NumberedRule, Decimal(v) + ".", n))
      <==> v < Int32Limit
  {
    var dec := Decimal(v);
    var newText := Repeat('\t', n) + dec + ". " + rest;
    assert newText[n] == dec[0];
    LeadingTabsUnique(newText, n);
    assert newText[n..] == dec + ". " + rest;
    IndexOfAfterDigits(dec, rest);
    assert newText[n..][..|dec|] == dec;
    NumberedClassification(newText);
  }

  /** Enter past the marker of a numbered item (not a bare cursor right
      after its space) splits the item and starts the new one with the text
      `NumberedNextText` describes. */
  lemma ContinueNumberedItem(block: Block, sel: Selection)
    requires IsListItem(block.blockType) && NumberedPrefix(block.text)
    requires sel.startOffset > LeadingTabs(block.text) + |NumberedDigits(block.text)| + 2 ||
      (sel.startOffset == LeadingTabs(block.text) + |NumberedDigits(block.text)| + 2 && !sel.isCollapsed)
    ensures ContinueListItem(block, sel) == Some(SplitAndInsert(NextItemText(block.text, IndexOf(block.text, " ") + 1)))
  {
    NumberedMarkerPieces(block.text);
    ContinueSplits(block, sel);
  }

  /** What Backspace right after a list marker does. */
  datatype DeletionOutcome =
      /** Delete the first character, a tab, and move the cursor back one. */
    | DeleteIndentation
      /** Empty the block, unwrap its list and make it a paragraph. */
    | RemoveListItem(listType: ListType)

  /** `stateAfterListIndentationDeletion`. */
  function ListIndentationDeletion(block: Block, sel: Selection): (r: Option<DeletionOutcome>)
    ensures r == Some(DeleteIndentation) ==>
      && IsListItem(block.blockType) && sel.isCollapsed
      && sel.startOffset == IndexOf(block.text, " ") + 1
      && |block.text| > 0 && block.text[0] == '\t'
    ensures r.Some? && r.value.RemoveListItem? ==>
      && IsListItem(block.blockType) && sel.isCollapsed
      && LeadingTabs(block.text) == 0
      && sel.startOffset == |block.text|
      && (|block.text| == 0 || (block.text[|block.text| - 1] == ' ' && IndexOf(block.text, " ") == |block.text| - 1))
      && r.value.listType == ListBlockTypeOf(block.blockType)
  {
    if !IsListItem(block.blockType) then None
    else if !sel.isCollapsed then None
    else
      var firstSpaceIndex := IndexOf(block.text, " ");
      if sel.startOffset != firstSpaceIndex + 1 then None
      else
        var indentation := LeadingTabs(block.text);
        if indentation > 0 then Some(DeleteIndentation)
        else if indentation == 0 && |block.text| == sel.startOffset then
          assert firstSpaceIndex >= 0 ==> block.text[firstSpaceIndex..firstSpaceIndex + 1][0] == block.text[firstSpaceIndex];
          Some(RemoveListItem(ListBlockTypeOf(block.blockType)))
        else None
  }

  /** Backspace with a bare cursor right after the marker of a list item: with
      tabs in front, one tab goes, the item stays the same item one level up
      and the cursor stays right after its marker; without tabs, the item is
      removed exactly when nothing follows the marker. */
  lemma BackspaceOutdents(block: Block, sel: Selection)
    requires IsListItem(block.blockType) && ListMatch(block.text)
    requires sel.isCollapsed && sel.startOffset == MarkerLength(FirstMatch(block.text).value) + 1
    ensures var td := FirstMatch(block.text).value;
      LeadingTabs(block.text) > 0 ==>
        && ListIndentationDeletion(block, sel) == Some(DeleteIndentation)
        && FirstMatch(block.text[1..]) == Some(td.(indentationCount := td.indentationCount - 1))
        && MarkerLength(FirstMatch(block.text[1..]).value) + 1 == sel.startOffset - 1
    ensures LeadingTabs(block.text) == 0 ==>
      ((ListIndentationDeletion(block, sel) == Some(RemoveListItem(ListBlockTypeOf(block.blockType))))
        <==> |block.text| == sel.startOffset)
  {
    var text := block.text;
    MarkerFollowedBySpace(text);
    if LeadingTabs(text) > 0 {
      assert "\t" + text[1..] == text;
      IndentKeepsListMatch(text[1..]);
    }
  }

  /** `stateAfterListItemAddIndentation`: in a list item, Tab inserts a tab at
      the start of the block and moves the selection forward one; any other
      block is left to the next plugin. */
  function ListItemAddIndentation(block: Block, sel: Selection): (r: Option<(Block, Selection)>)
    ensures r.Some? <==> IsListItem(block.blockType)
    ensures r.Some? ==>
      && r.value.0.blockType == block.blockType
      && |r.value.0.text| == |block.text| + 1
      && r.value.0.text[0] == '\t' && r.value.0.text[1..] == block.text
      && LeadingTabs(r.value.0.text) == LeadingTabs(block.text) + 1
      && r.value.1 == Selection(sel.startOffset + 1, sel.isCollapsed)
  {
    if !IsListItem(block.blockType) then None
    else
      var text := "\t" + block.text;
      LeadingTabsOfIndented(block.text);
      assert text[1..] == block.text;
      Some((Block(block.blockType, text), Selection(sel.startOffset + 1, sel.isCollapsed)))
  }

  /** Tab in a list item whose text matches its own rule: the indented item
      keeps its rule one level deeper, and a transformation pass run on it
      changes nothing but stray marks past its (one longer) marker. */
  lemma TabIndentsListItem(block: Block, sel: Selection, stored: Option<nat>, td: TransformData)
    requires FirstMatch(block.text) == Some(td) && td.rule >= BulletRule
    requires Table[td.rule].blockType == block.blockType
    ensures ListItemAddIndentation(block, sel).Some?
    ensures FirstMatch(ListItemAddIndentation(block, sel).value.0.text) == Some(td.(indentationCount := td.indentationCount + 1))
    ensures Transformation(ListItemAddIndentation(block, sel).value.0, ListItemAddIndentation(block, sel).value.1, stored) ==
      StripMarkers(MarkerLength(td) + 2, |block.text| + 1)
  {
    IndentKeepsListMatch(block.text);
    assert Table[td.rule].blockType == ListItemBullet || Table[td.rule].blockType == ListItemNumber;
    var indented := Block(block.blockType, "\t" + block.text);
    StripSparesMarker(indented, Selection(sel.startOffset + 1, sel.isCollapsed), stored);
  }

  // ---------------------------------------------------------------------------
  // Enter (`onKeyDownEnter`)
  // ---------------------------------------------------------------------------

  datatype EnterOutcome =
      /** Turn the block into a divider and start a paragraph after it. */
    | CreateDivider
    | ContinueItem(outcome: ContinueOutcome)
      /** Left to `handleBlockSplitting`, which splits through the framework. */
    | SplitBlock

  /** `onKeyDownEnter`: a divider when the text left of the cursor is `---`,
      else a list continuation, else block splitting. */
  function OnKeyDownEnter(block: Block, sel: Selection): (r: EnterOutcome)
    ensures r == CreateDivider <==> "---" <= block.text && Clamp(sel.startOffset, |block.text|) == 3
    ensures r.ContinueItem? ==> Some(r.outcome) == ContinueListItem(block, sel)
    ensures r == SplitBlock ==> ContinueListItem(block, sel).None?
  {
    assert Substring(block.text, 0, sel.startOffset) == block.text[..Clamp(sel.startOffset, |block.text|)];
    if Substring(block.text, 0, sel.startOffset) == "---" then CreateDivider
    else
      match ContinueListItem(block, sel)
      case Some(c) => ContinueItem(c)
      case None => SplitBlock
  }

  /** A two-tab bullet item is matched by the bullet rule with two tabs. */
  lemma DeepBulletMatches()
    ensures FirstMatch("\t\t- a") == Some(TransformData(BulletRule, "-", 2))
  {
    var deep := "\t\t- a";
    LeadingTabsUnique(deep, 2);
    BulletClassification(deep);
  }

  /** `-b` matches no rule: the bullet is not followed by a space. */
  lemma FlatBulletMatchesNothing()
    ensures FirstMatch("-b").None? && LeadingTabs("-b") == 0
  {
    var flat := "-b";
    LeadingTabsUnique(flat, 0);
    assert flat[0] != '#';
    forall k | 1 <= k <= 5 ensures !HeadingPrefix(flat, k) {
      assert (Repeat('#', k) + " ")[0] == '#';
    }
    assert flat[0..] == flat;
    assert !OccursAt(flat, ". ", 0);
    NoMatchClassification(flat);
  }

  /** The bullet item type has the bullet rule's row. */
  lemma BulletRow()
    ensures FindByType(ListItemBullet) == Some(BulletRule)
  {
    assert Table[BulletRule].blockType == ListItemBullet;
    assert forall j :: 0 <= j < BulletRule ==> Table[j].blockType != ListItemBullet;
  }

  /** The two decisions of the scenario below, on the functions. */
  lemma StaleIndentationDecisions()
    ensures Transformation(Block(Paragraph, "\t\t- a"), Selection(5, true), None) == ApplyTransformation(BulletRule, 3, false)
    ensures Transformation(Block(ListItemBullet, "-b"), Selection(1, true), Some(2)) == RemoveTransformation(BulletRule, Some(2))
  {
    DeepBulletMatches();
    FlatBulletMatchesNothing();
    BulletRow();
  }

  /** The hazard of the shared table: once a bullet with two tabs has been
      matched, a bullet with no tabs that loses its marker is removed with the
      stored count 2 rather than its own 0. */
  method StaleIndentationScenario() returns (first: Action, second: Action)
    ensures first == ApplyTransformation(BulletRule, 3, false)
    ensures second == RemoveTransformation(BulletRule, Some(2)) && LeadingTabs("-b") != 2
  {
    var plugin := new MarkdownBlocksPlugin();
    DeepBulletMatches();
    BulletRow();
    StaleIndentationDecisions();
    first := plugin.StateAfterBlockTransformation(Block(Paragraph, "\t\t- a"), Selection(5, true));
    assert StoredIndentation(plugin.blockTransformData, ListItemBullet) == Some(2);
    FlatBulletMatchesNothing();
    second := plugin.StateAfterBlockTransformation(Block(ListItemBullet, "-b"), Selection(1, true));
    assert LeadingTabs("-b") == 0;
  }
}
