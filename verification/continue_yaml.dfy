/** The Continue `config.yaml` merger: the `models:` section, the Routerly entry, the merge. */
module ContinueYaml {
  import opened ClientTarget
  import opened Text

  const MODELS_KEY := "models:"
  const MODEL_MARKER := "model: routerly/ada"
  const API_BASE_KEY := "apiBase:"
  const NEW_INDENT := "  "
  const DEFAULT_HEADER := ["name: Routerly", "version: 0.0.1", "schema: v1"]

  // ----- how a line is classified

  /** `/^models:\s*$/` */
  predicate IsModelsKey(line: string) {
    MODELS_KEY <= line && AllSpace(line[|MODELS_KEY|..])
  }

  /** `/^\S/`: the next top-level key. */
  predicate IsUnindented(line: string) {
    line != "" && !IsSpace(line[0])
  }

  /** `/^(\s*)-\s/` */
  predicate IsItemStart(line: string) {
    var n := SpaceRun(line, true);
    n + 1 < |line| && line[n] == '-' && IsSpace(line[n + 1])
  }

  /** The group that `IsItemStart` captures. */
  function ItemIndent(line: string): string {
    line[..SpaceRun(line, true)]
  }

  /** A line that belongs to the item above it. */
  predicate IsContinuation(line: string) {
    !IsBlank(line) && !IsUnindented(line) && !IsItemStart(line)
  }

  predicate Contains(line: string, text: string) {
    text <= line || (line != "" && Contains(line[1..], text))
  }

  predicate IsRouterlyBlock(item: seq<string>) {
    exists k :: 0 <= k < |item| && Contains(item[k], MODEL_MARKER)
  }

  // ----- the section

  type Item = seq<string>

  datatype Section = Section(header: seq<string>, hasKey: bool, items: seq<Item>, trailing: seq<string>, indent: string)

  /** `raw.length ? raw.split('\n') : []` */
  function FileLines(raw: string): seq<string> {
    if raw == "" then [] else Lines(raw)
  }

  /** Adds a line to the last item; a line before the first item belongs to none. */
  function Continued(items: seq<Item>, line: string): seq<Item> {
    if items == [] then [] else items[|items| - 1 := Last(items) + [line]]
  }

  /** Items gathered from the lines after the key, and the lines from the next top-level key on. */
  function ScanItems(lines: seq<string>, items: seq<Item>): (seq<Item>, seq<string>)
    decreases |lines|
  {
    if lines == [] then (items, [])
    else if IsBlank(lines[0]) then ScanItems(lines[1..], items)
    else if IsUnindented(lines[0]) then (items, lines)
    else if IsItemStart(lines[0]) then ScanItems(lines[1..], items + [[lines[0]]])
    else ScanItems(lines[1..], Continued(items, lines[0]))
  }

  function IndentOf(items: seq<Item>): string {
    if items != [] && items[0] != [] && IsItemStart(items[0][0]) then ItemIndent(items[0][0]) else NEW_INDENT
  }

  /** Splits a list of lines at the first `models:` key, if there is one. */
  function ParseLines(above: seq<string>, lines: seq<string>): Section
    decreases |lines|
  {
    if lines == [] then Section(above, false, [], [], NEW_INDENT)
    else if IsModelsKey(lines[0]) then
      var (items, trailing) := ScanItems(lines[1..], []);
      Section(above + [lines[0]], true, items, trailing, IndentOf(items))
    else ParseLines(above + [lines[0]], lines[1..])
  }

  function Parse(raw: string): Section {
    ParseLines([], FileLines(raw))
  }

  /** The parser as written: find the key, then one pass over the lines after it. */
  method ParseModelsSection(raw: string) returns (section: Section)
    ensures section == Parse(raw)
  {
    var lines := FileLines(raw);
    var modelsIdx := 0;
    while modelsIdx < |lines| && !IsModelsKey(lines[modelsIdx])
      invariant modelsIdx <= |lines|
      invariant ParseLines(lines[..modelsIdx], lines[modelsIdx..]) == ParseLines([], lines)
    {
      assert lines[modelsIdx..][1..] == lines[modelsIdx + 1..];
      assert lines[..modelsIdx + 1] == lines[..modelsIdx] + [lines[modelsIdx]];
      modelsIdx := modelsIdx + 1;
    }
    if modelsIdx == |lines| {
      assert lines[..modelsIdx] == lines;
      return Section(lines, false, [], [], NEW_INDENT);
    }
    assert lines[modelsIdx..][1..] == lines[modelsIdx + 1..];
    assert lines[..modelsIdx + 1] == lines[..modelsIdx] + [lines[modelsIdx]];
    var items, trailing := GatherItems(lines[modelsIdx + 1..]);
    return Section(lines[..modelsIdx + 1], true, items, trailing, IndentOf(items));
  }

  /** The loop over `i`, `current` and `itemBlocks`. */
  method GatherItems(lines: seq<string>) returns (items: seq<Item>, trailing: seq<string>)
    ensures (items, trailing) == ScanItems(lines, [])
  {
    items := [];
    var i := 0;
    while i < |lines|
      invariant i <= |lines| && ScanItems(lines[i..], items) == ScanItems(lines, [])
    {
      var line := lines[i];
      assert lines[i..][0] == line && lines[i..][1..] == lines[i + 1..];
      if !IsBlank(line) {
        if IsUnindented(line) {
          break;
        }
        if IsItemStart(line) {
          items := items + [[line]];
        } else if items != [] {
          items := items[|items| - 1 := Last(items) + [line]];
        }
      }
      i := i + 1;
    }
    trailing := lines[i..];
  }

  // ----- the merge

  function BuildBlock(indent: string, target: Target): Item {
    var more := indent + "  ";
    [ indent + "- name: Routerly (auto-routed)",
      more + "provider: openai",
      more + MODEL_MARKER,
      more + (API_BASE_KEY + (" " + ToBaseUrl(target.baseUrl))),
      more + ("apiKey: " + target.token) ]
  }

  /** Index of the first Routerly item, or the number of items. */
  function RouterlyIndex(items: seq<Item>): (k: nat)
    ensures k <= |items|
    ensures forall i | 0 <= i < k :: !IsRouterlyBlock(items[i])
    ensures k < |items| ==> IsRouterlyBlock(items[k])
  {
    if items == [] || IsRouterlyBlock(items[0]) then 0 else 1 + RouterlyIndex(items[1..])
  }

  /** The items before ours, ours, and the items after it. */
  function PlacedItems(items: seq<Item>, block: Item): seq<Item> {
    var k := RouterlyIndex(items);
    items[..k] + [block] + if k < |items| then items[k + 1..] else []
  }

  function TopLines(header: seq<string>): seq<string> {
    (if header == [] then DEFAULT_HEADER else DropTrailingBlank(header)) + ["", MODELS_KEY]
  }

  function MergedLines(section: Section, target: Target): seq<string> {
    var block := BuildBlock(section.indent, target);
    if !section.hasKey then TopLines(section.header) + block
    else
      var trailing := DropTrailingBlank(section.trailing);
      DropTrailingBlank(section.header + Flatten(PlacedItems(section.items, block)) + trailing)
  }

  function MergedYaml(raw: string, target: Target): string {
    Unlines(MergedLines(Parse(raw), target)) + "\n"
  }

  method MergeYaml(raw: string, target: Target) returns (merged: string)
    ensures merged == MergedYaml(raw, target)
  {
    var section := ParseModelsSection(raw);
    var block := BuildBlock(section.indent, target);
    if !section.hasKey {
      var header := DEFAULT_HEADER;
      if |section.header| > 0 {
        header := PopTrailingBlank(section.header);
      }
      return Unlines(header + ["", MODELS_KEY] + block) + "\n";
    }
    var ourIdx := 0;
    while ourIdx < |section.items| && !IsRouterlyBlock(section.items[ourIdx])
      invariant ourIdx <= |section.items|
      invariant forall i | 0 <= i < ourIdx :: !IsRouterlyBlock(section.items[i])
    {
      ourIdx := ourIdx + 1;
    }
    var items := section.items;
    if ourIdx == |items| {
      items := items + [block];
    } else {
      items := items[ourIdx := block];
    }
    assert RouterlyIndex(section.items) == ourIdx;
    assert items == PlacedItems(section.items, block);
    var trailing := PopTrailingBlank(section.trailing);
    var lines := PopTrailingBlank(section.header + Flatten(items) + trailing);
    return Unlines(lines) + "\n";
  }

  // ----- well-formed sections

  /** One item as the scan gathers it: a start line and continuation lines. */
  ghost predicate IsItem(item: Item) {
    && item != [] && !IsBlank(item[0]) && !IsUnindented(item[0]) && IsItemStart(item[0])
    && forall k | 0 < k < |item| :: IsContinuation(item[k])
  }

  ghost predicate AllItems(items: seq<Item>) {
    forall k | 0 <= k < |items| :: IsItem(items[k])
  }

  /** What follows the items: nothing, or a top-level line first. */
  ghost predicate IsTrailing(lines: seq<string>) {
    lines != [] ==> !IsBlank(lines[0]) && IsUnindented(lines[0])
  }

  lemma {:induction false} ScanGathersItems(lines: seq<string>, items: seq<Item>)
    requires AllItems(items)
    ensures AllItems(ScanItems(lines, items).0) && IsTrailing(ScanItems(lines, items).1)
    decreases |lines|
  {
    hide IsBlank, IsUnindented, IsItemStart;
    if lines != [] && !IsBlank(lines[0]) && !IsUnindented(lines[0]) {
      if IsItemStart(lines[0]) {
        ScanGathersItems(lines[1..], items + [[lines[0]]]);
      } else {
        ContinuedItems(items, lines[0]);
        ScanGathersItems(lines[1..], Continued(items, lines[0]));
      }
    } else if lines != [] && IsBlank(lines[0]) {
      ScanGathersItems(lines[1..], items);
    }
  }

  lemma ContinuedItems(items: seq<Item>, line: string)
    requires AllItems(items) && IsContinuation(line)
    ensures AllItems(Continued(items, line))
  {
    hide IsContinuation, IsBlank, IsUnindented, IsItemStart;
    if items != [] {
      var last := Last(items);
      assert IsItem(last);
      assert IsItem(last + [line]);
    }
  }

  /** Scanning the printed lines of items gathers those items again. */
  lemma {:induction false} ScanOfItem(item: Item, from: nat, lines: seq<string>, items: seq<Item>)
    requires IsItem(item) && 0 < from <= |item|
    ensures ScanItems(item[from..] + lines, items + [item[..from]]) == ScanItems(lines, items + [item])
    decreases |item| - from
  {
    hide IsBlank, IsUnindented, IsItemStart;
    if from == |item| {
      assert item[from..] + lines == lines && item[..from] == item;
    } else {
      var all := item[from..] + lines;
      assert IsContinuation(item[from]);
      assert all[0] == item[from] && all[1..] == item[from + 1..] + lines;
      assert item[..from] + [item[from]] == item[..from + 1];
      assert Continued(items + [item[..from]], item[from]) == items + [item[..from + 1]];
      ScanOfItem(item, from + 1, lines, items);
    }
  }

  lemma {:induction false} ScanOfItems(more: seq<Item>, lines: seq<string>, items: seq<Item>)
    requires AllItems(more)
    ensures ScanItems(Flatten(more) + lines, items) == ScanItems(lines, items + more)
    decreases |more|
  {
    hide IsBlank, IsUnindented, IsItemStart;
    if more == [] {
      assert Flatten(more) + lines == lines && items + more == items;
    } else {
      var item := more[0];
      assert IsItem(item);
      var rest := Flatten(more[1..]) + lines;
      assert Flatten(more) + lines == item + rest;
      assert (item + rest)[0] == item[0] && (item + rest)[1..] == item[1..] + rest;
      assert [item[0]] == item[..1];
      ScanOfItem(item, 1, rest, items);
      ScanOfItems(more[1..], lines, items + [item]);
      assert items + [item] + more[1..] == items + more;
    }
  }

  lemma ScanOfTrailing(trailing: seq<string>, items: seq<Item>)
    requires IsTrailing(trailing)
    ensures ScanItems(trailing + [""], items) == (items, if trailing == [] then [] else trailing + [""])
  {
    assert AllSpace("");
    BlankIsAllSpace("");
    hide IsBlank, IsUnindented, IsItemStart;
    if trailing == [] {
      assert trailing + [""] == [""];
    }
  }

  /** The parser finds the first key whatever was read above it. */
  lemma {:induction false} ParseFinds(above: seq<string>, x: seq<string>, key: string, lines: seq<string>)
    requires IsModelsKey(key) && forall l | l in x :: !IsModelsKey(l)
    ensures ParseLines(above, x + [key] + lines)
         == Section(above + x + [key], true, ScanItems(lines, []).0, ScanItems(lines, []).1,
             IndentOf(ScanItems(lines, []).0))
    decreases |x|
  {
    hide IsModelsKey, ScanItems, IndentOf;
    var all := x + [key] + lines;
    if x == [] {
      assert all[0] == key && all[1..] == lines && above + x == above;
    } else {
      assert !IsModelsKey(x[0]);
      assert all[0] == x[0] && all[1..] == x[1..] + [key] + lines;
      assert above + [x[0]] + x[1..] + [key] == above + x + [key];
      ParseFinds(above + [x[0]], x[1..], key, lines);
    }
  }

  /** What the parser returns: header up to the first key, items, and the rest. */
  ghost predicate IsSection(s: Section) {
    && (forall k | 0 <= k < |s.header| - 1 :: !IsModelsKey(s.header[k]))
    && (s.hasKey ==> s.header != [] && IsModelsKey(Last(s.header)))
    && (!s.hasKey ==> (s.header != [] ==> !IsModelsKey(Last(s.header))) && s.items == [] && s.trailing == [])
    && AllItems(s.items) && IsTrailing(s.trailing) && s.indent == IndentOf(s.items)
  }

  lemma {:induction false} ParseIsSection(above: seq<string>, lines: seq<string>)
    requires forall k | 0 <= k < |above| :: !IsModelsKey(above[k])
    ensures IsSection(ParseLines(above, lines))
    decreases |lines|
  {
    hide IsModelsKey, ScanItems, IndentOf, IsItem;
    if lines == [] {
      assert IndentOf([]) == NEW_INDENT by { EmptyIndent(); }
    } else if IsModelsKey(lines[0]) {
      assert AllItems([]);
      ScanGathersItems(lines[1..], []);
    } else {
      ParseIsSection(above + [lines[0]], lines[1..]);
    }
  }

  lemma EmptyIndent()
    ensures IndentOf([]) == NEW_INDENT
  {
  }

  // ----- lines without breaks

  ghost predicate NoBreaks(lines: seq<string>) {
    forall k | 0 <= k < |lines| :: NoBreak(lines[k])
  }

  ghost predicate NoBreaksIn(items: seq<Item>) {
    forall k | 0 <= k < |items| :: NoBreaks(items[k])
  }

  lemma {:induction false} ScanKeepsNoBreaks(lines: seq<string>, items: seq<Item>)
    requires NoBreaks(lines) && NoBreaksIn(items)
    ensures NoBreaksIn(ScanItems(lines, items).0) && NoBreaks(ScanItems(lines, items).1)
    decreases |lines|
  {
    hide IsBlank, IsUnindented, IsItemStart, NoBreak;
    if lines != [] && !IsBlank(lines[0]) && !IsUnindented(lines[0]) {
      var next := if IsItemStart(lines[0]) then items + [[lines[0]]] else Continued(items, lines[0]);
      assert NoBreaksIn(next);
      ScanKeepsNoBreaks(lines[1..], next);
    } else if lines != [] && IsBlank(lines[0]) {
      ScanKeepsNoBreaks(lines[1..], items);
    }
  }

  lemma {:induction false} ParseKeepsNoBreaks(above: seq<string>, lines: seq<string>)
    requires NoBreaks(above) && NoBreaks(lines)
    ensures var s := ParseLines(above, lines); NoBreaks(s.header) && NoBreaksIn(s.items) && NoBreaks(s.trailing)
    decreases |lines|
  {
    hide IsModelsKey, ScanItems, IndentOf, NoBreak;
    if lines != [] {
      if IsModelsKey(lines[0]) {
        ScanKeepsNoBreaks(lines[1..], []);
      } else {
        ParseKeepsNoBreaks(above + [lines[0]], lines[1..]);
      }
    }
  }

  lemma {:induction false} FlattenHasNoBreaks(items: seq<Item>)
    requires NoBreaksIn(items)
    ensures NoBreaks(Flatten(items))
  {
    hide NoBreak;
    if items != [] {
      FlattenHasNoBreaks(items[1..]);
    }
  }

  /** Everything a merge needs to know about what it parsed. */
  ghost predicate IsFileSection(s: Section) {
    IsSection(s) && NoBreaks(s.header) && NoBreaksIn(s.items) && NoBreaks(s.trailing)
  }

  lemma ParseIsFileSection(raw: string)
    ensures IsFileSection(Parse(raw))
  {
    ParseIsSection([], FileLines(raw));
    LinesHaveNoBreak(raw);
    ParseKeepsNoBreaks([], FileLines(raw));
  }

  // ----- the Routerly item

  lemma ItemHead(indent: string, text: string)
    requires indent != "" && AllSpace(indent) && |text| > 1 && text[0] == '-' && IsSpace(text[1]) && !IsSpace('-')
    ensures var line := indent + text;
            !IsBlank(line) && !IsUnindented(line) && IsItemStart(line) && ItemIndent(line) == indent
  {
    var line := indent + text;
    assert line[|indent|] == '-' && line[|indent| + 1] == text[1];
    SpaceRunEndsAt(line, true, |indent|);
    BlankIsAllSpace(line);
  }

  lemma ItemRest(indent: string, text: string)
    requires indent != "" && AllSpace(indent) && text != "" && text[0] != '-' && !IsSpace(text[0])
    ensures IsContinuation(indent + text)
  {
    var line := indent + text;
    assert line[|indent|] == text[0];
    SpaceRunEndsAt(line, true, |indent|);
    BlankIsAllSpace(line);
  }

  lemma {:induction false} ContainsSuffix(x: string, text: string)
    ensures Contains(x + text, text)
  {
    if x == [] {
      assert x + text == text;
    } else {
      assert (x + text)[1..] == x[1..] + text;
      ContainsSuffix(x[1..], text);
    }
  }

  lemma BlockIsItem(indent: string, target: Target)
    requires indent != "" && AllSpace(indent)
    ensures var block := BuildBlock(indent, target);
            IsItem(block) && IsRouterlyBlock(block) && ItemIndent(block[0]) == indent
  {
    hide IsBlank, IsUnindented, IsItemStart, Contains, ToBaseUrl, ItemIndent;
    var more := indent + "  ";
    assert AllSpace(more);
    ItemHead(indent, "- name: Routerly (auto-routed)");
    ItemRest(more, "provider: openai");
    ItemRest(more, MODEL_MARKER);
    ItemRest(more, API_BASE_KEY + (" " + ToBaseUrl(target.baseUrl)));
    ItemRest(more, "apiKey: " + target.token);
    ContainsSuffix(more, MODEL_MARKER);
    assert Contains(BuildBlock(indent, target)[2], MODEL_MARKER);
  }

  lemma BlockHasNoBreaks(indent: string, target: Target)
    requires NoBreak(indent) && BreakFree(target)
    ensures NoBreaks(BuildBlock(indent, target))
  {
  }

  /** The indent taken over from the file is white space, and at least one character of it. */
  lemma IndentIsSpace(s: Section)
    requires IsFileSection(s)
    ensures s.indent != "" && AllSpace(s.indent) && NoBreak(s.indent)
  {
    if s.items != [] {
      assert IsItem(s.items[0]) && NoBreaks(s.items[0]);
      var line := s.items[0][0];
      SpaceRunIsMaximal(line, true);
      assert NoBreak(line);
    }
  }

  // ----- printing and parsing again

  lemma {:induction false} FlattenEndsWithLine(items: seq<Item>)
    requires items != [] && AllItems(items)
    ensures Flatten(items) != [] && !IsBlank(Last(Flatten(items)))
  {
    hide IsBlank, IsUnindented, IsItemStart;
    assert IsItem(items[0]);
    if |items| == 1 {
      assert Flatten(items[1..]) == [] && Flatten(items) == items[0] + [] == items[0];
      assert |items[0]| > 1 ==> IsContinuation(Last(items[0]));
    } else {
      FlattenEndsWithLine(items[1..]);
      assert Last(Flatten(items)) == Last(Flatten(items[1..]));
    }
  }

  /** The pieces of a file whose lines are already in printed form. */
  ghost predicate IsPrintable(header: seq<string>, items: seq<Item>, trailing: seq<string>) {
    && header != [] && IsModelsKey(Last(header)) && (forall k | 0 <= k < |header| - 1 :: !IsModelsKey(header[k]))
    && items != [] && AllItems(items)
    && IsTrailing(trailing) && (trailing != [] ==> !IsBlank(Last(trailing)))
  }

  lemma PrintableEndsWithLine(header: seq<string>, items: seq<Item>, trailing: seq<string>)
    requires IsPrintable(header, items, trailing)
    ensures var lines := header + Flatten(items) + trailing;
            lines != [] && DropTrailingBlank(lines) == lines
  {
    FlattenEndsWithLine(items);
    hide IsBlank, IsModelsKey, IsItem, IsTrailing, Flatten;
    var lines := header + Flatten(items) + trailing;
    assert Last(lines) == if trailing == [] then Last(Flatten(items)) else Last(trailing);
  }

  /** Printing and parsing again gives the same pieces; the final line break shows as one blank line. */
  lemma ParsePrinted(header: seq<string>, items: seq<Item>, trailing: seq<string>)
    requires IsPrintable(header, items, trailing)
    requires NoBreaks(header) && NoBreaksIn(items) && NoBreaks(trailing)
    ensures Parse(Unlines(header + Flatten(items) + trailing) + "\n")
         == Section(header, true, items, if trailing == [] then [] else trailing + [""], IndentOf(items))
  {
    hide IsBlank, IsUnindented, IsItemStart, IsModelsKey, ScanItems, IndentOf, SplitOn, JoinWith;
    var body := Flatten(items) + trailing;
    var lines := header + Flatten(items) + trailing;
    FlattenHasNoBreaks(items);
    FileLinesOfPrinted(lines);
    assert header == Init(header) + [Last(header)];
    assert lines + [""] == Init(header) + [Last(header)] + (Flatten(items) + (trailing + [""]));
    ParseFinds([], Init(header), Last(header), Flatten(items) + (trailing + [""]));
    ScanOfItems(items, trailing + [""], []);
    assert [] + items == items;
    ScanOfTrailing(trailing, items);
    assert [] + Init(header) + [Last(header)] == header;
  }

  lemma FileLinesOfPrinted(lines: seq<string>)
    requires lines != [] && NoBreaks(lines)
    ensures FileLines(Unlines(lines) + "\n") == lines + [""]
  {
    hide SplitOn, JoinWith;
    assert forall l | l in lines :: NoBreak(l);
    LinesRoundTrip(lines);
    assert Unlines(lines) + "\n" == Unlines(lines) + "\n" + "";
    LinesOfBreak(Unlines(lines), "");
    LineAlone("");
  }

  // ----- merging again

  /** The header lines the merge prints, up to and including the key. */
  function PrintedHeader(s: Section): seq<string> {
    if s.hasKey then s.header else TopLines(s.header)
  }

  /** What the merge prints, as pieces. */
  lemma MergedPieces(s: Section, target: Target)
    requires IsFileSection(s)
    ensures var block := BuildBlock(s.indent, target);
            var items := PlacedItems(s.items, block);
            var trailing := DropTrailingBlank(s.trailing);
            && IsPrintable(PrintedHeader(s), items, trailing)
            && MergedLines(s, target) == PrintedHeader(s) + Flatten(items) + trailing
            && NoBreaks(PrintedHeader(s)) && NoBreaks(trailing)
            && (BreakFree(target) ==> NoBreaksIn(items))
            && IndentOf(items) == s.indent
  {
    var block := BuildBlock(s.indent, target);
    var items := PlacedItems(s.items, block);
    var trailing := DropTrailingBlank(s.trailing);
    IndentIsSpace(s);
    BlockIsItem(s.indent, target);
    if BreakFree(target) {
      BlockHasNoBreaks(s.indent, target);
    }
    PlacedIsPrintable(s, block);
    PrintableEndsWithLine(PrintedHeader(s), items, trailing);
    if !s.hasKey {
      assert items == [block] && trailing == [];
      assert Flatten([block]) == block + Flatten([]) == block;
      assert TopLines(s.header) + block == TopLines(s.header) + block + [];
    }
  }

  lemma PlacedIsPrintable(s: Section, block: Item)
    requires IsFileSection(s) && IsItem(block) && ItemIndent(block[0]) == s.indent
    ensures var items := PlacedItems(s.items, block);
            var trailing := DropTrailingBlank(s.trailing);
            && IsPrintable(PrintedHeader(s), items, trailing)
            && NoBreaks(PrintedHeader(s)) && NoBreaks(trailing)
            && (NoBreaks(block) ==> NoBreaksIn(items))
            && IndentOf(items) == s.indent
  {
    HeaderIsPrintable(s);
    TrailingIsPrintable(s);
    PlacedItemsKeepIndent(s.items, block);
    PlacedHasNoBreaks(s.items, block);
    hide IsItem, AllItems, IsTrailing, NoBreaks, NoBreaksIn, IsBlank, IsModelsKey, PrintedHeader, DropTrailingBlank,
        IndentOf;
  }

  lemma TrailingIsPrintable(s: Section)
    requires IsFileSection(s)
    ensures var trailing := DropTrailingBlank(s.trailing);
            IsTrailing(trailing) && (trailing != [] ==> !IsBlank(Last(trailing))) && NoBreaks(trailing)
  {
    TrimmedIn(s.trailing);
    hide IsItem, IsBlank, IsModelsKey, NoBreak, DropTrailingBlank, IndentOf, IsUnindented;
    var trailing := DropTrailingBlank(s.trailing);
    assert trailing != [] ==> trailing[0] == s.trailing[0];
  }

  lemma PlacedHasNoBreaks(items: seq<Item>, block: Item)
    requires NoBreaksIn(items)
    ensures NoBreaks(block) ==> NoBreaksIn(PlacedItems(items, block))
  {
    hide NoBreaks, IsRouterlyBlock;
  }

  lemma HeaderIsPrintable(s: Section)
    requires IsFileSection(s)
    ensures var h := PrintedHeader(s);
            && h != [] && IsModelsKey(Last(h)) && (forall k | 0 <= k < |h| - 1 :: !IsModelsKey(h[k]))
            && NoBreaks(h)
  {
    if !s.hasKey {
      var h := if s.header == [] then DEFAULT_HEADER else DropTrailingBlank(s.header);
      TrimmedIn(s.header);
      forall k | 0 <= k < |h|
        ensures !IsModelsKey(h[k]) && NoBreak(h[k])
      {
        if s.header == [] {
          DefaultIsPlain(h[k]);
        } else {
          assert h[k] == s.header[k];
        }
      }
      assert AllSpace(MODELS_KEY[|MODELS_KEY|..]);
      assert PrintedHeader(s) == h + ["", MODELS_KEY];
    }
  }

  lemma DefaultIsPlain(line: string)
    requires line in DEFAULT_HEADER
    ensures !IsModelsKey(line) && NoBreak(line)
  {
    assert MODELS_KEY[0] == 'm';
  }

  lemma PlacedItemsKeepIndent(items: seq<Item>, block: Item)
    requires AllItems(items) && IsItem(block) && ItemIndent(block[0]) == IndentOf(items)
    ensures AllItems(PlacedItems(items, block)) && IndentOf(PlacedItems(items, block)) == IndentOf(items)
  {
    hide IsRouterlyBlock, IsBlank, IsUnindented, ItemIndent, IsContinuation;
    var k, placed := RouterlyIndex(items), PlacedItems(items, block);
    assert forall i | 0 <= i < |placed| :: placed[i] == if i == k then block else items[i];
    assert IsItem(placed[0]);
    if items != [] {
      assert IsItem(items[0]);
    }
  }

  /** Placing a block where a Routerly block was placed replaces that one. */
  lemma PlacedTwice(items: seq<Item>, first: Item, last: Item)
    requires IsRouterlyBlock(first)
    ensures PlacedItems(PlacedItems(items, first), last) == PlacedItems(items, last)
  {
    hide IsRouterlyBlock;
    var k, placed := RouterlyIndex(items), PlacedItems(items, first);
    assert placed[k] == first && forall i | 0 <= i < k :: placed[i] == items[i];
    assert RouterlyIndex(placed) == k;
    assert placed[k + 1..] == if k < |items| then items[k + 1..] else [];
  }

  lemma {:induction false} DropTrailingBlankTwice(lines: seq<string>)
    ensures DropTrailingBlank(DropTrailingBlank(lines)) == DropTrailingBlank(lines)
    ensures DropTrailingBlank(lines + [""]) == DropTrailingBlank(lines)
    decreases |lines|
  {
    assert AllSpace("");
    BlankIsAllSpace("");
    hide IsBlank;
    assert Init(lines + [""]) == lines;
    if lines != [] && IsBlank(Last(lines)) {
      DropTrailingBlankTwice(Init(lines));
    }
  }

  /** Parsing a merged file. */
  lemma ParseMerged(raw: string, target: Target)
    requires BreakFree(target)
    ensures var s := Parse(raw);
            var trailing := DropTrailingBlank(s.trailing);
            Parse(MergedYaml(raw, target))
            == Section(PrintedHeader(s), true, PlacedItems(s.items, BuildBlock(s.indent, target)),
                       if trailing == [] then [] else trailing + [""], s.indent)
  {
    var s := Parse(raw);
    ParseIsFileSection(raw);
    MergedPieces(s, target);
    hide IsFileSection, IsPrintable, MergedLines, PrintedHeader, PlacedItems, BuildBlock, Parse, DropTrailingBlank;
    ParsePrinted(PrintedHeader(s), PlacedItems(s.items, BuildBlock(s.indent, target)), DropTrailingBlank(s.trailing));
  }

  /** Put-put: merging twice is merging once with the last target, exactly. */
  lemma MergeTwiceIsMergeLast(raw: string, first: Target, last: Target)
    requires BreakFree(first)
    ensures MergedYaml(MergedYaml(raw, first), last) == MergedYaml(raw, last)
  {
    var s, s' := Parse(raw), Parse(MergedYaml(raw, first));
    ParseIsFileSection(raw);
    ParseIsFileSection(MergedYaml(raw, first));
    ParseMerged(raw, first);
    MergedPieces(s, last);
    MergedPieces(s', last);
    IndentIsSpace(s);
    BlockIsItem(s.indent, first);
    PlacedTwice(s.items, BuildBlock(s.indent, first), BuildBlock(s.indent, last));
    DropTrailingBlankTwice(s.trailing);
    DropTrailingBlankTwice(DropTrailingBlank(s.trailing));
    assert PrintedHeader(s') == PrintedHeader(s);
  }

  /** Merging for each target in turn. */
  function Replanned(raw: string, targets: seq<Target>): string {
    if targets == [] then raw else MergedYaml(Replanned(raw, Init(targets)), Last(targets))
  }

  /** However often the file is planned, only the last target shows; planning it again changes nothing. */
  lemma {:induction false} ReplanIsMergeLast(raw: string, targets: seq<Target>)
    requires targets != [] && forall t | t in targets :: BreakFree(t)
    ensures Replanned(raw, targets) == MergedYaml(raw, Last(targets))
    decreases |targets|
  {
    hide MergedYaml;
    var before := Init(targets);
    if before == [] {
      assert Replanned(raw, before) == raw;
    } else {
      ReplanIsMergeLast(raw, before);
      MergeTwiceIsMergeLast(raw, Last(before), Last(targets));
    }
  }

  // ----- reading the URL back

  /** `/apiBase:\s*(\S+)\s*$/`, not anchored: the leftmost key whose rest of the line is one word. */
  function ApiBaseIn(line: string): Option<string> {
    if line == "" then None
    else if API_BASE_KEY <= line && IsOneWord(line[|API_BASE_KEY|..]) then Some(Trim(line[|API_BASE_KEY|..]))
    else ApiBaseIn(line[1..])
  }

  /** A rest of line that `\s*(\S+)\s*$` matches. */
  predicate IsOneWord(rest: string) {
    Trim(rest) != "" && NoSpace(Trim(rest))
  }

  /** The API base of the first line that has one. */
  function ApiBaseOf(item: Item): Option<string> {
    if item == [] then None
    else if ApiBaseIn(item[0]).Some? then ApiBaseIn(item[0])
    else ApiBaseOf(item[1..])
  }

  /** The URL the configuration file currently points the Routerly entry at. */
  function CurrentBaseUrl(raw: string): Option<string> {
    var items := Parse(raw).items;
    var k := RouterlyIndex(items);
    if k < |items| then ApiBaseOf(items[k]) else None
  }

  method ExtractApiBase(item: Item) returns (url: Option<string>)
    ensures url == ApiBaseOf(item)
  {
    for i := 0 to |item|
      invariant ApiBaseOf(item[i..]) == ApiBaseOf(item)
    {
      assert item[i..][0] == item[i] && item[i..][1..] == item[i + 1..];
      var found := ApiBaseIn(item[i]);
      if found.Some? {
        return found;
      }
    }
    return None;
  }

  lemma {:induction false} ApiBaseIsWord(line: string)
    ensures ApiBaseIn(line).Some? ==> NoSpace(ApiBaseIn(line).value)
  {
    hide Trim;
    if line != "" {
      ApiBaseIsWord(line[1..]);
    }
  }

  lemma {:induction false} ApiBaseOfIsWord(item: Item)
    ensures ApiBaseOf(item).Some? ==> NoSpace(ApiBaseOf(item).value)
  {
    hide ApiBaseIn, NoSpace;
    if item != [] {
      ApiBaseIsWord(item[0]);
      ApiBaseOfIsWord(item[1..]);
    }
  }

  /** The key holds a letter that the other lines of the block lack. */
  lemma {:induction false} NoApiBaseWithout(line: string)
    requires 'B' !in line
    ensures ApiBaseIn(line) == None
  {
    hide IsOneWord, Trim;
    if line != "" {
      if API_BASE_KEY <= line {
        KeyHasB(line);
      }
      NoApiBaseWithout(line[1..]);
    }
  }

  lemma KeyHasB(line: string)
    requires API_BASE_KEY <= line
    ensures 'B' in line
  {
    assert line[3] == API_BASE_KEY[3];
  }

  lemma {:induction false} ApiBaseAfterIndent(indent: string, rest: string)
    requires AllSpace(indent)
    ensures ApiBaseIn(indent + rest) == ApiBaseIn(rest)
  {
    hide IsOneWord, Trim;
    if indent == "" {
      assert indent + rest == rest;
    } else {
      var line := indent + rest;
      assert line[0] == indent[0] && line[1..] == indent[1..] + rest && API_BASE_KEY[0] == 'a';
      ApiBaseAfterIndent(indent[1..], rest);
    }
  }

  lemma ApiBaseLine(indent: string, url: string)
    requires AllSpace(indent) && url != "" && NoSpace(url)
    ensures ApiBaseIn(indent + (API_BASE_KEY + (" " + url))) == Some(url)
  {
    var rest := API_BASE_KEY + (" " + url);
    ApiBaseAfterIndent(indent, rest);
    assert rest[|API_BASE_KEY|..] == " " + url;
    TrimOfWord(url);
    hide Trim;
  }

  lemma TrimOfWord(word: string)
    requires word != "" && NoSpace(word)
    ensures Trim(" " + word) == word
  {
    SpaceRunEndsAt(" " + word, true, 1);
    assert (" " + word)[1..] == word;
    TrimOfSolid(word);
  }

  /** The lines of the block up to the one with the URL; the token comes after them. */
  function BlockStart(indent: string, target: Target): Item {
    BuildBlock(indent, target)[..4]
  }

  lemma BlockStartReadsBack(indent: string, target: Target, item: Item)
    requires AllSpace(indent) && NoSpace(ToBaseUrl(target.baseUrl)) && BlockStart(indent, target) <= item
    ensures ApiBaseOf(item) == Some(ToBaseUrl(target.baseUrl))
  {
    hide ApiBaseIn;
    var block, more := BuildBlock(indent, target), indent + "  ";
    assert AllSpace(more) && !IsSpace('B');
    NoApiBaseWithout(block[0]);
    NoApiBaseWithout(block[1]);
    NoApiBaseWithout(block[2]);
    ApiBaseLine(more, ToBaseUrl(target.baseUrl));
    assert forall k | 0 <= k < 4 :: item[k] == block[k];
    FirstApiBase(item, 3);
  }

  lemma BlockStartIsItem(indent: string, target: Target)
    requires indent != "" && AllSpace(indent) && NoBreak(indent) && NoBreak(target.baseUrl)
    ensures var start := BlockStart(indent, target); IsItem(start) && NoBreaks(start)
    ensures forall item | BlockStart(indent, target) <= item :: IsRouterlyBlock(item)
  {
    BlockIsItem(indent, target);
    BlockHasFive(indent, target);
    MarkerLine(indent, target);
    BlockStartHasNoBreaks(indent, target);
    hide BuildBlock, IsItem, Contains, NoBreaks;
    StartOfItem(BuildBlock(indent, target), 4);
    MarkedFromStart(BlockStart(indent, target), 2);
  }

  lemma MarkerLine(indent: string, target: Target)
    ensures Contains(BuildBlock(indent, target)[2], MODEL_MARKER)
  {
    ContainsSuffix(indent + "  ", MODEL_MARKER);
    hide Contains, ToBaseUrl;
  }

  lemma BlockStartHasNoBreaks(indent: string, target: Target)
    requires NoBreak(indent) && NoBreak(target.baseUrl)
    ensures NoBreaks(BlockStart(indent, target))
  {
    BlockHasNoBreaks(indent, target.(token := ""));
    BlockHasFive(indent, target);
    BlockHasFive(indent, target.(token := ""));
    assert forall k | 0 <= k < 4 :: BuildBlock(indent, target)[k] == BuildBlock(indent, target.(token := ""))[k] by {
      hide ToBaseUrl;
    }
    hide BuildBlock, NoBreak;
  }

  lemma StartOfItem(item: Item, n: nat)
    requires IsItem(item) && 0 < n <= |item|
    ensures IsItem(item[..n])
  {
    hide IsBlank, IsUnindented, IsItemStart, IsContinuation;
  }

  lemma MarkedFromStart(start: Item, k: nat)
    requires k < |start| && Contains(start[k], MODEL_MARKER)
    ensures forall item | start <= item :: IsRouterlyBlock(item)
  {
    hide Contains;
    assert forall item | start <= item :: item[k] == start[k];
  }

  lemma {:induction false} FirstApiBase(item: Item, k: nat)
    requires k < |item| && ApiBaseIn(item[k]).Some? && forall i | 0 <= i < k :: ApiBaseIn(item[i]) == None
    ensures ApiBaseOf(item) == ApiBaseIn(item[k])
  {
    hide ApiBaseIn;
    if k > 0 {
      FirstApiBase(item[1..], k - 1);
    }
  }

  lemma UrlSpaces(serverUrl: string)
    ensures NoSpace(ToBaseUrl(serverUrl)) <==> NoSpace(serverUrl)
  {
    var url := ToBaseUrl(serverUrl);
    assert forall i | 0 <= i < |url| - 3 :: url[i] == serverUrl[i];
    assert forall i | |url| - 3 <= i < |url| :: !IsSpace(url[i]);
    assert forall i | |url| - 3 <= i < |serverUrl| :: !IsSpace(serverUrl[i]);
  }

  /** Put-get: the merged URL reads back exactly when it holds no white space, whatever the token is. */
  lemma ReadsBackIffNoSpace(raw: string, target: Target)
    ensures CurrentBaseUrl(MergedYaml(raw, target)) == Some(ToBaseUrl(target.baseUrl)) <==> NoSpace(target.baseUrl)
  {
    UrlSpaces(target.baseUrl);
    if NoSpace(target.baseUrl) {
      MergedReadsBack(raw, target);
    } else {
      var items := Parse(MergedYaml(raw, target)).items;
      hide MergedYaml, ToBaseUrl;
      if RouterlyIndex(items) < |items| {
        ApiBaseOfIsWord(items[RouterlyIndex(items)]);
      }
    }
  }

  /** A space in the URL is written and not read back. */
  lemma ReadBackExample(raw: string)
    ensures CurrentBaseUrl(MergedYaml(raw, Target(" ", ""))) != Some(ToBaseUrl(" "))
  {
    assert IsSpace(" "[0]);
    ReadsBackIffNoSpace(raw, Target(" ", ""));
    hide CurrentBaseUrl, MergedYaml;
  }

  /** The scan only ever adds to the last item and after it. */
  lemma {:induction false} ScanKeepsStart(lines: seq<string>, items: seq<Item>)
    requires items != []
    ensures var all := ScanItems(lines, items).0;
            |items| <= |all| && all[..|items| - 1] == Init(items) && Last(items) <= all[|items| - 1]
    decreases |lines|
  {
    hide IsBlank, IsUnindented, IsItemStart;
    if lines != [] && IsBlank(lines[0]) {
      ScanKeepsStart(lines[1..], items);
    } else if lines != [] && !IsUnindented(lines[0]) {
      ScanKeepsStart(lines[1..], if IsItemStart(lines[0]) then items + [[lines[0]]] else Continued(items, lines[0]));
    }
  }

  /** The merged lines, cut right after the URL. */
  lemma MergedAround(s: Section, target: Target) returns (rest: seq<string>)
    requires IsFileSection(s)
    ensures rest != []
    ensures MergedLines(s, target)
         == PrintedHeader(s) + (LinesBefore(s.items) + BlockStart(s.indent, target)) + rest
  {
    var block := BuildBlock(s.indent, target);
    MergedPieces(s, target);
    hide MergedLines, PrintedHeader, IsFileSection, IsPrintable, PlacedItems, LinesBefore, LinesAfter, OwnLines,
        BuildBlock;
    ItemsCut(s.items, block);
    BlockHasFive(s.indent, target);
    rest := block[4..] + LinesAfter(s.items) + DropTrailingBlank(s.trailing);
    CutAround(PrintedHeader(s), LinesBefore(s.items), block, LinesAfter(s.items), DropTrailingBlank(s.trailing));
  }

  lemma CutAround(top: seq<string>, x: seq<string>, block: Item, y: seq<string>, trailing: seq<string>)
    requires |block| >= 4
    ensures top + (x + block + y) + trailing == top + (x + block[..4]) + (block[4..] + y + trailing)
  {
    assert block == block[..4] + block[4..];
  }

  lemma BlockHasFive(indent: string, target: Target)
    ensures |BuildBlock(indent, target)| == 5
  {
  }

  /** However the lines after the URL are cut, the parser finds our item where it was placed. */
  lemma ParseAround(header: seq<string>, before: seq<Item>, start: Item, rest: seq<string>)
    requires header != [] && IsModelsKey(Last(header)) && forall k | 0 <= k < |header| - 1 :: !IsModelsKey(header[k])
    requires AllItems(before) && IsItem(start) && rest != []
    requires NoBreaks(header) && NoBreaksIn(before) && NoBreaks(start)
    ensures var items := Parse(Unlines(header + (Flatten(before) + start) + rest) + "\n").items;
            |before| < |items| && items[..|before|] == before && start <= items[|before|]
  {
    hide IsBlank, IsUnindented, IsItemStart, IsModelsKey, ScanItems, IndentOf, SplitOn, JoinWith, IsItem;
    var tail := Lines(Unlines(rest) + "\n");
    var items := before + [start];
    FlattenSnoc(before, start);
    FlattenHasNoBreaks(before);
    LinesAround(header + Flatten(items), rest);
    assert header == Init(header) + [Last(header)];
    assert header + Flatten(items) + tail == Init(header) + [Last(header)] + (Flatten(items) + tail);
    ParseFinds([], Init(header), Last(header), Flatten(items) + tail);
    assert AllItems(items);
    ScanOfItems(items, tail, []);
    assert [] + items == items && Init(items) == before;
    ScanKeepsStart(tail, items);
  }

  lemma LinesAround(top: seq<string>, rest: seq<string>)
    requires top != [] && rest != [] && NoBreaks(top)
    ensures FileLines(Unlines(top + rest) + "\n") == top + Lines(Unlines(rest) + "\n")
  {
    hide SplitOn, JoinWith;
    assert forall l | l in top :: NoBreak(l);
    UnlinesAppend(top, rest);
    LinesRoundTrip(top);
    LinesOfBreak(Unlines(top), Unlines(rest) + "\n");
    assert Unlines(top) + "\n" + Unlines(rest) + "\n" == Unlines(top) + "\n" + (Unlines(rest) + "\n");
  }

  lemma ItemsBefore(items: seq<Item>)
    requires AllItems(items) && NoBreaksIn(items)
    ensures AllItems(items[..RouterlyIndex(items)]) && NoBreaksIn(items[..RouterlyIndex(items)])
  {
    hide IsItem, NoBreaks, IsRouterlyBlock;
  }

  lemma MergedReadsBack(raw: string, target: Target)
    requires NoSpace(target.baseUrl)
    ensures CurrentBaseUrl(MergedYaml(raw, target)) == Some(ToBaseUrl(target.baseUrl))
  {
    var s := Parse(raw);
    var start := BlockStart(s.indent, target);
    assert NoBreak(target.baseUrl) by { assert IsSpace('\n'); }
    UrlSpaces(target.baseUrl);
    ParseIsFileSection(raw);
    IndentIsSpace(s);
    HeaderIsPrintable(s);
    BlockStartIsItem(s.indent, target);
    ItemsBefore(s.items);
    var rest := MergedAround(s, target);
    hide Parse, MergedLines, PrintedHeader, BlockStart, ToBaseUrl, IsRouterlyBlock, ApiBaseOf, IsItem, NoBreaks,
        IsModelsKey;
    var before := s.items[..RouterlyIndex(s.items)];
    ParseAround(PrintedHeader(s), before, start, rest);
    var items := Parse(MergedYaml(raw, target)).items;
    FirstRouterly(items, before, start, s.items);
    BlockStartReadsBack(s.indent, target, items[|before|]);
  }

  lemma FirstRouterly(items: seq<Item>, before: seq<Item>, start: Item, old_: seq<Item>)
    requires before == old_[..RouterlyIndex(old_)]
    requires |before| < |items| && items[..|before|] == before && start <= items[|before|]
    requires forall item | start <= item :: IsRouterlyBlock(item)
    ensures RouterlyIndex(items) == |before|
  {
    hide IsRouterlyBlock;
    assert forall i | 0 <= i < |before| :: items[i] == items[..|before|][i] == old_[i];
  }

  // ----- conservation

  /** The lines after the key that precede the first item: they belong to nothing. */
  function Orphans(lines: seq<string>): (orphans: seq<string>)
    ensures orphans <= lines
    ensures forall k | 0 <= k < |orphans| :: !IsUnindented(orphans[k]) && !IsItemStart(orphans[k])
  {
    if lines == [] || IsUnindented(lines[0]) || IsItemStart(lines[0]) then [] else [lines[0]] + Orphans(lines[1..])
  }

  /** Once an item has begun, the scan keeps every non-blank line. */
  lemma {:induction false} ScanConserves(lines: seq<string>, items: seq<Item>)
    requires items != []
    ensures var (all, rest) := ScanItems(lines, items);
            Flatten(all) + NonBlank(rest) == Flatten(items) + NonBlank(lines)
    decreases |lines|
  {
    hide IsBlank, IsUnindented, IsItemStart;
    if lines == [] {
    } else if IsBlank(lines[0]) {
      ScanConserves(lines[1..], items);
    } else if !IsUnindented(lines[0]) {
      assert NonBlank(lines) == [lines[0]] + NonBlank(lines[1..]);
      if IsItemStart(lines[0]) {
        FlattenSnoc(items, [lines[0]]);
        ScanConserves(lines[1..], items + [[lines[0]]]);
      } else {
        FlattenContinued(items, lines[0]);
        ScanConserves(lines[1..], Continued(items, lines[0]));
      }
    }
  }

  lemma FlattenSnoc(items: seq<Item>, item: Item)
    ensures Flatten(items + [item]) == Flatten(items) + item
  {
    FlattenAppend(items, [item]);
    assert Flatten([item]) == item + Flatten([]) == item;
  }

  lemma FlattenContinued(items: seq<Item>, line: string)
    requires items != []
    ensures Flatten(Continued(items, line)) == Flatten(items) + [line]
  {
    FlattenSnoc(Init(items), Last(items));
    FlattenSnoc(Init(items), Last(items) + [line]);
    assert items == Init(items) + [Last(items)];
    assert Continued(items, line) == Init(items) + [Last(items) + [line]];
  }

  lemma {:induction false} ScanDropsOnlyOrphans(lines: seq<string>)
    ensures var (items, rest) := ScanItems(lines, []);
            NonBlank(Orphans(lines)) + (Flatten(items) + NonBlank(rest)) == NonBlank(lines)
    decreases |lines|
  {
    hide IsBlank, IsUnindented, IsItemStart;
    if lines != [] {
      BlankIsNeither(lines[0]);
      if IsUnindented(lines[0]) {
        assert [] + (Flatten<string>([]) + NonBlank(lines)) == NonBlank(lines);
      } else if IsItemStart(lines[0]) {
        var (items, rest) := ScanItems(lines[1..], [] + [[lines[0]]]);
        ScanConserves(lines[1..], [] + [[lines[0]]]);
        FlattenSnoc([], [lines[0]]);
        assert Orphans(lines) == [] && [] + (Flatten(items) + NonBlank(rest)) == Flatten(items) + NonBlank(rest);
      } else {
        ScanDropsOnlyOrphans(lines[1..]);
        OrphansStep(lines);
      }
    }
  }

  lemma OrphansStep(lines: seq<string>)
    requires lines != [] && !IsUnindented(lines[0]) && !IsItemStart(lines[0])
    ensures NonBlank(Orphans(lines)) == NonBlank([lines[0]]) + NonBlank(Orphans(lines[1..]))
    ensures NonBlank(lines) == NonBlank([lines[0]]) + NonBlank(lines[1..])
    ensures ScanItems(lines, []) == ScanItems(lines[1..], [])
  {
    hide IsBlank, IsUnindented, IsItemStart;
    NonBlankAppend([lines[0]], Orphans(lines[1..]));
    NonBlankAppend([lines[0]], lines[1..]);
    assert lines == [lines[0]] + lines[1..];
  }

  lemma BlankIsNeither(line: string)
    ensures IsBlank(line) ==> !IsUnindented(line) && !IsItemStart(line)
    ensures IsItemStart(line) ==> !IsBlank(line)
  {
    BlankIsAllSpace(line);
    SpaceRunIsMaximal(line, true);
  }

  /** How a parsed section sits in its file. */
  lemma {:induction false} ParseCovers(above: seq<string>, lines: seq<string>)
    ensures var s := ParseLines(above, lines);
            && s.header <= above + lines
            && (if s.hasKey then (s.items, s.trailing) == ScanItems((above + lines)[|s.header|..], [])
                else s.header == above + lines)
    decreases |lines|
  {
    hide IsModelsKey, ScanItems, IndentOf;
    if lines != [] {
      assert above + lines == above + [lines[0]] + lines[1..];
      if !IsModelsKey(lines[0]) {
        ParseCovers(above + [lines[0]], lines[1..]);
      }
    }
  }

  lemma {:induction false} ItemsAreNonBlank(items: seq<Item>)
    requires AllItems(items)
    ensures NonBlank(Flatten(items)) == Flatten(items)
  {
    hide IsBlank, IsUnindented, IsItemStart;
    if items != [] {
      assert IsItem(items[0]);
      assert forall k | 0 <= k < |items[0]| :: !IsBlank(items[0][k]) by {
        assert forall k | 0 < k < |items[0]| :: IsContinuation(items[0][k]);
      }
      AllNonBlank(items[0]);
      NonBlankAppend(items[0], Flatten(items[1..]));
      ItemsAreNonBlank(items[1..]);
    }
  }

  lemma {:induction false} AllNonBlank(lines: seq<string>)
    requires forall k | 0 <= k < |lines| :: !IsBlank(lines[k])
    ensures NonBlank(lines) == lines
  {
    hide IsBlank;
    if lines != [] {
      AllNonBlank(lines[1..]);
    }
  }

  lemma {:induction false} TrimmingKeepsNonBlank(lines: seq<string>)
    ensures NonBlank(DropTrailingBlank(lines)) == NonBlank(lines)
    decreases |lines|
  {
    hide IsBlank;
    if lines != [] && IsBlank(Last(lines)) {
      TrimmingKeepsNonBlank(Init(lines));
      NonBlankAppend(Init(lines), [Last(lines)]);
      assert lines == Init(lines) + [Last(lines)];
    }
  }

  /** The item lines of a list of items, cut at its Routerly item. */
  function LinesBefore(items: seq<Item>): seq<string> {
    Flatten(items[..RouterlyIndex(items)])
  }

  function OwnLines(items: seq<Item>): seq<string> {
    var k := RouterlyIndex(items);
    if k < |items| then items[k] else []
  }

  function LinesAfter(items: seq<Item>): seq<string> {
    var k := RouterlyIndex(items);
    if k < |items| then Flatten(items[k + 1..]) else []
  }

  lemma ItemsCut(items: seq<Item>, block: Item)
    ensures Flatten(items) == LinesBefore(items) + OwnLines(items) + LinesAfter(items)
    ensures Flatten(PlacedItems(items, block)) == LinesBefore(items) + block + LinesAfter(items)
  {
    hide IsRouterlyBlock;
    var k := RouterlyIndex(items);
    var after := if k < |items| then items[k + 1..] else [];
    FlattenSnoc(items[..k], block);
    FlattenAppend(items[..k] + [block], after);
    if k < |items| {
      FlattenSnoc(items[..k], items[k]);
      FlattenAppend(items[..k] + [items[k]], after);
      assert items == items[..k] + [items[k]] + after;
    } else {
      assert items[..k] == items;
    }
  }

  /** The input, cut where the parser cuts it; only the lines before the first item fall away. */
  lemma InputIsCut(raw: string) returns (below: seq<string>)
    requires Parse(raw).hasKey
    ensures var s := Parse(raw);
            && FileLines(raw) == s.header + below
            && NonBlank(below) == NonBlank(Orphans(below)) + (Flatten(s.items) + NonBlank(s.trailing))
  {
    hide *;
    below := BelowKey(raw);
    ScanDropsOnlyOrphans(below);
  }

  lemma NonBlankOfPieces(x: seq<string>, y: seq<string>, z: seq<string>)
    ensures NonBlank(x + y + z + [""]) == NonBlank(x) + (NonBlank(y) + NonBlank(z))
  {
    BlankIsAllSpace("");
    assert NonBlank([""]) == [];
    hide NonBlank;
    NonBlankAppend(x + y + z, [""]);
    NonBlankAppend(x + y, z);
    NonBlankAppend(x, y);
  }

  /** The output: header, items with ours in place, and the rest. */
  lemma OutputIsCut(raw: string, target: Target)
    requires BreakFree(target)
    ensures var s := Parse(raw);
            NonBlank(FileLines(MergedYaml(raw, target)))
            == NonBlank(PrintedHeader(s))
                + (Flatten(PlacedItems(s.items, BuildBlock(s.indent, target))) + NonBlank(s.trailing))
  {
    var s := Parse(raw);
    ParseIsFileSection(raw);
    MergedPieces(s, target);
    hide Parse, BuildBlock, MergedLines, PlacedItems, PrintedHeader, DropTrailingBlank, FileLines, NonBlank, NoBreak,
        IsItem;
    var items, trailing := PlacedItems(s.items, BuildBlock(s.indent, target)), DropTrailingBlank(s.trailing);
    FlattenHasNoBreaks(items);
    FileLinesOfPrinted(MergedLines(s, target));
    NonBlankOfPieces(PrintedHeader(s), Flatten(items), trailing);
    ItemsAreNonBlank(items);
    TrimmingKeepsNonBlank(s.trailing);
  }

  /**
   * Conservation, when the file has a `models:` key: the non-blank lines are those of the header,
   * the items and the rest, in order. The merge replaces the lines of the first Routerly item (or
   * adds ours after the last item) and loses only the lines between the key and the first item,
   * none of which starts an item or a top-level key.
   */
  lemma MergeConservesLines(raw: string, target: Target) returns (below: seq<string>)
    requires Parse(raw).hasKey && BreakFree(target)
    ensures var s := Parse(raw);
            var block := BuildBlock(s.indent, target);
            && FileLines(raw) == s.header + below
            && NonBlank(below) == NonBlank(Orphans(below))
                  + (LinesBefore(s.items) + OwnLines(s.items) + LinesAfter(s.items) + NonBlank(s.trailing))
            && NonBlank(FileLines(MergedYaml(raw, target)))
               == NonBlank(s.header) + (LinesBefore(s.items) + block + LinesAfter(s.items) + NonBlank(s.trailing))
  {
    hide Parse, FileLines, MergedYaml, NonBlank, Orphans, BuildBlock, LinesBefore, OwnLines, LinesAfter, PlacedItems;
    var s := Parse(raw);
    below := InputIsCut(raw);
    OutputIsCut(raw, target);
    ItemsCut(s.items, BuildBlock(s.indent, target));
  }

  // ----- what is lost

  /** The scan leaves a tail of the lines unread; what it read is the items without blank lines and orphans. */
  lemma {:induction false} ScanReads(lines: seq<string>, items: seq<Item>)
    ensures var (all, rest) := ScanItems(lines, items);
            && |rest| <= |lines| && lines[|lines| - |rest|..] == rest
            && (items != [] ==> Flatten(all) == Flatten(items) + NonBlank(lines[..|lines| - |rest|]))
    decreases |lines|
  {
    hide IsBlank, IsUnindented, IsItemStart;
    if lines != [] && (IsBlank(lines[0]) || !IsUnindented(lines[0])) {
      var line := lines[0];
      var next :=
        if IsBlank(line) then items
        else if IsItemStart(line) then items + [[line]]
        else Continued(items, line);
      var (all, rest) := ScanItems(lines[1..], next);
      ScanReads(lines[1..], next);
      NonBlankOfCons(line, lines[1..][..|lines| - 1 - |rest|]);
      assert [line] + lines[1..][..|lines| - 1 - |rest|] == lines[..|lines| - |rest|];
      if items != [] && !IsBlank(line) {
        FlattenSnoc(items, [line]);
        FlattenContinued(items, line);
      }
    }
  }

  lemma NonBlankOfCons(line: string, lines: seq<string>)
    ensures NonBlank([line] + lines) == (if IsBlank(line) then [] else [line]) + NonBlank(lines)
  {
    assert ([line] + lines)[1..] == lines;
  }

  predicate HasBlank(lines: seq<string>) {
    exists k :: 0 <= k < |lines| && IsBlank(lines[k])
  }

  lemma {:induction false} NonBlankLength(lines: seq<string>)
    ensures |NonBlank(lines)| <= |lines| && (|NonBlank(lines)| == |lines| <==> !HasBlank(lines))
  {
    hide IsBlank;
    if lines != [] {
      NonBlankLength(lines[1..]);
      assert forall k | 0 < k < |lines| :: lines[k] == lines[1..][k - 1];
      assert forall k | 0 <= k < |lines| - 1 :: lines[1..][k] == lines[k + 1];
    }
  }

  /** What the scan from the key has read, and what of it became items. */
  lemma {:induction false} ScanGathers(lines: seq<string>)
    ensures var (items, rest) := ScanItems(lines, []);
            && |Orphans(lines)| + |rest| <= |lines| && lines[|lines| - |rest|..] == rest
            && Flatten(items) == NonBlank(lines[|Orphans(lines)|..|lines| - |rest|])
    decreases |lines|
  {
    hide IsBlank, IsUnindented, IsItemStart;
    if lines != [] {
      var line, tail := lines[0], lines[1..];
      var (items, rest) := ScanItems(lines, []);
      BlankIsNeither(line);
      if IsItemStart(line) && !IsUnindented(line) {
        assert [] + [[line]] == [[line]] && ScanItems(lines, []) == ScanItems(tail, [[line]]);
        ScanReads(tail, [[line]]);
        NonBlankOfCons(line, tail[..|tail| - |rest|]);
        assert Flatten([[line]]) == [line] + Flatten([]) == [line];
        assert lines[0..|lines| - |rest|] == [line] + tail[..|tail| - |rest|];
      } else if !IsUnindented(line) {
        ScanGathers(tail);
        OrphansStep(lines);
        assert lines[|Orphans(lines)|..|lines| - |rest|] == tail[|Orphans(tail)|..|tail| - |rest|];
      }
    }
  }

  /** The lines below the key that the section does not keep as its rest. */
  function ReadLines(below: seq<string>, rest: seq<string>): seq<string>
    requires |rest| <= |below|
  {
    below[..|below| - |rest|]
  }

  /** The scan keeps the lines as they are exactly if it reads no blank line and no line before the first item. */
  lemma ScanIsLosslessIff(lines: seq<string>)
    ensures var (items, rest) := ScanItems(lines, []);
            && |rest| <= |lines|
            && (lines == Flatten(items) + rest <==> !HasBlank(ReadLines(lines, rest)) && Orphans(lines) == [])
  {
    hide IsBlank, HasBlank, ScanItems, Orphans, NonBlank;
    ScanGathers(lines);
    var (items, rest) := ScanItems(lines, []);
    var n, read := |Orphans(lines)|, ReadLines(lines, rest);
    assert lines == read + rest;
    NonBlankLength(lines[n..|lines| - |rest|]);
    if n == 0 {
      assert lines[0..|lines| - |rest|] == read;
      if !HasBlank(read) {
        NoBlankStays(read);
      }
    }
  }

  lemma NoBlankStays(lines: seq<string>)
    requires !HasBlank(lines)
    ensures NonBlank(lines) == lines
  {
    AllNonBlank(lines);
  }

  /**
   * Literal preservation, when the file has a `models:` key: the output is the header, the items
   * around ours and the rest, line by line. These are all the lines of the input around the Routerly
   * item, up to blank lines at the end, exactly if no line was lost: no blank line between the key
   * and the rest, and no line before the first item.
   */
  lemma MergeIsLiteralIff(raw: string, target: Target) returns (below: seq<string>)
    requires Parse(raw).hasKey && BreakFree(target)
    ensures var s := Parse(raw);
            && FileLines(raw) == s.header + below
            && FileLines(MergedYaml(raw, target))
               == s.header + (LinesBefore(s.items) + BuildBlock(s.indent, target) + LinesAfter(s.items))
                  + DropTrailingBlank(s.trailing) + [""]
            && |s.trailing| <= |below|
            && (below == (LinesBefore(s.items) + OwnLines(s.items) + LinesAfter(s.items)) + s.trailing
                <==> !HasBlank(ReadLines(below, s.trailing)) && Orphans(below) == [])
  {
    below := BelowIsLosslessIff(raw);
    OutputIsLiteral(raw, target);
    hide *;
  }

  lemma BelowIsLosslessIff(raw: string) returns (below: seq<string>)
    requires Parse(raw).hasKey
    ensures var s := Parse(raw);
            && FileLines(raw) == s.header + below && |s.trailing| <= |below|
            && (below == (LinesBefore(s.items) + OwnLines(s.items) + LinesAfter(s.items)) + s.trailing
                <==> !HasBlank(ReadLines(below, s.trailing)) && Orphans(below) == [])
  {
    hide *;
    below := BelowKey(raw);
    ScanIsLosslessIff(below);
    ItemsCut(Parse(raw).items, []);
  }

  lemma BelowKey(raw: string) returns (below: seq<string>)
    requires Parse(raw).hasKey
    ensures FileLines(raw) == Parse(raw).header + below
    ensures (Parse(raw).items, Parse(raw).trailing) == ScanItems(below, [])
  {
    hide FileLines, ScanItems;
    var s, lines := Parse(raw), FileLines(raw);
    ParseCovers([], lines);
    assert [] + lines == lines;
    below := lines[|s.header|..];
  }

  lemma OutputIsLiteral(raw: string, target: Target)
    requires Parse(raw).hasKey && BreakFree(target)
    ensures var s := Parse(raw);
            FileLines(MergedYaml(raw, target))
            == s.header + (LinesBefore(s.items) + BuildBlock(s.indent, target) + LinesAfter(s.items))
               + DropTrailingBlank(s.trailing) + [""]
  {
    var s := Parse(raw);
    ParseIsFileSection(raw);
    MergedPieces(s, target);
    hide Parse, FileLines, LinesBefore, LinesAfter, OwnLines, BuildBlock, MergedLines, DropTrailingBlank, IsItem,
      IsModelsKey, NoBreak, PlacedItems;
    ItemsCut(s.items, BuildBlock(s.indent, target));
    FlattenHasNoBreaks(PlacedItems(s.items, BuildBlock(s.indent, target)));
    FileLinesOfPrinted(MergedLines(s, target));
  }

  /** A line between the key and the first item is lost, whatever the item is. */
  lemma OrphanIsLost(key: string, orphan: string, item: string, target: Target)
    requires IsModelsKey(key) && IsContinuation(orphan) && IsItem([item]) && BreakFree(target)
    requires NoBreak(key) && NoBreak(orphan) && NoBreak(item)
    requires orphan !in BuildBlock(ItemIndent(item), target)
    ensures var raw := Unlines([key, orphan, item]);
            orphan in FileLines(raw) && orphan !in FileLines(MergedYaml(raw, target))
  {
    var lines, raw := [key, orphan, item], Unlines([key, orphan, item]);
    OrphanDiffers(key, orphan, item);
    ParseOfOrphan(key, orphan, item);
    LinesRoundTrip(lines);
    assert raw != "" && orphan == lines[1];
    OutputIsLiteral(raw, target);
    hide FileLines, MergedYaml, BuildBlock, IsModelsKey, IsContinuation, IsItem, IsRouterlyBlock, Unlines, SplitOn;
    OneItemCut(item);
  }

  lemma OrphanDiffers(key: string, orphan: string, item: string)
    requires IsModelsKey(key) && IsContinuation(orphan) && IsItem([item])
    ensures orphan != key && orphan != item && orphan != ""
  {
    BlankIsAllSpace("");
    hide IsBlank, IsItemStart;
  }

  /** What is printed of a single item, around or instead of which ours goes. */
  lemma OneItemCut(item: string)
    ensures forall line | line in LinesBefore([[item]]) || line in LinesAfter([[item]]) :: line == item
    ensures DropTrailingBlank([]) == []
  {
    hide IsRouterlyBlock;
    assert Flatten([[item]]) == [item] + Flatten([]) == [item];
    ItemsCut([[item]], []);
  }

  lemma ParseOfOrphan(key: string, orphan: string, item: string)
    requires IsModelsKey(key) && IsContinuation(orphan) && IsItem([item])
    ensures ParseLines([], [key, orphan, item]) == Section([key], true, [[item]], [], ItemIndent(item))
  {
    var lines := [key, orphan, item];
    assert lines[1..] == [orphan, item] && [orphan, item][1..] == [item] && [item][1..] == [];
    assert [] + [key] == [key] && [] + [[item]] == [[item]];
    assert IndentOf([[item]]) == ItemIndent(item);
    hide IsBlank, IsUnindented, IsItemStart, IsModelsKey, IndentOf;
    assert ScanItems([item], []) == ScanItems([], [[item]]) == ([[item]], []);
    assert ScanItems([orphan, item], []) == ScanItems([item], []);
  }

  lemma BlockThirds(target: Target)
    ensures forall line | line in BuildBlock("  ", target) :: |line| > 2 && line[2] != '#'
  {
    hide ToBaseUrl;
    var block, more := BuildBlock("  ", target), "  " + "  ";
    BlockHasFive("  ", target);
    assert more[2] == ' ' && block[0][2] == '-';
    assert block[1][2] == more[2] && block[2][2] == more[2] && block[3][2] == more[2] && block[4][2] == more[2];
  }

  const ORPHAN := "  " + "# mine"
  const ITEM := "  " + "- name: a"

  lemma ExampleOrphan(target: Target)
    ensures IsContinuation(ORPHAN) && NoBreak(ORPHAN) && ORPHAN !in BuildBlock("  ", target)
  {
    hide BuildBlock;
    ItemRest("  ", "# mine");
    BlockThirds(target);
    assert ORPHAN[2] == '#';
  }

  lemma ExampleItem()
    ensures IsItem([ITEM]) && NoBreak(ITEM) && ItemIndent(ITEM) == "  "
  {
    hide IsBlank, IsUnindented, IsItemStart, ItemIndent;
    ItemHead("  ", "- name: a");
  }

  lemma KeyIsKey()
    ensures IsModelsKey(MODELS_KEY) && NoBreak(MODELS_KEY)
  {
    assert AllSpace(MODELS_KEY[|MODELS_KEY|..]);
  }

  /** A comment under the key, for instance. */
  lemma OrphanExample(target: Target)
    requires BreakFree(target)
    ensures var raw := Unlines([MODELS_KEY, ORPHAN, ITEM]);
            ORPHAN in FileLines(raw) && ORPHAN !in FileLines(MergedYaml(raw, target))
  {
    hide *;
    ExampleOrphan(target);
    ExampleItem();
    KeyIsKey();
    OrphanIsLost(MODELS_KEY, ORPHAN, ITEM, target);
  }

  /** The output without a key, line by line: the header without blank lines at its end, then the new section. */
  lemma MergeWithoutKeyIsLiteral(raw: string, target: Target)
    requires !Parse(raw).hasKey && BreakFree(target)
    ensures FileLines(MergedYaml(raw, target)) == TopLines(FileLines(raw)) + BuildBlock(NEW_INDENT, target) + [""]
  {
    var s := Parse(raw);
    ParseIsFileSection(raw);
    KeylessHeader(raw);
    MergedPieces(s, target);
    NewSection(s, BuildBlock(s.indent, target));
    hide Parse, FileLines, BuildBlock, MergedLines, DropTrailingBlank, IsItem, IsModelsKey, NoBreak, PlacedItems,
        TopLines;
    FlattenHasNoBreaks(PlacedItems(s.items, BuildBlock(s.indent, target)));
    FileLinesOfPrinted(MergedLines(s, target));
    KeylessPieces(s, target);
  }

  lemma KeylessPieces(s: Section, target: Target)
    requires IsFileSection(s) && !s.hasKey
    ensures MergedLines(s, target) == TopLines(s.header) + BuildBlock(NEW_INDENT, target)
  {
    NewSection(s, []);
    hide TopLines, BuildBlock;
  }

  /** Without a key the file is kept, trailing blanks aside, or replaced by the default header if empty. */
  lemma MergeWithoutKeyConservesLines(raw: string, target: Target)
    requires !Parse(raw).hasKey && BreakFree(target)
    ensures NonBlank(FileLines(MergedYaml(raw, target)))
         == (if raw == "" then DEFAULT_HEADER else NonBlank(FileLines(raw)))
             + ([MODELS_KEY] + BuildBlock(NEW_INDENT, target))
  {
    hide Parse, MergedYaml, BuildBlock, FileLines, NonBlank, TopLines, IsFileSection, PlacedItems;
    var s := Parse(raw);
    ParseIsFileSection(raw);
    KeylessHeader(raw);
    OutputIsCut(raw, target);
    NewSection(s, BuildBlock(NEW_INDENT, target));
    TopNonBlank(s.header);
    assert (if raw == "" then DEFAULT_HEADER else NonBlank(FileLines(raw))) + [MODELS_KEY]
        + BuildBlock(NEW_INDENT, target)
        == (if raw == "" then DEFAULT_HEADER else NonBlank(FileLines(raw)))
            + ([MODELS_KEY] + BuildBlock(NEW_INDENT, target));
  }

  lemma KeylessHeader(raw: string)
    requires !Parse(raw).hasKey
    ensures Parse(raw).header == FileLines(raw) && (FileLines(raw) == [] <==> raw == "")
  {
    ParseCovers([], FileLines(raw));
    assert [] + FileLines(raw) == FileLines(raw);
  }

  lemma TopNonBlank(header: seq<string>)
    ensures NonBlank(TopLines(header)) == (if header == [] then DEFAULT_HEADER else NonBlank(header)) + [MODELS_KEY]
  {
    KeyLines();
    hide NonBlank, DropTrailingBlank;
    NonBlankAppend(if header == [] then DEFAULT_HEADER else DropTrailingBlank(header), ["", MODELS_KEY]);
    TrimmingKeepsNonBlank(header);
  }

  lemma NewSection(s: Section, block: Item)
    requires IsFileSection(s) && !s.hasKey
    ensures Flatten(PlacedItems(s.items, block)) + NonBlank(s.trailing) == block && s.indent == NEW_INDENT
  {
    assert PlacedItems([], block) == [block];
    assert Flatten([block]) == block + Flatten([]) == block;
  }

  lemma KeyLines()
    ensures NonBlank(["", MODELS_KEY]) == [MODELS_KEY] && NonBlank(DEFAULT_HEADER) == DEFAULT_HEADER
  {
    BlankIsAllSpace("");
    NotBlank(MODELS_KEY);
    NotBlank(DEFAULT_HEADER[0]);
    NotBlank(DEFAULT_HEADER[1]);
    NotBlank(DEFAULT_HEADER[2]);
    hide IsBlank;
    AllNonBlank(DEFAULT_HEADER);
    assert ["", MODELS_KEY][1..] == [MODELS_KEY];
    AllNonBlank([MODELS_KEY]);
  }

  lemma NotBlank(line: string)
    requires line != "" && !IsSpace(line[0])
    ensures !IsBlank(line)
  {
    BlankIsAllSpace(line);
  }
}
