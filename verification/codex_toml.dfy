/** The Codex `config.toml` merger: line classification, the merge, and the read-back. */
module CodexToml {
  import opened ClientTarget
  import opened Text

  const PROVIDER_HEADER := "[model_providers.routerly]"
  const SELECTOR_KEY := "model_provider"
  const SELECTOR := SELECTOR_KEY + " = \"routerly\""

  // ----- how a line is classified

  /** A trimmed line that assigns to `key`: `/^key\s*=/`. */
  predicate AssignsTo(t: string, key: string) {
    key <= t && StartsWith(TrimStart(t[|key|..]), '=')
  }

  /** `/^model_provider\s*=/` on the trimmed line. */
  predicate IsSelector(line: string) {
    AssignsTo(Trim(line), SELECTOR_KEY)
  }

  /** `/^\s*\[/`: the line starts a table. */
  predicate OpensTable(line: string) {
    StartsWith(TrimStart(line), '[')
  }

  predicate IsProviderHeader(line: string) {
    Trim(line) == PROVIDER_HEADER
  }

  lemma LineKinds(line: string)
    ensures IsProviderHeader(line) ==> OpensTable(line)
    ensures IsSelector(line) ==> !OpensTable(line)
    ensures IsBlank(line) ==> !IsSelector(line) && !IsProviderHeader(line)
  {
    var t := TrimStart(line);
    assert Trim(line) <= t;
    assert Trim(line) != "" ==> Trim(line)[0] == t[0];
  }

  // ----- the merge

  function WithoutSelectors(lines: seq<string>): seq<string> {
    if lines == [] then []
    else (if IsSelector(lines[0]) then [] else [lines[0]]) + WithoutSelectors(lines[1..])
  }

  /** What is left after cutting provider tables, each from its header to the next table header. */
  function Surviving(lines: seq<string>, skipping: bool): seq<string> {
    if lines == [] then []
    else if IsProviderHeader(lines[0]) then Surviving(lines[1..], true)
    else if skipping && !OpensTable(lines[0]) then Surviving(lines[1..], true)
    else [lines[0]] + Surviving(lines[1..], false)
  }

  function Rest(existing: string): seq<string> {
    DropTrailingBlank(Surviving(WithoutSelectors(Lines(existing)), false))
  }

  const NAME_KEY := "name"
  const URL_KEY := "base_url"
  const WIRE_KEY := "wire_api"
  const TOKEN_KEY := "experimental_bearer_token"
  const NAME_VALUE := "Routerly"
  const WIRE_VALUE := "responses"

  /** A line `key = "value"`. */
  function FieldLine(key: string, value: string): string {
    key + (" = \"" + (value + "\""))
  }

  function ProviderFields(target: Target): seq<string> {
    [ FieldLine(NAME_KEY, NAME_VALUE),
      FieldLine(URL_KEY, ToBaseUrl(target.baseUrl)),
      FieldLine(WIRE_KEY, WIRE_VALUE),
      FieldLine(TOKEN_KEY, target.token) ]
  }

  function ProviderBlock(target: Target): seq<string> {
    [PROVIDER_HEADER] + ProviderFields(target)
  }

  /** The surviving lines with the blank line that separates them from the selector. */
  function Padded(rest: seq<string>): seq<string> {
    if rest == [] then [] else [""] + rest
  }

  function BodyLines(rest: seq<string>, target: Target): seq<string> {
    [SELECTOR] + Padded(rest) + [""] + ProviderBlock(target)
  }

  function Printed(rest: seq<string>, target: Target): string {
    Unlines(BodyLines(rest, target)) + "\n"
  }

  function MergedToml(existing: string, target: Target): string {
    Printed(Rest(existing), target)
  }

  /** The merge as written: a filter, a skipping loop, a trimming loop, a join. */
  method MergeToml(existing: string, target: Target) returns (merged: string)
    ensures merged == MergedToml(existing, target)
  {
    EmptyFile();
    var lines := if existing == "" then [] else Lines(existing);
    var rest := CutProviderTables(WithoutSelectors(lines));
    rest := PopTrailingBlank(rest);
    var bodyLines := [SELECTOR] + (if |rest| > 0 then [""] + rest else []) + [""] + ProviderBlock(target);
    merged := Unlines(bodyLines) + "\n";
  }

  /** The loop with the `skipping` flag. */
  method CutProviderTables(lines: seq<string>) returns (rest: seq<string>)
    ensures rest == Surviving(lines, false)
  {
    rest := [];
    var skipping := false;
    var k := 0;
    while k < |lines|
      invariant k <= |lines|
      invariant rest + Surviving(lines[k..], skipping) == Surviving(lines, false)
    {
      var line := lines[k];
      ghost var left := lines[k..];
      assert left[0] == line && left[1..] == lines[k + 1..];
      k := k + 1;
      if IsProviderHeader(line) {
        skipping := true;
        continue;
      }
      if skipping && OpensTable(line) {
        skipping := false;
      }
      if skipping {
        continue;
      }
      assert rest + ([line] + Surviving(left[1..], false)) == rest + [line] + Surviving(left[1..], false);
      rest := rest + [line];
    }
  }

  lemma EmptyFile()
    ensures Rest("") == [] && DropTrailingBlank(Surviving(WithoutSelectors([]), false)) == []
  {
    LineKinds("");
    assert Lines("") == [""];
    assert Surviving([""], false) == [""];
    assert DropTrailingBlank([""]) == [];
  }

  // ----- scope

  /** Every line with the table header it stands under, its own if it is one; "" at top level. */
  function Annotated(lines: seq<string>, scope: string): seq<(string, string)> {
    if lines == [] then []
    else
      var here := if OpensTable(lines[0]) then lines[0] else scope;
      [(lines[0], here)] + Annotated(lines[1..], here)
  }

  /** The lines a merge must keep: no selector, and not under a provider header. */
  function Kept(lines: seq<(string, string)>): seq<(string, string)> {
    if lines == [] then []
    else if IsSelector(lines[0].0) || IsProviderHeader(lines[0].1) then Kept(lines[1..])
    else [lines[0]] + Kept(lines[1..])
  }

  function WithoutTrailingBlank(lines: seq<(string, string)>): seq<(string, string)> {
    if lines != [] && IsBlank(Last(lines).0) then WithoutTrailingBlank(Init(lines)) else lines
  }

  /** The scope a line would have right after these lines. */
  function ScopeAfter(lines: seq<string>, scope: string): string {
    if lines == [] then scope
    else ScopeAfter(lines[1..], if OpensTable(lines[0]) then lines[0] else scope)
  }

  lemma {:induction false} AnnotatedAppend(x: seq<string>, y: seq<string>, scope: string)
    ensures Annotated(x + y, scope) == Annotated(x, scope) + Annotated(y, ScopeAfter(x, scope))
    decreases |x|
  {
    if x == [] {
      assert x + y == y;
    } else {
      assert (x + y)[1..] == x[1..] + y;
      AnnotatedAppend(x[1..], y, if OpensTable(x[0]) then x[0] else scope);
    }
  }

  /** The skipping loop keeps exactly the right lines, each under the header it had. */
  lemma {:induction false} SurvivorsKeepScope(lines: seq<string>, scope: string, after: string)
    requires !IsProviderHeader(scope) ==> after == scope
    ensures Annotated(Surviving(WithoutSelectors(lines), IsProviderHeader(scope)), after)
        == Kept(Annotated(lines, scope))
    decreases |lines|
  {
    if lines != [] {
      var line := lines[0];
      LineKinds(line);
      var here := if OpensTable(line) then line else scope;
      var tail := WithoutSelectors(lines[1..]);
      SurvivorsKeepScope(lines[1..], here, if IsProviderHeader(here) then after else here);
      if IsSelector(line) {
        assert WithoutSelectors(lines) == tail;
      } else {
        assert WithoutSelectors(lines) == [line] + tail && ([line] + tail)[1..] == tail;
      }
    }
  }

  lemma {:induction false} TrimKeepsScope(lines: seq<string>, scope: string)
    ensures Annotated(DropTrailingBlank(lines), scope) == WithoutTrailingBlank(Annotated(lines, scope))
    decreases |lines|
  {
    if lines != [] {
      assert lines == Init(lines) + [Last(lines)];
      AnnotatedAppend(Init(lines), [Last(lines)], scope);
      var a := Annotated(lines, scope);
      assert Init(a) == Annotated(Init(lines), scope) && Last(a).0 == Last(lines);
      TrimKeepsScope(Init(lines), scope);
    }
  }

  /** The lines of the provider block as a reader of the file splits them. */
  function BlockLines(target: Target): seq<string> {
    Lines(Unlines(ProviderBlock(target)))
  }

  /** What survives is made of whole lines of the file, neither selector nor provider header. */
  lemma RestIsClean(existing: string)
    ensures forall l | l in Rest(existing) :: NoBreak(l) && !IsSelector(l) && !IsProviderHeader(l)
    ensures Rest(existing) != [] ==> !IsBlank(Last(Rest(existing)))
  {
    var lines := Lines(existing);
    var kept := WithoutSelectors(lines);
    LinesHaveNoBreak(existing);
    FilteredIn(lines);
    SurvivingIn(kept, false);
    TrimmedIn(Surviving(kept, false));
  }

  lemma {:induction false} FilteredIn(lines: seq<string>)
    ensures forall l | l in WithoutSelectors(lines) :: l in lines && !IsSelector(l)
  {
    if lines != [] {
      FilteredIn(lines[1..]);
    }
  }

  lemma {:induction false} SurvivingIn(lines: seq<string>, skipping: bool)
    ensures forall l | l in Surviving(lines, skipping) :: l in lines && !IsProviderHeader(l)
    decreases |lines|
  {
    if lines != [] {
      SurvivingIn(lines[1..], true);
      SurvivingIn(lines[1..], false);
    }
  }

  /** The lines of a printed file, for any target. */
  lemma PrintedLines(rest: seq<string>, target: Target)
    requires forall l | l in rest :: NoBreak(l)
    ensures Lines(Printed(rest, target)) == [SELECTOR] + (Padded(rest) + TailLines(target))
  {
    PrintedLinesAround(SELECTOR, rest, ProviderBlock(target));
    assert BodyLines(rest, target) == [SELECTOR] + (Padded(rest) + [""]) + ProviderBlock(target);
  }

  lemma PrintedLinesAround(first: string, rest: seq<string>, block: seq<string>)
    requires NoBreak(first) && block != [] && forall l | l in rest :: NoBreak(l)
    ensures Lines(Unlines([first] + (Padded(rest) + [""]) + block) + "\n")
         == [first] + (Padded(rest) + ([""] + Lines(Unlines(block)) + [""]))
  {
    var top := [first] + (Padded(rest) + [""]);
    LinesRoundTrip(top);
    LinesOfTwoParts(top, block);
    Regroup(first, Padded(rest), Lines(Unlines(block)));
  }

  lemma Regroup(first: string, pad: seq<string>, block: seq<string>)
    ensures [first] + (pad + ([""] + block + [""])) == [first] + (pad + [""]) + block + [""]
  {
  }

  lemma LinesOfTwoParts(top: seq<string>, block: seq<string>)
    requires top != [] && block != [] && Lines(Unlines(top)) == top
    ensures Lines(Unlines(top + block) + "\n") == top + Lines(Unlines(block)) + [""]
  {
    UnlinesAppend(top, block);
    LinesOfBreak(Unlines(top), Unlines(block));
    LinesOfBreak(Unlines(top + block), "");
    assert Unlines(top + block) + "\n" == Unlines(top + block) + "\n" + "";
  }

  lemma MergedLines(existing: string, target: Target)
    ensures Lines(MergedToml(existing, target)) == [SELECTOR] + (Padded(Rest(existing)) + TailLines(target))
  {
    RestIsClean(existing);
    PrintedLines(Rest(existing), target);
  }

  /** The lines of the output after the surviving ones. */
  function TailLines(target: Target): seq<string> {
    [""] + BlockLines(target) + [""]
  }

  /**
   * Scope preservation: between the new selector at top level and the provider block at the end,
   * the file holds exactly the lines that are neither selector nor under a provider header, minus
   * trailing blanks, in order and each under the table header it stood under before.
   */
  lemma MergePreservesScope(existing: string, target: Target)
    ensures var kept := WithoutTrailingBlank(Kept(Annotated(Lines(existing), "")));
            Annotated(Lines(MergedToml(existing, target)), "")
            == [(SELECTOR, "")] + ((if kept == [] then [] else [("", "")] + kept)
                                   + Annotated(TailLines(target), ScopeAfter(Rest(existing), "")))
  {
    var rest := Rest(existing);
    RestKeepsScope(existing);
    SelectorIsSelector();
    AnnotatedPrinted(SELECTOR, rest, TailLines(target));
    MergedLines(existing, target);
  }

  lemma RestKeepsScope(existing: string)
    ensures Annotated(Rest(existing), "") == WithoutTrailingBlank(Kept(Annotated(Lines(existing), "")))
  {
    EmptyLine();
    SurvivorsKeepScope(Lines(existing), "", "");
    TrimKeepsScope(Surviving(WithoutSelectors(Lines(existing)), false), "");
  }

  lemma AnnotatedPrinted(first: string, rest: seq<string>, tail: seq<string>)
    requires !OpensTable(first)
    ensures Annotated([first] + (Padded(rest) + tail), "")
         == [(first, "")] + ((if rest == [] then [] else [("", "")] + Annotated(rest, ""))
                             + Annotated(tail, ScopeAfter(rest, "")))
  {
    AnnotatedOfPlain(first, Padded(rest) + tail);
    AnnotatedPadded(rest, tail);
  }

  lemma AnnotatedPadded(rest: seq<string>, tail: seq<string>)
    ensures Annotated(Padded(rest) + tail, "")
         == (if rest == [] then [] else [("", "")] + Annotated(rest, "")) + Annotated(tail, ScopeAfter(rest, ""))
  {
    if rest == [] {
      assert [] + tail == tail;
    } else {
      EmptyLine();
      assert [""] + rest + tail == [""] + (rest + tail);
      AnnotatedOfPlain("", rest + tail);
      AnnotatedAppend(rest, tail, "");
    }
  }

  lemma AnnotatedOfPlain(line: string, lines: seq<string>)
    requires !OpensTable(line)
    ensures Annotated([line] + lines, "") == [(line, "")] + Annotated(lines, "")
  {
    assert ([line] + lines)[1..] == lines;
  }

  lemma SelectorIsSelector()
    ensures IsSelector(SELECTOR) && !OpensTable(SELECTOR)
  {
    assert SELECTOR[0] == 'm' && Last(SELECTOR) == '"';
    TrimOfSolid(SELECTOR);
    AssignmentForm(SELECTOR_KEY, " = \"routerly\"");
  }

  lemma AssignmentForm(key: string, value: string)
    requires |value| > 1 && IsSpace(value[0]) && value[1] == '='
    ensures AssignsTo(key + value, key)
  {
    assert (key + value)[|key|..] == value;
    SpaceRunEndsAt(value, true, 1);
  }

  lemma ProviderHeaderIsHeader()
    ensures IsProviderHeader(PROVIDER_HEADER) && OpensTable(PROVIDER_HEADER) && !IsSelector(PROVIDER_HEADER)
  {
    TrimOfSolid(PROVIDER_HEADER);
    LineKinds(PROVIDER_HEADER);
  }

  lemma EmptyLine()
    ensures !OpensTable("") && !IsSelector("") && !IsProviderHeader("") && IsBlank("")
  {
    LineKinds("");
  }

  // ----- what the comment promises to keep

  /** The lines that are neither a selector at top level nor under a provider header. */
  function Promised(lines: seq<(string, string)>): seq<(string, string)> {
    if lines == [] then []
    else if (IsSelector(lines[0].0) && lines[0].1 == "") || IsProviderHeader(lines[0].1) then Promised(lines[1..])
    else [lines[0]] + Promised(lines[1..])
  }

  /** A selector in some other table. */
  predicate IsNested(line: (string, string)) {
    IsSelector(line.0) && line.1 != "" && !IsProviderHeader(line.1)
  }

  predicate HasNested(lines: seq<(string, string)>) {
    exists k :: 0 <= k < |lines| && IsNested(lines[k])
  }

  /** How many of the lines are not blank. */
  function Solid(lines: seq<(string, string)>): nat {
    if lines == [] then 0 else (if IsBlank(lines[0].0) then 0 else 1) + Solid(lines[1..])
  }

  lemma {:induction false} SolidAppend(x: seq<(string, string)>, y: seq<(string, string)>)
    ensures Solid(x + y) == Solid(x) + Solid(y)
  {
    hide IsBlank;
    if x == [] {
      assert x + y == y;
    } else {
      assert (x + y)[1..] == x[1..] + y;
      SolidAppend(x[1..], y);
    }
  }

  lemma {:induction false} SolidAfterTrim(lines: seq<(string, string)>)
    ensures Solid(WithoutTrailingBlank(lines)) == Solid(lines)
    decreases |lines|
  {
    hide IsBlank;
    if lines != [] && IsBlank(Last(lines).0) {
      assert lines == Init(lines) + [Last(lines)];
      SolidAppend(Init(lines), [Last(lines)]);
      SolidAfterTrim(Init(lines));
    }
  }

  lemma NestedOfCons(lines: seq<(string, string)>)
    requires lines != []
    ensures HasNested(lines) <==> IsNested(lines[0]) || HasNested(lines[1..])
  {
    assert forall k | 0 <= k < |lines| - 1 :: lines[1..][k] == lines[k + 1];
    assert forall k | 0 < k < |lines| :: lines[k] == lines[1..][k - 1];
    hide IsNested;
  }

  /** What is kept is what is promised, or fewer lines: a selector in another table is cut and not blank. */
  lemma {:induction false} KeptAgainstPromised(lines: seq<(string, string)>)
    ensures !HasNested(lines) ==> Kept(lines) == Promised(lines)
    ensures Solid(Kept(lines)) <= Solid(Promised(lines))
    ensures HasNested(lines) ==> Solid(Kept(lines)) < Solid(Promised(lines))
  {
    if lines != [] {
      var line, rest := lines[0], lines[1..];
      KeptAgainstPromised(rest);
      NestedOfCons(lines);
      LineKinds(line.0);
      SolidAppend([line], Kept(rest));
      SolidAppend([line], Promised(rest));
      hide IsSelector, IsProviderHeader, IsBlank, OpensTable, HasNested;
    }
  }

  /** The whole output as the comment promises it: only the top-level selector and the provider table replaced. */
  ghost predicate KeepsAllElse(existing: string, target: Target) {
    var kept := WithoutTrailingBlank(Promised(Annotated(Lines(existing), "")));
    Annotated(Lines(MergedToml(existing, target)), "")
    == [(SELECTOR, "")] + ((if kept == [] then [] else [("", "")] + kept)
                           + Annotated(TailLines(target), ScopeAfter(Rest(existing), "")))
  }

  /** The merge keeps all other lines, blank ones at the end aside, exactly if no other table has a selector. */
  lemma MergeKeepsAllElseIff(existing: string, target: Target)
    ensures KeepsAllElse(existing, target) <==> !HasNested(Annotated(Lines(existing), ""))
  {
    var lines := Annotated(Lines(existing), "");
    MergePreservesScope(existing, target);
    KeptAgainstPromised(lines);
    SolidAfterTrim(Kept(lines));
    SolidAfterTrim(Promised(lines));
    hide Kept, Promised, HasNested, Annotated, SplitOn, MergedToml, WithoutTrailingBlank, TailLines, Rest, Solid;
    SameMiddle((SELECTOR, ""), ("", ""), WithoutTrailingBlank(Kept(lines)), WithoutTrailingBlank(Promised(lines)),
      Annotated(TailLines(target), ScopeAfter(Rest(existing), "")));
  }

  lemma SameMiddle<T>(first: T, blank: T, x: seq<T>, y: seq<T>, tail: seq<T>)
    ensures ([first] + ((if x == [] then [] else [blank] + x) + tail)
             == [first] + ((if y == [] then [] else [blank] + y) + tail))
            <==> x == y
  {
    var p, q := if x == [] then [] else [blank] + x, if y == [] then [] else [blank] + y;
    if [first] + (p + tail) == [first] + (q + tail) {
      assert ([first] + (p + tail))[1..] == p + tail && ([first] + (q + tail))[1..] == q + tail;
      assert |p| == |q|;
      assert (p + tail)[..|p|] == p && (q + tail)[..|q|] == q;
      assert x == if p == [] then [] else p[1..];
      assert y == if q == [] then [] else q[1..];
    }
  }

  // ----- one selector, one provider table

  /** Line 0 is the only selector, line `header` the only provider header. */
  ghost predicate OneSelectorOneTable(lines: seq<string>, header: int) {
    && (forall k | 0 <= k < |lines| :: IsSelector(lines[k]) <==> k == 0)
    && (forall k | 0 <= k < |lines| :: IsProviderHeader(lines[k]) <==> k == header)
  }

  ghost predicate Plain(line: string) {
    !IsSelector(line) && !IsProviderHeader(line)
  }

  /** No line of the printed block after its header reads as a selector or a provider header. */
  ghost predicate BlockStaysOneTable(target: Target) {
    forall k | 0 < k < |BlockLines(target)| :: Plain(BlockLines(target)[k])
  }

  lemma BlockStartsWithHeader(target: Target)
    ensures BlockLines(target) == [PROVIDER_HEADER] + Lines(Unlines(ProviderFields(target)))
  {
    HeaderLineFirst(PROVIDER_HEADER, ProviderFields(target));
  }

  lemma HeaderLineFirst(header: string, fields: seq<string>)
    requires NoBreak(header) && fields != []
    ensures Lines(Unlines([header] + fields)) == [header] + Lines(Unlines(fields))
  {
    assert ([header] + fields)[1..] == fields;
    LinesOfBreak(header, Unlines(fields));
    LineAlone(header);
  }

  /**
   * The output starts with a selector, and it has no other selector and exactly one provider
   * header precisely when the target's own text adds none.
   */
  lemma MergeHasOneSelectorAndOneTable(existing: string, target: Target)
    ensures var out := Lines(MergedToml(existing, target));
            OneSelectorOneTable(out, |out| - 1 - |BlockLines(target)|) <==> BlockStaysOneTable(target)
  {
    MergedLines(existing, target);
    Regroup(SELECTOR, Padded(Rest(existing)), BlockLines(target));
    TopIsPlain(existing);
    SelectorIsSelector();
    LineKinds(SELECTOR);
    ProviderHeaderIsHeader();
    BlockStartsWithHeader(target);
    assert BlockLines(target)[0] == PROVIDER_HEADER;
    OnlyOnce(SELECTOR, Padded(Rest(existing)) + [""], BlockLines(target));
  }

  lemma TopIsPlain(existing: string)
    ensures Plain("") && forall l | l in Padded(Rest(existing)) + [""] :: Plain(l)
  {
    RestIsClean(existing);
    EmptyLine();
  }

  lemma OnlyOnce(selector: string, top: seq<string>, block: seq<string>)
    requires IsSelector(selector) && !IsProviderHeader(selector) && Plain("")
    requires block != [] && IsProviderHeader(block[0]) && !IsSelector(block[0])
    requires forall l | l in top :: Plain(l)
    ensures var out := [selector] + top + block + [""];
            OneSelectorOneTable(out, |out| - 1 - |block|) <==> forall k | 0 < k < |block| :: Plain(block[k])
  {
    hide IsSelector, IsProviderHeader;
    var out := [selector] + top + block + [""];
    var header := 1 + |top|;
    forall k | 0 <= k < |out| && k != 0 && !(header <= k < |out| - 1)
      ensures Plain(out[k])
    {
      assert k < header ==> out[k] in top;
    }
    if forall k | 0 < k < |block| :: Plain(block[k]) {
      assert forall k | header < k < |out| - 1 :: out[k] == block[k - header];
      assert out[header] == block[0];
    } else {
      var k :| 0 < k < |block| && !Plain(block[k]);
      assert out[header + k] == block[k];
    }
  }

  /** A line that starts with an ordinary character is none of the special kinds. */
  lemma OrdinaryLine(line: string)
    requires line != "" && !IsSpace(line[0]) && line[0] != '[' && line[0] != 'm'
    ensures !OpensTable(line) && Plain(line)
  {
    assert SpaceRun(line, true) == 0;
    assert Trim(line) != "" ==> Trim(line)[0] == line[0];
    assert SELECTOR_KEY[0] == 'm' && PROVIDER_HEADER[0] == '[';
  }

  lemma FieldLineIsOrdinary(key: string, value: string)
    requires key != "" && !IsSpace(key[0]) && key[0] != '[' && key[0] != 'm'
    ensures !OpensTable(FieldLine(key, value)) && Plain(FieldLine(key, value))
  {
    assert FieldLine(key, value)[0] == key[0];
    OrdinaryLine(FieldLine(key, value));
  }

  lemma FieldsAreOrdinary(target: Target)
    ensures forall l | l in ProviderFields(target) :: !OpensTable(l) && Plain(l)
  {
    FieldLineIsOrdinary(NAME_KEY, NAME_VALUE);
    FieldLineIsOrdinary(URL_KEY, ToBaseUrl(target.baseUrl));
    FieldLineIsOrdinary(WIRE_KEY, WIRE_VALUE);
    FieldLineIsOrdinary(TOKEN_KEY, target.token);
  }

  /** A target without line breaks prints as the five lines of the block, so it adds nothing. */
  lemma BreakFreeStaysOneTable(target: Target)
    requires BreakFree(target)
    ensures BlockLines(target) == ProviderBlock(target) && BlockStaysOneTable(target)
  {
    FieldHasNoBreak(NAME_KEY, NAME_VALUE);
    FieldHasNoBreak(URL_KEY, ToBaseUrl(target.baseUrl));
    FieldHasNoBreak(WIRE_KEY, WIRE_VALUE);
    FieldHasNoBreak(TOKEN_KEY, target.token);
    LinesRoundTrip(ProviderBlock(target));
    FieldsAreOrdinary(target);
  }

  lemma FieldHasNoBreak(key: string, value: string)
    requires NoBreak(key) && NoBreak(value)
    ensures NoBreak(FieldLine(key, value))
  {
  }

  /** A selector line under a table header is not in the merged file, unless it is the one that is written. */
  lemma NestedIsLost(header: string, line: string, target: Target)
    requires NoBreak(header) && NoBreak(line) && BreakFree(target)
    requires OpensTable(header) && !IsProviderHeader(header) && IsSelector(line) && line != SELECTOR
    ensures var existing := Unlines([header, line]);
            && HasNested(Annotated(Lines(existing), ""))
            && line in Lines(existing) && line !in Lines(MergedToml(existing, target))
  {
    hide IsSelector, IsProviderHeader, OpensTable, Annotated, SplitOn, JoinWith, MergedToml, HasNested;
    var lines := [header, line];
    LinesRoundTrip(lines);
    assert line == lines[1];
    NestedInTwo(header, line);
    OnlyOneSelector(Unlines(lines), line, target);
  }

  lemma NestedInTwo(header: string, line: string)
    requires OpensTable(header) && !IsProviderHeader(header) && IsSelector(line)
    ensures HasNested(Annotated([header, line], ""))
  {
    LineKinds(line);
    assert header != "" && [header, line][1..] == [line];
    hide IsSelector, IsProviderHeader, OpensTable;
    assert Annotated([header, line], "") == [(header, header)] + Annotated([line], header);
    assert Annotated([header, line], "")[1] == (line, header);
  }

  lemma OnlyOneSelector(existing: string, line: string, target: Target)
    requires BreakFree(target) && IsSelector(line) && line != SELECTOR
    ensures line !in Lines(MergedToml(existing, target))
  {
    BreakFreeStaysOneTable(target);
    MergeHasOneSelectorAndOneTable(existing, target);
    MergedLines(existing, target);
    hide IsSelector, IsProviderHeader, SplitOn, MergedToml, BlockStaysOneTable, BlockLines, Padded, TailLines;
    assert Lines(MergedToml(existing, target))[0] == SELECTOR;
  }

  const PROFILE := "[profiles.o3]"
  const OPENAI := SELECTOR_KEY + " = \"openai\""

  lemma StartsTable(line: string)
    requires line != "" && line[0] == '[' && !IsSpace(Last(line))
    ensures OpensTable(line) && (IsProviderHeader(line) <==> line == PROVIDER_HEADER)
  {
    TrimOfSolid(line);
    hide Trim, TrimStart;
  }

  lemma ProfileIsTable()
    ensures OpensTable(PROFILE) && !IsProviderHeader(PROFILE)
  {
    hide OpensTable, IsProviderHeader;
    StartsTable(PROFILE);
    assert |PROFILE| != |PROVIDER_HEADER|;
  }

  lemma ExampleHasNoBreak()
    ensures NoBreak(PROFILE) && NoBreak(OPENAI)
  {
  }

  lemma AssignmentIsSelector(value: string)
    requires |value| > 1 && IsSpace(value[0]) && value[1] == '=' && !IsSpace(Last(value))
    ensures IsSelector(SELECTOR_KEY + value)
  {
    assert SELECTOR_KEY[0] == 'm' && (SELECTOR_KEY + value)[0] == SELECTOR_KEY[0];
    TrimOfSolid(SELECTOR_KEY + value);
    AssignmentForm(SELECTOR_KEY, value);
    hide AssignsTo, Trim;
  }

  lemma OpenaiIsSelector()
    ensures IsSelector(OPENAI) && OPENAI != SELECTOR
  {
    hide IsSelector;
    AssignmentIsSelector(" = \"openai\"");
    assert |OPENAI| != |SELECTOR|;
  }

  /** A profile that picks its own provider, for instance. */
  lemma NestedExample(target: Target)
    requires BreakFree(target)
    ensures var existing := Unlines([PROFILE, OPENAI]);
            OPENAI in Lines(existing) && OPENAI !in Lines(MergedToml(existing, target))
  {
    hide *;
    ProfileIsTable();
    OpenaiIsSelector();
    ExampleHasNoBreak();
    NestedIsLost(PROFILE, OPENAI, target);
  }

  /** A token that brings its own provider header. */
  function HeaderToken(): string {
    "\n" + PROVIDER_HEADER + "\n"
  }

  /** The lines of a printed block whose last field holds `x`, a break, `y`, a break. */
  lemma LinesAroundBreaks(top: seq<string>, x: string, y: string, z: string) returns (k: nat)
    requires top != [] && NoBreak(y)
    ensures var lines := Lines(Unlines(top + [x + "\n" + y + "\n" + z]));
            0 < k < |lines| && lines[k] == y
  {
    hide SplitOn;
    UnlinesAppend(top, [x + "\n" + y + "\n" + z]);
    var before := Unlines(top) + "\n" + x;
    assert Unlines(top) + "\n" + (x + "\n" + y + "\n" + z) == before + "\n" + (y + "\n" + z);
    LinesOfBreak(before, y + "\n" + z);
    LinesOfBreak(y, z);
    LineAlone(y);
    k := |Lines(before)|;
    assert (Lines(before) + (Lines(y) + Lines(z)))[k] == y;
  }

  /** That token puts a second header into every file it is merged into. */
  lemma TwoTablesExample(existing: string)
    ensures HasTwoTables(existing, Target("", HeaderToken()))
  {
    hide *;
    var k := SecondHeader(Target("", HeaderToken()));
    ProviderHeaderIsHeader();
    SecondHeaderShows(existing, Target("", HeaderToken()), k);
  }

  /** The output has another selector or another provider header than the ones that are written. */
  ghost predicate HasTwoTables(existing: string, target: Target) {
    var out := Lines(MergedToml(existing, target));
    !OneSelectorOneTable(out, |out| - 1 - |BlockLines(target)|)
  }

  lemma SecondHeaderShows(existing: string, target: Target, k: nat)
    requires 0 < k < |BlockLines(target)| && IsProviderHeader(BlockLines(target)[k])
    ensures HasTwoTables(existing, target)
  {
    hide SplitOn, MergedToml, OneSelectorOneTable, BlockLines, BlockStaysOneTable, Plain, IsProviderHeader;
    NotPlain(BlockLines(target)[k]);
    NotOneTable(target, k);
    MergeHasOneSelectorAndOneTable(existing, target);
  }

  lemma NotPlain(line: string)
    requires IsProviderHeader(line)
    ensures !Plain(line)
  {
    hide IsProviderHeader;
  }

  lemma NotOneTable(target: Target, k: nat)
    requires 0 < k < |BlockLines(target)| && !Plain(BlockLines(target)[k])
    ensures !BlockStaysOneTable(target)
  {
    hide Plain, BlockLines;
  }

  lemma SecondHeader(target: Target) returns (k: nat)
    requires target.token == HeaderToken()
    ensures 0 < k < |BlockLines(target)| && BlockLines(target)[k] == PROVIDER_HEADER
  {
    var block := ProviderBlock(target);
    var top, x := block[..4], TOKEN_KEY + " = \"";
    LastFieldIsToken(target);
    assert block == top + [x + "\n" + PROVIDER_HEADER + "\n" + "\""];
    hide ProviderBlock, HeaderToken, SplitOn, JoinWith;
    k := LinesAroundBreaks(top, x, PROVIDER_HEADER, "\"");
  }

  lemma LastFieldIsToken(target: Target)
    requires target.token == HeaderToken()
    ensures |ProviderBlock(target)| == 5
    ensures ProviderBlock(target)[4] == TOKEN_KEY + " = \"" + "\n" + PROVIDER_HEADER + "\n" + "\""
  {
    hide ToBaseUrl;
    Reassociate(TOKEN_KEY, " = \"", "\n", PROVIDER_HEADER, "\n", "\"");
  }

  lemma Reassociate(a: string, b: string, c: string, d: string, e: string, f: string)
    ensures a + (b + ((c + d + e) + f)) == a + b + c + d + e + f
  {
  }

  // ----- reading the block back

  /** A character that `.` does not match. */
  predicate IsTerminator(c: char) {
    c == '\n' || c == '\r' || c == '\U{2028}' || c == '\U{2029}'
  }

  predicate NoTerminator(s: string) {
    forall i | 0 <= i < |s| :: !IsTerminator(s[i])
  }

  /** `\w` */
  predicate IsWord(c: char) {
    'a' <= c <= 'z' || 'A' <= c <= 'Z' || '0' <= c <= '9' || c == '_'
  }

  function WordRun(s: string): (n: nat)
    ensures n <= |s|
  {
    if s != "" && IsWord(s[0]) then 1 + WordRun(s[1..]) else 0
  }

  /** `/^\s*(\w+)\s*=\s*"(.*)"\s*$/`: key and value of a field line. */
  function Field(line: string): Option<(string, string)> {
    var t := TrimStart(line);
    var w := WordRun(t);
    var u := TrimStart(t[w..]);
    if w == 0 || !StartsWith(u, '=') then None
    else
      var q := TrimStart(u[1..]);
      if !StartsWith(q, '"') then None
      else
        var r := TrimEnd(q[1..]);
        if r == "" || Last(r) != '"' || !NoTerminator(Init(r)) then None
        else Some((t[..w], Init(r)))
  }

  /** Storing under `__proto__` has no effect on a plain object. */
  function Stored(block: map<string, string>, key: string, value: string): map<string, string> {
    if key == "__proto__" then block else block[key := value]
  }

  function Fields(lines: seq<string>, block: map<string, string>): map<string, string>
    decreases |lines|
  {
    if lines == [] || OpensTable(lines[0]) then block
    else
      match Field(lines[0])
      case None => Fields(lines[1..], block)
      case Some((key, value)) => Fields(lines[1..], Stored(block, key, value))
  }

  function ExtractedFrom(lines: seq<string>): Option<map<string, string>> {
    if lines == [] then None
    else if IsProviderHeader(lines[0]) then Some(Fields(lines[1..], map[]))
    else ExtractedFrom(lines[1..])
  }

  function Extracted(raw: string): Option<map<string, string>> {
    ExtractedFrom(Lines(raw))
  }

  /** The reader as written: find the header, then collect fields up to the next table. */
  method ExtractProviderBlock(raw: string) returns (found: Option<map<string, string>>)
    ensures found == Extracted(raw)
  {
    var lines := Lines(raw);
    var i := 0;
    while i < |lines| && !IsProviderHeader(lines[i])
      invariant i <= |lines| && ExtractedFrom(lines[i..]) == ExtractedFrom(lines)
    {
      assert lines[i..][1..] == lines[i + 1..];
      i := i + 1;
    }
    if i == |lines| {
      return None;
    }
    assert lines[i..][1..] == lines[i + 1..];
    var block := CollectFields(lines[i + 1..]);
    return Some(block);
  }

  method CollectFields(lines: seq<string>) returns (block: map<string, string>)
    ensures block == Fields(lines, map[])
  {
    block := map[];
    var i := 0;
    while i < |lines|
      invariant i <= |lines| && Fields(lines[i..], block) == Fields(lines, map[])
    {
      var line := lines[i];
      assert lines[i..][0] == line && lines[i..][1..] == lines[i + 1..];
      if OpensTable(line) {
        break;
      }
      var field := Field(line);
      if field.Some? {
        block := Stored(block, field.value.0, field.value.1);
      }
      i := i + 1;
    }
  }

  lemma FieldOfLine(key: string, value: string)
    requires key != "" && NoTerminator(value) && forall i | 0 <= i < |key| :: IsWord(key[i])
    ensures Field(FieldLine(key, value)) == Some((key, value))
  {
    var line := FieldLine(key, value);
    var rest := " = \"" + (value + "\"");
    assert line == key + rest && line[0] == key[0] && !IsSpace(key[0]);
    assert TrimStart(line) == line;
    WordRunEndsAt(line, |key|);
    assert line[..|key|] == key && line[|key|..] == rest;
    SpaceRunEndsAt(rest, true, 1);
    var u := rest[1..];
    assert u[0] == '=' && u[1] == ' ' && u[2] == '"' && u[1..][0] == ' ' && u[1..][1] == '"';
    SpaceRunEndsAt(u[1..], true, 1);
    var quoted := value + "\"";
    assert u[1..][1..][1..] == quoted;
    assert TrimEnd(quoted) == quoted && Init(quoted) == value && Last(quoted) == '"';
  }

  lemma {:induction false} WordRunEndsAt(s: string, n: nat)
    requires n < |s| && !IsWord(s[n]) && forall i | 0 <= i < n :: IsWord(s[i])
    ensures WordRun(s) == n
  {
    if n > 0 {
      WordRunEndsAt(s[1..], n - 1);
    }
  }

  /** Values that are read never hold a line terminator. */
  ghost predicate CleanValues(block: map<string, string>) {
    forall key | key in block :: NoTerminator(block[key])
  }

  lemma FieldIsClean(line: string)
    ensures Field(line).Some? ==> NoTerminator(Field(line).value.1)
  {
    hide IsTerminator, NoTerminator;
  }

  lemma {:induction false} ReadValuesAreClean(lines: seq<string>, block: map<string, string>)
    requires CleanValues(block)
    ensures CleanValues(Fields(lines, block))
    decreases |lines|
  {
    hide Field, OpensTable, NoTerminator, CleanValues, Stored;
    if lines != [] && !OpensTable(lines[0]) {
      FieldIsClean(lines[0]);
      match Field(lines[0])
      case None => ReadValuesAreClean(lines[1..], block);
      case Some((key, value)) =>
        StoredIsClean(block, key, value);
        ReadValuesAreClean(lines[1..], Stored(block, key, value));
    }
  }

  lemma StoredIsClean(block: map<string, string>, key: string, value: string)
    requires CleanValues(block) && NoTerminator(value)
    ensures CleanValues(Stored(block, key, value))
  {
    hide NoTerminator;
  }

  lemma {:induction false} FoundValuesAreClean(lines: seq<string>)
    ensures ExtractedFrom(lines).Some? ==> CleanValues(ExtractedFrom(lines).value)
  {
    if lines != [] {
      ReadValuesAreClean(lines[1..], map[]);
      FoundValuesAreClean(lines[1..]);
    }
  }

  lemma {:induction false} SearchSkips(top: seq<string>, lines: seq<string>)
    requires forall l | l in top :: !IsProviderHeader(l)
    ensures ExtractedFrom(top + lines) == ExtractedFrom(lines)
  {
    hide Fields, IsProviderHeader;
    if top == [] {
      assert top + lines == lines;
    } else {
      assert !IsProviderHeader(top[0]);
      assert (top + lines)[1..] == top[1..] + lines && (top + lines)[0] == top[0];
      SearchSkips(top[1..], lines);
    }
  }

  /** The whole block as it must read back. */
  function Expected(target: Target): map<string, string> {
    var named := map[][NAME_KEY := NAME_VALUE][URL_KEY := ToBaseUrl(target.baseUrl)];
    named[WIRE_KEY := WIRE_VALUE][TOKEN_KEY := target.token]
  }

  lemma FieldsOfCons(key: string, value: string, lines: seq<string>, block: map<string, string>)
    requires key != "" && NoTerminator(value) && (forall i | 0 <= i < |key| :: IsWord(key[i]))
    requires key[0] != 'm' && key[0] != '_'
    ensures Fields([FieldLine(key, value)] + lines, block) == Fields(lines, block[key := value])
  {
    hide FieldLine, Field, Fields, OpensTable, IsSelector, IsProviderHeader, IsTerminator;
    assert key[0] != '[' && !IsSpace(key[0]);
    FieldOfLine(key, value);
    FieldLineIsOrdinary(key, value);
    FieldsStep(FieldLine(key, value), key, value, lines, block);
  }

  lemma FieldsStep(line: string, key: string, value: string, lines: seq<string>, block: map<string, string>)
    requires !OpensTable(line) && Field(line) == Some((key, value)) && key != "" && key[0] != '_'
    ensures Fields([line] + lines, block) == Fields(lines, block[key := value])
  {
    hide OpensTable, Field;
    assert ([line] + lines)[1..] == lines;
    assert "__proto__"[0] == '_';
  }

  lemma FieldsReadBack(target: Target)
    requires NoTerminator(ToBaseUrl(target.baseUrl)) && NoTerminator(target.token)
    ensures Fields(ProviderFields(target) + [""], map[]) == Expected(target)
  {
    hide Fields, FieldLine, ToBaseUrl;
    var m1 := map[][NAME_KEY := NAME_VALUE];
    var m2 := m1[URL_KEY := ToBaseUrl(target.baseUrl)];
    var m3 := m2[WIRE_KEY := WIRE_VALUE];
    var l4 := [FieldLine(TOKEN_KEY, target.token)] + [""];
    var l3 := [FieldLine(WIRE_KEY, WIRE_VALUE)] + l4;
    var l2 := [FieldLine(URL_KEY, ToBaseUrl(target.baseUrl))] + l3;
    FieldsOfCons(NAME_KEY, NAME_VALUE, l2, map[]);
    FieldsOfCons(URL_KEY, ToBaseUrl(target.baseUrl), l3, m1);
    FieldsOfCons(WIRE_KEY, WIRE_VALUE, l4, m2);
    FieldsOfCons(TOKEN_KEY, target.token, [""], m3);
    FieldsOfBlank(Expected(target));
    assert ProviderFields(target) + [""] == [FieldLine(NAME_KEY, NAME_VALUE)] + l2;
  }

  lemma FieldsOfBlank(block: map<string, string>)
    ensures Fields([""], block) == block
  {
    EmptyLine();
    assert TrimStart("") == "";
    assert Field("") == None;
    hide Field, OpensTable;
  }

  predicate TerminatorFree(target: Target) {
    NoTerminator(target.baseUrl) && NoTerminator(target.token)
  }

  lemma UrlTerminators(serverUrl: string)
    ensures NoTerminator(ToBaseUrl(serverUrl)) <==> NoTerminator(serverUrl)
  {
    var url := ToBaseUrl(serverUrl);
    assert forall i | 0 <= i < |url| - 3 :: url[i] == serverUrl[i];
    assert forall i | |url| - 3 <= i < |url| :: !IsTerminator(url[i]);
    assert forall i | |url| - 3 <= i < |serverUrl| :: !IsTerminator(serverUrl[i]);
  }

  /** The reader gives back the URL and the token that were merged in. */
  ghost predicate ReadsBack(existing: string, target: Target) {
    var found := Extracted(MergedToml(existing, target));
    && found.Some? && URL_KEY in found.value && TOKEN_KEY in found.value
    && found.value[URL_KEY] == ToBaseUrl(target.baseUrl) && found.value[TOKEN_KEY] == target.token
  }

  /** For targets free of line terminators the block that is read back is the block written. */
  lemma MergedBlockReadsBack(existing: string, target: Target)
    requires TerminatorFree(target)
    ensures Extracted(MergedToml(existing, target)) == Some(Expected(target))
  {
    hide Fields, ExtractedFrom, SplitOn, ToBaseUrl, ProviderFields, IsSelector, IsProviderHeader, OpensTable, Expected;
    UrlTerminators(target.baseUrl);
    MergedLines(existing, target);
    Regroup(SELECTOR, Padded(Rest(existing)), BlockLines(target));
    TopIsPlain(existing);
    SelectorIsSelector();
    LineKinds(SELECTOR);
    BreakFreeStaysOneTable(target) by { assert IsTerminator('\n'); }
    BlockReadsBack(SELECTOR, Padded(Rest(existing)) + [""], PROVIDER_HEADER, target);
  }

  lemma BlockReadsBack(selector: string, top: seq<string>, header: string, target: Target)
    requires !IsProviderHeader(selector) && (forall l | l in top :: Plain(l)) && header == PROVIDER_HEADER
    requires NoTerminator(ToBaseUrl(target.baseUrl)) && NoTerminator(target.token)
    ensures ExtractedFrom([selector] + top + ([header] + ProviderFields(target)) + [""]) == Some(Expected(target))
  {
    ProviderHeaderIsHeader();
    hide Fields, ToBaseUrl, ProviderFields, IsSelector, IsProviderHeader, OpensTable, Expected;
    var fields := ProviderFields(target) + [""];
    SearchSkips([selector] + top, [header] + fields);
    assert [selector] + top + ([header] + ProviderFields(target)) + [""] == [selector] + top + ([header] + fields);
    assert ([header] + fields)[1..] == fields;
    FieldsReadBack(target);
  }

  /** URL and token read back exactly when neither holds a line terminator. */
  lemma ReadsBackIffTerminatorFree(existing: string, target: Target)
    ensures ReadsBack(existing, target) <==> TerminatorFree(target)
  {
    hide Fields, ExtractedFrom, SplitOn, MergedToml;
    UrlTerminators(target.baseUrl);
    if TerminatorFree(target) {
      MergedBlockReadsBack(existing, target);
    }
    if ReadsBack(existing, target) {
      FoundValuesAreClean(Lines(MergedToml(existing, target)));
    }
  }

  // ----- planning again

  lemma {:induction false} FiltersKeep(lines: seq<string>)
    requires forall l | l in lines :: Plain(l)
    ensures WithoutSelectors(lines) == lines && Surviving(lines, false) == lines
  {
    hide IsSelector, IsProviderHeader, OpensTable;
    if lines != [] {
      assert Plain(lines[0]);
      FiltersKeep(lines[1..]);
    }
  }

  lemma {:induction false} FilterAppend(x: seq<string>, y: seq<string>)
    ensures WithoutSelectors(x + y) == WithoutSelectors(x) + WithoutSelectors(y)
  {
    hide IsSelector;
    if x == [] {
      assert x + y == y;
    } else {
      assert (x + y)[1..] == x[1..] + y;
      FilterAppend(x[1..], y);
    }
  }

  lemma {:induction false} SurvivingAppend(x: seq<string>, y: seq<string>)
    requires forall l | l in x :: Plain(l)
    ensures Surviving(x + y, false) == x + Surviving(y, false)
  {
    hide IsSelector, IsProviderHeader, OpensTable;
    if x == [] {
      assert x + y == y;
    } else {
      assert Plain(x[0]);
      assert (x + y)[1..] == x[1..] + y && (x + y)[0] == x[0];
      SurvivingAppend(x[1..], y);
    }
  }

  lemma {:induction false} SkipsToEnd(lines: seq<string>)
    requires forall l | l in lines :: !OpensTable(l)
    ensures Surviving(lines, true) == []
  {
    hide IsProviderHeader, OpensTable;
    if lines != [] {
      LineKinds(lines[0]);
      SkipsToEnd(lines[1..]);
    }
  }

  lemma DropsPadding(rest: seq<string>)
    requires rest != [] ==> !IsBlank(Last(rest))
    ensures DropTrailingBlank(Padded(rest) + [""]) == Padded(rest)
  {
    EmptyLine();
    hide IsBlank;
    assert Init(Padded(rest) + [""]) == Padded(rest);
    if rest != [] {
      assert Last([""] + rest) == Last(rest);
    }
  }

  /** What a second plan finds to keep: the surviving lines of the first, one blank line further down. */
  lemma RestOfPrinted(rest: seq<string>, target: Target)
    requires BreakFree(target) && (forall l | l in rest :: NoBreak(l) && Plain(l))
    requires rest != [] ==> !IsBlank(Last(rest))
    ensures Rest(Printed(rest, target)) == Padded(rest)
  {
    EmptyLine();
    SelectorIsSelector();
    ProviderHeaderIsHeader();
    FieldsAreOrdinary(target);
    BreakFreeStaysOneTable(target);
    PrintedLines(rest, target);
    DropsPadding(rest);
    hide SplitOn, JoinWith, Surviving, WithoutSelectors, DropTrailingBlank;
    hide IsSelector, IsProviderHeader, OpensTable, IsBlank, ProviderFields;
    RestOfLines(SELECTOR, Padded(rest) + [""], PROVIDER_HEADER, ProviderFields(target) + [""]);
    RegroupTail(Padded(rest), PROVIDER_HEADER, ProviderFields(target));
  }

  lemma RegroupTail(pad: seq<string>, header: string, fields: seq<string>)
    ensures pad + ([""] + ([header] + fields) + [""]) == (pad + [""]) + ([header] + (fields + [""]))
  {
  }

  lemma RestOfLines(selector: string, top: seq<string>, header: string, fields: seq<string>)
    requires IsSelector(selector) && IsProviderHeader(header) && !IsSelector(header)
    requires forall l | l in top :: Plain(l)
    requires forall l | l in fields :: Plain(l) && !OpensTable(l)
    ensures Surviving(WithoutSelectors([selector] + (top + ([header] + fields))), false) == top
  {
    hide IsSelector, IsProviderHeader, OpensTable;
    var table := [header] + fields;
    assert WithoutSelectors([selector] + (top + table)) == top + table by {
      FilterAppend([selector], top + table);
      FilterAppend(top, table);
      FilterAppend([header], fields);
      FiltersKeep(top);
      FiltersKeep(fields);
      assert WithoutSelectors([selector]) == [] && WithoutSelectors([header]) == [header];
    }
    SurvivingAppend(top, table);
    assert Surviving(table, false) == [] by {
      assert table[1..] == fields;
      SkipsToEnd(fields);
    }
  }

  /** Planning for each target in turn. */
  function Replanned(existing: string, targets: seq<Target>): string {
    if targets == [] then existing
    else MergedToml(Replanned(existing, Init(targets)), Last(targets))
  }

  function BlankLines(n: nat): seq<string> {
    if n == 0 then [] else [""] + BlankLines(n - 1)
  }

  /**
   * Planning k + 1 times prints what planning once with the last target prints, with k blank lines
   * more before the surviving lines; with nothing else in the file there is no drift.
   */
  lemma {:induction false} ReplanDrift(existing: string, targets: seq<Target>)
    requires targets != [] && forall t | t in targets :: BreakFree(t)
    ensures Replanned(existing, targets)
         == if Rest(existing) == [] then MergedToml(existing, Last(targets))
            else Printed(BlankLines(|targets| - 1) + Rest(existing), Last(targets))
    ensures Rest(Replanned(existing, Init(targets)))
         == if Rest(existing) == [] then [] else BlankLines(|targets| - 1) + Rest(existing)
    decreases |targets|
  {
    hide Lines, Surviving, DropTrailingBlank, WithoutSelectors, IsSelector, IsProviderHeader, OpensTable, IsBlank,
      Printed, Rest, BreakFree;
    var before := Init(targets);
    RestIsClean(existing);
    EmptyLine();
    if before == [] {
      assert Replanned(existing, before) == existing;
      assert [] + Rest(existing) == Rest(existing);
    } else {
      ReplanDrift(existing, before);
      var rest := Rest(Replanned(existing, Init(before)));
      RestIsClean(Replanned(existing, Init(before)));
      RestOfPrinted(rest, Last(before));
      assert [""] + (BlankLines(|before| - 1) + Rest(existing)) == BlankLines(|before|) + Rest(existing);
    }
  }

  /** Planning twice is planning once exactly when nothing but the integration's own lines is there. */
  lemma ReplanIsStableIffNothingElse(existing: string, first: Target, last: Target)
    requires BreakFree(first)
    ensures MergedToml(MergedToml(existing, first), last) == MergedToml(existing, last) <==> Rest(existing) == []
  {
    var rest := Rest(existing);
    RestIsClean(existing);
    RestOfPrinted(rest, first);
    EmptyLine();
    PrintedLines(rest, last);
    PrintedLines(Padded(rest), last);
  }

  const ONE_LINE := "key = 1"

  lemma RestOfOneLine()
    ensures Rest(ONE_LINE) == [ONE_LINE] && Rest("") == []
  {
    EmptyFile();
    LineAlone(ONE_LINE);
    assert ONE_LINE[0] == 'k';
    OrdinaryLine(ONE_LINE);
    BlankIsAllSpace(ONE_LINE);
    FiltersKeep([ONE_LINE]);
    hide IsSelector, IsProviderHeader, OpensTable, IsBlank;
  }

  /** Any other line will do: planning a one-line file twice adds a blank line. */
  lemma ReplanExample(first: Target, last: Target)
    requires BreakFree(first)
    ensures MergedToml(MergedToml(ONE_LINE, first), last) != MergedToml(ONE_LINE, last)
  {
    hide *;
    RestOfOneLine();
    ReplanIsStableIffNothingElse(ONE_LINE, first, last);
  }

  /** Two files merge to the same one exactly if the merge keeps the same lines of both. */
  lemma SameMergeIff(x: string, y: string, target: Target)
    ensures MergedToml(x, target) == MergedToml(y, target) <==> Rest(x) == Rest(y)
  {
    MergedLines(x, target);
    MergedLines(y, target);
    hide Rest, SplitOn, Printed, TailLines;
    SameMiddle(SELECTOR, "", Rest(x), Rest(y), TailLines(target));
  }

  /** A carriage return in a token is written and not read back. */
  lemma ReadBackExample(existing: string)
    ensures !ReadsBack(existing, Target("", "\r"))
  {
    assert IsTerminator("\r"[0]);
    ReadsBackIffTerminatorFree(existing, Target("", "\r"));
    hide ReadsBack;
  }

  /** However often it is planned, the non-blank lines are those of planning once with the last target. */
  lemma ReplanKeepsNonBlank(existing: string, targets: seq<Target>)
    requires targets != [] && forall t | t in targets :: BreakFree(t)
    ensures NonBlank(Lines(Replanned(existing, targets))) == NonBlank(Lines(MergedToml(existing, Last(targets))))
  {
    var rest, target := Rest(existing), Last(targets);
    ReplanDrift(existing, targets);
    if rest != [] {
      hide SplitOn, Surviving, DropTrailingBlank, WithoutSelectors, IsSelector, IsProviderHeader, OpensTable, IsBlank,
          JoinWith;
      var blanks := BlankLines(|targets| - 1);
      RestIsClean(existing);
      BlankLinesAreBlank(|targets| - 1);
      PrintedLines(rest, target);
      PrintedLines(blanks + rest, target);
      NonBlankIgnoresPadding(SELECTOR, blanks, rest, TailLines(target));
    }
  }

  lemma NonBlankIgnoresPadding(first: string, blanks: seq<string>, rest: seq<string>, tail: seq<string>)
    requires rest != [] && NonBlank(blanks) == []
    ensures NonBlank([first] + (Padded(blanks + rest) + tail)) == NonBlank([first] + (Padded(rest) + tail))
  {
    hide NonBlank, IsBlank;
    NonBlankAppend([first], Padded(blanks + rest) + tail);
    NonBlankAppend([first], Padded(rest) + tail);
    NonBlankAppend(Padded(blanks + rest), tail);
    NonBlankAppend(Padded(rest), tail);
    NonBlankAppend([""], blanks + rest);
    NonBlankAppend([""], rest);
    NonBlankAppend(blanks, rest);
  }

  lemma {:induction false} BlankLinesAreBlank(n: nat)
    ensures NonBlank(BlankLines(n)) == [] && forall l | l in BlankLines(n) :: l == ""
  {
    EmptyLine();
    if n > 0 {
      BlankLinesAreBlank(n - 1);
      assert BlankLines(n)[1..] == BlankLines(n - 1);
    }
  }
}
