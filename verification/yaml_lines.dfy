/** The lines of a `config.yaml` that the merger knows, as the regular expressions describe them, and its section. */
module YamlLines {
  import opened ContinueYaml
  import opened Text

  /** `/^models:\s*$/` */
  lemma IsModelsKeyIff(line: string)
    ensures IsModelsKey(line) <==> exists x :: line == "models:" + x && AllSpace(x)
  {
    assert MODELS_KEY == "models:";
    if IsModelsKey(line) {
      assert line == "models:" + line[|MODELS_KEY|..];
    }
    if exists x :: line == "models:" + x && AllSpace(x) {
      var x :| line == "models:" + x && AllSpace(x);
      assert line[|MODELS_KEY|..] == x;
    }
  }

  /** White space, a dash, white space, anything. */
  ghost predicate IsDashed(line: string, x: string, c: char, z: string) {
    line == x + ("-" + ([c] + z)) && AllSpace(x) && IsSpace(c)
  }

  /** `/^(\s*)-\s/`, and its group. */
  lemma IsItemStartIff(line: string)
    ensures IsItemStart(line) <==> exists c, z :: IsDashed(line, ItemIndent(line), c, z)
    ensures forall x, c, z | IsDashed(line, x, c, z) :: IsItemStart(line) && ItemIndent(line) == x
  {
    if IsItemStart(line) {
      var n := SpaceRun(line, true);
      SpaceRunIsMaximal(line, true);
      assert line == line[..n] + ("-" + ([line[n + 1]] + line[n + 2..]));
      assert IsDashed(line, ItemIndent(line), line[n + 1], line[n + 2..]);
    }
    forall x, c, z | IsDashed(line, x, c, z)
      ensures IsItemStart(line) && ItemIndent(line) == x
    {
      var tail := "-" + ([c] + z);
      assert line[|x|] == tail[0] == '-' && line[|x| + 1] == tail[1] == c;
      SpaceRunEndsAt(line, true, |x|);
      assert line[..|x|] == x;
    }
  }

  /** `line.includes(text)` */
  lemma {:induction false} ContainsIff(line: string, text: string)
    ensures Contains(line, text) <==> exists x, z :: line == x + (text + z)
  {
    if text <= line {
      assert line == [] + (text + line[|text|..]);
    } else {
      if line != "" {
        ContainsIff(line[1..], text);
        if Contains(line[1..], text) {
          var x, z :| line[1..] == x + (text + z);
          assert line == ([line[0]] + x) + (text + z);
        }
      }
      if x, z :| line == x + (text + z) {
        assert x != "" by { assert text <= text + z; }
        assert line[1..] == x[1..] + (text + z);
      }
    }
  }

  // ----- the line with the URL

  /** The key, white space, a word, white space to the end of the line, after anything. */
  ghost predicate IsUrlAt(line: string, key: string, x: string, a: string, url: string, b: string) {
    line == x + (key + (a + (url + b))) && AllSpace(a) && AllSpace(b) && url != "" && NoSpace(url)
  }

  ghost predicate HasUrlAfter(line: string, n: nat, url: string) {
    exists x, a, b :: |x| == n && IsUrlAt(line, "apiBase:", x, a, url, b)
  }

  /** `/apiBase:\s*(\S+)\s*$/`: the leftmost match gives the URL. */
  ghost predicate IsFirstUrl(line: string, n: nat, url: string) {
    HasUrlAfter(line, n, url) && forall m: nat, u | m < n :: !HasUrlAfter(line, m, u)
  }

  predicate UrlHere(line: string, url: string) {
    API_BASE_KEY <= line && IsOneWord(line[|API_BASE_KEY|..]) && Trim(line[|API_BASE_KEY|..]) == url
  }

  lemma UrlIsThere(line: string, key: string, url: string) returns (a: string, b: string)
    requires key <= line && IsOneWord(line[|key|..]) && Trim(line[|key|..]) == url
    ensures IsUrlAt(line, key, "", a, url, b)
  {
    hide Trim, AllSpace, NoSpace, StartsSolid, EndsSolid;
    a, b := TrimmedParts(line[|key|..], url);
    Reassociate(line, key, a, url, b);
  }

  lemma TrimmedParts(s: string, t: string) returns (a: string, b: string)
    requires Trim(s) == t
    ensures IsTrimmed(s, t, a, b)
  {
    TrimIff(s, t);
    hide *;
    a, b :| IsTrimmed(s, t, a, b);
  }

  lemma Reassociate(line: string, key: string, a: string, url: string, b: string)
    requires key <= line && line[|key|..] == a + url + b
    ensures line == "" + (key + (a + (url + b)))
  {
    assert a + url + b == a + (url + b);
  }

  lemma KeyIs()
    ensures API_BASE_KEY == "apiBase:"
  {
  }

  lemma WordIsSolid(url: string)
    requires NoSpace(url)
    ensures StartsSolid(url) && EndsSolid(url)
  {
  }

  lemma UrlIsRead(line: string, key: string, a: string, url: string, b: string)
    requires IsUrlAt(line, key, "", a, url, b)
    ensures key <= line && IsOneWord(line[|key|..]) && Trim(line[|key|..]) == url
  {
    WordIsSolid(url);
    hide Trim, AllSpace, NoSpace;
    assert a + (url + b) == a + url + b;
    TrimOfPadded(url, a, b);
    assert line[|key|..] == a + url + b;
  }

  lemma RestIsUrl(line: string, url: string)
    ensures UrlHere(line, url) <==> HasUrlAfter(line, 0, url)
  {
    KeyIs();
    hide IsUrlAt, IsOneWord, Trim, API_BASE_KEY;
    if UrlHere(line, url) {
      var a, b := UrlIsThere(line, API_BASE_KEY, url);
    }
    if HasUrlAfter(line, 0, url) {
      var x, a, b :| |x| == 0 && IsUrlAt(line, "apiBase:", x, a, url, b);
      assert x == "";
      UrlIsRead(line, API_BASE_KEY, a, url, b);
    }
  }

  lemma UrlOneFurther(line: string, n: nat, url: string)
    requires line != ""
    ensures HasUrlAfter(line, n + 1, url) <==> HasUrlAfter(line[1..], n, url)
  {
    hide IsUrlAt;
    if HasUrlAfter(line, n + 1, url) {
      var x, a, b :| |x| == n + 1 && IsUrlAt(line, "apiBase:", x, a, url, b);
      UrlMoves(line, "apiBase:", x, a, url, b);
      assert |x[1..]| == n && IsUrlAt(line[1..], "apiBase:", x[1..], a, url, b);
    }
    if HasUrlAfter(line[1..], n, url) {
      var x, a, b :| |x| == n && IsUrlAt(line[1..], "apiBase:", x, a, url, b);
      var y := [line[0]] + x;
      assert y[1..] == x;
      UrlMoves(line, "apiBase:", y, a, url, b);
      assert |y| == n + 1 && IsUrlAt(line, "apiBase:", y, a, url, b);
    }
  }

  lemma UrlMoves(line: string, key: string, x: string, a: string, url: string, b: string)
    requires line != "" && x != ""
    ensures IsUrlAt(line, key, x, a, url, b) ==> IsUrlAt(line[1..], key, x[1..], a, url, b)
    ensures IsUrlAt(line[1..], key, x[1..], a, url, b) && x[0] == line[0] ==> IsUrlAt(line, key, x, a, url, b)
  {
    hide AllSpace, NoSpace;
    var tail := key + (a + (url + b));
    assert line == [line[0]] + line[1..] && x == [x[0]] + x[1..];
    assert (x + tail)[1..] == x[1..] + tail;
    assert [x[0]] + (x[1..] + tail) == x + tail;
  }

  lemma {:induction false} OneUrlEach(line: string, n: nat, u: string, v: string)
    requires HasUrlAfter(line, n, u) && HasUrlAfter(line, n, v)
    ensures u == v
    decreases n
  {
    if n == 0 {
      RestIsUrl(line, u);
      RestIsUrl(line, v);
    } else {
      assert line != "";
      hide HasUrlAfter;
      UrlOneFurther(line, n - 1, u);
      UrlOneFurther(line, n - 1, v);
      OneUrlEach(line[1..], n - 1, u, v);
    }
  }

  lemma ApiBaseStep(line: string)
    requires line != ""
    ensures forall u | UrlHere(line, u) :: ApiBaseIn(line) == Some(u)
    ensures (forall u :: !UrlHere(line, u)) ==> ApiBaseIn(line) == ApiBaseIn(line[1..])
  {
    hide IsOneWord;
    if forall u :: !UrlHere(line, u) {
      assert API_BASE_KEY <= line ==> !UrlHere(line, Trim(line[|API_BASE_KEY|..]));
    }
  }

  lemma UrlMovesOn(line: string, n: nat, url: string)
    requires line != "" && IsFirstUrl(line[1..], n, url) && forall u :: !UrlHere(line, u)
    ensures IsFirstUrl(line, n + 1, url)
  {
    hide HasUrlAfter, UrlHere;
    UrlOneFurther(line, n, url);
    forall m: nat, u | m < n + 1
      ensures !HasUrlAfter(line, m, u)
    {
      if m == 0 {
        RestIsUrl(line, u);
      } else {
        UrlOneFurther(line, m - 1, u);
      }
    }
  }

  lemma NoUrlMovesOn(line: string)
    requires line != "" && (forall n: nat, u :: !HasUrlAfter(line[1..], n, u)) && forall u :: !UrlHere(line, u)
    ensures forall n: nat, u :: !HasUrlAfter(line, n, u)
  {
    hide HasUrlAfter, UrlHere;
    forall n: nat, u
      ensures !HasUrlAfter(line, n, u)
    {
      if n == 0 {
        RestIsUrl(line, u);
      } else {
        UrlOneFurther(line, n - 1, u);
      }
    }
  }

  /** Where the URL that is found stands. */
  lemma {:induction false} FirstUrlOf(line: string) returns (n: nat)
    ensures match ApiBaseIn(line)
            case Some(url) => IsFirstUrl(line, n, url)
            case None => forall m: nat, u :: !HasUrlAfter(line, m, u)
  {
    n := 0;
    if line == "" {
      forall m: nat, u
        ensures !HasUrlAfter(line, m, u)
      {
        NoUrlInNothing(m, u);
      }
    } else {
      ApiBaseStep(line);
      hide HasUrlAfter, UrlHere, ApiBaseIn;
      if url :| UrlHere(line, url) {
        RestIsUrl(line, url);
        assert IsFirstUrl(line, 0, url);
      } else {
        var m := FirstUrlOf(line[1..]);
        match ApiBaseIn(line[1..])
        case Some(url) =>
          UrlMovesOn(line, m, url);
          n := m + 1;
        case None =>
          NoUrlMovesOn(line);
      }
    }
  }

  /** The URL of a line is that of the leftmost match; without a match there is none. */
  lemma ApiBaseInIff(line: string, url: string)
    ensures ApiBaseIn(line) == Some(url) <==> exists n: nat :: IsFirstUrl(line, n, url)
  {
    hide HasUrlAfter, ApiBaseIn;
    var n := FirstUrlOf(line);
    if m: nat :| IsFirstUrl(line, m, url) {
      assert m == n;
      OneUrlEach(line, m, url, ApiBaseIn(line).value);
    }
  }

  lemma NoUrlInNothing(n: nat, url: string)
    ensures !HasUrlAfter("", n, url)
  {
  }

  // ----- the section

  /** The lines from `from` on: none before `n` starts an item, and the section goes on to the next top-level line. */
  ghost predicate IsSectionBelow(lines: seq<string>, n: int, end: int) {
    && 0 <= n <= end <= |lines|
    && (forall i | 0 <= i < n :: !IsItemStart(lines[i])) && (n < end ==> IsItemStart(lines[n]))
    && (forall i | 0 <= i < end :: !IsUnindented(lines[i])) && (end < |lines| ==> IsUnindented(lines[end]))
  }

  lemma {:induction false} ScanStops(lines: seq<string>, items: seq<Item>)
    ensures var rest := ScanItems(lines, items).1;
            && |rest| <= |lines| && rest == lines[|lines| - |rest|..]
            && (forall i | 0 <= i < |lines| - |rest| :: !IsUnindented(lines[i]))
            && (rest != [] ==> IsUnindented(rest[0]))
    decreases |lines|
  {
    hide IsBlank, IsUnindented, IsItemStart;
    if lines != [] && (IsBlank(lines[0]) || !IsUnindented(lines[0])) {
      var line := lines[0];
      BlankIsNeither(line);
      var next :=
        if IsBlank(line) then items
        else if IsItemStart(line) then items + [[line]]
        else Continued(items, line);
      ScanStops(lines[1..], next);
      assert forall i | 0 < i < |lines| :: lines[i] == lines[1..][i - 1];
    }
  }

  lemma {:induction false} OrphansStop(lines: seq<string>)
    ensures var n := |Orphans(lines)|;
            n < |lines| ==> IsUnindented(lines[n]) || IsItemStart(lines[n])
  {
    hide IsUnindented, IsItemStart;
    if lines != [] && !IsUnindented(lines[0]) && !IsItemStart(lines[0]) {
      OrphansStop(lines[1..]);
    }
  }

  lemma BelowIs(lines: seq<string>) returns (n: nat, end: nat)
    ensures IsSectionBelow(lines, n, end)
    ensures Flatten(ScanItems(lines, []).0) == NonBlank(lines[n..end]) && ScanItems(lines, []).1 == lines[end..]
  {
    hide IsUnindented, IsItemStart, NonBlank, ScanItems;
    var rest := ScanItems(lines, []).1;
    ScanStops(lines, []);
    ScanGathers(lines);
    OrphansStop(lines);
    n, end := |Orphans(lines)|, |lines| - |rest|;
    assert forall i | 0 <= i < n :: lines[i] == Orphans(lines)[i];
  }

  lemma IndentIs(items: seq<Item>, lines: seq<string>)
    requires AllItems(items) && Flatten(items) == NonBlank(lines) && (lines != [] ==> IsItemStart(lines[0]))
    ensures IndentOf(items) == if lines != [] then ItemIndent(lines[0]) else "  "
  {
    hide ItemIndent;
    if lines != [] {
      BlankIsNeither(lines[0]);
      assert NonBlank(lines)[0] == lines[0];
      assert items != [] && IsItem(items[0]);
      hide IsItemStart, IsBlank;
      assert Flatten(items)[0] == items[0][0];
    } else {
      assert items == [];
    }
  }

  /** The section above the first `models:` line, that line included. */
  ghost predicate EndsAtKey(lines: seq<string>, header: seq<string>, k: int) {
    && 0 <= k < |lines| && IsModelsKey(lines[k]) && (forall i | 0 <= i < k :: !IsModelsKey(lines[i]))
    && header == lines[..k + 1]
  }

  ghost predicate IsCutBelow(below: seq<string>, s: Section, n: int, end: int) {
    && IsSectionBelow(below, n, end)
    && AllItems(s.items) && Flatten(s.items) == NonBlank(below[n..end]) && s.trailing == below[end..]
    && s.indent == if n < end then ItemIndent(below[n]) else "  "
  }

  lemma SectionCovers(lines: seq<string>)
    ensures var s := ParseLines([], lines);
            && s.header <= lines
            && (if s.hasKey then (s.items, s.trailing) == ScanItems(lines[|s.header|..], []) else s.header == lines)
  {
    hide *;
    ParseCovers([], lines);
    assert [] + lines == lines;
  }

  lemma KeyOf(lines: seq<string>) returns (k: nat)
    requires ParseLines([], lines).hasKey
    ensures var s := ParseLines([], lines);
            && k < |lines| && EndsAtKey(lines, s.header, k)
            && (s.items, s.trailing) == ScanItems(lines[k + 1..], []) && AllItems(s.items)
            && s.indent == IndentOf(s.items)
  {
    hide IsModelsKey, ParseLines, ScanItems, IndentOf, IsTrailing, AllItems;
    ParseIsSection([], lines);
    SectionCovers(lines);
    k := |ParseLines([], lines).header| - 1;
  }

  lemma NoKey(lines: seq<string>)
    requires !ParseLines([], lines).hasKey
    ensures var s := ParseLines([], lines);
            (forall l | l in lines :: !IsModelsKey(l)) && s.header == lines && s.items == [] && s.indent == "  "
  {
    hide IsModelsKey, ParseLines, ScanItems, IndentOf, IsTrailing, AllItems;
    ParseIsSection([], lines);
    SectionCovers(lines);
    EmptyIndent();
  }

  lemma ParseIs(raw: string)
    ensures Parse(raw) == ParseLines([], FileLines(raw))
  {
  }

  /**
   * How the parser cuts a file: at its first `models:` line, at the first line below it that starts an
   * item and at the first one that is not indented. The items are the non-blank lines in between, each
   * from a line that starts an item to the next; their indent is that of the first, or two spaces.
   */
  lemma SectionIs(raw: string) returns (k: nat, n: nat, end: nat)
    ensures var lines, s := FileLines(raw), Parse(raw);
            if s.hasKey then EndsAtKey(lines, s.header, k) && IsCutBelow(lines[k + 1..], s, n, end)
            else (forall l | l in lines :: !IsModelsKey(l)) && s.header == lines && s.items == [] && s.indent == "  "
  {
    ParseIs(raw);
    hide *;
    k, n, end := 0, 0, 0;
    if Parse(raw).hasKey {
      k := KeyOf(FileLines(raw));
      n, end := CutBelow(FileLines(raw)[k + 1..], Parse(raw));
    } else {
      NoKey(FileLines(raw));
    }
  }

  lemma CutBelow(below: seq<string>, s: Section) returns (n: nat, end: nat)
    requires (s.items, s.trailing) == ScanItems(below, []) && AllItems(s.items) && s.indent == IndentOf(s.items)
    ensures IsCutBelow(below, s, n, end)
  {
    hide IsItemStart, IsUnindented, ScanItems, IndentOf, NonBlank, ItemIndent, IsItem;
    n, end := BelowIs(below);
    IndentIs(s.items, below[n..end]);
  }
}
