/** The lines of a `config.toml` that the merger and the reader know, as the regular expressions describe them. */
module TomlLines {
  import opened CodexToml
  import opened Text

  /** White space, the key, white space, an equals sign, anything. */
  ghost predicate IsAssignment(line: string, key: string, x: string, y: string, z: string) {
    line == x + (key + (y + ("=" + z))) && AllSpace(x) && AllSpace(y)
  }

  lemma {:induction false} AssignmentParts(line: string, key: string) returns (x: string, y: string, z: string)
    requires key != "" && AssignsTo(Trim(line), key)
    ensures IsAssignment(line, key, x, y, z)
  {
    hide TrimStart, TrimEnd, AllSpace, IsSpace;
    x := TrimStartCuts(line);
    var d := TrimEndCuts(TrimStart(line));
    var t := Trim(line);
    y := TrimStartCuts(t[|key|..]);
    var v := TrimStart(t[|key|..]);
    z := v[1..] + d;
    assert t == key + t[|key|..] && v == "=" + v[1..];
    Regrouped(x, key, y, v[1..], d);
  }

  lemma Regrouped(x: string, key: string, y: string, v: string, d: string)
    ensures x + ((key + (y + ("=" + v))) + d) == x + (key + (y + ("=" + (v + d))))
  {
  }

  lemma {:induction false} AssignmentIsRead(key: string, x: string, y: string, z: string)
    requires key != "" && !IsSpace(key[0]) && AllSpace(x) && AllSpace(y)
    ensures AssignsTo(Trim(x + (key + (y + ("=" + z)))), key)
  {
    var u := key + (y + ("=" + z));
    TrimStartOf(x, u);
    var d := TrimEndCuts(u);
    var t, n := TrimEnd(u), |key| + |y|;
    assert u[n] == '=';
    assert forall i | |t| <= i < |u| :: IsSpace(u[i]) by { assert forall i | |t| <= i < |u| :: u[i] == d[i - |t|]; }
    assert t[|key|..] == y + t[n..] && t[n] == u[n];
    assert t[..|key|] == u[..|key|] == key;
    TrimStartOf(y, t[n..]);
  }

  /** `/^model_provider\s*=/` on the trimmed line. */
  lemma IsSelectorIff(line: string)
    ensures IsSelector(line) <==> exists x, y, z :: IsAssignment(line, "model_provider", x, y, z)
  {
    var key := "model_provider";
    assert key == SELECTOR_KEY && key[0] == 'm';
    hide IsAssignment, AssignsTo, Trim;
    if IsSelector(line) {
      var x, y, z := AssignmentParts(line, key);
    }
    if exists x, y, z :: IsAssignment(line, key, x, y, z) {
      var x, y, z :| IsAssignment(line, key, x, y, z);
      AssignmentShows(line, key, x, y, z);
    }
  }

  lemma AssignmentShows(line: string, key: string, x: string, y: string, z: string)
    requires key != "" && !IsSpace(key[0]) && IsAssignment(line, key, x, y, z)
    ensures AssignsTo(Trim(line), key)
  {
    AssignmentIsRead(key, x, y, z);
  }

  ghost predicate IsOpening(line: string, x: string, z: string) {
    line == x + ("[" + z) && AllSpace(x)
  }

  /** `/^\s*\[/` */
  lemma OpensTableIff(line: string)
    ensures OpensTable(line) <==> exists x, z :: IsOpening(line, x, z)
  {
    if OpensTable(line) {
      var x := TrimStartCuts(line);
      assert TrimStart(line) == "[" + TrimStart(line)[1..];
      assert IsOpening(line, x, TrimStart(line)[1..]);
    }
    if exists x, z :: IsOpening(line, x, z) {
      var x, z :| IsOpening(line, x, z);
      TrimStartOf(x, "[" + z);
    }
  }

  /** The header of the provider table, alone on its line. */
  lemma IsProviderHeaderIff(line: string)
    ensures IsProviderHeader(line) <==> exists x, y :: IsTrimmed(line, "[model_providers.routerly]", x, y)
  {
    assert PROVIDER_HEADER == "[model_providers.routerly]";
    hide Trim, IsTrimmed;
    TrimIff(line, "[model_providers.routerly]");
  }

  // ----- field lines

  const LOWER := "abcdefghijklmnopqrstuvwxyz"
  const UPPER := "ABCDEFGHIJKLMNOPQRSTUVWXYZ"
  const DIGITS := "0123456789"

  lemma LowerAre(c: char)
    ensures 'a' <= c <= 'z' <==> c in LOWER
  {
    if 'a' <= c <= 'z' {
      assert LOWER[c as int - 'a' as int] == c;
    }
  }

  lemma UpperAre(c: char)
    ensures 'A' <= c <= 'Z' <==> c in UPPER
  {
    if 'A' <= c <= 'Z' {
      assert UPPER[c as int - 'A' as int] == c;
    }
  }

  lemma DigitsAre(c: char)
    ensures '0' <= c <= '9' <==> c in DIGITS
  {
    if '0' <= c <= '9' {
      assert DIGITS[c as int - '0' as int] == c;
    }
  }

  /** `\w` */
  lemma WordCharsAre(c: char)
    ensures IsWord(c) <==> c in LOWER || c in UPPER || c in DIGITS || c == '_'
  {
    hide LOWER, UPPER, DIGITS;
    LowerAre(c);
    UpperAre(c);
    DigitsAre(c);
  }

  predicate IsWordText(key: string) {
    key != "" && forall i | 0 <= i < |key| :: IsWord(key[i])
  }

  /** `/^\s*(\w+)\s*=\s*"(.*)"\s*$/`: key and value, and the white space around them. */
  ghost predicate IsFieldLine(line: string, key: string, value: string, a: string, b: string, c: string, d: string) {
    && line == a + (key + (b + ("=" + (c + ("\"" + ((value + "\"") + d))))))
    && AllSpace(a) && AllSpace(b) && AllSpace(c) && AllSpace(d) && IsWordText(key) && NoTerminator(value)
  }

  lemma {:induction false} WordRunIsWords(s: string)
    ensures forall i | 0 <= i < WordRun(s) :: IsWord(s[i])
  {
    if s != "" && IsWord(s[0]) {
      WordRunIsWords(s[1..]);
      assert forall i | 0 < i < WordRun(s) :: s[i] == s[1..][i - 1];
    }
  }

  lemma FieldLineParts(line: string) returns (a: string, b: string, c: string, d: string)
    requires Field(line).Some?
    ensures IsFieldLine(line, Field(line).value.0, Field(line).value.1, a, b, c, d)
  {
    hide TrimStart, TrimEnd, WordRun, AllSpace, NoTerminator, IsWord, StartsSolid, EndsSolid;
    var t := TrimStart(line);
    var w := WordRun(t);
    var u := TrimStart(t[w..]);
    var q := TrimStart(u[1..]);
    var r := TrimEnd(q[1..]);
    WordRunIsWords(t);
    a := TrimStartCuts(line);
    b := TrimStartCuts(t[w..]);
    c := TrimStartCuts(u[1..]);
    d := TrimEndCuts(q[1..]);
    assert t == t[..w] + t[w..] && u == "=" + u[1..] && q == "\"" + q[1..] && r == Init(r) + "\"";
  }

  lemma KeyIsRead(key: string, a: string, b: string, u: string)
    requires IsWordText(key) && AllSpace(a) && AllSpace(b) && StartsWith(u, '=')
    ensures var t := key + (b + u);
            && TrimStart(a + t) == t && WordRun(t) == |key| && t[..|key|] == key && t[|key|..] == b + u
            && TrimStart(b + u) == u
  {
    var t := key + (b + u);
    assert t[0] == key[0] && IsWord(key[0]);
    TrimStartOf(a, t);
    assert t[|key|] == (if b == "" then '=' else b[0]) && !IsWord(t[|key|]);
    assert forall i | 0 <= i < |key| :: t[i] == key[i];
    WordRunEndsAt(t, |key|);
    TrimStartOf(b, u);
  }

  lemma ValueIsRead(value: string, c: string, d: string)
    requires AllSpace(c) && AllSpace(d)
    ensures var quoted := value + "\"";
            && TrimStart(c + ("\"" + (quoted + d))) == "\"" + (quoted + d)
            && ("\"" + (quoted + d))[1..] == quoted + d && TrimEnd(quoted + d) == quoted
            && Init(quoted) == value && Last(quoted) == '"'
  {
    TrimStartOf(c, "\"" + ((value + "\"") + d));
    TrimEndOf(value + "\"", d);
  }

  lemma FieldLineIsRead(key: string, value: string, a: string, b: string, c: string, d: string)
    requires IsWordText(key) && NoTerminator(value) && AllSpace(a) && AllSpace(b) && AllSpace(c) && AllSpace(d)
    ensures Field(a + (key + (b + ("=" + (c + ("\"" + ((value + "\"") + d)))))))
         == Some((key, value))
  {
    hide TrimStart, TrimEnd, WordRun, AllSpace, NoTerminator, IsWord, StartsSolid, EndsSolid;
    var q := "\"" + ((value + "\"") + d);
    var u := "=" + (c + q);
    assert u[1..] == c + q;
    KeyIsRead(key, a, b, u);
    ValueIsRead(value, c, d);
  }

  /** What the reader takes from a line: the key and the value of a field line, and nothing from any other line. */
  lemma FieldIff(line: string, key: string, value: string)
    ensures Field(line) == Some((key, value)) <==> exists a, b, c, d :: IsFieldLine(line, key, value, a, b, c, d)
  {
    if Field(line) == Some((key, value)) {
      hide Field, IsFieldLine;
      var a, b, c, d := FieldLineParts(line);
    }
    if exists a, b, c, d :: IsFieldLine(line, key, value, a, b, c, d) {
      var a, b, c, d :| IsFieldLine(line, key, value, a, b, c, d);
      FieldLineIsRead(key, value, a, b, c, d);
    }
  }

  // ----- what the reader finds

  /** The lines from `from` to `end` are the rest of the table that `from` is in. */
  ghost predicate IsTableRest(lines: seq<string>, from: int, end: int) {
    && 0 <= from <= end <= |lines| && (forall i | from <= i < end :: !OpensTable(lines[i]))
    && (end < |lines| ==> OpensTable(lines[end]))
  }

  predicate Assigns(line: string, key: string) {
    Field(line).Some? && Field(line).value.0 == key
  }

  ghost predicate Unassigned(lines: seq<string>, from: int, end: int, key: string) {
    0 <= from <= end <= |lines| && forall j | from <= j < end :: !Assigns(lines[j], key)
  }

  /** Line `i` is the last one before `end` that assigns to the key. */
  ghost predicate IsLastField(lines: seq<string>, i: int, end: int, key: string, value: string) {
    0 <= i < end <= |lines| && Field(lines[i]) == Some((key, value)) && Unassigned(lines, i + 1, end, key)
  }

  ghost predicate IsFound(lines: seq<string>, from: int, end: int, key: string, value: string) {
    exists i :: from <= i && IsLastField(lines, i, end, key, value)
  }

  ghost predicate Holds(block: map<string, string>, key: string, value: string) {
    key in block && block[key] == value
  }

  /** The header that the reader starts from. */
  ghost predicate IsFirstHeader(lines: seq<string>, k: int) {
    0 <= k < |lines| && IsProviderHeader(lines[k]) && forall i | 0 <= i < k :: !IsProviderHeader(lines[i])
  }

  lemma FieldsNext(lines: seq<string>, from: int, end: int, block: map<string, string>)
    requires IsTableRest(lines, from, end) && from < end
    ensures Fields(lines[from..], block) == Fields(lines[from + 1..],
      match Field(lines[from])
      case None => block
      case Some((key, value)) => Stored(block, key, value))
  {
    hide Field, OpensTable, Stored;
    assert lines[from..][0] == lines[from] && lines[from..][1..] == lines[from + 1..];
  }

  /** A key no line assigns to keeps what it has, and `__proto__` always does. */
  lemma {:induction false} FieldsKeep(lines: seq<string>, from: int, end: int, block: map<string, string>, key: string,
                                      value: string)
    requires IsTableRest(lines, from, end) && (key == "__proto__" || Unassigned(lines, from, end, key))
    ensures Holds(Fields(lines[from..], block), key, value) <==> Holds(block, key, value)
    decreases end - from
  {
    hide Field, OpensTable, Stored, Holds, Fields;
    if from < end {
      FieldsNext(lines, from, end, block);
      match Field(lines[from])
      case None => FieldsKeep(lines, from + 1, end, block, key, value);
      case Some((stored, v)) =>
        StoredHolds(block, stored, v, key, value);
        FieldsKeep(lines, from + 1, end, Stored(block, stored, v), key, value);
    } else {
      TableEnds(lines, from, block);
    }
  }

  lemma TableEnds(lines: seq<string>, end: int, block: map<string, string>)
    requires IsTableRest(lines, end, end)
    ensures Fields(lines[end..], block) == block
  {
    hide OpensTable;
    if end < |lines| {
      assert lines[end..][0] == lines[end];
    }
  }

  /** The last field line for a key decides. */
  lemma {:induction false} LastFieldHolds(lines: seq<string>, from: int, end: int, block: map<string, string>, i: int,
                                          key: string, value: string)
    requires IsTableRest(lines, from, end) && from <= i && IsLastField(lines, i, end, key, value)
    requires key != "__proto__"
    ensures Holds(Fields(lines[from..], block), key, value)
    decreases i - from
  {
    hide Field, OpensTable, Stored, Holds, Fields;
    FieldsNext(lines, from, end, block);
    if from == i {
      StoredHolds(block, key, value, key, value);
      FieldsKeep(lines, from + 1, end, Stored(block, key, value), key, value);
    } else {
      match Field(lines[from])
      case None => LastFieldHolds(lines, from + 1, end, block, i, key, value);
      case Some((stored, v)) => LastFieldHolds(lines, from + 1, end, Stored(block, stored, v), i, key, value);
    }
  }

  /** If some line assigns to the key, one is the last. */
  lemma {:induction false} LastFieldOf(lines: seq<string>, from: int, end: int, key: string) returns (i: int)
    requires 0 <= from <= end <= |lines| && !Unassigned(lines, from, end, key)
    ensures from <= i < end && Assigns(lines[i], key) && Unassigned(lines, i + 1, end, key)
    decreases end - from
  {
    hide Field;
    if Unassigned(lines, from + 1, end, key) {
      i := from;
    } else {
      i := LastFieldOf(lines, from + 1, end, key);
    }
  }

  lemma StoredHolds(block: map<string, string>, stored: string, v: string, key: string, value: string)
    ensures Holds(Stored(block, stored, v), key, value)
       <==> if stored == key && key != "__proto__" then v == value else Holds(block, key, value)
  {
  }

  lemma FoundIsHeld(lines: seq<string>, from: int, end: int, key: string, value: string)
    requires IsTableRest(lines, from, end)
    ensures Holds(Fields(lines[from..], map[]), key, value)
       <==> key != "__proto__" && IsFound(lines, from, end, key, value)
  {
    hide Field, OpensTable, Fields;
    if key == "__proto__" || Unassigned(lines, from, end, key) {
      FieldsKeep(lines, from, end, map[], key, value);
      if IsFound(lines, from, end, key, value) {
        var i :| from <= i && IsLastField(lines, i, end, key, value);
        assert Assigns(lines[i], key);
      }
    } else {
      var i := LastFieldOf(lines, from, end, key);
      var v := Field(lines[i]).value.1;
      LastFieldHolds(lines, from, end, map[], i, key, v);
      assert IsLastField(lines, i, end, key, v);
      if IsFound(lines, from, end, key, value) {
        var j :| from <= j && IsLastField(lines, j, end, key, value);
        assert Assigns(lines[j], key);
      }
    }
  }

  /**
   * What the reader finds: nothing without a provider header, and otherwise, for every key but
   * `__proto__`, the value of its last field line between the first header and the next table.
   */
  lemma ExtractedIff(raw: string, k: int, end: int, key: string, value: string)
    requires IsFirstHeader(Lines(raw), k) && IsTableRest(Lines(raw), k + 1, end)
    ensures Extracted(raw).Some?
    ensures Holds(Extracted(raw).value, key, value)
       <==> key != "__proto__" && IsFound(Lines(raw), k + 1, end, key, value)
  {
    var lines := Lines(raw);
    hide Field, OpensTable, IsProviderHeader, Fields, IsFound, SplitOn;
    assert lines == lines[..k] + lines[k..];
    SearchSkips(lines[..k], lines[k..]);
    assert lines[k..][0] == lines[k] && lines[k..][1..] == lines[k + 1..];
    FoundIsHeld(lines, k + 1, end, key, value);
  }

  lemma {:induction false} NoHeaderNothing(lines: seq<string>)
    ensures ExtractedFrom(lines) == None <==> forall l | l in lines :: !IsProviderHeader(l)
  {
    hide IsProviderHeader, Fields;
    if lines != [] {
      NoHeaderNothing(lines[1..]);
    }
  }
}
