/** The diff as the component computes it: a flat table filled in place, a walk, a growing part list. */
module DiffEngine {
  import opened Subsequence
  import opened Text
  import opened WordDiff

  /** An element of the `Int32Array` behind the table. */
  newtype int32 = x: int | -0x8000_0000 <= x < 0x8000_0000

  /** The part list that `push` appends to or whose last part it grows. */
  class PartList {
    var parts: seq<Part>

    constructor ()
      ensures parts == []
    {
      parts := [];
    }

    method Push(kind: Kind, text: string)
      modifies this
      ensures parts == Pushed(old(parts), kind, text)
    {
      if text == "" {
        return;
      }
      if parts != [] && Last(parts).kind == kind {
        parts := Init(parts) + [Part(kind, Last(parts).text + text)];
      } else {
        parts := parts + [Part(kind, text)];
      }
    }
  }

  /** Offset of row `i`, column `j` in a table with rows of `width` cells, which is `i * width + j`. */
  function Cell(i: nat, j: nat, width: nat): (k: nat)
    ensures k >= j
  {
    if i == 0 then j else width + Cell(i - 1, j, width)
  }

  lemma {:induction false} CellOffset(i: nat, j: nat, width: nat)
    ensures Cell(i, j, width) == i * width + j
  {
    if i > 0 {
      CellOffset(i - 1, j, width);
      assert i * width == width + (i - 1) * width;
    }
  }

  lemma {:induction false} CellInRange(i: nat, j: nat, rows: nat, width: nat)
    requires i < rows && j < width
    ensures Cell(i, j, width) < Cell(rows, 0, width)
  {
    if i > 0 {
      CellInRange(i - 1, j, rows - 1, width);
    }
  }

  /** Different cells have different offsets. */
  lemma {:induction false} CellIsInjective(i: nat, j: nat, k: nat, l: nat, width: nat)
    requires j < width && l < width && Cell(i, j, width) == Cell(k, l, width)
    ensures i == k && j == l
  {
    if i > 0 && k > 0 {
      CellIsInjective(i - 1, j, k - 1, l, width);
    }
  }

  /** LCS length of the suffixes that start at `i` and `j`. */
  ghost function SuffixLcs(a: seq<string>, b: seq<string>, i: nat, j: nat): (n: nat)
    requires i <= |a| && j <= |b|
    ensures n <= |a| - i
    decreases |a| - i + |b| - j
  {
    if i == |a| || j == |b| then 0
    else if a[i] == b[j] then 1 + SuffixLcs(a, b, i + 1, j + 1)
    else Max(SuffixLcs(a, b, i + 1, j), SuffixLcs(a, b, i, j + 1))
  }

  lemma {:induction false} SuffixLcsIsLcs(a: seq<string>, b: seq<string>, i: nat, j: nat)
    requires i <= |a| && j <= |b|
    ensures SuffixLcs(a, b, i, j) == LcsLength(a[i..], b[j..])
    decreases |a| - i + |b| - j
  {
    if i < |a| && j < |b| {
      SuffixStep(a, b, i, j);
      if a[i] == b[j] {
        SuffixLcsIsLcs(a, b, i + 1, j + 1);
      } else {
        SuffixLcsIsLcs(a, b, i + 1, j);
        SuffixLcsIsLcs(a, b, i, j + 1);
      }
    }
  }

  /** The cells done so far: the zero border and everything after (row, column) in filling order. */
  predicate Done(i: nat, j: nat, row: int, column: int, n: nat, m: nat) {
    i <= n && j <= m && (i == n || j == m || i > row || (i == row && j > column))
  }

  /** Every done cell holds the LCS length of its pair of suffixes. */
  ghost predicate Filled(table: seq<int32>, a: seq<string>, b: seq<string>, row: int, column: int) {
    && |table| == Cell(|a| + 1, 0, |b| + 1)
    && forall i: nat, j: nat :: Done(i, j, row, column, |a|, |b|) ==> Holds(table, a, b, i, j)
  }

  ghost predicate Holds(table: seq<int32>, a: seq<string>, b: seq<string>, i: nat, j: nat) {
    && i <= |a| && j <= |b|
    && Cell(i, j, |b| + 1) < |table| && table[Cell(i, j, |b| + 1)] as int == SuffixLcs(a, b, i, j)
  }

  lemma EmptyTable(table: seq<int32>, a: seq<string>, b: seq<string>)
    requires |table| == Cell(|a| + 1, 0, |b| + 1) && forall k | 0 <= k < |table| :: table[k] == 0
    ensures Filled(table, a, b, |a| - 1, |b| - 1)
  {
    forall i: nat, j: nat | Done(i, j, |a| - 1, |b| - 1, |a|, |b|)
      ensures Holds(table, a, b, i, j)
    {
      CellInRange(i, j, |a| + 1, |b| + 1);
    }
  }

  /** Writing the value of the next cell extends the done region by it. */
  lemma StepFills(table: seq<int32>, a: seq<string>, b: seq<string>, row: nat, column: nat, value: int32)
    requires row < |a| && column < |b| && Filled(table, a, b, row, column)
    requires value as int == SuffixLcs(a, b, row, column)
    ensures Cell(row, column, |b| + 1) < |table|
    ensures Filled(table[Cell(row, column, |b| + 1) := value], a, b, row, column - 1)
  {
    CellInRange(row, column, |a| + 1, |b| + 1);
    var next := table[Cell(row, column, |b| + 1) := value];
    forall i: nat, j: nat | Done(i, j, row, column - 1, |a|, |b|)
      ensures Holds(next, a, b, i, j)
    {
      if i != row || j != column {
        assert Done(i, j, row, column, |a|, |b|) && Holds(table, a, b, i, j);
        if Cell(i, j, |b| + 1) == Cell(row, column, |b| + 1) {
          CellIsInjective(i, j, row, column, |b| + 1);
        }
      }
    }
  }

  lemma SuffixStep(a: seq<string>, b: seq<string>, i: nat, j: nat)
    requires i < |a| && j < |b|
    ensures a[i..][0] == a[i] && a[i..][1..] == a[i + 1..] && b[j..][0] == b[j] && b[j..][1..] == b[j + 1..]
  {
  }

  /** The nested loops leave the LCS length of every pair of suffixes in the flat table. */
  method FillTable(a: seq<string>, b: seq<string>) returns (table: array<int32>)
    requires |a| < 0x8000_0000
    ensures fresh(table)
    ensures Filled(table[..], a, b, -1, |b| - 1)
  {
    var n, m := |a|, |b|;
    var width := m + 1;
    CellOffset(n + 1, 0, width);
    table := new int32[(n + 1) * width](_ => 0);
    EmptyTable(table[..], a, b);
    var i := n - 1;
    while i >= 0
      invariant -1 <= i < n && Filled(table[..], a, b, i, m - 1)
    {
      var j := m - 1;
      while j >= 0
        invariant -1 <= j < m && Filled(table[..], a, b, i, j)
      {
        assert Done(i + 1, j + 1, i, j, n, m) && Done(i + 1, j, i, j, n, m) && Done(i, j + 1, i, j, n, m);
        var down, right := table[Cell(i + 1, j, width)], table[Cell(i, j + 1, width)];
        var value := if a[i] == b[j] then table[Cell(i + 1, j + 1, width)] + 1
                     else if down >= right then down else right;
        ghost var cells := table[..];
        StepFills(cells, a, b, i, j, value);
        table[Cell(i, j, width)] := value;
        assert table[..] == cells[Cell(i, j, width) := value];
        j := j - 1;
      }
      NextRow(table[..], a, b, i);
      i := i - 1;
    }
  }

  lemma NextRow(table: seq<int32>, a: seq<string>, b: seq<string>, row: nat)
    requires row < |a| && Filled(table, a, b, row, -1)
    ensures Filled(table, a, b, row - 1, |b| - 1)
  {
    forall i: nat, j: nat | Done(i, j, row - 1, |b| - 1, |a|, |b|)
      ensures Holds(table, a, b, i, j)
    {
      assert Done(i, j, row, -1, |a|, |b|);
    }
  }

  /** The comparison the walk makes is the one between the two neighbouring LCS lengths. */
  lemma TableDecides(table: seq<int32>, a: seq<string>, b: seq<string>, i: nat, j: nat)
    requires i < |a| && j < |b| && Filled(table, a, b, -1, |b| - 1)
    ensures var width := |b| + 1;
            && Cell(i + 1, j, width) < |table| && Cell(i, j + 1, width) < |table|
            && (table[Cell(i + 1, j, width)] >= table[Cell(i, j + 1, width)]
                <==> SuffixLcs(a, b, i + 1, j) >= SuffixLcs(a, b, i, j + 1))
  {
    assert Done(i + 1, j, -1, |b| - 1, |a|, |b|) && Done(i, j + 1, -1, |b| - 1, |a|, |b|);
  }

  /** The part of the greedy script that is still to be pushed when the walk stands at (i, j). */
  ghost function WalkFrom(a: seq<string>, b: seq<string>, i: nat, j: nat): seq<Part>
    requires i <= |a| && j <= |b|
    decreases |a| - i + |b| - j
  {
    if i == |a| || j == |b| then AllOf(Removed, a[i..]) + AllOf(Added, b[j..])
    else if a[i] == b[j] then [Part(Same, a[i])] + WalkFrom(a, b, i + 1, j + 1)
    else if SuffixLcs(a, b, i + 1, j) >= SuffixLcs(a, b, i, j + 1) then [Part(Removed, a[i])] + WalkFrom(a, b, i + 1, j)
    else [Part(Added, b[j])] + WalkFrom(a, b, i, j + 1)
  }

  lemma {:induction false} WalkFromIsScript(a: seq<string>, b: seq<string>, i: nat, j: nat)
    requires i <= |a| && j <= |b|
    ensures WalkFrom(a, b, i, j) == WalkScript(a[i..], b[j..])
    decreases |a| - i + |b| - j
  {
    if i < |a| && j < |b| {
      SuffixStep(a, b, i, j);
      SuffixLcsIsLcs(a, b, i + 1, j);
      SuffixLcsIsLcs(a, b, i, j + 1);
      if a[i] == b[j] {
        WalkFromIsScript(a, b, i + 1, j + 1);
      } else {
        WalkFromIsScript(a, b, i + 1, j);
        WalkFromIsScript(a, b, i, j + 1);
      }
    }
  }

  /** One turn of the walk: the first token of what is left, and where that leaves the walk. */
  lemma WalkTurn(a: seq<string>, b: seq<string>, i: nat, j: nat)
    requires i < |a| && j < |b|
    ensures var rest := WalkFrom(a, b, i, j);
            && rest != []
            && if a[i] == b[j] then
                 rest[0] == Part(Same, a[i]) && rest[1..] == WalkFrom(a, b, i + 1, j + 1)
               else if SuffixLcs(a, b, i + 1, j) >= SuffixLcs(a, b, i, j + 1) then
                 rest[0] == Part(Removed, a[i]) && rest[1..] == WalkFrom(a, b, i + 1, j)
               else
                 rest[0] == Part(Added, b[j]) && rest[1..] == WalkFrom(a, b, i, j + 1)
  {
  }

  /** Fills the table, then walks it. */
  method LcsDiff(a: seq<string>, b: seq<string>) returns (list: PartList)
    requires |a| < 0x8000_0000
    ensures fresh(list) && list.parts == Coalesce([], WalkScript(a, b))
  {
    var table := FillTable(a, b);
    list := new PartList();
    WalkTable(list, table, a, b);
    WholeWalk(a, b);
  }

  /** The walk over the table pushes the greedy script. */
  method WalkTable(list: PartList, table: array<int32>, a: seq<string>, b: seq<string>)
    requires Filled(table[..], a, b, -1, |b| - 1)
    modifies list
    ensures list.parts == Coalesce(old(list.parts), WalkFrom(a, b, 0, 0))
  {
    hide WalkFrom, Filled, SuffixLcs, Pushed, Cell;
    var n, m := |a|, |b|;
    var width := m + 1;
    var i, j := 0, 0;
    ghost var cells, rest := table[..], WalkFrom(a, b, 0, 0);
    ghost var goal := Coalesce(list.parts, rest);
    while i < n && j < m
      invariant i <= n && j <= m && table[..] == cells
      invariant rest == WalkFrom(a, b, i, j) && Coalesce(list.parts, rest) == goal
      decreases n - i + m - j
    {
      TableDecides(cells, a, b, i, j);
      WalkTurn(a, b, i, j);
      if a[i] == b[j] {
        list.Push(Same, a[i]);
        i, j := i + 1, j + 1;
      } else if table[Cell(i + 1, j, width)] >= table[Cell(i, j + 1, width)] {
        list.Push(Removed, a[i]);
        i := i + 1;
      } else {
        list.Push(Added, b[j]);
        j := j + 1;
      }
      rest := rest[1..];
    }
    PushRest(list, a, b, i, j);
  }

  lemma WholeWalk(a: seq<string>, b: seq<string>)
    ensures WalkFrom(a, b, 0, 0) == WalkScript(a, b)
  {
    WalkFromIsScript(a, b, 0, 0);
    assert a[0..] == a && b[0..] == b;
  }

  /** The two loops after the walk, which report what is left of either side. */
  method PushRest(list: PartList, a: seq<string>, b: seq<string>, i: nat, j: nat)
    requires i <= |a| && j <= |b| && (i == |a| || j == |b|)
    modifies list
    ensures list.parts == Coalesce(old(list.parts), WalkFrom(a, b, i, j))
  {
    CoalesceAppend(list.parts, AllOf(Removed, a[i..]), AllOf(Added, b[j..]));
    PushAll(list, Removed, a, i);
    PushAll(list, Added, b, j);
  }

  lemma CoalesceOfCons(parts: seq<Part>, p: Part, script: seq<Part>)
    ensures Coalesce(parts, [p] + script) == Coalesce(Pushed(parts, p.kind, p.text), script)
  {
    assert ([p] + script)[1..] == script;
  }

  method PushAll(list: PartList, kind: Kind, tokens: seq<string>, start: nat)
    requires start <= |tokens|
    modifies list
    ensures list.parts == Coalesce(old(list.parts), AllOf(kind, tokens[start..]))
  {
    var i := start;
    while i < |tokens|
      invariant start <= i <= |tokens|
      invariant Coalesce(list.parts, AllOf(kind, tokens[i..]))
          == Coalesce(old(list.parts), AllOf(kind, tokens[start..]))
    {
      assert tokens[i..][0] == tokens[i] && tokens[i..][1..] == tokens[i + 1..];
      CoalesceOfCons(list.parts, Part(kind, tokens[i]), AllOf(kind, tokens[i + 1..]));
      list.Push(kind, tokens[i]);
      i := i + 1;
    }
  }

  /** The head loop, then the tail loop on what the head leaves. */
  method TrimEnds(a: seq<string>, b: seq<string>) returns (head: nat, tail: nat)
    ensures head + tail <= |a| && head + tail <= |b| && CutAt(a, b, head, tail) == TrimCommon(a, b)
  {
    head := 0;
    while head < |a| && head < |b| && a[head] == b[head]
      invariant head <= |a| && head <= |b| && CommonHead(a, b, head) == CommonHead(a, b, 0)
    {
      head := head + 1;
    }
    tail := 0;
    while tail < |a| - head && tail < |b| - head && a[|a| - 1 - tail] == b[|b| - 1 - tail]
      invariant head + tail <= |a| && head + tail <= |b|
      invariant CommonTail(a, b, head, tail) == CommonTail(a, b, head, 0)
    {
      tail := tail + 1;
    }
  }

  /** The loop that pushes the parts of an inner diff. */
  method PushParts(list: PartList, inner: PartList)
    requires inner != list
    modifies list
    ensures list.parts == Coalesce(old(list.parts), inner.parts)
  {
    var k := 0;
    while k < |inner.parts|
      invariant k <= |inner.parts| && inner.parts == old(inner.parts)
      invariant Coalesce(list.parts, inner.parts[k..]) == Coalesce(old(list.parts), inner.parts)
    {
      var part := inner.parts[k];
      assert inner.parts[k..] == [part] + inner.parts[k + 1..];
      CoalesceOfCons(list.parts, part, inner.parts[k + 1..]);
      list.Push(part.kind, part.text);
      k := k + 1;
    }
  }

  /** The middle: one removal and one addition over the cap, else the parts of the inner diff. */
  method PushMiddle(list: PartList, midA: seq<string>, midB: seq<string>)
    modifies list
    ensures list.parts == Coalesce(old(list.parts), MiddleScript(midA, midB))
  {
    if |midA| > MAX_DIFF_WORDS || |midB| > MAX_DIFF_WORDS {
      ReplacementPushes(list.parts, midA, midB);
      list.Push(Removed, Flatten(midA));
      list.Push(Added, Flatten(midB));
    } else {
      var inner := LcsDiff(midA, midB);
      CoalesceNested(list.parts, [], WalkScript(midA, midB));
      PushParts(list, inner);
    }
  }

  /** What `DiffWords` pushes for a head, two middles and a tail. */
  function Assembled(t: Trimmed): seq<Part> {
    Pushed(Coalesce(Pushed([], Same, Flatten(t.head)), MiddleScript(t.midA, t.midB)), Same, Flatten(t.tail))
  }

  method PushTrimmed(list: PartList, t: Trimmed)
    requires list.parts == []
    modifies list
    ensures list.parts == Assembled(t)
  {
    list.Push(Same, Flatten(t.head));
    PushMiddle(list, t.midA, t.midB);
    list.Push(Same, Flatten(t.tail));
  }

  /** The whole diff: tokens, head and tail loops, then head, middle and tail in order. */
  method DiffWords(before: string, after: string) returns (list: PartList)
    ensures fresh(list) && list.parts == DiffParts(before, after)
  {
    var a, b := Tokenize(before), Tokenize(after);
    var head, tail := TrimEnds(a, b);
    list := new PartList();
    PushTrimmed(list, CutAt(a, b, head, tail));
    PushesMakeTheDiff(before, after);
  }

  /** The pushes of `DiffWords`, in order, make the coalesced script. */
  lemma PushesMakeTheDiff(before: string, after: string)
    ensures Assembled(TrimCommon(Tokenize(before), Tokenize(after))) == DiffParts(before, after)
  {
    var t := TrimCommon(Tokenize(before), Tokenize(after));
    var mid := MiddleScript(t.midA, t.midB);
    CoalesceAppend([], AllOf(Same, t.head) + mid, AllOf(Same, t.tail));
    CoalesceAppend([], AllOf(Same, t.head), mid);
    CoalesceAll([], Same, t.head);
    CoalesceAll(Coalesce([], AllOf(Same, t.head) + mid), Same, t.tail);
  }

  lemma ReplacementPushes(parts: seq<Part>, removed: seq<string>, added: seq<string>)
    ensures Coalesce(parts, AllOf(Removed, removed) + AllOf(Added, added))
         == Pushed(Pushed(parts, Removed, Flatten(removed)), Added, Flatten(added))
  {
    CoalesceAppend(parts, AllOf(Removed, removed), AllOf(Added, added));
    CoalesceAll(parts, Removed, removed);
    CoalesceAll(Coalesce(parts, AllOf(Removed, removed)), Added, added);
  }
}
