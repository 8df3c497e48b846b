/** What the parts of a diff promise a reader, with the cap of 600 words spelled out. */
module DiffLaws {
  import opened Subsequence
  import opened Text
  import opened WordDiff

  // ----- the shared ends

  /** The head is the longest common start, and the tail the longest common end beside it. */
  lemma TrimIsMaximal(a: seq<string>, b: seq<string>)
    ensures var t := TrimCommon(a, b);
            && (|t.head| < |a| && |t.head| < |b| ==> a[|t.head|] != b[|t.head|])
            && (t.midA != [] && t.midB != [] ==> Last(t.midA) != Last(t.midB))
  {
    var h := CommonHead(a, b, 0);
    HeadStops(a, b, 0);
    TailStops(a, b, h, 0);
  }

  lemma {:induction false} HeadStops(a: seq<string>, b: seq<string>, n: nat)
    requires n <= |a| && n <= |b|
    ensures var h := CommonHead(a, b, n);
            h < |a| && h < |b| ==> a[h] != b[h]
    decreases |a| - n
  {
    if n < |a| && n < |b| && a[n] == b[n] {
      HeadStops(a, b, n + 1);
    }
  }

  lemma {:induction false} TailStops(a: seq<string>, b: seq<string>, head: nat, n: nat)
    requires head + n <= |a| && head + n <= |b|
    ensures var t := CommonTail(a, b, head, n);
            head + t < |a| && head + t < |b| ==> a[|a| - 1 - t] != b[|b| - 1 - t]
    decreases |a| - n
  {
    if n < |a| - head && n < |b| - head && a[|a| - 1 - n] == b[|b| - 1 - n] {
      TailStops(a, b, head, n + 1);
    }
  }

  // ----- the cap

  lemma CapIs()
    ensures MAX_DIFF_WORDS == 600
  {
  }

  /** Two texts cut into tokens, without the ends they share. */
  function Middles(before: string, after: string): Trimmed {
    TrimCommon(Tokenize(before), Tokenize(after))
  }

  /** Up to 600 tokens in either middle: what is shown as unchanged is a longest common subsequence. */
  lemma WithinCapIsLongest(before: string, after: string)
    requires |Middles(before, after).midA| <= 600 && |Middles(before, after).midB| <= 600
    ensures IsLongestCommon(SameTokens(DiffParts(before, after)), Tokenize(before), Tokenize(after))
  {
    CapIs();
    hide Tokenize, DiffParts, TrimCommon, SameTokens, IsLongestCommon, IsCommon, MAX_DIFF_WORDS;
    SameTokensAreLongest(before, after);
  }

  /** One removal and one addition between the unchanged head and the unchanged tail. */
  function Replacement(head: string, removed: string, added: string, tail: string): seq<Part> {
    Pushed(Pushed(Pushed(Pushed([], Same, head), Removed, removed), Added, added), Same, tail)
  }

  /** More than 600 tokens in a middle: only the shared ends are kept, and the middle is replaced as a whole. */
  lemma OverCapIsReplaced(before: string, after: string)
    requires |Middles(before, after).midA| > 600 || |Middles(before, after).midB| > 600
    ensures var t := Middles(before, after);
            && SameTokens(DiffParts(before, after)) == t.head + t.tail
            && DiffParts(before, after)
               == Replacement(Flatten(t.head), Flatten(t.midA), Flatten(t.midB), Flatten(t.tail))
  {
    var a, b, t := Tokenize(before), Tokenize(after), Middles(before, after);
    BeyondCap(a, b);
    DiffPartsIs(before, after);
    SameTokensAreLongest(before, after);
    hide *;
    ReplacedScript(t);
    CoalesceReplacement(t.head, t.midA, t.midB, t.tail);
  }

  lemma BeyondCap(a: seq<string>, b: seq<string>)
    requires |TrimCommon(a, b).midA| > 600 || |TrimCommon(a, b).midB| > 600
    ensures DiffScript(a, b) == Replaced(TrimCommon(a, b))
  {
    CapIs();
    hide TrimCommon, AllOf;
  }

  function Replaced(t: Trimmed): seq<Part> {
    AllOf(Same, t.head) + (AllOf(Removed, t.midA) + AllOf(Added, t.midB)) + AllOf(Same, t.tail)
  }

  lemma ReplacedScript(t: Trimmed)
    ensures Texts(Replaced(t), {Same}) == t.head + t.tail
    ensures Replaced(t) == AllOf(Same, t.head) + (AllOf(Removed, t.midA) + AllOf(Added, t.midB)) + AllOf(Same, t.tail)
  {
    hide AllOf, Texts;
    var head, tail := AllOf(Same, t.head), AllOf(Same, t.tail);
    var mid := AllOf(Removed, t.midA) + AllOf(Added, t.midB);
    TextsAppend(head + mid, tail, {Same});
    TextsAppend(head, mid, {Same});
    TextsOfAll(Same, t.head, {Same});
    TextsOfAll(Same, t.tail, {Same});
    ReplaceTexts(t.midA, t.midB);
    assert t.head + [] + t.tail == t.head + t.tail;
  }

  lemma CoalesceReplacement(head: seq<string>, removed: seq<string>, added: seq<string>, tail: seq<string>)
    ensures Coalesce([], AllOf(Same, head) + (AllOf(Removed, removed) + AllOf(Added, added)) + AllOf(Same, tail))
         == Replacement(Flatten(head), Flatten(removed), Flatten(added), Flatten(tail))
  {
    hide Coalesce, AllOf, Pushed;
    var x, y, z, w := AllOf(Same, head), AllOf(Removed, removed), AllOf(Added, added), AllOf(Same, tail);
    CoalesceAppend([], x + (y + z), w);
    CoalesceAppend([], x, y + z);
    CoalesceAppend(Coalesce([], x), y, z);
    CoalesceAll([], Same, head);
    CoalesceAll(Coalesce([], x), Removed, removed);
    CoalesceAll(Coalesce(Coalesce([], x), y), Added, added);
    CoalesceAll(Coalesce(Coalesce(Coalesce([], x), y), z), Same, tail);
  }

  // ----- the order of a replacement

  /** No addition right before a removal. */
  ghost predicate RemovesFirst(parts: seq<Part>) {
    forall k | 0 <= k < |parts| - 1 :: !(parts[k].kind == Added && parts[k + 1].kind == Removed)
  }

  lemma RemovesFirstOfCons(p: Part, script: seq<Part>)
    requires RemovesFirst(script) && (p.kind == Added && script != [] ==> script[0].kind != Removed)
    ensures RemovesFirst([p] + script)
  {
    var all := [p] + script;
    assert forall k | 0 < k < |all| :: all[k] == script[k - 1];
  }

  lemma {:induction false} AllOfIsOneKind(kind: Kind, tokens: seq<string>)
    ensures |AllOf(kind, tokens)| == |tokens| && forall k | 0 <= k < |tokens| :: AllOf(kind, tokens)[k].kind == kind
  {
    if tokens != [] {
      AllOfIsOneKind(kind, tokens[1..]);
    }
  }

  lemma ReplaceRemovesFirst(removed: seq<string>, added: seq<string>)
    ensures RemovesFirst(AllOf(Removed, removed) + AllOf(Added, added))
  {
    AllOfIsOneKind(Removed, removed);
    AllOfIsOneKind(Added, added);
  }

  /** After an addition the walk does not remove: another removal would have been at least as good before it. */
  lemma {:induction false} WalkRemovesFirst(a: seq<string>, b: seq<string>)
    ensures RemovesFirst(WalkScript(a, b))
    decreases |a| + |b|
  {
    if a == [] || b == [] {
      ReplaceRemovesFirst(a, b);
    } else if a[0] == b[0] {
      WalkRemovesFirst(a[1..], b[1..]);
      RemovesFirstOfCons(Part(Same, a[0]), WalkScript(a[1..], b[1..]));
    } else if LcsLength(a[1..], b) >= LcsLength(a, b[1..]) {
      WalkRemovesFirst(a[1..], b);
      RemovesFirstOfCons(Part(Removed, a[0]), WalkScript(a[1..], b));
    } else {
      WalkRemovesFirst(a, b[1..]);
      NoRemovalNext(a, b);
      RemovesFirstOfCons(Part(Added, b[0]), WalkScript(a, b[1..]));
    }
  }

  lemma LcsGrows(a: seq<string>, b: seq<string>)
    requires b != []
    ensures LcsLength(a, b[1..]) <= LcsLength(a, b)
  {
    hide LcsLength, WalkScript, Texts, IsSubseq;
    var script := WalkScript(a, b[1..]);
    WalkScriptIsOptimal(a, b[1..]);
    KeptIsCommon(script);
    Widen(Texts(script, {Same}), b[0], b[1..]);
    assert [b[0]] + b[1..] == b;
    LcsLengthBounds(Texts(script, {Same}), a, b);
  }

  lemma {:induction false} NoRemovalNext(a: seq<string>, b: seq<string>)
    requires a != [] && b != [] && LcsLength(a[1..], b) < LcsLength(a, b[1..])
    ensures var script := WalkScript(a, b[1..]); script != [] ==> script[0].kind != Removed
  {
    LcsGrows(a[1..], b);
  }

  lemma RemovesFirstOfThree(x: seq<Part>, y: seq<Part>, z: seq<Part>)
    requires (forall p | p in x :: p.kind == Same) && RemovesFirst(y) && (forall p | p in z :: p.kind == Same)
    ensures RemovesFirst(x + y + z)
  {
    var all := x + y + z;
    forall k | 0 <= k < |all| - 1 && all[k].kind == Added
      ensures all[k + 1].kind != Removed
    {
      assert |x| <= k < |x| + |y|;
    }
  }

  lemma {:induction false} CoalescedRemovesFirst(script: seq<Part>)
    requires IsTokenScript(script) && RemovesFirst(script)
    ensures RemovesFirst(Coalesce([], script))
    decreases |script|
  {
    hide Tokenize, Coalesce, Pushed, IsToken, AllSpace;
    NothingCoalesced();
    if script != [] {
      var before, last := Init(script), Last(script);
      assert script == before + [last];
      CoalescedRemovesFirst(before);
      CoalesceKeepsTokens(before);
      CoalesceSnoc(before, last);
      if before != [] {
        assert !(script[|script| - 2].kind == Added && last.kind == Removed);
      }
      PushedRemovesFirst(Coalesce([], before), last);
    }
  }

  lemma PushedRemovesFirst(parts: seq<Part>, p: Part)
    requires RemovesFirst(parts) && !(parts != [] && Last(parts).kind == Added && p.kind == Removed)
    ensures RemovesFirst(Pushed(parts, p.kind, p.text))
  {
    var pushed := Pushed(parts, p.kind, p.text);
    assert forall k | 0 <= k < |pushed| && k < |parts| :: pushed[k].kind == parts[k].kind;
  }

  /** A replacement always shows as the removal followed by the addition, never the other way round. */
  lemma ReplacementsRemoveFirst(before: string, after: string)
    ensures RemovesFirst(DiffParts(before, after))
  {
    var a, b := Tokenize(before), Tokenize(after);
    var t := TrimCommon(a, b);
    TokenizeIsMaximal(before);
    TokenizeIsMaximal(after);
    DiffPartsIs(before, after);
    hide Tokenize, TrimCommon, DiffParts, AllOf, RemovesFirst, Coalesce, WalkScript;
    WalkRemovesFirst(t.midA, t.midB);
    ReplaceRemovesFirst(t.midA, t.midB);
    AllOfIsOneKind(Same, t.head);
    AllOfIsOneKind(Same, t.tail);
    RemovesFirstOfThree(AllOf(Same, t.head), MiddleScript(t.midA, t.midB), AllOf(Same, t.tail));
    DiffScriptRebuilds(a, b);
    RebuildingScript(DiffScript(a, b), a, b);
    CoalescedRemovesFirst(DiffScript(a, b));
  }
}
