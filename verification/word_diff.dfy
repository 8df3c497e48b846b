/** What a word diff is: tokens, edit scripts and coalesced parts. */
module WordDiff {
  import opened Subsequence
  import opened Text

  datatype Kind = Same | Removed | Added

  /** A run of text of one kind; in a script, a single token. */
  datatype Part = Part(kind: Kind, text: string)

  /** Middles with more tokens than this skip the quadratic pass. */
  const MAX_DIFF_WORDS := 600

  // ----- tokens

  /** `text.split(/(\s+)/)`: words alternating with the white space that separates them. */
  function SplitSpaces(text: string): seq<string>
    decreases |text|
  {
    var w := SpaceRun(text, false);
    if w == |text| then [text]
    else
      var s := SpaceRun(text[w..], true);
      [text[..w]] + ([text[w..][..s]] + SplitSpaces(text[w..][s..]))
  }

  function NonEmpty(pieces: seq<string>): seq<string> {
    if pieces == [] then []
    else if pieces[0] == "" then NonEmpty(pieces[1..])
    else [pieces[0]] + NonEmpty(pieces[1..])
  }

  function Tokenize(text: string): seq<string> {
    if text == "" then [] else NonEmpty(SplitSpaces(text))
  }

  /** Non-empty pieces of text that are all white space or all words, strictly alternating. */
  ghost predicate IsTokenList(tokens: seq<string>) {
    && (forall k | 0 <= k < |tokens| :: tokens[k] != "" && (AllSpace(tokens[k]) || NoSpace(tokens[k])))
    && (forall k | 0 <= k < |tokens| - 1 :: AllSpace(tokens[k]) != AllSpace(tokens[k + 1]))
  }

  /** The tokens of a text are its maximal runs, and they join back to it. */
  lemma {:induction false} TokenizeIsMaximal(text: string)
    ensures Flatten(Tokenize(text)) == text
    ensures IsTokenList(Tokenize(text))
  {
    if text != "" {
      TokensJoin(text);
      TokensAlternate(text);
    }
  }

  lemma NonEmptyOfCons(p: string, pieces: seq<string>)
    ensures NonEmpty([p] + pieces) == (if p == "" then [] else [p]) + NonEmpty(pieces)
  {
    assert ([p] + pieces)[1..] == pieces;
  }

  /** One round of splitting: a word, possibly empty, the gap after it, and the rest. */
  lemma {:induction false} SplitSpacesStep(text: string)
    requires SpaceRun(text, false) < |text|
    ensures var w := SpaceRun(text, false);
            var s := SpaceRun(text[w..], true);
            && s > 0
            && NonEmpty(SplitSpaces(text))
            == (if w == 0 then [] else [text[..w]]) + ([text[w..][..s]] + NonEmpty(SplitSpaces(text[w..][s..])))
  {
    var w := SpaceRun(text, false);
    var s := SpaceRun(text[w..], true);
    var rest := SplitSpaces(text[w..][s..]);
    SpaceRunIsMaximal(text, false);
    NonEmptyOfCons(text[w..][..s], rest);
    NonEmptyOfCons(text[..w], [text[w..][..s]] + rest);
  }

  lemma {:induction false} TokensJoin(text: string)
    ensures Flatten(NonEmpty(SplitSpaces(text))) == text
    decreases |text|
  {
    var w := SpaceRun(text, false);
    if w < |text| {
      SplitSpacesStep(text);
      var s := SpaceRun(text[w..], true);
      var rest := NonEmpty(SplitSpaces(text[w..][s..]));
      TokensJoin(text[w..][s..]);
      JoinStep(text, w, s, rest);
    } else {
      NonEmptyOfCons(text, []);
      FlattenOfCons(text, []);
      assert [text] + [] == [text] && text + "" == text;
    }
  }

  lemma JoinStep(text: string, w: nat, s: nat, rest: seq<string>)
    requires w + s <= |text| && Flatten(rest) == text[w..][s..]
    ensures Flatten((if w == 0 then [] else [text[..w]]) + ([text[w..][..s]] + rest)) == text
  {
    FlattenOfCons(text[w..][..s], rest);
    assert text[w..][..s] + text[w..][s..] == text[w..];
    FlattenOfCons(text[..w], [text[w..][..s]] + rest);
    assert text[..w] + text[w..] == text;
    assert [] + ([text[w..][..s]] + rest) == [text[w..][..s]] + rest;
  }

  lemma FlattenOfCons(p: string, pieces: seq<string>)
    ensures Flatten([p] + pieces) == p + Flatten(pieces)
  {
    assert ([p] + pieces)[1..] == pieces;
  }

  ghost predicate StartsText(tokens: seq<string>, text: string) {
    tokens != [] ==> text != "" && tokens[0] != "" && tokens[0][0] == text[0]
  }

  lemma {:induction false} TokensAlternate(text: string)
    ensures var tokens := NonEmpty(SplitSpaces(text));
            IsTokenList(tokens) && StartsText(tokens, text)
    decreases |text|
  {
    var w := SpaceRun(text, false);
    if w < |text| {
      SplitSpacesStep(text);
      var s := SpaceRun(text[w..], true);
      var rest := NonEmpty(SplitSpaces(text[w..][s..]));
      TokensAlternate(text[w..][s..]);
      GapThenWords(text[w..], s, rest);
      if w > 0 {
        WordThenGaps(text, w, [text[w..][..s]] + rest);
      }
    } else if text != "" {
      NonEmptyOfCons(text, []);
      WordThenGaps(text, w, []);
      assert SplitSpaces(text) == [text] + [] && text[..w] == text;
    }
  }

  lemma GapThenWords(text: string, s: nat, rest: seq<string>)
    requires s == SpaceRun(text, true) && s > 0 && IsTokenList(rest) && StartsText(rest, text[s..])
    ensures IsTokenList([text[..s]] + rest) && AllSpace(text[..s])
  {
    SpaceRunIsMaximal(text, true);
    if rest != [] {
      assert !IsSpace(rest[0][0]);
    }
    TokenListOfCons(text[..s], rest);
  }

  lemma WordThenGaps(text: string, w: nat, rest: seq<string>)
    requires w == SpaceRun(text, false) && w > 0 && IsTokenList(rest)
    requires rest != [] ==> AllSpace(rest[0])
    ensures IsTokenList([text[..w]] + rest)
  {
    SpaceRunIsMaximal(text, false);
    assert !IsSpace(text[..w][0]);
    TokenListOfCons(text[..w], rest);
  }

  lemma TokenListOfCons(token: string, rest: seq<string>)
    requires token != "" && (AllSpace(token) || NoSpace(token)) && IsTokenList(rest)
    requires rest != [] ==> AllSpace(token) != AllSpace(rest[0])
    ensures IsTokenList([token] + rest)
  {
    var tokens := [token] + rest;
    assert forall k | 0 < k < |tokens| :: tokens[k] == rest[k - 1];
  }

  /** The other way round: a list of alternating runs is the token list of the text it joins to. */
  lemma TokenizeOfTokens(tokens: seq<string>)
    requires IsTokenList(tokens)
    ensures Tokenize(Flatten(tokens)) == tokens
  {
    TokenizeIsMaximal(Flatten(tokens));
    TokensAreUnique(Tokenize(Flatten(tokens)), tokens);
  }

  lemma {:induction false} TokensAreUnique(p: seq<string>, q: seq<string>)
    requires IsTokenList(p) && IsTokenList(q) && Flatten(p) == Flatten(q)
    ensures p == q
  {
    if p != [] && q != [] {
      FirstRunIsShorter(p, q);
      FirstRunIsShorter(q, p);
      assert Flatten(p)[..|p[0]|] == p[0] && Flatten(q)[..|q[0]|] == q[0];
      assert Flatten(p)[|p[0]|..] == Flatten(p[1..]) && Flatten(q)[|q[0]|..] == Flatten(q[1..]);
      TokensAreUnique(p[1..], q[1..]);
    }
  }

  /** A run ends where the other kind begins, so it is not longer than the first run of the same text. */
  lemma FirstRunIsShorter(p: seq<string>, q: seq<string>)
    requires p != [] && q != [] && IsTokenList(p) && IsTokenList(q) && Flatten(p) == Flatten(q)
    ensures |q[0]| <= |p[0]|
  {
    NextRunStarts(p);
    RunIsOneKind(q);
    assert Flatten(p)[0] == p[0][0];
  }

  lemma NextRunStarts(tokens: seq<string>)
    requires tokens != [] && IsTokenList(tokens)
    ensures var text, n := Flatten(tokens), |tokens[0]|;
            n < |text| ==> IsSpace(text[n]) != IsSpace(tokens[0][0])
  {
    if |tokens| > 1 {
      assert tokens[1] == tokens[1..][0];
      assert Flatten(tokens)[|tokens[0]|] == tokens[1][0];
    } else {
      assert tokens[1..] == [];
    }
  }

  lemma RunIsOneKind(tokens: seq<string>)
    requires tokens != [] && IsTokenList(tokens)
    ensures |tokens[0]| <= |Flatten(tokens)|
    ensures forall i | 0 <= i < |tokens[0]| :: IsSpace(Flatten(tokens)[i]) == IsSpace(tokens[0][0])
  {
    assert forall i | 0 <= i < |tokens[0]| :: Flatten(tokens)[i] == tokens[0][i];
  }

  // ----- parts

  /** Appends text, merging it into the trailing part when that has the same kind. */
  function Pushed(parts: seq<Part>, kind: Kind, text: string): seq<Part> {
    if text == "" then parts
    else if parts != [] && Last(parts).kind == kind then
      Init(parts) + [Part(kind, Last(parts).text + text)]
    else parts + [Part(kind, text)]
  }

  /** Pushes every token of a script. */
  function Coalesce(parts: seq<Part>, script: seq<Part>): seq<Part>
    decreases |script|
  {
    if script == [] then parts
    else Coalesce(Pushed(parts, script[0].kind, script[0].text), script[1..])
  }

  /** The texts of the entries whose kind is wanted. */
  function Texts(parts: seq<Part>, kinds: set<Kind>): seq<string> {
    if parts == [] then []
    else (if parts[0].kind in kinds then [parts[0].text] else []) + Texts(parts[1..], kinds)
  }

  const BEFORE := {Same, Removed}
  const AFTER := {Same, Added}

  /** Every token with the same kind. */
  function AllOf(kind: Kind, tokens: seq<string>): seq<Part> {
    if tokens == [] then [] else [Part(kind, tokens[0])] + AllOf(kind, tokens[1..])
  }

  // ----- the diff as an edit script

  /** The greedy walk over the table of suffix LCS lengths. */
  function WalkScript(a: seq<string>, b: seq<string>): seq<Part>
    decreases |a| + |b|
  {
    if a == [] || b == [] then AllOf(Removed, a) + AllOf(Added, b)
    else if a[0] == b[0] then [Part(Same, a[0])] + WalkScript(a[1..], b[1..])
    else if LcsLength(a[1..], b) >= LcsLength(a, b[1..]) then [Part(Removed, a[0])] + WalkScript(a[1..], b)
    else [Part(Added, b[0])] + WalkScript(a, b[1..])
  }

  /** How far the shared head reaches, once `n` tokens are known to agree. */
  function CommonHead(a: seq<string>, b: seq<string>, n: nat): (h: nat)
    requires n <= |a| && n <= |b|
    ensures n <= h <= |a| && h <= |b|
    decreases |a| - n
  {
    if n < |a| && n < |b| && a[n] == b[n] then CommonHead(a, b, n + 1) else n
  }

  /** How far the shared tail reaches back without touching the head, once `n` tokens agree. */
  function CommonTail(a: seq<string>, b: seq<string>, head: nat, n: nat): (t: nat)
    requires head + n <= |a| && head + n <= |b|
    ensures n <= t && head + t <= |a| && head + t <= |b|
    decreases |a| - n
  {
    if n < |a| - head && n < |b| - head && a[|a| - 1 - n] == b[|b| - 1 - n] then
      CommonTail(a, b, head, n + 1)
    else n
  }

  lemma {:induction false} CommonHeadIsShared(a: seq<string>, b: seq<string>, n: nat)
    requires n <= |a| && n <= |b| && a[..n] == b[..n]
    ensures a[..CommonHead(a, b, n)] == b[..CommonHead(a, b, n)]
    decreases |a| - n
  {
    if n < |a| && n < |b| && a[n] == b[n] {
      assert a[..n + 1] == a[..n] + [a[n]] && b[..n + 1] == b[..n] + [b[n]];
      CommonHeadIsShared(a, b, n + 1);
    }
  }

  lemma {:induction false} CommonTailIsShared(a: seq<string>, b: seq<string>, head: nat, n: nat)
    requires head + n <= |a| && head + n <= |b| && a[|a| - n..] == b[|b| - n..]
    ensures var t := CommonTail(a, b, head, n); a[|a| - t..] == b[|b| - t..]
    decreases |a| - n
  {
    if n < |a| - head && n < |b| - head && a[|a| - 1 - n] == b[|b| - 1 - n] {
      assert a[|a| - (n + 1)..] == [a[|a| - 1 - n]] + a[|a| - n..];
      assert b[|b| - (n + 1)..] == [b[|b| - 1 - n]] + b[|b| - n..];
      CommonTailIsShared(a, b, head, n + 1);
    }
  }

  /** Two token lists cut into a shared head, two middles and a shared tail. */
  datatype Trimmed = Trimmed(head: seq<string>, midA: seq<string>, midB: seq<string>, tail: seq<string>) {
    predicate WithinCap() {
      |midA| <= MAX_DIFF_WORDS && |midB| <= MAX_DIFF_WORDS
    }
  }

  function CutAt(a: seq<string>, b: seq<string>, head: nat, tail: nat): Trimmed
    requires head + tail <= |a| && head + tail <= |b|
  {
    Trimmed(a[..head], a[head..|a| - tail], b[head..|b| - tail], a[|a| - tail..])
  }

  function TrimCommon(a: seq<string>, b: seq<string>): Trimmed {
    var h := CommonHead(a, b, 0);
    CutAt(a, b, h, CommonTail(a, b, h, 0))
  }

  lemma TrimCommonRebuilds(a: seq<string>, b: seq<string>)
    ensures var t := TrimCommon(a, b);
            a == t.head + t.midA + t.tail && b == t.head + t.midB + t.tail
  {
    var h := CommonHead(a, b, 0);
    CommonHeadIsShared(a, b, 0);
    CommonTailIsShared(a, b, h, 0);
    CutInThree(a, h, CommonTail(a, b, h, 0));
    CutInThree(b, h, CommonTail(a, b, h, 0));
  }

  lemma CutInThree(a: seq<string>, h: nat, n: nat)
    requires h + n <= |a|
    ensures a == a[..h] + a[h..|a| - n] + a[|a| - n..]
  {
  }

  function MiddleScript(a: seq<string>, b: seq<string>): seq<Part> {
    if |a| <= MAX_DIFF_WORDS && |b| <= MAX_DIFF_WORDS then WalkScript(a, b)
    else AllOf(Removed, a) + AllOf(Added, b)
  }

  function DiffScript(a: seq<string>, b: seq<string>): seq<Part> {
    var t := TrimCommon(a, b);
    AllOf(Same, t.head) + MiddleScript(t.midA, t.midB) + AllOf(Same, t.tail)
  }

  function DiffParts(before: string, after: string): seq<Part> {
    Coalesce([], DiffScript(Tokenize(before), Tokenize(after)))
  }

  // ----- scripts rebuild both sides

  lemma {:induction false} TextsAppend(x: seq<Part>, y: seq<Part>, kinds: set<Kind>)
    ensures Texts(x + y, kinds) == Texts(x, kinds) + Texts(y, kinds)
  {
    if x == [] {
      assert x + y == y;
    } else {
      assert (x + y)[1..] == x[1..] + y;
      TextsAppend(x[1..], y, kinds);
    }
  }

  lemma {:induction false} TextsOfAll(kind: Kind, tokens: seq<string>, kinds: set<Kind>)
    ensures Texts(AllOf(kind, tokens), kinds) == if kind in kinds then tokens else []
  {
    if tokens != [] {
      TextsOfAll(kind, tokens[1..], kinds);
    }
  }

  lemma ReplaceTexts(removed: seq<string>, added: seq<string>)
    ensures var script := AllOf(Removed, removed) + AllOf(Added, added);
            Texts(script, BEFORE) == removed && Texts(script, AFTER) == added && Texts(script, {Same}) == []
  {
    forall kinds: set<Kind>
      ensures var script := AllOf(Removed, removed) + AllOf(Added, added);
              Texts(script, kinds) == (if Removed in kinds then removed else []) + if Added in kinds then added else []
    {
      TextsAppend(AllOf(Removed, removed), AllOf(Added, added), kinds);
      TextsOfAll(Removed, removed, kinds);
      TextsOfAll(Added, added, kinds);
    }
  }

  lemma TextsOfCons(p: Part, script: seq<Part>)
    ensures Texts([p] + script, BEFORE) == (if p.kind == Added then [] else [p.text]) + Texts(script, BEFORE)
    ensures Texts([p] + script, AFTER) == (if p.kind == Removed then [] else [p.text]) + Texts(script, AFTER)
    ensures Texts([p] + script, {Same}) == (if p.kind == Same then [p.text] else []) + Texts(script, {Same})
  {
    assert ([p] + script)[1..] == script;
  }

  /** The walk rebuilds both lists and keeps exactly as many tokens as the table promises. */
  lemma {:induction false} WalkScriptIsOptimal(a: seq<string>, b: seq<string>)
    ensures var script := WalkScript(a, b);
            && Texts(script, BEFORE) == a && Texts(script, AFTER) == b
            && |Texts(script, {Same})| == LcsLength(a, b)
    decreases |a| + |b|
  {
    hide Texts;
    if a == [] || b == [] {
      ReplaceTexts(a, b);
    } else if a[0] == b[0] {
      WalkScriptIsOptimal(a[1..], b[1..]);
      TextsOfCons(Part(Same, a[0]), WalkScript(a[1..], b[1..]));
    } else if LcsLength(a[1..], b) >= LcsLength(a, b[1..]) {
      WalkScriptIsOptimal(a[1..], b);
      TextsOfCons(Part(Removed, a[0]), WalkScript(a[1..], b));
    } else {
      WalkScriptIsOptimal(a, b[1..]);
      TextsOfCons(Part(Added, b[0]), WalkScript(a, b[1..]));
    }
  }

  /** What a script keeps is a common subsequence of what it rebuilds. */
  lemma {:induction false} KeptIsCommon(script: seq<Part>)
    ensures IsCommon(Texts(script, {Same}), Texts(script, BEFORE), Texts(script, AFTER))
  {
    if script != [] {
      KeptIsCommon(script[1..]);
      var kept, a, b := Texts(script[1..], {Same}), Texts(script[1..], BEFORE), Texts(script[1..], AFTER);
      match script[0].kind
      case Same =>
        SubseqConcat([script[0].text], [script[0].text], kept, a);
        SubseqConcat([script[0].text], [script[0].text], kept, b);
      case Removed =>
        Widen(kept, script[0].text, a);
        assert Texts(script, {Same}) == kept && Texts(script, AFTER) == b;
      case Added =>
        Widen(kept, script[0].text, b);
        assert Texts(script, {Same}) == kept && Texts(script, BEFORE) == a;
    }
  }

  lemma MiddleRebuilds(t: Trimmed)
    ensures Texts(MiddleScript(t.midA, t.midB), BEFORE) == t.midA &&
        Texts(MiddleScript(t.midA, t.midB), AFTER) == t.midB
  {
    if t.WithinCap() {
      WalkScriptIsOptimal(t.midA, t.midB);
    } else {
      ReplaceTexts(t.midA, t.midB);
    }
  }

  lemma DiffScriptTexts(a: seq<string>, b: seq<string>, kinds: set<Kind>)
    requires Same in kinds
    ensures var t := TrimCommon(a, b);
            Texts(DiffScript(a, b), kinds) == t.head + Texts(MiddleScript(t.midA, t.midB), kinds) + t.tail
  {
    var t := TrimCommon(a, b);
    TextsAppend(AllOf(Same, t.head) + MiddleScript(t.midA, t.midB), AllOf(Same, t.tail), kinds);
    TextsAppend(AllOf(Same, t.head), MiddleScript(t.midA, t.midB), kinds);
    TextsOfAll(Same, t.head, kinds);
    TextsOfAll(Same, t.tail, kinds);
  }

  /** Dropping the additions leaves the first list, dropping the removals the second. */
  lemma DiffScriptRebuilds(a: seq<string>, b: seq<string>)
    ensures Texts(DiffScript(a, b), BEFORE) == a && Texts(DiffScript(a, b), AFTER) == b
  {
    var t := TrimCommon(a, b);
    DiffScriptTexts(a, b, BEFORE);
    DiffScriptTexts(a, b, AFTER);
    MiddleRebuilds(t);
    TrimCommonRebuilds(a, b);
  }

  /**
   * The kept tokens are always common to both lists. They form a longest common subsequence
   * exactly when the middles fit the cap or have no token in common.
   */
  lemma KeptTokensAreLongest(a: seq<string>, b: seq<string>)
    ensures var kept := Texts(DiffScript(a, b), {Same});
            && IsCommon(kept, a, b)
            && (IsLongestCommon(kept, a, b)
                <==> (TrimCommon(a, b).WithinCap() || Disjoint(TrimCommon(a, b).midA, TrimCommon(a, b).midB)))
  {
    var t := TrimCommon(a, b);
    var mid := Texts(MiddleScript(t.midA, t.midB), {Same});
    DiffScriptTexts(a, b, {Same});
    TrimCommonRebuilds(a, b);
    MiddleRebuilds(t);
    KeptIsCommon(MiddleScript(t.midA, t.midB));
    LongestThroughTrim(mid, t.head, t.midA, t.midB, t.tail);
    if t.WithinCap() {
      WalkScriptIsOptimal(t.midA, t.midB);
      forall r: seq<string> | IsCommon(r, t.midA, t.midB)
        ensures |r| <= |mid|
      {
        LcsLengthBounds(r, t.midA, t.midB);
      }
    } else {
      ReplaceTexts(t.midA, t.midB);
      NothingInCommon(t.midA, t.midB);
    }
  }

  ghost predicate Disjoint(a: seq<string>, b: seq<string>) {
    forall i, j | 0 <= i < |a| && 0 <= j < |b| :: a[i] != b[j]
  }

  lemma NothingInCommon(a: seq<string>, b: seq<string>)
    ensures IsLongestCommon([], a, b) <==> Disjoint(a, b)
  {
    if !Disjoint(a, b) {
      var i, j :| 0 <= i < |a| && 0 <= j < |b| && a[i] == b[j];
      SingleSubseq(a, i);
      SingleSubseq(b, j);
      assert IsCommon([a[i]], a, b);
    } else {
      forall r: seq<string> | IsCommon(r, a, b)
        ensures r == []
      {
        if r != [] {
          var i := FirstOfSubseq(r, a);
          var j := FirstOfSubseq(r, b);
          assert false;
        }
      }
    }
  }

  lemma {:induction false} SingleSubseq(t: seq<string>, i: nat)
    requires i < |t|
    ensures IsSubseq([t[i]], t)
  {
    if i > 0 {
      SingleSubseq(t[1..], i - 1);
    }
  }

  lemma {:induction false} FirstOfSubseq(s: seq<string>, t: seq<string>) returns (i: nat)
    requires s != [] && IsSubseq(s, t)
    ensures i < |t| && t[i] == s[0]
    decreases |t|
  {
    if s[0] == t[0] {
      i := 0;
    } else {
      i := FirstOfSubseq(s, t[1..]);
      i := i + 1;
    }
  }

  /** The text of `n` tokens, a word and single spaces in turn. */
  function Repeated(word: string, n: nat): seq<string> {
    seq(n, i => if i % 2 == 0 then word else " ")
  }

  lemma RepeatedIsTokenList(word: string, n: nat)
    requires word != "" && NoSpace(word)
    ensures IsTokenList(Repeated(word, n))
  {
    assert AllSpace(" ") && !IsSpace(word[0]);
  }

  lemma NothingTrimmed(a: seq<string>, b: seq<string>)
    requires a != [] && b != [] && a[0] != b[0] && Last(a) != Last(b)
    ensures TrimCommon(a, b).midA == a && TrimCommon(a, b).midB == b
  {
  }

  /** Long lists that differ at both ends and share a token: it is not kept, and some could be. */
  lemma LongListsLoseShared(a: seq<string>, b: seq<string>, i: nat, j: nat)
    requires |a| > MAX_DIFF_WORDS && b != [] && a[0] != b[0] && Last(a) != Last(b)
    requires i < |a| && j < |b| && a[i] == b[j]
    ensures !IsLongestCommon(Texts(DiffScript(a, b), {Same}), a, b)
  {
    NothingTrimmed(a, b);
    KeptTokensAreLongest(a, b);
    hide Texts, IsLongestCommon, DiffScript, TrimCommon;
  }

  /**
   * Two texts that repeat different words 301 times: the spaces are common to both, and none is
   * kept, so the diff is not a longest common subsequence.
   */
  lemma LongDiffExample(x: string, y: string)
    requires x != "" && y != "" && NoSpace(x) && NoSpace(y) && x != y
    ensures var a, b := Tokenize(Flatten(Repeated(x, 601))), Tokenize(Flatten(Repeated(y, 601)));
            !IsLongestCommon(Texts(DiffScript(a, b), {Same}), a, b)
  {
    var a, b := Repeated(x, 601), Repeated(y, 601);
    RepeatedIsTokenList(x, 601);
    RepeatedIsTokenList(y, 601);
    hide Texts, IsLongestCommon, DiffScript, Tokenize, Flatten, IsTokenList;
    TokenizeOfTokens(a);
    TokenizeOfTokens(b);
    LongListsLoseShared(a, b, 1, 1);
  }

  // ----- coalescing

  /** No part is empty and no two neighbours have the same kind. */
  ghost predicate WellFormed(parts: seq<Part>) {
    && (forall k | 0 <= k < |parts| :: parts[k].text != "")
    && (forall k | 0 <= k < |parts| - 1 :: parts[k].kind != parts[k + 1].kind)
  }

  /** The text shown for the wanted kinds. */
  function TextOf(parts: seq<Part>, kinds: set<Kind>): string {
    if parts == [] then ""
    else (if parts[0].kind in kinds then parts[0].text else "") + TextOf(parts[1..], kinds)
  }

  lemma {:induction false} TextOfTokens(script: seq<Part>, kinds: set<Kind>)
    ensures TextOf(script, kinds) == Flatten(Texts(script, kinds))
  {
    if script != [] {
      TextOfTokens(script[1..], kinds);
      FlattenOfCons(script[0].text, Texts(script[1..], kinds));
      assert [] + Texts(script[1..], kinds) == Texts(script[1..], kinds);
    }
  }

  lemma {:induction false} TextOfSnoc(parts: seq<Part>, p: Part, kinds: set<Kind>)
    ensures TextOf(parts + [p], kinds) == TextOf(parts, kinds) + if p.kind in kinds then p.text else ""
  {
    if parts == [] {
      assert parts + [p] == [p];
    } else {
      var first, last := if parts[0].kind in kinds then parts[0].text else "", if p.kind in kinds then p.text else "";
      assert (parts + [p])[1..] == parts[1..] + [p];
      TextOfSnoc(parts[1..], p, kinds);
      assert first + (TextOf(parts[1..], kinds) + last) == first + TextOf(parts[1..], kinds) + last;
    }
  }

  lemma PushedText(parts: seq<Part>, kind: Kind, text: string, kinds: set<Kind>)
    ensures TextOf(Pushed(parts, kind, text), kinds) == TextOf(parts, kinds) + if kind in kinds then text else ""
  {
    if text != "" {
      if parts != [] && Last(parts).kind == kind {
        assert parts == Init(parts) + [Last(parts)];
        TextOfSnoc(Init(parts), Last(parts), kinds);
        TextOfSnoc(Init(parts), Part(kind, Last(parts).text + text), kinds);
      } else {
        TextOfSnoc(parts, Part(kind, text), kinds);
      }
    }
  }

  /** Coalescing changes neither the text of any kind nor the normal form of a part list. */
  lemma {:induction false} CoalesceKeepsText(parts: seq<Part>, script: seq<Part>, kinds: set<Kind>)
    requires WellFormed(parts)
    ensures WellFormed(Coalesce(parts, script))
    ensures TextOf(Coalesce(parts, script), kinds) == TextOf(parts, kinds) + TextOf(script, kinds)
    decreases |script|
  {
    if script != [] {
      var next := Pushed(parts, script[0].kind, script[0].text);
      PushedText(parts, script[0].kind, script[0].text, kinds);
      PushedWellFormed(parts, script[0].kind, script[0].text);
      CoalesceKeepsText(next, script[1..], kinds);
    }
  }

  lemma PushedWellFormed(parts: seq<Part>, kind: Kind, text: string)
    requires WellFormed(parts)
    ensures WellFormed(Pushed(parts, kind, text))
  {
  }

  lemma {:induction false} CoalesceAppend(parts: seq<Part>, x: seq<Part>, y: seq<Part>)
    ensures Coalesce(parts, x + y) == Coalesce(Coalesce(parts, x), y)
    decreases |x|
  {
    if x == [] {
      assert x + y == y;
    } else {
      assert (x + y)[1..] == x[1..] + y;
      CoalesceAppend(Pushed(parts, x[0].kind, x[0].text), x[1..], y);
    }
  }

  lemma PushedTwice(parts: seq<Part>, kind: Kind, x: string, y: string)
    ensures Pushed(Pushed(parts, kind, x), kind, y) == Pushed(parts, kind, x + y)
  {
    if x == "" {
      assert x + y == y;
    } else if y == "" {
      assert x + y == x;
    } else if parts != [] && Last(parts).kind == kind {
      assert Last(parts).text + x + y == Last(parts).text + (x + y);
      assert Init(Pushed(parts, kind, x)) == Init(parts);
    } else {
      assert Init(parts + [Part(kind, x)]) == parts;
    }
  }

  /** Pushing tokens one by one is pushing their concatenation. */
  lemma {:induction false} CoalesceAll(parts: seq<Part>, kind: Kind, tokens: seq<string>)
    ensures Coalesce(parts, AllOf(kind, tokens)) == Pushed(parts, kind, Flatten(tokens))
    decreases |tokens|
  {
    if tokens != [] {
      CoalesceAll(Pushed(parts, kind, tokens[0]), kind, tokens[1..]);
      PushedTwice(parts, kind, tokens[0], Flatten(tokens[1..]));
    }
  }

  lemma CoalescePushed(parts: seq<Part>, inner: seq<Part>, kind: Kind, text: string)
    ensures Coalesce(parts, Pushed(inner, kind, text)) == Pushed(Coalesce(parts, inner), kind, text)
  {
    if text != "" {
      if inner != [] && Last(inner).kind == kind {
        var init := Init(inner);
        assert inner == init + [Last(inner)];
        CoalesceAppend(parts, init, [Last(inner)]);
        CoalesceAppend(parts, init, [Part(kind, Last(inner).text + text)]);
        PushedTwice(Coalesce(parts, init), kind, Last(inner).text, text);
      } else {
        CoalesceAppend(parts, inner, [Part(kind, text)]);
      }
    }
  }

  /** Pushing already coalesced parts is pushing the script they came from. */
  lemma {:induction false} CoalesceNested(parts: seq<Part>, inner: seq<Part>, script: seq<Part>)
    ensures Coalesce(parts, Coalesce(inner, script)) == Coalesce(Coalesce(parts, inner), script)
    decreases |script|
  {
    if script != [] {
      CoalescePushed(parts, inner, script[0].kind, script[0].text);
      CoalesceNested(parts, Pushed(inner, script[0].kind, script[0].text), script[1..]);
    }
  }

  // ----- the tokens of the parts

  predicate IsToken(t: string) {
    t != "" && (AllSpace(t) || NoSpace(t))
  }

  /** Every entry is a token, and tokens kept one after the other are of different kinds. */
  ghost predicate IsTokenScript(script: seq<Part>) {
    && (forall k | 0 <= k < |script| :: IsToken(script[k].text))
    && forall k | 0 <= k < |script| - 1 && script[k].kind == Same && script[k + 1].kind == Same ::
         AllSpace(script[k].text) != AllSpace(script[k + 1].text)
  }

  /** The tokens of the parts that are shown as unchanged. */
  function SameTokens(parts: seq<Part>): seq<string> {
    if parts == [] then []
    else (if parts[0].kind == Same then Tokenize(parts[0].text) else []) + SameTokens(parts[1..])
  }

  lemma {:induction false} SameTokensSnoc(parts: seq<Part>, p: Part)
    ensures SameTokens(parts + [p]) == SameTokens(parts) + if p.kind == Same then Tokenize(p.text) else []
  {
    hide Tokenize;
    if parts == [] {
      assert parts + [p] == [p];
    } else {
      assert (parts + [p])[1..] == parts[1..] + [p];
      SameTokensSnoc(parts[1..], p);
    }
  }

  /** A token of the other kind after a text is one more token. */
  lemma TokenizeSnoc(text: string, t: string)
    requires text != "" && IsToken(t) && Tokenize(text) != [] && AllSpace(Last(Tokenize(text))) != AllSpace(t)
    ensures Tokenize(text + t) == Tokenize(text) + [t]
  {
    hide Tokenize;
    TokenizeIsMaximal(text);
    FlattenAppend(Tokenize(text), [t]);
    assert Flatten([t]) == t + Flatten([]) == t;
    TokenizeOfTokens(Tokenize(text) + [t]);
  }

  lemma TokenizeToken(t: string)
    requires IsToken(t)
    ensures Tokenize(t) == [t]
  {
    hide Tokenize;
    assert Flatten([t]) == t + Flatten([]) == t;
    TokenizeOfTokens([t]);
  }

  /** How the parts pushed so far end: with the last entry, and its token last in its part. */
  ghost predicate EndsAlike(parts: seq<Part>, script: seq<Part>) {
    script != [] ==>
      && parts != [] && Last(parts).kind == Last(script).kind
      && (Last(script).kind == Same ==>
            Tokenize(Last(parts).text) != [] && Last(Tokenize(Last(parts).text)) == Last(script).text)
  }

  /** Coalescing loses no token boundary. */
  lemma {:induction false} CoalesceKeepsTokens(script: seq<Part>)
    requires IsTokenScript(script)
    ensures SameTokens(Coalesce([], script)) == Texts(script, {Same}) && EndsAlike(Coalesce([], script), script)
    decreases |script|
  {
    hide Tokenize, Coalesce, Pushed, IsToken, AllSpace;
    NothingCoalesced();
    if script != [] {
      var before, last := Init(script), Last(script);
      assert script == before + [last];
      assert IsTokenScript(before);
      CoalesceKeepsTokens(before);
      var parts := Coalesce([], before);
      CoalesceSnoc(before, last);
      TextsAppend(before, [last], {Same});
      TextsOfCons(last, []);
      assert [last] + [] == [last];
      CoalesceKeepsText([], before, {Same});
      if before != [] && Last(before).kind == last.kind == Same {
        assert AllSpace(script[|script| - 2].text) != AllSpace(script[|script| - 1].text);
        PushedToSame(parts, last.text);
      } else {
        PushedAnew(parts, last);
      }
    }
  }

  lemma NothingCoalesced()
    ensures Coalesce([], []) == [] && SameTokens([]) == []
  {
  }

  lemma CoalesceSnoc(before: seq<Part>, last: Part)
    ensures Coalesce([], before + [last]) == Pushed(Coalesce([], before), last.kind, last.text)
  {
    CoalesceAppend([], before, [last]);
    assert [last][1..] == [];
  }

  lemma PushedToSame(parts: seq<Part>, t: string)
    requires parts != [] && Last(parts).kind == Same && Last(parts).text != "" && IsToken(t)
    requires var tokens := Tokenize(Last(parts).text); tokens != [] && AllSpace(Last(tokens)) != AllSpace(t)
    ensures var pushed := Pushed(parts, Same, t);
            && SameTokens(pushed) == SameTokens(parts) + [t]
            && pushed != [] && Last(pushed).kind == Same && Tokenize(Last(pushed).text) != []
            && Last(Tokenize(Last(pushed).text)) == t
  {
    hide Tokenize, AllSpace;
    var init, text := Init(parts), Last(parts).text;
    TokenizeSnoc(text, t);
    assert parts == init + [Part(Same, text)];
    SameTokensSnoc(init, Part(Same, text));
    SameTokensSnoc(init, Part(Same, text + t));
  }

  lemma PushedAnew(parts: seq<Part>, p: Part)
    requires IsToken(p.text) && (p.kind == Same ==> parts == [] || Last(parts).kind != Same)
    ensures var pushed := Pushed(parts, p.kind, p.text);
            && SameTokens(pushed) == SameTokens(parts) + (if p.kind == Same then [p.text] else [])
            && pushed != [] && Last(pushed).kind == p.kind
            && (p.kind == Same ==> Tokenize(Last(pushed).text) == [p.text])
  {
    hide Tokenize;
    TokenizeToken(p.text);
    if parts != [] && Last(parts).kind == p.kind {
      assert parts == Init(parts) + [Last(parts)];
      SameTokensSnoc(Init(parts), Last(parts));
      SameTokensSnoc(Init(parts), Part(p.kind, Last(parts).text + p.text));
    } else {
      SameTokensSnoc(parts, p);
    }
  }

  /** A script that rebuilds two token lists is a token script. */
  lemma RebuildingScript(script: seq<Part>, a: seq<string>, b: seq<string>)
    requires IsTokenList(a) && IsTokenList(b) && Texts(script, BEFORE) == a && Texts(script, AFTER) == b
    ensures IsTokenScript(script)
  {
    hide AllSpace, NoSpace;
    forall k | 0 <= k < |script|
      ensures IsToken(script[k].text)
    {
      var kinds := if script[k].kind == Added then AFTER else BEFORE;
      TextsAround(script, k, 1, kinds);
      assert script[k..k + 1] == [script[k]] + [];
      TextsOfCons(script[k], []);
      var tokens := if script[k].kind == Added then b else a;
      assert tokens[|Texts(script[..k], kinds)|] == script[k].text;
    }
    forall k | 0 <= k < |script| - 1 && script[k].kind == Same && script[k + 1].kind == Same
      ensures AllSpace(script[k].text) != AllSpace(script[k + 1].text)
    {
      TextsAround(script, k, 2, BEFORE);
      assert script[k..k + 2] == [script[k]] + ([script[k + 1]] + []);
      TextsOfCons(script[k], [script[k + 1]] + []);
      TextsOfCons(script[k + 1], []);
      var n := |Texts(script[..k], BEFORE)|;
      assert a[n] == script[k].text && a[n + 1] == script[k + 1].text;
    }
  }

  lemma TextsAround(script: seq<Part>, k: nat, n: nat, kinds: set<Kind>)
    requires k + n <= |script|
    ensures Texts(script, kinds)
        == Texts(script[..k], kinds) + Texts(script[k..k + n], kinds) + Texts(script[k + n..], kinds)
  {
    TextsAppend(script[..k] + script[k..k + n], script[k + n..], kinds);
    TextsAppend(script[..k], script[k..k + n], kinds);
    assert script == script[..k] + script[k..k + n] + script[k + n..];
  }

  // ----- the main results on texts

  /**
   * For all texts, over the cap or not: the unchanged and removed parts concatenate to `before`,
   * the unchanged and added parts to `after`, and the list is in normal form.
   */
  lemma DiffRebuildsBothTexts(before: string, after: string)
    ensures var parts := DiffParts(before, after);
            && TextOf(parts, BEFORE) == before
            && TextOf(parts, AFTER) == after
            && WellFormed(parts)
  {
    var a, b := Tokenize(before), Tokenize(after);
    var script := DiffScript(a, b);
    CoalesceKeepsText([], script, BEFORE);
    CoalesceKeepsText([], script, AFTER);
    TextOfTokens(script, BEFORE);
    TextOfTokens(script, AFTER);
    DiffScriptRebuilds(a, b);
    TokenizeIsMaximal(before);
    TokenizeIsMaximal(after);
  }

  /**
   * On the parts that are returned: the tokens shown as unchanged are common to both texts, and a
   * longest common subsequence exactly when the middles fit the cap or have no token in common.
   */
  lemma SameTokensAreLongest(before: string, after: string)
    ensures var a, b := Tokenize(before), Tokenize(after);
            var kept := SameTokens(DiffParts(before, after));
            && kept == Texts(DiffScript(a, b), {Same}) && IsCommon(kept, a, b)
            && (IsLongestCommon(kept, a, b)
                <==> (TrimCommon(a, b).WithinCap() || Disjoint(TrimCommon(a, b).midA, TrimCommon(a, b).midB)))
  {
    hide *;
    var a, b := Tokenize(before), Tokenize(after);
    TokenizeIsMaximal(before);
    TokenizeIsMaximal(after);
    DiffScriptRebuilds(a, b);
    RebuildingScript(DiffScript(a, b), a, b);
    CoalesceKeepsTokens(DiffScript(a, b));
    DiffPartsIs(before, after);
    KeptTokensAreLongest(a, b);
  }

  lemma DiffPartsIs(before: string, after: string)
    ensures DiffParts(before, after) == Coalesce([], DiffScript(Tokenize(before), Tokenize(after)))
  {
  }

  /** The test by which the component decides that something changed. */
  predicate Changed(parts: seq<Part>) {
    exists k :: 0 <= k < |parts| && parts[k].kind != Same
  }

  /** Something is reported as changed exactly when the texts differ. */
  lemma ChangedIffDifferent(before: string, after: string)
    ensures Changed(DiffParts(before, after)) <==> before != after
  {
    if !Changed(DiffParts(before, after)) {
      DiffRebuildsBothTexts(before, after);
      AllSame(DiffParts(before, after));
    }
    if before == after {
      EqualTextsUnchanged(before);
    }
  }

  lemma EqualTextsUnchanged(text: string)
    ensures !Changed(DiffParts(text, text))
  {
    var tokens := Tokenize(text);
    NothingToDiff(tokens);
    CoalesceAll([], Same, tokens);
    assert DiffParts(text, text) == Pushed([], Same, Flatten(tokens));
  }

  lemma NothingToDiff(tokens: seq<string>)
    ensures DiffScript(tokens, tokens) == AllOf(Same, tokens)
  {
    SelfHead(tokens, 0);
    var t := CutAt(tokens, tokens, |tokens|, 0);
    assert t == TrimCommon(tokens, tokens) && t.head == tokens && t.midA == [] && t.midB == [] && t.tail == [];
    assert MiddleScript([], []) == [];
    assert AllOf(Same, tokens) + [] + AllOf(Same, []) == AllOf(Same, tokens);
  }

  lemma {:induction false} SelfHead(tokens: seq<string>, n: nat)
    requires n <= |tokens|
    ensures CommonHead(tokens, tokens, n) == |tokens|
    decreases |tokens| - n
  {
    if n < |tokens| {
      SelfHead(tokens, n + 1);
    }
  }

  lemma {:induction false} AllSame(parts: seq<Part>)
    requires !Changed(parts)
    ensures TextOf(parts, BEFORE) == TextOf(parts, AFTER)
  {
    if parts != [] {
      assert parts[0].kind == Same;
      AllSame(parts[1..]) by {
        assert forall k | 0 <= k < |parts| - 1 :: parts[1..][k] == parts[k + 1];
      }
    }
  }
}
