/**
 * "These ids first": the find-then-append loop of the router commands against the stable sort by
 * rank of the optimizer command. Entries are named by their position in the existing list, so that
 * identity of entries is equality of positions.
 */
module Reorder {
  import opened Text

  /** Position of the first entry with an id. */
  function Find(ids: seq<string>, id: string): Option<nat> {
    if ids == [] then None
    else if ids[0] == id then Some(0)
    else match Find(ids[1..], id) case None => None case Some(k) => Some(k + 1)
  }

  /** The entries the first loop pushes, in the order given. */
  function Picked(ids: seq<string>, order: seq<string>): seq<nat> {
    if order == [] then []
    else Picked(ids, Init(order)) + match Find(ids, Last(order)) case None => [] case Some(p) => [p]
  }

  /** The entries below `n` that were not pushed before, in their old order. */
  function NotPicked(picked: seq<nat>, n: nat): seq<nat> {
    if n == 0 then []
    else NotPicked(picked, n - 1) + if n - 1 in picked then [] else [n - 1]
  }

  function LoopOrder(ids: seq<string>, order: seq<string>): seq<nat> {
    Picked(ids, order) + NotPicked(Picked(ids, order), |ids|)
  }

  /** The two loops as written. */
  method ReorderLoop(ids: seq<string>, order: seq<string>) returns (reordered: seq<nat>)
    ensures reordered == LoopOrder(ids, order)
  {
    reordered := [];
    for i := 0 to |order|
      invariant reordered == Picked(ids, order[..i])
    {
      assert Init(order[..i + 1]) == order[..i] && Last(order[..i + 1]) == order[i];
      var found := Find(ids, order[i]);
      if found.Some? {
        reordered := reordered + [found.value];
      }
    }
    assert order[..|order|] == order;
    ghost var picked := reordered;
    for p := 0 to |ids|
      invariant reordered == picked + NotPicked(picked, p)
    {
      NotPickedBelow(picked, p);
      if p !in reordered {
        reordered := reordered + [p];
      }
    }
  }

  lemma {:induction false} NotPickedBelow(picked: seq<nat>, n: nat)
    ensures forall p: nat :: p in NotPicked(picked, n) <==> p < n && p !in picked
  {
    if n > 0 {
      NotPickedBelow(picked, n - 1);
    }
  }

  // ----- the stable sort

  /** Index of the last occurrence of an id in the order, or a rank after all of them. */
  function Rank(order: seq<string>, id: string): (r: nat)
    ensures r <= |order|
    ensures r < |order| ==> order[r] == id
    ensures id in order ==> r < |order|
  {
    if id !in order then |order|
    else if Last(order) == id then |order| - 1
    else
      assert order == Init(order) + [Last(order)];
      Rank(Init(order), id)
  }

  /** The rank of an id is that of its last mention. */
  lemma {:induction false} RankIsLast(order: seq<string>, id: string)
    ensures id in order ==> forall j | Rank(order, id) < j < |order| :: order[j] != id
    ensures id !in order ==> Rank(order, id) == |order|
    decreases |order|
  {
    if id in order && Last(order) != id {
      assert order == Init(order) + [Last(order)];
      RankIsLast(Init(order), id);
    }
  }

  /** What is found is the first entry with the id. */
  lemma {:induction false} FindIsFirst(ids: seq<string>, id: string)
    ensures match Find(ids, id)
            case None => id !in ids
            case Some(p) => p < |ids| && ids[p] == id && forall q | 0 <= q < p :: ids[q] != id
  {
    if ids != [] {
      FindIsFirst(ids[1..], id);
    }
  }

  /** The rank of the entry at a position. */
  function RankAt(ids: seq<string>, order: seq<string>, p: nat): nat {
    if p < |ids| then Rank(order, ids[p]) else |order|
  }

  /** Lower rank first; entries of equal rank keep their order. */
  predicate Before(ids: seq<string>, order: seq<string>, p: nat, q: nat) {
    RankAt(ids, order, p) < RankAt(ids, order, q) || (RankAt(ids, order, p) == RankAt(ids, order, q) && p < q)
  }

  ghost predicate IsSorted(ids: seq<string>, order: seq<string>, ps: seq<nat>) {
    forall i, j | 0 <= i < j < |ps| :: Before(ids, order, ps[i], ps[j])
  }

  /** Every position below `n` exactly once. */
  ghost predicate IsPermutation(ps: seq<nat>, n: nat) {
    && (forall p: nat :: p in ps <==> p < n)
    && (forall i, j | 0 <= i < j < |ps| :: ps[i] != ps[j])
  }

  /** What sorting stably by rank produces. */
  ghost predicate IsStableSort(ids: seq<string>, order: seq<string>, ps: seq<nat>) {
    IsPermutation(ps, |ids|) && IsSorted(ids, order, ps)
  }

  lemma FirstIsLeast(ids: seq<string>, order: seq<string>, ps: seq<nat>, q: nat)
    requires ps != [] && IsSorted(ids, order, ps) && q in ps
    ensures q == ps[0] || Before(ids, order, ps[0], q)
  {
    hide RankAt;
    var i :| 0 <= i < |ps| && ps[i] == q;
  }

  lemma {:induction false} SortedIsUnique(ids: seq<string>, order: seq<string>, ps: seq<nat>, qs: seq<nat>)
    requires IsSorted(ids, order, ps) && IsSorted(ids, order, qs)
    requires forall p: nat :: p in ps <==> p in qs
    ensures ps == qs
    decreases |ps|
  {
    hide RankAt;
    assert forall i | 0 <= i < |ps| :: ps[i] in ps;
    assert forall i | 0 <= i < |qs| :: qs[i] in qs;
    if ps != [] && qs != [] {
      FirstIsLeast(ids, order, ps, qs[0]);
      FirstIsLeast(ids, order, qs, ps[0]);
      SortedTail(ids, order, ps);
      SortedTail(ids, order, qs);
      SortedIsUnique(ids, order, ps[1..], qs[1..]);
    }
  }

  lemma SortedTail(ids: seq<string>, order: seq<string>, ps: seq<nat>)
    requires ps != [] && IsSorted(ids, order, ps)
    ensures IsSorted(ids, order, ps[1..]) && forall p: nat :: p in ps[1..] <==> p in ps && p != ps[0]
  {
    hide RankAt;
    assert forall i | 0 < i < |ps| :: Before(ids, order, ps[0], ps[i]);
    assert ps == [ps[0]] + ps[1..];
    assert forall i | 0 <= i < |ps| - 1 :: ps[1..][i] == ps[i + 1];
  }

  // ----- agreement

  ghost predicate Distinct(ids: seq<string>) {
    forall i, j | 0 <= i < j < |ids| :: ids[i] != ids[j]
  }

  /** No id of the list is mentioned twice. */
  ghost predicate MentionsOnce(ids: seq<string>, order: seq<string>) {
    forall i, j | 0 <= i < j < |order| && order[i] == order[j] :: order[i] !in ids
  }

  lemma {:induction false} FindFinds(ids: seq<string>, id: string)
    ensures match Find(ids, id)
            case None => id !in ids
            case Some(p) => p < |ids| && ids[p] == id
  {
    if ids != [] {
      FindFinds(ids[1..], id);
    }
  }

  lemma {:induction false} RankOfOnly(order: seq<string>, i: nat)
    requires i < |order| && forall j | i < j < |order| :: order[j] != order[i]
    ensures Rank(order, order[i]) == i
    decreases |order|
  {
    if i + 1 < |order| {
      RankOfOnly(Init(order), i);
    }
  }

  ghost predicate Ascends(ps: seq<nat>) {
    forall i, j | 0 <= i < j < |ps| :: ps[i] < ps[j]
  }

  /** Exactly the entries of rank below `n`, by rank. */
  ghost predicate IsRanked(ids: seq<string>, order: seq<string>, ps: seq<nat>, n: nat) {
    && (forall p: nat :: p in ps <==> p < |ids| && RankAt(ids, order, p) < n)
    && (forall i, j | 0 <= i < j < |ps| :: RankAt(ids, order, ps[i]) < RankAt(ids, order, ps[j]))
  }

  /** What the first loop has pushed after `n` ids, when no id of the list is mentioned twice. */
  lemma {:induction false} PickedInRankOrder(ids: seq<string>, order: seq<string>, n: nat)
    requires Distinct(ids) && MentionsOnce(ids, order) && n <= |order|
    ensures IsRanked(ids, order, Picked(ids, order[..n]), n)
  {
    if n > 0 {
      PickedInRankOrder(ids, order, n - 1);
      OneOfRank(ids, order, n - 1);
      hide RankAt, Find, Distinct, MentionsOnce, IsRanked, Picked;
      PickedOne(ids, order, n);
      RankedOneMore(ids, order, Picked(ids, order[..n - 1]), n - 1, Find(ids, order[n - 1]));
    }
  }

  lemma PickedOne(ids: seq<string>, order: seq<string>, n: nat)
    requires 0 < n <= |order|
    ensures Picked(ids, order[..n])
         == Picked(ids, order[..n - 1]) + match Find(ids, order[n - 1]) case None => [] case Some(p) => [p]
  {
    hide Find;
    assert Init(order[..n]) == order[..n - 1] && Last(order[..n]) == order[n - 1];
  }

  /** The entry of the next rank, if there is one, comes after those of lower rank. */
  lemma RankedOneMore(ids: seq<string>, order: seq<string>, ps: seq<nat>, n: nat, found: Option<nat>)
    requires IsRanked(ids, order, ps, n)
    requires forall p: nat :: p < |ids| && RankAt(ids, order, p) == n <==> found == Some(p)
    ensures IsRanked(ids, order, ps + match found case None => [] case Some(p) => [p], n + 1)
  {
    hide RankAt;
    assert forall i | 0 <= i < |ps| :: ps[i] in ps;
  }

  /** Which entries have the rank of a mention. */
  lemma OneOfRank(ids: seq<string>, order: seq<string>, i: nat)
    requires Distinct(ids) && MentionsOnce(ids, order) && i < |order|
    ensures forall p: nat :: p < |ids| && RankAt(ids, order, p) == i <==> Find(ids, order[i]) == Some(p)
  {
    FindFinds(ids, order[i]);
    forall p: nat | p < |ids| && RankAt(ids, order, p) == i
      ensures Find(ids, order[i]) == Some(p)
    {
      assert ids[p] == order[i] && ids[p] in ids;
    }
    if Find(ids, order[i]).Some? {
      assert forall j | i < j < |order| :: order[j] != order[i];
      RankOfOnly(order, i);
    }
  }

  lemma {:induction false} NotPickedAscends(picked: seq<nat>, n: nat)
    ensures Ascends(NotPicked(picked, n))
  {
    if n > 0 {
      NotPickedAscends(picked, n - 1);
      NotPickedBelow(picked, n - 1);
      var ps := NotPicked(picked, n - 1);
      assert forall i | 0 <= i < |ps| :: ps[i] in ps;
      assert NotPicked(picked, n) == ps + if n - 1 in picked then [] else [n - 1];
    }
  }

  lemma LoopSortsStably(ids: seq<string>, order: seq<string>)
    requires Distinct(ids) && MentionsOnce(ids, order)
    ensures IsStableSort(ids, order, LoopOrder(ids, order))
  {
    PickedInRankOrder(ids, order, |order|);
    assert order[..|order|] == order;
    var ps := Picked(ids, order);
    NotPickedBelow(ps, |ids|);
    NotPickedAscends(ps, |ids|);
    RankedThenRest(ids, order, ps, NotPicked(ps, |ids|));
  }

  lemma RankedThenRest(ids: seq<string>, order: seq<string>, ps: seq<nat>, rest: seq<nat>)
    requires IsRanked(ids, order, ps, |order|)
    requires (forall p: nat :: p in rest <==> p < |ids| && p !in ps) && Ascends(rest)
    ensures IsStableSort(ids, order, ps + rest)
  {
    assert forall p: nat | p in rest :: RankAt(ids, order, p) == |order|;
    hide RankAt;
    var all := ps + rest;
    assert forall i | 0 <= i < |ps| :: all[i] == ps[i] && ps[i] in ps;
    assert forall i | |ps| <= i < |all| :: all[i] == rest[i - |ps|] && rest[i - |ps|] in rest;
  }

  lemma {:induction false} PickedHas(ids: seq<string>, order: seq<string>, i: nat)
    requires i < |order| && order[i] in ids
    ensures Find(ids, order[i]).Some? && Find(ids, order[i]).value in Picked(ids, order)
    decreases |order|
  {
    FindFinds(ids, order[i]);
    if i + 1 < |order| {
      PickedHas(ids, Init(order), i);
    }
  }

  lemma {:induction false} PickedPrefix(ids: seq<string>, order: seq<string>, n: nat)
    requires n <= |order|
    ensures Picked(ids, order[..n]) <= Picked(ids, order)
    decreases |order|
  {
    if n == |order| {
      assert order[..n] == order;
    } else {
      PickedPrefix(ids, Init(order), n);
      assert Init(order)[..n] == order[..n];
    }
  }

  /** A repeated mention of an existing id puts its entry in twice. */
  lemma RepeatedMention(ids: seq<string>, order: seq<string>, i: nat, j: nat) returns (a: nat, b: nat)
    requires i < j < |order| && order[i] == order[j] && order[i] in ids
    ensures a < b < |LoopOrder(ids, order)| && LoopOrder(ids, order)[a] == LoopOrder(ids, order)[b]
  {
    FindFinds(ids, order[j]);
    var p := Find(ids, order[j]).value;
    PickedHas(ids, order[..j], i);
    a :| 0 <= a < |Picked(ids, order[..j])| && Picked(ids, order[..j])[a] == p;
    b := |Picked(ids, order[..j])|;
    assert Init(order[..j + 1]) == order[..j] && Last(order[..j + 1]) == order[j];
    assert Picked(ids, order[..j + 1]) == Picked(ids, order[..j]) + [p];
    PickedPrefix(ids, order, j + 1);
    assert Picked(ids, order)[a] == Picked(ids, order[..j + 1])[a] == p;
    assert Picked(ids, order)[b] == Picked(ids, order[..j + 1])[b] == p;
  }

  /**
   * For distinct ids, the loop gives a permutation sorted stably by rank exactly when no existing id
   * is mentioned twice; an id that is not in the list may be.
   */
  lemma LoopIsStableSortIffMentionedOnce(ids: seq<string>, order: seq<string>)
    requires Distinct(ids)
    ensures IsStableSort(ids, order, LoopOrder(ids, order)) <==> MentionsOnce(ids, order)
  {
    if MentionsOnce(ids, order) {
      LoopSortsStably(ids, order);
    } else {
      var i, j :| 0 <= i < j < |order| && order[i] == order[j] && order[i] in ids;
      var a, b := RepeatedMention(ids, order, i, j);
    }
  }

  /** The two reorderings agree: whatever the stable sort returns is what the loop returns. */
  lemma ReorderingsAgree(ids: seq<string>, order: seq<string>, sorted: seq<nat>)
    requires Distinct(ids) && MentionsOnce(ids, order) && IsStableSort(ids, order, sorted)
    ensures LoopOrder(ids, order) == sorted
  {
    LoopSortsStably(ids, order);
    SortedIsUnique(ids, order, LoopOrder(ids, order), sorted);
  }

  /** The ids in their new order. */
  function Reordered(ids: seq<string>, ps: seq<nat>): seq<string>
    requires forall i | 0 <= i < |ps| :: ps[i] < |ids|
  {
    seq(|ps|, i requires 0 <= i < |ps| => ids[ps[i]])
  }

  function Identity(n: nat): seq<nat> {
    seq(n, i requires 0 <= i < n => i)
  }

  /** Reordering is idempotent: reordering the result the same way changes nothing. */
  lemma ReorderIsAFixedPoint(ids: seq<string>, order: seq<string>)
    requires Distinct(ids) && MentionsOnce(ids, order)
    ensures var ps := LoopOrder(ids, order);
            && (forall i | 0 <= i < |ps| :: ps[i] < |ids|)
            && var again := Reordered(ids, ps); LoopOrder(again, order) == Identity(|again|)
  {
    LoopSortsStably(ids, order);
    var ps := LoopOrder(ids, order);
    assert forall i | 0 <= i < |ps| :: ps[i] in ps;
    var again := Reordered(ids, ps);
    hide LoopOrder, Rank;
    SortedStaysSorted(ids, order, ps);
    forall id | id in again
      ensures id in ids
    {
      var i :| 0 <= i < |again| && again[i] == id;
    }
    assert MentionsOnce(again, order);
    ReorderingsAgree(again, order, Identity(|again|));
  }

  lemma SortedStaysSorted(ids: seq<string>, order: seq<string>, ps: seq<nat>)
    requires Distinct(ids) && IsStableSort(ids, order, ps) && forall i | 0 <= i < |ps| :: ps[i] < |ids|
    ensures var again := Reordered(ids, ps); Distinct(again) && IsStableSort(again, order, Identity(|again|))
  {
    hide Rank;
    var again, id := Reordered(ids, ps), Identity(|ps|);
    forall i, j | 0 <= i < j < |again|
      ensures again[i] != again[j] && Before(again, order, i, j)
    {
      assert Before(ids, order, ps[i], ps[j]) && ps[i] != ps[j];
    }
    forall p: nat | p < |id|
      ensures p in id
    {
      assert id[p] == p;
    }
  }
}
