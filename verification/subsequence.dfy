/** Longest common subsequences: the reference notion the diff table is measured against. */
module Subsequence {

  /** `s` arises from `t` by deleting elements. */
  ghost predicate IsSubseq<T>(s: seq<T>, t: seq<T>) {
    s == [] || (t != [] && ((s[0] == t[0] && IsSubseq(s[1..], t[1..])) || IsSubseq(s, t[1..])))
  }

  ghost predicate IsCommon<T>(s: seq<T>, a: seq<T>, b: seq<T>) {
    IsSubseq(s, a) && IsSubseq(s, b)
  }

  ghost predicate IsLongestCommon<T(!new)>(s: seq<T>, a: seq<T>, b: seq<T>) {
    IsCommon(s, a, b) && forall r: seq<T> | IsCommon(r, a, b) :: |r| <= |s|
  }

  /** The recurrence the table is filled by. */
  function LcsLength<T(==)>(a: seq<T>, b: seq<T>): (n: nat)
    ensures n <= |a| && n <= |b|
  {
    if a == [] || b == [] then 0
    else if a[0] == b[0] then 1 + LcsLength(a[1..], b[1..])
    else Max(LcsLength(a[1..], b), LcsLength(a, b[1..]))
  }

  function Max(x: nat, y: nat): nat {
    if x >= y then x else y
  }

  lemma {:induction false} SubseqOfTail<T>(s: seq<T>, t: seq<T>)
    requires s != [] && t != [] && IsSubseq(s, t)
    ensures IsSubseq(s[1..], t[1..])
    ensures s[0] != t[0] ==> IsSubseq(s, t[1..])
    decreases |t|
  {
    if IsSubseq(s, t[1..]) {
      DropFirst(s, t[1..]);
    }
  }

  lemma {:induction false} DropFirst<T>(s: seq<T>, t: seq<T>)
    requires s != [] && IsSubseq(s, t)
    ensures IsSubseq(s[1..], t)
    decreases |t|
  {
    if IsSubseq(s, t[1..]) {
      DropFirst(s, t[1..]);
      Widen(s[1..], t[0], t[1..]);
      assert [t[0]] + t[1..] == t;
    } else {
      Widen(s[1..], t[0], t[1..]);
      assert [t[0]] + t[1..] == t;
    }
  }

  lemma {:induction false} Widen<T>(s: seq<T>, x: T, t: seq<T>)
    requires IsSubseq(s, t)
    ensures IsSubseq(s, [x] + t)
  {
    assert ([x] + t)[1..] == t;
  }

  lemma {:induction false} SubseqLength<T>(s: seq<T>, t: seq<T>)
    requires IsSubseq(s, t)
    ensures |s| <= |t|
    decreases |t|
  {
    if s != [] {
      SubseqOfTail(s, t);
      SubseqLength(s[1..], t[1..]);
    }
  }

  /** No common subsequence is longer than the recurrence says. */
  lemma {:induction false} LcsLengthBounds<T>(s: seq<T>, a: seq<T>, b: seq<T>)
    requires IsCommon(s, a, b)
    ensures |s| <= LcsLength(a, b)
    decreases |a| + |b|
  {
    if s != [] {
      SubseqOfTail(s, a);
      SubseqOfTail(s, b);
      if a[0] == b[0] {
        LcsLengthBounds(s[1..], a[1..], b[1..]);
      } else if s[0] != a[0] {
        LcsLengthBounds(s, a[1..], b);
      } else {
        LcsLengthBounds(s, a, b[1..]);
      }
    }
  }

  /** A shared last element joins every longest common subsequence. */
  lemma {:induction false} DropLast<T>(s: seq<T>, t: seq<T>)
    requires s != [] && t != [] && IsSubseq(s, t)
    ensures IsSubseq(s[..|s| - 1], t[..|t| - 1])
    decreases |t|
  {
    var s', t' := s[..|s| - 1], t[..|t| - 1];
    if |s| > 1 {
      assert s'[0] == s[0] && s'[1..] == s[1..][..|s| - 2];
      if |t| == 1 {
        SubseqLength(s, t);
      } else {
        assert t'[0] == t[0] && t'[1..] == t[1..][..|t| - 2];
        if s[0] == t[0] && IsSubseq(s[1..], t[1..]) {
          DropLast(s[1..], t[1..]);
        } else {
          DropLast(s, t[1..]);
        }
      }
    }
  }

  lemma {:induction false} SubseqSelf<T>(t: seq<T>)
    ensures IsSubseq(t, t)
  {
    if t != [] {
      SubseqSelf(t[1..]);
    }
  }

  lemma {:induction false} SubseqConcat<T>(s1: seq<T>, t1: seq<T>, s2: seq<T>, t2: seq<T>)
    requires IsSubseq(s1, t1) && IsSubseq(s2, t2)
    ensures IsSubseq(s1 + s2, t1 + t2)
    decreases |t1|
  {
    if t1 == [] {
      assert s1 + s2 == s2 && t1 + t2 == t2;
    } else {
      assert (t1 + t2)[1..] == t1[1..] + t2;
      if s1 == [] || IsSubseq(s1, t1[1..]) {
        SubseqConcat(s1, t1[1..], s2, t2);
      } else {
        assert (s1 + s2)[1..] == s1[1..] + s2;
        SubseqConcat(s1[1..], t1[1..], s2, t2);
      }
    }
  }

  /** Stripping a common head and a common tail preserves optimality, in both directions. */
  lemma {:induction false} LongestThroughTrim<T(!new)>(s: seq<T>, head: seq<T>, a: seq<T>, b: seq<T>, tail: seq<T>)
    requires IsCommon(s, a, b)
    ensures IsCommon(head + s + tail, head + a + tail, head + b + tail)
    ensures IsLongestCommon(head + s + tail, head + a + tail, head + b + tail) <==> IsLongestCommon(s, a, b)
  {
    CommonThroughTrim(s, head, a, b, tail);
    if IsLongestCommon(s, a, b) {
      forall r: seq<T> | IsCommon(r, head + a + tail, head + b + tail)
        ensures |r| <= |head + s + tail|
      {
        assert head + a + tail == head + (a + tail) && head + b + tail == head + (b + tail);
        var c := CutHead(r, head, a + tail, b + tail);
        var d := CutTail(c, a, b, tail);
      }
    }
    if IsLongestCommon(head + s + tail, head + a + tail, head + b + tail) {
      forall r: seq<T> | IsCommon(r, a, b)
        ensures |r| <= |s|
      {
        CommonThroughTrim(r, head, a, b, tail);
        assert |head + r + tail| <= |head + s + tail|;
      }
    }
  }

  lemma {:induction false} CommonThroughTrim<T>(s: seq<T>, head: seq<T>, a: seq<T>, b: seq<T>, tail: seq<T>)
    requires IsCommon(s, a, b)
    ensures IsCommon(head + s + tail, head + a + tail, head + b + tail)
  {
    SubseqSelf(head);
    SubseqSelf(tail);
    SubseqConcat(head, head, s, a);
    SubseqConcat(head, head, s, b);
    SubseqConcat(head + s, head + a, tail, tail);
    SubseqConcat(head + s, head + b, tail, tail);
  }

  lemma {:induction false} CutHead<T>(r: seq<T>, head: seq<T>, a: seq<T>, b: seq<T>) returns (c: seq<T>)
    requires IsCommon(r, head + a, head + b)
    ensures IsCommon(c, a, b) && |r| <= |head| + |c|
    decreases |head|
  {
    if head == [] {
      assert head + a == a && head + b == b;
      c := r;
    } else {
      assert (head + a)[1..] == head[1..] + a && (head + b)[1..] == head[1..] + b;
      if r == [] {
        c := [];
      } else {
        SubseqOfTail(r, head + a);
        SubseqOfTail(r, head + b);
        c := CutHead(r[1..], head[1..], a, b);
      }
    }
  }

  lemma {:induction false} CutTail<T>(r: seq<T>, a: seq<T>, b: seq<T>, tail: seq<T>) returns (c: seq<T>)
    requires IsCommon(r, a + tail, b + tail)
    ensures IsCommon(c, a, b) && |r| <= |c| + |tail|
    decreases |tail|
  {
    if tail == [] {
      assert a + tail == a && b + tail == b;
      c := r;
    } else if r == [] {
      c := [];
    } else {
      var tail' := tail[..|tail| - 1];
      DropLast(r, a + tail);
      DropLast(r, b + tail);
      assert (a + tail)[..|a + tail| - 1] == a + tail' && (b + tail)[..|b + tail| - 1] == b + tail';
      c := CutTail(r[..|r| - 1], a, b, tail');
    }
  }
}
