/** Strings as the JavaScript runtime treats them: white space, trimming, splitting and joining. */
module Text {

  /** The WhiteSpace and LineTerminator characters of ECMA-262, which `\s` and `trim` share. */
  predicate IsSpace(c: char) {
    || c == ' ' || '\t' <= c <= '\r' || c == '\U{00A0}' || c == '\U{1680}'
    || '\U{2000}' <= c <= '\U{200A}' || c == '\U{2028}' || c == '\U{2029}'
    || c == '\U{202F}' || c == '\U{205F}' || c == '\U{3000}' || c == '\U{FEFF}'
  }

  datatype Option<T> = None | Some(value: T)

  predicate StartsWith(s: string, c: char) {
    s != "" && s[0] == c
  }

  predicate AllSpace(s: string) {
    forall i | 0 <= i < |s| :: IsSpace(s[i])
  }

  predicate NoSpace(s: string) {
    forall i | 0 <= i < |s| :: !IsSpace(s[i])
  }

  /** Length of the leading run of characters that are (or are not) white space. */
  function SpaceRun(s: string, space: bool): (n: nat)
    ensures n <= |s|
  {
    if s != "" && IsSpace(s[0]) == space then 1 + SpaceRun(s[1..], space) else 0
  }

  lemma {:induction false} SpaceRunIsMaximal(s: string, space: bool)
    ensures forall i | 0 <= i < SpaceRun(s, space) :: IsSpace(s[i]) == space
    ensures SpaceRun(s, space) < |s| ==> IsSpace(s[SpaceRun(s, space)]) != space
  {
    if s != "" && IsSpace(s[0]) == space {
      SpaceRunIsMaximal(s[1..], space);
      var n := SpaceRun(s[1..], space);
      assert forall i | 0 < i < n + 1 :: s[i] == s[1..][i - 1];
    }
  }

  /** A run that ends is determined by where it ends. */
  lemma {:induction false} SpaceRunEndsAt(s: string, space: bool, n: nat)
    requires n <= |s| && (forall i | 0 <= i < n :: IsSpace(s[i]) == space)
    requires n < |s| ==> IsSpace(s[n]) != space
    ensures SpaceRun(s, space) == n
  {
    if n > 0 {
      SpaceRunEndsAt(s[1..], space, n - 1);
    }
  }

  /** Removes leading white space, as `^\s*` consumes it. */
  function TrimStart(s: string): string {
    s[SpaceRun(s, true)..]
  }

  /** Removes trailing white space. */
  function TrimEnd(s: string): (r: string)
    ensures r <= s
  {
    if s != "" && IsSpace(s[|s| - 1]) then TrimEnd(s[..|s| - 1]) else s
  }

  lemma {:induction false} TrimEndIsMaximal(s: string)
    ensures AllSpace(s[|TrimEnd(s)|..])
    ensures TrimEnd(s) != "" ==> !IsSpace(Last(TrimEnd(s)))
  {
    if s != "" && IsSpace(s[|s| - 1]) {
      TrimEndIsMaximal(s[..|s| - 1]);
      var n := |TrimEnd(s)|;
      assert s[n..] == s[..|s| - 1][n..] + [s[|s| - 1]];
    }
  }

  function Trim(s: string): string {
    TrimEnd(TrimStart(s))
  }

  /** `line.trim() === ''`. */
  predicate IsBlank(s: string) {
    Trim(s) == ""
  }

  lemma BlankIsAllSpace(s: string)
    ensures IsBlank(s) <==> AllSpace(s)
  {
    var n := SpaceRun(s, true);
    SpaceRunIsMaximal(s, true);
    TrimEndIsMaximal(s[n..]);
    if n < |s| {
      assert s[n..][0] == s[n];
    }
  }

  /** Trimming leaves alone what neither starts nor ends with white space. */
  lemma TrimOfSolid(s: string)
    requires s != "" && !IsSpace(s[0]) && !IsSpace(Last(s))
    ensures Trim(s) == s && TrimStart(s) == s && TrimEnd(s) == s
  {
    assert SpaceRun(s, true) == 0;
  }

  /** The 25 characters, one by one. */
  const SPACES :=
    "\t\n\U{000B}\U{000C}\r \U{00A0}\U{1680}\U{2000}\U{2001}\U{2002}\U{2003}\U{2004}\U{2005}\U{2006}" +
    "\U{2007}\U{2008}\U{2009}\U{200A}\U{2028}\U{2029}\U{202F}\U{205F}\U{3000}\U{FEFF}"

  lemma SpacesAre(c: char)
    ensures IsSpace(c) <==> c in SPACES
  {
    if '\t' <= c <= '\r' {
      assert SPACES[c as int - 9] == c;
    } else if '\U{2000}' <= c <= '\U{200A}' {
      assert SPACES[c as int - 0x2000 + 8] == c;
    } else {
      assert SPACES[5] == ' ' && SPACES[6] == '\U{00A0}' && SPACES[7] == '\U{1680}' && SPACES[19] == '\U{2028}'
        && SPACES[20] == '\U{2029}' && SPACES[21] == '\U{202F}' && SPACES[22] == '\U{205F}'
        && SPACES[23] == '\U{3000}' && SPACES[24] == '\U{FEFF}';
    }
  }

  /** Text that starts or ends where white space cannot. */
  predicate StartsSolid(t: string) {
    t == "" || !IsSpace(t[0])
  }

  predicate EndsSolid(t: string) {
    t == "" || !IsSpace(Last(t))
  }

  lemma TrimStartOf(x: string, t: string)
    requires AllSpace(x) && StartsSolid(t)
    ensures TrimStart(x + t) == t
  {
    SpaceRunEndsAt(x + t, true, |x|);
  }

  lemma TrimStartCuts(s: string) returns (x: string)
    ensures s == x + TrimStart(s) && AllSpace(x) && StartsSolid(TrimStart(s))
  {
    SpaceRunIsMaximal(s, true);
    x := s[..SpaceRun(s, true)];
  }

  lemma {:induction false} TrimEndOf(t: string, y: string)
    requires EndsSolid(t) && AllSpace(y)
    ensures TrimEnd(t + y) == t
  {
    if y == "" {
      assert t + y == t;
    } else {
      assert (t + y)[..|t + y| - 1] == t + Init(y);
      TrimEndOf(t, Init(y));
    }
  }

  lemma TrimEndCuts(s: string) returns (y: string)
    ensures s == TrimEnd(s) + y && EndsSolid(TrimEnd(s)) && AllSpace(y)
  {
    TrimEndIsMaximal(s);
    y := s[|TrimEnd(s)|..];
  }

  /** Text without white space at its ends, put between white space. */
  ghost predicate IsTrimmed(s: string, t: string, x: string, y: string) {
    s == x + t + y && AllSpace(x) && AllSpace(y) && StartsSolid(t) && EndsSolid(t)
  }

  /** Trimming cuts the white space off both ends and nothing else. */
  lemma TrimIff(s: string, t: string)
    ensures Trim(s) == t <==> exists x, y :: IsTrimmed(s, t, x, y)
  {
    if Trim(s) == t {
      var x := TrimStartCuts(s);
      var y := TrimEndCuts(TrimStart(s));
      assert x + t + y == x + (t + y);
      assert t != "" ==> t[0] == TrimStart(s)[0];
      assert IsTrimmed(s, t, x, y);
    }
    if exists x, y :: IsTrimmed(s, t, x, y) {
      var x, y :| IsTrimmed(s, t, x, y);
      TrimOfPadded(t, x, y);
    }
  }

  lemma TrimOfPadded(t: string, x: string, y: string)
    requires AllSpace(x) && AllSpace(y) && StartsSolid(t) && EndsSolid(t)
    ensures Trim(x + t + y) == t
  {
    if t == "" {
      assert x + t + y == (x + y) + "";
      TrimStartOf(x + y, "");
    } else {
      assert x + t + y == x + (t + y);
      TrimStartOf(x, t + y);
      TrimEndOf(t, y);
    }
  }

  /** Flattens a list of lists. */
  function Flatten<T>(xss: seq<seq<T>>): seq<T> {
    if xss == [] then [] else xss[0] + Flatten(xss[1..])
  }

  lemma {:induction false} FlattenAppend<T>(xss: seq<seq<T>>, yss: seq<seq<T>>)
    ensures Flatten(xss + yss) == Flatten(xss) + Flatten(yss)
  {
    if xss == [] {
      assert xss + yss == yss;
    } else {
      assert (xss + yss)[1..] == xss[1..] + yss;
      FlattenAppend(xss[1..], yss);
    }
  }

  /** `pieces.join(sep)`. */
  function JoinWith(pieces: seq<string>, sep: string): string {
    if pieces == [] then ""
    else if |pieces| == 1 then pieces[0]
    else pieces[0] + sep + JoinWith(pieces[1..], sep)
  }

  /** `s.split(sep)` for a non-empty separator: leftmost, non-overlapping matches. */
  function SplitOn(s: string, sep: string): (pieces: seq<string>)
    requires sep != ""
    ensures pieces != []
    decreases |s|
  {
    if |s| < |sep| then [s]
    else if sep <= s then [""] + SplitOn(s[|sep|..], sep)
    else
      var rest := SplitOn(s[1..], sep);
      [[s[0]] + rest[0]] + rest[1..]
  }

  /** Joining with the separator undoes splitting at it. */
  lemma {:induction false} SplitJoins(s: string, sep: string)
    requires sep != ""
    ensures JoinWith(SplitOn(s, sep), sep) == s
    decreases |s|
  {
    if |s| < |sep| {
    } else if sep <= s {
      var rest := SplitOn(s[|sep|..], sep);
      SplitJoins(s[|sep|..], sep);
      assert ([""] + rest)[1..] == rest;
      assert JoinWith([""] + rest, sep) == "" + sep + JoinWith(rest, sep);
      assert "" + sep + s[|sep|..] == s;
    } else {
      SplitJoins(s[1..], sep);
      JoinOfExtended(s[0], SplitOn(s[1..], sep), sep);
      assert [s[0]] + s[1..] == s;
    }
  }

  lemma JoinOfExtended(c: char, pieces: seq<string>, sep: string)
    requires pieces != []
    ensures JoinWith([[c] + pieces[0]] + pieces[1..], sep) == [c] + JoinWith(pieces, sep)
  {
    assert ([[c] + pieces[0]] + pieces[1..])[1..] == pieces[1..];
  }

  function Last<T>(xs: seq<T>): T
    requires xs != []
  {
    xs[|xs| - 1]
  }

  function Init<T>(xs: seq<T>): seq<T>
    requires xs != []
  {
    xs[..|xs| - 1]
  }

  /** Splitting may be resumed: only the last piece can change when text is appended. */
  lemma {:induction false} SplitResumes(x: string, y: string, sep: string)
    requires sep != ""
    ensures SplitOn(x + y, sep) == Init(SplitOn(x, sep)) + SplitOn(Last(SplitOn(x, sep)) + y, sep)
    decreases |x|
  {
    if |x| < |sep| {
    } else if sep <= x {
      SplitResumes(x[|sep|..], y, sep);
      SplitResumesAfterMatch(x, y, sep);
    } else {
      SplitResumes(x[1..], y, sep);
      SplitResumesAfterSkip(x, y, sep);
    }
  }

  lemma {:induction false} SplitResumesAfterMatch(x: string, y: string, sep: string)
    requires sep != "" && sep <= x
    requires var rest := SplitOn(x[|sep|..], sep);
             SplitOn(x[|sep|..] + y, sep) == Init(rest) + SplitOn(Last(rest) + y, sep)
    ensures SplitOn(x + y, sep) == Init(SplitOn(x, sep)) + SplitOn(Last(SplitOn(x, sep)) + y, sep)
  {
    var rest := SplitOn(x[|sep|..], sep);
    assert (x + y)[|sep|..] == x[|sep|..] + y && sep <= x + y;
    assert SplitOn(x + y, sep) == [""] + SplitOn(x[|sep|..] + y, sep);
    InitOfCons("", rest, SplitOn(Last(rest) + y, sep));
  }

  lemma InitOfCons(p: string, rest: seq<string>, tail: seq<string>)
    requires rest != []
    ensures Init([p] + rest) + tail == [p] + (Init(rest) + tail) && Last([p] + rest) == Last(rest)
  {
    assert Init([p] + rest) == [p] + Init(rest);
  }

  lemma {:induction false} SplitResumesAfterSkip(x: string, y: string, sep: string)
    requires sep != "" && |sep| <= |x| && !(sep <= x)
    requires var rest := SplitOn(x[1..], sep);
             SplitOn(x[1..] + y, sep) == Init(rest) + SplitOn(Last(rest) + y, sep)
    ensures SplitOn(x + y, sep) == Init(SplitOn(x, sep)) + SplitOn(Last(SplitOn(x, sep)) + y, sep)
  {
    var rest := SplitOn(x[1..], sep);
    var tail := SplitOn(Last(rest) + y, sep);
    var all := Init(rest) + tail;
    assert SplitOn(x + y, sep) == [[x[0]] + all[0]] + all[1..] by {
      assert (x + y)[1..] == x[1..] + y && (x + y)[0] == x[0];
      assert !(sep <= x + y) by { assert (x + y)[..|sep|] == x[..|sep|]; }
    }
    if |rest| == 1 {
      SplitJoins(x, sep);
      assert SplitOn(x, sep) == [x] && Init([x]) == [];
    } else {
      ResumeExtended(x[0], rest, tail);
    }
  }

  lemma ResumeExtended(c: char, rest: seq<string>, tail: seq<string>)
    requires |rest| > 1
    ensures var all := Init(rest) + tail;
            var pieces := [[c] + rest[0]] + rest[1..];
            [[c] + all[0]] + all[1..] == Init(pieces) + tail && Last(pieces) == Last(rest)
  {
    var all := Init(rest) + tail;
    assert all[1..] == Init(rest)[1..] + tail;
    assert Init([[c] + rest[0]] + rest[1..]) == [[c] + rest[0]] + Init(rest)[1..];
  }

  predicate NoBreak(s: string) {
    '\n' !in s
  }

  function Lines(s: string): seq<string> {
    SplitOn(s, "\n")
  }

  /** `lines.join('\n')`. */
  function Unlines(lines: seq<string>): string {
    JoinWith(lines, "\n")
  }

  lemma {:induction false} LinesHaveNoBreak(s: string)
    ensures forall l | l in Lines(s) :: NoBreak(l)
    decreases |s|
  {
    if s != "" {
      LinesHaveNoBreak(s[1..]);
      var rest := Lines(s[1..]);
      assert "\n" <= s <==> s[0] == '\n';
      assert NoBreak(rest[0]);
    }
  }

  lemma {:induction false} LineAlone(s: string)
    requires NoBreak(s)
    ensures Lines(s) == [s]
  {
    if s != "" {
      LineAlone(s[1..]);
      assert !("\n" <= s) && [s[0]] + s[1..] == s;
    }
  }

  lemma {:induction false} LinesOfBreak(a: string, b: string)
    ensures Lines(a + "\n" + b) == Lines(a) + Lines(b)
    decreases |a|
  {
    if a == "" {
      assert a + "\n" + b == "\n" + b && ("\n" + b)[1..] == b;
    } else {
      LinesOfBreak(a[1..], b);
      assert (a + "\n" + b)[1..] == a[1..] + "\n" + b;
      assert "\n" <= a <==> a[0] == '\n';
      assert "\n" <= (a + "\n" + b) <==> a[0] == '\n';
    }
  }

  /** Joining lines and splitting again splits each of them in place. */
  lemma {:induction false} LinesOfUnlines(lines: seq<string>)
    requires lines != []
    ensures Lines(Unlines(lines)) == Flatten(seq(|lines|, i requires 0 <= i < |lines| => Lines(lines[i])))
  {
    var split := seq(|lines|, i requires 0 <= i < |lines| => Lines(lines[i]));
    if |lines| == 1 {
      assert split[1..] == [];
      assert split[0] + [] == split[0];
    } else {
      LinesOfUnlines(lines[1..]);
      LinesOfBreak(lines[0], Unlines(lines[1..]));
      assert split[1..] == seq(|lines| - 1, i requires 0 <= i < |lines| - 1 => Lines(lines[1..][i]));
    }
  }

  lemma {:induction false} LinesRoundTrip(lines: seq<string>)
    requires lines != []
    requires forall l | l in lines :: NoBreak(l)
    ensures Lines(Unlines(lines)) == lines
  {
    LineAlone(lines[0]);
    if |lines| > 1 {
      LinesRoundTrip(lines[1..]);
      LinesOfBreak(lines[0], Unlines(lines[1..]));
    }
  }

  lemma {:induction false} UnlinesAppend(x: seq<string>, y: seq<string>)
    requires x != [] && y != []
    ensures Unlines(x + y) == Unlines(x) + "\n" + Unlines(y)
  {
    assert (x + y)[1..] == x[1..] + y;
    if |x| > 1 {
      UnlinesAppend(x[1..], y);
      assert x[0] + "\n" + (Unlines(x[1..]) + "\n" + Unlines(y)) == x[0] + "\n" + Unlines(x[1..]) + "\n" + Unlines(y);
    }
  }

  // ----- blank lines

  function DropTrailingBlank(lines: seq<string>): seq<string> {
    if lines != [] && IsBlank(Last(lines)) then DropTrailingBlank(Init(lines)) else lines
  }

  /** The loop that pops blank lines off the end. */
  method PopTrailingBlank(lines: seq<string>) returns (rest: seq<string>)
    ensures rest == DropTrailingBlank(lines)
  {
    rest := lines;
    while rest != [] && IsBlank(Last(rest))
      invariant DropTrailingBlank(rest) == DropTrailingBlank(lines)
      decreases |rest|
    {
      rest := Init(rest);
    }
  }

  lemma {:induction false} TrimmedIn(lines: seq<string>)
    ensures DropTrailingBlank(lines) <= lines
    ensures DropTrailingBlank(lines) != [] ==> !IsBlank(Last(DropTrailingBlank(lines)))
    decreases |lines|
  {
    if lines != [] && IsBlank(Last(lines)) {
      TrimmedIn(Init(lines));
    }
  }

  function NonBlank(lines: seq<string>): seq<string> {
    if lines == [] then []
    else (if IsBlank(lines[0]) then [] else [lines[0]]) + NonBlank(lines[1..])
  }

  lemma {:induction false} NonBlankAppend(x: seq<string>, y: seq<string>)
    ensures NonBlank(x + y) == NonBlank(x) + NonBlank(y)
  {
    hide IsBlank;
    if x == [] {
      assert x + y == y;
    } else {
      assert (x + y)[1..] == x[1..] + y;
      NonBlankAppend(x[1..], y);
    }
  }
}
