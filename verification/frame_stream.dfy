/** The live trace channel: frames cut out of a stream that arrives in chunks. */
module FrameStream {
  import opened Text

  const FRAME_END := "\n\n"
  const DATA_PREFIX := "data: "

  // ----- what splitting at a separator means

  ghost predicate OccursAt(s: string, sep: string, k: nat) {
    k + |sep| <= |s| && s[k..k + |sep|] == sep
  }

  /** A piece that ends at the first separator: none begins in it before its end. */
  ghost predicate EndsAtFirst(piece: string, sep: string) {
    forall k: nat | k < |piece| :: !OccursAt(piece + sep, sep, k)
  }

  ghost predicate Lacks(s: string, sep: string) {
    forall k: nat :: !OccursAt(s, sep, k)
  }

  /** The pieces join to the text, each but the last ends at the first separator, the last has none. */
  ghost predicate IsSplit(pieces: seq<string>, s: string, sep: string) {
    && pieces != [] && JoinWith(pieces, sep) == s && Lacks(Last(pieces), sep)
    && forall i | 0 <= i < |pieces| - 1 :: EndsAtFirst(pieces[i], sep)
  }

  /** `split` finds the one list of pieces with these properties. */
  lemma {:induction false} SplitIsTheSplit(s: string, sep: string)
    requires sep != ""
    ensures IsSplit(SplitOn(s, sep), s, sep)
    decreases |s|
  {
    SplitJoins(s, sep);
    if |s| < |sep| {
    } else if sep <= s {
      var rest := SplitOn(s[|sep|..], sep);
      SplitIsTheSplit(s[|sep|..], sep);
      assert forall i | 0 < i < |rest| :: ([""] + rest)[i] == rest[i - 1];
      assert EndsAtFirst("", sep);
    } else {
      var rest := SplitOn(s[1..], sep);
      SplitIsTheSplit(s[1..], sep);
      SplitJoins(s[1..], sep);
      ExtendFirst(s, rest, sep);
    }
  }

  lemma ExtendFirst(s: string, rest: seq<string>, sep: string)
    requires s != "" && sep != "" && !(sep <= s) && IsSplit(rest, s[1..], sep)
    ensures var pieces := [[s[0]] + rest[0]] + rest[1..];
            Lacks(Last(pieces), sep) && forall i | 0 <= i < |pieces| - 1 :: EndsAtFirst(pieces[i], sep)
  {
    var first := [s[0]] + rest[0];
    var pieces := [first] + rest[1..];
    if |rest| == 1 {
      assert first == s;
      forall k: nat
        ensures !OccursAt(first, sep, k)
      {
        if k > 0 {
          Shifted(s, sep, k);
        }
      }
    } else {
      assert forall i | 0 < i < |pieces| :: pieces[i] == rest[i];
      assert EndsAtFirst(rest[0], sep);
      StartOfJoin(s, rest, sep);
      forall k: nat | k < |first|
        ensures !OccursAt(first + sep, sep, k)
      {
        if k > 0 {
          assert (first + sep)[1..] == rest[0] + sep;
          Shifted(first + sep, sep, k);
        }
      }
    }
  }

  lemma Shifted(s: string, sep: string, k: nat)
    requires 0 < k && s != ""
    ensures OccursAt(s, sep, k) <==> OccursAt(s[1..], sep, k - 1)
  {
    if k + |sep| <= |s| {
      assert s[1..][k - 1..k - 1 + |sep|] == s[k..k + |sep|];
    }
  }

  /** The separator that follows the first piece is the one in the text. */
  lemma StartOfJoin(s: string, rest: seq<string>, sep: string)
    requires s != "" && |rest| > 1 && JoinWith(rest, sep) == s[1..] && !(sep <= s)
    ensures !OccursAt([s[0]] + rest[0] + sep, sep, 0)
  {
    var start := [s[0]] + rest[0] + sep;
    assert s == [s[0]] + (rest[0] + sep + JoinWith(rest[1..], sep));
    assert start <= s;
    assert start[0..0 + |sep|] == s[..|sep|];
  }

  /** Two splits of the same text are the same. */
  lemma {:induction false} SplitIsUnique(p: seq<string>, q: seq<string>, s: string, sep: string)
    requires sep != "" && IsSplit(p, s, sep) && IsSplit(q, s, sep)
    ensures p == q
    decreases |p|
  {
    if |p| > 1 && |q| > 1 {
      FirstPiece(p, q, s, sep);
      FirstPiece(q, p, s, sep);
      assert s[..|p[0]|] == p[0] && s[..|q[0]|] == q[0];
      assert s[|p[0]| + |sep|..] == JoinWith(p[1..], sep) == JoinWith(q[1..], sep);
      SplitIsUnique(p[1..], q[1..], s[|p[0]| + |sep|..], sep);
    } else if |p| > 1 {
      SeparatorOccurs(p, s, sep);
    } else if |q| > 1 {
      SeparatorOccurs(q, s, sep);
    }
  }

  lemma SeparatorOccurs(p: seq<string>, s: string, sep: string)
    requires |p| > 1 && JoinWith(p, sep) == s
    ensures OccursAt(s, sep, |p[0]|)
  {
    assert s == p[0] + sep + JoinWith(p[1..], sep);
    assert s[|p[0]|..|p[0]| + |sep|] == sep;
  }

  lemma FirstPiece(p: seq<string>, q: seq<string>, s: string, sep: string)
    requires sep != "" && |p| > 1 && |q| > 1 && IsSplit(p, s, sep) && IsSplit(q, s, sep)
    ensures |q[0]| <= |p[0]|
  {
    SeparatorOccurs(p, s, sep);
    if |p[0]| < |q[0]| {
      var k := |p[0]|;
      assert s == q[0] + sep + JoinWith(q[1..], sep);
      assert k + |sep| <= |q[0] + sep| && (q[0] + sep)[k..k + |sep|] == s[k..k + |sep|];
      assert EndsAtFirst(q[0], sep);
      assert OccursAt(q[0] + sep, sep, k);
    }
  }

  // ----- frames

  /** The frames complete so far and the text still waiting for its end. */
  function Frames(stream: string): seq<string> {
    Init(SplitOn(stream, FRAME_END))
  }

  function Pending(stream: string): string {
    Last(SplitOn(stream, FRAME_END))
  }

  /** The payload of the first data line. */
  function DataOf(lines: seq<string>): Option<string> {
    if lines == [] then None
    else if DATA_PREFIX <= lines[0] then Some(lines[0][|DATA_PREFIX|..])
    else DataOf(lines[1..])
  }

  /** The events of a list of frames; a frame without data, or whose data does not parse, has none. */
  function EventsOf<E>(frames: seq<string>, parse: string -> Option<E>): seq<E> {
    if frames == [] then []
    else EventOf(frames[0], parse) + EventsOf(frames[1..], parse)
  }

  function EventOf<E>(frame: string, parse: string -> Option<E>): seq<E> {
    match DataOf(Lines(frame))
    case None => []
    case Some(data) => match parse(data) case None => [] case Some(event) => [event]
  }

  lemma {:induction false} EventsAppend<E>(x: seq<string>, y: seq<string>, parse: string -> Option<E>)
    ensures EventsOf(x + y, parse) == EventsOf(x, parse) + EventsOf(y, parse)
  {
    hide EventOf;
    if x == [] {
      assert x + y == y;
    } else {
      assert (x + y)[1..] == x[1..] + y;
      EventsAppend(x[1..], y, parse);
    }
  }

  /** Taking a chunk into the buffer splits the same way as having had the whole stream. */
  lemma ChunkStep(stream: string, chunk: string)
    ensures Frames(stream + chunk) == Frames(stream) + Frames(Pending(stream) + chunk)
    ensures Pending(stream + chunk) == Pending(Pending(stream) + chunk)
  {
    SplitResumes(stream, chunk, FRAME_END);
    hide SplitOn;
    var more := SplitOn(Pending(stream) + chunk, FRAME_END);
    assert Init(Init(SplitOn(stream, FRAME_END)) + more) == Init(SplitOn(stream, FRAME_END)) + Init(more);
  }

  /** The reader: text waiting for its end, and the events handed to the caller. */
  class TraceReader<E> {
    const parse: string -> Option<E>
    var buffer: string
    var delivered: seq<E>

    constructor (parse: string -> Option<E>)
      ensures this.parse == parse && buffer == "" && delivered == []
    {
      this.parse := parse;
      buffer := "";
      delivered := [];
    }

    /** One turn of the read loop. */
    method Receive(chunk: string)
      modifies this
      ensures buffer == Pending(old(buffer) + chunk)
      ensures delivered == old(delivered) + EventsOf(Frames(old(buffer) + chunk), parse)
    {
      buffer := buffer + chunk;
      var frames := SplitOn(buffer, FRAME_END);
      buffer := Last(frames);
      frames := Init(frames);
      hide EventOf, SplitOn;
      var i := 0;
      while i < |frames|
        invariant i <= |frames| && buffer == Pending(old(buffer) + chunk)
        invariant delivered + EventsOf(frames[i..], parse) == old(delivered) + EventsOf(frames, parse)
      {
        assert frames[i..][0] == frames[i] && frames[i..][1..] == frames[i + 1..];
        assert delivered + (EventOf(frames[i], parse) + EventsOf(frames[i + 1..], parse))
            == delivered + EventOf(frames[i], parse) + EventsOf(frames[i + 1..], parse);
        Handle(frames[i]);
        i := i + 1;
      }
    }

    /** The body of the loop over frames. */
    method Handle(frame: string)
      modifies this`delivered
      ensures delivered == old(delivered) + EventOf(frame, parse)
    {
      var data := FindData(Lines(frame));
      if data == None {
        return;
      }
      var event := parse(data.value);
      if event.Some? {
        delivered := delivered + [event.value];
      }
    }

    /** Reads every chunk; what is left in the buffer when the stream ends is dropped. */
    method ReadAll(chunks: seq<string>)
      requires buffer == "" && delivered == []
      modifies this
      ensures delivered == EventsOf(Frames(Flatten(chunks)), parse)
      ensures buffer == Pending(Flatten(chunks))
    {
      hide Frames, Pending, EventsOf, Flatten;
      NothingYet(parse);
      ghost var stream := "";
      var i := 0;
      while i < |chunks|
        invariant i <= |chunks| && stream == Flatten(chunks[..i])
        invariant buffer == Pending(stream) && delivered == EventsOf(Frames(stream), parse)
      {
        ChunkStep(stream, chunks[i]);
        EventsAppend(Frames(stream), Frames(Pending(stream) + chunks[i]), parse);
        FlattenPrefix(chunks, i);
        Receive(chunks[i]);
        stream := stream + chunks[i];
        i := i + 1;
      }
      assert chunks[..i] == chunks;
    }
  }

  lemma FlattenPrefix(chunks: seq<string>, i: nat)
    requires i < |chunks|
    ensures Flatten(chunks[..i + 1]) == Flatten(chunks[..i]) + chunks[i]
  {
    FlattenAppend(chunks[..i], [chunks[i]]);
    assert chunks[..i + 1] == chunks[..i] + [chunks[i]];
    assert Flatten([chunks[i]]) == chunks[i] + Flatten([]) == chunks[i];
  }

  lemma NothingYet<E>(parse: string -> Option<E>)
    ensures Frames("") == [] && Pending("") == "" && EventsOf([], parse) == [] && Flatten<char>([]) == ""
  {
  }

  /** `lines.find(l => l.startsWith('data: '))`, without the prefix. */
  method FindData(lines: seq<string>) returns (data: Option<string>)
    ensures data == DataOf(lines)
  {
    for i := 0 to |lines|
      invariant DataOf(lines[i..]) == DataOf(lines)
    {
      assert lines[i..][0] == lines[i] && lines[i..][1..] == lines[i + 1..];
      if DATA_PREFIX <= lines[i] {
        return Some(lines[i][|DATA_PREFIX|..]);
      }
    }
    return None;
  }

  /** The frames handled for a list of chunks, chunk by chunk. */
  function Handled(chunks: seq<string>, buffer: string): seq<string> {
    if chunks == [] then []
    else Frames(buffer + chunks[0]) + Handled(chunks[1..], Pending(buffer + chunks[0]))
  }

  /** However the stream is cut, the frames handled are all but the last piece of the whole stream. */
  lemma {:induction false} ChunkingDoesNotMatter(chunks: seq<string>, stream: string)
    ensures Frames(stream) + Handled(chunks, Pending(stream)) == Frames(stream + Flatten(chunks))
    decreases |chunks|
  {
    hide Frames, Pending;
    if chunks == [] {
      assert stream + Flatten(chunks) == stream;
    } else {
      ChunkStep(stream, chunks[0]);
      ChunkingDoesNotMatter(chunks[1..], stream + chunks[0]);
      assert stream + chunks[0] + Flatten(chunks[1..]) == stream + Flatten(chunks);
    }
  }

  /** Two ways to cut the same stream deliver the same events. */
  lemma SameStreamSameEvents<E>(x: seq<string>, y: seq<string>, parse: string -> Option<E>)
    requires Flatten(x) == Flatten(y)
    ensures EventsOf(Handled(x, ""), parse) == EventsOf(Handled(y, ""), parse)
  {
    NothingYet(parse);
    hide Frames, Pending;
    ChunkingDoesNotMatter(x, "");
    ChunkingDoesNotMatter(y, "");
    assert [] + Handled(x, "") == Handled(x, "") && [] + Handled(y, "") == Handled(y, "");
    assert "" + Flatten(x) == "" + Flatten(y);
  }
}
