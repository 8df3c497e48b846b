/** What reaches the caller of the trace channel, for a stream as the service writes it. */
module FrameLaws {
  import opened FrameStream
  import opened Text

  predicate IsDataLine(line: string) {
    "data: " <= line
  }

  /** The first line that starts with `data: ` gives the data. */
  ghost predicate IsFirstData(lines: seq<string>, k: int, data: string) {
    0 <= k < |lines| && lines[k] == "data: " + data && forall i | 0 <= i < k :: !("data: " <= lines[i])
  }

  lemma {:induction false} DataIff(lines: seq<string>, data: string)
    ensures DataOf(lines) == Some(data) <==> exists k :: IsFirstData(lines, k, data)
  {
    if lines != [] {
      DataIff(lines[1..], data);
      PrefixAndRest(lines[0], DATA_PREFIX, data);
      PrefixIs();
      hide DATA_PREFIX, DataOf;
      DataStep(lines);
      if "data: " <= lines[0] {
        if DataOf(lines) == Some(data) {
          assert IsFirstData(lines, 0, data);
        }
        if k :| IsFirstData(lines, k, data) {
          assert k == 0;
        }
      } else {
        if k :| IsFirstData(lines[1..], k, data) {
          assert IsFirstData(lines, k + 1, data);
        }
        if k :| IsFirstData(lines, k, data) {
          StartsWithIt("data: ", data);
          assert IsFirstData(lines[1..], k - 1, data);
        }
      }
    }
  }

  lemma {:induction false} NoDataIff(lines: seq<string>)
    ensures DataOf(lines) == None <==> forall l | l in lines :: !IsDataLine(l)
  {
    if lines != [] {
      NoDataIff(lines[1..]);
      PrefixIs();
      hide DATA_PREFIX;
      assert lines[0] in lines && forall l | l in lines :: l == lines[0] || l in lines[1..];
    }
  }

  lemma DataStep(lines: seq<string>)
    requires lines != []
    ensures DataOf(lines)
         == if DATA_PREFIX <= lines[0] then Some(lines[0][|DATA_PREFIX|..]) else DataOf(lines[1..])
  {
  }

  lemma PrefixAndRest(line: string, prefix: string, data: string)
    ensures prefix <= line ==> (line[|prefix|..] == data <==> line == prefix + data)
  {
    if prefix <= line {
      assert line == prefix + line[|prefix|..];
    }
  }

  lemma StartsWithIt(prefix: string, data: string)
    ensures prefix <= prefix + data
  {
  }

  lemma PrefixIs()
    ensures DATA_PREFIX == "data: "
  {
  }

  // ----- a stream of frames

  /** One frame as the service sends it. */
  function FrameOf(payload: string): string {
    "data: " + payload
  }

  function Sent(payloads: seq<string>): string {
    if payloads == [] then "" else FrameOf(payloads[0]) + "\n\n" + Sent(payloads[1..])
  }

  function FramesOf(payloads: seq<string>): seq<string> {
    if payloads == [] then [] else [FrameOf(payloads[0])] + FramesOf(payloads[1..])
  }

  /** The payloads that parse, in order. */
  function Parsed<E>(payloads: seq<string>, parse: string -> Option<E>): seq<E> {
    if payloads == [] then []
    else (match parse(payloads[0]) case None => [] case Some(event) => [event]) + Parsed(payloads[1..], parse)
  }

  lemma {:induction false} SentJoins(payloads: seq<string>, tail: string)
    ensures JoinWith(FramesOf(payloads) + [tail], "\n\n") == Sent(payloads) + tail
  {
    if payloads == [] {
      assert FramesOf(payloads) + [tail] == [tail];
    } else {
      var frame, rest := FrameOf(payloads[0]), FramesOf(payloads[1..]) + [tail];
      SentJoins(payloads[1..], tail);
      assert FramesOf(payloads) + [tail] == [frame] + rest && ([frame] + rest)[1..] == rest;
      hide FrameOf;
      assert frame + "\n\n" + (Sent(payloads[1..]) + tail) == frame + "\n\n" + Sent(payloads[1..]) + tail;
    }
  }

  lemma FrameHasNoBreak(payload: string)
    requires NoBreak(payload)
    ensures NoBreak(FrameOf(payload)) && EndsAtFirst(FrameOf(payload), "\n\n")
  {
    var frame := FrameOf(payload);
    forall k: nat | k < |frame|
      ensures !OccursAt(frame + "\n\n", "\n\n", k)
    {
      if k + 2 <= |frame + "\n\n"| {
        assert (frame + "\n\n")[k..k + 2][0] == frame[k];
      }
    }
  }

  lemma {:induction false} FramesEndAtFirst(payloads: seq<string>)
    requires forall p | p in payloads :: NoBreak(p)
    ensures forall i | 0 <= i < |FramesOf(payloads)| :: EndsAtFirst(FramesOf(payloads)[i], "\n\n")
  {
    hide FrameOf, EndsAtFirst, NoBreak;
    if payloads != [] {
      FrameHasNoBreak(payloads[0]);
      FramesEndAtFirst(payloads[1..]);
    }
  }

  lemma FrameEndIs()
    ensures FRAME_END == "\n\n"
  {
  }

  lemma SentFrames(payloads: seq<string>, tail: string)
    requires (forall p | p in payloads :: NoBreak(p)) && Lacks(tail, "\n\n")
    ensures Frames(Sent(payloads) + tail) == FramesOf(payloads) && Pending(Sent(payloads) + tail) == tail
  {
    FrameEndIs();
    hide FRAME_END, NoBreak, FramesOf, Sent, Lacks, EndsAtFirst, SplitOn, JoinWith;
    var pieces, stream := FramesOf(payloads) + [tail], Sent(payloads) + tail;
    SentJoins(payloads, tail);
    FramesEndAtFirst(payloads);
    assert IsSplit(pieces, stream, "\n\n");
    SplitIsTheSplit(stream, "\n\n");
    SplitIsUnique(SplitOn(stream, "\n\n"), pieces, stream, "\n\n");
    assert Init(pieces) == FramesOf(payloads) && Last(pieces) == tail;
  }

  lemma OnePayload<E>(payload: string, parse: string -> Option<E>)
    requires NoBreak(payload)
    ensures EventOf(FrameOf(payload), parse) == match parse(payload) case None => [] case Some(event) => [event]
  {
    FrameHasNoBreak(payload);
    LineAlone(FrameOf(payload));
    hide SplitOn, DataOf;
    DataIff([FrameOf(payload)], payload);
    assert IsFirstData([FrameOf(payload)], 0, payload);
  }

  lemma {:induction false} SentEvents<E>(payloads: seq<string>, parse: string -> Option<E>)
    requires forall p | p in payloads :: NoBreak(p)
    ensures EventsOf(FramesOf(payloads), parse) == Parsed(payloads, parse)
  {
    hide FrameOf, EventOf, NoBreak;
    if payloads != [] {
      OnePayload(payloads[0], parse);
      SentEvents(payloads[1..], parse);
    }
  }

  /**
   * For a stream of frames with one payload each and an unfinished rest, however it is cut into chunks: what is
   * delivered is each payload that parses, in order, and the rest waits in the buffer.
   */
  lemma SentIsDelivered<E>(payloads: seq<string>, tail: string, chunks: seq<string>, parse: string -> Option<E>)
    requires (forall p | p in payloads :: NoBreak(p)) && Lacks(tail, "\n\n")
    requires Flatten(chunks) == Sent(payloads) + tail
    ensures EventsOf(Handled(chunks, ""), parse) == Parsed(payloads, parse)
    ensures EventsOf(Frames(Flatten(chunks)), parse) == Parsed(payloads, parse) && Pending(Flatten(chunks)) == tail
  {
    NothingYet(parse);
    SentFrames(payloads, tail);
    SentEvents(payloads, parse);
    hide Frames, Pending, EventsOf, Sent, Lacks, FramesOf, Parsed, NoBreak;
    ChunkingDoesNotMatter(chunks, "");
    assert [] + Handled(chunks, "") == Handled(chunks, "") && "" + Flatten(chunks) == Flatten(chunks);
  }

  /** A frame none of whose lines starts with `data: ` delivers nothing. */
  lemma KeepaliveIsSilent<E>(frame: string, parse: string -> Option<E>)
    requires forall l | l in Lines(frame) :: !IsDataLine(l)
    ensures EventOf(frame, parse) == []
  {
    hide DataOf;
    NoDataIff(Lines(frame));
  }
}
