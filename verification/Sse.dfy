/**
 Incremental parsing of server-sent events: bytes arrive in chunks cut anywhere, frames end at a blank line.

 `Whole` parses a byte string in one piece. `Parse`, the buffering loop, is proved to give on every list of chunks
 what `Whole` gives on their concatenation, for the OpenAI stream (with its `[DONE]` line) and the Anthropic one.
 */
module Sse {
  import opened Basics

  /** The library calls on text: UTF-8 validation, JSON validation, and `trim_start`; and whether the stream has a
      `[DONE]` line. */
  datatype Codec = Codec(utf8: seq<Byte> -> bool, json: seq<Byte> -> bool, trim: seq<Byte> -> seq<Byte>,
                         sentinel: bool)

  /** How a stream ended: the bytes ran out, `[DONE]`, or one of the errors. */
  datatype Ending = Ran | Done | BadText | BadJson | Transport

  /** The events, each as its JSON text, and the ending. */
  datatype Outcome = Outcome(events: seq<seq<Byte>>, ending: Ending)

  const LF: Byte := 10
  const CR: Byte := 13
  const DATA: seq<Byte> := [100, 97, 116, 97, 58]
  const DONE: seq<Byte> := [91, 68, 79, 78, 69, 93]

  function Then(first: Outcome, second: Outcome): Outcome {
    if first.ending == Ran then Outcome(first.events + second.events, second.ending) else first
  }

  /** The start of the first `\n\n`. */
  function FrameEnd(b: seq<Byte>): (r: Option<nat>)
    ensures r.Some? ==> r.value + 1 < |b| && b[r.value] == LF && b[r.value + 1] == LF
    ensures r.Some? ==> forall k :: 0 <= k < r.value ==> !(b[k] == LF && b[k + 1] == LF)
    ensures r.None? ==> forall k :: 0 <= k < |b| - 1 ==> !(b[k] == LF && b[k + 1] == LF)
  {
    FrameEndFrom(b, 0)
  }

  function FrameEndFrom(b: seq<Byte>, i: nat): (r: Option<nat>)
    requires forall k :: 0 <= k < i && k < |b| - 1 ==> !(b[k] == LF && b[k + 1] == LF)
    ensures r.Some? ==> r.value + 1 < |b| && b[r.value] == LF && b[r.value + 1] == LF
    ensures r.Some? ==> forall k :: 0 <= k < r.value ==> !(b[k] == LF && b[k + 1] == LF)
    ensures r.None? ==> forall k :: 0 <= k < |b| - 1 ==> !(b[k] == LF && b[k + 1] == LF)
    decreases |b| - i
  {
    if i + 1 >= |b| then None
    else if b[i] == LF && b[i + 1] == LF then Some(i)
    else FrameEndFrom(b, i + 1)
  }

  // ---------------------------------------------------------------- one frame

  /** Length of the first line, without its line feed. */
  function LineLength(s: seq<Byte>): (n: nat)
    ensures n <= |s|
  {
    if s == [] || s[0] == LF then 0 else 1 + LineLength(s[1..])
  }

  function WithoutCr(line: seq<Byte>): seq<Byte> {
    if line != [] && line[|line| - 1] == CR then line[..|line| - 1] else line
  }

  /** What follows `data:` (and one space), if the line starts so. */
  function DataOf(line: seq<Byte>): Option<seq<Byte>> {
    if DATA + [32] <= line then Some(line[6..]) else if DATA <= line then Some(line[5..]) else None
  }

  /** One line: no event, an event, or the end of the stream. */
  function OneLine(c: Codec, line: seq<Byte>): Outcome {
    match DataOf(line)
    case None => Outcome([], Ran)
    case Some(rest) =>
      var data := c.trim(rest);
      if c.sentinel && data == DONE then Outcome([], Done)
      else if data == [] then Outcome([], Ran)
      else if c.json(data) then Outcome([data], Ran)
      else Outcome([], BadJson)
  }

  /** `frame.lines()` in order, until one ends the stream. */
  function Lines(c: Codec, s: seq<Byte>): Outcome
    decreases |s|
  {
    if s == [] then Outcome([], Ran)
    else
      var n := LineLength(s);
      Then(OneLine(c, WithoutCr(s[..n])), if n < |s| then Lines(c, s[n + 1..]) else Outcome([], Ran))
  }

  function Frame(c: Codec, frame: seq<Byte>): Outcome {
    if !c.utf8(frame) then Outcome([], BadText) else Lines(c, frame)
  }

  // ---------------------------------------------------------------- the stream

  /** Frame after frame; an unfinished last frame yields nothing. */
  function Whole(c: Codec, bytes: seq<Byte>): Outcome
    decreases |bytes|
  {
    match FrameEnd(bytes)
    case None => Outcome([], Ran)
    case Some(i) => Then(Frame(c, bytes[..i + 2]), Whole(c, bytes[i + 2..]))
  }

  /** More bytes do not move the end of a frame that is there. */
  lemma FrameEndStays(b: seq<Byte>, more: seq<Byte>)
    requires FrameEnd(b).Some?
    ensures FrameEnd(b + more) == FrameEnd(b)
  {
    var (x, i) := (b + more, FrameEnd(b).value);
    assert forall k :: 0 <= k < |b| ==> x[k] == b[k];
    assert x[i] == LF && x[i + 1] == LF;
    assert forall k :: 0 <= k < i ==> !(x[k] == LF && x[k + 1] == LF);
  }

  lemma FirstFrame(c: Codec, b: seq<Byte>, more: seq<Byte>)
    requires FrameEnd(b).Some?
    ensures var cut := FrameEnd(b).value + 2;
            Whole(c, b + more) == Then(Frame(c, b[..cut]), Whole(c, b[cut..] + more))
  {
    hide Frame, FrameEnd;
    FrameEndStays(b, more);
    FrameEndInside(b);
    var cut := FrameEnd(b).value + 2;
    assert (b + more)[..cut] == b[..cut] && (b + more)[cut..] == b[cut..] + more;
  }

  lemma FrameEndInside(b: seq<Byte>)
    requires FrameEnd(b).Some?
    ensures FrameEnd(b).value + 2 <= |b|
  {
  }

  lemma ThenAssociates(a: Outcome, b: Outcome, d: Outcome)
    ensures Then(Then(a, b), d) == Then(a, Then(b, d))
  {
    assert a.events + (b.events + d.events) == a.events + b.events + d.events;
  }

  function Flat(chunks: seq<seq<Byte>>): seq<Byte> {
    if chunks == [] then [] else chunks[0] + Flat(chunks[1..])
  }

  /** The stream of chunks, and whether the transport fails after the last of them. What it yields is what the bytes
      yield in one piece; a transport failure shows only if nothing ended the stream before it. */
  method Parse(c: Codec, chunks: seq<seq<Byte>>, fails: bool) returns (out: Outcome)
    ensures out == Then(Whole(c, Flat(chunks)), Outcome([], if fails then Transport else Ran))
  {
    hide Whole, Frame, FrameEnd, Then, Flat;
    var buf: seq<Byte> := [];
    var events: seq<seq<Byte>> := [];
    ghost var total := Whole(c, Flat(chunks));
    NothingRead(total, Flat(chunks));
    for i := 0 to |chunks|
      invariant total == Then(Outcome(events, Ran), Whole(c, buf + Flat(chunks[i..])))
      invariant FrameEnd(buf).None?
    {
      ghost var rest := Flat(chunks[i + 1..]);
      TakeChunk(chunks, i, buf);
      buf := buf + chunks[i];
      var next := FrameEnd(buf);
      while next.Some?
        invariant total == Then(Outcome(events, Ran), Whole(c, buf + rest)) && next == FrameEnd(buf)
        decreases |buf|
      {
        FrameEndInside(buf);
        FirstFrame(c, buf, rest);
        var frame := buf[..next.value + 2];
        var f := Frame(c, frame);
        buf := buf[next.value + 2..];
        ThenAssociates(Outcome(events, Ran), f, Whole(c, buf + rest));
        TakeFrame(events, f);
        events := events + f.events;
        if f.ending != Ran {
          Stopped(Outcome(events, f.ending), Whole(c, buf + rest));
          Stopped(Outcome(events, f.ending), Outcome([], if fails then Transport else Ran));
          return Outcome(events, f.ending);
        }
        next := FrameEnd(buf);
      }
    }
    NothingLeft(c, chunks, buf);
    TakeFrame(events, Outcome([], Ran));
    assert events + [] == events;
    TakeFrame(events, Outcome([], if fails then Transport else Ran));
    return Outcome(events, if fails then Transport else Ran);
  }

  lemma NothingRead(total: Outcome, bytes: seq<Byte>)
    ensures Then(Outcome([], Ran), total) == total && [] + bytes == bytes
  {
    assert [] + total.events == total.events;
  }

  lemma TakeChunk(chunks: seq<seq<Byte>>, i: nat, buf: seq<Byte>)
    requires i < |chunks|
    ensures buf + Flat(chunks[i..]) == buf + chunks[i] + Flat(chunks[i + 1..])
  {
    assert chunks[i..][1..] == chunks[i + 1..];
  }

  lemma TakeFrame(events: seq<seq<Byte>>, f: Outcome)
    ensures Then(Outcome(events, Ran), f) == Outcome(events + f.events, f.ending)
  {
  }

  lemma Stopped(a: Outcome, b: Outcome)
    requires a.ending != Ran
    ensures Then(a, b) == a
  {
  }

  /** An unfinished frame at the end of the stream yields nothing. */
  lemma NothingLeft(c: Codec, chunks: seq<seq<Byte>>, buf: seq<Byte>)
    requires FrameEnd(buf).None?
    ensures Whole(c, buf + Flat(chunks[|chunks|..])) == Outcome([], Ran)
  {
    assert buf + Flat(chunks[|chunks|..]) == buf;
  }

  // ---------------------------------------------------------------- the two providers

  lemma OneLineAgrees(c: Codec, line: seq<Byte>)
    ensures var with, without := OneLine(c.(sentinel := true), line), OneLine(c.(sentinel := false), line);
            with.ending != Done ==> with == without
  {
  }

  lemma {:induction false} LinesAgree(c: Codec, s: seq<Byte>)
    ensures var with, without := Lines(c.(sentinel := true), s), Lines(c.(sentinel := false), s);
            with.ending != Done ==> with == without
    decreases |s|
  {
    hide OneLine, WithoutCr, LineLength;
    if s != [] {
      var n := LineLength(s);
      OneLineAgrees(c, WithoutCr(s[..n]));
      if n < |s| {
        LinesAgree(c, s[n + 1..]);
      }
    }
  }

  /** The `[DONE]` line is the only difference between the two parsers: on every stream that it does not end, they
      yield the same events and end alike. */
  lemma {:induction false} ProvidersAgree(c: Codec, bytes: seq<Byte>)
    ensures var with, without := Whole(c.(sentinel := true), bytes), Whole(c.(sentinel := false), bytes);
            with.ending != Done ==> with == without
    decreases |bytes|
  {
    hide Lines, FrameEnd;
    if FrameEnd(bytes).Some? {
      FrameEndInside(bytes);
      var cut := FrameEnd(bytes).value + 2;
      LinesAgree(c, bytes[..cut]);
      ProvidersAgree(c, bytes[cut..]);
    }
  }
}
