/**
 What a well-formed event stream yields: a writer's view of frames and lines, down to the bytes, and the proof that
 the parser reads back exactly the events written, in order, and ends where the stream says so.
 */
module SseRoundTrip {
  import opened Basics
  import opened Sse

  /** A line of a frame: `data:` with or without the space, or any other line; ended by LF or by CR LF. */
  datatype Line = Data(raw: seq<Byte>, spaced: bool, cr: bool) | Other(text: seq<Byte>, cr: bool)

  function Content(l: Line): seq<Byte> {
    match l
    case Data(raw, spaced, _) => [100, 97, 116, 97, 58] + (if spaced then [32] else []) + raw
    case Other(text, _) => text
  }

  function Written(l: Line): seq<Byte> {
    Content(l) + (if l.cr then [13] else [])
  }

  function Body(lines: seq<Line>): seq<Byte> {
    if lines == [] then [] else Written(lines[0]) + [10] + Body(lines[1..])
  }

  /** A frame is its lines and a blank one. */
  function FrameBytes(lines: seq<Line>): seq<Byte> {
    Body(lines) + [10]
  }

  function StreamBytes(frames: seq<seq<Line>>): seq<Byte> {
    if frames == [] then [] else FrameBytes(frames[0]) + StreamBytes(frames[1..])
  }

  /** The line is not empty, holds no line end of its own, and says what kind it is. */
  ghost predicate PlainLine(l: Line) {
    && Written(l) != [] && (forall k :: 0 <= k < |Content(l)| ==> Content(l)[k] != 10)
    && (Content(l) != [] && !l.cr ==> Content(l)[|Content(l)| - 1] != 13)
    && match l
       case Data(raw, spaced, _) => spaced || raw == [] || raw[0] != 32
       case Other(text, _) => !([100, 97, 116, 97, 58] <= text)
  }

  /** The data of the line, when it has any that is not blank. */
  function Payload(c: Codec, l: Line): seq<seq<Byte>> {
    if l.Data? && c.trim(l.raw) != [] then [c.trim(l.raw)] else []
  }

  /** A line that carries an event, or nothing. */
  ghost predicate Carries(c: Codec, l: Line) {
    && PlainLine(l)
    && forall e :: e in Payload(c, l) ==> c.json(e) && !(c.sentinel && e == [91, 68, 79, 78, 69, 93])
  }

  function Payloads(c: Codec, lines: seq<Line>): seq<seq<Byte>> {
    if lines == [] then [] else Payload(c, lines[0]) + Payloads(c, lines[1..])
  }

  function Events(c: Codec, frames: seq<seq<Line>>): seq<seq<Byte>> {
    if frames == [] then [] else Payloads(c, frames[0]) + Events(c, frames[1..])
  }

  ghost predicate AllCarry(c: Codec, lines: seq<Line>) {
    forall l :: l in lines ==> Carries(c, l)
  }

  /** Frames of at least one line that are text, whose lines carry events or nothing. */
  ghost predicate Sound(c: Codec, frames: seq<seq<Line>>) {
    forall f :: f in frames ==> f != [] && c.utf8(FrameBytes(f)) && AllCarry(c, f)
  }

  // ---------------------------------------------------------------- a line

  lemma {:induction false} LineEnds(line: seq<Byte>, rest: seq<Byte>)
    requires forall k :: 0 <= k < |line| ==> line[k] != 10
    ensures LineLength(line + [10] + rest) == |line|
    decreases |line|
  {
    if line != [] {
      LineEnds(line[1..], rest);
      assert (line + [10] + rest)[1..] == line[1..] + [10] + rest;
    }
  }

  lemma LineFirst(c: Codec, line: seq<Byte>, rest: seq<Byte>)
    requires forall k :: 0 <= k < |line| ==> line[k] != 10
    ensures Lines(c, line + [10] + rest) == Then(OneLine(c, WithoutCr(line)), Lines(c, rest))
  {
    hide OneLine, WithoutCr, Then, LineLength;
    LineEnds(line, rest);
    var s := line + [10] + rest;
    assert s[..|line|] == line && s[|line| + 1..] == rest;
  }

  lemma NoFeed(l: Line)
    requires PlainLine(l)
    ensures forall k :: 0 <= k < |Written(l)| ==> Written(l)[k] != 10
  {
    hide Content;
  }

  lemma ContentRead(l: Line)
    requires PlainLine(l)
    ensures WithoutCr(Written(l)) == Content(l)
  {
    hide Content;
    if l.cr {
      assert (Content(l) + [13])[..|Content(l)|] == Content(l);
    } else {
      assert Content(l) + [] == Content(l);
    }
  }

  lemma DataRead(l: Line)
    requires PlainLine(l)
    ensures DataOf(Content(l)) == if l.Data? then Some(l.raw) else None
  {
    match l
    case Data(raw, spaced, _) =>
      if spaced {
        assert Content(l) == DATA + [32] + raw;
      } else {
        assert Content(l) == DATA + raw;
        assert (DATA + [32])[5] == 32;
        assert raw == [] || Content(l)[5] == raw[0];
      }
    case Other(text, _) =>
      assert DATA + [32] <= text ==> DATA <= text;
  }

  /** What the parser makes of one written line. */
  lemma LineRead(c: Codec, l: Line)
    requires PlainLine(l)
    ensures var out := OneLine(c, WithoutCr(Written(l)));
            if l.Data? && c.sentinel && c.trim(l.raw) == [91, 68, 79, 78, 69, 93] then out == Outcome([], Done)
            else if forall e :: e in Payload(c, l) ==> c.json(e) then out == Outcome(Payload(c, l), Ran)
            else out == Outcome([], BadJson)
  {
    hide PlainLine, Content, Written, WithoutCr, DataOf;
    ContentRead(l);
    DataRead(l);
    if l.Data? && c.trim(l.raw) != [] {
      assert c.trim(l.raw) in Payload(c, l);
    }
  }

  lemma Nothing(out: Outcome)
    ensures Then(Outcome([], Ran), out) == out
  {
    assert [] + out.events == out.events;
  }

  lemma Appends(a: seq<seq<Byte>>, b: seq<seq<Byte>>, out: Outcome)
    ensures Then(Outcome(a, Ran), Then(Outcome(b, Ran), out)) == Then(Outcome(a + b, Ran), out)
  {
    assert a + (b + out.events) == a + b + out.events;
  }

  // ---------------------------------------------------------------- a frame

  lemma CarrierRead(c: Codec, l: Line, more: seq<Byte>)
    requires Carries(c, l)
    ensures Lines(c, Written(l) + [10] + more) == Then(Outcome(Payload(c, l), Ran), Lines(c, more))
  {
    hide Lines, OneLine, PlainLine, Written, WithoutCr, Then;
    NoFeed(l);
    LineRead(c, l);
    if l.Data? && c.trim(l.raw) != [] {
      assert c.trim(l.raw) in Payload(c, l);
    }
    LineFirst(c, Written(l), more);
  }

  lemma BodyStep(lines: seq<Line>, rest: seq<Byte>)
    requires lines != []
    ensures Body(lines) + rest == Written(lines[0]) + [10] + (Body(lines[1..]) + rest)
  {
  }

  /** Lines that carry events, then more. */
  lemma {:induction false} LinesRead(c: Codec, lines: seq<Line>, rest: seq<Byte>)
    requires AllCarry(c, lines)
    ensures Lines(c, Body(lines) + rest) == Then(Outcome(Payloads(c, lines), Ran), Lines(c, rest))
    decreases |lines|
  {
    if lines == [] {
      assert Body(lines) + rest == rest;
      Nothing(Lines(c, rest));
    } else {
      hide Lines, Carries, Body, Then, Payload;
      assert Carries(c, lines[0]);
      BodyStep(lines, rest);
      CarrierRead(c, lines[0], Body(lines[1..]) + rest);
      LinesRead(c, lines[1..], rest);
      Appends(Payload(c, lines[0]), Payloads(c, lines[1..]), Lines(c, rest));
    }
  }

  lemma BlankLine(c: Codec)
    ensures Lines(c, [10]) == Outcome([], Ran)
  {
  }

  lemma FrameRead(c: Codec, lines: seq<Line>)
    requires AllCarry(c, lines) && c.utf8(FrameBytes(lines))
    ensures Frame(c, FrameBytes(lines)) == Outcome(Payloads(c, lines), Ran)
  {
    hide Lines, AllCarry;
    LinesRead(c, lines, [10]);
    BlankLine(c);
    assert Payloads(c, lines) + [] == Payloads(c, lines);
  }

  /** No two line feeds meet inside the body. */
  lemma {:induction false} BodyHasNoBlank(lines: seq<Line>)
    requires lines != [] && forall l :: l in lines ==> PlainLine(l)
    ensures var b := Body(lines);
            && |b| >= 2 && b[0] != 10 && b[|b| - 1] == 10
            && forall k :: 0 <= k < |b| - 1 ==> !(b[k] == 10 && b[k + 1] == 10)
    decreases |lines|
  {
    hide PlainLine, Written;
    var (first, tail) := (Written(lines[0]), Body(lines[1..]));
    NoFeed(lines[0]);
    assert first != [] by {
      LineNotEmpty(lines[0]);
    }
    if |lines| > 1 {
      BodyHasNoBlank(lines[1..]);
    }
    NoBlankBetween(first, tail);
  }

  lemma LineNotEmpty(l: Line)
    requires PlainLine(l)
    ensures Written(l) != []
  {
  }

  lemma NoBlankBetween(first: seq<Byte>, tail: seq<Byte>)
    requires first != [] && forall k :: 0 <= k < |first| ==> first[k] != 10
    requires tail != [] ==> tail[0] != 10
    requires forall k :: 0 <= k < |tail| - 1 ==> !(tail[k] == 10 && tail[k + 1] == 10)
    ensures var b := first + [10] + tail; forall k :: 0 <= k < |b| - 1 ==> !(b[k] == 10 && b[k + 1] == 10)
  {
    var (b, n) := (first + [10] + tail, |first| + 1);
    assert forall k :: n <= k < |b| ==> b[k] == tail[k - n];
    assert forall k :: 0 <= k < |first| ==> b[k] == first[k];
  }

  /** The first blank line of a written frame is its own. */
  lemma FrameIsFirst(lines: seq<Line>)
    requires lines != [] && forall l :: l in lines ==> PlainLine(l)
    ensures FrameEnd(FrameBytes(lines)) == Some(|FrameBytes(lines)| - 2)
  {
    hide Body, PlainLine;
    BodyHasNoBlank(lines);
    var (b, f) := (Body(lines), FrameBytes(lines));
    assert forall k :: 0 <= k < |b| ==> f[k] == b[k];
    assert f[|b| - 1] == 10 && f[|b|] == 10;
  }

  /** A written frame is parsed on its own, whatever follows. */
  lemma FrameTaken(c: Codec, lines: seq<Line>, rest: seq<Byte>)
    requires lines != [] && forall l :: l in lines ==> PlainLine(l)
    ensures Whole(c, FrameBytes(lines) + rest) == Then(Frame(c, FrameBytes(lines)), Whole(c, rest))
  {
    hide Whole, Frame, FrameEnd, FrameBytes, PlainLine;
    var f := FrameBytes(lines);
    FrameIsFirst(lines);
    FirstFrame(c, f, rest);
    FrameEndInside(f);
    assert f[..|f|] == f && f[|f|..] + rest == rest;
  }

  // ---------------------------------------------------------------- a stream

  /** Reading back: a sound stream yields exactly the events written, in order, and then what follows it. */
  lemma {:induction false} StreamRead(c: Codec, frames: seq<seq<Line>>, rest: seq<Byte>)
    requires Sound(c, frames)
    ensures Whole(c, StreamBytes(frames) + rest) == Then(Outcome(Events(c, frames), Ran), Whole(c, rest))
    decreases |frames|
  {
    if frames == [] {
      assert StreamBytes(frames) + rest == rest;
      Nothing(Whole(c, rest));
    } else {
      SoundStep(c, frames);
      hide Whole, FrameBytes, AllCarry, Then, StreamBytes, Sound;
      StreamStep(frames, rest);
      SoundFrameRead(c, frames[0], StreamBytes(frames[1..]) + rest);
      StreamRead(c, frames[1..], rest);
      Appends(Payloads(c, frames[0]), Events(c, frames[1..]), Whole(c, rest));
    }
  }

  lemma SoundStep(c: Codec, frames: seq<seq<Line>>)
    requires Sound(c, frames) && frames != []
    ensures frames[0] != [] && c.utf8(FrameBytes(frames[0])) && AllCarry(c, frames[0]) && Sound(c, frames[1..])
  {
    hide FrameBytes, AllCarry;
    assert frames[0] in frames && forall f :: f in frames[1..] ==> f in frames;
  }

  lemma StreamStep(frames: seq<seq<Line>>, rest: seq<Byte>)
    requires frames != []
    ensures StreamBytes(frames) + rest == FrameBytes(frames[0]) + (StreamBytes(frames[1..]) + rest)
  {
    hide FrameBytes;
  }

  lemma SoundFrameRead(c: Codec, lines: seq<Line>, more: seq<Byte>)
    requires lines != [] && AllCarry(c, lines) && c.utf8(FrameBytes(lines))
    ensures Whole(c, FrameBytes(lines) + more) == Then(Outcome(Payloads(c, lines), Ran), Whole(c, more))
  {
    hide Whole, Frame, FrameBytes, Then;
    CarriersArePlain(c, lines);
    hide AllCarry, PlainLine;
    FrameTaken(c, lines, more);
    FrameRead(c, lines);
  }

  lemma CarriersArePlain(c: Codec, lines: seq<Line>)
    requires AllCarry(c, lines)
    ensures forall l :: l in lines ==> Carries(c, l) && PlainLine(l)
  {
    hide PlainLine;
  }

  /** A sound stream yields exactly the events written, in order; a frame cut short by the end of the bytes adds
      nothing. */
  lemma RoundTrip(c: Codec, frames: seq<seq<Line>>, rest: seq<Byte>)
    requires Sound(c, frames) && forall k :: 0 <= k < |rest| - 1 ==> !(rest[k] == 10 && rest[k + 1] == 10)
    ensures Whole(c, StreamBytes(frames) + rest) == Outcome(Events(c, frames), Ran)
  {
    hide Sound, StreamBytes;
    StreamRead(c, frames, rest);
    assert Events(c, frames) + [] == Events(c, frames);
  }

  /** The line that ends a stream: `[DONE]` where that counts, or data that is not JSON. */
  ghost predicate Ends(c: Codec, l: Line, ending: Ending) {
    && l.Data? && PlainLine(l) && c.trim(l.raw) != []
    && if c.sentinel && c.trim(l.raw) == [91, 68, 79, 78, 69, 93] then ending == Done
       else !c.json(c.trim(l.raw)) && ending == BadJson
  }

  lemma EnderRead(c: Codec, l: Line, ending: Ending, more: seq<Byte>)
    requires Ends(c, l, ending)
    ensures Lines(c, Written(l) + [10] + more) == Outcome([], ending)
  {
    hide Lines, OneLine, PlainLine, Written, WithoutCr;
    NoFeed(l);
    LineRead(c, l);
    assert c.trim(l.raw) in Payload(c, l);
    LineFirst(c, Written(l), more);
  }

  lemma {:induction false} BodySplits(a: seq<Line>, l: Line, b: seq<Line>)
    ensures Body(a + [l] + b) == Body(a) + (Written(l) + [10] + Body(b))
    decreases |a|
  {
    hide Written;
    if a == [] {
      assert a + [l] + b == [l] + b;
    } else {
      assert (a + [l] + b)[1..] == a[1..] + [l] + b;
      BodySplits(a[1..], l, b);
    }
  }

  lemma EndingFrameRead(c: Codec, before: seq<Line>, l: Line, after: seq<Line>, ending: Ending)
    requires AllCarry(c, before) && Ends(c, l, ending) && c.utf8(FrameBytes(before + [l] + after))
    ensures Frame(c, FrameBytes(before + [l] + after)) == Outcome(Payloads(c, before), ending)
  {
    hide Lines, AllCarry, Ends, Body, Written;
    BodySplits(before, l, after);
    var more := Body(after) + [10];
    assert FrameBytes(before + [l] + after) == Body(before) + (Written(l) + [10] + more);
    LinesRead(c, before, Written(l) + [10] + more);
    EnderRead(c, l, ending, more);
    assert Payloads(c, before) + [] == Payloads(c, before);
  }

  /** The first line that ends the stream ends it there: the events written before it, in order, and nothing of the rest
      of its frame or of the stream. */
  lemma StreamStops(c: Codec, frames: seq<seq<Line>>, before: seq<Line>, l: Line, after: seq<Line>, rest: seq<Byte>,
                    ending: Ending)
    requires Sound(c, frames) && AllCarry(c, before) && Ends(c, l, ending)
    requires (forall x :: x in after ==> PlainLine(x)) && c.utf8(FrameBytes(before + [l] + after))
    ensures Whole(c, StreamBytes(frames) + (FrameBytes(before + [l] + after) + rest))
         == Outcome(Events(c, frames) + Payloads(c, before), ending)
  {
    hide Sound, StreamBytes, FrameBytes, Whole, Frame, PlainLine;
    var f := before + [l] + after;
    assert forall x :: x in f ==> PlainLine(x) by {
      CarriersArePlain(c, before);
    }
    hide AllCarry, Ends;
    FrameTaken(c, f, rest);
    EndingFrameRead(c, before, l, after, ending);
    StreamRead(c, frames, FrameBytes(f) + rest);
  }

  /** A frame that is not text ends the stream before any of its lines is read. */
  lemma StreamNotText(c: Codec, frames: seq<seq<Line>>, lines: seq<Line>, rest: seq<Byte>)
    requires Sound(c, frames) && lines != [] && (forall x :: x in lines ==> PlainLine(x)) && !c.utf8(FrameBytes(lines))
    ensures Whole(c, StreamBytes(frames) + (FrameBytes(lines) + rest)) == Outcome(Events(c, frames), BadText)
  {
    hide Sound, StreamBytes, FrameBytes, Whole, PlainLine;
    FrameTaken(c, lines, rest);
    StreamRead(c, frames, FrameBytes(lines) + rest);
    assert Events(c, frames) + [] == Events(c, frames);
  }

  // ---------------------------------------------------------------- the usual shape

  /** `event:` and `data:` on a line each, then a blank line, for each event. */
  function Named(names: seq<seq<Byte>>, events: seq<seq<Byte>>): seq<Byte>
    requires |names| == |events|
  {
    if events == [] then []
    else
      ([101, 118, 101, 110, 116, 58, 32] + names[0]) + [10] + ([100, 97, 116, 97, 58, 32] + events[0]) + [10, 10]
      + Named(names[1..], events[1..])
  }

  ghost predicate Clean(s: seq<Byte>) {
    forall k :: 0 <= k < |s| ==> s[k] != 10 && s[k] != 13
  }

  /** An event the codec accepts as it stands. */
  ghost predicate Readable(c: Codec, name: seq<Byte>, e: seq<Byte>) {
    && Clean(name) && Clean(e) && c.json(e) && c.trim(e) == e && e != []
    && !(c.sentinel && e == [91, 68, 79, 78, 69, 93]) && c.utf8(Named([name], [e]))
  }

  /** Any list of events, each under its name, is read back whole. */
  lemma {:induction false} NamedRoundTrip(c: Codec, names: seq<seq<Byte>>, events: seq<seq<Byte>>)
    requires |names| == |events|
    requires forall k :: 0 <= k < |events| ==> Readable(c, names[k], events[k])
    ensures Whole(c, Named(names, events)) == Outcome(events, Ran)
    decreases |events|
  {
    if events != [] {
      hide Named, Readable, Whole;
      NamedRoundTrip(c, names[1..], events[1..]);
      NamedFrame(c, names[0], events[0], Named(names[1..], events[1..]));
      NamedStep(names, events);
      assert [events[0]] + events[1..] == events;
    } else {
      assert Named(names, events) == [];
    }
  }

  lemma NamedOne(name: seq<Byte>, e: seq<Byte>)
    ensures Named([name], [e])
         == ([101, 118, 101, 110, 116, 58, 32] + name) + [10] + ([100, 97, 116, 97, 58, 32] + e) + [10, 10]
  {
    var frame := ([101, 118, 101, 110, 116, 58, 32] + name) + [10] + ([100, 97, 116, 97, 58, 32] + e) + [10, 10];
    assert [name][1..] == [] && [e][1..] == [];
    assert Named([], []) == [];
    assert frame + [] == frame;
  }

  lemma NamedStep(names: seq<seq<Byte>>, events: seq<seq<Byte>>)
    requires |names| == |events| > 0
    ensures Named(names, events) == Named([names[0]], [events[0]]) + Named(names[1..], events[1..])
  {
    NamedOne(names[0], events[0]);
  }

  function NamedLines(name: seq<Byte>, e: seq<Byte>): (lines: seq<Line>)
    ensures |lines| == 2
  {
    [Other([101, 118, 101, 110, 116, 58, 32] + name, false), Data(e, true, false)]
  }

  lemma NamedBytes(name: seq<Byte>, e: seq<Byte>)
    ensures FrameBytes(NamedLines(name, e)) == Named([name], [e])
  {
    var (a, b) := (NamedLines(name, e)[0], NamedLines(name, e)[1]);
    Bare(a, [101, 118, 101, 110, 116, 58, 32] + name);
    Bare(b, [100, 97, 116, 97, 58, 32] + e);
    hide Written, Named, FrameBytes;
    NamedOne(name, e);
    TwoLines(a, b);
  }

  lemma Bare(l: Line, s: seq<Byte>)
    requires !l.cr && Content(l) == s
    ensures Written(l) == s
  {
  }

  lemma TwoLines(a: Line, b: Line)
    ensures FrameBytes([a, b]) == Written(a) + [10] + Written(b) + [10, 10]
  {
    hide Written;
    BodyStep([a, b], [10]);
    BodyStep([b], [10]);
    assert [a, b][1..] == [b] && [b][1..] == [];
    assert Body([]) + [10] == [10];
  }

  lemma NameCarries(c: Codec, name: seq<Byte>, cr: bool)
    requires Clean(name)
    ensures var a := Other([101, 118, 101, 110, 116, 58, 32] + name, cr); Carries(c, a) && Payload(c, a) == []
  {
    assert ([101, 118, 101, 110, 116, 58, 32] + name)[0] == 101;
  }

  lemma DataCarries(c: Codec, e: seq<Byte>)
    requires Clean(e) && c.json(e) && c.trim(e) == e && e != []
    requires !(c.sentinel && e == [91, 68, 79, 78, 69, 93])
    ensures Carries(c, Data(e, true, false)) && Payload(c, Data(e, true, false)) == [e]
  {
    var b := Data(e, true, false);
    assert Content(b) == [100, 97, 116, 97, 58, 32] + e;
    Bare(b, Content(b));
  }

  lemma NamedCarries(c: Codec, name: seq<Byte>, e: seq<Byte>)
    requires Clean(name) && Clean(e) && c.json(e) && c.trim(e) == e && e != []
    requires !(c.sentinel && e == [91, 68, 79, 78, 69, 93])
    ensures AllCarry(c, NamedLines(name, e)) && Payloads(c, NamedLines(name, e)) == [e]
  {
    NameCarries(c, name, false);
    DataCarries(c, e);
    hide Carries, Payload, Clean;
    var (a, b) := (NamedLines(name, e)[0], NamedLines(name, e)[1]);
    assert [a, b][1..] == [b] && [b][1..] == [];
    assert Payloads(c, [b]) == Payload(c, b) + Payloads(c, []) == [e];
    assert Payloads(c, [a, b]) == [] + [e];
  }

  lemma NamedFrame(c: Codec, name: seq<Byte>, e: seq<Byte>, more: seq<Byte>)
    requires Readable(c, name, e)
    ensures Whole(c, Named([name], [e]) + more) == Then(Outcome([e], Ran), Whole(c, more))
  {
    hide Named, Clean, Whole, NamedLines, FrameBytes, AllCarry, Payloads, Then;
    NamedBytes(name, e);
    NamedCarries(c, name, e);
    SoundFrameRead(c, NamedLines(name, e), more);
  }
}
