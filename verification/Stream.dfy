/**
 * The chat stream: how the Bridge frames events on the wire and how the extension's
 * chunk reader turns network chunks back into events.
 *
 * JSON text is read through a function `parse`, whose `None` is a parse failure.
 */
module Stream {
  import opened Options
  import opened Sequences
  import opened Text

  // ---------------------------------------------------------------- frames

  /** `text.split("\n\n")`: leftmost, non-overlapping, never empty. */
  function SplitFrames(text: string): (frames: seq<string>)
    ensures |frames| >= 1
  {
    if text == [] then [[]]
    else if |text| >= 2 && text[0] == '\n' && text[1] == '\n' then [[]] + SplitFrames(text[2..])
    else Grow(text[0], SplitFrames(text[1..]))
  }

  /** One more character in front of the first frame. */
  function Grow(c: char, frames: seq<string>): seq<string>
    requires frames != []
  {
    [[c] + frames[0]] + frames[1..]
  }

  function Init<T>(s: seq<T>): seq<T>
    requires s != []
  {
    s[..|s| - 1]
  }

  function Last<T>(s: seq<T>): T
    requires s != []
  {
    s[|s| - 1]
  }

  /** The frames already closed by a blank line. */
  function ClosedFrames(text: string): seq<string> {
    Init(SplitFrames(text))
  }

  /** The text still waiting for its blank line. */
  function OpenTail(text: string): string {
    Last(SplitFrames(text))
  }

  /** Frame boundaries found in a prefix are final: more text only extends the open tail. */
  lemma {:induction false} SplitFramesExtends(a: string, b: string)
    ensures SplitFrames(a + b) == ClosedFrames(a) + SplitFrames(OpenTail(a) + b)
  {
    if |SplitFrames(a)| == 1 {
      SingleFrame(a);
    } else if a[0] == '\n' && a[1] == '\n' {
      SplitFramesExtends(a[2..], b);
      SplitAfterBoundary(a, b);
    } else {
      SplitFramesExtends(a[1..], b);
      SplitAfterCharacter(a, b);
    }
  }

  lemma SplitAfterBoundary(a: string, b: string)
    requires |a| >= 2 && a[0] == '\n' && a[1] == '\n'
    requires SplitFrames(a[2..] + b) == ClosedFrames(a[2..]) + SplitFrames(OpenTail(a[2..]) + b)
    ensures SplitFrames(a + b) == ClosedFrames(a) + SplitFrames(OpenTail(a) + b)
  {
    var frames, more := SplitFrames(a[2..]), SplitFrames(OpenTail(a[2..]) + b);
    assert (a + b)[2..] == a[2..] + b;
    Prepend([], frames, more);
  }

  lemma Prepend(frame: string, frames: seq<string>, more: seq<string>)
    requires frames != []
    ensures Init([frame] + frames) + more == [frame] + (Init(frames) + more)
    ensures Last([frame] + frames) == Last(frames)
  {
  }

  lemma SplitAfterCharacter(a: string, b: string)
    requires |a| >= 2 && !(a[0] == '\n' && a[1] == '\n') && |SplitFrames(a[1..])| >= 2
    requires SplitFrames(a[1..] + b) == ClosedFrames(a[1..]) + SplitFrames(OpenTail(a[1..]) + b)
    ensures SplitFrames(a + b) == ClosedFrames(a) + SplitFrames(OpenTail(a) + b)
  {
    var frames, more := SplitFrames(a[1..]), SplitFrames(OpenTail(a[1..]) + b);
    Uncons(a, b);
    GrowParts(a[0], frames, more);
  }

  lemma GrowParts(c: char, frames: seq<string>, more: seq<string>)
    requires |frames| >= 2
    ensures Init(Grow(c, frames)) + more == Grow(c, Init(frames) + more)
    ensures Last(Grow(c, frames)) == Last(frames)
  {
  }

  lemma {:induction false} SingleFrame(text: string)
    requires |SplitFrames(text)| == 1
    ensures SplitFrames(text) == [text]
  {
    if text != [] {
      SingleFrame(text[1..]);
      assert [text[0]] + text[1..] == text;
    }
  }

  // ------------------------------------------- what makes a split the right one

  predicate HasBlankLine(text: string) {
    exists i | 0 <= i < |text| - 1 :: text[i] == '\n' && text[i + 1] == '\n'
  }

  predicate EndsInNewline(text: string) {
    text != [] && text[|text| - 1] == '\n'
  }

  /** Each closed frame stops at the first blank line, and no blank line is left in the tail. */
  predicate CutAtBlankLines(frames: seq<string>) {
    forall i | 0 <= i < |frames| :: !HasBlankLine(frames[i]) && (i < |frames| - 1 ==> !EndsInNewline(frames[i]))
  }

  lemma FirstFrame(text: string)
    ensures var frame := SplitFrames(text)[0];
      && (frame != [] ==> text != [] && frame[0] == text[0])
      && (frame == [] && |SplitFrames(text)| > 1 ==> |text| >= 2 && text[0] == text[1] == '\n')
  {
  }

  /** No blank line is overlooked, the one at the very end of the text included. */
  lemma {:induction false} SplitCutsAtBlankLines(text: string)
    ensures CutAtBlankLines(SplitFrames(text))
  {
    if text == [] {
    } else if |text| >= 2 && text[0] == '\n' && text[1] == '\n' {
      SplitCutsAtBlankLines(text[2..]);
    } else {
      var frames := SplitFrames(text[1..]);
      SplitCutsAtBlankLines(text[1..]);
      FirstFrame(text[1..]);
      GrownFrame(text[0], frames[0]);
      hide HasBlankLine;
      forall i | 0 < i < |frames|
        ensures SplitFrames(text)[i] == frames[i]
      {
      }
    }
  }

  lemma GrownFrame(c: char, frame: string)
    requires !HasBlankLine(frame)
    ensures HasBlankLine([c] + frame) <==> c == '\n' && frame != [] && frame[0] == '\n'
    ensures EndsInNewline([c] + frame) <==> if frame == [] then c == '\n' else EndsInNewline(frame)
  {
    var grown := [c] + frame;
    forall i | 0 <= i < |grown| - 1
      ensures grown[i] == '\n' && grown[i + 1] == '\n' <==> i == 0 && c == '\n' && frame[0] == '\n'
    {
      assert i > 0 ==> grown[i] == frame[i - 1] && grown[i + 1] == frame[i];
    }
    if c == '\n' && frame != [] && frame[0] == '\n' {
      assert grown[0] == '\n' && grown[1] == '\n';
    }
  }

  /** Nothing else is such a cut of the text: the two rules fix the frames. */
  lemma {:induction false} OnlyOneCut(frames: seq<string>, text: string)
    requires frames != [] && CutAtBlankLines(frames) && Join(frames, "\n\n") == text
    ensures frames == SplitFrames(text)
    decreases |text|
  {
    if text == [] {
      assert |frames| == 1 && frames == [[]];
    } else if frames[0] == [] {
      assert |frames| > 1 && text == "\n\n" + Join(frames[1..], "\n\n");
      assert text[2..] == Join(frames[1..], "\n\n");
      OnlyOneCut(frames[1..], text[2..]);
    } else {
      var c, rest := frames[0][0], [frames[0][1..]] + frames[1..];
      assert frames[0] == [c] + frames[0][1..] && Grow(c, rest) == frames;
      JoinGrow(c, rest, "\n\n");
      assert text[0] == c && text[1..] == Join(rest, "\n\n");
      ShrunkCut(frames);
      OnlyOneCut(rest, text[1..]);
      NoBoundaryHere(frames, text);
    }
  }

  lemma ShrunkFrame(frame: string)
    requires frame != [] && !HasBlankLine(frame)
    ensures !HasBlankLine(frame[1..]) && (EndsInNewline(frame[1..]) ==> EndsInNewline(frame))
  {
    forall i | 0 <= i < |frame[1..]| - 1
      ensures !(frame[1..][i] == '\n' && frame[1..][i + 1] == '\n')
    {
      assert frame[1..][i] == frame[i + 1] && frame[1..][i + 1] == frame[i + 2];
    }
  }

  lemma ShrunkCut(frames: seq<string>)
    requires frames != [] && frames[0] != [] && CutAtBlankLines(frames)
    ensures CutAtBlankLines([frames[0][1..]] + frames[1..])
  {
    hide HasBlankLine, EndsInNewline;
    ShrunkFrame(frames[0]);
  }

  /** A text that starts with a non-empty frame of a cut does not start with a blank line. */
  lemma NoBoundaryHere(frames: seq<string>, text: string)
    requires frames != [] && frames[0] != [] && CutAtBlankLines(frames) && Join(frames, "\n\n") == text
    ensures !(|text| >= 2 && text[0] == '\n' && text[1] == '\n')
  {
    var frame := frames[0];
    assert !HasBlankLine(frame);
    if |frame| > 1 {
      assert text[0] == frame[0] && text[1] == frame[1];
    } else {
      assert text[0] == frame[0];
      assert |frames| > 1 ==> !EndsInNewline(frame);
    }
  }

  lemma {:induction false} JoinInit(frames: seq<string>, sep: string)
    requires |frames| > 1
    ensures Join(frames, sep) == Join(Init(frames), sep) + sep + Last(frames)
  {
    if |frames| == 2 {
      assert Init(frames) == [frames[0]] && frames[1..] == [frames[1]];
    } else {
      JoinInit(frames[1..], sep);
      assert Init(frames)[1..] == Init(frames[1..]) && Last(frames) == Last(frames[1..]);
      var middle := Join(Init(frames[1..]), sep);
      assert frames[0] + sep + (middle + sep + Last(frames)) == frames[0] + sep + middle + sep + Last(frames);
    }
  }

  /** The closed part of a text is all of it but the tail, and stops right after a blank line. */
  lemma ClosedPart(text: string)
    ensures var n := |text| - |OpenTail(text)|;
      && n >= 0 && text == text[..n] + OpenTail(text)
      && if |SplitFrames(text)| == 1 then n == 0
         else text[..n] == Join(ClosedFrames(text), "\n\n") + "\n\n" && EndsWith(text[..n], "\n\n")
  {
    hide SplitFrames, Join;
    JoinFrames(text);
    if |SplitFrames(text)| == 1 {
      SingleFrame(text);
    } else {
      JoinInit(SplitFrames(text), "\n\n");
      var closed := Join(ClosedFrames(text), "\n\n") + "\n\n";
      assert text == closed + OpenTail(text);
      assert text[..|closed|] == closed;
    }
  }

  // ------------------------------------------------------- events of a text

  function LineEvents<E>(line: string, parse: string -> Option<E>): seq<E> {
    if !StartsWith(line, "data:") then []
    else
      var payload := Trim(line[5..]);
      if payload == [] then []
      else
        match parse(payload)
        case Some(event) => [event]
        case None => []
  }

  function EventsByLine<E>(lines: seq<string>, parse: string -> Option<E>): (r: seq<seq<E>>)
    ensures |r| == |lines|
    ensures forall i | 0 <= i < |r| :: r[i] == LineEvents(lines[i], parse)
  {
    seq(|lines|, i requires 0 <= i < |lines| => LineEvents(lines[i], parse))
  }

  function LinesEvents<E>(lines: seq<string>, parse: string -> Option<E>): seq<E> {
    Flatten(EventsByLine(lines, parse))
  }

  /** What `emit` delivers for a piece of text: one event per readable `data:` line. */
  function TextEvents<E>(text: string, parse: string -> Option<E>): seq<E> {
    LinesEvents(Split(text, '\n'), parse)
  }

  function EventsByFrame<E>(frames: seq<string>, parse: string -> Option<E>): (r: seq<seq<E>>)
    ensures |r| == |frames|
    ensures forall i | 0 <= i < |r| :: r[i] == TextEvents(frames[i], parse)
  {
    seq(|frames|, i requires 0 <= i < |frames| => TextEvents(frames[i], parse))
  }

  function FramesEvents<E>(frames: seq<string>, parse: string -> Option<E>): seq<E> {
    Flatten(EventsByFrame(frames, parse))
  }

  lemma LinesEventsAppend<E>(a: seq<string>, b: seq<string>, parse: string -> Option<E>)
    ensures LinesEvents(a + b, parse) == LinesEvents(a, parse) + LinesEvents(b, parse)
  {
    hide LineEvents;
    assert EventsByLine(a + b, parse) == EventsByLine(a, parse) + EventsByLine(b, parse);
    FlattenAppend(EventsByLine(a, parse), EventsByLine(b, parse));
  }

  lemma LinesEventsOne<E>(line: string, parse: string -> Option<E>)
    ensures LinesEvents([line], parse) == LineEvents(line, parse)
  {
    assert EventsByLine([line], parse) == [LineEvents(line, parse)];
    FlattenOne(LineEvents(line, parse));
  }

  lemma FramesEventsAppend<E>(a: seq<string>, b: seq<string>, parse: string -> Option<E>)
    ensures FramesEvents(a + b, parse) == FramesEvents(a, parse) + FramesEvents(b, parse)
  {
    hide TextEvents;
    assert EventsByFrame(a + b, parse) == EventsByFrame(a, parse) + EventsByFrame(b, parse);
    FlattenAppend(EventsByFrame(a, parse), EventsByFrame(b, parse));
  }

  lemma FramesEventsOne<E>(frame: string, parse: string -> Option<E>)
    ensures FramesEvents([frame], parse) == TextEvents(frame, parse)
  {
    assert EventsByFrame([frame], parse) == [TextEvents(frame, parse)];
    FlattenOne(TextEvents(frame, parse));
  }

  lemma EmptyTextIsSilent<E>(parse: string -> Option<E>)
    ensures TextEvents("", parse) == []
  {
    LinesEventsOne("", parse);
  }

  lemma TextEventsAcrossNewline<E>(a: string, b: string, parse: string -> Option<E>)
    ensures TextEvents(a + "\n" + b, parse) == TextEvents(a, parse) + TextEvents(b, parse)
  {
    SplitAppend(a, b, '\n');
    LinesEventsAppend(Split(a, '\n'), Split(b, '\n'), parse);
  }

  /** Delivering frame by frame is delivering the whole text at once. */
  lemma {:induction false} FramesEventsOfText<E>(text: string, parse: string -> Option<E>)
    ensures FramesEvents(SplitFrames(text), parse) == TextEvents(text, parse)
  {
    var frames := SplitFrames(text);
    JoinFrames(text);
    FramesEventsOfJoin(frames, parse);
  }

  lemma {:induction false} JoinFrames(text: string)
    ensures Join(SplitFrames(text), "\n\n") == text
  {
    if text == [] {
    } else if |text| >= 2 && text[0] == '\n' && text[1] == '\n' {
      JoinFrames(text[2..]);
      var rest := SplitFrames(text[2..]);
      assert ([[]] + rest)[1..] == rest;
      assert text == "\n\n" + text[2..];
    } else {
      JoinFrames(text[1..]);
      JoinGrow(text[0], SplitFrames(text[1..]), "\n\n");
      assert text == [text[0]] + text[1..];
    }
  }

  lemma JoinGrow(c: char, frames: seq<string>, sep: string)
    requires frames != []
    ensures Join(Grow(c, frames), sep) == [c] + Join(frames, sep)
  {
    var grown := Grow(c, frames);
    assert grown[0] == [c] + frames[0] && grown[1..] == frames[1..];
    if |frames| > 1 {
      Assoc([c], frames[0], sep);
      Assoc([c], frames[0] + sep, Join(frames[1..], sep));
    }
  }

  lemma {:induction false} FramesEventsOfJoin<E>(frames: seq<string>, parse: string -> Option<E>)
    requires frames != []
    ensures FramesEvents(frames, parse) == TextEvents(Join(frames, "\n\n"), parse)
  {
    FramesEventsOne(frames[0], parse);
    if |frames| == 1 {
      assert frames == [frames[0]];
    } else {
      assert frames == [frames[0]] + frames[1..];
      FramesEventsAppend([frames[0]], frames[1..], parse);
      FramesEventsOfJoin(frames[1..], parse);
      TextEventsAcrossBlankLine(frames[0], Join(frames[1..], "\n\n"), parse);
    }
  }

  lemma TextEventsAcrossBlankLine<E>(a: string, b: string, parse: string -> Option<E>)
    ensures TextEvents(a + "\n\n" + b, parse) == TextEvents(a, parse) + TextEvents(b, parse)
  {
    assert a + "\n\n" + b == a + "\n" + ("" + "\n" + b);
    TextEventsAcrossNewline(a, "" + "\n" + b, parse);
    TextEventsAcrossNewline("", b, parse);
    EmptyTextIsSilent(parse);
  }

  /** A blank tail holds no `data:` line, so skipping it loses nothing. */
  lemma {:induction false} BlankTextIsSilent<E>(text: string, parse: string -> Option<E>)
    requires Blank(text)
    ensures TextEvents(text, parse) == []
  {
    var lines := Split(text, '\n');
    BlankLines(text);
    LinesWithoutData(lines, parse);
  }

  lemma {:induction false} BlankLines(text: string)
    requires Blank(text)
    ensures forall i | 0 <= i < |Split(text, '\n')| :: Blank(Split(text, '\n')[i])
  {
    if text != [] {
      BlankLines(text[1..]);
    }
  }

  lemma {:induction false} LinesWithoutData<E>(lines: seq<string>, parse: string -> Option<E>)
    requires forall i | 0 <= i < |lines| :: Blank(lines[i])
    ensures LinesEvents(lines, parse) == []
  {
    if lines != [] {
      LinesWithoutData(lines[1..], parse);
      LinesEventsOne(lines[0], parse);
      LinesEventsAppend([lines[0]], lines[1..], parse);
      assert lines == [lines[0]] + lines[1..];
      if StartsWith(lines[0], "data:") {
        DataLineIsNotBlank(lines[0]);
      }
    }
  }

  lemma DataLineIsNotBlank(line: string)
    requires StartsWith(line, "data:")
    ensures !Blank(line)
  {
    assert line[0] == line[..5][0] == 'd';
  }

  // ------------------------------------------------------------- the client

  /** The `emit` closure; the events it hands to `onEvent` are returned. */
  method Emit<E>(frame: string, parse: string -> Option<E>) returns (events: seq<E>)
    ensures events == TextEvents(frame, parse)
  {
    events := [];
    var lines := Split(frame, '\n');
    for i := 0 to |lines|
      invariant events == LinesEvents(lines[..i], parse)
    {
      var line := lines[i];
      assert lines[..i + 1] == lines[..i] + [line];
      LinesEventsAppend(lines[..i], [line], parse);
      LinesEventsOne(line, parse);
      if !StartsWith(line, "data:") {
        continue;
      }
      var payload := Trim(line[5..]);
      if payload == [] {
        continue;
      }
      var parsed := parse(payload);
      if parsed.Some? {
        events := events + [parsed.value];
      }
    }
    assert lines[..|lines|] == lines;
  }

  method EmitAll<E>(frames: seq<string>, parse: string -> Option<E>) returns (events: seq<E>)
    ensures events == FramesEvents(frames, parse)
  {
    events := [];
    for i := 0 to |frames|
      invariant events == FramesEvents(frames[..i], parse)
    {
      var emitted := Emit(frames[i], parse);
      events := events + emitted;
      assert frames[..i + 1] == frames[..i] + [frames[i]];
      FramesEventsAppend(frames[..i], [frames[i]], parse);
      FramesEventsOne(frames[i], parse);
    }
    assert frames[..|frames|] == frames;
  }

  lemma ReadStep<E>(received: string, chunk: string, parse: string -> Option<E>)
    ensures OpenTail(received + chunk) == OpenTail(OpenTail(received) + chunk)
    ensures FramesEvents(ClosedFrames(received + chunk), parse)
         == FramesEvents(ClosedFrames(received), parse) + FramesEvents(ClosedFrames(OpenTail(received) + chunk), parse)
  {
    var frames := SplitFrames(OpenTail(received) + chunk);
    SplitFramesExtends(received, chunk);
    assert Init(ClosedFrames(received) + frames) == ClosedFrames(received) + Init(frames);
    FramesEventsAppend(ClosedFrames(received), Init(frames), parse);
  }

  /**
   * What has been shown and what is buffered of a text, told on its characters: everything up to some blank
   * line (or nothing) has been shown, the rest is buffered, and no blank line is in it.
   */
  ghost predicate ShownSoFar<E>(text: string, buffer: string, events: seq<E>, parse: string -> Option<E>) {
    && !HasBlankLine(buffer)
    && exists n :: 0 <= n <= |text| && text == text[..n] + buffer && events == TextEvents(text[..n], parse)
                   && (n > 0 ==> EndsWith(text[..n], "\n\n"))
  }

  lemma ClosedFramesAreShown<E>(text: string, parse: string -> Option<E>)
    ensures ShownSoFar(text, OpenTail(text), FramesEvents(ClosedFrames(text), parse), parse)
  {
    SplitCutsAtBlankLines(text);
    ClosedPart(text);
    var frames := SplitFrames(text);
    var n := |text| - |OpenTail(text)|;
    hide SplitFrames, TextEvents;
    if |frames| == 1 {
      assert ClosedFrames(text) == [] && text[..n] == "";
      EmptyTextIsSilent(parse);
      assert EventsByFrame([], parse) == [];
    } else {
      FramesEventsOfJoin(ClosedFrames(text), parse);
      var closed := Join(ClosedFrames(text), "\n\n");
      TextEventsAcrossBlankLine(closed, "", parse);
      EmptyTextIsSilent(parse);
      assert closed + "\n\n" + "" == closed + "\n\n";
    }
  }

  /** A text that has just been closed by a blank line is shown completely, without waiting for more. */
  lemma ClosedTextIsShown<E>(text: string, buffer: string, events: seq<E>, parse: string -> Option<E>)
    requires ShownSoFar(text, buffer, events, parse) && EndsWith(text, "\n\n")
    ensures events == TextEvents(text, parse) && (buffer == "" || buffer == "\n")
  {
    hide TextEvents;
    var n :| 0 <= n <= |text| && text == text[..n] + buffer && events == TextEvents(text[..n], parse)
             && (n > 0 ==> EndsWith(text[..n], "\n\n"));
    var m := |text|;
    assert text[m - 2..][0] == '\n' && text[m - 2..][1] == '\n';
    assert forall k | 0 <= k < |buffer| :: buffer[k] == text[m - |buffer| + k];
    if |buffer| >= 2 {
      assert false;
    }
    if |buffer| == 1 {
      assert buffer[0] == text[m - 1];
      assert text == text[..n] + "\n" + "";
      TextEventsAcrossNewline(text[..n], "", parse);
      EmptyTextIsSilent(parse);
    } else {
      assert text[..n] == text;
    }
  }

  /**
   * The read loop. Whatever the chunk boundaries were, after any number of chunks exactly the
   * closed frames of the text received so far have been delivered, and the open tail is kept.
   */
  method ReadChunks<E>(chunks: seq<string>, parse: string -> Option<E>) returns (buffer: string, events: seq<E>)
    ensures buffer == OpenTail(Flatten(chunks))
    ensures events == FramesEvents(ClosedFrames(Flatten(chunks)), parse)
    ensures ShownSoFar(Flatten(chunks), buffer, events, parse)
    ensures EndsWith(Flatten(chunks), "\n\n") ==> events == TextEvents(Flatten(chunks), parse)
  {
    buffer, events := "", [];
    for i := 0 to |chunks|
      invariant buffer == OpenTail(Flatten(chunks[..i]))
      invariant events == FramesEvents(ClosedFrames(Flatten(chunks[..i])), parse)
    {
      ReadStep(Flatten(chunks[..i]), chunks[i], parse);
      FlattenPrefix(chunks, i);
      buffer := buffer + chunks[i];
      var frames := SplitFrames(buffer);
      buffer := Last(frames);
      var emitted := EmitAll(Init(frames), parse);
      events := events + emitted;
    }
    assert chunks[..|chunks|] == chunks;
    ClosedFramesAreShown(Flatten(chunks), parse);
    if EndsWith(Flatten(chunks), "\n\n") {
      ClosedTextIsShown(Flatten(chunks), buffer, events, parse);
    }
  }

  /** A response body: no reader available, or a reader and the chunks it returned. */
  datatype Body = WholeText(text: string) | Chunked(chunks: seq<string>)

  function BodyText(body: Body): string {
    match body
    case WholeText(text) => text
    case Chunked(chunks) => Flatten(chunks)
  }

  /** Chunk independence: the reader path delivers what the no-reader path delivers on the whole text. */
  method AssistantChatStream<E>(body: Body, parse: string -> Option<E>) returns (events: seq<E>)
    ensures events == TextEvents(BodyText(body), parse)
  {
    if body.WholeText? {
      events := Emit(body.text, parse);
      return;
    }
    hide TextEvents, FramesEvents, SplitFrames, Trim;
    var buffer;
    buffer, events := ReadChunks(body.chunks, parse);
    LastFrame(Flatten(body.chunks), parse);
    TrimEmptyIffBlank(buffer);
    if Trim(buffer) != [] {
      var emitted := Emit(buffer, parse);
      events := events + emitted;
    } else {
      BlankTextIsSilent(buffer, parse);
    }
  }

  lemma LastFrame<E>(text: string, parse: string -> Option<E>)
    ensures FramesEvents(ClosedFrames(text), parse) + TextEvents(OpenTail(text), parse) == TextEvents(text, parse)
  {
    hide TextEvents, FramesEvents, SplitFrames;
    var frames := SplitFrames(text);
    assert frames == Init(frames) + [Last(frames)];
    FramesEventsAppend(Init(frames), [Last(frames)], parse);
    FramesEventsOne(Last(frames), parse);
    FramesEventsOfText(text, parse);
  }

  /**
   * A stream cut off after any of its chunks has shown a prefix of what the complete stream
   * shows: no event is ever shown and then superseded.
   */
  lemma DeliveryIsPrefix<E>(received: string, rest: string, parse: string -> Option<E>)
    ensures FramesEvents(ClosedFrames(received), parse) <= TextEvents(received + rest, parse)
  {
    SplitFramesExtends(received, rest);
    FramesEventsAppend(ClosedFrames(received), SplitFrames(OpenTail(received) + rest), parse);
    FramesEventsOfText(received + rest, parse);
  }

  // ------------------------------------------------------------- the server

  function Frame<E>(event: E, encode: E -> string): string {
    "data: " + encode(event) + "\n\n"
  }

  function Wire<E>(events: seq<E>, encode: E -> string): seq<string> {
    seq(|events|, i requires 0 <= i < |events| => Frame(events[i], encode))
  }

  /** What the provider produced, closed by one error event when it broke off. */
  function Sent<E>(first: Option<E>, rest: seq<E>, failure: Option<E>): seq<E> {
    (if first.Some? then [first.value] else []) + rest + (if failure.Some? then [failure.value] else [])
  }

  /** The first event and the others, in order, and one more only when the iterator raised: its error event, last. */
  ghost predicate InOrder<E>(shown: seq<E>, first: Option<E>, rest: seq<E>, failure: Option<E>) {
    var h := if first.Some? then 1 else 0;
    && |shown| == h + |rest| + (if failure.Some? then 1 else 0)
    && (first.Some? ==> shown[0] == first.value)
    && (forall i | 0 <= i < |rest| :: shown[h + i] == rest[i])
    && (failure.Some? ==> shown[|shown| - 1] == failure.value)
  }

  lemma SentInOrder<E>(first: Option<E>, rest: seq<E>, failure: Option<E>)
    ensures InOrder(Sent(first, rest, failure), first, rest, failure)
  {
  }

  /**
   * `generate()`: the event pulled before the response started, then the iterator, then one
   * error event if the iterator raised (`failure` is the event made from that exception).
   */
  method Generate<E>(first: Option<E>, rest: seq<E>, failure: Option<E>, encode: E -> string)
    returns (wire: seq<string>)
    ensures wire == Wire(Sent(first, rest, failure), encode)
  {
    wire := [];
    if first.Some? {
      wire := wire + [Frame(first.value, encode)];
    }
    ghost var head := if first.Some? then [first.value] else [];
    for i := 0 to |rest|
      invariant wire == Wire(head + rest[..i], encode)
    {
      wire := wire + [Frame(rest[i], encode)];
      assert head + rest[..i + 1] == head + rest[..i] + [rest[i]];
    }
    assert rest[..|rest|] == rest;
    if failure.Some? {
      wire := wire + [Frame(failure.value, encode)];
    } else {
      assert Sent(first, rest, failure) == head + rest;
    }
  }

  /** A serialised event is one non-empty trimmed line that parses back to the event. */
  ghost predicate FaithfulOn<E>(e: E, encode: E -> string, parse: string -> Option<E>) {
    && encode(e) != []
    && '\n' !in encode(e)
    && Trimmed(encode(e))
    && parse(encode(e)) == Some(e)
  }

  lemma FrameDecodes<E>(e: E, encode: E -> string, parse: string -> Option<E>)
    requires FaithfulOn(e, encode, parse)
    ensures TextEvents("data: " + encode(e), parse) == [e]
  {
    var line := "data: " + encode(e);
    SplitNone(line, '\n');
    assert line[..5] == "data:";
    assert line[5..] == " " + encode(e);
    TrimPadded(encode(e));
    LinesEventsOne(line, parse);
  }

  lemma TrimPadded(s: string)
    requires Trimmed(s)
    ensures Trim(" " + s) == s
  {
    assert (" " + s)[1..] == s;
    TrimFixesTrimmed(s);
  }

  /** A `data:` line shows what its payload parses to, whatever blanks stand around it, and any other line nothing. */
  lemma LinesShowTheirPayload<E>(before: string, payload: string, after: string, parse: string -> Option<E>)
    requires Trimmed(payload) && payload != [] && Blank(before) && Blank(after)
    ensures LineEvents("data:" + (before + payload + after), parse)
         == match parse(payload) { case Some(event) => [event] case None => [] }
    ensures LineEvents("data:" + before, parse) == []
    ensures forall line | !StartsWith(line, "data:") :: LineEvents(line, parse) == []
  {
    var rest := before + payload + after;
    assert ("data:" + rest)[..5] == "data:" && ("data:" + rest)[5..] == rest;
    assert ("data:" + before)[..5] == "data:" && ("data:" + before)[5..] == before;
    TrimBetween(before, payload, after);
    TrimEmptyIffBlank(before);
  }

  /** Framing and decoding cancel out on every list of events. */
  lemma {:induction false} WireDecodes<E>(events: seq<E>, encode: E -> string, parse: string -> Option<E>)
    requires forall i | 0 <= i < |events| :: FaithfulOn(events[i], encode, parse)
    ensures TextEvents(Flatten(Wire(events, encode)), parse) == events
  {
    if events == [] {
      assert Wire(events, encode) == [];
      EmptyTextIsSilent(parse);
    } else {
      var rest := Flatten(Wire(events[1..], encode));
      assert Wire(events, encode) == [Frame(events[0], encode)] + Wire(events[1..], encode);
      WireDecodes(events[1..], encode, parse);
      var line := "data: " + encode(events[0]);
      assert Flatten(Wire(events, encode)) == line + "\n\n" + rest;
      TextEventsAcrossBlankLine(line, rest, parse);
      FrameDecodes(events[0], encode, parse);
    }
  }

  /**
   * End to end: under any re-chunking of the bytes the Bridge wrote, the client shows exactly the
   * provider's events in order, followed by one error event exactly when the provider broke off.
   */
  method EndToEnd<E>(first: Option<E>, rest: seq<E>, failure: Option<E>, encode: E -> string,
                     parse: string -> Option<E>, chunks: seq<string>) returns (shown: seq<E>)
    requires forall i | 0 <= i < |Sent(first, rest, failure)| :: FaithfulOn(Sent(first, rest, failure)[i], encode, parse)
    requires Flatten(chunks) == Flatten(Wire(Sent(first, rest, failure), encode))
    ensures shown == Sent(first, rest, failure) && InOrder(shown, first, rest, failure)
  {
    SentInOrder(first, rest, failure);
    WireDecodes(Sent(first, rest, failure), encode, parse);
    shown := AssistantChatStream(Chunked(chunks), parse);
  }
}
