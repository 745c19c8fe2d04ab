/** The server-sent-events reader of packages/sdk/src/sse.ts.

    The byte stream arrives as a sequence of chunks; each chunk is the text
    that the streaming UTF-8 decoder yields for it. Events are separated by
    the first blank line ("\n\n") in what has been buffered; the event's
    lines are split on "\n" or "\r\n"; every line that starts with "data:"
    contributes its rest, with leading white space removed; the
    contributions are joined with "\n"; an event whose data is empty is
    skipped, and text after the last separator is dropped. */
module Sse {
  import opened Base

  datatype SseEvent = SseEvent(data: string)

  /** Whether a blank-line separator "\n\n" starts at index `i` of `s`. */
  predicate BoundaryAt(s: string, i: int)
  {
    0 <= i && i + 1 < |s| && s[i] == '\n' && s[i + 1] == '\n'
  }

  /** `buffer.indexOf('\n\n', from)`. */
  function FindBoundaryFrom(s: string, from: nat): (r: Option<nat>)
    ensures r.Some? ==> from <= r.value && BoundaryAt(s, r.value)
    decreases |s| - from
  {
    if from + 1 >= |s| then None
    else if BoundaryAt(s, from) then Some(from)
    else FindBoundaryFrom(s, from + 1)
  }

  /** `buffer.indexOf('\n\n')`: the first separator, if any. */
  function FindBoundary(s: string): (r: Option<nat>)
    ensures r.Some? ==> BoundaryAt(s, r.value)
  {
    FindBoundaryFrom(s, 0)
  }

  lemma {:induction false} FindBoundaryFromFirst(s: string, from: nat)
    ensures FindBoundaryFrom(s, from).Some? ==> forall i :: from <= i < FindBoundaryFrom(s, from).value ==> !BoundaryAt(s, i)
    ensures FindBoundaryFrom(s, from).None? ==> forall i :: from <= i ==> !BoundaryAt(s, i)
    decreases |s| - from
  {
    if from + 1 < |s| && !BoundaryAt(s, from) {
      FindBoundaryFromFirst(s, from + 1);
    }
  }

  /** The separator found is the first one, and none is found only when
      there is none. */
  lemma {:induction false} FindBoundaryFirst(s: string)
    ensures FindBoundary(s).Some? ==> forall i :: 0 <= i < FindBoundary(s).value ==> !BoundaryAt(s, i)
    ensures FindBoundary(s).None? ==> forall i :: !BoundaryAt(s, i)
  {
    FindBoundaryFromFirst(s, 0);
  }

  /** Only "\n\n" separates events: a block ended by a CRLF blank line has
      no separator, so it stays in the buffer and yields nothing. */
  lemma {:induction false} CrLfBlankLineNoBoundary(x: string)
    requires '\n' !in x
    ensures FindBoundary(x + "\r\n\r\n").None?
    ensures Events(x + "\r\n\r\n") == []
  {
    var s := x + "\r\n\r\n";
    forall i | 0 <= i < |s| - 1 ensures !BoundaryAt(s, i) {
      if i < |x| {
        assert s[i] == x[i];
      } else {
        assert s[i + 1] == "\r\n\r\n"[i + 1 - |x|];
      }
    }
  }

  lemma {:induction false} FindBoundaryFromExtend(a: string, b: string, from: nat)
    requires FindBoundaryFrom(a, from).Some?
    ensures FindBoundaryFrom(a + b, from) == FindBoundaryFrom(a, from)
    decreases |a| - from
  {
    assert BoundaryAt(a + b, from) == BoundaryAt(a, from);
    if !BoundaryAt(a, from) {
      FindBoundaryFromExtend(a, b, from + 1);
    }
  }

  /** A separator found in a prefix is the first separator of any extension. */
  lemma {:induction false} FindBoundaryExtend(a: string, b: string)
    requires FindBoundary(a).Some?
    ensures FindBoundary(a + b) == FindBoundary(a)
  {
    FindBoundaryFromExtend(a, b, 0);
  }

  /** `s.indexOf('\n')`. */
  function IndexOfNewline(s: string): (r: Option<nat>)
    ensures r.Some? ==> r.value < |s| && s[r.value] == '\n' && '\n' !in s[..r.value]
    ensures r.None? ==> '\n' !in s
  {
    if s == [] then None
    else if s[0] == '\n' then Some(0)
    else
      var r := IndexOfNewline(s[1..]);
      if r.Some? then
        assert s[..r.value + 1] == [s[0]] + s[1..][..r.value];
        Some(r.value + 1)
      else
        assert s == [s[0]] + s[1..];
        None
  }

  lemma {:induction false} IndexOfNewlineNone(s: string)
    requires '\n' !in s
    ensures IndexOfNewline(s).None? && SplitLines(s) == [s]
  {
  }

  lemma {:induction false} IndexOfNewlineIs(s: string, n: nat)
    requires n < |s| && s[n] == '\n' && '\n' !in s[..n]
    ensures IndexOfNewline(s) == Some(n)
  {
  }

  /** The carriage return of a "\r\n" separator belongs to the separator. */
  function DropCarriageReturn(p: string): (r: string)
    ensures '\n' !in p ==> '\n' !in r
    ensures '\r' !in p ==> r == p
  {
    if p != [] && p[|p| - 1] == '\r' then p[..|p| - 1] else p
  }

  /** `rawEvent.split(/\r?\n/)`: the lines between separators, none of
      which contains a line feed; there is always at least one. */
  function SplitLines(s: string): (r: seq<string>)
    ensures |r| >= 1
    ensures forall k :: 0 <= k < |r| ==> '\n' !in r[k]
    decreases |s|
  {
    match IndexOfNewline(s)
    case None => [s]
    case Some(i) => [DropCarriageReturn(s[..i])] + SplitLines(s[i + 1..])
  }

  /** The first line feed ends the first line. */
  lemma {:induction false} SplitLinesFirst(p: string, rest: string)
    requires '\n' !in p
    ensures SplitLines(p + "\n" + rest) == [DropCarriageReturn(p)] + SplitLines(rest)
  {
    var s := p + "\n" + rest;
    assert s[..|p|] == p;
    IndexOfNewlineIs(s, |p|);
    assert s[|p| + 1..] == rest;
  }

  /** Text without carriage returns splits into lines that join back to it. */
  lemma {:induction false} SplitLinesJoin(s: string)
    requires '\r' !in s
    ensures Join(SplitLines(s), "\n") == s
    decreases |s|
  {
    match IndexOfNewline(s)
    case None =>
    case Some(i) =>
      var head, tail := s[..i], s[i + 1..];
      assert s == head + "\n" + tail;
      assert '\r' !in head && '\r' !in tail by {
        forall c | c in head || c in tail ensures c in s { }
      }
      assert SplitLines(s) == [head] + SplitLines(tail);
      SplitLinesJoin(tail);
      JoinCons(head, SplitLines(tail), "\n");
  }

  /** Joining a part in front of at least one more adds it and the separator. */
  lemma {:induction false} JoinCons(p: string, rest: seq<string>, sep: string)
    requires rest != []
    ensures Join([p] + rest, sep) == p + sep + Join(rest, sep)
  {
    assert ([p] + rest)[1..] == rest;
  }

  /** What one line contributes: the text after "data:" with leading white
      space removed, when the line is a data line. */
  function DataOf(line: string): (r: seq<string>)
    ensures |r| <= 1
    ensures r != [] <==> StartsWith(line, "data:")
    ensures r != [] ==> r[0] == TrimStart(line[5..]) && (r[0] == [] || !IsJsWhitespace(r[0][0]))
  {
    if StartsWith(line, "data:") then [TrimStart(line[5..])] else []
  }

  /** The `for (const line of lines)` loop: the contributions of the lines,
      in order. */
  function DataLines(lines: seq<string>): (r: seq<string>)
    ensures |r| <= |lines|
  {
    if lines == [] then [] else DataLines(lines[..|lines| - 1]) + DataOf(lines[|lines| - 1])
  }

  /** Adding a line at the end adds its contribution at the end. */
  lemma {:induction false} DataLinesSnoc(lines: seq<string>, line: string)
    ensures DataLines(lines + [line]) == DataLines(lines) + DataOf(line)
  {
    assert (lines + [line])[..|lines|] == lines;
  }

  /** Lines are considered one at a time: the data lines of two runs of
      lines are the data lines of each. */
  lemma {:induction false} DataLinesAppend(a: seq<string>, b: seq<string>)
    ensures DataLines(a + b) == DataLines(a) + DataLines(b)
    decreases |b|
  {
    if b == [] {
      assert a + b == a;
    } else {
      var b', last := b[..|b| - 1], b[|b| - 1];
      calc {
        DataLines(a + b);
        == { assert a + b == (a + b') + [last]; DataLinesSnoc(a + b', last); }
        DataLines(a + b') + DataOf(last);
        == { DataLinesAppend(a, b'); }
        (DataLines(a) + DataLines(b')) + DataOf(last);
        == { assert b == b' + [last]; DataLinesSnoc(b', last); }
        DataLines(a) + DataLines(b);
      }
    }
  }

  /** The `data` of one raw event. */
  function Payload(rawEvent: string): string
  {
    Join(DataLines(SplitLines(rawEvent)), "\n")
  }

  /** The event a raw event yields: none when its data is empty. */
  function Emit(data: string): (r: seq<SseEvent>)
    ensures |r| <= 1 && (r == [] <==> data == [])
    ensures r != [] ==> r[0].data == data
  {
    if data == [] then [] else [SseEvent(data)]
  }

  /** Every event the reader yields from the text `s`. */
  function Events(s: string): seq<SseEvent>
    decreases |s|
  {
    match FindBoundary(s)
    case None => []
    case Some(i) => Emit(Payload(s[..i])) + Events(s[i + 2..])
  }

  /** No event with empty data is ever yielded. */
  lemma {:induction false} EventsNonEmpty(s: string)
    ensures forall k :: 0 <= k < |Events(s)| ==> Events(s)[k].data != []
    decreases |s|
  {
    match FindBoundary(s)
    case None =>
    case Some(i) =>
      EventsNonEmpty(s[i + 2..]);
  }

  /** What stays in the buffer once every complete event has been taken:
      the text after the last separator, itself free of separators. */
  function Leftover(s: string): (r: string)
    ensures FindBoundary(r).None?
    decreases |s|
  {
    match FindBoundary(s)
    case None => s
    case Some(i) => Leftover(s[i + 2..])
  }

  /** Taking the first event off the text: a separator found in `buffer`
      is found in `buffer + rest` at the same place. */
  lemma {:induction false} EventsStep(buffer: string, rest: string)
    requires FindBoundary(buffer).Some?
    ensures var n := FindBoundary(buffer).value;
            Events(buffer + rest) == Emit(Payload(buffer[..n])) + Events(buffer[n + 2..] + rest)
  {
    var n := FindBoundary(buffer).value;
    FindBoundaryExtend(buffer, rest);
    assert (buffer + rest)[..n] == buffer[..n];
    assert (buffer + rest)[n + 2..] == buffer[n + 2..] + rest;
  }

  /** Splitting the stream anywhere: the events of `a + b` are the events
      complete within `a`, then those of what `a` leaves over followed by
      `b`. This is why reading chunk by chunk yields the events of the
      whole stream. */
  lemma {:induction false} EventsSplit(a: string, b: string)
    ensures Events(a + b) == Events(a) + Events(Leftover(a) + b)
    decreases |a|
  {
    if FindBoundary(a).Some? {
      var n := FindBoundary(a).value;
      var t := a[n + 2..];
      EventsUnfold(a);
      EventsStep(a, b);
      EventsSplit(t, b);
      Associative(Emit(Payload(a[..n])), Events(t), Events(Leftover(t) + b));
    }
  }

  /** One step of `Events` and `Leftover` on text holding a separator. */
  lemma {:induction false} EventsUnfold(a: string)
    requires FindBoundary(a).Some?
    ensures var n := FindBoundary(a).value;
            && Events(a) == Emit(Payload(a[..n])) + Events(a[n + 2..])
            && Leftover(a) == Leftover(a[n + 2..])
  {
  }

  lemma {:induction false} Associative(x: seq<SseEvent>, y: seq<SseEvent>, z: seq<SseEvent>)
    ensures x + (y + z) == (x + y) + z
  {
  }

  /** Events are final once read: more text can only add events after
      those already found. */
  lemma {:induction false} EventsExtend(a: string, b: string)
    ensures Events(a) <= Events(a + b)
  {
    EventsSplit(a, b);
  }

  /** The whole stream: the chunks concatenated. */
  function Concat(chunks: seq<string>): string
  {
    if chunks == [] then "" else chunks[0] + Concat(chunks[1..])
  }

  /** The body of the event loop after one raw event is cut off: its lines,
      the `for` loop over them, and the join. */
  method EventData(rawEvent: string) returns (data: string)
    ensures data == Payload(rawEvent)
  {
    var lines := SplitLines(rawEvent);
    var dataLines: seq<string> := [];
    for j := 0 to |lines|
      invariant dataLines == DataLines(lines[..j])
    {
      DataLinesSnoc(lines[..j], lines[j]);
      assert lines[..j + 1] == lines[..j] + [lines[j]];
      if StartsWith(lines[j], "data:") {
        dataLines := dataLines + [TrimStart(lines[j][5..])];
      }
    }
    assert lines[..|lines|] == lines;
    data := Join(dataLines, "\n");
  }

  /** The inner `while (true)` loop: cuts every complete event off the
      buffer, yielding those with data, and leaves what follows the last
      separator. */
  method TakeEvents(buffer0: string) returns (events: seq<SseEvent>, buffer: string)
    ensures events == Events(buffer0)
    ensures buffer == Leftover(buffer0)
  {
    events, buffer := [], buffer0;
    while true
      invariant events + Events(buffer) == Events(buffer0)
      invariant Leftover(buffer) == Leftover(buffer0)
      decreases |buffer|
    {
      var idx := FindBoundary(buffer);
      if idx.None? {
        break;
      }
      var rawEvent := buffer[..idx.value];
      EventsUnfold(buffer);
      buffer := buffer[idx.value + 2..];
      var data := EventData(rawEvent);
      Associative(events, Emit(data), Events(buffer));
      if |data| == 0 {
        assert events + Emit(data) == events;
        continue;
      }
      events := events + [SseEvent(data)];
    }
    assert events + Events(buffer) == events;
  }

  /** `parseSse`: the read loop, proved to yield exactly `Events` of the
      whole stream. */
  method ParseSse(chunks: seq<string>) returns (events: seq<SseEvent>)
    ensures events == Events(Concat(chunks))
  {
    events := [];
    var buffer := "";
    var k := 0;
    assert buffer + Concat(chunks[k..]) == Concat(chunks);
    while k < |chunks|
      invariant 0 <= k <= |chunks|
      invariant events + Events(buffer + Concat(chunks[k..])) == Events(Concat(chunks))
      invariant FindBoundary(buffer).None?
    {
      ConcatStep(chunks, k);
      ReadChunk(buffer, chunks[k], Concat(chunks[k + 1..]));
      var found;
      found, buffer := TakeEvents(buffer + chunks[k]);
      Associative(events, found, Events(buffer + Concat(chunks[k + 1..])));
      events := events + found;
      k := k + 1;
    }
    assert buffer + Concat(chunks[k..]) == buffer;
  }

  lemma {:induction false} ConcatStep(chunks: seq<string>, k: nat)
    requires k < |chunks|
    ensures Concat(chunks[k..]) == chunks[k] + Concat(chunks[k + 1..])
  {
    assert chunks[k..][1..] == chunks[k + 1..];
  }

  /** Reading one more chunk: the events of the buffered text and the rest
      of the stream are those complete once the chunk is buffered, then
      those of the leftover and the rest. */
  lemma {:induction false} ReadChunk(buffer: string, chunk: string, later: string)
    ensures Events(buffer + (chunk + later)) == Events(buffer + chunk) + Events(Leftover(buffer + chunk) + later)
  {
    assert buffer + (chunk + later) == (buffer + chunk) + later;
    EventsSplit(buffer + chunk, later);
  }

  /** Lines that contain no line feed, none but the last ending in a
      carriage return, split back out of their "\n"-joined text. */
  lemma {:induction false} SplitJoinedLines(ls: seq<string>)
    requires ls != []
    requires forall k :: 0 <= k < |ls| ==> '\n' !in ls[k]
    requires forall k :: 0 <= k < |ls| - 1 ==> ls[k] == [] || ls[k][|ls[k]| - 1] != '\r'
    ensures SplitLines(Join(ls, "\n")) == ls
  {
    if |ls| == 1 {
      assert Join(ls, "\n") == ls[0];
    } else {
      SplitLinesFirst(ls[0], Join(ls[1..], "\n"));
      SplitJoinedLines(ls[1..]);
      assert ls == [ls[0]] + ls[1..];
    }
  }

  /** The same for "\r\n" line endings: the carriage returns of the
      separators are dropped, whatever the lines end in. */
  lemma {:induction false} SplitCrLfLines(ls: seq<string>)
    requires ls != []
    requires forall k :: 0 <= k < |ls| ==> '\n' !in ls[k]
    ensures SplitLines(Join(ls, "\r\n")) == ls
  {
    if |ls| == 1 {
      assert Join(ls, "\r\n") == ls[0];
    } else {
      var p := ls[0] + "\r";
      var rest := Join(ls[1..], "\r\n");
      assert ls[0] + "\r\n" + rest == p + "\n" + rest;
      assert '\n' !in p;
      SplitLinesFirst(p, rest);
      assert DropCarriageReturn(p) == ls[0];
      SplitCrLfLines(ls[1..]);
      assert ls == [ls[0]] + ls[1..];
    }
  }

  /** The data of a single data line is the line's text after "data:" and
      the white space that follows it. */
  lemma {:induction false} SingleDataPayload(x: string)
    requires '\n' !in x && (x == [] || !IsJsWhitespace(x[0]))
    ensures Payload("data: " + x) == x
  {
    var line := "data: " + x;
    assert '\n' !in line by {
      forall c | c in line ensures c != '\n' {
        if c !in x { assert c in "data: "; }
      }
    }
    IndexOfNewlineNone(line);
    assert StartsWith(line, "data:") && line[5..] == " " + x;
    assert (" " + x)[1..] == x;
    assert SplitLines(line) == [line];
    assert DataOf(line) == [x];
    assert DataLines([line]) == DataLines([]) + DataOf(line);
  }

  /** One data line followed by a blank line is one event carrying the
      line's text; this is how the chat stream sends each chunk and its
      final "[DONE]". */
  lemma {:induction false} SingleDataEvent(x: string)
    requires x != [] && '\n' !in x && !IsJsWhitespace(x[0])
    ensures Events("data: " + x + "\n\n") == [SseEvent(x)]
  {
    var line := "data: " + x;
    var s := line + "\n\n";
    var n := |line|;
    assert forall i :: 0 <= i < n ==> !BoundaryAt(s, i) by {
      forall i | 0 <= i < n ensures !BoundaryAt(s, i) {
        assert s[i] == line[i];
        if i >= 6 { assert line[i] == x[i - 6]; }
      }
    }
    assert BoundaryAt(s, n);
    FindBoundaryFirst(s);
    assert FindBoundary(s) == Some(n);
    assert s[..n] == line;
    assert Events(s) == Emit(Payload(line)) + Events(s[n + 2..]);
    SingleDataPayload(x);
    assert s[n + 2..] == [];
  }
}
