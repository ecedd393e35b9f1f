/** The stream observer of the telemetry proxy (internal/llmtelemetry/proxy.go).

    Bytes are characters of a string. Decoding JSON and trimming white space are the library's: they
    are parameters (`Library`). A stream is cut into lines by a definition that knows nothing of
    chunks or buffers (`Cut`), and the observer is proved to act on exactly those lines. */
module StreamObserver {
  import opened Common
  import opened LineSplitting

  const MAX_PENDING := 65536
  const DATA_PREFIX := "data:"
  const DONE_MARK := "[DONE]"

  // ----- the lines of a stream -----

  /** The lines the observer acts on: the complete ones that are not over-long. */
  function Observable(lines: seq<string>): seq<string> {
    if lines == [] then []
    else
      var last := lines[|lines| - 1];
      Observable(lines[..|lines| - 1]) + if |last| <= MAX_PENDING then [last] else []
  }

  function Delivered(stream: string): seq<string> {
    Observable(Cut(stream).complete)
  }

  /** What the observer must keep between chunks: the unfinished line, or only that it is over-long. */
  datatype Buffer = Buffer(pending: string, skipping: bool)

  function BufferAfter(stream: string): Buffer {
    var rest := Cut(stream).rest;
    if |rest| > MAX_PENDING then Buffer("", true) else Buffer(rest, false)
  }

  /** Reading on inside a line. */
  lemma WithinLine(stream: string, line: string)
    requires '\n' !in line
    ensures Delivered(stream + line) == Delivered(stream)
    ensures var b := BufferAfter(stream);
      BufferAfter(stream + line) ==
        if b.skipping || |b.pending| + |line| > 65536 then Buffer("", true) else Buffer(b.pending + line, false)
  {
    CutByByte(stream, line);
  }

  /** Reaching the end of a line. */
  lemma AtLineEnd(stream: string)
    ensures BufferAfter(stream + "\n") == Buffer("", false)
    ensures var b := BufferAfter(stream);
      Delivered(stream + "\n") == Delivered(stream) + if b.skipping then [] else [b.pending]
  {
    var lines := Cut(stream);
    CutAtNewline(stream, "");
    assert stream + "" + "\n" == stream + "\n" && lines.rest + "" == lines.rest;
    assert (lines.complete + [lines.rest])[..|lines.complete|] == lines.complete;
  }

  /** Of finished lines those are delivered that have at most 65536 bytes, in their order. */
  lemma {:induction false} ObservableOfBoth(a: seq<string>, b: seq<string>)
    ensures Observable(a + b) == Observable(a) + Observable(b)
  {
    if b == [] {
      assert a + b == a;
    } else {
      ObservableOfBoth(a, b[..|b| - 1]);
      assert (a + b)[..|a + b| - 1] == a + b[..|b| - 1];
    }
  }

  lemma ObservableOfOne(line: string)
    ensures Observable([line]) == if |line| <= 65536 then [line] else []
  {
    assert [line][..0] == [];
  }

  // ----- what a line means -----

  datatype ToolFunction = ToolFunction(name: string, arguments: string)

  datatype Choice = Choice(text: string, content: string, reasoning: string, tools: seq<string>)

  /** The decoded fields of a payload; `error` is the raw text of the field, empty when absent. */
  datatype Payload = Payload(error: string, choices: seq<Choice>)

  datatype Library = Library(
    trimSpace: string -> string,
    decode: string -> Option<Payload>,
    decodeTool: string -> Option<ToolFunction>)
  {
    predicate MeaningfulTool(raw: string) {
      var tool := decodeTool(raw);
      tool.Some? && (tool.value.name != "" || tool.value.arguments != "")
    }

    predicate HasOutput(c: Choice) {
      c.text != "" || c.content != "" || c.reasoning != "" || exists t | t in c.tools :: MeaningfulTool(t)
    }

    /** Only lines with the "data:" prefix are events at all. */
    predicate IsDone(line: string) {
      DATA_PREFIX <= line && trimSpace(line[5..]) == DONE_MARK
    }

    predicate IsData(line: string) {
      DATA_PREFIX <= line && !IsDone(line) && decode(trimSpace(line[5..])).Some?
    }

    predicate IsError(line: string) {
      IsData(line) && var e := decode(trimSpace(line[5..])).value.error; e != "" && e != "null"
    }

    predicate IsOutput(line: string) {
      IsData(line) && exists c | c in decode(trimSpace(line[5..])).value.choices :: HasOutput(c)
    }

    ghost predicate SawDone(lines: seq<string>) {
      exists l :: l in lines && IsDone(l)
    }

    ghost predicate SawError(lines: seq<string>) {
      exists l :: l in lines && IsError(l)
    }

    ghost predicate SawOutput(lines: seq<string>) {
      exists l :: l in lines && IsOutput(l)
    }
  }

  /** A line says something only after "data:". What follows says that all is done, or else is a payload; that
      fails when it has an error that is not null, and is output when one of its choices is. */
  lemma LineMeans(lib: Library, line: string)
    ensures !("data:" <= line) ==> !lib.IsDone(line) && !lib.IsError(line) && !lib.IsOutput(line)
    ensures "data:" <= line ==>
              var payload := lib.trimSpace(line[5..]);
              && (lib.IsDone(line) <==> payload == "[DONE]")
              && (lib.IsError(line) <==>
                    && payload != "[DONE]" && lib.decode(payload).Some?
                    && lib.decode(payload).value.error !in ["", "null"])
              && (lib.IsOutput(line) <==>
                    && payload != "[DONE]" && lib.decode(payload).Some?
                    && exists c :: c in lib.decode(payload).value.choices && Speaks(lib, c))
  {
  }

  /** A choice has some text, or a tool call that decodes to a name or to arguments. */
  ghost predicate Speaks(lib: Library, c: Choice) {
    || !(c.text == "" && c.content == "" && c.reasoning == "")
    || exists t :: t in c.tools && lib.decodeTool(t).Some?
         && !(lib.decodeTool(t).value.name == "" && lib.decodeTool(t).value.arguments == "")
  }

  /** A line handed to `event`, with the time since the start of the request. */
  datatype Observed = Observed(line: string, elapsed: real)

  ghost function LinesOf(events: seq<Observed>): seq<string> {
    seq(|events|, i requires 0 <= i < |events| => events[i].line)
  }

  /** The time to first output: set by output lines until one of them sets it above zero. */
  ghost function FirstOutput(lib: Library, events: seq<Observed>): real {
    if events == [] then 0.0
    else
      var before, e := FirstOutput(lib, events[..|events| - 1]), events[|events| - 1];
      if before <= 0.0 && lib.IsOutput(e.line) then e.elapsed else before
  }

  /** With a clock that has moved since the start, "some output seen" depends on the lines only. */
  lemma {:induction false} FirstOutputSeen(lib: Library, events: seq<Observed>)
    requires forall e :: e in events ==> e.elapsed > 0.0
    ensures FirstOutput(lib, events) > 0.0 <==> lib.SawOutput(LinesOf(events))
  {
    if events != [] {
      var n := |events| - 1;
      FirstOutputSeen(lib, events[..n]);
      assert LinesOf(events) == LinesOf(events[..n]) + [events[n].line];
      assert events[n] in events;
    }
  }

  lemma OneMoreEvent(lib: Library, events: seq<Observed>, e: Observed)
    ensures LinesOf(events + [e]) == LinesOf(events) + [e.line]
    ensures lib.SawDone(LinesOf(events + [e])) <==> lib.SawDone(LinesOf(events)) || lib.IsDone(e.line)
    ensures lib.SawError(LinesOf(events + [e])) <==> lib.SawError(LinesOf(events)) || lib.IsError(e.line)
    ensures var before := FirstOutput(lib, events);
      FirstOutput(lib, events + [e]) == if before <= 0.0 && lib.IsOutput(e.line) then e.elapsed else before
  {
    assert LinesOf(events + [e]) == LinesOf(events) + [e.line];
    assert (events + [e])[..|events|] == events;
    assert e.line in LinesOf(events) + [e.line];
  }

  // ----- the observer -----

  class Observer {
    const lib: Library
    var first: real
    var failed: bool
    var done: bool
    var complete: bool
    var pending: string
    var skipping: bool
    /** Everything consumed, what `event` was called with, and whether a read has failed. */
    ghost var stream: string
    ghost var events: seq<Observed>
    ghost var broken: bool

    /** The whole state, as a function of the bytes consumed (and the times at which they came). */
    ghost predicate Valid()
      reads this
    {
      Follows() && Buffer(pending, skipping) == BufferAfter(stream) && LinesOf(events) == Delivered(stream)
    }

    /** The flags say what the lines handed to `event` say. */
    ghost predicate Follows()
      reads this
    {
      && done == lib.SawDone(LinesOf(events))
      && failed == (broken || lib.SawError(LinesOf(events)))
      && first == FirstOutput(lib, events)
    }

    constructor (lib: Library)
      ensures Valid() && stream == "" && events == [] && !broken && !complete && this.lib == lib
    {
      this.lib := lib;
      first, failed, done, complete := 0.0, false, false, false;
      pending, skipping := "", false;
      stream, events, broken := "", [], false;
    }

    /** Consumes a chunk: only the bytes matter, so consuming a and then b is consuming a + b. The
        buffer stays bounded throughout. */
    method Consume(bytes: string, elapsed: real)
      requires Valid()
      modifies this
      ensures Valid() && |pending| <= 65536
      ensures stream == old(stream) + bytes
      ensures forall e :: e in events ==> e in old(events) || e.elapsed == elapsed
      ensures broken == old(broken) && complete == old(complete)
    {
      var chunk := bytes;
      while |chunk| > 0
        invariant Valid() && |pending| <= MAX_PENDING
        invariant stream + chunk == old(stream) + bytes
        invariant forall e :: e in events ==> e in old(events) || e.elapsed == elapsed
        invariant broken == old(broken) && complete == old(complete)
        decreases |chunk|
      {
        var pos := IndexNewline(chunk);
        var line := if pos >= 0 then chunk[..pos] else chunk;
        ghost var before := stream;
        Buffered(line);
        if pos < 0 {
          return;
        }
        EndLine(elapsed);
        Rejoined(before, chunk, pos);
        chunk := chunk[pos + 1..];
      }
      assert stream + "" == stream;
    }

    /** The first half of the loop of `Consume`: takes in a piece of a line, unless it gets too long. */
    method Buffered(line: string)
      requires Valid() && '\n' !in line
      modifies `pending, `skipping, `stream
      ensures Valid() && stream == old(stream) + line
    {
      WithinLine(stream, line);
      if !skipping {
        if |pending| + |line| > MAX_PENDING {
          pending := "";
          skipping := true;
        } else {
          pending := pending + line;
        }
      }
      stream := stream + line;
    }

    /** The second half: the newline was found. */
    method EndLine(elapsed: real)
      requires Valid()
      modifies `pending, `skipping, `stream, `done, `failed, `first, `events
      ensures Valid() && stream == old(stream) + "\n"
      ensures forall e :: e in events ==> e in old(events) || e.elapsed == elapsed
    {
      AtLineEnd(stream);
      if !skipping {
        OneMoreEvent(lib, events, Observed(pending, elapsed));
        Event(pending, elapsed);
      }
      pending := "";
      skipping := false;
      stream := stream + "\n";
    }

    /** Acts on one line. */
    method Event(line: string, elapsed: real)
      modifies `done, `failed, `first, `events
      ensures events == old(events) + [Observed(line, elapsed)]
      ensures done == (old(done) || lib.IsDone(line))
      ensures failed == (old(failed) || lib.IsError(line))
      ensures first == if old(first) <= 0.0 && lib.IsOutput(line) then elapsed else old(first)
    {
      events := events + [Observed(line, elapsed)];
      if !(DATA_PREFIX <= line) {
        return;
      }
      var payload := lib.trimSpace(line[5..]);
      if payload == DONE_MARK {
        done := true;
        return;
      }
      var decoded := lib.decode(payload);
      if decoded.None? {
        return;
      }
      var d := decoded.value;
      if |d.error| > 0 && d.error != "null" {
        failed := true;
      }
      if first > 0.0 {
        return;
      }
      for i := 0 to |d.choices|
        invariant forall c :: c in d.choices[..i] ==> !lib.HasOutput(c)
        invariant first == old(first) && events == old(events) + [Observed(line, elapsed)]
        invariant done == old(done) && failed == (old(failed) || lib.IsError(line))
      {
        var c := d.choices[i];
        var meaningful := MeaningfulTool(c.tools);
        if c.text != "" || c.content != "" || c.reasoning != "" || meaningful {
          assert lib.HasOutput(c) && c in d.choices;
          first := elapsed;
          return;
        }
      }
    }

    method MeaningfulTool(tools: seq<string>) returns (found: bool)
      ensures found <==> exists t | t in tools :: lib.MeaningfulTool(t)
    {
      for i := 0 to |tools|
        invariant forall t :: t in tools[..i] ==> !lib.MeaningfulTool(t)
      {
        var tool := lib.decodeTool(tools[i]);
        if tool.Some? && (tool.value.name != "" || tool.value.arguments != "") {
          assert tools[i] in tools && lib.MeaningfulTool(tools[i]);
          return true;
        }
      }
      return false;
    }
  }

  lemma Rejoined(before: string, chunk: string, pos: nat)
    requires pos < |chunk| && chunk[pos] == '\n'
    ensures before + chunk[..pos] + "\n" + chunk[pos + 1..] == before + chunk
  {
    assert chunk == chunk[..pos] + [chunk[pos]] + chunk[pos + 1..];
  }

  method IndexNewline(s: string) returns (pos: int)
    ensures -1 <= pos < |s|
    ensures pos == -1 ==> '\n' !in s
    ensures pos >= 0 ==> s[pos] == '\n' && '\n' !in s[..pos]
  {
    for i := 0 to |s|
      invariant '\n' !in s[..i]
    {
      if s[i] == '\n' {
        return i;
      }
    }
    return -1;
  }

  // ----- the observed response body -----

  datatype ReadError = NoError | Eof | Broken

  /** What one read of the upstream body returned. */
  datatype ReadResult = ReadResult(bytes: string, err: ReadError)

  function BytesOf(results: seq<ReadResult>): string {
    if results == [] then "" else BytesOf(results[..|results| - 1]) + results[|results| - 1].bytes
  }

  /** The bytes the observer has seen: only event streams are looked into. */
  function Seen(sse: bool, results: seq<ReadResult>): string {
    if sse then BytesOf(results) else ""
  }

  /** Some read failed, or ended an event stream that was not done. */
  ghost predicate ReadFailed(lib: Library, sse: bool, results: seq<ReadResult>) {
    results != [] &&
    var last := results[|results| - 1];
    || ReadFailed(lib, sse, results[..|results| - 1])
    || (last.err == Eof && sse && !lib.SawDone(Delivered(BytesOf(results))))
    || last.err == Broken
  }

  ghost predicate SawEof(results: seq<ReadResult>) {
    exists r :: r in results && r.err == Eof
  }

  lemma OneMoreRead(lib: Library, sse: bool, results: seq<ReadResult>, r: ReadResult)
    ensures var next := results + [r];
      && Seen(sse, next) == (if sse && |r.bytes| > 0 then Seen(sse, results) + r.bytes else Seen(sse, results))
      && (SawEof(next) <==> SawEof(results) || r.err == Eof)
      && (ReadFailed(lib, sse, next) <==>
            || ReadFailed(lib, sse, results)
            || (r.err == Eof && sse && !lib.SawDone(Delivered(Seen(sse, next))))
            || r.err == Broken)
  {
    assert (results + [r])[..|results|] == results;
    assert r in results + [r];
    assert BytesOf(results) + "" == BytesOf(results);
  }

  class ObservedBody {
    const sse: bool
    const observer: Observer
    ghost var results: seq<ReadResult>

    ghost predicate Valid()
      reads this, observer
    {
      && observer.Valid()
      && observer.stream == Seen(sse, results)
      && observer.broken == ReadFailed(observer.lib, sse, results)
      && observer.complete == SawEof(results)
    }

    constructor (sse: bool, observer: Observer)
      requires observer.Valid() && observer.stream == "" && !observer.broken && !observer.complete
      ensures Valid() && results == [] && this.sse == sse && this.observer == observer
    {
      this.sse, this.observer, results := sse, observer, [];
    }

    /** Passes on one read of the upstream body. */
    method Read(upstream: ReadResult, elapsed: real)
      requires Valid()
      modifies this, observer
      ensures Valid() && results == old(results) + [upstream]
      ensures forall e :: e in observer.events ==> e in old(observer.events) || e.elapsed == elapsed
    {
      hide Seen, ReadFailed, SawEof, BufferAfter, Delivered, LinesOf, FirstOutput, Library.SawDone, Library.SawError;
      OneMoreRead(observer.lib, sse, results, upstream);
      if upstream.err == Eof {
        observer.complete := true;
      }
      if sse && |upstream.bytes| > 0 {
        observer.Consume(upstream.bytes, elapsed);
      }
      if (upstream.err == Eof && sse && !observer.done) || upstream.err == Broken {
        observer.failed := true;
        observer.broken := true;
      }
      results := results + [upstream];
    }
  }

  // ----- the verdict on a response -----

  datatype Verdict = Verdict(done: bool, failed: bool, complete: bool)

  /** The verdict as a function of the bytes of the whole body and of how it ended. */
  ghost function VerdictOf(lib: Library, sse: bool, bytes: string, end: ReadError): Verdict {
    var lines := Delivered(if sse then bytes else "");
    Verdict(lib.SawDone(lines),
            lib.SawError(lines) || end == Broken || (end == Eof && sse && !lib.SawDone(lines)),
            end == Eof)
  }

  /** A body is read until a read reports an error, and no further. */
  ghost predicate ReadToEnd(results: seq<ReadResult>) {
    results != [] && forall i :: 0 <= i < |results| - 1 ==> results[i].err == NoError
  }

  lemma {:induction false} NothingFailedYet(lib: Library, sse: bool, results: seq<ReadResult>)
    requires forall r :: r in results ==> r.err == NoError
    ensures !ReadFailed(lib, sse, results)
  {
    if results != [] {
      assert results[|results| - 1] in results;
      NothingFailedYet(lib, sse, results[..|results| - 1]);
    }
  }

  /** The end-of-stream verdict depends on the bytes and the final error only: not on the sizes of the
      reads, and not on whether the last bytes come together with the end of the file. */
  lemma VerdictIsFunctionOfBytes(body: ObservedBody)
    requires body.Valid() && ReadToEnd(body.results)
    ensures Verdict(body.observer.done, body.observer.failed, body.observer.complete)
         == VerdictOf(body.observer.lib, body.sse, BytesOf(body.results), body.results[|body.results| - 1].err)
  {
    var results := body.results;
    NothingFailedYet(body.observer.lib, body.sse, results[..|results| - 1]);
    assert results[|results| - 1] in results;
  }

  /** Likewise for "some output seen", when time has passed since the start of the request. */
  lemma OutputSeenIsFunctionOfBytes(body: ObservedBody)
    requires body.Valid() && forall e :: e in body.observer.events ==> e.elapsed > 0.0
    ensures body.observer.first > 0.0
       <==> body.observer.lib.SawOutput(Delivered(Seen(body.sse, body.results)))
  {
    FirstOutputSeen(body.observer.lib, body.observer.events);
  }

  datatype Outcome = Ok | HttpError | Cancelled | StreamError

  const STATUS_CLIENT_CLOSED := 499

  /** The label a finished request gets; `received` says that an upstream response came at all. */
  function Classify(received: bool, status: int, cancelled: bool, v: Verdict): (int, Outcome) {
    if received && status >= 400 then (status, HttpError)
    else if cancelled && !v.complete && !v.done then (STATUS_CLIENT_CLOSED, Cancelled)
    else if status >= 400 then (status, HttpError)
    else if v.failed then (status, StreamError)
    else (status, Ok)
  }

  /** When each label is given. A client that leaves before the stream is complete or done is told apart with the
      status 499, unless the upstream had answered with an error; otherwise the status stays. */
  lemma OutcomesMean(received: bool, status: int, cancelled: bool, v: Verdict)
    ensures var left := cancelled && !v.complete && !v.done;
      match Classify(received, status, cancelled, v).1
      case HttpError => status >= 400 && (received || !left) && Classify(received, status, cancelled, v).0 == status
      case Cancelled => left && (!received || status < 400) && Classify(received, status, cancelled, v).0 == 499
      case StreamError => status < 400 && !left && v.failed && Classify(received, status, cancelled, v).0 == status
      case Ok => status < 400 && !left && !v.failed && Classify(received, status, cancelled, v).0 == status
  {
  }

  /** A forwarded event stream counts as "ok" just when it was read to its end, announced that it was
      done, and carried no error, however it was cut up; a client that leaves after that changes nothing. */
  lemma StreamOkIffDoneWithoutError(body: ObservedBody, status: int, cancelled: bool)
    requires body.Valid() && ReadToEnd(body.results) && body.sse && status < 400
    requires body.results[|body.results| - 1].err != NoError
    ensures var o := body.observer;
      var lines := Delivered(BytesOf(body.results));
      (Classify(true, status, cancelled, Verdict(o.done, o.failed, o.complete)).1 == Ok) <==>
        body.results[|body.results| - 1].err == Eof && o.lib.SawDone(lines) && !o.lib.SawError(lines)
  {
    VerdictIsFunctionOfBytes(body);
  }
}
