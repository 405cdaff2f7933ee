/** The bounded JSONL reader between the Claude process and the adapter. The
    process may cut its output into writes anywhere. */
module ClaudeOutput {
  import opened Basics

  datatype Record = Invalid | ResultEvent(response: seq<byte>) | OtherEvent

  /** What the reader is told about its records: how a line is trimmed, what
      JSON decoding makes of it, and how long a record may be. */
  datatype Codec = Codec(trim: seq<byte> -> seq<byte>, decode: seq<byte> -> Record, limit: nat)

  datatype Error = RecordTooLong | InvalidRecord | MissingResult

  /** What is retained about the records read so far. */
  datatype Progress = Progress(result: Option<seq<byte>>, error: Option<Error>, observed: seq<seq<byte>>)

  const NEWLINE: byte := 10
  const START := Progress(None, None, [])

  /** One complete record. */
  function Consume(codec: Codec, progress: Progress, line: seq<byte>): Progress {
    var record := codec.trim(line);
    if record == [] then progress
    else match codec.decode(record)
      case Invalid => progress.(error := Some(InvalidRecord))
      case ResultEvent(response) => progress.(result := Some(response))
      case OtherEvent => progress.(observed := progress.observed + [record])
  }

  // ---------- The definition on the whole output ----------

  /** Position of the first newline, or the length of the text. */
  function LineEnd(text: seq<byte>): (end: nat)
    ensures end <= |text|
    ensures end < |text| ==> text[end] == NEWLINE
    ensures forall i :: 0 <= i < end ==> text[i] != NEWLINE
  {
    if text == [] || text[0] == NEWLINE then 0 else 1 + LineEnd(text[1..])
  }

  /** Splits the whole output at newlines and processes line after line, the
      unterminated last one included, up to the first bad one. */
  function Reference(codec: Codec, progress: Progress, output: seq<byte>): Progress
    decreases |output|
  {
    if progress.error.Some? then progress
    else
      var end := LineEnd(output);
      if end > codec.limit then progress.(error := Some(RecordTooLong))
      else
        var next := Consume(codec, progress, output[..end]);
        if end == |output| then next else Reference(codec, next, output[end + 1..])
  }

  // ---------- The stream, byte by byte ----------

  datatype State = State(pending: seq<byte>, progress: Progress)

  function Fail(state: State, error: Error): State {
    State([], state.progress.(error := Some(error)))
  }

  function Push(codec: Codec, state: State, b: byte): State {
    if state.progress.error.Some? then state
    else if b == NEWLINE then State([], Consume(codec, state.progress, state.pending))
    else if |state.pending| + 1 > codec.limit then Fail(state, RecordTooLong)
    else state.(pending := state.pending + [b])
  }

  function PushAll(codec: Codec, state: State, bytes: seq<byte>): State
    decreases |bytes|
  {
    if bytes == [] then state else PushAll(codec, Push(codec, state, bytes[0]), bytes[1..])
  }

  /** What Result makes of a stream: the unterminated record is consumed. */
  function Final(codec: Codec, state: State): Progress {
    if state.progress.error.None? then Consume(codec, state.progress, state.pending) else state.progress
  }

  predicate Bounded(codec: Codec, state: State) { |state.pending| <= codec.limit }

  lemma {:induction false} PushAllConcat(codec: Codec, state: State, a: seq<byte>, b: seq<byte>)
    ensures PushAll(codec, state, a + b) == PushAll(codec, PushAll(codec, state, a), b)
    decreases |a|
  {
    if a == [] {
      assert a + b == b;
    } else {
      assert (a + b)[1..] == a[1..] + b;
      PushAllConcat(codec, Push(codec, state, a[0]), a[1..], b);
    }
  }

  lemma {:induction false} PushAllBounded(codec: Codec, state: State, bytes: seq<byte>)
    requires Bounded(codec, state)
    ensures Bounded(codec, PushAll(codec, state, bytes))
    decreases |bytes|
  {
    if bytes != [] {
      PushAllBounded(codec, Push(codec, state, bytes[0]), bytes[1..]);
    }
  }

  lemma {:induction false} PushAllAfterError(codec: Codec, state: State, bytes: seq<byte>)
    requires state.progress.error.Some?
    ensures PushAll(codec, state, bytes) == state
    decreases |bytes|
  {
    if bytes != [] {
      PushAllAfterError(codec, state, bytes[1..]);
    }
  }

  /** Text without a newline either is appended whole or overflows the record. */
  lemma {:induction false} PushAllWithinLine(codec: Codec, state: State, text: seq<byte>)
    requires state.progress.error.None? && NEWLINE !in text && Bounded(codec, state)
    ensures PushAll(codec, state, text) ==
            if |state.pending| + |text| > codec.limit then Fail(state, RecordTooLong)
            else state.(pending := state.pending + text)
    decreases |text|
  {
    if text == [] {
      assert state.pending + text == state.pending;
    } else {
      var next := Push(codec, state, text[0]);
      if next.progress.error.Some? {
        PushAllAfterError(codec, next, text[1..]);
      } else {
        PushAllWithinLine(codec, next, text[1..]);
        assert state.pending + text == next.pending + text[1..];
      }
    }
  }

  /** The byte stream computes the definition on the whole output. */
  lemma {:induction false} StreamMeetsReference(codec: Codec, progress: Progress, output: seq<byte>)
    ensures Final(codec, PushAll(codec, State([], progress), output)) == Reference(codec, progress, output)
    decreases |output|
  {
    var start := State([], progress);
    if progress.error.Some? {
      PushAllAfterError(codec, start, output);
    } else {
      var end := LineEnd(output);
      var line, rest := output[..end], output[end..];
      assert output == line + rest;
      PushAllConcat(codec, start, line, rest);
      PushAllWithinLine(codec, start, line);
      var after := PushAll(codec, start, line);
      assert [] + line == line;
      if end > codec.limit {
        PushAllAfterError(codec, after, rest);
      } else if end < |output| {
        var next := Consume(codec, progress, line);
        assert rest[0] == NEWLINE && rest[1..] == output[end + 1..];
        StreamMeetsReference(codec, next, output[end + 1..]);
      }
    }
  }

  /** However the output is cut into writes, the outcome is that of the whole. */
  lemma ChunkingIsIrrelevant(codec: Codec, writes: seq<seq<byte>>)
    ensures Final(codec, PushAll(codec, State([], START), Flatten(writes))) == Reference(codec, START, Flatten(writes))
    ensures Bounded(codec, PushAll(codec, State([], START), Flatten(writes)))
  {
    StreamMeetsReference(codec, START, Flatten(writes));
    PushAllBounded(codec, State([], START), Flatten(writes));
  }

  // ---------- What the lines of an output decide ----------

  /** The output cut at its newlines; the last line may be empty. */
  function Lines(output: seq<byte>): (lines: seq<seq<byte>>)
    ensures |lines| > 0
    decreases |output|
  {
    var end := LineEnd(output);
    if end == |output| then [output] else [output[..end]] + Lines(output[end + 1..])
  }

  predicate Bears(codec: Codec, line: seq<byte>) { |line| <= codec.limit && codec.trim(line) != [] }

  predicate Bad(codec: Codec, line: seq<byte>) {
    |line| > codec.limit || (Bears(codec, line) && codec.decode(codec.trim(line)).Invalid?)
  }

  predicate IsResult(codec: Codec, line: seq<byte>) {
    Bears(codec, line) && codec.decode(codec.trim(line)).ResultEvent?
  }

  /** Line `i` is the last result event before line `n`. */
  predicate IsLastResult(codec: Codec, lines: seq<seq<byte>>, n: nat, i: nat) {
    i < n <= |lines| && IsResult(codec, lines[i]) && forall j :: i < j < n ==> !IsResult(codec, lines[j])
  }

  /** The `n`-th line is the first bad one, or there is none and `n` is their number. */
  predicate StopsAt(codec: Codec, lines: seq<seq<byte>>, n: nat) {
    n <= |lines| && (forall i :: 0 <= i < n ==> !Bad(codec, lines[i])) && (n < |lines| ==> Bad(codec, lines[n]))
  }

  predicate HasResult(codec: Codec, lines: seq<seq<byte>>, n: nat)
    requires n <= |lines|
  {
    exists i :: 0 <= i < n && IsResult(codec, lines[i])
  }

  function LastResult(codec: Codec, lines: seq<seq<byte>>, n: nat): (last: nat)
    requires n <= |lines| && HasResult(codec, lines, n)
    ensures IsLastResult(codec, lines, n, last)
  {
    if IsResult(codec, lines[n - 1]) then n - 1 else LastResult(codec, lines, n - 1)
  }

  /** The trimmed lines that are neither blank nor results, in order. */
  function Others(codec: Codec, lines: seq<seq<byte>>): seq<seq<byte>> {
    if lines == [] then []
    else
      var line := codec.trim(lines[0]);
      (if line != [] && codec.decode(line).OtherEvent? then [line] else []) + Others(codec, lines[1..])
  }

  /** The lines, one after the other. */
  function LineByLine(codec: Codec, progress: Progress, lines: seq<seq<byte>>): Progress
    decreases |lines|
  {
    if progress.error.Some? || lines == [] then progress
    else if |lines[0]| > codec.limit then progress.(error := Some(RecordTooLong))
    else LineByLine(codec, Consume(codec, progress, lines[0]), lines[1..])
  }

  lemma {:induction false} ReferenceGoesLineByLine(codec: Codec, progress: Progress, output: seq<byte>)
    ensures Reference(codec, progress, output) == LineByLine(codec, progress, Lines(output))
    decreases |output|
  {
    var end := LineEnd(output);
    if progress.error.None? && end <= codec.limit && end < |output| {
      ReferenceGoesLineByLine(codec, Consume(codec, progress, output[..end]), output[end + 1..]);
      assert Lines(output)[1..] == Lines(output[end + 1..]);
    } else if end == |output| {
      assert output[..end] == output;
    }
  }

  lemma StopsAtRest(codec: Codec, lines: seq<seq<byte>>, n: nat)
    requires n > 0 && StopsAt(codec, lines, n)
    ensures StopsAt(codec, lines[1..], n - 1)
    ensures !Bad(codec, lines[0])
  {
    hide Bad;
  }

  lemma {:induction false} ErrorFrom(codec: Codec, progress: Progress, lines: seq<seq<byte>>, n: nat)
    requires progress.error.None? && StopsAt(codec, lines, n)
    ensures LineByLine(codec, progress, lines).error ==
            if n == |lines| then None
            else Some(if |lines[n]| > codec.limit then RecordTooLong else InvalidRecord)
    decreases n
  {
    if n > 0 {
      StopsAtRest(codec, lines, n);
      ErrorFrom(codec, Consume(codec, progress, lines[0]), lines[1..], n - 1);
    }
  }

  lemma {:induction false} ObservedFrom(codec: Codec, progress: Progress, lines: seq<seq<byte>>, n: nat)
    requires progress.error.None? && StopsAt(codec, lines, n)
    ensures LineByLine(codec, progress, lines).observed == progress.observed + Others(codec, lines[..n])
    decreases n
  {
    if n > 0 {
      StopsAtRest(codec, lines, n);
      ObservedFrom(codec, Consume(codec, progress, lines[0]), lines[1..], n - 1);
      assert lines[..n][1..] == lines[1..][..n - 1];
    }
  }

  lemma {:induction false} ResultFrom(codec: Codec, progress: Progress, lines: seq<seq<byte>>, n: nat)
    requires progress.error.None? && StopsAt(codec, lines, n)
    ensures LineByLine(codec, progress, lines).result ==
            if HasResult(codec, lines, n)
            then Some(codec.decode(codec.trim(lines[LastResult(codec, lines, n)])).response)
            else progress.result
    decreases n
  {
    if n > 0 {
      var rest := lines[1..];
      StopsAtRest(codec, lines, n);
      ResultFrom(codec, Consume(codec, progress, lines[0]), rest, n - 1);
      LastOfRest(codec, lines, n);
    }
  }

  lemma {:induction false} LastOfRest(codec: Codec, lines: seq<seq<byte>>, n: nat)
    requires 0 < n <= |lines|
    ensures HasResult(codec, lines, n) <==> IsResult(codec, lines[0]) || HasResult(codec, lines[1..], n - 1)
    ensures HasResult(codec, lines[1..], n - 1) ==>
              LastResult(codec, lines, n) == 1 + LastResult(codec, lines[1..], n - 1)
    ensures HasResult(codec, lines, n) && !HasResult(codec, lines[1..], n - 1) ==> LastResult(codec, lines, n) == 0
  {
    hide IsResult;
    assert forall i :: 1 <= i < n ==> lines[i] == lines[1..][i - 1];
  }

  /** The first bad line decides the error, the last result event before it the
      result, and the other events before it are what is observed. */
  lemma LinesDecide(codec: Codec, output: seq<byte>, n: nat)
    requires StopsAt(codec, Lines(output), n)
    ensures var lines, whole := Lines(output), Reference(codec, START, output);
            && (n == |lines| ==> whole.error.None?)
            && (n < |lines| ==>
                  whole.error == Some(if |lines[n]| > codec.limit then RecordTooLong else InvalidRecord))
            && (whole.result.None? <==> forall i :: 0 <= i < n ==> !IsResult(codec, lines[i]))
            && (forall i: nat :: IsLastResult(codec, lines, n, i) ==>
                  whole.result == Some(codec.decode(codec.trim(lines[i])).response))
            && whole.observed == Others(codec, lines[..n])
  {
    ReferenceGoesLineByLine(codec, START, output);
    ErrorFrom(codec, START, Lines(output), n);
    ObservedFrom(codec, START, Lines(output), n);
    ResultFrom(codec, START, Lines(output), n);
  }

  class ClaudeResultStream {
    const codec: Codec
    var pending: seq<byte>
    var result: Option<seq<byte>>
    var error: Option<Error>
    /** The lines handed to the observer. */
    var observed: seq<seq<byte>>
    var cancelled: bool

    function View(): State
      reads this
    {
      State(pending, Progress(result, error, observed))
    }

    ghost predicate Valid()
      reads this
    {
      && Bounded(codec, View())
      && cancelled == error.Some?
      && (error.Some? ==> pending == [])
    }

    constructor (codec: Codec)
      ensures Valid() && View() == State([], START) && this.codec == codec
    {
      this.codec := codec;
      pending, result, error, observed, cancelled := [], None, None, [], false;
    }

    method FailWith(reason: Error)
      requires Valid() && error.None?
      modifies `pending, `error, `cancelled
      ensures Valid() && View() == Fail(old(View()), reason)
    {
      error := Some(reason);
      pending := [];
      cancelled := true;
    }

    method ConsumePending()
      requires Valid() && error.None?
      modifies this
      ensures Valid() && View() == State([], Consume(codec, old(View()).progress, old(pending)))
    {
      var line := codec.trim(pending);
      if |line| > 0 {
        match codec.decode(line)
        case Invalid =>
          FailWith(InvalidRecord);
          return;
        case ResultEvent(response) =>
          result := Some(response);
        case OtherEvent =>
          observed := observed + [line];
      }
      pending := [];
    }

    /** Returns the number of bytes accepted: all of them, or none on an error. */
    method Write(bytes: seq<byte>) returns (written: nat)
      requires Valid()
      modifies this
      ensures Valid() && View() == PushAll(codec, old(View()), bytes)
      ensures written == if error.None? then |bytes| else 0
    {
      if error.Some? {
        PushAllAfterError(codec, View(), bytes);
        return 0;
      }
      var i := 0;
      while i < |bytes|
        invariant 0 <= i <= |bytes|
        invariant Valid() && error.None?
        invariant PushAll(codec, View(), bytes[i..]) == PushAll(codec, old(View()), bytes)
        decreases |bytes| - i
      {
        var rest := bytes[i..];
        var end := LineEnd(rest);
        var chunk := rest[..end];
        ghost var before := View();
        assert rest == chunk + rest[end..];
        PushAllConcat(codec, before, chunk, rest[end..]);
        PushAllWithinLine(codec, before, chunk);
        if |pending| + |chunk| > codec.limit {
          PushAllAfterError(codec, Fail(before, RecordTooLong), rest[end..]);
          FailWith(RecordTooLong);
          return 0;
        }
        pending := pending + chunk;
        if end == |rest| {
          break;
        }
        ghost var line := View();
        ConsumePending();
        assert rest[end..][1..] == bytes[i + end + 1..];
        assert View() == Push(codec, line, NEWLINE);
        if error.Some? {
          PushAllAfterError(codec, View(), bytes[i + end + 1..]);
          return 0;
        }
        i := i + end + 1;
      }
      return |bytes|;
    }

    /** The outcome once the process has exited: the last result event seen, and
        the error of the stream or of a run without any result event. */
    method Result() returns (response: Option<seq<byte>>, failure: Option<Error>)
      requires Valid()
      modifies this
      ensures View().progress == Final(codec, old(View()))
      ensures response == result
      ensures error.Some? ==> failure == error
      ensures error.None? ==> failure == if response.None? then Some(MissingResult) else None
    {
      if error.None? {
        ConsumePending();
      }
      if error.None? && result.None? {
        return result, Some(MissingResult);
      }
      return result, error;
    }
  }

  /** A whole run of the process, its output cut into `writes`. */
  method RunProcess(codec: Codec, writes: seq<seq<byte>>)
    returns (response: Option<seq<byte>>, failure: Option<Error>, observed: seq<seq<byte>>)
    ensures var whole := Reference(codec, START, Flatten(writes));
            && response == whole.result && observed == whole.observed
            && (whole.error.Some? ==> failure == whole.error)
            && (whole.error.None? ==> failure == if response.None? then Some(MissingResult) else None)
  {
    var stream := new ClaudeResultStream(codec);
    var i := 0;
    while i < |writes|
      invariant 0 <= i <= |writes|
      invariant fresh(stream) && stream.Valid() && stream.codec == codec
      invariant PushAll(codec, stream.View(), Flatten(writes[i..])) ==
                PushAll(codec, State([], START), Flatten(writes))
    {
      PushAllConcat(codec, stream.View(), writes[i], Flatten(writes[i + 1..]));
      assert writes[i..][1..] == writes[i + 1..];
      var _ := stream.Write(writes[i]);
      i := i + 1;
    }
    ChunkingIsIrrelevant(codec, writes);
    response, failure := stream.Result();
    observed := stream.observed;
  }
}
