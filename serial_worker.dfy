/**
 * `XBeeTelemetryWorker._run_worker`: open the port, read lines, reassemble
 * them into frames at the transmission sentinel and emit the parsed rows.
 * The serial device is a script of outcomes: whether the open succeeds and
 * what each `readline()` returns. The end of the script stands for the
 * moment the loop sees `_run_flag` cleared by `stop()`. Emitted Qt signals
 * are recorded, in order, in the worker's `events` log.
 */
module SerialWorker {
  import opened Wrappers
  import opened Text
  import opened FrameParser

  /** The line that closes a frame. */
  const Sentinel := "Data transmitted via XBee"
  /** The prefix of separator lines, which are dropped. */
  const Separator := "---"

  /** A signal emitted by the worker. */
  datatype Event =
    | Connected(port: string)
    | ConnectionLost(msg: string)
    | RowReady(row: Record)

  /** What `serial.Serial(...)` does: open the port or raise. */
  datatype OpenOutcome = Opened | OpenFailed(err: string)

  /** What one `readline()` does: time out (empty bytes), deliver a decoded line, or raise. */
  datatype ReadOutcome = Timeout | Got(text: string) | ReadFailed(err: string)

  /** The record a buffer of lines yields when the frame closes, if it is emitted at all. */
  function Emit(buffer: seq<string>): (rs: seq<Record>)
    ensures |rs| <= 1 && forall i :: 0 <= i < |rs| ==> rs[i] != map[]
  {
    if buffer != [] && FrameRecord(buffer) != map[] then [FrameRecord(buffer)] else []
  }

  /**
   * The buffer after one stripped line: the sentinel closes the frame and
   * empties it, separator lines are dropped, every other line is appended.
   */
  function NextBuffer(buffer: seq<string>, line: string): seq<string> {
    if Contains(line, Sentinel) then []
    else if StartsWith(line, Separator) then buffer
    else buffer + [line]
  }

  /** The records one stripped line emits: only a sentinel line emits, and only `Emit(buffer)`. */
  function Output(buffer: seq<string>, line: string): (rs: seq<Record>)
    ensures |rs| <= 1 && forall i :: 0 <= i < |rs| ==> rs[i] != map[]
  {
    if Contains(line, Sentinel) then Emit(buffer) else []
  }

  /** The lines of `lines` that are not separators, in order. */
  function Kept(lines: seq<string>): (k: seq<string>)
    ensures |k| <= |lines|
    ensures forall i :: 0 <= i < |k| ==> !StartsWith(k[i], Separator)
  {
    if lines == [] then []
    else if StartsWith(lines[0], Separator) then Kept(lines[1..])
    else [lines[0]] + Kept(lines[1..])
  }

  /** The records the reassembly machine emits over a sequence of stripped lines. */
  function Emitted(buffer: seq<string>, lines: seq<string>): (rs: seq<Record>)
    ensures forall i :: 0 <= i < |rs| ==> rs[i] != map[]
    decreases |lines|
  {
    if lines == [] then []
    else Output(buffer, lines[0]) + Emitted(NextBuffer(buffer, lines[0]), lines[1..])
  }

  /** The buffer the reassembly machine holds after a sequence of stripped lines. */
  function FinalBuffer(buffer: seq<string>, lines: seq<string>): seq<string>
    decreases |lines|
  {
    if lines == [] then buffer else FinalBuffer(NextBuffer(buffer, lines[0]), lines[1..])
  }

  /** `rowReady` signals for a list of records. */
  function Rows(rs: seq<Record>): (ev: seq<Event>)
    ensures |ev| == |rs| && forall i :: 0 <= i < |rs| ==> ev[i] == RowReady(rs[i])
  {
    if rs == [] then [] else [RowReady(rs[0])] + Rows(rs[1..])
  }

  /** The signals of the read loop, from a given buffer, over the remaining read outcomes. */
  function ReadLoop(buffer: seq<string>, outcomes: seq<ReadOutcome>): seq<Event>
    decreases |outcomes|
  {
    if outcomes == [] then []
    else match outcomes[0]
      case Timeout => ReadLoop(buffer, outcomes[1..])
      case ReadFailed(e) => [ConnectionLost("READ ERR: " + e)]
      case Got(text) =>
        var line := Strip(text);
        Rows(Output(buffer, line)) + ReadLoop(NextBuffer(buffer, line), outcomes[1..])
  }

  /** The message of the first failing read, if any read fails. */
  function FirstError(outcomes: seq<ReadOutcome>): Option<string> {
    if outcomes == [] then None
    else if outcomes[0].ReadFailed? then Some(outcomes[0].err)
    else FirstError(outcomes[1..])
  }

  /** Every signal of `_run_worker`, in order. */
  function Trace(port: string, open: OpenOutcome, outcomes: seq<ReadOutcome>): seq<Event> {
    match open
    case OpenFailed(e) => [ConnectionLost("OPEN FAIL: " + e)]
    case Opened => [Connected(port)] + ReadLoop([], outcomes) + [ConnectionLost("PORT CLOSED")]
  }

  /** The worker object: its port, whether the serial handle is open, and the signals it has emitted. */
  class XBeeTelemetryWorker {
    const port: string
    var serOpen: bool
    var events: seq<Event>

    constructor (port: string)
      ensures this.port == port && !serOpen && events == []
    {
      this.port := port;
      serOpen := false;
      events := [];
    }

    /** The body of the read loop for one decoded, stripped line. */
    method HandleLine(buffer: seq<string>, line: string) returns (next: seq<string>)
      modifies this
      ensures next == NextBuffer(buffer, line)
      ensures events == old(events) + Rows(Output(buffer, line))
      ensures serOpen == old(serOpen)
    {
      next := buffer;
      if Contains(line, Sentinel) {
        if buffer != [] {
          var parsed := ParseFrame(buffer);
          if parsed != map[] {
            events := events + [RowReady(parsed)];
          }
        }
        next := [];
      } else if !StartsWith(line, Separator) {
        next := buffer + [line];
      }
    }

    /** `_run_worker`, with the device behaving as `open` and `outcomes` say. */
    method RunWorker(open: OpenOutcome, outcomes: seq<ReadOutcome>)
      modifies this
      ensures events == old(events) + Trace(port, open, outcomes)
      ensures open.Opened? ==> !serOpen
      ensures open.OpenFailed? ==> serOpen == old(serOpen)
    {
      if open.OpenFailed? {
        events := events + [ConnectionLost("OPEN FAIL: " + open.err)];
        return;
      }
      serOpen := true;
      events := events + [Connected(port)];
      ghost var e0 := events;
      var bufferLines: seq<string> := [];
      var i := 0;
      while i < |outcomes|
        invariant 0 <= i <= |outcomes|
        invariant events + ReadLoop(bufferLines, outcomes[i..]) == e0 + ReadLoop([], outcomes)
      {
        assert outcomes[i..][0] == outcomes[i] && outcomes[i..][1..] == outcomes[i + 1..];
        ghost var before := events;
        match outcomes[i]
        case Timeout =>
          i := i + 1;
        case ReadFailed(e) =>
          events := events + [ConnectionLost("READ ERR: " + e)];
          assert events == e0 + ReadLoop([], outcomes);
          break;
        case Got(text) =>
          var line := Strip(text);
          var next := HandleLine(bufferLines, line);
          Assoc(before, Rows(Output(bufferLines, line)), ReadLoop(next, outcomes[i + 1..]));
          bufferLines := next;
          i := i + 1;
      }
      ghost var loopEvents := ReadLoop([], outcomes);
      assert events == old(events) + [Connected(port)] + loopEvents;
      serOpen := false;
      events := events + [ConnectionLost("PORT CLOSED")];
      Assoc(old(events), [Connected(port)], loopEvents);
      Assoc(old(events), [Connected(port)] + loopEvents, [ConnectionLost("PORT CLOSED")]);
    }
  }

  lemma ConcatIndex<T>(a: seq<T>, b: seq<T>)
    ensures forall i :: 0 <= i < |a| ==> (a + b)[i] == a[i]
    ensures forall i :: |a| <= i < |a + b| ==> (a + b)[i] == b[i - |a|]
  {
  }

  lemma Assoc<T>(a: seq<T>, b: seq<T>, c: seq<T>)
    ensures a + b + c == a + (b + c)
  {
  }

  // ---------------------------------------------------------------------
  // Reassembly
  // ---------------------------------------------------------------------

  /** Without a sentinel, nothing is emitted and the buffer grows by exactly the non-separator lines, in order. */
  lemma {:induction false} NoSentinelAppends(buffer: seq<string>, lines: seq<string>)
    requires forall i :: 0 <= i < |lines| ==> !Contains(lines[i], Sentinel)
    ensures Emitted(buffer, lines) == []
    ensures FinalBuffer(buffer, lines) == buffer + Kept(lines)
    decreases |lines|
  {
    if lines == [] {
      assert buffer + [] == buffer;
    } else {
      assert !Contains(lines[0], Sentinel);
      var b := NextBuffer(buffer, lines[0]);
      NoSentinelAppends(b, lines[1..]);
      if !StartsWith(lines[0], Separator) {
        assert buffer + [lines[0]] + Kept(lines[1..]) == buffer + ([lines[0]] + Kept(lines[1..]));
      }
    }
  }

  lemma {:induction false} EmittedConcat(buffer: seq<string>, xs: seq<string>, ys: seq<string>)
    ensures Emitted(buffer, xs + ys) == Emitted(buffer, xs) + Emitted(FinalBuffer(buffer, xs), ys)
    ensures FinalBuffer(buffer, xs + ys) == FinalBuffer(FinalBuffer(buffer, xs), ys)
    decreases |xs|
  {
    if xs == [] {
      assert xs + ys == ys;
    } else {
      assert (xs + ys)[0] == xs[0];
      assert (xs + ys)[1..] == xs[1..] + ys;
      var b := NextBuffer(buffer, xs[0]);
      EmittedConcat(b, xs[1..], ys);
      var o := Output(buffer, xs[0]);
      assert o + (Emitted(b, xs[1..]) + Emitted(FinalBuffer(b, xs[1..]), ys)) ==
             (o + Emitted(b, xs[1..])) + Emitted(FinalBuffer(b, xs[1..]), ys);
    }
  }

  /**
   * A sentinel line closes the frame: once the lines since the last frame
   * (`pre`, none of them a sentinel) are buffered, the sentinel emits the
   * record of the buffer, if it is non-empty and parses to a non-empty
   * record, and the machine continues from an empty buffer.
   */
  lemma SentinelClosesFrame(buffer: seq<string>, pre: seq<string>, s: string, post: seq<string>)
    requires forall i :: 0 <= i < |pre| ==> !Contains(pre[i], Sentinel)
    requires Contains(s, Sentinel)
    ensures Emitted(buffer, pre + [s] + post) == Emit(buffer + Kept(pre)) + Emitted([], post)
    ensures FinalBuffer(buffer, pre + [s] + post) == FinalBuffer([], post)
  {
    NoSentinelAppends(buffer, pre);
    assert pre + [s] + post == pre + ([s] + post);
    EmittedConcat(buffer, pre, [s] + post);
    assert ([s] + post)[0] == s;
    assert ([s] + post)[1..] == post;
  }

  /** A record is emitted only for a non-empty buffer some line of which writes a field, and it is that buffer's record. */
  lemma EmitIff(buffer: seq<string>)
    ensures Emit(buffer) != [] <==> exists j :: 0 <= j < |buffer| && LineWrites(buffer[j]) != map[]
    ensures Emit(buffer) != [] ==> Emit(buffer) == [FrameRecord(buffer)]
  {
    EmptyRecordIff(buffer);
  }

  /** The stripped lines of a script of successful reads. */
  function LinesOf(outcomes: seq<ReadOutcome>): (lines: seq<string>)
    requires forall i :: 0 <= i < |outcomes| ==> outcomes[i].Got?
    ensures |lines| == |outcomes|
  {
    seq(|outcomes|, i requires 0 <= i < |outcomes| => Strip(outcomes[i].text))
  }

  lemma {:induction false} RowsConcat(xs: seq<Record>, ys: seq<Record>)
    ensures Rows(xs + ys) == Rows(xs) + Rows(ys)
  {
    var l, r := Rows(xs + ys), Rows(xs) + Rows(ys);
    assert |l| == |r|;
    forall i | 0 <= i < |l| ensures l[i] == r[i] {
      if i < |xs| {
        assert (xs + ys)[i] == xs[i];
      } else {
        assert (xs + ys)[i] == ys[i - |xs|];
      }
    }
  }

  /** With only successful reads, the loop emits one `rowReady` per record of the reassembly machine. */
  lemma {:induction false} ReadLoopReassembles(buffer: seq<string>, outcomes: seq<ReadOutcome>)
    requires forall i :: 0 <= i < |outcomes| ==> outcomes[i].Got?
    ensures ReadLoop(buffer, outcomes) == Rows(Emitted(buffer, LinesOf(outcomes)))
    decreases |outcomes|
  {
    if outcomes != [] {
      var lines, tail := LinesOf(outcomes), outcomes[1..];
      assert lines[1..] == LinesOf(tail);
      assert lines[0] == Strip(outcomes[0].text);
      var b := NextBuffer(buffer, lines[0]);
      ReadLoopReassembles(b, tail);
      RowsConcat(Output(buffer, lines[0]), Emitted(b, LinesOf(tail)));
    }
  }

  // ---------------------------------------------------------------------
  // Signal trace
  // ---------------------------------------------------------------------

  /**
   * The shape of the read loop's signals given its first read error: only
   * `rowReady` signals with non-empty records, except that an error ends
   * them with its `READ ERR` message.
   */
  predicate LoopShape(ev: seq<Event>, err: Option<string>) {
    (forall i :: 0 <= i < |ev| ==> (ev[i].RowReady? && ev[i].row != map[]) || (i == |ev| - 1 && err.Some?)) &&
    (err.Some? ==> ev != [] && ev[|ev| - 1] == ConnectionLost("READ ERR: " + err.value)) &&
    (err.None? ==> forall i :: 0 <= i < |ev| ==> ev[i].RowReady?)
  }

  /** Rows for non-empty records in front of a well-shaped loop keep its shape. */
  lemma RowsKeepShape(rs: seq<Record>, ev: seq<Event>, err: Option<string>)
    requires forall i :: 0 <= i < |rs| ==> rs[i] != map[]
    requires LoopShape(ev, err)
    ensures LoopShape(Rows(rs) + ev, err)
  {
    var rows := Rows(rs);
    var all := rows + ev;
    forall i | 0 <= i < |all|
      ensures (all[i].RowReady? && all[i].row != map[]) || (i == |all| - 1 && err.Some?)
      ensures err.None? ==> all[i].RowReady?
    {
      if i < |rows| {
        assert all[i] == rows[i] == RowReady(rs[i]);
      } else {
        assert all[i] == ev[i - |rows|];
      }
    }
    if err.Some? {
      assert all[|all| - 1] == ev[|ev| - 1];
    }
  }

  /**
   * The read loop emits only `rowReady` signals with non-empty records,
   * except that a failing read ends it with its `READ ERR` message.
   */
  lemma {:induction false} ReadLoopShape(buffer: seq<string>, outcomes: seq<ReadOutcome>)
    ensures LoopShape(ReadLoop(buffer, outcomes), FirstError(outcomes))
    decreases |outcomes|
  {
    if outcomes != [] {
      match outcomes[0]
      case Timeout =>
        ReadLoopShape(buffer, outcomes[1..]);
        assert ReadLoop(buffer, outcomes) == ReadLoop(buffer, outcomes[1..]);
        assert FirstError(outcomes) == FirstError(outcomes[1..]);
      case ReadFailed(e) =>
      case Got(text) =>
        var line := Strip(text);
        var out, b := Output(buffer, line), NextBuffer(buffer, line);
        ReadLoopShape(b, outcomes[1..]);
        assert FirstError(outcomes) == FirstError(outcomes[1..]);
        RowsKeepShape(out, ReadLoop(b, outcomes[1..]), FirstError(outcomes));
        assert ReadLoop(buffer, outcomes) == Rows(out) + ReadLoop(b, outcomes[1..]);
    }
  }

  /** An open failure produces exactly one `OPEN FAIL` signal: no `connected`, no `PORT CLOSED`. */
  lemma OpenFailTrace(port: string, e: string, outcomes: seq<ReadOutcome>)
    ensures var t := Trace(port, OpenFailed(e), outcomes);
            t == [ConnectionLost("OPEN FAIL: " + e)] &&
            forall i :: 0 <= i < |t| ==> !t[i].Connected? && t[i] != ConnectionLost("PORT CLOSED")
  {
    var m := "OPEN FAIL: " + e;
    assert m[0] == 'O';
    assert "PORT CLOSED"[0] == 'P';
  }

  /**
   * After a successful open, `connected(port)` comes first and `PORT CLOSED`
   * last; everything between is a `rowReady` with a non-empty record, except
   * that a failing read puts its `READ ERR` message just before `PORT CLOSED`.
   */
  lemma OpenedTrace(port: string, outcomes: seq<ReadOutcome>)
    ensures var t := Trace(port, Opened, outcomes);
            |t| >= 2 && t[0] == Connected(port) && t[|t| - 1] == ConnectionLost("PORT CLOSED") &&
            (forall i :: 0 < i < |t| - 1 ==> (t[i].RowReady? && t[i].row != map[]) || (i == |t| - 2 && FirstError(outcomes).Some?)) &&
            (FirstError(outcomes).Some? ==> t[|t| - 2] == ConnectionLost("READ ERR: " + FirstError(outcomes).value))
  {
    var ev := ReadLoop([], outcomes);
    ReadLoopShape([], outcomes);
    var t := Trace(port, Opened, outcomes);
    assert t == [Connected(port)] + ev + [ConnectionLost("PORT CLOSED")];
    assert forall i :: 0 < i < |t| - 1 ==> t[i] == ev[i - 1];
  }
}
