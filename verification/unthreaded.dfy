/** The unthreaded engine: every log write runs the redraw sequence on the
    calling thread, under the lock of a state shared by all cloned writers. */
module Unthreaded {
  import opened Terminal
  import opened Redraw

  /** What one `write` leaves behind: the commands that reached the terminal,
      the result returned to the caller, the sink operation and callback
      counters afterwards, and the remembered status line count. */
  datatype Written = Written(out: seq<Cmd>, result: Result<nat>, ops: nat, calls: nat, lines: nat)

  /** The effect of one `write` of `buf`, starting at sink operation `o` with
      `c` earlier callback invocations, when the previous render drew `lines`
      status lines. Any failing step returns the error at once. */
  function WriteEffect(env: Env, o: nat, c: nat, lines: nat, raw: bool, buf: Bytes): Written
  {
    var j := FirstFail(env, o, 2 * lines + 3);
    if j < 2 * lines + 3 then
      Written(Prologue(lines)[..j], Err, o + j + 1, c, lines)
    else
      var w := PayloadEffect(env, o + 2 * lines + 3, c, lines, raw, buf);
      w.(out := Prologue(lines) + w.out)
  }

  /** The rest of a write once the erase has been queued, from the payload
      write at sink operation `po` on. The raw-mode guard, once taken, is
      released on the error path as well. */
  function PayloadEffect(env: Env, po: nat, c: nat, lines: nat, raw: bool, buf: Bytes): Written
  {
    if env.Fails(po) then
      Written(Bracket(raw, []), Err, po + 1, c, lines)
    else
      var n := env.Accepted(po, |buf|);
      var s := StatusPhase(env, po + 1, c);
      Written(Bracket(raw, [Payload(buf[..n])]) + s.out,
              if s.ok then Ok(n) else Err,
              s.ops, s.calls,
              if s.status.Ok? then s.status.value else lines)
  }

  lemma Associative(a: seq<Cmd>, b: seq<Cmd>, c: seq<Cmd>, d: seq<Cmd>)
    ensures (a + b) + c + d == a + (b + (c + d))
    ensures (a + b) + c == a + (b + c)
  {
  }

  lemma WriteEffectErase(env: Env, o: nat, c: nat, lines: nat, raw: bool, buf: Bytes)
    requires FirstFail(env, o, 2 * lines + 3) < 2 * lines + 3
    ensures var j := FirstFail(env, o, 2 * lines + 3);
      var e := WriteEffect(env, o, c, lines, raw, buf);
      && e.out == Prologue(lines)[..j] && e.result == Err
      && e.ops == o + j + 1 && e.calls == c && e.lines == lines
  {
  }

  lemma WriteEffectPayload(env: Env, o: nat, c: nat, lines: nat, raw: bool, buf: Bytes)
    requires Clean(env, o, o + 2 * lines + 3)
    ensures var w := PayloadEffect(env, o + 2 * lines + 3, c, lines, raw, buf);
      var e := WriteEffect(env, o, c, lines, raw, buf);
      && e.out == Prologue(lines) + w.out && e.result == w.result
      && e.ops == w.ops && e.calls == w.calls && e.lines == w.lines
  {
    FirstFailClean(env, o, 2 * lines + 3);
  }

  lemma PayloadEffectFails(env: Env, po: nat, c: nat, lines: nat, raw: bool, buf: Bytes)
    requires env.Fails(po)
    ensures var w := PayloadEffect(env, po, c, lines, raw, buf);
      && w.out == Bracket(raw, []) && w.result == Err
      && w.ops == po + 1 && w.calls == c && w.lines == lines
  {
  }

  lemma PayloadEffectWritten(env: Env, po: nat, c: nat, lines: nat, raw: bool, buf: Bytes)
    requires !env.Fails(po)
    ensures var n := env.Accepted(po, |buf|);
      var s := StatusPhase(env, po + 1, c);
      var w := PayloadEffect(env, po, c, lines, raw, buf);
      && w.out == Bracket(raw, [Payload(buf[..n])]) + s.out
      && w.result == (if s.ok then Ok(n) else Err)
      && w.ops == s.ops && w.calls == s.calls
      && w.lines == (if s.status.Ok? then s.status.value else lines)
  {
  }

  /** The full redraw one successful `write` issues. */
  function WriteTrace(lines: nat, raw: bool, payload: Bytes): seq<Cmd>
  {
    Prologue(lines) + Bracket(raw, [Payload(payload)]) + Epilogue()
  }

  /** The state behind the writers' shared lock: the sink with its status
      callback, the raw-mode setting, and the line count of the last render. */
  class WriteState {
    const output: Term
    const assumeRawMode: bool
    var lines: u16

    constructor (output: Term, assumeRawMode: bool)
      ensures this.output == output && this.assumeRawMode == assumeRawMode
      ensures lines == 0
    {
      this.output := output;
      this.assumeRawMode := assumeRawMode;
      lines := 0;
    }

    /** The part of a write after the erase: the payload under the raw-mode
        guard, which is released whether the write succeeds or not, then the
        status half; the line count is updated as soon as the callback
        succeeds. */
    method WritePayload(buf: Bytes) returns (r: Result<nat>)
      modifies this, output
      ensures var w := PayloadEffect(output.env, old(output.ops), old(output.calls), old(lines), assumeRawMode, buf);
        && output.ops == w.ops && output.calls == w.calls
        && r == w.result && lines == w.lines
        && output.log == old(output.log) + w.out
    {
      var out := output;
      ghost var env, po, c, log1, lines0 := out.env, out.ops, out.calls, out.log, lines;
      r := Err;
      if assumeRawMode {
        out.DisableRaw();
      }
      var written := out.Write(buf);
      if assumeRawMode {
        out.EnableRaw();
      }
      if written.Err? {
        PayloadEffectFails(env, po, c, lines0, assumeRawMode, buf);
        assert out.log == log1 + Bracket(assumeRawMode, []);
        return;
      }
      PayloadEffectWritten(env, po, c, lines0, assumeRawMode, buf);
      ghost var b := Bracket(assumeRawMode, [Payload(buf[..written.value])]);
      assert out.log == log1 + b;
      ghost var sp := StatusPhase(env, po + 1, c);
      var status, done := RenderStatus(out);
      assert status == sp.status && done == sp.ok;
      if status.Ok? {
        lines := status.value;
      }
      if done {
        r := Ok(written.value);
      }
      Associative(log1, b, sp.out, []);
    }
  }

  /** A cloneable writer; clones share one `WriteState`. */
  class LogWriter {
    const state: WriteState

    constructor (output: Term, assumeRawMode: bool)
      ensures fresh(state) && state.output == output && state.assumeRawMode == assumeRawMode
      ensures state.lines == 0
    {
      state := new WriteState(output, assumeRawMode);
    }

    constructor Share(state: WriteState)
      ensures this.state == state
    {
      this.state := state;
    }

    /** A new writer over the same shared state. */
    method Clone() returns (w: LogWriter)
      ensures fresh(w) && w.state == state
    {
      w := new LogWriter.Share(state);
    }

    /** Erase the previous status lines, write `buf`, render the status lines
        and remember how many lines they took: the terminal, the counters, the
        result and the remembered line count are those of `WriteEffect`. */
    method Write(buf: Bytes) returns (r: Result<nat>)
      modifies state, state.output
      ensures var e := WriteEffect(state.output.env, old(state.output.ops), old(state.output.calls),
                                   old(state.lines), state.assumeRawMode, buf);
        && state.output.ops == e.ops && state.output.calls == e.calls
        && r == e.result && state.lines == e.lines
        && state.output.log == old(state.output.log) + e.out
    {
      var st := state;
      var out := st.output;
      ghost var env, o, c, log0 := out.env, out.ops, out.calls, out.log;
      ghost var lines: nat := st.lines;
      r := Err;
      var ok := ErasePrevious(out, st.lines);
      if !ok {
        WriteEffectErase(env, o, c, lines, st.assumeRawMode, buf);
        return;
      }
      FirstFailClean(env, o, 2 * lines + 3);
      WriteEffectPayload(env, o, c, lines, st.assumeRawMode, buf);
      ghost var log1 := out.log;
      r := st.WritePayload(buf);
      ghost var w := PayloadEffect(env, o + 2 * lines + 3, c, lines, st.assumeRawMode, buf);
      assert out.log == log1 + w.out;
      Associative(log0, Prologue(lines), w.out, []);
    }

    /** Flush the sink and nothing else: no control command, no callback. */
    method Flush() returns (ok: bool)
      modifies state.output
      ensures ok == !state.output.env.Fails(old(state.output.ops))
      ensures state.output.log == old(state.output.log) + (if ok then [Cmd.Flush] else [])
      ensures state.output.ops == old(state.output.ops) + 1
      ensures state.output.calls == old(state.output.calls) && state.lines == old(state.lines)
    {
      ok := state.output.FlushOut();
    }
  }

  /** The handler handed to the logging framework: one writer, cloned for
      every caller. */
  class UnthreadedHandler {
    const writer: LogWriter

    constructor (output: Term, assumeRawMode: bool)
      ensures fresh(writer) && fresh(writer.state)
      ensures writer.state.output == output && writer.state.assumeRawMode == assumeRawMode
      ensures writer.state.lines == 0
    {
      writer := new LogWriter(output, assumeRawMode);
    }

    /** Every writer made shares the handler's single state. */
    method MakeWriter() returns (w: LogWriter)
      ensures fresh(w) && w.state == writer.state
    {
      w := writer.Clone();
    }
  }

  // ---------------------------------------------------------------------------
  // Properties of one write
  // ---------------------------------------------------------------------------

  /** A write succeeds exactly when every sink operation and the callback
      succeed; then the terminal sees the full redraw, the caller gets the
      count of the payload write alone, and the callback's count is kept. */
  lemma WriteSucceeds(env: Env, o: nat, c: nat, lines: nat, raw: bool, buf: Bytes)
    ensures var e := WriteEffect(env, o, c, lines, raw, buf);
      e.result.Ok? <==> Clean(env, o, o + 2 * lines + 7) && env.Render(c).Ok?
    ensures var e := WriteEffect(env, o, c, lines, raw, buf);
      e.result.Ok? ==>
        && e.result.value == env.Accepted(o + 2 * lines + 3, |buf|)
        && e.result.value <= |buf|
        && e.out == WriteTrace(lines, raw, buf[..e.result.value])
        && e.ops == o + 2 * lines + 7 && e.calls == c + 1
        && env.Render(c) == Ok(e.lines)
  {
    var j := FirstFail(env, o, 2 * lines + 3);
    FirstFailClean(env, o, 2 * lines + 3);
    if j < 2 * lines + 3 {
      WriteEffectErase(env, o, c, lines, raw, buf);
      assert !Clean(env, o, o + 2 * lines + 7) by {
        assert !Clean(env, o, o + 2 * lines + 3);
      }
    } else {
      FirstFailClean(env, o, 2 * lines + 3);
      WriteSucceedsPayload(env, o, c, lines, raw, buf);
    }
  }

  lemma WriteSucceedsPayload(env: Env, o: nat, c: nat, lines: nat, raw: bool, buf: Bytes)
    requires Clean(env, o, o + 2 * lines + 3)
    ensures var e := WriteEffect(env, o, c, lines, raw, buf);
      e.result.Ok? <==> Clean(env, o, o + 2 * lines + 7) && env.Render(c).Ok?
    ensures var e := WriteEffect(env, o, c, lines, raw, buf);
      e.result.Ok? ==>
        && e.result.value == env.Accepted(o + 2 * lines + 3, |buf|)
        && e.result.value <= |buf|
        && e.out == WriteTrace(lines, raw, buf[..e.result.value])
        && e.ops == o + 2 * lines + 7 && e.calls == c + 1
        && env.Render(c) == Ok(e.lines)
  {
    var po := o + 2 * lines + 3;
    FirstFailClean(env, o, 2 * lines + 3);
    WriteEffectPayload(env, o, c, lines, raw, buf);
    if env.Fails(o + 2 * lines + 3) {
      PayloadEffectFails(env, o + 2 * lines + 3, c, lines, raw, buf);
      assert !Clean(env, o, o + 2 * lines + 7);
    } else {
      PayloadEffectWritten(env, o + 2 * lines + 3, c, lines, raw, buf);
      StatusPhaseFacts(env, o + 2 * lines + 3 + 1, c);
      assert Clean(env, o, o + 2 * lines + 7) <==> Clean(env, o + 2 * lines + 3 + 1, o + 2 * lines + 3 + 1 + 3) by {
        if Clean(env, o + 2 * lines + 3 + 1, o + 2 * lines + 3 + 1 + 3) {
          forall k | o <= k < o + 2 * lines + 7 ensures !env.Fails(k) {
            if k >= po + 1 {
              assert po + 1 <= k < po + 1 + 3;
            } else if k < po {
              assert o <= k < o + 2 * lines + 3;
            }
          }
        }
      }
    }
  }

  /** After the erase: the toggles form one pair around the payload write
      when raw mode is assumed, even if the write fails. */
  lemma PayloadToggles(env: Env, po: nat, c: nat, lines: nat, raw: bool, buf: Bytes)
    ensures var w := PayloadEffect(env, po, c, lines, raw, buf);
      && Bracketed(w.out, false, false)
      && Count(w.out, RawOff) == (if raw then 1 else 0)
      && Count(w.out, RawOn) == (if raw then 1 else 0)
  {
    if env.Fails(po) {
      PayloadEffectFails(env, po, c, lines, raw, buf);
      BracketShape(raw, []);
    } else {
      PayloadTogglesWritten(env, po, c, lines, raw, buf);
    }
  }

  /** After the erase nothing moves up, and the status lines are rendered
      once exactly when the callback succeeded. */
  lemma PayloadRedraws(env: Env, po: nat, c: nat, lines: nat, raw: bool, buf: Bytes)
    ensures var w := PayloadEffect(env, po, c, lines, raw, buf);
      && Count(w.out, MoveUp1) == 0
      && w.ops > po
      && Count(w.out, Status) == (if w.calls == c + 1 && env.Render(c).Ok? then 1 else 0)
  {
    if env.Fails(po) {
      PayloadEffectFails(env, po, c, lines, raw, buf);
      BracketCounts(raw, []);
    } else {
      PayloadRedrawsWritten(env, po, c, lines, raw, buf);
    }
  }

  /** Only toggles around the payloads: no move up and no status render. */
  lemma BracketCounts(raw: bool, ps: seq<Cmd>)
    requires forall k :: 0 <= k < |ps| ==> ps[k].Payload?
    ensures Count(Bracket(raw, ps), MoveUp1) == 0 && Count(Bracket(raw, ps), Status) == 0
  {
    var pre: seq<Cmd> := if raw then [RawOff] else [];
    var post: seq<Cmd> := if raw then [RawOn] else [];
    CountNone(ps, MoveUp1);
    CountNone(ps, Status);
    CountAppend(pre, ps, MoveUp1);
    CountAppend(pre + ps, post, MoveUp1);
    CountAppend(pre, ps, Status);
    CountAppend(pre + ps, post, Status);
  }

  lemma {:induction false} CountNone(s: seq<Cmd>, c: Cmd)
    requires !c.Payload? && forall k :: 0 <= k < |s| ==> s[k].Payload?
    ensures Count(s, c) == 0
  {
    if s != [] {
      CountNone(s[1..], c);
    }
  }

  lemma PayloadTogglesWritten(env: Env, po: nat, c: nat, lines: nat, raw: bool, buf: Bytes)
    requires !env.Fails(po)
    ensures var w := PayloadEffect(env, po, c, lines, raw, buf);
      && Bracketed(w.out, false, false)
      && Count(w.out, RawOff) == (if raw then 1 else 0)
      && Count(w.out, RawOn) == (if raw then 1 else 0)
  {
    PayloadEffectWritten(env, po, c, lines, raw, buf);
    var ps: seq<Cmd> := [Payload(buf[..env.Accepted(po, |buf|)])];
    var s := StatusPhase(env, po + 1, c).out;
    var b := Bracket(raw, ps);
    BracketShape(raw, ps);
    StatusPhaseCounts(env, po + 1, c);
    NoTogglesKeep(s, false);
    BracketedAppend(b, s, false, false, false);
    CountAppend(b, s, RawOff);
    CountAppend(b, s, RawOn);
  }

  lemma PayloadRedrawsWritten(env: Env, po: nat, c: nat, lines: nat, raw: bool, buf: Bytes)
    requires !env.Fails(po)
    ensures var w := PayloadEffect(env, po, c, lines, raw, buf);
      && Count(w.out, MoveUp1) == 0
      && w.ops > po
      && Count(w.out, Status) == (if w.calls == c + 1 && env.Render(c).Ok? then 1 else 0)
  {
    PayloadEffectWritten(env, po, c, lines, raw, buf);
    var ps: seq<Cmd> := [Payload(buf[..env.Accepted(po, |buf|)])];
    var s := StatusPhase(env, po + 1, c).out;
    var b := Bracket(raw, ps);
    BracketCounts(raw, ps);
    StatusPhaseCounts(env, po + 1, c);
    StatusPhaseFacts(env, po + 1, c);
    CountAppend(b, s, MoveUp1);
    CountAppend(b, s, Status);
  }

  /** What happens to the line count once the erase succeeded. */
  lemma PayloadLines(env: Env, po: nat, c: nat, lines: nat, raw: bool, buf: Bytes)
    ensures var w := PayloadEffect(env, po, c, lines, raw, buf);
      && (w.calls == c || w.calls == c + 1)
      && (w.calls == c ==> w.lines == lines && w.result.Err?)
      && (w.calls == c + 1 && env.Render(c).Ok? ==> w.lines == env.Render(c).value)
      && (w.calls == c + 1 && env.Render(c).Err? ==> w.lines == lines && w.result.Err?)
  {
    if env.Fails(po) {
      PayloadEffectFails(env, po, c, lines, raw, buf);
    } else {
      PayloadEffectWritten(env, po, c, lines, raw, buf);
      StatusPhaseFacts(env, po + 1, c);
    }
  }

  /** The line count changes only through a successful callback, and it
      keeps the callback's count even when the flush after it fails. A
      failure before the callback leaves it alone. The status lines are
      rendered at most once per write. */
  lemma WriteLines(env: Env, o: nat, c: nat, lines: nat, raw: bool, buf: Bytes)
    ensures var e := WriteEffect(env, o, c, lines, raw, buf);
      && (e.calls == c || e.calls == c + 1)
      && (e.calls == c ==> e.lines == lines && e.result.Err?)
      && (e.calls == c + 1 && env.Render(c).Ok? ==> e.lines == env.Render(c).value)
      && (e.calls == c + 1 && env.Render(c).Err? ==> e.lines == lines && e.result.Err?)
      && Count(e.out, Status) == (if e.calls == c + 1 && env.Render(c).Ok? then 1 else 0)
  {
    var j := FirstFail(env, o, 2 * lines + 3);
    if j < 2 * lines + 3 {
      WriteEffectErase(env, o, c, lines, raw, buf);
      PrologueCounts(lines, j);
    } else {
      FirstFailClean(env, o, 2 * lines + 3);
      WriteLinesPayload(env, o, c, lines, raw, buf);
      WriteStatusPayload(env, o, c, lines, raw, buf);
    }
  }

  lemma WriteLinesPayload(env: Env, o: nat, c: nat, lines: nat, raw: bool, buf: Bytes)
    requires Clean(env, o, o + 2 * lines + 3)
    ensures var e := WriteEffect(env, o, c, lines, raw, buf);
      && (e.calls == c || e.calls == c + 1)
      && (e.calls == c ==> e.lines == lines && e.result.Err?)
      && (e.calls == c + 1 && env.Render(c).Ok? ==> e.lines == env.Render(c).value)
      && (e.calls == c + 1 && env.Render(c).Err? ==> e.lines == lines && e.result.Err?)
  {
    WriteEffectPayload(env, o, c, lines, raw, buf);
    PayloadLines(env, o + 2 * lines + 3, c, lines, raw, buf);
  }

  /** A complete prologue followed by the rest of a write: `lines` moves up,
      and one status render exactly when the callback succeeded. */
  lemma PrologueThenPayload(env: Env, po: nat, c: nat, lines: nat, raw: bool, buf: Bytes)
    ensures var w := PayloadEffect(env, po, c, lines, raw, buf);
      && Count(Prologue(lines) + w.out, MoveUp1) == lines
      && Count(Prologue(lines) + w.out, Status) == (if w.calls == c + 1 && env.Render(c).Ok? then 1 else 0)
  {
    var w := PayloadEffect(env, po, c, lines, raw, buf);
    PayloadRedraws(env, po, c, lines, raw, buf);
    PrologueMoves(lines);
    CountAppend(Prologue(lines), w.out, MoveUp1);
    CountAppend(Prologue(lines), w.out, Status);
  }

  lemma WriteStatusPayload(env: Env, o: nat, c: nat, lines: nat, raw: bool, buf: Bytes)
    requires Clean(env, o, o + 2 * lines + 3)
    ensures var e := WriteEffect(env, o, c, lines, raw, buf);
      Count(e.out, Status) == (if e.calls == c + 1 && env.Render(c).Ok? then 1 else 0)
  {
    WriteEffectPayload(env, o, c, lines, raw, buf);
    PrologueThenPayload(env, o + 2 * lines + 3, c, lines, raw, buf);
  }

  /** Before its payload a write erases exactly the lines the previous render
      reported, one (clear, move up) pair each, after moving to column 0 and
      resetting the colour; it never moves up more often than that. */
  lemma WriteErasesPrevious(env: Env, o: nat, c: nat, lines: nat, raw: bool, buf: Bytes)
    ensures var e := WriteEffect(env, o, c, lines, raw, buf);
      && Count(e.out, MoveUp1) <= lines
      && (e.ops > o + 2 * lines + 3 ==>
            && e.out[..2 * lines + 3] == Prologue(lines)
            && Count(e.out, MoveUp1) == lines)
  {
    var j := FirstFail(env, o, 2 * lines + 3);
    if j < 2 * lines + 3 {
      WriteEffectErase(env, o, c, lines, raw, buf);
      PrologueCounts(lines, j);
    } else {
      FirstFailClean(env, o, 2 * lines + 3);
      WriteErasesPayload(env, o, c, lines, raw, buf);
    }
  }

  lemma WriteErasesPayload(env: Env, o: nat, c: nat, lines: nat, raw: bool, buf: Bytes)
    requires Clean(env, o, o + 2 * lines + 3)
    ensures var e := WriteEffect(env, o, c, lines, raw, buf);
      && Count(e.out, MoveUp1) == lines
      && |e.out| >= 2 * lines + 3 && e.out[..2 * lines + 3] == Prologue(lines)
  {
    var w := PayloadEffect(env, o + 2 * lines + 3, c, lines, raw, buf);
    WriteEffectPayload(env, o, c, lines, raw, buf);
    PrologueThenPayload(env, o + 2 * lines + 3, c, lines, raw, buf);
    PrologueFirst(lines, w.out);
  }

  /** The first write through a fresh writer erases nothing. */
  lemma FirstWriteErasesNothing(env: Env, o: nat, c: nat, raw: bool, buf: Bytes)
    ensures Count(WriteEffect(env, o, c, 0, raw, buf).out, MoveUp1) == 0
  {
    WriteErasesPrevious(env, o, c, 0, raw, buf);
  }

  /** Raw-mode toggles always come in one properly nested pair around the
      payload write, also when that write fails, and never appear when raw
      mode is not assumed. */
  lemma WriteRawBracketed(env: Env, o: nat, c: nat, lines: nat, raw: bool, buf: Bytes)
    ensures var e := WriteEffect(env, o, c, lines, raw, buf);
      && Bracketed(e.out, false, false)
      && Count(e.out, RawOff) == Count(e.out, RawOn)
      && Count(e.out, RawOff) == (if raw && e.ops > o + 2 * lines + 3 then 1 else 0)
      && (raw ==> Guarded(e.out, false))
  {
    WriteGuarded(env, o, c, lines, raw, buf);
    var j := FirstFail(env, o, 2 * lines + 3);
    if j < 2 * lines + 3 {
      WriteEffectErase(env, o, c, lines, raw, buf);
      PrologueCounts(lines, j);
      NoTogglesKeep(Prologue(lines)[..j], false);
    } else {
      FirstFailClean(env, o, 2 * lines + 3);
      WriteRawPayload(env, o, c, lines, raw, buf);
    }
  }

  lemma WriteRawPayload(env: Env, o: nat, c: nat, lines: nat, raw: bool, buf: Bytes)
    requires Clean(env, o, o + 2 * lines + 3)
    ensures var e := WriteEffect(env, o, c, lines, raw, buf);
      && Bracketed(e.out, false, false)
      && Count(e.out, RawOff) == (if raw then 1 else 0)
      && Count(e.out, RawOn) == (if raw then 1 else 0)
      && e.ops > o + 2 * lines + 3
  {
    var w := PayloadEffect(env, o + 2 * lines + 3, c, lines, raw, buf);
    var e := WriteEffect(env, o, c, lines, raw, buf);
    WriteEffectPayload(env, o, c, lines, raw, buf);
    assert e.out == Prologue(lines) + w.out && e.ops == w.ops;
    PayloadToggles(env, o + 2 * lines + 3, c, lines, raw, buf);
    PrologueThen(lines, w.out);
  }

  /** After the erase, with raw mode assumed, the payload write happens
      while the guard is held, also when the status half fails after it. */
  lemma PayloadGuarded(env: Env, po: nat, c: nat, lines: nat, raw: bool, buf: Bytes)
    ensures var w := PayloadEffect(env, po, c, lines, raw, buf);
      raw ==> Guarded(w.out, false)
  {
    if raw {
      if env.Fails(po) {
        PayloadEffectFails(env, po, c, lines, raw, buf);
        EnclosedBracket(raw, []);
        EnclosedGuarded(Bracket(raw, []));
      } else {
        PayloadEffectWritten(env, po, c, lines, raw, buf);
        var b := Bracket(raw, [Payload(buf[..env.Accepted(po, |buf|)])]);
        EnclosedBracket(raw, [Payload(buf[..env.Accepted(po, |buf|)])]);
        EnclosedGuarded(b);
        StatusGuarded(env, po + 1, c, false);
        GuardedAppend(b, StatusPhase(env, po + 1, c).out, false, false);
      }
    }
  }

  /** With raw mode assumed, every payload write of a write happens while
      the guard is held, however the write ends. */
  lemma WriteGuarded(env: Env, o: nat, c: nat, lines: nat, raw: bool, buf: Bytes)
    ensures var e := WriteEffect(env, o, c, lines, raw, buf);
      raw ==> Guarded(e.out, false)
  {
    var j := FirstFail(env, o, 2 * lines + 3);
    if j < 2 * lines + 3 {
      WriteEffectErase(env, o, c, lines, raw, buf);
      PrologueGuarded(lines, j, false);
    } else {
      FirstFailClean(env, o, 2 * lines + 3);
      WriteGuardedPayload(env, o, c, lines, raw, buf);
    }
  }

  lemma WriteGuardedPayload(env: Env, o: nat, c: nat, lines: nat, raw: bool, buf: Bytes)
    requires Clean(env, o, o + 2 * lines + 3)
    ensures var e := WriteEffect(env, o, c, lines, raw, buf);
      raw ==> Guarded(e.out, false)
  {
    var w := PayloadEffect(env, o + 2 * lines + 3, c, lines, raw, buf);
    WriteEffectPayload(env, o, c, lines, raw, buf);
    PayloadGuarded(env, o + 2 * lines + 3, c, lines, raw, buf);
    PayloadToggles(env, o + 2 * lines + 3, c, lines, raw, buf);
    PrologueThenGuarded(lines, w.out);
  }
}
