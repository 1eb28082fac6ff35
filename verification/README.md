# tracing-statusbar, modelled in Dafny

`tracing-statusbar` keeps one or more status lines at the bottom of a
terminal while log lines scroll above them. Before each log payload the
engine erases the status lines drawn last time. To do that it moves to
column 0, resets the colour, issues one (clear line, move up) pair per
previous status line, and clears the current line. It then writes the
payload. When the terminal is assumed to be in raw mode, the payload is
written with raw mode switched off by a guard. Afterwards the engine moves
back to column 0 and calls a user callback. The callback draws the status
lines and reports how many it drew. Finally the engine flushes the output.

The crate has two execution modes:

- **Unthreaded** (`src/unthreaded.rs`): every cloned `LogWriter` shares one
  locked `WriteState`. Each `write` runs the whole redraw on the calling
  thread.
- **Threaded** (`src/threaded.rs`, `src/log_bridge.rs`): writers copy their
  bytes into pooled buffers and send them over a bounded channel.
  - A background thread (`handle_logs`) takes one entry with a blocking
    receive. It then drains whatever else is queued without blocking.
  - The whole batch is written between one erase and one callback.
  - Used buffers go back to the writers through a second bounded channel,
    the free list.
  - Dropping the handler sends a stop message and joins the thread.

The model has five modules:

- `Terminal` (`terminal.dfy`) holds the abstract command alphabet and the
  owned sink `Term`. `Term`'s `log` is what reached the terminal. Its `ops`
  and `calls` counters index an `Env` that says which sink operations fail,
  how many bytes a write takes and what the k-th callback returns. The
  module also defines the intended shapes: `Prologue` (the erase), `Bracket`
  (the raw-mode guard) and `Epilogue` (the status half).
- `Redraw` (`redraw.dfy`) holds the erase and status halves that both modes
  share.
- `Unthreaded` (`unthreaded.dfy`) models the writer state, `LogWriter` and
  `UnthreadedHandler`.
- `LogBridge` (`log_bridge.dfy`) models the two channels, the buffer pool,
  `LogSender`, `LogEntry`, `LogReceiver` and `init`. It also has a UTF-8
  well-formedness predicate (section 4 of RFC 3629) for the fallback print.
- `Threaded` (`threaded.dfy`) models the background thread and
  `ThreadedHandler`. The thread's view of the channel is a sequence of
  `Event`s: a message, or a moment with nothing queued. Its run is the
  `HandleLogs` method, proved against the `Handle` function.

The redraw methods of `Redraw`, `Unthreaded` and `Threaded` are proved
against specification functions: `WriteEffect`, `PayloadEffect`,
`StatusPhase`, `Drain`, `BatchEffect`, `BatchRound`, `RoundEffect` and
`Handle`. The lemmas below prove what the crate promises about those
functions. The bridge methods (`LogSender.Write`, `LogSender.Close`,
`LogEntry.Drop`, `LogReceiver.Recv`, `LogReceiver.TryRecv` and the two
`Release` methods) state their new channel state directly in their
`ensures`. Lemmas beside them show that every buffer stays owned in exactly
one place.

## Model

| member | source | states |
|---|---|---|
| Terminal.Term.Queue | src/unthreaded.rs:120-124 | a queued control command reaches the terminal exactly when its sink operation succeeds, and uses up one operation |
| Terminal.Term.Write | src/unthreaded.rs:149 | a payload write either fails or writes the first `n <= len` bytes, where `n` is the count the sink took, and returns that count |
| Terminal.Term.FlushOut | src/unthreaded.rs:162 | a flush either fails or appends one flush; it uses one operation and no callback |
| Terminal.Term.Render | src/unthreaded.rs:53-55 | one callback invocation: its result is the next callback result of the environment, and a status render reaches the terminal only on success |
| Terminal.Term.DisableRaw | src/utils.rs:12-17 | taking the raw-mode guard switches raw mode off and touches nothing else |
| Terminal.Term.EnableRaw | src/utils.rs:20-24 | dropping the guard switches raw mode back on and touches nothing else |
| Terminal.FirstFailClean | src/unthreaded.rs:119-139 | the operations before the first failure all succeed, the failure (if any) really fails, and no failure means every operation in the range succeeded |
| Terminal.BracketShape | src/unthreaded.rs:141-152 | payloads between the guard's toggles form one balanced pair when raw mode is assumed and no toggle otherwise |
| Terminal.EraseCounts | src/unthreaded.rs:127-133 | the erase loop for `n` lines issues exactly `n` clears and `n` moves up, and no toggle or status render |
| Redraw.EraseLines | src/unthreaded.rs:127-133 | the loop queues (clear, move up) pairs up to the first failing command; it succeeds exactly when all `2n` commands succeed |
| Redraw.ErasePrevious | src/unthreaded.rs:119-139 | column 0, reset colour, `lines` erase pairs and a final clear are queued in that order up to the first failure; success means the whole prologue reached the terminal |
| Redraw.PrologueCounts | src/unthreaded.rs:119-139 | any prefix of the erase holds no toggle and no status render and moves up at most `lines` times; the full erase moves up exactly `lines` times |
| Redraw.PrologueWritesNoPayload | src/threaded.rs:34-54 | the erase writes no payload bytes |
| Redraw.RenderStatus | src/unthreaded.rs:155-162 | column 0 with a flush, the callback, then the final flush, each only after the previous step succeeded; it returns the callback's result and whether every step succeeded |
| Redraw.StatusPhaseFacts | src/unthreaded.rs:155-162 | the callback runs exactly when column 0 was queued and flushed; the line count comes from the callback only; success is the whole epilogue; failure leaves a strict prefix of it |
| Redraw.StatusPhaseCounts | src/threaded.rs:81-89 | the status half issues no toggle and no move up, and one status render exactly when the callback succeeded |
| Unthreaded.WriteState.constructor | src/unthreaded.rs:41-48 | a fresh state remembers 0 status lines |
| Unthreaded.LogWriter.constructor | src/unthreaded.rs:90-98 | a new writer owns a fresh shared state with 0 lines and the given raw-mode flag |
| Unthreaded.LogWriter.Clone | src/unthreaded.rs:71-81 | a clone is a new writer over the same state object, so a write through one sets the count the next write through any clone erases |
| Unthreaded.UnthreadedHandler.constructor | src/unthreaded.rs:195-199 | the handler holds one writer over a fresh state with 0 lines |
| Unthreaded.UnthreadedHandler.MakeWriter | src/unthreaded.rs:209-211 | every writer made shares the handler's single state |
| Unthreaded.WriteState.WritePayload | src/unthreaded.rs:141-164 | the payload is written under the guard (released on failure too), then the status half; `lines` takes the callback's count as soon as the callback succeeds |
| Unthreaded.LogWriter.Write | src/unthreaded.rs:116-165 | terminal output, counters, result and the new line count are those of `WriteEffect`: erase, guarded payload, status half, each step aborting the write on failure |
| Unthreaded.LogWriter.Flush | src/unthreaded.rs:167-171 | flush only flushes: one flush operation, no command, no callback, the line count unchanged |
| Unthreaded.WriteSucceeds | src/unthreaded.rs:116-165 | a write succeeds if and only if every sink operation and the callback succeed; then it issues exactly erase, guarded payload, column 0, flush, status, flush, and returns the payload write's count only |
| Unthreaded.WriteLines | src/unthreaded.rs:155-162 | the line count changes only through a successful callback and is kept even when the final flush fails; a failure before the callback leaves it unchanged; at most one status render per write |
| Unthreaded.WriteErasesPrevious | src/unthreaded.rs:119-139 | a write never moves up more than the previous count; once the erase is complete, the output starts with that erase and moves up exactly `lines` times |
| Unthreaded.FirstWriteErasesNothing | src/unthreaded.rs:127-133 | with the initial count of 0 a write issues no move up |
| Unthreaded.WriteRawBracketed | src/unthreaded.rs:141-152 | raw-mode toggles always form one balanced pair around the payload write, also when that write fails, and there is none without the flag or when the erase failed; with raw mode assumed every payload write happens while the guard holds raw mode off |
| Unthreaded.WriteGuarded | src/unthreaded.rs:141-152 | with raw mode assumed, no payload byte of a write reaches the terminal outside the guard, whichever step fails |
| Unthreaded.PayloadGuarded | src/unthreaded.rs:141-152 | with raw mode assumed, the payload half writes its payload only between the guard's two toggles |
| Unthreaded.PayloadToggles | src/unthreaded.rs:141-152 | after the erase, exactly one toggle pair is issued with raw mode assumed, none without, also on a failed payload write |
| Unthreaded.PayloadRedraws | src/unthreaded.rs:149-160 | after the erase nothing moves up, and the status lines are rendered once exactly when the callback succeeded |
| Unthreaded.PayloadLines | src/unthreaded.rs:155-162 | after the erase the callback runs at most once; without a successful callback the count is unchanged and the write fails |
| LogBridge.TryRecvErrorFrom | src/log_bridge.rs:63-70 | an empty channel maps to `Empty` and a disconnected one to `Closed`, in both directions |
| LogBridge.RecvMap | src/log_bridge.rs:109-118 | the blocking receive yields an entry exactly for a queued `Some`; the stop message and a disconnected channel both end the stream |
| LogBridge.TryRecvMap | src/log_bridge.rs:120-129 | the non-blocking receive yields an entry exactly for a queued `Some`; the stop message or a disconnect reads `Closed`; an empty channel reads `Empty` |
| LogBridge.RecvAgreesWithTryRecv | src/log_bridge.rs:109-129 | whenever the blocking receive would not block, the two receives agree on the entry and on the end of the stream |
| LogBridge.Fill | src/log_bridge.rs:29-38 | the buffer handed over holds exactly `buf`, reusing the free list's head when there is one and a new allocation otherwise |
| LogBridge.PrintedText | src/log_bridge.rs:47 | the fallback print is the payload when it is valid UTF-8 and the empty string otherwise |
| LogBridge.AsciiIsUtf8 | src/log_bridge.rs:47 | an ASCII payload that falls back to standard output is printed unchanged |
| LogBridge.WriteOwnership | src/log_bridge.rs:26-51 | a write keeps every live buffer in exactly one place: the queue, the free list or a held entry |
| LogBridge.CloseOwnership | src/log_bridge.rs:20-22 | the stop message carries no buffer |
| LogBridge.ReceiveOwnership | src/log_bridge.rs:109-129 | receiving moves a queued buffer to the entries the thread holds |
| LogBridge.DiscardOwnership | src/threaded.rs:130-137 | dropping the queued messages with the receiving end frees their buffers and keeps the rest owned once |
| LogBridge.FreePoolOwnership | src/log_bridge.rs:15-16 | dropping the free list with the last writer handle frees its buffers and keeps the rest owned once |
| LogBridge.DropOwnership | src/log_bridge.rs:86-92 | dropping an entry moves its buffer to the free list, or frees it when no writer is left |
| LogBridge.Channels.constructor | src/log_bridge.rs:136-137 | both channels start empty, with the receiver alive and one sender |
| LogBridge.Init | src/log_bridge.rs:132-150 | the sender and receiver share fresh channels that are empty, bounded by `Capacity` (1024) and have no buffer in flight; the allocation counter starts at 0 and the writer handle is live |
| LogBridge.LogSender.Clone | src/log_bridge.rs:7-17 | only a live handle is cloned; the clone is one more live handle on the same channels, with nothing else changed |
| LogBridge.LogSender.Write | src/log_bridge.rs:26-51 | it always returns `Ok(len)`; a buffer holding exactly `buf` (recycled or new) is queued last when the receiver is alive; otherwise nothing is queued and the text (or "") is printed |
| LogBridge.LogSender.Close | src/log_bridge.rs:20-22 | a `None` stop message is queued last when the receiver is alive; otherwise the failed send is ignored and nothing changes |
| LogBridge.LogSender.Release | src/log_bridge.rs:7-17 | dropping a live writer handle removes one sender and leaves the handle unusable; the last handle to go drops the free list it owns, freeing the buffers waiting there; nothing else changes |
| LogBridge.LogSender.Flush | src/log_bridge.rs:53-55 | flush returns `Ok` and changes nothing |
| LogBridge.LogEntry.constructor | src/log_bridge.rs:114-117 | an entry holds the received buffer |
| LogBridge.LogEntry.Deref | src/log_bridge.rs:94-100 | dereferencing yields exactly the buffer's bytes |
| LogBridge.LogEntry.Drop | src/log_bridge.rs:86-92 | the buffer is returned to the end of the free list exactly once (or freed when no writer is left); a second drop finds nothing; it requires a free slot, because the source's send waits for one |
| LogBridge.LogEntry.DropNonBlocking | src/log_bridge.rs:86-92 | corrected drop: it never waits; the buffer goes to the end of the free list when a writer is left and there is room, and is freed otherwise; the free list stays within `Capacity` |
| LogBridge.FreeListFills | src/log_bridge.rs:86-92 | from a fresh bridge, `Capacity + 1` writes with the first entry held fill the free list, so the held entry's drop has to wait while one writer is left and nothing is queued |
| LogBridge.LogReceiver.Recv | src/log_bridge.rs:109-118 | it takes the oldest queued message; it yields an entry exactly for a buffer, and nothing for the stop message or when every writer is gone |
| LogBridge.LogReceiver.TryRecv | src/log_bridge.rs:120-129 | it takes the oldest queued message if there is one: an entry for a buffer, `Closed` for the stop message or a disconnect, `Empty` otherwise |
| LogBridge.LogReceiver.Release | src/log_bridge.rs:102-106 | dropping the receiving end drops the queued messages and frees their buffers; later writes fall back to standard output; the free list and the printed text are unchanged |
| Threaded.SkipIdle | src/threaded.rs:33 | the blocking receive skips only idle moments (every event it passes over is idle) and stops at a message or the end of the stream |
| Threaded.DrainQueued | src/threaded.rs:67-76 | the loop writes every queued entry until the channel is empty (`break`) or closed (`return`) or a write fails, exactly as `Drain` describes; when it breaks on an empty channel it stopped at an idle moment after taking every buffer queued before it |
| Threaded.DrainInOrder | src/threaded.rs:67-76 | the drain writes only payloads, which are the queued entries in order, each cut to what the sink took; found empty, it stopped at the first idle moment, took every buffer queued before it and wrote exactly one payload for each, leaving the rest for later |
| Threaded.DrainEmptied | src/threaded.rs:67-76 | a drain ends as empty only at an idle moment, with every event it passed over a queued buffer and one payload written per buffer |
| Threaded.DrainStopsAtIdle | src/threaded.rs:67-76 | after a burst of queued buffers followed by an idle moment, a drain that ends as empty takes the whole burst, no less and no more, and writes one payload per buffer |
| Threaded.WriteBatch | src/threaded.rs:56-79 | the guard is taken, the first entry written, the channel drained and the guard released on every path, as `BatchEffect` describes |
| Threaded.BatchShape | src/threaded.rs:56-79 | a batch is enclosed: with raw mode assumed it starts with the guard's toggle off, ends with the toggle on and holds only payloads between them; without raw mode it is payloads only |
| Threaded.BatchInOrder | src/threaded.rs:63-76 | a batch writes the received entry and then the drained ones, in order |
| Threaded.FinishRound | src/threaded.rs:56-89 | the batch, then column 0, the callback and the flush, with any failure aborting the thread and a close mid-drain ending it, as `BatchRound` describes |
| Threaded.RunRound | src/threaded.rs:33-89 | one loop iteration: no entry ends the loop; otherwise erase, batch and status half, as `RoundEffect` describes |
| Threaded.HandleLogs | src/threaded.rs:21-91 | the thread starts with 0 lines and runs rounds until one ends it; its output and outcome are those of `Handle` |
| Threaded.RoundFinishes | src/threaded.rs:33 | the loop ends, having written nothing, exactly when the stream offers no further entry before the stop message or the end |
| Threaded.RoundRedraws | src/threaded.rs:34-89 | a round that lets the thread go on is erase of the previous count, then the batch enclosed by one toggle pair with only payloads inside (no toggle without raw mode), then column 0, flush, status, flush; the callback runs once and its count is the next round's `lines` |
| Threaded.RoundCoalesces | src/threaded.rs:33-89 | a burst of `k` buffers queued back to back, followed by an idle moment, is one round when the thread goes on: all `k` are written, the round ends right after the burst, and the callback runs once for the whole burst |
| Threaded.RoundClosed | src/threaded.rs:74 | a close during the drain ends the thread after the enclosed batch and the guard's release, with no callback and no flush |
| Threaded.BatchRoundGuarded | src/threaded.rs:56-89 | with raw mode assumed, a batch and the status half after it write payloads only while the guard is held |
| Threaded.RoundGuarded | src/threaded.rs:33-89 | with raw mode assumed, no round writes a payload outside the guard, whatever its end |
| Threaded.RoundBracketed | src/threaded.rs:56-79 | every round, whatever its end, leaves toggles balanced, and there are none without raw mode |
| Threaded.RoundInOrder | src/threaded.rs:33-76 | unless the thread aborts, a round's payloads are the entries it took off the stream in order, and the next round starts after them |
| Threaded.HandleBracketed | src/threaded.rs:21-91 | over the whole run, toggles are balanced, also when the thread panics or stops mid-batch, and there are none without raw mode |
| Threaded.HandleGuarded | src/threaded.rs:21-91 | with raw mode assumed, over the whole run no payload reaches the terminal while raw mode is on |
| Threaded.HandleInOrder | src/threaded.rs:21-91 | unless the thread panics, every entry up to the stop message reaches the terminal, in the order sent, each cut to what the sink took |
| Threaded.ThreadedHandler.constructor | src/threaded.rs:119-143 | the handler sets up fresh bridge channels, holds the one join handle of the thread and the receiving end the thread owns |
| Threaded.ThreadedHandler.MakeWriter | src/threaded.rs:163-165 | every writer made is one more handle on the handler's channels |
| Threaded.ThreadedHandler.Drop | src/threaded.rs:147-157 | the stop message is sent first (or ignored when the thread is gone), then the thread is joined if it has not been; over the handler's life it is joined exactly once; once the join returns the thread has dropped the receiving end, so the queue is empty and the receiver is gone; the handler's own sender is dropped last, and when no writer outlives it the free list is freed |
| Threaded.WriteAfterDrop | src/log_bridge.rs:43-50 | after the handler is dropped, a write through a surviving writer still returns `Ok(len)`, queues nothing and prints its text |

## Left out

- Concurrency is not modelled.
  - Lock acquisition is not modelled.
  - Interleavings between writers and the background thread are not modelled.
  - Blocking is left out: `LogSender.Write`, `LogSender.Close`,
    `LogEntry.Drop` and `LogReceiver.Recv` require states in which the
    standard channel would not block. The wait in `LogEntry.Drop` can be
    permanent (see "## Findings").
  - The thread's view of the channel is a sequence of events, not the
    `LogReceiver` object.
- Threaded.ThreadedHandler.constructor: the spawned thread is not tied to
  `HandleLogs`. The join handle is an opaque token. The handler keeps the
  receiving end `Init` returns in place of the thread that owns it.
- Threaded.ThreadedHandler.Drop: the thread's consumption of the queue
  before it stops is not modelled. At the join the queued messages are
  dropped with the receiving end and their buffers freed; in the source the
  thread writes them first and returns their buffers to the free list.
  Entries still held (`lent`) are left alone, and a join that reports a
  panic (`expect` on the join result) is not modelled.
- Panics (`expect`) become the `Aborted` outcome of the thread, or a
  precondition (a poisoned mutex never happens). On such a panic the
  raw-mode guard is still dropped and switches raw mode back on; the model
  keeps that release. Other drops during unwinding (a held `LogEntry`, the
  thread's receiving end) are not modelled.
- Switching raw mode on or off never fails in the model. `RawModeGuard`
  panics on such a failure.
- Crossterm's escape-sequence encoding is not modelled. Commands stay
  abstract, and `execute!` is a queued command followed by a flush.
- Terminal.Term.Write: `Write::write` is a single sink operation. It may
  accept fewer bytes than offered. How the sink buffers is not modelled.
- The status callback is an environment function of its invocation count.
  It is not arbitrary code writing to the sink.
- The threaded thread ignores short writes (`let _ = output.write(...)`). The
  model records each payload cut to what the sink took, which is what `Leads`
  states.
- The UTF-8 check is the syntax of section 4 of RFC 3629. The standard
  library's decoder is not modelled.
- `src/utils.rs`, `src/builder.rs` and `src/lib.rs` are not part of this
  model beyond the guard's two toggles. The builder's `assume_raw_mode`
  flag (default false, set by `assume_raw_mode()`) is the constructors'
  `assumeRawMode`/`raw` parameter.
- The `tracing` integration (`MakeWriter` plumbing beyond cloning) and the
  example programs are not part of this model.
- LogBridge.LogEntry.Drop requires a free slot in the free list. In the
  source the return waits until a writer takes a buffer off the list. When
  no writer writes again, for example because the handler is being dropped
  and joins the thread, the wait never ends.
- LogBridge.LogSender.Release: which handles are still live is a ghost flag
  per handle. Rust's ownership rules, which rule out using a dropped
  handle, are not modelled beyond that flag.
- LogBridge.LogEntry.Deref requires the buffer to be present. The source
  unwraps it, and it is absent only after the entry was dropped.
- Buffers are identified by an allocation counter. Freeing memory is
  modelled only as the buffer no longer being owned anywhere.

## Findings

| source | as written | input that shows it | evidently intended | confidence | as-written member | corrected member |
|---|---|---|---|---|---|---|
| src/log_bridge.rs:89 | dropping an entry returns its buffer with a blocking send on the free list, which holds 1024 buffers, and only a write ever takes a buffer off it | the thread holds the entry from its blocking receive while one writer sends 1024 more lines, each in a new buffer; the drain returns those 1024 to the free list, and the held entry's drop then waits for a slot; if the handler is dropped now, the join waits forever | a full free list frees the returned buffer instead of waiting | medium, not executed | LogBridge.FreeListFills | LogBridge.LogEntry.DropNonBlocking |
