/** The threaded engine: writers hand their log lines to the bridge, and a
    background thread takes them off in batches, writes each batch below the
    erased status lines of the previous render and renders the status lines
    once per batch. */
module Threaded {
  import opened Terminal
  import opened Redraw
  import opened LogBridge

  // ---------------------------------------------------------------------------
  // What the background thread receives
  // ---------------------------------------------------------------------------

  /** One moment of the message channel as the background thread sees it: a
      message (a log buffer, or `None` asking the thread to stop), or a
      moment at which nothing is queued although writers are still alive.
      After the last event every writer handle is gone. */
  datatype Event = Sent(msg: Option<Buffer>) | Idle

  /** Nothing but idle moments from event `i` up to event `j`. */
  predicate IdleBetween(evs: seq<Event>, i: nat, j: nat)
    requires i <= j <= |evs|
  {
    forall k :: i <= k < j ==> evs[k].Idle?
  }

  /** Nothing but queued log buffers from event `i` up to event `j`: a burst
      of writes that the thread finds waiting. */
  predicate QueuedBetween(evs: seq<Event>, i: nat, j: nat)
    requires i <= j <= |evs|
  {
    forall k :: i <= k < j ==> evs[k].Sent? && evs[k].msg.Some?
  }

  /** The blocking receive waits through idle moments: the index of the
      message it returns, or the end of the stream. */
  function SkipIdle(evs: seq<Event>, i: nat): (j: nat)
    requires i <= |evs|
    ensures i <= j <= |evs|
    ensures j < |evs| ==> evs[j].Sent?
    ensures IdleBetween(evs, i, j)
    decreases |evs| - i
  {
    if i == |evs| || evs[i].Sent? then i else SkipIdle(evs, i + 1)
  }

  /** The standard channel's blocking receive at a message or at the end of
      the stream, where every sender is gone. */
  function StdRecvAt(evs: seq<Event>, j: nat): StdRecv
    requires j <= |evs| && (j < |evs| ==> evs[j].Sent?)
  {
    if j < |evs| then Received(evs[j].msg) else RecvError
  }

  /** The standard channel's non-blocking receive at index `i`. */
  function StdTryRecvAt(evs: seq<Event>, i: nat): StdTryRecv
    requires i <= |evs|
  {
    if i == |evs| then TryFailed(Disconnected)
    else match evs[i]
      case Idle => TryFailed(StdEmpty)
      case Sent(m) => TryReceived(m)
  }

  /** The log payloads the thread is offered from index `i` on, up to the stop
      message or the end of the stream. */
  function EntriesFrom(evs: seq<Event>, i: nat): seq<Bytes>
    requires i <= |evs|
    decreases |evs| - i
  {
    if i == |evs| then []
    else match evs[i]
      case Idle => EntriesFrom(evs, i + 1)
      case Sent(None) => []
      case Sent(Some(b)) => [b.data] + EntriesFrom(evs, i + 1)
  }

  // ---------------------------------------------------------------------------
  // One batch
  // ---------------------------------------------------------------------------

  /** How draining the channel ended: it was found empty, the stream was
      closed, or a payload write failed. */
  datatype DrainEnd = Emptied | ClosedEarly | WriteFailed

  /** What draining leaves behind: the commands that reached the terminal,
      how it ended, the sink operation counter and the next event index. */
  datatype Drained = Drained(out: seq<Cmd>, end: DrainEnd, ops: nat, next: nat)

  /** A drain from event `i` that found the channel empty stopped at an
      idle moment, after taking every buffer queued before it and writing
      one payload for each. */
  predicate EmptiedAtIdle(evs: seq<Event>, i: nat, d: Drained)
    requires i <= |evs|
  {
    d.end == Emptied ==>
      && i < d.next <= |evs| && evs[d.next - 1].Idle? && QueuedBetween(evs, i, d.next - 1)
      && |d.out| == d.next - 1 - i
  }

  /** The drain loop from event `i` and sink operation `o` on: every queued
      entry is written (the count the sink accepted is ignored) until the
      channel is empty or closed, or a write fails. */
  function Drain(env: Env, evs: seq<Event>, i: nat, o: nat): (d: Drained)
    requires i <= |evs|
    ensures i <= d.next <= |evs| && o <= d.ops
    decreases |evs| - i
  {
    match TryRecvMap(StdTryRecvAt(evs, i))
    case NotReady(Empty) => Drained([], Emptied, o, i + 1)
    case NotReady(Closed) => Drained([], ClosedEarly, o, if i < |evs| then i + 1 else i)
    case Ready(b) =>
      if env.Fails(o) then Drained([], WriteFailed, o + 1, i + 1)
      else
        var d := Drain(env, evs, i + 1, o + 1);
        d.(out := [Payload(b.data[..env.Accepted(o, |b.data|)])] + d.out)
  }

  /** A batch whose first entry `data` came from the blocking receive and
      whose remaining entries are drained from event `i` on, written while the
      raw-mode guard is held when raw mode is assumed. The guard is released
      however the batch ends. */
  function BatchEffect(env: Env, evs: seq<Event>, i: nat, raw: bool, o: nat, data: Bytes): (b: Drained)
    requires i <= |evs|
    ensures i <= b.next <= |evs| && o < b.ops
  {
    if env.Fails(o) then Drained(Bracket(raw, []), WriteFailed, o + 1, i)
    else
      var d := Drain(env, evs, i, o + 1);
      Drained(Bracket(raw, [Payload(data[..env.Accepted(o, |data|)])] + d.out), d.end, d.ops, d.next)
  }


  // ---------------------------------------------------------------------------
  // The whole thread
  // ---------------------------------------------------------------------------

  /** How the thread ended: the stream ended between batches, it was closed
      while a batch was being drained, or a terminal operation failed (the
      thread panics). */
  datatype Outcome = Finished | ClosedMidBatch | Aborted

  /** What one round of the thread's loop leaves behind: the commands that
      reached the terminal, how the thread ended if it did, the counters, the
      next event index and the status line count for the next round. */
  datatype Round = Round(out: seq<Cmd>, stop: Option<Outcome>, ops: nat, calls: nat, next: nat, lines: nat)

  /** The part of a round after the erase, at sink operation `o`: the batch
      whose first entry is `data`, drained from event `i` on, then the status
      half of the redraw. */
  function BatchRound(env: Env, evs: seq<Event>, i: nat, raw: bool, o: nat, c: nat, lines: nat, data: Bytes): (r: Round)
    requires i <= |evs|
    ensures r.stop.None? ==> i <= r.next <= |evs|
  {
    var b := BatchEffect(env, evs, i, raw, o, data);
    if b.end == WriteFailed then Round(b.out, Some(Aborted), b.ops, c, b.next, lines)
    else if b.end == ClosedEarly then Round(b.out, Some(ClosedMidBatch), b.ops, c, b.next, lines)
    else
      var s := StatusPhase(env, b.ops, c);
      if !s.ok || s.status.Err? then Round(b.out + s.out, Some(Aborted), s.ops, s.calls, b.next, lines)
      else Round(b.out + s.out, None, s.ops, s.calls, b.next, s.status.value)
  }

  /** One round of the thread's loop from event `i` on, at sink operation
      `o`, after `c` callback invocations, when the previous render drew
      `lines` status lines: wait for an entry (the loop ends when none comes),
      erase the previous status lines, write the batch, render. */
  function RoundEffect(env: Env, evs: seq<Event>, i: nat, raw: bool, o: nat, c: nat, lines: nat): (r: Round)
    requires i <= |evs|
    ensures r.stop.None? ==> i < r.next <= |evs|
  {
    var j := SkipIdle(evs, i);
    var m := RecvMap(StdRecvAt(evs, j));
    if m.None? then Round([], Some(Finished), o, c, j, lines)
    else
      var e := FirstFail(env, o, 2 * lines + 3);
      if e < 2 * lines + 3 then Round(Prologue(lines)[..e], Some(Aborted), o + e + 1, c, j + 1, lines)
      else
        var r := BatchRound(env, evs, j + 1, raw, o + 2 * lines + 3, c, lines, m.value.data);
        r.(out := Prologue(lines) + r.out)
  }

  /** A round whose erase went through is the prologue followed by the rest
      of the round. */
  lemma RoundEffectBatch(env: Env, evs: seq<Event>, i: nat, raw: bool, o: nat, c: nat, lines: nat)
    requires i <= |evs|
    requires RecvMap(StdRecvAt(evs, SkipIdle(evs, i))).Some?
    requires Clean(env, o, o + 2 * lines + 3)
    ensures var j := SkipIdle(evs, i);
      var br := BatchRound(env, evs, j + 1, raw, o + 2 * lines + 3, c, lines, RecvMap(StdRecvAt(evs, j)).value.data);
      RoundEffect(env, evs, i, raw, o, c, lines) == br.(out := Prologue(lines) + br.out)
  {
    FirstFailClean(env, o, 2 * lines + 3);
  }

  /** What the thread leaves behind. */
  datatype Handled = Handled(out: seq<Cmd>, outcome: Outcome, ops: nat, calls: nat)

  /** The thread from event `i` on, after the commands `acc` reached the
      terminal: rounds until one of them ends it. */
  function Handle(env: Env, evs: seq<Event>, i: nat, raw: bool, o: nat, c: nat, lines: nat, acc: seq<Cmd>): (h: Handled)
    requires i <= |evs|
    decreases |evs| - i
  {
    var r := RoundEffect(env, evs, i, raw, o, c, lines);
    if r.stop.Some? then Handled(acc + r.out, r.stop.value, r.ops, r.calls)
    else Handle(env, evs, r.next, raw, r.ops, r.calls, r.lines, acc + r.out)
  }

  // ---------------------------------------------------------------------------
  // What reaches the terminal
  // ---------------------------------------------------------------------------

  /** The bytes of the payload writes in `s`, in order. */
  function Payloads(s: seq<Cmd>): (ws: seq<Bytes>)
    ensures |ws| <= |s|
  {
    if s == [] then [] else (if s[0].Payload? then [s[0].data] else []) + Payloads(s[1..])
  }

  lemma {:induction false} PayloadsAppend(s: seq<Cmd>, t: seq<Cmd>)
    ensures Payloads(s + t) == Payloads(s) + Payloads(t)
  {
    if s != [] {
      assert (s + t)[1..] == s[1..] + t;
      PayloadsAppend(s[1..], t);
    } else {
      assert s + t == t;
    }
  }

  lemma {:induction false} PayloadsNone(s: seq<Cmd>)
    requires forall k :: 0 <= k < |s| ==> !s[k].Payload?
    ensures Payloads(s) == []
  {
    if s != [] {
      PayloadsNone(s[1..]);
    }
  }

  /** Every command is a payload write or a raw-mode toggle. */
  predicate PayloadsOrToggles(s: seq<Cmd>) {
    forall k :: 0 <= k < |s| ==> s[k].Payload? || s[k] == RawOff || s[k] == RawOn
  }

  /** The written payloads `ws` are, in order, truncations of the first
      `|ws|` entries of `es`, and `rest` is what follows them. */
  predicate Leads(ws: seq<Bytes>, es: seq<Bytes>, rest: seq<Bytes>) {
    |ws| <= |es| && es[|ws|..] == rest && forall k :: 0 <= k < |ws| ==> ws[k] <= es[k]
  }

  lemma LeadsTrans(w1: seq<Bytes>, w2: seq<Bytes>, es: seq<Bytes>, r1: seq<Bytes>, r2: seq<Bytes>)
    requires Leads(w1, es, r1) && Leads(w2, r1, r2)
    ensures Leads(w1 + w2, es, r2)
  {
    forall k | |w1| <= k < |w1 + w2| ensures (w1 + w2)[k] <= es[k] {
      assert r1[k - |w1|] == es[k];
    }
  }

  /** The blocking receive skips idle moments only. */
  lemma {:induction false} SkipIdleEntries(evs: seq<Event>, i: nat)
    requires i <= |evs|
    ensures EntriesFrom(evs, i) == EntriesFrom(evs, SkipIdle(evs, i))
    decreases |evs| - i
  {
    if i < |evs| && evs[i].Idle? {
      SkipIdleEntries(evs, i + 1);
    }
  }

  /** The drain loop writes nothing but payloads, the entries it takes off
      the channel in the order they were queued, each cut to what the sink
      accepted. It stops as empty only at an idle moment, having taken every
      buffer queued before it, one payload each, and leaves the rest of the
      stream for later. */
  lemma {:induction false} DrainInOrder(env: Env, evs: seq<Event>, i: nat, o: nat)
    requires i <= |evs|
    ensures var d := Drain(env, evs, i, o);
      && (forall k :: 0 <= k < |d.out| ==> d.out[k].Payload?)
      && (d.end == ClosedEarly ==> Leads(Payloads(d.out), EntriesFrom(evs, i), []))
      && (d.end == Emptied ==> Leads(Payloads(d.out), EntriesFrom(evs, i), EntriesFrom(evs, d.next)))
      && EmptiedAtIdle(evs, i, d)
    decreases |evs| - i
  {
    var d := Drain(env, evs, i, o);
    var p := TryRecvMap(StdTryRecvAt(evs, i));
    if p.Ready? && !env.Fails(o) {
      var b := p.buffer;
      assert evs[i] == Sent(Some(b));
      DrainInOrder(env, evs, i + 1, o + 1);
      var rest := Drain(env, evs, i + 1, o + 1);
      var w := b.data[..env.Accepted(o, |b.data|)];
      assert d.out == [Payload(w)] + rest.out;
      PayloadsAppend([Payload(w)], rest.out);
      assert Payloads([Payload(w)]) == [w];
      assert Leads([w], [b.data] + EntriesFrom(evs, i + 1), EntriesFrom(evs, i + 1));
      if d.end == ClosedEarly {
        LeadsTrans([w], Payloads(rest.out), EntriesFrom(evs, i), EntriesFrom(evs, i + 1), []);
      } else if d.end == Emptied {
        LeadsTrans([w], Payloads(rest.out), EntriesFrom(evs, i), EntriesFrom(evs, i + 1), EntriesFrom(evs, d.next));
      }
    }
    DrainEmptied(env, evs, i, o);
  }

  lemma {:induction false} DrainEmptied(env: Env, evs: seq<Event>, i: nat, o: nat)
    requires i <= |evs|
    ensures EmptiedAtIdle(evs, i, Drain(env, evs, i, o))
    decreases |evs| - i
  {
    var p := TryRecvMap(StdTryRecvAt(evs, i));
    if p.Ready? && !env.Fails(o) {
      DrainEmptied(env, evs, i + 1, o + 1);
      assert evs[i] == Sent(Some(p.buffer));
      var d := Drain(env, evs, i, o);
      if d.end == Emptied {
        assert QueuedBetween(evs, i, d.next - 1);
      }
      assert EmptiedAtIdle(evs, i, d);
    }
  }

  /** Found empty, the drain stops at the first idle moment after a burst of
      queued buffers, having written one payload for each of them. */
  lemma DrainStopsAtIdle(env: Env, evs: seq<Event>, i: nat, o: nat, j: nat)
    requires i <= j < |evs| && QueuedBetween(evs, i, j) && evs[j].Idle?
    requires Drain(env, evs, i, o).end == Emptied
    ensures Drain(env, evs, i, o).next == j + 1 && |Drain(env, evs, i, o).out| == j - i
  {
    DrainEmptied(env, evs, i, o);
  }

  /** A burst of queued buffers offers one entry each. */
  lemma {:induction false} QueuedEntries(evs: seq<Event>, i: nat, j: nat)
    requires i <= j <= |evs| && QueuedBetween(evs, i, j)
    ensures |EntriesFrom(evs, i)| == (j - i) + |EntriesFrom(evs, j)|
    decreases j - i
  {
    if i < j {
      QueuedEntries(evs, i + 1, j);
    }
  }

  /** A batch writes only payloads, enclosed in one toggle pair taken
      exactly when raw mode is assumed. */
  lemma BatchShape(env: Env, evs: seq<Event>, i: nat, raw: bool, o: nat, data: Bytes)
    requires i <= |evs|
    ensures var b := BatchEffect(env, evs, i, raw, o, data);
      && Enclosed(raw, b.out)
      && PayloadsOrToggles(b.out) && Bracketed(b.out, false, false)
      && Count(b.out, RawOff) == (if raw then 1 else 0) && Count(b.out, RawOn) == (if raw then 1 else 0)
  {
    if env.Fails(o) {
      BracketShape(raw, []);
      EnclosedBracket(raw, []);
    } else {
      var d := Drain(env, evs, i, o + 1);
      DrainInOrder(env, evs, i, o + 1);
      var mid := [Payload(data[..env.Accepted(o, |data|)])] + d.out;
      assert forall k :: 0 <= k < |mid| ==> mid[k].Payload?;
      BracketShape(raw, mid);
      EnclosedBracket(raw, mid);
    }
  }

  lemma BracketPayloads(raw: bool, mid: seq<Cmd>)
    ensures Payloads(Bracket(raw, mid)) == Payloads(mid)
  {
    var pre: seq<Cmd> := if raw then [RawOff] else [];
    var post: seq<Cmd> := if raw then [RawOn] else [];
    PayloadsNone(pre);
    PayloadsNone(post);
    PayloadsAppend(pre, mid);
    PayloadsAppend(pre + mid, post);
  }

  lemma LeadsCons(w: Bytes, e: Bytes, ws: seq<Bytes>, es: seq<Bytes>, rest: seq<Bytes>)
    requires w <= e && Leads(ws, es, rest)
    ensures Leads([w] + ws, [e] + es, rest)
  {
    assert ([e] + es)[|[w] + ws|..] == es[|ws|..];
  }

  /** A batch writes the received entry first, then the drained ones, in
      order, each cut to what the sink accepted. */
  lemma BatchInOrder(env: Env, evs: seq<Event>, i: nat, raw: bool, o: nat, data: Bytes)
    requires i <= |evs|
    ensures var b := BatchEffect(env, evs, i, raw, o, data);
      && (b.end == ClosedEarly ==> Leads(Payloads(b.out), [data] + EntriesFrom(evs, i), []))
      && (b.end == Emptied ==> Leads(Payloads(b.out), [data] + EntriesFrom(evs, i), EntriesFrom(evs, b.next)))
  {
    if !env.Fails(o) {
      var d := Drain(env, evs, i, o + 1);
      DrainInOrder(env, evs, i, o + 1);
      var w := data[..env.Accepted(o, |data|)];
      BracketPayloads(raw, [Payload(w)] + d.out);
      PayloadsAppend([Payload(w)], d.out);
      assert Payloads([Payload(w)]) == [w];
      if d.end == ClosedEarly {
        LeadsCons(w, data, Payloads(d.out), EntriesFrom(evs, i), []);
      } else if d.end == Emptied {
        LeadsCons(w, data, Payloads(d.out), EntriesFrom(evs, i), EntriesFrom(evs, d.next));
      }
    }
  }

  /** `Handle` one round at a time. */
  lemma HandleStep(env: Env, evs: seq<Event>, i: nat, raw: bool, o: nat, c: nat, lines: nat, acc: seq<Cmd>)
    requires i <= |evs|
    ensures var r := RoundEffect(env, evs, i, raw, o, c, lines);
      && (r.stop.Some? ==> Handle(env, evs, i, raw, o, c, lines, acc) == Handled(acc + r.out, r.stop.value, r.ops, r.calls))
      && (r.stop.None? ==> Handle(env, evs, i, raw, o, c, lines, acc) == Handle(env, evs, r.next, raw, r.ops, r.calls, r.lines, acc + r.out))
  {
  }

  /** A round ends the thread with nothing written exactly when the stream
      offers no further entry: the loop ends on the stop message or when every
      writer is gone. */
  lemma RoundFinishes(env: Env, evs: seq<Event>, i: nat, raw: bool, o: nat, c: nat, lines: nat)
    requires i <= |evs|
    ensures var r := RoundEffect(env, evs, i, raw, o, c, lines);
      && (r.stop == Some(Finished) <==> EntriesFrom(evs, i) == [])
      && (r.stop == Some(Finished) ==> r.out == [] && r.ops == o && r.calls == c)
  {
    SkipIdleEntries(evs, i);
  }

  /** A round that lets the thread go on is one redraw: the erase of the
      `lines` status lines drawn before, the batch enclosed in one pair of
      raw-mode toggles (none without raw mode), and one callback, whose result
      is the line count the next round erases. */
  lemma RoundRedraws(env: Env, evs: seq<Event>, i: nat, raw: bool, o: nat, c: nat, lines: nat)
    requires i <= |evs|
    requires RoundEffect(env, evs, i, raw, o, c, lines).stop.None?
    ensures var r := RoundEffect(env, evs, i, raw, o, c, lines);
      var m: nat := 2 * lines + 3;
      && |r.out| >= m + 4
      && r.out[..m] == Prologue(lines) && r.out[|r.out| - 4..] == Epilogue()
      && Enclosed(raw, r.out[m..|r.out| - 4])
      && PayloadsOrToggles(r.out[m..|r.out| - 4])
      && Count(r.out[m..|r.out| - 4], RawOff) == (if raw then 1 else 0)
      && Count(r.out[m..|r.out| - 4], RawOn) == (if raw then 1 else 0)
      && r.calls == c + 1 && env.Render(c) == Ok(r.lines)
  {
    var r := RoundEffect(env, evs, i, raw, o, c, lines);
    var j := SkipIdle(evs, i);
    var b := BatchEffect(env, evs, j + 1, raw, o + 2 * lines + 3, RecvMap(StdRecvAt(evs, j)).value.data);
    var sp := StatusPhase(env, b.ops, c);
    StatusPhaseFacts(env, b.ops, c);
    BatchShape(env, evs, j + 1, raw, o + 2 * lines + 3, RecvMap(StdRecvAt(evs, j)).value.data);
    assert r.out == Prologue(lines) + b.out + Epilogue();
    assert r.out[2 * lines + 3..|r.out| - 4] == b.out;
  }

  /** A batch whose round goes on stops draining at the first idle moment
      after the buffers queued behind its first entry. */
  lemma BatchRoundNext(env: Env, evs: seq<Event>, i: nat, raw: bool, o: nat, c: nat, lines: nat, data: Bytes, j: nat)
    requires i <= j < |evs| && QueuedBetween(evs, i, j) && evs[j].Idle?
    requires BatchRound(env, evs, i, raw, o, c, lines, data).stop.None?
    ensures BatchRound(env, evs, i, raw, o, c, lines, data).next == j + 1
  {
    if !env.Fails(o) && Drain(env, evs, i, o + 1).end == Emptied {
      DrainStopsAtIdle(env, evs, i, o + 1, j);
    }
  }

  /** Coalescing: when the thread wakes up to a burst of `k` log buffers
      queued back to back, followed by a moment with nothing queued, a round
      that goes on writes all `k` of them, takes exactly those events and
      renders the status lines once for the whole burst. */
  lemma RoundCoalesces(env: Env, evs: seq<Event>, i: nat, raw: bool, o: nat, c: nat, lines: nat, k: nat)
    requires 1 <= k && i + k < |evs| && QueuedBetween(evs, i, i + k) && evs[i + k].Idle?
    requires RoundEffect(env, evs, i, raw, o, c, lines).stop.None?
    ensures var r := RoundEffect(env, evs, i, raw, o, c, lines);
      r.next == i + k + 1 && |Payloads(r.out)| == k && r.calls == c + 1
  {
    var r := RoundEffect(env, evs, i, raw, o, c, lines);
    RoundNextAfterBurst(env, evs, i, raw, o, c, lines, k);
    RoundRendersOnce(env, evs, i, raw, o, c, lines);
    RoundInOrder(env, evs, i, raw, o, c, lines);
    LeadsLength(Payloads(r.out), EntriesFrom(evs, i), EntriesFrom(evs, r.next));
    QueuedEntries(evs, i, i + k);
    assert EntriesFrom(evs, i + k) == EntriesFrom(evs, i + k + 1);
  }

  lemma RoundNextAfterBurst(env: Env, evs: seq<Event>, i: nat, raw: bool, o: nat, c: nat, lines: nat, k: nat)
    requires 1 <= k && i + k < |evs| && QueuedBetween(evs, i, i + k) && evs[i + k].Idle?
    requires RoundEffect(env, evs, i, raw, o, c, lines).stop.None?
    ensures RoundEffect(env, evs, i, raw, o, c, lines).next == i + k + 1
  {
    assert SkipIdle(evs, i) == i;
    FirstFailClean(env, o, 2 * lines + 3);
    RoundEffectBatch(env, evs, i, raw, o, c, lines);
    BatchRoundNext(env, evs, i + 1, raw, o + 2 * lines + 3, c, lines, RecvMap(StdRecvAt(evs, i)).value.data, i + k);
  }

  lemma RoundRendersOnce(env: Env, evs: seq<Event>, i: nat, raw: bool, o: nat, c: nat, lines: nat)
    requires i <= |evs|
    requires RoundEffect(env, evs, i, raw, o, c, lines).stop.None?
    ensures RoundEffect(env, evs, i, raw, o, c, lines).calls == c + 1
  {
    RoundRedraws(env, evs, i, raw, o, c, lines);
  }

  lemma LeadsLength(ws: seq<Bytes>, es: seq<Bytes>, rest: seq<Bytes>)
    requires Leads(ws, es, rest)
    ensures |ws| + |rest| == |es|
  {
  }

  /** A round in which the stream closes during the drain ends the thread
      after the batch and the release of the guard: no callback and no
      flush follow. */
  lemma RoundClosed(env: Env, evs: seq<Event>, i: nat, raw: bool, o: nat, c: nat, lines: nat)
    requires i <= |evs|
    requires RoundEffect(env, evs, i, raw, o, c, lines).stop == Some(ClosedMidBatch)
    ensures var r := RoundEffect(env, evs, i, raw, o, c, lines);
      var m: nat := 2 * lines + 3;
      && |r.out| >= m && r.out[..m] == Prologue(lines)
      && Enclosed(raw, r.out[m..])
      && PayloadsOrToggles(r.out[m..])
      && Count(r.out[m..], RawOff) == (if raw then 1 else 0)
      && Count(r.out[m..], RawOn) == (if raw then 1 else 0)
      && r.calls == c
  {
    var r := RoundEffect(env, evs, i, raw, o, c, lines);
    var j := SkipIdle(evs, i);
    var b := BatchEffect(env, evs, j + 1, raw, o + 2 * lines + 3, RecvMap(StdRecvAt(evs, j)).value.data);
    BatchShape(env, evs, j + 1, raw, o + 2 * lines + 3, RecvMap(StdRecvAt(evs, j)).value.data);
    assert r.out == Prologue(lines) + b.out;
    assert r.out[2 * lines + 3..] == b.out;
  }

  lemma BatchRoundBracketed(env: Env, evs: seq<Event>, i: nat, raw: bool, o: nat, c: nat, lines: nat, data: Bytes)
    requires i <= |evs|
    ensures var r := BatchRound(env, evs, i, raw, o, c, lines, data);
      && Bracketed(r.out, false, false)
      && Count(r.out, RawOff) == (if raw then 1 else 0) && Count(r.out, RawOn) == (if raw then 1 else 0)
  {
    var b := BatchEffect(env, evs, i, raw, o, data);
    BatchShape(env, evs, i, raw, o, data);
    if b.end == Emptied {
      var sp := StatusPhase(env, b.ops, c);
      StatusPhaseCounts(env, b.ops, c);
      NoTogglesKeep(sp.out, false);
      BracketedAppend(b.out, sp.out, false, false, false);
      CountAppend(b.out, sp.out, RawOff);
      CountAppend(b.out, sp.out, RawOn);
    }
  }

  /** Whatever happens in a round, raw-mode toggles alternate from and back to
      raw mode, and there are none without raw mode. */
  lemma RoundBracketed(env: Env, evs: seq<Event>, i: nat, raw: bool, o: nat, c: nat, lines: nat)
    requires i <= |evs|
    ensures var r := RoundEffect(env, evs, i, raw, o, c, lines);
      && Bracketed(r.out, false, false)
      && (!raw ==> Count(r.out, RawOff) == 0 && Count(r.out, RawOn) == 0)
  {
    var e := FirstFail(env, o, 2 * lines + 3);
    if RecvMap(StdRecvAt(evs, SkipIdle(evs, i))).Some? {
      if e == 2 * lines + 3 {
        FirstFailClean(env, o, 2 * lines + 3);
        BatchRoundToggles(env, evs, i, raw, o, c, lines);
      } else {
        PrologueCounts(lines, e);
        NoTogglesKeep(Prologue(lines)[..e], false);
      }
    }
  }

  lemma BatchRoundToggles(env: Env, evs: seq<Event>, i: nat, raw: bool, o: nat, c: nat, lines: nat)
    requires i <= |evs|
    requires RecvMap(StdRecvAt(evs, SkipIdle(evs, i))).Some?
    requires Clean(env, o, o + 2 * lines + 3)
    ensures var r := RoundEffect(env, evs, i, raw, o, c, lines);
      && Bracketed(r.out, false, false)
      && (!raw ==> Count(r.out, RawOff) == 0 && Count(r.out, RawOn) == 0)
  {
    var j := SkipIdle(evs, i);
    RoundEffectBatch(env, evs, i, raw, o, c, lines);
    PrologueThenBatch(env, evs, j + 1, raw, o + 2 * lines + 3, c, lines, RecvMap(StdRecvAt(evs, j)).value.data);
  }

  /** The erase in front of a batch adds no toggle. */
  lemma PrologueThenBatch(env: Env, evs: seq<Event>, i: nat, raw: bool, o: nat, c: nat, lines: nat, data: Bytes)
    requires i <= |evs|
    ensures var br := BatchRound(env, evs, i, raw, o, c, lines, data);
      && Bracketed(Prologue(lines) + br.out, false, false)
      && (!raw ==> Count(Prologue(lines) + br.out, RawOff) == 0 && Count(Prologue(lines) + br.out, RawOn) == 0)
  {
    var br := BatchRound(env, evs, i, raw, o, c, lines, data);
    BatchRoundBracketed(env, evs, i, raw, o, c, lines, data);
    PrologueThen(lines, br.out);
  }

  lemma BatchRoundInOrder(env: Env, evs: seq<Event>, i: nat, raw: bool, o: nat, c: nat, lines: nat, data: Bytes)
    requires i <= |evs|
    ensures var r := BatchRound(env, evs, i, raw, o, c, lines, data);
      r.stop != Some(Aborted) ==>
        Leads(Payloads(r.out), [data] + EntriesFrom(evs, i), if r.stop.None? then EntriesFrom(evs, r.next) else [])
  {
    var b := BatchEffect(env, evs, i, raw, o, data);
    BatchInOrder(env, evs, i, raw, o, data);
    if b.end == Emptied {
      var sp := StatusPhase(env, b.ops, c);
      StatusWritesNoPayload(env, b.ops, c);
      PayloadsNone(sp.out);
      PayloadsAppend(b.out, sp.out);
    }
  }

  /** The payloads of a round are the entries it took off the stream, in
      order, each cut to what the sink accepted; unless the thread aborts,
      the next round starts with the entry after them. */
  lemma RoundInOrder(env: Env, evs: seq<Event>, i: nat, raw: bool, o: nat, c: nat, lines: nat)
    requires i <= |evs|
    ensures var r := RoundEffect(env, evs, i, raw, o, c, lines);
      r.stop != Some(Aborted) ==>
        Leads(Payloads(r.out), EntriesFrom(evs, i), if r.stop.None? then EntriesFrom(evs, r.next) else [])
  {
    var j := SkipIdle(evs, i);
    if RecvMap(StdRecvAt(evs, j)).Some? && FirstFail(env, o, 2 * lines + 3) == 2 * lines + 3 {
      FirstFailClean(env, o, 2 * lines + 3);
      BatchRoundEntries(env, evs, i, raw, o, c, lines);
    } else {
      SkipIdleEntries(evs, i);
    }
  }

  lemma BatchRoundEntries(env: Env, evs: seq<Event>, i: nat, raw: bool, o: nat, c: nat, lines: nat)
    requires i <= |evs|
    requires RecvMap(StdRecvAt(evs, SkipIdle(evs, i))).Some?
    requires Clean(env, o, o + 2 * lines + 3)
    ensures var r := RoundEffect(env, evs, i, raw, o, c, lines);
      r.stop != Some(Aborted) ==>
        Leads(Payloads(r.out), EntriesFrom(evs, i), if r.stop.None? then EntriesFrom(evs, r.next) else [])
  {
    var j := SkipIdle(evs, i);
    var data := RecvMap(StdRecvAt(evs, j)).value.data;
    var br := BatchRound(env, evs, j + 1, raw, o + 2 * lines + 3, c, lines, data);
    RoundEffectBatch(env, evs, i, raw, o, c, lines);
    BatchRoundInOrder(env, evs, j + 1, raw, o + 2 * lines + 3, c, lines, data);
    SkipIdleEntries(evs, i);
    assert EntriesFrom(evs, i) == [data] + EntriesFrom(evs, j + 1);
    PrologueNoPayloads(lines, br.out);
  }

  /** The erase in front of a batch writes no payload. */
  lemma PrologueNoPayloads(lines: nat, s: seq<Cmd>)
    ensures Payloads(Prologue(lines) + s) == Payloads(s)
  {
    PrologueWritesNoPayload(lines);
    PayloadsNone(Prologue(lines));
    PayloadsAppend(Prologue(lines), s);
  }

  lemma PrefixTrans(a: Bytes, b: Bytes, c: Bytes)
    requires a <= b && b <= c
    ensures a <= c
  {
    assert c[..|a|] == c[..|b|][..|a|];
  }

  /** Truncating entries that were already truncated still truncates them. */
  lemma LeadsWeaken(ws: seq<Bytes>, pa: seq<Bytes>, pr: seq<Bytes>, es: seq<Bytes>, rest: seq<Bytes>)
    requires Leads(ws, pa + pr + rest, []) && Leads(pr, es, rest)
    ensures Leads(ws, pa + es, [])
  {
    forall k | 0 <= k < |ws| ensures ws[k] <= (pa + es)[k] {
      if |pa| <= k < |pa| + |pr| {
        PrefixTrans(ws[k], pr[k - |pa|], es[k - |pa|]);
      } else if |pa| + |pr| <= k {
        assert (pa + pr + rest)[k] == rest[k - |pa| - |pr|] == es[k - |pa|];
      }
    }
  }

  /** Over the whole run of the thread, raw-mode toggles alternate from and
      back to raw mode, also when the thread panics or stops mid-batch, and
      there are none without raw mode. */
  lemma {:induction false} HandleBracketed(env: Env, evs: seq<Event>, i: nat, raw: bool, o: nat, c: nat, lines: nat, acc: seq<Cmd>)
    requires i <= |evs| && Bracketed(acc, false, false)
    ensures var h := Handle(env, evs, i, raw, o, c, lines, acc);
      && Bracketed(h.out, false, false)
      && (!raw ==> Count(h.out, RawOff) == Count(acc, RawOff) && Count(h.out, RawOn) == Count(acc, RawOn))
    decreases |evs| - i
  {
    var r := RoundEffect(env, evs, i, raw, o, c, lines);
    RoundBracketed(env, evs, i, raw, o, c, lines);
    HandleStep(env, evs, i, raw, o, c, lines, acc);
    BracketedAppend(acc, r.out, false, false, false);
    CountAppend(acc, r.out, RawOff);
    CountAppend(acc, r.out, RawOn);
    if r.stop.None? {
      HandleBracketed(env, evs, r.next, raw, r.ops, r.calls, r.lines, acc + r.out);
    }
  }

  /** Unless the thread panics, the payloads that reach the terminal are all
      the entries the stream offers up to the stop message, in the order they
      were sent, each cut to what the sink accepted. */
  lemma {:induction false} HandleInOrder(env: Env, evs: seq<Event>, i: nat, raw: bool, o: nat, c: nat, lines: nat, acc: seq<Cmd>)
    requires i <= |evs|
    ensures var h := Handle(env, evs, i, raw, o, c, lines, acc);
      h.outcome != Aborted ==> Leads(Payloads(h.out), Payloads(acc) + EntriesFrom(evs, i), [])
    decreases |evs| - i
  {
    var r := RoundEffect(env, evs, i, raw, o, c, lines);
    var h := Handle(env, evs, i, raw, o, c, lines, acc);
    RoundInOrder(env, evs, i, raw, o, c, lines);
    HandleStep(env, evs, i, raw, o, c, lines, acc);
    PayloadsAppend(acc, r.out);
    var pa, pr, es := Payloads(acc), Payloads(r.out), EntriesFrom(evs, i);
    if r.stop.Some? && h.outcome != Aborted {
      assert Leads(pa, pa + es, es);
      LeadsTrans(pa, pr, pa + es, es, []);
    } else if r.stop.None? {
      HandleInOrder(env, evs, r.next, raw, r.ops, r.calls, r.lines, acc + r.out);
      if h.outcome != Aborted {
        LeadsWeaken(Payloads(h.out), pa, pr, es, EntriesFrom(evs, r.next));
      }
    }
  }

  /** The batch and status half of a round: with raw mode assumed, every
      payload write happens while the guard is held. */
  lemma BatchRoundGuarded(env: Env, evs: seq<Event>, i: nat, raw: bool, o: nat, c: nat, lines: nat, data: Bytes)
    requires i <= |evs|
    ensures var r := BatchRound(env, evs, i, raw, o, c, lines, data);
      raw ==> Guarded(r.out, false)
  {
    if raw {
      var b := BatchEffect(env, evs, i, raw, o, data);
      BatchShape(env, evs, i, raw, o, data);
      EnclosedGuarded(b.out);
      if b.end == Emptied {
        StatusGuarded(env, b.ops, c, false);
        GuardedAppend(b.out, StatusPhase(env, b.ops, c).out, false, false);
      }
    }
  }

  /** With raw mode assumed, every payload write of a round happens while
      the guard is held, however the round ends. */
  lemma RoundGuarded(env: Env, evs: seq<Event>, i: nat, raw: bool, o: nat, c: nat, lines: nat)
    requires i <= |evs|
    ensures var r := RoundEffect(env, evs, i, raw, o, c, lines);
      raw ==> Guarded(r.out, false)
  {
    var e := FirstFail(env, o, 2 * lines + 3);
    if RecvMap(StdRecvAt(evs, SkipIdle(evs, i))).Some? {
      if e == 2 * lines + 3 {
        FirstFailClean(env, o, 2 * lines + 3);
        BatchRoundGuardedAfterErase(env, evs, i, raw, o, c, lines);
      } else {
        PrologueGuarded(lines, e, false);
      }
    }
  }

  lemma BatchRoundGuardedAfterErase(env: Env, evs: seq<Event>, i: nat, raw: bool, o: nat, c: nat, lines: nat)
    requires i <= |evs|
    requires RecvMap(StdRecvAt(evs, SkipIdle(evs, i))).Some?
    requires Clean(env, o, o + 2 * lines + 3)
    ensures var r := RoundEffect(env, evs, i, raw, o, c, lines);
      raw ==> Guarded(r.out, false)
  {
    var j := SkipIdle(evs, i);
    RoundEffectBatch(env, evs, i, raw, o, c, lines);
    PrologueThenBatchGuarded(env, evs, j + 1, raw, o + 2 * lines + 3, c, lines, RecvMap(StdRecvAt(evs, j)).value.data);
  }

  /** The erase in front of a batch keeps its payload writes guarded. */
  lemma PrologueThenBatchGuarded(env: Env, evs: seq<Event>, i: nat, raw: bool, o: nat, c: nat, lines: nat, data: Bytes)
    requires i <= |evs|
    ensures var br := BatchRound(env, evs, i, raw, o, c, lines, data);
      raw ==> Guarded(Prologue(lines) + br.out, false)
  {
    var br := BatchRound(env, evs, i, raw, o, c, lines, data);
    BatchRoundGuarded(env, evs, i, raw, o, c, lines, data);
    BatchRoundBracketed(env, evs, i, raw, o, c, lines, data);
    PrologueThenGuarded(lines, br.out);
  }

  /** Over the whole run of the thread, with raw mode assumed, every payload
      write happens while the guard is held, also when the thread panics or
      stops mid-batch. */
  lemma {:induction false} HandleGuarded(env: Env, evs: seq<Event>, i: nat, raw: bool, o: nat, c: nat, lines: nat, acc: seq<Cmd>)
    requires i <= |evs| && Bracketed(acc, false, false) && (raw ==> Guarded(acc, false))
    ensures raw ==> Guarded(Handle(env, evs, i, raw, o, c, lines, acc).out, false)
    decreases |evs| - i
  {
    var r := RoundEffect(env, evs, i, raw, o, c, lines);
    RoundBracketed(env, evs, i, raw, o, c, lines);
    RoundGuarded(env, evs, i, raw, o, c, lines);
    HandleStep(env, evs, i, raw, o, c, lines, acc);
    BracketedAppend(acc, r.out, false, false, false);
    if raw {
      GuardedAppend(acc, r.out, false, false);
    }
    if r.stop.None? {
      HandleGuarded(env, evs, r.next, raw, r.ops, r.calls, r.lines, acc + r.out);
    }
  }

  /** The drain loop on `out`, from event `i0` on. */
  method DrainQueued(out: Term, evs: seq<Event>, i0: nat) returns (end: DrainEnd, next: nat)
    requires i0 <= |evs|
    modifies out
    ensures var d := Drain(out.env, evs, i0, old(out.ops));
      && end == d.end && next == d.next && out.ops == d.ops && out.calls == old(out.calls)
      && out.log == old(out.log) + d.out
    ensures EmptiedAtIdle(evs, i0, Drain(out.env, evs, i0, old(out.ops)))
  {
    ghost var log0, total := out.log, Drain(out.env, evs, i0, out.ops);
    DrainEmptied(out.env, evs, i0, out.ops);
    ghost var done: seq<Cmd> := [];
    next := i0;
    while true
      invariant i0 <= next <= |evs| && out.calls == old(out.calls)
      invariant var d := Drain(out.env, evs, next, out.ops);
        && total.end == d.end && total.next == d.next && total.ops == d.ops
        && total.out == done + d.out
      invariant out.log == log0 + done
      decreases |evs| - next
    {
      var polled := TryRecvMap(StdTryRecvAt(evs, next));
      match polled
      case NotReady(Empty) =>
        end, next := Emptied, next + 1;
        assert done + [] == done;
        return;
      case NotReady(Closed) =>
        end := ClosedEarly;
        if next < |evs| {
          next := next + 1;
        }
        assert done + [] == done;
        return;
      case Ready(b) =>
        ghost var o := out.ops;
        var w := out.Write(b.data);
        if w.Err? {
          end, next := WriteFailed, next + 1;
          assert done + [] == done;
          return;
        }
        ghost var step := [Payload(b.data[..w.value])];
        assert total.out == (done + step) + Drain(out.env, evs, next + 1, out.ops).out;
        done := done + step;
        next := next + 1;
    }
  }

  /** One batch on `out`: take the raw-mode guard if raw mode is assumed,
      write the received entry, drain the channel, release the guard. */
  method WriteBatch(out: Term, evs: seq<Event>, i: nat, raw: bool, data: Bytes) returns (end: DrainEnd, next: nat)
    requires i <= |evs|
    modifies out
    ensures var b := BatchEffect(out.env, evs, i, raw, old(out.ops), data);
      && end == b.end && next == b.next && out.ops == b.ops && out.calls == old(out.calls)
      && out.log == old(out.log) + b.out
  {
    ghost var log0 := out.log;
    if raw {
      out.DisableRaw();
    }
    var w := out.Write(data);
    if w.Ok? {
      end, next := DrainQueued(out, evs, i);
    } else {
      end, next := WriteFailed, i;
    }
    if raw {
      out.EnableRaw();
    }
  }


  /** The batch and the status half of one round on `out`. */
  method FinishRound(out: Term, evs: seq<Event>, i: nat, raw: bool, lines: u16, data: Bytes)
    returns (stop: Option<Outcome>, next: nat, lines': u16)
    requires i <= |evs|
    modifies out
    ensures var r := BatchRound(out.env, evs, i, raw, old(out.ops), old(out.calls), lines, data);
      && stop == r.stop && next == r.next && lines' == r.lines
      && out.ops == r.ops && out.calls == r.calls
      && out.log == old(out.log) + r.out
  {
    ghost var log0 := out.log;
    var end;
    end, next := WriteBatch(out, evs, i, raw, data);
    lines' := lines;
    if end == WriteFailed {
      stop := Some(Aborted);
      return;
    }
    if end == ClosedEarly {
      stop := Some(ClosedMidBatch);
      return;
    }
    ghost var log1 := out.log;
    var status, rendered := RenderStatus(out);
    if !rendered || status.Err? {
      stop := Some(Aborted);
    } else {
      stop, lines' := None, status.value;
    }
    assert out.log == log0 + (log1[|log0|..] + out.log[|log1|..]);
  }

  /** One round of the thread's loop on `out`. */
  method RunRound(out: Term, evs: seq<Event>, i: nat, raw: bool, lines: u16)
    returns (stop: Option<Outcome>, next: nat, lines': u16)
    requires i <= |evs|
    modifies out
    ensures var r := RoundEffect(out.env, evs, i, raw, old(out.ops), old(out.calls), lines);
      && stop == r.stop && next == r.next && lines' == r.lines
      && out.ops == r.ops && out.calls == r.calls
      && out.log == old(out.log) + r.out
  {
    ghost var log0 := out.log;
    var j := SkipIdle(evs, i);
    var entry := RecvMap(StdRecvAt(evs, j));
    lines' := lines;
    if entry.None? {
      stop, next := Some(Finished), j;
      return;
    }
    var erased := ErasePrevious(out, lines as nat);
    if !erased {
      stop, next := Some(Aborted), j + 1;
      return;
    }
    ghost var log1 := out.log;
    stop, next, lines' := FinishRound(out, evs, j + 1, raw, lines, entry.value.data);
    assert out.log == log0 + (Prologue(lines as nat) + out.log[|log1|..]);
  }

  /** The background thread: rounds of waiting for an entry, erasing the
      previous status lines, writing the batch and rendering the status
      lines, until the stream ends or a terminal operation fails. */
  method HandleLogs(out: Term, evs: seq<Event>, raw: bool) returns (outcome: Outcome)
    modifies out
    ensures Handle(out.env, evs, 0, raw, old(out.ops), old(out.calls), 0, old(out.log))
      == Handled(out.log, outcome, out.ops, out.calls)
  {
    ghost var total := Handle(out.env, evs, 0, raw, out.ops, out.calls, 0, out.log);
    var lines: u16 := 0;
    var i := 0;
    var stop: Option<Outcome> := None;
    while stop.None?
      invariant i <= |evs|
      invariant stop.None? ==> total == Handle(out.env, evs, i, raw, out.ops, out.calls, lines, out.log)
      invariant stop.Some? ==> total == Handled(out.log, stop.value, out.ops, out.calls)
      decreases |evs| - i, if stop.None? then 1 else 0
    {
      HandleStep(out.env, evs, i, raw, out.ops, out.calls, lines, out.log);
      var next, lines';
      stop, next, lines' := RunRound(out, evs, i, raw, lines);
      if stop.None? {
        i, lines := next, lines';
      }
    }
    outcome := stop.value;
  }

  // ---------------------------------------------------------------------------
  // The handler
  // ---------------------------------------------------------------------------

  /** What shutting the handler down has done so far, in order. */
  datatype Shutdown = StopSent | Joined

  /** The threaded handler: the writer handle it clones for every log event
      and the background thread, until that is joined. The thread owns the
      receiving end `receiver` and drops it when it finishes. */
  class ThreadedHandler {
    const sender: LogSender
    const receiver: LogReceiver
    var joinHandle: Option<nat>
    var joins: nat
    ghost var steps: seq<Shutdown>

    /** The thread is joined at most once over the handler's life. */
    predicate JoinedOnce()
      reads this
    {
      joins + (if joinHandle.Some? then 1 else 0) == 1
    }

    /** Set up the bridge and start the background thread, which takes the
        receiving end (its run is `HandleLogs`). */
    constructor ()
      ensures JoinedOnce() && joinHandle.Some? && joins == 0 && steps == []
      ensures fresh(sender) && fresh(sender.chans) && sender.live && sender.chans.Valid()
      ensures receiver.chans == sender.chans
      ensures sender.chans.queue == [] && sender.chans.pool == [] && sender.chans.receiverAlive
      ensures sender.chans.senders == 1 && sender.chans.printed == [] && sender.chans.lent == multiset{}
    {
      var s, r := Init();
      sender, receiver := s, r;
      joinHandle := Some(0);
      joins := 0;
      steps := [];
    }

    /** A writer for one log event: another handle on the same bridge. */
    method MakeWriter() returns (w: LogSender)
      requires sender.live && sender.chans.Valid()
      modifies sender.chans
      ensures fresh(w) && w.chans == sender.chans && w.live && sender.chans.Valid()
      ensures sender.chans.senders == old(sender.chans.senders) + 1
      ensures sender.chans.queue == old(sender.chans.queue) && sender.chans.pool == old(sender.chans.pool)
      ensures sender.chans.receiverAlive == old(sender.chans.receiverAlive)
      ensures sender.chans.printed == old(sender.chans.printed) && sender.chans.lent == old(sender.chans.lent)
    {
      w := sender.Clone();
    }

    /** Ask the thread to stop, then join it if it has not been joined yet,
        then drop the handler's own writer handle. Once the join returns the
        thread has finished and dropped the receiving end, together with any
        message it left queued. When no writer outlives the handler, the free
        list goes with its handle. */
    method Drop()
      requires sender.live && sender.chans.Valid() && sender.chans.senders > 0 && JoinedOnce()
      requires receiver.chans == sender.chans
      requires |sender.chans.queue| < Capacity || !sender.chans.receiverAlive  // a full channel would block
      modifies this, sender, sender.chans
      ensures JoinedOnce() && joinHandle == None
      ensures joins == old(joins) + (if old(joinHandle).Some? then 1 else 0)
      ensures steps == old(steps) + [StopSent] + (if old(joinHandle).Some? then [Joined] else [])
      ensures sender.chans.Valid()
      ensures old(joinHandle).Some? ==> !sender.chans.receiverAlive && sender.chans.queue == []
      ensures old(joinHandle).None? ==>
        && sender.chans.receiverAlive == old(sender.chans.receiverAlive)
        && sender.chans.queue == old(sender.chans.queue) + (if sender.chans.receiverAlive then [None] else [])
      ensures !sender.live && sender.chans.senders == old(sender.chans.senders) - 1
      ensures sender.chans.pool == if old(sender.chans.senders) == 1 then [] else old(sender.chans.pool)
      ensures sender.chans.printed == old(sender.chans.printed) && sender.chans.lent == old(sender.chans.lent)
    {
      sender.Close();
      steps := steps + [StopSent];
      if joinHandle.Some? {
        joins := joins + 1;
        joinHandle := None;
        receiver.Release();
        steps := steps + [Joined];
      }
      sender.Release();
    }
  }

  /** A writer handle that outlives the handler: once the handler is dropped
      the thread is gone, so the write queues nothing and prints its payload
      instead, still reporting the whole length written. */
  method WriteAfterDrop(h: ThreadedHandler, w: LogSender, buf: Bytes) returns (r: Result<nat>)
    requires w.chans == h.sender.chans && h.receiver.chans == h.sender.chans
    requires w != h.sender && w.live && h.sender.live
    requires h.sender.chans.Valid() && h.sender.chans.senders > 1
    requires h.JoinedOnce() && h.joinHandle.Some?
    requires |h.sender.chans.queue| < Capacity || !h.sender.chans.receiverAlive  // a full channel would block
    modifies h, h.sender, h.sender.chans
    ensures r == Ok(|buf|)
    ensures w.chans.queue == [] && !w.chans.receiverAlive
    ensures w.chans.printed == old(w.chans.printed) + [PrintedText(buf)]
  {
    h.Drop();
    r := w.Write(buf);
  }
}
