/** The terminal surface shared by both execution modes: the abstract commands
    the redraw engine issues, the shapes of the command sequences it intends to
    issue, and the owned output sink together with the status callback. */
module Terminal {

  newtype byte = x: int | 0 <= x < 256

  /** Rust's `u16`, the type of the line count the status callback returns. */
  type u16 = x: int | 0 <= x < 0x1_0000

  type Bytes = seq<byte>

  /** `io::Result<T>`; the error value itself is never inspected. */
  datatype Result<T> = Ok(value: T) | Err

  datatype Option<T> = None | Some(value: T)

  /** One abstract terminal command. `Payload` is a log payload written
      verbatim, `Status` the output of the status callback, `RawOff`/`RawOn`
      the raw-mode toggles of the raw-mode guard, `Flush` a flush of the sink. */
  datatype Cmd =
    | Col0        // MoveToColumn(0)
    | ResetColor
    | ClearLine   // Clear(ClearType::CurrentLine)
    | MoveUp1     // MoveUp(1)
    | Payload(data: Bytes)
    | RawOff
    | RawOn
    | Status
    | Flush

  /** Commands queued through crossterm onto the sink. */
  predicate IsControl(c: Cmd) {
    c.Col0? || c.ResetColor? || c.ClearLine? || c.MoveUp1?
  }

  /** The behaviour of the outside world. Sink operations (control commands,
      payload writes, flushes) are numbered from 0 over the life of the sink:
      operation `k` fails when `k` is in `failing`, and a payload write at
      operation `k` takes at most `limits[k]` bytes when `k` has a limit. The
      `k`-th invocation of the status callback returns the line count
      `renders[k]`, or fails when `k` has none. */
  datatype Env = Env(failing: set<nat>, limits: map<nat, nat>, renders: map<nat, u16>)
  {
    predicate Fails(k: nat) { k in failing }

    /** How many of `len` bytes a payload write at operation `k` takes. */
    function Accepted(k: nat, len: nat): (n: nat)
      ensures n <= len
    {
      if k in limits then Min(len, limits[k]) else len
    }

    function Render(k: nat): Result<u16> { if k in renders then Ok(renders[k]) else Err }
  }

  function Min(a: nat, b: nat): nat { if a <= b then a else b }

  /** Sink operations `lo` up to (not including) `hi` all succeed. */
  ghost predicate Clean(env: Env, lo: nat, hi: nat) {
    forall k :: lo <= k < hi ==> !env.Fails(k)
  }

  /** How many of the `n` sink operations starting at `o` succeed before
      the first one that fails. */
  function FirstFail(env: Env, o: nat, n: nat): (j: nat)
    ensures j <= n
    decreases n
  {
    if n == 0 || env.Fails(o) then 0 else 1 + FirstFail(env, o + 1, n - 1)
  }

  lemma {:induction false} FirstFailClean(env: Env, o: nat, n: nat)
    ensures Clean(env, o, o + FirstFail(env, o, n))
    ensures FirstFail(env, o, n) < n ==> env.Fails(o + FirstFail(env, o, n))
    ensures FirstFail(env, o, n) == n <==> Clean(env, o, o + n)
    decreases n
  {
    if n > 0 && !env.Fails(o) {
      FirstFailClean(env, o + 1, n - 1);
    }
  }

  /** The first failure is found where it is. */
  lemma {:induction false} FirstFailAt(env: Env, o: nat, q: nat, n: nat)
    requires q <= n && Clean(env, o, o + q) && (q < n ==> env.Fails(o + q))
    ensures FirstFail(env, o, n) == q
    decreases q
  {
    if q > 0 {
      FirstFailAt(env, o + 1, q - 1, n - 1);
    }
  }

  /** The first failure among `a + b` operations lies in the first `a`, or
      else it is the first failure among the `b` that follow them. */
  lemma {:induction false} FirstFailSplit(env: Env, o: nat, a: nat, b: nat)
    ensures FirstFail(env, o, a + b) ==
      if FirstFail(env, o, a) < a then FirstFail(env, o, a) else a + FirstFail(env, o + a, b)
    decreases a
  {
    if a > 0 && !env.Fails(o) {
      FirstFailSplit(env, o + 1, a - 1, b);
    }
  }

  function Count(s: seq<Cmd>, c: Cmd): (n: nat)
    ensures n <= |s|
  {
    if s == [] then 0 else (if s[0] == c then 1 else 0) + Count(s[1..], c)
  }

  lemma {:induction false} CountAppend(s: seq<Cmd>, t: seq<Cmd>, c: Cmd)
    ensures Count(s + t, c) == Count(s, c) + Count(t, c)
  {
    if s == [] {
      assert s + t == t;
    } else {
      assert (s + t)[1..] == s[1..] + t;
      CountAppend(s[1..], t, c);
    }
  }

  // ---------------------------------------------------------------------------
  // The pieces of one redraw
  // ---------------------------------------------------------------------------

  /** `n` pairs of (clear line, move up one line): the erase loop. */
  function Erase(n: nat): (e: seq<Cmd>)
    ensures |e| == 2 * n
  {
    if n == 0 then [] else [ClearLine, MoveUp1] + Erase(n - 1)
  }

  /** The erase loop issues `n` pairs and nothing else. */
  lemma {:induction false} EraseShape(n: nat)
    ensures forall i :: 0 <= i < n ==> Erase(n)[2 * i] == ClearLine && Erase(n)[2 * i + 1] == MoveUp1
    ensures NoToggles(Erase(n))
  {
    if n > 0 {
      EraseShape(n - 1);
      var e := Erase(n - 1);
      forall i | 0 <= i < n
        ensures Erase(n)[2 * i] == ClearLine && Erase(n)[2 * i + 1] == MoveUp1
      {
        if i > 0 {
          assert Erase(n)[2 * i] == e[2 * (i - 1)];
          assert Erase(n)[2 * i + 1] == e[2 * (i - 1) + 1];
        }
      }
      forall i | 0 <= i < |Erase(n)|
        ensures Erase(n)[i] != RawOff && Erase(n)[i] != RawOn
      {
        if i >= 2 {
          assert Erase(n)[i] == e[i - 2];
        }
      }
    }
  }

  /** The erase loop moves up `n` times and issues no toggle and no status. */
  lemma {:induction false} EraseCounts(n: nat)
    ensures Count(Erase(n), MoveUp1) == n && Count(Erase(n), ClearLine) == n
    ensures Count(Erase(n), RawOff) == 0 && Count(Erase(n), RawOn) == 0 && Count(Erase(n), Status) == 0
  {
    if n > 0 {
      EraseCounts(n - 1);
      var e := Erase(n - 1);
      CountAppend([ClearLine, MoveUp1], e, MoveUp1);
      CountAppend([ClearLine, MoveUp1], e, ClearLine);
      CountAppend([ClearLine, MoveUp1], e, RawOff);
      CountAppend([ClearLine, MoveUp1], e, RawOn);
      CountAppend([ClearLine, MoveUp1], e, Status);
    }
  }

  lemma {:induction false} EraseSnoc(n: nat)
    ensures Erase(n) + [ClearLine, MoveUp1] == Erase(n + 1)
  {
    if n > 0 {
      EraseSnoc(n - 1);
      assert Erase(n) + [ClearLine, MoveUp1] == [ClearLine, MoveUp1] + (Erase(n - 1) + [ClearLine, MoveUp1]);
    }
  }

  /** Everything before the payload: move to column 0, reset the colour, erase
      the `lines` status lines of the previous render, clear the current line. */
  function Prologue(lines: nat): (p: seq<Cmd>)
    ensures |p| == 2 * lines + 3
  {
    [Col0, ResetColor] + Erase(lines) + [ClearLine]
  }

  /** Payload writes, bracketed by the raw-mode guard when raw mode is assumed. */
  function Bracket(raw: bool, payloads: seq<Cmd>): seq<Cmd>
  {
    (if raw then [RawOff] else []) + payloads + (if raw then [RawOn] else [])
  }

  /** `execute!(MoveToColumn(0))` (queue, then flush), the status callback,
      then the final flush. */
  function Epilogue(): seq<Cmd>
  {
    [Col0, Flush, Status, Flush]
  }

  /** No raw-mode toggle at all. */
  predicate NoToggles(s: seq<Cmd>) {
    forall i :: 0 <= i < |s| ==> s[i] != RawOff && s[i] != RawOn
  }

  /** The guard state after one command. */
  function After(c: Cmd, held: bool): bool
  {
    if c == RawOff then true else if c == RawOn then false else held
  }

  /** Raw-mode toggles in `s` strictly alternate, starting with the guard
      state `held` and ending with the guard state `mid`: the guard is never
      taken twice nor released when not held. */
  predicate Bracketed(s: seq<Cmd>, held: bool, mid: bool)
    decreases |s|
  {
    if s == [] then held == mid
    else if s[0] == RawOff then !held && Bracketed(s[1..], true, mid)
    else if s[0] == RawOn then held && Bracketed(s[1..], false, mid)
    else Bracketed(s[1..], held, mid)
  }

  lemma {:induction false} BracketedAppend(s: seq<Cmd>, t: seq<Cmd>, held: bool, mid: bool, last: bool)
    requires Bracketed(s, held, mid) && Bracketed(t, mid, last)
    ensures Bracketed(s + t, held, last)
    decreases |s|
  {
    if s == [] {
      assert s + t == t;
    } else {
      assert (s + t)[0] == s[0] && (s + t)[1..] == s[1..] + t;
      BracketedAppend(s[1..], t, After(s[0], held), mid, last);
    }
  }

  /** Balanced toggles: a bracketed sequence releases exactly as often as it takes. */
  lemma {:induction false} BracketedBalanced(s: seq<Cmd>, held: bool, mid: bool)
    requires Bracketed(s, held, mid)
    ensures Count(s, RawOff) + (if held then 1 else 0) == Count(s, RawOn) + (if mid then 1 else 0)
    decreases |s|
  {
    if s != [] {
      BracketedBalanced(s[1..], After(s[0], held), mid);
    }
  }

  lemma {:induction false} NoTogglesKeep(s: seq<Cmd>, held: bool)
    requires NoToggles(s)
    ensures Bracketed(s, held, held)
    ensures Count(s, RawOff) == 0 && Count(s, RawOn) == 0
    decreases |s|
  {
    if s != [] {
      assert NoToggles(s[1..]) by {
        forall i | 0 <= i < |s[1..]| ensures s[1..][i] != RawOff && s[1..][i] != RawOn {
          assert s[1..][i] == s[i + 1];
        }
      }
      NoTogglesKeep(s[1..], held);
    }
  }

  /** Payload writes inside `Bracket` are bracketed, with one toggle pair
      exactly when raw mode is assumed. */
  lemma {:induction false} BracketShape(raw: bool, payloads: seq<Cmd>)
    requires NoToggles(payloads)
    ensures Bracketed(Bracket(raw, payloads), false, false)
    ensures Count(Bracket(raw, payloads), RawOff) == (if raw then 1 else 0)
    ensures Count(Bracket(raw, payloads), RawOn) == (if raw then 1 else 0)
  {
    var pre: seq<Cmd> := if raw then [RawOff] else [];
    var post: seq<Cmd> := if raw then [RawOn] else [];
    NoTogglesKeep(payloads, raw);
    CountAppend(pre, payloads, RawOff);
    CountAppend(pre, payloads, RawOn);
    CountAppend(pre + payloads, post, RawOff);
    CountAppend(pre + payloads, post, RawOn);
    assert Bracketed(pre, false, raw);
    assert Bracketed(post, raw, false);
    BracketedAppend(payloads, post, raw, raw, false);
    BracketedAppend(pre, payloads + post, false, raw, false);
    assert pre + (payloads + post) == Bracket(raw, payloads);
  }

  /** Payload writes only, enclosed in one toggle pair when raw mode is
      assumed: the guard is taken first and released last. */
  predicate Enclosed(raw: bool, s: seq<Cmd>) {
    if raw then
      && |s| >= 2 && s[0] == RawOff && s[|s| - 1] == RawOn
      && forall k :: 1 <= k < |s| - 1 ==> s[k].Payload?
    else forall k :: 0 <= k < |s| ==> s[k].Payload?
  }

  lemma EnclosedBracket(raw: bool, payloads: seq<Cmd>)
    requires forall k :: 0 <= k < |payloads| ==> payloads[k].Payload?
    ensures Enclosed(raw, Bracket(raw, payloads))
  {
    var b := Bracket(raw, payloads);
    if raw {
      assert b == [RawOff] + payloads + [RawOn];
      forall k | 1 <= k < |b| - 1 ensures b[k].Payload? {
        assert b[k] == payloads[k - 1];
      }
    } else {
      assert b == payloads;
    }
  }

  /** Every payload write in `s` is issued while the raw-mode guard is held,
      starting from guard state `held`. */
  predicate Guarded(s: seq<Cmd>, held: bool)
    decreases |s|
  {
    s == [] || ((s[0].Payload? ==> held) && Guarded(s[1..], After(s[0], held)))
  }

  lemma {:induction false} GuardedAppend(s: seq<Cmd>, t: seq<Cmd>, held: bool, mid: bool)
    requires Bracketed(s, held, mid) && Guarded(s, held) && Guarded(t, mid)
    ensures Guarded(s + t, held)
    decreases |s|
  {
    if s == [] {
      assert s + t == t;
    } else {
      assert (s + t)[0] == s[0] && (s + t)[1..] == s[1..] + t;
      GuardedAppend(s[1..], t, After(s[0], held), mid);
    }
  }

  /** Commands without a payload write are guarded whatever the guard state. */
  lemma {:induction false} GuardedNoPayload(s: seq<Cmd>, held: bool)
    requires forall k :: 0 <= k < |s| ==> !s[k].Payload?
    ensures Guarded(s, held)
    decreases |s|
  {
    if s != [] {
      assert forall k :: 0 <= k < |s[1..]| ==> s[1..][k] == s[k + 1];
      GuardedNoPayload(s[1..], After(s[0], held));
    }
  }

  /** Payload writes issued while the guard is held leave it held. */
  lemma {:induction false} GuardedHeld(s: seq<Cmd>)
    requires forall k :: 0 <= k < |s| ==> s[k].Payload?
    ensures Guarded(s, true) && Bracketed(s, true, true)
    decreases |s|
  {
    if s != [] {
      assert forall k :: 0 <= k < |s[1..]| ==> s[1..][k] == s[k + 1];
      GuardedHeld(s[1..]);
    }
  }

  /** Enclosed payload writes all happen while the guard is held. */
  lemma EnclosedGuarded(s: seq<Cmd>)
    requires Enclosed(true, s)
    ensures Guarded(s, false) && Bracketed(s, false, false)
  {
    var mid := s[1..|s| - 1];
    forall k | 0 <= k < |mid| ensures mid[k].Payload? {
      assert mid[k] == s[k + 1];
    }
    GuardedHeld(mid);
    assert Bracketed([RawOn], true, false);
    BracketedAppend(mid, [RawOn], true, true, false);
    GuardedAppend(mid, [RawOn], true, true);
    assert s[1..] == mid + [RawOn];
  }

  // ---------------------------------------------------------------------------
  // The owned sink and the status callback
  // ---------------------------------------------------------------------------

  /** The output writer together with the status callback that renders onto
      it. `log` is what has reached the terminal so far. */
  class Term {
    const env: Env
    var log: seq<Cmd>
    var ops: nat
    var calls: nat

    constructor (env: Env)
      ensures this.env == env && log == [] && ops == 0 && calls == 0
    {
      this.env := env;
      log, ops, calls := [], 0, 0;
    }

    /** `crossterm::queue!` of one command. */
    method Queue(c: Cmd) returns (ok: bool)
      requires IsControl(c)
      modifies this
      ensures ok == !env.Fails(old(ops))
      ensures ops == old(ops) + 1 && calls == old(calls)
      ensures log == old(log) + (if ok then [c] else [])
    {
      ok := !env.Fails(ops);
      if ok { log := log + [c]; }
      ops := ops + 1;
    }

    /** `Write::write` of a payload: the count of bytes the sink took. */
    method Write(buf: Bytes) returns (r: Result<nat>)
      modifies this
      ensures r.Ok? == !env.Fails(old(ops))
      ensures r.Ok? ==> r.value == env.Accepted(old(ops), |buf|) && r.value <= |buf|
      ensures ops == old(ops) + 1 && calls == old(calls)
      ensures log == old(log) + (if r.Ok? then [Payload(buf[..r.value])] else [])
    {
      if env.Fails(ops) {
        r := Err;
      } else {
        var n := env.Accepted(ops, |buf|);
        r := Ok(n);
        log := log + [Payload(buf[..n])];
      }
      ops := ops + 1;
    }

    /** `Write::flush`. */
    method FlushOut() returns (ok: bool)
      modifies this
      ensures ok == !env.Fails(old(ops))
      ensures ops == old(ops) + 1 && calls == old(calls)
      ensures log == old(log) + (if ok then [Flush] else [])
    {
      ok := !env.Fails(ops);
      if ok { log := log + [Flush]; }
      ops := ops + 1;
    }

    /** One invocation of the status callback with the sink. */
    method Render() returns (r: Result<u16>)
      modifies this
      ensures r == env.Render(old(calls))
      ensures ops == old(ops) && calls == old(calls) + 1
      ensures log == old(log) + (if r.Ok? then [Status] else [])
    {
      r := env.Render(calls);
      if r.Ok? { log := log + [Status]; }
      calls := calls + 1;
    }

    /** Taking the raw-mode guard. */
    method DisableRaw()
      modifies this
      ensures log == old(log) + [RawOff] && ops == old(ops) && calls == old(calls)
    {
      log := log + [RawOff];
    }

    /** Dropping the raw-mode guard. */
    method EnableRaw()
      modifies this
      ensures log == old(log) + [RawOn] && ops == old(ops) && calls == old(calls)
    {
      log := log + [RawOn];
    }
  }
}
