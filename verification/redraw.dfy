/** The two halves of a redraw that both execution modes share: erasing the
    status lines of the previous render before a log payload, and rendering
    the new status lines after it. Each is a method on the sink, specified by
    a function of the outside world and the operation counters. */
module Redraw {
  import opened Terminal

  /** The first `i` pairs of the erase loop. */
  lemma {:induction false} ErasePrefix(i: nat, n: nat)
    requires i <= n
    ensures Erase(n)[..2 * i] == Erase(i)
  {
    if i > 0 {
      ErasePrefix(i - 1, n - 1);
      assert Erase(n)[..2 * i] == [ClearLine, MoveUp1] + Erase(n - 1)[..2 * (i - 1)];
    }
  }

  /** The first `i` pairs of the erase loop and the clear that starts the next. */
  lemma ErasePrefixClear(i: nat, n: nat)
    requires i < n
    ensures Erase(n)[..2 * i + 1] == Erase(i) + [ClearLine]
  {
    ErasePrefix(i + 1, n);
    EraseSnoc(i);
    assert Erase(n)[..2 * i + 1] == Erase(n)[..2 * i + 2][..2 * i + 1];
  }

  /** A prefix of the prologue that stops inside the erase loop. */
  lemma PrologueTake(lines: nat, j: nat)
    requires j <= 2 * lines
    ensures Prologue(lines)[..2 + j] == [Col0, ResetColor] + Erase(lines)[..j]
  {
    assert Prologue(lines) == [Col0, ResetColor] + (Erase(lines) + [ClearLine]);
  }

  /** The commands of the prologue, and of any prefix of it: no toggle, no
      status render, and at most `lines` moves up, exactly `lines` in full. */
  lemma PrologueCounts(lines: nat, j: nat)
    requires j <= 2 * lines + 3
    ensures NoToggles(Prologue(lines)[..j])
    ensures Count(Prologue(lines)[..j], Status) == 0
    ensures Count(Prologue(lines)[..j], MoveUp1) <= lines
    ensures Count(Prologue(lines), MoveUp1) == lines
  {
    var p := Prologue(lines);
    EraseShape(lines);
    EraseCounts(lines);
    CountAppend([Col0, ResetColor], Erase(lines), MoveUp1);
    CountAppend([Col0, ResetColor] + Erase(lines), [ClearLine], MoveUp1);
    CountAppend([Col0, ResetColor], Erase(lines), Status);
    CountAppend([Col0, ResetColor] + Erase(lines), [ClearLine], Status);
    CountTake(p, j, MoveUp1);
    CountTake(p, j, Status);
    forall i | 0 <= i < j ensures p[..j][i] != RawOff && p[..j][i] != RawOn {
      if 2 <= i < |p| - 1 {
        assert p[i] == Erase(lines)[i - 2];
      }
    }
  }

  /** The whole prologue takes no toggle. */
  lemma PrologueToggles(lines: nat)
    ensures NoToggles(Prologue(lines))
    ensures Count(Prologue(lines), RawOff) == 0 && Count(Prologue(lines), RawOn) == 0
  {
    PrologueCounts(lines, 2 * lines + 3);
    assert Prologue(lines)[..2 * lines + 3] == Prologue(lines);
    NoTogglesKeep(Prologue(lines), false);
  }

  /** The whole prologue moves up `lines` times and renders no status. */
  lemma PrologueMoves(lines: nat)
    ensures Count(Prologue(lines), Status) == 0 && Count(Prologue(lines), MoveUp1) == lines
  {
    PrologueCounts(lines, 2 * lines + 3);
    assert Prologue(lines)[..2 * lines + 3] == Prologue(lines);
  }

  /** What comes after a complete prologue leaves the prologue in front. */
  lemma PrologueFirst(lines: nat, s: seq<Cmd>)
    ensures (Prologue(lines) + s)[..2 * lines + 3] == Prologue(lines)
  {
  }

  /** A complete prologue followed by bracketed commands stays bracketed and
      adds no toggle. */
  lemma PrologueThen(lines: nat, s: seq<Cmd>)
    ensures Bracketed(s, false, false) ==> Bracketed(Prologue(lines) + s, false, false)
    ensures Count(Prologue(lines) + s, RawOff) == Count(s, RawOff)
    ensures Count(Prologue(lines) + s, RawOn) == Count(s, RawOn)
  {
    PrologueToggles(lines);
    NoTogglesKeep(Prologue(lines), false);
    if Bracketed(s, false, false) {
      BracketedAppend(Prologue(lines), s, false, false, false);
    }
    CountAppend(Prologue(lines), s, RawOff);
    CountAppend(Prologue(lines), s, RawOn);
  }

  /** The erase half of a redraw writes no payload bytes. */
  lemma PrologueWritesNoPayload(lines: nat)
    ensures forall i :: 0 <= i < |Prologue(lines)| ==> !Prologue(lines)[i].Payload?
  {
    var p := Prologue(lines);
    EraseShape(lines);
    assert p == [Col0, ResetColor] + Erase(lines) + [ClearLine];
    forall i | 0 <= i < |p| ensures !p[i].Payload? {
      if 2 <= i < |p| - 1 {
        var k := (i - 2) / 2;
        assert p[i] == Erase(lines)[i - 2];
        assert i - 2 == 2 * k || i - 2 == 2 * k + 1;
      }
    }
  }

  /** The erase, and any prefix of it, writes no payload, so it is guarded
      whatever the guard state. */
  lemma PrologueGuarded(lines: nat, j: nat, held: bool)
    requires j <= 2 * lines + 3
    ensures Guarded(Prologue(lines)[..j], held)
  {
    PrologueWritesNoPayload(lines);
    assert forall k :: 0 <= k < j ==> Prologue(lines)[..j][k] == Prologue(lines)[k];
    GuardedNoPayload(Prologue(lines)[..j], held);
  }

  /** A complete erase in front of guarded, bracketed commands keeps them guarded. */
  lemma PrologueThenGuarded(lines: nat, s: seq<Cmd>)
    ensures Bracketed(s, false, false) && Guarded(s, false) ==> Guarded(Prologue(lines) + s, false)
  {
    PrologueGuarded(lines, 2 * lines + 3, false);
    assert Prologue(lines)[..2 * lines + 3] == Prologue(lines);
    PrologueToggles(lines);
    NoTogglesKeep(Prologue(lines), false);
    if Bracketed(s, false, false) && Guarded(s, false) {
      GuardedAppend(Prologue(lines), s, false, false);
    }
  }

  /** The status half of a redraw is guarded whatever the guard state. */
  lemma StatusGuarded(env: Env, o: nat, c: nat, held: bool)
    ensures Guarded(StatusPhase(env, o, c).out, held)
  {
    StatusWritesNoPayload(env, o, c);
    GuardedNoPayload(StatusPhase(env, o, c).out, held);
  }

  /** The status half of a redraw writes no payload bytes. */
  lemma StatusWritesNoPayload(env: Env, o: nat, c: nat)
    ensures var p := StatusPhase(env, o, c); forall i :: 0 <= i < |p.out| ==> !p.out[i].Payload?
  {
  }

  lemma {:induction false} CountTake(s: seq<Cmd>, j: nat, c: Cmd)
    requires j <= |s|
    ensures Count(s[..j], c) <= Count(s, c)
  {
    assert s == s[..j] + s[j..];
    CountAppend(s[..j], s[j..], c);
  }

  /** The erase loop: `n` pairs of (clear line, move up) queued onto `out`,
      stopping at the first command that fails. */
  method EraseLines(out: Term, n: nat) returns (ok: bool)
    modifies out
    ensures var j := FirstFail(out.env, old(out.ops), 2 * n);
      && ok == (j == 2 * n)
      && out.log == old(out.log) + Erase(n)[..j]
      && out.ops == old(out.ops) + (if ok then j else j + 1)
    ensures out.calls == old(out.calls)
  {
    ghost var o, log0 := out.ops, out.log;
    var i := 0;
    while i < n
      invariant 0 <= i <= n
      invariant out.ops == o + 2 * i && out.calls == old(out.calls)
      invariant Clean(out.env, o, out.ops)
      invariant out.log == log0 + Erase(i)
    {
      ErasePrefix(i, n);
      ErasePrefixClear(i, n);
      ok := out.Queue(ClearLine);
      if !ok {
        FirstFailAt(out.env, o, 2 * i, 2 * n);
        return;
      }
      ok := out.Queue(MoveUp1);
      if !ok {
        FirstFailAt(out.env, o, 2 * i + 1, 2 * n);
        return;
      }
      EraseSnoc(i);
      i := i + 1;
    }
    ok := true;
    FirstFailAt(out.env, o, 2 * n, 2 * n);
    assert Erase(n)[..2 * n] == Erase(n);
  }

  /** Queue the erase of the previous render onto `out`: move to column 0,
      reset the colour, `lines` pairs of (clear line, move up), clear the
      current line. The first failing command aborts the sequence with
      everything before it already queued. */
  method ErasePrevious(out: Term, lines: nat) returns (ok: bool)
    modifies out
    ensures var j := FirstFail(out.env, old(out.ops), 2 * lines + 3);
      && ok == (j == 2 * lines + 3)
      && out.log == old(out.log) + Prologue(lines)[..j]
      && out.ops == old(out.ops) + (if ok then j else j + 1)
    ensures out.calls == old(out.calls)
    ensures ok ==> out.log == old(out.log) + Prologue(lines)
  {
    ghost var o, log0, env := out.ops, out.log, out.env;
    ghost var p := Prologue(lines);
    PrologueFirstFail(env, o, lines);
    ok := out.Queue(Col0);
    if !ok {
      return;
    }
    ok := out.Queue(ResetColor);
    if !ok {
      assert p[..1] == [Col0];
      return;
    }
    assert out.ops == o + 2;
    ok := EraseLines(out, lines);
    if !ok {
      PrologueTake(lines, FirstFail(env, o + 2, 2 * lines));
      return;
    }
    assert out.ops == o + 2 + 2 * lines;
    ok := out.Queue(ClearLine);
    assert p[..2 * lines + 3] == p;
  }

  /** Where the first failure of a prologue lies: at one of the two leading
      commands, inside the erase loop, or at the final clear. */
  lemma PrologueFirstFail(env: Env, o: nat, lines: nat)
    ensures FirstFail(env, o, 2 * lines + 3) ==
      if env.Fails(o) then 0
      else if env.Fails(o + 1) then 1
      else if FirstFail(env, o + 2, 2 * lines) < 2 * lines then 2 + FirstFail(env, o + 2, 2 * lines)
      else if env.Fails(o + 2 + 2 * lines) then 2 * lines + 2
      else 2 * lines + 3
  {
    FirstFailSplit(env, o, 2, 2 * lines + 1);
    FirstFailSplit(env, o + 2, 2 * lines, 1);
    assert FirstFail(env, o + 2 + 2 * lines, 1) == if env.Fails(o + 2 + 2 * lines) then 0 else 1;
  }

  /** What the status half of a redraw leaves behind. */
  datatype Rendered = Rendered(out: seq<Cmd>, ok: bool, ops: nat, calls: nat, status: Result<u16>)

  /** The status half of a redraw starting at sink operation `o` with `c`
      earlier callback invocations: `execute!(MoveToColumn(0))` (queue, flush),
      the callback, the final flush. */
  function StatusPhase(env: Env, o: nat, c: nat): (p: Rendered)
    ensures o < p.ops <= o + 3
  {
    if env.Fails(o) then Rendered([], false, o + 1, c, Err)
    else if env.Fails(o + 1) then Rendered([Col0], false, o + 2, c, Err)
    else if env.Render(c).Err? then Rendered([Col0, Cmd.Flush], false, o + 2, c + 1, Err)
    else if env.Fails(o + 2) then Rendered([Col0, Cmd.Flush, Status], false, o + 3, c + 1, env.Render(c))
    else Rendered(Epilogue(), true, o + 3, c + 1, env.Render(c))
  }

  /** The callback runs exactly when the cursor reached column 0; the line
      count comes from the callback and only from it; success means the whole
      epilogue reached the terminal, and a failure leaves a strict prefix of
      it behind. */
  lemma StatusPhaseFacts(env: Env, o: nat, c: nat)
    ensures var p := StatusPhase(env, o, c);
      && p.calls == (if Clean(env, o, o + 2) then c + 1 else c)
      && (p.status.Ok? <==> Clean(env, o, o + 2) && env.Render(c).Ok?)
      && (p.status.Ok? ==> p.status == env.Render(c))
      && (p.ok <==> Clean(env, o, o + 3) && env.Render(c).Ok?)
      && (p.ok ==> p.out == Epilogue() && p.ops == o + 3)
      && |p.out| <= 4 && p.out == Epilogue()[..|p.out|] && (!p.ok ==> |p.out| < 4)
  {
  }

  /** The status half issues no toggle, no cursor movement upwards, and one
      status render exactly when the callback succeeded. */
  lemma StatusPhaseCounts(env: Env, o: nat, c: nat)
    ensures var p := StatusPhase(env, o, c);
      && NoToggles(p.out) && Count(p.out, MoveUp1) == 0
      && Count(p.out, Status) == (if p.status.Ok? then 1 else 0)
  {
    var p := StatusPhase(env, o, c);
    assert p.status.Ok? <==> |p.out| >= 3;
    assert p.out == Epilogue()[..|p.out|];
    EpilogueCounts(|p.out|);
  }

  /** What a prefix of the epilogue holds. */
  lemma {:induction false} EpilogueCounts(k: nat)
    requires k <= 4
    ensures NoToggles(Epilogue()[..k]) && Count(Epilogue()[..k], MoveUp1) == 0
    ensures Count(Epilogue()[..k], Status) == (if k >= 3 then 1 else 0)
  {
    var e := Epilogue();
    if k > 0 {
      EpilogueCounts(k - 1);
      assert e[..k] == e[..k - 1] + [e[k - 1]];
      CountAppend(e[..k - 1], [e[k - 1]], MoveUp1);
      CountAppend(e[..k - 1], [e[k - 1]], Status);
    }
  }

  /** Execute the status half of a redraw on `out`; `status` is the
      callback's result, `Err` when it was not reached. */
  method RenderStatus(out: Term) returns (status: Result<u16>, ok: bool)
    modifies out
    ensures var p := StatusPhase(out.env, old(out.ops), old(out.calls));
      && out.ops == p.ops && out.calls == p.calls
      && status == p.status && ok == p.ok
      && out.log == old(out.log) + p.out
  {
    status, ok := Err, false;
    var moved := out.Queue(Col0);
    if !moved { return; }
    var flushed := out.FlushOut();
    if !flushed { return; }
    status := out.Render();
    if status.Err? { return; }
    ok := out.FlushOut();
  }
}
