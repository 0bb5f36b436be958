/**
 * A test bench in the imperative form of tb_defs.h: the shared tb_context_t,
 * the scheduler's globals, the test-bench variables and every function's
 * static tb_next_line are mutable state, a pass works on its own
 * tb_blk_info array, and each macro updates them step by step. Every method
 * is proved to do exactly what the interpreter of module Engine says.
 */
module Bench {
  import opened BsTypes
  import opened Ticker
  import opened TbContext
  import opened Blocks
  import opened Engine

  class Bench<E> {
    const prog: Program<E>
    const ctx: Context
    const kernel: Kernel
    var env: E
    var lines: seq<int>

    ghost predicate Valid()
      reads this
    {
      WellFormed(prog) && |lines| == |prog.funcs|
    }

    /** The bench's state as the interpreter sees it. */
    function State(): World<E>
      reads this, ctx, kernel
    {
      World(ctx.Value(), kernel.Value(), env, lines)
    }

    /** TB_GLOBALS, the scheduler at time 0 with nothing pending, and every tb_next_line at 0. */
    constructor (p: Program<E>, env0: E)
      requires WellFormed(p)
      ensures Valid() && prog == p
      ensures State() == World(GLOBALS, START, env0, seq(|p.funcs|, _ => 0))
    {
      prog := p;
      ctx := new Context();
      kernel := new Kernel();
      env := env0;
      lines := seq(|p.funcs|, _ => 0);
    }

    /** The bench's state is what r leaves, and stop, cur', nxt', active' say how r ends. */
    ghost predicate Matches(r: StepResult<E>, stop: Option<Exit>, fr': Frame)
      reads this, ctx, kernel
    {
      && State() == r.w
      && (r.Go? ==> stop.None? && fr' == r.fr)
      && (r.Stop? ==> stop == Some(r.exit))
    }

    /** A plain statement, an event posting, TB_CHECKPOINT or TB_RETURN. */
    method Statement(i: Instr<E>, f: nat, ln: int, cur: int, nxt: int, blk: array<BlkInfo>, active: bool)
      returns (stop: Option<Exit>, cur': int, nxt': int, active': bool)
      requires (i.Do? || i.Post? || i.Check? || i.Return?) && Valid() && f < |lines|
      requires 0 <= cur < MAX_BLK_LEVELS && blk.Length == MAX_BLK_LEVELS
      modifies this, ctx, kernel
      ensures Matches(StatementStep(i, f, Frame(cur, nxt, old(blk[..]), active), old(State())),
                      stop, Frame(cur', nxt', blk[..], active'))
    {
      stop, cur', nxt', active' := None, cur, nxt, active;
      if !active {
        return;
      }
      if i.Do? {
        env := i.update(env);
      } else if i.Post? {
        var d := i.delay(env);
        if !NoWrap(kernel.now, d) {
          return Some(Overflow), cur', nxt', active';
        }
        kernel.ScheduleSpecialEventDelta(d, i.handler);
      } else if i.Check? {
        var fault := ctx.Check(kernel.HwTime(), i.value(env));
        if fault.Some? {
          return Some(Fatal(fault.value)), cur', nxt', active';
        }
      } else {
        ctx.isFuncDone := true;
        lines := lines[f := 0];
        return Some(Returned), cur', nxt', active';
      }
    }

    /** TB_WAIT and TB_WAIT_UNTIL. */
    method Delay(i: Instr<E>, f: nat, ln: int, cur: int, nxt: int, blk: array<BlkInfo>, active: bool)
      returns (stop: Option<Exit>, cur': int, nxt': int, active': bool)
      requires (i.Wait? || i.WaitUntil?) && Valid() && f < |lines|
      requires 0 <= cur < MAX_BLK_LEVELS && blk.Length == MAX_BLK_LEVELS
      modifies this, ctx, kernel
      ensures Matches(DelayStep(i, f, ln, Frame(cur, nxt, old(blk[..]), active), old(State())),
                      stop, Frame(cur', nxt', blk[..], active'))
    {
      stop, cur', nxt', active' := None, cur, nxt, true;
      if !active {
        active' := lines[f] == ln;
        return;
      }
      if i.Wait? {
        var d := i.delay(env);
        if !NoWrap(kernel.now, d) {
          return Some(Overflow), cur', nxt', active';
        }
        kernel.SetNextTickDelta(d);
      } else {
        var t := i.time(env);
        if t < kernel.HwTime() {
          return Some(Fatal(WaitUntilInPast)), cur', nxt', active';
        }
        kernel.SetNextTickAbsolute(t);
      }
      lines := lines[f := ln];
      stop := Some(Suspended);
    }

    /** TB_WAIT_COND, TB_WAIT_COND_W_DEADLINE and TB_WAIT_COND_W_DEADLINE_DELTA. */
    method CondWait(i: Instr<E>, f: nat, ln: int, cur: int, nxt: int, blk: array<BlkInfo>, active: bool)
      returns (stop: Option<Exit>, cur': int, nxt': int, active': bool)
      requires IsCondWait(i) && Valid() && f < |lines|
      requires 0 <= cur < MAX_BLK_LEVELS && blk.Length == MAX_BLK_LEVELS
      modifies this, ctx, kernel
      ensures Matches(CondWaitStep(i, f, ln, Frame(cur, nxt, old(blk[..]), active), old(State())),
                      stop, Frame(cur', nxt', blk[..], active'))
    {
      stop, cur', nxt', active' := None, cur, nxt, false;
      if active {
        if i.WaitCondDeadline? {
          var t := i.time(env);
          kernel.SetNextTickAbsolute(t);
          ctx.waitingDeadline := t;
        } else if i.WaitCondDeadlineDelta? {
          var d := i.delay(env);
          if !NoWrap(kernel.now, d) {
            return Some(Overflow), cur', nxt', active';
          }
          kernel.SetNextTickDelta(d);
          ctx.waitingDeadline := d + kernel.HwTime();
        }
        ctx.isWaitingForCond := true;
        lines := lines[f := ln];
      }
      if lines[f] != ln {
        return;
      }
      if i.WaitCond? {
        if !i.cond(env) {
          return Some(Suspended), cur', nxt', active';
        }
        ctx.isWaitingForCond := false;
      } else {
        if !i.cond(env) && kernel.HwTime() < ctx.waitingDeadline {
          return Some(Suspended), cur', nxt', active';
        }
        ctx.waitingDeadline := TIME_NEVER;
        kernel.SetNextTickAbsolute(TIME_NEVER);
        ctx.isWaitingForCond := false;
      }
      active' := true;
    }

    /** TB_IF, TB_WHILE, TB_FOR and TB_REPEAT: push a level of tb_blk_info. */
    method Open(i: Instr<E>, f: nat, ln: int, cur: int, nxt: int, blk: array<BlkInfo>, active: bool)
      returns (stop: Option<Exit>, cur': int, nxt': int, active': bool)
      requires IsOpener(i) && Valid() && f < |lines|
      requires 0 <= cur < MAX_BLK_LEVELS && blk.Length == MAX_BLK_LEVELS
      modifies this, ctx, kernel, blk
      ensures Matches(OpenStep(i, f, ln, Frame(cur, nxt, old(blk[..]), active), old(State())),
                      stop, Frame(cur', nxt', blk[..], active'))
    {
      stop, cur', nxt', active' := None, cur + 1, nxt, false;
      if active {
        if i.For? {
          env := i.init(env);
          lines := lines[f := LOOP_COND_LINE];
        } else {
          lines := lines[f := ln];
        }
      }
      if cur' >= MAX_BLK_LEVELS {
        return Some(Fatal(TooManyBlocks)), cur', nxt', active';
      }
      if i.If? {
        blk[cur'] := blk[cur'].(kind := IfBlk);
      } else {
        blk[cur'] := BlkInfo(ln, Opens(i));
      }
      if !i.Repeat? {
        if i.For? {
          if lines[f] == ln {
            env := i.iter(env);
          }
          if lines[f] == LOOP_COND_LINE {
            lines := lines[f := ln];
          }
        }
        if lines[f] == ln && !i.cond(env) {
          lines := lines[f := if i.If? then ELSE_OR_ENDIF_LINE else END_LINE];
          return None, cur', cur' - 1, false;
        }
      }
      active' := lines[f] == ln;
    }

    /** TB_ELSE and TB_ELSIF. */
    method Branch(i: Instr<E>, f: nat, ln: int, cur: int, nxt: int, blk: array<BlkInfo>, active: bool)
      returns (stop: Option<Exit>, cur': int, nxt': int, active': bool)
      requires (i.Else? || i.ElsIf?) && Valid() && f < |lines|
      requires 0 <= cur < MAX_BLK_LEVELS && blk.Length == MAX_BLK_LEVELS
      modifies this
      ensures Matches(BranchStep(i, f, ln, Frame(cur, nxt, old(blk[..]), active), old(State())),
                      stop, Frame(cur', nxt', blk[..], active'))
    {
      stop, cur', nxt', active' := None, cur, nxt, false;
      if active {
        lines := lines[f := ln];
      }
      if !(cur > 0 && blk[cur].kind == IfBlk) {
        return Some(Fatal(if i.Else? then ElseWithoutIf else ElsifWithoutIf)), cur', nxt', active';
      }
      if lines[f] == ln {
        lines := lines[f := END_LINE];
        return None, cur', cur - 1, false;
      }
      active' := lines[f] == ELSE_OR_ENDIF_LINE && nxt == cur - 1 && (i.ElsIf? ==> i.cond(env));
    }

    /** TB_ENDIF, TB_ENDWHILE, TB_ENDFOR and TB_UNTIL: pop a level, and loop back where the loop says so. */
    method Close(i: Instr<E>, f: nat, ln: int, cur: int, nxt: int, blk: array<BlkInfo>, active: bool)
      returns (stop: Option<Exit>, cur': int, nxt': int, active': bool)
      requires IsCloser(i) && Valid() && f < |lines|
      requires 0 <= cur < MAX_BLK_LEVELS && blk.Length == MAX_BLK_LEVELS
      modifies this, kernel
      ensures Matches(CloseStep(i, f, ln, Frame(cur, nxt, old(blk[..]), active), old(State())),
                      stop, Frame(cur', nxt', blk[..], active'))
    {
      stop, cur', nxt', active' := None, cur, nxt, false;
      if active {
        lines := lines[f := ln];
      }
      if !(cur > 0 && blk[cur].kind == ClosedKind(i)) {
        return Some(Fatal(CloseError(i))), cur', nxt', active';
      }
      cur' := cur - 1;
      var nl := lines[f];
      if i.EndIf? {
        active' := nl == ln || ((nl == END_LINE || nl == ELSE_OR_ENDIF_LINE) && nxt == cur');
      } else if nl == ln || (nl == LOOP_ITER_LINE && nxt == cur') {
        if i.Until? && i.cond(env) {
          lines := lines[f := ln];
          active' := true;
        } else {
          kernel.SetNextTickDelta(0);
          lines := lines[f := blk[cur].firstLine];
          stop := Some(Suspended);
        }
      } else {
        active' := nl == END_LINE && nxt == cur';
      }
    }

    /** TB_BREAK and TB_CONTINUE: scan tb_blk_info for the innermost loop. */
    method Jump(i: Instr<E>, f: nat, ln: int, cur: int, nxt: int, blk: array<BlkInfo>, active: bool)
      returns (stop: Option<Exit>, cur': int, nxt': int, active': bool)
      requires (i.Break? || i.Continue?) && Valid() && f < |lines|
      requires 0 <= cur < MAX_BLK_LEVELS && blk.Length == MAX_BLK_LEVELS
      modifies this
      ensures Matches(JumpStep(i, f, ln, Frame(cur, nxt, old(blk[..]), active), old(State())),
                      stop, Frame(cur', nxt', blk[..], active'))
    {
      stop, cur', nxt', active' := None, cur, nxt, false;
      if active {
        lines := lines[f := ln];
      }
      var lvl := ScanForLoop(blk, cur);
      if lvl <= 0 {
        return Some(Fatal(if i.Break? then BreakNotInLoop else ContinueNotInLoop)), cur', nxt', active';
      }
      if lines[f] == ln {
        lines := lines[f := if i.Break? then END_LINE else LOOP_ITER_LINE];
        nxt' := lvl - 1;
      }
    }

    /** One macro or statement other than TB_CALL. */
    method StepOne(i: Instr<E>, f: nat, ln: int, cur: int, nxt: int, blk: array<BlkInfo>, active: bool)
      returns (stop: Option<Exit>, cur': int, nxt': int, active': bool)
      requires !i.Call? && Valid() && f < |lines|
      requires 0 <= cur < MAX_BLK_LEVELS && blk.Length == MAX_BLK_LEVELS
      modifies this, ctx, kernel, blk
      ensures Matches(Step(i, f, ln, Frame(cur, nxt, old(blk[..]), active), old(State())),
                      stop, Frame(cur', nxt', blk[..], active'))
    {
      if i.Do? || i.Post? || i.Check? || i.Return? {
        stop, cur', nxt', active' := Statement(i, f, ln, cur, nxt, blk, active);
      } else if i.Wait? || i.WaitUntil? {
        stop, cur', nxt', active' := Delay(i, f, ln, cur, nxt, blk, active);
      } else if IsCondWait(i) {
        stop, cur', nxt', active' := CondWait(i, f, ln, cur, nxt, blk, active);
      } else if IsOpener(i) {
        stop, cur', nxt', active' := Open(i, f, ln, cur, nxt, blk, active);
      } else if i.Else? || i.ElsIf? {
        stop, cur', nxt', active' := Branch(i, f, ln, cur, nxt, blk, active);
      } else if IsCloser(i) {
        stop, cur', nxt', active' := Close(i, f, ln, cur, nxt, blk, active);
      } else {
        stop, cur', nxt', active' := Jump(i, f, ln, cur, nxt, blk, active);
      }
    }

    /** TB_CALL at instruction k of function f: run the callee, and go on only once it is done. */
    method CallAt(f: nat, k: nat, cur: int, nxt: int, blk: array<BlkInfo>, active: bool)
      returns (stop: Option<Exit>, active': bool)
      requires Valid() && f < |prog.funcs| && k < |prog.funcs[f]| && prog.funcs[f][k].Call?
      requires 0 <= cur < MAX_BLK_LEVELS && blk.Length == MAX_BLK_LEVELS
      modifies this, ctx, kernel
      ensures Valid()
      ensures Matches(CallInstr(prog, f, k, Frame(cur, nxt, blk[..], active), old(State())),
                      stop, Frame(cur, nxt, blk[..], active'))
      decreases |prog.funcs| - f, 0
    {
      stop, active' := None, false;
      if active {
        lines := lines[f := k + 1];
      }
      if lines[f] != k + 1 {
        return;
      }
      var y := Pass(prog.funcs[f][k].callee);
      if y.Aborts() {
        return Some(y), active';
      }
      if !ctx.isFuncDone {
        return Some(Suspended), active';
      }
      ctx.isFuncDone := false;
      active' := true;
    }

    /**
     * One entry of sequence function f: TB_BEGIN, then the body with fresh
     * block bookkeeping.
     */
    method Pass(f: nat) returns (x: Exit)
      requires Valid() && f < |prog.funcs|
      modifies this, ctx, kernel
      ensures Valid()
      ensures PassResult(x, State()) == Engine.Pass(prog, f, old(State()))
      decreases |prog.funcs| - f, 2
    {
      ctx.isFuncDone := false;
      if ctx.nonTimeEventOccurred {
        ctx.nonTimeEventOccurred := false;
        if !ctx.isWaitingForCond {
          return Ignored;
        }
      }
      x := Body(f, lines[f] == 0);
    }

    /** The body of function f macro by macro from its top, then TB_END. */
    method Body(f: nat, active0: bool) returns (x: Exit)
      requires Valid() && f < |prog.funcs|
      modifies this, ctx, kernel
      ensures Valid()
      ensures PassResult(x, State()) == Exec(prog, f, 0, InitFrame(active0), old(State()))
      decreases |prog.funcs| - f, 1
    {
      ghost var goal := Exec(prog, f, 0, InitFrame(active0), State());
      var blk := new BlkInfo[MAX_BLK_LEVELS](_ => BlkInfo(0, IfBlk));
      var cur, nxt, active := 0, 0, active0;
      assert blk[..] == InitFrame(active).blk;
      var body := prog.funcs[f];
      var k := 0;
      while k < |body|
        invariant 0 <= k <= |body| && Valid() && body == prog.funcs[f]
        invariant 0 <= cur < MAX_BLK_LEVELS && blk.Length == MAX_BLK_LEVELS
        invariant Exec(prog, f, k, Frame(cur, nxt, blk[..], active), State()) == goal
        decreases |body| - k
      {
        var stop;
        if body[k].Call? {
          stop, active := CallAt(f, k, cur, nxt, blk, active);
        } else {
          stop, cur, nxt, active := StepOne(body[k], f, k + 1, cur, nxt, blk, active);
        }
        if stop.Some? {
          return stop.value;
        }
        k := k + 1;
      }
      if active {
        ctx.isFuncDone := true;
        lines := lines[f := 0];
      }
      if cur != 0 {
        return Fatal(EndInsideBlock);
      }
      x := Ended;
    }

    /** The time tick handler: TB_CHECKPOINT_SEQ, then the test sequence. */
    method Tick() returns (x: Exit)
      requires Valid()
      modifies this, ctx, kernel
      ensures Valid()
      ensures PassResult(x, State()) == Engine.Tick(prog, old(State()))
    {
      if prog.checkpoints.Some? {
        ctx.InstallCheckpointSeq(prog.checkpoints.value);
      }
      x := Pass(0);
    }

    /** One iteration of tb_defs_unit_test_scheduler's loop. */
    method Serve() returns (x: Exit)
      requires Valid() && Pending(kernel.Value()) && ClockOk(kernel.Value())
      modifies this, ctx, kernel
      ensures Valid()
      ensures PassResult(x, State()) == Engine.Serve(prog, old(State()))
    {
      DispatchMonotone(kernel.Value());
      var src := kernel.TakeNext();
      if src == TickSource {
        x := Tick();
      } else {
        var h := prog.handlers(kernel.handler.value);
        env := h.update(env);
        if h.signal {
          ctx.nonTimeEventOccurred := true;
          x := Tick();
        } else {
          x := Ignored;
        }
      }
    }

    /** tb_defs_unit_test_scheduler, bounded by fuel. */
    method Run(fuel: nat) returns (x: RunExit)
      requires Valid() && ClockOk(kernel.Value())
      modifies this, ctx, kernel
      ensures Valid()
      ensures RunResult(x, State()) == Engine.Run(prog, fuel, old(State()))
    {
      ghost var goal := Engine.Run(prog, fuel, State());
      var n: nat := fuel;
      while (kernel.nextTick != TIME_NEVER || kernel.specialTime != TIME_NEVER) && n > 0
        invariant Valid() && ClockOk(kernel.Value()) && n <= fuel
        invariant Engine.Run(prog, n, State()) == goal
        decreases n
      {
        ServeKeepsClock(prog, State());
        var y := Serve();
        if y.Aborts() {
          return Halted(y);
        }
        n := n - 1;
      }
      x := if kernel.nextTick != TIME_NEVER || kernel.specialTime != TIME_NEVER then OutOfFuel else Idle;
    }
  }
}
