/**
 * The sequencing engine of tb_defs.h as an interpreter.
 *
 * A (sub-)sequence function is a flat list of instructions standing for the
 * macro calls and plain statements between TB_BEGIN and TB_END; instruction k
 * carries the label k + 1 (the __LINE__ of the macro), and TB_END follows the
 * last one. Every entry of the function makes one forward pass over the list.
 * The macros split the function into guarded segments; a segment's statements
 * run only when its guard held ("active"). A macro has a tail, run only when
 * the segment before it is active (typically `tb_next_line = __LINE__`), and a
 * head, always run, that does the block bookkeeping and computes the next
 * segment's guard. A pass ends at the first `return` or at TB_END.
 */
module Engine {
  import opened BsTypes
  import opened Ticker
  import opened TbContext
  import opened Blocks

  /** The macros of tb_defs.h, plus the statements a test bench writes between them. */
  datatype Instr<!E> =
    | Do(update: E -> E)                                     // a plain statement on the test-bench variables
    | Post(delay: E -> Time, handler: HandlerId)             // tb_defs_unit_test_schedule_special_event_delta
    | Check(value: E -> int)                                 // TB_CHECKPOINT
    | Wait(delay: E -> Time)                                 // TB_WAIT
    | WaitUntil(time: E -> Time)                             // TB_WAIT_UNTIL
    | WaitCond(cond: E -> bool)                              // TB_WAIT_COND
    | WaitCondDeadline(cond: E -> bool, time: E -> Time)     // TB_WAIT_COND_W_DEADLINE
    | WaitCondDeadlineDelta(cond: E -> bool, delay: E -> Time) // TB_WAIT_COND_W_DEADLINE_DELTA
    | If(cond: E -> bool)
    | ElsIf(cond: E -> bool)
    | Else
    | EndIf
    | While(cond: E -> bool)
    | EndWhile
    | For(init: E -> E, cond: E -> bool, iter: E -> E)
    | EndFor
    | Repeat
    | Until(cond: E -> bool)
    | Break
    | Continue
    | Call(callee: nat)                                      // TB_CALL
    | Return                                                 // TB_RETURN

  /** An event handler: it updates the test-bench variables and may then TB_SIGNAL_EVENT the tick handler. */
  datatype Handler<!E> = Handler(update: E -> E, signal: bool)

  /**
   * A test bench: its sequence functions (function 0 is the time tick handler),
   * its event handlers, and the TB_CHECKPOINT_SEQ table of the tick handler, if any.
   */
  datatype Program<!E> = Program(
    funcs: seq<seq<Instr<E>>>,
    handlers: HandlerId -> Handler<E>,
    checkpoints: Option<seq<Checkpoint>>)

  /** TB_CALL only calls functions defined later: sequence functions are not recursive. */
  predicate WellFormed<E>(p: Program<E>)
  {
    && |p.funcs| > 0
    && forall f, k | 0 <= f < |p.funcs| && 0 <= k < |p.funcs[f]| ::
         p.funcs[f][k].Call? ==> f < p.funcs[f][k].callee < |p.funcs|
  }

  /**
   * What outlives a pass: the shared context, the clock, the test-bench
   * variables, and the static tb_next_line of every sequence function.
   */
  datatype World<E> = World(ctx: Ctx, clock: Clock, env: E, lines: seq<int>)

  /** The locals of one pass: tb_cur_blk_level, tb_next_blk_level, tb_blk_info, and the current guard. */
  datatype Frame = Frame(cur: int, nxt: int, blk: seq<BlkInfo>, active: bool)

  predicate FrameOk(fr: Frame)
  {
    0 <= fr.cur < MAX_BLK_LEVELS && |fr.blk| == MAX_BLK_LEVELS
  }

  /** The locals TB_BEGIN declares; tb_blk_info is uninitialised in C, and no entry is read before it is written. */
  function InitFrame(active: bool): (fr: Frame)
    ensures FrameOk(fr) && fr.cur == 0 && fr.nxt == 0
  {
    Frame(0, 0, seq(MAX_BLK_LEVELS, _ => BlkInfo(0, IfBlk)), active)
  }

  /**
   * How a pass ends: suspended at a wait, a loop-back or a pending call; ignored by the
   * re-entry filter; at TB_RETURN; at TB_END; at a failed TB_ASSERT; or where
   * now + delay would wrap around the 64-bit clock.
   */
  datatype Exit = Suspended | Ignored | Returned | Ended | Fatal(kind: FatalKind) | Overflow
  {
    predicate Aborts()
    {
      Fatal? || Overflow?
    }
  }

  datatype PassResult<E> = PassResult(exit: Exit, w: World<E>)

  /** The effect of one instruction: go on with the next, or leave the pass. */
  datatype StepResult<E> = Go(fr: Frame, w: World<E>) | Stop(exit: Exit, w: World<E>)

  function SetLine<E>(w: World<E>, f: nat, n: int): World<E>
    requires f < |w.lines|
  {
    w.(lines := w.lines[f := n])
  }

  /** The tail most macros share: `tb_next_line = __LINE__;` inside the active segment. */
  function Tail<E>(fr: Frame, w: World<E>, f: nat, ln: int): World<E>
    requires f < |w.lines|
  {
    if fr.active then SetLine(w, f, ln) else w
  }

  // ---------------------------------------------------------------------------
  // Statements inside a segment

  /** A plain statement, an event posting, TB_CHECKPOINT or TB_RETURN: they run only in an active segment. */
  function StatementStep<E>(i: Instr<E>, f: nat, fr: Frame, w: World<E>): StepResult<E>
    requires i.Do? || i.Post? || i.Check? || i.Return?
    requires f < |w.lines|
  {
    if !fr.active then Go(fr, w)
    else if i.Do? then Go(fr, w.(env := i.update(w.env)))
    else if i.Post? then
      var d := i.delay(w.env);
      if !NoWrap(w.clock.now, d) then Stop(Overflow, w)
      else Go(fr, w.(clock := ScheduleSpecial(w.clock, d, i.handler)))
    else if i.Check? then
      match CheckCheckpoint(w.ctx, w.clock.now, i.value(w.env))
      case Passed(c) => Go(fr, w.(ctx := c))
      case Failed(e) => Stop(Fatal(e), w)
    else
      Stop(Returned, SetLine(w.(ctx := w.ctx.(funcDone := true)), f, 0))
  }

  // ---------------------------------------------------------------------------
  // TB_WAIT and TB_WAIT_UNTIL

  function DelayStep<E>(i: Instr<E>, f: nat, ln: int, fr: Frame, w: World<E>): StepResult<E>
    requires i.Wait? || i.WaitUntil?
    requires f < |w.lines|
  {
    if !fr.active then Go(fr.(active := w.lines[f] == ln), w)
    else if i.Wait? then
      var d := i.delay(w.env);
      if !NoWrap(w.clock.now, d) then Stop(Overflow, w)
      else Stop(Suspended, SetLine(w.(clock := SetTickDelta(w.clock, d)), f, ln))
    else
      var t := i.time(w.env);
      if t < w.clock.now then Stop(Fatal(WaitUntilInPast), w)
      else Stop(Suspended, SetLine(w.(clock := SetTickAbsolute(w.clock, t)), f, ln))
  }

  // ---------------------------------------------------------------------------
  // TB_WAIT_COND, TB_WAIT_COND_W_DEADLINE, TB_WAIT_COND_W_DEADLINE_DELTA

  predicate IsCondWait<E>(i: Instr<E>)
  {
    i.WaitCond? || i.WaitCondDeadline? || i.WaitCondDeadlineDelta?
  }

  /** The tail of a condition wait: arm the deadline (if any), mark the wait, remember the label. */
  function ArmCond<E>(i: Instr<E>, f: nat, ln: int, w: World<E>): Option<World<E>>
    requires IsCondWait(i)
    requires f < |w.lines|
  {
    if i.WaitCond? then
      Some(SetLine(w.(ctx := w.ctx.(waitingForCond := true)), f, ln))
    else if i.WaitCondDeadline? then
      var t := i.time(w.env);
      Some(SetLine(w.(clock := SetTickAbsolute(w.clock, t), ctx := w.ctx.(deadline := t, waitingForCond := true)), f, ln))
    else
      var d := i.delay(w.env);
      if !NoWrap(w.clock.now, d) then None
      else Some(SetLine(w.(clock := SetTickDelta(w.clock, d),
                          ctx := w.ctx.(deadline := d + w.clock.now, waitingForCond := true)), f, ln))
  }

  /** The resume test at the wait's own label: suspend again, or proceed and disarm. */
  function CondResume<E>(i: Instr<E>, fr: Frame, w: World<E>): StepResult<E>
    requires IsCondWait(i)
  {
    if i.WaitCond? then
      if !i.cond(w.env) then Stop(Suspended, w)
      else Go(fr.(active := true), w.(ctx := w.ctx.(waitingForCond := false)))
    else if !i.cond(w.env) && w.clock.now < w.ctx.deadline then Stop(Suspended, w)
    else Go(fr.(active := true), w.(ctx := w.ctx.(deadline := TIME_NEVER, waitingForCond := false),
                                   clock := SetTickAbsolute(w.clock, TIME_NEVER)))
  }

  function CondWaitStep<E>(i: Instr<E>, f: nat, ln: int, fr: Frame, w: World<E>): StepResult<E>
    requires IsCondWait(i)
    requires f < |w.lines|
  {
    var armed := if fr.active then ArmCond(i, f, ln, w) else Some(w);
    if armed.None? then Stop(Overflow, w)
    else
      var w1 := armed.value;
      if w1.lines[f] != ln then Go(fr.(active := false), w1)
      else CondResume(i, fr, w1)
  }

  // ---------------------------------------------------------------------------
  // Block openers: TB_IF, TB_WHILE, TB_FOR, TB_REPEAT

  predicate IsOpener<E>(i: Instr<E>)
  {
    i.If? || i.While? || i.For? || i.Repeat?
  }

  /** The block kind an opener pushes. */
  function Opens<E>(i: Instr<E>): BlkType
    requires IsOpener(i)
  {
    if i.If? then IfBlk else if i.While? then WhileBlk else if i.For? then ForBlk else RepeatBlk
  }

  /** The entry an opener writes at its level; TB_IF leaves first_line as it was. */
  function OpenedBlock<E>(i: Instr<E>, ln: int, was: BlkInfo): BlkInfo
    requires IsOpener(i)
  {
    if i.If? then was.(kind := IfBlk) else BlkInfo(ln, Opens(i))
  }

  /** TB_FOR after its push: the iteration expression on resumption at the loop, then the condition line. */
  function ForHead<E>(i: Instr<E>, f: nat, ln: int, w: World<E>): World<E>
    requires i.For?
    requires f < |w.lines|
  {
    var w1 := if w.lines[f] == ln then w.(env := i.iter(w.env)) else w;
    if w1.lines[f] == LOOP_COND_LINE then SetLine(w1, f, ln) else w1
  }

  function OpenStep<E>(i: Instr<E>, f: nat, ln: int, fr: Frame, w: World<E>): StepResult<E>
    requires IsOpener(i)
    requires f < |w.lines| && FrameOk(fr)
  {
    var w1 := if !fr.active then w
              else if i.For? then SetLine(w.(env := i.init(w.env)), f, LOOP_COND_LINE)
              else SetLine(w, f, ln);
    var cur := fr.cur + 1;
    if cur >= MAX_BLK_LEVELS then Stop(Fatal(TooManyBlocks), w1)
    else
      var blk := fr.blk[cur := OpenedBlock(i, ln, fr.blk[cur])];
      if i.Repeat? then Go(Frame(cur, fr.nxt, blk, w1.lines[f] == ln), w1)
      else
        var w2 := if i.For? then ForHead(i, f, ln, w1) else w1;
        var skipTo := if i.If? then ELSE_OR_ENDIF_LINE else END_LINE;
        if w2.lines[f] == ln && !i.cond(w2.env) then Go(Frame(cur, cur - 1, blk, false), SetLine(w2, f, skipTo))
        else Go(Frame(cur, fr.nxt, blk, w2.lines[f] == ln), w2)
  }

  // ---------------------------------------------------------------------------
  // TB_ELSE and TB_ELSIF

  function BranchStep<E>(i: Instr<E>, f: nat, ln: int, fr: Frame, w: World<E>): StepResult<E>
    requires i.Else? || i.ElsIf?
    requires f < |w.lines| && FrameOk(fr)
  {
    var w1 := Tail(fr, w, f, ln);
    if !(fr.cur > 0 && fr.blk[fr.cur].kind == IfBlk) then
      Stop(Fatal(if i.Else? then ElseWithoutIf else ElsifWithoutIf), w1)
    else if w1.lines[f] == ln then
      Go(fr.(nxt := fr.cur - 1, active := false), SetLine(w1, f, END_LINE))
    else
      Go(fr.(active := w1.lines[f] == ELSE_OR_ENDIF_LINE && fr.nxt == fr.cur - 1 && (i.ElsIf? ==> i.cond(w1.env))), w1)
  }

  // ---------------------------------------------------------------------------
  // Block closers: TB_ENDIF, TB_ENDWHILE, TB_ENDFOR, TB_UNTIL

  predicate IsCloser<E>(i: Instr<E>)
  {
    i.EndIf? || i.EndWhile? || i.EndFor? || i.Until?
  }

  /** The kind a closer requires at the top of the stack, and the assertion it fails otherwise. */
  function ClosedKind<E>(i: Instr<E>): BlkType
    requires IsCloser(i)
  {
    if i.EndIf? then IfBlk else if i.EndWhile? then WhileBlk else if i.EndFor? then ForBlk else RepeatBlk
  }

  function CloseError<E>(i: Instr<E>): FatalKind
    requires IsCloser(i)
  {
    if i.EndIf? then EndifWithoutIf else if i.EndWhile? then EndwhileWithoutWhile
    else if i.EndFor? then EndforWithoutFor else UntilWithoutRepeat
  }

  function CloseStep<E>(i: Instr<E>, f: nat, ln: int, fr: Frame, w: World<E>): StepResult<E>
    requires IsCloser(i)
    requires f < |w.lines| && FrameOk(fr)
  {
    var w1 := Tail(fr, w, f, ln);
    if !(fr.cur > 0 && fr.blk[fr.cur].kind == ClosedKind(i)) then Stop(Fatal(CloseError(i)), w1)
    else
      var cur := fr.cur - 1;
      var nl := w1.lines[f];
      var popped := fr.(cur := cur);
      if i.EndIf? then
        Go(popped.(active := nl == ln || ((nl == END_LINE || nl == ELSE_OR_ENDIF_LINE) && fr.nxt == cur)), w1)
      else if nl == ln || (nl == LOOP_ITER_LINE && fr.nxt == cur) then
        if i.Until? && i.cond(w1.env) then Go(popped.(active := true), SetLine(w1, f, ln))
        else Stop(Suspended, SetLine(w1.(clock := SetTickDelta(w1.clock, 0)), f, fr.blk[fr.cur].firstLine))
      else
        Go(popped.(active := nl == END_LINE && fr.nxt == cur), w1)
  }

  // ---------------------------------------------------------------------------
  // TB_BREAK and TB_CONTINUE

  function JumpStep<E>(i: Instr<E>, f: nat, ln: int, fr: Frame, w: World<E>): StepResult<E>
    requires i.Break? || i.Continue?
    requires f < |w.lines| && FrameOk(fr)
  {
    var w1 := Tail(fr, w, f, ln);
    var lvl := LoopLevel(fr.blk, fr.cur);
    if lvl <= 0 then Stop(Fatal(if i.Break? then BreakNotInLoop else ContinueNotInLoop), w1)
    else if w1.lines[f] == ln then
      Go(fr.(nxt := lvl - 1, active := false), SetLine(w1, f, if i.Break? then END_LINE else LOOP_ITER_LINE))
    else
      Go(fr.(active := false), w1)
  }

  // ---------------------------------------------------------------------------
  // One instruction, a pass, a tick, the scheduler

  /** Every instruction except TB_CALL, which enters another pass. */
  function Step<E>(i: Instr<E>, f: nat, ln: int, fr: Frame, w: World<E>): (r: StepResult<E>)
    requires !i.Call?
    requires f < |w.lines| && FrameOk(fr)
    ensures |r.w.lines| == |w.lines|
    ensures r.Go? ==> FrameOk(r.fr)
  {
    if i.Do? || i.Post? || i.Check? || i.Return? then StatementStep(i, f, fr, w)
    else if i.Wait? || i.WaitUntil? then DelayStep(i, f, ln, fr, w)
    else if IsCondWait(i) then CondWaitStep(i, f, ln, fr, w)
    else if IsOpener(i) then OpenStep(i, f, ln, fr, w)
    else if i.Else? || i.ElsIf? then BranchStep(i, f, ln, fr, w)
    else if IsCloser(i) then CloseStep(i, f, ln, fr, w)
    else JumpStep(i, f, ln, fr, w)
  }

  /** TB_END: finish the function in an active segment; assert that every block was closed. */
  function EndStep<E>(f: nat, fr: Frame, w: World<E>): PassResult<E>
    requires f < |w.lines|
  {
    var w1 := if fr.active then SetLine(w.(ctx := w.ctx.(funcDone := true)), f, 0) else w;
    if fr.cur != 0 then PassResult(Fatal(EndInsideBlock), w1) else PassResult(Ended, w1)
  }

  /** TB_CALL after its tail: run the callee; return while it is not done, else clear is_func_done and go on. */
  function CallStep<E>(r: PassResult<E>, fr: Frame): StepResult<E>
  {
    if r.exit.Aborts() then Stop(r.exit, r.w)
    else if !r.w.ctx.funcDone then Stop(Suspended, r.w)
    else Go(fr.(active := true), r.w.(ctx := r.w.ctx.(funcDone := false)))
  }

  /** TB_CALL at instruction k of function f: its tail, then the callee's pass when this is the resume point. */
  function CallInstr<E>(p: Program<E>, f: nat, k: nat, fr: Frame, w: World<E>): (r: StepResult<E>)
    requires WellFormed(p) && f < |p.funcs| && k < |p.funcs[f]| && p.funcs[f][k].Call?
    requires FrameOk(fr) && |w.lines| == |p.funcs|
    ensures |r.w.lines| == |w.lines|
    ensures r.Go? ==> FrameOk(r.fr)
    decreases |p.funcs| - f, 0
  {
    var w1 := Tail(fr, w, f, k + 1);
    if w1.lines[f] != k + 1 then Go(fr.(active := false), w1)
    else CallStep(Pass(p, p.funcs[f][k].callee, w1), fr)
  }

  /** The rest of the pass of function f from instruction k on. */
  function Exec<E>(p: Program<E>, f: nat, k: nat, fr: Frame, w: World<E>): (r: PassResult<E>)
    requires WellFormed(p) && f < |p.funcs| && k <= |p.funcs[f]|
    requires FrameOk(fr) && |w.lines| == |p.funcs|
    ensures |r.w.lines| == |w.lines|
    decreases |p.funcs| - f, |p.funcs[f]| - k + 1
  {
    if k == |p.funcs[f]| then EndStep(f, fr, w)
    else
      var i := p.funcs[f][k];
      var ln := k + 1;
      var s := if i.Call? then CallInstr(p, f, k, fr, w) else Step(i, f, ln, fr, w);
      match s
      case Go(fr', w') => Exec(p, f, k + 1, fr', w')
      case Stop(x, w') => PassResult(x, w')
  }

  /**
   * One entry of sequence function f, from TB_BEGIN: clear is_func_done; on a
   * signalled re-entry clear the flag and return at once unless the sequence
   * waits for a condition; then run the body with fresh locals.
   */
  function Pass<E>(p: Program<E>, f: nat, w: World<E>): (r: PassResult<E>)
    requires WellFormed(p) && f < |p.funcs| && |w.lines| == |p.funcs|
    ensures |r.w.lines| == |w.lines|
    decreases |p.funcs| - f, |p.funcs[f]| + 2
  {
    var w1 := w.(ctx := w.ctx.(funcDone := false, nonTimeEvent := false));
    if w.ctx.nonTimeEvent && !w.ctx.waitingForCond then PassResult(Ignored, w1)
    else Exec(p, f, 0, InitFrame(w1.lines[f] == 0), w1)
  }

  /** The time tick handler: TB_CHECKPOINT_SEQ (when the bench has one) before the pass of function 0. */
  function Tick<E>(p: Program<E>, w: World<E>): (r: PassResult<E>)
    requires WellFormed(p) && |w.lines| == |p.funcs|
    ensures |r.w.lines| == |w.lines|
  {
    var w1 := if p.checkpoints.Some? then w.(ctx := InstallCheckpoints(w.ctx, p.checkpoints.value)) else w;
    Pass(p, 0, w1)
  }

  /** An event handler: update the variables, then TB_SIGNAL_EVENT the tick handler if it signals. */
  function Event<E>(p: Program<E>, h: Handler<E>, w: World<E>): (r: PassResult<E>)
    requires WellFormed(p) && |w.lines| == |p.funcs|
    ensures |r.w.lines| == |w.lines|
  {
    var w1 := w.(env := h.update(w.env));
    if h.signal then Tick(p, w1.(ctx := w1.ctx.(nonTimeEvent := true))) else PassResult(Ignored, w1)
  }

  /** One iteration of the dispatch loop: take the earlier slot and run its handler. */
  function Serve<E>(p: Program<E>, w: World<E>): (r: PassResult<E>)
    requires WellFormed(p) && |w.lines| == |p.funcs|
    requires Pending(w.clock) && ClockOk(w.clock)
    ensures |r.w.lines| == |w.lines|
  {
    var c := Dispatch(w.clock);
    match NextSource(w.clock)
    case TickSource => Tick(p, w.(clock := c))
    case SpecialSource => Event(p, p.handlers(w.clock.handler.value), w.(clock := c))
  }

  datatype RunExit = Idle | OutOfFuel | Halted(exit: Exit)

  datatype RunResult<E> = RunResult(exit: RunExit, w: World<E>)

  /** The tick-handler pass keeps the clock's invariant and never moves time. */
  lemma TickKeepsClock<E>(p: Program<E>, w: World<E>)
    requires WellFormed(p) && |w.lines| == |p.funcs|
    ensures Tick(p, w).w.clock.now == w.clock.now
    ensures ClockOk(w.clock) ==> ClockOk(Tick(p, w).w.clock)
  {
    var w1 := if p.checkpoints.Some? then w.(ctx := InstallCheckpoints(w.ctx, p.checkpoints.value)) else w;
    PassKeepsClock(p, 0, w1);
  }

  /**
   * tb_defs_unit_test_scheduler, bounded by fuel: serve events until both
   * slots are empty, stopping at the first fatal assertion.
   */
  function Run<E>(p: Program<E>, fuel: nat, w: World<E>): (r: RunResult<E>)
    requires WellFormed(p) && |w.lines| == |p.funcs| && ClockOk(w.clock)
    ensures |r.w.lines| == |w.lines|
    decreases fuel
  {
    if !Pending(w.clock) then RunResult(Idle, w)
    else if fuel == 0 then RunResult(OutOfFuel, w)
    else
      var r := Serve(p, w);
      if r.exit.Aborts() then RunResult(Halted(r.exit), r.w)
      else
        ServeKeepsClock(p, w);
        Run(p, fuel - 1, r.w)
  }

  // ---------------------------------------------------------------------------
  // The clock facts Run needs: a pass only reaches the clock through the setters

  lemma StepKeepsClock<E>(i: Instr<E>, f: nat, ln: int, fr: Frame, w: World<E>)
    requires !i.Call? && f < |w.lines| && FrameOk(fr)
    ensures Step(i, f, ln, fr, w).w.clock.now == w.clock.now
    ensures ClockOk(w.clock) ==> ClockOk(Step(i, f, ln, fr, w).w.clock)
  {
  }

  lemma {:induction false} ExecKeepsClock<E>(p: Program<E>, f: nat, k: nat, fr: Frame, w: World<E>)
    requires WellFormed(p) && f < |p.funcs| && k <= |p.funcs[f]|
    requires FrameOk(fr) && |w.lines| == |p.funcs|
    ensures Exec(p, f, k, fr, w).w.clock.now == w.clock.now
    ensures ClockOk(w.clock) ==> ClockOk(Exec(p, f, k, fr, w).w.clock)
    decreases |p.funcs| - f, |p.funcs[f]| - k + 1
  {
    if k < |p.funcs[f]| {
      var i := p.funcs[f][k];
      var ln := k + 1;
      if i.Call? {
        var w1 := Tail(fr, w, f, ln);
        if w1.lines[f] == ln {
          PassKeepsClock(p, i.callee, w1);
          var s := CallStep(Pass(p, i.callee, w1), fr);
          if s.Go? {
            ExecKeepsClock(p, f, k + 1, s.fr, s.w);
          }
        } else {
          ExecKeepsClock(p, f, k + 1, fr.(active := false), w1);
        }
      } else {
        StepKeepsClock(i, f, ln, fr, w);
        var s := Step(i, f, ln, fr, w);
        if s.Go? {
          ExecKeepsClock(p, f, k + 1, s.fr, s.w);
        }
      }
    }
  }

  lemma {:induction false} PassKeepsClock<E>(p: Program<E>, f: nat, w: World<E>)
    requires WellFormed(p) && f < |p.funcs| && |w.lines| == |p.funcs|
    ensures Pass(p, f, w).w.clock.now == w.clock.now
    ensures ClockOk(w.clock) ==> ClockOk(Pass(p, f, w).w.clock)
    decreases |p.funcs| - f, |p.funcs[f]| + 2
  {
    var w1 := w.(ctx := w.ctx.(funcDone := false, nonTimeEvent := false));
    if !(w.ctx.nonTimeEvent && !w.ctx.waitingForCond) {
      ExecKeepsClock(p, f, 0, InitFrame(w1.lines[f] == 0), w1);
    }
  }

  /** Serving one event moves time forward to the served slot and keeps the clock sane. */
  lemma ServeKeepsClock<E>(p: Program<E>, w: World<E>)
    requires WellFormed(p) && |w.lines| == |p.funcs|
    requires Pending(w.clock) && ClockOk(w.clock)
    ensures Serve(p, w).w.clock.now == Dispatch(w.clock).now
    ensures w.clock.now <= Serve(p, w).w.clock.now
    ensures ClockOk(Serve(p, w).w.clock)
  {
    var c := Dispatch(w.clock);
    DispatchMonotone(w.clock);
    match NextSource(w.clock)
    case TickSource =>
      TickKeepsClock(p, w.(clock := c));
    case SpecialSource =>
      var h := p.handlers(w.clock.handler.value);
      var w1 := w.(clock := c, env := h.update(w.env));
      if h.signal {
        TickKeepsClock(p, w1.(ctx := w1.ctx.(nonTimeEvent := true)));
      }
  }
}
