/**
 * What the macros of tb_defs.h promise, stated about the interpreter in
 * module Engine: one instruction at a time first, then whole passes and runs.
 */
module EngineProps {
  import opened BsTypes
  import opened Ticker
  import opened TbContext
  import opened Blocks
  import opened Engine

  // ---------------------------------------------------------------------------
  // TB_BEGIN's re-entry filter

  /** A signalled entry into a sequence that waits for no condition returns at once and changes nothing else. */
  lemma UnrelatedSignalIgnored<E>(p: Program<E>, f: nat, w: World<E>)
    requires WellFormed(p) && f < |p.funcs| && |w.lines| == |p.funcs|
    requires w.ctx.nonTimeEvent && !w.ctx.waitingForCond
    ensures Pass(p, f, w).exit == Ignored
    ensures Pass(p, f, w).w == w.(ctx := w.ctx.(nonTimeEvent := false, funcDone := false))
  {
  }

  /** Any other entry runs the body, with the flag cleared and the body active exactly when tb_next_line is 0. */
  lemma OtherEntriesRun<E>(p: Program<E>, f: nat, w: World<E>)
    requires WellFormed(p) && f < |p.funcs| && |w.lines| == |p.funcs|
    requires !w.ctx.nonTimeEvent || w.ctx.waitingForCond
    ensures Pass(p, f, w)
         == Exec(p, f, 0, InitFrame(w.lines[f] == 0), w.(ctx := w.ctx.(nonTimeEvent := false, funcDone := false)))
  {
  }

  // ---------------------------------------------------------------------------
  // Statements

  /** TB_CHECKPOINT inside an active segment: it passes exactly when the table expects this time and value. */
  lemma CheckpointStep<E>(i: Instr<E>, f: nat, fr: Frame, w: World<E>)
    requires i.Check? && f < |w.lines| && fr.active
    ensures var r := StatementStep(i, f, fr, w);
      && (r.Go? <==> Expected(w.ctx, w.clock.now, i.value(w.env)))
      && (r.Go? ==> r.fr == fr && r.w == w.(ctx := w.ctx.(checkpointIdx := w.ctx.checkpointIdx + 1)))
      && (r.Stop? ==> r.exit.Fatal? && r.w == w)
  {
  }

  /** TB_RETURN reports the function done and resets its resume point. */
  lemma ReturnStep<E>(f: nat, fr: Frame, w: World<E>)
    requires f < |w.lines| && fr.active
    ensures var r := StatementStep(Return, f, fr, w);
      && r.Stop? && r.exit == Returned
      && r.w.ctx.funcDone && r.w.lines[f] == 0
      && r.w.clock == w.clock && r.w.env == w.env
  {
  }

  /** TB_END: done and reset when reached in an active segment; fatal unless every block was closed. */
  lemma EndAtLevelZero<E>(f: nat, fr: Frame, w: World<E>)
    requires f < |w.lines|
    ensures var r := EndStep(f, fr, w);
      && (r.exit == Fatal(EndInsideBlock) <==> fr.cur != 0)
      && (fr.cur == 0 ==> r.exit == Ended)
      && (fr.active ==> r.w.ctx.funcDone && r.w.lines[f] == 0)
      && (!fr.active ==> r.w == w)
  {
  }

  // ---------------------------------------------------------------------------
  // Waits

  /** A wait only reached through an inactive segment proceeds only when it is the resume point. */
  lemma WaitSkipped<E>(i: Instr<E>, f: nat, ln: int, fr: Frame, w: World<E>)
    requires (i.Wait? || i.WaitUntil? || IsCondWait(i)) && f < |w.lines| && FrameOk(fr)
    requires !fr.active && w.lines[f] != ln
    ensures Step(i, f, ln, fr, w) == Go(fr.(active := false), w)
  {
  }

  /** TB_WAIT: one tick d later, resuming right after the wait. */
  lemma WaitSuspends<E>(i: Instr<E>, f: nat, ln: int, fr: Frame, w: World<E>)
    requires i.Wait? && f < |w.lines| && FrameOk(fr) && fr.active
    requires NoWrap(w.clock.now, i.delay(w.env))
    ensures var r := Step(i, f, ln, fr, w);
      && r.Stop? && r.exit == Suspended
      && r.w.clock.tick == w.clock.now + i.delay(w.env)
      && r.w.lines[f] == ln
  {
  }

  /** TB_WAIT_UNTIL: fatal for a time in the past, else one tick at that time. */
  lemma WaitUntilSuspends<E>(i: Instr<E>, f: nat, ln: int, fr: Frame, w: World<E>)
    requires i.WaitUntil? && f < |w.lines| && FrameOk(fr) && fr.active
    ensures var r := Step(i, f, ln, fr, w);
      && r.Stop?
      && (r.exit == Fatal(WaitUntilInPast) <==> i.time(w.env) < w.clock.now)
      && (w.clock.now <= i.time(w.env) ==>
            r.exit == Suspended && r.w.clock.tick == i.time(w.env) && r.w.lines[f] == ln)
  {
  }

  /**
   * TB_WAIT_COND, reached in an active segment or resumed at: it suspends
   * exactly when the condition is false, so a condition that already holds
   * costs no suspension, and proceeding clears the waiting flag.
   */
  lemma WaitCondProceedsIffHolds<E>(i: Instr<E>, f: nat, ln: int, fr: Frame, w: World<E>)
    requires i.WaitCond? && f < |w.lines| && FrameOk(fr)
    requires fr.active || w.lines[f] == ln
    ensures var r := Step(i, f, ln, fr, w);
      && (r.Go? <==> i.cond(w.env))
      && (r.Stop? ==> r.exit == Suspended && r.w.lines[f] == ln && (fr.active ==> r.w.ctx.waitingForCond))
      && (r.Go? ==> r.fr == fr.(active := true) && !r.w.ctx.waitingForCond && r.w.lines[f] == ln
                    && r.w.clock == w.clock && r.w.env == w.env)
  {
  }

  /**
   * A deadline wait resumed at its label suspends again exactly while the
   * condition is false and the deadline lies ahead; proceeding disarms the
   * deadline and cancels the tick.
   */
  lemma DeadlineResume<E>(i: Instr<E>, f: nat, ln: int, fr: Frame, w: World<E>)
    requires (i.WaitCondDeadline? || i.WaitCondDeadlineDelta?) && f < |w.lines| && FrameOk(fr)
    requires !fr.active && w.lines[f] == ln
    ensures var r := Step(i, f, ln, fr, w);
      && (r.Stop? <==> !i.cond(w.env) && w.clock.now < w.ctx.deadline)
      && (r.Stop? ==> r.exit == Suspended && r.w == w)
      && (r.Go? ==> && r.fr == fr.(active := true)
                    && r.w.ctx.deadline == TIME_NEVER && !r.w.ctx.waitingForCond
                    && r.w.clock.tick == TIME_NEVER && r.w.clock.now == w.clock.now
                    && r.w.lines == w.lines && r.w.env == w.env)
  {
  }

  /** TB_WAIT_COND_W_DEADLINE_DELTA arms the deadline d after now; with a false condition and d > 0 it suspends until then. */
  lemma DeadlineDeltaArms<E>(i: Instr<E>, f: nat, ln: int, fr: Frame, w: World<E>)
    requires i.WaitCondDeadlineDelta? && f < |w.lines| && FrameOk(fr) && fr.active
    ensures var r := Step(i, f, ln, fr, w);
      && (r == Stop(Overflow, w) <==> !NoWrap(w.clock.now, i.delay(w.env)))
      && (NoWrap(w.clock.now, i.delay(w.env)) && !i.cond(w.env) && i.delay(w.env) > 0 ==>
            && r.Stop? && r.exit == Suspended
            && r.w.ctx.deadline == w.clock.now + i.delay(w.env)
            && r.w.clock.tick == r.w.ctx.deadline
            && r.w.ctx.waitingForCond && r.w.lines[f] == ln)
      && (NoWrap(w.clock.now, i.delay(w.env)) && (i.cond(w.env) || i.delay(w.env) == 0) ==>
            && r.Go? && r.fr.active
            && r.w.ctx.deadline == TIME_NEVER && r.w.clock.tick == TIME_NEVER && !r.w.ctx.waitingForCond)
  {
  }

  /** TB_WAIT_COND_W_DEADLINE arms the deadline at the given time; with a false condition and a future time it suspends until then. */
  lemma DeadlineArms<E>(i: Instr<E>, f: nat, ln: int, fr: Frame, w: World<E>)
    requires i.WaitCondDeadline? && f < |w.lines| && FrameOk(fr) && fr.active
    ensures var r := Step(i, f, ln, fr, w);
      && (!i.cond(w.env) && w.clock.now < i.time(w.env) ==>
            && r.Stop? && r.exit == Suspended
            && r.w.ctx.deadline == i.time(w.env) && r.w.clock.tick == i.time(w.env)
            && r.w.ctx.waitingForCond && r.w.lines[f] == ln)
      && (i.cond(w.env) || i.time(w.env) <= w.clock.now ==>
            && r.Go? && r.fr.active
            && r.w.ctx.deadline == TIME_NEVER && r.w.clock.tick == TIME_NEVER && !r.w.ctx.waitingForCond)
  {
  }

  // ---------------------------------------------------------------------------
  // The block stack

  /** An opener pushes one level of its own kind, fatal once the stack is full; other levels keep their entries. */
  lemma OpenerPushes<E>(i: Instr<E>, f: nat, ln: int, fr: Frame, w: World<E>)
    requires IsOpener(i) && f < |w.lines| && FrameOk(fr)
    ensures var r := OpenStep(i, f, ln, fr, w);
      && (r.Stop? <==> fr.cur + 1 >= MAX_BLK_LEVELS)
      && (r.Stop? ==> r.exit == Fatal(TooManyBlocks))
      && (r.Go? ==> && r.fr.cur == fr.cur + 1
                    && r.fr.blk[r.fr.cur].kind == Opens(i)
                    && (IsLoop(Opens(i)) ==> r.fr.blk[r.fr.cur].firstLine == ln)
                    && (forall j | 0 <= j < MAX_BLK_LEVELS && j != r.fr.cur :: r.fr.blk[j] == fr.blk[j]))
  {
  }

  /** A closer pops exactly one level, and is fatal unless the top level is a block of its kind. */
  lemma CloserPops<E>(i: Instr<E>, f: nat, ln: int, fr: Frame, w: World<E>)
    requires IsCloser(i) && f < |w.lines| && FrameOk(fr)
    ensures var r := CloseStep(i, f, ln, fr, w);
      && (r.Stop? && r.exit.Fatal? <==> !(fr.cur > 0 && fr.blk[fr.cur].kind == ClosedKind(i)))
      && (r.Stop? && r.exit.Fatal? ==> r.exit == Fatal(CloseError(i)))
      && (r.Go? ==> r.fr.cur == fr.cur - 1 && r.fr.blk == fr.blk)
  {
  }

  /** TB_ELSE and TB_ELSIF need a TB_IF at the top and keep the level. */
  lemma BranchKeepsLevel<E>(i: Instr<E>, f: nat, ln: int, fr: Frame, w: World<E>)
    requires (i.Else? || i.ElsIf?) && f < |w.lines| && FrameOk(fr)
    ensures var r := BranchStep(i, f, ln, fr, w);
      && (r.Stop? <==> !(fr.cur > 0 && fr.blk[fr.cur].kind == IfBlk))
      && (r.Stop? ==> r.exit == Fatal(if i.Else? then ElseWithoutIf else ElsifWithoutIf))
      && (r.Go? ==> r.fr.cur == fr.cur && r.fr.blk == fr.blk)
  {
  }

  /** An opener and the closer of its kind match: the closer right after the opener pops back to the old level. */
  lemma OpenThenClose<E>(i: Instr<E>, j: Instr<E>, f: nat, ln: int, ln': int, fr: Frame, w: World<E>)
    requires IsOpener(i) && IsCloser(j) && ClosedKind(j) == Opens(i)
    requires f < |w.lines| && FrameOk(fr) && fr.cur + 1 < MAX_BLK_LEVELS
    ensures var r := OpenStep(i, f, ln, fr, w);
      && r.Go?
      && var r' := CloseStep(j, f, ln', r.fr, r.w);
      && !(r'.Stop? && r'.exit.Fatal?)
      && (r'.Go? ==> r'.fr.cur == fr.cur)
  {
    OpenerPushes(i, f, ln, fr, w);
    var r := OpenStep(i, f, ln, fr, w);
    CloserPops(j, f, ln', r.fr, r.w);
  }

  // ---------------------------------------------------------------------------
  // TB_BREAK and TB_CONTINUE

  /**
   * In an active segment a jump targets the innermost enclosing loop: it
   * leaves the segment with tb_next_blk_level one below that loop's level and
   * tb_next_line at the loop's end (break) or its iteration (continue).
   * Without an enclosing loop it is fatal.
   */
  lemma JumpTargetsInnermostLoop<E>(i: Instr<E>, f: nat, ln: int, fr: Frame, w: World<E>)
    requires (i.Break? || i.Continue?) && f < |w.lines| && FrameOk(fr) && fr.active
    ensures var r := JumpStep(i, f, ln, fr, w);
      && (r.Stop? <==> forall j :: 0 < j <= fr.cur ==> !IsLoop(fr.blk[j].kind))
      && (r.Stop? ==> r.exit == Fatal(if i.Break? then BreakNotInLoop else ContinueNotInLoop))
      && (r.Go? ==> && !r.fr.active && r.fr.cur == fr.cur && r.fr.blk == fr.blk
                    && 0 <= r.fr.nxt < fr.cur
                    && IsLoop(fr.blk[r.fr.nxt + 1].kind)
                    && (forall j :: r.fr.nxt + 1 < j <= fr.cur ==> !IsLoop(fr.blk[j].kind))
                    && r.w.lines[f] == (if i.Break? then END_LINE else LOOP_ITER_LINE))
  {
    var lvl := LoopLevel(fr.blk, fr.cur);
    if lvl <= 0 {
      assert forall j :: 0 < j <= fr.cur ==> !IsLoop(fr.blk[j].kind);
    }
  }

  // ---------------------------------------------------------------------------
  // Loops

  /**
   * TB_ENDWHILE and TB_ENDFOR reached in an active segment, or by TB_CONTINUE,
   * schedule a tick now and resume at the loop's first line; TB_UNTIL does so
   * only while its condition is false, and otherwise falls through.
   */
  lemma LoopBack<E>(i: Instr<E>, f: nat, ln: int, fr: Frame, w: World<E>)
    requires (i.EndWhile? || i.EndFor? || i.Until?) && f < |w.lines| && FrameOk(fr)
    requires fr.cur > 0 && fr.blk[fr.cur].kind == ClosedKind(i)
    requires fr.active || (w.lines[f] == LOOP_ITER_LINE && fr.nxt == fr.cur - 1)
    ensures var r := CloseStep(i, f, ln, fr, w);
      if i.Until? && i.cond(w.env) then
        r == Go(fr.(cur := fr.cur - 1, active := true), SetLine(w, f, ln))
      else
        && r.Stop? && r.exit == Suspended
        && r.w.clock == w.clock.(tick := w.clock.now)
        && r.w.lines == w.lines[f := fr.blk[fr.cur].firstLine]
        && r.w.ctx == w.ctx && r.w.env == w.env
  {
  }

  /**
   * TB_FOR runs its initialiser on entry through an active segment, and its
   * iteration expression only when resumed at its own line; the body is
   * entered exactly when the condition holds of the updated variables.
   */
  lemma ForIteration<E>(i: Instr<E>, f: nat, ln: int, fr: Frame, w: World<E>)
    requires i.For? && f < |w.lines| && FrameOk(fr) && fr.cur + 1 < MAX_BLK_LEVELS && ln > 0
    ensures var r := OpenStep(i, f, ln, fr, w);
      && r.Go?
      && r.w.env == (if fr.active then i.init(w.env) else if w.lines[f] == ln then i.iter(w.env) else w.env)
      && var entered := fr.active || w.lines[f] == ln || w.lines[f] == LOOP_COND_LINE;
      && (r.fr.active <==> entered && i.cond(r.w.env))
      && (entered && !i.cond(r.w.env) ==> r.w.lines[f] == END_LINE && r.fr.nxt == fr.cur)
  {
  }

  /** TB_WHILE enters its body exactly when reached active or resumed at, and its condition holds. */
  lemma WhileEntry<E>(i: Instr<E>, f: nat, ln: int, fr: Frame, w: World<E>)
    requires i.While? && f < |w.lines| && FrameOk(fr) && fr.cur + 1 < MAX_BLK_LEVELS
    ensures var r := OpenStep(i, f, ln, fr, w);
      && r.Go? && r.w.env == w.env
      && var entered := fr.active || w.lines[f] == ln;
      && (r.fr.active <==> entered && i.cond(w.env))
      && (entered && !i.cond(w.env) ==> r.w.lines[f] == END_LINE && r.fr.nxt == fr.cur)
  {
  }

  // ---------------------------------------------------------------------------
  // TB_CALL

  /**
   * TB_CALL in an active segment runs the callee; the caller suspends while
   * the callee is not done, and otherwise clears is_func_done and goes on.
   */
  lemma CallWaitsForCallee<E>(p: Program<E>, f: nat, k: nat, fr: Frame, w: World<E>)
    requires WellFormed(p) && f < |p.funcs| && k < |p.funcs[f]| && p.funcs[f][k].Call?
    requires FrameOk(fr) && |w.lines| == |p.funcs| && fr.active
    ensures var r := Pass(p, p.funcs[f][k].callee, SetLine(w, f, k + 1));
      && (r.exit.Aborts() ==> Exec(p, f, k, fr, w) == r)
      && (!r.exit.Aborts() && !r.w.ctx.funcDone ==> Exec(p, f, k, fr, w) == PassResult(Suspended, r.w))
      && (!r.exit.Aborts() && r.w.ctx.funcDone ==>
            Exec(p, f, k, fr, w) == Exec(p, f, k + 1, fr, r.w.(ctx := r.w.ctx.(funcDone := false))))
  {
  }

  // ---------------------------------------------------------------------------
  // Whole passes: where a pass leaves tb_next_line and is_func_done

  /** Every loop entry of the block stack remembers a label of a body of n instructions. */
  predicate BlkOk(blk: seq<BlkInfo>, n: nat)
  {
    forall j | 0 <= j < |blk| :: IsLoop(blk[j].kind) ==> 1 <= blk[j].firstLine <= n
  }

  /**
   * What holds between two instructions of a pass of function f: the stack is
   * sane, tb_next_line is 0 only inside the first segment, and no function is
   * reported done.
   */
  predicate Between<E>(f: nat, n: nat, fr: Frame, w: World<E>)
    requires f < |w.lines|
  {
    BlkOk(fr.blk, n) && (w.lines[f] == 0 ==> fr.active) && !w.ctx.funcDone
  }

  /**
   * How a pass of function f (n instructions) over w ends in r: the
   * resume points of the callers are untouched; a suspension leaves a label of
   * the body to resume at; TB_RETURN and an active TB_END report done and
   * reset the resume point, and is_func_done is set by nothing else.
   */
  predicate Outcome<E>(f: nat, n: nat, w: World<E>, r: PassResult<E>)
    requires f < |w.lines| && |r.w.lines| == |w.lines|
  {
    && (forall h | 0 <= h < f :: r.w.lines[h] == w.lines[h])
    && (r.exit.Suspended? ==> 1 <= r.w.lines[f] <= n && !r.w.ctx.funcDone)
    && (r.exit.Returned? ==> r.w.ctx.funcDone && r.w.lines[f] == 0)
    && (r.exit.Ended? ==> (r.w.ctx.funcDone <==> r.w.lines[f] == 0))
    && (r.exit.Ignored? ==> !r.w.ctx.funcDone && r.w.lines == w.lines)
  }

  /** How one instruction other than TB_CALL may end, with w before it and r after it. */
  predicate StepPost<E>(f: nat, n: nat, w: World<E>, r: StepResult<E>)
    requires f < |w.lines| && |r.w.lines| == |w.lines|
  {
    && (forall h | 0 <= h < |w.lines| && h != f :: r.w.lines[h] == w.lines[h])
    && (r.Go? ==> FrameOk(r.fr) && Between(f, n, r.fr, r.w))
    && (r.Stop? ==> r.exit.Suspended? || r.exit.Returned? || r.exit.Aborts())
    && (r.Stop? && r.exit.Suspended? ==> 1 <= r.w.lines[f] <= n && !r.w.ctx.funcDone)
    && (r.Stop? && r.exit.Returned? ==> r.w.ctx.funcDone && r.w.lines[f] == 0)
  }

  lemma StatementShape<E>(i: Instr<E>, f: nat, n: nat, fr: Frame, w: World<E>)
    requires (i.Do? || i.Post? || i.Check? || i.Return?) && f < |w.lines| && FrameOk(fr)
    requires Between(f, n, fr, w)
    ensures |StatementStep(i, f, fr, w).w.lines| == |w.lines|
    ensures StepPost(f, n, w, StatementStep(i, f, fr, w))
  {
  }

  lemma DelayShape<E>(i: Instr<E>, f: nat, ln: int, n: nat, fr: Frame, w: World<E>)
    requires (i.Wait? || i.WaitUntil?) && f < |w.lines| && FrameOk(fr) && 1 <= ln <= n
    requires Between(f, n, fr, w)
    ensures |DelayStep(i, f, ln, fr, w).w.lines| == |w.lines|
    ensures StepPost(f, n, w, DelayStep(i, f, ln, fr, w))
  {
  }

  lemma CondWaitShape<E>(i: Instr<E>, f: nat, ln: int, n: nat, fr: Frame, w: World<E>)
    requires IsCondWait(i) && f < |w.lines| && FrameOk(fr) && 1 <= ln <= n
    requires Between(f, n, fr, w)
    ensures |CondWaitStep(i, f, ln, fr, w).w.lines| == |w.lines|
    ensures StepPost(f, n, w, CondWaitStep(i, f, ln, fr, w))
  {
  }

  lemma OpenShape<E>(i: Instr<E>, f: nat, ln: int, n: nat, fr: Frame, w: World<E>)
    requires IsOpener(i) && f < |w.lines| && FrameOk(fr) && 1 <= ln <= n
    requires Between(f, n, fr, w)
    ensures |OpenStep(i, f, ln, fr, w).w.lines| == |w.lines|
    ensures StepPost(f, n, w, OpenStep(i, f, ln, fr, w))
  {
    var r := OpenStep(i, f, ln, fr, w);
    if r.Go? {
      OpenerPushes(i, f, ln, fr, w);
      forall j | 0 <= j < |r.fr.blk| && IsLoop(r.fr.blk[j].kind)
        ensures 1 <= r.fr.blk[j].firstLine <= n
      {
        if j != r.fr.cur {
          assert r.fr.blk[j] == fr.blk[j];
        }
      }
    }
  }

  lemma BranchShape<E>(i: Instr<E>, f: nat, ln: int, n: nat, fr: Frame, w: World<E>)
    requires (i.Else? || i.ElsIf?) && f < |w.lines| && FrameOk(fr) && 1 <= ln <= n
    requires Between(f, n, fr, w)
    ensures |BranchStep(i, f, ln, fr, w).w.lines| == |w.lines|
    ensures StepPost(f, n, w, BranchStep(i, f, ln, fr, w))
  {
  }

  lemma CloseShape<E>(i: Instr<E>, f: nat, ln: int, n: nat, fr: Frame, w: World<E>)
    requires IsCloser(i) && f < |w.lines| && FrameOk(fr) && 1 <= ln <= n
    requires Between(f, n, fr, w)
    ensures |CloseStep(i, f, ln, fr, w).w.lines| == |w.lines|
    ensures StepPost(f, n, w, CloseStep(i, f, ln, fr, w))
  {
    if fr.cur > 0 && fr.blk[fr.cur].kind == ClosedKind(i) && !i.EndIf? {
      assert IsLoop(fr.blk[fr.cur].kind);
    }
  }

  lemma JumpShape<E>(i: Instr<E>, f: nat, ln: int, n: nat, fr: Frame, w: World<E>)
    requires (i.Break? || i.Continue?) && f < |w.lines| && FrameOk(fr) && 1 <= ln <= n
    requires Between(f, n, fr, w)
    ensures |JumpStep(i, f, ln, fr, w).w.lines| == |w.lines|
    ensures StepPost(f, n, w, JumpStep(i, f, ln, fr, w))
  {
  }

  /** One instruction keeps Between, touches no other function's resume point, and stops only as Outcome allows. */
  lemma StepShape<E>(i: Instr<E>, f: nat, ln: int, n: nat, fr: Frame, w: World<E>)
    requires !i.Call? && f < |w.lines| && FrameOk(fr) && 1 <= ln <= n
    requires Between(f, n, fr, w)
    ensures StepPost(f, n, w, Step(i, f, ln, fr, w))
  {
    if i.Do? || i.Post? || i.Check? || i.Return? {
      StatementShape(i, f, n, fr, w);
    } else if i.Wait? || i.WaitUntil? {
      DelayShape(i, f, ln, n, fr, w);
    } else if IsCondWait(i) {
      CondWaitShape(i, f, ln, n, fr, w);
    } else if IsOpener(i) {
      OpenShape(i, f, ln, n, fr, w);
    } else if i.Else? || i.ElsIf? {
      BranchShape(i, f, ln, n, fr, w);
    } else if IsCloser(i) {
      CloseShape(i, f, ln, n, fr, w);
    } else {
      JumpShape(i, f, ln, n, fr, w);
    }
  }

  /** TB_CALL at instruction k, reached with Between: the rest of the pass ends as Outcome allows. */
  lemma {:induction false} CallShape<E>(p: Program<E>, f: nat, k: nat, fr: Frame, w: World<E>)
    requires WellFormed(p) && f < |p.funcs| && k < |p.funcs[f]| && p.funcs[f][k].Call?
    requires FrameOk(fr) && |w.lines| == |p.funcs|
    requires Between(f, |p.funcs[f]|, fr, w)
    ensures Outcome(f, |p.funcs[f]|, w, Exec(p, f, k, fr, w))
    ensures !Exec(p, f, k, fr, w).exit.Ignored?
    decreases |p.funcs| - f, |p.funcs[f]| - k + 1, 0
  {
    var i := p.funcs[f][k];
    var ln := k + 1;
    var w1 := Tail(fr, w, f, ln);
    if w1.lines[f] != ln {
      ExecShape(p, f, k + 1, fr.(active := false), w1);
    } else {
      PassShape(p, i.callee, w1);
      var r := Pass(p, i.callee, w1);
      assert r.w.lines[f] == ln;
      var s := CallStep(r, fr);
      if s.Go? {
        ExecShape(p, f, k + 1, s.fr, s.w);
      }
    }
  }

  lemma {:induction false} ExecShape<E>(p: Program<E>, f: nat, k: nat, fr: Frame, w: World<E>)
    requires WellFormed(p) && f < |p.funcs| && k <= |p.funcs[f]|
    requires FrameOk(fr) && |w.lines| == |p.funcs|
    requires Between(f, |p.funcs[f]|, fr, w)
    ensures Outcome(f, |p.funcs[f]|, w, Exec(p, f, k, fr, w))
    ensures !Exec(p, f, k, fr, w).exit.Ignored?
    decreases |p.funcs| - f, |p.funcs[f]| - k + 1, 1
  {
    var n := |p.funcs[f]|;
    if k < n {
      var i := p.funcs[f][k];
      if i.Call? {
        CallShape(p, f, k, fr, w);
      } else {
        StepShape(i, f, k + 1, n, fr, w);
        var s := Step(i, f, k + 1, fr, w);
        if s.Go? {
          ExecShape(p, f, k + 1, s.fr, s.w);
        }
      }
    }
  }

  lemma {:induction false} PassShape<E>(p: Program<E>, f: nat, w: World<E>)
    requires WellFormed(p) && f < |p.funcs| && |w.lines| == |p.funcs|
    ensures Outcome(f, |p.funcs[f]|, w, Pass(p, f, w))
    decreases |p.funcs| - f, |p.funcs[f]| + 2
  {
    var w1 := w.(ctx := w.ctx.(funcDone := false, nonTimeEvent := false));
    if !(w.ctx.nonTimeEvent && !w.ctx.waitingForCond) {
      ExecShape(p, f, 0, InitFrame(w1.lines[f] == 0), w1);
    }
  }

  /**
   * After a tick of the test sequence, it is suspended at a label of its body,
   * or it finished (TB_RETURN or TB_END) and will start over from its first
   * segment, or it was ignored, or it stopped on a fatal assertion or a clock overflow.
   */
  lemma TickOutcome<E>(p: Program<E>, w: World<E>)
    requires WellFormed(p) && |w.lines| == |p.funcs|
    ensures var r := Tick(p, w);
      && (r.exit.Suspended? ==> 1 <= r.w.lines[0] <= |p.funcs[0]|)
      && (r.exit.Returned? ==> r.w.lines[0] == 0 && r.w.ctx.funcDone)
      && (r.exit.Ended? ==> (r.w.ctx.funcDone <==> r.w.lines[0] == 0))
      && (r.exit.Ignored? ==> r.w.lines == w.lines)
  {
    var w1 := if p.checkpoints.Some? then w.(ctx := InstallCheckpoints(w.ctx, p.checkpoints.value)) else w;
    PassShape(p, 0, w1);
  }

  // ---------------------------------------------------------------------------
  // The scheduler

  /** Time never runs backwards over a run, and the clock stays sane. */
  lemma {:induction false} RunMonotone<E>(p: Program<E>, fuel: nat, w: World<E>)
    requires WellFormed(p) && |w.lines| == |p.funcs| && ClockOk(w.clock)
    ensures w.clock.now <= Run(p, fuel, w).w.clock.now
    ensures ClockOk(Run(p, fuel, w).w.clock)
    decreases fuel
  {
    if Pending(w.clock) && fuel > 0 {
      ServeKeepsClock(p, w);
      var r := Serve(p, w);
      if !r.exit.Aborts() {
        RunMonotone(p, fuel - 1, r.w);
      }
    }
  }

  /** The loop stops idle only with both slots empty, out of fuel only with one pending, and otherwise on a fatal stop. */
  lemma {:induction false} RunEndsIdle<E>(p: Program<E>, fuel: nat, w: World<E>)
    requires WellFormed(p) && |w.lines| == |p.funcs| && ClockOk(w.clock)
    ensures var r := Run(p, fuel, w);
      && (r.exit.Idle? ==> !Pending(r.w.clock))
      && (r.exit.OutOfFuel? ==> Pending(r.w.clock))
      && (r.exit.Halted? ==> r.exit.exit.Aborts())
    decreases fuel
  {
    if Pending(w.clock) && fuel > 0 {
      ServeKeepsClock(p, w);
      var r := Serve(p, w);
      if !r.exit.Aborts() {
        RunEndsIdle(p, fuel - 1, r.w);
      }
    }
  }

  /**
   * The loop is one loop however the fuel is split: running a + b iterations
   * is running a, and then b more from where the first part stopped, when it
   * stopped only for lack of fuel.
   */
  lemma {:induction false} RunCompose<E>(p: Program<E>, a: nat, b: nat, w: World<E>)
    requires WellFormed(p) && |w.lines| == |p.funcs| && ClockOk(w.clock)
    ensures var r := Run(p, a, w);
      ClockOk(r.w.clock) && |r.w.lines| == |p.funcs|
      && Run(p, a + b, w) == (if r.exit.OutOfFuel? then Run(p, b, r.w) else r)
    decreases a
  {
    RunMonotone(p, a, w);
    if Pending(w.clock) && a > 0 {
      ServeKeepsClock(p, w);
      var r := Serve(p, w);
      if !r.exit.Aborts() {
        RunCompose(p, a - 1, b, r.w);
        assert a + b - 1 == (a - 1) + b;
      }
    }
  }

  /** A run that went idle or halted gives the same result with any more fuel. */
  lemma RunFinishedStable<E>(p: Program<E>, fuel: nat, more: nat, w: World<E>)
    requires WellFormed(p) && |w.lines| == |p.funcs| && ClockOk(w.clock)
    requires !Run(p, fuel, w).exit.OutOfFuel?
    ensures Run(p, fuel + more, w) == Run(p, fuel, w)
  {
    RunCompose(p, fuel, more, w);
  }

  /** A tick and a special event due at the same time: the loop serves the tick first. */
  lemma ServeTieTick<E>(p: Program<E>, w: World<E>)
    requires WellFormed(p) && |w.lines| == |p.funcs| && Pending(w.clock) && ClockOk(w.clock)
    requires w.clock.tick == w.clock.special
    ensures Serve(p, w) == Tick(p, w.(clock := w.clock.(now := w.clock.tick, tick := TIME_NEVER)))
  {
    TieGoesToTick(w.clock);
  }
}
