/**
 * Concrete runs of the test benches of the unit test: each lemma runs a
 * bench from TB_GLOBALS and test_init (a tick at time 0) until the scheduler
 * idles, and states where every checkpoint table ends.
 */
module Scenarios {
  import opened BsTypes
  import opened Ticker
  import opened TbContext
  import opened Blocks
  import opened Engine

  /** TB_GLOBALS, the scheduler's globals, every tb_next_line at 0, and test_init's first tick at time 0. */
  function Init<E>(p: Program<E>, env0: E): World<E>
  {
    World(GLOBALS, SetTickAbsolute(START, 0), env0, seq(|p.funcs|, _ => 0))
  }

  function NoHandlers<E>(): HandlerId -> Handler<E>
  {
    _ => Handler(x => x, false)
  }

  /** An instruction other than TB_CALL that lets the pass go on hands it to the next instruction. */
  lemma ExecGo<E>(p: Program<E>, f: nat, k: nat, fr: Frame, w: World<E>, fr': Frame, w': World<E>)
    requires WellFormed(p) && f < |p.funcs| && k < |p.funcs[f]| && !p.funcs[f][k].Call?
    requires FrameOk(fr) && |w.lines| == |p.funcs|
    requires Step(p.funcs[f][k], f, k + 1, fr, w) == Go(fr', w')
    ensures Exec(p, f, k, fr, w) == Exec(p, f, k + 1, fr', w')
  {
  }

  /** An instruction other than TB_CALL that leaves the pass ends it. */
  lemma ExecStop<E>(p: Program<E>, f: nat, k: nat, fr: Frame, w: World<E>, x: Exit, w': World<E>)
    requires WellFormed(p) && f < |p.funcs| && k < |p.funcs[f]| && !p.funcs[f][k].Call?
    requires FrameOk(fr) && |w.lines| == |p.funcs|
    requires Step(p.funcs[f][k], f, k + 1, fr, w) == Stop(x, w')
    ensures Exec(p, f, k, fr, w) == PassResult(x, w')
  {
  }

  /** The scheduler serves a due tick, with no event pending, as TB_CHECKPOINT_SEQ and one pass of function 0. */
  lemma TickServed<E>(p: Program<E>, w: World<E>)
    requires WellFormed(p) && |w.lines| == |p.funcs| && Pending(w.clock) && ClockOk(w.clock)
    requires w.clock.special == TIME_NEVER && p.checkpoints.Some?
    requires !w.ctx.nonTimeEvent && !w.ctx.funcDone
    ensures Serve(p, w)
         == Exec(p, 0, 0, InitFrame(w.lines[0] == 0),
                 w.(ctx := InstallCheckpoints(w.ctx, p.checkpoints.value),
                    clock := w.clock.(now := w.clock.tick, tick := TIME_NEVER)))
  {
  }

  /**
   * The scheduler serves a due event whose handler signals a sequence that
   * waits for a condition: the handler's update, TB_CHECKPOINT_SEQ, and one
   * pass of function 0 with both flags cleared by TB_BEGIN.
   */
  lemma EventServed<E>(p: Program<E>, w: World<E>)
    requires WellFormed(p) && |w.lines| == |p.funcs| && Pending(w.clock) && ClockOk(w.clock)
    requires w.clock.special < w.clock.tick && w.clock.handler.Some?
    requires p.handlers(w.clock.handler.value).signal && p.checkpoints.Some? && w.ctx.waitingForCond
    ensures Serve(p, w)
         == Exec(p, 0, 0, InitFrame(w.lines[0] == 0),
                 w.(ctx := InstallCheckpoints(w.ctx, p.checkpoints.value).(funcDone := false, nonTimeEvent := false),
                    clock := w.clock.(now := w.clock.special, special := TIME_NEVER),
                    env := p.handlers(w.clock.handler.value).update(w.env)))
  {
  }

  /** tb_defs_unit_test_minimal.c: one pass with an empty body, then nothing is pending. */
  const MINIMAL: Program<int> := Program([[]], NoHandlers(), None)

  lemma MinimalBench(fuel: nat)
    requires fuel >= 1
    ensures WellFormed(MINIMAL)
    ensures var r := Run(MINIMAL, fuel, Init(MINIMAL, 0));
      r.exit == Idle && r.w.lines == [0] && r.w.ctx.funcDone && r.w.clock.now == 0
  {
  }

  /** The WAIT test of tb_defs_unit_test_main.c. */
  const WAIT_BENCH: Program<int> := Program(
    [[ Check(_ => 0), Wait(_ => 1000000), Check(_ => 1), Wait(_ => 0), Check(_ => 2),
       Wait(_ => 4000000), Check(_ => 3) ]],
    NoHandlers(),
    Some([Checkpoint(0, 0), Checkpoint(1000000, 1), Checkpoint(1000000, 2), Checkpoint(5000000, 3)]))

  const WAIT_CTX: Ctx := GLOBALS.(checkpoints := WAIT_BENCH.checkpoints)

  /** Time 0: checkpoint 0, then TB_WAIT(1 ms). */
  lemma WaitTick0()
    ensures Serve(WAIT_BENCH, World(GLOBALS, Clock(0, 0, TIME_NEVER, None), 0, [0]))
         == PassResult(Suspended, World(WAIT_CTX.(checkpointIdx := 1), Clock(0, 1000000, TIME_NEVER, None), 0, [2]))
  {
  }

  /** Time 1 ms: checkpoint 1, then TB_WAIT(0), which still suspends. */
  lemma WaitTick1()
    ensures Serve(WAIT_BENCH, World(WAIT_CTX.(checkpointIdx := 1), Clock(0, 1000000, TIME_NEVER, None), 0, [2]))
         == PassResult(Suspended, World(WAIT_CTX.(checkpointIdx := 2), Clock(1000000, 1000000, TIME_NEVER, None), 0, [4]))
  {
  }

  /** Time 1 ms again: checkpoint 2, then TB_WAIT(4 ms). */
  lemma WaitTick2()
    ensures Serve(WAIT_BENCH, World(WAIT_CTX.(checkpointIdx := 2), Clock(1000000, 1000000, TIME_NEVER, None), 0, [4]))
         == PassResult(Suspended, World(WAIT_CTX.(checkpointIdx := 3), Clock(1000000, 5000000, TIME_NEVER, None), 0, [6]))
  {
  }

  /** Time 5 ms: checkpoint 3 and TB_END. */
  lemma WaitTick3()
    ensures Serve(WAIT_BENCH, World(WAIT_CTX.(checkpointIdx := 3), Clock(1000000, 5000000, TIME_NEVER, None), 0, [6]))
         == PassResult(Ended, World(WAIT_CTX.(checkpointIdx := 4, funcDone := true),
                                    Clock(5000000, TIME_NEVER, TIME_NEVER, None), 0, [0]))
  {
  }

  /** The bench is well formed, and Init builds the world written out in WaitBench. */
  lemma WaitStart()
    ensures WellFormed(WAIT_BENCH) && Init(WAIT_BENCH, 0) == World(GLOBALS, Clock(0, 0, TIME_NEVER, None), 0, [0])
  {
  }

  /** The scheduler serves four ticks, none of them fatal, and then has nothing pending. */
  lemma WaitBench()
    ensures Run(WAIT_BENCH, 4, World(GLOBALS, Clock(0, 0, TIME_NEVER, None), 0, [0]))
         == RunResult(Idle, World(WAIT_CTX.(checkpointIdx := 4, funcDone := true), Clock(5000000, TIME_NEVER, TIME_NEVER, None), 0, [0]))
  {
    WaitTick0();
    WaitTick1();
    WaitTick2();
    WaitTick3();
  }

  /**
   * The WAIT_COND test of tb_defs_unit_test_main.c, moved to start at time 0:
   * the event posted during the TB_WAIT signals the sequence, which is not
   * waiting for a condition and so ignores it; the first TB_WAIT_COND finds
   * its condition already true; the second is ended by the next event.
   */
  const COND_BENCH: Program<bool> := Program(
    [[ Post(_ => 500000, 0), Do(_ => false), Wait(_ => 1000000), Check(_ => 12),
       WaitCond(e => e), Check(_ => 13),
       Post(_ => 500000, 0), Do(_ => false), WaitCond(e => e), Check(_ => 14) ]],
    _ => Handler(_ => true, true),
    Some([Checkpoint(1000000, 12), Checkpoint(1000000, 13), Checkpoint(1500000, 14)]))

  const COND_CTX: Ctx := GLOBALS.(checkpoints := COND_BENCH.checkpoints)

  /** Time 0: the event is posted and the sequence waits 1 ms... until time 1000000. */
  lemma CondTick0()
    ensures Serve(COND_BENCH, World(GLOBALS, Clock(0, 0, TIME_NEVER, None), false, [0]))
         == PassResult(Suspended, World(COND_CTX, Clock(0, 1000000, 500000, Some(0)), false, [3]))
  {
  }

  /** Time 500000: the event handler signals; the sequence waits for no condition and ignores it. */
  lemma CondEvent1()
    ensures Serve(COND_BENCH, World(COND_CTX, Clock(0, 1000000, 500000, Some(0)), false, [3]))
         == PassResult(Ignored, World(COND_CTX, Clock(500000, 1000000, TIME_NEVER, Some(0)), true, [3]))
  {
  }

  /** Time 1000000: checkpoints 12 and 13, the second event is posted, and the second TB_WAIT_COND waits. */
  lemma CondTick1()
    ensures Serve(COND_BENCH, World(COND_CTX, Clock(500000, 1000000, TIME_NEVER, Some(0)), true, [3]))
         == PassResult(Suspended, World(COND_CTX.(checkpointIdx := 2, waitingForCond := true),
                                        Clock(1000000, TIME_NEVER, 1500000, Some(0)), false, [9]))
  {
  }

  /** Time 1500000, served: function 0 is entered at the top with every segment inactive. */
  lemma CondEvent2Served()
    ensures Serve(COND_BENCH, World(COND_CTX.(checkpointIdx := 2, waitingForCond := true),
                                    Clock(1000000, TIME_NEVER, 1500000, Some(0)), false, [9]))
         == Exec(COND_BENCH, 0, 0, Frame(0, 0, InitFrame(false).blk, false), World(COND_CTX.(checkpointIdx := 2, waitingForCond := true), Clock(1500000, TIME_NEVER, TIME_NEVER, Some(0)), true, [9]))
  {
    EventServed(COND_BENCH, World(COND_CTX.(checkpointIdx := 2, waitingForCond := true),
                                  Clock(1000000, TIME_NEVER, 1500000, Some(0)), false, [9]));
  }

  lemma CondEvent2Step0()
    ensures Exec(COND_BENCH, 0, 0, Frame(0, 0, InitFrame(false).blk, false), World(COND_CTX.(checkpointIdx := 2, waitingForCond := true), Clock(1500000, TIME_NEVER, TIME_NEVER, Some(0)), true, [9])) == Exec(COND_BENCH, 0, 1, Frame(0, 0, InitFrame(false).blk, false), World(COND_CTX.(checkpointIdx := 2, waitingForCond := true), Clock(1500000, TIME_NEVER, TIME_NEVER, Some(0)), true, [9]))
  {
    ExecGo(COND_BENCH, 0, 0, Frame(0, 0, InitFrame(false).blk, false), World(COND_CTX.(checkpointIdx := 2, waitingForCond := true), Clock(1500000, TIME_NEVER, TIME_NEVER, Some(0)), true, [9]), Frame(0, 0, InitFrame(false).blk, false), World(COND_CTX.(checkpointIdx := 2, waitingForCond := true), Clock(1500000, TIME_NEVER, TIME_NEVER, Some(0)), true, [9]));
  }

  lemma CondEvent2Step1()
    ensures Exec(COND_BENCH, 0, 1, Frame(0, 0, InitFrame(false).blk, false), World(COND_CTX.(checkpointIdx := 2, waitingForCond := true), Clock(1500000, TIME_NEVER, TIME_NEVER, Some(0)), true, [9])) == Exec(COND_BENCH, 0, 2, Frame(0, 0, InitFrame(false).blk, false), World(COND_CTX.(checkpointIdx := 2, waitingForCond := true), Clock(1500000, TIME_NEVER, TIME_NEVER, Some(0)), true, [9]))
  {
    ExecGo(COND_BENCH, 0, 1, Frame(0, 0, InitFrame(false).blk, false), World(COND_CTX.(checkpointIdx := 2, waitingForCond := true), Clock(1500000, TIME_NEVER, TIME_NEVER, Some(0)), true, [9]), Frame(0, 0, InitFrame(false).blk, false), World(COND_CTX.(checkpointIdx := 2, waitingForCond := true), Clock(1500000, TIME_NEVER, TIME_NEVER, Some(0)), true, [9]));
  }

  lemma CondEvent2Step2()
    ensures Exec(COND_BENCH, 0, 2, Frame(0, 0, InitFrame(false).blk, false), World(COND_CTX.(checkpointIdx := 2, waitingForCond := true), Clock(1500000, TIME_NEVER, TIME_NEVER, Some(0)), true, [9])) == Exec(COND_BENCH, 0, 3, Frame(0, 0, InitFrame(false).blk, false), World(COND_CTX.(checkpointIdx := 2, waitingForCond := true), Clock(1500000, TIME_NEVER, TIME_NEVER, Some(0)), true, [9]))
  {
    ExecGo(COND_BENCH, 0, 2, Frame(0, 0, InitFrame(false).blk, false), World(COND_CTX.(checkpointIdx := 2, waitingForCond := true), Clock(1500000, TIME_NEVER, TIME_NEVER, Some(0)), true, [9]), Frame(0, 0, InitFrame(false).blk, false), World(COND_CTX.(checkpointIdx := 2, waitingForCond := true), Clock(1500000, TIME_NEVER, TIME_NEVER, Some(0)), true, [9]));
  }

  lemma CondEvent2Step3()
    ensures Exec(COND_BENCH, 0, 3, Frame(0, 0, InitFrame(false).blk, false), World(COND_CTX.(checkpointIdx := 2, waitingForCond := true), Clock(1500000, TIME_NEVER, TIME_NEVER, Some(0)), true, [9])) == Exec(COND_BENCH, 0, 4, Frame(0, 0, InitFrame(false).blk, false), World(COND_CTX.(checkpointIdx := 2, waitingForCond := true), Clock(1500000, TIME_NEVER, TIME_NEVER, Some(0)), true, [9]))
  {
    ExecGo(COND_BENCH, 0, 3, Frame(0, 0, InitFrame(false).blk, false), World(COND_CTX.(checkpointIdx := 2, waitingForCond := true), Clock(1500000, TIME_NEVER, TIME_NEVER, Some(0)), true, [9]), Frame(0, 0, InitFrame(false).blk, false), World(COND_CTX.(checkpointIdx := 2, waitingForCond := true), Clock(1500000, TIME_NEVER, TIME_NEVER, Some(0)), true, [9]));
  }

  lemma CondEvent2Step4()
    ensures Exec(COND_BENCH, 0, 4, Frame(0, 0, InitFrame(false).blk, false), World(COND_CTX.(checkpointIdx := 2, waitingForCond := true), Clock(1500000, TIME_NEVER, TIME_NEVER, Some(0)), true, [9])) == Exec(COND_BENCH, 0, 5, Frame(0, 0, InitFrame(false).blk, false), World(COND_CTX.(checkpointIdx := 2, waitingForCond := true), Clock(1500000, TIME_NEVER, TIME_NEVER, Some(0)), true, [9]))
  {
    ExecGo(COND_BENCH, 0, 4, Frame(0, 0, InitFrame(false).blk, false), World(COND_CTX.(checkpointIdx := 2, waitingForCond := true), Clock(1500000, TIME_NEVER, TIME_NEVER, Some(0)), true, [9]), Frame(0, 0, InitFrame(false).blk, false), World(COND_CTX.(checkpointIdx := 2, waitingForCond := true), Clock(1500000, TIME_NEVER, TIME_NEVER, Some(0)), true, [9]));
  }

  lemma CondEvent2Step5()
    ensures Exec(COND_BENCH, 0, 5, Frame(0, 0, InitFrame(false).blk, false), World(COND_CTX.(checkpointIdx := 2, waitingForCond := true), Clock(1500000, TIME_NEVER, TIME_NEVER, Some(0)), true, [9])) == Exec(COND_BENCH, 0, 6, Frame(0, 0, InitFrame(false).blk, false), World(COND_CTX.(checkpointIdx := 2, waitingForCond := true), Clock(1500000, TIME_NEVER, TIME_NEVER, Some(0)), true, [9]))
  {
    ExecGo(COND_BENCH, 0, 5, Frame(0, 0, InitFrame(false).blk, false), World(COND_CTX.(checkpointIdx := 2, waitingForCond := true), Clock(1500000, TIME_NEVER, TIME_NEVER, Some(0)), true, [9]), Frame(0, 0, InitFrame(false).blk, false), World(COND_CTX.(checkpointIdx := 2, waitingForCond := true), Clock(1500000, TIME_NEVER, TIME_NEVER, Some(0)), true, [9]));
  }

  lemma CondEvent2Step6()
    ensures Exec(COND_BENCH, 0, 6, Frame(0, 0, InitFrame(false).blk, false), World(COND_CTX.(checkpointIdx := 2, waitingForCond := true), Clock(1500000, TIME_NEVER, TIME_NEVER, Some(0)), true, [9])) == Exec(COND_BENCH, 0, 7, Frame(0, 0, InitFrame(false).blk, false), World(COND_CTX.(checkpointIdx := 2, waitingForCond := true), Clock(1500000, TIME_NEVER, TIME_NEVER, Some(0)), true, [9]))
  {
    ExecGo(COND_BENCH, 0, 6, Frame(0, 0, InitFrame(false).blk, false), World(COND_CTX.(checkpointIdx := 2, waitingForCond := true), Clock(1500000, TIME_NEVER, TIME_NEVER, Some(0)), true, [9]), Frame(0, 0, InitFrame(false).blk, false), World(COND_CTX.(checkpointIdx := 2, waitingForCond := true), Clock(1500000, TIME_NEVER, TIME_NEVER, Some(0)), true, [9]));
  }

  lemma CondEvent2Step7()
    ensures Exec(COND_BENCH, 0, 7, Frame(0, 0, InitFrame(false).blk, false), World(COND_CTX.(checkpointIdx := 2, waitingForCond := true), Clock(1500000, TIME_NEVER, TIME_NEVER, Some(0)), true, [9])) == Exec(COND_BENCH, 0, 8, Frame(0, 0, InitFrame(false).blk, false), World(COND_CTX.(checkpointIdx := 2, waitingForCond := true), Clock(1500000, TIME_NEVER, TIME_NEVER, Some(0)), true, [9]))
  {
    ExecGo(COND_BENCH, 0, 7, Frame(0, 0, InitFrame(false).blk, false), World(COND_CTX.(checkpointIdx := 2, waitingForCond := true), Clock(1500000, TIME_NEVER, TIME_NEVER, Some(0)), true, [9]), Frame(0, 0, InitFrame(false).blk, false), World(COND_CTX.(checkpointIdx := 2, waitingForCond := true), Clock(1500000, TIME_NEVER, TIME_NEVER, Some(0)), true, [9]));
  }

  /** The second TB_WAIT_COND: its label is the resume point and the handler made its condition true. */
  lemma CondEvent2Step8()
    ensures Exec(COND_BENCH, 0, 8, Frame(0, 0, InitFrame(false).blk, false), World(COND_CTX.(checkpointIdx := 2, waitingForCond := true), Clock(1500000, TIME_NEVER, TIME_NEVER, Some(0)), true, [9])) == Exec(COND_BENCH, 0, 9, Frame(0, 0, InitFrame(false).blk, true), World(COND_CTX.(checkpointIdx := 2), Clock(1500000, TIME_NEVER, TIME_NEVER, Some(0)), true, [9]))
  {
    ExecGo(COND_BENCH, 0, 8, Frame(0, 0, InitFrame(false).blk, false), World(COND_CTX.(checkpointIdx := 2, waitingForCond := true), Clock(1500000, TIME_NEVER, TIME_NEVER, Some(0)), true, [9]), Frame(0, 0, InitFrame(false).blk, true), World(COND_CTX.(checkpointIdx := 2), Clock(1500000, TIME_NEVER, TIME_NEVER, Some(0)), true, [9]));
  }

  lemma CondEvent2Step9()
    ensures Exec(COND_BENCH, 0, 9, Frame(0, 0, InitFrame(false).blk, true), World(COND_CTX.(checkpointIdx := 2), Clock(1500000, TIME_NEVER, TIME_NEVER, Some(0)), true, [9])) == Exec(COND_BENCH, 0, 10, Frame(0, 0, InitFrame(false).blk, true), World(COND_CTX.(checkpointIdx := 3), Clock(1500000, TIME_NEVER, TIME_NEVER, Some(0)), true, [9]))
  {
    ExecGo(COND_BENCH, 0, 9, Frame(0, 0, InitFrame(false).blk, true), World(COND_CTX.(checkpointIdx := 2), Clock(1500000, TIME_NEVER, TIME_NEVER, Some(0)), true, [9]), Frame(0, 0, InitFrame(false).blk, true), World(COND_CTX.(checkpointIdx := 3), Clock(1500000, TIME_NEVER, TIME_NEVER, Some(0)), true, [9]));
  }

  lemma CondEvent2Step10()
    ensures Exec(COND_BENCH, 0, 10, Frame(0, 0, InitFrame(false).blk, true), World(COND_CTX.(checkpointIdx := 3), Clock(1500000, TIME_NEVER, TIME_NEVER, Some(0)), true, [9])) == PassResult(Ended, World(COND_CTX.(checkpointIdx := 3, funcDone := true), Clock(1500000, TIME_NEVER, TIME_NEVER, Some(0)), true, [0]))
  {
    assert EndStep(0, Frame(0, 0, InitFrame(false).blk, true), World(COND_CTX.(checkpointIdx := 3), Clock(1500000, TIME_NEVER, TIME_NEVER, Some(0)), true, [9])) == PassResult(Ended, World(COND_CTX.(checkpointIdx := 3, funcDone := true), Clock(1500000, TIME_NEVER, TIME_NEVER, Some(0)), true, [0]));
  }

  /** Time 1500000: the event ends the wait; checkpoint 14 and TB_END. */
  lemma CondEvent2()
    ensures Serve(COND_BENCH, World(COND_CTX.(checkpointIdx := 2, waitingForCond := true),
                                    Clock(1000000, TIME_NEVER, 1500000, Some(0)), false, [9]))
         == PassResult(Ended, World(COND_CTX.(checkpointIdx := 3, funcDone := true),
                                    Clock(1500000, TIME_NEVER, TIME_NEVER, Some(0)), true, [0]))
  {
    CondEvent2Served();
    CondEvent2Step0();
    CondEvent2Step1();
    CondEvent2Step2();
    CondEvent2Step3();
    CondEvent2Step4();
    CondEvent2Step5();
    CondEvent2Step6();
    CondEvent2Step7();
    CondEvent2Step8();
    CondEvent2Step9();
    CondEvent2Step10();
  }

  /** The bench is well formed, and Init builds the world written out in CondBench. */
  lemma CondStart()
    ensures WellFormed(COND_BENCH) && Init(COND_BENCH, false) == World(GLOBALS, Clock(0, 0, TIME_NEVER, None), false, [0])
  {
  }

  /** The scheduler serves two ticks and two events, none of them fatal, and then has nothing pending. */
  lemma CondBench()
    ensures Run(COND_BENCH, 4, World(GLOBALS, Clock(0, 0, TIME_NEVER, None), false, [0]))
         == RunResult(Idle, World(COND_CTX.(checkpointIdx := 3, funcDone := true), Clock(1500000, TIME_NEVER, TIME_NEVER, Some(0)), true, [0]))
  {
    CondTick0();
    CondEvent1();
    CondTick1();
    CondEvent2();
  }

  /**
   * The first two calls of the CALL test of tb_defs_unit_test_main.c, moved
   * to start at time 0: the caller suspends while test_sub_func_in_same_file
   * waits, goes on once it returns, and the checkpoint after its TB_RETURN is
   * never reached.
   */
  const CALL_BENCH: Program<int> := Program(
    [ [ Call(1), Check(_ => 70), Call(1), Check(_ => 71) ],
      [ Check(_ => 500), Wait(_ => 1000000), Check(_ => 501), Return, Check(_ => 502) ] ],
    NoHandlers(),
    Some([Checkpoint(0, 500), Checkpoint(1000000, 501), Checkpoint(1000000, 70),
          Checkpoint(1000000, 500), Checkpoint(2000000, 501), Checkpoint(2000000, 71)]))

  const CALL_CTX: Ctx := GLOBALS.(checkpoints := CALL_BENCH.checkpoints)

  /** Time 0: the first TB_CALL enters the callee, which passes checkpoint 500 and waits 1 ms. */
  lemma CallTick0()
    ensures Serve(CALL_BENCH, World(GLOBALS, Clock(0, 0, TIME_NEVER, None), 0, [0, 0]))
         == PassResult(Suspended, World(CALL_CTX.(checkpointIdx := 1), Clock(0, 1000000, TIME_NEVER, None), 0, [1, 2]))
  {
  }

  /**
   * Time 1 ms: the callee passes checkpoint 501 and returns, the caller passes
   * checkpoint 70 and its second TB_CALL starts the callee again from its top.
   */
  lemma CallTick1()
    ensures Serve(CALL_BENCH, World(CALL_CTX.(checkpointIdx := 1), Clock(0, 1000000, TIME_NEVER, None), 0, [1, 2]))
         == PassResult(Suspended, World(CALL_CTX.(checkpointIdx := 4), Clock(1000000, 2000000, TIME_NEVER, None), 0, [3, 2]))
  {
  }

  /** Time 2 ms: the callee returns again; checkpoint 71 and TB_END. */
  lemma CallTick2()
    ensures Serve(CALL_BENCH, World(CALL_CTX.(checkpointIdx := 4), Clock(1000000, 2000000, TIME_NEVER, None), 0, [3, 2]))
         == PassResult(Ended, World(CALL_CTX.(checkpointIdx := 6, funcDone := true),
                                    Clock(2000000, TIME_NEVER, TIME_NEVER, None), 0, [0, 0]))
  {
  }

  /** The bench is well formed, and Init builds the world written out in CallBench. */
  lemma CallStart()
    ensures WellFormed(CALL_BENCH) && Init(CALL_BENCH, 0) == World(GLOBALS, Clock(0, 0, TIME_NEVER, None), 0, [0, 0])
  {
  }

  /** The scheduler serves three ticks, none of them fatal, and then has nothing pending. */
  lemma CallBench()
    ensures Run(CALL_BENCH, 3, World(GLOBALS, Clock(0, 0, TIME_NEVER, None), 0, [0, 0]))
         == RunResult(Idle, World(CALL_CTX.(checkpointIdx := 6, funcDone := true), Clock(2000000, TIME_NEVER, TIME_NEVER, None), 0, [0, 0]))
  {
    CallTick0();
    CallTick1();
    CallTick2();
  }

  /**
   * The last BREAK/CONTINUE test of tb_defs_unit_test_main.c ("CONTINUE
   * doesn't loop without checking loop condition"), over the variables i and j:
   * every TB_CONTINUE lands on its own loop's end, TB_ENDWHILE and TB_ENDFOR
   * loop back through zero-delay ticks, and each loop condition is checked
   * again before its body runs.
   */
  /** The bench's `static int i, j`. */
  datatype Vars = Vars(i: int, j: int)

  const CONTINUE_BENCH: Program<Vars> := Program(
    [[ For((e: Vars) => e.(i := 0), (e: Vars) => e.i < 1, (e: Vars) => e.(i := e.i + 1)),
         Check(_ => 50), Do((e: Vars) => e.(j := 0)),
         While((e: Vars) => e.j < 1),
           Check(_ => 51),
           Repeat,
             Check(_ => 52), Continue, Check(_ => -99),
           Until(_ => true),
           Check(_ => 53), Do((e: Vars) => e.(j := e.j + 1)), Continue, Check(_ => -99),
         EndWhile,
         Check(_ => 54), Continue, Check(_ => -99),
       EndFor,
       Check(_ => 55) ]],
    NoHandlers(),
    Some([Checkpoint(0, 50), Checkpoint(0, 51), Checkpoint(0, 52), Checkpoint(0, 53),
          Checkpoint(0, 54), Checkpoint(0, 55)]))

  const CONTINUE_CTX: Ctx := GLOBALS.(checkpoints := CONTINUE_BENCH.checkpoints)

  /** The state between two instructions of a pass: the checkpoint index, the variables, tb_next_line. */
  function At(idx: nat, e: Vars, line: int): World<Vars>
  {
    World(CONTINUE_CTX.(checkpointIdx := idx), Clock(0, TIME_NEVER, TIME_NEVER, None), e, [line])
  }

  /** tb_blk_info with the TB_FOR at level 1, then the TB_WHILE at level 2, then the TB_REPEAT at level 3. */
  const B1: seq<BlkInfo> := InitFrame(true).blk[1 := BlkInfo(1, ForBlk)]
  const B2: seq<BlkInfo> := B1[2 := BlkInfo(4, WhileBlk)]
  const B3: seq<BlkInfo> := B2[3 := BlkInfo(6, RepeatBlk)]

  lemma ContinuePass1Step0()
    ensures Exec(CONTINUE_BENCH, 0, 0, Frame(0, 0, InitFrame(true).blk, true), At(0, Vars(0, 0), 0))
         == Exec(CONTINUE_BENCH, 0, 1, Frame(1, 0, B1, true), At(0, Vars(0, 0), 1))
  {
    ExecGo(CONTINUE_BENCH, 0, 0, Frame(0, 0, InitFrame(true).blk, true), At(0, Vars(0, 0), 0), Frame(1, 0, B1, true), At(0, Vars(0, 0), 1));
  }

  lemma ContinuePass1Step1()
    ensures Exec(CONTINUE_BENCH, 0, 1, Frame(1, 0, B1, true), At(0, Vars(0, 0), 1))
         == Exec(CONTINUE_BENCH, 0, 2, Frame(1, 0, B1, true), At(1, Vars(0, 0), 1))
  {
    ExecGo(CONTINUE_BENCH, 0, 1, Frame(1, 0, B1, true), At(0, Vars(0, 0), 1), Frame(1, 0, B1, true), At(1, Vars(0, 0), 1));
  }

  lemma ContinuePass1Step2()
    ensures Exec(CONTINUE_BENCH, 0, 2, Frame(1, 0, B1, true), At(1, Vars(0, 0), 1))
         == Exec(CONTINUE_BENCH, 0, 3, Frame(1, 0, B1, true), At(1, Vars(0, 0), 1))
  {
    ExecGo(CONTINUE_BENCH, 0, 2, Frame(1, 0, B1, true), At(1, Vars(0, 0), 1), Frame(1, 0, B1, true), At(1, Vars(0, 0), 1));
  }

  lemma ContinuePass1Step3()
    ensures Exec(CONTINUE_BENCH, 0, 3, Frame(1, 0, B1, true), At(1, Vars(0, 0), 1))
         == Exec(CONTINUE_BENCH, 0, 4, Frame(2, 0, B2, true), At(1, Vars(0, 0), 4))
  {
    ExecGo(CONTINUE_BENCH, 0, 3, Frame(1, 0, B1, true), At(1, Vars(0, 0), 1), Frame(2, 0, B2, true), At(1, Vars(0, 0), 4));
  }

  lemma ContinuePass1Step4()
    ensures Exec(CONTINUE_BENCH, 0, 4, Frame(2, 0, B2, true), At(1, Vars(0, 0), 4))
         == Exec(CONTINUE_BENCH, 0, 5, Frame(2, 0, B2, true), At(2, Vars(0, 0), 4))
  {
    ExecGo(CONTINUE_BENCH, 0, 4, Frame(2, 0, B2, true), At(1, Vars(0, 0), 4), Frame(2, 0, B2, true), At(2, Vars(0, 0), 4));
  }

  lemma ContinuePass1Step5()
    ensures Exec(CONTINUE_BENCH, 0, 5, Frame(2, 0, B2, true), At(2, Vars(0, 0), 4))
         == Exec(CONTINUE_BENCH, 0, 6, Frame(3, 0, B3, true), At(2, Vars(0, 0), 6))
  {
    ExecGo(CONTINUE_BENCH, 0, 5, Frame(2, 0, B2, true), At(2, Vars(0, 0), 4), Frame(3, 0, B3, true), At(2, Vars(0, 0), 6));
  }

  lemma ContinuePass1Step6()
    ensures Exec(CONTINUE_BENCH, 0, 6, Frame(3, 0, B3, true), At(2, Vars(0, 0), 6))
         == Exec(CONTINUE_BENCH, 0, 7, Frame(3, 0, B3, true), At(3, Vars(0, 0), 6))
  {
    ExecGo(CONTINUE_BENCH, 0, 6, Frame(3, 0, B3, true), At(2, Vars(0, 0), 6), Frame(3, 0, B3, true), At(3, Vars(0, 0), 6));
  }

  lemma ContinuePass1Step7()
    ensures Exec(CONTINUE_BENCH, 0, 7, Frame(3, 0, B3, true), At(3, Vars(0, 0), 6))
         == Exec(CONTINUE_BENCH, 0, 8, Frame(3, 2, B3, false), At(3, Vars(0, 0), -4))
  {
    ExecGo(CONTINUE_BENCH, 0, 7, Frame(3, 0, B3, true), At(3, Vars(0, 0), 6), Frame(3, 2, B3, false), At(3, Vars(0, 0), -4));
  }

  lemma ContinuePass1Step8()
    ensures Exec(CONTINUE_BENCH, 0, 8, Frame(3, 2, B3, false), At(3, Vars(0, 0), -4))
         == Exec(CONTINUE_BENCH, 0, 9, Frame(3, 2, B3, false), At(3, Vars(0, 0), -4))
  {
    ExecGo(CONTINUE_BENCH, 0, 8, Frame(3, 2, B3, false), At(3, Vars(0, 0), -4), Frame(3, 2, B3, false), At(3, Vars(0, 0), -4));
  }

  lemma ContinuePass1Step9()
    ensures Exec(CONTINUE_BENCH, 0, 9, Frame(3, 2, B3, false), At(3, Vars(0, 0), -4))
         == Exec(CONTINUE_BENCH, 0, 10, Frame(2, 2, B3, true), At(3, Vars(0, 0), 10))
  {
    ExecGo(CONTINUE_BENCH, 0, 9, Frame(3, 2, B3, false), At(3, Vars(0, 0), -4), Frame(2, 2, B3, true), At(3, Vars(0, 0), 10));
  }

  lemma ContinuePass1Step10()
    ensures Exec(CONTINUE_BENCH, 0, 10, Frame(2, 2, B3, true), At(3, Vars(0, 0), 10))
         == Exec(CONTINUE_BENCH, 0, 11, Frame(2, 2, B3, true), At(4, Vars(0, 0), 10))
  {
    ExecGo(CONTINUE_BENCH, 0, 10, Frame(2, 2, B3, true), At(3, Vars(0, 0), 10), Frame(2, 2, B3, true), At(4, Vars(0, 0), 10));
  }

  lemma ContinuePass1Step11()
    ensures Exec(CONTINUE_BENCH, 0, 11, Frame(2, 2, B3, true), At(4, Vars(0, 0), 10))
         == Exec(CONTINUE_BENCH, 0, 12, Frame(2, 2, B3, true), At(4, Vars(0, 1), 10))
  {
    ExecGo(CONTINUE_BENCH, 0, 11, Frame(2, 2, B3, true), At(4, Vars(0, 0), 10), Frame(2, 2, B3, true), At(4, Vars(0, 1), 10));
  }

  lemma ContinuePass1Step12()
    ensures Exec(CONTINUE_BENCH, 0, 12, Frame(2, 2, B3, true), At(4, Vars(0, 1), 10))
         == Exec(CONTINUE_BENCH, 0, 13, Frame(2, 1, B3, false), At(4, Vars(0, 1), -4))
  {
    ExecGo(CONTINUE_BENCH, 0, 12, Frame(2, 2, B3, true), At(4, Vars(0, 1), 10), Frame(2, 1, B3, false), At(4, Vars(0, 1), -4));
  }

  lemma ContinuePass1Step13()
    ensures Exec(CONTINUE_BENCH, 0, 13, Frame(2, 1, B3, false), At(4, Vars(0, 1), -4))
         == Exec(CONTINUE_BENCH, 0, 14, Frame(2, 1, B3, false), At(4, Vars(0, 1), -4))
  {
    ExecGo(CONTINUE_BENCH, 0, 13, Frame(2, 1, B3, false), At(4, Vars(0, 1), -4), Frame(2, 1, B3, false), At(4, Vars(0, 1), -4));
  }

  lemma ContinuePass1Step14()
    ensures Exec(CONTINUE_BENCH, 0, 14, Frame(2, 1, B3, false), At(4, Vars(0, 1), -4))
         == PassResult(Suspended, World(CONTINUE_CTX.(checkpointIdx := 4), Clock(0, 0, TIME_NEVER, None), Vars(0, 1), [4]))
  {
    ExecStop(CONTINUE_BENCH, 0, 14, Frame(2, 1, B3, false), At(4, Vars(0, 1), -4), Suspended, World(CONTINUE_CTX.(checkpointIdx := 4), Clock(0, 0, TIME_NEVER, None), Vars(0, 1), [4]));
  }

  /** First pass: checkpoints 50 to 53; the TB_CONTINUE in the TB_WHILE loops back to it. */
  lemma ContinuePass1()
    ensures Exec(CONTINUE_BENCH, 0, 0, Frame(0, 0, InitFrame(true).blk, true), At(0, Vars(0, 0), 0))
         == PassResult(Suspended, World(CONTINUE_CTX.(checkpointIdx := 4), Clock(0, 0, TIME_NEVER, None), Vars(0, 1), [4]))
  {
    ContinuePass1Step0();
    ContinuePass1Step1();
    ContinuePass1Step2();
    ContinuePass1Step3();
    ContinuePass1Step4();
    ContinuePass1Step5();
    ContinuePass1Step6();
    ContinuePass1Step7();
    ContinuePass1Step8();
    ContinuePass1Step9();
    ContinuePass1Step10();
    ContinuePass1Step11();
    ContinuePass1Step12();
    ContinuePass1Step13();
    ContinuePass1Step14();
  }
  lemma ContinuePass2Step0()
    ensures Exec(CONTINUE_BENCH, 0, 0, Frame(0, 0, InitFrame(false).blk, false), At(4, Vars(0, 1), 4))
         == Exec(CONTINUE_BENCH, 0, 1, Frame(1, 0, B1, false), At(4, Vars(0, 1), 4))
  {
    ExecGo(CONTINUE_BENCH, 0, 0, Frame(0, 0, InitFrame(false).blk, false), At(4, Vars(0, 1), 4), Frame(1, 0, B1, false), At(4, Vars(0, 1), 4));
  }

  lemma ContinuePass2Step1()
    ensures Exec(CONTINUE_BENCH, 0, 1, Frame(1, 0, B1, false), At(4, Vars(0, 1), 4))
         == Exec(CONTINUE_BENCH, 0, 2, Frame(1, 0, B1, false), At(4, Vars(0, 1), 4))
  {
    ExecGo(CONTINUE_BENCH, 0, 1, Frame(1, 0, B1, false), At(4, Vars(0, 1), 4), Frame(1, 0, B1, false), At(4, Vars(0, 1), 4));
  }

  lemma ContinuePass2Step2()
    ensures Exec(CONTINUE_BENCH, 0, 2, Frame(1, 0, B1, false), At(4, Vars(0, 1), 4))
         == Exec(CONTINUE_BENCH, 0, 3, Frame(1, 0, B1, false), At(4, Vars(0, 1), 4))
  {
    ExecGo(CONTINUE_BENCH, 0, 2, Frame(1, 0, B1, false), At(4, Vars(0, 1), 4), Frame(1, 0, B1, false), At(4, Vars(0, 1), 4));
  }

  lemma ContinuePass2Step3()
    ensures Exec(CONTINUE_BENCH, 0, 3, Frame(1, 0, B1, false), At(4, Vars(0, 1), 4))
         == Exec(CONTINUE_BENCH, 0, 4, Frame(2, 1, B2, false), At(4, Vars(0, 1), -1))
  {
    ExecGo(CONTINUE_BENCH, 0, 3, Frame(1, 0, B1, false), At(4, Vars(0, 1), 4), Frame(2, 1, B2, false), At(4, Vars(0, 1), -1));
  }

  lemma ContinuePass2Step4()
    ensures Exec(CONTINUE_BENCH, 0, 4, Frame(2, 1, B2, false), At(4, Vars(0, 1), -1))
         == Exec(CONTINUE_BENCH, 0, 5, Frame(2, 1, B2, false), At(4, Vars(0, 1), -1))
  {
    ExecGo(CONTINUE_BENCH, 0, 4, Frame(2, 1, B2, false), At(4, Vars(0, 1), -1), Frame(2, 1, B2, false), At(4, Vars(0, 1), -1));
  }

  lemma ContinuePass2Step5()
    ensures Exec(CONTINUE_BENCH, 0, 5, Frame(2, 1, B2, false), At(4, Vars(0, 1), -1))
         == Exec(CONTINUE_BENCH, 0, 6, Frame(3, 1, B3, false), At(4, Vars(0, 1), -1))
  {
    ExecGo(CONTINUE_BENCH, 0, 5, Frame(2, 1, B2, false), At(4, Vars(0, 1), -1), Frame(3, 1, B3, false), At(4, Vars(0, 1), -1));
  }

  lemma ContinuePass2Step6()
    ensures Exec(CONTINUE_BENCH, 0, 6, Frame(3, 1, B3, false), At(4, Vars(0, 1), -1))
         == Exec(CONTINUE_BENCH, 0, 7, Frame(3, 1, B3, false), At(4, Vars(0, 1), -1))
  {
    ExecGo(CONTINUE_BENCH, 0, 6, Frame(3, 1, B3, false), At(4, Vars(0, 1), -1), Frame(3, 1, B3, false), At(4, Vars(0, 1), -1));
  }

  lemma ContinuePass2Step7()
    ensures Exec(CONTINUE_BENCH, 0, 7, Frame(3, 1, B3, false), At(4, Vars(0, 1), -1))
         == Exec(CONTINUE_BENCH, 0, 8, Frame(3, 1, B3, false), At(4, Vars(0, 1), -1))
  {
    ExecGo(CONTINUE_BENCH, 0, 7, Frame(3, 1, B3, false), At(4, Vars(0, 1), -1), Frame(3, 1, B3, false), At(4, Vars(0, 1), -1));
  }

  lemma ContinuePass2Step8()
    ensures Exec(CONTINUE_BENCH, 0, 8, Frame(3, 1, B3, false), At(4, Vars(0, 1), -1))
         == Exec(CONTINUE_BENCH, 0, 9, Frame(3, 1, B3, false), At(4, Vars(0, 1), -1))
  {
    ExecGo(CONTINUE_BENCH, 0, 8, Frame(3, 1, B3, false), At(4, Vars(0, 1), -1), Frame(3, 1, B3, false), At(4, Vars(0, 1), -1));
  }

  lemma ContinuePass2Step9()
    ensures Exec(CONTINUE_BENCH, 0, 9, Frame(3, 1, B3, false), At(4, Vars(0, 1), -1))
         == Exec(CONTINUE_BENCH, 0, 10, Frame(2, 1, B3, false), At(4, Vars(0, 1), -1))
  {
    ExecGo(CONTINUE_BENCH, 0, 9, Frame(3, 1, B3, false), At(4, Vars(0, 1), -1), Frame(2, 1, B3, false), At(4, Vars(0, 1), -1));
  }

  lemma ContinuePass2Step10()
    ensures Exec(CONTINUE_BENCH, 0, 10, Frame(2, 1, B3, false), At(4, Vars(0, 1), -1))
         == Exec(CONTINUE_BENCH, 0, 11, Frame(2, 1, B3, false), At(4, Vars(0, 1), -1))
  {
    ExecGo(CONTINUE_BENCH, 0, 10, Frame(2, 1, B3, false), At(4, Vars(0, 1), -1), Frame(2, 1, B3, false), At(4, Vars(0, 1), -1));
  }

  lemma ContinuePass2Step11()
    ensures Exec(CONTINUE_BENCH, 0, 11, Frame(2, 1, B3, false), At(4, Vars(0, 1), -1))
         == Exec(CONTINUE_BENCH, 0, 12, Frame(2, 1, B3, false), At(4, Vars(0, 1), -1))
  {
    ExecGo(CONTINUE_BENCH, 0, 11, Frame(2, 1, B3, false), At(4, Vars(0, 1), -1), Frame(2, 1, B3, false), At(4, Vars(0, 1), -1));
  }

  lemma ContinuePass2Step12()
    ensures Exec(CONTINUE_BENCH, 0, 12, Frame(2, 1, B3, false), At(4, Vars(0, 1), -1))
         == Exec(CONTINUE_BENCH, 0, 13, Frame(2, 1, B3, false), At(4, Vars(0, 1), -1))
  {
    ExecGo(CONTINUE_BENCH, 0, 12, Frame(2, 1, B3, false), At(4, Vars(0, 1), -1), Frame(2, 1, B3, false), At(4, Vars(0, 1), -1));
  }

  lemma ContinuePass2Step13()
    ensures Exec(CONTINUE_BENCH, 0, 13, Frame(2, 1, B3, false), At(4, Vars(0, 1), -1))
         == Exec(CONTINUE_BENCH, 0, 14, Frame(2, 1, B3, false), At(4, Vars(0, 1), -1))
  {
    ExecGo(CONTINUE_BENCH, 0, 13, Frame(2, 1, B3, false), At(4, Vars(0, 1), -1), Frame(2, 1, B3, false), At(4, Vars(0, 1), -1));
  }

  lemma ContinuePass2Step14()
    ensures Exec(CONTINUE_BENCH, 0, 14, Frame(2, 1, B3, false), At(4, Vars(0, 1), -1))
         == Exec(CONTINUE_BENCH, 0, 15, Frame(1, 1, B3, true), At(4, Vars(0, 1), -1))
  {
    ExecGo(CONTINUE_BENCH, 0, 14, Frame(2, 1, B3, false), At(4, Vars(0, 1), -1), Frame(1, 1, B3, true), At(4, Vars(0, 1), -1));
  }

  lemma ContinuePass2Step15()
    ensures Exec(CONTINUE_BENCH, 0, 15, Frame(1, 1, B3, true), At(4, Vars(0, 1), -1))
         == Exec(CONTINUE_BENCH, 0, 16, Frame(1, 1, B3, true), At(5, Vars(0, 1), -1))
  {
    ExecGo(CONTINUE_BENCH, 0, 15, Frame(1, 1, B3, true), At(4, Vars(0, 1), -1), Frame(1, 1, B3, true), At(5, Vars(0, 1), -1));
  }

  lemma ContinuePass2Step16()
    ensures Exec(CONTINUE_BENCH, 0, 16, Frame(1, 1, B3, true), At(5, Vars(0, 1), -1))
         == Exec(CONTINUE_BENCH, 0, 17, Frame(1, 0, B3, false), At(5, Vars(0, 1), -4))
  {
    ExecGo(CONTINUE_BENCH, 0, 16, Frame(1, 1, B3, true), At(5, Vars(0, 1), -1), Frame(1, 0, B3, false), At(5, Vars(0, 1), -4));
  }

  lemma ContinuePass2Step17()
    ensures Exec(CONTINUE_BENCH, 0, 17, Frame(1, 0, B3, false), At(5, Vars(0, 1), -4))
         == Exec(CONTINUE_BENCH, 0, 18, Frame(1, 0, B3, false), At(5, Vars(0, 1), -4))
  {
    ExecGo(CONTINUE_BENCH, 0, 17, Frame(1, 0, B3, false), At(5, Vars(0, 1), -4), Frame(1, 0, B3, false), At(5, Vars(0, 1), -4));
  }

  lemma ContinuePass2Step18()
    ensures Exec(CONTINUE_BENCH, 0, 18, Frame(1, 0, B3, false), At(5, Vars(0, 1), -4))
         == PassResult(Suspended, World(CONTINUE_CTX.(checkpointIdx := 5), Clock(0, 0, TIME_NEVER, None), Vars(0, 1), [1]))
  {
    ExecStop(CONTINUE_BENCH, 0, 18, Frame(1, 0, B3, false), At(5, Vars(0, 1), -4), Suspended, World(CONTINUE_CTX.(checkpointIdx := 5), Clock(0, 0, TIME_NEVER, None), Vars(0, 1), [1]));
  }

  /** Second pass: the TB_WHILE condition is false now; checkpoint 54; the TB_CONTINUE in the TB_FOR loops back to it. */
  lemma ContinuePass2()
    ensures Exec(CONTINUE_BENCH, 0, 0, Frame(0, 0, InitFrame(false).blk, false), At(4, Vars(0, 1), 4))
         == PassResult(Suspended, World(CONTINUE_CTX.(checkpointIdx := 5), Clock(0, 0, TIME_NEVER, None), Vars(0, 1), [1]))
  {
    ContinuePass2Step0();
    ContinuePass2Step1();
    ContinuePass2Step2();
    ContinuePass2Step3();
    ContinuePass2Step4();
    ContinuePass2Step5();
    ContinuePass2Step6();
    ContinuePass2Step7();
    ContinuePass2Step8();
    ContinuePass2Step9();
    ContinuePass2Step10();
    ContinuePass2Step11();
    ContinuePass2Step12();
    ContinuePass2Step13();
    ContinuePass2Step14();
    ContinuePass2Step15();
    ContinuePass2Step16();
    ContinuePass2Step17();
    ContinuePass2Step18();
  }
  lemma ContinuePass3Step0()
    ensures Exec(CONTINUE_BENCH, 0, 0, Frame(0, 0, InitFrame(false).blk, false), At(5, Vars(0, 1), 1))
         == Exec(CONTINUE_BENCH, 0, 1, Frame(1, 0, B1, false), At(5, Vars(1, 1), -1))
  {
    ExecGo(CONTINUE_BENCH, 0, 0, Frame(0, 0, InitFrame(false).blk, false), At(5, Vars(0, 1), 1), Frame(1, 0, B1, false), At(5, Vars(1, 1), -1));
  }

  lemma ContinuePass3Step1()
    ensures Exec(CONTINUE_BENCH, 0, 1, Frame(1, 0, B1, false), At(5, Vars(1, 1), -1))
         == Exec(CONTINUE_BENCH, 0, 2, Frame(1, 0, B1, false), At(5, Vars(1, 1), -1))
  {
    ExecGo(CONTINUE_BENCH, 0, 1, Frame(1, 0, B1, false), At(5, Vars(1, 1), -1), Frame(1, 0, B1, false), At(5, Vars(1, 1), -1));
  }

  lemma ContinuePass3Step2()
    ensures Exec(CONTINUE_BENCH, 0, 2, Frame(1, 0, B1, false), At(5, Vars(1, 1), -1))
         == Exec(CONTINUE_BENCH, 0, 3, Frame(1, 0, B1, false), At(5, Vars(1, 1), -1))
  {
    ExecGo(CONTINUE_BENCH, 0, 2, Frame(1, 0, B1, false), At(5, Vars(1, 1), -1), Frame(1, 0, B1, false), At(5, Vars(1, 1), -1));
  }

  lemma ContinuePass3Step3()
    ensures Exec(CONTINUE_BENCH, 0, 3, Frame(1, 0, B1, false), At(5, Vars(1, 1), -1))
         == Exec(CONTINUE_BENCH, 0, 4, Frame(2, 0, B2, false), At(5, Vars(1, 1), -1))
  {
    ExecGo(CONTINUE_BENCH, 0, 3, Frame(1, 0, B1, false), At(5, Vars(1, 1), -1), Frame(2, 0, B2, false), At(5, Vars(1, 1), -1));
  }

  lemma ContinuePass3Step4()
    ensures Exec(CONTINUE_BENCH, 0, 4, Frame(2, 0, B2, false), At(5, Vars(1, 1), -1))
         == Exec(CONTINUE_BENCH, 0, 5, Frame(2, 0, B2, false), At(5, Vars(1, 1), -1))
  {
    ExecGo(CONTINUE_BENCH, 0, 4, Frame(2, 0, B2, false), At(5, Vars(1, 1), -1), Frame(2, 0, B2, false), At(5, Vars(1, 1), -1));
  }

  lemma ContinuePass3Step5()
    ensures Exec(CONTINUE_BENCH, 0, 5, Frame(2, 0, B2, false), At(5, Vars(1, 1), -1))
         == Exec(CONTINUE_BENCH, 0, 6, Frame(3, 0, B3, false), At(5, Vars(1, 1), -1))
  {
    ExecGo(CONTINUE_BENCH, 0, 5, Frame(2, 0, B2, false), At(5, Vars(1, 1), -1), Frame(3, 0, B3, false), At(5, Vars(1, 1), -1));
  }

  lemma ContinuePass3Step6()
    ensures Exec(CONTINUE_BENCH, 0, 6, Frame(3, 0, B3, false), At(5, Vars(1, 1), -1))
         == Exec(CONTINUE_BENCH, 0, 7, Frame(3, 0, B3, false), At(5, Vars(1, 1), -1))
  {
    ExecGo(CONTINUE_BENCH, 0, 6, Frame(3, 0, B3, false), At(5, Vars(1, 1), -1), Frame(3, 0, B3, false), At(5, Vars(1, 1), -1));
  }

  lemma ContinuePass3Step7()
    ensures Exec(CONTINUE_BENCH, 0, 7, Frame(3, 0, B3, false), At(5, Vars(1, 1), -1))
         == Exec(CONTINUE_BENCH, 0, 8, Frame(3, 0, B3, false), At(5, Vars(1, 1), -1))
  {
    ExecGo(CONTINUE_BENCH, 0, 7, Frame(3, 0, B3, false), At(5, Vars(1, 1), -1), Frame(3, 0, B3, false), At(5, Vars(1, 1), -1));
  }

  lemma ContinuePass3Step8()
    ensures Exec(CONTINUE_BENCH, 0, 8, Frame(3, 0, B3, false), At(5, Vars(1, 1), -1))
         == Exec(CONTINUE_BENCH, 0, 9, Frame(3, 0, B3, false), At(5, Vars(1, 1), -1))
  {
    ExecGo(CONTINUE_BENCH, 0, 8, Frame(3, 0, B3, false), At(5, Vars(1, 1), -1), Frame(3, 0, B3, false), At(5, Vars(1, 1), -1));
  }

  lemma ContinuePass3Step9()
    ensures Exec(CONTINUE_BENCH, 0, 9, Frame(3, 0, B3, false), At(5, Vars(1, 1), -1))
         == Exec(CONTINUE_BENCH, 0, 10, Frame(2, 0, B3, false), At(5, Vars(1, 1), -1))
  {
    ExecGo(CONTINUE_BENCH, 0, 9, Frame(3, 0, B3, false), At(5, Vars(1, 1), -1), Frame(2, 0, B3, false), At(5, Vars(1, 1), -1));
  }

  lemma ContinuePass3Step10()
    ensures Exec(CONTINUE_BENCH, 0, 10, Frame(2, 0, B3, false), At(5, Vars(1, 1), -1))
         == Exec(CONTINUE_BENCH, 0, 11, Frame(2, 0, B3, false), At(5, Vars(1, 1), -1))
  {
    ExecGo(CONTINUE_BENCH, 0, 10, Frame(2, 0, B3, false), At(5, Vars(1, 1), -1), Frame(2, 0, B3, false), At(5, Vars(1, 1), -1));
  }

  lemma ContinuePass3Step11()
    ensures Exec(CONTINUE_BENCH, 0, 11, Frame(2, 0, B3, false), At(5, Vars(1, 1), -1))
         == Exec(CONTINUE_BENCH, 0, 12, Frame(2, 0, B3, false), At(5, Vars(1, 1), -1))
  {
    ExecGo(CONTINUE_BENCH, 0, 11, Frame(2, 0, B3, false), At(5, Vars(1, 1), -1), Frame(2, 0, B3, false), At(5, Vars(1, 1), -1));
  }

  lemma ContinuePass3Step12()
    ensures Exec(CONTINUE_BENCH, 0, 12, Frame(2, 0, B3, false), At(5, Vars(1, 1), -1))
         == Exec(CONTINUE_BENCH, 0, 13, Frame(2, 0, B3, false), At(5, Vars(1, 1), -1))
  {
    ExecGo(CONTINUE_BENCH, 0, 12, Frame(2, 0, B3, false), At(5, Vars(1, 1), -1), Frame(2, 0, B3, false), At(5, Vars(1, 1), -1));
  }

  lemma ContinuePass3Step13()
    ensures Exec(CONTINUE_BENCH, 0, 13, Frame(2, 0, B3, false), At(5, Vars(1, 1), -1))
         == Exec(CONTINUE_BENCH, 0, 14, Frame(2, 0, B3, false), At(5, Vars(1, 1), -1))
  {
    ExecGo(CONTINUE_BENCH, 0, 13, Frame(2, 0, B3, false), At(5, Vars(1, 1), -1), Frame(2, 0, B3, false), At(5, Vars(1, 1), -1));
  }

  lemma ContinuePass3Step14()
    ensures Exec(CONTINUE_BENCH, 0, 14, Frame(2, 0, B3, false), At(5, Vars(1, 1), -1))
         == Exec(CONTINUE_BENCH, 0, 15, Frame(1, 0, B3, false), At(5, Vars(1, 1), -1))
  {
    ExecGo(CONTINUE_BENCH, 0, 14, Frame(2, 0, B3, false), At(5, Vars(1, 1), -1), Frame(1, 0, B3, false), At(5, Vars(1, 1), -1));
  }

  lemma ContinuePass3Step15()
    ensures Exec(CONTINUE_BENCH, 0, 15, Frame(1, 0, B3, false), At(5, Vars(1, 1), -1))
         == Exec(CONTINUE_BENCH, 0, 16, Frame(1, 0, B3, false), At(5, Vars(1, 1), -1))
  {
    ExecGo(CONTINUE_BENCH, 0, 15, Frame(1, 0, B3, false), At(5, Vars(1, 1), -1), Frame(1, 0, B3, false), At(5, Vars(1, 1), -1));
  }

  lemma ContinuePass3Step16()
    ensures Exec(CONTINUE_BENCH, 0, 16, Frame(1, 0, B3, false), At(5, Vars(1, 1), -1))
         == Exec(CONTINUE_BENCH, 0, 17, Frame(1, 0, B3, false), At(5, Vars(1, 1), -1))
  {
    ExecGo(CONTINUE_BENCH, 0, 16, Frame(1, 0, B3, false), At(5, Vars(1, 1), -1), Frame(1, 0, B3, false), At(5, Vars(1, 1), -1));
  }

  lemma ContinuePass3Step17()
    ensures Exec(CONTINUE_BENCH, 0, 17, Frame(1, 0, B3, false), At(5, Vars(1, 1), -1))
         == Exec(CONTINUE_BENCH, 0, 18, Frame(1, 0, B3, false), At(5, Vars(1, 1), -1))
  {
    ExecGo(CONTINUE_BENCH, 0, 17, Frame(1, 0, B3, false), At(5, Vars(1, 1), -1), Frame(1, 0, B3, false), At(5, Vars(1, 1), -1));
  }

  lemma ContinuePass3Step18()
    ensures Exec(CONTINUE_BENCH, 0, 18, Frame(1, 0, B3, false), At(5, Vars(1, 1), -1))
         == Exec(CONTINUE_BENCH, 0, 19, Frame(0, 0, B3, true), At(5, Vars(1, 1), -1))
  {
    ExecGo(CONTINUE_BENCH, 0, 18, Frame(1, 0, B3, false), At(5, Vars(1, 1), -1), Frame(0, 0, B3, true), At(5, Vars(1, 1), -1));
  }

  lemma ContinuePass3Step19()
    ensures Exec(CONTINUE_BENCH, 0, 19, Frame(0, 0, B3, true), At(5, Vars(1, 1), -1))
         == Exec(CONTINUE_BENCH, 0, 20, Frame(0, 0, B3, true), At(6, Vars(1, 1), -1))
  {
    ExecGo(CONTINUE_BENCH, 0, 19, Frame(0, 0, B3, true), At(5, Vars(1, 1), -1), Frame(0, 0, B3, true), At(6, Vars(1, 1), -1));
  }

  lemma ContinuePass3Step20()
    ensures Exec(CONTINUE_BENCH, 0, 20, Frame(0, 0, B3, true), At(6, Vars(1, 1), -1))
         == PassResult(Ended, World(CONTINUE_CTX.(checkpointIdx := 6, funcDone := true), Clock(0, TIME_NEVER, TIME_NEVER, None), Vars(1, 1), [0]))
  {
    assert EndStep(0, Frame(0, 0, B3, true), At(6, Vars(1, 1), -1)) == PassResult(Ended, World(CONTINUE_CTX.(checkpointIdx := 6, funcDone := true), Clock(0, TIME_NEVER, TIME_NEVER, None), Vars(1, 1), [0]));
  }

  /** Third pass: the iteration expression makes the TB_FOR condition false; checkpoint 55 and TB_END. */
  lemma ContinuePass3()
    ensures Exec(CONTINUE_BENCH, 0, 0, Frame(0, 0, InitFrame(false).blk, false), At(5, Vars(0, 1), 1))
         == PassResult(Ended, World(CONTINUE_CTX.(checkpointIdx := 6, funcDone := true), Clock(0, TIME_NEVER, TIME_NEVER, None), Vars(1, 1), [0]))
  {
    ContinuePass3Step0();
    ContinuePass3Step1();
    ContinuePass3Step2();
    ContinuePass3Step3();
    ContinuePass3Step4();
    ContinuePass3Step5();
    ContinuePass3Step6();
    ContinuePass3Step7();
    ContinuePass3Step8();
    ContinuePass3Step9();
    ContinuePass3Step10();
    ContinuePass3Step11();
    ContinuePass3Step12();
    ContinuePass3Step13();
    ContinuePass3Step14();
    ContinuePass3Step15();
    ContinuePass3Step16();
    ContinuePass3Step17();
    ContinuePass3Step18();
    ContinuePass3Step19();
    ContinuePass3Step20();
  }

  lemma ContinueTick1()
    ensures Serve(CONTINUE_BENCH, World(GLOBALS, Clock(0, 0, TIME_NEVER, None), Vars(0, 0), [0]))
         == PassResult(Suspended, World(CONTINUE_CTX.(checkpointIdx := 4), Clock(0, 0, TIME_NEVER, None), Vars(0, 1), [4]))
  {
    TickServed(CONTINUE_BENCH, World(GLOBALS, Clock(0, 0, TIME_NEVER, None), Vars(0, 0), [0]));
    ContinuePass1();
  }

  lemma ContinueTick2()
    ensures Serve(CONTINUE_BENCH, World(CONTINUE_CTX.(checkpointIdx := 4), Clock(0, 0, TIME_NEVER, None), Vars(0, 1), [4]))
         == PassResult(Suspended, World(CONTINUE_CTX.(checkpointIdx := 5), Clock(0, 0, TIME_NEVER, None), Vars(0, 1), [1]))
  {
    TickServed(CONTINUE_BENCH, World(CONTINUE_CTX.(checkpointIdx := 4), Clock(0, 0, TIME_NEVER, None), Vars(0, 1), [4]));
    ContinuePass2();
  }

  lemma ContinueTick3()
    ensures Serve(CONTINUE_BENCH, World(CONTINUE_CTX.(checkpointIdx := 5), Clock(0, 0, TIME_NEVER, None), Vars(0, 1), [1]))
         == PassResult(Ended, World(CONTINUE_CTX.(checkpointIdx := 6, funcDone := true),
                                    Clock(0, TIME_NEVER, TIME_NEVER, None), Vars(1, 1), [0]))
  {
    TickServed(CONTINUE_BENCH, World(CONTINUE_CTX.(checkpointIdx := 5), Clock(0, 0, TIME_NEVER, None), Vars(0, 1), [1]));
    ContinuePass3();
  }

  /** The bench is well formed, and Init builds the world written out in ContinueBench. */
  lemma ContinueStart()
    ensures WellFormed(CONTINUE_BENCH) && Init(CONTINUE_BENCH, Vars(0, 0)) == World(GLOBALS, Clock(0, 0, TIME_NEVER, None), Vars(0, 0), [0])
  {
  }

  /** The scheduler serves three ticks, none of them fatal, and then has nothing pending. */
  lemma ContinueBench()
    ensures Run(CONTINUE_BENCH, 3, World(GLOBALS, Clock(0, 0, TIME_NEVER, None), Vars(0, 0), [0]))
         == RunResult(Idle, World(CONTINUE_CTX.(checkpointIdx := 6, funcDone := true), Clock(0, TIME_NEVER, TIME_NEVER, None), Vars(1, 1), [0]))
  {
    ContinueTick1();
    ContinueTick2();
    ContinueTick3();
  }
}
