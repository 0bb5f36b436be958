# tb_defs: sequential test benches on a tick handler, in Dafny

`tb_defs.h` lets a BabbleSim test bench be written as straight-line code
(waits, conditions, loops, sub-sequence calls) inside a time tick handler that
the simulator calls again and again. Each call makes one forward pass over the
handler's body: the macros split it into guarded segments, a `static int
tb_next_line` remembers where the sequence suspended, and a per-pass stack
`tb_blk_info` tracks the IF/WHILE/FOR/REPEAT blocks the pass has entered. A
shared `tb_context_t` carries the waiting-for-condition flag, the signalled
event flag, the wait deadline, the "sub-function done" flag and the checkpoint
table. The unit-test utilities replace the simulator with a small scheduler:
one pending tick, one pending special event with its handler, and `now`.

This project models that engine and that scheduler and proves what the macros
promise.

- `bs_types.dfy` (module `BsTypes`): `bs_time_t` as a 64-bit microsecond count,
  `TIME_NEVER`, and `NoWrap`, the condition that `now + d` stays in range.
- `time_format.dfy` (module `TimeFormat`): `bs_time_to_str`'s field arithmetic and
  its `"%02u:%02u:%02u.%06u"` output, with a parse-back round trip.
- `ticker.dfy` (module `Ticker`): the scheduler globals as a value `Clock`, the
  setters and the dispatch choice as functions, and the class `Kernel` holding
  the same globals as mutable fields.
- `context.dfy` (module `TbContext`): `tb_context_t`, `TB_GLOBALS`,
  `TB_CHECKPOINT_SEQ` and `TB_CHECKPOINT`, by value and as the class `Context`.
- `blocks.dfy` (module `Blocks`): `tb_blk_type_t`, `TB_BLK_TYPE_IS_LOOP`,
  `TB_MAX_BLK_LEVELS`, the `tb_next_line` sentinels and the downward scan of
  `TB_BREAK`/`TB_CONTINUE`, as a function and as an in-place loop on the array.
- `engine.dfy` (module `Engine`): the macro engine as an interpreter. A sequence
  function is a list of instructions, one per macro or plain statement.
  Instruction `k` has the label `k + 1`, which stands for the macro's `__LINE__`,
  and `TB_END` follows the last instruction. Every macro is modelled as a *tail*
  and a *head*. The tail is the code before the macro's closing `}` and runs only
  when the current segment is active. The head always runs: it does the block
  bookkeeping and computes the next segment's guard.
  - One pass is `Pass`/`Exec`. One call of the tick handler is `Tick`.
  - One iteration of the scheduler loop is `Serve`, and the loop itself is `Run`.
- `engine_props.dfy` (module `EngineProps`): the properties of the macros and of
  the scheduler, proved over the interpreter.
- `bench.dfy` (module `Bench`): the imperative form. The class `Bench` keeps the
  context, the kernel, the bench variables and every function's `tb_next_line`
  as mutable state. Each pass allocates its own `tb_blk_info` array of
  `TB_MAX_BLK_LEVELS` entries. Every method is proved to leave exactly the state
  the interpreter computes.
- `scenarios.dfy` (module `Scenarios`): test benches of the repository written as
  programs, with their runs computed exactly:
  - the minimal bench;
  - the WAIT, WAIT_COND and CALL tests;
  - the last BREAK/CONTINUE test.

The condition expressions, delays, times and checkpoint values of a bench are
functions of an abstract bench environment `E`. An event handler is a function
`E -> E` plus a flag saying whether it calls `TB_SIGNAL_EVENT`. `TB_ASSERT` is
modelled as a fatal stop (`Exit.Fatal` with the failed assertion), because
`BS_TRACE_ERROR` ends the simulation.

The scheduler serves the special event only when `special_event_time <
next_tick_time`, so a tie goes to the tick (`Ticker.TieGoesToTick`,
`EngineProps.ServeTieTick`).

## Model

| member | source | states |
|---|---|---|
| TimeFormat.Fields | src/test/tb_defs_unit_test_utils.c:27-30 | hour < 100, minute < 60, second < 60, us < 10^6, and the fields add back up to the time modulo 100 hours |
| TimeFormat.FieldsMeaning | src/test/tb_defs_unit_test_utils.c:27-30 | the four C expressions, chained `time/3600/1000000 % 100` and so on, add back up to the time modulo 100 hours |
| TimeFormat.DigitChar | src/test/tb_defs_unit_test_utils.c:32 | a digit below 10 prints as the character with that digit value |
| TimeFormat.Digits | src/test/tb_defs_unit_test_utils.c:32 | `%u` prints at least one character, and every character is a decimal digit |
| TimeFormat.TimeToStr | src/test/tb_defs_unit_test_utils.c:20-34 | the output has 15 characters and fits the 20-byte `tb_strbuf` with its NUL; ':' is at 2 and 5, '.' is at 8, and every other character is a digit |
| TimeFormat.DigitsShort | src/test/tb_defs_unit_test_utils.c:32 | a value below 10^w prints in at most w digits |
| TimeFormat.ParseDigits | src/test/tb_defs_unit_test_utils.c:32 | reading `%u`'s digits back gives the value |
| TimeFormat.ParseLeadingZeros | src/test/tb_defs_unit_test_utils.c:32 | the leading '0's that `%0<w>u` adds do not change the value read back |
| TimeFormat.AllZeros | src/test/tb_defs_unit_test_utils.c:32 | a run of '0's reads back as 0 |
| TimeFormat.ZeroPadFixed | src/test/tb_defs_unit_test_utils.c:32 | `%0<w>u` of a value below 10^w has exactly w digits and reads back as the value |
| TimeFormat.TimeToStrRoundTrip | src/test/tb_defs_unit_test_utils.c:20-34 | reading the four fields back from the string gives exactly the fields computed, and so the time modulo 100 hours |
| Ticker.SetTickAbsolute | src/test/tb_defs_unit_test_utils.c:41-45 | a time at or after now becomes the next tick; a time in the past cancels it; nothing else changes, and a sane clock stays sane |
| Ticker.SetTickDelta | src/test/tb_defs_unit_test_utils.c:47-51 | the next tick is d after now; nothing else changes, and a sane clock stays sane |
| Ticker.ScheduleSpecial | src/test/tb_defs_unit_test_utils.c:59-63 | the special event is d after now with the given handler, overwriting the old one; the tick is unchanged |
| Ticker.NextSource | src/test/tb_defs_unit_test_utils.c:71 | the special event is served exactly when it is strictly earlier than the tick |
| Ticker.Dispatch | src/test/tb_defs_unit_test_utils.c:70-84 | now jumps to the earlier slot, that slot is emptied, and the other slot and the handler are kept |
| Ticker.TieGoesToTick | src/test/tb_defs_unit_test_utils.c:71 | a special event due together with the tick waits: the tick is served and the event stays pending |
| Ticker.DispatchMonotone | src/test/tb_defs_unit_test_utils.c:68-85 | from a sane clock, a dispatch never moves now backwards, lands on the earliest pending time, and keeps the clock sane |
| Ticker.Kernel.constructor | src/test/tb_defs_unit_test_utils.c:17-18 | now is 0 and neither slot is pending |
| Ticker.Kernel.SetNextTickAbsolute | src/test/tb_defs_unit_test_utils.c:41-45 | the fields become SetTickAbsolute of the old fields |
| Ticker.Kernel.SetNextTickDelta | src/test/tb_defs_unit_test_utils.c:47-51 | the fields become SetTickDelta of the old fields |
| Ticker.Kernel.ScheduleSpecialEventDelta | src/test/tb_defs_unit_test_utils.c:59-63 | the fields become ScheduleSpecial of the old fields |
| Ticker.Kernel.HwTime | src/test/tb_defs_unit_test_utils.c:36-39 | returns the scheduler's current time, Value().now |
| Ticker.Kernel.TakeNext | src/test/tb_defs_unit_test_utils.c:71-82 | returns NextSource of the old fields and leaves Dispatch of them |
| TbContext.InstallCheckpoints | src/tb_defs.h:138-141 | the table and its length are installed, and checkpoint_idx and every other field are kept |
| TbContext.CheckCheckpoint | src/tb_defs.h:147-159 | passes exactly when the entry at checkpoint_idx has this time and value, and then only the index advances by one; fails with "no TB_CHECKPOINT_SEQ" exactly when there is no table, and with "too many" exactly when the index is past the table |
| TbContext.ReplayConsumesAll | src/tb_defs.h:147-159 | replaying the table's remaining entries in order passes and consumes them all; one more checkpoint, at any time and value, fails as too many |
| TbContext.Context.constructor | src/tb_defs.h:110-119 | the fields are those TB_GLOBALS writes |
| TbContext.Context.InstallCheckpointSeq | src/tb_defs.h:138-141 | the fields become InstallCheckpoints of the old fields |
| TbContext.Context.Check | src/tb_defs.h:147-159 | a failed assertion returns its kind and changes nothing; otherwise the fields become the context CheckCheckpoint passes |
| Blocks.IsLoop | src/tb_defs.h:76-88 | a kind lies strictly between the two loop markers exactly when it is not IF |
| Blocks.LoopLevel | src/tb_defs.h:430 | the scan stops at the highest level at or below cur that holds a loop, or at 0; no level strictly between holds a loop |
| Blocks.ScanForLoop | src/tb_defs.h:428-431 | the in-place downward loop over tb_blk_info returns LoopLevel of the array |
| Engine.InitFrame | src/tb_defs.h:179-181 | a pass starts at block level 0 with a sane stack |
| Engine.Step | src/tb_defs.h:192-458 | one macro other than TB_CALL keeps one resume point per function and a sane stack; its behaviour is stated by the EngineProps lemmas |
| Engine.CallInstr | src/tb_defs.h:464-472 | TB_CALL keeps one resume point per function and a sane stack; see CallWaitsForCallee |
| Engine.Exec | src/tb_defs.h:171-492 | the rest of a pass keeps one resume point per function; see ExecShape |
| Engine.Pass | src/tb_defs.h:171-184 | an entry of a sequence function keeps one resume point per function; see UnrelatedSignalIgnored, OtherEntriesRun and PassShape |
| Engine.Tick | src/tb_defs.h:138-141 | a call of the tick handler keeps one resume point per function; see TickOutcome |
| Engine.Event | src/tb_defs.h:163-167 | an event handler call keeps one resume point per function |
| Engine.Serve | src/test/tb_defs_unit_test_utils.c:70-84 | one loop iteration keeps one resume point per function; see ServeKeepsClock and ServeTieTick |
| Engine.Run | src/test/tb_defs_unit_test_utils.c:65-86 | the loop keeps one resume point per function; see RunMonotone and RunEndsIdle |
| Engine.TickKeepsClock | src/tb_defs.h:138-141 | the tick handler never moves now, and it keeps the clock sane |
| Engine.StepKeepsClock | src/tb_defs.h:192-458 | a macro reaches the clock only through the setters: now is unchanged and the clock stays sane |
| Engine.ExecKeepsClock | src/tb_defs.h:171-492 | the same for the rest of a pass, sub-sequence calls included |
| Engine.PassKeepsClock | src/tb_defs.h:171-184 | the same for a whole entry of a sequence function |
| Engine.ServeKeepsClock | src/test/tb_defs_unit_test_utils.c:70-84 | serving one event sets now to the dispatched time, which is not before the old now, and the clock stays sane |
| EngineProps.UnrelatedSignalIgnored | src/tb_defs.h:172-178 | a signalled entry into a sequence that waits for no condition clears the flag and is_func_done, returns at once, and changes nothing else |
| EngineProps.OtherEntriesRun | src/tb_defs.h:172-184 | any other entry clears the flags and runs the body, active exactly when tb_next_line is 0 |
| EngineProps.CheckpointStep | src/tb_defs.h:147-159 | TB_CHECKPOINT in an active segment goes on exactly when CheckCheckpoint passes, with the index advanced; otherwise the stop is fatal with the failed assertion |
| EngineProps.ReturnStep | src/tb_defs.h:477-480 | TB_RETURN in an active segment sets is_func_done, resets tb_next_line to 0 and leaves the pass |
| EngineProps.EndAtLevelZero | src/tb_defs.h:488-492 | TB_END in an active segment sets is_func_done and resets tb_next_line; the pass is fatal exactly when a block is still open |
| EngineProps.WaitSkipped | src/tb_defs.h:206-212 | a wait reached through an inactive segment proceeds only when tb_next_line is its own label |
| EngineProps.WaitSuspends | src/tb_defs.h:206-212 | TB_WAIT in an active segment arms the tick d after now and suspends at its own label |
| EngineProps.WaitUntilSuspends | src/tb_defs.h:192-203 | TB_WAIT_UNTIL is fatal for a time before now, otherwise arms the tick at that time and suspends at its own label |
| EngineProps.WaitCondProceedsIffHolds | src/tb_defs.h:215-223 | TB_WAIT_COND, reached active or resumed at, goes on exactly when its condition holds; going on clears is_waiting_for_cond and touches nothing else; suspending leaves the resume point at the wait |
| EngineProps.DeadlineResume | src/tb_defs.h:233-239 | a deadline wait resumed at its label suspends again exactly while the condition is false and now is before the deadline; going on disarms the deadline, cancels the tick and clears the flag |
| EngineProps.DeadlineDeltaArms | src/tb_defs.h:243-255 | TB_WAIT_COND_W_DEADLINE_DELTA arms both the tick and the deadline d after now and sets the flag; with a false condition and d > 0 it suspends |
| EngineProps.DeadlineArms | src/tb_defs.h:227-239 | TB_WAIT_COND_W_DEADLINE arms the tick and the deadline at the given time; with a false condition and a future time it suspends |
| EngineProps.OpenerPushes | src/tb_defs.h:259-270 | an opener pushes one level of its own kind, and is fatal once the stack is full; the levels below keep their entries |
| EngineProps.CloserPops | src/tb_defs.h:303-310 | a closer pops exactly one level, and is fatal unless the top level is a block of its kind |
| EngineProps.BranchKeepsLevel | src/tb_defs.h:274-300 | TB_ELSE and TB_ELSIF are fatal unless a TB_IF is at the top, and keep the level |
| EngineProps.OpenThenClose | src/tb_defs.h:259-421 | a closer right after its opener pops back to the level before the opener |
| EngineProps.JumpTargetsInnermostLoop | src/tb_defs.h:425-457 | TB_BREAK/TB_CONTINUE are fatal exactly when no open level holds a loop; otherwise they leave the segment aiming at one below the innermost loop's level, with tb_next_line at the loop's end or its iteration |
| EngineProps.LoopBack | src/tb_defs.h:331-421 | TB_ENDWHILE, TB_ENDFOR, and TB_UNTIL with a false condition, reached active or by TB_CONTINUE, arm a tick now and suspend at the loop's first line; TB_UNTIL with a true condition pops and goes on |
| EngineProps.ForIteration | src/tb_defs.h:352-373 | TB_FOR runs its initialiser on entry through an active segment and its iteration expression only when resumed at its own line; the body is entered exactly when the condition holds of the updated variables |
| EngineProps.WhileEntry | src/tb_defs.h:315-327 | TB_WHILE enters its body exactly when reached active or resumed at, with its condition true |
| EngineProps.CallWaitsForCallee | src/tb_defs.h:464-472 | TB_CALL in an active segment runs the callee's pass; the caller suspends while the callee is not done, and otherwise clears is_func_done and goes on |
| EngineProps.StatementShape | src/tb_defs.h:147-159 | a statement, TB_CHECKPOINT or TB_RETURN keeps the pass invariant and ends only as a pass may end |
| EngineProps.DelayShape | src/tb_defs.h:192-212 | TB_WAIT and TB_WAIT_UNTIL keep the pass invariant and suspend only at a label of the body |
| EngineProps.CondWaitShape | src/tb_defs.h:215-255 | the condition waits keep the pass invariant and suspend only at a label of the body |
| EngineProps.OpenShape | src/tb_defs.h:259-401 | the openers keep the pass invariant; every loop level remembers a label of the body |
| EngineProps.BranchShape | src/tb_defs.h:274-300 | TB_ELSE and TB_ELSIF keep the pass invariant |
| EngineProps.CloseShape | src/tb_defs.h:303-421 | the closers keep the pass invariant; a loop back suspends at a label of the body |
| EngineProps.JumpShape | src/tb_defs.h:425-457 | TB_BREAK and TB_CONTINUE keep the pass invariant |
| EngineProps.StepShape | src/tb_defs.h:192-457 | one instruction keeps the pass invariant, touches no other function's tb_next_line, and stops only as a pass may end |
| EngineProps.CallShape | src/tb_defs.h:464-472 | TB_CALL reached with the invariant ends the rest of the pass as a pass may end |
| EngineProps.ExecShape | src/tb_defs.h:171-492 | the rest of a pass: callers' tb_next_line untouched; a suspension leaves a label of the body and is_func_done clear; TB_RETURN and an active TB_END set is_func_done and reset tb_next_line, and nothing else sets it |
| EngineProps.PassShape | src/tb_defs.h:171-492 | the same for a whole entry; an ignored entry changes no tb_next_line |
| EngineProps.TickOutcome | src/tb_defs.h:171-492 | after a tick the test sequence is suspended at a label of its body, or finished and starts over from its first segment, or was ignored, or stopped fatally or on a clock overflow |
| EngineProps.RunMonotone | src/test/tb_defs_unit_test_utils.c:65-86 | over a whole run now never decreases, and the clock stays sane |
| EngineProps.RunEndsIdle | src/test/tb_defs_unit_test_utils.c:68 | the loop stops idle only with both slots empty, out of fuel only while one is pending, and otherwise on a fatal stop |
| EngineProps.RunCompose | src/test/tb_defs_unit_test_utils.c:65-86 | running a + b iterations of the loop is running a, then b more from where it stopped, when it stopped only for lack of fuel |
| EngineProps.RunFinishedStable | src/test/tb_defs_unit_test_utils.c:68 | a run that went idle or halted gives the same result with any more fuel, so the bound does not change a finished run |
| EngineProps.ServeTieTick | src/test/tb_defs_unit_test_utils.c:71-83 | a tick and a special event due together: the iteration runs the tick handler and the event stays pending |
| Bench.Bench.constructor | src/tb_defs.h:110-119 | TB_GLOBALS, the scheduler at time 0 with nothing pending, and every tb_next_line 0 |
| Bench.Bench.Statement | src/tb_defs.h:147-159 | the state and the pass locals become what StatementStep computes |
| Bench.Bench.Delay | src/tb_defs.h:192-212 | the state and the pass locals become what the TB_WAIT/TB_WAIT_UNTIL step computes |
| Bench.Bench.CondWait | src/tb_defs.h:215-255 | the state and the pass locals become what the condition-wait step computes |
| Bench.Bench.Open | src/tb_defs.h:259-401 | the opener writes its level of tb_blk_info in place, and the state becomes what OpenStep computes |
| Bench.Bench.Branch | src/tb_defs.h:274-300 | the state and the pass locals become what BranchStep computes |
| Bench.Bench.Close | src/tb_defs.h:303-421 | the state and the pass locals become what CloseStep computes |
| Bench.Bench.Jump | src/tb_defs.h:425-457 | the scan runs on the array, and the state becomes what JumpStep computes |
| Bench.Bench.StepOne | src/tb_defs.h:192-458 | any macro other than TB_CALL does what Engine.Step computes |
| Bench.Bench.CallAt | src/tb_defs.h:464-472 | TB_CALL does what Engine.CallInstr computes |
| Bench.Bench.Pass | src/tb_defs.h:171-184 | an entry of function f leaves the state and exit Engine.Pass computes |
| Bench.Bench.Body | src/tb_defs.h:179-492 | the body, macro by macro over a fresh tb_blk_info, then TB_END, leaves what Engine.Exec computes |
| Bench.Bench.Tick | src/tb_defs.h:138-141 | a tick handler call leaves what Engine.Tick computes |
| Bench.Bench.Serve | src/test/tb_defs_unit_test_utils.c:70-84 | one loop iteration leaves what Engine.Serve computes |
| Bench.Bench.Run | src/test/tb_defs_unit_test_utils.c:65-86 | the loop, bounded by fuel, leaves what Engine.Run computes |
| Scenarios.MinimalBench | src/test/tb_defs_unit_test_minimal.c:19-41 | the minimal bench runs one pass, ends with is_func_done set and tb_next_line 0 at time 0, and then nothing is pending |
| Scenarios.WaitTick0 | src/test/tb_defs_unit_test_main.c:94-96 | at time 0: checkpoint 0, then TB_WAIT(1e6) suspends |
| Scenarios.WaitTick1 | src/test/tb_defs_unit_test_main.c:97-98 | at 1e6: checkpoint 1, then TB_WAIT(0) still suspends |
| Scenarios.WaitTick2 | src/test/tb_defs_unit_test_main.c:98-100 | at 1e6 again: checkpoint 2, then TB_WAIT(4e6) |
| Scenarios.WaitTick3 | src/test/tb_defs_unit_test_main.c:100-101 | at 5e6: checkpoint 3 and the end of the sequence |
| Scenarios.WaitStart | src/test/tb_defs_unit_test_main.c:23-26 | the WAIT bench is well formed and starts from TB_GLOBALS with the first tick at 0 |
| Scenarios.WaitBench | src/test/tb_defs_unit_test_main.c:94-101 | the scheduler runs the WAIT test to its end: four ticks, every checkpoint passed, then nothing pending |
| Scenarios.CondTick0 | src/test/tb_defs_unit_test_main.c:112-114 | the event is posted 0.5e6 ahead and the sequence waits 1e6 |
| Scenarios.CondEvent1 | src/test/tb_defs_unit_test_main.c:110-114 | the event during the TB_WAIT is ignored: it does not shorten the wait |
| Scenarios.CondTick1 | src/test/tb_defs_unit_test_main.c:115-123 | at 1e6: checkpoint 12; the first TB_WAIT_COND finds its condition true and does not wait; checkpoint 13; the second TB_WAIT_COND waits |
| Scenarios.CondEvent2 | src/test/tb_defs_unit_test_main.c:122-124 | at 1.5e6 the event ends the second wait: checkpoint 14 and the end |
| Scenarios.CondStart | src/test/tb_defs_unit_test_main.c:23-36 | the WAIT_COND bench is well formed and starts from TB_GLOBALS |
| Scenarios.CondBench | src/test/tb_defs_unit_test_main.c:109-124 | the scheduler runs the WAIT_COND test to its end: two ticks, two events, every checkpoint passed |
| Scenarios.CallTick0 | src/test/tb_defs_unit_test_main.c:38-48 | the first TB_CALL enters the sub-function, which passes checkpoint 500 and waits; the caller suspends |
| Scenarios.CallTick1 | src/test/tb_defs_unit_test_main.c:303-305 | the callee returns after checkpoint 501 (502 is never reached); the caller passes 70 and calls again |
| Scenarios.CallTick2 | src/test/tb_defs_unit_test_main.c:305-306 | the second call returns and the caller passes 71 and ends |
| Scenarios.CallStart | src/test/tb_defs_unit_test_main.c:23-26 | the CALL bench is well formed and starts from TB_GLOBALS |
| Scenarios.CallBench | src/test/tb_defs_unit_test_main.c:303-306 | the scheduler runs the two calls to the end: three ticks, every checkpoint passed |
| Scenarios.ContinuePass1 | src/test/tb_defs_unit_test_main.c:261-272 | first pass: checkpoints 50-53; the TB_CONTINUE inside REPEAT lands on TB_UNTIL, which ends the loop; TB_CONTINUE in the WHILE loops back |
| Scenarios.ContinuePass2 | src/test/tb_defs_unit_test_main.c:264-277 | second pass: the WHILE condition is checked again and fails; checkpoint 54; TB_CONTINUE in the FOR loops back |
| Scenarios.ContinuePass3 | src/test/tb_defs_unit_test_main.c:261-280 | third pass: the FOR iteration runs, the condition fails, checkpoint 55, the end |
| Scenarios.ContinueTick1 | src/test/tb_defs_unit_test_main.c:261-272 | the first tick is the first pass |
| Scenarios.ContinueTick2 | src/test/tb_defs_unit_test_main.c:264-277 | the zero-delay tick is the second pass |
| Scenarios.ContinueTick3 | src/test/tb_defs_unit_test_main.c:261-280 | the next zero-delay tick is the third pass |
| Scenarios.ContinueStart | src/test/tb_defs_unit_test_main.c:23-26 | the CONTINUE bench is well formed and starts from TB_GLOBALS |
| Scenarios.ContinueBench | src/test/tb_defs_unit_test_main.c:260-280 | every TB_CONTINUE's loop checks its condition again; the run passes all six checkpoints at time 0 and stops |

## Left out

- Tracing (`bs_trace_*`, `TB_TEST_STEP`, `TB_PRINT_PREFIX`) is output only and is not modelled. `bs_time_to_str` is modelled as a pure value.
- `sprintf` writing into `dest` is not modelled; the model returns the string.
- The C preprocessor is not modelled. Macro expansion, the `__LINE__` labels and the brace pairing are replaced by the instruction list: instruction k has label k + 1.
- That each macro sits on its own source line is assumed. The labels are therefore distinct.
- The test benches' code outside the scheduled sequences is only used as scenarios. This covers `test_init`, `main` and the other tests of `tb_defs_unit_test_main.c`. The scenarios are the WAIT, WAIT_COND and CALL tests and the last BREAK/CONTINUE test, each starting at time 0. `tb_defs_unit_test_sub_funcs.c` is not part of this model.
- Engine.Run: the scheduler loop does not always terminate, so it is bounded by a fuel count. `OutOfFuel` stands for the loop going on.
- Engine.Step: a `now + d` that would pass 2^64 stops with `Exit.Overflow`, where C would wrap around silently.
- Ticker.Kernel.SetNextTickDelta: requires `NoWrap(now, d)` where C would wrap around.
- Ticker.Kernel.ScheduleSpecialEventDelta: requires `NoWrap(now, d)` where C would wrap around.
- Engine.Step: its own ensures states only that the resume points keep their number; its behaviour is stated by the EngineProps lemmas and the clock lemmas beside it.
- Engine.CallInstr: its own ensures states only that the resume points keep their number; its behaviour is stated by the EngineProps lemmas and the clock lemmas beside it.
- Engine.Exec: its own ensures states only that the resume points keep their number; its behaviour is stated by the EngineProps lemmas and the clock lemmas beside it.
- Engine.Pass: its own ensures states only that the resume points keep their number; its behaviour is stated by the EngineProps lemmas and the clock lemmas beside it.
- Engine.Tick: its own ensures states only that the resume points keep their number; its behaviour is stated by the EngineProps lemmas and the clock lemmas beside it.
- Engine.Event: its own ensures states only that the resume points keep their number; its behaviour is stated by the EngineProps lemmas and the clock lemmas beside it.
- Engine.Serve: its own ensures states only that the resume points keep their number; its behaviour is stated by the EngineProps lemmas and the clock lemmas beside it.
- Engine.Run: its own ensures states only that the resume points keep their number; its behaviour is stated by the EngineProps lemmas and the clock lemmas beside it.
- Engine.Event: an event handler only updates the bench environment and may signal; it does not call the scheduling functions (`bst_ticker_set_next_tick_absolute`, `bst_ticker_set_next_tick_delta`, `tb_defs_unit_test_schedule_special_event_delta`). Engine.ServeKeepsClock, EngineProps.RunMonotone and EngineProps.RunEndsIdle are therefore proved only for such handlers, which is what the repository's `event1_handler` is.
- Reentrancy is not modelled. `TB_SIGNAL_EVENT` calls the tick handler from inside the event handler, and a tick handler that posts an event is not re-entered during its own pass. The tick handler runs after the handler's update, as the scheduler serves it.
- Recursion between sequence functions is excluded: `TB_CALL` may only call a function defined later. C allows it, but the shared `static tb_next_line` makes it meaningless.
- Engine.InitFrame: `tb_blk_info` is uninitialised in C; here every entry starts as an IF block at line 0. No macro reads an entry before writing it, so the choice does not matter.
- Variadic arguments of `TB_CALL` are not modelled. A sub-function reads and writes the bench environment directly.
- The `int` width of `tb_next_line`, the values and the levels is not modelled, because the benches stay far inside it.
