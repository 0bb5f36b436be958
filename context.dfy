/** tb_context_t: the state every (sub-)sequence shares, and the checkpoint oracle. */
module TbContext {
  import opened BsTypes

  /** tb_checkpoint_t: one expected (time, value) pair. */
  datatype Checkpoint = Checkpoint(time: Time, val: int)

  /** Every condition for which TB_ASSERT terminates the test. */
  datatype FatalKind =
    | NoCheckpointSeq
    | TooManyCheckpoints
    | CheckpointMismatch
    | WaitUntilInPast
    | TooManyBlocks
    | ElseWithoutIf
    | ElsifWithoutIf
    | EndifWithoutIf
    | EndwhileWithoutWhile
    | EndforWithoutFor
    | UntilWithoutRepeat
    | BreakNotInLoop
    | ContinueNotInLoop
    | EndInsideBlock

  /**
   * The fields of tb_context_t. The checkpoint pointer and its count are one
   * field here: None is the NULL pointer, and nbr_checkpoints is the length.
   */
  datatype Ctx = Ctx(
    waitingForCond: bool,
    nonTimeEvent: bool,
    deadline: Time,
    funcDone: bool,
    checkpoints: Option<seq<Checkpoint>>,
    checkpointIdx: nat)

  /** The initial context of TB_GLOBALS. */
  const GLOBALS: Ctx := Ctx(false, false, TIME_NEVER, false, None, 0)

  function NbrCheckpoints(c: Ctx): nat
  {
    if c.checkpoints.None? then 0 else |c.checkpoints.value|
  }

  /** TB_CHECKPOINT_SEQ: installs the table; the consumption index is left alone. */
  function InstallCheckpoints(c: Ctx, table: seq<Checkpoint>): (r: Ctx)
    ensures r.checkpoints == Some(table) && NbrCheckpoints(r) == |table|
    ensures r.(checkpoints := c.checkpoints) == c
  {
    c.(checkpoints := Some(table))
  }

  datatype CheckResult = Passed(ctx: Ctx) | Failed(error: FatalKind)

  /** True when the next expected entry is exactly (now, v). */
  predicate Expected(c: Ctx, now: Time, v: int)
  {
    c.checkpoints.Some? && c.checkpointIdx < |c.checkpoints.value|
    && c.checkpoints.value[c.checkpointIdx] == Checkpoint(now, v)
  }

  /**
   * TB_CHECKPOINT(v) at time now: the three assertions in the order the macro
   * makes them, then the index advances by one and nothing else changes.
   */
  function CheckCheckpoint(c: Ctx, now: Time, v: int): (r: CheckResult)
    ensures r.Passed? <==> Expected(c, now, v)
    ensures r.Passed? ==> r.ctx == c.(checkpointIdx := c.checkpointIdx + 1)
    ensures r == Failed(NoCheckpointSeq) <==> c.checkpoints.None?
    ensures r == Failed(TooManyCheckpoints) <==> c.checkpoints.Some? && c.checkpointIdx >= NbrCheckpoints(c)
    ensures r.Failed? ==> r.error in {NoCheckpointSeq, TooManyCheckpoints, CheckpointMismatch}
  {
    if c.checkpoints.None? then Failed(NoCheckpointSeq)
    else if c.checkpointIdx >= |c.checkpoints.value| then Failed(TooManyCheckpoints)
    else
      var e := c.checkpoints.value[c.checkpointIdx];
      if e.time == now && e.val == v then Passed(c.(checkpointIdx := c.checkpointIdx + 1))
      else Failed(CheckpointMismatch)
  }

  /** A run of checkpoints (time, value) against the context, in order. */
  function CheckAll(c: Ctx, calls: seq<Checkpoint>): (r: CheckResult)
    decreases |calls|
  {
    if calls == [] then Passed(c)
    else match CheckCheckpoint(c, calls[0].time, calls[0].val)
      case Failed(e) => Failed(e)
      case Passed(c') => CheckAll(c', calls[1..])
  }

  /**
   * Replaying exactly the expected entries, from the current index on,
   * succeeds and consumes them all; one further checkpoint fails.
   */
  lemma {:induction false} ReplayConsumesAll(c: Ctx, table: seq<Checkpoint>)
    requires c.checkpoints == Some(table) && c.checkpointIdx <= |table|
    ensures CheckAll(c, table[c.checkpointIdx..]) == Passed(c.(checkpointIdx := |table|))
    ensures forall t, v :: CheckCheckpoint(c.(checkpointIdx := |table|), t, v) == Failed(TooManyCheckpoints)
    decreases |table| - c.checkpointIdx
  {
    var rest := table[c.checkpointIdx..];
    if rest != [] {
      var c' := c.(checkpointIdx := c.checkpointIdx + 1);
      assert CheckCheckpoint(c, rest[0].time, rest[0].val) == Passed(c');
      assert rest[1..] == table[c'.checkpointIdx..];
      ReplayConsumesAll(c', table);
    }
  }

  /** The fields of tb_context_t, in place. */
  class Context {
    var isWaitingForCond: bool
    var nonTimeEventOccurred: bool
    var waitingDeadline: Time
    var isFuncDone: bool
    var checkpoints: Option<seq<Checkpoint>>
    var checkpointIdx: nat

    function Value(): Ctx
      reads this
    {
      Ctx(isWaitingForCond, nonTimeEventOccurred, waitingDeadline, isFuncDone, checkpoints, checkpointIdx)
    }

    /** TB_GLOBALS. */
    constructor ()
      ensures Value() == GLOBALS
    {
      isWaitingForCond := false;
      nonTimeEventOccurred := false;
      waitingDeadline := TIME_NEVER;
      isFuncDone := false;
      checkpoints := None;
      checkpointIdx := 0;
    }

    /** TB_CHECKPOINT_SEQ. */
    method InstallCheckpointSeq(table: seq<Checkpoint>)
      modifies this
      ensures Value() == InstallCheckpoints(old(Value()), table)
    {
      checkpoints := Some(table);
    }

    /** TB_CHECKPOINT(v) at time now; a failed assertion returns its kind and changes nothing. */
    method Check(now: Time, v: int) returns (fault: Option<FatalKind>)
      modifies this
      ensures match CheckCheckpoint(old(Value()), now, v)
              case Passed(c) => fault.None? && Value() == c
              case Failed(e) => fault == Some(e) && Value() == old(Value())
    {
      if checkpoints.None? {
        return Some(NoCheckpointSeq);
      }
      if checkpointIdx >= |checkpoints.value| {
        return Some(TooManyCheckpoints);
      }
      var e := checkpoints.value[checkpointIdx];
      if !(e.time == now && e.val == v) {
        return Some(CheckpointMismatch);
      }
      checkpointIdx := checkpointIdx + 1;
      fault := None;
    }
  }
}
