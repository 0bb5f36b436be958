/** The per-pass block bookkeeping of tb_defs.h: block kinds, the level stack and the resume sentinels. */
module Blocks {

  /** tb_blk_type_t without its two marker values. */
  datatype BlkType = IfBlk | WhileBlk | ForBlk | RepeatBlk

  /** A value of tb_blk_type_t as the enum numbers it, loop markers included. */
  function Ordinal(k: BlkType): nat
  {
    match k
    case IfBlk => 0
    case WhileBlk => 2
    case ForBlk => 3
    case RepeatBlk => 4
  }

  const LOOP_TYPE_MARKER: nat := 1
  const LOOP_TYPE_ENDMARKER: nat := 5

  /** TB_BLK_TYPE_IS_LOOP: the kinds strictly between the two markers, which are exactly the loops. */
  predicate IsLoop(k: BlkType)
    ensures IsLoop(k) <==> k != IfBlk
  {
    LOOP_TYPE_MARKER < Ordinal(k) < LOOP_TYPE_ENDMARKER
  }

  /** tb_blk_info_t. */
  datatype BlkInfo = BlkInfo(firstLine: int, kind: BlkType)

  /** TB_MAX_BLK_LEVELS: level 0 is the sequence body itself, so 63 blocks can nest. */
  const MAX_BLK_LEVELS: nat := 64

  /** The special values of tb_next_line. */
  const END_LINE: int := -1
  const ELSE_OR_ENDIF_LINE: int := -2
  const LOOP_COND_LINE: int := -3
  const LOOP_ITER_LINE: int := -4

  /**
   * The level the TB_BREAK / TB_CONTINUE scan stops at: the highest level at or
   * below cur holding a loop, or 0 when no level above 0 does. IF levels are
   * skipped; level 0 is never inspected.
   */
  function LoopLevel(blk: seq<BlkInfo>, cur: int): (i: int)
    requires 0 <= cur < |blk|
    ensures 0 <= i <= cur
    ensures i > 0 ==> IsLoop(blk[i].kind)
    ensures forall j :: i < j <= cur ==> !IsLoop(blk[j].kind)
    decreases cur
  {
    if cur == 0 || IsLoop(blk[cur].kind) then cur else LoopLevel(blk, cur - 1)
  }

  /** The downward for-loop of TB_BREAK and TB_CONTINUE over tb_blk_info. */
  method ScanForLoop(blk: array<BlkInfo>, cur: int) returns (i: int)
    requires 0 <= cur < blk.Length
    ensures 0 <= i <= cur
    ensures i > 0 ==> IsLoop(blk[i].kind)
    ensures forall j :: i < j <= cur ==> !IsLoop(blk[j].kind)
    ensures i == LoopLevel(blk[..], cur)
  {
    i := cur;
    while i > 0 && !IsLoop(blk[i].kind)
      invariant 0 <= i <= cur
      invariant forall j :: i < j <= cur ==> !IsLoop(blk[j].kind)
      invariant LoopLevel(blk[..], i) == LoopLevel(blk[..], cur)
    {
      i := i - 1;
    }
  }
}
