/** Basic simulator types: the 64-bit microsecond clock of bs_types.h and an Option. */
module BsTypes {

  /** UINT64_MAX, used as "no event pending". */
  const TIME_NEVER: int := 0xFFFF_FFFF_FFFF_FFFF

  /** bs_time_t: an unsigned 64-bit count of microseconds. */
  type Time = t: int | 0 <= t <= TIME_NEVER

  /** A C pointer that may be NULL. */
  datatype Option<+T> = None | Some(value: T)

  /** True when now + d stays within the 64-bit range (no wrap-around). */
  predicate NoWrap(now: Time, d: Time)
  {
    now + d <= TIME_NEVER
  }
}
