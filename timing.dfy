/**
 * FUZ_GetMilliStart and FUZ_GetMilliSpan: millisecond timestamps within a
 * window of 0x100000 seconds, used only to throttle progress output. The
 * clock reading itself (ftime) is a parameter.
 */
module Timing {
  /** 0x100000 * 1000: the length of the timestamp window in milliseconds. */
  const WINDOW: nat := 0x100000 * 1000

  /** FUZ_GetMilliStart, for a clock reading of `time` seconds and `millitm` milliseconds. */
  function MilliStart(time: nat, millitm: nat): (n: nat)
    requires millitm < 1000
    ensures n < WINDOW
  {
    millitm + (time % 0x100000) * 1000
  }

  /** FUZ_GetMilliSpan: milliseconds from `start` to `now`, allowing for one wrap of the window. */
  function MilliSpan(now: nat, start: nat): (span: int)
    requires now < WINDOW && start < WINDOW
    ensures 0 <= span < WINDOW
    ensures (span - (now - start)) % WINDOW == 0
    ensures now >= start ==> span == now - start
  {
    var span := now - start;
    if span < 0 then span + WINDOW else span
  }
}
