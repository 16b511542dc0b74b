/** The clock of a backtest: it moves only when told to, and never backwards. */
module SimulatedClocks {
  class SimulatedClock {
    var nowNs: int
    var monotonicNs: int

    constructor (start: int)
      ensures nowNs == start && monotonicNs == 0
    {
      nowNs, monotonicNs := start, 0;
    }

    /** `ok` is false where the source raises. */
    method SetTime(ns: int) returns (ok: bool)
      modifies this
      ensures ok <==> old(nowNs) <= ns
      ensures nowNs == if ok then ns else old(nowNs)
      ensures nowNs - monotonicNs == old(nowNs - monotonicNs)
    {
      if ns < nowNs {
        return false;
      }
      var delta := ns - nowNs;
      nowNs := ns;
      monotonicNs := monotonicNs + delta;
      ok := true;
    }

    method Advance(delta: int) returns (ok: bool)
      modifies this
      ensures ok <==> delta >= 0
      ensures nowNs == old(nowNs) + if ok then delta else 0
      ensures nowNs - monotonicNs == old(nowNs - monotonicNs)
    {
      if delta < 0 {
        return false;
      }
      nowNs := nowNs + delta;
      monotonicNs := monotonicNs + delta;
      ok := true;
    }
  }
}
