/** The tick history buffers: 1024 slots, tick t lives in slot t mod 1024,
    and nothing checks that a slot still holds the tick a reader wants. */
module History {

  const CacheSize: int := 1024

  /** The slot of a tick. */
  function Slot(tick: int): (i: int)
    ensures 0 <= i < CacheSize
  {
    tick % CacheSize
  }

  /** Ticks 1024 apart share a slot: the later one overwrites the earlier. */
  lemma SlotPeriodic(tick: int)
    ensures Slot(tick + CacheSize) == Slot(tick)
  {
  }

  /** Fewer than 1024 consecutive ticks never share a slot. */
  lemma SlotsDistinct(a: int, b: int)
    requires a < b < a + CacheSize
    ensures Slot(a) != Slot(b)
  {
  }

  /** What the buffer holds for ticks [lo, hi), in ascending tick order,
      each read from its slot. Empty when lo >= hi. */
  function Window<T>(cache: seq<T>, lo: int, hi: int): seq<T>
    requires |cache| == CacheSize
    decreases hi - lo
  {
    if hi <= lo then [] else Window(cache, lo, hi - 1) + [cache[Slot(hi - 1)]]
  }

  /** The window holds exactly one entry per tick of [lo, hi), the k-th
      read from the slot of tick lo + k. */
  lemma {:induction false} WindowShape<T>(cache: seq<T>, lo: int, hi: int)
    requires |cache| == CacheSize
    ensures |Window(cache, lo, hi)| == (if hi <= lo then 0 else hi - lo)
    ensures forall k :: 0 <= k < |Window(cache, lo, hi)| ==> Window(cache, lo, hi)[k] == cache[Slot(lo + k)]
    decreases hi - lo
  {
    if lo < hi {
      WindowShape(cache, lo, hi - 1);
    }
  }
}
