/** The transition from REX and stake-weighted voting to staking pools: a part of fees and of schedule seats that grows
    linearly from nothing to all between two slots. */
module Transitions {
  import Bancor

  function Part(begin: int, end: int, slot: int, val: int): int {
    if slot >= end then val
    else if slot <= begin then 0
    else val * (slot - begin) / (end - begin)
  }

  /** The part grows from nothing to all, and never shrinks. */
  lemma PartGrows(begin: int, end: int, t0: int, t1: int, val: int)
    requires t0 <= t1 && 0 <= val
    ensures 0 <= Part(begin, end, t0, val) <= Part(begin, end, t1, val) <= val
  {
    if begin < t0 && t0 < end {
      Fraction(val, t0 - begin, end - begin);
      if t1 < end {
        Fraction(val, t1 - begin, end - begin);
        Bancor.Scaled(t0 - begin, t1 - begin, val);
        Bancor.Commutes(val, t0 - begin);
        Bancor.Commutes(val, t1 - begin);
        DivMonotone(val * (t0 - begin), val * (t1 - begin), end - begin);
      }
    } else if begin < t1 && t1 < end {
      Fraction(val, t1 - begin, end - begin);
    }
  }

  /** Before the transition there is nothing, after it all, and in between the elapsed part, rounded down. */
  lemma PartExact(begin: int, end: int, slot: int, val: int)
    requires begin <= end
    ensures var part := Part(begin, end, slot, val);
            && (end <= slot ==> part == val)
            && (slot <= begin && slot < end ==> part == 0)
            && (begin < slot < end ==> part * (end - begin) <= val * (slot - begin) < (part + 1) * (end - begin))
  {
    if begin < slot < end {
      Bancor.DivBounds(val * (slot - begin), end - begin);
    }
  }

  lemma Fraction(val: int, e: int, d: int)
    requires 0 <= e <= d && 0 < d && 0 <= val
    ensures 0 <= val * e / d <= val
  {
    Bancor.Scaled(0, e, val);
    Bancor.Scaled(e, d, val);
    Bancor.Commutes(val, e);
    Bancor.Commutes(val, d);
    Bancor.QuotientAtMost(val * e, d, val);
    Bancor.QuotientAtLeast(val * e, d, 0);
  }

  lemma DivMonotone(a: int, b: int, d: int)
    requires 0 < d && a <= b
    ensures a / d <= b / d
  {
    Bancor.DivBounds(a, d);
    Bancor.QuotientAtLeast(b, d, a / d);
  }
}
