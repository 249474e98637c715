/** The lock-free saturating subtraction of one traffic counter (common/counter/traffic.go). */
module CounterSubtract {
  import opened Totals

  function Sum(adds: seq<nat>): nat {
    if adds == [] then 0 else Sum(adds[..|adds| - 1]) + adds[|adds| - 1]
  }

  /** An atomic counter, and the additions that other callbacks will make to it, in order. */
  class AtomicCounter {
    var value: int
    var pending: seq<nat>

    constructor (value: int, pending: seq<nat>)
      ensures this.value == value && this.pending == pending
    {
      this.value, this.pending := value, pending;
    }

    /** The next addition of another callback lands. */
    method OtherAdds()
      modifies this
      ensures old(pending) == [] ==> value == old(value) && pending == []
      ensures old(pending) != [] ==> value == old(value) + old(pending)[0] && pending == old(pending)[1..]
    {
      if pending != [] {
        value, pending := value + pending[0], pending[1..];
      }
    }

    method CompareAndSwap(current: int, next: int) returns (ok: bool)
      modifies this`value
      ensures ok == (old(value) == current)
      ensures value == if ok then next else old(value)
    {
      ok := value == current;
      if ok {
        value := next;
      }
    }

    /** subtractAtomic: whatever lands in between, the loop takes effect as one saturating
        subtraction at the moment of its successful swap, and no addition is lost. */
    method SubtractAtomic(n: int) returns (ghost landed: nat)
      modifies this
      ensures landed <= |old(pending)| && pending == old(pending)[landed..]
      ensures value == Saturating(old(value) + Sum(old(pending)[..landed]), n)
      ensures 0 <= n <= old(value) ==> value == old(value) + Sum(old(pending)[..landed]) - n
    {
      landed := 0;
      ghost var before, adds := value, pending;
      assert adds[..0] == [];
      if n <= 0 {
        return;
      }
      while true
        invariant landed <= |adds| && pending == adds[landed..] && value == before + Sum(adds[..landed])
        decreases |pending|, 1
      {
        var current := value;
        var next := current - n;
        if next < 0 {
          next := 0;
        }
        if landed < |adds| {
          assert adds[..landed + 1][..landed] == adds[..landed];
          landed := landed + 1;
        }
        OtherAdds();
        var ok := CompareAndSwap(current, next);
        if ok {
          return;
        }
      }
    }
  }
}
