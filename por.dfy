/** The power-on-reset (POR) counter that all three target scripts build in
    their clock/reset generator (`_CRG`): a 16-bit register `por_count` that
    powers up at 2^16 - 1, counts down by one on every tick of the `por`
    clock domain while it is nonzero, and then stays at zero. `por_done` is
    `por_count == 0`; its negation drives each board's reset. */
module PowerOnReset {

  /** 2^16: `por_count` is a 16-bit signal, so it holds values modulo this. */
  const Modulus: nat := 0x1_0000

  /** The register's power-up value, 2^16 - 1. */
  const ResetValue: nat := 0xFFFF

  /** The values a 16-bit unsigned signal can hold. */
  type Word16 = x: int | 0 <= x < 0x1_0000

  /** Assignment of a wider expression to the 16-bit signal keeps its low 16
      bits. Dafny's `%` is Euclidean, so a negative operand wraps the way the
      hardware does (-1 becomes 0xFFFF). */
  function Truncate(x: int): (r: Word16)
    ensures 0 <= x < Modulus ==> r == x
    ensures x == -1 ==> r == ResetValue
  {
    x % Modulus
  }

  /** `por_done`: the counter has reached zero. */
  predicate PorDone(count: Word16)
  {
    count == 0
  }

  /** One `sync.por` tick: `If(~por_done, por_count.eq(por_count - 1))`.
      The guard is what keeps the 16-bit subtraction from wrapping: a nonzero
      count goes down by exactly one and zero stays zero. */
  function Next(count: Word16): (r: Word16)
    ensures !PorDone(count) ==> r == count - 1
    ensures PorDone(count) ==> PorDone(r)
  {
    if !PorDone(count) then Truncate(count - 1) else count
  }

  /** The value of `por_count` after `n` ticks of the `por` domain since
      power-up: the register's trace. */
  function CountAfter(n: nat): Word16
  {
    if n == 0 then ResetValue else Next(CountAfter(n - 1))
  }

  /** The counter's closed form: it has gone down by one per tick until it
      reached zero, and never below. */
  lemma {:induction false} CountAfterClosedForm(n: nat)
    ensures n < ResetValue ==> CountAfter(n) == ResetValue - n
    ensures n >= ResetValue ==> CountAfter(n) == 0
  {
    if n > 0 {
      CountAfterClosedForm(n - 1);
    }
  }

  /** The exact release boundary: `por_done` is false for ticks 0 .. 65534
      and true from tick 65535 on. */
  lemma ReleaseBoundary(n: nat)
    ensures PorDone(CountAfter(n)) <==> n >= ResetValue
  {
    CountAfterClosedForm(n);
  }

  /** Release happens after exactly 2^16 - 1 ticks: one tick earlier the
      counter is still running. */
  lemma ReleaseTick()
    ensures !PorDone(CountAfter(ResetValue - 1))
    ensures PorDone(CountAfter(ResetValue))
  {
    ReleaseBoundary(ResetValue - 1);
    ReleaseBoundary(ResetValue);
  }

  /** Done is terminal: once released, every later tick leaves the count at
      zero, so the reset is never asserted again in this power cycle. */
  lemma DoneIsTerminal(n: nat, k: nat)
    requires PorDone(CountAfter(n))
    ensures CountAfter(n + k) == 0
  {
    ReleaseBoundary(n);
    CountAfterClosedForm(n + k);
  }

  /** The `por_count` register together with the number of `por` ticks it
      has seen since power-up. */
  class PorCounter {
    /** `por_count`. */
    var count: Word16
    /** Ticks of the `por` domain since power-up. */
    ghost var ticks: nat

    /** The register always holds the trace value for the ticks seen. */
    ghost predicate Valid()
      reads this
    {
      count == CountAfter(ticks)
    }

    /** Power-up: `Signal(16, reset=2**16-1)`. */
    constructor ()
      ensures Valid() && ticks == 0
      ensures count == ResetValue && !Done()
    {
      count := ResetValue;
      ticks := 0;
    }

    /** `por_done`, which holds exactly once 2^16 - 1 ticks have passed. */
    predicate Done()
      reads this
      requires Valid()
      ensures Done() <==> ticks >= ResetValue
    {
      ReleaseBoundary(ticks);
      count == 0
    }

    /** One rising edge of the `por` clock. */
    method Tick()
      requires Valid()
      modifies this
      ensures Valid() && ticks == old(ticks) + 1
      ensures count == Next(old(count))
      ensures old(Done()) ==> count == 0
    {
      if !PorDone(count) {
        count := Truncate(count - 1);
      }
      ticks := ticks + 1;
    }
  }
}
