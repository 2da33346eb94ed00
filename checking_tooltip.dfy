/** The animated "..." of src/components/CheckingTooltip.jsx. */
module CheckingTooltip {

  /** The initial `dots` value. */
  const Initial: string := ""

  /** The interval's updater: back to empty after three dots, otherwise one more dot. */
  function Step(prev: string): string {
    if |prev| >= 3 then "" else prev + "."
  }

  /** The `dots` value after `ticks` interval ticks. */
  function AfterTicks(ticks: nat): string {
    if ticks == 0 then Initial else Step(AfterTicks(ticks - 1))
  }

  /** A run of `n` dots. */
  function Dots(n: nat): (r: string)
    ensures |r| == n && forall i :: 0 <= i < n ==> r[i] == '.'
  {
    if n == 0 then "" else Dots(n - 1) + "."
  }

  /** After `ticks` ticks the tooltip shows `ticks % 4` dots. */
  lemma {:induction false} AfterTicksIsDots(ticks: nat)
    ensures AfterTicks(ticks) == Dots(ticks % 4)
  {
    if ticks > 0 {
      AfterTicksIsDots(ticks - 1);
    }
  }

  /** Every reachable value is zero to three dots. */
  lemma ReachableValues(ticks: nat)
    ensures |AfterTicks(ticks)| <= 3
    ensures forall i :: 0 <= i < |AfterTicks(ticks)| ==> AfterTicks(ticks)[i] == '.'
  {
    AfterTicksIsDots(ticks);
  }

  /** The cycle has period four: '' -> '.' -> '..' -> '...' -> ''. */
  lemma PeriodFour(ticks: nat)
    ensures AfterTicks(ticks + 4) == AfterTicks(ticks)
    ensures AfterTicks(ticks) != AfterTicks(ticks + 1)
  {
    AfterTicksIsDots(ticks);
    AfterTicksIsDots(ticks + 1);
    AfterTicksIsDots(ticks + 4);
    assert (ticks + 4) % 4 == ticks % 4;
  }
}
