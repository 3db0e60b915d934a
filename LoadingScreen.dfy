/** The loading screen's progress bar: it starts at 8 percent and each interval
    tick adds 4 until it holds at 96. The interval timer is an explicit
    `OnInterval` step. */
module LoadingScreen {
  import opened Strings

  const InitialProgress := 8
  const ProgressStep := 4
  const ProgressCap := 96

  /** The interval's state updater */
  function Tick(p: int): (r: int)
    ensures p >= ProgressCap ==> r == ProgressCap
    ensures p < ProgressCap ==> r == p + ProgressStep
  {
    if p >= ProgressCap then ProgressCap else p + ProgressStep
  }

  /** The progress after n ticks */
  function ProgressAfter(n: nat): int
    decreases n
  {
    if n == 0 then InitialProgress else Tick(ProgressAfter(n - 1))
  }

  /** The progress climbs by 4 for 22 ticks and then stays at 96. */
  lemma {:induction false} ProgressClosedForm(n: nat)
    ensures ProgressAfter(n) == if n >= 22 then ProgressCap else InitialProgress + ProgressStep * n
    decreases n
  {
    if n > 0 {
      ProgressClosedForm(n - 1);
    }
  }

  /** The progress never decreases and never exceeds 96. */
  lemma ProgressMonotoneAndCapped(m: nat, n: nat)
    requires m <= n
    ensures InitialProgress <= ProgressAfter(m) <= ProgressAfter(n) <= ProgressCap
  {
    ProgressClosedForm(m);
    ProgressClosedForm(n);
  }

  /** The bar is full, at 96, exactly from the 22nd tick on. */
  lemma ProgressFullIff(n: nat)
    ensures ProgressAfter(n) == ProgressCap <==> n >= 22
  {
    ProgressClosedForm(n);
  }

  class LoadingBar {
    var progress: int
    /** the number of interval ticks so far */
    ghost var ticks: nat

    ghost predicate Valid()
      reads this
    {
      progress == ProgressAfter(ticks)
    }

    constructor ()
      ensures progress == InitialProgress && ticks == 0
      ensures Valid()
    {
      progress := InitialProgress;
      ticks := 0;
    }

    /** One interval tick */
    method OnInterval()
      requires Valid()
      modifies this
      ensures Valid()
      ensures ticks == old(ticks) + 1
      ensures progress == Tick(old(progress))
      ensures old(progress) <= progress <= ProgressCap
    {
      ProgressMonotoneAndCapped(ticks, ticks + 1);
      progress := Tick(progress);
      ticks := ticks + 1;
    }

    /** The bar's CSS width, `${progress}%` */
    function Width(): (width: string)
      requires Valid()
      reads this
      ensures |width| >= 2 && width[|width| - 1] == '%'
      ensures forall i :: 0 <= i < |width| - 1 ==> IsDigit(width[i])
      ensures DecimalValue(width[..|width| - 1]) == progress
    {
      ProgressMonotoneAndCapped(0, ticks);
      NatToStringRoundTrip(progress);
      var digits := NatToString(progress);
      assert (digits + "%")[..|digits|] == digits;
      digits + "%"
    }
  }
}
