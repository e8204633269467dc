/** The progress bar (components/progress-bar.tsx): a completion percentage
    from the two counters, and the choice between the determinate bar and
    the indeterminate animation. */
module ProgressBar {
  import StatusIndicator

  /** `totalTasks > 0 ? (completedTasks / totalTasks) * 100 : 0`, in exact
      rational arithmetic. */
  function Percentage(totalTasks: int, completedTasks: int): (p: real)
    ensures totalTasks <= 0 ==> p == 0.0
    ensures totalTasks > 0 && 0 <= completedTasks <= totalTasks ==> 0.0 <= p <= 100.0
    ensures totalTasks > 0 && completedTasks == totalTasks ==> p == 100.0
  {
    if totalTasks > 0 then (completedTasks as real / totalTasks as real) * 100.0 else 0.0
  }

  /** What the bar draws: the sliding animation, or a bar whose width is the
      given percentage. */
  datatype Bar = Indeterminate | Determinate(widthPercent: real)

  /** Lines 24-33: the percentage is only used when the bar is not
      indeterminate. */
  function Draw(totalTasks: int, completedTasks: int, isIndeterminate: bool): (b: Bar)
    ensures b.Indeterminate? <==> isIndeterminate
    ensures b.Determinate? ==> b.widthPercent == Percentage(totalTasks, completedTasks)
  {
    if isIndeterminate then Indeterminate else Determinate(Percentage(totalTasks, completedTasks))
  }

  /** For a fixed positive total, more completed tasks never shrink the
      bar. */
  lemma PercentageMonotone(totalTasks: int, c1: int, c2: int)
    requires totalTasks > 0 && c1 <= c2
    ensures Percentage(totalTasks, c1) <= Percentage(totalTasks, c2)
  {
    var t := totalTasks as real;
    assert c1 as real / t <= c2 as real / t by {
      assert c1 as real / t * t == c1 as real;
      assert c2 as real / t * t == c2 as real;
    }
  }

  /** Once the service has reported jobs, the indicator's bar reads 100
      percent exactly when every job is "Done". */
  lemma IndicatorFullIffAllDone(jobs: seq<StatusIndicator.JobStatus>)
    requires jobs != []
    ensures var c := StatusIndicator.Count(jobs);
            Percentage(c.totalTasks, c.completedTasks) == 100.0 <==>
            forall i :: 0 <= i < |jobs| ==> jobs[i].status == StatusIndicator.DoneStatus
  {
    var c := StatusIndicator.Count(jobs);
    var t := c.totalTasks as real;
    StatusIndicator.CompleteIffAllDone(jobs);
    assert c.completedTasks as real / t * t == c.completedTasks as real;
  }

  /** Whatever the job list, the bar the loading indicator draws is either
      the animation (no jobs yet) or a width between 0 and 100 percent. */
  lemma IndicatorBarInRange(jobs: seq<StatusIndicator.JobStatus>)
    ensures var c := StatusIndicator.Count(jobs);
            var b := Draw(c.totalTasks, c.completedTasks, c.isIndeterminate);
            (b.Indeterminate? <==> jobs == []) &&
            (b.Determinate? ==> 0.0 <= b.widthPercent <= 100.0)
  {
  }
}
