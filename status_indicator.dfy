/** The counters the loading indicator derives from the list of job
    statuses (components/status-indicator.tsx). The submission itself counts
    as one task, already complete, as soon as the service has reported any
    job. */
module StatusIndicator {
  import opened Web

  /** One entry of `jobStatuses`; the status is free text, and only the
      exact text "Done" counts as complete. */
  datatype JobStatus = JobStatus(uuid: string, status: string)

  const DoneStatus := "Done"

  /** What the indicator shows while loading. */
  datatype Counters = Counters(totalTasks: nat, completedTasks: nat, showProgress: bool, isIndeterminate: bool)

  /** What one job adds to the count of finished jobs. */
  function Done(job: JobStatus): nat {
    if job.status == DoneStatus then 1 else 0
  }

  /** `jobStatuses.filter((job) => job.status === "Done").length` */
  function CountDone(jobs: seq<JobStatus>): (n: nat)
    ensures n <= |jobs|
    ensures n == 0 <== forall i :: 0 <= i < |jobs| ==> jobs[i].status != DoneStatus
  {
    if jobs == [] then 0
    else CountDone(jobs[..|jobs| - 1]) + Done(jobs[|jobs| - 1])
  }

  /** The counters of lines 16-24: `total` is the job count plus one for the
      submission step, `completed` the "Done" jobs plus that step, and
      both are 0 while the list is empty. */
  function Count(jobs: seq<JobStatus>): (c: Counters)
    ensures jobs == [] ==> c == Counters(0, 0, false, true)
    ensures jobs != [] ==> c.totalTasks == |jobs| + 1 && 1 <= c.completedTasks <= c.totalTasks
    ensures c.showProgress == !c.isIndeterminate
    ensures c.completedTasks <= c.totalTasks
  {
    var actualTasks := |jobs|;
    var totalTasks := if actualTasks > 0 then actualTasks + 1 else 0;
    var completedJobTasks := CountDone(jobs);
    var initialRequestComplete := if actualTasks > 0 then 1 else 0;
    Counters(totalTasks, completedJobTasks + initialRequestComplete, actualTasks > 0, actualTasks == 0)
  }

  /** The indicator renders nothing unless loading (lines 12-14). */
  function Render(isLoading: bool, jobs: seq<JobStatus>): (shown: Option<Counters>)
    ensures !isLoading ==> shown.None?
    ensures isLoading ==> shown == Some(Count(jobs))
  {
    if !isLoading then None else Some(Count(jobs))
  }

  /** Every job counts as done exactly when all of them report "Done". */
  lemma {:induction false} CountDoneAllIff(jobs: seq<JobStatus>)
    ensures CountDone(jobs) == |jobs| <==> forall i :: 0 <= i < |jobs| ==> jobs[i].status == DoneStatus
  {
    if jobs != [] {
      var init := jobs[..|jobs| - 1];
      CountDoneAllIff(init);
      assert forall i :: 0 <= i < |init| ==> init[i] == jobs[i];
    }
  }

  /** For a non-empty list, the bar is full exactly when every job is
      "Done". */
  lemma CompleteIffAllDone(jobs: seq<JobStatus>)
    requires jobs != []
    ensures Count(jobs).completedTasks == Count(jobs).totalTasks <==>
            forall i :: 0 <= i < |jobs| ==> jobs[i].status == DoneStatus
  {
    CountDoneAllIff(jobs);
  }

  /** Replacing entry `k` changes the "Done" count only by what entry `k`
      itself contributes. */
  lemma {:induction false} CountDoneUpdate(jobs: seq<JobStatus>, k: nat, j: JobStatus)
    requires k < |jobs|
    ensures CountDone(jobs[k := j]) == CountDone(jobs) - Done(jobs[k]) + Done(j)
  {
    var last := |jobs| - 1;
    var updated := jobs[k := j];
    assert CountDone(jobs) == CountDone(jobs[..last]) + Done(jobs[last]);
    assert CountDone(updated) == CountDone(updated[..last]) + Done(updated[last]);
    if k == last {
      assert updated[..last] == jobs[..last];
    } else {
      assert updated[..last] == jobs[..last][k := j];
      CountDoneUpdate(jobs[..last], k, j);
    }
  }

  /** A job moving from any other status to "Done" raises `completed` by
      exactly one and leaves `total` alone. */
  lemma JobFinishing(jobs: seq<JobStatus>, k: nat)
    requires k < |jobs| && jobs[k].status != DoneStatus
    ensures Count(jobs[k := JobStatus(jobs[k].uuid, DoneStatus)]).completedTasks == Count(jobs).completedTasks + 1
    ensures Count(jobs[k := JobStatus(jobs[k].uuid, DoneStatus)]).totalTasks == Count(jobs).totalTasks
  {
    CountDoneUpdate(jobs, k, JobStatus(jobs[k].uuid, DoneStatus));
  }
}
