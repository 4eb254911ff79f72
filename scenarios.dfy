/** Runs of the pool's steps that show what the steps allow together. */
module Scenarios {
  import opened Config
  import opened Jobs
  import opened Pool

  /** `spawnWorker` compares the ceiling with the workers that have already
      started, not with those launched and still starting. A burst of 63
      buffered jobs whose spawn checks all run before any worker starts
      launches 63 workers beside the two `start` launches, and all 65 start
      under a ceiling of 64. */
  method OverProvisioning() returns (live: nat, ceiling: nat)
    ensures ceiling == DefaultWorkers
    ensures live == DefaultWorkers + 1
  {
    var gw := new GoWorkers<int, int>([]);
    var i := 0;
    while i < DefaultWorkers - 1
      invariant 0 <= i <= DefaultWorkers - 1
      invariant gw.Valid() && gw.maxWorkers == DefaultWorkers && gw.qCap == DefaultQSize
      invariant !gw.stopping && gw.incoming == [] && gw.held.None? && gw.bufferedQ == []
      invariant |gw.parked| == i && gw.spawnChecks == i
      invariant gw.numWorkers == 0 && gw.starting == 2
    {
      gw.Submit();
      var d := gw.Dispatch(false);
      var took := gw.Drain();
      i := i + 1;
    }
    i := 0;
    while i < DefaultWorkers - 1
      invariant 0 <= i <= DefaultWorkers - 1
      invariant gw.Valid() && gw.maxWorkers == DefaultWorkers
      invariant gw.numWorkers == 0
      invariant gw.spawnChecks == DefaultWorkers - 1 - i && gw.starting == 2 + i
    {
      var spawned := gw.SpawnWorker();
      i := i + 1;
    }
    i := 0;
    while i < DefaultWorkers + 1
      invariant 0 <= i <= DefaultWorkers + 1
      invariant gw.Valid() && gw.maxWorkers == DefaultWorkers
      invariant gw.numWorkers == i && gw.starting == DefaultWorkers + 1 - i
    {
      gw.StartWorker();
      i := i + 1;
    }
    live, ceiling := gw.numWorkers, gw.maxWorkers;
  }

  /** One job is submitted and handed to a worker; `Stop` waits while it
      runs and tears down once it has finished; a later submit is rejected
      and a second `Stop` does nothing. */
  method SubmitAfterStop() returns (firstPoll: bool, secondPoll: bool, jobsAfter: nat, secondStop: bool)
    ensures !firstPoll && secondPoll
    ensures jobsAfter == 0 && !secondStop
  {
    var gw := new GoWorkers<int, int>([]);
    gw.StartWorker();
    gw.Submit();
    var d := gw.Dispatch(true);
    var first := gw.Stop();
    firstPoll := gw.StopPoll();
    gw.RunJob(0);
    secondPoll := gw.StopPoll();
    gw.Submit();
    secondStop := gw.Stop();
    jobsAfter := gw.numJobs;
  }

  /** Submit one SubmitCheckResult job to a pool whose only worker is idle,
      hand it to that worker and run it. */
  method RunCheckResult(gw: GoWorkers<int, int>, result: int, err: Option<int>)
    requires gw.Valid() && !gw.stopping
    requires gw.numJobs == 0 && gw.idleWorkers == 1 && gw.held.None?
    modifies gw
    ensures gw.Valid() && !gw.stopping
    ensures gw.numJobs == 0 && gw.idleWorkers == 1 && gw.held.None?
    ensures Outputs(gw.errChan, gw.resultChan)
         == Route(CheckResult(result, err), Outputs(old(gw.errChan), old(gw.resultChan)))
  {
    gw.SubmitCheckResult(result, err);
    var d := gw.Dispatch(true);
    gw.RunJob(0);
  }

  /** Pairs of SubmitCheckResult jobs, the even-numbered job of each pair
      failing and the odd-numbered one succeeding, each run by a worker:
      ErrChan receives the failures and ResultChan the successes, in
      submission order. */
  method CheckResultRouting(pairs: nat) returns (errs: seq<Option<int>>, results: seq<int>)
    requires pairs <= OutputChanSize
    ensures |errs| == pairs && |results| == pairs
    ensures forall k :: 0 <= k < pairs ==> errs[k] == Some(2 * k) && results[k] == 2 * k + 1
  {
    var gw := new GoWorkers<int, int>([]);
    gw.StartWorker();
    var k := 0;
    while k < pairs
      invariant 0 <= k <= pairs
      invariant gw.Valid() && !gw.stopping
      invariant gw.numJobs == 0 && gw.idleWorkers == 1 && gw.held.None?
      invariant |gw.errChan| == k && |gw.resultChan| == k
      invariant forall j :: 0 <= j < k ==> gw.errChan[j] == Some(2 * j) && gw.resultChan[j] == 2 * j + 1
    {
      RunCheckResult(gw, 0, Some(2 * k));
      RunCheckResult(gw, 2 * k + 1, None);
      k := k + 1;
    }
    errs, results := gw.errChan, gw.resultChan;
  }
}
