# goworkers: the worker pool's scheduling engine in Dafny

`goworkers` is a goroutine worker pool for Go. `New` builds a pool from
optional `Options`. `Submit`, `SubmitCheckError` and `SubmitCheckResult` hand
it jobs. A dispatcher loop gives each job to an idle worker or puts it in a
bounded queue. Workers are spawned on demand up to a ceiling and retire after
an idle timeout when they are surplus. `Stop` rejects new work, waits for the
outstanding jobs to finish, and then closes the pool's channels. A job's error
and result are reported on two buffered output channels, `ErrChan` and
`ResultChan`. Each has capacity 100, and a send to a full channel is dropped.

This project models the sequential state machine underneath the goroutines:

- `Config` (config.dfy). The package constants and the clamping in `New`.
  Workers, timeout and queue size are each raised to a floor of 64, 10 s and
  128. Only a single `Options` argument is read; the timeout is kept as an
  int64 duration in nanoseconds.
- `Jobs` (jobs.dfy). A job is an `Envelope`. It records which entry point
  submitted it and what the job returns when it runs; the job body itself is
  opaque. `Route` is what the wrapper closure does to the output channels.
  `RunAll` runs wrappers one after another, and the lemmas about it cover
  capacity, nil errors, and delivery in order.
- `Pool` (pool.dfy). Class `GoWorkers` holds the pool's state. Each method
  is one atomic step of one goroutine: a submitting caller, the dispatcher
  loop of `start`, the drain loop over the buffered queue, a goroutine
  running `spawnWorker`, a worker, a stopping caller, or a caller receiving
  on an output channel. A step that would block on a channel changes nothing
  and reports that it did not proceed. `Valid()` is the invariant every step
  keeps. It says that `numJobs` counts every job between acceptance and
  completion, wherever the job is: with a blocked submitter, held by the
  dispatcher, in `bufferedQ`, parked with a drain goroutine, or running. Two
  ghost ledgers record the wrappers accepted and the wrappers run. As
  multisets, the accepted ones are the ones run plus the ones in flight. It
  also says that both output channels stay within capacity and never hold a
  nil error. Two further parts hold only because the model makes each check
  and its effect one atomic step; the code does not (see "## Left out").
  Teardown happens only after `Stop` and at zero jobs. A parked job always
  has a worker alive or on its way.
- `Scenarios` (scenarios.dfy). Runs of steps that mirror the repository's
  tests, and one run in which more workers start than the ceiling allows.

Where the code and its documentation disagree, the model follows the code:

- `TestWorkerArg` expects the `Workers` values 0, 1 and 2 to be kept. The
  code keeps a value only when it exceeds 64 (goworkers.go:108-110), so all
  three become 64 (`Config.SmallWorkerCountsRaised`). A ceiling of 0 does not
  mean "unbounded" either.
- The spawn rule in the code only compares the started workers with the
  ceiling (goworkers.go:236). The demand condition is commented out on that
  line and is not modelled.
- The live-worker count is not bounded by the ceiling. `spawnWorker` counts
  only workers that have already started, and a launched worker counts itself
  later (goworkers.go:299), so a burst of spawn checks overshoots the ceiling
  (`Scenarios.OverProvisioning`). Nothing in the code comments on this. The
  comment at goworkers.go:312-313 is about the retire check, which is not
  atomic either (see `TimerFired` under "## Left out").
- `Submit` is not non-blocking. Its send on the unbuffered `jobQ` waits until
  the dispatcher receives it. In the model the job sits in `incoming` until
  `Dispatch` takes it.

## Model

| member | source | states |
|---|---|---|
| Config.Clamp | goworkers.go:108-122 | a clamped option is at least its floor and at least the given value, and is one of the two |
| Config.Normalize | goworkers.go:94-123 | New's settings: defaults unless exactly one Options is given; each field raised to its floor (64 workers, 10 s, 128 slots); the timeout duration fits an int64 |
| Config.KeptIffAtLeastFloor | goworkers.go:104-122 | a single option is kept as given exactly when it is at least its floor |
| Config.SmallWorkerCountsRaised | goworkers_test.go:320-338 | the Workers values 1, 2 and 0 all become 64, not the values that test expects |
| Config.QueueSizeFloor | goworkers_test.go:340-354 | QSize 127 and 128 give 128; QSize 129 is kept |
| Jobs.TrySend | goworkers.go:163-166 | a send on a buffered output channel appends the value when the channel holds fewer than 100 items and leaves the channel as it was otherwise |
| Jobs.Route | goworkers.go:141-197 | a wrapper grows at most one channel; a plain job and a nil error report nothing; an error goes only to ErrChan, and a nil-error result only to ResultChan; each is buffered exactly when the channel has room and dropped otherwise; capacity and no-nil are kept |
| Jobs.RunAllKeepsChannelsBounded | goworkers_test.go:437-467 | any number of wrappers run against unread channels keep both within 100 with no nil error, and add at most one item per job |
| Jobs.RunAllDeliversWhenRoom | goworkers.go:160-196 | with room for every outcome, ErrChan receives exactly the non-nil errors and ResultChan exactly the error-free results, in order |
| Jobs.CheckResultReportsOnce | goworkers.go:183-196 | each SubmitCheckResult job has exactly one outcome to report: its error or else its value |
| Jobs.CheckErrorReportsNoResult | goworkers.go:160-168 | whatever the state of the channels, running SubmitCheckError wrappers leaves ResultChan as it was and adds at most one error each to ErrChan; none has a result to report |
| Pool.GoWorkers.constructor | goworkers.go:94-128 | settings are Normalize(args); no jobs, no started workers, two workers launched by start, empty queues and channels, not stopping |
| Pool.GoWorkers.JobNum | goworkers.go:130-133 | in a valid pool, the jobs accepted and not yet finished, wherever they are |
| Pool.GoWorkers.WorkerNum | goworkers.go:135-138 | in a valid pool, the started workers, idle or busy |
| Pool.GoWorkers.Accept | goworkers.go:141-147 | while stopping nothing changes; otherwise numJobs grows by one, the wrapper joins the jobQ senders and the accepted ledger, nothing else changes |
| Pool.GoWorkers.Enqueue | goworkers.go:146-147 | past the stopping check: numJobs grows by one and the wrapper joins the jobQ senders and the accepted ledger |
| Pool.GoWorkers.Submit | goworkers.go:141-148 | rejected with no change while stopping; otherwise counted once and sent as a plain wrapper |
| Pool.GoWorkers.SubmitCheckError | goworkers.go:154-169 | rejected with no change while stopping; otherwise counted once and sent as an error-reporting wrapper |
| Pool.GoWorkers.SubmitCheckResult | goworkers.go:177-197 | rejected with no change while stopping; otherwise counted once and sent as a result-reporting wrapper |
| Pool.GoWorkers.Dispatch | goworkers.go:278-290 | the oldest sent wrapper goes to a ready worker (with one spawn check launched), else onto bufferedQ when it has room, else is held; numJobs and the rest unchanged |
| Pool.GoWorkers.SendToWorker | goworkers.go:282-285 | the oldest sent wrapper starts running on a waiting worker, and one spawn check is launched |
| Pool.GoWorkers.PushBuffered | goworkers.go:286-287 | with no worker ready and room in bufferedQ, the oldest sent wrapper is buffered |
| Pool.GoWorkers.HoldForBuffer | goworkers.go:286-287 | with no worker ready and bufferedQ full, the dispatcher blocks holding the oldest sent wrapper |
| Pool.GoWorkers.FlushHeld | goworkers.go:286-287 | the held wrapper joins bufferedQ exactly when it has room; otherwise nothing changes |
| Pool.GoWorkers.Drain | goworkers.go:263-276 | the oldest buffered wrapper moves to a goroutine that will check for a spawn and then send it to a worker |
| Pool.GoWorkers.SpawnWorker | goworkers.go:233-239 | a worker is launched exactly when started workers are fewer than maxWorkers |
| Pool.GoWorkers.StartWorker | goworkers.go:293-300 | a launched worker adds itself to numWorkers and waits idle |
| Pool.GoWorkers.Deliver | goworkers.go:270-273 | a parked wrapper goes to a worker exactly when one is waiting |
| Pool.GoWorkers.RunJob | goworkers.go:303-310 | a worker runs its wrapper: the channels change as Route says, numJobs drops by exactly one, the wrapper joins the run ledger, the worker is idle again; the channels are still open, a fact of the atomic-step model only |
| Pool.GoWorkers.TimerFired | goworkers.go:243-250 | an idle worker retires exactly when numJobs < numWorkers; otherwise nothing changes; a retirement leaves at least as many workers as jobs, a fact of the atomic-step model only |
| Pool.GoWorkers.ExitOnClose | goworkers.go:305-308 | an idle worker exits exactly when workerQ is closed |
| Pool.GoWorkers.Stop | goworkers.go:206-210 | only the call that sets stopping proceeds; a later call changes nothing |
| Pool.GoWorkers.StopPoll | goworkers.go:212-222 | teardown happens exactly when numJobs is zero, and then nothing is queued, held, parked or running, and the wrappers run are exactly the wrappers accepted, each as often as it was accepted; otherwise nothing changes |
| Pool.GoWorkers.ReceiveError | goworkers.go:47-53 | a receive on ErrChan takes the oldest error, which is never nil, or reports closed or empty |
| Pool.GoWorkers.ReceiveResult | goworkers.go:54-60 | a receive on ResultChan takes the oldest value, or reports closed or empty |
| Pool.QuiescentIffNoJobs | goworkers.go:212-217 | numJobs is zero exactly when no job is waiting, buffered, held, parked or running |
| Pool.ClosedMeansNoWriter | goworkers.go:253-258 | after teardown no worker is busy, so none can send on the closed channels; a fact of the atomic-step model only |
| Pool.AcceptConserves | goworkers.go:146-147 | a wrapper added to the accepted ledger and to the jobQ senders keeps accepted = run + in flight |
| Pool.DispatchConserves | goworkers.go:282-287 | moving the oldest sent wrapper to a worker, onto bufferedQ or into the dispatcher's hand keeps accepted = run + in flight |
| Pool.FlushConserves | goworkers.go:287 | moving the held wrapper onto bufferedQ keeps accepted = run + in flight |
| Pool.DrainConserves | goworkers.go:266-273 | moving the oldest buffered wrapper to a drain goroutine keeps accepted = run + in flight |
| Pool.DeliverConserves | goworkers.go:272 | moving any parked wrapper to a worker keeps accepted = run + in flight |
| Pool.RunConserves | goworkers.go:303-310 | moving a running wrapper to the run ledger keeps accepted = run + in flight |
| Pool.EmptyConserves | goworkers.go:212-217 | with every stage empty, the wrappers run are exactly the wrappers accepted, as multisets |
| Scenarios.OverProvisioning | goworkers.go:233-239 | a run in which 65 workers start under the default ceiling of 64 |
| Scenarios.SubmitAfterStop | goworkers_test.go:356-368 | Stop waits for the running job and then tears down; a submit after Stop is rejected; a second Stop does nothing |
| Scenarios.RunCheckResult | goworkers.go:177-197 | one result-reporting job submitted, handed to the idle worker and run changes the output channels exactly as Route says, and leaves no job outstanding |
| Scenarios.CheckResultRouting | goworkers_test.go:81-146 | pairs of result-reporting jobs, the even-numbered ones failing: ErrChan holds the failures and ResultChan the successes, in order |

## Left out

- Goroutine scheduling, the blocking rendezvous of the unbuffered `workerQ`, `jobQ` and `terminate`, and `select` fairness are not modelled. Each goroutine step is one atomic method. Whether a worker is ready for a non-blocking handoff is a parameter of `Dispatch`.
- Pool.GoWorkers.Accept: the stopping check (goworkers.go:142) and the increment (goworkers.go:146) form one atomic step. In the code they do not. A submit can pass the check before `Stop`'s compare-and-swap and increment after `Stop` has read zero jobs (goworkers.go:213). Its send on `jobQ` then either panics on the closed `jobQ`, or reaches the dispatcher before `terminate` does (goworkers.go:279-282). In the second case the job goes to a worker or to `bufferedQ`. After the deferred closes (goworkers.go:253-258), the worker's `select` with a `default` still panics sending on the closed `ErrChan` (goworkers.go:164, 187), and the drain goroutine panics sending on the closed `workerQ` (goworkers.go:272). The model therefore does not capture this race. "Teardown only at quiescence" in `Valid`, "the channels are still open" in `RunJob`, and `ClosedMeansNoWriter` hold only for the atomic-step model.
- Pool.GoWorkers.TimerFired: the `enoughWorkers` comparison (goworkers.go:246) and the worker's exit are one step. In the code the decrement is deferred (goworkers.go:295) and runs after the `wx` mutex is released. Two idle workers can both read numJobs = 1 < numWorkers = 2 before either decrements, and both retire. A parked job whose spawn check (goworkers.go:271) ran while the pool was at the ceiling is then left with no worker, and `Stop` polls forever. The model does not capture this race. "Leaving at least as many workers as jobs" and "a parked job always has a worker alive or on its way" in `Valid` hold only for the atomic-step model.
- Pool.GoWorkers.StopPoll: the teardown is one step. It covers the `terminate` handshake, closing `jobQ`, and the deferred closing of `bufferedQ`, `workerQ`, `ErrChan` and `ResultChan` (goworkers.go:218-220, 253-258). Their relative order is not modelled; the model proves only that all of them happen once and at zero jobs.
- Pool.GoWorkers.SpawnWorker: the goroutines that call `spawnWorker` are counted in `spawnChecks`. A parked job's send is not ordered after its own goroutine's spawn check, so the model allows slightly more interleavings than the code.
- Timers and sleeping (`time.NewTimer`, `Reset`, `msleep`) are not modelled. The timeout firing is the `TimerFired` step, and each iteration of Stop's polling loop is one `StopPoll` call. The timeout value is only recorded.
- The drain goroutine's exit when `bufferedQ` is closed is not modelled. After teardown `bufferedQ` is empty, and `Drain` then does nothing.
- Logging (`init`, the package loggers, `SetOutput`, `debug`) and the `Logs` option are I/O and are not modelled.
- The package mutexes `mx` and `wx` only serialise comparisons, which are already atomic in the model.
- `numJobs` and `numWorkers` are `uint32` in the code. The model uses unbounded naturals and does not model wrap-around. No reachable step decrements either counter at zero.
- Job bodies are opaque. An envelope carries the job's return values, and panics inside a job are not modelled.
