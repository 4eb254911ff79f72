/** The worker pool's scheduling engine as a sequential state machine. Each
    method is one atomic step of one goroutine: a caller submitting or
    stopping, the dispatcher loop of `start`, the drain loop over the
    buffered queue, a goroutine running `spawnWorker`, or a worker. A step
    that would block on a channel changes nothing and reports that it did
    not proceed. */
module Pool {
  import opened Config
  import opened Jobs

  /** Every mutable field of a pool except the two ghost ledgers, to state
      what a step leaves alone. */
  datatype State<E, V> = State(
    numJobs: nat,
    numWorkers: nat,
    stopping: bool,
    incoming: seq<Envelope<E, V>>,
    held: Option<Envelope<E, V>>,
    bufferedQ: seq<Envelope<E, V>>,
    parked: seq<Envelope<E, V>>,
    running: seq<Envelope<E, V>>,
    idleWorkers: nat,
    starting: nat,
    spawnChecks: nat,
    errChan: seq<Option<E>>,
    resultChan: seq<V>,
    closed: bool)

  /** The wrapper a blocked dispatcher holds, as a sequence of zero or one. */
  function HeldSeq<E, V>(held: Option<Envelope<E, V>>): (s: seq<Envelope<E, V>>)
    ensures |s| == (if held.Some? then 1 else 0)
  {
    if held.Some? then [held.value] else []
  }

  /** The wrappers found in a list of pipeline stages, counted with repetition. */
  ghost function InFlight<E, V>(stages: seq<seq<Envelope<E, V>>>): (m: multiset<Envelope<E, V>>)
    decreases |stages|
  {
    if stages == [] then multiset{} else multiset(stages[0]) + InFlight(stages[1..])
  }

  /** Every accepted wrapper has either been run once or is still in flight:
      with a blocked submitter, held by the dispatcher, buffered, parked, or
      running. */
  ghost predicate Conserved<E, V>(accepted: seq<Envelope<E, V>>, ran: seq<Envelope<E, V>>,
                                  incoming: seq<Envelope<E, V>>, held: Option<Envelope<E, V>>,
                                  bufferedQ: seq<Envelope<E, V>>, parked: seq<Envelope<E, V>>,
                                  running: seq<Envelope<E, V>>)
  {
    multiset(accepted) == multiset(ran) + InFlight([incoming, HeldSeq(held), bufferedQ, parked, running])
  }

  /** The in-flight wrappers of the five stages are the sum of each stage's. */
  lemma {:induction false} InFlightOfStages<E, V>(a: seq<Envelope<E, V>>, b: seq<Envelope<E, V>>,
                                                  c: seq<Envelope<E, V>>, d: seq<Envelope<E, V>>,
                                                  e: seq<Envelope<E, V>>)
    ensures InFlight([a, b, c, d, e])
         == multiset(a) + multiset(b) + multiset(c) + multiset(d) + multiset(e)
  {
    assert [a, b, c, d, e][1..] == [b, c, d, e];
    assert [b, c, d, e][1..] == [c, d, e];
    assert [c, d, e][1..] == [d, e];
    assert [d, e][1..] == [e];
    assert [e][1..] == [];
    assert InFlight([e]) == multiset(e);
    assert InFlight([d, e]) == multiset(d) + multiset(e);
    assert InFlight([c, d, e]) == multiset(c) + multiset(d) + multiset(e);
    assert InFlight([b, c, d, e]) == multiset(b) + multiset(c) + multiset(d) + multiset(e);
  }

  /* Each step that moves a wrapper between stages keeps every accepted
     wrapper accounted for. */

  /** A new wrapper is accepted and joins the blocked submitters. */
  lemma AcceptConserves<E, V>(acc: seq<Envelope<E, V>>, ran: seq<Envelope<E, V>>, i: seq<Envelope<E, V>>,
                              h: Option<Envelope<E, V>>, b: seq<Envelope<E, V>>, p: seq<Envelope<E, V>>,
                              r: seq<Envelope<E, V>>, env: Envelope<E, V>)
    requires Conserved(acc, ran, i, h, b, p, r)
    ensures Conserved(acc + [env], ran, i + [env], h, b, p, r)
  {
    InFlightOfStages(i, HeldSeq(h), b, p, r);
    InFlightOfStages(i + [env], HeldSeq(h), b, p, r);
  }

  /** The dispatcher moves the oldest sent wrapper to a worker, onto
      bufferedQ, or into its own hand. */
  lemma DispatchConserves<E, V>(acc: seq<Envelope<E, V>>, ran: seq<Envelope<E, V>>, i: seq<Envelope<E, V>>,
                                b: seq<Envelope<E, V>>, p: seq<Envelope<E, V>>, r: seq<Envelope<E, V>>,
                                d: Dispatched)
    requires i != [] && Conserved(acc, ran, i, None, b, p, r)
    ensures d == ToWorker ==> Conserved(acc, ran, i[1..], None, b, p, r + [i[0]])
    ensures d == ToBuffer ==> Conserved(acc, ran, i[1..], None, b + [i[0]], p, r)
    ensures d == Holding ==> Conserved(acc, ran, i[1..], Some(i[0]), b, p, r)
  {
    InFlightOfStages(i, [], b, p, r);
    assert i == [i[0]] + i[1..];
    match d
    case ToWorker => InFlightOfStages(i[1..], [], b, p, r + [i[0]]);
    case ToBuffer => InFlightOfStages(i[1..], [], b + [i[0]], p, r);
    case Holding => InFlightOfStages(i[1..], [i[0]], b, p, r);
    case NoJob =>
  }

  /** The held wrapper moves onto bufferedQ. */
  lemma FlushConserves<E, V>(acc: seq<Envelope<E, V>>, ran: seq<Envelope<E, V>>, i: seq<Envelope<E, V>>,
                             h: Option<Envelope<E, V>>, b: seq<Envelope<E, V>>, p: seq<Envelope<E, V>>,
                             r: seq<Envelope<E, V>>)
    requires h.Some? && Conserved(acc, ran, i, h, b, p, r)
    ensures Conserved(acc, ran, i, None, b + [h.value], p, r)
  {
    InFlightOfStages(i, [h.value], b, p, r);
    InFlightOfStages(i, [], b + [h.value], p, r);
  }

  /** The oldest buffered wrapper moves to a drain goroutine. */
  lemma DrainConserves<E, V>(acc: seq<Envelope<E, V>>, ran: seq<Envelope<E, V>>, i: seq<Envelope<E, V>>,
                             h: Option<Envelope<E, V>>, b: seq<Envelope<E, V>>, p: seq<Envelope<E, V>>,
                             r: seq<Envelope<E, V>>)
    requires b != [] && Conserved(acc, ran, i, h, b, p, r)
    ensures Conserved(acc, ran, i, h, b[1..], p + [b[0]], r)
  {
    InFlightOfStages(i, HeldSeq(h), b, p, r);
    assert b == [b[0]] + b[1..];
    InFlightOfStages(i, HeldSeq(h), b[1..], p + [b[0]], r);
  }

  /** A parked wrapper moves to a worker. */
  lemma DeliverConserves<E, V>(acc: seq<Envelope<E, V>>, ran: seq<Envelope<E, V>>, i: seq<Envelope<E, V>>,
                               h: Option<Envelope<E, V>>, b: seq<Envelope<E, V>>, p: seq<Envelope<E, V>>,
                               r: seq<Envelope<E, V>>, k: nat)
    requires k < |p| && Conserved(acc, ran, i, h, b, p, r)
    ensures Conserved(acc, ran, i, h, b, p[..k] + p[k+1..], r + [p[k]])
  {
    InFlightOfStages(i, HeldSeq(h), b, p, r);
    assert p == p[..k] + [p[k]] + p[k+1..];
    InFlightOfStages(i, HeldSeq(h), b, p[..k] + p[k+1..], r + [p[k]]);
  }

  /** A running wrapper finishes and joins the wrappers run. */
  lemma RunConserves<E, V>(acc: seq<Envelope<E, V>>, ran: seq<Envelope<E, V>>, i: seq<Envelope<E, V>>,
                           h: Option<Envelope<E, V>>, b: seq<Envelope<E, V>>, p: seq<Envelope<E, V>>,
                           r: seq<Envelope<E, V>>, w: nat)
    requires w < |r| && Conserved(acc, ran, i, h, b, p, r)
    ensures Conserved(acc, ran + [r[w]], i, h, b, p, r[..w] + r[w+1..])
  {
    InFlightOfStages(i, HeldSeq(h), b, p, r);
    assert r == r[..w] + [r[w]] + r[w+1..];
    InFlightOfStages(i, HeldSeq(h), b, p, r[..w] + r[w+1..]);
  }

  /** With every stage empty, the wrappers run are exactly those accepted. */
  lemma EmptyConserves<E, V>(acc: seq<Envelope<E, V>>, ran: seq<Envelope<E, V>>)
    requires Conserved(acc, ran, [], None, [], [], [])
    ensures multiset(ran) == multiset(acc)
  {
    InFlightOfStages<E, V>([], [], [], [], []);
  }

  /** What one pass of the dispatcher's select did with the job it received. */
  datatype Dispatched = NoJob | ToWorker | ToBuffer | Holding

  /** A receive by the caller on an output channel. */
  datatype Recv<T> = Received(value: T) | ClosedEmpty | WouldBlock

  class GoWorkers<E, V> {
    /** Settings fixed by `New`. */
    const maxWorkers: nat
    const timeout: nat
    const qCap: nat

    /** Jobs accepted and not yet finished. */
    var numJobs: nat
    /** Workers that have started and not yet exited. */
    var numWorkers: nat
    /** Set once by the first `Stop`. */
    var stopping: bool

    /** Wrappers whose submitter is blocked sending on the unbuffered jobQ. */
    var incoming: seq<Envelope<E, V>>
    /** The wrapper the dispatcher holds while blocked on a full bufferedQ. */
    var held: Option<Envelope<E, V>>
    /** The buffered queue, capacity `qCap`. */
    var bufferedQ: seq<Envelope<E, V>>
    /** Wrappers taken off bufferedQ by the drain loop, each owned by a
        goroutine that is blocked sending it on workerQ. */
    var parked: seq<Envelope<E, V>>
    /** The wrapper each busy worker is running. */
    var running: seq<Envelope<E, V>>
    /** Started workers waiting on workerQ or their idle timer. */
    var idleWorkers: nat
    /** `startWorker` goroutines launched that have not yet counted themselves. */
    var starting: nat
    /** Goroutines launched to call `spawnWorker` that have not yet done so. */
    var spawnChecks: nat
    /** ErrChan and ResultChan, capacity `OutputChanSize` each. */
    var errChan: seq<Option<E>>
    var resultChan: seq<V>
    /** Teardown has run: jobQ, bufferedQ, workerQ, ErrChan and ResultChan are closed. */
    var closed: bool

    /** Every wrapper accepted so far, in order of acceptance. */
    ghost var accepted: seq<Envelope<E, V>>
    /** Every wrapper a worker has run so far, in order of completion. */
    ghost var ran: seq<Envelope<E, V>>

    ghost function Snapshot(): State<E, V>
      reads this
    {
      State(numJobs, numWorkers, stopping, incoming, held, bufferedQ, parked, running,
            idleWorkers, starting, spawnChecks, errChan, resultChan, closed)
    }

    /** Jobs between acceptance and completion, wherever they are. */
    function Outstanding(): nat
      reads this
    {
      |incoming| + (if held.Some? then 1 else 0) + |bufferedQ| + |parked| + |running|
    }

    /** `JobNum`: the jobs accepted and not yet finished. */
    function JobNum(): (n: nat)
      reads this
      ensures Valid() ==> n == Outstanding()
    {
      numJobs
    }

    /** `WorkerNum`: the started workers, idle or busy. */
    function WorkerNum(): (n: nat)
      reads this
      ensures Valid() ==> n == idleWorkers + |running|
    {
      numWorkers
    }

    /** Every wrapper accepted so far has run once or is still in flight. */
    ghost predicate Accounted()
      reads this`accepted, this`ran, this`incoming, this`held, this`bufferedQ, this`parked, this`running
    {
      Conserved(accepted, ran, incoming, held, bufferedQ, parked, running)
    }

    ghost predicate Valid()
      reads this
    {
      && maxWorkers >= DefaultWorkers && qCap >= DefaultQSize
      && |bufferedQ| <= qCap
      && WellFormed(Outputs(errChan, resultChan))
      && numWorkers == idleWorkers + |running|
      // numJobs counts every accepted job until its worker has finished it
      && numJobs == Outstanding()
      // every accepted wrapper has either run once or is still in flight
      && Accounted()
      // teardown only after Stop and only at quiescence (only because the
      // stopping check and the increment of a submit are one step here)
      && (closed ==> stopping && numJobs == 0)
      // a job waiting for a worker always has a worker alive or on its way
      // (only because each comparison and its effect are one step here)
      && (|parked| > 0 ==> numWorkers + starting + spawnChecks > 0)
    }

    /** `New`: the settings come from `Normalize`; `start` has launched two
        `startWorker` goroutines that have not run yet. */
    constructor (args: seq<Options>)
      ensures Valid()
      ensures Settings(maxWorkers, timeout, qCap) == Normalize(args)
      ensures Snapshot() == State(0, 0, false, [], None, [], [], [], 0, 2, 0, [], [], false)
      ensures accepted == [] && ran == []
    {
      var s := Normalize(args);
      maxWorkers, timeout, qCap := s.maxWorkers, s.timeout, s.qSize;
      numJobs, numWorkers, stopping := 0, 0, false;
      incoming, held, bufferedQ, parked, running := [], None, [], [], [];
      idleWorkers, starting, spawnChecks := 0, 2, 0;
      errChan, resultChan, closed := [], [], false;
      accepted, ran := [], [];
      InFlightOfStages<E, V>([], [], [], [], []);
    }

    /** Shared by the three submit entry points: rejected while stopping;
        otherwise counted once and sent on jobQ. */
    method Accept(env: Envelope<E, V>)
      requires Valid()
      modifies this
      ensures Valid()
      ensures old(stopping) ==> Snapshot() == old(Snapshot())
      ensures !old(stopping) ==>
        Snapshot() == old(Snapshot()).(numJobs := old(numJobs) + 1, incoming := old(incoming) + [env])
      ensures accepted == old(accepted) + (if old(stopping) then [] else [env]) && ran == old(ran)
    {
      if stopping {
        return;
      }
      Enqueue(env);
    }

    /** A submit that found the pool running counts the job and blocks
        sending it on jobQ. */
    method Enqueue(env: Envelope<E, V>)
      requires Valid() && !stopping
      modifies this
      ensures Valid()
      ensures Snapshot() == old(Snapshot()).(numJobs := old(numJobs) + 1, incoming := old(incoming) + [env])
      ensures accepted == old(accepted) + [env] && ran == old(ran)
    {
      AcceptConserves(accepted, ran, incoming, held, bufferedQ, parked, running, env);
      numJobs := numJobs + 1;
      incoming := incoming + [env];
      accepted := accepted + [env];
    }

    method Submit()
      requires Valid()
      modifies this
      ensures Valid()
      ensures old(stopping) ==> Snapshot() == old(Snapshot())
      ensures !old(stopping) ==>
        Snapshot() == old(Snapshot()).(numJobs := old(numJobs) + 1, incoming := old(incoming) + [Plain])
      ensures accepted == old(accepted) + (if old(stopping) then [] else [Plain]) && ran == old(ran)
    {
      Accept(Plain);
    }

    /** `err` is what the job will return when it runs. */
    method SubmitCheckError(err: Option<E>)
      requires Valid()
      modifies this
      ensures Valid()
      ensures old(stopping) ==> Snapshot() == old(Snapshot())
      ensures !old(stopping) ==>
        Snapshot() == old(Snapshot()).(numJobs := old(numJobs) + 1, incoming := old(incoming) + [CheckError(err)])
      ensures accepted == old(accepted) + (if old(stopping) then [] else [CheckError(err)]) && ran == old(ran)
    {
      Accept(CheckError(err));
    }

    /** `result` and `err` are what the job will return when it runs. */
    method SubmitCheckResult(result: V, err: Option<E>)
      requires Valid()
      modifies this
      ensures Valid()
      ensures old(stopping) ==> Snapshot() == old(Snapshot())
      ensures !old(stopping) ==>
        Snapshot() == old(Snapshot()).(numJobs := old(numJobs) + 1, incoming := old(incoming) + [CheckResult(result, err)])
      ensures accepted == old(accepted) + (if old(stopping) then [] else [CheckResult(result, err)]) && ran == old(ran)
    {
      Accept(CheckResult(result, err));
    }

    /** One pass of the dispatcher loop in `start`: receive a wrapper from
        jobQ, hand it to a worker waiting on workerQ if one is ready (and
        launch a spawn check), otherwise push it on bufferedQ, or hold it
        while bufferedQ is full. */
    method Dispatch(workerReady: bool) returns (d: Dispatched)
      requires Valid() && held.None?
      requires workerReady ==> idleWorkers > 0
      modifies this
      ensures Valid()
      ensures unchanged(this`accepted, this`ran)
      ensures old(incoming) == [] ==> d == NoJob && Snapshot() == old(Snapshot())
      ensures old(incoming) != [] && workerReady ==>
        && d == ToWorker
        && Snapshot() == old(Snapshot()).(incoming := old(incoming[1..]),
                                          running := old(running) + [old(incoming[0])],
                                          idleWorkers := old(idleWorkers) - 1,
                                          spawnChecks := old(spawnChecks) + 1)
      ensures old(incoming) != [] && !workerReady && |old(bufferedQ)| < qCap ==>
        && d == ToBuffer
        && Snapshot() == old(Snapshot()).(incoming := old(incoming[1..]),
                                          bufferedQ := old(bufferedQ) + [old(incoming[0])])
      ensures old(incoming) != [] && !workerReady && |old(bufferedQ)| >= qCap ==>
        && d == Holding
        && Snapshot() == old(Snapshot()).(incoming := old(incoming[1..]), held := Some(old(incoming[0])))
    {
      if incoming == [] {
        return NoJob;
      }
      if workerReady {
        SendToWorker();
        d := ToWorker;
      } else if |bufferedQ| < qCap {
        PushBuffered();
        d := ToBuffer;
      } else {
        HoldForBuffer();
        d := Holding;
      }
    }

    /** The dispatcher's `workerQ <- job` succeeds: the oldest sent wrapper
        goes to the waiting worker and a spawn check is launched. */
    method SendToWorker()
      requires Valid() && held.None? && incoming != [] && idleWorkers > 0
      modifies this
      ensures Valid()
      ensures unchanged(this`accepted, this`ran)
      ensures Snapshot() == old(Snapshot()).(incoming := old(incoming[1..]),
                                             running := old(running) + [old(incoming[0])],
                                             idleWorkers := old(idleWorkers) - 1,
                                             spawnChecks := old(spawnChecks) + 1)
    {
      DispatchConserves(accepted, ran, incoming, bufferedQ, parked, running, ToWorker);
      running := running + [incoming[0]];
      incoming := incoming[1..];
      idleWorkers := idleWorkers - 1;
      spawnChecks := spawnChecks + 1;
    }

    /** No worker is ready and bufferedQ has room: the oldest sent wrapper
        is buffered. */
    method PushBuffered()
      requires Valid() && held.None? && incoming != [] && |bufferedQ| < qCap
      modifies this
      ensures Valid()
      ensures unchanged(this`accepted, this`ran)
      ensures Snapshot() == old(Snapshot()).(incoming := old(incoming[1..]),
                                             bufferedQ := old(bufferedQ) + [old(incoming[0])])
    {
      DispatchConserves(accepted, ran, incoming, bufferedQ, parked, running, ToBuffer);
      bufferedQ := bufferedQ + [incoming[0]];
      incoming := incoming[1..];
    }

    /** No worker is ready and bufferedQ is full: the dispatcher blocks
        holding the oldest sent wrapper. */
    method HoldForBuffer()
      requires Valid() && held.None? && incoming != []
      modifies this
      ensures Valid()
      ensures unchanged(this`accepted, this`ran)
      ensures Snapshot() == old(Snapshot()).(incoming := old(incoming[1..]), held := Some(old(incoming[0])))
    {
      DispatchConserves(accepted, ran, incoming, bufferedQ, parked, running, Holding);
      held := Some(incoming[0]);
      incoming := incoming[1..];
    }

    /** The dispatcher's blocked push on bufferedQ completes once there is room. */
    method FlushHeld() returns (moved: bool)
      requires Valid() && held.Some?
      modifies this
      ensures Valid()
      ensures unchanged(this`accepted, this`ran)
      ensures moved == (|old(bufferedQ)| < qCap)
      ensures moved ==>
        Snapshot() == old(Snapshot()).(held := None, bufferedQ := old(bufferedQ) + [old(held.value)])
      ensures !moved ==> Snapshot() == old(Snapshot())
    {
      moved := |bufferedQ| < qCap;
      if moved {
        FlushConserves(accepted, ran, incoming, held, bufferedQ, parked, running);
        bufferedQ := bufferedQ + [held.value];
        held := None;
      }
    }

    /** One pass of the drain loop: take the oldest wrapper off bufferedQ and
        launch a goroutine that will call `spawnWorker` and then send the
        wrapper on workerQ. */
    method Drain() returns (took: bool)
      requires Valid()
      modifies this
      ensures Valid()
      ensures unchanged(this`accepted, this`ran)
      ensures took == (old(bufferedQ) != [])
      ensures took ==>
        Snapshot() == old(Snapshot()).(bufferedQ := old(bufferedQ[1..]),
                                       parked := old(parked) + [old(bufferedQ[0])],
                                       spawnChecks := old(spawnChecks) + 1)
      ensures !took ==> Snapshot() == old(Snapshot())
    {
      took := bufferedQ != [];
      if took {
        DrainConserves(accepted, ran, incoming, held, bufferedQ, parked, running);
        parked := parked + [bufferedQ[0]];
        bufferedQ := bufferedQ[1..];
        spawnChecks := spawnChecks + 1;
      }
    }

    /** `spawnWorker`: launch a worker only while the started workers are
        fewer than the ceiling. Workers already launched but not yet started
        are not counted. */
    method SpawnWorker() returns (spawned: bool)
      requires Valid() && spawnChecks > 0
      modifies this
      ensures Valid()
      ensures unchanged(this`accepted, this`ran)
      ensures spawned == (old(numWorkers) < maxWorkers)
      ensures Snapshot() == old(Snapshot()).(spawnChecks := old(spawnChecks) - 1,
                                             starting := old(starting) + (if spawned then 1 else 0))
    {
      spawned := WorkerNum() < maxWorkers;
      spawnChecks := spawnChecks - 1;
      if spawned {
        starting := starting + 1;
      }
    }

    /** A launched `startWorker` counts itself and waits for work. */
    method StartWorker()
      requires Valid() && starting > 0
      modifies this
      ensures Valid()
      ensures unchanged(this`accepted, this`ran)
      ensures Snapshot() == old(Snapshot()).(starting := old(starting) - 1,
                                             numWorkers := old(numWorkers) + 1,
                                             idleWorkers := old(idleWorkers) + 1)
    {
      starting := starting - 1;
      numWorkers := numWorkers + 1;
      idleWorkers := idleWorkers + 1;
    }

    /** The goroutine owning `parked[k]` completes its send on workerQ once a
        worker is waiting. */
    method Deliver(k: nat) returns (moved: bool)
      requires Valid() && k < |parked|
      modifies this
      ensures Valid()
      ensures unchanged(this`accepted, this`ran)
      ensures moved == (old(idleWorkers) > 0)
      ensures moved ==>
        Snapshot() == old(Snapshot()).(parked := old(parked[..k] + parked[k+1..]),
                                       running := old(running) + [old(parked[k])],
                                       idleWorkers := old(idleWorkers) - 1)
      ensures !moved ==> Snapshot() == old(Snapshot())
    {
      moved := idleWorkers > 0;
      if moved {
        DeliverConserves(accepted, ran, incoming, held, bufferedQ, parked, running, k);
        running := running + [parked[k]];
        parked := parked[..k] + parked[k+1..];
        idleWorkers := idleWorkers - 1;
      }
    }

    /** A busy worker runs its wrapper, which reports the job's outcome on
        the output channels, then decrements numJobs and waits again. In this
        model, where a submit's stopping check and its increment are one
        step, the channels it writes to are open. */
    method RunJob(w: nat)
      requires Valid() && w < |running|
      modifies this
      ensures Valid()
      ensures !old(closed)
      ensures numJobs == old(numJobs) - 1
      ensures Snapshot() == old(Snapshot()).(
        numJobs := old(numJobs) - 1,
        running := old(running[..w] + running[w+1..]),
        idleWorkers := old(idleWorkers) + 1,
        errChan := Route(old(running[w]), Outputs(old(errChan), old(resultChan))).errs,
        resultChan := Route(old(running[w]), Outputs(old(errChan), old(resultChan))).results)
      ensures accepted == old(accepted) && ran == old(ran) + [old(running[w])]
    {
      RunConserves(accepted, ran, incoming, held, bufferedQ, parked, running, w);
      var job := running[w];
      var out := Route(job, Outputs(errChan, resultChan));
      errChan, resultChan := out.errs, out.results;
      running := running[..w] + running[w+1..];
      idleWorkers := idleWorkers + 1;
      numJobs := numJobs - 1;
      ran := ran + [job];
    }

    /** An idle worker's timer fires: it retires only when there are fewer
        jobs than workers (`enoughWorkers`); otherwise its timer is reset.
        The comparison and the exit are one step here, so a retirement
        leaves at least as many workers as jobs. */
    method TimerFired() returns (retired: bool)
      requires Valid() && idleWorkers > 0
      modifies this
      ensures Valid()
      ensures unchanged(this`accepted, this`ran)
      ensures retired == (old(numJobs) < old(numWorkers))
      ensures retired ==>
        Snapshot() == old(Snapshot()).(numWorkers := old(numWorkers) - 1, idleWorkers := old(idleWorkers) - 1)
      ensures !retired ==> Snapshot() == old(Snapshot())
      ensures retired ==> numWorkers >= numJobs
    {
      retired := JobNum() < WorkerNum();
      if retired {
        numWorkers := numWorkers - 1;
        idleWorkers := idleWorkers - 1;
      }
    }

    /** An idle worker whose receive on workerQ reports the channel closed
        exits without running anything. */
    method ExitOnClose() returns (exited: bool)
      requires Valid() && idleWorkers > 0
      modifies this
      ensures Valid()
      ensures unchanged(this`accepted, this`ran)
      ensures exited == old(closed)
      ensures exited ==>
        Snapshot() == old(Snapshot()).(numWorkers := old(numWorkers) - 1, idleWorkers := old(idleWorkers) - 1)
      ensures !exited ==> Snapshot() == old(Snapshot())
    {
      exited := closed;
      if exited {
        numWorkers := numWorkers - 1;
        idleWorkers := idleWorkers - 1;
      }
    }

    /** `Stop`: the compare-and-swap on `stopping`. Only the call that moves
        it from unset to set proceeds (to `StopPoll`); any other call changes
        nothing. */
    method Stop() returns (proceeds: bool)
      requires Valid()
      modifies this
      ensures Valid()
      ensures unchanged(this`accepted, this`ran)
      ensures proceeds == !old(stopping)
      ensures Snapshot() == old(Snapshot()).(stopping := true)
      ensures !proceeds ==> Snapshot() == old(Snapshot())
    {
      proceeds := !stopping;
      if proceeds {
        stopping := true;
      }
    }

    /** One iteration of the proceeding `Stop` call's polling loop: while
        jobs are outstanding it sleeps; at zero it signals `terminate`, closes
        jobQ, and the dispatcher's deferred teardown closes bufferedQ,
        workerQ, ErrChan and ResultChan. Nothing is queued, held or running
        when the channels close. */
    method StopPoll() returns (tornDown: bool)
      requires Valid() && stopping && !closed
      modifies this
      ensures Valid()
      ensures unchanged(this`accepted, this`ran)
      ensures tornDown == (old(numJobs) == 0)
      ensures tornDown ==> Snapshot() == old(Snapshot()).(closed := true)
      ensures !tornDown ==> Snapshot() == old(Snapshot())
      ensures tornDown ==>
        incoming == [] && held.None? && bufferedQ == [] && parked == [] && running == []
      ensures tornDown ==> multiset(ran) == multiset(accepted)
    {
      tornDown := JobNum() == 0;
      if tornDown {
        EmptyConserves(accepted, ran);
        closed := true;
      }
    }

    /** A caller's receive on ErrChan: never a nil error. */
    method ReceiveError() returns (r: Recv<Option<E>>)
      requires Valid()
      modifies this
      ensures Valid()
      ensures unchanged(this`accepted, this`ran)
      ensures r.Received? ==> r.value.Some?
      ensures old(errChan) != [] ==>
        r == Received(old(errChan[0])) && Snapshot() == old(Snapshot()).(errChan := old(errChan[1..]))
      ensures old(errChan) == [] ==>
        Snapshot() == old(Snapshot()) && r == (if closed then ClosedEmpty else WouldBlock)
    {
      if errChan != [] {
        r := Received(errChan[0]);
        errChan := errChan[1..];
      } else {
        r := if closed then ClosedEmpty else WouldBlock;
      }
    }

    /** A caller's receive on ResultChan. */
    method ReceiveResult() returns (r: Recv<V>)
      requires Valid()
      modifies this
      ensures Valid()
      ensures unchanged(this`accepted, this`ran)
      ensures old(resultChan) != [] ==>
        r == Received(old(resultChan[0])) && Snapshot() == old(Snapshot()).(resultChan := old(resultChan[1..]))
      ensures old(resultChan) == [] ==>
        Snapshot() == old(Snapshot()) && r == (if closed then ClosedEmpty else WouldBlock)
    {
      if resultChan != [] {
        r := Received(resultChan[0]);
        resultChan := resultChan[1..];
      } else {
        r := if closed then ClosedEmpty else WouldBlock;
      }
    }
  }

  /** Quiescence: no outstanding job is exactly the state in which nothing is
      waiting to be dispatched, buffered, parked or running. */
  lemma QuiescentIffNoJobs<E, V>(gw: GoWorkers<E, V>)
    requires gw.Valid()
    ensures gw.numJobs == 0 <==>
      gw.incoming == [] && gw.held.None? && gw.bufferedQ == [] && gw.parked == [] && gw.running == []
  {
  }

  /** In this model, where a submit's stopping check and its increment are
      one step, no worker is busy after teardown, so nothing writes to a
      closed output channel, and every started worker is idle. */
  lemma ClosedMeansNoWriter<E, V>(gw: GoWorkers<E, V>)
    requires gw.Valid() && gw.closed
    ensures gw.running == [] && gw.numWorkers == gw.idleWorkers && gw.stopping
  {
  }
}
