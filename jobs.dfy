/** Job envelopes and the routing of a job's outcome to the two bounded
    output channels. A job body is opaque; an envelope records the submission
    protocol and what the job returns when it runs. */
module Jobs {
  import opened Config

  datatype Option<T> = None | Some(value: T)

  /** A wrapped job, by the entry point that submitted it. `err == None`
      stands for a nil error. */
  datatype Envelope<E, V> =
    | Plain                                   // Submit: returns nothing
    | CheckError(err: Option<E>)              // SubmitCheckError: returns an error
    | CheckResult(result: V, err: Option<E>)  // SubmitCheckResult: returns a value and an error

  /** The contents of ErrChan and ResultChan. ErrChan is typed with the nil
      error so that "nil is never sent" is a property, not a typing accident. */
  datatype Outputs<E, V> = Outputs(errs: seq<Option<E>>, results: seq<V>)

  /** The channel invariant: each channel within capacity, no nil error. */
  ghost predicate WellFormed<E, V>(out: Outputs<E, V>) {
    && |out.errs| <= OutputChanSize
    && |out.results| <= OutputChanSize
    && forall i :: 0 <= i < |out.errs| ==> out.errs[i].Some?
  }

  /** A send inside `select` with an empty `default`: the value is buffered
      when the channel has room and discarded otherwise. */
  function TrySend<T>(ch: seq<T>, x: T): (r: seq<T>)
    ensures |ch| < OutputChanSize ==> r == ch + [x]
    ensures |ch| >= OutputChanSize ==> r == ch
  {
    if |ch| < OutputChanSize then ch + [x] else ch
  }

  /** What running the wrapper of `env` does to the output channels. */
  function Route<E, V>(env: Envelope<E, V>, out: Outputs<E, V>): (out': Outputs<E, V>)
    // never both channels
    ensures out'.errs == out.errs || out'.results == out.results
    // a plain job reports nothing
    ensures env.Plain? ==> out' == out
    // an error is offered to ErrChan only, and buffered exactly when there is room
    ensures !env.Plain? && env.err.Some? ==>
      && out'.results == out.results
      && (out'.errs == out.errs + [env.err] <==> |out.errs| < OutputChanSize)
      && (out'.errs == out.errs <==> |out.errs| >= OutputChanSize)
    // a nil error from SubmitCheckError reports nothing
    ensures env.CheckError? && env.err.None? ==> out' == out
    // a nil error from SubmitCheckResult offers the value to ResultChan only
    ensures env.CheckResult? && env.err.None? ==>
      && out'.errs == out.errs
      && (out'.results == out.results + [env.result] <==> |out.results| < OutputChanSize)
      && (out'.results == out.results <==> |out.results| >= OutputChanSize)
    ensures WellFormed(out) ==> WellFormed(out')
  {
    match env
    case Plain => out
    case CheckError(err) =>
      if err.Some? then out.(errs := TrySend(out.errs, err)) else out
    case CheckResult(result, err) =>
      if err.Some? then out.(errs := TrySend(out.errs, err))
      else out.(results := TrySend(out.results, result))
  }

  /** The channels after running the wrappers of `envs` one after another. */
  function RunAll<E, V>(envs: seq<Envelope<E, V>>, out: Outputs<E, V>): (out': Outputs<E, V>)
    decreases |envs|
  {
    if envs == [] then out else RunAll(envs[1..], Route(envs[0], out))
  }

  /** The non-nil errors of `envs`, in order: what ErrChan should see. */
  function Errors<E, V>(envs: seq<Envelope<E, V>>): (errs: seq<Option<E>>)
    decreases |envs|
  {
    if envs == [] then []
    else (if !envs[0].Plain? && envs[0].err.Some? then [envs[0].err] else []) + Errors(envs[1..])
  }

  /** The values of `envs` submitted with SubmitCheckResult that returned a
      nil error, in order: what ResultChan should see. */
  function Results<E, V>(envs: seq<Envelope<E, V>>): (results: seq<V>)
    decreases |envs|
  {
    if envs == [] then []
    else (if envs[0].CheckResult? && envs[0].err.None? then [envs[0].result] else []) + Results(envs[1..])
  }

  /** However many wrappers run against unread channels, neither channel
      exceeds its capacity, no nil error is buffered, and the channels grow by
      at most one item per job in all. */
  lemma {:induction false} RunAllKeepsChannelsBounded<E, V>(envs: seq<Envelope<E, V>>, out: Outputs<E, V>)
    requires WellFormed(out)
    ensures WellFormed(RunAll(envs, out))
    ensures |RunAll(envs, out).errs| + |RunAll(envs, out).results| <= |out.errs| + |out.results| + |envs|
    ensures |RunAll(envs, out).errs| >= |out.errs| && |RunAll(envs, out).results| >= |out.results|
    decreases |envs|
  {
    if envs != [] {
      RunAllKeepsChannelsBounded(envs[1..], Route(envs[0], out));
    }
  }

  /** When the channels have room for every outcome, nothing is dropped:
      ErrChan receives exactly the non-nil errors and ResultChan exactly the
      values of the error-free SubmitCheckResult jobs, each in order. */
  lemma {:induction false} RunAllDeliversWhenRoom<E, V>(envs: seq<Envelope<E, V>>, out: Outputs<E, V>)
    requires |out.errs| + |Errors(envs)| <= OutputChanSize
    requires |out.results| + |Results(envs)| <= OutputChanSize
    ensures RunAll(envs, out) == Outputs(out.errs + Errors(envs), out.results + Results(envs))
    decreases |envs|
  {
    if envs != [] {
      var out' := Route(envs[0], out);
      RunAllDeliversWhenRoom(envs[1..], out');
      var e0 := if !envs[0].Plain? && envs[0].err.Some? then [envs[0].err] else [];
      var r0 := if envs[0].CheckResult? && envs[0].err.None? then [envs[0].result] else [];
      assert out' == Outputs(out.errs + e0, out.results + r0);
      assert out.errs + e0 + Errors(envs[1..]) == out.errs + Errors(envs);
      assert out.results + r0 + Results(envs[1..]) == out.results + Results(envs);
    }
  }

  /** Every SubmitCheckResult job has exactly one outcome to report: its
      error, or else its value. */
  lemma {:induction false} CheckResultReportsOnce<E, V>(envs: seq<Envelope<E, V>>)
    requires forall i :: 0 <= i < |envs| ==> envs[i].CheckResult?
    ensures |Errors(envs)| + |Results(envs)| == |envs|
    decreases |envs|
  {
    if envs != [] {
      CheckResultReportsOnce(envs[1..]);
    }
  }

  /** SubmitCheckError jobs never write to ResultChan, whatever the state of
      the channels, and add at most one error each to ErrChan. */
  lemma {:induction false} CheckErrorReportsNoResult<E, V>(envs: seq<Envelope<E, V>>, out: Outputs<E, V>)
    requires forall i :: 0 <= i < |envs| ==> envs[i].CheckError?
    ensures RunAll(envs, out).results == out.results
    ensures |RunAll(envs, out).errs| <= |out.errs| + |envs|
    ensures Results(envs) == []
    ensures |Errors(envs)| <= |envs|
    decreases |envs|
  {
    if envs != [] {
      CheckErrorReportsNoResult(envs[1..], Route(envs[0], out));
    }
  }
}
