/**
 * The batch-write retry driver `writeItems` (ddb_eventprocessor.js lines 81-98).
 *
 * Each call submits its request map, then the callback looks at the outcome:
 * a call-level error reports `context.fail`, an empty `UnprocessedItems` reports
 * `context.succeed`, and a non-empty one schedules another call on exactly the
 * unprocessed items with `retries + 1`, after the delay of `Backoff.Delay`.
 *
 * The retry call passes no `context`. In the retried call every branch of the
 * callback then dereferences an undefined `context` and throws, which is the
 * report `ContextLost`. `Drive` takes a `RetryCall` so that both the code as
 * written (`DropsContext`) and the evidently intended code (`PassesContext`)
 * can be stated; `WriteItems` is the code as written.
 */
module Driver {
  import opened Rows
  import opened Backoff
  import opened Wrappers

  /** What `doc.batchWrite` hands to its callback. */
  datatype Response = CallError(err: string) | Written(unprocessed: Batch)

  /**
   * What one attempt meets: the backend's response, and what
   * `context.getRemainingTimeInMillis()` would return in its callback.
   */
  datatype Attempt = Attempt(response: Response, remainingMs: int)

  /** How the driver ended; `Pending` means the attempts given ran out while a call was outstanding. */
  datatype Report = Succeeded | Failed(err: string) | ContextLost | Pending

  /** One call of `writeItems`: the request map it submits and its `retries` argument. */
  datatype Submission = Submission(items: Batch, retries: nat)

  /** Everything a run of the driver did: its submissions in order, the delays it scheduled, its report. */
  datatype Trace = Trace(submitted: seq<Submission>, delays: seq<int>, report: Report)

  /** Whether the retry at line 91 hands `context` on (it does not, as written). */
  datatype RetryCall = DropsContext | PassesContext

  /**
   * The callback's decision (lines 84-94): a final report, or None to retry.
   * Without a context every branch throws before it can report.
   */
  function Settle(response: Response, hasContext: bool): (r: Option<Report>)
    ensures r.None? <==> hasContext && response.Written? && |response.unprocessed| > 0
    ensures r == Some(Succeeded) <==> hasContext && response == Written(map[])
    ensures r == Some(ContextLost) <==> !hasContext
    ensures forall e :: r == Some(Failed(e)) <==> hasContext && response == CallError(e)
  {
    if !hasContext then Some(ContextLost)
    else match response
      case CallError(e) => Some(Failed(e))
      case Written(u) => if |u| == 0 then Some(Succeeded) else None
  }

  /** Whether the call at step k of a run has a context: the first always has the caller's. */
  function ContextAt(k: nat, hasContext: bool, mode: RetryCall): bool {
    if k == 0 then hasContext else mode == PassesContext
  }

  /** The run of `writeItems(pending, retries, context)` against the attempts `env`, one per call. */
  function Drive(pending: Batch, retries: nat, hasContext: bool, env: seq<Attempt>, mode: RetryCall): (t: Trace)
    ensures |t.submitted| >= 1 && t.submitted[0] == Submission(pending, retries)
    decreases |env|
  {
    var here := Submission(pending, retries);
    if env == [] then Trace([here], [], Pending)
    else match Settle(env[0].response, hasContext)
      case Some(report) => Trace([here], [], report)
      case None =>
        var delay := Delay(retries, env[0].remainingMs);
        var rest := Drive(env[0].response.unprocessed, retries + 1, mode == PassesContext, env[1..], mode);
        Trace([here] + rest.submitted, [delay] + rest.delays, rest.report)
  }

  /** The shape of every run: one submission per call, one delay between two calls, starting with the caller's map. */
  lemma {:induction false} DriveShape(pending: Batch, retries: nat, hasContext: bool, env: seq<Attempt>, mode: RetryCall)
    ensures var t := Drive(pending, retries, hasContext, env, mode);
      1 <= |t.submitted| <= |env| + 1 &&
      |t.delays| == |t.submitted| - 1 &&
      t.submitted[0] == Submission(pending, retries) &&
      (t.report == Pending <==> |t.submitted| == |env| + 1)
    decreases |env|
  {
    if env != [] && Settle(env[0].response, hasContext).None? {
      DriveShape(env[0].response.unprocessed, retries + 1, mode == PassesContext, env[1..], mode);
    }
  }

  /**
   * What happens at call k of a run: if another call follows, attempt k left a non-empty
   * unprocessed map, the next call submits exactly that map with retries one higher, and the
   * delay is the backoff for call k; if call k is the last one and answered, its callback's
   * decision is the report.
   */
  lemma {:induction false} DriveStep(pending: Batch, retries: nat, hasContext: bool, env: seq<Attempt>, mode: RetryCall, k: nat)
    requires k < |Drive(pending, retries, hasContext, env, mode).submitted|
    ensures var t := Drive(pending, retries, hasContext, env, mode);
      |t.delays| == |t.submitted| - 1 &&
      t.submitted[k].retries == retries + k &&
      (k + 1 < |t.submitted| ==>
        k < |env| &&
        Settle(env[k].response, ContextAt(k, hasContext, mode)).None? &&
        t.submitted[k + 1] == Submission(env[k].response.unprocessed, retries + k + 1) &&
        t.delays[k] == Delay(retries + k, env[k].remainingMs)) &&
      (k + 1 == |t.submitted| && k < |env| ==>
        Settle(env[k].response, ContextAt(k, hasContext, mode)) == Some(t.report))
    decreases k
  {
    DriveShape(pending, retries, hasContext, env, mode);
    if k > 0 {
      assert env != [] && Settle(env[0].response, hasContext).None?;
      var u := env[0].response.unprocessed;
      DriveStep(u, retries + 1, mode == PassesContext, env[1..], mode, k - 1);
      if k < |env| { assert env[1..][k - 1] == env[k]; }
    }
  }

  /** A call-level error ends the run at that call: nothing is submitted or scheduled after it. */
  lemma CallErrorEndsDriver(pending: Batch, retries: nat, hasContext: bool, env: seq<Attempt>, mode: RetryCall, k: nat)
    requires k < |env| && env[k].response.CallError?
    requires k < |Drive(pending, retries, hasContext, env, mode).submitted|
    ensures var t := Drive(pending, retries, hasContext, env, mode);
      |t.submitted| == k + 1 && |t.delays| == k &&
      t.report == (if ContextAt(k, hasContext, mode) then Failed(env[k].response.err) else ContextLost)
  {
    DriveShape(pending, retries, hasContext, env, mode);
    DriveStep(pending, retries, hasContext, env, mode, k);
  }

  /** An empty unprocessed map ends the run at that call, with success when the call has its context. */
  lemma EmptyUnprocessedEndsDriver(pending: Batch, retries: nat, hasContext: bool, env: seq<Attempt>, mode: RetryCall, k: nat)
    requires k < |env| && env[k].response == Written(map[])
    requires k < |Drive(pending, retries, hasContext, env, mode).submitted|
    ensures var t := Drive(pending, retries, hasContext, env, mode);
      |t.submitted| == k + 1 && |t.delays| == k &&
      t.report == (if ContextAt(k, hasContext, mode) then Succeeded else ContextLost)
  {
    DriveShape(pending, retries, hasContext, env, mode);
    DriveStep(pending, retries, hasContext, env, mode, k);
  }

  /**
   * A non-empty unprocessed map at a call that has its context leads to exactly one further
   * call, which submits that map and nothing else, with retries one higher.
   */
  lemma RetryCarriesOnlyUnprocessed(pending: Batch, retries: nat, hasContext: bool, env: seq<Attempt>, mode: RetryCall, k: nat)
    requires k < |env| && env[k].response.Written? && |env[k].response.unprocessed| > 0
    requires ContextAt(k, hasContext, mode)
    requires k < |Drive(pending, retries, hasContext, env, mode).submitted|
    ensures var t := Drive(pending, retries, hasContext, env, mode);
      k + 1 < |t.submitted| && |t.delays| == |t.submitted| - 1 &&
      t.submitted[k + 1] == Submission(env[k].response.unprocessed, retries + k + 1) &&
      t.delays[k] == Delay(retries + k, env[k].remainingMs)
  {
    DriveShape(pending, retries, hasContext, env, mode);
    DriveStep(pending, retries, hasContext, env, mode, k);
  }

  /** Appends a finished prefix of submissions and delays in front of a run. */
  function Extend(submitted: seq<Submission>, delays: seq<int>, t: Trace): Trace {
    Trace(submitted + t.submitted, delays + t.delays, t.report)
  }

  /** `writeItems` as written, its re-invocations unrolled into a loop. */
  method WriteItems(items: Batch, retries: nat, hasContext: bool, env: seq<Attempt>) returns (t: Trace)
    ensures t == Drive(items, retries, hasContext, env, DropsContext)
  {
    var pending, r, ctx, k := items, retries, hasContext, 0;
    var submitted: seq<Submission>, delays: seq<int> := [], [];
    while k < |env| && Settle(env[k].response, ctx).None?
      invariant 0 <= k <= |env|
      invariant Drive(items, retries, hasContext, env, DropsContext)
             == Extend(submitted, delays, Drive(pending, r, ctx, env[k..], DropsContext))
      decreases |env| - k
    {
      assert env[k..][1..] == env[k + 1..];
      submitted := submitted + [Submission(pending, r)];
      delays := delays + [Delay(r, env[k].remainingMs)];
      pending := env[k].response.unprocessed;
      // line 91: `writeItems(data.UnprocessedItems, retries + 1)`, without `context`
      r, ctx := r + 1, false;
      k := k + 1;
    }
    var report := if k == |env| then Pending else Settle(env[k].response, ctx).value;
    t := Trace(submitted + [Submission(pending, r)], delays, report);
  }

  /** As written, a run makes at most two calls, and a run that retried never succeeds. */
  lemma AsWrittenAtMostOneRetry(pending: Batch, retries: nat, hasContext: bool, env: seq<Attempt>)
    ensures var t := Drive(pending, retries, hasContext, env, DropsContext);
      |t.submitted| <= 2 &&
      (|t.submitted| == 2 ==> t.report == ContextLost || t.report == Pending)
  {
  }

  /** The counterexample: a partial failure followed by an accepted retry ends in ContextLost as written, in success as intended. */
  lemma RetryLosesContext(pending: Batch, u: Batch, remainingMs: int, laterMs: int)
    requires |u| > 0
    ensures var env := [Attempt(Written(u), remainingMs), Attempt(Written(map[]), laterMs)];
      Drive(pending, 0, true, env, DropsContext).report == ContextLost &&
      Drive(pending, 0, true, env, PassesContext).report == Succeeded
  {
  }

  /**
   * With the context handed on, a backend that answers without call errors and eventually
   * returns an empty unprocessed map drives the run to success.
   */
  lemma {:induction false} IntendedConverges(pending: Batch, retries: nat, env: seq<Attempt>, n: nat)
    requires n < |env| && env[n].response == Written(map[])
    requires forall k :: 0 <= k < n ==> env[k].response.Written?
    ensures var t := Drive(pending, retries, true, env, PassesContext);
      t.report == Succeeded && |t.submitted| <= n + 1
    decreases n
  {
    if n > 0 && Settle(env[0].response, true).None? {
      assert forall k :: 0 <= k < n - 1 ==> env[1..][k] == env[k + 1];
      IntendedConverges(env[0].response.unprocessed, retries + 1, env[1..], n - 1);
    }
  }

  /**
   * With the context handed on and at least `2^(retries+k) * 100 + 200` ms left at every retry,
   * retry k waits exactly `100 * 2^(retries+k)` ms, twice the wait before it.
   */
  lemma IntendedBackoffExact(pending: Batch, retries: nat, env: seq<Attempt>, k: nat)
    requires k < |Drive(pending, retries, true, env, PassesContext).delays|
    requires forall j :: 0 <= j <= k && j < |env| ==> env[j].remainingMs - 200 >= Pow2(retries + j) * 100
    ensures var t := Drive(pending, retries, true, env, PassesContext);
      t.delays[k] == 100 * Pow2(retries + k) &&
      (k > 0 ==> t.delays[k] == 2 * t.delays[k - 1])
  {
    DriveShape(pending, retries, true, env, PassesContext);
    DriveStep(pending, retries, true, env, PassesContext, k);
    if k > 0 {
      DriveStep(pending, retries, true, env, PassesContext, k - 1);
    }
  }
}
