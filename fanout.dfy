/**
 * The fanout delivery engine: one retry-controlled delivery run per partner
 * target, exponential backoff between attempts, and the per-target
 * last-error map read by the health view.
 *
 * The sender is modelled by its answers: a run against a target is given
 * the outcome of each attempt it may make, in order.  A failed outcome
 * carries the timestamp read from the clock right after that failure.
 * The sleeper is modelled by the delays it is asked for.
 */
module Fanout {
  import opened Wrappers
  import opened Partner
  import opened Config

  datatype Outcome = Delivered | Failed(at: string)

  /** One call of the sender: the target, the payload, and the per-attempt timeout. */
  datatype SendCall<P> = SendCall(target: PartnerTarget, payload: P, timeoutSeconds: real)

  /** `2 ** k`. */
  function Pow2(k: nat): (r: nat)
    ensures r >= 1
  {
    if k == 0 then 1 else 2 * Pow2(k - 1)
  }

  /** The delay slept after failed attempt `attempt` (0-based), before the next one. */
  function BackoffDelay(base: real, attempt: nat): real {
    base * (Pow2(attempt) as real)
  }

  /** The first `n` delays of a run, in order. */
  function Backoffs(base: real, n: nat): (r: seq<real>)
    ensures |r| == n
  {
    if n == 0 then [] else Backoffs(base, n - 1) + [BackoffDelay(base, n - 1)]
  }

  /** The k-th sleep of a run (0-based) is `base * 2**k`. */
  lemma {:induction false} BackoffsAt(base: real, n: nat, k: nat)
    requires k < n
    ensures Backoffs(base, n)[k] == base * (Pow2(k) as real)
  {
    if k < n - 1 {
      BackoffsAt(base, n - 1, k);
    }
  }

  /** Each delay is twice the one before: base, 2 base, 4 base, ... */
  lemma {:induction false} BackoffDoubles(base: real, n: nat, k: nat)
    requires 1 <= k < n
    ensures Backoffs(base, n)[0] == base
    ensures Backoffs(base, n)[k] == 2.0 * Backoffs(base, n)[k - 1]
  {
    BackoffsAt(base, n, 0);
    BackoffsAt(base, n, k);
    BackoffsAt(base, n, k - 1);
    assert (Pow2(k) as real) == 2.0 * (Pow2(k - 1) as real);
  }

  /** With a zero base every delay is zero (the tests' setting). */
  lemma {:induction false} ZeroBackoff(n: nat)
    ensures forall k :: 0 <= k < n ==> Backoffs(0.0, n)[k] == 0.0
  {
    forall k | 0 <= k < n ensures Backoffs(0.0, n)[k] == 0.0 {
      BackoffsAt(0.0, n, k);
    }
  }

  /** Number of attempts a run makes when it has reached attempt `k`. */
  function AttemptsFrom(replies: seq<Outcome>, maxRetries: nat, k: nat): (n: nat)
    requires k <= maxRetries < |replies|
    ensures k < n <= maxRetries + 1
    decreases maxRetries - k
  {
    if replies[k].Delivered? || k == maxRetries then k + 1 else AttemptsFrom(replies, maxRetries, k + 1)
  }

  /** Number of sender calls of one run. */
  function Attempts(replies: seq<Outcome>, maxRetries: nat): (n: nat)
    requires maxRetries < |replies|
    ensures 1 <= n <= maxRetries + 1
  {
    AttemptsFrom(replies, maxRetries, 0)
  }

  /**
   * The run stops at the first delivery, or after `maxRetries + 1` attempts:
   * every attempt but the last failed, and the last one either delivered or
   * used up the budget.
   */
  lemma {:induction false} AttemptsFromSpec(replies: seq<Outcome>, maxRetries: nat, k: nat)
    requires k <= maxRetries < |replies|
    requires forall j :: 0 <= j < k ==> replies[j].Failed?
    ensures var n := AttemptsFrom(replies, maxRetries, k);
      && k + 1 <= n <= maxRetries + 1
      && (forall j :: 0 <= j < n - 1 ==> replies[j].Failed?)
      && (replies[n - 1].Delivered? || n == maxRetries + 1)
    decreases maxRetries - k
  {
    if !(replies[k].Delivered? || k == maxRetries) {
      AttemptsFromSpec(replies, maxRetries, k + 1);
    }
  }

  lemma AttemptsSpec(replies: seq<Outcome>, maxRetries: nat)
    requires maxRetries < |replies|
    ensures var n := Attempts(replies, maxRetries);
      && 1 <= n <= maxRetries + 1
      && (forall j :: 0 <= j < n - 1 ==> replies[j].Failed?)
      && (replies[n - 1].Delivered? || n == maxRetries + 1)
  {
    AttemptsFromSpec(replies, maxRetries, 0);
  }

  /**
   * The whole budget of `maxRetries + 1` calls is used exactly when the
   * first `maxRetries` attempts fail; the run ends without a delivery
   * exactly when all of them fail.
   */
  lemma AttemptBudget(replies: seq<Outcome>, maxRetries: nat)
    requires maxRetries < |replies|
    ensures Attempts(replies, maxRetries) == maxRetries + 1 <==> forall j :: 0 <= j < maxRetries ==> replies[j].Failed?
    ensures replies[Attempts(replies, maxRetries) - 1].Failed? <==> forall j :: 0 <= j <= maxRetries ==> replies[j].Failed?
  {
    AttemptsSpec(replies, maxRetries);
  }

  /** The last-error map after one run: cleared for the target on delivery, its last failure time otherwise. */
  function ErrorsAfterRun(errs: map<string, string>, name: string, replies: seq<Outcome>, maxRetries: nat): map<string, string>
    requires maxRetries < |replies|
  {
    var last := replies[Attempts(replies, maxRetries) - 1];
    if last.Delivered? then errs - {name} else errs[name := last.at]
  }

  /** The last-error map of a run that has failed its first `k` attempts. */
  function ErrorsAfterFailures(errs: map<string, string>, name: string, replies: seq<Outcome>, k: nat): map<string, string>
    requires k <= |replies|
    requires 0 < k ==> replies[k - 1].Failed?
  {
    if k == 0 then errs else errs[name := replies[k - 1].at]
  }

  /** A run that stops at attempt `k` leaves the map that `ErrorsAfterRun` describes. */
  lemma RunStopsAt(errs: map<string, string>, name: string, replies: seq<Outcome>, maxRetries: nat, k: nat)
    requires k <= maxRetries < |replies|
    requires 0 < k ==> replies[k - 1].Failed?
    requires Attempts(replies, maxRetries) == k + 1
    ensures replies[k].Delivered? ==>
      ErrorsAfterRun(errs, name, replies, maxRetries) == ErrorsAfterFailures(errs, name, replies, k) - {name}
    ensures replies[k].Failed? ==>
      ErrorsAfterRun(errs, name, replies, maxRetries) == ErrorsAfterFailures(errs, name, replies, k)[name := replies[k].at]
  {
    if replies[k].Delivered? && k > 0 {
      assert errs[name := replies[k - 1].at] - {name} == errs - {name};
    }
    if replies[k].Failed? && k > 0 {
      assert errs[name := replies[k - 1].at][name := replies[k].at] == errs[name := replies[k].at];
    }
  }

  /** A run that used its whole budget ends with the time of its final failure. */
  lemma RunExhausted(errs: map<string, string>, name: string, replies: seq<Outcome>, maxRetries: nat)
    requires maxRetries < |replies| && replies[maxRetries].Failed?
    requires Attempts(replies, maxRetries) == maxRetries + 1
    ensures ErrorsAfterRun(errs, name, replies, maxRetries) == ErrorsAfterFailures(errs, name, replies, maxRetries + 1)
  {
  }

  /**
   * After a run the target's entry is absent exactly when some attempt in
   * the budget delivered (even after earlier failures); otherwise it holds
   * the time of the final failed attempt.  No other key changes.
   */
  lemma RunOutcome(errs: map<string, string>, name: string, replies: seq<Outcome>, maxRetries: nat)
    requires maxRetries < |replies|
    ensures name !in ErrorsAfterRun(errs, name, replies, maxRetries) <==> exists j :: 0 <= j <= maxRetries && replies[j].Delivered?
    ensures name in ErrorsAfterRun(errs, name, replies, maxRetries) ==>
      replies[maxRetries].Failed? && ErrorsAfterRun(errs, name, replies, maxRetries)[name] == replies[maxRetries].at
    ensures forall k :: k != name ==>
      (k in ErrorsAfterRun(errs, name, replies, maxRetries) <==> k in errs)
      && (k in errs ==> ErrorsAfterRun(errs, name, replies, maxRetries)[k] == errs[k])
  {
    AttemptsSpec(replies, maxRetries);
    AttemptBudget(replies, maxRetries);
  }

  /** The sender calls of one run. */
  function RunCalls<P>(target: PartnerTarget, payload: P, timeoutSeconds: real, n: nat): (r: seq<SendCall<P>>)
    ensures |r| == n
  {
    if n == 0 then [] else RunCalls(target, payload, timeoutSeconds, n - 1) + [SendCall(target, payload, timeoutSeconds)]
  }

  /** Every call of a run goes to the same target, with the same payload and timeout. */
  lemma {:induction false} RunCallsAt<P>(target: PartnerTarget, payload: P, timeoutSeconds: real, n: nat, k: nat)
    requires k < n
    ensures RunCalls(target, payload, timeoutSeconds, n)[k] == SendCall(target, payload, timeoutSeconds)
  {
    if k < n - 1 {
      RunCallsAt(target, payload, timeoutSeconds, n - 1, k);
    }
  }

  /** Well-formed answers for a whole fanout: one script per target, each covering the budget. */
  ghost predicate ScriptsCover(targets: seq<PartnerTarget>, replies: seq<seq<Outcome>>, maxRetries: nat) {
    |replies| == |targets| && forall i :: 0 <= i < |replies| ==> maxRetries < |replies[i]|
  }

  /** The last-error map after the runs for `targets`, made one after the other in order. */
  function ErrorsAfterRuns(errs: map<string, string>, targets: seq<PartnerTarget>, replies: seq<seq<Outcome>>, maxRetries: nat): map<string, string>
    requires ScriptsCover(targets, replies, maxRetries)
    decreases |targets|
  {
    if targets == [] then errs
    else
      var n := |targets| - 1;
      ErrorsAfterRun(ErrorsAfterRuns(errs, targets[..n], replies[..n], maxRetries), targets[n].name, replies[n], maxRetries)
  }

  /** All sender calls of the runs for `targets`, in order. */
  function CallsOfRuns<P>(targets: seq<PartnerTarget>, payload: P, timeoutSeconds: real, replies: seq<seq<Outcome>>, maxRetries: nat): seq<SendCall<P>>
    requires ScriptsCover(targets, replies, maxRetries)
    decreases |targets|
  {
    if targets == [] then []
    else
      var n := |targets| - 1;
      CallsOfRuns(targets[..n], payload, timeoutSeconds, replies[..n], maxRetries)
        + RunCalls(targets[n], payload, timeoutSeconds, Attempts(replies[n], maxRetries))
  }

  /** All delays slept by the runs for `targets`, in order. */
  function SleepsOfRuns(targets: seq<PartnerTarget>, base: real, replies: seq<seq<Outcome>>, maxRetries: nat): seq<real>
    requires ScriptsCover(targets, replies, maxRetries)
    decreases |targets|
  {
    if targets == [] then []
    else
      var n := |targets| - 1;
      SleepsOfRuns(targets[..n], base, replies[..n], maxRetries) + Backoffs(base, Attempts(replies[n], maxRetries) - 1)
  }

  /**
   * The totals of a fanout: between one and `maxRetries + 1` calls per
   * target, at most `maxRetries` sleeps per target, and one sleep fewer
   * than calls for every target.
   */
  lemma {:induction false} FanoutVolume<P>(targets: seq<PartnerTarget>, payload: P, timeoutSeconds: real, base: real,
                                            replies: seq<seq<Outcome>>, maxRetries: nat)
    requires ScriptsCover(targets, replies, maxRetries)
    ensures |targets| <= |CallsOfRuns(targets, payload, timeoutSeconds, replies, maxRetries)| <= |targets| * (maxRetries + 1)
    ensures |SleepsOfRuns(targets, base, replies, maxRetries)| <= |targets| * maxRetries
    ensures |SleepsOfRuns(targets, base, replies, maxRetries)| + |targets| == |CallsOfRuns(targets, payload, timeoutSeconds, replies, maxRetries)|
    decreases |targets|
  {
    if targets != [] {
      var n := |targets| - 1;
      FanoutVolume(targets[..n], payload, timeoutSeconds, base, replies[..n], maxRetries);
      var a := Attempts(replies[n], maxRetries);
      assert |CallsOfRuns(targets, payload, timeoutSeconds, replies, maxRetries)|
        == |CallsOfRuns(targets[..n], payload, timeoutSeconds, replies[..n], maxRetries)| + a;
      assert |SleepsOfRuns(targets, base, replies, maxRetries)|
        == |SleepsOfRuns(targets[..n], base, replies[..n], maxRetries)| + (a - 1);
      VolumeStep(|CallsOfRuns(targets[..n], payload, timeoutSeconds, replies[..n], maxRetries)|,
        |SleepsOfRuns(targets[..n], base, replies[..n], maxRetries)|, n, a, maxRetries);
    }
  }

  /** The calls of the runs for a prefix of the targets come first in the calls of all runs. */
  lemma {:induction false} CallsPrefix<P>(targets: seq<PartnerTarget>, payload: P, timeoutSeconds: real,
                                          replies: seq<seq<Outcome>>, maxRetries: nat, j: nat)
    requires ScriptsCover(targets, replies, maxRetries) && j <= |targets|
    ensures ScriptsCover(targets[..j], replies[..j], maxRetries)
    ensures CallsOfRuns(targets[..j], payload, timeoutSeconds, replies[..j], maxRetries)
      <= CallsOfRuns(targets, payload, timeoutSeconds, replies, maxRetries)
    decreases |targets|
  {
    if j < |targets| {
      var n := |targets| - 1;
      assert targets[..n][..j] == targets[..j] && replies[..n][..j] == replies[..j];
      CallsPrefix(targets[..n], payload, timeoutSeconds, replies[..n], maxRetries, j);
    } else {
      assert targets[..j] == targets && replies[..j] == replies;
    }
  }

  /** The sleeps of the runs for a prefix of the targets come first in the sleeps of all runs. */
  lemma {:induction false} SleepsPrefix(targets: seq<PartnerTarget>, base: real,
                                        replies: seq<seq<Outcome>>, maxRetries: nat, j: nat)
    requires ScriptsCover(targets, replies, maxRetries) && j <= |targets|
    ensures ScriptsCover(targets[..j], replies[..j], maxRetries)
    ensures SleepsOfRuns(targets[..j], base, replies[..j], maxRetries) <= SleepsOfRuns(targets, base, replies, maxRetries)
    decreases |targets|
  {
    if j < |targets| {
      var n := |targets| - 1;
      assert targets[..n][..j] == targets[..j] && replies[..n][..j] == replies[..j];
      SleepsPrefix(targets[..n], base, replies[..n], maxRetries, j);
    } else {
      assert targets[..j] == targets && replies[..j] == replies;
    }
  }

  /**
   * Per target: the calls of a fanout are one segment per target, in target
   * order, holding exactly the calls of that target's own run (between one
   * and `maxRetries + 1` of them, whatever the other targets answered), and
   * likewise its sleeps are one segment of one delay fewer.  So every
   * target is called, even after other targets failed.
   */
  lemma RunSegments<P>(targets: seq<PartnerTarget>, payload: P, timeoutSeconds: real, base: real,
                       replies: seq<seq<Outcome>>, maxRetries: nat, i: nat)
    requires ScriptsCover(targets, replies, maxRetries) && i < |targets|
    ensures ScriptsCover(targets[..i], replies[..i], maxRetries)
    ensures var calls := CallsOfRuns(targets, payload, timeoutSeconds, replies, maxRetries);
      var start := |CallsOfRuns(targets[..i], payload, timeoutSeconds, replies[..i], maxRetries)|;
      var a := Attempts(replies[i], maxRetries);
      && 1 <= a <= maxRetries + 1
      && start + a <= |calls|
      && calls[start..start + a] == RunCalls(targets[i], payload, timeoutSeconds, a)
      && SendCall(targets[i], payload, timeoutSeconds) in calls
    ensures var sleeps := SleepsOfRuns(targets, base, replies, maxRetries);
      var start := |SleepsOfRuns(targets[..i], base, replies[..i], maxRetries)|;
      var a := Attempts(replies[i], maxRetries);
      && start + (a - 1) <= |sleeps|
      && sleeps[start..start + (a - 1)] == Backoffs(base, a - 1)
  {
    CallSegment(targets, payload, timeoutSeconds, replies, maxRetries, i);
    SleepSegment(targets, base, replies, maxRetries, i);
  }

  /** The calls half of `RunSegments`. */
  lemma CallSegment<P>(targets: seq<PartnerTarget>, payload: P, timeoutSeconds: real,
                       replies: seq<seq<Outcome>>, maxRetries: nat, i: nat)
    requires ScriptsCover(targets, replies, maxRetries) && i < |targets|
    ensures ScriptsCover(targets[..i], replies[..i], maxRetries)
    ensures var calls := CallsOfRuns(targets, payload, timeoutSeconds, replies, maxRetries);
      var start := |CallsOfRuns(targets[..i], payload, timeoutSeconds, replies[..i], maxRetries)|;
      var a := Attempts(replies[i], maxRetries);
      && start + a <= |calls|
      && calls[start..start + a] == RunCalls(targets[i], payload, timeoutSeconds, a)
      && SendCall(targets[i], payload, timeoutSeconds) in calls
  {
    assert targets[..i + 1][..i] == targets[..i] && replies[..i + 1][..i] == replies[..i];
    CallsPrefix(targets, payload, timeoutSeconds, replies, maxRetries, i + 1);
    var calls := CallsOfRuns(targets, payload, timeoutSeconds, replies, maxRetries);
    var front := CallsOfRuns(targets[..i], payload, timeoutSeconds, replies[..i], maxRetries);
    var a := Attempts(replies[i], maxRetries);
    var run := RunCalls(targets[i], payload, timeoutSeconds, a);
    assert CallsOfRuns(targets[..i + 1], payload, timeoutSeconds, replies[..i + 1], maxRetries) == front + run;
    assert calls[|front|..|front| + a] == run by {
      assert (front + run)[|front|..|front| + a] == run;
    }
    RunCallsAt(targets[i], payload, timeoutSeconds, a, 0);
    assert calls[|front|] == SendCall(targets[i], payload, timeoutSeconds);
  }

  /** The sleeps half of `RunSegments`. */
  lemma SleepSegment(targets: seq<PartnerTarget>, base: real, replies: seq<seq<Outcome>>, maxRetries: nat, i: nat)
    requires ScriptsCover(targets, replies, maxRetries) && i < |targets|
    ensures ScriptsCover(targets[..i], replies[..i], maxRetries)
    ensures var sleeps := SleepsOfRuns(targets, base, replies, maxRetries);
      var start := |SleepsOfRuns(targets[..i], base, replies[..i], maxRetries)|;
      var a := Attempts(replies[i], maxRetries);
      && start + (a - 1) <= |sleeps|
      && sleeps[start..start + (a - 1)] == Backoffs(base, a - 1)
  {
    assert targets[..i + 1][..i] == targets[..i] && replies[..i + 1][..i] == replies[..i];
    SleepsPrefix(targets, base, replies, maxRetries, i + 1);
    var sleeps := SleepsOfRuns(targets, base, replies, maxRetries);
    var front := SleepsOfRuns(targets[..i], base, replies[..i], maxRetries);
    var a := Attempts(replies[i], maxRetries);
    var run := Backoffs(base, a - 1);
    assert SleepsOfRuns(targets[..i + 1], base, replies[..i + 1], maxRetries) == front + run;
    assert sleeps[|front|..|front| + (a - 1)] == run by {
      assert (front + run)[|front|..|front| + (a - 1)] == run;
    }
  }

  /** The counting step of `FanoutVolume`: one more run of `a` attempts. */
  lemma VolumeStep(calls: nat, sleeps: nat, n: nat, a: nat, maxRetries: nat)
    requires n <= calls <= n * (maxRetries + 1) && sleeps <= n * maxRetries && sleeps + n == calls
    requires 1 <= a <= maxRetries + 1
    ensures n + 1 <= calls + a <= (n + 1) * (maxRetries + 1)
    ensures sleeps + (a - 1) <= (n + 1) * maxRetries
  {
    assert (n + 1) * (maxRetries + 1) == n * (maxRetries + 1) + (maxRetries + 1);
    assert (n + 1) * maxRetries == n * maxRetries + maxRetries;
  }

  /** One loop step of the fanout: the folds over a prefix one target longer. */
  lemma FoldStep<P>(errs: map<string, string>, targets: seq<PartnerTarget>, payload: P, timeoutSeconds: real, base: real,
                    replies: seq<seq<Outcome>>, maxRetries: nat, i: nat)
    requires ScriptsCover(targets, replies, maxRetries) && i < |targets|
    ensures ScriptsCover(targets[..i], replies[..i], maxRetries) && ScriptsCover(targets[..i + 1], replies[..i + 1], maxRetries)
    ensures ErrorsAfterRuns(errs, targets[..i + 1], replies[..i + 1], maxRetries)
      == ErrorsAfterRun(ErrorsAfterRuns(errs, targets[..i], replies[..i], maxRetries), targets[i].name, replies[i], maxRetries)
    ensures CallsOfRuns(targets[..i + 1], payload, timeoutSeconds, replies[..i + 1], maxRetries)
      == CallsOfRuns(targets[..i], payload, timeoutSeconds, replies[..i], maxRetries)
        + RunCalls(targets[i], payload, timeoutSeconds, Attempts(replies[i], maxRetries))
    ensures SleepsOfRuns(targets[..i + 1], base, replies[..i + 1], maxRetries)
      == SleepsOfRuns(targets[..i], base, replies[..i], maxRetries) + Backoffs(base, Attempts(replies[i], maxRetries) - 1)
  {
    assert targets[..i + 1][..i] == targets[..i] && replies[..i + 1][..i] == replies[..i];
  }

  /** Target names are pairwise different (the registry's intended identity). */
  ghost predicate UniqueNames(targets: seq<PartnerTarget>) {
    forall i, j :: 0 <= i < j < |targets| ==> targets[i].name != targets[j].name
  }

  /**
   * Isolation: after a fanout over uniquely named targets, each target's
   * entry is decided by its own run alone, and keys that name no target are
   * untouched.
   */
  lemma {:induction false} FanoutIsolation(errs: map<string, string>, targets: seq<PartnerTarget>, replies: seq<seq<Outcome>>, maxRetries: nat)
    requires ScriptsCover(targets, replies, maxRetries)
    requires UniqueNames(targets)
    ensures forall i :: 0 <= i < |targets| ==>
      && (targets[i].name in ErrorsAfterRuns(errs, targets, replies, maxRetries)
          <==> targets[i].name in ErrorsAfterRun(errs, targets[i].name, replies[i], maxRetries))
      && (targets[i].name in ErrorsAfterRuns(errs, targets, replies, maxRetries) ==>
          replies[i][maxRetries].Failed?
          && ErrorsAfterRuns(errs, targets, replies, maxRetries)[targets[i].name] == replies[i][maxRetries].at)
    ensures forall k :: (forall i :: 0 <= i < |targets| ==> targets[i].name != k) ==>
      (k in ErrorsAfterRuns(errs, targets, replies, maxRetries) <==> k in errs)
      && (k in errs ==> ErrorsAfterRuns(errs, targets, replies, maxRetries)[k] == errs[k])
    decreases |targets|
  {
    if targets != [] {
      var n := |targets| - 1;
      var front, frontReplies := targets[..n], replies[..n];
      assert UniqueNames(front);
      FanoutIsolation(errs, front, frontReplies, maxRetries);
      var name := targets[n].name;
      var before := ErrorsAfterRuns(errs, front, frontReplies, maxRetries);
      var after := ErrorsAfterRuns(errs, targets, replies, maxRetries);
      assert after == ErrorsAfterRun(before, name, replies[n], maxRetries);
      RunOutcome(before, name, replies[n], maxRetries);
      forall i | 0 <= i < |targets|
        ensures targets[i].name in after <==> targets[i].name in ErrorsAfterRun(errs, targets[i].name, replies[i], maxRetries)
        ensures targets[i].name in after ==> replies[i][maxRetries].Failed? && after[targets[i].name] == replies[i][maxRetries].at
      {
        RunOutcome(errs, targets[i].name, replies[i], maxRetries);
        if i < n {
          assert front[i] == targets[i] && frontReplies[i] == replies[i];
          assert targets[i].name != name;
        }
      }
      forall k | forall i :: 0 <= i < |targets| ==> targets[i].name != k
        ensures k in after <==> k in errs
        ensures k in errs ==> after[k] == errs[k]
      {
        assert k != name;
        forall i | 0 <= i < n ensures front[i].name != k {
          assert front[i] == targets[i];
        }
      }
    }
  }

  /** The name of the credential header for a target. */
  function AuthHeaderName(t: PartnerTarget): string {
    if t.authType == "bearer" then "Authorization"
    else if Truthy(t.headerName) then t.headerName.value
    else "X-API-Key"
  }

  /**
   * The request headers `_send_http` sends to a target: exactly the content
   * type and one credential header.  A bearer target sends
   * `Authorization: Bearer <key>`; any other target sends
   * `<header name or X-API-Key>: <key>`, and an Authorization header only
   * when that is its chosen name.  A credential header named Content-Type
   * replaces the content type.
   */
  function AuthHeaders(t: PartnerTarget): (r: map<string, string>)
    ensures r.Keys == {"Content-Type", AuthHeaderName(t)}
    ensures AuthHeaderName(t) != "Content-Type" ==> r["Content-Type"] == "application/json"
    ensures t.authType == "bearer" ==> r["Authorization"] == "Bearer " + t.apiKey
    ensures t.authType != "bearer" ==> r[AuthHeaderName(t)] == t.apiKey
    ensures t.authType != "bearer" && AuthHeaderName(t) != "Authorization" ==> "Authorization" !in r
  {
    var headers := map["Content-Type" := "application/json"];
    if t.authType == "bearer" then headers["Authorization" := "Bearer " + t.apiKey]
    else headers[(if Truthy(t.headerName) then t.headerName.value else "X-API-Key") := t.apiKey]
  }

  /** For a validated target the X-API-Key fallback never applies: its own header name is used. */
  lemma HeaderFallbackUnreachable(t: PartnerTarget, urlOk: string -> bool)
    requires ValidTarget(t, urlOk) && t.authType != "bearer"
    ensures t.headerName.Some? && AuthHeaderName(t) == t.headerName.value
  {
  }

  datatype HealthReport = HealthReport(
    status: string,
    fanoutEnabled: bool,
    targets: seq<string>,
    lastErrors: map<string, string>)

  class FanoutService<P> {
    const settings: Settings
    /** Target name to the time of its most recent failed attempt. */
    var lastErrors: map<string, string>
    /** Every call made to the sender, in order. */
    var sendLog: seq<SendCall<P>>
    /** Every delay the sleeper was asked for, in order. */
    var sleepLog: seq<real>

    constructor (settings: Settings)
      ensures this.settings == settings
      ensures lastErrors == map[] && sendLog == [] && sleepLog == []
    {
      this.settings := settings;
      lastErrors := map[];
      sendLog := [];
      sleepLog := [];
    }

    function Targets(): seq<PartnerTarget> {
      settings.fanoutTargets
    }

    /**
     * `_send_with_retries`: up to `maxRetries + 1` attempts; a delivery
     * clears the target's entry and ends the run; a failure records its
     * time, and unless it was the last allowed attempt the run sleeps
     * `base * 2**attempt` and tries again.  Exhaustion returns normally.
     */
    method SendWithRetries(target: PartnerTarget, payload: P, replies: seq<Outcome>)
      requires settings.fanoutMaxRetries < |replies|
      modifies this
      ensures lastErrors == ErrorsAfterRun(old(lastErrors), target.name, replies, settings.fanoutMaxRetries)
      ensures sendLog == old(sendLog)
        + RunCalls(target, payload, settings.fanoutTimeoutSeconds, Attempts(replies, settings.fanoutMaxRetries))
      ensures sleepLog == old(sleepLog)
        + Backoffs(settings.fanoutRetryBackoffSeconds, Attempts(replies, settings.fanoutMaxRetries) - 1)
    {
      var maxRetries := settings.fanoutMaxRetries;
      var base := settings.fanoutRetryBackoffSeconds;
      var timeout := settings.fanoutTimeoutSeconds;
      ghost var n := Attempts(replies, maxRetries);
      ghost var errs0, calls0, sleeps0 := lastErrors, sendLog, sleepLog;
      for attempt := 0 to maxRetries + 1
        invariant attempt < n || attempt == maxRetries + 1
        invariant attempt <= n
        invariant attempt < n ==> AttemptsFrom(replies, maxRetries, attempt) == n
        invariant 0 < attempt ==> replies[attempt - 1].Failed?
        invariant sendLog == calls0 + RunCalls(target, payload, timeout, attempt)
        invariant sleepLog == sleeps0 + Backoffs(base, if attempt <= maxRetries then attempt else maxRetries)
        invariant lastErrors == ErrorsAfterFailures(errs0, target.name, replies, attempt)
      {
        sendLog := sendLog + [SendCall(target, payload, timeout)];
        if replies[attempt].Delivered? {
          RunStopsAt(errs0, target.name, replies, maxRetries, attempt);
          lastErrors := lastErrors - {target.name};
          return;
        }
        lastErrors := lastErrors[target.name := replies[attempt].at];
        if attempt >= maxRetries {
          RunStopsAt(errs0, target.name, replies, maxRetries, attempt);
          return;
        }
        sleepLog := sleepLog + [BackoffDelay(base, attempt)];
      }
      RunExhausted(errs0, target.name, replies, maxRetries);
    }

    /**
     * `fanout`: nothing happens when fanout is disabled or there are no
     * targets; otherwise one run per target, in target order.
     */
    method Fanout(payload: P, replies: seq<seq<Outcome>>)
      requires ScriptsCover(settings.fanoutTargets, replies, settings.fanoutMaxRetries)
      modifies this
      ensures !settings.fanoutEnabled || settings.fanoutTargets == [] ==>
        lastErrors == old(lastErrors) && sendLog == old(sendLog) && sleepLog == old(sleepLog)
      ensures settings.fanoutEnabled && settings.fanoutTargets != [] ==>
        && lastErrors == ErrorsAfterRuns(old(lastErrors), settings.fanoutTargets, replies, settings.fanoutMaxRetries)
        && sendLog == old(sendLog) + CallsOfRuns(settings.fanoutTargets, payload, settings.fanoutTimeoutSeconds, replies, settings.fanoutMaxRetries)
        && sleepLog == old(sleepLog) + SleepsOfRuns(settings.fanoutTargets, settings.fanoutRetryBackoffSeconds, replies, settings.fanoutMaxRetries)
    {
      var targets := Targets();
      if !settings.fanoutEnabled || targets == [] {
        return;
      }
      var maxRetries := settings.fanoutMaxRetries;
      var timeout := settings.fanoutTimeoutSeconds;
      var base := settings.fanoutRetryBackoffSeconds;
      ghost var errs0, calls0, sleeps0 := lastErrors, sendLog, sleepLog;
      for i := 0 to |targets|
        invariant ScriptsCover(targets[..i], replies[..i], maxRetries)
        invariant lastErrors == ErrorsAfterRuns(errs0, targets[..i], replies[..i], maxRetries)
        invariant sendLog == calls0 + CallsOfRuns(targets[..i], payload, timeout, replies[..i], maxRetries)
        invariant sleepLog == sleeps0 + SleepsOfRuns(targets[..i], base, replies[..i], maxRetries)
      {
        FoldStep(errs0, targets, payload, timeout, base, replies, maxRetries, i);
        SendWithRetries(targets[i], payload, replies[i]);
      }
      assert targets[..|targets|] == targets && replies[..|replies|] == replies;
    }

    /** `get_targets_redacted`: one redacted view per target, in order. */
    function TargetsRedacted(): (r: seq<RedactedTarget>)
      ensures |r| == |Targets()|
      ensures forall i :: 0 <= i < |r| ==> r[i] == Redacted(Targets()[i])
    {
      seq(|Targets()|, i requires 0 <= i < |Targets()| => Redacted(Targets()[i]))
    }

    /** `health`: status, the flag, the target names in order, and the last-error map. */
    function Health(): (r: HealthReport)
      reads this
      ensures r.status == "ok" && r.fanoutEnabled == settings.fanoutEnabled && r.lastErrors == lastErrors
      ensures |r.targets| == |Targets()| && forall i :: 0 <= i < |r.targets| ==> r.targets[i] == Targets()[i].name
    {
      HealthReport("ok", settings.fanoutEnabled, seq(|Targets()|, i requires 0 <= i < |Targets()| => Targets()[i].name), lastErrors)
    }
  }

  /** No redacted view carries a real credential (unless it literally is the redaction text). */
  lemma RedactedListHidesKeys<P>(svc: FanoutService<P>)
    ensures forall i :: 0 <= i < |svc.Targets()| ==> svc.TargetsRedacted()[i].apiKey == Redaction
  {
  }

  /**
   * Client of the contracts, after tests/test_fanout.py: fanout off means no
   * sender call; one always-failing partner with two retries and zero
   * backoff is called three times, sleeps twice for zero seconds, and is
   * left with its last failure time.
   */
  method FailingPartnerScenario()
  {
    var target := PartnerTarget("FailPartner", "https://down.example.com", "bearer", "x", None);

    var off := new FanoutService<string>(Settings("dev_secret", "", false, 2.0, 2, 0.0, [target]));
    off.Fanout("WX-DRN-001", [[Delivered, Delivered, Delivered]]);
    assert off.sendLog == [] && off.lastErrors == map[];

    var svc := new FanoutService<string>(Settings("dev_secret", "", true, 2.0, 2, 0.0, [target]));
    var script := [Failed("t1"), Failed("t2"), Failed("t3")];
    assert Attempts(script, 2) == 3;
    assert [target][..0] == [] && [script][..0] == [];
    svc.Fanout("WX-DRN-010", [script]);
    assert |svc.sendLog| == 3;
    assert svc.sleepLog == [0.0, 0.0];
    assert svc.lastErrors == map["FailPartner" := "t3"];
  }

  /** Partner A delivers at once, partner B keeps failing: A has no entry, B has its third failure. */
  method MixedPartnersScenario()
  {
    var a := PartnerTarget("A", "https://a.example.com/ingest", "bearer", "tokA", None);
    var b := PartnerTarget("B", "https://b.example.com/ingest", "header", "tokB", Some("X-API-Key"));
    assert AuthHeaders(a)["Authorization"] == "Bearer tokA";
    assert AuthHeaders(b)["X-API-Key"] == "tokB" && "Authorization" !in AuthHeaders(b);

    var svc := new FanoutService<string>(Settings("dev_secret", "", true, 2.0, 2, 0.0, [a, b]));
    var scriptA := [Delivered, Delivered, Delivered];
    var scriptB := [Failed("t1"), Failed("t2"), Failed("t3")];
    assert Attempts(scriptA, 2) == 1 && Attempts(scriptB, 2) == 3;
    assert [a, b][..1] == [a] && [scriptA, scriptB][..1] == [scriptA];
    assert [a][..0] == [] && [scriptA][..0] == [];
    assert |CallsOfRuns([a], "WX-DRN-002", 2.0, [scriptA], 2)| == 1;
    svc.Fanout("WX-DRN-002", [scriptA, scriptB]);
    assert |svc.sendLog| == 4;
    assert "A" !in svc.lastErrors && svc.lastErrors["B"] == "t3";
  }
}
