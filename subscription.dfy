/**
 * `subscribe_to_lambda` (src/index.py:21-33) and the logging backend it calls. The backend is a
 * client object that records every put_subscription_filter call it receives and raises on the one
 * call chosen by `failAt`, so that a run's calls and its outcome can be stated exactly.
 */
module Subscription {
  import opened Wrappers
  import opened Events

  /** The filter name of every subscription the handler creates. */
  const SplunkFilter := "SplunkFilter"

  /** The arguments of one put_subscription_filter call. */
  datatype SubscriptionRequest = SubscriptionRequest(
    destinationArn: string,
    filterName: string,
    filterPattern: string,
    logGroupName: string)

  /** The call subscribe_to_lambda makes for a log group: it forwards that log group to the Lambda. */
  function RequestFor(cfg: Config, name: string): (req: SubscriptionRequest)
    ensures ForwardsToLambda(cfg, req) && req.logGroupName == name
  {
    SubscriptionRequest(cfg.lambdaArn, SplunkFilter, "", name)
  }

  /** The calls for a sequence of log groups, in order. */
  function Requests(cfg: Config, names: seq<string>): seq<SubscriptionRequest> {
    seq(|names|, i requires 0 <= i < |names| => RequestFor(cfg, names[i]))
  }

  /** The log groups a sequence of calls subscribes. */
  function LogGroupNames(reqs: seq<SubscriptionRequest>): seq<string> {
    if reqs == [] then [] else [reqs[0].logGroupName] + LogGroupNames(reqs[1..])
  }

  /** A call that forwards every record of its log group to the configured Lambda under the fixed filter name. */
  predicate ForwardsToLambda(cfg: Config, req: SubscriptionRequest) {
    req.destinationArn == cfg.lambdaArn && req.filterName == SplunkFilter && req.filterPattern == ""
  }

  /**
   * Every call uses the configured destination, the filter name "SplunkFilter" and the empty filter
   * pattern; only the log-group name varies, and the names can be read back in order.
   */
  lemma {:induction false} RequestsForwardToLambda(cfg: Config, names: seq<string>)
    ensures |Requests(cfg, names)| == |names|
    ensures forall i :: 0 <= i < |names| ==> ForwardsToLambda(cfg, Requests(cfg, names)[i])
    ensures LogGroupNames(Requests(cfg, names)) == names
    decreases |names|
  {
    if names != [] {
      RequestsForwardToLambda(cfg, names[1..]);
      assert Requests(cfg, names)[1..] == Requests(cfg, names[1..]);
      assert [names[0]] + names[1..] == names;
    }
  }

  lemma RequestsConcat(cfg: Config, a: seq<string>, b: seq<string>)
    ensures Requests(cfg, a + b) == Requests(cfg, a) + Requests(cfg, b)
  {
  }

  /**
   * The logging backend: the inventory describe_log_groups pages through, the record of
   * put_subscription_filter calls received so far, and the index of the call that raises, if any.
   */
  class LogsClient {
    const logGroupPages: seq<seq<string>>
    const failAt: Option<nat>
    var calls: seq<SubscriptionRequest>

    constructor (logGroupPages: seq<seq<string>>, failAt: Option<nat>)
      ensures this.logGroupPages == logGroupPages && this.failAt == failAt
      ensures calls == []
    {
      this.logGroupPages := logGroupPages;
      this.failAt := failAt;
      calls := [];
    }

    /** The next call is the one that raises. */
    predicate NextCallFails()
      reads this
    {
      failAt == Some(|calls|)
    }

    /** Records the call; reports whether it succeeded. */
    method PutSubscriptionFilter(req: SubscriptionRequest) returns (ok: bool)
      modifies this
      ensures calls == old(calls) + [req]
      ensures ok == !old(NextCallFails())
    {
      ok := !NextCallFails();
      calls := calls + [req];
    }
  }

  /** None of the n calls numbered start, start + 1, ... is the failing one. */
  predicate NoFailureWithin(failAt: Option<nat>, start: nat, n: nat) {
    failAt.None? || failAt.value < start || start + n <= failAt.value
  }

  /** What a run did: the log groups it issued calls for, in order, and how it ended. */
  datatype Run = Run(attempted: seq<string>, outcome: Outcome<Error>)

  /**
   * Subscribing `names` one after the other, the first call being call number `start` of the client,
   * and stopping at the first call that raises. The run attempts every name up to and including the
   * failing one and raises that call's error; with no failing call in range it attempts all and passes.
   */
  function FailFast(failAt: Option<nat>, start: nat, names: seq<string>): (run: Run)
    ensures if NoFailureWithin(failAt, start, |names|) then run == Run(names, Pass)
            else run == Run(names[..failAt.value - start + 1], Fail(SubscriptionFailed(names[failAt.value - start])))
    decreases |names|
  {
    if names == [] then Run([], Pass)
    else if failAt == Some(start) then Run([names[0]], Fail(SubscriptionFailed(names[0])))
    else
      var rest := FailFast(failAt, start + 1, names[1..]);
      Run([names[0]] + rest.attempted, rest.outcome)
  }

  /** Running over `a + b` runs over `a` and, only if that passed, goes on over `b`. */
  lemma FailFastConcat(failAt: Option<nat>, start: nat, a: seq<string>, b: seq<string>)
    ensures var ra, rb := FailFast(failAt, start, a), FailFast(failAt, start + |a|, b);
            FailFast(failAt, start, a + b)
            == if ra.outcome.Fail? then ra else Run(a + rb.attempted, rb.outcome)
  {
    if !NoFailureWithin(failAt, start, |a| + |b|) {
      var k := failAt.value - start;
      if k < |a| {
        assert (a + b)[..k + 1] == a[..k + 1];
      } else {
        assert (a + b)[..k + 1] == a + b[..k - |a| + 1];
      }
    }
  }

  /**
   * `subscribe_to_lambda`: one put_subscription_filter call for the log group, with the fixed
   * filter name, the empty pattern and the configured destination; a failing call is re-raised.
   */
  method SubscribeToLambda(cfg: Config, client: LogsClient, name: string) returns (r: Outcome<Error>)
    modifies client
    ensures client.calls == old(client.calls) + [RequestFor(cfg, name)]
    ensures r == if old(client.NextCallFails()) then Fail(SubscriptionFailed(name)) else Pass
  {
    var ok := client.PutSubscriptionFilter(RequestFor(cfg, name));
    if ok {
      r := Pass;
    } else {
      r := Fail(SubscriptionFailed(name));
    }
  }
}
