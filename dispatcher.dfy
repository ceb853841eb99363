/**
 * The Lambda entry point: the USE_EXISTING_LOG_GROUPS flag chooses between reconciling every
 * existing log group (bulk mode) and handling the one CreateLogGroup event that triggered the
 * invocation (reactive mode). Reactive mode uses the intended classifier `Classifier.Matches`.
 */
module Dispatcher {
  import opened Wrappers
  import opened Events
  import opened Classifier
  import opened Subscription
  import opened Reconciler

  /** The only flag value that selects bulk mode; the comparison is exact. */
  const BulkFlag := "true"

  /**
   * The calls reactive mode makes for one event and how it ends: an event without a log-group name
   * or one the classifier rejects with an error makes no call and fails; a non-matching event makes
   * no call and succeeds; a matching one makes exactly one call, for the event's own log group.
   */
  function ReactiveRun(cfg: Config, failAt: Option<nat>, start: nat, event: Event): (run: Run)
    ensures LogGroupName(event).Err? ==> run == Run([], Fail(LogGroupName(event).error))
    ensures Matches(cfg, event).Err? ==> run == Run([], Fail(Matches(cfg, event).error))
    ensures Matches(cfg, event) == Ok(false) ==> run == Run([], Pass)
    ensures run.attempted != [] <==> Matches(cfg, event) == Ok(true)
    ensures Matches(cfg, event) == Ok(true) ==>
              && LogGroupName(event).Ok?
              && run.attempted == [LogGroupName(event).value]
              && (run.outcome.Pass? <==> failAt != Some(start))
              && (run.outcome.Fail? ==> run.outcome.error == SubscriptionFailed(LogGroupName(event).value))
  {
    match LogGroupName(event)
    case Err(e) => Run([], Fail(e))
    case Ok(name) =>
      match Matches(cfg, event)
      case Err(e) => Run([], Fail(e))
      case Ok(false) => Run([], Pass)
      case Ok(true) => FailFast(failAt, start, [name])
  }

  /**
   * The calls and outcome of one invocation of the handler, in either mode. Bulk mode attempts a
   * prefix of the listed names that pass the pattern; reactive mode attempts at most the event's own
   * log group. A failure after some call is that last call's failure.
   */
  function HandlerRun(cfg: Config, failAt: Option<nat>, start: nat, pages: seq<seq<string>>, event: Event): (run: Run)
    ensures cfg.useExistingLogGroups == BulkFlag ==> run.attempted <= MatchingNames(cfg.logGroupPattern, Flatten(pages))
    ensures cfg.useExistingLogGroups != BulkFlag ==> run.attempted == [] || (LogGroupName(event).Ok? && run.attempted == [LogGroupName(event).value])
    ensures run.outcome.Fail? && run.attempted != [] ==>
              run.outcome.error == SubscriptionFailed(run.attempted[|run.attempted| - 1])
  {
    if cfg.useExistingLogGroups == BulkFlag then BulkRun(cfg, failAt, start, pages)
    else ReactiveRun(cfg, failAt, start, event)
  }

  /**
   * Bulk mode never looks at the event: any two events give the same calls and outcome, those of
   * reconciling the existing log groups.
   */
  lemma BulkModeIgnoresEvent(cfg: Config, failAt: Option<nat>, start: nat, pages: seq<seq<string>>, e1: Event, e2: Event)
    requires cfg.useExistingLogGroups == BulkFlag
    ensures HandlerRun(cfg, failAt, start, pages, e1) == HandlerRun(cfg, failAt, start, pages, e2)
            == BulkRun(cfg, failAt, start, pages)
  {
  }

  /**
   * Any flag value other than exactly "true" ("True", "yes", "") takes the reactive path: the
   * existing log groups are not listed and at most the event's own log group is subscribed.
   */
  lemma OtherFlagsAreReactive(cfg: Config, failAt: Option<nat>, start: nat, pages: seq<seq<string>>, event: Event)
    requires cfg.useExistingLogGroups != BulkFlag
    ensures HandlerRun(cfg, failAt, start, pages, event) == ReactiveRun(cfg, failAt, start, event)
    ensures |HandlerRun(cfg, failAt, start, pages, event).attempted| <= 1
  {
  }

  /** In reactive mode, an event the classifier does not select makes no call and the invocation succeeds. */
  lemma NonMatchingEventSucceeds(cfg: Config, failAt: Option<nat>, start: nat, pages: seq<seq<string>>, event: Event)
    requires cfg.useExistingLogGroups != BulkFlag && Matches(cfg, event) == Ok(false)
    ensures HandlerRun(cfg, failAt, start, pages, event) == Run([], Pass)
  {
  }

  /** Handles one event in reactive mode against the client. */
  method ProcessEvents(cfg: Config, client: LogsClient, event: Event) returns (r: Outcome<Error>)
    modifies client
    ensures var run := ReactiveRun(cfg, client.failAt, old(|client.calls|), event);
            client.calls == old(client.calls) + Requests(cfg, run.attempted) && r == run.outcome
  {
    var name := LogGroupName(event);
    if name.Err? {
      return Fail(name.error);
    }
    var matched := Matches(cfg, event);
    if matched.Err? {
      return Fail(matched.error);
    }
    if matched.value {
      r := SubscribeToLambda(cfg, client, name.value);
    } else {
      r := Pass;
    }
  }

  /** The handler: bulk mode exactly when the flag is "true", reactive mode otherwise. */
  method LambdaHandler(cfg: Config, client: LogsClient, event: Event) returns (r: Outcome<Error>)
    modifies client
    ensures var run := HandlerRun(cfg, client.failAt, old(|client.calls|), client.logGroupPages, event);
            client.calls == old(client.calls) + Requests(cfg, run.attempted) && r == run.outcome
  {
    if cfg.useExistingLogGroups == BulkFlag {
      r := ProcessExistingLogGroups(cfg, client);
    } else {
      r := ProcessEvents(cfg, client, event);
    }
  }
}
