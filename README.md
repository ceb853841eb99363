# CloudWatch Logs subscription automator: a Dafny model

This project models the decision logic of `src/index.py`, a Lambda function that subscribes
CloudWatch log groups to a forwarding Lambda. It works in one of two modes:

- **Reactive mode** handles one `CreateLogGroup` event. A classifier decides whether the new log
  group is in scope. It is in scope when its name passes `LOG_GROUP_PATTERN` on a creation event,
  or when one of the `LOG_GROUP_TAGS` rules (`"key=value,key=value"`) is met by the event's tags.
  A log group in scope gets one `put_subscription_filter` call.
- **Bulk mode** pages through every existing log group. It subscribes each group whose name passes
  the pattern, in listing order, and stops at the first failing call.

The environment variables become a `Config` value. The regular expression becomes the
configuration's match test, `logGroupPattern: string -> bool`. The AWS logging backend becomes a
`LogsClient` object with three parts:

- `logGroupPages`: the inventory that `describe_log_groups` pages through;
- `calls`: a record of every `put_subscription_filter` call it receives;
- `failAt`: the number of the call that raises, if any.

The client's own method, `PutSubscriptionFilter`, records one call. The operations that drive it
(`SubscribeToLambda`, `SubscribeExistingLogGroups`, `ProcessExistingLogGroups`, `ProcessEvents`,
`LambdaHandler`) are module-level methods that take the client and may modify it. Each is proved
against a pure description of the run it performs (`FailFast`, `BulkRun`, `ReactiveRun`, `HandlerRun`). That
description says which log groups are attempted, in which order, and whether the run passes or
raises which error. The properties of the source are proved as lemmas about those functions.

Modules:

- `Wrappers`: `Option`, `Result`, `Outcome`.
- `Seqs`: two slicing facts.
- `Text`: Python's `str.split` and `str.strip`.
- `Events`: the event, the configuration and the exceptions.
- `TagRules`: parsing and matching `LOG_GROUP_TAGS`.
- `Classifier`: `filter_log_groups`.
- `Subscription`: `subscribe_to_lambda` and the backend client.
- `Reconciler`: `subscribe_existing_log_groups` and `process_existing_log_groups`.
- `Dispatcher`: `process_events` and `lambda_handler`.

The classifier exists twice.

- `Classifier.FilterLogGroupsAsWritten` follows the code line by line, defects included.
- `Classifier.Matches` is the classification the code evidently intends. The dispatcher uses it.

See "## Findings".

On these points the code is easy to misread; the model follows the code:

- The pattern test is `re.match`, which is anchored at the start of the name, not a search. The
  match test in `Config` is whatever `re.match` answers.
- The pattern is checked before the event name. The event name is looked up only when the pattern
  matches, so a missing `eventName` raises only then.
- The tag branch does not check the event name. A non-creation event can be accepted by its tags.
- The loop-variable defect at line 50 raises whenever both the rules and the tags are non-empty,
  even with a single rule.

## Model

| member | source | states |
|---|---|---|
| Text.IsSpace | src/index.py:51-52 | The whitespace `str.strip()` removes; on ASCII it is exactly space, tab, newline, carriage return, vertical tab, form feed and the four separators 0x1C-0x1F |
| Text.Split | src/index.py:48 | Splitting always yields at least one piece, so `tag[0]` at line 51 never raises |
| Text.SplitPiecesAvoidSep | src/index.py:48 | No piece of a split contains the separator |
| Text.JoinSplit | src/index.py:48 | Joining the pieces with the separator gives back the original string |
| Text.SplitJoin | src/index.py:48 | Splitting a join of separator-free pieces gives back the pieces, in order |
| Text.SplitWithoutSep | src/index.py:48 | A string without the separator splits into itself alone |
| Text.SplitAtFirstSep | src/index.py:50 | The first piece is the text before the first separator; the rest is the split of what follows it |
| Text.SplitHasSecondPiece | src/index.py:50-52 | The split has a second piece (`tag[1]` exists) exactly when the separator occurs |
| Text.StripLeft | src/index.py:51-52 | Left stripping never lengthens the string, and what it keeps does not start with whitespace |
| Text.StripRight | src/index.py:51-52 | Right stripping never lengthens the string, and what it keeps does not end with whitespace |
| Text.Strip | src/index.py:51-52 | `strip()` never lengthens the string, and what it keeps neither starts nor ends with whitespace |
| Text.StripLeftDropsLeadingSpace | src/index.py:51-52 | Left stripping keeps a suffix and drops only whitespace; what it keeps does not start with whitespace |
| Text.StripRightDropsTrailingSpace | src/index.py:51-52 | Right stripping keeps a prefix and drops only whitespace; what it keeps does not end with whitespace |
| Text.StripTrimmed | src/index.py:51-52 | Strip leaves a string unchanged when it neither starts nor ends with whitespace |
| Text.StripIdempotent | src/index.py:51-52 | Stripping twice is stripping once |
| Events.LogGroupName | src/index.py:39 | `event['detail']['requestParameters']['logGroupName']`: the field's value exactly when every key on the path is present; otherwise KeyError for the first absent key |
| Events.EventName | src/index.py:41 | `event['detail']['eventName']`: the field's value exactly when both keys are present; otherwise KeyError for the first absent key |
| Events.EventTags | src/index.py:44 | `event['detail']['requestParameters']['tags']`: the tag map exactly when every key on the path is present; otherwise KeyError for the first absent key |
| TagRules.ParseRule | src/index.py:50-52 | An entry fails (IndexError on `tag[1]`) exactly when it has no '=' |
| TagRules.ParseRuleFields | src/index.py:50-52 | The key is the stripped text before the first '=' and the value the stripped text up to the next '=' |
| TagRules.ParseEntries | src/index.py:48-52 | The entries parse exactly when each one has a '='; the rules correspond one to one, in order, to the entries |
| TagRules.ParseTagRules | src/index.py:46-52 | An empty LOG_GROUP_TAGS configures no rule; otherwise the comma-separated entries parse exactly when each has a '=', one rule per entry, in order, each the parse of its entry; a failure is the IndexError of a rule without value |
| TagRules.ParseCleanEntry | src/index.py:50-52 | The entry `key=value` of a well-formed rule parses back to that rule |
| TagRules.EntriesAvoidComma | src/index.py:48 | Writing out well-formed rules gives one entry per rule, none holding a ',' |
| TagRules.ParseEntriesOfRules | src/index.py:48-52 | The entries written out from well-formed rules parse back to those rules |
| TagRules.RenderParses | src/index.py:46-52 | A LOG_GROUP_TAGS string written out from well-formed rules parses back to exactly those rules |
| TagRules.RuleHolds | src/index.py:53 | A rule with an empty value is never met (an empty tag value is falsy); otherwise it is met exactly when the key is present with that value |
| TagRules.AnyRuleHolds | src/index.py:49-55 | The OR over the rules: true exactly when some rule's key is present with a non-empty value equal to the rule's value |
| TagRules.MatchEntries | src/index.py:49-55 | The intended rule loop: when every entry parses, it answers the OR over the parsed rules; it raises only when the parse fails |
| TagRules.StrictRuleLoop | src/index.py:49-55 | The loop with the line-53 lookup as written: whenever it does not raise KeyError, it agrees with the intended loop |
| TagRules.StrictLookupAborts | src/index.py:53 | A first rule naming an absent key makes the as-written lookup raise KeyError, although the second rule is met |
| TagRules.StrictLookupCounterexample | src/index.py:53 | For "team=core,env=prod" and tags {"env": "prod"} the as-written lookup raises KeyError("team"), while the intended loop answers true |
| Classifier.PatternBranch | src/index.py:41 | A name failing the pattern answers false without reading `eventName`; the branch accepts exactly when the pattern passes and the event name is "CreateLogGroup", and raises exactly when the pattern passes and `eventName` is absent |
| Classifier.FilterLogGroupsAsWritten | src/index.py:36-60 | The code as written. A missing name raises. Pattern plus creation accepts. A matching pattern without `eventName` raises. Past that, an absent `tags` raises KeyError, empty rules or empty tags answer false, and otherwise the loop raises TypeError. It accepts exactly the pattern-plus-creation events |
| Classifier.Matches | src/index.py:36-60 | The intended classifier: the same name and pattern branches; empty rules or no tags answer false; well-formed rules answer the OR over them; it raises only for a missing name, a missing event name, or a malformed rule |
| Classifier.PatternMatchIgnoresTags | src/index.py:41-43 | On a creation event whose name passes the pattern, both classifiers accept whatever tags the event carries, absent ones included |
| Classifier.MatchesAgreesOffDefects | src/index.py:44-57 | Off the two tag-branch defects, the intended classifier gives the same answer or error as the code; where `tags` is absent it answers false |
| Classifier.TagBranchCounterexample | src/index.py:46-50 | With one well-formed rule met by the event's only tag and a name that fails the pattern, the code raises TypeError while the intended classifier accepts |
| Classifier.AbsentTagsCounterexample | src/index.py:44 | An untagged creation event whose name fails the pattern makes the code raise KeyError, while the intended classifier answers false |
| Classifier.RenderedRulesDecide | src/index.py:46-55 | For well-formed rules, an event reaching the tag branch is accepted exactly when at least one rule holds of its tags |
| Subscription.RequestFor | src/index.py:24-29 | The call for a log group names that log group and forwards it to the configured Lambda under "SplunkFilter" with the empty filter pattern |
| Subscription.RequestsForwardToLambda | src/index.py:24-29 | Every call has the configured destination, filter name "SplunkFilter" and an empty filter pattern; the calls name exactly the given log groups, in order |
| Subscription.LogsClient.constructor | src/index.py:18 | A new client has the given inventory and failure point, and has received no call |
| Subscription.LogsClient.PutSubscriptionFilter | src/index.py:24-29 | Appends the call to the record; it succeeds unless it is the failing call |
| Subscription.FailFast | src/index.py:67-74 | Subscribing in order and stopping at the first failure: with no failing call in range, every name is attempted and the run passes; otherwise exactly the names up to and including the failing one are attempted, and the run raises that call's error |
| Subscription.FailFastConcat | src/index.py:83-90 | A run over two consecutive batches is the run over the first, continued over the second only if the first passed |
| Subscription.SubscribeToLambda | src/index.py:21-33 | Issues exactly one call for the log group, with the fixed filter and destination; it re-raises when that call fails |
| Reconciler.Flatten | src/index.py:83-86 | The pages' log groups, page after page; the listing has exactly as many names as all pages together |
| Reconciler.MatchingNames | src/index.py:69-71 | The listed names that pass the pattern, in order; never more than were listed |
| Reconciler.InFlatten | src/index.py:83-86 | A name is in the listing exactly when it is on some page |
| Reconciler.FlattenConcat | src/index.py:83-86 | The listing of two runs of pages is the first listing followed by the second |
| Reconciler.InMatching | src/index.py:67-71 | A name is selected exactly when it is listed and passes the pattern |
| Reconciler.MatchingConcat | src/index.py:67-71 | Selecting from two consecutive listings selects from each in turn, keeping order |
| Reconciler.FailureEndsRun | src/index.py:67-74 | Once a call fails, nothing that would have followed it is attempted |
| Reconciler.BulkRun | src/index.py:63-90 | Bulk mode attempts a prefix of the listed names that pass the pattern; it passes exactly when none of its calls is the failing one, and otherwise raises the error of its last call |
| Reconciler.BulkStep | src/index.py:83-90 | One page after passing pages either passes and extends the calls so far, or fails and ends the whole bulk run there |
| Reconciler.BulkSubscribesMatching | src/index.py:67-71 | With no failing call, bulk mode attempts exactly the names that pass the pattern, in page order and then listing order, and passes; a name is subscribed exactly when it passes the pattern and is on some page |
| Reconciler.BulkFailsFast | src/index.py:67-90 | When the call for the k-th selected group fails, exactly the first k+1 selected groups are attempted, and the run raises that group's error |
| Reconciler.BulkExample | src/index.py:67-71 | Groups app-prod-1, app-prod-2 and other-3 under a pattern passing only the first two: exactly those two are subscribed, in order |
| Reconciler.FailFastExample | src/index.py:67-90 | Three selected groups on two pages, the second call failing: the third group is never attempted and the run raises for the second |
| Reconciler.SubscribeExistingLogGroups | src/index.py:63-74 | One page: the calls received are exactly those of the fail-fast run over the page's names that pass the pattern, and the outcome is that run's outcome |
| Reconciler.ProcessExistingLogGroups | src/index.py:77-90 | All pages: the calls received are exactly those of the fail-fast run over all selected names, and the outcome is that run's outcome |
| Dispatcher.ReactiveRun | src/index.py:93-107 | A missing name, or a classifier error, raises before any call. A non-matching event makes no call and passes. A call is made exactly when the classifier accepts, and then it is one call, for the event's own log group |
| Dispatcher.HandlerRun | src/index.py:115-118 | With the flag "true" the handler attempts a prefix of the listed names that pass the pattern; with any other flag at most the event's own log group; a failure after a call is that call's failure |
| Dispatcher.BulkModeIgnoresEvent | src/index.py:115-116 | With the flag "true", any two payloads give the same calls and outcome, those of bulk mode |
| Dispatcher.OtherFlagsAreReactive | src/index.py:115-118 | Any other flag value takes the reactive path, which makes at most one call |
| Dispatcher.NonMatchingEventSucceeds | src/index.py:99-104 | In reactive mode, an event the classifier rejects makes no call and completes without error |
| Dispatcher.ProcessEvents | src/index.py:93-107 | The calls received and the outcome are exactly those of the reactive run for the event |
| Dispatcher.LambdaHandler | src/index.py:110-121 | The calls received and the outcome are exactly those of bulk mode when the flag is "true", and of reactive mode otherwise |

## Left out

- Client construction, the `describe_log_groups` paginator and the `put_subscription_filter` transport are foreign AWS calls. They are replaced by the client's fixed inventory and the recorded calls with one chosen failing call.
- A failure of the listing itself, while paging, is not modelled. Only subscription calls fail.
- Environment variables are read at import time in the source. Here they are the `Config` parameter; a missing variable (KeyError at import) is not modelled.
- Logging and the `json.dumps` of the event have no effect on behaviour and are left out.
- The regular-expression engine is left out. The pattern is the configuration's match test, so an invalid pattern is not modelled.
- What the backend does with a second `SplunkFilter` subscription on the same log group (replace or reject) is not defined by the source. Each call is recorded and succeeds unless it is the failing one.
- Payloads are modelled as dictionaries with string and map fields. A `tags` value of JSON null, or any non-dictionary value at a lookup, is not modelled. An absent key is modelled.
- Errors are modelled by kind, each with a payload of the model's own choosing. The source raises a bare IndexError for an entry without '=' (the model's `NoValueInTagRule` carries the entry), and whatever exception `put_subscription_filter` raised is re-raised at line 33 (the model's `SubscriptionFailed` carries the log-group name). Only the kind and the point where it is raised are claimed to match the source.
- A bulk inventory entry without a `logGroupName` key is not modelled. Pages are sequences of names.
- Dispatcher.ProcessEvents: uses the intended classifier `Classifier.Matches` rather than `Classifier.FilterLogGroupsAsWritten`, whose tag branch can never accept (see Findings). With the code as written, reactive mode differs exactly where `Classifier.MatchesAgreesOffDefects` allows.
- Dispatcher.ReactiveRun: describes reactive mode with `Classifier.Matches` as well, so it states the intended calls, not those of the tag branch as written.
- Dispatcher.HandlerRun: its reactive half is `Dispatcher.ReactiveRun`, and so uses `Classifier.Matches` too.
- Dispatcher.LambdaHandler: reaches reactive mode through `Dispatcher.ProcessEvents`, and so uses `Classifier.Matches` too.
- Classifier.Matches: parses a rule only when the loop reaches it, as the loop does, so a malformed entry after a met rule does not raise. `TagRules.MatchEntries` states how this relates to parsing every entry up front.

## Findings

| source | as written | input that shows it | evidently intended | confidence | as-written member | corrected member |
|---|---|---|---|---|---|---|
| src/index.py:49-50 | The loop variable is an entry string, and the entry list is indexed with it, which raises TypeError on the first iteration | LOG_GROUP_TAGS "env=prod"; a CreateLogGroup event whose name fails the pattern, tagged {"env": "prod"} | Parse each entry and accept when any rule is met (here: accept) | high (not executed) | Classifier.TagBranchCounterexample | Classifier.Matches |
| src/index.py:44 | The `tags` key is read unconditionally after the pattern branch; an event without it raises KeyError | any CreateLogGroup event with no `tags` key whose name fails the pattern | An event without tags has no tags: answer false | medium (not executed) | Classifier.AbsentTagsCounterexample | Classifier.Matches |
| src/index.py:53 | The tag map is subscripted with each configured key; a key the log group lacks raises KeyError and ends the OR | LOG_GROUP_TAGS "team=core,env=prod"; tags {"env": "prod"} | A missing key fails only that rule; the second rule is met, so accept | high (not executed) | TagRules.StrictLookupCounterexample | TagRules.MatchEntries |
