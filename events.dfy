/**
 * The shapes the handler works on: the CloudTrail "CreateLogGroup" event it receives in reactive mode,
 * the configuration it reads from its environment, and the exceptions its code paths raise.
 */
module Events {
  import opened Wrappers

  /** The exceptions the handler can raise, each named after the line that raises it. */
  datatype Error =
    | MissingKey(key: string)                 // KeyError from a dict lookup of an absent key
    | ListIndexedByString                     // TypeError from `tags_array[i]` with `i` a str (line 50)
    | NoValueInTagRule(entry: string)         // IndexError from `tag[1]` for an entry without '='
    | SubscriptionFailed(logGroupName: string) // put_subscription_filter raised for this log group

  /** The tag map of a log group; a value is truthy in Python exactly when it is not empty. */
  type Tags = map<string, string>

  /** `event['detail']['requestParameters']`: None for a key that is absent from the payload. */
  datatype RequestParameters = RequestParameters(logGroupName: Option<string>, tags: Option<Tags>)

  /** `event['detail']`. */
  datatype Detail = Detail(eventName: Option<string>, requestParameters: Option<RequestParameters>)

  /** The invocation payload in reactive mode. */
  datatype Event = Event(detail: Option<Detail>)

  /**
   * The environment variables read at import time. The compiled LOG_GROUP_PATTERN is represented by
   * its match test: `logGroupPattern(name)` is the truthiness of `re.match(LOG_GROUP_PATTERN, name)`.
   */
  datatype Config = Config(
    useExistingLogGroups: string,        // USE_EXISTING_LOG_GROUPS
    logGroupTags: string,                // LOG_GROUP_TAGS, "k=v,k=v"
    logGroupPattern: string -> bool,     // LOG_GROUP_PATTERN
    lambdaArn: string)                   // LAMBDA_ARN

  /** `event['detail']['requestParameters']`, raising KeyError for the first absent key. */
  function Parameters(event: Event): Result<RequestParameters, Error> {
    match event.detail
    case None => Err(MissingKey("detail"))
    case Some(d) =>
      match d.requestParameters
      case None => Err(MissingKey("requestParameters"))
      case Some(p) => Ok(p)
  }

  /**
   * `event['detail']['requestParameters']['logGroupName']`: the field's value when every key on the
   * path is present, otherwise KeyError for the first absent one.
   */
  function LogGroupName(event: Event): (r: Result<string, Error>)
    ensures r.Ok? <==> (event.detail.Some? && event.detail.value.requestParameters.Some?
                        && event.detail.value.requestParameters.value.logGroupName.Some?)
    ensures r.Ok? ==> Some(r.value) == event.detail.value.requestParameters.value.logGroupName
    ensures event.detail.None? ==> r == Err(MissingKey("detail"))
    ensures event.detail.Some? && event.detail.value.requestParameters.None? ==> r == Err(MissingKey("requestParameters"))
    ensures r.Err? ==> r.error.MissingKey?
  {
    match Parameters(event)
    case Err(e) => Err(e)
    case Ok(p) => if p.logGroupName.Some? then Ok(p.logGroupName.value) else Err(MissingKey("logGroupName"))
  }

  /**
   * `event['detail']['eventName']`: the field's value when both keys are present, otherwise KeyError
   * for the first absent one. It does not depend on `requestParameters`.
   */
  function EventName(event: Event): (r: Result<string, Error>)
    ensures r.Ok? <==> event.detail.Some? && event.detail.value.eventName.Some?
    ensures r.Ok? ==> Some(r.value) == event.detail.value.eventName
    ensures event.detail.None? ==> r == Err(MissingKey("detail"))
    ensures r.Err? ==> r.error.MissingKey?
  {
    match event.detail
    case None => Err(MissingKey("detail"))
    case Some(d) => if d.eventName.Some? then Ok(d.eventName.value) else Err(MissingKey("eventName"))
  }

  /**
   * `event['detail']['requestParameters']['tags']`: the tag map when every key on the path is
   * present, otherwise KeyError for the first absent one.
   */
  function EventTags(event: Event): (r: Result<Tags, Error>)
    ensures r.Ok? <==> (event.detail.Some? && event.detail.value.requestParameters.Some?
                        && event.detail.value.requestParameters.value.tags.Some?)
    ensures r.Ok? ==> Some(r.value) == event.detail.value.requestParameters.value.tags
    ensures event.detail.None? ==> r == Err(MissingKey("detail"))
    ensures event.detail.Some? && event.detail.value.requestParameters.None? ==> r == Err(MissingKey("requestParameters"))
    ensures r.Err? ==> r.error.MissingKey?
  {
    match Parameters(event)
    case Err(e) => Err(e)
    case Ok(p) => if p.tags.Some? then Ok(p.tags.value) else Err(MissingKey("tags"))
  }

  /** The same event carrying other tags (or none), used to state that a decision does not read them. */
  function WithTags(event: Event, tags: Option<Tags>): Event
    requires Parameters(event).Ok?
  {
    var d := event.detail.value;
    Event(Some(d.(requestParameters := Some(d.requestParameters.value.(tags := tags)))))
  }

  /** A well-formed CreateLogGroup-style event with the given fields. */
  function MakeEvent(eventName: string, logGroupName: string, tags: Option<Tags>): Event {
    Event(Some(Detail(Some(eventName), Some(RequestParameters(Some(logGroupName), tags)))))
  }
}
