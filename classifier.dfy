/**
 * `filter_log_groups` (src/index.py:36-60): is one log-group-creation event in scope? A creation
 * event whose log-group name passes the pattern is accepted at once; otherwise the configured tag
 * rules are tried against the event's tags.
 *
 * FilterLogGroupsAsWritten follows the code line by line, including three defects of the tag branch;
 * Matches is the classification the code evidently intends, and is what the dispatcher uses.
 */
module Classifier {
  import opened Wrappers
  import opened Text
  import opened Events
  import opened TagRules

  /** The event name of a log-group creation. */
  const CreateLogGroup := "CreateLogGroup"

  /**
   * `re.match(LOG_GROUP_PATTERN, name) and event['detail']['eventName'] == "CreateLogGroup"`:
   * the event name is looked up only when the pattern matches, so a name the pattern rejects gives
   * false even when `eventName` is absent.
   */
  function PatternBranch(cfg: Config, event: Event, name: string): (r: Result<bool, Error>)
    ensures !cfg.logGroupPattern(name) ==> r == Ok(false)
    ensures r == Ok(true) <==> cfg.logGroupPattern(name) && EventName(event) == Ok(CreateLogGroup)
    ensures r.Err? <==> cfg.logGroupPattern(name) && EventName(event).Err?
    ensures r.Err? ==> r.error == EventName(event).error
  {
    if !cfg.logGroupPattern(name) then Ok(false)
    else
      match EventName(event)
      case Err(e) => Err(e)
      case Ok(n) => Ok(n == CreateLogGroup)
  }

  /** A creation event whose log-group name passes the pattern. */
  predicate PatternAndCreation(cfg: Config, event: Event) {
    LogGroupName(event).Ok? && cfg.logGroupPattern(LogGroupName(event).value) && EventName(event) == Ok(CreateLogGroup)
  }

  /** The pattern matches but the event name is absent, so the pattern test itself raises. */
  predicate PatternBranchRaises(cfg: Config, event: Event) {
    LogGroupName(event).Ok? && PatternBranch(cfg, event, LogGroupName(event).value).Err?
  }

  /** The name is present and the pattern test neither accepted nor raised: the tag branch runs. */
  predicate ReachesTagBranch(cfg: Config, event: Event) {
    LogGroupName(event).Ok? && PatternBranch(cfg, event, LogGroupName(event).value) == Ok(false)
  }

  /**
   * The classifier as written. Past the pattern branch it reads `tags` unconditionally (KeyError
   * when absent), and when both LOG_GROUP_TAGS and the tags are non-empty its loop indexes the
   * entry list with an entry (`tags_array[i]`), which raises TypeError: the tag rules can never
   * accept an event.
   */
  function FilterLogGroupsAsWritten(cfg: Config, event: Event): (r: Result<bool, Error>)
    ensures LogGroupName(event).Err? ==> r == Err(LogGroupName(event).error)
    ensures PatternAndCreation(cfg, event) ==> r == Ok(true)
    ensures PatternBranchRaises(cfg, event) ==> r == Err(MissingKey("eventName"))
    ensures ReachesTagBranch(cfg, event) && EventTags(event).Err? ==> r == Err(MissingKey("tags"))
    ensures ReachesTagBranch(cfg, event) && EventTags(event).Ok?
            && (cfg.logGroupTags == "" || EventTags(event).value == map[])
            ==> r == Ok(false)
    ensures ReachesTagBranch(cfg, event) && EventTags(event).Ok?
            && cfg.logGroupTags != "" && EventTags(event).value != map[]
            ==> r == Err(ListIndexedByString)
    ensures r == Ok(true) <==> PatternAndCreation(cfg, event)
  {
    match LogGroupName(event)
    case Err(e) => Err(e)
    case Ok(name) =>
      match PatternBranch(cfg, event, name)
      case Err(e) => Err(e)
      case Ok(true) => Ok(true)
      case Ok(false) =>
        match EventTags(event)
        case Err(e) => Err(e)
        case Ok(tags) =>
          // `tags_array` has at least one entry, and indexing it with that entry raises at once
          if cfg.logGroupTags != "" && tags != map[] then Err(ListIndexedByString) else Ok(false)
  }

  /** The event's tags, an absent `tags` key read as no tags. */
  function TagsOrNone(event: Event): Tags {
    if EventTags(event).Ok? then EventTags(event).value else map[]
  }

  /**
   * The classifier as intended: absent tags are no tags, the loop walks the entries themselves, and
   * a configured key the log group lacks fails that rule only. With a well-formed configuration it
   * accepts exactly the creation events passing the pattern and the events meeting some tag rule.
   */
  function Matches(cfg: Config, event: Event): (r: Result<bool, Error>)
    ensures LogGroupName(event).Err? ==> r == Err(LogGroupName(event).error)
    ensures PatternAndCreation(cfg, event) ==> r == Ok(true)
    ensures PatternBranchRaises(cfg, event) ==> r == Err(MissingKey("eventName"))
    ensures ReachesTagBranch(cfg, event) && (cfg.logGroupTags == "" || TagsOrNone(event) == map[]) ==> r == Ok(false)
    ensures ReachesTagBranch(cfg, event) && ParseTagRules(cfg.logGroupTags).Ok?
            ==> r == Ok(AnyRuleHolds(ParseTagRules(cfg.logGroupTags).value, TagsOrNone(event)))
    ensures r.Err? ==> LogGroupName(event).Err? || PatternBranchRaises(cfg, event) || ParseTagRules(cfg.logGroupTags).Err?
  {
    match LogGroupName(event)
    case Err(e) => Err(e)
    case Ok(name) =>
      match PatternBranch(cfg, event, name)
      case Err(e) => Err(e)
      case Ok(true) => Ok(true)
      case Ok(false) =>
        var tags := TagsOrNone(event);
        if cfg.logGroupTags != "" && tags != map[] then MatchEntries(Split(cfg.logGroupTags, ','), tags)
        else Ok(false)
  }

  /**
   * On a creation event whose name passes the pattern both classifiers accept, whatever tags the
   * event carries or whether it carries the `tags` key at all: the tags are never read.
   */
  lemma PatternMatchIgnoresTags(cfg: Config, event: Event, tags: Option<Tags>)
    requires PatternAndCreation(cfg, event)
    ensures FilterLogGroupsAsWritten(cfg, WithTags(event, tags)) == Ok(true)
    ensures Matches(cfg, WithTags(event, tags)) == Ok(true)
  {
    assert PatternAndCreation(cfg, WithTags(event, tags));
  }

  /**
   * Wherever the code as written does not hit one of its tag-branch defects, the intended classifier
   * gives the same answer or raises the same error; where the `tags` key is absent it answers no.
   */
  lemma MatchesAgreesOffDefects(cfg: Config, event: Event)
    ensures FilterLogGroupsAsWritten(cfg, event) !in {Err(ListIndexedByString), Err(MissingKey("tags"))}
            ==> Matches(cfg, event) == FilterLogGroupsAsWritten(cfg, event)
    ensures FilterLogGroupsAsWritten(cfg, event) == Err(MissingKey("tags")) ==> Matches(cfg, event) == Ok(false)
  {
  }

  /**
   * A one-rule LOG_GROUP_TAGS such as "env=prod" and a creation event carrying exactly that tag
   * (say {"env": "prod"}) whose name fails the pattern: the rule is met, yet the code as written
   * raises TypeError.
   */
  lemma TagBranchCounterexample(cfg: Config, name: string, rule: TagRule)
    requires CleanRule(rule) && rule.value != ""
    requires cfg.logGroupTags == Render([rule]) && !cfg.logGroupPattern(name)
    ensures FilterLogGroupsAsWritten(cfg, MakeEvent(CreateLogGroup, name, Some(map[rule.key := rule.value])))
            == Err(ListIndexedByString)
    ensures Matches(cfg, MakeEvent(CreateLogGroup, name, Some(map[rule.key := rule.value]))) == Ok(true)
  {
    var tags := map[rule.key := rule.value];
    assert cfg.logGroupTags != "" by {
      assert Entries([rule]) == [Entry(rule)];
      assert cfg.logGroupTags == Entry(rule);
    }
    RenderParses([rule]);
    assert AnyRuleHolds([rule], tags) by {
      assert RuleHolds(rule, tags);
    }
  }

  /** An untagged event whose name does not pass the pattern: the code raises where it should answer no. */
  lemma AbsentTagsCounterexample(cfg: Config, name: string)
    requires !cfg.logGroupPattern(name)
    ensures FilterLogGroupsAsWritten(cfg, MakeEvent(CreateLogGroup, name, None)) == Err(MissingKey("tags"))
    ensures Matches(cfg, MakeEvent(CreateLogGroup, name, None)) == Ok(false)
  {
  }

  /**
   * For a LOG_GROUP_TAGS written out from well-formed rules, an event that reaches the tag branch is
   * accepted exactly when at least one rule holds of its tags: one rule suffices, whatever the others.
   */
  lemma RenderedRulesDecide(cfg: Config, event: Event, rules: seq<TagRule>)
    requires |rules| >= 1 && forall i :: 0 <= i < |rules| ==> CleanRule(rules[i])
    requires cfg.logGroupTags == Render(rules) && ReachesTagBranch(cfg, event)
    ensures Matches(cfg, event) == Ok(exists i :: 0 <= i < |rules| && RuleHolds(rules[i], TagsOrNone(event)))
  {
    RenderParses(rules);
  }
}
