/**
 * The tag-rule part of the classifier: LOG_GROUP_TAGS is a comma-separated list of `key=value`
 * entries, and a log group is in scope when one rule is met by its tags.
 */
module TagRules {
  import opened Wrappers
  import opened Text
  import opened Events

  datatype TagRule = TagRule(key: string, value: string)

  /** One entry: `tag = entry.split("=")`, the key is `tag[0].strip()` and the value `tag[1].strip()`. */
  function ParseRule(entry: string): (r: Result<TagRule, Error>)
    ensures r.Err? <==> '=' !in entry
    ensures r.Err? ==> r.error == NoValueInTagRule(entry)
  {
    SplitHasSecondPiece(entry, '=');
    var tag := Split(entry, '=');
    if |tag| < 2 then Err(NoValueInTagRule(entry))
    else Ok(TagRule(Strip(tag[0]), Strip(tag[1])))
  }

  /** The key is the stripped text before the first '=', the value the stripped text up to the next one. */
  lemma ParseRuleFields(k: string, v: string, tail: string)
    requires '=' !in k && '=' !in v
    ensures ParseRule(k + ['='] + v) == Ok(TagRule(Strip(k), Strip(v)))
    ensures ParseRule(k + ['='] + v + ['='] + tail) == Ok(TagRule(Strip(k), Strip(v)))
  {
    SplitAtFirstSep(k, '=', v);
    SplitWithoutSep(v, '=');
    assert k + ['='] + v + ['='] + tail == k + ['='] + (v + ['='] + tail);
    SplitAtFirstSep(k, '=', v + ['='] + tail);
    SplitAtFirstSep(v, '=', tail);
  }

  /** Every entry parsed, in order; the first entry without '=' makes the whole list fail. */
  function ParseEntries(entries: seq<string>): (r: Result<seq<TagRule>, Error>)
    ensures r.Ok? <==> forall i :: 0 <= i < |entries| ==> '=' in entries[i]
    ensures r.Ok? ==> |r.value| == |entries|
    ensures r.Err? ==> r.error.NoValueInTagRule?
    ensures r.Ok? ==> forall i :: 0 <= i < |entries| ==> ParseRule(entries[i]) == Ok(r.value[i])
  {
    if entries == [] then Ok([])
    else
      match ParseRule(entries[0])
      case Err(e) => Err(e)
      case Ok(rule) =>
        match ParseEntries(entries[1..])
        case Err(e) => Err(e)
        case Ok(rules) => Ok([rule] + rules)
  }

  /** The comma-separated entries of LOG_GROUP_TAGS; the empty string has none. */
  function ConfigEntries(config: string): seq<string> {
    if config == "" then [] else Split(config, ',')
  }

  /**
   * The rules LOG_GROUP_TAGS configures: one per entry, in order; the parse fails when some entry
   * has no '='.
   */
  function ParseTagRules(config: string): (r: Result<seq<TagRule>, Error>)
    ensures config == "" ==> r == Ok([])
    ensures var entries := ConfigEntries(config);
            && (r.Ok? <==> forall i :: 0 <= i < |entries| ==> '=' in entries[i])
            && (r.Ok? ==> |r.value| == |entries|)
            && (r.Ok? ==> forall i :: 0 <= i < |entries| ==> ParseRule(entries[i]) == Ok(r.value[i]))
    ensures r.Err? ==> r.error.NoValueInTagRule?
  {
    ParseEntries(ConfigEntries(config))
  }

  /** The configuration entry that states a rule. */
  function Entry(rule: TagRule): string {
    rule.key + ['='] + rule.value
  }

  function Entries(rules: seq<TagRule>): seq<string> {
    if rules == [] then [] else [Entry(rules[0])] + Entries(rules[1..])
  }

  /** The LOG_GROUP_TAGS string that configures the given rules. */
  function Render(rules: seq<TagRule>): string
    requires |rules| >= 1
  {
    Join(Entries(rules), ',')
  }

  /** A rule that Render can write out and ParseTagRules read back. */
  predicate CleanRule(rule: TagRule) {
    '=' !in rule.key && '=' !in rule.value && ',' !in rule.key && ',' !in rule.value
    && Trimmed(rule.key) && Trimmed(rule.value)
  }

  /** A well-formed rule's entry parses back to the rule. */
  lemma ParseCleanEntry(rule: TagRule)
    requires CleanRule(rule)
    ensures ParseRule(Entry(rule)) == Ok(rule)
  {
    ParseRuleFields(rule.key, rule.value, "");
    StripTrimmed(rule.key);
    StripTrimmed(rule.value);
  }

  /** One entry per rule, and no entry of a well-formed rule holds the separator ','. */
  lemma {:induction false} EntriesAvoidComma(rules: seq<TagRule>)
    requires forall i :: 0 <= i < |rules| ==> CleanRule(rules[i])
    ensures |Entries(rules)| == |rules|
    ensures forall i :: 0 <= i < |rules| ==> ',' !in Entries(rules)[i]
    decreases |rules|
  {
    if rules != [] {
      EntriesAvoidComma(rules[1..]);
      assert Entries(rules)[1..] == Entries(rules[1..]);
      assert ',' !in Entry(rules[0]);
    }
  }

  /** The entries written out from well-formed rules parse back to those rules. */
  lemma {:induction false} ParseEntriesOfRules(rules: seq<TagRule>)
    requires forall i :: 0 <= i < |rules| ==> CleanRule(rules[i])
    ensures ParseEntries(Entries(rules)) == Ok(rules)
    decreases |rules|
  {
    if rules != [] {
      var r := rules[0];
      var entries := Entries(rules);
      ParseEntriesOfRules(rules[1..]);
      assert entries[1..] == Entries(rules[1..]);
      ParseCleanEntry(r);
      assert [r] + rules[1..] == rules;
    }
  }

  /** Parsing a rendered configuration gives back its rules. */
  lemma RenderParses(rules: seq<TagRule>)
    requires |rules| >= 1
    requires forall i :: 0 <= i < |rules| ==> CleanRule(rules[i])
    ensures ParseTagRules(Render(rules)) == Ok(rules)
  {
    EntriesAvoidComma(rules);
    ParseEntriesOfRules(rules);
    SplitJoin(Entries(rules), ',');
    assert Render(rules) != "" by {
      if |rules| > 1 {
        assert Render(rules) == Entry(rules[0]) + [','] + Join(Entries(rules)[1..], ',');
      }
    }
  }

  /** `log_group_tags[key] and log_group_tags[key] == value`, with an absent key read as no match. */
  function RuleHolds(rule: TagRule, tags: Tags): (b: bool)
    ensures rule.value == "" ==> !b
    ensures rule.value != "" ==> (b <==> rule.key in tags && tags[rule.key] == rule.value)
  {
    rule.key in tags && tags[rule.key] != "" && tags[rule.key] == rule.value
  }

  /** The intended OR over the rules: some rule is met by the tags. */
  function AnyRuleHolds(rules: seq<TagRule>, tags: Tags): (b: bool)
    ensures b <==> exists i :: 0 <= i < |rules| && RuleHolds(rules[i], tags)
  {
    if rules == [] then false
    else RuleHolds(rules[0], tags) || AnyRuleHolds(rules[1..], tags)
  }

  /**
   * The rule loop of lines 49-55 as evidently intended: each entry is parsed when the loop reaches it
   * and the search stops at the first rule met. It agrees with the OR over the parsed rules whenever
   * every entry parses; a parse error is raised only for an entry the search reaches.
   */
  function MatchEntries(entries: seq<string>, tags: Tags): (r: Result<bool, Error>)
    ensures ParseEntries(entries).Ok? ==> r == Ok(AnyRuleHolds(ParseEntries(entries).value, tags))
    ensures r.Err? ==> ParseEntries(entries).Err?
    ensures r == Ok(false) ==> ParseEntries(entries).Ok?
  {
    if entries == [] then Ok(false)
    else
      match ParseRule(entries[0])
      case Err(e) => Err(e)
      case Ok(rule) => if RuleHolds(rule, tags) then Ok(true) else MatchEntries(entries[1..], tags)
  }

  /**
   * Lines 49-55 with the loop variable used as the entry but the lookup `log_group_tags[key]` left
   * as written: a configured key that the log group lacks raises KeyError and ends the search.
   */
  function StrictRuleLoop(entries: seq<string>, tags: Tags): (r: Result<bool, Error>)
    ensures r.Ok? ==> r == MatchEntries(entries, tags)
    ensures r.Err? && !r.error.MissingKey? ==> r == MatchEntries(entries, tags)
  {
    if entries == [] then Ok(false)
    else
      match ParseRule(entries[0])
      case Err(e) => Err(e)
      case Ok(rule) =>
        if rule.key !in tags then Err(MissingKey(rule.key))
        else if tags[rule.key] != "" && tags[rule.key] == rule.value then Ok(true)
        else StrictRuleLoop(entries[1..], tags)
  }

  /**
   * Two rules, the first naming a key the log group lacks and the second met by its tags: the
   * intended search finds the second rule, the strict lookup raises on the first key.
   */
  lemma StrictLookupAborts(k1: string, v1: string, k2: string, v2: string)
    requires '=' !in k1 && '=' !in v1 && '=' !in k2 && '=' !in v2
    requires Trimmed(k1) && Trimmed(k2) && Trimmed(v2)
    requires k1 != k2 && v2 != ""
    ensures var entries := [k1 + ['='] + v1, k2 + ['='] + v2];
            StrictRuleLoop(entries, map[k2 := v2]) == Err(MissingKey(k1))
            && MatchEntries(entries, map[k2 := v2]) == Ok(true)
  {
    var e1, e2 := k1 + ['='] + v1, k2 + ['='] + v2;
    var tags := map[k2 := v2];
    var r1, r2 := TagRule(k1, Strip(v1)), TagRule(k2, v2);
    assert ParseRule(e1) == Ok(r1) by {
      StripTrimmed(k1);
      ParseRuleFields(k1, v1, "");
    }
    assert ParseRule(e2) == Ok(r2) by {
      StripTrimmed(k2);
      StripTrimmed(v2);
      ParseRuleFields(k2, v2, "");
    }
    assert StrictRuleLoop([e1, e2], tags) == Err(MissingKey(k1)) by {
      assert k1 !in tags;
    }
    assert MatchEntries([e1, e2], tags) == Ok(true) by {
      assert !RuleHolds(r1, tags);
      assert [e1, e2][1..] == [e2];
      assert MatchEntries([e2], tags) == Ok(true) by {
        assert RuleHolds(r2, tags);
      }
    }
  }

  /**
   * With rules "team=core,env=prod" and tags {"env": "prod"} the second rule is met, but the strict
   * lookup raises on the absent "team" key before reaching it.
   */
  lemma StrictLookupCounterexample()
    ensures StrictRuleLoop(["team=core", "env=prod"], map["env" := "prod"]) == Err(MissingKey("team"))
    ensures MatchEntries(["team=core", "env=prod"], map["env" := "prod"]) == Ok(true)
  {
    assert "team=core" == "team" + ['='] + "core";
    assert "env=prod" == "env" + ['='] + "prod";
    StrictLookupAborts("team", "core", "env", "prod");
  }
}
