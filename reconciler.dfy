/**
 * Bulk mode: `process_existing_log_groups` and `subscribe_existing_log_groups`
 * (src/index.py:63-90). Every existing log group is listed page by page; those whose name passes
 * the pattern are subscribed in listing order, tags are never looked at, and the first failing
 * call ends the run with no rollback of the calls already made.
 */
module Reconciler {
  import opened Wrappers
  import opened Events
  import opened Subscription
  import Seqs

  /** The number of log groups the pages list together. */
  function PageSizes(pages: seq<seq<string>>): nat {
    if pages == [] then 0 else |pages[0]| + PageSizes(pages[1..])
  }

  /** The log groups of all pages, page after page, each page in listing order; none is dropped or repeated. */
  function Flatten(pages: seq<seq<string>>): (names: seq<string>)
    ensures |names| == PageSizes(pages)
  {
    if pages == [] then [] else pages[0] + Flatten(pages[1..])
  }

  /** A name is listed exactly when it is on some page. */
  lemma {:induction false} InFlatten(pages: seq<seq<string>>, x: string)
    ensures x in Flatten(pages) <==> exists i :: 0 <= i < |pages| && x in pages[i]
    decreases |pages|
  {
    if pages != [] {
      InFlatten(pages[1..], x);
      if x in Flatten(pages[1..]) {
        var i :| 0 <= i < |pages[1..]| && x in pages[1..][i];
        assert x in pages[i + 1];
      }
      if exists i :: 0 <= i < |pages| && x in pages[i] {
        var i :| 0 <= i < |pages| && x in pages[i];
        if i > 0 {
          assert x in pages[1..][i - 1];
        }
      }
    }
  }

  lemma {:induction false} FlattenConcat(a: seq<seq<string>>, b: seq<seq<string>>)
    ensures Flatten(a + b) == Flatten(a) + Flatten(b)
    decreases |a|
  {
    if a == [] {
      assert a + b == b;
    } else {
      assert (a + b)[1..] == a[1..] + b;
      FlattenConcat(a[1..], b);
    }
  }

  /** The names that pass the pattern, in their order. */
  function MatchingNames(pattern: string -> bool, names: seq<string>): (matching: seq<string>)
    ensures |matching| <= |names|
  {
    if names == [] then []
    else if pattern(names[0]) then [names[0]] + MatchingNames(pattern, names[1..])
    else MatchingNames(pattern, names[1..])
  }

  /** A name is among the matching names exactly when it is listed and passes the pattern. */
  lemma {:induction false} InMatching(pattern: string -> bool, names: seq<string>, x: string)
    ensures x in MatchingNames(pattern, names) <==> x in names && pattern(x)
    decreases |names|
  {
    if names != [] {
      InMatching(pattern, names[1..], x);
      assert names == [names[0]] + names[1..];
    }
  }

  lemma {:induction false} MatchingConcat(pattern: string -> bool, a: seq<string>, b: seq<string>)
    ensures MatchingNames(pattern, a + b) == MatchingNames(pattern, a) + MatchingNames(pattern, b)
    decreases |a|
  {
    if a == [] {
      assert a + b == b;
    } else {
      assert (a + b)[0] == a[0];
      assert (a + b)[1..] == a[1..] + b;
      MatchingConcat(pattern, a[1..], b);
      if pattern(a[0]) {
        assert MatchingNames(pattern, a + b) == [a[0]] + MatchingNames(pattern, a[1..] + b);
      }
    }
  }

  /** The names passing the pattern among a single name. */
  lemma MatchingOne(pattern: string -> bool, name: string)
    ensures MatchingNames(pattern, [name]) == if pattern(name) then [name] else []
  {
    assert [name][1..] == [];
  }

  /** The matches among the first i + 1 names: those among the first i, then name i if it passes. */
  lemma MatchingThrough(pattern: string -> bool, names: seq<string>, i: nat)
    requires i < |names|
    ensures MatchingNames(pattern, names[..i + 1]) == MatchingNames(pattern, names[..i]) + MatchingNames(pattern, [names[i]])
  {
    Seqs.SlicePush(names, i);
    MatchingConcat(pattern, names[..i], [names[i]]);
  }

  /** The matches among all names: those among the first i + 1, then those after. */
  lemma MatchingSplit(pattern: string -> bool, names: seq<string>, i: nat)
    requires i < |names|
    ensures MatchingNames(pattern, names)
            == MatchingNames(pattern, names[..i + 1]) + MatchingNames(pattern, names[i + 1..])
  {
    Seqs.SliceJoin(names, i + 1);
    MatchingConcat(pattern, names[..i + 1], names[i + 1..]);
  }

  /** The listing of the first p + 1 pages is that of the first p followed by page p. */
  lemma FlattenThroughPage(pages: seq<seq<string>>, p: nat)
    requires p < |pages|
    ensures Flatten(pages[..p + 1]) == Flatten(pages[..p]) + pages[p]
  {
    var before, page := pages[..p], pages[p];
    Seqs.SlicePush(pages, p);
    assert Flatten([page]) == page by {
      assert [page][1..] == [];
      assert Flatten([page]) == page + Flatten([]);
    }
    FlattenConcat(before, [page]);
  }

  /** The listing of all pages is that of the first p + 1 followed by that of the rest. */
  lemma FlattenSplit(pages: seq<seq<string>>, p: nat)
    requires p < |pages|
    ensures Flatten(pages) == Flatten(pages[..p + 1]) + Flatten(pages[p + 1..])
  {
    Seqs.SliceJoin(pages, p + 1);
    FlattenConcat(pages[..p + 1], pages[p + 1..]);
  }

  /** Splitting the pages at page p: the matches on the pages before it, on it, and after it. */
  lemma MatchingAroundPage(pattern: string -> bool, pages: seq<seq<string>>, p: nat)
    requires p < |pages|
    ensures MatchingNames(pattern, Flatten(pages[..p + 1]))
            == MatchingNames(pattern, Flatten(pages[..p])) + MatchingNames(pattern, pages[p])
    ensures MatchingNames(pattern, Flatten(pages))
            == MatchingNames(pattern, Flatten(pages[..p + 1])) + MatchingNames(pattern, Flatten(pages[p + 1..]))
  {
    FlattenThroughPage(pages, p);
    MatchingConcat(pattern, Flatten(pages[..p]), pages[p]);
    FlattenSplit(pages, p);
    MatchingConcat(pattern, Flatten(pages[..p + 1]), Flatten(pages[p + 1..]));
  }

  /**
   * A run that passed over `done` and then failed within `more` fails the same way whatever would
   * have followed.
   */
  lemma FailureEndsRun(failAt: Option<nat>, start: nat, done: seq<string>, more: seq<string>, rest: seq<string>)
    requires NoFailureWithin(failAt, start, |done|) && !NoFailureWithin(failAt, start + |done|, |more|)
    ensures var run := FailFast(failAt, start + |done|, more);
            FailFast(failAt, start, done + more + rest) == Run(done + run.attempted, run.outcome)
  {
    var k := failAt.value - start - |done|;
    var all := done + more + rest;
    assert all[..|done| + k + 1] == done + more[..k + 1];
    assert all[|done| + k] == more[k];
  }

  /**
   * The run bulk mode makes: fail-fast subscription of every listed name that passes the pattern.
   * It attempts a prefix of those names, passes exactly when none of its calls is the failing one,
   * and otherwise raises the error of its last call.
   */
  function BulkRun(cfg: Config, failAt: Option<nat>, start: nat, pages: seq<seq<string>>): (run: Run)
    ensures run.attempted <= MatchingNames(cfg.logGroupPattern, Flatten(pages))
    ensures run.outcome.Pass? <==> NoFailureWithin(failAt, start, |MatchingNames(cfg.logGroupPattern, Flatten(pages))|)
    ensures run.outcome.Fail? ==> run.attempted != [] && run.outcome.error == SubscriptionFailed(run.attempted[|run.attempted| - 1])
  {
    FailFast(failAt, start, MatchingNames(cfg.logGroupPattern, Flatten(pages)))
  }

  /** The calls of one page, appended to the calls of the pages before it. */
  lemma PageCalls(cfg: Config, origin: seq<SubscriptionRequest>, done: seq<string>, attempted: seq<string>,
                  before: seq<SubscriptionRequest>, after: seq<SubscriptionRequest>)
    requires before == origin + Requests(cfg, done)
    requires after == before + Requests(cfg, attempted)
    ensures |before| == |origin| + |done|
    ensures after == origin + Requests(cfg, done + attempted)
  {
    RequestsConcat(cfg, done, attempted);
    var x, y := Requests(cfg, done), Requests(cfg, attempted);
    assert (origin + x) + y == origin + (x + y);
  }

  /** A page that passes after earlier pages that passed: everything up to it has passed. */
  lemma PagePasses(pattern: string -> bool, failAt: Option<nat>, start: nat, pages: seq<seq<string>>, p: nat)
    requires p < |pages|
    requires NoFailureWithin(failAt, start, |MatchingNames(pattern, Flatten(pages[..p]))|)
    requires FailFast(failAt, start + |MatchingNames(pattern, Flatten(pages[..p]))|, MatchingNames(pattern, pages[p])).outcome.Pass?
    ensures FailFast(failAt, start + |MatchingNames(pattern, Flatten(pages[..p]))|, MatchingNames(pattern, pages[p])).attempted
            == MatchingNames(pattern, pages[p])
    ensures MatchingNames(pattern, Flatten(pages[..p + 1]))
            == MatchingNames(pattern, Flatten(pages[..p])) + MatchingNames(pattern, pages[p])
    ensures NoFailureWithin(failAt, start, |MatchingNames(pattern, Flatten(pages[..p + 1]))|)
  {
    var done := MatchingNames(pattern, Flatten(pages[..p]));
    var page := MatchingNames(pattern, pages[p]);
    assert NoFailureWithin(failAt, start + |done|, |page|);
    assert MatchingNames(pattern, Flatten(pages[..p + 1])) == done + page by {
      MatchingAroundPage(pattern, pages, p);
    }
  }

  /** A page that fails after earlier pages that passed: the whole bulk run fails there. */
  lemma PageFails(cfg: Config, failAt: Option<nat>, start: nat, pages: seq<seq<string>>, p: nat)
    requires p < |pages|
    requires NoFailureWithin(failAt, start, |MatchingNames(cfg.logGroupPattern, Flatten(pages[..p]))|)
    requires FailFast(failAt, start + |MatchingNames(cfg.logGroupPattern, Flatten(pages[..p]))|,
                      MatchingNames(cfg.logGroupPattern, pages[p])).outcome.Fail?
    ensures var run := FailFast(failAt, start + |MatchingNames(cfg.logGroupPattern, Flatten(pages[..p]))|,
                                MatchingNames(cfg.logGroupPattern, pages[p]));
            FailFast(failAt, start, MatchingNames(cfg.logGroupPattern, Flatten(pages)))
            == Run(MatchingNames(cfg.logGroupPattern, Flatten(pages[..p])) + run.attempted, run.outcome)
  {
    var pattern := cfg.logGroupPattern;
    var done := MatchingNames(pattern, Flatten(pages[..p]));
    var page := MatchingNames(pattern, pages[p]);
    var rest := MatchingNames(pattern, Flatten(pages[p + 1..]));
    assert !NoFailureWithin(failAt, start + |done|, |page|);
    assert MatchingNames(pattern, Flatten(pages)) == done + page + rest by {
      MatchingAroundPage(pattern, pages, p);
    }
    var run := FailFast(failAt, start + |done|, page);
    FailureEndsRun(failAt, start, done, page, rest);
    assert FailFast(failAt, start, done + page + rest) == Run(done + run.attempted, run.outcome);
  }

  /**
   * One page of the bulk run, given that the earlier pages passed and were subscribed: if the page
   * passes, everything up to it has passed and been subscribed; if it fails, the whole bulk run has
   * failed there and made exactly the calls so far.
   */
  lemma BulkStep(cfg: Config, failAt: Option<nat>, start: nat, pages: seq<seq<string>>, p: nat,
                 origin: seq<SubscriptionRequest>, before: seq<SubscriptionRequest>, run: Run,
                 after: seq<SubscriptionRequest>)
    requires p < |pages| && |origin| == start
    requires NoFailureWithin(failAt, start, |MatchingNames(cfg.logGroupPattern, Flatten(pages[..p]))|)
    requires before == origin + Requests(cfg, MatchingNames(cfg.logGroupPattern, Flatten(pages[..p])))
    requires run == FailFast(failAt, |before|, MatchingNames(cfg.logGroupPattern, pages[p]))
    requires after == before + Requests(cfg, run.attempted)
    ensures run.outcome.Pass? ==>
              && NoFailureWithin(failAt, start, |MatchingNames(cfg.logGroupPattern, Flatten(pages[..p + 1]))|)
              && after == origin + Requests(cfg, MatchingNames(cfg.logGroupPattern, Flatten(pages[..p + 1])))
    ensures run.outcome.Fail? ==>
              && var bulk := FailFast(failAt, start, MatchingNames(cfg.logGroupPattern, Flatten(pages)));
                 after == origin + Requests(cfg, bulk.attempted) && run.outcome == bulk.outcome
  {
    var done := MatchingNames(cfg.logGroupPattern, Flatten(pages[..p]));
    PageCalls(cfg, origin, done, run.attempted, before, after);
    if run.outcome.Fail? {
      PageFails(cfg, failAt, start, pages, p);
      assert FailFast(failAt, start, MatchingNames(cfg.logGroupPattern, Flatten(pages)))
             == Run(done + run.attempted, run.outcome);
    } else {
      PagePasses(cfg.logGroupPattern, failAt, start, pages, p);
      assert run.attempted == MatchingNames(cfg.logGroupPattern, pages[p]);
    }
  }

  /**
   * With no failing call, bulk mode subscribes exactly the listed names that pass the pattern, page
   * order first and listing order within a page, one call each, and passes.
   */
  lemma BulkSubscribesMatching(cfg: Config, failAt: Option<nat>, start: nat, pages: seq<seq<string>>)
    requires NoFailureWithin(failAt, start, |MatchingNames(cfg.logGroupPattern, Flatten(pages))|)
    ensures BulkRun(cfg, failAt, start, pages) == Run(MatchingNames(cfg.logGroupPattern, Flatten(pages)), Pass)
    ensures forall x :: x in BulkRun(cfg, failAt, start, pages).attempted
                        <==> cfg.logGroupPattern(x) && exists i :: 0 <= i < |pages| && x in pages[i]
  {
    forall x | true
      ensures x in MatchingNames(cfg.logGroupPattern, Flatten(pages))
              <==> cfg.logGroupPattern(x) && exists i :: 0 <= i < |pages| && x in pages[i]
    {
      InFlatten(pages, x);
      InMatching(cfg.logGroupPattern, Flatten(pages), x);
    }
  }

  /**
   * When the call for the k-th matching log group fails, the run stops there: the k earlier groups
   * and the failing one were attempted, nothing after it, and the run raises that call's error.
   */
  lemma BulkFailsFast(cfg: Config, start: nat, k: nat, pages: seq<seq<string>>)
    requires k < |MatchingNames(cfg.logGroupPattern, Flatten(pages))|
    ensures var m := MatchingNames(cfg.logGroupPattern, Flatten(pages));
            var run := BulkRun(cfg, Some(start + k), start, pages);
            run.attempted == m[..k + 1] && run.outcome == Fail(SubscriptionFailed(m[k]))
  {
  }

  /** Listing {"app-prod-1", "app-prod-2", "other-3"} under a pattern such as "^app-": the first two are subscribed. */
  lemma BulkExample(cfg: Config, app1: string, app2: string, other: string)
    requires cfg.logGroupPattern(app1) && cfg.logGroupPattern(app2) && !cfg.logGroupPattern(other)
    ensures BulkRun(cfg, None, 0, [[app1, app2, other]]) == Run([app1, app2], Pass)
  {
    assert Flatten([[app1, app2, other]]) == [app1, app2, other];
    var pattern := cfg.logGroupPattern;
    assert MatchingNames(pattern, [app1, app2, other]) == [app1, app2] by {
      assert MatchingNames(pattern, [other]) == [] by {
        assert [other][1..] == [];
      }
      assert MatchingNames(pattern, [app2, other]) == [app2] by {
        assert [app2, other][1..] == [other];
      }
      assert [app1, app2, other][1..] == [app2, other];
    }
  }

  /** Three matching groups whose second call fails: the third is never attempted and the run fails. */
  lemma FailFastExample(cfg: Config, a1: string, a2: string, a3: string)
    requires cfg.logGroupPattern(a1) && cfg.logGroupPattern(a2) && cfg.logGroupPattern(a3)
    ensures BulkRun(cfg, Some(1), 0, [[a1, a2], [a3]]) == Run([a1, a2], Fail(SubscriptionFailed(a2)))
  {
    var pattern := cfg.logGroupPattern;
    assert Flatten([[a1, a2], [a3]]) == [a1, a2, a3] by {
      assert Flatten([[a3]]) == [a3] by {
        assert [[a3]][1..] == [];
      }
      assert [[a1, a2], [a3]][1..] == [[a3]];
    }
    assert MatchingNames(pattern, [a1, a2, a3]) == [a1, a2, a3] by {
      assert MatchingNames(pattern, [a3]) == [a3] by {
        assert [a3][1..] == [];
      }
      assert MatchingNames(pattern, [a2, a3]) == [a2, a3] by {
        assert [a2, a3][1..] == [a3];
      }
      assert [a1, a2, a3][1..] == [a2, a3];
    }
    assert [a1, a2, a3][..2] == [a1, a2];
  }

  /**
   * `subscribe_existing_log_groups`: one page, in listing order; a name passing the pattern is
   * subscribed, any other is skipped, and the first failing call ends the page with its error.
   */
  method SubscribeExistingLogGroups(cfg: Config, client: LogsClient, logGroups: seq<string>) returns (r: Outcome<Error>)
    modifies client
    ensures var run := FailFast(client.failAt, old(|client.calls|), MatchingNames(cfg.logGroupPattern, logGroups));
            client.calls == old(client.calls) + Requests(cfg, run.attempted) && r == run.outcome
  {
    var pattern := cfg.logGroupPattern;
    ghost var start := |client.calls|;
    for i := 0 to |logGroups|
      invariant NoFailureWithin(client.failAt, start, |MatchingNames(pattern, logGroups[..i])|)
      invariant client.calls == old(client.calls) + Requests(cfg, MatchingNames(pattern, logGroups[..i]))
    {
      ghost var done := MatchingNames(pattern, logGroups[..i]);
      var name := logGroups[i];
      assert MatchingNames(pattern, logGroups[..i + 1]) == done + (if pattern(name) then [name] else []) by {
        MatchingThrough(pattern, logGroups, i);
        MatchingOne(pattern, name);
      }
      if pattern(name) {
        assert |client.calls| == start + |done|;
        var res := SubscribeToLambda(cfg, client, name);
        assert client.calls == old(client.calls) + Requests(cfg, done + [name]) by {
          RequestsConcat(cfg, done, [name]);
          assert Requests(cfg, [name]) == [RequestFor(cfg, name)];
        }
        if res.Fail? {
          ghost var rest := MatchingNames(pattern, logGroups[i + 1..]);
          assert FailFast(client.failAt, start, MatchingNames(pattern, logGroups)) == Run(done + [name], res) by {
            MatchingSplit(pattern, logGroups, i);
            FailureEndsRun(client.failAt, start, done, [name], rest);
          }
          r := res;
          return;
        }
      } else {
        assert done + [] == done;
      }
    }
    assert logGroups[..|logGroups|] == logGroups;
    r := Pass;
  }

  /**
   * `process_existing_log_groups`: every page of the listing in order, each handed to
   * SubscribeExistingLogGroups; a failure on any page ends the run and no later page is read.
   */
  method ProcessExistingLogGroups(cfg: Config, client: LogsClient) returns (r: Outcome<Error>)
    modifies client
    ensures var run := BulkRun(cfg, client.failAt, old(|client.calls|), client.logGroupPages);
            client.calls == old(client.calls) + Requests(cfg, run.attempted) && r == run.outcome
  {
    var pattern := cfg.logGroupPattern;
    var pages := client.logGroupPages;
    ghost var start := |client.calls|;
    ghost var bulk := BulkRun(cfg, client.failAt, start, pages);
    for p := 0 to |pages|
      invariant NoFailureWithin(client.failAt, start, |MatchingNames(pattern, Flatten(pages[..p]))|)
      invariant client.calls == old(client.calls) + Requests(cfg, MatchingNames(pattern, Flatten(pages[..p])))
    {
      ghost var before := client.calls;
      var res := SubscribeExistingLogGroups(cfg, client, pages[p]);
      ghost var run := FailFast(client.failAt, |before|, MatchingNames(pattern, pages[p]));
      BulkStep(cfg, client.failAt, start, pages, p, old(client.calls), before, run, client.calls);
      if res.Fail? {
        r := res;
        return;
      }
    }
    assert pages[..|pages|] == pages;
    assert bulk == Run(MatchingNames(pattern, Flatten(pages)), Pass);
    r := Pass;
  }
}
