/** The periodic backfill: search for open items of the repository that do not
    yet carry the comment, walk the result pages in order, and mark every item.
    Paging is abstracted: `search` gives the pages a query yields. */
module Backfill {
  import opened Shapes
  import opened OrderedSet
  import opened Helper

  /** The result pages of each search query, in page order. */
  type SearchResults = string -> seq<seq<Issue>>

  /** `createQuery`: open items of the repository's type whose comments do not mention the marker. */
  function CreateQuery(owner: string, repo: string, kind: IssueKind): (q: string)
    ensures "NOT " + Marker + " " <= q
  {
    var q := "NOT gitpod repo:" + owner + "/" + repo + " type:" + (if kind == Pulls then "pr" else "issue") + " is:open in:comments";
    assert q[..11] == "NOT gitpod repo:"[..11];
    q
  }

  /** With pull requests on, `markAll` runs exactly one query: open pull
      requests of the repository whose comments do not mention the marker. */
  lemma PullsQueryText(g: Gitpod)
    requires g.config.pulls.perform
    ensures Queries(g, Pulls) == ["NOT gitpod repo:" + g.owner + "/" + g.repo + " type:pr is:open in:comments"]
  {
    var a := "NOT gitpod repo:" + g.owner + "/" + g.repo;
    assert CreateQuery(g.owner, g.repo, Pulls) == a + " type:" + "pr" + " is:open in:comments";
    assert a + " type:" + "pr" + " is:open in:comments" == a + (" type:" + "pr" + " is:open in:comments");
    assert " type:" + "pr" + " is:open in:comments" == " type:pr is:open in:comments";
  }

  /** With issues on, the query for the i-th configured label selects open
      issues of the repository carrying that label whose comments do not
      mention the marker. */
  lemma IssueQueryText(g: Gitpod, i: int)
    requires g.config.issues.perform && 0 <= i < |g.config.issues.labels|
    ensures Queries(g, Issues)[i] ==
      "NOT gitpod repo:" + g.owner + "/" + g.repo + " type:issue is:open in:comments"
        + " label:\"" + g.config.issues.labels[i] + "\""
  {
  }

  /** The two features never search with the same query, so one search-result
      function can serve both backfills of a scheduled event without the
      pull-request results leaking into the issue run or the other way round. */
  lemma QueriesOfKindsDiffer(owner: string, repo: string)
    ensures CreateQuery(owner, repo, Pulls) != CreateQuery(owner, repo, Issues)
  {
  }

  /** The issue query narrowed to one configured label. */
  function LabelQuery(base: string, name: string): string {
    base + " label:\"" + name + "\""
  }

  /** Different labels give different queries. */
  lemma LabelQueryInjective(base: string, a: string, b: string)
    requires LabelQuery(base, a) == LabelQuery(base, b)
    ensures a == b
  {
    var p := base + " label:\"";
    assert LabelQuery(base, a) == p + a + "\"";
    assert LabelQuery(base, b) == p + b + "\"";
    assert |a| == |b|;
    assert (p + a + "\"")[|p|..|p| + |a|] == a;
    assert (p + b + "\"")[|p|..|p| + |b|] == b;
  }

  /** The queries `markAll` runs for a feature, in order: none when the feature
      is off, the one pull-request query, or one issue query per configured label. */
  function Queries(g: Gitpod, kind: IssueKind): (qs: seq<string>)
    ensures !g.config.Perform(kind) ==> qs == []
    ensures g.config.Perform(kind) && kind == Pulls ==> qs == [CreateQuery(g.owner, g.repo, Pulls)]
    ensures g.config.Perform(kind) && kind == Issues ==>
      && |qs| == |g.config.issues.labels|
      && forall i :: 0 <= i < |qs| ==> qs[i] == LabelQuery(CreateQuery(g.owner, g.repo, Issues), g.config.issues.labels[i])
  {
    if !g.config.Perform(kind) then []
    else if kind == Pulls then [CreateQuery(g.owner, g.repo, Pulls)]
    else
      var base := CreateQuery(g.owner, g.repo, Issues);
      seq(|g.config.issues.labels|, i requires 0 <= i < |g.config.issues.labels| => LabelQuery(base, g.config.issues.labels[i]))
  }

  /** With a duplicate-free label set, no issue query is run twice. */
  lemma IssueQueriesDistinct(g: Gitpod)
    requires NoDuplicates(g.config.issues.labels)
    ensures NoDuplicates(Queries(g, Issues))
  {
    var qs := Queries(g, Issues);
    var base := CreateQuery(g.owner, g.repo, Issues);
    forall i, j | 0 <= i < j < |qs|
      ensures qs[i] != qs[j]
    {
      if qs[i] == qs[j] {
        LabelQueryInjective(base, g.config.issues.labels[i], g.config.issues.labels[j]);
      }
    }
  }

  /** The items of all pages, in page order. */
  function Flatten(pages: seq<seq<Issue>>): seq<Issue> {
    if |pages| == 0 then [] else Flatten(pages[..|pages| - 1]) + pages[|pages| - 1]
  }

  /** The items that qualify for the feature's comment, in their order. */
  function Matching(config: GitpodConfig, kind: IssueKind, items: seq<Issue>): (ms: seq<Issue>)
    ensures forall x :: x in ms <==> x in items && Match(config, kind, x)
    ensures |ms| <= |items|
  {
    if |items| == 0 then []
    else
      var front := items[..|items| - 1];
      var last := items[|items| - 1];
      assert items == front + [last];
      Matching(config, kind, front) + (if Match(config, kind, last) then [last] else [])
  }

  /** The comment actions marking `issues`, in order. */
  function CommentsOn(g: Gitpod, kind: IssueKind, issues: seq<Issue>): seq<Action> {
    if |issues| == 0 then []
    else CommentsOn(g, kind, issues[..|issues| - 1]) + [CommentOn(g, kind, issues[|issues| - 1])]
  }

  /** Comments depend only on the repository and the configuration. */
  lemma {:induction false} CommentsOnSameTarget(g: Gitpod, h: Gitpod, kind: IssueKind, issues: seq<Issue>)
    requires g.owner == h.owner && g.repo == h.repo && g.config == h.config
    ensures CommentsOn(g, kind, issues) == CommentsOn(h, kind, issues)
    decreases |issues|
  {
    if |issues| > 0 {
      CommentsOnSameTarget(g, h, kind, issues[..|issues| - 1]);
    }
  }

  /** One comment per item, no searches, and every body carries the marker. */
  lemma {:induction false} CommentsOnFacts(g: Gitpod, kind: IssueKind, issues: seq<Issue>)
    ensures Posted(CommentsOn(g, kind, issues)) == |issues|
    ensures Searches(CommentsOn(g, kind, issues)) == []
    ensures forall a :: a in CommentsOn(g, kind, issues) ==> a.CreateComment? && Mentions(a.body, Marker)
    decreases |issues|
  {
    if |issues| > 0 {
      var front := issues[..|issues| - 1];
      var c := CommentOn(g, kind, issues[|issues| - 1]);
      CommentsOnFacts(g, kind, front);
      var cs := CommentsOn(g, kind, front) + [c];
      assert cs[..|cs| - 1] == CommentsOn(g, kind, front);
      BodyMentionsMarker(g.config, kind, issues[|issues| - 1].htmlUrl);
    }
  }

  /** The inner loop of `doMarkAll`: mark each item of a page in order. */
  function MarkEach(g: Gitpod, kind: IssueKind, items: seq<Issue>): Gitpod
    decreases |items|
  {
    if |items| == 0 then g
    else Mark(MarkEach(g, kind, items[..|items| - 1]), kind, items[|items| - 1])
  }

  /** The outer loop of `doMarkAll`: mark the items of each page, page by page. */
  function MarkPages(g: Gitpod, kind: IssueKind, pages: seq<seq<Issue>>): Gitpod
    decreases |pages|
  {
    if |pages| == 0 then g
    else MarkEach(MarkPages(g, kind, pages[..|pages| - 1]), kind, pages[|pages| - 1])
  }

  /** `doMarkAll`: run one search, then mark every item of its pages. */
  function DoMarkAll(g: Gitpod, kind: IssueKind, query: string, search: SearchResults): Gitpod {
    MarkPages(g.(log := g.log + [Search(query)]), kind, search(query))
  }

  /** The queries of `markAll`, one after the other. */
  function RunQueries(g: Gitpod, kind: IssueKind, qs: seq<string>, search: SearchResults): Gitpod
    decreases |qs|
  {
    if |qs| == 0 then g
    else DoMarkAll(RunQueries(g, kind, qs[..|qs| - 1], search), kind, qs[|qs| - 1], search)
  }

  /** `markAll`: nothing when the feature is off; otherwise the pull-request
      query, or one query per configured label. */
  function MarkAll(g: Gitpod, kind: IssueKind, search: SearchResults): Gitpod {
    if !g.config.Perform(kind) then g
    else RunQueries(g, kind, Queries(g, kind), search)
  }

  /** What one query adds to the log: the search, then a comment on each matching result. */
  function QueryTrace(g: Gitpod, kind: IssueKind, q: string, search: SearchResults): seq<Action> {
    [Search(q)] + CommentsOn(g, kind, Matching(g.config, kind, Flatten(search(q))))
  }

  /** What a run of queries adds to the log. */
  function Trace(g: Gitpod, kind: IssueKind, qs: seq<string>, search: SearchResults): seq<Action>
    decreases |qs|
  {
    if |qs| == 0 then []
    else Trace(g, kind, qs[..|qs| - 1], search) + QueryTrace(g, kind, qs[|qs| - 1], search)
  }

  /** The number of matching items over all pages of all queries. */
  function TotalMatches(config: GitpodConfig, kind: IssueKind, qs: seq<string>, search: SearchResults): nat
    decreases |qs|
  {
    if |qs| == 0 then 0
    else TotalMatches(config, kind, qs[..|qs| - 1], search) + |Matching(config, kind, Flatten(search(qs[|qs| - 1])))|
  }

  /** Marking a concatenation is marking the first part, then the second. */
  lemma {:induction false} MarkEachAppend(g: Gitpod, kind: IssueKind, a: seq<Issue>, b: seq<Issue>)
    ensures MarkEach(g, kind, a + b) == MarkEach(MarkEach(g, kind, a), kind, b)
    decreases |b|
  {
    if |b| == 0 {
      assert a + b == a;
    } else {
      var b' := b[..|b| - 1];
      assert (a + b)[..|a + b| - 1] == a + b';
      MarkEachAppend(g, kind, a, b');
    }
  }

  /** The nested page loop marks the same items in the same order as one flat loop. */
  lemma {:induction false} MarkPagesIsFlat(g: Gitpod, kind: IssueKind, pages: seq<seq<Issue>>)
    ensures MarkPages(g, kind, pages) == MarkEach(g, kind, Flatten(pages))
    decreases |pages|
  {
    if |pages| > 0 {
      var front := pages[..|pages| - 1];
      MarkPagesIsFlat(g, kind, front);
      MarkEachAppend(g, kind, Flatten(front), pages[|pages| - 1]);
    }
  }

  /** Marking a run of items posts one comment per matching item, in order, and
      counts exactly those. */
  lemma {:induction false} MarkEachAdvances(g: Gitpod, kind: IssueKind, items: seq<Issue>)
    ensures Advanced(g, MarkEach(g, kind, items), kind, CommentsOn(g, kind, Matching(g.config, kind, items)))
    decreases |items|
  {
    if |items| == 0 {
      assert g.log + [] == g.log;
    } else {
      var front := items[..|items| - 1];
      var last := items[|items| - 1];
      var m := MarkEach(g, kind, front);
      var before := Matching(g.config, kind, front);
      MarkEachAdvances(g, kind, front);
      if Match(g.config, kind, last) {
        var ms := before + [last];
        assert ms[..|ms| - 1] == before;
        assert CommentOn(m, kind, last) == CommentOn(g, kind, last);
        AdvancedTrans(g, m, Mark(m, kind, last), kind, CommentsOn(g, kind, before), [CommentOn(g, kind, last)]);
      } else {
        assert Matching(g.config, kind, items) == before + [];
        assert before + [] == before;
      }
    }
  }

  /** One query: the search is logged, then every matching result is commented on and counted. */
  lemma DoMarkAllAdvances(g: Gitpod, kind: IssueKind, q: string, search: SearchResults)
    ensures Advanced(g, DoMarkAll(g, kind, q, search), kind, QueryTrace(g, kind, q, search))
  {
    var g1 := g.(log := g.log + [Search(q)]);
    var items := Flatten(search(q));
    assert Posted([Search(q)]) == 0 by { assert [Search(q)][..0] == []; }
    assert Advanced(g, g1, kind, [Search(q)]);
    MarkPagesIsFlat(g1, kind, search(q));
    MarkEachAdvances(g1, kind, items);
    CommentsOnSameTarget(g1, g, kind, Matching(g.config, kind, items));
    AdvancedTrans(g, g1, DoMarkAll(g, kind, q, search), kind, [Search(q)], CommentsOn(g, kind, Matching(g.config, kind, items)));
  }

  /** Running queries one after the other appends their traces in order. */
  lemma {:induction false} RunQueriesAdvances(g: Gitpod, kind: IssueKind, qs: seq<string>, search: SearchResults)
    ensures Advanced(g, RunQueries(g, kind, qs, search), kind, Trace(g, kind, qs, search))
    decreases |qs|
  {
    if |qs| == 0 {
      assert g.log + [] == g.log;
    } else {
      var front := qs[..|qs| - 1];
      var q := qs[|qs| - 1];
      var m := RunQueries(g, kind, front, search);
      RunQueriesAdvances(g, kind, front, search);
      DoMarkAllAdvances(m, kind, q, search);
      CommentsOnSameTarget(m, g, kind, Matching(g.config, kind, Flatten(search(q))));
      AdvancedTrans(g, m, RunQueries(g, kind, qs, search), kind, Trace(g, kind, front, search), QueryTrace(g, kind, q, search));
    }
  }

  /** A trace searches exactly the queries, in order, and posts one comment
      per matching result. */
  lemma {:induction false} TraceCounts(g: Gitpod, kind: IssueKind, qs: seq<string>, search: SearchResults)
    ensures Searches(Trace(g, kind, qs, search)) == qs
    ensures Posted(Trace(g, kind, qs, search)) == TotalMatches(g.config, kind, qs, search)
    decreases |qs|
  {
    if |qs| > 0 {
      var front := qs[..|qs| - 1];
      var q := qs[|qs| - 1];
      var cs := CommentsOn(g, kind, Matching(g.config, kind, Flatten(search(q))));
      TraceCounts(g, kind, front, search);
      CommentsOnFacts(g, kind, Matching(g.config, kind, Flatten(search(q))));
      assert Searches([Search(q)]) == [q] by { assert [Search(q)][..0] == []; }
      assert Posted([Search(q)]) == 0 by { assert [Search(q)][..0] == []; }
      SearchesAppend([Search(q)], cs);
      PostedAppend([Search(q)], cs);
      var t := Trace(g, kind, front, search);
      SearchesAppend(t, [Search(q)] + cs);
      PostedAppend(t, [Search(q)] + cs);
      assert qs == front + [q];
    }
  }

  /** Every action of a trace is a search or a comment carrying the marker. */
  lemma {:induction false} TraceMarked(g: Gitpod, kind: IssueKind, qs: seq<string>, search: SearchResults)
    ensures forall a :: a in Trace(g, kind, qs, search) ==> a.Search? || (a.CreateComment? && Mentions(a.body, Marker))
    decreases |qs|
  {
    if |qs| > 0 {
      var q := qs[|qs| - 1];
      TraceMarked(g, kind, qs[..|qs| - 1], search);
      CommentsOnFacts(g, kind, Matching(g.config, kind, Flatten(search(q))));
    }
  }

  /** A trace searches exactly the queries, in order; it posts one comment per
      matching result; and every comment it posts carries the marker. */
  lemma TraceFacts(g: Gitpod, kind: IssueKind, qs: seq<string>, search: SearchResults)
    ensures Searches(Trace(g, kind, qs, search)) == qs
    ensures Posted(Trace(g, kind, qs, search)) == TotalMatches(g.config, kind, qs, search)
    ensures forall a :: a in Trace(g, kind, qs, search) ==> a.Search? || (a.CreateComment? && Mentions(a.body, Marker))
  {
    TraceCounts(g, kind, qs, search);
    TraceMarked(g, kind, qs, search);
  }

  /** `markAll`'s whole effect: nothing when the feature is off; otherwise the
      queries of the feature are searched in order, every matching result on
      their pages is commented on with the marker, the feature's counter grows
      by the number of matching results, and nothing else changes. */
  lemma MarkAllEffect(g: Gitpod, kind: IssueKind, search: SearchResults)
    ensures !g.config.Perform(kind) ==> MarkAll(g, kind, search) == g
    ensures var r := MarkAll(g, kind, search);
      && Advanced(g, r, kind, Trace(g, kind, Queries(g, kind), search))
      && Searches(r.log[|g.log|..]) == Queries(g, kind)
      && r.stat.Count(kind) == g.stat.Count(kind) + TotalMatches(g.config, kind, Queries(g, kind), search)
      && forall a :: a in r.log[|g.log|..] ==> a.Search? || (a.CreateComment? && Mentions(a.body, Marker))
  {
    var qs := Queries(g, kind);
    RunQueriesAdvances(g, kind, qs, search);
    TraceFacts(g, kind, qs, search);
    var r := MarkAll(g, kind, search);
    assert r.log[|g.log|..] == Trace(g, kind, qs, search);
  }
}
