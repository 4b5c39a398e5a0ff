/** The `Gitpod` helper of one event: the repository it acts on, its resolved
    configuration, its counters, and the actions taken so far. Marking an issue
    or pull request posts the "Open in Gitpod" comment and counts it. */
module Helper {
  import opened Shapes
  import opened Config
  import opened Stats

  datatype Gitpod = Gitpod(owner: string, repo: string, config: GitpodConfig, stat: GitpodStat, log: seq<Action>)

  /** The helper of one event and the counter map after it was created. */
  datatype Created = Created(gitpod: Gitpod, stats: map<string, GitpodStat>)

  /** `Gitpod.create`: find or create the repository's counters, resolve the
      configuration, and stop the periodic schedule when there is no file. */
  function Create(stats: map<string, GitpodStat>, owner: string, repo: string, raw: Option<RawConfig>): (r: Created)
    ensures r.gitpod.owner == owner && r.gitpod.repo == repo
    ensures r.gitpod.config == Resolve(raw).config
    ensures raw.None? ==> r.gitpod.log == [StopScheduler]
    ensures raw.Some? ==> r.gitpod.log == []
    ensures StatKey(owner, repo) in r.stats && r.stats[StatKey(owner, repo)] == r.gitpod.stat
    ensures forall k :: k in stats ==> k in r.stats && r.stats[k] == stats[k]
    ensures r.stats.Keys == stats.Keys + {StatKey(owner, repo)}
    ensures StatKey(owner, repo) in stats ==> r.gitpod.stat == stats[StatKey(owner, repo)] && r.stats == stats
    ensures StatKey(owner, repo) !in stats ==>
      && r.gitpod.stat.owner == owner && r.gitpod.stat.repo == repo
      && r.gitpod.stat.Count(Pulls) == 0 && r.gitpod.stat.Count(Issues) == 0
  {
    var found := LookupStat(stats, owner, repo);
    var resolution := Resolve(raw);
    Created(Gitpod(owner, repo, resolution.config, found.stat,
                   if resolution.stopScheduler then [StopScheduler] else []),
            found.stats)
  }

  /** With no configuration file, nothing is ever marked and the schedule is stopped. */
  lemma NoFileDisablesBoth(stats: map<string, GitpodStat>, owner: string, repo: string)
    ensures var g := Create(stats, owner, repo, None).gitpod;
      && !g.config.Perform(Pulls) && !g.config.Perform(Issues)
      && g.config.issues.labels == []
      && g.config.Comment(Pulls) == DefaultPullsComment
      && g.config.Comment(Issues) == DefaultIssuesComment
      && g.log == [StopScheduler]
  {
  }

  /** Whether some label of the issue, checked left to right, has a configured name. */
  function AnyLabelIn(labels: seq<Label>, configured: seq<string>): bool {
    if |labels| == 0 then false
    else labels[0].name in configured || AnyLabelIn(labels[1..], configured)
  }

  /** `some` finds a label exactly when one of the issue's label names is configured. */
  lemma {:induction false} AnyLabelInIsOverlap(labels: seq<Label>, configured: seq<string>)
    ensures AnyLabelIn(labels, configured) <==> exists l :: l in labels && l.name in configured
  {
    if |labels| > 0 {
      AnyLabelInIsOverlap(labels[1..], configured);
      assert labels == [labels[0]] + labels[1..];
    }
  }

  /** `match`: whether an item qualifies for the feature's comment. */
  function Match(config: GitpodConfig, kind: IssueKind, issue: Issue): bool {
    if !config.Perform(kind) || issue.locked then false
    else if kind == Pulls then true
    else if issue.labels.None? || |issue.labels.value| == 0 || |config.issues.labels| == 0 then false
    else AnyLabelIn(issue.labels.value, config.issues.labels)
  }

  /** A disabled feature or a locked item never matches. */
  lemma MatchNeedsEnabledAndUnlocked(config: GitpodConfig, kind: IssueKind, issue: Issue)
    ensures !config.Perform(kind) ==> !Match(config, kind, issue)
    ensures issue.locked ==> !Match(config, kind, issue)
  {
  }

  /** A pull request matches exactly when the feature is on and it is not locked. */
  lemma MatchPulls(config: GitpodConfig, issue: Issue)
    ensures Match(config, Pulls, issue) <==> config.pulls.perform && !issue.locked
  {
  }

  /** An issue matches exactly when the feature is on, it is not locked and one
      of its labels is configured (which needs it to have labels and the
      configured set to be non-empty). */
  lemma MatchIssues(config: GitpodConfig, issue: Issue)
    ensures Match(config, Issues, issue) <==>
      && config.issues.perform
      && !issue.locked
      && issue.labels.Some?
      && (exists l :: l in issue.labels.value && l.name in config.issues.labels)
    ensures Match(config, Issues, issue) ==>
      |issue.labels.value| > 0 && |config.issues.labels| > 0
  {
    if issue.labels.Some? {
      AnyLabelInIsOverlap(issue.labels.value, config.issues.labels);
    }
  }

  /** The text a posted comment leads with, up to the item's URL. */
  const LinkPrefix: string := "[Open in Gitpod](https://gitpod.io#"

  /** The word every posted comment carries; the backfill search excludes items whose comments contain it. */
  const Marker: string := "gitpod"

  /** The comment body posted on an item of `kind` whose page is `url`: a
      Markdown link to the item's workspace, then the feature's comment text. */
  function Body(config: GitpodConfig, kind: IssueKind, url: string): (b: string)
    ensures LinkPrefix <= b
    ensures |b| > |LinkPrefix| + |url| && b[|LinkPrefix|..|LinkPrefix| + |url|] == url
    ensures b[|LinkPrefix| + |url|..] == ")" + config.Comment(kind)
  {
    LinkPrefix + url + ")" + config.Comment(kind)
  }

  /** `word` occurs somewhere in `text`. */
  predicate Mentions(text: string, word: string) {
    exists i :: 0 <= i <= |text| && word <= text[i..]
  }

  /** Every posted body contains the marker word, so a later backfill search skips the item. */
  lemma BodyMentionsMarker(config: GitpodConfig, kind: IssueKind, url: string)
    ensures Mentions(Body(config, kind, url), Marker)
  {
    var b := Body(config, kind, url);
    assert b[..|LinkPrefix|] == LinkPrefix;
    assert LinkPrefix[25..31] == Marker;
    assert Marker <= b[25..];
  }

  /** Different items get different comment bodies: the link names the item. */
  lemma BodyDeterminesUrl(config: GitpodConfig, kind: IssueKind, u1: string, u2: string)
    requires Body(config, kind, u1) == Body(config, kind, u2)
    ensures u1 == u2
  {
  }

  /** The comment action marking `issue`: a comment on that item of the
      helper's repository whose body is the link body for the item's URL,
      and so carries the marker. */
  function CommentOn(g: Gitpod, kind: IssueKind, issue: Issue): (a: Action)
    ensures a.CreateComment? && a.owner == g.owner && a.repo == g.repo && a.number == issue.number
    ensures a.body == Body(g.config, kind, issue.htmlUrl)
    ensures Mentions(a.body, Marker)
  {
    BodyMentionsMarker(g.config, kind, issue.htmlUrl);
    CreateComment(g.owner, g.repo, issue.number, Body(g.config, kind, issue.htmlUrl))
  }

  /** `r` is `g` after a run that appended `appended` to the log: the `kind`
      counter grew by the number of comments in it, and nothing else changed. */
  predicate Advanced(g: Gitpod, r: Gitpod, kind: IssueKind, appended: seq<Action>) {
    && r.owner == g.owner && r.repo == g.repo && r.config == g.config
    && r.stat.owner == g.stat.owner && r.stat.repo == g.stat.repo
    && r.stat.Count(kind) == g.stat.Count(kind) + Posted(appended)
    && r.stat.Count(kind.Other()) == g.stat.Count(kind.Other())
    && r.log == g.log + appended
  }

  /** Two runs one after the other make one run. */
  lemma AdvancedTrans(a: Gitpod, b: Gitpod, c: Gitpod, kind: IssueKind, x: seq<Action>, y: seq<Action>)
    requires Advanced(a, b, kind, x) && Advanced(b, c, kind, y)
    ensures Advanced(a, c, kind, x + y)
  {
    PostedAppend(x, y);
  }

  /** `mark`: post the comment and count it when the item matches; otherwise do nothing. */
  function Mark(g: Gitpod, kind: IssueKind, issue: Issue): (r: Gitpod)
    ensures Match(g.config, kind, issue) ==> Advanced(g, r, kind, [CommentOn(g, kind, issue)])
    ensures !Match(g.config, kind, issue) ==> r == g
  {
    if !g.config.Perform(kind) || issue.locked then g
    else if !Match(g.config, kind, issue) then g
    else
      var c := CommentOn(g, kind, issue);
      assert Posted([c]) == Posted([]) + 1 by { assert [c][..0] == []; }
      g.(stat := g.stat.Bump(kind), log := g.log + [c])
  }
}
