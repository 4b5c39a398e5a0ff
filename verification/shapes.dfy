/** The data the bot works on: issues and pull requests as webhook and search
    payloads deliver them, the resolved per-repository configuration, the
    per-repository counters, and the actions the bot takes on the outside world
    (stopping the scheduler, searching, posting a comment). */
module Shapes {

  datatype Option<+T> = None | Some(value: T)

  /** The two features of the bot: `Pulls` marks pull requests, `Issues` marks issues. */
  datatype IssueKind = Pulls | Issues {

    /** The feature that is not this one. */
    function Other(): (k: IssueKind)
      ensures k != this
    {
      if Pulls? then Issues else Pulls
    }
  }

  datatype Label = Label(name: string)

  /** An issue or a pull request. `labels` is an optional field: it may be
      missing, and when present it may be empty. */
  datatype Issue = Issue(locked: bool, number: int, htmlUrl: string, labels: Option<seq<Label>>)

  datatype PullsConfig = PullsConfig(perform: bool, comment: string)

  /** `labels` stands for a JavaScript Set: duplicate-free, in insertion order. */
  datatype IssuesConfig = IssuesConfig(perform: bool, labels: seq<string>, comment: string)

  /** The fully defaulted configuration of one repository. */
  datatype GitpodConfig = GitpodConfig(pulls: PullsConfig, issues: IssuesConfig) {

    /** Whether the feature is switched on. */
    function Perform(kind: IssueKind): bool {
      if kind == Pulls then pulls.perform else issues.perform
    }

    /** The text appended to the link in the feature's comments. */
    function Comment(kind: IssueKind): string {
      if kind == Pulls then pulls.comment else issues.comment
    }
  }

  /** How many comments the bot has posted in one repository, per feature. */
  datatype GitpodStat = GitpodStat(owner: string, repo: string, issues: nat, pulls: nat) {

    /** The number of comments counted for the feature. */
    function Count(kind: IssueKind): nat {
      if kind == Pulls then pulls else issues
    }

    /** The stat with the feature's counter one higher; nothing else moves. */
    function Bump(kind: IssueKind): (s: GitpodStat)
      ensures s.Count(kind) == Count(kind) + 1
      ensures s.Count(kind.Other()) == Count(kind.Other())
      ensures s.owner == owner && s.repo == repo
    {
      if kind == Pulls then this.(pulls := pulls + 1) else this.(issues := issues + 1)
    }
  }

  /** What the bot does to the outside world, in the order it does it. */
  datatype Action =
    | StopScheduler
    | Search(query: string)
    | CreateComment(owner: string, repo: string, number: int, body: string)

  /** The number of comments posted by a run of actions. */
  function Posted(actions: seq<Action>): nat
  {
    if |actions| == 0 then 0
    else Posted(actions[..|actions| - 1]) + (if actions[|actions| - 1].CreateComment? then 1 else 0)
  }

  /** The search queries issued by a run of actions, in order. */
  function Searches(actions: seq<Action>): seq<string>
  {
    if |actions| == 0 then []
    else Searches(actions[..|actions| - 1]) + (if actions[|actions| - 1].Search? then [actions[|actions| - 1].query] else [])
  }

  /** Counting posts distributes over concatenation of runs. */
  lemma {:induction false} PostedAppend(a: seq<Action>, b: seq<Action>)
    ensures Posted(a + b) == Posted(a) + Posted(b)
    decreases |b|
  {
    if |b| == 0 {
      assert a + b == a;
    } else {
      var b' := b[..|b| - 1];
      assert (a + b)[..|a + b| - 1] == a + b';
      PostedAppend(a, b');
    }
  }

  /** Collecting queries distributes over concatenation of runs. */
  lemma {:induction false} SearchesAppend(a: seq<Action>, b: seq<Action>)
    ensures Searches(a + b) == Searches(a) + Searches(b)
    decreases |b|
  {
    if |b| == 0 {
      assert a + b == a;
    } else {
      var b' := b[..|b| - 1];
      assert (a + b)[..|a + b| - 1] == a + b';
      SearchesAppend(a, b');
    }
  }
}
