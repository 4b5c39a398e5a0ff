# gitpod-bot core, modelled in Dafny

The bot advertises an "Open in Gitpod" link on GitHub. When a pull request or
an issue is opened, it posts a comment on it. A periodic per-repository tick
also backfills open items that do not carry the comment yet. Each of these
events builds one `Gitpod` helper, and this project models that helper
(`src/index.ts`):

- **Config resolution** (`Config.Resolve`). The optional, partially filled
  `gitpod.yml` is turned into a fully defaulted `GitpodConfig` by JavaScript
  truthiness. A missing file stops the repository's schedule.
- **Counters** (`Stats`). The per-repository `GitpodStat` is looked up under
  `owner/repo`, or created with zero counters.
- **Match and mark** (`Helper.Match`, `Helper.Mark`). `Match` decides whether
  an item qualifies. `Mark` posts the comment and counts it.
- **Backfill** (`Backfill.MarkAll`). It builds the search queries, walks
  every result page in order, and marks every item.

Each call is a pure function on an immutable `Gitpod` value. The value holds
the owner, the repo, the resolved configuration, the stat and a log of the
actions taken so far. There are three kinds of action: stopping the scheduler,
running a search, and creating a comment. A JavaScript `Set` of labels becomes
a duplicate-free sequence in insertion order (`OrderedSet.FromSeq`). The
search results are a given function from a query to its result pages.

Modules: `Shapes` (data), `OrderedSet`, `Config`, `Stats`, `Helper`
(create, match, body, mark), `Backfill` (queries, `doMarkAll`, `markAll`).

Behaviour kept as written:

- The issues comment comes from `pulls.comment` (`src/index.ts:77`), so
  `issues.comment` never has any effect. `Config.IssuesCommentIgnored` states
  this.
- `mark` makes the same perform/locked test as `match` before calling it
  (`src/index.ts:97`, `100`, `115`).
- An issue that carries two configured labels is returned by two label
  queries. Search results are fixed per query, so the model marks it once for
  each query. A live search could exclude it the second time, once the first
  comment is indexed.

## Model

| member | source | states |
|---|---|---|
| OrderedSet.FromSeq | src/index.ts:78 | The label set built from the list is duplicate-free, holds exactly the listed labels and is no longer than the list |
| OrderedSet.FromSeqFirstOccurrenceOrder | src/index.ts:78 | The set iterates its labels in the order of their first occurrence in the list |
| Config.Resolve | src/index.ts:63-80 | The scheduler is stopped exactly when there is no file; no file gives both features off, no labels and both default comments; a feature is on only when its `perform` is written true; a missing or empty `pulls.comment` gives each kind its own default, otherwise both kinds use `pulls.comment`; the labels are exactly the listed ones, without duplicates |
| Config.IssuesCommentIgnored | src/index.ts:73-77 | Changing `issues.comment` alone never changes the resolved configuration |
| Config.LabelsInFileOrder | src/index.ts:78 | The resolved labels keep the order of their first occurrence in the file |
| Stats.StatKey | src/index.ts:59 | No contract of its own; LookupStat, Commit and CommittedStatIsFoundAgain state how the key is used |
| Stats.LookupStat | src/index.ts:58-61 | The stat stored under `owner/repo` is returned unchanged when present; otherwise a zeroed stat for that owner and repo is created and stored; no other entry changes |
| Stats.Commit | src/index.ts:60-61 | After a run, the map holds the helper's stat under its key and leaves every other entry alone |
| Stats.CommittedStatIsFoundAgain | src/index.ts:60-61 | The counters a run leaves behind are the ones the next event of the same repository starts from |
| Helper.Create | src/index.ts:57-80 | The helper acts on the event's repository with the resolved configuration and the looked-up stat; no file emits the scheduler stop and nothing else; the map gains only the `owner/repo` key and keeps every existing entry; a known repository reuses its stored stat and leaves the map as it was; a new repository starts from a stat with its owner, its repo and zero counters |
| Helper.NoFileDisablesBoth | src/index.ts:63-80 | With no file, both features are off, the label set is empty, both comments are the defaults and the scheduler stop is emitted |
| Helper.AnyLabelIn | src/index.ts:125 | No contract of its own; AnyLabelInIsOverlap states it |
| Helper.AnyLabelInIsOverlap | src/index.ts:125 | `some` over the issue's labels holds exactly when one of their names is in the configured set |
| Helper.Match | src/index.ts:114-126 | No contract of its own; MatchNeedsEnabledAndUnlocked, MatchPulls and MatchIssues state it |
| Helper.MatchNeedsEnabledAndUnlocked | src/index.ts:115-117 | A disabled feature or a locked item never matches |
| Helper.MatchPulls | src/index.ts:115-120 | A pull request matches exactly when `pulls.perform` holds and it is not locked |
| Helper.MatchIssues | src/index.ts:114-126 | An issue matches exactly when `issues.perform` holds, it is not locked, it has labels and one of its label names is configured; a match implies both label lists are non-empty |
| Helper.Body | src/index.ts:105 | The body opens with the `[Open in Gitpod](https://gitpod.io#` link prefix, the item's URL follows it, and the rest is the closing parenthesis and the feature's comment text; BodyMentionsMarker and BodyDeterminesUrl state more |
| Helper.CommentOn | src/index.ts:104-109 | The comment goes to the helper's owner and repo, on the item's number; its body is `Body` for the feature and the item's URL, and so carries the marker word |
| Helper.BodyMentionsMarker | src/index.ts:105 | Every comment body contains the word the backfill search excludes |
| Helper.BodyDeterminesUrl | src/index.ts:105 | For the same configuration and feature, two items with different URLs never get the same comment body |
| Shapes.GitpodStat.Bump | src/index.ts:111 | The feature's counter grows by exactly one; the other counter and the stat's owner and repo stay as they were |
| Helper.Mark | src/index.ts:96-112 | A matching item gets exactly one comment, with the link body and the feature's suffix, and the feature's counter grows by one; the other counter, the stat's owner and repo, the repository and the configuration never change; a non-matching item changes nothing |
| Backfill.CreateQuery | src/index.ts:163-167 | The search query starts by excluding the marker word |
| Backfill.PullsQueryText | src/index.ts:128-135 | With pull requests on, the one query is `NOT gitpod repo:O/R type:pr is:open in:comments` |
| Backfill.IssueQueryText | src/index.ts:137-138 | With issues on, the query for the i-th configured label is `NOT gitpod repo:O/R type:issue is:open in:comments label:"L"` |
| Backfill.QueriesOfKindsDiffer | src/index.ts:165-166 | The pull-request and issue queries of a repository differ |
| Backfill.LabelQuery | src/index.ts:138 | No contract of its own; LabelQueryInjective, Queries and IssueQueryText state it |
| Backfill.LabelQueryInjective | src/index.ts:138 | Different labels give different issue queries |
| Backfill.Queries | src/index.ts:128-140 | No query when the feature is off; the single pull-request query for pulls; one issue query per configured label, in set order, each ending with `label:"L"` |
| Backfill.IssueQueriesDistinct | src/index.ts:137-138 | With a duplicate-free label set, no issue query is run twice |
| Backfill.MarkEach | src/index.ts:145-147 | No contract of its own; MarkEachAdvances states it |
| Backfill.MarkPages | src/index.ts:144-148 | No contract of its own; MarkPagesIsFlat states it |
| Backfill.DoMarkAll | src/index.ts:142-149 | No contract of its own; DoMarkAllAdvances states it |
| Backfill.RunQueries | src/index.ts:137-139 | No contract of its own; RunQueriesAdvances states it |
| Backfill.MarkAll | src/index.ts:128-140 | No contract of its own; MarkAllEffect states it |
| Backfill.MarkPagesIsFlat | src/index.ts:144-148 | Walking the pages, and the items within each page, marks the same items in the same order as one pass over all items |
| Backfill.MarkEachAdvances | src/index.ts:145-147 | Marking a run of items posts one comment per matching item, in order, and the counter grows by exactly that number |
| Backfill.DoMarkAllAdvances | src/index.ts:142-149 | One query logs its search, then comments on every matching result of its pages, counting each one |
| Backfill.RunQueriesAdvances | src/index.ts:137-139 | Running queries one after another appends their effects in order |
| Backfill.TraceFacts | src/index.ts:132-139 | The searches run are exactly the queries, in order; the comments posted are one per matching result; every posted body carries the marker |
| Backfill.MarkAllEffect | src/index.ts:128-149 | A disabled feature changes nothing. Otherwise the feature's queries are searched in order. Every matching result is commented on and the feature's counter ends at its start value plus the matching results over all pages. Nothing else changes |

## Left out

- The webhook handlers for pull-request-opened, issue-opened and the scheduled tick (`src/index.ts:171-196`) are left out. They are event plumbing of the host framework, and the model offers `Create`, `Mark`, `MarkAll` and `Commit` for composing them.
- Loading `gitpod.yml` and the scheduler are foreign libraries. The parsed file is an optional input (`Config.RawConfig`), and stopping the schedule is the `StopScheduler` action.
- The GitHub REST calls are network input and output. Creating a comment becomes an action in the log. The label fetch of the issue-opened handler is part of the handlers, which are left out. The search, with its `hasNextPage`/`getNextPage` paging (`src/index.ts:151-161`), becomes a given function from a query to its result pages. The search's `sort: 'updated'` and `per_page: 100` options (`src/index.ts:154`) are not modelled: the order of the items and the size of the pages come with the given results. Network failures, which the source does not handle, are not modelled.
- The debug logging and the `JSON.stringify` replacer (`src/index.ts:88-93`, `108`, `110`) are left out because they have no effect on behaviour.
- Concurrency is left out. Concurrent events share the stat map and its stat objects. Each event is modelled as one sequential run, and `Stats.Commit` writes the stat back explicitly in place of the shared reference.
- Config values of the wrong YAML type are left out: a non-boolean `perform` or a non-list `labels`. The model takes the types the source declares.
- Counters are unbounded naturals. JavaScript numbers lose precision only above 2^53 comments, which is far beyond any realistic run.
