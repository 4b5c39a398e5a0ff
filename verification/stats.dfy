/** The in-memory map of per-repository counters, keyed by `owner/repo`.
    A stat object lives in the map by reference, so counting on it is seen
    by every later event of the same repository; the model writes the
    updated stat back explicitly with `Commit`. */
module Stats {
  import opened Shapes

  function StatKey(owner: string, repo: string): string {
    owner + "/" + repo
  }

  /** The stat found (or created) for a repository, and the map after the lookup. */
  datatype Lookup = Lookup(stat: GitpodStat, stats: map<string, GitpodStat>)

  /** The stat stored for the repository, or a fresh zeroed one for it; either way it is stored in the map. */
  function LookupStat(stats: map<string, GitpodStat>, owner: string, repo: string): (r: Lookup)
    ensures StatKey(owner, repo) in r.stats && r.stats[StatKey(owner, repo)] == r.stat
    ensures r.stats.Keys == stats.Keys + {StatKey(owner, repo)}
    ensures forall k :: k in stats ==> r.stats[k] == stats[k]
    ensures StatKey(owner, repo) in stats ==> r.stat == stats[StatKey(owner, repo)]
    ensures StatKey(owner, repo) !in stats ==>
      r.stat.owner == owner && r.stat.repo == repo && r.stat.Count(Pulls) == 0 && r.stat.Count(Issues) == 0
  {
    var key := StatKey(owner, repo);
    var stat := if key in stats then stats[key] else GitpodStat(owner, repo, 0, 0);
    Lookup(stat, stats[key := stat])
  }

  /** The map once the counters a run has moved are visible through it. */
  function Commit(stats: map<string, GitpodStat>, owner: string, repo: string, stat: GitpodStat): (r: map<string, GitpodStat>)
    ensures r.Keys == stats.Keys + {StatKey(owner, repo)}
    ensures r[StatKey(owner, repo)] == stat
    ensures forall k :: k in stats && k != StatKey(owner, repo) ==> r[k] == stats[k]
  {
    stats[StatKey(owner, repo) := stat]
  }

  /** Counters survive from one event of a repository to the next. */
  lemma CommittedStatIsFoundAgain(stats: map<string, GitpodStat>, owner: string, repo: string, stat: GitpodStat)
    ensures LookupStat(Commit(stats, owner, repo, stat), owner, repo).stat == stat
  {
  }
}
