/** Resolution of the repository's `gitpod.yml` into a fully defaulted
    configuration. The file may be missing altogether, and every section and
    key in it may be missing; JavaScript truthiness decides which value wins. */
module Config {
  import opened Shapes
  import opened OrderedSet

  /** The `pulls` section as read from the file; every key is optional. */
  datatype RawPulls = RawPulls(perform: Option<bool>, comment: Option<string>)

  /** The `issues` section as read from the file; every key is optional. */
  datatype RawIssues = RawIssues(perform: Option<bool>, comment: Option<string>, labels: Option<seq<string>>)

  /** The parsed file; either section may be missing. */
  datatype RawConfig = RawConfig(pulls: Option<RawPulls>, issues: Option<RawIssues>)

  /** The resolved configuration, and whether the repository is dropped from the periodic schedule. */
  datatype Resolution = Resolution(config: GitpodConfig, stopScheduler: bool)

  const DefaultPullsComment: string :=
    " - starts a development workspace for this pull request in code review mode and opens it in a browser IDE."

  const DefaultIssuesComment: string :=
    " - starts a development workspace with a preconfigured issue branch and opens it in a browser IDE."

  /** The `pulls` section, missing when the file or the section is missing. */
  function PullsSection(raw: Option<RawConfig>): Option<RawPulls> {
    if raw.Some? then raw.value.pulls else None
  }

  /** The `issues` section, missing when the file or the section is missing. */
  function IssuesSection(raw: Option<RawConfig>): Option<RawIssues> {
    if raw.Some? then raw.value.issues else None
  }

  /** The given string, or the fallback when it is missing or empty (both falsy in JavaScript). */
  function OrElse(x: Option<string>, fallback: string): string {
    if x.Some? && x.value != "" then x.value else fallback
  }

  /** The text of `pulls.comment` as written, with a missing key read as the empty string. */
  function WrittenPullsComment(raw: Option<RawConfig>): string {
    var p := PullsSection(raw);
    if p.Some? && p.value.comment.Some? then p.value.comment.value else ""
  }

  /** The label list as written, with a missing key read as the empty list. */
  function WrittenLabels(raw: Option<RawConfig>): seq<string> {
    var i := IssuesSection(raw);
    if i.Some? && i.value.labels.Some? then i.value.labels.value else []
  }

  /** Whether a section's `perform` key is written as `true`. */
  predicate WrittenTrue(perform: Option<bool>) {
    perform == Some(true)
  }

  /** `Gitpod.create`'s defaulting. As written, the issues comment is taken from
      `pulls.comment`; `issues.comment` is never consulted. */
  function Resolve(raw: Option<RawConfig>): (r: Resolution)
    ensures r.stopScheduler <==> raw.None?
    ensures raw.None? ==>
      r.config == GitpodConfig(PullsConfig(false, DefaultPullsComment),
                               IssuesConfig(false, [], DefaultIssuesComment))
    ensures r.config.pulls.perform <==> PullsSection(raw).Some? && WrittenTrue(PullsSection(raw).value.perform)
    ensures r.config.issues.perform <==> IssuesSection(raw).Some? && WrittenTrue(IssuesSection(raw).value.perform)
    ensures WrittenPullsComment(raw) == "" ==>
      r.config.pulls.comment == DefaultPullsComment && r.config.issues.comment == DefaultIssuesComment
    ensures WrittenPullsComment(raw) != "" ==>
      r.config.pulls.comment == WrittenPullsComment(raw) && r.config.issues.comment == WrittenPullsComment(raw)
    ensures NoDuplicates(r.config.issues.labels)
    ensures forall l :: l in r.config.issues.labels <==> l in WrittenLabels(raw)
  {
    var pulls := PullsSection(raw);
    var issues := IssuesSection(raw);
    var pullsComment := if pulls.Some? then pulls.value.comment else None;
    var config := GitpodConfig(
      PullsConfig(
        perform := pulls.Some? && pulls.value.perform.Some? && pulls.value.perform.value,
        comment := OrElse(pullsComment, DefaultPullsComment)),
      IssuesConfig(
        perform := issues.Some? && issues.value.perform.Some? && issues.value.perform.value,
        labels := FromSeq(if issues.Some? && issues.value.labels.Some? then issues.value.labels.value else []),
        comment := OrElse(pullsComment, DefaultIssuesComment)));
    Resolution(config, raw.None?)
  }

  /** Changing only the `issues.comment` key never changes the resolved configuration. */
  lemma IssuesCommentIgnored(raw: RawConfig, comment: Option<string>)
    requires raw.issues.Some?
    ensures Resolve(Some(raw.(issues := Some(raw.issues.value.(comment := comment))))) == Resolve(Some(raw))
  {
  }

  /** The labels are iterated in the order of their first occurrence in the file. */
  lemma LabelsInFileOrder(raw: Option<RawConfig>)
    ensures forall i, j :: 0 <= i < j < |Resolve(raw).config.issues.labels| ==>
      FirstIndex(WrittenLabels(raw), Resolve(raw).config.issues.labels[i])
        < FirstIndex(WrittenLabels(raw), Resolve(raw).config.issues.labels[j])
  {
    FromSeqFirstOccurrenceOrder(WrittenLabels(raw));
  }
}
