/**
 * How the two variants of the daemon relate: a go-deployer.go descriptor
 * read as a main.go one, and the ticks of both compared on the same
 * checkout.
 */
module Variants {
  import opened Wrappers
  import opened Git
  import opened Common
  import opened Stamp
  import Deployer
  import Early

  /**
   * The main.go descriptor with the same fields: "pull" is keepUpdated,
   * "push" keepPushing, any other job a value neither switch arm matches;
   * the script has no counterpart.
   */
  function AsEarly(repo: Deployer.Repository): (r: Early.Repository)
    ensures r.job == Early.KeepUpdated <==> repo.job == "pull"
    ensures r.job == Early.KeepPushing <==> repo.job == "push"
    ensures r.name == repo.name && r.remote == repo.remote && r.path == repo.path && r.force == repo.force
      && r.url == repo.url && r.polling == repo.polling
  {
    var job := if repo.job == "pull" then Early.KeepUpdated else if repo.job == "push" then Early.KeepPushing else 2;
    Early.Repository(job, repo.name, repo.url, repo.remote, repo.path, repo.polling, repo.force)
  }

  /** Both variants pull under the same conditions: the same checks passed and the same drift rule. */
  lemma SameDriftRule(repo: Deployer.Repository, a: Answers, s: State)
    ensures CallPull(repo.remote, repo.force) in Deployer.PullTick(repo, a, s).ops
      <==> CallPull(repo.remote, repo.force) in Early.PullTick(AsEarly(repo), a, s).ops
  {
    Deployer.PullOnlyWhenDrifted(repo, a, s);
    Early.PullOnlyWhenDrifted(AsEarly(repo), a, s);
  }

  /** Without force and without a script, the two pull ticks are the same tick. */
  lemma UnforcedPullsAgree(repo: Deployer.Repository, a: Answers, s: State)
    requires !repo.force && repo.script == ""
    ensures Deployer.PullTick(repo, a, s) == Early.PullTick(AsEarly(repo), a, s)
  {
  }

  /**
   * Under force they part only once the pull is due: before that, the
   * same calls, state and error; after it, go-deployer.go has reset the
   * tree first and main.go has not.
   */
  lemma ForcedPullsPart(repo: Deployer.Repository, a: Answers, s: State)
    requires repo.force
    ensures !(Inspected(repo.remote, repo.force, a, s) && Drifted(s, repo.remote) && a.worktree.None?) ==>
      Deployer.PullTick(repo, a, s) == Early.PullTick(AsEarly(repo), a, s)
    ensures Inspected(repo.remote, repo.force, a, s) && Drifted(s, repo.remote) && a.worktree.None? ==>
      CallReset(s.head.hash) in Deployer.PullTick(repo, a, s).ops
      && CallReset(s.head.hash) !in Early.PullTick(AsEarly(repo), a, s).ops
  {
    if Inspected(repo.remote, repo.force, a, s) && Drifted(s, repo.remote) && a.worktree.None? {
      var t := Deployer.PullTick(repo, a, s);
      var acting := Inspection(repo.path, repo.remote, repo.force, a) + Deployer.Acting(repo, s);
      Deployer.PullActs(repo, a, s);
      assert acting[|acting| - 2] == CallReset(s.head.hash);
      assert t.ops[|acting| - 2] == CallReset(s.head.hash);
      Early.PullNeverResets(AsEarly(repo), a, s);
    }
  }

  /**
   * Without a script, the two push ticks make the same number of calls,
   * leave the same state and return the same error; they differ only in
   * how everything is staged (`git add .` against AddWithOptions).
   */
  lemma PushesAgree(repo: Deployer.Repository, a: Answers, s: State, now: Stamp)
    requires repo.script == ""
    ensures var d, e := Deployer.PushTick(repo, a, s, now), Early.PushTick(AsEarly(repo), a, s, now);
      d.state == e.state && d.err == e.err && |d.ops| == |e.ops|
      && forall i :: 0 <= i < |d.ops| && d.ops[i] != e.ops[i] ==>
           d.ops[i] == RunGitAdd(repo.path) && e.ops[i] == CallAddAll
  {
    PushOutcomesAgree(repo, a, s, now);
    if !(a.open.Some? || !Unstaged(a, s).0 || Unstaged(a, s).1.Some? || a.worktree.Some?) {
      var before := PushGuard(repo.path, a) + [CallWorktree];
      var after := AfterStaging(repo.name, repo.force, a, now);
      DeployerPushShape(repo, a, s, now);
      EarlyPushShape(AsEarly(repo), a, s, now);
      OneEntrySwapped(before, RunGitAdd(repo.path), CallAddAll, after);
    }
  }

  /** The calls of a scriptless push tick after it staged everything: commit, push, message, each only if all before it succeeded. */
  function AfterStaging(name: string, force: bool, a: Answers, now: Stamp): seq<Op>
  {
    if a.add.Some? then []
    else if a.commit.Some? then [CallCommit(CommitMessage(now))]
    else if a.push.Some? || force then [CallCommit(CommitMessage(now)), CallPush(force)]
    else [CallCommit(CommitMessage(now)), CallPush(force), Notify(name + ": successfully pushed")]
  }

  lemma DeployerPushShape(repo: Deployer.Repository, a: Answers, s: State, now: Stamp)
    requires repo.script == ""
    requires a.open.None? && Unstaged(a, s) == (true, None) && a.worktree.None?
    ensures Deployer.PushTick(repo, a, s, now).ops
      == PushGuard(repo.path, a) + [CallWorktree] + [RunGitAdd(repo.path)] + AfterStaging(repo.name, repo.force, a, now)
  {
  }

  lemma EarlyPushShape(repo: Early.Repository, a: Answers, s: State, now: Stamp)
    requires a.open.None? && Unstaged(a, s) == (true, None) && a.worktree.None?
    ensures Early.PushTick(repo, a, s, now).ops
      == PushGuard(repo.path, a) + [CallWorktree] + [CallAddAll] + AfterStaging(repo.name, repo.force, a, now)
  {
  }

  /** Two traces that differ in one entry differ nowhere else. */
  lemma OneEntrySwapped(p: seq<Op>, x: Op, y: Op, q: seq<Op>)
    ensures forall i :: 0 <= i < |p + [x] + q| && (p + [x] + q)[i] != (p + [y] + q)[i] ==>
      (p + [x] + q)[i] == x && (p + [y] + q)[i] == y
  {
  }

  /** Without a script, the two push ticks leave the same state, return the same error and make as many calls. */
  lemma PushOutcomesAgree(repo: Deployer.Repository, a: Answers, s: State, now: Stamp)
    requires repo.script == ""
    ensures var d, e := Deployer.PushTick(repo, a, s, now), Early.PushTick(AsEarly(repo), a, s, now);
      d.state == e.state && d.err == e.err && |d.ops| == |e.ops|
  {
  }

  /**
   * A pull answered "already up-to-date" is reported as an error only by
   * main.go; go-deployer.go stays silent.
   */
  lemma UpToDateReportedOnlyByEarly(repo: Deployer.Repository, a: Answers, s: State, now: Stamp)
    requires repo.job == "pull" && a.pull == Some(AlreadyUpToDate)
    requires Inspected(repo.remote, repo.force, a, s) && Drifted(s, repo.remote) && a.worktree.None?
    ensures Notify(repo.name + ": already up-to-date") !in Deployer.JobTick(repo, a, s, now).ops
    ensures Notify(repo.name + ": already up-to-date") in Early.JobTick(AsEarly(repo), a, s, now).ops
  {
    Deployer.UpToDatePullIsSilent(repo, a, s, now);
    Early.UpToDatePullIsReported(AsEarly(repo), a, s, now);
  }

  /** Both variants keep a non-zero interval as it is and replace 0 by their own default: 600 and 10. */
  lemma DefaultsDiffer(repo: Deployer.Repository)
    requires repo.polling == 0
    ensures Deployer.Coerced(repo).polling == 600 && Early.Coerced(AsEarly(repo)).polling == 10
  {
  }
}
