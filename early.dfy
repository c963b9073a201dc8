/**
 * main.go, the earlier variant: jobs are the JobType enum, the pull tick
 * has neither hard reset nor script, staging goes through
 * AddWithOptions(All: true), every error is notified, and the default
 * polling interval is 10.  Its shutdown pass starts goroutines and is not
 * part of this model.
 */
module Early {
  import opened Wrappers
  import opened Git
  import opened Common
  import opened Stamp

  /** JobType: keepUpdated = 0, keepPushing = 1. */
  type JobType = int

  const KeepUpdated: JobType := 0
  const KeepPushing: JobType := 1

  const DefaultPolling: int := 10

  /** One entry of repos.json. */
  datatype Repository = Repository(
    job: JobType, name: string, url: string, remote: string,
    path: string, polling: int, force: bool)

  // ---------------------------------------------------------------- pull

  /** The pull tick reached Pull and Pull returned nil. */
  predicate Pulled(repo: Repository, a: Answers, s: State)
  {
    Inspected(repo.remote, repo.force, a, s) && Drifted(s, repo.remote) && a.worktree.None? && a.pull.None?
  }

  /** updateIfChanged, as a function of the checkout's answers and state. */
  function PullTick(repo: Repository, a: Answers, s: State): (t: Tick)
  {
    var guard := PullGuard(repo.path, repo.force, a);
    if a.open.Some? then Tick(s, [CallOpen(repo.path)], a.open)
    else if !repo.force && Unstaged(a, s) != (false, None) then Tick(s, guard, Unstaged(a, s).1)
    else if a.head.Some? then Tick(s, guard + [CallHead], a.head)
    else if repo.remote !in s.remotes then Tick(s, guard + [CallHead] + [CallRemote(repo.remote)], Some(RemoteNotFound))
    else if a.list.Some? then Tick(s, Inspection(repo.path, repo.remote, repo.force, a), a.list)
    else if !Drifted(s, repo.remote) then Tick(s, Inspection(repo.path, repo.remote, repo.force, a), None)
    else
      var behind := PullBehind(repo, a, s);
      Tick(behind.state, Inspection(repo.path, repo.remote, repo.force, a) + behind.ops, behind.err)
  }

  /** What the `found && !behind` block of updateIfChanged does, on its own: Worktree, Pull, message. */
  function PullBehind(repo: Repository, a: Answers, s: State): (t: Tick)
  {
    var acting := [CallWorktree] + [CallPull(repo.remote, repo.force)];
    if a.worktree.Some? then Tick(s, [CallWorktree], a.worktree)
    else if a.pull.Some? then Tick(s, acting, a.pull)
    else if repo.force then Tick(AfterPull(s, repo.remote), acting, None)
    else Tick(AfterPull(s, repo.remote), acting + [Notify(repo.name + ": successfully pulled")], None)
  }

  /**
   * The ref search of updateIfChanged in this variant: `behind` is set when
   * the first same-named ref has the SAME hash as the head.
   */
  method SearchRefs(references: seq<Ref>, localHead: Ref) returns (found: bool, behind: bool)
    ensures found <==> FirstMatch(references, localHead.name).Some?
    ensures behind <==> found && references[FirstMatch(references, localHead.name).value].hash == localHead.hash
  {
    found, behind := false, false;
    var i := 0;
    while i < |references|
      invariant 0 <= i <= |references|
      invariant forall j :: 0 <= j < i ==> references[j].name != localHead.name
      invariant !found && !behind
    {
      if references[i].name == localHead.name {
        found := true;
        behind := references[i].hash == localHead.hash;
        break;
      }
      i := i + 1;
    }
  }

  /** updateIfChanged */
  method UpdateIfChanged(repo: Repository, co: Checkout, tr: Trace) returns (err: Option<Error>)
    modifies co, tr
    ensures var t := PullTick(repo, co.answers, old(co.Value()));
      co.Value() == t.state && tr.events == old(tr.events) + t.ops && err == t.err
  {
    ghost var a, s, before := co.answers, co.Value(), tr.events;
    err := co.Open(repo.path, tr);
    if err.Some? {
      return;
    }
    if !repo.force {
      var unstChanges;
      unstChanges, err := HasUnstagedChanges(co, tr);
      AppendAssoc(before, [CallOpen(repo.path)], UnstagedOps(a));
      if err.Some? {
        return;
      }
      if unstChanges {
        return;
      }
    }
    assert tr.events == before + PullGuard(repo.path, repo.force, a);
    var localHead;
    localHead, err := co.Head(tr);
    AppendAssoc(before, PullGuard(repo.path, repo.force, a), [CallHead]);
    if err.Some? {
      return;
    }
    err := co.Remote(repo.remote, tr);
    AppendAssoc(before, PullGuard(repo.path, repo.force, a) + [CallHead], [CallRemote(repo.remote)]);
    if err.Some? {
      return;
    }
    var references;
    references, err := co.List(repo.remote, tr);
    AppendAssoc(before, PullGuard(repo.path, repo.force, a) + [CallHead] + [CallRemote(repo.remote)], [CallList]);
    if err.Some? {
      return;
    }
    var found, behind := SearchRefs(references, localHead);
    if found && !behind {
      err := PullIfBehind(repo, co, tr);
      AppendAssoc(before, Inspection(repo.path, repo.remote, repo.force, a), PullBehind(repo, a, s).ops);
    }
  }

  /** The `found && !behind` block of updateIfChanged. */
  method PullIfBehind(repo: Repository, co: Checkout, tr: Trace) returns (err: Option<Error>)
    modifies co, tr
    ensures var t := PullBehind(repo, co.answers, old(co.Value()));
      co.Value() == t.state && tr.events == old(tr.events) + t.ops && err == t.err
  {
    err := co.Worktree(tr);
    if err.Some? {
      return;
    }
    err := co.Pull(repo.remote, repo.force, tr);
    if err.Some? {
      return;
    }
    if !repo.force {
      tr.Record(Notify(repo.name + ": successfully pulled"));
    }
  }

  // ---------------------------------------------------------------- push

  /** The writes of a push tick in order: stage everything, commit, push. */
  function Writes(repo: Repository, now: Stamp): seq<Op>
  {
    [CallAddAll, CallCommit(CommitMessage(now)), CallPush(repo.force)]
  }

  /** pushIfChanged, as a function of the checkout's answers and state and of the time `now`. */
  function PushTick(repo: Repository, a: Answers, s: State, now: Stamp): (t: Tick)
  {
    var guard := PushGuard(repo.path, a);
    var w := Writes(repo, now);
    if a.open.Some? then Tick(s, [CallOpen(repo.path)], a.open)
    else if !Unstaged(a, s).0 || Unstaged(a, s).1.Some? then Tick(s, guard, Unstaged(a, s).1)
    // the second Worktree call answers as the first, so this branch is never taken
    else if a.worktree.Some? then Tick(s, guard + [CallWorktree], a.worktree)
    else if a.add.Some? then Tick(s, guard + [CallWorktree] + [w[0]], a.add)
    else if a.commit.Some? then Tick(s, guard + [CallWorktree] + [w[0]] + [w[1]], a.commit)
    else
      var pushed := guard + [CallWorktree] + [w[0]] + [w[1]] + [w[2]];
      if a.push.Some? then Tick(AfterCommit(s), pushed, a.push)
      else if repo.force then Tick(AfterCommit(s), pushed, None)
      else Tick(AfterCommit(s), pushed + [Notify(repo.name + ": successfully pushed")], None)
  }

  /** pushIfChanged; `now` is what time.Now() returns during the call. */
  method PushIfChanged(repo: Repository, co: Checkout, tr: Trace, now: Stamp) returns (err: Option<Error>)
    modifies co, tr
    ensures var t := PushTick(repo, co.answers, old(co.Value()), now);
      co.Value() == t.state && tr.events == old(tr.events) + t.ops && err == t.err
  {
    ghost var a, s, before := co.answers, co.Value(), tr.events;
    ghost var w := Writes(repo, now);
    err := co.Open(repo.path, tr);
    if err.Some? {
      return;
    }
    var unstChange;
    unstChange, err := HasUnstagedChanges(co, tr);
    AppendAssoc(before, [CallOpen(repo.path)], UnstagedOps(a));
    if !unstChange || err.Some? {
      return;
    }
    ghost var done := PushGuard(repo.path, a);
    err := co.Worktree(tr);
    AppendAssoc(before, done, [CallWorktree]);
    done := done + [CallWorktree];
    if err.Some? {
      return;
    }
    err := co.AddAll(tr);
    AppendAssoc(before, done, [w[0]]);
    done := done + [w[0]];
    if err.Some? {
      return;
    }
    var message := CommitMessage(now);
    err := co.Commit(message, tr);
    AppendAssoc(before, done, [w[1]]);
    done := done + [w[1]];
    if err.Some? {
      return;
    }
    err := co.Push(repo.force, tr);
    AppendAssoc(before, done, [w[2]]);
    done := done + [w[2]];
    if err.Some? {
      return;
    }
    if !repo.force {
      tr.Record(Notify(repo.name + ": successfully pushed"));
      AppendAssoc(before, done, [Notify(repo.name + ": successfully pushed")]);
    }
  }

  // ---------------------------------------------------------------- dispatch

  /** The tick execJob's switch selects: keepUpdated pulls, keepPushing pushes, any other value does nothing. */
  function Dispatch(repo: Repository, a: Answers, s: State, now: Stamp): Tick
  {
    if repo.job == KeepUpdated then PullTick(repo, a, s)
    else if repo.job == KeepPushing then PushTick(repo, a, s, now)
    else Tick(s, [], None)
  }

  /** execJob: the selected tick, then a notification of any error it returned. */
  function JobTick(repo: Repository, a: Answers, s: State, now: Stamp): Tick
  {
    var d := Dispatch(repo, a, s, now);
    if d.err.Some? then Tick(d.state, d.ops + [Notify(repo.name + ": " + d.err.value.Message())], d.err)
    else d
  }

  /** execJob */
  method ExecJob(repo: Repository, co: Checkout, tr: Trace, now: Stamp)
    modifies co, tr
    ensures var t := JobTick(repo, co.answers, old(co.Value()), now);
      co.Value() == t.state && tr.events == old(tr.events) + t.ops
  {
    var err: Option<Error> := None;
    if repo.job == KeepUpdated {
      err := UpdateIfChanged(repo, co, tr);
    } else if repo.job == KeepPushing {
      err := PushIfChanged(repo, co, tr, now);
    }
    if err.Some? {
      tr.Record(Notify(repo.name + ": " + err.value.Message()));
    }
  }

  // ---------------------------------------------------------------- scheduling

  /** The descriptor startPolling works with: an interval of 0 becomes the default, any other is kept. */
  function Coerced(repo: Repository): (r: Repository)
    ensures r.polling != 0
    ensures repo.polling != 0 ==> r == repo
    ensures repo.polling == 0 ==> r == repo.(polling := DefaultPolling)
  {
    if repo.polling == 0 then repo.(polling := DefaultPolling) else repo
  }

  /** The rounds of the polling loop: one execJob and one sleep of `repo.polling` seconds per clock reading. */
  function Rounds(repo: Repository, a: Answers, s: State, clock: seq<Stamp>): Tick
    decreases |clock|
  {
    if clock == [] then Tick(s, [], None)
    else
      var p := Rounds(repo, a, s, clock[..|clock| - 1]);
      var j := JobTick(repo, a, p.state, clock[|clock| - 1]);
      Tick(j.state, p.ops + j.ops + [Sleep(repo.polling)], None)
  }

  /**
   * startPolling, run for as many rounds as `clock` has readings (the
   * source loops forever); `clock[i]` is time.Now() during round i.
   */
  method StartPolling(repo: Repository, co: Checkout, tr: Trace, clock: seq<Stamp>)
    modifies co, tr
    ensures var t := Rounds(Coerced(repo), co.answers, old(co.Value()), clock);
      co.Value() == t.state && tr.events == old(tr.events) + t.ops
  {
    var repo := repo;
    if repo.polling == 0 {
      repo := repo.(polling := DefaultPolling);
    }
    ghost var a, s := co.answers, co.Value();
    var i := 0;
    while i < |clock|
      invariant 0 <= i <= |clock|
      invariant var t := Rounds(repo, a, s, clock[..i]);
        co.Value() == t.state && tr.events == old(tr.events) + t.ops
    {
      ghost var p := Rounds(repo, a, s, clock[..i]);
      ghost var j := JobTick(repo, a, co.Value(), clock[i]);
      ExecJob(repo, co, tr, clock[i]);
      tr.Record(Sleep(repo.polling));
      AppendAssoc(old(tr.events), p.ops, j.ops);
      AppendAssoc(old(tr.events), p.ops + j.ops, [Sleep(repo.polling)]);
      assert clock[..i + 1][..i] == clock[..i];
      assert Rounds(repo, a, s, clock[..i + 1]) == Tick(j.state, p.ops + j.ops + [Sleep(repo.polling)], None);
      i := i + 1;
    }
    assert clock[..i] == clock;
  }

  // ---------------------------------------------------------------- properties of the pull tick

  /** Without force, a dirty tree or a failed status check ends the pull tick before Head or Remote. */
  lemma PullDirtyGuard(repo: Repository, a: Answers, s: State)
    requires !repo.force && a.open.None? && Unstaged(a, s) != (false, None)
    ensures PullTick(repo, a, s) == Tick(s, [CallOpen(repo.path)] + UnstagedOps(a), Unstaged(a, s).1)
    ensures CallHead !in PullTick(repo, a, s).ops && CallRemote(repo.remote) !in PullTick(repo, a, s).ops
  {
  }

  /**
   * `found && !behind`, with `behind` meaning equal hashes, is the same
   * rule as the other variant's: pull exactly when the first same-named
   * remote ref points elsewhere than the head.
   */
  lemma PullOnlyWhenDrifted(repo: Repository, a: Answers, s: State)
    ensures CallPull(repo.remote, repo.force) in PullTick(repo, a, s).ops
      <==> Inspected(repo.remote, repo.force, a, s) && Drifted(s, repo.remote) && a.worktree.None?
    ensures Inspected(repo.remote, repo.force, a, s) && !Drifted(s, repo.remote) ==>
      PullTick(repo, a, s) == Tick(s, Inspection(repo.path, repo.remote, repo.force, a), None)
  {
  }

  /**
   * Force only reaches the pull options and silences the success message:
   * this variant never resets and never runs a script.
   */
  lemma PullNeverResets(repo: Repository, a: Answers, s: State)
    ensures forall h :: CallReset(h) !in PullTick(repo, a, s).ops
    ensures forall x :: RunScript(x) !in PullTick(repo, a, s).ops
  {
  }

  /**
   * Once the pull is due, a Pull error is returned as it is, and the
   * success message is sent exactly when Pull succeeded without force.
   */
  lemma PullForceOnlyQuiets(repo: Repository, a: Answers, s: State)
    ensures Inspected(repo.remote, repo.force, a, s) && Drifted(s, repo.remote) && a.worktree.None? ==>
      PullTick(repo, a, s).err == a.pull
    ensures Notify(repo.name + ": successfully pulled") in PullTick(repo, a, s).ops <==> !repo.force && Pulled(repo, a, s)
  {
  }

  /** Under the assumed adapter contract, a tick that pulled leaves nothing for the next tick to pull. */
  lemma PullSettles(repo: Repository, a: Answers, s: State)
    requires Pulled(repo, a, s)
    ensures var after := PullTick(repo, a, s).state;
      PullTick(repo, a, after) == Tick(after, Inspection(repo.path, repo.remote, repo.force, a), None)
  {
  }

  // ---------------------------------------------------------------- properties of the push tick

  /** A clean tree, or a failed status check, ends the push tick before anything is staged. */
  lemma PushCleanGuard(repo: Repository, a: Answers, s: State, now: Stamp)
    requires a.open.None? && Unstaged(a, s) != (true, None)
    ensures PushTick(repo, a, s, now) == Tick(s, PushGuard(repo.path, a), Unstaged(a, s).1)
  {
  }

  /**
   * On a dirty tree the writes run in the order AddWithOptions(All: true),
   * commit, push; the first one that fails is the last call made and its
   * error is returned; success sends "<name>: successfully pushed" unless forced.
   */
  lemma PushStopsAtFirstFailure(repo: Repository, a: Answers, s: State, now: Stamp)
    requires a.open.None? && Unstaged(a, s) == (true, None)
    ensures var t := PushTick(repo, a, s, now);
      var steps := [a.add, a.commit, a.push];
      var k := FirstFailure(steps);
      var prefix := PushGuard(repo.path, a) + [CallWorktree];
      (k < 3 ==> t == Tick(if k == 2 then AfterCommit(s) else s, prefix + Writes(repo, now)[..k + 1], steps[k]))
      && (k == 3 ==> t == Tick(AfterCommit(s), prefix + Writes(repo, now)
                                 + (if repo.force then [] else [Notify(repo.name + ": successfully pushed")]), None))
  {
    var steps := [a.add, a.commit, a.push];
    var w := Writes(repo, now);
    var prefix := PushGuard(repo.path, a) + [CallWorktree];
    assert prefix + w[..1] == prefix + [w[0]];
    assert prefix + w[..2] == prefix + [w[0]] + [w[1]];
    assert prefix + w == prefix + [w[0]] + [w[1]] + [w[2]];
    var k := FirstFailure(steps);
    assert steps[0] == a.add && steps[1] == a.commit && steps[2] == a.push;
    assert k == 3 ==> steps[2].None? && steps[1].None? && steps[0].None?;
  }

  /** Under the assumed adapter contract, once the commit succeeded the next push tick stops at the clean-tree check. */
  lemma PushSettlesAfterCommit(repo: Repository, a: Answers, s: State, now: Stamp, later: Stamp)
    requires a.open.None? && Unstaged(a, s) == (true, None) && a.add.None? && a.commit.None?
    ensures var after := PushTick(repo, a, s, now).state;
      PushTick(repo, a, after, later) == Tick(after, PushGuard(repo.path, a), None)
  {
  }

  // ---------------------------------------------------------------- properties of execJob

  /** A JobType other than keepUpdated and keepPushing does nothing at all. */
  lemma UnknownJobDoesNothing(repo: Repository, a: Answers, s: State, now: Stamp)
    requires repo.job != KeepUpdated && repo.job != KeepPushing
    ensures JobTick(repo, a, s, now) == Tick(s, [], None)
  {
  }

  /** Every error, "already up-to-date" included, adds one last notification "<name>: <error>". */
  lemma JobReportsEveryError(repo: Repository, a: Answers, s: State, now: Stamp)
    ensures var d, t := Dispatch(repo, a, s, now), JobTick(repo, a, s, now);
      t.state == d.state && t.err == d.err
      && (d.err.Some? ==> t.ops == d.ops + [Notify(repo.name + ": " + d.err.value.Message())])
      && (d.err.None? ==> t.ops == d.ops)
  {
  }

  /** A pull answered "already up-to-date" ends with the notification "<name>: already up-to-date". */
  lemma UpToDatePullIsReported(repo: Repository, a: Answers, s: State, now: Stamp)
    requires repo.job == KeepUpdated && a.pull == Some(AlreadyUpToDate)
    requires Inspected(repo.remote, repo.force, a, s) && Drifted(s, repo.remote) && a.worktree.None?
    ensures var t := JobTick(repo, a, s, now);
      t.ops != [] && t.ops[|t.ops| - 1] == Notify(repo.name + ": already up-to-date")
  {
    PullForceOnlyQuiets(repo, a, s);
    var d := Dispatch(repo, a, s, now);
    assert d.err == Some(AlreadyUpToDate);
    JobReportsEveryError(repo, a, s, now);
    assert repo.name + ": " + d.err.value.Message() == repo.name + ": already up-to-date";
  }

  // ---------------------------------------------------------------- convergence of the polling loop

  /**
   * Under the assumed adapter contract one execJob already reaches the
   * state the next one keeps, whatever the job and whatever the answers:
   * the checkout is reconciled or the same call fails again.
   */
  lemma JobSettles(repo: Repository, a: Answers, s: State, now: Stamp, later: Stamp)
    ensures var s1 := JobTick(repo, a, s, now).state;
      JobTick(repo, a, s1, later).state == s1
  {
    if repo.job == KeepUpdated {
      if Pulled(repo, a, s) {
        PullSettles(repo, a, s);
      }
    } else if repo.job == KeepPushing {
      if a.open.None? && Unstaged(a, s) == (true, None) && a.add.None? && a.commit.None? {
        PushSettlesAfterCommit(repo, a, s, now, later);
      }
    }
  }

  /**
   * However many rounds the polling loop runs, the checkout ends in the
   * state its first round left: later rounds change nothing more.
   */
  lemma {:induction false} RoundsSettle(repo: Repository, a: Answers, s: State, clock: seq<Stamp>)
    requires clock != []
    ensures Rounds(repo, a, s, clock).state == JobTick(repo, a, s, clock[0]).state
    decreases |clock|
  {
    var n := |clock| - 1;
    if n > 0 {
      RoundsSettle(repo, a, s, clock[..n]);
      JobSettles(repo, a, s, clock[0], clock[n]);
    }
  }
}
