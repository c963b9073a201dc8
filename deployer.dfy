/**
 * go-deployer.go: the pull and push ticks with the hard reset and the
 * post-action script, the job dispatch that hides "already up-to-date",
 * the polling loop (default 600) and the final pass on shutdown.
 */
module Deployer {
  import opened Wrappers
  import opened Git
  import opened Common
  import opened Stamp

  /** One entry of the repository list; `job` is "pull" or "push". */
  datatype Repository = Repository(
    job: string, name: string, url: string, remote: string,
    path: string, polling: int, force: bool, script: string)

  const DefaultPolling: int := 600

  // ---------------------------------------------------------------- pull

  /** The pull tick reached Pull and Pull returned nil. */
  predicate Pulled(repo: Repository, a: Answers, s: State)
  {
    Inspected(repo.remote, repo.force, a, s) && Drifted(s, repo.remote) && a.worktree.None? && a.pull.None?
  }

  /** The calls a pull tick makes once it acts: Worktree, the hard reset when forced, Pull. */
  function Acting(repo: Repository, s: State): seq<Op>
  {
    (if repo.force then [CallWorktree] + [CallReset(s.head.hash)] else [CallWorktree])
      + [CallPull(repo.remote, repo.force)]
  }

  /** The state a forced pull leaves after its hard reset. */
  function Forced(repo: Repository, a: Answers, s: State): State
  {
    if repo.force then AfterReset(a, s) else s
  }

  /** updateIfChanged, as a function of the checkout's answers and state. */
  function PullTick(repo: Repository, a: Answers, s: State): (t: Tick)
  {
    var guard := PullGuard(repo.path, repo.force, a);
    if a.open.Some? then Tick(s, [CallOpen(repo.path)], a.open)
    else if !repo.force && Unstaged(a, s) != (false, None) then Tick(s, guard, Unstaged(a, s).1)
    else if a.head.Some? then Tick(s, guard + [CallHead], a.head)
    else if repo.remote !in s.remotes then Tick(s, guard + [CallHead] + [CallRemote(repo.remote)], Some(RemoteNotFound))
    else if a.list.Some? then Tick(s, Inspection(repo.path, repo.remote, repo.force, a), a.list)
    else if !Drifted(s, repo.remote) then Tick(s, Inspection(repo.path, repo.remote, repo.force, a), None)
    else
      var behind := PullBehind(repo, a, s);
      Tick(behind.state, Inspection(repo.path, repo.remote, repo.force, a) + behind.ops, behind.err)
  }

  /** What the `found && behind` block of updateIfChanged does, on its own. */
  function PullBehind(repo: Repository, a: Answers, s: State): (t: Tick)
  {
    if a.worktree.Some? then Tick(s, [CallWorktree], a.worktree)
    else if a.pull.Some? then Tick(Forced(repo, a, s), Acting(repo, s), a.pull)
    else
      var pulled := AfterPull(Forced(repo, a, s), repo.remote);
      var done := if repo.force then Acting(repo, s) else Acting(repo, s) + [Notify(repo.name + ": successfully pulled")];
      if repo.script == "" then Tick(pulled, done, None)
      else if a.script.Some? then Tick(pulled, done + [RunScript(repo.script)], Some(ScriptFailed(a.script.value)))
      else Tick(pulled, done + [RunScript(repo.script)], None)
  }

  /** The ref search of updateIfChanged: `behind` is set when the first same-named ref has another hash. */
  method SearchRefs(references: seq<Ref>, localHead: Ref) returns (found: bool, behind: bool)
    ensures found <==> FirstMatch(references, localHead.name).Some?
    ensures behind <==> found && references[FirstMatch(references, localHead.name).value].hash != localHead.hash
  {
    found, behind := false, false;
    var i := 0;
    while i < |references|
      invariant 0 <= i <= |references|
      invariant forall j :: 0 <= j < i ==> references[j].name != localHead.name
      invariant !found && !behind
    {
      if references[i].name == localHead.name {
        found := true;
        behind := references[i].hash != localHead.hash;
        break;
      }
      i := i + 1;
    }
  }

  /** updateIfChanged */
  method UpdateIfChanged(repo: Repository, co: Checkout, tr: Trace) returns (err: Option<Error>)
    modifies co, tr
    ensures var t := PullTick(repo, co.answers, old(co.Value()));
      co.Value() == t.state && tr.events == old(tr.events) + t.ops && err == t.err
  {
    ghost var a, s, before := co.answers, co.Value(), tr.events;
    err := co.Open(repo.path, tr);
    if err.Some? {
      return;
    }
    if !repo.force {
      var unstChanges;
      unstChanges, err := HasUnstagedChanges(co, tr);
      AppendAssoc(before, [CallOpen(repo.path)], UnstagedOps(a));
      if err.Some? {
        return;
      }
      if unstChanges {
        return;
      }
    }
    assert tr.events == before + PullGuard(repo.path, repo.force, a);
    var localHead;
    localHead, err := co.Head(tr);
    AppendAssoc(before, PullGuard(repo.path, repo.force, a), [CallHead]);
    if err.Some? {
      return;
    }
    err := co.Remote(repo.remote, tr);
    AppendAssoc(before, PullGuard(repo.path, repo.force, a) + [CallHead], [CallRemote(repo.remote)]);
    if err.Some? {
      return;
    }
    var references;
    references, err := co.List(repo.remote, tr);
    AppendAssoc(before, PullGuard(repo.path, repo.force, a) + [CallHead] + [CallRemote(repo.remote)], [CallList]);
    if err.Some? {
      return;
    }
    var found, behind := SearchRefs(references, localHead);
    if found && behind {
      err := PullIfBehind(repo, co, tr, localHead);
      AppendAssoc(before, Inspection(repo.path, repo.remote, repo.force, a), PullBehind(repo, a, s).ops);
    }
  }

  /** The `found && behind` block of updateIfChanged, run with the head `localHead`. */
  method PullIfBehind(repo: Repository, co: Checkout, tr: Trace, localHead: Ref) returns (err: Option<Error>)
    requires localHead == co.head
    modifies co, tr
    ensures var t := PullBehind(repo, co.answers, old(co.Value()));
      co.Value() == t.state && tr.events == old(tr.events) + t.ops && err == t.err
  {
    ghost var a, s, before := co.answers, co.Value(), tr.events;
    err := co.Worktree(tr);
    if err.Some? {
      return;
    }
    ghost var done := [CallWorktree];
    if repo.force {
      var resetErr := co.Reset(localHead.hash, tr);  // its error is not looked at
      AppendAssoc(before, done, [CallReset(s.head.hash)]);
      done := done + [CallReset(s.head.hash)];
    }
    err := co.Pull(repo.remote, repo.force, tr);
    AppendAssoc(before, done, [CallPull(repo.remote, repo.force)]);
    done := done + [CallPull(repo.remote, repo.force)];
    assert done == Acting(repo, s);
    if err.Some? {
      return;
    }
    if !repo.force {
      tr.Record(Notify(repo.name + ": successfully pulled"));
      AppendAssoc(before, done, [Notify(repo.name + ": successfully pulled")]);
      done := done + [Notify(repo.name + ": successfully pulled")];
    }
    if repo.script != "" {
      var cause := co.RunHook(repo.script, tr);
      AppendAssoc(before, done, [RunScript(repo.script)]);
      if cause.Some? {
        err := Some(ScriptFailed(cause.value));
        return;
      }
    }
  }

  // ---------------------------------------------------------------- push

  /** The writes of a push tick in order: stage everything, commit, push. */
  function Writes(repo: Repository, now: Stamp): seq<Op>
  {
    [RunGitAdd(repo.path), CallCommit(CommitMessage(now)), CallPush(repo.force)]
  }

  /** pushIfChanged, as a function of the checkout's answers and state and of the time `now`. */
  function PushTick(repo: Repository, a: Answers, s: State, now: Stamp): (t: Tick)
  {
    var guard := PushGuard(repo.path, a);
    var w := Writes(repo, now);
    if a.open.Some? then Tick(s, [CallOpen(repo.path)], a.open)
    else if !Unstaged(a, s).0 || Unstaged(a, s).1.Some? then Tick(s, guard, Unstaged(a, s).1)
    // the second Worktree call answers as the first, so this branch is never taken
    else if a.worktree.Some? then Tick(s, guard + [CallWorktree], a.worktree)
    else if a.add.Some? then Tick(s, guard + [CallWorktree] + [w[0]], a.add)
    else if a.commit.Some? then Tick(s, guard + [CallWorktree] + [w[0]] + [w[1]], a.commit)
    else
      var pushed := guard + [CallWorktree] + [w[0]] + [w[1]] + [w[2]];
      if a.push.Some? then Tick(AfterCommit(s), pushed, a.push)
      else
        var done := if repo.force then pushed else pushed + [Notify(repo.name + ": successfully pushed")];
        if repo.script == "" then Tick(AfterCommit(s), done, None)
        else if a.script.Some? then Tick(AfterCommit(s), done + [RunScript(repo.script)], Some(ScriptFailed(a.script.value)))
        else Tick(AfterCommit(s), done + [RunScript(repo.script)], None)
  }

  /** pushIfChanged; `now` is what time.Now() returns during the call. */
  method PushIfChanged(repo: Repository, co: Checkout, tr: Trace, now: Stamp) returns (err: Option<Error>)
    modifies co, tr
    ensures var t := PushTick(repo, co.answers, old(co.Value()), now);
      co.Value() == t.state && tr.events == old(tr.events) + t.ops && err == t.err
  {
    ghost var a, s, before := co.answers, co.Value(), tr.events;
    ghost var w := Writes(repo, now);
    err := co.Open(repo.path, tr);
    if err.Some? {
      return;
    }
    var unstChange;
    unstChange, err := HasUnstagedChanges(co, tr);
    AppendAssoc(before, [CallOpen(repo.path)], UnstagedOps(a));
    if !unstChange || err.Some? {
      return;
    }
    ghost var done := PushGuard(repo.path, a);
    err := co.Worktree(tr);
    AppendAssoc(before, done, [CallWorktree]);
    done := done + [CallWorktree];
    if err.Some? {
      return;
    }
    err := co.GitAdd(repo.path, tr);
    AppendAssoc(before, done, [w[0]]);
    done := done + [w[0]];
    if err.Some? {
      return;
    }
    var message := CommitMessage(now);
    err := co.Commit(message, tr);
    AppendAssoc(before, done, [w[1]]);
    done := done + [w[1]];
    if err.Some? {
      return;
    }
    err := co.Push(repo.force, tr);
    AppendAssoc(before, done, [w[2]]);
    done := done + [w[2]];
    if err.Some? {
      return;
    }
    if !repo.force {
      tr.Record(Notify(repo.name + ": successfully pushed"));
      AppendAssoc(before, done, [Notify(repo.name + ": successfully pushed")]);
      done := done + [Notify(repo.name + ": successfully pushed")];
    }
    if repo.script != "" {
      var cause := co.RunHook(repo.script, tr);
      AppendAssoc(before, done, [RunScript(repo.script)]);
      if cause.Some? {
        err := Some(ScriptFailed(cause.value));
        return;
      }
    }
  }

  // ---------------------------------------------------------------- dispatch

  /** The tick execJob's switch selects: updateIfChanged for "pull", pushIfChanged for "push", else nothing. */
  function Dispatch(repo: Repository, a: Answers, s: State, now: Stamp): Tick
  {
    if repo.job == "pull" then PullTick(repo, a, s)
    else if repo.job == "push" then PushTick(repo, a, s, now)
    else Tick(s, [], None)
  }

  /** execJob: the selected tick, then a notification of its error unless it is "already up-to-date". */
  function JobTick(repo: Repository, a: Answers, s: State, now: Stamp): Tick
  {
    var d := Dispatch(repo, a, s, now);
    if d.err.Some? && d.err.value != AlreadyUpToDate then
      Tick(d.state, d.ops + [Notify(repo.name + ": " + d.err.value.Message())], d.err)
    else d
  }

  /** execJob */
  method ExecJob(repo: Repository, co: Checkout, tr: Trace, now: Stamp)
    modifies co, tr
    ensures var t := JobTick(repo, co.answers, old(co.Value()), now);
      co.Value() == t.state && tr.events == old(tr.events) + t.ops
  {
    var err: Option<Error> := None;
    if repo.job == "pull" {
      err := UpdateIfChanged(repo, co, tr);
    } else if repo.job == "push" {
      err := PushIfChanged(repo, co, tr, now);
    }
    if err.Some? && err.value != AlreadyUpToDate {
      tr.Record(Notify(repo.name + ": " + err.value.Message()));
    }
  }

  // ---------------------------------------------------------------- scheduling

  /** The descriptor startPolling works with: an interval of 0 becomes the default, any other is kept. */
  function Coerced(repo: Repository): (r: Repository)
    ensures r.polling != 0
    ensures repo.polling != 0 ==> r == repo
    ensures repo.polling == 0 ==> r == repo.(polling := DefaultPolling)
  {
    if repo.polling == 0 then repo.(polling := DefaultPolling) else repo
  }

  /** The rounds of the polling loop: one execJob and one sleep of `repo.polling` seconds per clock reading. */
  function Rounds(repo: Repository, a: Answers, s: State, clock: seq<Stamp>): Tick
    decreases |clock|
  {
    if clock == [] then Tick(s, [], None)
    else
      var p := Rounds(repo, a, s, clock[..|clock| - 1]);
      var j := JobTick(repo, a, p.state, clock[|clock| - 1]);
      Tick(j.state, p.ops + j.ops + [Sleep(repo.polling)], None)
  }

  /**
   * startPolling, run for as many rounds as `clock` has readings (the
   * source loops forever); `clock[i]` is time.Now() during round i.
   */
  method StartPolling(repo: Repository, co: Checkout, tr: Trace, clock: seq<Stamp>)
    modifies co, tr
    ensures var t := Rounds(Coerced(repo), co.answers, old(co.Value()), clock);
      co.Value() == t.state && tr.events == old(tr.events) + t.ops
  {
    var repo := repo;
    if repo.polling == 0 {
      repo := repo.(polling := DefaultPolling);
    }
    ghost var a, s := co.answers, co.Value();
    var i := 0;
    while i < |clock|
      invariant 0 <= i <= |clock|
      invariant var t := Rounds(repo, a, s, clock[..i]);
        co.Value() == t.state && tr.events == old(tr.events) + t.ops
    {
      ghost var p := Rounds(repo, a, s, clock[..i]);
      ghost var j := JobTick(repo, a, co.Value(), clock[i]);
      ExecJob(repo, co, tr, clock[i]);
      tr.Record(Sleep(repo.polling));
      AppendAssoc(old(tr.events), p.ops, j.ops);
      AppendAssoc(old(tr.events), p.ops + j.ops, [Sleep(repo.polling)]);
      assert clock[..i + 1][..i] == clock[..i];
      assert Rounds(repo, a, s, clock[..i + 1]) == Tick(j.state, p.ops + j.ops + [Sleep(repo.polling)], None);
      i := i + 1;
    }
    assert clock[..i] == clock;
  }

  /** The calls of the final pass: one execJob per repository, in list order. */
  function PassOps(repos: seq<Repository>, cos: seq<Checkout>, clock: seq<Stamp>): seq<Op>
    requires |cos| == |repos| == |clock|
    reads cos
  {
    if repos == [] then []
    else
      var n := |repos| - 1;
      PassOps(repos[..n], cos[..n], clock[..n]) + JobTick(repos[n], cos[n].answers, cos[n].Value(), clock[n]).ops
  }

  /**
   * The final pass main runs after the termination signal: execJob for
   * every repository, one after the other.  `cos[i]` is the checkout at
   * `repos[i].path` and `clock[i]` the time during its job.
   */
  method FinalPass(repos: seq<Repository>, cos: seq<Checkout>, tr: Trace, clock: seq<Stamp>)
    requires |cos| == |repos| == |clock|
    requires forall i, j :: 0 <= i < j < |cos| ==> cos[i] != cos[j]
    modifies cos, tr
    ensures forall i :: 0 <= i < |cos| ==>
      cos[i].Value() == JobTick(repos[i], cos[i].answers, old(cos[i].Value()), clock[i]).state
    ensures tr.events == old(tr.events) + old(PassOps(repos, cos, clock))
  {
    var i := 0;
    while i < |repos|
      invariant 0 <= i <= |repos|
      invariant forall k :: 0 <= k < i ==>
        cos[k].Value() == JobTick(repos[k], cos[k].answers, old(cos[k].Value()), clock[k]).state
      invariant forall k :: i <= k < |cos| ==> cos[k].Value() == old(cos[k].Value())
      invariant tr.events == old(tr.events) + old(PassOps(repos[..i], cos[..i], clock[..i]))
    {
      ghost var p := old(PassOps(repos[..i], cos[..i], clock[..i]));
      ghost var j := JobTick(repos[i], cos[i].answers, cos[i].Value(), clock[i]);
      ExecJob(repos[i], cos[i], tr, clock[i]);
      AppendAssoc(old(tr.events), p, j.ops);
      assert repos[..i + 1][..i] == repos[..i] && cos[..i + 1][..i] == cos[..i] && clock[..i + 1][..i] == clock[..i];
      assert old(PassOps(repos[..i + 1], cos[..i + 1], clock[..i + 1])) == p + j.ops;
      i := i + 1;
    }
    assert repos[..i] == repos && cos[..i] == cos && clock[..i] == clock;
  }

  // ---------------------------------------------------------------- properties of the pull tick

  /** Without force, a dirty tree or a failed status check ends the pull tick before Head, Remote or List. */
  lemma PullDirtyGuard(repo: Repository, a: Answers, s: State)
    requires !repo.force && a.open.None? && Unstaged(a, s) != (false, None)
    ensures PullTick(repo, a, s) == Tick(s, [CallOpen(repo.path)] + UnstagedOps(a), Unstaged(a, s).1)
    ensures CallHead !in PullTick(repo, a, s).ops && CallList !in PullTick(repo, a, s).ops
  {
  }

  /** With force the status of the working tree is never asked for. */
  lemma ForcedPullSkipsStatus(repo: Repository, a: Answers, s: State)
    requires repo.force
    ensures CallStatus !in PullTick(repo, a, s).ops
  {
  }

  /**
   * The pull happens exactly when every check passed and the first remote
   * ref named like the head points elsewhere; otherwise, once the listing
   * is in hand, the tick returns nil with no further call.
   */
  lemma PullOnlyWhenDrifted(repo: Repository, a: Answers, s: State)
    ensures CallPull(repo.remote, repo.force) in PullTick(repo, a, s).ops
      <==> Inspected(repo.remote, repo.force, a, s) && Drifted(s, repo.remote) && a.worktree.None?
    ensures Inspected(repo.remote, repo.force, a, s) && !Drifted(s, repo.remote) ==>
      PullTick(repo, a, s) == Tick(s, Inspection(repo.path, repo.remote, repo.force, a), None)
  {
  }

  /**
   * Acting: Worktree, then under force a hard reset to the local head, then
   * Pull.  A Pull error (already-up-to-date included) ends the tick and is
   * returned.
   */
  lemma PullActs(repo: Repository, a: Answers, s: State)
    requires Inspected(repo.remote, repo.force, a, s) && Drifted(s, repo.remote) && a.worktree.None?
    ensures var t := PullTick(repo, a, s);
      var acting := Inspection(repo.path, repo.remote, repo.force, a) + Acting(repo, s);
      |acting| <= |t.ops| && t.ops[..|acting|] == acting
      && (a.pull.Some? ==> t == Tick(Forced(repo, a, s), acting, a.pull))
  {
  }

  /** The hard reset's error is dropped: it changes neither the calls made nor the error returned. */
  lemma ResetErrorDiscarded(repo: Repository, a: Answers, s: State, e: Option<Error>)
    ensures PullTick(repo, a.(reset := e), s).ops == PullTick(repo, a, s).ops
    ensures PullTick(repo, a.(reset := e), s).err == PullTick(repo, a, s).err
  {
  }

  /** "<name>: successfully pulled" is sent only after Pull returned nil, and only without force. */
  lemma PullSuccessMessage(repo: Repository, a: Answers, s: State)
    ensures Notify(repo.name + ": successfully pulled") in PullTick(repo, a, s).ops
      <==> !repo.force && Pulled(repo, a, s)
  {
  }

  /**
   * The script runs only after Pull returned nil and only when one is
   * configured; its failure is returned but undoes neither the pull nor the
   * message already sent.
   */
  lemma PullScript(repo: Repository, a: Answers, s: State)
    ensures RunScript(repo.script) in PullTick(repo, a, s).ops <==> Pulled(repo, a, s) && repo.script != ""
    ensures Pulled(repo, a, s) ==>
      PullTick(repo, a, s).state == AfterPull(Forced(repo, a, s), repo.remote)
      && PullTick(repo, a, s).err
         == (if repo.script != "" && a.script.Some? then Some(ScriptFailed(a.script.value)) else None)
  {
  }

  /** Under the assumed adapter contract, a tick that pulled leaves nothing for the next tick to pull. */
  lemma PullSettles(repo: Repository, a: Answers, s: State)
    requires Pulled(repo, a, s)
    ensures var after := PullTick(repo, a, s).state;
      PullTick(repo, a, after) == Tick(after, Inspection(repo.path, repo.remote, repo.force, a), None)
  {
  }

  // ---------------------------------------------------------------- properties of the push tick

  /** The push tick made the three writes and each returned nil. */
  predicate Pushed(a: Answers, s: State)
  {
    a.open.None? && Unstaged(a, s) == (true, None) && a.add.None? && a.commit.None? && a.push.None?
  }

  /** A clean tree, or a failed status check, ends the push tick before anything is staged. */
  lemma PushCleanGuard(repo: Repository, a: Answers, s: State, now: Stamp)
    requires a.open.None? && Unstaged(a, s) != (true, None)
    ensures PushTick(repo, a, s, now) == Tick(s, PushGuard(repo.path, a), Unstaged(a, s).1)
  {
  }

  /**
   * On a dirty tree the writes run in the order stage, commit, push; the
   * first one that fails is the last call made and its error is returned.
   */
  lemma PushStopsAtFirstFailure(repo: Repository, a: Answers, s: State, now: Stamp)
    requires a.open.None? && Unstaged(a, s) == (true, None)
    ensures var t := PushTick(repo, a, s, now);
      var steps := [a.add, a.commit, a.push];
      var k := FirstFailure(steps);
      var prefix := PushGuard(repo.path, a) + [CallWorktree];
      (k < 3 ==> t == Tick(if k == 2 then AfterCommit(s) else s, prefix + Writes(repo, now)[..k + 1], steps[k]))
      && (k == 3 ==> |prefix| + 3 <= |t.ops| && t.ops[..|prefix| + 3] == prefix + Writes(repo, now))
  {
    var steps := [a.add, a.commit, a.push];
    var w := Writes(repo, now);
    var prefix := PushGuard(repo.path, a) + [CallWorktree];
    assert prefix + w[..1] == prefix + [w[0]];
    assert prefix + w[..2] == prefix + [w[0]] + [w[1]];
    assert prefix + w[..3] == prefix + [w[0]] + [w[1]] + [w[2]];
    var k := FirstFailure(steps);
    assert steps[0] == a.add && steps[1] == a.commit && steps[2] == a.push;
    assert k == 3 ==> steps[2].None? && steps[1].None? && steps[0].None?;
  }

  /** "<name>: successfully pushed" is sent only after Push returned nil, and only without force. */
  lemma PushSuccessMessage(repo: Repository, a: Answers, s: State, now: Stamp)
    ensures Notify(repo.name + ": successfully pushed") in PushTick(repo, a, s, now).ops
      <==> !repo.force && Pushed(a, s)
  {
  }

  /**
   * The script runs only after Push returned nil and only when one is
   * configured; its failure is returned but does not undo the commit.
   */
  lemma PushScript(repo: Repository, a: Answers, s: State, now: Stamp)
    ensures RunScript(repo.script) in PushTick(repo, a, s, now).ops <==> Pushed(a, s) && repo.script != ""
    ensures Pushed(a, s) ==>
      PushTick(repo, a, s, now).state == AfterCommit(s)
      && PushTick(repo, a, s, now).err
         == (if repo.script != "" && a.script.Some? then Some(ScriptFailed(a.script.value)) else None)
  {
  }

  /**
   * Under the assumed adapter contract, once the commit succeeded the next
   * push tick stops at the clean-tree check, whether or not the push itself
   * succeeded: a failed push is not retried while the tree stays clean.
   */
  lemma PushSettlesAfterCommit(repo: Repository, a: Answers, s: State, now: Stamp, later: Stamp)
    requires a.open.None? && Unstaged(a, s) == (true, None) && a.add.None? && a.commit.None?
    ensures var after := PushTick(repo, a, s, now).state;
      PushTick(repo, a, after, later) == Tick(after, PushGuard(repo.path, a), None)
  {
  }

  /**
   * A failed push is postponed, not given up: once something dirties the
   * tree again, the next tick stages, commits and calls Push once more.
   */
  lemma PushResumesWhenDirty(repo: Repository, a: Answers, s: State, now: Stamp, later: Stamp)
    requires a.open.None? && Unstaged(a, s) == (true, None) && a.add.None? && a.commit.None?
    ensures var dirtied := PushTick(repo, a, s, now).state.(dirty := true);
      var t := PushTick(repo, a, dirtied, later);
      RunGitAdd(repo.path) in t.ops && CallCommit(CommitMessage(later)) in t.ops && CallPush(repo.force) in t.ops
  {
    var dirtied := PushTick(repo, a, s, now).state.(dirty := true);
    PushStopsAtFirstFailure(repo, a, dirtied, later);
  }

  // ---------------------------------------------------------------- properties of execJob

  /** A job that is neither "pull" nor "push" does nothing at all. */
  lemma UnknownJobDoesNothing(repo: Repository, a: Answers, s: State, now: Stamp)
    requires repo.job != "pull" && repo.job != "push"
    ensures JobTick(repo, a, s, now) == Tick(s, [], None)
  {
  }

  /** Every error but "already up-to-date" adds one last notification "<name>: <error>"; nothing else is added. */
  lemma JobReportsErrors(repo: Repository, a: Answers, s: State, now: Stamp)
    ensures var d, t := Dispatch(repo, a, s, now), JobTick(repo, a, s, now);
      t.state == d.state && t.err == d.err
      && (d.err.Some? && d.err.value != AlreadyUpToDate ==>
            t.ops == d.ops + [Notify(repo.name + ": " + d.err.value.Message())])
      && (d.err.None? || d.err.value == AlreadyUpToDate ==> t.ops == d.ops)
  {
  }

  /** A pull answered "already up-to-date" sends no notification at all: neither success nor error. */
  lemma UpToDatePullIsSilent(repo: Repository, a: Answers, s: State, now: Stamp)
    requires repo.job == "pull" && a.pull == Some(AlreadyUpToDate)
    requires Inspected(repo.remote, repo.force, a, s) && Drifted(s, repo.remote) && a.worktree.None?
    ensures forall m :: Notify(m) !in JobTick(repo, a, s, now).ops
  {
  }

  // ---------------------------------------------------------------- convergence of the polling loop

  /**
   * Under the assumed adapter contract one execJob already reaches the
   * state the next one keeps, whatever the job and whatever the answers:
   * the checkout is reconciled or the same call fails again.
   */
  lemma JobSettles(repo: Repository, a: Answers, s: State, now: Stamp, later: Stamp)
    ensures var s1 := JobTick(repo, a, s, now).state;
      JobTick(repo, a, s1, later).state == s1
  {
    if repo.job == "pull" {
      if Pulled(repo, a, s) {
        PullSettles(repo, a, s);
      }
    } else if repo.job == "push" {
      if a.open.None? && Unstaged(a, s) == (true, None) && a.add.None? && a.commit.None? {
        PushSettlesAfterCommit(repo, a, s, now, later);
      }
    }
  }

  /**
   * However many rounds the polling loop runs, the checkout ends in the
   * state its first round left: later rounds change nothing more.
   */
  lemma {:induction false} RoundsSettle(repo: Repository, a: Answers, s: State, clock: seq<Stamp>)
    requires clock != []
    ensures Rounds(repo, a, s, clock).state == JobTick(repo, a, s, clock[0]).state
    decreases |clock|
  {
    var n := |clock| - 1;
    if n > 0 {
      RoundsSettle(repo, a, s, clock[..n]);
      JobSettles(repo, a, s, clock[0], clock[n]);
    }
  }
}
