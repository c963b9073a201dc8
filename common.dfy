/**
 * Pieces that go-deployer.go and main.go share: the outcome of one tick,
 * the dirty-tree check `hasUnstagedChages` (the same in both), and the
 * meaning of the drift rule that decides whether a pull is needed (written
 * with `!=` in one file and `==` negated in the other).
 */
module Common {
  import opened Wrappers
  import opened Git

  /** What one tick leaves behind: the checkout's new state, every call it made, the error it returned. */
  datatype Tick = Tick(state: State, ops: seq<Op>, err: Option<Error>)

  /** The result of hasUnstagedChages: (true, nil) exactly when the working tree is not clean. */
  function Unstaged(a: Answers, s: State): (r: (bool, Option<Error>))
    ensures r.0 <==> a.worktree.None? && a.status.None? && s.dirty
    ensures r.1.Some? <==> a.worktree.Some? || a.status.Some?
    ensures r.1.Some? ==> r.1 == (if a.worktree.Some? then a.worktree else a.status)
  {
    if a.worktree.Some? then (false, a.worktree)
    else if a.status.Some? then (false, a.status)
    else (s.dirty, None)
  }

  /** The calls hasUnstagedChages makes: Worktree, then Status unless Worktree failed. */
  function UnstagedOps(a: Answers): seq<Op>
  {
    if a.worktree.Some? then [CallWorktree] else [CallWorktree, CallStatus]
  }

  /** hasUnstagedChages */
  method HasUnstagedChanges(co: Checkout, tr: Trace) returns (unstaged: bool, err: Option<Error>)
    modifies tr
    ensures (unstaged, err) == Unstaged(co.answers, co.Value())
    ensures tr.events == old(tr.events) + UnstagedOps(co.answers)
  {
    unstaged := false;
    err := co.Worktree(tr);
    if err.Some? {
      return;
    }
    var notClean;
    notClean, err := co.Status(tr);
    if err.Some? {
      return;
    }
    unstaged := notClean;
  }

  /** The calls of a pull tick up to its dirty-tree guard: PlainOpen, then hasUnstagedChages unless forced. */
  function PullGuard(path: string, force: bool, a: Answers): seq<Op>
  {
    if force then [CallOpen(path)] else [CallOpen(path)] + UnstagedOps(a)
  }

  /** The calls of a pull tick that gets through every check before the ref search. */
  function Inspection(path: string, remote: string, force: bool, a: Answers): seq<Op>
  {
    PullGuard(path, force, a) + [CallHead] + [CallRemote(remote)] + [CallList]
  }

  /** Opening, the dirty-tree guard (skipped under force), Head, Remote and List all passed. */
  predicate Inspected(remote: string, force: bool, a: Answers, s: State)
  {
    a.open.None? && (force || Unstaged(a, s) == (false, None))
      && a.head.None? && remote in s.remotes && a.list.None?
  }

  /** The calls of a push tick up to its clean-tree check: PlainOpen, then hasUnstagedChages. */
  function PushGuard(path: string, a: Answers): seq<Op>
  {
    [CallOpen(path)] + UnstagedOps(a)
  }

  /**
   * The pull rule of both variants: the first reference the remote lists
   * under the local head's name exists and points elsewhere than the head.
   */
  predicate Drifted(s: State, remote: string)
  {
    var up := Upstream(s, remote);
    up.Some? && up.value != s.head.hash
  }

  /** Index of the first step that answered an error, or the number of steps when none did. */
  function FirstFailure(steps: seq<Option<Error>>): (k: nat)
    ensures k <= |steps|
    ensures forall j :: 0 <= j < k ==> steps[j].None?
    ensures k < |steps| ==> steps[k].Some?
  {
    if steps == [] || steps[0].Some? then 0 else 1 + FirstFailure(steps[1..])
  }

  /** Regrouping a trace that grew by one more call. */
  lemma AppendAssoc(a: seq<Op>, b: seq<Op>, c: seq<Op>)
    ensures a + b + c == a + (b + c)
  {
  }
}
