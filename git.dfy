/**
 * An abstract checkout as the daemon sees it through go-git.
 *
 * The library itself is not modelled: every call the daemon makes on a
 * checkout answers what the checkout's `Answers` say it answers, is recorded
 * in a `Trace`, and changes the checkout's `State` only as described by
 * `AfterReset`, `AfterPull` and `AfterCommit`.  Those three effects are an
 * assumed adapter contract, not something the daemon's code shows.
 */
module Git {
  import opened Wrappers

  /** The Go `error` values a tick can return. */
  datatype Error =
    | AlreadyUpToDate             // git.NoErrAlreadyUpToDate, returned by Pull and Push
    | RemoteNotFound              // git.ErrRemoteNotFound, returned by Repository.Remote
    | Failed(text: string)        // any other error of the library or of an external command
    | ScriptFailed(cause: string) // the error built when the post-action script fails
  {
    /** What `err.Error()` gives. */
    function Message(): string
    {
      match this
      case AlreadyUpToDate => "already up-to-date"
      case RemoteNotFound => "remote not found"
      case Failed(text) => text
      case ScriptFailed(cause) => "executing script returned an error, " + cause
    }
  }

  /** A reference: its full name (such as refs/heads/main) and the hash it points to. */
  datatype Ref = Ref(name: string, hash: string)

  /**
   * What each call answers on this checkout: `None` for nil, `Some(e)` for
   * an error.  `script` is the error text of `sh script` when it fails.
   */
  datatype Answers = Answers(
    open: Option<Error>,      // git.PlainOpen
    worktree: Option<Error>,  // Repository.Worktree
    status: Option<Error>,    // Worktree.Status
    head: Option<Error>,      // Repository.Head
    list: Option<Error>,      // Remote.List
    reset: Option<Error>,     // Worktree.Reset
    pull: Option<Error>,      // Worktree.Pull
    add: Option<Error>,       // staging: `git add .` or Worktree.AddWithOptions
    commit: Option<Error>,    // Worktree.Commit
    push: Option<Error>,      // Repository.Push
    script: Option<string>)   // sh script

  /**
   * The part of a checkout that calls can change: whether the working tree
   * is dirty, the local head, and for each configured remote the references
   * that listing it returns.
   */
  datatype State = State(dirty: bool, head: Ref, remotes: map<string, seq<Ref>>)

  /** One entry of the trace: a library call, an external command, or a notification. */
  datatype Op =
    | CallOpen(path: string)
    | CallWorktree
    | CallStatus
    | CallHead
    | CallRemote(name: string)
    | CallList
    | CallReset(hash: string)
    | CallPull(remote: string, force: bool)
    | CallAddAll                  // Worktree.AddWithOptions(All: true)
    | RunGitAdd(dir: string)      // the external command `git add .` run in dir
    | CallCommit(message: string)
    | CallPush(force: bool)
    | RunScript(script: string)   // the external command `sh script`
    | Notify(message: string)     // notify-send
    | Sleep(seconds: int)

  /** Index of the first reference called `name`, if any. */
  function FirstMatch(refs: seq<Ref>, name: string): (r: Option<nat>)
    ensures r.Some? ==> r.value < |refs| && refs[r.value].name == name
    ensures r.Some? ==> forall j :: 0 <= j < r.value ==> refs[j].name != name
    ensures r.None? ==> forall j :: 0 <= j < |refs| ==> refs[j].name != name
  {
    if refs == [] then None
    else if refs[0].name == name then Some(0)
    else
      match FirstMatch(refs[1..], name)
      case None => None
      case Some(i) => Some(i + 1)
  }

  /** The hash the remote lists for the local head's branch: the first reference of that name. */
  function Upstream(s: State, remote: string): (h: Option<string>)
    ensures h.Some? <==> remote in s.remotes && FirstMatch(s.remotes[remote], s.head.name).Some?
    ensures h.Some? ==> h.value == s.remotes[remote][FirstMatch(s.remotes[remote], s.head.name).value].hash
  {
    if remote !in s.remotes then None
    else
      var refs := s.remotes[remote];
      match FirstMatch(refs, s.head.name)
      case None => None
      case Some(i) => Some(refs[i].hash)
  }

  /** Assumed: a hard reset that succeeds leaves a clean working tree. */
  function AfterReset(a: Answers, s: State): State
  {
    if a.reset.None? then s.(dirty := false) else s
  }

  /** Assumed: a pull that succeeds moves the head to the hash the remote lists for it. */
  function AfterPull(s: State, remote: string): State
  {
    match Upstream(s, remote)
    case None => s
    case Some(h) => s.(head := s.head.(hash := h))
  }

  /**
   * Assumed: a commit that succeeds leaves a clean working tree (everything
   * was staged).  The head is left as it was: the new commit's hash is not
   * modelled.
   */
  function AfterCommit(s: State): State
  {
    s.(dirty := false)
  }

  /** The record of everything the daemon did, in order. */
  class Trace {
    var events: seq<Op>

    constructor ()
      ensures events == []
    {
      events := [];
    }

    method Record(op: Op)
      modifies this
      ensures events == old(events) + [op]
    {
      events := events + [op];
    }
  }

  /** One checkout on disk, with the remotes it is configured with. */
  class Checkout {
    const answers: Answers
    var dirty: bool
    var head: Ref
    var remotes: map<string, seq<Ref>>

    function Value(): State
      reads this
    {
      State(dirty, head, remotes)
    }

    constructor (answers: Answers, init: State)
      ensures this.answers == answers && Value() == init
    {
      this.answers := answers;
      dirty, head, remotes := init.dirty, init.head, init.remotes;
    }

    /** git.PlainOpen(path) */
    method Open(path: string, tr: Trace) returns (err: Option<Error>)
      modifies tr
      ensures err == answers.open
      ensures tr.events == old(tr.events) + [CallOpen(path)]
    {
      tr.Record(CallOpen(path));
      err := answers.open;
    }

    /** Repository.Worktree() */
    method Worktree(tr: Trace) returns (err: Option<Error>)
      modifies tr
      ensures err == answers.worktree
      ensures tr.events == old(tr.events) + [CallWorktree]
    {
      tr.Record(CallWorktree);
      err := answers.worktree;
    }

    /** Worktree.Status(), reduced to whether the status is not clean. */
    method Status(tr: Trace) returns (notClean: bool, err: Option<Error>)
      modifies tr
      ensures err == answers.status
      ensures notClean == (err.None? && dirty)
      ensures tr.events == old(tr.events) + [CallStatus]
    {
      tr.Record(CallStatus);
      err := answers.status;
      notClean := err.None? && dirty;
    }

    /** Repository.Head() */
    method Head(tr: Trace) returns (ref: Ref, err: Option<Error>)
      modifies tr
      ensures err == answers.head && ref == head
      ensures tr.events == old(tr.events) + [CallHead]
    {
      tr.Record(CallHead);
      err := answers.head;
      ref := head;
    }

    /** Repository.Remote(name): fails when no remote of that name is configured. */
    method Remote(name: string, tr: Trace) returns (err: Option<Error>)
      modifies tr
      ensures err == if name in remotes then None else Some(RemoteNotFound)
      ensures tr.events == old(tr.events) + [CallRemote(name)]
    {
      tr.Record(CallRemote(name));
      err := if name in remotes then None else Some(RemoteNotFound);
    }

    /** Remote.List() on a remote that Remote(name) returned. */
    method List(name: string, tr: Trace) returns (refs: seq<Ref>, err: Option<Error>)
      requires name in remotes
      modifies tr
      ensures err == answers.list && refs == remotes[name]
      ensures tr.events == old(tr.events) + [CallList]
    {
      tr.Record(CallList);
      err := answers.list;
      refs := remotes[name];
    }

    /** Worktree.Reset with mode HardReset to the commit `hash`. */
    method Reset(hash: string, tr: Trace) returns (err: Option<Error>)
      modifies this, tr
      ensures err == answers.reset
      ensures Value() == AfterReset(answers, old(Value()))
      ensures tr.events == old(tr.events) + [CallReset(hash)]
    {
      tr.Record(CallReset(hash));
      err := answers.reset;
      if err.None? {
        dirty := false;
      }
    }

    /** Worktree.Pull from the remote `remote`. */
    method Pull(remote: string, force: bool, tr: Trace) returns (err: Option<Error>)
      modifies this, tr
      ensures err == answers.pull
      ensures Value() == if err.None? then AfterPull(old(Value()), remote) else old(Value())
      ensures tr.events == old(tr.events) + [CallPull(remote, force)]
    {
      tr.Record(CallPull(remote, force));
      err := answers.pull;
      if err.None? {
        var h := Upstream(Value(), remote);
        if h.Some? {
          head := head.(hash := h.value);
        }
      }
    }

    /** Worktree.AddWithOptions(All: true) */
    method AddAll(tr: Trace) returns (err: Option<Error>)
      modifies tr
      ensures err == answers.add
      ensures tr.events == old(tr.events) + [CallAddAll]
    {
      tr.Record(CallAddAll);
      err := answers.add;
    }

    /** The external command `git add .` run in the working tree's root `dir`. */
    method GitAdd(dir: string, tr: Trace) returns (err: Option<Error>)
      modifies tr
      ensures err == answers.add
      ensures tr.events == old(tr.events) + [RunGitAdd(dir)]
    {
      tr.Record(RunGitAdd(dir));
      err := answers.add;
    }

    /** Worktree.Commit(message) */
    method Commit(message: string, tr: Trace) returns (err: Option<Error>)
      modifies this, tr
      ensures err == answers.commit
      ensures Value() == if err.None? then AfterCommit(old(Value())) else old(Value())
      ensures tr.events == old(tr.events) + [CallCommit(message)]
    {
      tr.Record(CallCommit(message));
      err := answers.commit;
      if err.None? {
        dirty := false;
      }
    }

    /** Repository.Push (to the default remote; the daemon names none). */
    method Push(force: bool, tr: Trace) returns (err: Option<Error>)
      modifies tr
      ensures err == answers.push
      ensures tr.events == old(tr.events) + [CallPush(force)]
    {
      tr.Record(CallPush(force));
      err := answers.push;
    }

    /** The external command `sh script`; the result is the text of its error, if any. */
    method RunHook(script: string, tr: Trace) returns (cause: Option<string>)
      modifies tr
      ensures cause == answers.script
      ensures tr.events == old(tr.events) + [RunScript(script)]
    {
      tr.Record(RunScript(script));
      cause := answers.script;
    }
  }
}
