# go-deployer: the reconciliation tick, modelled in Dafny

go-deployer is a small daemon that keeps local git checkouts in step with
their remotes. Each repository descriptor names a job, and the daemon polls
that job at a fixed interval:

- A **pull** job (`updateIfChanged`) opens the checkout. Unless forced, it
  gives up on a dirty working tree. It then lists the remote and pulls only
  when the first remote reference named like the local head points to
  another commit. On success it sends a desktop notification, unless
  forced, and runs an optional hook script.
- A **push** job (`pushIfChanged`) acts only on a dirty tree. It stages
  everything, commits with the message
  `go-deployer auto-commit: D/M/Y H:M`, pushes, notifies unless forced and
  runs the hook.
- `execJob` dispatches on the job kind and notifies the errors the tick
  returns.
- `startPolling` replaces an interval of 0 by the default and loops forever.
- On a termination signal, `main` runs one last `execJob` per repository.

The repository has two versions of this program:

- `go-deployer.go` is the current one: string jobs, hard reset under force,
  hook scripts, "already up-to-date" not reported, default interval 600.
- `main.go` is the earlier one: `JobType` enum, no reset, no hook, every
  error reported, default interval 10.

Both are modelled, in the modules `Deployer` and `Early`. The modules and
files are:

- `Git` (git.dfy) is the checkout as the daemon sees it through go-git.
  - Class `Checkout` holds the mutable part (dirty flag, head, remote
    reference lists) and fixed scripted answers, one per library call.
  - Class `Trace` records every library call, external command,
    notification and sleep, in order.
- `Common` (common.dfy) holds what both versions share:
  - `hasUnstagedChages`, line for line;
  - the shapes of the early checks;
  - the drift rule `Drifted`. The two files write it differently:
    `behind` is `!=` with `found && behind` in go-deployer.go, and `==`
    with `found && !behind` in main.go. It means the same in both, as
    `Variants.SameDriftRule` states.
- `Stamp` (stamp.dfy) is the commit-message formatter. The module also has
  a reader that accepts only what `%d` writes. The reader and the formatter
  are proved exact inverses, which fixes the format: unpadded fields, no
  leading zeros.
- `Deployer` (deployer.dfy) and `Early` (early.dfy) model the two programs.
  Each tick is an imperative method over a `Checkout` and a `Trace`, written
  step for step like the Go function. Each method is proved equal to a pure
  specification function (`PullTick`, `PushTick`, `JobTick`, `Rounds`):
  same new checkout state, same appended trace, same returned error. The
  lemmas then state the program's promises about those functions.
- `Variants` (variants.dfy) compares the two programs on the same checkout.

Three facts about the code are worth stating:

- Only an interval of exactly 0 is replaced by the default
  (go-deployer.go:105, main.go:96). A negative interval is kept
  (`Coerced`).
- A push that fails after its commit succeeded is not retried while the
  working tree stays clean (`PushSettlesAfterCommit`). The commit has
  cleaned the tree (go-deployer.go:289), so the next tick returns at the
  clean-tree check (go-deployer.go:260-264). The push is postponed, not
  given up: the first tick that finds the tree dirty again commits and
  calls Push once more, which carries the earlier commit too
  (`PushResumesWhenDirty`). In the model's polling loop nothing outside the
  daemon dirties the tree (see "## Left out"), so there the push is never
  tried again.
- go-deployer.go:18 sets the default interval to 600 seconds, while its
  comment says "default 10 sec polling". The model uses 600, the value the
  code uses.

## Model

| member | source | states |
|---|---|---|
| Git.FirstMatch | go-deployer.go:198-204 | the index found is that of the first reference with the head's name; no earlier reference has that name; none is found only when no reference has it |
| Git.Upstream | go-deployer.go:198-201 | a remote hash for the head exists exactly when the remote is configured and lists a reference of the head's name, and it is the hash of the first such reference |
| Git.Checkout.Status | go-deployer.go:138-143 | Status answers its scripted error, and "not clean" only when it succeeded on a dirty tree |
| Git.Checkout.Remote | go-deployer.go:178-182 | Remote fails with "remote not found" exactly when no remote of that name is configured |
| Git.Checkout.Pull | go-deployer.go:223 | a successful pull moves the head to the hash the remote lists for it (assumed adapter contract); a failed one changes nothing |
| Git.Checkout.Reset | go-deployer.go:215 | a successful hard reset leaves a clean tree (assumed adapter contract) |
| Git.Checkout.Commit | go-deployer.go:289 | a successful commit leaves a clean tree (assumed adapter contract) |
| Common.Unstaged | go-deployer.go:131-144 | the result is (true, nil) exactly on a dirty tree when Worktree and Status succeed; otherwise the first error, or (false, nil) on a clean tree |
| Common.HasUnstagedChanges | go-deployer.go:131-144 | the method returns `Unstaged` and calls Worktree, then Status unless Worktree failed |
| Stamp.Natural | go-deployer.go:289 | `%d` of a number writes its decimal digits, with a leading zero only for 0 itself |
| Stamp.CommitMessage | go-deployer.go:284-289 | the message starts with "go-deployer auto-commit: " |
| Stamp.CommitMessageRoundTrip | go-deployer.go:289 | parsing the message gives back day, month, year, hour and minute, for negative fields too |
| Stamp.CommitMessageInjective | go-deployer.go:289 | different times give different messages, despite unpadded fields |
| Stamp.CommitMessageExact | go-deployer.go:289 | a string reads as time t exactly when it is the message for t: the prefix, then day/month/year hour:minute as unpadded decimals, and nothing else |
| Deployer.SearchRefs | go-deployer.go:195-204 | `found` holds exactly when some reference has the head's name; `behind` exactly when the first such reference has another hash |
| Deployer.UpdateIfChanged | go-deployer.go:146-245 | the pull tick's new checkout state, appended trace and returned error are those of `PullTick` |
| Deployer.PullIfBehind | go-deployer.go:206-243 | the acting block (Worktree, reset under force, Pull, message, script) matches `PullBehind` |
| Deployer.PushIfChanged | go-deployer.go:247-320 | the push tick's new state, trace and error are those of `PushTick` at time `now` |
| Deployer.ExecJob | go-deployer.go:115-129 | the job's new state and trace are those of `JobTick`: the dispatched tick plus the error notification |
| Deployer.Coerced | go-deployer.go:103-107 | an interval of 0 becomes 600; every other interval, negative ones included, is kept |
| Deployer.StartPolling | go-deployer.go:103-113 | after as many rounds as clock readings, state and trace are those of `Rounds`: execJob then a sleep of the coerced interval, each round, with nothing outside the daemon changing the checkout, the remote or the answers between rounds |
| Deployer.FinalPass | go-deployer.go:96-98 | each checkout ends as its own execJob leaves it; the trace is the jobs' traces in list order |
| Deployer.PullDirtyGuard | go-deployer.go:160-170 | without force, a status error is returned and a dirty tree returns nil, before Head, Remote or List is called |
| Deployer.ForcedPullSkipsStatus | go-deployer.go:160 | with force, Status is never called |
| Deployer.PullOnlyWhenDrifted | go-deployer.go:195-206 | Pull is called exactly when every check passed and the first same-named remote reference has another hash; otherwise the tick returns nil after List |
| Deployer.PullActs | go-deployer.go:206-227 | acting is Worktree, a hard reset to the head under force, then Pull; a Pull error, already-up-to-date included, ends the tick and is returned |
| Deployer.ResetErrorDiscarded | go-deployer.go:214-216 | the reset's answer changes neither the calls made nor the error returned |
| Deployer.PullSuccessMessage | go-deployer.go:229-231 | "<name>: successfully pulled" is sent exactly when Pull returned nil without force |
| Deployer.PullScript | go-deployer.go:233-240 | the script runs exactly after a successful pull with a script configured; its failure is returned as "executing script returned an error, …" and keeps the pull |
| Deployer.PullSettles | go-deployer.go:195-227 | under the adapter contract, the tick after a successful pull finds nothing to pull |
| Deployer.PushCleanGuard | go-deployer.go:260-264 | a clean tree or a status error returns before anything is staged |
| Deployer.PushStopsAtFirstFailure | go-deployer.go:266-304 | stage, commit, push run in that order, and the first failure is the last call made and the error returned |
| Deployer.PushSuccessMessage | go-deployer.go:306-308 | "<name>: successfully pushed" is sent exactly when all three writes returned nil without force |
| Deployer.PushScript | go-deployer.go:310-317 | the script runs exactly after a successful push with a script configured; its failure is returned and keeps the commit |
| Deployer.PushSettlesAfterCommit | go-deployer.go:289-304 | under the adapter contract, once the commit succeeded the next push tick stops at the clean-tree check, even if the push failed |
| Deployer.PushResumesWhenDirty | go-deployer.go:260-300 | after a tick whose push failed following a successful commit, a tick that finds the tree dirty again stages, commits and calls Push again |
| Deployer.UnknownJobDoesNothing | go-deployer.go:118-125 | a job other than "pull" and "push" makes no call and returns nil |
| Deployer.JobReportsErrors | go-deployer.go:126-128 | every error but already-up-to-date adds exactly one last notification "<name>: <error>" |
| Deployer.UpToDatePullIsSilent | go-deployer.go:126 | a pull answered already-up-to-date sends no notification at all |
| Deployer.JobSettles | go-deployer.go:115-129 | under the adapter contract, the execJob after any execJob leaves the checkout as it found it, with nothing outside the daemon changing the checkout, the remote or the answers between rounds |
| Deployer.RoundsSettle | go-deployer.go:109-112 | under the adapter contract, the polling loop's checkout after any number of rounds is the one its first round left, with nothing outside the daemon changing the checkout, the remote or the answers between rounds |
| Early.SearchRefs | main.go:182-191 | `behind` holds exactly when the first same-named reference has the head's hash |
| Early.UpdateIfChanged | main.go:139-220 | the pull tick of this version matches its `PullTick` |
| Early.PullIfBehind | main.go:193-217 | the acting block (Worktree, Pull, message) matches `PullBehind` |
| Early.PushIfChanged | main.go:222-276 | the push tick of this version, staging with AddWithOptions, matches its `PushTick` |
| Early.ExecJob | main.go:106-120 | the job matches `JobTick`: the tick selected by `JobType`, then a notification of any error |
| Early.Coerced | main.go:96-98 | an interval of 0 becomes 10; every other interval is kept |
| Early.StartPolling | main.go:94-104 | after as many rounds as clock readings, state and trace are those of `Rounds`, with nothing outside the daemon changing the checkout, the remote or the answers between rounds |
| Early.PullDirtyGuard | main.go:147-157 | without force, a status error or a dirty tree ends the tick before Head or Remote |
| Early.PullOnlyWhenDrifted | main.go:182-193 | `found && !behind` pulls exactly when the first same-named reference has another hash |
| Early.PullNeverResets | main.go:193-216 | no hard reset and no script call ever appear in this version's pull tick, forced or not |
| Early.PullForceOnlyQuiets | main.go:201-216 | once the pull is due, a Pull error is returned as it is; the success message is sent exactly when Pull succeeded without force |
| Early.PullSettles | main.go:182-210 | under the adapter contract, the tick after a successful pull finds nothing to pull |
| Early.PushCleanGuard | main.go:230-234 | a clean tree or a status error returns before anything is staged |
| Early.PushStopsAtFirstFailure | main.go:236-275 | AddWithOptions, commit, push run in order; the first failure ends the tick; success notifies unless forced |
| Early.PushSettlesAfterCommit | main.go:254-269 | under the adapter contract, once the commit succeeded the next push tick stops at the clean-tree check |
| Early.UnknownJobDoesNothing | main.go:109-116 | a `JobType` other than keepUpdated and keepPushing makes no call and returns nil |
| Early.JobReportsEveryError | main.go:117-119 | every error, already-up-to-date included, adds exactly one last notification "<name>: <error>" |
| Early.UpToDatePullIsReported | main.go:117-119 | a pull answered already-up-to-date ends with the notification "<name>: already up-to-date" |
| Early.JobSettles | main.go:106-120 | under the adapter contract, the execJob after any execJob leaves the checkout as it found it, with nothing outside the daemon changing the checkout, the remote or the answers between rounds |
| Early.RoundsSettle | main.go:100-103 | under the adapter contract, the polling loop's checkout after any number of rounds is the one its first round left, with nothing outside the daemon changing the checkout, the remote or the answers between rounds |
| Variants.AsEarly | main.go:20-35 | "pull" maps to keepUpdated and "push" to keepPushing, any other job to neither; name, url, remote, path, polling and force are carried over; the script has no counterpart |
| Variants.SameDriftRule | main.go:188 | both versions call Pull under exactly the same conditions |
| Variants.UnforcedPullsAgree | go-deployer.go:146-245 | without force and without a script, the two pull ticks are identical |
| Variants.ForcedPullsPart | go-deployer.go:214-216 | under force the versions agree until a pull is due; then only go-deployer.go resets |
| Variants.PushesAgree | go-deployer.go:272-278 | without a script, the push ticks agree on state, error and length and differ only in how they stage |
| Variants.UpToDateReportedOnlyByEarly | main.go:117-119 | already-up-to-date is notified by main.go and not by go-deployer.go |
| Variants.DefaultsDiffer | go-deployer.go:18 | an interval of 0 becomes 600 in go-deployer.go and 10 in main.go |

## Left out

- go-git itself is not modelled. Each call (PlainOpen, Worktree, Status, Head, List, Reset, Pull, AddWithOptions, Commit, Push) answers a fixed scripted error-or-nil per checkout.
- `Repository.Remote` has no scripted answer. It fails with "remote not found" exactly when the name is not a configured remote. Any other error it can return, such as a configuration that cannot be read, is not modelled.
- A second Worktree call on the same checkout answers like the first. So two branches are never taken:
  - the push tick's failed second Worktree call (go-deployer.go:266-270, main.go:236-240);
  - the unforced pull tick's failed Worktree call before pulling (go-deployer.go:208-212, main.go:195-199), the first case of `Deployer.PullBehind` and `Early.PullBehind`.
- The effects of a successful reset, pull and commit are an assumed adapter contract, not something the daemon's code shows.
  - A commit only cleans the tree. It leaves `head.hash` as it was, while a real commit moves HEAD to the new commit. No property reads the head after a push.
  - A push has no modelled effect on the remote's references.
- Authentication options (SSH keys, `ListOptions.Auth`, `PullOptions.Auth`, `PushOptions.Auth`) and `Progress: os.Stdout` are left out. They do not change the control flow.
- External processes (`notify-send`, `sh script`, `git add .`) and stdout printing are trace entries only. A failing script is modelled by its error text.
- Loading `config.toml` and `repos.json`, the SSH key checks and the command-line arguments are I/O over libraries that are not part of this model.
- `time.Now` is a parameter: a `Stamp` of day, month, year, hour and minute. Time zones and the calendar are not modelled.
- Goroutines, signal handling and `time.Sleep` are left out; a sleep is a trace entry.
- Deployer.StartPolling, Early.StartPolling, Deployer.RoundsSettle, Early.RoundsSettle: every round sees the same answers, the same working tree and the same remote reference lists. Nothing outside the daemon changes the checkout or the remote between rounds. So the model cannot state that a remote that moved is picked up in a later round, or that a transient error clears. The settling results hold only in this fixed world.
- Deployer.StartPolling, Early.StartPolling: the Go loop never ends. The model runs one round per reading in `clock`, so it states any finite prefix of the loop and not the infinite run.
- Deployer.FinalPass: requires distinct checkouts, one per descriptor. Two descriptors sharing a path are not modelled.
- main.go's final pass starts one goroutine per repository and does not wait for them (main.go:89-91). It is concurrency and not part of this model.
