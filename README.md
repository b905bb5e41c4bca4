# go-reaper, modelled in Dafny

A model of the reaping engine of `go-reaper` (file `reaper.go`). This is a
PID-1-style child reaper that runs inside a container's entry-point binary. The model covers:

- the sanitised parent/child marker name (`envIndicator`) and the default configuration (`MakeConfig`);
- the best-effort status notifier (`notify`) and the SIGCHLD relay (`sigChildHandler`), each a non-blocking send into a bounded Go channel;
- the drain pass of `reapChildren`: call `wait4` until ECHILD, retry on EINTR, and report every other outcome;
- the decisions of `Start`, `Reap`, `RunForked`, `callerCheck` and `WithReaper`.

The operating system is an oracle. Every answer it gives is an input to the model:
- `wait4` results are sequences of `WaitOutcome` (pid, error, wait status);
- getpid, the environment, getwd, `os.Args`, ForkExec and the subreaper call are fields of `Supervisor.Host`;
- the call stack is a list of frame names;
- the user entry point is a function from an optional error to `ExitCode(c)` or `EntryPanics`.

Modules, one per concern:

- `Base` (`base.dfy`): bytes, `Option`.
- `Environ` (`environ.dfy`): environment entries and lookup by key, and the `%d` text of a pid.
- `Channels` (`channels.dfy`): `Chan<T>`, a class over a `seq` buffer with a capacity and a closed flag. `TrySend` is Go's `select`/`default` send. `Offer`/`OfferAll` are the buffer functions that specify it.
- `ReaperConfig` (`config.dfy`): `Config`, `Status`, `MakeConfig`, `EnvIndicator`.
- `Reaping` (`reaping.dfy`): `Notify`, `RelaySignals`, the drain pass and the reaping loop. These are imperative methods proved against specification functions:
  - `PassLength`: how many calls a pass makes;
  - `CallPids`: the pid argument of every call;
  - `Reported`: the statuses handed to the notifier.
- `Supervisor` (`supervisor.dfy`): `Start`, `Reap`, `RunForked`, `WithReaper` as functions to outcome values, and the two loops they contain (`WaitChild`, `CallerCheck`) as methods.
  - `WaitChild` and `CallerCheck` are the loops as the code runs them. Each is proved equal to a specification function: `SettledAt` and `CalledFromMain` respectively. `RunForked` and `WithReaper` are functions, and a function cannot call a method, so they use those two specification functions directly.

Behaviour the model keeps from the code:

- **Shadowed pid.** `pid, err := syscall.Wait4(pid, ...)` (`reaper.go:163`) declares a new `pid`. So the first call of each drain iteration passes the configured pid, but the EINTR retry (`reaper.go:165`) passes the pid that the interrupted call returned.
  - An interrupted `wait4` returns -1. So a retry waits for any child even when `Config.Pid` names one child.
  - `CallPids` records this and `CallPidsKeepFilter` states exactly when the filter survives.
- **Fork errors ignored.** The ForkExec error is discarded (`reaper.go:309`), and Go returns pid 0 on failure. The parent then waits on pid 0 and still exits 0 (`ForkFailureStillExitsZero`).
- **Parent exit code.** The parent always exits 0 after its wait returns (`reaper.go:320`). It does not pass on the child's exit status.
- **Non-EINTR, non-ECHILD errors.** These are reported like successes: neither retried nor ending the pass.
- **Empty `os.Args`.** `args[0]` panics (`reaper.go:309`). `WithReaper` recovers that panic and exits 74.

## Model

| member | source | states |
|---|---|---|
| Environ.KeyOf | reaper.go:270 | the key `os.LookupEnv` matches is the prefix before the first '='; an entry without '=' has none |
| Environ.FormatDecimal | reaper.go:295 | the `%d` text of the parent pid is a non-empty run of digits with no leading zero |
| Environ.ParseFormatDecimal | reaper.go:295 | the marker value reads back as exactly the parent pid |
| Environ.KeyOfEntry | reaper.go:295 | an entry `<key>=<value>` whose key has no '=' is found under exactly that key |
| Channels.OfferAllKeepsWhatFits | reaper.go:110-115 | a run of non-blocking sends keeps exactly the first values that fit, in order, drops the rest, and keeps nothing on a closed channel |
| Channels.OfferAllAppend | reaper.go:110-115 | sending one batch after another equals sending them as one batch |
| Channels.OfferAllWithinCapacity | reaper.go:127-136 | non-blocking sends never grow a buffer past its capacity, and at least one gets in when there is room |
| Channels.Chan.constructor | reaper.go:143 | `make(chan T, n)`: empty, open, capacity n |
| Channels.Chan.TrySend | reaper.go:110-115 | appends the value iff the channel is open and not full; otherwise the buffer is unchanged; reports Sent, Full or SendOnClosed accordingly |
| Channels.Chan.Receive | reaper.go:152 | takes the oldest pending value, or nothing when none is pending |
| Channels.Chan.Close | reaper.go:95-99 | the consumer closing the status channel keeps the buffer; a second close is reported |
| ReaperConfig.MakeConfig | reaper.go:192-204 | Pid -1, Options 0, pid-1 check, subreaper and caller-check toggles off, marker "GRIM_REAPER", Debug on, nil status channel |
| ReaperConfig.KeepAllowed | reaper.go:46-47 | the filtered name has only `[A-Za-z0-9_]` bytes and is no longer than the input |
| ReaperConfig.KeepAllowedContents | reaper.go:46-47 | the filter keeps every allowed byte as often as it occurs and removes every other byte |
| ReaperConfig.KeepAllowedEmpty | reaper.go:44-52 | nothing is left after filtering iff the name has no allowed byte |
| ReaperConfig.KeepAllowedIdentity | reaper.go:46-47 | a name made only of allowed bytes passes unchanged |
| ReaperConfig.EnvIndicator | reaper.go:43-56 | the marker name is non-empty and all `[A-Za-z0-9_]`. It is "GRIM_REAPER" when the configured name has no allowed byte, otherwise the configured name with the other bytes removed |
| ReaperConfig.EnvIndicatorIdempotent | reaper.go:43-56 | feeding the marker name back in as the configured name returns the same name |
| ReaperConfig.DefaultConfigIndicator | reaper.go:192-204 | the default configuration's marker name is "GRIM_REAPER" |
| Reaping.Notify | reaper.go:88-117 | nil channel: nothing happens. Open channel with room: exactly `Status{pid, err, ws}` is appended. Full or closed channel: the buffer is unchanged and the status is lost |
| Reaping.RelaySignals | reaper.go:121-139 | each SIGCHLD is forwarded iff the notifications channel has room; on the capacity-1 channel the buffer never holds more than one |
| Reaping.FirstNoChild | reaper.go:168-170 | locates the first ECHILD outcome, with no ECHILD before it |
| Reaping.PassLength | reaper.go:156-180 | a pass consumes the outcomes up to and including the first ECHILD; if there is no ECHILD it consumes them all |
| Reaping.CallPids | reaper.go:163-166 | one pid argument per call: the configured pid, or after EINTR the pid the interrupted call returned |
| Reaping.CallPidsSnoc | reaper.go:163-166 | one more call adds exactly its own pid argument |
| Reaping.CallPidsAppend | reaper.go:156-166 | after a completed call the next iteration starts from the configured pid again |
| Reaping.CallPidsKeepFilter | reaper.go:163-166 | every call waits on the configured pid iff every interrupted call returned that pid |
| Reaping.ReportedAppend | reaper.go:177-179 | each outcome contributes its own status once and in order: reporting distributes over concatenation |
| Reaping.ReportedMembers | reaper.go:164-179 | a status is reported iff some call returned it with an error other than EINTR and ECHILD |
| Reaping.ReportedNeverRetryOrEnd | reaper.go:164-170 | no reported status carries EINTR or ECHILD |
| Reaping.ReportedRetryChain | reaper.go:163-166 | a run of EINTR calls and one final call reports at most the final call |
| Reaping.WaitRetrying | reaper.go:163-166 | one `wait4` call and its EINTR retries: every outcome but the last is EINTR; a last EINTR means the outcomes ran out; pid arguments are `CallPids` |
| Reaping.PassStep | reaper.go:156-180 | one drain iteration extends the pass's pid arguments and its reported statuses by that iteration's |
| Reaping.PassProgress | reaper.go:164-170 | an iteration that reports keeps the pass going; ECHILD ends it right there; running out of outcomes while retrying ends it at the last outcome |
| Reaping.DrainPass | reaper.go:156-180 | consumes `PassLength` outcomes and records `CallPids` as the call arguments. With a status channel it notifies exactly `Reported` and the channel buffer grows accordingly; without one it notifies nothing |
| Reaping.ReapOnSignal | reaper.go:151-181 | a turn of the loop wakes iff a signal is pending, takes exactly one, and then runs one drain pass |
| Reaping.ReapRound | reaper.go:127-136 | a burst of signals into the empty capacity-1 channel wakes the loop exactly once, iff it is non-empty; the loop then runs one pass and leaves the channel empty |
| Reaping.ReapChildren | reaper.go:142-183 | with a fresh capacity-1 notifications channel, each round wakes the loop iff a signal arrived, however many arrived; the statuses notified are those of one pass per such round |
| Supervisor.Start | reaper.go:221-259 | subreaper mode is tried iff configured and enabled iff it also succeeds; the loop is spawned iff the pid-1 check is disabled or the pid is 1, whether or not the subreaper call failed |
| Supervisor.Reap | reaper.go:208-216 | the default start never tries subreaper mode and spawns the loop iff the pid is 1 |
| Supervisor.SettledAt | reaper.go:315-318 | counts the leading EINTR results of the parent's wait |
| Supervisor.RunForked | reaper.go:265-322 | returns iff the marker is in the environment. Otherwise: it panics on empty `os.Args`, after starting the reaper as `Start` decides; otherwise it starts the reaper the same way; it waits on the pid ForkExec returned; it exits 0 iff some wait result is not EINTR, and otherwise keeps waiting |
| Supervisor.ChildEnvironment | reaper.go:289-307 | the child gets the parent's environment plus exactly one entry `<marker>=<parent pid>`. Its directory is the cwd, or "/tmp" when getwd fails. It runs `os.Args[0]` with `os.Args` in a new session |
| Supervisor.ChildFindsMarker | reaper.go:268-275 | a process started with the environment the parent built takes the child role |
| Supervisor.ForkFailureStillExitsZero | reaper.go:309-320 | after a failed ForkExec the parent waits on pid 0 and still exits 0 |
| Supervisor.WaitChild | reaper.go:315-318 | every call waits on the same child pid; EINTR is retried; the wait settles at the first non-EINTR result, or never |
| Supervisor.CallerCheck | reaper.go:60-85 | succeeds iff "main.main" is among the first 10 captured frames; otherwise reports "not main.main clacker" |
| Supervisor.ExitWith | reaper.go:339-367 | `os.Exit(ep(...))` inside the recovery boundary exits with the entry point's code, or 74 if it panics |
| Supervisor.WithReaper | reaper.go:327-369 | never returns. It panics iff the entry point is nil. A failed caller check exits with `ep(err)`. In the child it exits with `ep(nil)`. A recovered panic exits 74. In the parent it ends as `RunForked` does |
| Supervisor.WithReaperRoundTrip | reaper.go:327-369 | a parent that passes its checks exits 0 once its wait returns, and the child it launched exits with `ep(nil)` |

## Left out

- Concurrency: the goroutines at `reaper.go:145`, `178`, `257` and `282`.
  - Each `notify` is a synchronous step of the pass.
  - `ReapChildren` runs one fixed schedule: each round's signals reach the relay before the loop receives.
  - No order between statuses of concurrently dispatched notifications is claimed.
- The non-terminating loops of `reapChildren` and `sigChildHandler`. These run over finite oracle sequences: one drain pass per received signal. When the oracle runs out, the process is reported as still waiting (`Blocked`, or a last EINTR outcome).
- `signal.Notify` and its capacity-3 `sigs` channel (`reaper.go:122-123`): signal delivery by the runtime is outside the model. The relay is handed the signals that reach it.
- Real OS semantics: zombies, the process table, reparenting, blocking in `wait4`, process groups for pid 0 or below -1, `ForkExec` itself, `os.Exit`. These are oracle inputs and outcome values. Wait options (`Config.Options`) reach the kernel unchanged and act only through the oracle.
- `EnableChildSubReaper` (`starnix.go`, and `darwin.go`, which always fails): an oracle flag saying whether it fails.
- `runtime.Callers` / `CallersFrames`: the stack is given as a list of frame names, one per captured program counter. Expansion of inlined frames is not modelled.
- Exit codes are the value passed to `os.Exit`; the kernel's truncation to 8 bits is not modelled.
- `Chan.TrySend`: a send to an unbuffered channel with a receiver already waiting (a rendezvous) is not modelled; a send succeeds iff the buffer has room.
- The forked child's inherited file descriptors (`Files` in `reaper.go:302-306`) and the wait status the parent collects are not modelled.
- All `fmt.Printf` debug output and the `Debug` flag's effect on it; `recover()` is represented by the outcome values `LostClosed` and `Exit(74)`.
- The test programs under `test/` are not part of this model.
