/**
 * The decisions of the exported entry points: `Start` (subreaper and pid-1
 * guard), `RunForked` (parent or child role, the child's launch, the wait
 * for it) and `WithReaper` (caller check and panic containment around a
 * user entry point). The operating system is an oracle record, `Host`; a
 * process's fate is an `Outcome`.
 */
module Supervisor {
  import opened Base
  import opened Environ
  import opened ReaperConfig
  import opened Reaping

  /** What `syscall.ForkExec` produced; its error is discarded by the caller. */
  datatype ForkResult = ForkOk(childPid: nat) | ForkErr

  /** The pid `syscall.ForkExec` returns: the child's, or 0 when it fails. */
  function ForkedPid(f: ForkResult): nat
  {
    match f
    case ForkOk(p) => p
    case ForkErr => 0
  }

  /** The answers the operating system gives the process. */
  datatype Host = Host(
    pid: nat,                      // os.Getpid()
    env: seq<Bytes>,               // os.Environ(), which os.LookupEnv consults
    cwd: Option<Bytes>,            // os.Getwd(), None when it fails
    args: seq<Bytes>,              // os.Args
    subreaperFails: bool,          // whether EnableChildSubReaper returns an error
    fork: ForkResult,              // syscall.ForkExec
    childWaits: seq<WaitOutcome>)  // successive results of Wait4 on the forked pid

  /** How a process ends, as far as the reaper decides it. */
  datatype Outcome =
    | Returned        // control goes back to the caller
    | Exit(code: int) // os.Exit(code)
    | Panic           // an unrecovered panic
    | Blocked         // still waiting in wait4 when the oracle runs out

  /** What `Start` did: whether it asked for subreaper mode, whether that worked, whether it spawned the reaping loop. */
  datatype StartOutcome = StartOutcome(subreaperTried: bool, subreaperEnabled: bool, reaperSpawned: bool)

  /**
   * `Start`: ask for subreaper mode when configured (a failure is only
   * logged), then spawn the reaping loop unless the pid-1 guard is on and
   * this process is not pid 1.
   */
  function Start(config: Config, host: Host): (r: StartOutcome)
    ensures r.subreaperTried == config.enableChildSubreaper
    ensures r.subreaperEnabled <==> config.enableChildSubreaper && !host.subreaperFails
    ensures r.reaperSpawned <==> config.disablePid1Check || host.pid == 1
  {
    var tried := config.enableChildSubreaper;
    var enabled := tried && !host.subreaperFails;
    if !config.disablePid1Check && host.pid != 1 then
      StartOutcome(tried, enabled, false)
    else
      StartOutcome(tried, enabled, true)
  }

  /** `Reap`: the default configuration reaps only as pid 1 and never asks for subreaper mode. */
  function Reap(host: Host): (r: StartOutcome)
    ensures !r.subreaperTried && !r.subreaperEnabled
    ensures r.reaperSpawned <==> host.pid == 1
  {
    Start(MakeConfig(), host)
  }

  /** "/tmp", the child's directory when the working directory cannot be read. */
  const TmpDir: Bytes := [0x2F, 0x74, 0x6D, 0x70]

  /** The environment entry `<indicator>=<pid>` that marks the forked child. */
  function MarkerEntry(indicator: Bytes, pid: nat): Bytes
  {
    indicator + [Eq] + FormatDecimal(pid)
  }

  /** The `syscall.ForkExec` request: program, arguments, directory, environment and a new session. */
  datatype ChildLaunch = ChildLaunch(path: Bytes, argv: seq<Bytes>, dir: Bytes, env: seq<Bytes>, setsid: bool)

  /** What `RunForked` does in the process that calls it. */
  datatype Forked =
    | ResumeInChild
    | ParentPanicked(reaper: StartOutcome)
    | ParentDone(reaper: StartOutcome, launch: ChildLaunch, waitedPid: int, waitCalls: nat, exit: Outcome)
  {
    function Outcome(): Outcome
    {
      match this
      case ResumeInChild => Returned
      case ParentPanicked(_) => Panic
      case ParentDone(_, _, _, _, exit) => exit
    }
  }

  /** The number of `wait4` calls up to the first that did not report EINTR, or all of them if every one did. */
  function SettledAt(waits: seq<WaitOutcome>): (k: nat)
    ensures k <= |waits|
    ensures forall i :: 0 <= i < k ==> waits[i].err == EINTR
    ensures k < |waits| ==> waits[k].err != EINTR
  {
    if waits == [] then 0
    else if waits[0].err != EINTR then 0
    else 1 + SettledAt(waits[1..])
  }

  /**
   * `RunForked`: in the child (marker present) return; in the parent start
   * the reaper, launch the same program with the marker added to the
   * environment, wait for the pid `ForkExec` returned, and exit 0.
   */
  function RunForked(config: Config, host: Host): (r: Forked)
    ensures r.ResumeInChild? <==> LookupEnv(host.env, EnvIndicator(config))
    ensures r.ParentPanicked? <==> !LookupEnv(host.env, EnvIndicator(config)) && host.args == []
    ensures r.ParentPanicked? ==> r.reaper == Start(config, host)
    ensures r.ParentDone? ==> r.reaper == Start(config, host) && r.waitedPid == ForkedPid(host.fork)
    ensures r.ParentDone? ==> (r.exit == Exit(0) <==> exists i :: 0 <= i < |host.childWaits| && host.childWaits[i].err != EINTR)
    ensures r.ParentDone? ==> r.exit == Exit(0) || r.exit == Blocked
  {
    var indicator := EnvIndicator(config);
    if LookupEnv(host.env, indicator) then ResumeInChild
    else
      var reaper := Start(config, host);
      if host.args == [] then ParentPanicked(reaper)
      else
        var dir := if host.cwd.Some? then host.cwd.value else TmpDir;
        var launch := ChildLaunch(host.args[0], host.args, dir, host.env + [MarkerEntry(indicator, host.pid)], true);
        var k := SettledAt(host.childWaits);
        if k < |host.childWaits| then ParentDone(reaper, launch, ForkedPid(host.fork), k + 1, Exit(0))
        else ParentDone(reaper, launch, ForkedPid(host.fork), |host.childWaits|, Blocked)
  }

  /** The parent hands the child its own environment plus one entry, `<indicator>=<parent pid>`, and its directory or "/tmp". */
  lemma ChildEnvironment(config: Config, host: Host)
    requires RunForked(config, host).ParentDone?
    ensures var launch := RunForked(config, host).launch;
            var marker := launch.env[|host.env|];
            |launch.env| == |host.env| + 1 && launch.env[..|host.env|] == host.env &&
            KeyOf(marker) == Some(EnvIndicator(config)) &&
            AllDigits(marker[|EnvIndicator(config)| + 1..]) &&
            ParseDecimal(marker[|EnvIndicator(config)| + 1..]) == host.pid &&
            launch.dir == (if host.cwd.Some? then host.cwd.value else TmpDir) &&
            launch.path == host.args[0] && launch.argv == host.args && launch.setsid
  {
    var indicator := EnvIndicator(config);
    var marker := MarkerEntry(indicator, host.pid);
    assert forall i :: 0 <= i < |indicator| ==> indicator[i] != Eq;
    KeyOfEntry(indicator, FormatDecimal(host.pid));
    assert marker[|indicator| + 1..] == FormatDecimal(host.pid);
    ParseFormatDecimal(host.pid);
  }

  /** A process started with the environment the parent built takes the child role: the marker round-trips. */
  lemma ChildFindsMarker(config: Config, parent: Host, child: Host)
    requires RunForked(config, parent).ParentDone?
    requires child.env == RunForked(config, parent).launch.env
    ensures RunForked(config, child) == ResumeInChild
  {
    ChildEnvironment(config, parent);
    var i := |parent.env|;
    assert 0 <= i < |child.env| && KeyOf(child.env[i]) == Some(EnvIndicator(config));
  }

  /** The parent ignores a failed `ForkExec`: it waits on pid 0 and still exits 0 once that wait returns. */
  lemma ForkFailureStillExitsZero(config: Config, host: Host)
    requires !LookupEnv(host.env, EnvIndicator(config)) && host.args != []
    requires host.fork == ForkErr
    requires host.childWaits != [] && host.childWaits[0].err != EINTR
    ensures RunForked(config, host).waitedPid == 0
    ensures RunForked(config, host).exit == Exit(0)
  {
  }

  /**
   * `Wait4(pid, ...)` on the forked child, retried for as long as it reports
   * EINTR; every call passes the same pid. `settled` is false when the
   * oracle runs out while the parent is still waiting.
   */
  method WaitChild(pid: int, waits: seq<WaitOutcome>) returns (pids: seq<int>, settled: bool)
    ensures settled <==> exists i :: 0 <= i < |waits| && waits[i].err != EINTR
    ensures settled ==> 0 < |pids| <= |waits| && waits[|pids| - 1].err != EINTR
    ensures !settled ==> |pids| == |waits|
    ensures forall i :: 0 <= i < |pids| - 1 ==> waits[i].err == EINTR
    ensures forall i :: 0 <= i < |pids| ==> pids[i] == pid
    ensures |pids| == if settled then SettledAt(waits) + 1 else |waits|
  {
    pids := [];
    settled := false;
    var n := 0;
    while n < |waits|
      invariant 0 <= n <= |waits| && |pids| == n
      invariant forall i :: 0 <= i < n ==> waits[i].err == EINTR
      invariant forall i :: 0 <= i < n ==> pids[i] == pid
      decreases |waits| - n
    {
      pids := pids + [pid];
      n := n + 1;
      if waits[n - 1].err != EINTR {
        settled := true;
        return;
      }
    }
  }

  /** The captured frames `callerCheck` inspects: at most this many program counters. */
  const MaxCallerFrames := 10

  /** The frame name Go gives the program's `main` function, "main.main". */
  const MainMain: Bytes := [0x6D, 0x61, 0x69, 0x6E, 0x2E, 0x6D, 0x61, 0x69, 0x6E]

  /** Whether "main.main" is among the first `MaxCallerFrames` frames of the call stack (innermost first). */
  predicate CalledFromMain(stack: seq<Bytes>)
  {
    exists i :: 0 <= i < |stack| && i < MaxCallerFrames && stack[i] == MainMain
  }

  /** The one error `callerCheck` reports. */
  datatype CallerError = NotMainClacker

  /** `callerCheck`: walk the captured frames and succeed at the first "main.main". */
  method CallerCheck(stack: seq<Bytes>) returns (err: Option<CallerError>)
    ensures err == None <==> CalledFromMain(stack)
    ensures err != None ==> err == Some(NotMainClacker)
  {
    var n := Min(|stack|, MaxCallerFrames);
    if n > 0 {
      var i := 0;
      while i < n
        invariant 0 <= i <= n
        invariant forall j :: 0 <= j < i ==> stack[j] != MainMain
      {
        if stack[i] == MainMain {
          return None;
        }
        i := i + 1;
      }
    }
    return Some(NotMainClacker);
  }

  /** What a user entry point does with the error it is given: return an exit code, or panic. */
  datatype EntryResult = ExitCode(code: int) | EntryPanics

  /** The user callback `EntryPoint func(err error) int`. */
  type EntryPoint = Option<CallerError> -> EntryResult

  /** EX_IOERR, the exit code for a panic recovered inside `WithReaper`. */
  const ExIoErr := 74

  /** `os.Exit(ep(...))` inside the recovery boundary: a panic in the entry point exits 74. */
  function ExitWith(res: EntryResult): (r: Outcome)
    ensures r.Exit?
    ensures r.code == if res.ExitCode? then res.code else ExIoErr
  {
    match res
    case ExitCode(c) => Exit(c)
    case EntryPanics => Exit(ExIoErr)
  }

  /**
   * `WithReaper`: refuse a nil entry point; behind a recovery boundary, hand
   * a failed caller check to the entry point and exit with its answer;
   * otherwise run forked and, in the child, exit with `ep(nil)`.
   */
  function WithReaper(config: Config, ep: Option<EntryPoint>, stack: seq<Bytes>, host: Host): (r: Outcome)
    ensures r != Returned
    ensures r == Panic <==> ep == None
    ensures ep.Some? && !config.disableCallerCheck && !CalledFromMain(stack) ==>
              r == ExitWith(ep.value(Some(NotMainClacker)))
    ensures ep.Some? && (config.disableCallerCheck || CalledFromMain(stack)) ==>
              match RunForked(config, host)
              case ResumeInChild => r == ExitWith(ep.value(None))
              case ParentPanicked(_) => r == Exit(ExIoErr)
              case ParentDone(_, _, _, _, exit) => r == exit
  {
    if ep.None? then Panic
    else if !config.disableCallerCheck && !CalledFromMain(stack) then
      ExitWith(ep.value(Some(NotMainClacker)))
    else
      match RunForked(config, host)
      case ResumeInChild => ExitWith(ep.value(None))
      case ParentPanicked(_) => Exit(ExIoErr)
      case ParentDone(_, _, _, _, exit) => exit
  }

  /**
   * The whole forked run: a parent that passes its checks exits 0 once its
   * child's wait returns, and the child it launched, started with the
   * environment the parent built, exits with the entry point's answer to nil.
   */
  lemma WithReaperRoundTrip(config: Config, ep: EntryPoint, parentStack: seq<Bytes>, parent: Host,
                            childStack: seq<Bytes>, child: Host)
    requires config.disableCallerCheck || (CalledFromMain(parentStack) && CalledFromMain(childStack))
    requires !LookupEnv(parent.env, EnvIndicator(config)) && parent.args != []
    requires exists i :: 0 <= i < |parent.childWaits| && parent.childWaits[i].err != EINTR
    requires child.env == RunForked(config, parent).launch.env
    ensures WithReaper(config, Some(ep), parentStack, parent) == Exit(0)
    ensures WithReaper(config, Some(ep), childStack, child) == ExitWith(ep(None))
  {
    ChildFindsMarker(config, parent, child);
  }
}
