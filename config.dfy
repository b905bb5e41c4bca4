/**
 * The reaper's configuration record, the status record it reports for each
 * reaped child, and the environment-variable name that tells the forked
 * child from its parent.
 */
module ReaperConfig {
  import opened Base
  import opened Channels

  /** The raw 32-bit wait status `wait4` stores (exit code, signal, core-dump and stop bits). */
  newtype WaitStatus = w: int | 0 <= w < 0x1_0000_0000

  /** The error `syscall.Wait4` returns: none, the two the reaper acts on, or any other errno. */
  datatype WaitErr = NoError | EINTR | ECHILD | OtherErrno(errno: int)

  /** One reaped child as delivered on the status channel. */
  datatype Status = Status(pid: int, err: WaitErr, waitStatus: WaitStatus)

  /** The tunables of one reaping session; `statusChannel` is `None` for Go's nil channel. */
  datatype Config = Config(
    pid: int,
    options: int,
    disablePid1Check: bool,
    enableChildSubreaper: bool,
    statusChannel: Option<Chan<Status>>,
    cloneEnvIndicator: Bytes,
    disableCallerCheck: bool,
    debug: bool)

  /** "GRIM_REAPER", the default name of the parent/child marker variable. */
  const DefaultEnvIndicator: Bytes := [0x47, 0x52, 0x49, 0x4D, 0x5F, 0x52, 0x45, 0x41, 0x50, 0x45, 0x52]

  /** The default configuration: reap any child (pid -1), no wait options, all checks on, debug output on. */
  function MakeConfig(): (c: Config)
    ensures c.pid == -1 && c.options == 0
    ensures !c.disablePid1Check && !c.enableChildSubreaper && !c.disableCallerCheck
    ensures c.cloneEnvIndicator == DefaultEnvIndicator && c.debug
    ensures c.statusChannel == None
  {
    Config(-1, 0, false, false, None, DefaultEnvIndicator, false, true)
  }

  /** A byte in `[A-Za-z0-9_]`, the only bytes the marker name may keep. */
  predicate Allowed(b: byte)
  {
    (0x41 <= b <= 0x5A) || (0x61 <= b <= 0x7A) || (0x30 <= b <= 0x39) || b == 0x5F
  }

  predicate AllAllowed(s: Bytes)
  {
    forall i :: 0 <= i < |s| ==> Allowed(s[i])
  }

  predicate NoneAllowed(s: Bytes)
  {
    forall i :: 0 <= i < |s| ==> !Allowed(s[i])
  }

  /**
   * Replacing every run of bytes outside `[A-Za-z0-9_]` by nothing. Bytes of
   * multi-byte UTF-8 sequences are all at least 0x80, so filtering bytes
   * removes exactly what filtering runes would.
   */
  function KeepAllowed(s: Bytes): (r: Bytes)
    ensures AllAllowed(r)
    ensures |r| <= |s|
  {
    if s == [] then []
    else (if Allowed(s[0]) then [s[0]] else []) + KeepAllowed(s[1..])
  }

  /** Filtering removes exactly the disallowed bytes: each allowed byte keeps its count, the others vanish. */
  lemma {:induction false} KeepAllowedContents(s: Bytes)
    ensures forall b :: multiset(KeepAllowed(s))[b] == if Allowed(b) then multiset(s)[b] else 0
  {
    if s != [] {
      KeepAllowedContents(s[1..]);
      assert s == [s[0]] + s[1..];
    }
  }

  /** Nothing survives the filter exactly when no byte is allowed. */
  lemma {:induction false} KeepAllowedEmpty(s: Bytes)
    ensures KeepAllowed(s) == [] <==> NoneAllowed(s)
  {
    if s != [] {
      KeepAllowedEmpty(s[1..]);
      assert NoneAllowed(s) <==> !Allowed(s[0]) && NoneAllowed(s[1..]);
    }
  }

  /** A name made only of allowed bytes passes the filter unchanged. */
  lemma {:induction false} KeepAllowedIdentity(s: Bytes)
    requires AllAllowed(s)
    ensures KeepAllowed(s) == s
  {
    if s != [] {
      KeepAllowedIdentity(s[1..]);
    }
  }

  /** The marker name: the configured name with disallowed bytes removed, or the default when that leaves nothing. */
  function EnvIndicator(config: Config): (r: Bytes)
    ensures |r| > 0 && AllAllowed(r)
    ensures NoneAllowed(config.cloneEnvIndicator) ==> r == DefaultEnvIndicator
    ensures !NoneAllowed(config.cloneEnvIndicator) ==> r == KeepAllowed(config.cloneEnvIndicator)
  {
    KeepAllowedEmpty(config.cloneEnvIndicator);
    if |config.cloneEnvIndicator| > 0 then
      var indicator := KeepAllowed(config.cloneEnvIndicator);
      if |indicator| > 0 then indicator else DefaultEnvIndicator
    else
      DefaultEnvIndicator
  }

  /** Configuring the marker name that `EnvIndicator` returned gives back that same name. */
  lemma EnvIndicatorIdempotent(config: Config)
    ensures EnvIndicator(config.(cloneEnvIndicator := EnvIndicator(config))) == EnvIndicator(config)
  {
    var r := EnvIndicator(config);
    KeepAllowedEmpty(r);
    KeepAllowedIdentity(r);
  }

  /** The default configuration uses "GRIM_REAPER" as the marker name. */
  lemma DefaultConfigIndicator()
    ensures EnvIndicator(MakeConfig()) == DefaultEnvIndicator
  {
    assert AllAllowed(DefaultEnvIndicator);
    KeepAllowedIdentity(DefaultEnvIndicator);
  }
}
