/**
 * The reaping engine: the status notifier, the SIGCHLD relay and one drain
 * pass of the reaping loop. Each `wait4` call is an oracle: the pass is
 * handed the sequence of outcomes the kernel would report, call by call.
 */
module Reaping {
  import opened Base
  import opened Channels
  import opened ReaperConfig

  /** The only signal the relay subscribes to. */
  datatype Signal = SIGCHLD

  /** What one `syscall.Wait4` call returned: a pid, an error and the status word it stored. */
  datatype WaitOutcome = WaitOutcome(pid: int, err: WaitErr, waitStatus: WaitStatus)

  /** What became of one status handed to the notifier. */
  datatype Delivery =
    | NoChannel   // nil status channel: nothing to do
    | Delivered   // queued on the status channel
    | LostFull    // channel full (or no reader): dropped
    | LostClosed  // the consumer closed the channel: the panic was recovered, the status lost

  /**
   * `notify`: a best-effort, non-blocking delivery of one status. It never
   * blocks and never fails, whatever state the channel is in.
   */
  method Notify(ch: Option<Chan<Status>>, pid: int, err: WaitErr, ws: WaitStatus) returns (d: Delivery)
    requires ch.Some? ==> ch.value.Valid()
    modifies if ch.Some? then {ch.value} else {}
    ensures ch.None? ==> d == NoChannel
    ensures ch.Some? ==> ch.value.Valid() && ch.value.closed == old(ch.value.closed)
    ensures ch.Some? ==> ch.value.buffer == Offer(old(ch.value.buffer), ch.value.capacity, ch.value.closed, Status(pid, err, ws))
    ensures ch.Some? ==> d == if ch.value.closed then LostClosed
                              else if |old(ch.value.buffer)| < ch.value.capacity then Delivered
                              else LostFull
  {
    if ch.None? {
      return NoChannel;
    }
    var status := Status(pid, err, ws);
    var r := ch.value.TrySend(status);
    d := match r
      case Sent => Delivered
      case Full => LostFull
      case SendOnClosed => LostClosed;
  }

  /**
   * `sigChildHandler`, over a finite run of SIGCHLD arrivals during which the
   * reaping loop takes nothing off the channel: each arrival is forwarded if
   * the channel has room and dropped otherwise.
   */
  method RelaySignals(notifications: Chan<Signal>, arrivals: seq<Signal>) returns (forwarded: nat)
    requires notifications.Valid() && !notifications.closed
    modifies notifications
    ensures notifications.Valid() && !notifications.closed
    ensures notifications.buffer == OfferAll(old(notifications.buffer), notifications.capacity, false, arrivals)
    ensures |notifications.buffer| == |old(notifications.buffer)| + forwarded
    ensures notifications.capacity == 1 ==> |notifications.buffer| <= 1
  {
    forwarded := 0;
    var k := 0;
    while k < |arrivals|
      invariant 0 <= k <= |arrivals|
      invariant notifications.Valid() && !notifications.closed
      invariant notifications.buffer == OfferAll(old(notifications.buffer), notifications.capacity, false, arrivals[..k])
      invariant |notifications.buffer| == |old(notifications.buffer)| + forwarded
    {
      var r := notifications.TrySend(arrivals[k]);
      if r == Sent {
        forwarded := forwarded + 1;
      }
      assert arrivals[..k + 1][..k] == arrivals[..k];
      k := k + 1;
    }
    assert arrivals[..k] == arrivals;
  }

  /** The index of the first outcome reporting ECHILD, or the number of outcomes when there is none. */
  function FirstNoChild(outs: seq<WaitOutcome>): (k: nat)
    ensures k <= |outs|
    ensures forall i :: 0 <= i < k ==> outs[i].err != ECHILD
    ensures k < |outs| ==> outs[k].err == ECHILD
  {
    if outs == [] then 0
    else if outs[0].err == ECHILD then 0
    else 1 + FirstNoChild(outs[1..])
  }

  /** How many `wait4` calls one drain pass makes: every call up to and including the first ECHILD. */
  function PassLength(outs: seq<WaitOutcome>): (n: nat)
    ensures n <= |outs|
    ensures forall i :: 0 <= i < n - 1 ==> outs[i].err != ECHILD
    ensures (exists i :: 0 <= i < |outs| && outs[i].err == ECHILD) <==> 0 < n && outs[n - 1].err == ECHILD
    ensures (forall i :: 0 <= i < |outs| ==> outs[i].err != ECHILD) ==> n == |outs|
  {
    var k := FirstNoChild(outs);
    if k < |outs| then k + 1 else |outs|
  }

  /**
   * The pid argument of each `wait4` call of a pass, given the outcomes of
   * those calls: the configured pid, except right after EINTR, when the
   * retry passes the pid the interrupted call returned.
   */
  function CallPids(cfgPid: int, calls: seq<WaitOutcome>): (r: seq<int>)
    ensures |r| == |calls|
  {
    seq(|calls|, i requires 0 <= i < |calls| =>
      if i > 0 && calls[i - 1].err == EINTR then calls[i - 1].pid else cfgPid)
  }

  /** Extending the calls of a pass by one adds the argument of that one call. */
  lemma CallPidsSnoc(cfgPid: int, calls: seq<WaitOutcome>, next: WaitOutcome)
    ensures CallPids(cfgPid, calls + [next]) ==
            CallPids(cfgPid, calls) + [if calls != [] && calls[|calls| - 1].err == EINTR then calls[|calls| - 1].pid else cfgPid]
  {
  }

  /**
   * Every call of a pass waits on the configured pid exactly when every
   * interrupted call (except possibly the last call) returned that pid; the
   * kernel returns -1 from an interrupted `wait4`, so only the default
   * any-child filter survives a retry.
   */
  lemma CallPidsKeepFilter(cfgPid: int, calls: seq<WaitOutcome>)
    ensures (forall i :: 0 <= i < |calls| ==> CallPids(cfgPid, calls)[i] == cfgPid) <==>
            (forall i :: 0 <= i < |calls| - 1 && calls[i].err == EINTR ==> calls[i].pid == cfgPid)
  {
    var pids := CallPids(cfgPid, calls);
    if forall i :: 0 <= i < |calls| ==> pids[i] == cfgPid {
      forall i | 0 <= i < |calls| - 1 && calls[i].err == EINTR
        ensures calls[i].pid == cfgPid
      {
        assert pids[i + 1] == calls[i].pid;
      }
    }
  }

  /** An outcome that the pass hands to the notifier: neither a retry nor the end of the pass. */
  predicate Reportable(o: WaitOutcome)
  {
    o.err != EINTR && o.err != ECHILD
  }

  function StatusOf(o: WaitOutcome): Status
  {
    Status(o.pid, o.err, o.waitStatus)
  }

  /** The statuses a pass over `calls` hands to the notifier, in call order. */
  function Reported(calls: seq<WaitOutcome>): seq<Status>
  {
    if calls == [] then []
    else
      var last := calls[|calls| - 1];
      Reported(calls[..|calls| - 1]) + if Reportable(last) then [StatusOf(last)] else []
  }

  /** Each outcome contributes its own status, at most once and in order: reporting distributes over concatenation. */
  lemma {:induction false} ReportedAppend(a: seq<WaitOutcome>, b: seq<WaitOutcome>)
    ensures Reported(a + b) == Reported(a) + Reported(b)
    decreases |b|
  {
    if b == [] {
      assert a + b == a;
    } else {
      var init := b[..|b| - 1];
      assert (a + b)[..|a + b| - 1] == a + init;
      assert (a + b)[|a + b| - 1] == b[|b| - 1];
      ReportedAppend(a, init);
    }
  }

  /** A status is reported exactly when some call returned it with an error other than EINTR and ECHILD. */
  lemma {:induction false} ReportedMembers(calls: seq<WaitOutcome>, s: Status)
    ensures s in Reported(calls) <==>
            exists i :: 0 <= i < |calls| && Reportable(calls[i]) && StatusOf(calls[i]) == s
    decreases |calls|
  {
    if calls != [] {
      var init := calls[..|calls| - 1];
      ReportedMembers(init, s);
      if s in Reported(calls) && s !in Reported(init) {
        assert Reportable(calls[|calls| - 1]) && StatusOf(calls[|calls| - 1]) == s;
      }
      if exists i :: 0 <= i < |calls| && Reportable(calls[i]) && StatusOf(calls[i]) == s {
        var i :| 0 <= i < |calls| && Reportable(calls[i]) && StatusOf(calls[i]) == s;
        if i < |init| {
          assert init[i] == calls[i];
        }
      }
    }
  }

  /** No reported status carries EINTR (it was retried) or ECHILD (it ended the pass). */
  lemma ReportedNeverRetryOrEnd(calls: seq<WaitOutcome>)
    ensures forall s :: s in Reported(calls) ==> s.err != EINTR && s.err != ECHILD
  {
    forall s | s in Reported(calls)
      ensures s.err != EINTR && s.err != ECHILD
    {
      ReportedMembers(calls, s);
    }
  }

  /** Calls after a completed call start afresh: the pid arguments of two such stretches of calls concatenate. */
  lemma CallPidsAppend(cfgPid: int, a: seq<WaitOutcome>, b: seq<WaitOutcome>)
    requires a != [] ==> a[|a| - 1].err != EINTR
    ensures CallPids(cfgPid, a + b) == CallPids(cfgPid, a) + CallPids(cfgPid, b)
  {
    var l, r := CallPids(cfgPid, a + b), CallPids(cfgPid, a) + CallPids(cfgPid, b);
    forall i | 0 <= i < |a + b|
      ensures l[i] == r[i]
    {
      if i > |a| {
        assert (a + b)[i - 1] == b[i - |a| - 1];
      }
    }
  }

  /** A chain of interrupted calls followed by one last call reports at most that last call. */
  lemma {:induction false} ReportedRetryChain(chain: seq<WaitOutcome>)
    requires chain != []
    requires forall i :: 0 <= i < |chain| - 1 ==> chain[i].err == EINTR
    ensures Reported(chain) == if Reportable(chain[|chain| - 1]) then [StatusOf(chain[|chain| - 1])] else []
    decreases |chain|
  {
    var init := chain[..|chain| - 1];
    if init != [] {
      ReportedRetryChain(init);
    }
  }

  /**
   * `pid, err := Wait4(pid, ...)` followed by `for EINTR == err { pid, err = Wait4(pid, ...) }`,
   * consuming outcomes from index `from` on: the first call passes `pid`,
   * each retry the pid the interrupted call returned. `o` is the last
   * outcome consumed and `next` the index after it; when `o` is still EINTR
   * the outcomes ran out while retrying.
   */
  method WaitRetrying(pid: int, outs: seq<WaitOutcome>, from: nat) returns (o: WaitOutcome, pids: seq<int>, next: nat)
    requires from < |outs|
    ensures from < next <= |outs| && o == outs[next - 1]
    ensures forall i :: from <= i < next - 1 ==> outs[i].err == EINTR
    ensures o.err == EINTR ==> next == |outs|
    ensures pids == CallPids(pid, outs[from..next])
  {
    pids := [pid];
    o := outs[from];
    next := from + 1;
    while o.err == EINTR && next < |outs|
      invariant from < next <= |outs| && o == outs[next - 1]
      invariant forall i :: from <= i < next - 1 ==> outs[i].err == EINTR
      invariant pids == CallPids(pid, outs[from..next])
      decreases |outs| - next
    {
      assert outs[from..next + 1] == outs[from..next] + [outs[next]];
      CallPidsSnoc(pid, outs[from..next], outs[next]);
      pids := pids + [o.pid];
      o := outs[next];
      next := next + 1;
    }
  }

  /** The bookkeeping of one iteration of the drain loop: the calls from `used` to `next` extend the pass. */
  lemma PassStep(cfgPid: int, outs: seq<WaitOutcome>, used: nat, next: nat)
    requires used < next <= |outs|
    requires used > 0 ==> outs[used - 1].err != EINTR
    requires forall i :: used <= i < next - 1 ==> outs[i].err == EINTR
    ensures CallPids(cfgPid, outs[..next]) == CallPids(cfgPid, outs[..used]) + CallPids(cfgPid, outs[used..next])
    ensures Reported(outs[..next]) ==
            Reported(outs[..used]) + if Reportable(outs[next - 1]) then [StatusOf(outs[next - 1])] else []
  {
    assert outs[..next] == outs[..used] + outs[used..next];
    CallPidsAppend(cfgPid, outs[..used], outs[used..next]);
    ReportedAppend(outs[..used], outs[used..next]);
    ReportedRetryChain(outs[used..next]);
  }

  /** Where one drain iteration leaves the pass: still going, ended by ECHILD, or out of outcomes while retrying. */
  lemma PassProgress(outs: seq<WaitOutcome>, used: nat, next: nat)
    requires used < next <= |outs|
    requires used <= FirstNoChild(outs)
    requires forall i :: used <= i < next - 1 ==> outs[i].err == EINTR
    ensures Reportable(outs[next - 1]) ==> next <= FirstNoChild(outs)
    ensures outs[next - 1].err == ECHILD ==> PassLength(outs) == next
    ensures outs[next - 1].err == EINTR && next == |outs| ==> PassLength(outs) == next
  {
  }

  /**
   * The inner drain loop of `reapChildren`: wait for children until `wait4`
   * reports ECHILD, retrying on EINTR, and hand every other outcome to the
   * notifier when a status channel is configured. `pids` records the pid
   * argument of each call, `used` how many outcomes the pass consumed and
   * `notified` the statuses handed to the notifier. When the outcomes run
   * out first, the pass is still waiting in `wait4`.
   */
  method DrainPass(config: Config, outs: seq<WaitOutcome>) returns (pids: seq<int>, used: nat, notified: seq<Status>)
    requires config.statusChannel.Some? ==> config.statusChannel.value.Valid()
    modifies if config.statusChannel.Some? then {config.statusChannel.value} else {}
    ensures used == PassLength(outs)
    ensures pids == CallPids(config.pid, outs[..used])
    ensures notified == if config.statusChannel.Some? then Reported(outs[..used]) else []
    ensures config.statusChannel.Some? ==>
              var ch := config.statusChannel.value;
              ch.Valid() && ch.closed == old(ch.closed) &&
              ch.buffer == OfferAll(old(ch.buffer), ch.capacity, ch.closed, notified)
  {
    var informer := config.statusChannel;
    ghost var before := if informer.Some? then informer.value.buffer else [];
    ghost var closed := informer.Some? && informer.value.closed;
    pids, used, notified := [], 0, [];
    while used < |outs|
      invariant used <= FirstNoChild(outs)
      invariant used > 0 ==> outs[used - 1].err != EINTR
      invariant pids == CallPids(config.pid, outs[..used])
      invariant informer.None? ==> notified == []
      invariant informer.Some? ==> notified == Reported(outs[..used])
      invariant informer.Some? ==>
                  informer.value.Valid() && informer.value.closed == closed &&
                  informer.value.buffer == OfferAll(before, informer.value.capacity, closed, notified)
      decreases |outs| - used
    {
      var o, callPids, next := WaitRetrying(config.pid, outs, used);
      PassStep(config.pid, outs, used, next);
      PassProgress(outs, used, next);
      pids := pids + callPids;
      used := next;
      if o.err == EINTR {
        break;
      }
      if o.err == ECHILD {
        break;
      }
      if informer.Some? {
        var _ := Notify(informer, o.pid, o.err, o.waitStatus);
        assert (notified + [StatusOf(o)])[..|notified|] == notified;
        notified := notified + [StatusOf(o)];
      }
    }
  }

  /**
   * One turn of the outer loop of `reapChildren`: take one signal off the
   * notifications channel and run a drain pass. With no signal pending the
   * loop blocks in the receive, and nothing else happens.
   */
  method ReapOnSignal(config: Config, notifications: Chan<Signal>, outs: seq<WaitOutcome>)
    returns (woke: bool, pids: seq<int>, used: nat, notified: seq<Status>)
    requires notifications.Valid()
    requires config.statusChannel.Some? ==> config.statusChannel.value.Valid()
    modifies notifications, if config.statusChannel.Some? then {config.statusChannel.value} else {}
    ensures notifications.Valid() && notifications.closed == old(notifications.closed)
    ensures woke <==> old(notifications.buffer) != []
    ensures notifications.buffer == if woke then old(notifications.buffer)[1..] else old(notifications.buffer)
    ensures used == (if woke then PassLength(outs) else 0)
    ensures pids == CallPids(config.pid, outs[..used])
    ensures notified == if woke && config.statusChannel.Some? then Reported(outs[..used]) else []
    ensures config.statusChannel.Some? ==>
              var ch := config.statusChannel.value;
              ch.Valid() && ch.closed == old(ch.closed) &&
              ch.buffer == OfferAll(old(ch.buffer), ch.capacity, ch.closed, notified)
  {
    var sig := notifications.Receive();
    woke := sig.Some?;
    if !woke {
      pids, used, notified := [], 0, [];
      return;
    }
    pids, used, notified := DrainPass(config, outs);
  }

  /** One schedule of the reaper: SIGCHLDs that reach the relay, then the outcomes of the pass that follows. */
  datatype Round = Round(arrivals: seq<Signal>, outs: seq<WaitOutcome>)

  /** The statuses the reaper reports over a schedule: one drain pass for every round in which a signal arrived. */
  function SessionReports(rounds: seq<Round>): seq<Status>
  {
    if rounds == [] then []
    else
      var last := rounds[|rounds| - 1];
      SessionReports(rounds[..|rounds| - 1]) +
        if last.arrivals != [] then Reported(last.outs[..PassLength(last.outs)]) else []
  }

  lemma SessionReportsStep(rounds: seq<Round>, r: nat)
    requires r < |rounds|
    ensures SessionReports(rounds[..r + 1]) == SessionReports(rounds[..r]) +
              if rounds[r].arrivals != [] then Reported(rounds[r].outs[..PassLength(rounds[r].outs)]) else []
  {
    assert rounds[..r + 1][..r] == rounds[..r];
  }

  /**
   * One round of the reaper: the relay forwards the round's signals into the
   * empty capacity-1 notifications channel, then the loop takes one and
   * drains. A burst of signals becomes one wake-up.
   */
  method ReapRound(config: Config, notifications: Chan<Signal>, round: Round) returns (woke: bool, reported: seq<Status>)
    requires notifications.Valid() && notifications.capacity == 1 && !notifications.closed && notifications.buffer == []
    requires config.statusChannel.Some? ==> config.statusChannel.value.Valid()
    modifies notifications, if config.statusChannel.Some? then {config.statusChannel.value} else {}
    ensures notifications.Valid() && !notifications.closed && notifications.buffer == []
    ensures woke <==> round.arrivals != []
    ensures reported == if woke && config.statusChannel.Some? then Reported(round.outs[..PassLength(round.outs)]) else []
    ensures config.statusChannel.Some? ==>
              var ch := config.statusChannel.value;
              ch.Valid() && ch.closed == old(ch.closed) &&
              ch.buffer == OfferAll(old(ch.buffer), ch.capacity, ch.closed, reported)
  {
    var _ := RelaySignals(notifications, round.arrivals);
    OfferAllWithinCapacity([], 1, false, round.arrivals);
    var w, _, _, rep := ReapOnSignal(config, notifications, round.outs);
    woke, reported := w, rep;
  }

  /**
   * `reapChildren` with `sigChildHandler`, over a finite schedule of rounds:
   * the capacity-1 notifications channel coalesces each round's burst into
   * a single wake-up, and the loop drains once per round that saw a signal.
   */
  method ReapChildren(config: Config, rounds: seq<Round>) returns (wakes: seq<bool>, notified: seq<Status>)
    requires config.statusChannel.Some? ==> config.statusChannel.value.Valid()
    modifies if config.statusChannel.Some? then {config.statusChannel.value} else {}
    ensures |wakes| == |rounds|
    ensures forall r :: 0 <= r < |rounds| ==> (wakes[r] <==> rounds[r].arrivals != [])
    ensures notified == if config.statusChannel.Some? then SessionReports(rounds) else []
    ensures config.statusChannel.Some? ==>
              var ch := config.statusChannel.value;
              ch.Valid() && ch.closed == old(ch.closed) &&
              ch.buffer == OfferAll(old(ch.buffer), ch.capacity, ch.closed, notified)
  {
    var informer := config.statusChannel;
    ghost var before := if informer.Some? then informer.value.buffer else [];
    ghost var closed := informer.Some? && informer.value.closed;
    var notifications := new Chan<Signal>(1);
    wakes, notified := [], [];
    var r := 0;
    while r < |rounds|
      invariant 0 <= r <= |rounds| && |wakes| == r
      invariant fresh(notifications)
      invariant notifications.Valid() && notifications.capacity == 1 && !notifications.closed
      invariant notifications.buffer == []
      invariant forall k :: 0 <= k < r ==> (wakes[k] <==> rounds[k].arrivals != [])
      invariant informer.None? ==> notified == []
      invariant informer.Some? ==> notified == SessionReports(rounds[..r])
      invariant informer.Some? ==>
                  informer.value.Valid() && informer.value.closed == closed &&
                  informer.value.buffer == OfferAll(before, informer.value.capacity, closed, notified)
      decreases |rounds| - r
    {
      var woke, reported := ReapRound(config, notifications, rounds[r]);
      if informer.Some? {
        OfferAllAppend(before, informer.value.capacity, closed, notified, reported);
        SessionReportsStep(rounds, r);
      }
      wakes := wakes + [woke];
      notified := notified + reported;
      r := r + 1;
    }
    assert rounds[..r] == rounds;
  }
}
