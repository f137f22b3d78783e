/**
 * Wi-Fi calling of one module: the user's switch, one worker at a time, retries, and at most one full radio restore
 * per outage. Conditions read from other parts (card, endpoint, jobs, drain, networks) come in as parameters.
 */
module WiFi {
  import opened Common

  datatype State = Off | Waiting | Connecting | Connected | Stopping | Failed
  datatype Issue = NoIssue | NetworkUnavailable | NetworkUnsupported | WorkerUnavailable | ConnectionFailed
      | Unconfirmed | OtherIssue
  datatype Diagnostic = NoDiagnostic | Transient | OtherDiagnostic

  datatype Recovery = Recovery(failures: nat, retryAllowed: bool, used: bool, stopping: bool, verifyUntil: int)
  const FRESH := Recovery(0, false, false, false, 0)

  /** How the worker came back. */
  datatype Outcome = Clean | Cancelled | Broken(issue: Issue)

  datatype Network = Reachable | Unsupported | Missing

  /** What matters about an outage. */
  datatype Event = Registered | Toggled | Restored

  const REFRESH := 80 * SECOND
  const VERIFY := 4 * MINUTE
  const RETRIES: seq<int> := [15, 30, MINUTE, 2 * MINUTE, 5 * MINUTE]

  /** The pause before the next attempt, longer after every failure. */
  function Pause(failures: nat): (p: int)
    ensures 15 <= p <= 5 * MINUTE
    ensures failures > 0 ==> Pause(failures - 1) <= p
    ensures 0 < failures < |RETRIES| ==> Pause(failures - 1) < p
    decreases failures
  {
    RETRIES[Min(failures, |RETRIES| - 1)]
  }

  /** Two full restores have a registration or the user's switch between them. */
  predicate OnePerOutage(log: seq<Event>) {
    forall i, j :: 0 <= i < j < |log| && log[i].Restored? && log[j].Restored? ==>
      exists k :: i < k < j && !log[k].Restored?
  }

  /** The last event that matters is a restore. */
  predicate RestoredLast(log: seq<Event>) { log != [] && log[|log| - 1].Restored? }

  lemma {:induction false} LogMore(log: seq<Event>, e: Event)
    requires OnePerOutage(log) && (e.Restored? ==> !RestoredLast(log))
    ensures OnePerOutage(log + [e])
  {
    var more := log + [e];
    forall i, j | 0 <= i < j < |more| && more[i].Restored? && more[j].Restored?
      ensures exists k :: i < k < j && !more[k].Restored?
    {
      if j < |log| {
        var k :| i < k < j && !log[k].Restored?;
        assert !more[k].Restored?;
      } else {
        assert i < |log| - 1;
        assert !more[|log| - 1].Restored?;
      }
    }
  }

  function Restores(log: seq<Event>): nat {
    if log == [] then 0 else Restores(log[..|log| - 1]) + (if log[|log| - 1].Restored? then 1 else 0)
  }

  /** So there is at most one restore more than there are registrations and switches. */
  lemma {:induction false} RestoresBounded(log: seq<Event>)
    requires OnePerOutage(log)
    ensures 2 * Restores(log) <= |log| + (if RestoredLast(log) then 1 else 0)
    decreases |log|
  {
    if log != [] {
      var init := log[..|log| - 1];
      assert OnePerOutage(init) by {
        forall i, j | 0 <= i < j < |init| && init[i].Restored? && init[j].Restored?
          ensures exists k :: i < k < j && !init[k].Restored?
        {
          assert log[i] == init[i] && log[j] == init[j];
          var k :| i < k < j && !log[k].Restored?;
          assert !init[k].Restored?;
        }
      }
      RestoresBounded(init);
      assert |log| > 1 ==> !(log[|log| - 2].Restored? && log[|log| - 1].Restored?);
    }
  }

  class ModuleWiFi {
    var card: nat
    var enabled: bool
    var state: State
    var issue: Issue
    var diagnostic: Diagnostic
    var registered: bool
    var unregisteredSince: Option<int>
    var radioOff: bool
    var refreshUntil: int
    var rebinding: bool
    var networkRetry: Option<int>
    var retryFailures: nat
    var recovery: Recovery
    var running: bool
    var cancelled: bool            // the worker's context
    var restoring: bool            // the worker only restores the radio and reports no stages
    ghost var workers: nat         // workers alive
    ghost var log: seq<Event>

    ghost predicate Valid() reads this {
      && workers == (if running then 1 else 0)
      && (registered ==> enabled && running && !restoring && state.Connected? && unregisteredSince.None?)
      && (recovery.stopping ==> recovery.used && running && (cancelled || restoring))
      && (recovery.used <==> RestoredLast(log)) && OnePerOutage(log)
    }

    /** As loaded from the database. */
    constructor (card: nat, enabled: bool, now: int)
      ensures Valid() && !running && !registered && this.enabled == enabled && log == []
    {
      this.card, this.enabled, issue, diagnostic := card, enabled, NoIssue, NoDiagnostic;
      state := if enabled then Waiting else Off;
      registered, unregisteredSince := false, if enabled then Some(now) else None;
      radioOff, refreshUntil, rebinding, networkRetry, retryFailures := false, 0, false, None, 0;
      recovery, running, cancelled, restoring, workers, log := FRESH, false, false, false, 0, [];
    }

    predicate RetryFailure() reads this {
      enabled && state.Failed? && (issue.WorkerUnavailable? || (issue.ConnectionFailed? && diagnostic.Transient?))
    }

    /** Recovery is under way or will come by itself. */
    predicate RecoveryPending(limit: int, now: int) reads this {
      recovery.stopping || now < recovery.verifyUntil
      || (limit > 0 && !recovery.used && recovery.failures > 0
          && (running || issue.NetworkUnavailable? || RetryFailure()))
    }

    /** At most one full restore between registrations and switches, and so at most one more than there are of these. */
    lemma {:induction false} OneRestoreAnOutage()
      requires Valid()
      ensures OnePerOutage(log) && 2 * Restores(log) <= |log| + 1
    {
      RestoresBounded(log);
    }

    ghost method Note(e: Event)
      requires OnePerOutage(log) && (e.Restored? ==> !RestoredLast(log))
      modifies this`log
      ensures log == old(log) + [e] && OnePerOutage(log)
    {
      LogMore(log, e);
      log := log + [e];
    }

    method Unregister(now: int)
      modifies this`registered, this`unregisteredSince
      ensures !registered
      ensures unregisteredSince == if old(unregisteredSince).None? then Some(now) else old(unregisteredSince)
    {
      if unregisteredSince.None? { unregisteredSince := Some(now); }
      registered := false;
    }

    /** Every registration ends the outage. */
    method Register(now: int)
      requires Valid() && enabled && running && !restoring && !cancelled && state.Connected?
      modifies this`registered, this`unregisteredSince, this`recovery, this`log
      ensures Valid() && registered && recovery == FRESH && log == old(log) + [Registered]
    {
      Note(Registered);
      recovery, unregisteredSince, registered := FRESH, None, true;
    }

    method Spawn(restore: bool)
      requires !running && workers == 0
      modifies this`running, this`cancelled, this`restoring, this`workers
      ensures running && workers == 1 && !cancelled && restoring == restore
    {
      running, cancelled, restoring, workers := true, false, restore, workers + 1;
    }

    /**
     * The user switches on; refused while a worker of another card or of a switched-off line still runs. `allowed` is
     * what the drain, the device, its jobs and work and the database say.
     */
    method Enable(newCard: nat, allowed: bool, now: int) returns (ok: bool)
      requires Valid()
      modifies this
      ensures Valid() && running == old(running) && workers == old(workers)
      ensures ok <==> allowed && !(old(running) && (!old(enabled) || old(card) != newCard))
      ensures !ok ==> unchanged(this)
      ensures ok ==> enabled && card == newCard && (!running ==> state.Waiting? && issue.NoIssue?)
      ensures ok ==> if old(enabled) && old(card) == newCard then recovery == old(recovery) && log == old(log)
                     else recovery == FRESH && log == old(log) + [Toggled]
    {
      if !allowed || (running && (!enabled || card != newCard)) { return false; }
      if !enabled || card != newCard {
        unregisteredSince, recovery := Some(now), FRESH;
        Note(Toggled);
      }
      card, enabled := newCard, true;
      if !running { state, issue := Waiting, NoIssue; }
      ok := true;
    }

    /** The user switches off: the worker is cancelled, or the radio restored if there is none. */
    method Disable(newCard: nat, restorer: bool, now: int)
      requires Valid()
      modifies this
      ensures Valid() && !enabled && !registered && recovery == FRESH && log == old(log) + [Toggled]
      ensures old(running) ==> running && cancelled && state.Stopping?
      ensures !old(running) ==>
              running == restorer && (running ==> restoring && state.Stopping?)
              && (!running ==> state.Off?)
    {
      card, enabled, recovery := newCard, false, FRESH;
      Note(Toggled);
      Unregister(now);
      if running {
        state, cancelled := Stopping, true;
      } else {
        state, issue := Off, NoIssue;
        if restorer {
          Spawn(true);
          state := Stopping;
        }
      }
    }

    /** A job takes the module over. */
    method Stop(now: int)
      requires Valid()
      modifies this
      ensures Valid() && !enabled && running == old(running) && log == old(log)
              && (running ==> cancelled)
    {
      if !enabled && !running { return; }
      enabled := false;
      Unregister(now);
      if running { state, cancelled := Stopping, true; } else { state := Off; }
    }

    /** A restart of the module cancels the worker. */
    method Interrupt(now: int)
      requires Valid()
      modifies this
      ensures Valid() && running == old(running) && enabled == old(enabled) && log == old(log)
      ensures running ==> cancelled && !registered && state.Stopping?
    {
      if running {
        Unregister(now);
        state, cancelled := Stopping, true;
      }
    }

    /** Another network is chosen; `quiet` is false while an uncertain cleanup may still be going on. */
    method Rebind(quiet: bool)
      requires Valid()
      modifies this
      ensures Valid() && running == old(running) && enabled == old(enabled) && log == old(log)
              && recovery == old(recovery)
      ensures !enabled ==> unchanged(this)
      ensures enabled && running ==> cancelled && !registered && rebinding && state.Stopping? && issue == old(issue)
      ensures enabled && !running ==> state.Waiting? && issue == if quiet then NoIssue else old(issue)
    {
      if enabled {
        registered := false;
        if running {
          rebinding, cancelled, state := true, true, Stopping;
        } else {
          state := Waiting;
          if quiet { issue := NoIssue; }
        }
      }
    }

    /** The link behind the chosen network changed, or came (`present`) or went. */
    method LinkChanged(present: bool)
      requires Valid()
      modifies this
      ensures Valid() && running == old(running) && enabled == old(enabled) && log == old(log)
              && recovery == old(recovery)
      ensures !enabled ==> unchanged(this)
      ensures enabled && running ==> cancelled && !registered && rebinding && state == old(state)
      ensures enabled && !running ==>
                if present && old(issue).NetworkUnavailable? then state.Waiting? && issue.NoIssue?
                else state == old(state) && issue == old(issue)
    {
      if enabled {
        if running {
          registered, rebinding, cancelled := false, true, true;
        } else if present && issue.NetworkUnavailable? {
          state, issue := Waiting, NoIssue;
        }
      }
    }

    /** The endpoint of the worker is gone. */
    method Vanish()
      requires Valid()
      modifies this`cancelled
      ensures Valid() && (running ==> cancelled)
    {
      if running { cancelled := true; }
    }

    /** After a confirmed recovery of the device, a failed line gets another attempt. */
    method Resume(sameCard: bool, healthy: bool, now: int) returns (resumed: bool)
      requires Valid()
      modifies this`state, this`issue, this`registered, this`unregisteredSince
      ensures Valid()
      ensures resumed <==> old(enabled && !running && (state.Failed? || state.Off?)) && sameCard && healthy
      ensures resumed ==> state.Waiting?
      ensures !resumed ==> state == old(state) && issue == old(issue)
    {
      if !enabled || running || !sameCard || !healthy || !(state.Failed? || state.Off?) { return false; }
      state, issue := Waiting, NoIssue;
      Unregister(now);
      resumed := true;
    }

    /** The card is still coming back from a full restore. */
    predicate Refreshing(now: int) reads this { recovery.used && now < refreshUntil }

    /** Starts a worker when nothing stands against it; never a second one. */
    method Start(sameCard: bool, ready: bool, network: Network, healthy: bool, newGeneration: bool, now: int)
      returns (started: bool)
      requires Valid()
      modifies this
      ensures Valid() && log == old(log) && enabled == old(enabled) && recovery == old(recovery)
              && refreshUntil == old(refreshUntil)
      ensures started ==> !old(running) && running && !restoring && enabled && state.Connecting? && !registered
      ensures !started ==> running == old(running) && workers == old(workers)
      ensures old(running) || !enabled || !sameCard || !ready || Refreshing(now) ==> !started
      ensures (!old(running) && enabled && sameCard && ready && network.Reachable? && old(state).Waiting?
              && !Refreshing(now))
              ==> started
    {
      if recovery.used && now < refreshUntil { return false; }
      if !enabled || running || !sameCard || !ready { return false; }
      match network {
        case Unsupported => state, issue := Failed, NetworkUnsupported; return false;
        case Missing => state, issue := Failed, NetworkUnavailable; return false;
        case Reachable =>
      }
      if !state.Waiting? {
        var due := networkRetry.Some? && now >= networkRetry.value;
        if ((issue.NetworkUnavailable? && (networkRetry.None? || due)) || (due && RetryFailure())) && healthy {
          state := Waiting;
        }
      }
      if !state.Waiting? {
        if !newGeneration || !healthy { return false; }
        var resumed := Resume(sameCard, healthy, now);
        if !resumed { return false; }
      }
      Spawn(false);
      state, issue := Connecting, NoIssue;
      Unregister(now);
      diagnostic, networkRetry, radioOff := NoDiagnostic, None, false;
      started := true;
    }

    // ---------- What the worker reports ----------

    method OnConnected(now: int)
      requires Valid() && running && !restoring
      modifies this
      ensures Valid() && running
      ensures old(enabled && !cancelled) ==> registered && recovery == FRESH && log == old(log) + [Registered]
      ensures !old(enabled && !cancelled) ==>
              registered == old(registered) && recovery == old(recovery)
              && log == old(log)
    {
      if enabled && !cancelled {
        state, issue := Connected, NoIssue;
        Register(now);
        diagnostic, retryFailures := NoDiagnostic, 0;
      }
    }

    method OnReconnecting(now: int)
      requires Valid() && running && !restoring
      modifies this
      ensures Valid() && !registered && log == old(log) && recovery == old(recovery) && running
    {
      state := Connecting;
      Unregister(now);
    }

    method OnCleaned(radio: bool, now: int)
      requires Valid() && running && !restoring
      modifies this
      ensures Valid() && !registered && log == old(log) && recovery == old(recovery) && running
    {
      if radio { refreshUntil := now + REFRESH; }
      Unregister(now);
    }

    method OnDiagnostic(about: Option<Diagnostic>)
      requires Valid() && running && !restoring
      modifies this`recovery, this`diagnostic
      ensures Valid() && recovery == old(recovery).(retryAllowed := false)
    {
      recovery := recovery.(retryAllowed := false);
      if about.Some? { diagnostic := about.value; }
    }

    /** A failed attempt counts, and may bring the one full restore of this outage. */
    method AttemptFailed(limit: int, allowed: bool, policy: bool, restorer: bool, now: int) returns (restore: bool)
      requires Valid()
      modifies this
      ensures Valid() && enabled == old(enabled) && registered == old(registered)
      ensures recovery.failures == Min(old(recovery.failures) + 1, 100) && recovery.retryAllowed
      ensures log == if restore then old(log) + [Restored] else old(log)
      ensures restore ==>
              !old(recovery.used) && recovery.used && recovery.stopping && running
              && (old(running) || restoring)
      ensures restore ==> RecoveryPending(limit, now)
      ensures old(recovery.used && !recovery.stopping) && now >= 0 ==> !RecoveryPending(limit, now)
      ensures !restore ==>
              running == old(running) && recovery.used == old(recovery.used)
              && recovery.stopping == old(recovery.stopping)
    {
      recovery := recovery.(failures := Min(recovery.failures + 1, 100), retryAllowed := true);
      if recovery.used && !recovery.stopping { recovery := recovery.(verifyUntil := 0); }
      restore := Recover(limit, allowed, policy, restorer, now);
    }

    /**
     * The full radio restore: once per outage, after as many failures as the limit, never through a rejection by the
     * operator or an unconfirmed cleanup, and with nothing else going on.
     */
    method Recover(limit: int, allowed: bool, policy: bool, restorer: bool, now: int) returns (restore: bool)
      requires Valid()
      modifies this`recovery, this`state, this`cancelled, this`running, this`restoring, this`workers, this`log
      ensures Valid()
      ensures restore <==>
                && old(enabled && !registered && recovery.retryAllowed && !recovery.used)
                && 0 < limit <= old(recovery.failures)
                && allowed && now >= refreshUntil
                && if old(running) then policy && old(!state.Stopping?)
                   else restorer && old(issue.NetworkUnavailable? || RetryFailure())
      ensures restore ==>
              log == old(log) + [Restored] && state.Stopping? && running
              && (if old(running) then cancelled else restoring)
              && recovery == old(recovery).(used := true, stopping := true)
      ensures !restore ==>
              log == old(log) && recovery == old(recovery) && state == old(state)
              && running == old(running)
              && workers == old(workers) && cancelled == old(cancelled) && restoring == old(restoring)
    {
      restore := false;
      if !enabled || registered || !recovery.retryAllowed || recovery.used || limit <= 0 || recovery.failures < limit {
        return;
      }
      if !allowed || now < refreshUntil { return; }
      if running {
        if !policy || state.Stopping? { return; }
        recovery, state, cancelled := recovery.(used := true, stopping := true), Stopping, true;
      } else {
        if !issue.NetworkUnavailable? && !RetryFailure() { return; }
        if !restorer { return; }
        recovery := recovery.(used := true, stopping := true);
        Spawn(true);
        state := Stopping;
      }
      Note(Restored);
      restore := true;
    }

    // ---------- The end of a worker ----------

    /** The fields that every ending resets. */
    method Retire(outcome: Outcome, now: int)
      requires Valid() && running
      modifies this
      ensures Valid() && !running && !registered && recovery == old(recovery).(stopping := false)
      ensures enabled == old(enabled) && log == old(log) && rebinding == old(rebinding)
              && retryFailures == old(retryFailures)
      ensures diagnostic == old(diagnostic) || diagnostic.NoDiagnostic?
      ensures if outcome.Broken? then state.Failed? && issue == outcome.issue else state.Off? && issue.NoIssue?
      ensures refreshUntil == old(refreshUntil) && networkRetry == old(networkRetry)
    {
      running, workers := false, workers - 1;
      Unregister(now);
      if !enabled { radioOff := false; }
      recovery := recovery.(stopping := false);
      if outcome.Broken? {
        state, issue := Failed, outcome.issue;
      } else {
        state, issue, diagnostic := Off, NoIssue, NoDiagnostic;
      }
    }

    method ScheduleRetry(now: int)
      requires Valid() && !running
      modifies this`networkRetry, this`retryFailures
      ensures Valid()
      ensures networkRetry.Some? ==>
              networkRetry == old(networkRetry)
              || now + 15 <= networkRetry.value <= now + 5 * MINUTE
      ensures issue.NetworkUnavailable? || (!issue.Unconfirmed? && RetryFailure()) ==>
              networkRetry.Some?
              && networkRetry.value > now
      ensures !issue.NetworkUnavailable? && !issue.Unconfirmed? && RetryFailure() ==>
              networkRetry == Some(now + Pause(old(retryFailures)))
              && retryFailures == old(retryFailures) + (if old(retryFailures) < |RETRIES| - 1 then 1 else 0)
      ensures issue.NetworkUnavailable? ==> networkRetry == Some(now + Pause(0)) && retryFailures == old(retryFailures)
      ensures !issue.NetworkUnavailable? && (issue.Unconfirmed? || !RetryFailure()) ==> unchanged(this)
    {
      if issue.NetworkUnavailable? {
        networkRetry := Some(now + Pause(0));
      } else if enabled && !issue.Unconfirmed? && RetryFailure() {
        networkRetry := Some(now + Pause(retryFailures));
        if retryFailures < |RETRIES| - 1 { retryFailures := retryFailures + 1; }
      }
    }

    /**
     * The worker ends. After a full restore that went through, the line waits for its next attempt and is not restored
     * again; otherwise a retry is set, and a further failure counts.
     */
    method Ended(outcome: Outcome, changed: bool, limit: int, allowed: bool, policy: bool, restorer: bool, now: int)
      requires Valid() && running
      modifies this
      ensures Valid() && enabled == old(enabled) && !registered
      ensures running ==> restoring && recovery.stopping && !old(recovery.used)
      ensures old(recovery.stopping) ==> !running && log == old(log) && recovery.used
      ensures old(recovery.stopping && enabled) && !changed && !outcome.Broken? ==> state.Waiting?
      ensures old(recovery.stopping && enabled) && !changed && !outcome.Broken? ==>
                forall later :: RecoveryPending(limit, later) <==> later < now + VERIFY
      ensures log == old(log) || log == old(log) + [Restored]
    {
      var resetting := recovery.stopping;
      Retire(outcome, now);
      if resetting {
        if enabled && !changed && !outcome.Broken? {
          state, issue, radioOff := Waiting, NoIssue, false;
          refreshUntil, networkRetry := now + REFRESH, None;
          recovery := recovery.(verifyUntil := now + VERIFY);
        }
        return;
      }
      ScheduleRetry(now);
      var lost, rebind := issue.NetworkUnavailable?, rebinding;
      if enabled && (changed || rebind) && !issue.Unconfirmed? { state, issue := Waiting, NoIssue; }
      rebinding := false;
      if enabled && !cancelled && !changed && !rebind && (lost || RetryFailure()) {
        var _ := AttemptFailed(limit, allowed, policy, restorer, now);
      }
    }
  }
}
