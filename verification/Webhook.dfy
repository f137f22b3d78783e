/**
 * The webhook outbox: events are claimed under a lease, posted, and saved only while the lease still holds. Workers,
 * the 30-second reclaim, restarts, settings changes, compaction and manual replays interleave step by step.
 */
module Webhook {
  import opened Common

  type Id = nat
  type Token = nat

  const MAX_ATTEMPTS := 8
  const LEASE := 30 * SECOND
  const HOUR := 3600 * SECOND
  const COMPACT := 512
  const BATCH := 256

  datatype Kind = MessageReceived | StatusChanged | OtherKind
  datatype State = Disabled | Pending | Sending | Delivered | Failed | Cancelled

  /** Where events go; an empty webhook is `None`. */
  datatype Settings = Settings(webhook: Option<string>, secret: string)

  datatype Event = Event(kind: Kind, resource: string, destination: string, secret: string, state: State,
                         attempts: nat, lease: Option<Token>, claimedAt: int, nextAt: int, createdAt: int)

  /** A delivery in progress: what it claimed, and the answer once it has posted (0 stands for no answer). */
  datatype Job = Job(id: Id, attempts: nat, answer: Option<nat>)

  /** What happened to an event so far, counted from outside. */
  datatype Tally = Tally(claims: nat, posts: nat, replays: nat, confirmed: bool)

  const NO_TALLY := Tally(0, 0, 0, false)

  datatype Sys = Sys(events: map<Id, Event>, settings: Settings, jobs: map<Token, Job>, used: set<Token>,
                     ready: bool, clock: int, next: Id, floor: Id, tallies: map<Id, Tally>)

  // ---------- Delivery ----------

  predicate Success(status: nat) { 200 <= status < 300 }

  predicate Permanent(status: nat) { 300 <= status < 500 && status != 408 && status != 425 && status != 429 }

  /** A refusal that no repetition mends: redirections and client errors, but for three that may pass. */
  predicate Refused(status: nat) { 300 <= status <= 499 && !(status in {408, 425, 429}) }

  function Verdict(status: nat, attempts: nat): (state: State)
    ensures state.Delivered? <==> 200 <= status <= 299
    ensures state.Failed? <==> !(200 <= status <= 299) && (attempts >= 8 || Refused(status))
    ensures state.Pending? <==> !(200 <= status <= 299) && attempts < 8 && !Refused(status)
  {
    if Success(status) then Delivered
    else if attempts >= MAX_ATTEMPTS || Permanent(status) then Failed
    else Pending
  }

  const DELAYS: seq<int> := [5, 30, 2 * MINUTE, 10 * MINUTE, 30 * MINUTE, 2 * HOUR, 6 * HOUR, 12 * HOUR]

  /** Seconds until the next attempt, later with every attempt and never more than half a day away. */
  function Delay(attempts: nat, retryAfter: int): (d: int)
    requires attempts >= 1
    ensures 5 <= d && d >= retryAfter && (retryAfter <= 12 * HOUR ==> d <= 12 * HOUR)
    ensures attempts > 1 ==> d >= Delay(attempts - 1, retryAfter)
    decreases attempts
  {
    Max(DELAYS[Min(attempts - 1, |DELAYS| - 1)], retryAfter)
  }

  /** The pauses of an event whose receiver asks for none. */
  lemma {:induction false} DelayTable()
    ensures Delay(1, 0) == 5 && Delay(2, 0) == 30 && Delay(3, 0) == 120 && Delay(4, 0) == 600 && Delay(5, 0) == 1800
    ensures Delay(6, 0) == 7200 && Delay(7, 0) == 21600 && Delay(8, 0) == 43200
  {
  }

  /** Retry-After in seconds or as a date; anything else counts as none. */
  function RetryAfter(seconds: Option<int>, date: Option<int>, now: int): (d: int)
    ensures 0 <= d <= 12 * HOUR
  {
    if seconds.Some? then Max(0, Min(seconds.value, 43200))
    else if date.Some? then Max(0, Min(date.value - now, 12 * HOUR))
    else 0
  }

  predicate Current(settings: Settings, e: Event) {
    settings.webhook == Some(e.destination) && settings.secret == e.secret
  }

  /** After an interruption: given up after eight attempts, else pending again. */
  function Returned(e: Event): Event {
    e.(state := if e.attempts >= MAX_ATTEMPTS then Failed else Pending, lease := None)
  }

  // ---------- Compaction ----------

  predicate Newer(events: map<Id, Event>, id: Id, newer: Id)
    requires id in events
  {
    newer in events && newer > id && events[newer].state.Pending? && events[newer].kind == events[id].kind
    && events[newer].resource == events[id].resource && events[newer].destination == events[id].destination
    && events[newer].secret == events[id].secret
  }

  function Obsolete(events: map<Id, Event>): (ids: set<Id>)
    ensures forall id :: id in ids ==> id in events && events[id].state.Pending? && events[id].kind.StatusChanged?
  {
    set id | id in events && events[id].state.Pending? && events[id].kind.StatusChanged?
             && exists newer :: newer in events && Newer(events, id, newer)
  }

  /** ORDER BY id LIMIT n */
  predicate Lowest(all: set<Id>, chosen: set<Id>, n: nat) {
    && chosen <= all && |chosen| <= n && (|chosen| < n ==> chosen == all)
    && forall a, b :: a in chosen && b in all && b !in chosen ==> a < b
  }

  function Compacted(events: map<Id, Event>, chosen: set<Id>): map<Id, Event> {
    map id | id in events :: if id in chosen then events[id].(state := Cancelled, lease := None) else events[id]
  }

  // ---------- The steps ----------

  datatype Action =
    | Emit(kind: Kind, resource: string, at: int)
    | Configure(settings: Settings)
    | Claim(id: Id, token: Token, reply: Reply)
    | Post(token: Token, status: nat)
    | Save(token: Token, retryAfter: int, reply: Reply)
    | Crash
    | Recover                                  // the first statement after a start
    | Reclaim
    | CancelForeign                            // pending events of former settings
    | Compact(chosen: set<Id>)
    | Replay(id: Id)
    | Forget(upTo: Id)                         // the retention of settled events

  predicate Settled(e: Event) { !e.state.Pending? && !e.state.Sending? }

  predicate Enabled(s: Sys, a: Action, now: int) {
    s.clock <= now &&
    match a
    case Claim(id, token, _) => s.ready && id in s.events && token !in s.used && Claimable(s, id, now)
    case Post(token, _) => token in s.jobs && s.jobs[token].answer.None?
    case Save(token, retryAfter, _) => token in s.jobs && s.jobs[token].answer.Some? && 0 <= retryAfter <= 12 * HOUR
    case Recover => !s.ready
    case Reclaim => s.ready
    case CancelForeign => s.ready
    case Compact(chosen) => s.ready && Lowest(Obsolete(s.events), chosen, COMPACT)
    case Replay(id) => id in s.events && s.events[id].state in {Failed, Cancelled} && Current(s.settings, s.events[id])
    case Forget(upTo) => forall id :: id in s.events && id <= upTo ==> Settled(s.events[id])
    case _ => true
  }

  predicate Claimable(s: Sys, id: Id, now: int)
    requires id in s.events
  {
    s.events[id].state.Pending? && s.events[id].nextAt <= now && Current(s.settings, s.events[id])
  }

  function With(s: Sys, id: Id, e: Event): Sys { s.(events := s.events[id := e]) }

  function TallyOf(s: Sys, id: Id): Tally { if id in s.tallies then s.tallies[id] else NO_TALLY }

  function Count(s: Sys, id: Id, t: Tally): Sys { s.(tallies := s.tallies[id := t]) }

  /** The claim is one statement: the attempt counts from here on, whether or not the worker hears of it. */
  function Claimed(s: Sys, a: Action, now: int): Sys
    requires a.Claim? && Enabled(s, a, now)
  {
    if !a.reply.Committed() then s.(used := s.used + {a.token})
    else
      var e := s.events[a.id];
      var t := TallyOf(s, a.id);
      var c := Count(With(s, a.id,
          e.(state := Sending, attempts := e.attempts + 1, lease := Some(a.token), claimedAt := now)),
                     a.id, t.(claims := t.claims + 1)).(used := s.used + {a.token});
      if a.reply.Acked? then c.(jobs := c.jobs[a.token := Job(a.id, e.attempts + 1, None)]) else c
  }

  function Posted(s: Sys, a: Action, now: int): Sys
    requires a.Post? && Enabled(s, a, now)
  {
    var j := s.jobs[a.token];
    var t := TallyOf(s, j.id);
    Count(s, j.id, t.(posts := t.posts + 1, confirmed := t.confirmed || Success(a.status)))
      .(jobs := s.jobs[a.token := j.(answer := Some(a.status))])
  }

  predicate Holds(s: Sys, token: Token) {
    token in s.jobs && s.jobs[token].id in s.events
    && s.events[s.jobs[token].id].state.Sending? && s.events[s.jobs[token].id].lease == Some(token)
  }

  /** The save matches the lease; a worker whose lease was taken away changes nothing. */
  function Saved(s: Sys, a: Action, now: int): Sys
    requires a.Save? && Enabled(s, a, now)
  {
    var j := s.jobs[a.token];
    var t := s.(jobs := s.jobs - {a.token});
    if !a.reply.Committed() || !Holds(s, a.token) then t
    else
      var e := s.events[j.id];
      With(t, j.id, e.(state := Verdict(j.answer.value, j.attempts), lease := None,
                       nextAt := now + Delay(Max(1, j.attempts), a.retryAfter)))
  }

  function Emitted(s: Sys, a: Action): Sys
    requires a.Emit?
  {
    var state := if s.settings.webhook.Some? && s.settings.secret != "" then Pending else Disabled;
    var to := if s.settings.webhook.Some? then s.settings.webhook.value else "";
    With(s, s.next, Event(a.kind, a.resource, to, s.settings.secret, state, 0, None, a.at, a.at, a.at)).(next := s.next
        + 1)
  }

  /** A replay by hand starts the attempts anew. */
  function Replayed(s: Sys, a: Action, now: int): Sys
    requires a.Replay? && Enabled(s, a, now)
  {
    var t := TallyOf(s, a.id);
    Count(With(s, a.id, s.events[a.id].(state := Pending, attempts := 0, lease := None, nextAt := now)), a.id,
          t.(replays := t.replays + 1))
  }

  function Changed(s: Sys, a: Action, now: int): Sys
    requires Enabled(s, a, now)
  {
    match a
    case Emit(_, _, _) => Emitted(s, a)
    case Configure(settings) => s.(settings := settings)
    case Claim(_, _, _) => Claimed(s, a, now)
    case Post(_, _) => Posted(s, a, now)
    case Save(_, _, _) => Saved(s, a, now)
    case Crash => s.(jobs := map[], ready := false)
    case Recover => s.(ready := true, events := RecoverEvents(s.events))
    case Reclaim => s.(events := Reclaimed(s.events, now))
    case CancelForeign => s.(events := WithoutForeign(s.events, s.settings))
    case Compact(chosen) => s.(events := Compacted(s.events, chosen))
    case Replay(_) => Replayed(s, a, now)
    case Forget(upTo) => s.(events := map id | id in s.events && id > upTo :: s.events[id], floor := Max(s.floor, upTo))
  }

  function Do(s: Sys, a: Action, now: int): Sys
    requires Enabled(s, a, now)
  {
    Changed(s, a, now).(clock := now)
  }

  function RecoverEvents(events: map<Id, Event>): map<Id, Event> {
    map id | id in events :: if events[id].state.Sending? then Returned(events[id]) else events[id]
  }

  function Reclaimed(events: map<Id, Event>, now: int): map<Id, Event> {
    map id | id in events ::
      if events[id].state.Sending? && events[id].claimedAt < now - LEASE then Returned(events[id]).(nextAt := now)
      else events[id]
  }

  function WithoutForeign(events: map<Id, Event>, settings: Settings): map<Id, Event> {
    map id | id in events ::
      if events[id].state.Pending? && !Current(settings, events[id]) then events[id].(state := Cancelled, lease := None)
      else events[id]
  }

  // ---------- The inductive invariant ----------

  predicate EventInv(e: Event) {
    && (e.state.Pending? ==> e.attempts < MAX_ATTEMPTS)
    && (e.state.Sending? ==> 1 <= e.attempts <= MAX_ATTEMPTS)
    && e.attempts <= MAX_ATTEMPTS
    && (e.lease.Some? <==> e.state.Sending?)
  }

  function OpenJobs(jobs: map<Token, Job>, id: Id): set<Token> {
    set t | t in jobs && jobs[t].id == id && jobs[t].answer.None?
  }

  /** Each post belongs to a claim of its own, and each run of attempts has at most eight claims. */
  predicate TallyInv(s: Sys, id: Id) {
    var t := TallyOf(s, id);
    && t.posts + |OpenJobs(s.jobs, id)| <= t.claims
    && (id in s.events ==>
          && t.claims <= MAX_ATTEMPTS * t.replays + s.events[id].attempts
          && (s.events[id].state.Delivered? ==> t.confirmed))
    && t.claims <= MAX_ATTEMPTS * (t.replays + 1)
    && (t.confirmed ==> t.posts > 0)
  }

  ghost predicate LeaseInv(s: Sys) {
    && s.jobs.Keys <= s.used
    && (forall id :: id in s.events && s.events[id].lease.Some? ==> s.events[id].lease.value in s.used)
    && (forall t :: t in s.jobs ==> s.jobs[t].attempts <= MAX_ATTEMPTS)
    && (forall t :: t in s.jobs && s.jobs[t].answer.Some? && Success(s.jobs[t].answer.value) ==>
          TallyOf(s, s.jobs[t].id).confirmed)
    && (forall t, id :: t in s.jobs && id in s.events && s.events[id].lease == Some(t) ==>
          s.jobs[t].id == id && s.jobs[t].attempts == s.events[id].attempts)
  }

  ghost predicate Inv(s: Sys) {
    && (forall id :: id in s.events ==> EventInv(s.events[id]) && id < s.next)
    && LeaseInv(s)
    && (forall id: Id :: Accounted(s, id))
  }

  predicate Accounted(s: Sys, id: Id) {
    TallyInv(s, id) && (id >= s.next ==> TallyOf(s, id) == NO_TALLY && OpenJobs(s.jobs, id) == {})
  }

  lemma {:induction false} EmitInv(s: Sys, a: Action, now: int)
    requires a.Emit? && Inv(s) && Enabled(s, a, now)
    ensures Inv(Emitted(s, a))
  {
    var t := Emitted(s, a);
    forall id: Id ensures Accounted(t, id) { assert Accounted(s, id); }
  }

  lemma {:induction false} OpenJobsAfter(jobs: map<Token, Job>, token: Token, j: Job, id: Id)
    requires token in jobs ==> jobs[token].id == j.id
    ensures OpenJobs(jobs[token := j], id) ==
            if j.id == id && j.answer.None? then OpenJobs(jobs, id) + {token} else OpenJobs(jobs, id) - {token}
  {
  }

  lemma {:induction false} ClaimAccounted(s: Sys, a: Action, now: int, id: Id)
    requires a.Claim? && Enabled(s, a, now) && a.token !in s.jobs && Accounted(s, id)
    requires forall id :: id in s.events ==> EventInv(s.events[id]) && id < s.next
    ensures Accounted(Claimed(s, a, now), id)
  {
    ClaimJobs(s, a, now, id);
    hide OpenJobs, Claimable, LeaseInv;
    var t := Claimed(s, a, now);
    if id == a.id && a.reply.Committed() {
      var e := s.events[id];
      assert EventInv(e);
      assert t.events[id].attempts == e.attempts + 1 && t.events[id].state.Sending?;
      assert TallyOf(t, id) == TallyOf(s, id).(claims := TallyOf(s, id).claims + 1);
    } else {
      assert TallyOf(t, id) == TallyOf(s, id);
      assert id in t.events <==> id in s.events;
      assert id in t.events ==> t.events[id] == s.events[id];
    }
  }

  lemma {:induction false} ClaimJobs(s: Sys, a: Action, now: int, id: Id)
    requires a.Claim? && Enabled(s, a, now) && a.token !in s.jobs
    ensures |OpenJobs(Claimed(s, a, now).jobs, id)|
            == |OpenJobs(s.jobs, id)| + (if id == a.id && a.reply.Acked? then 1 else 0)
  {
    if a.reply.Acked? { OpenJobsAfter(s.jobs, a.token, Claimed(s, a, now).jobs[a.token], id); }
    assert OpenJobs(Claimed(s, a, now).jobs, id) ==
           OpenJobs(s.jobs, id) + (if id == a.id && a.reply.Acked? then {a.token} else {});
  }

  lemma {:induction false} ClaimLeases(s: Sys, a: Action, now: int)
    requires a.Claim? && Enabled(s, a, now) && LeaseInv(s) && EventInv(s.events[a.id])
    ensures LeaseInv(Claimed(s, a, now))
  {
    assert a.token !in s.jobs;
  }

  lemma {:induction false} ClaimEvents(s: Sys, a: Action, now: int)
    requires a.Claim? && Enabled(s, a, now)
    requires forall id :: id in s.events ==> EventInv(s.events[id]) && id < s.next
    ensures forall id :: id in Claimed(s, a, now).events ==> EventInv(Claimed(s, a, now).events[id]) && id < s.next
  {
  }

  lemma {:induction false} ClaimInv(s: Sys, a: Action, now: int)
    requires a.Claim? && Inv(s) && Enabled(s, a, now)
    ensures Inv(Claimed(s, a, now))
  {
    var t := Claimed(s, a, now);
    assert a.token !in s.jobs;
    ClaimEvents(s, a, now);
    ClaimLeases(s, a, now);
    forall id: Id ensures Accounted(t, id) {
      assert Accounted(s, id);
      ClaimAccounted(s, a, now, id);
    }
    hide LeaseInv, EventInv, Accounted;
  }

  lemma {:induction false} PostInv(s: Sys, a: Action, now: int)
    requires a.Post? && Inv(s) && Enabled(s, a, now)
    ensures Inv(Posted(s, a, now))
  {
    var t, j := Posted(s, a, now), s.jobs[a.token];
    assert a.token in OpenJobs(s.jobs, j.id);
    forall id: Id ensures Accounted(t, id) {
      assert Accounted(s, id);
      OpenJobsAfter(s.jobs, a.token, t.jobs[a.token], id);
    }
  }

  lemma {:induction false} SaveAccounted(s: Sys, a: Action, now: int, id: Id)
    requires a.Save? && Enabled(s, a, now) && LeaseInv(s) && Accounted(s, id)
    ensures Accounted(Saved(s, a, now), id)
  {
    var t := Saved(s, a, now);
    assert OpenJobs(t.jobs, id) == OpenJobs(s.jobs, id);
  }

  lemma {:induction false} SaveLeases(s: Sys, a: Action, now: int)
    requires a.Save? && Enabled(s, a, now) && LeaseInv(s)
    ensures LeaseInv(Saved(s, a, now))
  {
  }

  lemma {:induction false} SaveEvents(s: Sys, a: Action, now: int)
    requires a.Save? && Enabled(s, a, now) && LeaseInv(s)
    requires forall id :: id in s.events ==> EventInv(s.events[id]) && id < s.next
    ensures forall id :: id in Saved(s, a, now).events ==> EventInv(Saved(s, a, now).events[id]) && id < s.next
  {
  }

  lemma {:induction false} SaveInv(s: Sys, a: Action, now: int)
    requires a.Save? && Inv(s) && Enabled(s, a, now)
    ensures Inv(Saved(s, a, now))
  {
    SaveEvents(s, a, now);
    SaveLeases(s, a, now);
    var t := Saved(s, a, now);
    forall id: Id ensures Accounted(t, id) {
      assert Accounted(s, id);
      SaveAccounted(s, a, now, id);
    }
    assert t.next == s.next;
    hide LeaseInv, EventInv, Accounted;
  }

  /** Steps that only send events back, cancel or forget them. */
  lemma {:induction false} EventsInv(s: Sys, t: Sys)
    requires Inv(s) && t.jobs == s.jobs && t.used == s.used && t.next == s.next && t.tallies == s.tallies
    requires forall id :: id in t.events ==>
               id in s.events && EventInv(t.events[id]) && t.events[id].attempts == s.events[id].attempts
               && (t.events[id].lease.Some? ==> t.events[id].lease == s.events[id].lease)
               && (t.events[id].state.Delivered? ==> s.events[id].state.Delivered?)
    ensures Inv(t)
  {
    forall id: Id ensures Accounted(t, id) {
      assert Accounted(s, id);
    }
  }

  lemma {:induction false} CrashInv(s: Sys)
    requires Inv(s)
    ensures Inv(s.(jobs := map[], ready := false))
  {
    var t := s.(jobs := map[], ready := false);
    forall id: Id ensures Accounted(t, id) {
      assert Accounted(s, id);
      assert OpenJobs(t.jobs, id) == {};
    }
  }

  lemma {:induction false} ReplayInv(s: Sys, a: Action, now: int)
    requires a.Replay? && Inv(s) && Enabled(s, a, now)
    ensures Inv(Replayed(s, a, now))
  {
    var t := Replayed(s, a, now);
    forall id: Id ensures Accounted(t, id) {
      assert Accounted(s, id);
    }
  }

  lemma {:induction false} ClockInv(s: Sys, now: int)
    requires Inv(s)
    ensures Inv(s.(clock := now))
  {
    var t := s.(clock := now);
    forall id: Id ensures Accounted(t, id) { assert Accounted(s, id); }
  }

  lemma {:induction false} StepInv(s: Sys, a: Action, now: int)
    requires Inv(s) && Enabled(s, a, now)
    ensures Inv(Do(s, a, now))
  {
    hide Inv, Obsolete, Emitted, Claimed, Posted, Saved, Replayed;
    match a {
    case Emit(_, _, _) => EmitInv(s, a, now);
    case Claim(_, _, _) => ClaimInv(s, a, now);
    case Post(_, _) => PostInv(s, a, now);
    case Save(_, _, _) => SaveInv(s, a, now);
    case Crash => CrashInv(s);
    case Replay(_) => ReplayInv(s, a, now);
    case _ =>
      EventsOf(s);
      EventsInv(s, Changed(s, a, now));
    }
    ClockInv(Changed(s, a, now), now);
  }

  lemma {:induction false} EventsOf(s: Sys)
    requires Inv(s)
    ensures forall id :: id in s.events ==> EventInv(s.events[id])
  {
  }

  // ---------- What no step does ----------

  /** An event is settled only by its own delivery, by a permanent failure, or by being superseded or orphaned. */
  ghost predicate Moves(s: Sys, t: Sys, a: Action, id: Id)
    requires id in s.events && id in t.events
  {
    var e, f := s.events[id], t.events[id];
    && f.kind == e.kind && f.resource == e.resource && f.destination == e.destination && f.secret == e.secret
    && (e.state.Delivered? ==> f == e)
    && (f.state.Delivered? && !e.state.Delivered? ==> TallyOf(s, id).confirmed && e.state.Sending?)
    && (f.state.Failed? && e.state != f.state ==>
          e.state.Sending? && (e.attempts == MAX_ATTEMPTS
            || exists token :: token in s.jobs && s.jobs[token].id == id && e.lease == Some(token)
                 && s.jobs[token].answer.Some? && Permanent(s.jobs[token].answer.value)))
    && (f.state.Cancelled? && e.state != f.state ==>
          e.state.Pending? && (!Current(s.settings, e) || (e.kind.StatusChanged? && id in Obsolete(s.events))))
  }

  lemma {:induction false} SaveMoves(s: Sys, a: Action, now: int, id: Id)
    requires Inv(s) && a.Save? && Enabled(s, a, now) && id in s.events
    ensures id in Saved(s, a, now).events && Moves(s, Saved(s, a, now), a, id)
  {
    hide Obsolete, Accounted;
    EventsOf(s);
  }

  lemma {:induction false} ReturnMoves(s: Sys, t: Sys, a: Action, id: Id)
    requires id in s.events && id in t.events && EventInv(s.events[id])
    requires t.events[id] == s.events[id]
             || (s.events[id].state.Sending? && t.events[id].(nextAt := 0) == Returned(s.events[id]).(nextAt := 0))
    ensures Moves(s, t, a, id)
  {
    hide Obsolete;
  }

  lemma {:induction false} StepMoves(s: Sys, a: Action, now: int, id: Id)
    requires Inv(s) && Enabled(s, a, now) && id in s.events && id in Do(s, a, now).events
    ensures Moves(s, Do(s, a, now), a, id)
  {
    hide Obsolete, LeaseInv, Accounted, Saved;
    assert EventInv(s.events[id]) && id < s.next;
    if a.Save? { SaveMoves(s, a, now, id); }
    else if a.Recover? || a.Reclaim? { ReturnMoves(s, Do(s, a, now), a, id); }
  }

  /** Nothing unsettled disappears. */
  lemma {:induction false} OnlySettledForgotten(s: Sys, a: Action, now: int, id: Id)
    requires Enabled(s, a, now) && id in s.events && id !in Do(s, a, now).events
    ensures a.Forget? && id <= a.upTo && Settled(s.events[id])
  {
  }

  // ---------- Leases ----------

  /** The worker's claim is no longer in force: a save with this token will change no event. */
  ghost predicate Stale(s: Sys, token: Token) {
    token in s.used && forall id :: id in s.events ==> s.events[id].lease != Some(token)
  }

  lemma {:induction false} StaleSaveChangesNothing(s: Sys, a: Action, now: int)
    requires a.Save? && Enabled(s, a, now) && Stale(s, a.token)
    ensures Do(s, a, now).events == s.events
  {
  }

  /** A lease that was taken away never comes back, whatever happens. */
  lemma {:induction false} StaleStays(s: Sys, a: Action, now: int, token: Token)
    requires Inv(s) && Enabled(s, a, now) && Stale(s, token)
    ensures Stale(Do(s, a, now), token)
  {
    hide Inv, Obsolete, Verdict, Delay;
    var t := Do(s, a, now);
    forall id | id in t.events ensures t.events[id].lease != Some(token) {
      assert id in s.events ==> s.events[id].lease != Some(token);
    }
  }

  /** Reclaiming takes the lease away from every worker that is late. */
  lemma {:induction false} ReclaimMakesStale(s: Sys, now: int, token: Token)
    requires Inv(s) && Enabled(s, Reclaim, now) && token in s.jobs
    requires s.jobs[token].id in s.events ==> s.events[s.jobs[token].id].claimedAt < now - LEASE
    ensures Stale(Do(s, Reclaim, now), token)
  {
  }

  // ---------- Compaction ----------

  /** The newest pending notice with the same meaning. */
  lemma {:induction false} NewestPending(events: map<Id, Event>, id: Id, bound: Id) returns (newest: Id)
    requires id in events && events[id].state.Pending? && events[id].kind.StatusChanged?
    requires forall k :: k in events ==> k < bound
    ensures newest == id || Newer(events, id, newest)
    ensures newest in events && newest !in Obsolete(events)
    decreases bound - id
  {
    if id in Obsolete(events) {
      var next :| next in events && Newer(events, id, next);
      newest := NewestPending(events, next, bound);
    } else {
      newest := id;
    }
  }

  /**
   * Compaction cancels exactly the chosen notices: each is a pending status notice that a pending one with the same
   * meaning follows, and up to 512 of these are all chosen.
   */
  lemma {:induction false} CompactionCancels(s: Sys, chosen: set<Id>, now: int, id: Id)
    requires Enabled(s, Compact(chosen), now) && id in s.events
    ensures var e, f := s.events[id], Do(s, Compact(chosen), now).events[id];
            && f == (if id in chosen then e.(state := Cancelled, lease := None) else e)
            && (id in chosen ==> e.state.Pending? && e.kind.StatusChanged?)
            && (id in chosen ==> exists newer :: newer in s.events && Newer(s.events, id, newer))
            && (id !in chosen && e.state.Pending? && e.kind.StatusChanged? && |Obsolete(s.events)| <= 512 ==>
                  forall newer :: newer in s.events ==> !Newer(s.events, id, newer))
  {
    if |Obsolete(s.events)| <= |chosen| { SameSizeSubset(chosen, Obsolete(s.events)); }
  }

  /** Pending events of former settings are cancelled, and no others. */
  lemma {:induction false} ForeignCancelled(s: Sys, now: int, id: Id)
    requires Enabled(s, CancelForeign, now) && id in s.events
    ensures var e, f := s.events[id], Do(s, CancelForeign, now).events[id];
            var current := s.settings.webhook == Some(e.destination) && s.settings.secret == e.secret;
            f == if e.state.Pending? && !current then e.(state := Cancelled, lease := None) else e
  {
  }

  /**
   * After compaction every pending status notice still has one pending notice as new as itself, and all others are
   * untouched.
   */
  lemma {:induction false} CompactionKeepsNewest(s: Sys, chosen: set<Id>, now: int, id: Id)
    requires Inv(s) && Enabled(s, Compact(chosen), now) && id in s.events
    ensures var t := Do(s, Compact(chosen), now);
            && id in t.events
            && (!(s.events[id].kind.StatusChanged? && s.events[id].state.Pending?) ==> t.events[id] == s.events[id])
            && (s.events[id].kind.StatusChanged? && s.events[id].state.Pending? ==>
                  exists kept :: kept in t.events && (kept == id || Newer(s.events, id, kept))
                      && t.events[kept] == s.events[kept])
  {
    if s.events[id].kind.StatusChanged? && s.events[id].state.Pending? {
      var kept := NewestPending(s.events, id, s.next);
      assert kept !in chosen;
    }
  }

  // ---------- Whole runs ----------

  datatype Step = Step(a: Action, now: int)

  predicate Possible(s: Sys, run: seq<Step>)
    decreases |run|
  {
    run == [] || (Enabled(s, run[0].a, run[0].now) && Possible(Do(s, run[0].a, run[0].now), run[1..]))
  }

  function After(s: Sys, run: seq<Step>): Sys
    requires Possible(s, run)
    decreases |run|
  {
    if run == [] then s else After(Do(s, run[0].a, run[0].now), run[1..])
  }

  lemma {:induction false} RunInv(s: Sys, run: seq<Step>)
    requires Inv(s) && Possible(s, run)
    ensures Inv(After(s, run))
    decreases |run|
  {
    hide Inv, Enabled, Do;
    if run != [] {
      StepInv(s, run[0].a, run[0].now);
      RunInv(Do(s, run[0].a, run[0].now), run[1..]);
    }
  }

  predicate Init(s: Sys) { s.events == map[] && s.jobs == map[] && s.used == {} && s.tallies == map[] && !s.ready }

  /**
   * Over every run: pending events have attempts left, nothing is posted more than eight times for each replay by
   * hand, and what counts as delivered was answered with success.
   */
  lemma {:induction false} DeliveryBounded(s: Sys, run: seq<Step>, id: Id)
    requires Init(s) && Possible(s, run)
    ensures var t := After(s, run);
            && TallyOf(t, id).posts <= TallyOf(t, id).claims <= MAX_ATTEMPTS * (TallyOf(t, id).replays + 1)
            && (id in t.events ==> EventInv(t.events[id]))
            && (id in t.events && t.events[id].state.Delivered? ==>
                TallyOf(t, id).confirmed
                && TallyOf(t, id).posts > 0)
  {
    InitInv(s);
    RunInv(s, run);
    assert Accounted(After(s, run), id);
  }

  lemma {:induction false} InitInv(s: Sys)
    requires Init(s)
    ensures Inv(s)
  {
    forall id: Id ensures Accounted(s, id) { assert OpenJobs(s.jobs, id) == {}; }
  }

  /** Once delivered, an event stays as it is until it is forgotten. */
  lemma {:induction false} DeliveredIsFinal(s: Sys, run: seq<Step>, id: Id)
    requires Inv(s) && Possible(s, run) && id in s.events && s.events[id].state.Delivered?
    ensures id in After(s, run).events ==> After(s, run).events[id] == s.events[id]
    decreases |run|
  {
    hide Inv, Enabled;
    if run != [] {
      var t := Do(s, run[0].a, run[0].now);
      StepInv(s, run[0].a, run[0].now);
      BelowNext(s, id);
      if id in t.events {
        StepMoves(s, run[0].a, run[0].now, id);
        DeliveredIsFinal(t, run[1..], id);
      } else {
        GoneStays(t, run[1..], id);
      }
    }
  }

  // ---------- After a success ----------

  /** The event is delivered, or was and has been forgotten. */
  predicate Over(s: Sys, id: Id) { id < s.next && (id in s.events ==> s.events[id].state.Delivered?) }

  /** Posts that were made, and claims that may still be followed by one. */
  function Reserve(s: Sys, id: Id): nat { TallyOf(s, id).posts + |OpenJobs(s.jobs, id)| }

  lemma {:induction false} OverPost(s: Sys, a: Action, now: int, id: Id)
    requires a.Post? && Enabled(s, a, now)
    ensures TallyOf(s, id).posts <= TallyOf(Posted(s, a, now), id).posts
    ensures TallyOf(Posted(s, a, now), id).claims == TallyOf(s, id).claims
    ensures Reserve(Posted(s, a, now), id) == Reserve(s, id)
  {
    var t := Posted(s, a, now);
    OpenJobsAfter(s.jobs, a.token, t.jobs[a.token], id);
    assert s.jobs[a.token].id == id ==> a.token in OpenJobs(s.jobs, id);
    assert s.jobs[a.token].id != id ==> a.token !in OpenJobs(s.jobs, id);
  }

  lemma {:induction false} OverClaim(s: Sys, a: Action, now: int, id: Id)
    requires a.Claim? && Enabled(s, a, now) && Over(s, id) && a.token !in s.jobs
    ensures TallyOf(Claimed(s, a, now), id) == TallyOf(s, id) && Reserve(Claimed(s, a, now), id) == Reserve(s, id)
  {
    ClaimJobs(s, a, now, id);
  }

  lemma {:induction false} OverSave(s: Sys, a: Action, now: int, id: Id)
    requires a.Save? && Enabled(s, a, now)
    ensures TallyOf(Saved(s, a, now), id) == TallyOf(s, id) && Reserve(Saved(s, a, now), id) == Reserve(s, id)
  {
    hide Delay, Verdict;
    assert OpenJobs(Saved(s, a, now).jobs, id) == OpenJobs(s.jobs, id);
  }

  lemma {:induction false} OverStays(s: Sys, a: Action, now: int, id: Id)
    requires Inv(s) && Enabled(s, a, now) && Over(s, id)
    ensures Over(Do(s, a, now), id)
  {
    hide Inv, Moves, Obsolete, Saved;
    var t := Do(s, a, now);
    if id in s.events && id in t.events {
      StepMoves(s, a, now, id);
      Final(s, t, a, id);
    } else if id !in s.events {
      GoneStep(s, a, now, id);
    }
    NextGrows(s, a, now);
  }

  lemma {:induction false} Final(s: Sys, t: Sys, a: Action, id: Id)
    requires id in s.events && id in t.events && Moves(s, t, a, id) && s.events[id].state.Delivered?
    ensures t.events[id] == s.events[id]
  {
  }

  lemma {:induction false} NextGrows(s: Sys, a: Action, now: int)
    requires Enabled(s, a, now)
    ensures s.next <= Do(s, a, now).next
  {
    hide Obsolete, Verdict, Delay;
  }

  /** Of an event that is over nothing is claimed any more, and a post takes up a claim made before. */
  lemma {:induction false} OverStep(s: Sys, a: Action, now: int, id: Id)
    requires Inv(s) && Enabled(s, a, now) && Over(s, id)
    ensures var t := Do(s, a, now);
            && Over(t, id) && TallyOf(t, id).claims == TallyOf(s, id).claims
            && TallyOf(s, id).posts <= TallyOf(t, id).posts && Reserve(t, id) <= Reserve(s, id)
  {
    OverStays(s, a, now, id);
    assert s.jobs.Keys <= s.used;
    hide Inv, Obsolete, Claimed, Posted, Saved, Over;
    match a {
    case Claim(_, _, _) => OverClaim(s, a, now, id);
    case Post(_, _) => OverPost(s, a, now, id);
    case Save(_, _, _) => OverSave(s, a, now, id);
    case Crash => assert OpenJobs(map[], id) == {};
    case Replay(_) => OverReplay(s, a, now, id);
    case _ =>
    }
  }

  lemma {:induction false} OverReplay(s: Sys, a: Action, now: int, id: Id)
    requires a.Replay? && Enabled(s, a, now) && Over(s, id)
    ensures a.id != id && TallyOf(Replayed(s, a, now), id) == TallyOf(s, id) && Replayed(s, a, now).jobs == s.jobs
  {
  }

  lemma {:induction false} OverRun(s: Sys, run: seq<Step>, id: Id)
    requires Inv(s) && Possible(s, run) && Over(s, id)
    ensures var u := After(s, run);
            && Over(u, id) && TallyOf(u, id).claims == TallyOf(s, id).claims
            && TallyOf(s, id).posts <= TallyOf(u, id).posts && Reserve(u, id) <= Reserve(s, id)
    decreases |run|
  {
    hide Inv, Enabled, Do, Over, Reserve, TallyOf;
    if run != [] {
      OverStep(s, run[0].a, run[0].now, id);
      StepInv(s, run[0].a, run[0].now);
      OverRun(Do(s, run[0].a, run[0].now), run[1..], id);
    }
  }

  /**
   * A worker that still holds its lease saves an answer of 200 to 299. From then on, in every run, the event is
   * delivered as long as it exists and is never claimed again; posts can follow only from claims that are open now.
   */
  lemma {:induction false} SuccessSettles(s: Sys, a: Action, now: int, run: seq<Step>)
    requires Inv(s) && a.Save? && Enabled(s, a, now) && a.reply.Committed() && Holds(s, a.token)
    requires 200 <= s.jobs[a.token].answer.value < 300 && Possible(Do(s, a, now), run)
    ensures var id, t := s.jobs[a.token].id, Do(s, a, now);
            var u := After(t, run);
            && id in t.events && t.events[id].state.Delivered?
            && (id in u.events ==> u.events[id] == t.events[id])
            && TallyOf(u, id).claims == TallyOf(s, id).claims
            && TallyOf(u, id).posts <= TallyOf(s, id).posts + |OpenJobs(s.jobs, id)|
  {
    var id, t := s.jobs[a.token].id, Do(s, a, now);
    BelowNext(s, id);
    StepInv(s, a, now);
    OverSave(s, a, now, id);
    assert t.events[id].state.Delivered?;
    hide Inv, Enabled, Do;
    DeliveredIsFinal(t, run, id);
    OverRun(t, run, id);
  }

  /** It is posted never again, whatever happens, if and only if no other worker has claimed it and not yet posted. */
  lemma {:induction false} NoMorePosts(s: Sys, id: Id)
    requires Inv(s) && Over(s, id)
    ensures OpenJobs(s.jobs, id) == {} <==>
            forall run :: Possible(s, run) ==> TallyOf(After(s, run), id).posts == TallyOf(s, id).posts
  {
    if token :| token in OpenJobs(s.jobs, id) {
      var run := [Step(Post(token, 200), s.clock)];
      assert Possible(Do(s, run[0].a, run[0].now), run[1..]);
      assert After(s, run) == Do(s, run[0].a, run[0].now);
      assert Possible(s, run) && TallyOf(After(s, run), id).posts == TallyOf(s, id).posts + 1;
    } else {
      assert OpenJobs(s.jobs, id) == {};
      forall run | Possible(s, run) ensures TallyOf(After(s, run), id).posts == TallyOf(s, id).posts {
        OverRun(s, run, id);
      }
    }
  }

  lemma {:induction false} BelowNext(s: Sys, id: Id)
    requires Inv(s) && id in s.events
    ensures id < s.next
  {
  }

  /** Ids are not reused. */
  lemma {:induction false} GoneStep(s: Sys, a: Action, now: int, id: Id)
    requires Enabled(s, a, now) && id !in s.events && id < s.next
    ensures id !in Do(s, a, now).events && id < Do(s, a, now).next
  {
    hide Obsolete, Verdict, Delay, Returned;
  }

  lemma {:induction false} GoneStays(s: Sys, run: seq<Step>, id: Id)
    requires Possible(s, run) && id !in s.events && id < s.next
    ensures id !in After(s, run).events
    decreases |run|
  {
    hide Enabled, Do;
    if run != [] {
      GoneStep(s, run[0].a, run[0].now, id);
      GoneStays(Do(s, run[0].a, run[0].now), run[1..], id);
    }
  }

  /** A worker that lost its lease can never change an event again. */
  lemma {:induction false} StaleForever(s: Sys, run: seq<Step>, token: Token)
    requires Inv(s) && Possible(s, run) && Stale(s, token)
    ensures Stale(After(s, run), token)
    decreases |run|
  {
    hide Inv, Stale, Enabled;
    if run != [] {
      StepInv(s, run[0].a, run[0].now);
      StaleStays(s, run[0].a, run[0].now, token);
      StaleForever(Do(s, run[0].a, run[0].now), run[1..], token);
    }
  }

  // ---------- The retention of events ----------

  /** A row as the cleanup reads it, in the order of its id. */
  datatype Row = Row(id: Id, expired: bool, state: State)

  predicate Removable(r: Row) { r.expired && !r.state.Pending? && !r.state.Sending? }

  /**
   * The last of the leading rows that can go. Everything up to it is settled and out of date, and the row behind it,
   * if there is one, is neither skipped nor removed.
   */
  method CleanPrefix(rows: seq<Row>, floor: Id) returns (upTo: Id)
    requires forall i, j :: 0 <= i < j < |rows| ==> rows[i].id < rows[j].id
    requires forall i :: 0 <= i < |rows| ==> rows[i].id > floor
    ensures upTo >= floor
    ensures forall i :: 0 <= i < |rows| && rows[i].id <= upTo ==> Removable(rows[i])
    ensures upTo == floor || exists i :: 0 <= i < |rows| && rows[i].id == upTo
    ensures forall i :: 0 <= i < |rows| && (forall j :: 0 <= j <= i ==> Removable(rows[j])) ==> rows[i].id <= upTo
  {
    upTo := floor;
    for i := 0 to |rows|
      invariant upTo == if i == 0 then floor else rows[i - 1].id
      invariant forall j :: 0 <= j < i ==> Removable(rows[j])
    {
      if !rows[i].expired || rows[i].state.Pending? || rows[i].state.Sending? {
        assert !Removable(rows[i]);
        return;
      }
      upTo := rows[i].id;
    }
  }

  lemma {:induction false} Extend(s: Sys, run: seq<Step>, a: Action, now: int)
    requires Possible(s, run) && Enabled(After(s, run), a, now)
    ensures Possible(s, run + [Step(a, now)]) && After(s, run + [Step(a, now)]) == Do(After(s, run), a, now)
    decreases |run|
  {
    if run != [] {
      Extend(Do(s, run[0].a, run[0].now), run[1..], a, now);
      assert (run + [Step(a, now)])[1..] == run[1..] + [Step(a, now)];
    } else {
      assert Possible(Do(s, a, now), [Step(a, now)][1..]);
    }
  }

  /** A delivery that was broken off: its attempt counts, and the eighth was the last. */
  predicate SentBack(was: Event, e: Event) {
    && e == was.(state := e.state, lease := None, nextAt := e.nextAt)
    && e.state == if was.attempts >= 8 then Failed else Pending
  }

  /** Where an answer leads: delivered, given up, or tried again. */
  predicate Told(state: State, status: nat, attempts: nat) {
    && (state.Delivered? <==> 200 <= status < 300)
    && (state.Failed? <==>
        !state.Delivered?
            && (attempts >= 8 || (300 <= status < 500 && status != 408 && status != 425 && status != 429)))
    && (state.Pending? <==> !state.Delivered? && !state.Failed?)
  }

  /** The event as a worker takes it, and as it leaves it. */
  function Taken(e: Event, token: Token, now: int): Event {
    e.(state := Sending, attempts := e.attempts + 1, lease := Some(token), claimedAt := now)
  }

  function Answered(e: Event, attempts: nat, status: nat, retryAfter: int, now: int): Event
    requires attempts >= 1
  {
    e.(state := Verdict(status, attempts), lease := None, nextAt := now + Delay(attempts, retryAfter))
  }

  /**
   * The table as the statements change it; every statement, post and death of the process is one step of the machine.
   */
  class Outbox {
    var events: map<Id, Event>
    var settings: Settings
    var next: Id
    ghost const start: Sys
    ghost var sys: Sys
    ghost var run: seq<Step>

    ghost predicate Linked() reads this`sys, this`run {
      Init(start) && Possible(start, run) && After(start, run) == sys
    }

    ghost predicate Valid() reads this {
      Linked() && events == sys.events && settings == sys.settings && next == sys.next
    }

    /** What the methods change besides the table: the run goes on, and time. */
    ghost predicate Onward(was: Sys, before: seq<Step>, now: int) reads this {
      Valid() && before <= run && sys.clock == now && sys.settings == was.settings && sys.next == was.next
    }

    constructor (settings: Settings, now: int)
      ensures Valid() && events == map[] && this.settings == settings && sys.clock == now && !sys.ready
              && sys.used == {}
    {
      this.events, this.settings, next := map[], settings, 0;
      start := Sys(map[], settings, map[], {}, false, now, 0, 0, map[]);
      sys, run := Sys(map[], settings, map[], {}, false, now, 0, 0, map[]), [];
    }

    ghost method Take(a: Action, now: int)
      requires Linked() && Enabled(sys, a, now)
      modifies this`sys, this`run
      ensures Linked() && sys == Do(old(sys), a, now) && run == old(run) + [Step(a, now)]
    {
      Extend(start, run, a, now);
      run, sys := run + [Step(a, now)], Do(sys, a, now);
    }

    /** A new event, for the settings of the moment. */
    method Emit(kind: Kind, resource: string, now: int) returns (id: Id)
      requires Valid() && sys.clock <= now
      modifies this
      ensures Valid() && old(run) <= run && settings == old(settings)
      ensures sys.ready == old(sys).ready && sys.used == old(sys).used && sys.clock == now
      ensures id == old(next) && next == id + 1
      ensures var active := settings.webhook.Some? && settings.secret != "";
              events == old(events)[id :=
                Event(kind, resource, if settings.webhook.Some? then settings.webhook.value else "", settings.secret,
                      if active then Pending else Disabled, 0, None, now, now, now)]
    {
      hide Linked;
      Take(Action.Emit(kind, resource, now), now);
      id := next;
      var to := if settings.webhook.Some? then settings.webhook.value else "";
      var state := if settings.webhook.Some? && settings.secret != "" then Pending else Disabled;
      events := events[id := Event(kind, resource, to, settings.secret, state, 0, None, now, now, now)];
      next := next + 1;
    }

    method Configure(settings: Settings, now: int)
      requires Valid() && sys.clock <= now
      modifies this
      ensures Valid() && old(run) <= run && events == old(events) && this.settings == settings
    {
      hide Linked;
      Take(Action.Configure(settings), now);
      this.settings := settings;
    }

    /** The process dies and starts again; its first statement sends back what was being sent. */
    method Restart(now: int)
      requires Valid() && sys.clock <= now
      modifies this
      ensures Onward(old(sys), old(run), now) && sys.ready && sys.jobs == map[] && sys.used == old(sys).used
      ensures events == RecoverEvents(old(events))
      ensures forall id :: id in old(events) ==>
                id in events
                && if old(events)[id].state.Sending? then SentBack(old(events)[id], events[id])
                   else events[id] == old(events)[id]
    {
      hide Linked;
      Take(Crash, now);
      Take(Recover, now);
      events := RecoverTable(events);
    }

    static method RecoverTable(events: map<Id, Event>) returns (after: map<Id, Event>)
      ensures after == RecoverEvents(events)
    {
      after := events;
      var todo := events.Keys;
      while todo != {}
        invariant todo <= after.Keys == events.Keys
        invariant forall id :: id in todo ==> after[id] == events[id]
        invariant forall id :: id in events && id !in todo ==> after[id] == RecoverEvents(events)[id]
      {
        var id :| id in todo;
        todo := todo - {id};
        if events[id].state.Sending? { after := after[id := Returned(events[id])]; }
      }
    }

    /** Events whose lease has run out go back. */
    method Reclaim(now: int)
      requires Valid() && sys.ready && sys.clock <= now
      modifies this
      ensures Onward(old(sys), old(run), now) && sys.ready && sys.jobs == old(sys).jobs && sys.used == old(sys).used
      ensures events == Reclaimed(old(events), now)
      ensures forall id :: id in old(events) ==>
                id in events
                && if old(events)[id].state.Sending? && now - old(events)[id].claimedAt > 30
                   then SentBack(old(events)[id], events[id]) && events[id].nextAt == now
                   else events[id] == old(events)[id]
    {
      hide Linked;
      Take(Action.Reclaim, now);
      events := ReclaimTable(events, now);
    }

    static method ReclaimTable(events: map<Id, Event>, now: int) returns (after: map<Id, Event>)
      ensures after == Reclaimed(events, now)
    {
      after := events;
      var todo := events.Keys;
      while todo != {}
        invariant todo <= after.Keys == events.Keys
        invariant forall id :: id in todo ==> after[id] == events[id]
        invariant forall id :: id in events && id !in todo ==> after[id] == Reclaimed(events, now)[id]
      {
        var id :| id in todo;
        todo := todo - {id};
        var e := events[id];
        if e.state.Sending? && e.claimedAt < now - LEASE { after := after[id := Returned(e).(nextAt := now)]; }
      }
    }

    predicate Due(id: Id, now: int) reads this {
      id in events && events[id].state.Pending? && events[id].nextAt <= now && Current(settings, events[id])
    }

    /** One guarded statement; if its reply is lost the worker stops, whether or not it has the lease. */
    method Claim(id: Id, token: Token, now: int, reply: Reply) returns (claimed: Option<Event>)
      requires Valid() && sys.ready && sys.clock <= now && token !in sys.used
      modifies this
      ensures Valid() && old(run) <= run && settings == old(settings) && next == old(next) && sys.ready
      ensures old(sys).clock <= sys.clock <= now
      ensures claimed.Some? <==> old(Due(id, now)) && reply.Acked?
      ensures events == if old(Due(id, now))
              && reply.Committed() then old(events)[id := Taken(old(events)[id], token, now)]
                        else old(events)
      ensures claimed.Some? ==>
                claimed.value == events[id] && token in sys.jobs
                    && sys.jobs[token] == Job(id, claimed.value.attempts, None)
    {
      hide Linked;
      if !Due(id, now) { return None; }
      Take(Action.Claim(id, token, reply), now);
      if reply.Committed() { events := events[id := Taken(events[id], token, now)]; }
      claimed := if reply.Acked? then Some(events[id]) else None;
    }

    /** The post, of which only the answer is left. */
    ghost method Post(token: Token, status: nat, now: int)
      requires Valid() && token in sys.jobs && sys.jobs[token].answer.None? && sys.clock <= now
      modifies this`sys, this`run
      ensures Onward(old(sys), old(run), now) && sys.ready == old(sys).ready
      ensures sys.jobs == old(sys).jobs[token := old(sys).jobs[token].(answer := Some(status))]
    {
      hide Linked;
      Take(Action.Post(token, status), now);
    }

    static method Settle(attempts: nat, status: nat, retryAfter: int) returns (state: State, delay: int)
      requires attempts >= 1
      ensures state == Verdict(status, attempts) && delay == Delay(attempts, retryAfter)
    {
      state, delay := Pending, Max(DELAYS[Min(attempts - 1, |DELAYS| - 1)], retryAfter);
      if status >= 200 && status < 300 {
        state := Delivered;
      } else if attempts >= MAX_ATTEMPTS
                || (status >= 300 && status < 500 && status != 408 && status != 425 && status != 429) {
        state := Failed;
      }
    }

    predicate Leased(id: Id, token: Token) reads this {
      id in events && events[id].state.Sending? && events[id].lease == Some(token)
    }

    /** The save changes the event only while the lease is the worker's own. */
    method Save(id: Id, token: Token, attempts: nat, status: nat, retryAfter: int, now: int, reply: Reply)
      requires Valid() && sys.clock <= now && attempts >= 1 && 0 <= retryAfter <= 12 * HOUR
      requires token in sys.jobs && sys.jobs[token] == Job(id, attempts, Some(status))
      modifies this
      ensures Onward(old(sys), old(run), now) && sys.ready == old(sys).ready
      ensures events == if old(Leased(id, token)) && reply.Committed()
                        then old(events)[id := Answered(old(events)[id], attempts, status, retryAfter, now)]
                        else old(events)
      ensures old(Leased(id, token)) && reply.Committed() ==>
                id in events && events[id].lease.None? && Told(events[id].state, status, attempts)
    {
      hide Linked, Delay, Verdict;
      Take(Action.Save(token, retryAfter, reply), now);
      var state, delay := Settle(attempts, status, retryAfter);
      if reply.Committed() && Leased(id, token) {
        events := events[id := events[id].(state := state, lease := None, nextAt := now + delay)];
      }
    }

    /**
     * deliverWebhook with nothing else in between: claim, post, save. Without a due event nothing is posted; with a
     * lost
     * reply the event keeps its lease, which the reclaim ends.
     */
    method Deliver(id: Id, token: Token, status: nat, retryAfter: int, now: int, later: int, claim: Reply, save: Reply)
      returns (posted: bool)
      requires Valid() && sys.ready && sys.clock <= now <= later && token !in sys.used && 0 <= retryAfter <= 12 * HOUR
      modifies this
      ensures Valid() && old(run) <= run && settings == old(settings)
      ensures posted <==> old(Due(id, now)) && claim.Acked?
      ensures !old(Due(id, now)) || claim.LostDropped? ==> events == old(events)
      ensures old(Due(id, now)) && (claim.LostCommitted? || (claim.Acked? && save.LostDropped?)) ==>
                events == old(events)[id := Taken(old(events)[id], token, now)]
      ensures posted && save.Committed() ==>
                events == old(events)[id :=
                  Answered(Taken(old(events)[id], token, now), old(events)[id].attempts + 1, status, retryAfter, later)]
      ensures posted && save.Committed() ==>
                events == old(events)[id := events[id]] && events[id].attempts == old(events)[id].attempts + 1
                && Told(events[id].state, status, events[id].attempts)
                && later + 5 <= events[id].nextAt <= later + 12 * HOUR && later + retryAfter <= events[id].nextAt
    {
      hide Linked, Do, Enabled;
      var claimed := Claim(id, token, now, claim);
      if claimed.None? { return false; }
      Post(token, status, later);
      Save(id, token, claimed.value.attempts, status, retryAfter, later, save);
      posted := true;
    }

    /** However these methods were used, and whenever the process died. */
    lemma {:induction false} OutboxBounded(id: Id)
      requires Valid()
      ensures TallyOf(sys, id).posts <= TallyOf(sys, id).claims <= MAX_ATTEMPTS * (TallyOf(sys, id).replays + 1)
      ensures id in events ==> EventInv(events[id])
      ensures id in events && events[id].state.Delivered? ==> TallyOf(sys, id).confirmed && TallyOf(sys, id).posts > 0
    {
      DeliveryBounded(start, run, id);
    }
  }
}
