/**
 * Request ids: a message is inserted once for an id, repeats are answered from the row or from the guard that the
 * cleanup leaves when it removes the row, and the rate and queue limits hold over every run.
 */
module Requests {
  import opened Common

  type Id = nat
  type Hash = string
  type Module = nat

  const RATE := 10
  const QUEUE := 100
  const TOTAL := 2000
  const BATCH := 256

  /** A message of ours; `waiting` while it is queued, waiting for the network or sending. */
  datatype Row = Row(hash: Hash, line: Module, created: int, waiting: bool, deleted: Option<int>)

  datatype Guard = Guard(hash: Hash, expires: int)

  /** Every insertion that was committed, in order. */
  datatype Entry = Entry(id: Id, hash: Hash, line: Module, at: int)

  /** `back` are the rows that a replay put back into the queue after they had left it. */
  datatype Store = Store(rows: map<Id, Row>, guards: map<Id, Guard>, clock: int, log: seq<Entry>, back: set<Id>)

  function Empty(clock: int): Store { Store(map[], map[], clock, [], {}) }

  datatype Answer = Inserted | Repeated | Conflict | Expired | Refused | RateLimit | QueueFull | DatabaseError

  // ---------- Steps ----------

  /** previousMessage: what is known about the id, if anything. */
  function Previous(s: Store, id: Id, hash: Hash, now: int): Option<Answer> {
    if id in s.rows then Some(if s.rows[id].hash == hash then Repeated else Conflict)
    else if id in s.guards
        && s.guards[id].expires > now then Some(if s.guards[id].hash == hash then Expired else Conflict)
    else None
  }

  function RecentRows(rows: map<Id, Row>, line: Module, now: int): set<Id> {
    set id | id in rows && rows[id].line == line && rows[id].created > now - MINUTE
  }

  function WaitingRows(rows: map<Id, Row>): set<Id> {
    set id | id in rows && rows[id].waiting && rows[id].deleted.None?
  }

  function WaitingOn(rows: map<Id, Row>, line: Module): set<Id> {
    set id | id in WaitingRows(rows) && rows[id].line == line
  }

  /** The enqueue transaction; `ready` covers the input, device, card and revision checks. */
  function Decide(s: Store, id: Id, hash: Hash, line: Module, ready: bool, now: int): Answer {
    var known := Previous(s, id, hash, now);
    if known.Some? then known.value
    else if !ready then Refused
    else if |RecentRows(s.rows, line, now)| >= RATE then RateLimit
    else if |WaitingOn(s.rows, line)| >= QUEUE || |WaitingRows(s.rows)| >= TOTAL then QueueFull
    else Inserted
  }

  /** Fewer than ten messages of the line in the last minute, a hundred waiting on it, and two thousand in all. */
  predicate Room(rows: map<Id, Row>, line: Module, now: int) { Paced(rows, line, now) && Queueable(rows, line) }

  predicate Paced(rows: map<Id, Row>, line: Module, now: int) {
    |set id | id in rows && rows[id].line == line && now - rows[id].created < 60| < 10
  }

  predicate Queueable(rows: map<Id, Row>, line: Module) {
    && |set id | id in rows && rows[id].line == line && rows[id].waiting && rows[id].deleted.None?| < 100
    && |set id | id in rows && rows[id].waiting && rows[id].deleted.None?| < 2000
  }

  /** Nothing is known about the id: no message has it, and no guard that still holds. */
  predicate Unknown(s: Store, id: Id, now: int) {
    id !in s.rows && (id in s.guards ==> s.guards[id].expires <= now)
  }

  /** A request inserts exactly if its id is new, it is in order and there is room; every other answer has its cause. */
  lemma {:induction false} DecideExactly(s: Store, id: Id, hash: Hash, line: Module, ready: bool, now: int)
    ensures var answer, fresh_ := Decide(s, id, hash, line, ready, now), Unknown(s, id, now);
            && (answer.Inserted? <==> fresh_ && ready && Room(s.rows, line, now))
            && (answer.RateLimit? <==> fresh_ && ready && !Paced(s.rows, line, now))
            && (answer.QueueFull? <==> fresh_ && ready && Paced(s.rows, line, now) && !Queueable(s.rows, line))
            && (answer.Refused? <==> fresh_ && !ready)
            && (answer.Repeated? <==> id in s.rows && s.rows[id].hash == hash)
            && (answer.Expired? <==> id !in s.rows && !fresh_ && s.guards[id].hash == hash)
            && (answer.Conflict? <==>
                  if id in s.rows then s.rows[id].hash != hash else !fresh_ && s.guards[id].hash != hash)
  {
    assert RecentRows(s.rows, line, now)
        == set k | k in s.rows && s.rows[k].line == line && now - s.rows[k].created < 60;
    assert WaitingRows(s.rows) == set k | k in s.rows && s.rows[k].waiting && s.rows[k].deleted.None?;
    assert WaitingOn(s.rows, line)
        == set k | k in s.rows && s.rows[k].line == line && s.rows[k].waiting && s.rows[k].deleted.None?;
  }

  function Enqueue(s: Store, id: Id, hash: Hash, line: Module, ready: bool, now: int, reply: Reply): Store {
    if Decide(s, id, hash, line, ready, now).Inserted? && reply.Committed() then
      s.(rows := s.rows[id := Row(hash, line, now, true, None)], log := s.log + [Entry(id, hash, line, now)],
        clock := now, back := s.back - {id})
    else s.(clock := now)
  }

  function ExpiredGuards(guards: map<Id, Guard>, now: int): set<Id> {
    set id | id in guards && guards[id].expires < now
  }

  /** DELETE ... ORDER BY expires_at LIMIT 256. */
  predicate EarliestExpired(guards: map<Id, Guard>, now: int, chosen: set<Id>) {
    && chosen <= ExpiredGuards(guards, now) && |chosen| <= BATCH
    && (|chosen| < BATCH ==> chosen == ExpiredGuards(guards, now))
    && (forall a, b :: a in chosen && b in ExpiredGuards(guards, now) && b !in chosen ==>
        guards[a].expires <= guards[b].expires)
  }

  predicate Purgeable(rows: map<Id, Row>, now: int, ids: set<Id>) {
    |ids| <= BATCH && forall id :: id in ids ==>
      id in rows && !rows[id].waiting && rows[id].deleted.Some? && rows[id].deleted.value < now - WEEK
  }

  /** INSERT ... ON CONFLICT DO NOTHING: a guard that is still there stays, expired or not. */
  function AddGuards(guards: map<Id, Guard>, rows: map<Id, Row>, ids: set<Id>, now: int): map<Id, Guard>
    requires ids <= rows.Keys
  {
    map id | id in guards.Keys + ids :: if id in guards then guards[id] else Guard(rows[id].hash, now + WEEK)
  }

  datatype Action =
    | DoEnqueue(id: Id, hash: Hash, line: Module, ready: bool, reply: Reply)
    | Settle(id: Id)                         // leaves the queue
    | Requeue(id: Id)                        // an interrupted message is put back by the replay of its outcome
    | Delete(id: Id)
    | Clean(chosen: set<Id>, purged: set<Id>, committed: bool)

  predicate Enabled(s: Store, a: Action, now: int) {
    s.clock <= now &&
    match a
    case DoEnqueue(_, _, _, _, _) => true
    case Settle(id) => id in s.rows
    case Requeue(id) => id in s.rows && s.rows[id].deleted.None?
    case Delete(id) => id in s.rows && s.rows[id].deleted.None?
    case Clean(chosen, purged, _) => EarliestExpired(s.guards, now, chosen) && Purgeable(s.rows, now, purged)
  }

  function Cleaned(s: Store, chosen: set<Id>, purged: set<Id>, committed: bool, now: int): Store
    requires purged <= s.rows.Keys
  {
    if committed then
      s.(guards := AddGuards(s.guards - chosen, s.rows, purged, now), rows := s.rows - purged, clock := now)
    else s.(clock := now)
  }

  function Do(s: Store, a: Action, now: int): Store
    requires Enabled(s, a, now)
  {
    match a
    case DoEnqueue(id, hash, line, ready, reply) => Enqueue(s, id, hash, line, ready, now, reply)
    case Settle(id) => s.(rows := s.rows[id := s.rows[id].(waiting := false)], clock := now)
    case Requeue(id) => s.(rows := s.rows[id := s.rows[id].(waiting := true)], clock := now, back := s.back + {id})
    case Delete(id) => s.(rows := s.rows[id := s.rows[id].(deleted := Some(now))], clock := now)
    case Clean(chosen, purged, committed) => Cleaned(s, chosen, purged, committed, now)
  }

  // ---------- The guard left by a purge ----------

  /** The cleanup purges the message of an id while a guard from an earlier life of the id stays. */
  predicate StalePurge(s: Store, a: Action, id: Id) {
    a.Clean? && a.committed && id in a.purged && id in s.guards - a.chosen
  }

  /** No guard from an earlier life of a purged id outlives the cleanup's own deletion. */
  predicate GuardsFresh(s: Store, a: Action) {
    a.Clean? && a.committed ==> forall id :: id in a.purged ==> id !in s.guards - a.chosen
  }

  /** The id is refused for a week more. */
  predicate Live(s: Store, id: Id, hash: Hash, until: int) {
    id in s.guards && s.guards[id].hash == hash && s.guards[id].expires >= until
  }

  // ---------- The inductive invariant ----------

  predicate HasRow(s: Store, e: Entry) {
    e.id in s.rows && s.rows[e.id].hash == e.hash && s.rows[e.id].created == e.at && s.rows[e.id].line == e.line
  }

  /** An insertion less than two weeks old is still answered for, by its row or by its guard. */
  predicate Held(s: Store, e: Entry) {
    HasRow(s, e) || (e.id !in s.rows && Live(s, e.id, e.hash, e.at + 2 * WEEK))
  }

  /** The insertions of id from place `from` of the log on are answered for. */
  ghost predicate IdHeld(s: Store, id: Id, from: nat) {
    forall i :: from <= i < |s.log| && s.log[i].id == id && s.clock < s.log[i].at + 2 * WEEK ==> Held(s, s.log[i])
  }

  /** Insertions of the last week have their rows. */
  ghost predicate LogInv(s: Store) {
    && (forall i :: 0 <= i < |s.log| ==> s.log[i].at <= s.clock)
    && (forall i :: 0 <= i < |s.log| && s.clock < s.log[i].at + WEEK ==> HasRow(s, s.log[i]))
  }

  ghost predicate RowsInv(s: Store) {
    && (forall id :: id in s.rows ==> s.rows[id].created <= s.clock)
    && (forall id :: id in s.rows && s.rows[id].deleted.Some? ==> s.rows[id].created <= s.rows[id].deleted.value)
    && (forall id :: id in s.rows && id in s.guards ==> s.guards[id].expires <= s.rows[id].created)
  }

  ghost predicate Limits(s: Store) {
    && (forall line: Module :: |RecentRows(s.rows, line, s.clock)| <= RATE)
    && (forall line: Module :: |WaitingOn(s.rows, line) - s.back| <= QUEUE)
    && |WaitingRows(s.rows) - s.back| <= TOTAL
  }

  /** What every step keeps. */
  ghost predicate Base(s: Store) { RowsInv(s) && LogInv(s) && Limits(s) }

  /** What every step keeps that leaves no stale guard. */
  ghost predicate Inv(s: Store) { Base(s) && forall id: Id :: IdHeld(s, id, 0) }

  lemma {:induction false} Fewer(a: set<Id>, b: set<Id>)
    requires a <= b
    ensures |a| <= |b|
  {
    assert b == a + (b - a);
  }

  /** No step but an insertion adds a row to any of the counts. */
  lemma {:induction false} LimitsStay(s: Store, t: Store)
    requires Limits(s) && s.clock <= t.clock && t.rows.Keys <= s.rows.Keys && s.back <= t.back
    requires forall id :: id in t.rows ==>
             t.rows[id].line == s.rows[id].line
             && t.rows[id].created == s.rows[id].created
    requires forall id :: id in t.rows && t.rows[id].waiting && t.rows[id].deleted.None? && id !in t.back ==>
               s.rows[id].waiting && s.rows[id].deleted.None?
    ensures Limits(t)
  {
    forall line: Module
      ensures |RecentRows(t.rows, line, t.clock)| <= RATE && |WaitingOn(t.rows, line) - t.back| <= QUEUE
    {
      Fewer(RecentRows(t.rows, line, t.clock), RecentRows(s.rows, line, s.clock));
      Fewer(WaitingOn(t.rows, line) - t.back, WaitingOn(s.rows, line) - s.back);
    }
    Fewer(WaitingRows(t.rows) - t.back, WaitingRows(s.rows) - s.back);
  }

  lemma {:induction false} InsertRecent(s: Store, id: Id, r: Row, now: int, line: Module)
    requires Limits(s) && s.clock <= now && id !in s.rows && r.created == now
    requires r.line == line ==> |RecentRows(s.rows, line, now)| < RATE
    ensures |RecentRows(s.rows[id := r], line, now)| <= RATE
  {
    if r.line == line {
      assert RecentRows(s.rows[id := r], line, now) == RecentRows(s.rows, line, now) + {id};
    } else {
      Fewer(RecentRows(s.rows[id := r], line, now), RecentRows(s.rows, line, s.clock));
    }
  }

  lemma {:induction false} InsertWaiting(rows: map<Id, Row>, id: Id, r: Row)
    requires id !in rows && r.waiting && r.deleted.None?
    ensures WaitingRows(rows[id := r]) == WaitingRows(rows) + {id} && id !in WaitingRows(rows)
  {
  }

  /** One more in the queue of its module, apart from what was put back. */
  lemma {:induction false} InsertWaitingOn(rows: map<Id, Row>, id: Id, r: Row, back: set<Id>, line: Module)
    requires id !in rows && r.waiting && r.deleted.None?
    requires |WaitingOn(rows, line) - back| <= QUEUE && (r.line == line ==> |WaitingOn(rows, line)| < QUEUE)
    ensures |WaitingOn(rows[id := r], line) - (back - {id})| <= QUEUE
  {
    InsertWaiting(rows, id, r);
    var were := WaitingOn(rows, line);
    var more := WaitingOn(rows[id := r], line);
    assert more == if r.line == line then were + {id} else were;
    hide WaitingOn, WaitingRows;
    Fewer(more - (back - {id}), if r.line == line then were + {id} else were - back);
  }

  lemma {:induction false} InsertLimits(s: Store, id: Id, hash: Hash, line: Module, now: int, t: Store)
    requires Limits(s) && s.clock <= now && id !in s.rows && t.clock == now && t.back == s.back - {id}
    requires t.rows == s.rows[id := Row(hash, line, now, true, None)]
    requires |RecentRows(s.rows, line, now)| < RATE && |WaitingOn(s.rows, line)| < QUEUE
             && |WaitingRows(s.rows)| < TOTAL
    ensures Limits(t)
  {
    var r := Row(hash, line, now, true, None);
    forall l: Module ensures |RecentRows(t.rows, l, now)| <= RATE && |WaitingOn(t.rows, l) - t.back| <= QUEUE {
      InsertRecent(s, id, r, now, l);
      InsertWaitingOn(s.rows, id, r, s.back, l);
    }
    InsertWaiting(s.rows, id, r);
    Fewer(WaitingRows(t.rows) - t.back, WaitingRows(s.rows) + {id});
  }

  /** Whatever was purged before, no id is inserted twice in a week. */
  lemma {:induction false} InsertedIsNew(s: Store, id: Id, hash: Hash, line: Module, ready: bool, now: int)
    requires Base(s) && s.clock <= now && Decide(s, id, hash, line, ready, now).Inserted?
    ensures id !in s.rows
    ensures forall i :: 0 <= i < |s.log| && s.log[i].id == id ==> now >= s.log[i].at + WEEK
  {
    forall i | 0 <= i < |s.log| && s.log[i].id == id ensures now >= s.log[i].at + WEEK {
      assert s.clock < s.log[i].at + WEEK ==> HasRow(s, s.log[i]);
    }
  }

  /** Insertions that are answered for are two weeks old when the id is inserted again. */
  lemma {:induction false} HeldIsOld(s: Store, id: Id, hash: Hash, line: Module, ready: bool, now: int, from: nat)
    requires IdHeld(s, id, from) && s.clock <= now && Decide(s, id, hash, line, ready, now).Inserted?
    ensures forall i :: from <= i < |s.log| && s.log[i].id == id ==> now >= s.log[i].at + 2 * WEEK
  {
    forall i | from <= i < |s.log| && s.log[i].id == id ensures now >= s.log[i].at + 2 * WEEK {
      assert s.clock < s.log[i].at + 2 * WEEK ==> Held(s, s.log[i]);
    }
  }

  predicate Inserts(s: Store, a: Action, now: int) {
    a.DoEnqueue? && Decide(s, a.id, a.hash, a.line, a.ready, now).Inserted? && a.reply.Committed()
  }

  lemma {:induction false} StepRows(s: Store, a: Action, now: int)
    requires RowsInv(s) && Enabled(s, a, now)
    ensures RowsInv(Do(s, a, now))
  {
    hide EarliestExpired, RecentRows, WaitingOn, WaitingRows;
  }

  lemma {:induction false} StepLimits(s: Store, a: Action, now: int)
    requires Base(s) && Enabled(s, a, now)
    ensures Limits(Do(s, a, now))
  {
    if Inserts(s, a, now) {
      InsertedIsNew(s, a.id, a.hash, a.line, a.ready, now);
      InsertLimits(s, a.id, a.hash, a.line, now, Do(s, a, now));
    } else {
      OtherLimits(s, a, now);
    }
  }

  lemma {:induction false} OtherLimits(s: Store, a: Action, now: int)
    requires Limits(s) && Enabled(s, a, now) && !Inserts(s, a, now)
    ensures Limits(Do(s, a, now))
  {
    hide Limits, EarliestExpired, RecentRows, WaitingOn, WaitingRows;
    LimitsStay(s, Do(s, a, now));
  }

  /** Rows are kept for a week after their deletion. */
  lemma {:induction false} RowStays(s: Store, a: Action, now: int, e: Entry)
    requires RowsInv(s) && Enabled(s, a, now) && HasRow(s, e) && now < e.at + WEEK
    ensures HasRow(Do(s, a, now), e)
  {
    hide EarliestExpired, RecentRows, WaitingOn, WaitingRows, AddGuards;
  }

  lemma {:induction false} StepLogInv(s: Store, a: Action, now: int)
    requires Base(s) && Enabled(s, a, now)
    ensures LogInv(Do(s, a, now))
  {
    var t := Do(s, a, now);
    forall i | 0 <= i < |s.log| && now < s.log[i].at + WEEK ensures HasRow(t, s.log[i]) {
      assert HasRow(s, s.log[i]);
      RowStays(s, a, now, s.log[i]);
    }
    hide Limits, RowsInv, EarliestExpired, RecentRows, WaitingOn, WaitingRows;
  }

  /** Every step, cleanups that leave stale guards included. */
  lemma {:induction false} StepBase(s: Store, a: Action, now: int)
    requires Base(s) && Enabled(s, a, now)
    ensures Base(Do(s, a, now))
  {
    StepRows(s, a, now);
    StepLimits(s, a, now);
    StepLogInv(s, a, now);
  }

  /** A purge happens a week after the deletion, so the new guard covers two weeks from the insertion. */
  lemma {:induction false} HeldStays(s: Store, a: Action, now: int, e: Entry)
    requires RowsInv(s) && Enabled(s, a, now) && !StalePurge(s, a, e.id) && !(Inserts(s, a, now) && a.id == e.id)
    requires Held(s, e) && now < e.at + 2 * WEEK
    ensures Held(Do(s, a, now), e)
  {
    if a.Clean? {
      HeldThroughClean(s, a, now, e);
    } else {
      hide EarliestExpired, RecentRows, WaitingOn, WaitingRows, RowsInv;
    }
  }

  lemma {:induction false} HeldThroughClean(s: Store, a: Action, now: int, e: Entry)
    requires RowsInv(s) && a.Clean? && Enabled(s, a, now) && !StalePurge(s, a, e.id)
    requires Held(s, e) && now < e.at + 2 * WEEK
    ensures Held(Do(s, a, now), e)
  {
    hide RecentRows, WaitingOn, WaitingRows;
  }

  lemma {:induction false} StepHeld(s: Store, a: Action, now: int, id: Id, from: nat)
    requires Base(s) && Enabled(s, a, now) && IdHeld(s, id, from) && !StalePurge(s, a, id)
    ensures IdHeld(Do(s, a, now), id, from)
  {
    var t := Do(s, a, now);
    if Inserts(s, a, now) && a.id == id { HeldIsOld(s, a.id, a.hash, a.line, a.ready, now, from); }
    forall i | from <= i < |s.log| && s.log[i].id == id && now < s.log[i].at + 2 * WEEK ensures Held(t, s.log[i]) {
      assert Held(s, s.log[i]);
      HeldStays(s, a, now, s.log[i]);
    }
    hide Base, EarliestExpired, RecentRows, WaitingOn, WaitingRows, AddGuards;
  }

  lemma {:induction false} CleanInv(s: Store, a: Action, now: int)
    requires Inv(s) && a.Clean? && Enabled(s, a, now) && GuardsFresh(s, a)
    ensures Inv(Do(s, a, now))
  {
    StepInv(s, a, now);
  }

  lemma {:induction false} StepInv(s: Store, a: Action, now: int)
    requires Inv(s) && Enabled(s, a, now) && GuardsFresh(s, a)
    ensures Inv(Do(s, a, now))
  {
    hide Base;
    StepBase(s, a, now);
    forall id: Id ensures IdHeld(Do(s, a, now), id, 0) {
      assert IdHeld(s, id, 0);
      StepHeld(s, a, now, id, 0);
    }
  }

  // ---------- Answers ----------

  lemma {:induction false} HeldAnswers(s: Store, i: nat, hash: Hash, line: Module, ready: bool, now: int)
    requires i < |s.log| && IdHeld(s, s.log[i].id, i) && s.clock <= now < s.log[i].at + 2 * WEEK
    ensures Decide(s, s.log[i].id, hash, line, ready, now) in
              (if hash == s.log[i].hash then {Repeated, Expired} else {Conflict})
  {
    assert Held(s, s.log[i]);
  }

  // ---------- Which purges leave a guard ----------

  /**
   * A purged message is guarded for a week exactly if no guard of its id was left by the deletion before; otherwise
   * nothing is known of the id any more.
   */
  lemma {:induction false} PurgeGuardsExactly(s: Store, a: Action, now: int, id: Id, hash: Hash)
    requires Base(s) && a.Clean? && a.committed && Enabled(s, a, now) && id in a.purged
    ensures Live(Do(s, a, now), id, s.rows[id].hash, now + WEEK) <==> !StalePurge(s, a, id)
    ensures Previous(Do(s, a, now), id, hash, now).None? <==> StalePurge(s, a, id)
    ensures id in s.guards ==> id in ExpiredGuards(s.guards, now)
  {
  }

  /** Up to a batch of expired guards, none is left. */
  lemma {:induction false} SmallBacklogIsFresh(s: Store, a: Action, now: int)
    requires Base(s) && a.Clean? && Enabled(s, a, now) && |ExpiredGuards(s.guards, now)| <= BATCH
    ensures GuardsFresh(s, a)
  {
    var expired := ExpiredGuards(s.guards, now);
    assert expired == a.chosen + (expired - a.chosen);
  }

  // ---------- Whole runs ----------

  datatype Step = Step(a: Action, now: int)

  predicate Possible(s: Store, run: seq<Step>)
    decreases |run|
  {
    run == [] || (Enabled(s, run[0].a, run[0].now) && Possible(Do(s, run[0].a, run[0].now), run[1..]))
  }

  function After(s: Store, run: seq<Step>): Store
    requires Possible(s, run)
    decreases |run|
  {
    if run == [] then s else After(Do(s, run[0].a, run[0].now), run[1..])
  }

  /** Insertions of one id are that far apart. */
  predicate Spaced(log: seq<Entry>, time: int) {
    forall i, j :: 0 <= i < j < |log| && log[i].id == log[j].id ==> log[j].at >= log[i].at + time
  }

  /** Insertions for a module in the minute that ends at t. */
  function InMinute(log: seq<Entry>, line: Module, t: int): set<nat> {
    set i: nat | i < |log| && log[i].line == line && t - MINUTE < log[i].at <= t
  }

  ghost predicate RateKept(log: seq<Entry>) { forall line: Module, t: int :: |InMinute(log, line, t)| <= RATE }

  lemma {:induction false} SizeByIds(log: seq<Entry>, at: set<nat>, ids: set<Id>)
    requires forall i :: i in at ==> i < |log| && log[i].id in ids
    requires forall i, j :: i in at && j in at && i != j ==> log[i].id != log[j].id
    ensures |at| <= |ids|
  {
    if at != {} {
      var i :| i in at;
      SizeByIds(log, at - {i}, ids - {log[i].id});
    }
  }

  /** The log of the last minute is no longer than the rows of the last minute. */
  lemma {:induction false} RecentAreRows(s: Store, line: Module, now: int)
    requires Base(s) && s.clock <= now && Spaced(s.log, WEEK)
    ensures |InMinute(s.log, line, now)| <= |RecentRows(s.rows, line, now)|
  {
    var at := InMinute(s.log, line, now);
    forall i | i in at ensures s.log[i].id in RecentRows(s.rows, line, now) { assert HasRow(s, s.log[i]); }
    SizeByIds(s.log, at, RecentRows(s.rows, line, now));
  }

  lemma {:induction false} MoreInMinute(log: seq<Entry>, e: Entry, line: Module, t: int)
    requires forall i :: 0 <= i < |log| ==> log[i].at <= e.at
    ensures |InMinute(log + [e], line, t)| <=
            if e.line == line && e.at <= t < e.at + MINUTE then |InMinute(log, line, e.at)| + 1
                else |InMinute(log, line, t)|
  {
    if e.line == line && e.at <= t < e.at + MINUTE {
      assert InMinute(log + [e], line, t) <= InMinute(log, line, e.at) + {|log|};
      Fewer(InMinute(log + [e], line, t), InMinute(log, line, e.at) + {|log|});
    } else {
      assert InMinute(log + [e], line, t) == InMinute(log, line, t);
    }
  }

  lemma {:induction false} StepLog(s: Store, a: Action, now: int)
    requires Base(s) && Enabled(s, a, now) && Spaced(s.log, WEEK) && RateKept(s.log)
    ensures Spaced(Do(s, a, now).log, WEEK) && RateKept(Do(s, a, now).log)
  {
    var t := Do(s, a, now);
    if t.log != s.log {
      InsertedIsNew(s, a.id, a.hash, a.line, a.ready, now);
      var e := Entry(a.id, a.hash, a.line, now);
      assert t.log == s.log + [e];
      forall line: Module, u: int ensures |InMinute(t.log, line, u)| <= RATE {
        MoreInMinute(s.log, e, line, u);
        RecentAreRows(s, a.line, now);
      }
    }
  }

  lemma {:induction false} RunKeeps(s: Store, run: seq<Step>)
    requires Base(s) && Spaced(s.log, WEEK) && RateKept(s.log) && Possible(s, run)
    ensures Base(After(s, run)) && Spaced(After(s, run).log, WEEK) && RateKept(After(s, run).log)
    decreases |run|
  {
    hide Base, Spaced, RateKept, Enabled, Do;
    if run != [] {
      StepBase(s, run[0].a, run[0].now);
      StepLog(s, run[0].a, run[0].now);
      RunKeeps(Do(s, run[0].a, run[0].now), run[1..]);
    }
  }

  lemma {:induction false} EmptyBase(clock: int)
    ensures Inv(Empty(clock)) && RateKept(Empty(clock).log)
  {
    var s := Empty(clock);
    assert WaitingRows(s.rows) - s.back == {};
    forall line: Module ensures RecentRows(s.rows, line, clock) == {} && WaitingOn(s.rows, line) - s.back == {} {}
    forall line: Module, t: int ensures |InMinute(s.log, line, t)| <= RATE { assert InMinute(s.log, line, t) == {}; }
  }

  /**
   * Over every run, whatever the cleanups leave: one insertion per id in a week, ten a minute and module, and queues
   * bounded but for what a replay put back.
   */
  lemma {:induction false} InsertionsLimited(clock: int, run: seq<Step>)
    requires Possible(Empty(clock), run)
    ensures var s := After(Empty(clock), run);
            Spaced(s.log, WEEK) && RateKept(s.log) && Limits(s)
  {
    EmptyBase(clock);
    RunKeeps(Empty(clock), run);
  }

  lemma {:induction false} LogGrows(s: Store, run: seq<Step>)
    requires Possible(s, run)
    ensures s.log <= After(s, run).log
    decreases |run|
  {
    if run != [] { LogGrows(Do(s, run[0].a, run[0].now), run[1..]); }
  }

  /** Step k of the run purges the id and leaves a stale guard, after insertion i and before insertion j. */
  ghost predicate StaleBetween(s: Store, run: seq<Step>, k: nat, id: Id, i: nat, j: nat)
    requires k < |run| && Possible(s, run)
    decreases |run|
  {
    if k == 0 then StalePurge(s, run[0].a, id) && i < |s.log| <= j
    else StaleBetween(Do(s, run[0].a, run[0].now), run[1..], k - 1, id, i, j)
  }

  /** From place `from` of the log on, insertions of id are two weeks apart. */
  ghost predicate IdSpaced(log: seq<Entry>, id: Id, from: nat) {
    forall i, j :: from <= i < j < |log| && log[i].id == id == log[j].id ==> log[j].at >= log[i].at + 2 * WEEK
  }

  lemma {:induction false} StepSpaced(s: Store, a: Action, now: int, id: Id, from: nat)
    requires Enabled(s, a, now) && IdHeld(s, id, from) && IdSpaced(s.log, id, from)
    ensures IdSpaced(Do(s, a, now).log, id, from)
  {
    if Inserts(s, a, now) && a.id == id { HeldIsOld(s, a.id, a.hash, a.line, a.ready, now, from); }
  }

  lemma {:induction false} CloseNeedsStale(s: Store, run: seq<Step>, id: Id, from: nat, i: nat, j: nat) returns (k: nat)
    requires Base(s) && Possible(s, run) && IdHeld(s, id, from) && IdSpaced(s.log, id, from)
    requires from <= i < j < |After(s, run).log|
    requires After(s, run).log[i].id == id == After(s, run).log[j].id
    requires After(s, run).log[j].at < After(s, run).log[i].at + 2 * WEEK
    ensures k < |run| && StaleBetween(s, run, k, id, i, j)
    decreases |run|
  {
    hide Base, Enabled, Do, IdHeld, StalePurge;
    LogGrows(s, run);
    if run != [] {
      var a, now := run[0].a, run[0].now;
      var t := Do(s, a, now);
      StepBase(s, a, now);
      if !StalePurge(s, a, id) {
        StepHeld(s, a, now, id, from);
        StepSpaced(s, a, now, id, from);
        k := CloseNeedsStale(t, run[1..], id, from, i, j);
        k := k + 1;
      } else if i < |s.log| {
        assert j >= |s.log|;
        k := 0;
      } else {
        StartsAfresh(s, a, now, id);
        k := CloseNeedsStale(t, run[1..], id, |s.log|, i, j);
        k := k + 1;
      }
    }
  }

  /** After a cleanup there are no insertions yet. */
  lemma {:induction false} StartsAfresh(s: Store, a: Action, now: int, id: Id)
    requires Enabled(s, a, now) && StalePurge(s, a, id)
    ensures IdHeld(Do(s, a, now), id, |s.log|) && IdSpaced(Do(s, a, now).log, id, |s.log|)
  {
  }

  /**
   * Over every run: where an id is inserted twice within two weeks, a cleanup in between purged it while a stale guard
   * of it stayed.
   */
  lemma {:induction false} CloseInsertionsNeedStaleGuard(clock: int, run: seq<Step>, i: nat, j: nat)
    requires Possible(Empty(clock), run)
    requires i < j < |After(Empty(clock), run).log|
    requires var log := After(Empty(clock), run).log; log[i].id == log[j].id && log[j].at < log[i].at + 2 * WEEK
    ensures exists k: nat :: k < |run| && StaleBetween(Empty(clock), run, k, After(Empty(clock), run).log[i].id, i, j)
  {
    EmptyBase(clock);
    var k := CloseNeedsStale(Empty(clock), run, After(Empty(clock), run).log[i].id, 0, i, j);
  }

  lemma {:induction false} HeldSince(s: Store, run: seq<Step>, id: Id, from: nat, i: nat)
    requires Base(s) && Possible(s, run) && IdHeld(s, id, from) && from <= i < |After(s, run).log|
    requires forall k: nat :: k < |run| ==> !StaleBetween(s, run, k, id, i, |After(s, run).log|)
    ensures IdHeld(After(s, run), id, i)
    decreases |run|
  {
    hide Base, Enabled, Do, Held, StalePurge;
    LogGrows(s, run);
    var n := |After(s, run).log|;
    if run != [] {
      var a, now := run[0].a, run[0].now;
      var t := Do(s, a, now);
      StepBase(s, a, now);
      assert !StaleBetween(s, run, 0, id, i, n);
      if StalePurge(s, a, id) { StartsAfresh(s, a, now, id); } else { StepHeld(s, a, now, id, from); }
      forall k: nat | k < |run[1..]| ensures !StaleBetween(t, run[1..], k, id, i, n) {
        assert !StaleBetween(s, run, k + 1, id, i, n);
      }
      HeldSince(t, run[1..], id, if StalePurge(s, a, id) then |s.log| else from, i);
    }
  }

  /**
   * In every run: unless a purge since then left a stale guard of the id, an insertion is answered for two weeks, and
   * the hash decides between repeat and conflict.
   */
  lemma {:induction false} RepeatIsAnswered(clock: int, run: seq<Step>, i: nat, hash: Hash, line: Module, ready: bool,
                                            now: int)
    requires Possible(Empty(clock), run) && i < |After(Empty(clock), run).log|
    requires var s := After(Empty(clock), run);
             && s.clock <= now < s.log[i].at + 2 * WEEK
             && forall k: nat :: k < |run| ==> !StaleBetween(Empty(clock), run, k, s.log[i].id, i, |s.log|)
    ensures var s := After(Empty(clock), run);
            Decide(s, s.log[i].id, hash, line, ready, now) in
              (if hash == s.log[i].hash then {Repeated, Expired} else {Conflict})
  {
    var s := After(Empty(clock), run);
    EmptyBase(clock);
    assert IdHeld(Empty(clock), s.log[i].id, 0);
    HeldSince(Empty(clock), run, s.log[i].id, 0, i);
    HeldAnswers(s, i, hash, line, ready, now);
  }

  // ---------- A run that inserts an id twice in nine days ----------

  lemma {:induction false} Extend(s: Store, run: seq<Step>, a: Action, now: int)
    requires Possible(s, run) && Enabled(After(s, run), a, now)
    ensures Possible(s, run + [Step(a, now)]) && After(s, run + [Step(a, now)]) == Do(After(s, run), a, now)
    decreases |run|
  {
    if run != [] {
      Extend(Do(s, run[0].a, run[0].now), run[1..], a, now);
      assert (run + [Step(a, now)])[1..] == run[1..] + [Step(a, now)];
    } else {
      assert Possible(Do(s, a, now), [Step(a, now)][1..]);
    }
  }

  ghost predicate Reachable(s: Store) { exists run :: Possible(Empty(0), run) && After(Empty(0), run) == s }

  lemma {:induction false} ReachStep(s: Store, a: Action, now: int)
    requires Reachable(s) && Enabled(s, a, now)
    ensures Reachable(Do(s, a, now))
  {
    var run :| Possible(Empty(0), run) && After(Empty(0), run) == s;
    Extend(Empty(0), run, a, now);
  }

  /** A message sent and deleted at once. */
  function Spent(hash: Hash, line: Module, at: int): Row { Row(hash, line, at, false, Some(at)) }

  /** With nothing in the queue and nothing sent for a minute, an unknown id is inserted, sent and deleted. */
  lemma {:induction false} ReachSpent(s: Store, id: Id, hash: Hash, line: Module, now: int)
    requires Reachable(s) && s.clock <= now && id !in s.rows && (id in s.guards ==> s.guards[id].expires <= now)
    requires forall k :: k in s.rows ==> !s.rows[k].waiting && s.rows[k].created <= now - MINUTE
    requires s.back == {}
    ensures Reachable(s.(rows := s.rows[id := Spent(hash, line, now)], clock := now, log := s.log
            + [Entry(id, hash, line, now)]))
  {
    hide Reachable;
    assert RecentRows(s.rows, line, now) == {} && WaitingOn(s.rows, line) == {} && WaitingRows(s.rows) == {};
    ReachStep(s, DoEnqueue(id, hash, line, true, Acked), now);
    var r := Row(hash, line, now, true, None);
    var t := s.(rows := s.rows[id := r], clock := now, log := s.log + [Entry(id, hash, line, now)]);
    assert Do(s, DoEnqueue(id, hash, line, true, Acked), now) == t;
    ReachStep(t, Settle(id), now);
    var u := t.(rows := s.rows[id := r.(waiting := false)]);
    assert Do(t, Settle(id), now) == u;
    ReachStep(u, Delete(id), now);
    assert Do(u, Delete(id), now) == t.(rows := s.rows[id := Spent(hash, line, now)]);
  }

  /** The messages 0 to n - 1, one a minute. */
  function Many(hash: Hash, line: Module, n: nat): map<Id, Row> {
    map id | id in Numbers(n) :: Spent(hash, line, id * MINUTE)
  }

  function ManyLog(hash: Hash, line: Module, n: nat): seq<Entry> {
    seq(n, i requires 0 <= i < n => Entry(i, hash, line, i * MINUTE))
  }

  lemma {:induction false} ManyMore(hash: Hash, line: Module, i: nat)
    ensures Many(hash, line, i + 1) == Many(hash, line, i)[i := Spent(hash, line, i * MINUTE)]
    ensures ManyLog(hash, line, i + 1) == ManyLog(hash, line, i) + [Entry(i, hash, line, i * MINUTE)]
  {
  }

  /** When the last of n messages was sent. */
  function Sent(n: nat): int { if n == 0 then 0 else (n - 1) * MINUTE }

  lemma {:induction false} ReachMany(hash: Hash, line: Module, n: nat)
    ensures Reachable(Store(Many(hash, line, n), map[], Sent(n), ManyLog(hash, line, n), {}))
  {
    if n == 0 {
      assert Many(hash, line, 0) == map[];
      assert Possible(Empty(0), []) && After(Empty(0), []) == Empty(0);
    } else {
      hide Reachable, ManyLog;
      var i := n - 1;
      ReachMany(hash, line, i);
      ReachSpent(Store(Many(hash, line, i), map[], Sent(i), ManyLog(hash, line, i), {}), i, hash, line, i * MINUTE);
      ManyMore(hash, line, i);
    }
  }

  lemma {:induction false} ReachClean(s: Store, chosen: set<Id>, purged: set<Id>, now: int, t: Store)
    requires Reachable(s) && s.clock <= now && EarliestExpired(s.guards, now, chosen) && Purgeable(s.rows, now, purged)
    requires t == s.(rows := s.rows - purged, guards := t.guards, clock := now)
    requires purged <= s.rows.Keys ==> t.guards == AddGuards(s.guards - chosen, s.rows, purged, now)
    ensures Reachable(t)
  {
    hide Reachable, EarliestExpired;
    ReachStep(s, Clean(chosen, purged, true), now);
  }

  const SOON := WEEK + DAY           // all of the first messages may be purged
  const LATER := SOON + WEEK + DAY   // their guards have expired

  /** The guards that a purge of the ids leaves. */
  function Left(ids: set<Id>, hash: Hash, at: int): map<Id, Guard> { map id | id in ids :: Guard(hash, at + WEEK) }

  /** Message 256, when the others are purged. */
  function LastOne(hash: Hash, line: Module): Store {
    Store(map[BATCH := Spent(hash, line, BATCH * MINUTE)], Left(Numbers(BATCH), hash, SOON), SOON,
          ManyLog(hash, line, BATCH + 1), {})
  }

  /** One batch purges the messages 0 to 255... */
  lemma {:induction false} ReachLastOne(hash: Hash, line: Module)
    ensures Reachable(LastOne(hash, line))
  {
    hide Reachable, Numbers, ManyLog;
    ReachMany(hash, line, BATCH + 1);
    Neighbours();
    var rows := Many(hash, line, BATCH + 1);
    assert rows - Numbers(BATCH) == map[BATCH := Spent(hash, line, BATCH * MINUTE)];
    ReachClean(Store(rows, map[], BATCH * MINUTE, ManyLog(hash, line, BATCH + 1), {}), {}, Numbers(BATCH), SOON,
               LastOne(hash, line));
  }

  lemma {:induction false} BacklogIs(hash: Hash, line: Module)
    ensures AddGuards(LastOne(hash, line).guards - {}, LastOne(hash, line).rows, {BATCH}, SOON + 1) == Backlog(hash)
    ensures EarliestExpired(LastOne(hash, line).guards, SOON + 1, {})
  {
    Neighbours();
    hide Numbers;
    assert ExpiredGuards(LastOne(hash, line).guards, SOON + 1) == {};
  }

  /** ...and a second one message 256. */
  lemma {:induction false} ReachBacklog(hash: Hash, line: Module)
    ensures Reachable(Store(map[], Backlog(hash), SOON + 1, ManyLog(hash, line, BATCH + 1), {}))
  {
    hide Reachable, Numbers, ManyLog, Left, Backlog, AddGuards, RecentRows, WaitingOn;
    ReachLastOne(hash, line);
    BacklogIs(hash, line);
    var s := LastOne(hash, line);
    assert s.rows - {BATCH} == map[];
    ReachClean(s, {}, {BATCH}, SOON + 1, Store(map[], Backlog(hash), SOON + 1, s.log, {}));
  }

  /** One guard more than a batch holds; that of id 256 is the last to expire. */
  function Backlog(hash: Hash): map<Id, Guard> {
    Left(Numbers(BATCH), hash, SOON)[BATCH := Guard(hash, SOON + 1 + WEEK)]
  }

  lemma {:induction false} Neighbours()
    ensures BATCH !in Numbers(BATCH) && Numbers(BATCH + 1) == Numbers(BATCH) + {BATCH}
  {
  }

  lemma {:induction false} BacklogExpired(hash: Hash, now: int)
    requires now > SOON + 1 + WEEK
    ensures EarliestExpired(Backlog(hash), now, Numbers(BATCH))
  {
    Neighbours();
    var all := ExpiredGuards(Backlog(hash), now);
    assert all == Numbers(BATCH) + {BATCH};
  }

  /** The second life of id 256: sent, deleted, and purged eight days later, while its first guard stays. */
  lemma {:induction false} ReachReopened(hash: Hash, line: Module)
    ensures var log := ManyLog(hash, line, BATCH + 1) + [Entry(BATCH, hash, line, LATER)];
            Reachable(Store(map[], map[BATCH := Guard(hash, SOON + 1 + WEEK)], LATER + SOON, log, {}))
  {
    hide Reachable, Numbers, ManyLog;
    ReachBacklog(hash, line);
    var guards, log := Backlog(hash), ManyLog(hash, line, BATCH + 1);
    ReachSpent(Store(map[], guards, SOON + 1, log, {}), BATCH, hash, line, LATER);
    var more := log + [Entry(BATCH, hash, line, LATER)];
    var s := Store(map[BATCH := Spent(hash, line, LATER)], guards, LATER, more, {});
    assert map[][BATCH := Spent(hash, line, LATER)] == s.rows;
    BacklogExpired(hash, LATER + SOON);
    Neighbours();
    assert guards - Numbers(BATCH) == map[BATCH := Guard(hash, SOON + 1 + WEEK)];
    assert s.rows - {BATCH} == map[];
    ReachClean(s, Numbers(BATCH), {BATCH}, LATER + SOON,
               Store(map[], map[BATCH := Guard(hash, SOON + 1 + WEEK)], LATER + SOON, more, {}));
  }

  /**
   * A run from an empty store that inserts the same id twice within eight days: with one guard too many for a batch,
   * the cleanup leaves the stale guard of the id and removes its message.
   */
  lemma {:induction false} StaleGuardReinserts(hash: Hash, line: Module) returns (s: Store, i: nat, j: nat)
    ensures Reachable(s) && i < j < |s.log|
    ensures s.log[i].id == s.log[j].id && s.log[j].at == s.log[i].at + 8 * DAY
  {
    ReachReopened(hash, line);
    hide Reachable;
    var log := ManyLog(hash, line, BATCH + 1) + [Entry(BATCH, hash, line, LATER)];
    var t := Store(map[], map[BATCH := Guard(hash, SOON + 1 + WEEK)], LATER + SOON, log, {});
    ReachSpent(t, BATCH, hash, line, LATER + SOON);
    i, j := BATCH + 1, BATCH + 2;
    s := t.(rows := t.rows[BATCH := Spent(hash, line, LATER + SOON)], log := log
        + [Entry(BATCH, hash, line, LATER + SOON)]);
  }

  // ---------- The transactions ----------

  lemma {:induction false} StepKeeps(s: Store, a: Action, now: int)
    requires Base(s) && Enabled(s, a, now)
    ensures Base(Do(s, a, now)) && (Inv(s) && GuardsFresh(s, a) ==> Inv(Do(s, a, now)))
    ensures !a.Clean? ==> GuardsFresh(s, a)
  {
    StepBase(s, a, now);
    if Inv(s) && GuardsFresh(s, a) { StepInv(s, a, now); }
  }

  lemma {:induction false} EnqueueKeeps(s: Store, id: Id, hash: Hash, line: Module, ready: bool, now: int, reply: Reply)
    requires Base(s) && s.clock <= now
    ensures var t := Enqueue(s, id, hash, line, ready, now, reply); Base(t) && (Inv(s) ==> Inv(t))
  {
    hide Inv, Base;
    StepKeeps(s, DoEnqueue(id, hash, line, ready, reply), now);
  }

  lemma {:induction false} CleanKeeps(s: Store, chosen: set<Id>, purged: set<Id>, committed: bool, now: int)
    requires Base(s) && s.clock <= now && EarliestExpired(s.guards, now, chosen) && Purgeable(s.rows, now, purged)
    ensures purged <= s.rows.Keys
    ensures var t := Cleaned(s, chosen, purged, committed, now);
            && Base(t) && Enabled(s, Clean(chosen, purged, committed), now)
            && Do(s, Clean(chosen, purged, committed), now) == t
            && (Inv(s) && (committed ==> purged !! (s.guards - chosen).Keys) ==> Inv(t))
  {
    hide Base, Inv, EarliestExpired;
    StepKeeps(s, Clean(chosen, purged, committed), now);
  }

  /** A message selected for removal, with its revision. */
  datatype Record = Record(id: Id, revision: nat)

  function RecordIds(records: seq<Record>): set<Id> { set i | 0 <= i < |records| :: records[i].id }

  class Database {
    var rows: map<Id, Row>
    var guards: map<Id, Guard>
    var clock: int
    var floor: nat
    ghost var log: seq<Entry>
    ghost var back: set<Id>

    ghost function Contents(): Store reads this { Store(rows, guards, clock, log, back) }

    constructor (clock: int)
      ensures Inv(Contents()) && Contents() == Empty(clock) && floor == 0
    {
      rows, guards, this.clock, floor, log, back := map[], map[], clock, 0, [], {};
      new;
      EmptyBase(clock);
    }

    method PreviousMessage(id: Id, hash: Hash, now: int) returns (answer: Option<Answer>)
      ensures answer == Previous(Contents(), id, hash, now)
    {
      if id !in rows { answer := ExpiredRequest(id, hash, now); return; }
      answer := if rows[id].hash != hash then Some(Conflict) else Some(Repeated);
    }

    method ExpiredRequest(id: Id, hash: Hash, now: int) returns (answer: Option<Answer>)
      requires id !in rows
      ensures answer == Previous(Contents(), id, hash, now)
    {
      if id !in guards || guards[id].expires <= now { return None; }
      answer := if guards[id].hash != hash then Some(Conflict) else Some(Expired);
    }

    /** The early look and the transaction; only the transaction inserts, and a lost commit is an error either way. */
    method EnqueueMessage(id: Id, hash: Hash, line: Module, ready: bool, now: int, reply: Reply)
                          returns (answer: Answer)
      requires Base(Contents()) && clock <= now
      modifies this`rows, this`clock, this`log, this`back
      ensures Base(Contents()) && (old(Inv(Contents())) ==> Inv(Contents()))
      ensures Contents() == Enqueue(old(Contents()), id, hash, line, ready, now, reply)
      ensures answer == var d := Decide(old(Contents()), id, hash, line, ready, now);
                        if d.Inserted? && !reply.Acked? then DatabaseError else d
      ensures var admitted := old(Unknown(Contents(), id, now) && Room(rows, line, now)) && ready;
              && (answer.Inserted? <==> admitted && reply.Acked?)
              && (answer.DatabaseError? <==> admitted && !reply.Acked?)
              && rows == if admitted && reply.Committed() then old(rows)[id := Row(hash, line, now, true, None)]
                         else old(rows)
    {
      DecideExactly(Contents(), id, hash, line, ready, now);
      hide Paced, Queueable;
      hide Inv, Base, Enabled, Do, RecentRows, WaitingOn, WaitingRows, GuardsFresh;
      EnqueueKeeps(Contents(), id, hash, line, ready, now, reply);
      clock := now;
      var known := PreviousMessage(id, hash, now);
      if known.Some? { return known.value; }
      if !ready { return Refused; }
      if |RecentRows(rows, line, now)| >= RATE { return RateLimit; }
      if |WaitingOn(rows, line)| >= QUEUE || |WaitingRows(rows)| >= TOTAL { return QueueFull; }
      if reply.Committed() {
        rows, log := rows[id := Row(hash, line, now, true, None)], log + [Entry(id, hash, line, now)];
        back := back - {id};
      }
      answer := if reply.Acked? then Inserted else DatabaseError;
    }

    /** Expired guards go first, then the selected messages, each leaving a guard; the floor covers their revisions. */
    method CleanRecordsBatch(chosen: set<Id>, records: seq<Record>, now: int, committed: bool)
      requires Base(Contents()) && clock <= now
      requires EarliestExpired(guards, now, chosen) && Purgeable(rows, now, RecordIds(records))
      modifies this`rows, this`guards, this`clock, this`floor
      ensures Base(Contents())
      ensures old(Inv(Contents())) && (committed ==> RecordIds(records) !! (old(guards) - chosen).Keys) ==>
              Inv(Contents())
      ensures RecordIds(records) <= old(rows).Keys
      ensures Contents() == Cleaned(old(Contents()), chosen, RecordIds(records), committed, now)
      ensures committed ==> floor >= old(floor) && forall i :: 0 <= i < |records| ==> records[i].revision <= floor
      ensures floor == old(floor) || exists i :: 0 <= i < |records| && records[i].revision == floor
    {
      hide Inv, Base, Enabled, Do, EarliestExpired, RecordIds, AddGuards, GuardsFresh;
      CleanKeeps(Contents(), chosen, RecordIds(records), committed, now);
      clock := now;
      if !committed { return; }
      var kept, left, top := Purge(guards - chosen, rows, records, now);
      guards, rows := kept, left;
      if top > floor { floor := top; }
    }

    /** Row by row: a guard unless one is there, and the running maximum of the revisions. */
    static method Purge(guards: map<Id, Guard>, rows: map<Id, Row>, records: seq<Record>, now: int)
      returns (kept: map<Id, Guard>, left: map<Id, Row>, top: nat)
      requires RecordIds(records) <= rows.Keys
      ensures kept == AddGuards(guards, rows, RecordIds(records), now) && left == rows - RecordIds(records)
      ensures forall j :: 0 <= j < |records| ==> records[j].revision <= top
      ensures top == 0 || exists j :: 0 <= j < |records| && records[j].revision == top
    {
      hide RecordIds;
      kept, left, top := guards, rows, 0;
      NoRecords();
      for i := 0 to |records|
        invariant RecordIds(records[..i]) <= rows.Keys
        invariant kept == AddGuards(guards, rows, RecordIds(records[..i]), now)
        invariant left == rows - RecordIds(records[..i])
        invariant forall j :: 0 <= j < i ==> records[j].revision <= top
        invariant top == 0 || exists j :: 0 <= j < i && records[j].revision == top
      {
        var r := records[i];
        RecordIdsMore(records, i);
        if r.revision > top { top := r.revision; }
        if r.id !in kept { kept := kept[r.id := Guard(rows[r.id].hash, now + WEEK)]; }
        left := left - {r.id};
      }
      assert records[..|records|] == records;
    }
  }

  lemma {:induction false} NoRecords() ensures RecordIds([]) == {} {}

  lemma {:induction false} RecordIdsMore(records: seq<Record>, i: nat)
    requires i < |records|
    ensures RecordIds(records[..i + 1]) == RecordIds(records[..i]) + {records[i].id}
    ensures records[i].id in RecordIds(records)
  {
    forall id ensures id in RecordIds(records[..i + 1]) <==> id in RecordIds(records[..i]) + {records[i].id} {
      if id in RecordIds(records[..i]) {
        var j :| 0 <= j < i && records[..i][j].id == id;
        assert records[..i + 1][j].id == id;
      }
      if id in RecordIds(records[..i + 1]) {
        var j :| 0 <= j < i + 1 && records[..i + 1][j].id == id;
        if j < i { assert records[..i][j].id == id; }
      }
      assert records[..i + 1][i].id == records[i].id;
    }
  }
}
