/**
 * The message worker as it runs: tables and journal are updated in place, statement by statement, and every statement
 * is one step of the machine in Lifecycle. What is proved about all runs of that machine holds for these methods.
 */
module MessageRuntime {
  import opened Common
  import opened Lifecycle

  /** What the surroundings answer during one processMessage. */
  datatype World = World(before: Before, epochCurrent: bool, claim: Reply, after: After, answer: TransportReply,
                         locked: bool, file: FileOp, save: Reply, unlink: FileOp)

  /** Everything stands for a hand-off of the row as it was selected. */
  predicate HandsOff(id: Id, row: Row, pending: bool, w: World) {
    !pending && MayClaim(row.kind, w.before) && w.epochCurrent && w.claim.Acked? && MaySubmit(id, row.kind, w.after)
  }

  /** At most state, issue and time of the last attempt differ. */
  predicate Touched(was: Row, after: Row) {
    after == was.(state := after.state, issue := after.issue, operationAt := after.operationAt)
  }

  /** What a finished attempt leaves in the row of a message without pending outcome, if that could be saved. */
  predicate Leaves(id: Id, was: Row, after: Row, w: World) {
    var e := w.before;
    if !MayClaim(was.kind, e) then
      if !e.expired && e.epochCurrent && Fit(was.kind, e) && !e.reserved then after == was else StopShows(id, after, e)
    else if !w.epochCurrent || w.claim == LostDropped then after == was
    else if !w.claim.Acked? then after.state == if IsRx(id) then Downloading else Sending
    else if MaySubmit(id, was.kind, w.after) then Shows(after, w.answer)
    else HaltShows(id, after, w.after)
  }

  /** After a start: an interrupted sending is unknown, a confirmation that was taken back counts again. */
  predicate Restored(was: Row, after: Row) {
    if was.state == Sending then after == was.(state := Unknown, issue := SendInterrupted)
    else if was.deletedAt.None? && was.state == Unknown
         && was.issue == (if was.kind == Sms then SmsDeliveryUnconfirmed else MmsDeliveryUnconfirmed)
    then after == was.(state := Accepted, issue := NoIssue)
    else after == was
  }

  lemma {:induction false} RestoredIs(r: Row)
    ensures Restored(r, Interrupted(Repaired(r)))
  {
  }

  class Runtime {
    var rows: map<Id, Row>
    var pending: map<Id, Outcome>
    var disk: map<Id, Record>
    ghost const start: Sys
    ghost var sys: Sys
    ghost var steps: seq<Action>       // the run so far, from `start`

    ghost predicate Linked() reads this`sys, this`steps {
      Init(start) && Run(start, steps) && Exec(start, steps) == sys
    }

    /** So far the surroundings have kept to what the code relies on. */
    ghost predicate Sound() reads this`sys, this`steps { Linked() && Reliable(start, steps) }

    /** The fields are the machine's, after a run of it from an empty start. */
    ghost predicate Valid() reads this { Linked() && rows == sys.rows && pending == sys.mem && disk == sys.disk }

    constructor (now: int)
      ensures Valid() && Sound() && sys == start == EMPTY.(now := now)
    {
      rows, pending, disk := map[], map[], map[];
      start, sys, steps := EMPTY.(now := now), EMPTY.(now := now), [];
    }

    ghost method Take(a: Action)
      requires Linked() && Enabled(sys, a)
      modifies this`sys, this`steps
      ensures Linked() && sys == Do(old(sys), a) && steps == old(steps) + [a]
      ensures old(Sound()) && Assumed(old(sys), a) ==> Sound()
    {
      Extend(start, steps, a);
      if Sound() && Assumed(sys, a) { ExtendReliable(start, steps, a); }
      steps, sys := steps + [a], Do(sys, a);
    }

    // ---------- Row updates ----------

    /** One guarded update; an outcome that is not one of the known states changes nothing. */
    method ApplyMessageOutcome(id: Id, o: Outcome, reply: Reply) returns (ok: bool)
      modifies this`rows
      ensures rows == if reply.Committed() then WithOutcome(old(rows), id, o) else old(rows)
      ensures ok <==> reply.Acked?
    {
      ok := reply.Acked?;
      if !(o.state in {WaitingNetwork, Expired, Cancelled, Failed, Unknown, Accepted, Partial, Received}) { return; }
      if id !in rows || rows[id].deletedAt.Some? { return; }
      var r := rows[id];
      var open := r.state in {Queued, WaitingNetwork, Sending, Downloading}
          || (r.state == Unknown && r.issue == SendInterrupted);
      var late := r.state == Failed && r.issue == ResultTimeout && o.state in {Accepted, Partial, Failed}
          && o.issue != ResultTimeout;
      if (open || late) && reply.Committed() { rows := rows[id := r.(state := o.state, issue := o.issue)]; }
    }

    static method ExpireTable(rows: map<Id, Row>, batch: set<Id>, now: int) returns (after: map<Id, Row>)
      ensures after == map id | id in rows :: if id in batch then WithTimeout(rows[id], now) else rows[id]
    {
      after := rows;
      var todo := rows.Keys;
      while todo != {}
        invariant todo <= after.Keys == rows.Keys
        invariant forall id :: id in todo ==> after[id] == rows[id]
        invariant forall id :: id in rows && id !in todo ==>
                  after[id] == if id in batch then WithTimeout(rows[id], now) else rows[id]
      {
        var id :| id in todo;
        todo := todo - {id};
        var r := rows[id];
        if id in batch && Stale(r, now) {
          after := after[id := r.(state := Failed, issue := if r.state in {Queued, WaitingNetwork} then MessageExpired
              else ResultTimeout)];
        }
      }
    }

    /** Closes what has waited too long; the batch is chosen by the database. */
    method ExpireMessageResults(batch: set<Id>, now: int)
      requires Valid() && sys.boot.Up? && now == sys.now
      modifies this
      ensures Valid() && steps == old(steps) + [Expire(batch)] && pending == old(pending) && disk == old(disk)
      ensures old(Sound()) ==> Sound()
      ensures rows.Keys == old(rows).Keys
      ensures forall id :: id in rows ==> rows[id] == if id in batch then WithTimeout(old(rows)[id], now)
              else old(rows)[id]
    {
      rows := ExpireTable(rows, batch, now);
      Take(Expire(batch));
    }

    /** A new message in the queue. */
    method Enqueue(id: Id, m: int, kind: Kind, expiresIn: nat, now: int)
      requires Valid() && id !in rows && now == sys.now
      modifies this`rows, this`sys, this`steps
      ensures Valid() && old(steps) <= steps && sys == old(sys).(rows := rows)
      ensures old(Sound()) ==> Sound()
      ensures rows == old(rows)[id := Row(m, kind, Queued, NoIssue, now, None, now + expiresIn, None)]
    {
      hide WorkerEffect, Linked, Sound;
      Take(Lifecycle.Action.Enqueue(id, m, kind, expiresIn));
      rows := rows[id := Row(m, kind, Queued, NoIssue, now, None, now + expiresIn, None)];
    }

    /** The user deletes a message; one that still waits is cancelled. */
    method Delete(id: Id, now: int)
      requires Valid() && id in rows && now == sys.now
      modifies this`rows, this`sys, this`steps
      ensures Valid() && old(steps) <= steps && sys == old(sys).(rows := rows)
      ensures old(Sound()) ==> Sound()
      ensures rows == old(rows)[id := old(rows)[id].(
                deletedAt := Some(now),
                state := if old(rows)[id].state in {Queued, WaitingNetwork} then Cancelled else old(rows)[id].state)]
    {
      Take(Lifecycle.Action.Delete(id));
      var r := rows[id];
      rows := rows[id := r.(deletedAt := Some(now), state := if r.state in {Queued, WaitingNetwork} then Cancelled
          else r.state)];
    }

    /** The cleanup removes a finished message a week after its deletion. */
    method Purge(id: Id, now: int)
      requires Valid() && id in rows && now == sys.now
      requires Finished(rows[id].state) && rows[id].deletedAt.Some? && rows[id].deletedAt.value < now - WEEK
      modifies this`rows, this`sys, this`steps
      ensures Valid() && old(steps) <= steps && sys == old(sys).(rows := rows)
      ensures old(Sound()) ==> Sound()
      ensures rows == old(rows) - {id}
    {
      Take(Lifecycle.Action.Purge(id));
      rows := rows - {id};
    }

    /** A status report settles a message that waits for one. */
    method Settle(id: Id, delivered: bool)
      requires Valid() && sys.boot.Up? && id in rows && AwaitsReceipt(rows[id])
      modifies this`rows, this`sys, this`steps
      ensures Valid() && old(steps) <= steps && sys == old(sys).(rows := rows)
      ensures old(Sound()) ==> Sound()
      ensures rows.Keys == old(rows).Keys && (forall k :: k in rows && k != id ==> rows[k] == old(rows)[k])
      ensures rows[id] == old(rows)[id].(state := rows[id].state, issue := rows[id].issue)
      ensures rows[id].state == if delivered then Delivered else Failed
      ensures rows[id].issue == NoIssue <==> delivered
    {
      Take(Receipt(id, delivered));
      rows := rows[id := rows[id].(state := if delivered then Delivered else Failed,
                                   issue := if delivered then NoIssue else Code("SMS_STATUS"))];
    }

    ghost method Pass(to: int)
      requires Valid() && sys.now <= to && forall m :: m in sys.workers ==> to - sys.workers[m].start <= WORKER_LIMIT
      modifies this`sys, this`steps
      ensures Valid() && old(steps) <= steps && sys == old(sys).(now := to)
      ensures old(Sound()) ==> Sound()
    {
      Take(Tick(to));
    }

    // ---------- The journal ----------

    /** Worker m, started as w, stands at p. */
    ghost predicate At(m: int, w: Worker, p: Phase) reads this { m in sys.workers && sys.workers[m] == w.(phase := p) }

    /** Nothing but the tables, the journal and worker m has changed. */
    ghost predicate OnlyWorker(was: Sys, m: int) reads this {
      sys == was.(rows := sys.rows, mem := sys.mem, disk := sys.disk, limbo := sys.limbo, log := sys.log,
          workers := sys.workers)
      && sys.workers - {m} == was.workers - {m}
    }

    method RecordOutcome(m: int, ghost w: Worker, id: Id, o: Outcome, locked: bool) returns (ok: bool)
      requires Valid() && At(m, w, Deciding(o)) && w.id == id && !ReplayOn(sys, id)
      modifies this`pending, this`sys, this`steps
      ensures Valid() && steps == old(steps) + [Lock(m, locked)] && OnlyWorker(old(sys), m) && sys.log == old(sys).log
      ensures old(Sound()) ==> Sound()
      ensures ok <==> locked
      ensures if ok then At(m, w, Recorded(o)) && pending == old(pending)[id := o]
              else m !in sys.workers && pending == old(pending)
    {
      ok := locked;
      Take(Lock(m, locked));
      if locked { pending := pending[id := o]; }
    }

    method SaveFile(m: int, ghost w: Worker, id: Id, o: Outcome, f: FileOp)
      requires Valid() && At(m, w, Recorded(o)) && w.id == id
      modifies this`disk, this`sys, this`steps
      ensures Valid() && steps == old(steps) + [Lifecycle.Action.SaveFile(m, f)] && OnlyWorker(old(sys), m)
              && sys.log == old(sys).log
      ensures old(Sound()) ==> Sound()
      ensures At(m, w, Stored(o))
      ensures disk == if f.NotDone? then old(disk) else old(disk)[id := Good(o)]
    {
      Take(Lifecycle.Action.SaveFile(m, f));
      if !f.NotDone? { disk := disk[id := Good(o)]; }
    }

    method ApplyRow(m: int, ghost w: Worker, id: Id, o: Outcome, reply: Reply) returns (ok: bool)
      requires Valid() && At(m, w, Stored(o)) && w.id == id
      modifies this`rows, this`sys, this`steps
      ensures Valid() && steps == old(steps) + [Lifecycle.Action.ApplyRow(m, reply)] && OnlyWorker(old(sys), m)
              && sys.log == old(sys).log
      ensures old(Sound()) ==> Sound()
      ensures rows == if reply.Committed() then WithOutcome(old(rows), id, o) else old(rows)
      ensures ok <==> reply.Acked?
      ensures if ok then At(m, w, Written) else m !in sys.workers
    {
      Take(Lifecycle.Action.ApplyRow(m, reply));
      ok := ApplyMessageOutcome(id, o, reply);
    }

    method RemoveFile(m: int, ghost w: Worker, id: Id, f: FileOp)
      requires Valid() && At(m, w, Written) && w.id == id
      modifies this`pending, this`disk, this`sys, this`steps
      ensures Valid() && steps == old(steps) + [Lifecycle.Action.RemoveFile(m, f)] && OnlyWorker(old(sys), m)
              && sys.log == old(sys).log
      ensures old(Sound()) ==> Sound()
      ensures m !in sys.workers
      ensures disk == if f.NotDone? then old(disk) else old(disk) - {id}
      ensures pending == if f.Synced? then old(pending) - {id} else old(pending)
    {
      Take(Lifecycle.Action.RemoveFile(m, f));
      if f.NotDone? { return; }
      disk := disk - {id};
      if f.Synced? { pending := pending - {id}; }
    }

    /**
     * Memory first, then the file, then the row; the record goes only when the row has it. Whatever fails on the way,
     * the outcome is in the row or still in memory.
     */
    method SaveMessageOutcome(m: int, ghost w: Worker, id: Id, o: Outcome, locked: bool, file: FileOp, save: Reply,
                              unlink: FileOp)
      requires Valid() && At(m, w, Deciding(o)) && w.id == id && !ReplayOn(sys, id)
      modifies this
      ensures Valid() && OnlyWorker(old(sys), m) && sys.log == old(sys).log && m !in sys.workers && old(steps) <= steps
      ensures old(Sound()) ==> Sound()
      ensures rows == if locked && save.Committed() then WithOutcome(old(rows), id, o) else old(rows)
      ensures id in old(rows) ==>
                id in rows && rows == old(rows)[id := rows[id]] && Touched(old(rows)[id], rows[id])
      ensures locked && save.Acked? && unlink.Synced? ==> id !in pending && id !in disk
      ensures locked && !(save.Acked? && unlink.Synced?) ==> id in pending && pending[id] == o
      ensures locked && !save.Acked? && !file.NotDone? ==> id in disk && disk[id] == Good(o)
      ensures !locked ==> pending == old(pending) && disk == old(disk)
    {
      hide WithOutcome, Linked, Sound, Touched, Do, Enabled;
      OnlyThat(rows, id, o);
      var recorded := RecordOutcome(m, w, id, o, locked);
      if !recorded { return; }
      SaveFile(m, w, id, o, file);
      var applied := ApplyRow(m, w, id, o, save);
      if !applied { return; }
      RemoveFile(m, w, id, unlink);
    }

    // ---------- One worker ----------

    /** The checks before the claim, in their order. */
    static method Admit(id: Id, kind: Kind, e: Before) returns (v: Verdict)
      ensures v == Precheck(id, kind, e)
    {
      if e.expired { return Stop(Outcome(if IsRx(id) then Expired else Failed, MessageExpired)); }
      if !e.epochCurrent { return Stop(Outcome(Cancelled, Code("DEVICE_CHANGED"))); }
      if !e.valid { return Wait("DEVICE_CHANGED"); }
      if kind == Sms && !e.ready { return Wait("SMS_NOT_READY"); }
      if kind == Mms && !e.profileMatched { return Wait("MMS_CONFIG_REQUIRED"); }
      if kind == Mms && e.useWifi && !e.wifiRegistered { return Wait("MMS_NETWORK_REQUIRED"); }
      if kind == Mms && !e.useWifi && (!e.cellRegistered || (e.roaming && !e.roamingAllowed)) {
        return Wait(if e.roaming then "MMS_ROAMING_DISABLED" else "MMS_NETWORK_REQUIRED");
      }
      if !e.reserved { return Leave; }
      if !e.useWifi && !e.gateFree { return Wait(if kind == Sms then "SMS_BUSY" else "MMS_BUSY"); }
      if e.expiredAtGate { return Stop(Expiry(id)); }
      return Proceed;
    }

    method ReadMessage(m: int, id: Id) returns (free: bool, ghost w: Worker)
      requires Valid() && id in rows && Enabled(sys, Select(m, id))
      modifies this`sys, this`steps
      ensures Valid() && old(steps) <= steps && OnlyWorker(old(sys), m) && sys.log == old(sys).log
      ensures old(Sound()) ==> Sound()
      ensures free <==> id !in pending && id !in disk
      ensures w == Worker(id, sys.now, rows[id].createdAt, Selected(rows[id].state))
      ensures if free then At(m, w, Cleared(rows[id].state)) else m !in sys.workers
    {
      Take(Select(m, id));
      w := sys.workers[m];
      free := id !in pending && id !in disk;
      Take(CheckJournal(m));
    }

    method ClaimMessage(m: int, ghost w: Worker, id: Id, seen: MState, epochCurrent: bool, reply: Reply, now: int)
                        returns (ok: bool)
      requires Valid() && At(m, w, Checked(seen)) && w.id == id && id in rows && now == sys.now
      modifies this`rows, this`sys, this`steps
      ensures Valid() && old(steps) <= steps && OnlyWorker(old(sys), m) && sys.log == old(sys).log
      ensures old(Sound()) ==> Sound()
      ensures var won := old(rows)[id].state == seen && old(rows)[id].deletedAt.None? && epochCurrent;
              && (ok <==> won && reply.Acked?)
              && rows == if won && reply.Committed() then old(rows)[id := ClaimedRow(id, old(rows)[id], now)]
                  else old(rows)
      ensures if ok then At(m, w, Claimed) else m !in sys.workers
    {
      Take(Claim(m, epochCurrent, reply));
      var r := rows[id];
      if r.state != seen || r.deletedAt.Some? || !epochCurrent { return false; }
      if reply.Committed() {
        rows := rows[id := if IsRx(id) then r.(state := Downloading, issue := NoIssue)
                           else r.(state := Sending, issue := NoIssue, operationAt := Some(now))];
      }
      ok := reply.Acked?;
    }

    /** One of the two rounds of checks: stopped with an outcome, left, or allowed to go on. */
    method CheckBefore(m: int, ghost w: Worker, id: Id, seen: MState, e: Before) returns (v: Verdict)
      requires Valid() && At(m, w, Cleared(seen)) && w.id == id && id in rows
      modifies this`sys, this`steps
      ensures Valid() && old(steps) <= steps && OnlyWorker(old(sys), m) && sys.log == old(sys).log
      ensures old(Sound()) ==> Sound()
      ensures v == Precheck(id, rows[id].kind, e)
      ensures match v case Stop(o) => At(m, w, Deciding(o)) case Leave => m !in sys.workers
              case Proceed => At(m, w, Checked(seen))
    {
      Take(Check(m, e));
      v := Admit(id, rows[id].kind, e);
    }

    method CheckAfter(m: int, ghost w: Worker, id: Id, e: After) returns (v: Verdict)
      requires Valid() && At(m, w, Claimed) && w.id == id && id in rows
      modifies this`sys, this`steps
      ensures Valid() && old(steps) <= steps && OnlyWorker(old(sys), m) && sys.log == old(sys).log
      ensures old(Sound()) ==> Sound()
      ensures v == Postcheck(id, rows[id].kind, e)
      ensures match v case Stop(o) => At(m, w, Deciding(o)) case Leave => m !in sys.workers
              case Proceed => At(m, w, Ready)
    {
      Take(Recheck(m, e));
      v := Postcheck(id, rows[id].kind, e);
    }

    /** The transport is called, exactly once, and its answer classified. */
    method Submit(m: int, ghost w: Worker, id: Id, answer: TransportReply) returns (o: Outcome)
      requires Valid() && At(m, w, Ready) && w.id == id
      modifies this`sys, this`steps
      ensures Valid() && old(steps) <= steps && OnlyWorker(old(sys), m)
      ensures old(Sound()) && Honest(answer) ==> Sound()
      ensures sys.log == old(sys).log
              + [Entry(id, w.born, sys.now, if NothingSubmitted(answer) then Nothing else Maybe)]
      ensures o == Classify(answer) && At(m, w, Deciding(o))
      ensures Means(o, answer)
    {
      hide SystemEffect, Precheck, Postcheck, Classify, Means, Linked, Sound;
      Take(HandOff(m));
      assert At(m, w, Handed(|old(sys).log|));
      Take(Answered(m, answer));
      o := Classify(answer);
      ClassifyMeans(answer);
    }

    /** The look into the journal and the checks before the claim; a message they stop gets its outcome here. */
    method CheckSelected(m: int, id: Id, e: World) returns (clear: bool, ghost w: Worker)
      requires Valid() && id in rows && Enabled(sys, Select(m, id)) && sys.replay.Idle?
      modifies this
      ensures Valid() && old(steps) <= steps && OnlyWorker(old(sys), m) && sys.log == old(sys).log
      ensures old(Sound()) ==> Sound()
      ensures clear <==> !(id in old(pending) || id in old(disk)) && MayClaim(old(rows)[id].kind, e.before)
      ensures old(rows)[id].deletedAt.None? && w.id == id && w.born == old(rows)[id].createdAt
      ensures if clear then At(m, w, Checked(old(rows)[id].state)) else m !in sys.workers
      ensures clear || id in old(pending) || id in old(disk) ==>
                rows == old(rows) && pending == old(pending) && disk == old(disk)
      ensures id in rows && rows == old(rows)[id := rows[id]] && Touched(old(rows)[id], rows[id])
      ensures !clear && !(id in old(pending) || id in old(disk)) && e.locked && e.save.Committed() ==>
                Leaves(id, old(rows)[id], rows[id], e)
    {
      assert rows[id].deletedAt.None?;
      hide Precheck, Do, Enabled, WithOutcome, Linked, Sound, StopShows, MayClaim, Fit;
      PrecheckExactly(rows, id, e.before);
      var seen := rows[id].state;
      clear, w := ReadMessage(m, id);
      if !clear { return; }
      var v := CheckBefore(m, w, id, seen, e.before);
      if v.Stop? { SaveMessageOutcome(m, w, id, v.outcome, e.locked, e.file, e.save, e.unlink); }
      clear := v.Proceed?;
    }

    /** processMessage from the selection of a row to its claim. */
    method ClaimSelected(m: int, id: Id, e: World, now: int) returns (claimed: bool, ghost w: Worker)
      requires Valid() && id in rows && Enabled(sys, Select(m, id)) && sys.replay.Idle? && now == sys.now
      modifies this
      ensures Valid() && old(steps) <= steps && OnlyWorker(old(sys), m) && sys.log == old(sys).log
      ensures old(Sound()) ==> Sound()
      ensures claimed <==>
              !(id in old(pending) || id in old(disk)) && MayClaim(old(rows)[id].kind, e.before) && e.epochCurrent
              && e.claim.Acked?
      ensures old(rows)[id].deletedAt.None? && w.id == id && w.born == old(rows)[id].createdAt
      ensures if claimed then At(m, w, Claimed) else m !in sys.workers
      ensures claimed ==>
                rows == old(rows)[id := ClaimedRow(id, old(rows)[id], now)] && pending == old(pending)
                && disk == old(disk)
      ensures id in rows && rows == old(rows)[id := rows[id]] && Touched(old(rows)[id], rows[id])
      ensures id in old(pending) || id in old(disk) ==> rows == old(rows)
      ensures !claimed && !(id in old(pending) || id in old(disk)) && e.locked && e.save.Committed() ==>
                Leaves(id, old(rows)[id], rows[id], e)
    {
      hide Precheck, Do, Enabled, WithOutcome, Linked, Sound, StopShows, MayClaim, Fit;
      var seen := rows[id].state;
      claimed, w := CheckSelected(m, id, e);
      if claimed { claimed := ClaimMessage(m, w, id, seen, e.epochCurrent, e.claim, now); }
    }

    /**
     * processMessage from the selection of a row to its last statement. It hands off at most once, and only a message
     * without a pending outcome, in the state it was selected in.
     */
    method ProcessMessage(m: int, id: Id, e: World, now: int) returns (handed: bool)
      requires Valid() && id in rows && Enabled(sys, Select(m, id)) && sys.replay.Idle? && now == sys.now
      modifies this
      ensures Valid() && old(steps) <= steps && m !in sys.workers
      ensures old(Sound()) && Honest(e.answer) ==> Sound()
      ensures handed <==> HandsOff(id, old(rows)[id], id in old(pending) || id in old(disk), e)
      ensures !handed ==> sys.log == old(sys).log
      ensures handed ==> sys.log == old(sys).log + [Entry(id, old(rows)[id].createdAt, now,
                                                          if NothingSubmitted(e.answer) then Nothing else Maybe)]
      ensures id in rows && rows == old(rows)[id := rows[id]] && Touched(old(rows)[id], rows[id])
      ensures id in old(pending) || id in old(disk) ==> rows == old(rows)
      ensures !(id in old(pending) || id in old(disk)) && e.locked && e.save.Committed() ==>
                Leaves(id, old(rows)[id], rows[id], e)
      ensures handed && e.locked && e.save.Committed() ==>
                Shows(rows[id], e.answer)
                && (rows[id].state in {Accepted, Partial, Unknown} ==> Enabled(sys, Receipt(id, true)))
      ensures handed && !(e.locked && e.save.Committed()) ==>
                rows[id].state == (if IsRx(id) then Downloading else Sending) && rows[id].issue == NoIssue
      ensures handed && !e.locked ==> pending == old(pending) && disk == old(disk)
      ensures OnlyWorker(old(sys), m)
    {
      assert sys.boot.Up?;
      hide Do, Enabled, Linked, Sound, Shows, StopShows, HaltShows, MayClaim, MaySubmit, Fit;
      var claimed, w := ClaimSelected(m, id, e, now);
      if !claimed { return false; }
      handed := SendClaimed(m, w, id, e);
      Awaiting(id);
    }

    lemma {:induction false} Awaiting(id: Id)
      requires id in sys.rows
      ensures sys.boot.Up? && AwaitsReceipt(sys.rows[id]) ==> Enabled(sys, Receipt(id, true))
    {
    }

    /** What follows a successful claim: the second checks, the transport, and the outcome. */
    method SendClaimed(m: int, ghost w: Worker, id: Id, e: World) returns (handed: bool)
      requires Valid() && At(m, w, Claimed) && w.id == id && id in rows && sys.replay.Idle?
      modifies this
      ensures Valid() && old(steps) <= steps && m !in sys.workers && OnlyWorker(old(sys), m)
      ensures old(Sound()) && Honest(e.answer) ==> Sound()
      ensures handed <==> MaySubmit(id, old(rows)[id].kind, e.after)
      ensures !handed ==> sys.log == old(sys).log
      ensures handed ==>
              sys.log == old(sys).log
                  + [Entry(id, w.born, sys.now, if NothingSubmitted(e.answer) then Nothing else Maybe)]
      ensures id in rows && rows == old(rows)[id := rows[id]] && Touched(old(rows)[id], rows[id])
      ensures !(e.locked && e.save.Committed()) ==> rows == old(rows)
      ensures e.locked && e.save.Committed() && old(rows)[id].deletedAt.None?
              && old(rows)[id].state in {Sending, Downloading} ==>
                if handed then
                  Shows(rows[id], e.answer)
                  && (AwaitsReceipt(rows[id]) <==> !(rows[id].state in {Failed, WaitingNetwork}))
                else HaltShows(id, rows[id], e.after)
      ensures handed && !e.locked ==> pending == old(pending) && disk == old(disk)
    {
      hide Precheck, Postcheck, Classify, Do, Enabled, WithOutcome, Linked, Sound, Shows, HaltShows, MaySubmit;
      PostcheckExactly(rows, id, e.after);
      ghost var open := rows[id].deletedAt.None? && rows[id].state in {Sending, Downloading};
      var v := CheckAfter(m, w, id, e.after);
      if v.Stop? {
        SaveMessageOutcome(m, w, id, v.outcome, e.locked, e.file, e.save, e.unlink);
        return false;
      }
      if open { AnswerShown(rows, id, e.answer); }
      var o := Submit(m, w, id, e.answer);
      SaveMessageOutcome(m, w, id, o, e.locked, e.file, e.save, e.unlink);
      handed := true;
    }

    // ---------- Replay and restart ----------

    /** replayOne: the outcome in memory, or else in the file, reaches the row before its record goes. */
    method ReplayOne(id: Id, reply: Reply, unlink: FileOp) returns (ok: bool)
      requires Valid() && Enabled(sys, ReplayTake(id))
      modifies this
      ensures Valid() && old(steps) <= steps && sys.replay.Idle? && sys.log == old(sys).log
      ensures old(Sound()) && (unlink.Unsynced? ==> old(MayReturn(sys, id))) ==> Sound()
      ensures var o := if id in old(pending) then old(pending)[id] else old(disk)[id].o;
              rows == if reply.Committed() then WithOutcome(old(rows), id, o) else old(rows)
      ensures ok <==> reply.Acked? && unlink.Synced?
      ensures ok ==> pending == old(pending) - {id} && disk == old(disk) - {id}
      ensures sys.boot == old(sys).boot && sys.workers == old(sys).workers
      ensures !reply.Acked? ==> pending == old(pending) && disk == old(disk)
    {
      hide Linked, Sound, WithOutcome;
      var o := if id in pending then pending[id] else disk[id].o;
      Take(ReplayTake(id));
      ok := ReplayRow(id, o, reply);
      if ok { ok := ReplayUnlink(id, unlink); }
    }

    method ReplayRow(id: Id, o: Outcome, reply: Reply) returns (ok: bool)
      requires Valid() && sys.replay == Holding(id, o)
      modifies this`rows, this`sys, this`steps
      ensures Valid() && old(steps) <= steps && sys.log == old(sys).log && (ok <==> reply.Acked?)
      ensures old(Sound()) ==> Sound()
      ensures sys == old(sys).(rows := rows, replay := if ok then Done(id) else Idle)
      ensures rows == if reply.Committed() then WithOutcome(old(rows), id, o) else old(rows)
    {
      hide WithOutcome;
      Take(ReplayApply(reply));
      ok := ApplyMessageOutcome(id, o, reply);
    }

    method ReplayUnlink(id: Id, unlink: FileOp) returns (ok: bool)
      requires Valid() && sys.replay == Done(id)
      modifies this`pending, this`disk, this`sys, this`steps
      ensures Valid() && old(steps) <= steps && sys.log == old(sys).log && sys.replay.Idle?
      ensures old(Sound()) && (unlink.Unsynced? ==> old(MayReturn(sys, id))) ==> Sound()
      ensures ok <==> unlink.Synced?
      ensures ok ==> pending == old(pending) - {id} && disk == old(disk) - {id}
      ensures sys.boot == old(sys).boot && sys.workers == old(sys).workers
    {
      hide Linked, Sound;
      Take(ReplayRemove(unlink));
      if unlink.NotDone? { return false; }
      disk := disk - {id};
      if unlink.Unsynced? { return false; }
      pending := pending - {id};
      ok := true;
    }

    /**
     * The process dies, at any point, and starts again: memory is gone, and of the files whose last change was not
     * durable some are as they were before. `found` is the directory afterwards.
     */
    method Restart(ghost survivors: map<Id, Record>, found: map<Id, Record>)
      requires Valid() && Enabled(sys, Crash(survivors))
      requires found == (disk - sys.limbo.Keys) + survivors
      modifies this
      ensures Valid() && old(steps) <= steps && rows == old(rows) && pending == map[] && disk == found
      ensures old(Sound()) ==> Sound()
      ensures sys.log == old(sys).log && sys.now == old(sys).now
      ensures sys.boot.Replaying? && sys.replay.Idle? && sys.workers == map[]
    {
      Take(Crash(survivors));
      pending, disk := map[], found;
    }

    lemma {:induction false} OnlyThat(rows: map<Id, Row>, id: Id, o: Outcome)
      ensures WithOutcome(rows, id, o).Keys == rows.Keys
      ensures forall k :: k in rows && k != id ==> WithOutcome(rows, id, o)[k] == rows[k]
      ensures id in rows ==> Touched(rows[id], WithOutcome(rows, id, o)[id]) && Touched(rows[id], rows[id])
    {
    }

    /** The process has started and nothing else runs yet. */
    ghost predicate Starting() reads this { Valid() && sys.boot.Replaying? && sys.replay.Idle? && sys.workers == map[] }

    /** One record at startup; nothing but its own row and record changes. */
    method ReplayNext(id: Id, reply: Reply, unlink: FileOp) returns (ok: bool)
      requires Starting() && (id in pending || (id in disk && disk[id].Good?))
      modifies this
      ensures Starting() && old(steps) <= steps && sys.log == old(sys).log
      ensures old(Sound()) && !unlink.Unsynced? ==> Sound()
      ensures ok <==> reply.Acked? && unlink.Synced?
      ensures ok ==> pending == old(pending) - {id} && disk == old(disk) - {id}
      ensures rows.Keys == old(rows).Keys && forall k :: k in rows && k != id ==> rows[k] == old(rows)[k]
    {
      hide Linked, Sound, Do, WithOutcome;
      OnlyThat(rows, id, if id in pending then pending[id] else disk[id].o);
      ok := ReplayOne(id, reply, unlink);
    }

    /** The replay at startup, up to the first error; damaged records stay where they are. */
    method ReplayAll(reply: Id -> Reply, unlink: Id -> FileOp) returns (drained: bool)
      requires Starting()
      modifies this
      ensures Starting() && old(steps) <= steps && sys.log == old(sys).log
      ensures old(Sound()) && (forall id :: !unlink(id).Unsynced?) ==> Sound()
      ensures (forall id :: reply(id).Acked? && unlink(id).Synced?) ==> drained
      ensures drained ==> Enabled(sys, ReplayDrained) && pending == map[] && disk.Keys <= old(disk).Keys
      ensures rows.Keys == old(rows).Keys
      ensures forall id :: id in rows && id !in old(pending) && id !in old(disk) ==> rows[id] == old(rows)[id]
    {
      hide Starting;
      var todo := pending.Keys + set id | id in disk && disk[id].Good?;
      while todo != {}
        invariant Starting() && old(steps) <= steps && sys.log == old(sys).log
        invariant pending.Keys <= todo && (forall id :: id in todo ==> id in pending || (id in disk && disk[id].Good?))
        invariant forall id :: id in disk && disk[id].Good? ==> id in todo
        invariant pending.Keys <= old(pending).Keys && disk.Keys <= old(disk).Keys && rows.Keys == old(rows).Keys
        invariant forall id :: id in rows && id !in old(pending) && id !in old(disk) ==> rows[id] == old(rows)[id]
        invariant old(Sound()) && (forall id :: !unlink(id).Unsynced?) ==> Sound()
      {
        var id :| id in todo;
        drained := ReplayNext(id, reply(id), unlink(id));
        if !drained { return; }
        todo := todo - {id};
      }
      AllReplayed();
      drained := true;
    }

    lemma {:induction false} AllReplayed()
      requires Starting() && pending == map[] && forall id :: id in disk ==> disk[id].Damaged?
      ensures Enabled(sys, ReplayDrained)
    {
    }

    /** After the replay: old confirmations are restored, then whatever was being sent counts as unknown. */
    method PrepareMessages(repaired: Reply, interrupted: Reply) returns (up: bool)
      requires Valid() && Enabled(sys, ReplayDrained)
      modifies this
      ensures Valid() && old(steps) <= steps && sys.log == old(sys).log
      ensures old(Sound()) ==> Sound()
      ensures up <==> repaired.Acked? && interrupted.Acked?
      ensures up ==> sys.boot.Up? && forall id :: id in rows ==>
              id in old(rows)
              && rows[id] == Interrupted(Repaired(old(rows)[id]))
      ensures up ==> rows.Keys == old(rows).Keys && forall id :: id in rows ==> rows[id].state != Sending
      ensures up ==> forall id :: id in rows ==> Restored(old(rows)[id], rows[id])
      ensures sys == old(sys).(rows := rows, boot := sys.boot) && pending == old(pending) && disk == old(disk)
    {
      hide WorkerEffect, Linked, Sound, Repaired, Restored;
      forall id | id in rows ensures Restored(rows[id], Interrupted(Repaired(rows[id]))) { RestoredIs(rows[id]); }
      Take(ReplayDrained);
      var ok := RepairRows(repaired);
      if !ok { return false; }
      up := InterruptRows(interrupted);
    }

    /** UPDATE over the table, row by row. */
    static method RepairTable(rows: map<Id, Row>) returns (after: map<Id, Row>)
      ensures after == map id | id in rows :: Repaired(rows[id])
    {
      after := rows;
      var todo := rows.Keys;
      while todo != {}
        invariant todo <= after.Keys == rows.Keys
        invariant forall id :: id in todo ==> after[id] == rows[id]
        invariant forall id :: id in rows && id !in todo ==> after[id] == Repaired(rows[id])
      {
        var id :| id in todo;
        todo := todo - {id};
        var r := rows[id];
        if r.deletedAt.None? && r.state == Unknown
           && (if r.kind == Sms then r.issue == SmsDeliveryUnconfirmed else r.issue == MmsDeliveryUnconfirmed) {
          after := after[id := r.(state := Accepted, issue := NoIssue)];
        }
      }
    }

    static method InterruptTable(rows: map<Id, Row>) returns (after: map<Id, Row>)
      ensures after == map id | id in rows :: Interrupted(rows[id])
    {
      after := rows;
      var todo := rows.Keys;
      while todo != {}
        invariant todo <= after.Keys == rows.Keys
        invariant forall id :: id in todo ==> after[id] == rows[id]
        invariant forall id :: id in rows && id !in todo ==> after[id] == Interrupted(rows[id])
      {
        var id :| id in todo;
        todo := todo - {id};
        if rows[id].state == Sending { after := after[id := rows[id].(state := Unknown, issue := SendInterrupted)]; }
      }
    }

    method RepairRows(reply: Reply) returns (ok: bool)
      requires Valid() && sys.boot.Repairing?
      modifies this
      ensures Valid() && steps == old(steps) + [Repair(reply)] && sys.log == old(sys).log && (ok <==> reply.Acked?)
      ensures sys == old(sys).(rows := rows, boot := sys.boot) && pending == old(pending) && disk == old(disk)
      ensures old(Sound()) ==> Sound()
      ensures ok ==> sys.boot.Interrupting? && rows.Keys == old(rows).Keys
                     && forall id :: id in rows ==> rows[id] == Repaired(old(rows)[id])
    {
      if reply.Committed() { rows := RepairTable(rows); }
      Take(Repair(reply));
      ok := reply.Acked?;
    }

    method InterruptRows(reply: Reply) returns (ok: bool)
      requires Valid() && sys.boot.Interrupting?
      modifies this
      ensures Valid() && steps == old(steps) + [Interrupt(reply)] && sys.log == old(sys).log && (ok <==> reply.Acked?)
      ensures sys == old(sys).(rows := rows, boot := sys.boot) && pending == old(pending) && disk == old(disk)
      ensures old(Sound()) ==> Sound()
      ensures ok ==> sys.boot.Up? && rows.Keys == old(rows).Keys
                     && forall id :: id in rows ==> rows[id] == Interrupted(old(rows)[id])
    {
      if reply.Committed() { rows := InterruptTable(rows); }
      Take(Interrupt(reply));
      ok := reply.Acked?;
    }
  }

  /** Everything goes well before the message is handed off, and then its answer is lost. */
  predicate Answerless(e: World) {
    e.before == CLEAR && e.epochCurrent && e.claim.Acked? && e.after == CLEAR_AFTER && !e.locked
  }

  lemma {:induction false} ClearProceeds(id: Id)
    requires !IsRx(id)
    ensures Precheck(id, Sms, CLEAR) == Proceed && Postcheck(id, Sms, CLEAR_AFTER) == Proceed
  {
  }

  /** From an empty start: a message is enqueued and handed off, and its outcome gets lost. */
  method FirstHandOff(id: Id, m: int, now: int, e: World) returns (r: Runtime)
    requires !IsRx(id) && Answerless(e) && Honest(e.answer)
    ensures fresh(r) && r.Valid() && r.Sound() && r.sys.boot.Up? && r.pending == map[] && r.disk == map[]
    ensures r.sys.log == [Entry(id, now, now, if NothingSubmitted(e.answer) then Nothing else Maybe)]
    ensures r.rows.Keys == {id} && r.rows[id].state == Sending && r.rows[id].deletedAt.None?
  {
    hide Classify, WithOutcome, Do, Precheck, Postcheck, Runtime.Linked, Runtime.Sound;
    ClearProceeds(id);
    r := new Runtime(now);
    var up := r.PrepareMessages(Acked, Acked);
    r.Enqueue(id, m, Sms, 600, now);
    var handed := r.ProcessMessage(m, id, e, now);
  }

  /** Then the process dies. After the restart the message counts as unknown, and is in no queue. */
  method FirstMessage(id: Id, m: int, now: int, e: World) returns (r: Runtime)
    requires !IsRx(id) && Answerless(e) && Honest(e.answer)
    ensures fresh(r) && r.Valid() && r.Sound() && r.sys.boot.Up?
    ensures r.sys.log == [Entry(id, now, now, if NothingSubmitted(e.answer) then Nothing else Maybe)]
    ensures r.rows.Keys == {id} && r.rows[id].state == Unknown && r.rows[id].issue == SendInterrupted
  {
    hide Do, Runtime.Linked, Runtime.Sound;
    r := FirstHandOff(id, m, now, e);
    r.Restart(map[], map[]);
    var up := r.ReplayAll(_ => Acked, _ => Synced);
    up := r.PrepareMessages(Acked, Acked);
  }

  /** However the runtime was used, it never hands a possibly submitted message off again. */
  lemma {:induction false} RuntimeNeverResubmits(r: Runtime)
    requires r.Valid() && r.Sound()
    ensures NeverResubmitted(r.sys.log)
  {
    NoMessageResubmitted(r.start, r.steps);
  }
}
