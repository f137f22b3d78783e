/**
 * The life of an outgoing message: enqueue, claim, hand-off to a transport, outcome journal,
 * replay, crash and restart, timeout, receipts, deletion and purge, interleaved in any order.
 *
 * One `Action` is one atomic effect (a database statement, a file operation, an in-memory update),
 * so a crash may fall between any two of them.
 */
module Lifecycle {
  import opened Common

  type Id = string

  datatype Kind = Sms | Mms

  datatype MState =
    | Queued | WaitingNetwork | Sending | Downloading | Unknown | Failed
    | Accepted | Partial | Delivered | Cancelled | Expired | Received

  datatype Issue =
    | NoIssue | SendInterrupted | ResultTimeout | MessageExpired
    | SmsDeliveryUnconfirmed | MmsDeliveryUnconfirmed | Code(text: string)

  /** A row of the messages table with `mine` set. */
  datatype Row = Row(module_id: int, kind: Kind, state: MState, issue: Issue,
                     createdAt: int, operationAt: Option<int>, expiresAt: int, deletedAt: Option<int>)

  datatype Outcome = Outcome(state: MState, issue: Issue)

  // ---------- Transport replies and their classification ----------

  datatype SmsError = NoSmsError | SmsNotReady | SmsBusy | SmscUnavailable | SmsRejected | OtherSmsError
  /** An error of the MMS transport: its text, and whether it is, or wraps, the client's network error. */
  datatype MmsError = NoMmsError | MmsFailure(text: string, network: bool)

  datatype TransportReply =
    | SmsReply(smsErr: SmsError, allAccepted: bool, partsTotal: int, partsAccepted: int, partsAttempted: int)
    | CellularMmsReply(accepted: bool, attempted: bool, err: MmsError)
    | WifiMmsReply(err: MmsError, submitted: bool)   // `submitted` is what happened; the code sees the error only

  predicate Says(e: MmsError, text: string) { e.MmsFailure? && e.text == text }

  /** The error means that there is no network for MMS at the moment. */
  predicate NoNetwork(e: MmsError) {
    e.MmsFailure? && (e.network || e.text == "MMS_BUSY" || "MMS_IWLAN_" <= e.text)
  }

  function MmsIssue(e: MmsError): Issue {
    Code(if e.MmsFailure? then e.text else "MMS_OUTCOME_UNKNOWN")
  }

  /** The state and issue chosen for what a transport answered. */
  function Classify(r: TransportReply): Outcome {
    match r
    case SmsReply(e, all, total, accepted, attempted) =>
      if e == SmsNotReady || e == SmsBusy then
        Outcome(WaitingNetwork, Code(if e == SmsBusy then "SMS_BUSY" else "SMS_NOT_READY"))
      else if e == SmscUnavailable then Outcome(Failed, Code("SMS_SMSC_UNAVAILABLE"))
      else if all && total > 0 then Outcome(Accepted, NoIssue)
      else if accepted > 0 then Outcome(Partial, Code("SMS_PARTIAL"))
      else if e == SmsRejected || (attempted > 0 && e == NoSmsError) then Outcome(Failed, Code("SMS_REJECTED"))
      else Outcome(Unknown, Code("SMS_OUTCOME_UNKNOWN"))
    case CellularMmsReply(accepted, attempted, e) =>
      if accepted && e.NoMmsError? then Outcome(Accepted, NoIssue)
      else if Says(e, "MMS_REJECTED") then Outcome(Failed, MmsIssue(e))
      else if attempted then Outcome(Unknown, MmsIssue(e))
      else if Says(e, "MMS_NOT_READY") then Outcome(WaitingNetwork, MmsIssue(e))
      else Outcome(Failed, MmsIssue(e))
    case WifiMmsReply(e, _) =>
      if e.NoMmsError? then Outcome(Accepted, NoIssue)
      else if NoNetwork(e) then Outcome(WaitingNetwork, MmsIssue(e))
      else if Says(e, "MMS_REJECTED") then Outcome(Failed, MmsIssue(e))
      else Outcome(Unknown, MmsIssue(e))
  }

  /** The transport reports that it submitted nothing. */
  predicate NothingSubmitted(r: TransportReply) {
    match r
    case SmsReply(e, all, _, accepted, attempted) =>
      (e == SmsNotReady || e == SmsBusy) && !all && accepted <= 0 && attempted <= 0
    case CellularMmsReply(accepted, attempted, e) => Says(e, "MMS_NOT_READY") && !accepted && !attempted
    case WifiMmsReply(e, submitted) => NoNetwork(e) && !submitted
  }

  /** Transports answer "not ready", "busy" or "no network" only when nothing was attempted. */
  predicate Honest(r: TransportReply) {
    match r
    case SmsReply(e, all, _, accepted, attempted) =>
      e == SmsNotReady || e == SmsBusy ==> !all && accepted <= 0 && attempted <= 0
    case CellularMmsReply(accepted, attempted, e) => Says(e, "MMS_NOT_READY") && !attempted ==> !accepted
    case WifiMmsReply(e, submitted) => NoNetwork(e) ==> !submitted
  }

  /** A transport is honest exactly when a re-queueing classification means that nothing was submitted. */
  lemma {:induction false} RetryMeansNothing(r: TransportReply)
    ensures Honest(r) <==> (Classify(r).state == WaitingNetwork ==> NothingSubmitted(r))
    ensures NothingSubmitted(r) ==> Classify(r).state == WaitingNetwork
  {
  }

  // ---------- The checks around the claim ----------

  datatype Before = Before(
    expired: bool, epochCurrent: bool, valid: bool, ready: bool, useWifi: bool, wifiRegistered: bool,
    profileMatched: bool, cellRegistered: bool, roaming: bool, roamingAllowed: bool,
    reserved: bool, gateFree: bool, expiredAtGate: bool)

  datatype After = After(
    useWifi: bool, transportPresent: bool, busy: bool, metadataValid: bool, imageValid: bool, download: Outcome)

  datatype Verdict = Stop(outcome: Outcome) | Leave | Proceed

  predicate IsRx(id: Id) { |id| >= 3 && id[..3] == "rx-" }

  function Expiry(id: Id): Outcome { Outcome(if IsRx(id) then Expired else Failed, MessageExpired) }

  function Wait(code: string): Verdict { Stop(Outcome(WaitingNetwork, Code(code))) }

  /** What processMessage does with a selected row before it claims it. */
  function Precheck(id: Id, kind: Kind, e: Before): Verdict {
    if e.expired then Stop(Expiry(id))
    else if !e.epochCurrent then Stop(Outcome(Cancelled, Code("DEVICE_CHANGED")))
    else if !e.valid then Wait("DEVICE_CHANGED")
    else if kind == Sms && !e.ready then Wait("SMS_NOT_READY")
    else if kind == Mms && !e.profileMatched then Wait("MMS_CONFIG_REQUIRED")
    else if kind == Mms && e.useWifi && !e.wifiRegistered then Wait("MMS_NETWORK_REQUIRED")
    else if kind == Mms && !e.useWifi && (!e.cellRegistered || (e.roaming && !e.roamingAllowed)) then
      Wait(if e.roaming then "MMS_ROAMING_DISABLED" else "MMS_NETWORK_REQUIRED")
    else if !e.reserved then Leave
    else if !e.useWifi && !e.gateFree then Wait(if kind == Sms then "SMS_BUSY" else "MMS_BUSY")
    else if e.expiredAtGate then Stop(Expiry(id))
    else Proceed
  }

  /** What it does between a successful claim and the call of the transport. */
  function Postcheck(id: Id, kind: Kind, e: After): Verdict {
    if kind == Sms then
      if !e.transportPresent || (!e.useWifi && e.busy) then Wait("SMS_NOT_READY") else Proceed
    else if !e.useWifi && !e.transportPresent then Stop(Outcome(Failed, Code("MMS_MODEM_UNSUPPORTED")))
    else if !e.useWifi && e.busy then Wait("MMS_BUSY")
    else if IsRx(id) then
      if !e.metadataValid then Stop(Outcome(Failed, Code("MMS_INVALID_NOTIFICATION"))) else Stop(e.download)
    else if !e.imageValid then Stop(Outcome(Failed, Code("INVALID_IMAGE")))
    else if !e.transportPresent then Wait("MMS_NETWORK_REQUIRED")
    else Proceed
  }

  // ---------- Guarded row updates ----------

  predicate Applicable(o: Outcome) {
    o.state in {WaitingNetwork, Expired, Cancelled, Failed, Unknown, Accepted, Partial, Received}
  }

  predicate TakesOutcome(r: Row, o: Outcome) {
    && r.deletedAt.None?
    && (|| r.state in {Queued, WaitingNetwork, Sending, Downloading}
        || (r.state == Unknown && r.issue == SendInterrupted)
        || (r.state == Failed && r.issue == ResultTimeout
            && o.state in {Accepted, Partial, Failed} && o.issue != ResultTimeout))
  }

  /** applyMessageOutcome on one row. */
  function WithOutcome(rows: map<Id, Row>, id: Id, o: Outcome): map<Id, Row> {
    if Applicable(o) && id in rows && TakesOutcome(rows[id], o)
    then rows[id := rows[id].(state := o.state, issue := o.issue)]
    else rows
  }

  function WithDeletion(r: Row, now: int): Row {
    r.(deletedAt := Some(now), state := if r.state in {Queued, WaitingNetwork} then Cancelled else r.state)
  }

  const RESULT_TIMEOUT := 30 * MINUTE

  predicate Stale(r: Row, now: int) {
    && r.deletedAt.None?
    && (|| (r.state in {Sending, Unknown}
            && (if r.operationAt.Some? then r.operationAt.value else r.createdAt) <= now - RESULT_TIMEOUT)
        || (r.state in {Queued, WaitingNetwork} && r.expiresAt <= now))
  }

  function WithTimeout(r: Row, now: int): Row {
    if !Stale(r, now) then r
    else r.(state := Failed, issue := if r.state in {Queued, WaitingNetwork} then MessageExpired else ResultTimeout)
  }

  predicate AwaitsReceipt(r: Row) {
    r.state in {Accepted, Partial, Unknown} || (r.state == Failed && r.issue == ResultTimeout)
  }

  // ---------- What a row shows afterwards ----------

  /** What is recorded of a text message whose transport reported `all` or some of `total` parts accepted. */
  predicate SmsMeans(o: Outcome, e: SmsError, all: bool, total: int, accepted: int, attempted: int) {
    var counted := !e.SmsNotReady? && !e.SmsBusy? && !e.SmscUnavailable?;
    var whole := all && total > 0;
    var refused := e.SmsRejected? || (e.NoSmsError? && attempted > 0);
    && (o.state == Accepted <==> counted && whole)
    && (o.state == Partial <==> counted && !whole && accepted > 0)
    && (o.state == Failed <==> e.SmscUnavailable? || (counted && !whole && accepted <= 0 && refused))
    && (o.state == Unknown <==> counted && !whole && accepted <= 0 && !refused)
    && (o.state == WaitingNetwork <==> e.SmsNotReady? || e.SmsBusy?)
    && (o.issue == NoIssue <==> o.state == Accepted)
    && (o.issue == Code("SMS_PARTIAL") <==> o.state == Partial)
    && (o.issue == Code("SMS_OUTCOME_UNKNOWN") <==> o.state == Unknown)
    && (o.issue == Code("SMS_REJECTED") <==> o.state == Failed && !e.SmscUnavailable?)
    && (o.issue == Code("SMS_SMSC_UNAVAILABLE") <==> e.SmscUnavailable?)
    && (o.issue == Code("SMS_NOT_READY") <==> e.SmsNotReady?)
    && (o.issue == Code("SMS_BUSY") <==> e.SmsBusy?)
  }

  predicate CellularMmsMeans(o: Outcome, accepted: bool, attempted: bool, e: MmsError) {
    && (o.state == Accepted <==> accepted && e.NoMmsError?)
    && (o.state == Unknown <==> attempted && !Says(e, "MMS_REJECTED") && !(accepted && e.NoMmsError?))
    && (o.state == WaitingNetwork <==> !attempted && Says(e, "MMS_NOT_READY"))
    && (o.state == Failed <==>
        Says(e, "MMS_REJECTED")
        || (!attempted && !Says(e, "MMS_NOT_READY") && !(accepted && e.NoMmsError?)))
    && (o.issue == NoIssue <==> o.state == Accepted)
    && (o.state != Accepted ==> o.issue == Code(if e.MmsFailure? then e.text else "MMS_OUTCOME_UNKNOWN"))
  }

  predicate WifiMmsMeans(o: Outcome, e: MmsError) {
    && (o.state == Accepted <==> e.NoMmsError?)
    && (o.state == WaitingNetwork <==> NoNetwork(e))
    && (o.state == Failed <==> Says(e, "MMS_REJECTED") && !NoNetwork(e))
    && (o.state == Unknown <==> e.MmsFailure? && !Says(e, "MMS_REJECTED") && !NoNetwork(e))
    && (o.issue == NoIssue <==> o.state == Accepted)
    && (o.state != Accepted ==> o.issue == Code(e.text))
  }

  /** State and issue say what the transport answered. */
  predicate Means(o: Outcome, answer: TransportReply) {
    match answer
    case SmsReply(e, all, total, accepted, attempted) => SmsMeans(o, e, all, total, accepted, attempted)
    case CellularMmsReply(accepted, attempted, e) => CellularMmsMeans(o, accepted, attempted, e)
    case WifiMmsReply(e, _) => WifiMmsMeans(o, e)
  }

  predicate Shows(r: Row, answer: TransportReply) { Means(Outcome(r.state, r.issue), answer) }

  lemma {:induction false} ClassifyMeans(answer: TransportReply)
    ensures Means(Classify(answer), answer)
  {
  }

  /** A row that is being sent takes the answer; unless it waits again or has failed, it now awaits its receipt. */
  lemma {:induction false} AnswerShown(rows: map<Id, Row>, id: Id, answer: TransportReply)
    requires id in rows && rows[id].deletedAt.None? && rows[id].state in {Sending, Downloading}
    ensures var after := WithOutcome(rows, id, Classify(answer));
      && after == rows[id := rows[id].(state := after[id].state, issue := after[id].issue)]
      && Shows(after[id], answer)
      && (AwaitsReceipt(after[id]) <==> !(after[id].state in {Failed, WaitingNetwork}))
  {
    var o := Classify(answer);
    ClassifyMeans(answer);
    assert Applicable(o) && TakesOutcome(rows[id], o);
    assert o.issue != ResultTimeout;
  }

  /**
   * An outcome reaches a row that still waits for one, also one that a restart interrupted, and a definite late one
   * replaces a timeout; nothing else of the row changes, and no settled or deleted row takes any.
   */
  lemma {:induction false} TakenExactly(rows: map<Id, Row>, id: Id, o: Outcome)
    requires id in rows && Applicable(o)
    ensures WithOutcome(rows, id, o).Keys == rows.Keys
    ensures forall k :: k in rows && k != id ==> WithOutcome(rows, id, o)[k] == rows[k]
    ensures var r, after := rows[id], WithOutcome(rows, id, o)[id];
      var waits := r.state in {Queued, WaitingNetwork, Sending, Downloading};
      var interrupted := r.state == Unknown && r.issue == SendInterrupted;
      var timedOut := r.state == Failed && r.issue == ResultTimeout;
      var definite := o.state in {Accepted, Partial, Failed} && o.issue != ResultTimeout;
      if r.deletedAt.None? && (waits || interrupted || (timedOut && definite))
      then after == r.(state := o.state, issue := o.issue) else after == r
  {
  }

  /** What waited too long fails, and says why: an attempt after half an hour, a queued message when it expires. */
  lemma {:induction false} TimeoutExactly(r: Row, now: int)
    ensures var after := WithTimeout(r, now);
      var since := if r.operationAt.Some? then r.operationAt.value else r.createdAt;
      && after == r.(state := after.state, issue := after.issue)
      && (r.deletedAt.None? && r.state in {Sending, Unknown} && now - since >= 1800 ==>
          after.state == Failed && after.issue == ResultTimeout)
      && (r.deletedAt.None? && r.state in {Queued, WaitingNetwork} && now >= r.expiresAt ==>
          after.state == Failed && after.issue == MessageExpired)
      && (after != r ==>
          r.deletedAt.None? && if r.state in {Sending, Unknown} then now - since >= 1800
                               else r.state in {Queued, WaitingNetwork} && now >= r.expiresAt)
  {
  }

  /** Line, card and settings allow a submission now. */
  predicate Fit(kind: Kind, e: Before) {
    && e.valid && (kind == Sms ==> e.ready)
    && (kind == Mms ==>
      e.profileMatched && if e.useWifi then e.wifiRegistered else e.cellRegistered && (e.roaming ==> e.roamingAllowed))
  }

  /** Nothing stands in the way of the claim. */
  predicate MayClaim(kind: Kind, e: Before) {
    && !e.expired && e.epochCurrent && Fit(kind, e)
    && e.reserved && (e.useWifi || e.gateFree) && !e.expiredAtGate
  }

  /** The row of a message that the checks before the claim stopped with an outcome. */
  predicate StopShows(id: Id, r: Row, e: Before) {
    var late := e.expired || (e.epochCurrent && Fit(r.kind, e) && (e.useWifi || e.gateFree) && e.expiredAtGate);
    && (r.state == Expired <==> late && IsRx(id)) && (r.state == Failed <==> late && !IsRx(id))
    && (r.state == Cancelled <==> !e.expired && !e.epochCurrent)
    && (r.state == WaitingNetwork <==>
        !e.expired && e.epochCurrent && (Fit(r.kind, e) ==> !e.useWifi && !e.gateFree))
    && (r.issue == MessageExpired <==> late)
    && (r.issue == Code("DEVICE_CHANGED") <==> !e.expired && (!e.epochCurrent || !e.valid))
    && (r.issue == Code("SMS_NOT_READY") <==>
        !e.expired && e.epochCurrent && e.valid && r.kind == Sms && !e.ready)
  }

  /** The checks before the claim, as one condition: claim, leave the message alone, or stop it. */
  lemma {:induction false} PrecheckExactly(rows: map<Id, Row>, id: Id, e: Before)
    requires id in rows && rows[id].deletedAt.None? && rows[id].state in {Queued, WaitingNetwork}
    ensures var v := Precheck(id, rows[id].kind, e);
      && (v == Proceed <==> MayClaim(rows[id].kind, e))
      && (v == Leave <==> !e.expired && e.epochCurrent && Fit(rows[id].kind, e) && !e.reserved)
      && (v.Stop? ==>
        var after := WithOutcome(rows, id, v.outcome);
        && after == rows[id := rows[id].(state := after[id].state, issue := after[id].issue)]
        && StopShows(id, after[id], e))
  {
  }

  /** Nothing stands between a claimed message and its submission. */
  predicate MaySubmit(id: Id, kind: Kind, e: After) {
    e.transportPresent && (e.useWifi || !e.busy) && (kind == Mms ==> !IsRx(id) && e.imageValid)
  }

  /** The row of a claimed message that is not submitted after all; `rx-` messages are downloaded instead. */
  predicate HaltShows(id: Id, r: Row, e: After) {
    var blocked := !e.useWifi && (!e.transportPresent || e.busy);
    var fetched := r.kind == Mms && !blocked && IsRx(id) && e.metadataValid;
    && (fetched && Applicable(e.download) ==> r.state == e.download.state && r.issue == e.download.issue)
    && (!fetched ==>
      && (r.state == Failed <==>
          r.kind == Mms && ((!e.useWifi && !e.transportPresent)
                            || (!blocked && if IsRx(id) then !e.metadataValid else !e.imageValid)))
      && (r.state != Failed ==>
          r.state == WaitingNetwork
          && r.issue == Code(if r.kind == Sms then "SMS_NOT_READY"
                             else if blocked then "MMS_BUSY" else "MMS_NETWORK_REQUIRED"))
      && (r.issue == Code("MMS_MODEM_UNSUPPORTED") <==> r.kind == Mms && !e.useWifi && !e.transportPresent)
      && (r.issue == Code("MMS_INVALID_NOTIFICATION") <==> r.kind == Mms && !blocked && IsRx(id)))
  }

  /** The checks after the claim, as one condition. */
  lemma {:induction false} PostcheckExactly(rows: map<Id, Row>, id: Id, e: After)
    requires id in rows
    ensures var v := Postcheck(id, rows[id].kind, e);
      && (v == Proceed <==> MaySubmit(id, rows[id].kind, e)) && v != Leave
      && (v.Stop? && rows[id].deletedAt.None? && rows[id].state in {Sending, Downloading} ==>
        var after := WithOutcome(rows, id, v.outcome);
        && after == rows[id := rows[id].(state := after[id].state, issue := after[id].issue)]
        && HaltShows(id, after[id], e))
  {
  }

  predicate Finished(st: MState) {
    st in {Accepted, Delivered, Failed, Unknown, Expired, Cancelled, Received, Partial}
  }

  function Repaired(r: Row): Row {
    if && r.deletedAt.None? && r.state == Unknown
       && ((r.kind == Sms && r.issue == SmsDeliveryUnconfirmed) || (r.kind == Mms && r.issue == MmsDeliveryUnconfirmed))
    then r.(state := Accepted, issue := NoIssue)
    else r
  }

  function Interrupted(r: Row): Row {
    if r.state == Sending then r.(state := Unknown, issue := SendInterrupted) else r
  }

  // ---------- The system ----------

  /** Where a processMessage worker stands. `Recorded`, `Stored` and `Written` hold the journal's key lock. */
  datatype Phase =
    | Selected(seen: MState) | Cleared(seen: MState) | Checked(seen: MState)
    | Claimed | Ready | Handed(entry: nat)
    | Deciding(o: Outcome) | Recorded(o: Outcome) | Stored(o: Outcome) | Written

  datatype Worker = Worker(id: Id, start: int, born: int, phase: Phase)

  datatype Replay = Idle | Holding(id: Id, o: Outcome) | Done(id: Id)

  datatype Record = Good(o: Outcome) | Damaged

  /** A directory change: made durable, made but not yet durable, or not made. */
  datatype FileOp = Synced | Unsynced | NotDone

  datatype Boot = Replaying | Repairing | Interrupting | Up

  /** What a transport said about one hand-off; a worker that dies leaves `NoAnswer`. */
  datatype Answer = NoAnswer | Nothing | Maybe

  /** One hand-off: of which message, enqueued when, handed off when. */
  datatype Entry = Entry(id: Id, born: int, at: int, answer: Answer)

  datatype Sys = Sys(
    now: int,
    rows: map<Id, Row>,
    mem: map<Id, Outcome>,      // Journal.pending
    disk: map<Id, Record>,      // journal directory as the process sees it
    limbo: map<Id, set<Record>>,  // what a crash may leave of a file whose last changes are not durable, or nothing
    workers: map<int, Worker>,  // at most one per module
    replay: Replay,
    boot: Boot,
    log: seq<Entry>)            // every hand-off ever made

  datatype Action =
    | Enqueue(id: Id, module_id: int, kind: Kind, expiresIn: nat)
    | Delete(id: Id)
    | Retire(id: Id)
    | Purge(id: Id)
    | Tick(to: int)
    | Expire(ids: set<Id>)
    | Receipt(id: Id, delivered: bool)
    | Select(m: int, id: Id)
    | CheckJournal(m: int)
    | Check(m: int, before: Before)
    | Claim(m: int, epochCurrent: bool, reply: Reply)
    | Recheck(m: int, after: After)
    | HandOff(m: int)
    | Answered(m: int, answer: TransportReply)
    | Lock(m: int, acquired: bool)
    | SaveFile(m: int, file: FileOp)
    | ApplyRow(m: int, reply: Reply)
    | RemoveFile(m: int, file: FileOp)
    | ReplayTake(id: Id)
    | ReplayApply(reply: Reply)
    | ReplayRemove(file: FileOp)
    | ReplayDrained
    | Repair(reply: Reply)
    | Interrupt(reply: Reply)
    | Damage(id: Id)
    | Crash(survivors: map<Id, Record>)

  /** Longest life of a worker; its contexts end within 480 seconds plus a few short saves. */
  const WORKER_LIMIT := 3600 * SECOND

  predicate Pending(s: Sys, id: Id) { id in s.mem || id in s.disk }

  predicate HoldsLock(p: Phase) { p.Recorded? || p.Stored? || p.Written? }

  predicate ReplayOn(s: Sys, id: Id) {
    !s.replay.Idle? && s.replay.id == id
  }

  predicate At(s: Sys, m: int) { m in s.workers }

  predicate Enabled(s: Sys, a: Action) {
    match a
    case Enqueue(id, _, _, _) => id !in s.rows
    case Delete(id) => id in s.rows
    case Retire(id) => id in s.rows && s.rows[id].deletedAt.None? && Finished(s.rows[id].state)
    case Purge(id) =>
      && id in s.rows && s.rows[id].deletedAt.Some? && s.rows[id].deletedAt.value < s.now - WEEK
      && Finished(s.rows[id].state)
    case Tick(to) => s.now <= to && forall m :: m in s.workers ==> to - s.workers[m].start <= WORKER_LIMIT
    case Expire(ids) => s.boot.Up?
    case Receipt(id, _) => s.boot.Up? && id in s.rows && AwaitsReceipt(s.rows[id])
    case Select(m, id) =>
      && s.boot.Up? && m !in s.workers && id in s.rows && s.rows[id].module_id == m
      && s.rows[id].deletedAt.None? && s.rows[id].state in {Queued, WaitingNetwork}
    case CheckJournal(m) => At(s, m) && s.workers[m].phase.Selected?
    case Check(m, _) => At(s, m) && s.workers[m].phase.Cleared? && s.workers[m].id in s.rows
    case Claim(m, _, _) => At(s, m) && s.workers[m].phase.Checked?
    case Recheck(m, _) => At(s, m) && s.workers[m].phase.Claimed? && s.workers[m].id in s.rows
    case HandOff(m) => At(s, m) && s.workers[m].phase.Ready?
    case Answered(m, _) => At(s, m) && s.workers[m].phase.Handed? && s.workers[m].phase.entry < |s.log|
    case Lock(m, acquired) =>
      At(s, m) && s.workers[m].phase.Deciding? && (acquired ==> !ReplayOn(s, s.workers[m].id))
    case SaveFile(m, _) => At(s, m) && s.workers[m].phase.Recorded?
    case ApplyRow(m, _) => At(s, m) && s.workers[m].phase.Stored?
    case RemoveFile(m, _) => At(s, m) && s.workers[m].phase.Written?
    case ReplayTake(id) =>
      && s.replay.Idle? && (s.boot.Up? || s.boot.Replaying?)
      && (id in s.mem || (id in s.disk && s.disk[id].Good?))
      && forall m :: m in s.workers && s.workers[m].id == id ==> !HoldsLock(s.workers[m].phase)
    case ReplayApply(_) => s.replay.Holding?
    case ReplayRemove(_) => s.replay.Done?
    case ReplayDrained => s.boot.Replaying? && s.replay.Idle? && s.mem == map[] && forall id :: id in s.disk ==>
        s.disk[id].Damaged?
    case Repair(_) => s.boot.Repairing?
    case Interrupt(_) => s.boot.Interrupting?
    case Damage(id) => id in s.disk
    case Crash(survivors) => forall id :: id in survivors ==> id in s.limbo && survivors[id] in s.limbo[id]
  }

  function Quit(s: Sys, m: int): Sys { s.(workers := s.workers - {m}) }

  function Enter(s: Sys, m: int, p: Phase): Sys
    requires m in s.workers
  {
    s.(workers := s.workers[m := s.workers[m].(phase := p)])
  }

  function ClaimedRow(id: Id, r: Row, now: int): Row {
    if IsRx(id) then r.(state := Downloading, issue := NoIssue)
    else r.(state := Sending, issue := NoIssue, operationAt := Some(now))
  }

  /** The records of a file that a crash may leave once its next change is not durable. */
  function Alternatives(s: Sys, id: Id): set<Record> {
    (if id in s.limbo then s.limbo[id] else {}) + (if id in s.disk then {s.disk[id]} else {})
  }

  /** Journal.save */
  function Save(s: Sys, id: Id, o: Outcome, f: FileOp): Sys {
    match f
    case Synced => s.(disk := s.disk[id := Good(o)], limbo := s.limbo - {id})
    case Unsynced => s.(disk := s.disk[id := Good(o)], limbo := s.limbo[id := Alternatives(s, id) + {Good(o)}])
    case NotDone => s
  }

  /** Journal.remove: memory forgets the outcome only after the unlink is durable. */
  function Unlink(s: Sys, id: Id, f: FileOp): Sys {
    match f
    case Synced => s.(disk := s.disk - {id}, limbo := s.limbo - {id}, mem := s.mem - {id})
    case Unsynced =>
      if id in s.disk then s.(disk := s.disk - {id}, limbo := s.limbo[id := Alternatives(s, id)]) else s
    case NotDone => s
  }

  predicate WorkerAction(a: Action) {
    a.CheckJournal? || a.Check? || a.Claim? || a.Recheck? || a.HandOff? || a.Answered?
    || a.Lock? || a.SaveFile? || a.ApplyRow? || a.RemoveFile?
  }

  /** The tables and files after a worker's action, and the phase it goes on in (or its end). */
  datatype Effect = Effect(sys: Sys, next: Option<Phase>)

  function Obey(s: Sys, v: Verdict, onward: Phase): Effect {
    match v
    case Stop(o) => Effect(s, Some(Deciding(o)))
    case Leave => Effect(s, None)
    case Proceed => Effect(s, Some(onward))
  }

  /** The journal is the same as far as message id goes. */
  predicate SameFor(s: Sys, t: Sys, id: Id) {
    && (id in s.disk ==> id in t.disk && t.disk[id] == s.disk[id])
    && (id in t.limbo ==> id in s.limbo) && (id in t.mem ==> id in s.mem && t.mem[id] == s.mem[id])
    && t.replay == s.replay
  }

  function WorkerEffect(s: Sys, a: Action): (e: Effect)
    requires WorkerAction(a) && Enabled(s, a)
    ensures e.sys.workers == s.workers
  {
    var w := s.workers[a.m];
    match a
    case CheckJournal(_) => Effect(s, if Pending(s, w.id) then None else Some(Cleared(w.phase.seen)))
    case Check(_, e) => Obey(s, Precheck(w.id, s.rows[w.id].kind, e), Checked(w.phase.seen))
    case Claim(_, epochCurrent, reply) =>
      if w.id in s.rows && s.rows[w.id].state == w.phase.seen && s.rows[w.id].deletedAt.None? && epochCurrent then
        Effect(if reply.Committed() then s.(rows := s.rows[w.id := ClaimedRow(w.id, s.rows[w.id], s.now)]) else s,
               if reply.Acked? then Some(Claimed) else None)
      else Effect(s, None)
    case Recheck(_, e) => Obey(s, Postcheck(w.id, s.rows[w.id].kind, e), Ready)
    case HandOff(_) => Effect(s.(log := s.log + [Entry(w.id, w.born, s.now, NoAnswer)]), Some(Handed(|s.log|)))
    case Answered(_, r) =>
      var n := w.phase.entry;
      Effect(s.(log := s.log[n := s.log[n].(answer := if NothingSubmitted(r) then Nothing else Maybe)]),
             Some(Deciding(Classify(r))))
    case Lock(_, acquired) =>
      if acquired then Effect(s.(mem := s.mem[w.id := w.phase.o]), Some(Recorded(w.phase.o))) else Effect(s, None)
    case SaveFile(_, f) => Effect(Save(s, w.id, w.phase.o, f), Some(Stored(w.phase.o)))
    case ApplyRow(_, reply) =>
      Effect(if reply.Committed() then s.(rows := WithOutcome(s.rows, w.id, w.phase.o)) else s,
             if reply.Acked? then Some(Written) else None)
    case RemoveFile(_, f) => Effect(Unlink(s, w.id, f), None)
  }

  function SystemEffect(s: Sys, a: Action): Sys
    requires !WorkerAction(a) && Enabled(s, a)
  {
    match a
    case Enqueue(id, m, kind, expiresIn) =>
      s.(rows := s.rows[id := Row(m, kind, Queued, NoIssue, s.now, None, s.now + expiresIn, None)])
    case Delete(id) => s.(rows := s.rows[id := WithDeletion(s.rows[id], s.now)])
    case Retire(id) => s.(rows := s.rows[id := s.rows[id].(deletedAt := Some(s.now))])
    case Purge(id) => s.(rows := s.rows - {id})
    case Tick(to) => s.(now := to)
    case Expire(ids) =>
      s.(rows := map id | id in s.rows :: if id in ids then WithTimeout(s.rows[id], s.now) else s.rows[id])
    case Receipt(id, delivered) =>
      s.(rows := s.rows[id := s.rows[id].(state := if delivered then Delivered else Failed,
                                          issue := if delivered then NoIssue else Code("SMS_STATUS"))])
    case Select(m, id) =>
      s.(workers := s.workers[m := Worker(id, s.now, s.rows[id].createdAt, Selected(s.rows[id].state))])
    case ReplayTake(id) => s.(replay := Holding(id, if id in s.mem then s.mem[id] else s.disk[id].o))
    case ReplayApply(reply) =>
      var t := if reply.Committed() then s.(rows := WithOutcome(s.rows, s.replay.id, s.replay.o)) else s;
      t.(replay := if reply.Acked? then Done(s.replay.id) else Idle)
    case ReplayRemove(f) => Unlink(s, s.replay.id, f).(replay := Idle)
    case ReplayDrained => s.(boot := Repairing)
    case Repair(reply) =>
      s.(rows := if reply.Committed() then map id | id in s.rows :: Repaired(s.rows[id]) else s.rows,
         boot := if reply.Acked? then Interrupting else Replaying)
    case Interrupt(reply) =>
      s.(rows := if reply.Committed() then map id | id in s.rows :: Interrupted(s.rows[id]) else s.rows,
         boot := if reply.Acked? then Up else Replaying)
    case Damage(id) =>
      s.(disk := s.disk[id := Damaged], limbo := if id in s.limbo then s.limbo[id := s.limbo[id] + {Damaged}]
          else s.limbo)
    case Crash(survivors) =>
      s.(mem := map[], workers := map[], replay := Idle, boot := Replaying, limbo := map[],
         disk := (s.disk - s.limbo.Keys) + survivors)
  }

  function Do(s: Sys, a: Action): Sys
    requires Enabled(s, a)
  {
    if WorkerAction(a) then
      var e := WorkerEffect(s, a);
      if e.next.Some? then Enter(e.sys, a.m, e.next.value) else Quit(e.sys, a.m)
    else SystemEffect(s, a)
  }

  predicate Init(s: Sys) {
    && s.rows == map[] && s.mem == map[] && s.disk == map[] && s.limbo == map[]
    && s.workers == map[] && s.replay.Idle? && s.boot.Replaying? && s.log == []
  }

  /**
   * What the code relies on: honest transports, and an unlink of a replayed record with a re-queueing outcome that
   * memory does not hold either becomes durable or is not made at all.
   */
  predicate Assumed(s: Sys, a: Action)
    requires Enabled(s, a)
  {
    && (a.Answered? ==> Honest(a.answer))
    && (a.ReplayRemove? && a.file.Unsynced? ==> MayReturn(s, s.replay.id))
  }

  /** A crash may bring the record back. */
  predicate MayReturn(s: Sys, id: Id) { id in s.mem || forall r :: r in Alternatives(s, id) ==> !RetryRecord(r) }

  /** `steps` is a run of the system from `s`. */
  predicate Run(s: Sys, steps: seq<Action>)
    decreases |steps|
  {
    steps == [] || (Enabled(s, steps[0]) && Run(Do(s, steps[0]), steps[1..]))
  }

  /** Every step of the run meets the assumptions. */
  predicate Reliable(s: Sys, steps: seq<Action>)
    requires Run(s, steps)
    decreases |steps|
  {
    steps == [] || (Assumed(s, steps[0]) && Reliable(Do(s, steps[0]), steps[1..]))
  }

  function Exec(s: Sys, steps: seq<Action>): Sys
    requires Run(s, steps)
    decreases |steps|
  {
    if steps == [] then s else Exec(Do(s, steps[0]), steps[1..])
  }

  /** A row is purged a week after deletion at the earliest, and a worker outlives a deletion by at most its limit. */
  const RESEND_GAP := WEEK - WORKER_LIMIT

  /**
   * A message is handed to a transport again only if every earlier hand-off reported that nothing was submitted.
   * The one exception is a new row under a reused request id, enqueued most of a week after the earlier hand-off.
   */
  ghost predicate NeverResubmitted(log: seq<Entry>) {
    forall i, j :: 0 <= i < j < |log| && log[i].id == log[j].id && log[i].answer != Nothing
      ==> log[i].at + RESEND_GAP < log[j].born <= log[j].at
  }

  // ---------- The inductive invariant ----------

  /** The hand-off belongs to an earlier row under the same id. */
  predicate Old(s: Sys, e: Entry) {
    e.at + RESEND_GAP < if e.id in s.rows then s.rows[e.id].createdAt else s.now
  }

  predicate Retry(o: Outcome) { o.state == WaitingNetwork }

  predicate RetryRecord(r: Record) { r.Good? && Retry(r.o) }

  /** No journalled or held outcome can put `id` back in the queue. */
  predicate NoRetry(s: Sys, id: Id) {
    && (id in s.mem ==> !Retry(s.mem[id]))
    && (id in s.disk ==> !RetryRecord(s.disk[id]))
    && (id in s.limbo ==> forall r :: r in s.limbo[id] ==> !RetryRecord(r))
    && (s.replay.Holding? && s.replay.id == id ==> !Retry(s.replay.o))
  }

  predicate AfterHandOff(p: Phase) {
    p.Handed? || p.Written? || ((p.Deciding? || p.Recorded? || p.Stored?) && !Retry(p.o))
  }

  /** The row of a possibly submitted message is out of the queue and nothing pending can bring it back. */
  predicate Locked(s: Sys, e: Entry) {
    && e.id in s.rows
    && s.rows[e.id].state != Queued && s.rows[e.id].state != WaitingNetwork
    && NoRetry(s, e.id)
    && (forall m :: m in s.workers && s.workers[m].id == e.id ==> AfterHandOff(s.workers[m].phase))
    && (s.rows[e.id].deletedAt.Some? ==> e.at <= s.rows[e.id].deletedAt.value + WORKER_LIMIT)
  }

  predicate EntrySafe(s: Sys, e: Entry) {
    e.at <= s.now && (e.answer != Nothing ==> Old(s, e) || Locked(s, e))
  }

  predicate BeforeOutcome(p: Phase) { p.Cleared? || p.Checked? || p.Claimed? || p.Ready? || p.Handed? }

  predicate WorkerSafe(s: Sys, m: int)
    requires m in s.workers
  {
    var w := s.workers[m];
    && w.id in s.rows && s.rows[w.id].module_id == m
    && w.born == s.rows[w.id].createdAt && w.start <= s.now <= w.start + WORKER_LIMIT
    && (s.rows[w.id].deletedAt.Some? ==> w.start <= s.rows[w.id].deletedAt.value)
    && (BeforeOutcome(w.phase) ==> !Pending(s, w.id) && !ReplayOn(s, w.id))
    && (HoldsLock(w.phase) ==> w.id in s.mem && !ReplayOn(s, w.id))
    && (w.phase.Recorded? || w.phase.Stored? ==> s.mem[w.id] == w.phase.o)
    && (w.phase.Handed? ==>
          w.phase.entry < |s.log| && s.log[w.phase.entry].id == w.id && s.log[w.phase.entry].answer == NoAnswer)
    && ((w.phase.Claimed? || w.phase.Ready?) ==> s.rows[w.id].state != Queued && s.rows[w.id].state != WaitingNetwork)
  }

  /** While a hand-off is unanswered, every other hand-off of its message is settled. */
  predicate SoleOpen(s: Sys, m: int)
    requires m in s.workers
  {
    var w := s.workers[m];
    w.phase.Handed? ==>
      forall i :: 0 <= i < |s.log| && i != w.phase.entry && s.log[i].id == w.id && s.log[i].answer != Nothing
        ==> Old(s, s.log[i])
  }

  ghost predicate Inv(s: Sys) {
    && (forall id :: id in s.rows ==> s.rows[id].createdAt <= s.now)
    && (forall m :: m in s.workers ==> WorkerSafe(s, m))
    && (forall m :: m in s.workers ==> SoleOpen(s, m))
    && (forall id, r :: id in s.limbo && r in s.limbo[id] ==> Pending(s, id) || !RetryRecord(r))
    && (!s.replay.Idle? ==> Pending(s, s.replay.id))
    && (forall i :: 0 <= i < |s.log| ==> EntrySafe(s, s.log[i]))
    && NeverResubmitted(s.log)
  }

  lemma {:induction false} InitInv(s: Sys)
    requires Init(s)
    ensures Inv(s)
  {
  }

  // ---------- Frame lemmas: the three kinds of change an action makes ----------

  lemma {:induction false} QuitInv(s: Sys, m: int)
    requires Inv(s)
    ensures Inv(Quit(s, m))
  {
  }

  /** Moving a worker between phases, other than into a hand-off. */
  lemma {:induction false} EnterInv(s: Sys, m: int, p: Phase)
    requires Inv(s) && m in s.workers && !p.Handed?
    requires WorkerSafe(Enter(s, m, p), m)
    requires AfterHandOff(s.workers[m].phase) ==> AfterHandOff(p)
    ensures Inv(Enter(s, m, p))
  {
    var t := Enter(s, m, p);
    forall i | 0 <= i < |t.log| ensures EntrySafe(t, t.log[i]) {
      assert EntrySafe(s, s.log[i]);
    }
  }

  /** A row change that leaves the row's place and never moves it into the queue. */
  predicate Harmless(r: Row, r': Row) {
    && r'.module_id == r.module_id && r'.deletedAt == r.deletedAt && r'.createdAt == r.createdAt
    && (r'.state == Queued || r'.state == WaitingNetwork ==> r.state == Queued || r.state == WaitingNetwork)
  }

  lemma {:induction false} RowsInv(s: Sys, rows: map<Id, Row>)
    requires Inv(s) && rows.Keys == s.rows.Keys
    requires forall id :: id in s.rows ==> Harmless(s.rows[id], rows[id])
    ensures Inv(s.(rows := rows))
  {
    var t := s.(rows := rows);
    forall m | m in t.workers ensures WorkerSafe(t, m) && SoleOpen(t, m) {
      assert WorkerSafe(s, m) && SoleOpen(s, m);
    }
    forall i | 0 <= i < |t.log| ensures EntrySafe(t, t.log[i]) {
      assert EntrySafe(s, s.log[i]);
      if Locked(s, s.log[i]) { assert NoRetry(t, s.log[i].id); }
    }
  }

  predicate Settled(s: Sys, id: Id) {
    forall i :: 0 <= i < |s.log| && s.log[i].id == id && s.log[i].answer != Nothing ==> Old(s, s.log[i])
  }

  /** Back in the queue: only for a message whose hand-offs are settled. */
  lemma {:induction false} RequeueInv(s: Sys, id: Id, o: Outcome)
    requires Inv(s) && Retry(o) && Settled(s, id) && WithOutcome(s.rows, id, o) != s.rows
    requires forall m :: m in s.workers && s.workers[m].id == id ==> !BeforeOutcome(s.workers[m].phase)
    ensures Inv(s.(rows := WithOutcome(s.rows, id, o)))
  {
    var t := s.(rows := WithOutcome(s.rows, id, o));
    forall m | m in t.workers ensures WorkerSafe(t, m) && SoleOpen(t, m) {
      assert WorkerSafe(s, m) && SoleOpen(s, m);
    }
    forall i | 0 <= i < |t.log| ensures EntrySafe(t, t.log[i]) {
      assert EntrySafe(s, s.log[i]);
    }
  }

  lemma {:induction false} OutcomeInv(s: Sys, id: Id, o: Outcome)
    requires Inv(s)
    requires Retry(o) ==> Settled(s, id)
    requires forall m :: m in s.workers && s.workers[m].id == id ==> !BeforeOutcome(s.workers[m].phase)
    ensures Inv(s.(rows := WithOutcome(s.rows, id, o)))
  {
    hide Inv, Settled;
    var rows := WithOutcome(s.rows, id, o);
    if rows != s.rows {
      if Retry(o) { RequeueInv(s, id, o); } else { RowsInv(s, rows); }
    }
  }

  lemma {:induction false} NotHandedSettled(s: Sys, m: int)
    requires Inv(s) && m in s.workers && !AfterHandOff(s.workers[m].phase)
    ensures Settled(s, s.workers[m].id)
  {
    forall i | 0 <= i < |s.log| && s.log[i].id == s.workers[m].id && s.log[i].answer != Nothing
      ensures Old(s, s.log[i])
    {
      assert EntrySafe(s, s.log[i]);
    }
  }

  /** Two workers never serve one message: a row belongs to one module. */
  lemma {:induction false} OneWorker(s: Sys, m: int, m': int)
    requires Inv(s) && m in s.workers && m' in s.workers && s.workers[m].id == s.workers[m'].id
    ensures m == m'
  {
    assert WorkerSafe(s, m) && WorkerSafe(s, m');
  }

  // ---------- One lemma for each action that touches the invariant in earnest ----------

  lemma {:induction false} InvCheck(s: Sys, a: Action)
    requires a.Check? && Inv(s) && Enabled(s, a) && Assumed(s, a)
    ensures Inv(Do(s, a))
  {
    hide SystemEffect;
    var w := s.workers[a.m];
    assert WorkerSafe(s, a.m);
    match Precheck(w.id, s.rows[w.id].kind, a.before)
    case Stop(o) => EnterInv(s, a.m, Deciding(o));
    case Leave => QuitInv(s, a.m);
    case Proceed => EnterInv(s, a.m, Checked(w.phase.seen));
  }

  lemma {:induction false} InvClaim(s: Sys, a: Action)
    requires a.Claim? && Inv(s) && Enabled(s, a) && Assumed(s, a)
    ensures Inv(Do(s, a))
  {
    hide SystemEffect;
    var w := s.workers[a.m];
    assert WorkerSafe(s, a.m);
    if w.id in s.rows && s.rows[w.id].state == w.phase.seen && s.rows[w.id].deletedAt.None? && a.epochCurrent {
      var rows := if a.reply.Committed() then s.rows[w.id := ClaimedRow(w.id, s.rows[w.id], s.now)] else s.rows;
      var t := s.(rows := rows);
      RowsInv(s, rows);
      assert WorkerSafe(t, a.m);
      if a.reply.Acked? { EnterInv(t, a.m, Claimed); } else { QuitInv(t, a.m); }
    } else {
      QuitInv(s, a.m);
    }
  }

  lemma {:induction false} InvRecheck(s: Sys, a: Action)
    requires a.Recheck? && Inv(s) && Enabled(s, a) && Assumed(s, a)
    ensures Inv(Do(s, a))
  {
    hide SystemEffect;
    var w := s.workers[a.m];
    assert WorkerSafe(s, a.m);
    match Postcheck(w.id, s.rows[w.id].kind, a.after)
    case Stop(o) => EnterInv(s, a.m, Deciding(o));
    case Leave => QuitInv(s, a.m);
    case Proceed => EnterInv(s, a.m, Ready);
  }

  lemma {:induction false} InvHandOff(s: Sys, a: Action)
    requires a.HandOff? && Inv(s) && Enabled(s, a) && Assumed(s, a)
    ensures Inv(Do(s, a))
  {
    hide SystemEffect;
    NotHandedSettled(s, a.m);
    var k, w, t := a.m, s.workers[a.m], Do(s, a);
    assert WorkerSafe(s, k);
    forall m | m in t.workers ensures WorkerSafe(t, m) && SoleOpen(t, m) {
      assert WorkerSafe(s, m) && SoleOpen(s, m);
      if m != k && s.workers[m].id == w.id { OneWorker(s, m, k); }
    }
    forall i | 0 <= i < |t.log| ensures EntrySafe(t, t.log[i]) {
      if i < |s.log| {
        assert EntrySafe(s, s.log[i]);
      } else {
        forall m | m in t.workers && t.workers[m].id == w.id ensures AfterHandOff(t.workers[m].phase) {
          if m != k { OneWorker(s, m, k); }
        }
        assert NoRetry(t, w.id);
      }
    }
  }

  lemma {:induction false} InvAnswered(s: Sys, a: Action)
    requires a.Answered? && Inv(s) && Enabled(s, a) && Assumed(s, a)
    ensures Inv(Do(s, a))
  {
    hide SystemEffect;
    var w, t := s.workers[a.m], Do(s, a);
    var n := w.phase.entry;
    assert WorkerSafe(s, a.m) && SoleOpen(s, a.m);
    forall m | m in t.workers ensures WorkerSafe(t, m) && SoleOpen(t, m) {
      assert WorkerSafe(s, m) && SoleOpen(s, m);
      if m != a.m && s.workers[m].id == w.id { OneWorker(s, m, a.m); }
    }
    RetryMeansNothing(a.answer);
    forall i | 0 <= i < |t.log| ensures EntrySafe(t, t.log[i]) {
      assert EntrySafe(s, s.log[i]);
      if s.log[i].id == w.id && i != n {
        assert s.log[i].answer != Nothing ==> Old(s, s.log[i]);
      } else if Locked(s, s.log[i]) {
        assert NoRetry(t, s.log[i].id);
      }
    }
  }

  lemma {:induction false} InvLock(s: Sys, a: Action)
    requires a.Lock? && Inv(s) && Enabled(s, a) && Assumed(s, a)
    ensures Inv(Do(s, a))
  {
    hide SystemEffect;
    var k, w, t := a.m, s.workers[a.m], Do(s, a);
    if !a.acquired {
      QuitInv(s, k);
    } else {
      assert WorkerSafe(s, k);
      forall m | m in t.workers ensures WorkerSafe(t, m) && SoleOpen(t, m) {
        assert WorkerSafe(s, m) && SoleOpen(s, m);
        if m != k && s.workers[m].id == w.id { OneWorker(s, m, k); }
      }
      forall i | 0 <= i < |t.log| ensures EntrySafe(t, t.log[i]) {
        assert EntrySafe(s, s.log[i]);
        if Locked(s, s.log[i]) { assert NoRetry(t, s.log[i].id); }
      }
    }
  }

  lemma {:induction false} SaveInv(s: Sys, m: int, f: FileOp)
    requires Inv(s) && m in s.workers && s.workers[m].phase.Recorded?
    ensures Inv(Save(s, s.workers[m].id, s.workers[m].phase.o, f))
  {
    var w := s.workers[m];
    var t := Save(s, w.id, w.phase.o, f);
    assert WorkerSafe(s, m);
    forall k | k in t.workers ensures WorkerSafe(t, k) && SoleOpen(t, k) {
      assert WorkerSafe(s, k) && SoleOpen(s, k);
      if k != m && s.workers[k].id == w.id { OneWorker(s, k, m); }
    }
    forall i | 0 <= i < |t.log| ensures EntrySafe(t, t.log[i]) {
      assert EntrySafe(s, s.log[i]);
      if Locked(s, s.log[i]) { assert NoRetry(t, s.log[i].id); }
    }
  }

  lemma {:induction false} InvSaveFile(s: Sys, a: Action)
    requires a.SaveFile? && Inv(s) && Enabled(s, a) && Assumed(s, a)
    ensures Inv(Do(s, a))
  {
    hide SystemEffect;
    var w := s.workers[a.m];
    assert WorkerSafe(s, a.m);
    SaveInv(s, a.m, a.file);
    EnterInv(Save(s, w.id, w.phase.o, a.file), a.m, Stored(w.phase.o));
  }

  lemma {:induction false} InvApplyRow(s: Sys, a: Action)
    requires a.ApplyRow? && Inv(s) && Enabled(s, a) && Assumed(s, a)
    ensures Inv(Do(s, a))
  {
    hide SystemEffect;
    var w := s.workers[a.m];
    assert WorkerSafe(s, a.m);
    if Retry(w.phase.o) { NotHandedSettled(s, a.m); }
    forall m | m in s.workers && s.workers[m].id == w.id ensures !BeforeOutcome(s.workers[m].phase) {
      OneWorker(s, m, a.m);
    }
    OutcomeInv(s, w.id, w.phase.o);
    var t := if a.reply.Committed() then s.(rows := WithOutcome(s.rows, w.id, w.phase.o)) else s;
    assert Inv(t) && WorkerSafe(t, a.m);
    if a.reply.Acked? { EnterInv(t, a.m, Written); } else { QuitInv(t, a.m); }
  }

  /** Removing a record whose key nobody replays. */
  lemma {:induction false} UnlinkInv(s: Sys, id: Id, f: FileOp)
    requires Inv(s) && (s.replay.Idle? || s.replay.id != id)
    requires f.Unsynced? ==> MayReturn(s, id)
    requires forall m :: m in s.workers && s.workers[m].id == id ==> !HoldsLock(s.workers[m].phase)
    ensures Inv(Unlink(s, id, f))
  {
    var t := Unlink(s, id, f);
    forall k | k in t.workers ensures WorkerSafe(t, k) && SoleOpen(t, k) {
      assert WorkerSafe(s, k) && SoleOpen(s, k);
    }
    forall i | 0 <= i < |t.log| ensures EntrySafe(t, t.log[i]) {
      assert EntrySafe(s, s.log[i]);
      if Locked(s, s.log[i]) { assert NoRetry(t, s.log[i].id); }
    }
  }

  lemma {:induction false} InvRemoveFile(s: Sys, a: Action)
    requires a.RemoveFile? && Inv(s) && Enabled(s, a) && Assumed(s, a)
    ensures Inv(Do(s, a))
  {
    hide SystemEffect;
    var k, id := a.m, s.workers[a.m].id;
    assert WorkerSafe(s, k);
    QuitInv(s, k);
    forall m | m in s.workers && s.workers[m].id == id ensures m == k { OneWorker(s, m, k); }
    UnlinkInv(Quit(s, k), id, a.file);
    assert Do(s, a) == Unlink(Quit(s, k), id, a.file);
  }

  lemma {:induction false} HoldingSettled(s: Sys)
    requires Inv(s) && s.replay.Holding? && Retry(s.replay.o)
    ensures Settled(s, s.replay.id)
  {
    forall i | 0 <= i < |s.log| && s.log[i].id == s.replay.id && s.log[i].answer != Nothing ensures Old(s, s.log[i]) {
      assert EntrySafe(s, s.log[i]);
    }
  }

  /** The replay pass finishes with a record or lets it go. */
  lemma {:induction false} ReplayInv(s: Sys, r: Replay)
    requires Inv(s) && !s.replay.Idle? && (r.Idle? || (r.Done? && r.id == s.replay.id))
    ensures Inv(s.(replay := r))
  {
    var t := s.(replay := r);
    forall i | 0 <= i < |t.log| ensures EntrySafe(t, t.log[i]) {
      assert EntrySafe(s, s.log[i]);
      if Locked(s, s.log[i]) { assert NoRetry(t, s.log[i].id); }
    }
  }

  lemma {:induction false} InvReplayApply(s: Sys, a: Action)
    requires a.ReplayApply? && Inv(s) && Enabled(s, a) && Assumed(s, a)
    ensures Inv(Do(s, a))
  {
    hide WorkerEffect;
    var id, o := s.replay.id, s.replay.o;
    if Retry(o) { HoldingSettled(s); }
    forall m | m in s.workers && s.workers[m].id == id ensures !BeforeOutcome(s.workers[m].phase) {
      assert WorkerSafe(s, m);
    }
    OutcomeInv(s, id, o);
    var t := if a.reply.Committed() then s.(rows := WithOutcome(s.rows, id, o)) else s;
    ReplayInv(t, if a.reply.Acked? then Done(id) else Idle);
  }

  lemma {:induction false} InvReplayRemove(s: Sys, a: Action)
    requires a.ReplayRemove? && Inv(s) && Enabled(s, a) && Assumed(s, a)
    ensures Inv(Do(s, a))
  {
    hide WorkerEffect;
    var id := s.replay.id;
    var t := s.(replay := Idle);
    ReplayInv(s, Idle);
    forall m | m in s.workers && s.workers[m].id == id ensures !HoldsLock(s.workers[m].phase) {
      assert WorkerSafe(s, m);
    }
    UnlinkInv(t, id, a.file);
  }

  lemma {:induction false} InvEnqueue(s: Sys, a: Action)
    requires a.Enqueue? && Inv(s) && Enabled(s, a)
    ensures Inv(Do(s, a))
  {
    hide WorkerEffect;
    var t := Do(s, a);
    forall m | m in t.workers ensures WorkerSafe(t, m) && SoleOpen(t, m) {
      assert WorkerSafe(s, m) && SoleOpen(s, m);
    }
    forall i | 0 <= i < |t.log| ensures EntrySafe(t, t.log[i]) {
      assert EntrySafe(s, s.log[i]);
      if Locked(s, s.log[i]) { assert NoRetry(t, s.log[i].id); }
    }
  }

  lemma {:induction false} InvDelete(s: Sys, a: Action)
    requires (a.Delete? || a.Retire?) && Inv(s) && Enabled(s, a)
    ensures Inv(Do(s, a))
  {
    hide WorkerEffect;
    var t := Do(s, a);
    forall m | m in t.workers ensures WorkerSafe(t, m) && SoleOpen(t, m) {
      assert WorkerSafe(s, m) && SoleOpen(s, m);
    }
    forall i | 0 <= i < |t.log| ensures EntrySafe(t, t.log[i]) {
      assert EntrySafe(s, s.log[i]);
      if Locked(s, s.log[i]) { assert NoRetry(t, s.log[i].id); }
    }
  }

  lemma {:induction false} InvPurge(s: Sys, a: Action)
    requires a.Purge? && Inv(s) && Enabled(s, a)
    ensures Inv(Do(s, a))
  {
    hide WorkerEffect;
    var t := Do(s, a);
    forall m | m in t.workers ensures WorkerSafe(t, m) && SoleOpen(t, m) {
      assert WorkerSafe(s, m) && SoleOpen(s, m);
    }
    forall i | 0 <= i < |t.log| ensures EntrySafe(t, t.log[i]) {
      assert EntrySafe(s, s.log[i]);
      if Locked(s, s.log[i]) { assert NoRetry(t, s.log[i].id); }
    }
  }

  lemma {:induction false} InvTick(s: Sys, a: Action)
    requires a.Tick? && Inv(s) && Enabled(s, a)
    ensures Inv(Do(s, a))
  {
    hide WorkerEffect;
    var t := Do(s, a);
    forall m | m in t.workers ensures WorkerSafe(t, m) && SoleOpen(t, m) {
      assert WorkerSafe(s, m) && SoleOpen(s, m);
    }
    forall i | 0 <= i < |t.log| ensures EntrySafe(t, t.log[i]) {
      assert EntrySafe(s, s.log[i]);
      if Locked(s, s.log[i]) { assert NoRetry(t, s.log[i].id); }
    }
  }

  lemma {:induction false} BootInv(s: Sys, b: Boot)
    requires Inv(s)
    ensures Inv(s.(boot := b))
  {
    var t := s.(boot := b);
    forall i | 0 <= i < |t.log| ensures EntrySafe(t, t.log[i]) {
      assert EntrySafe(s, s.log[i]);
      if Locked(s, s.log[i]) { assert NoRetry(t, s.log[i].id); }
    }
  }

  lemma {:induction false} InvDrained(s: Sys, a: Action)
    requires a.ReplayDrained? && Inv(s) && Enabled(s, a)
    ensures Inv(Do(s, a))
  {
    hide WorkerEffect;
    BootInv(s, Repairing);
    hide Inv;
  }

  /** A batch update that harms no row, and a change of the restart's stage. */
  lemma {:induction false} HarmlessInv(s: Sys, rows: map<Id, Row>, b: Boot)
    requires Inv(s) && rows.Keys == s.rows.Keys && forall id :: id in s.rows ==> Harmless(s.rows[id], rows[id])
    ensures Inv(s.(rows := rows, boot := b))
  {
    hide Inv, Harmless;
    RowsInv(s, rows);
    BootInv(s.(rows := rows), b);
  }

  lemma {:induction false} InvExpire(s: Sys, a: Action)
    requires (a.Expire? || a.Receipt?) && Inv(s) && Enabled(s, a)
    ensures Inv(Do(s, a))
  {
    hide WorkerEffect;
    HarmlessInv(s, Do(s, a).rows, s.boot);
    hide Inv;
  }

  lemma {:induction false} InvStartup(s: Sys, a: Action)
    requires (a.Repair? || a.Interrupt?) && Inv(s) && Enabled(s, a)
    ensures Inv(Do(s, a))
  {
    hide WorkerEffect;
    HarmlessInv(s, Do(s, a).rows, Do(s, a).boot);
    hide Inv;
  }

  lemma {:induction false} InvSelect(s: Sys, a: Action)
    requires a.Select? && Inv(s) && Enabled(s, a)
    ensures Inv(Do(s, a))
  {
    hide WorkerEffect;
    var t := Do(s, a);
    forall i | 0 <= i < |t.log| ensures EntrySafe(t, t.log[i]) {
      assert EntrySafe(s, s.log[i]);
      if Locked(s, s.log[i]) { assert NoRetry(t, s.log[i].id); }
    }
  }

  lemma {:induction false} InvCheckJournal(s: Sys, a: Action)
    requires a.CheckJournal? && Inv(s) && Enabled(s, a)
    ensures Inv(Do(s, a))
  {
    hide SystemEffect;
    var w := s.workers[a.m];
    assert WorkerSafe(s, a.m);
    if Pending(s, w.id) { QuitInv(s, a.m); } else { EnterInv(s, a.m, Cleared(w.phase.seen)); }
  }

  lemma {:induction false} InvReplayTake(s: Sys, a: Action)
    requires a.ReplayTake? && Inv(s) && Enabled(s, a)
    ensures Inv(Do(s, a))
  {
    hide WorkerEffect;
    var t := Do(s, a);
    forall m | m in t.workers ensures WorkerSafe(t, m) && SoleOpen(t, m) {
      assert WorkerSafe(s, m) && SoleOpen(s, m);
    }
    forall i | 0 <= i < |t.log| ensures EntrySafe(t, t.log[i]) {
      assert EntrySafe(s, s.log[i]);
      if Locked(s, s.log[i]) { assert NoRetry(t, s.log[i].id); }
    }
  }

  lemma {:induction false} InvDamage(s: Sys, a: Action)
    requires a.Damage? && Inv(s) && Enabled(s, a)
    ensures Inv(Do(s, a))
  {
    hide WorkerEffect;
    var t := Do(s, a);
    forall m | m in t.workers ensures WorkerSafe(t, m) && SoleOpen(t, m) {
      assert WorkerSafe(s, m) && SoleOpen(s, m);
    }
    forall i | 0 <= i < |t.log| ensures EntrySafe(t, t.log[i]) {
      assert EntrySafe(s, s.log[i]);
      if Locked(s, s.log[i]) { assert NoRetry(t, s.log[i].id); }
    }
  }

  lemma {:induction false} InvCrash(s: Sys, a: Action)
    requires a.Crash? && Inv(s) && Enabled(s, a)
    ensures Inv(Do(s, a))
  {
    hide WorkerEffect;
    var t := Do(s, a);
    forall i | 0 <= i < |t.log| ensures EntrySafe(t, t.log[i]) {
      assert EntrySafe(s, s.log[i]);
      if Locked(s, s.log[i]) { assert NoRetry(t, s.log[i].id); }
    }
  }

  /** Every action keeps the invariant. */
  lemma {:induction false} StepInv(s: Sys, a: Action)
    requires Inv(s) && Enabled(s, a) && Assumed(s, a)
    ensures Inv(Do(s, a))
  {
    hide Inv, Do, Enabled;
    match a
    case Check(_, _) => InvCheck(s, a);
    case Recheck(_, _) => InvRecheck(s, a);
    case Claim(_, _, _) => InvClaim(s, a);
    case HandOff(_) => InvHandOff(s, a);
    case Answered(_, _) => InvAnswered(s, a);
    case Lock(_, _) => InvLock(s, a);
    case SaveFile(_, _) => InvSaveFile(s, a);
    case ApplyRow(_, _) => InvApplyRow(s, a);
    case RemoveFile(_, _) => InvRemoveFile(s, a);
    case ReplayApply(_) => InvReplayApply(s, a);
    case ReplayRemove(_) => InvReplayRemove(s, a);
    case Select(_, _) => InvSelect(s, a);
    case CheckJournal(_) => InvCheckJournal(s, a);
    case Enqueue(_, _, _, _) => InvEnqueue(s, a);
    case Delete(_) => InvDelete(s, a);
    case Retire(_) => InvDelete(s, a);
    case Purge(_) => InvPurge(s, a);
    case Tick(_) => InvTick(s, a);
    case Expire(_) => InvExpire(s, a);
    case Receipt(_, _) => InvExpire(s, a);
    case Repair(_) => InvStartup(s, a);
    case Interrupt(_) => InvStartup(s, a);
    case ReplayTake(_) => InvReplayTake(s, a);
    case ReplayDrained => InvDrained(s, a);
    case Damage(_) => InvDamage(s, a);
    case Crash(_) => InvCrash(s, a);
  }

  // ---------- Main results ----------

  lemma {:induction false} RunInv(s: Sys, steps: seq<Action>)
    requires Inv(s) && Run(s, steps) && Reliable(s, steps)
    ensures Inv(Exec(s, steps))
    decreases |steps|
  {
    if steps != [] {
      StepInv(s, steps[0]);
      RunInv(Do(s, steps[0]), steps[1..]);
    }
  }

  /** Over every run: crashes, lost replies, journal faults, deletions and purges in any order. */
  lemma {:induction false} NoMessageResubmitted(s: Sys, steps: seq<Action>)
    requires Init(s) && Run(s, steps) && Reliable(s, steps)
    ensures NeverResubmitted(Exec(s, steps).log)
  {
    RunInv(s, steps);
  }

  // ---------- A saved outcome is never lost ----------

  /** The outcome `o` of message `id` is durably journalled and the database has not taken it. */
  ghost predicate Unapplied(s: Sys, id: Id, o: Outcome) {
    && id in s.disk && s.disk[id] == Good(o) && id !in s.limbo
    && (id in s.mem ==> s.mem[id] == o)
    && (ReplayOn(s, id) ==> s.replay == Holding(id, o))
    && (forall m :: m in s.workers && s.workers[m].id == id ==>
          s.workers[m].phase.Selected? || s.workers[m].phase == Stored(o))
  }

  /** The action is the database taking `o` for `id`, acknowledged or not. */
  predicate Takes(s: Sys, a: Action, id: Id, o: Outcome)
    requires Enabled(s, a)
  {
    || (a.ApplyRow? && s.workers[a.m].id == id && s.workers[a.m].phase.o == o && a.reply.Committed())
    || (a.ReplayApply? && s.replay.id == id && s.replay.o == o && a.reply.Committed())
  }

  lemma {:induction false} SaveMakesDurable(s: Sys, m: int)
    requires Inv(s) && m in s.workers && s.workers[m].phase.Recorded?
    ensures Unapplied(Do(s, SaveFile(m, Synced)), s.workers[m].id, s.workers[m].phase.o)
  {
    hide SystemEffect;
    assert WorkerSafe(s, m);
    forall k | k in s.workers && s.workers[k].id == s.workers[m].id ensures k == m { OneWorker(s, k, m); }
  }

  lemma {:induction false} QuietJournal(s: Sys, a: Action, id: Id)
    requires WorkerAction(a) && Enabled(s, a) && !a.Lock? && !a.SaveFile? && !a.RemoveFile?
    ensures SameFor(s, WorkerEffect(s, a).sys, id)
  {
  }

  /** A worker's action touches the journal of its own message only. */
  lemma {:induction false} OtherJournal(s: Sys, a: Action, id: Id)
    requires (a.Lock? || a.SaveFile? || a.RemoveFile?) && Enabled(s, a) && s.workers[a.m].id != id
    ensures SameFor(s, WorkerEffect(s, a).sys, id)
  {
  }

  lemma {:induction false} SameKeepsOutcome(s: Sys, t: Sys, id: Id, o: Outcome)
    requires Unapplied(s, id, o) && SameFor(s, t, id)
    requires forall m :: m in t.workers && t.workers[m].id == id ==> m in s.workers && s.workers[m] == t.workers[m]
    ensures Unapplied(t, id, o)
  {
  }

  lemma {:induction false} OwnWorkerKeepsOutcome(s: Sys, a: Action, id: Id, o: Outcome)
    requires Inv(s) && WorkerAction(a) && Enabled(s, a) && Unapplied(s, id, o) && !Takes(s, a, id, o)
    requires s.workers[a.m].id == id
    ensures Do(s, a) == Quit(s, a.m)
  {
    hide SystemEffect, Inv, Precheck, Postcheck, Classify, WithOutcome, Save, Unlink;
    var p := s.workers[a.m].phase;
    assert p.Selected? || p == Stored(o);
    assert a.CheckJournal? || (a.ApplyRow? && !a.reply.Committed());
  }

  lemma {:induction false} WorkerDo(s: Sys, a: Action)
    requires WorkerAction(a) && Enabled(s, a) && a.m in s.workers
    ensures var t, u := Do(s, a), WorkerEffect(s, a).sys;
            t.mem == u.mem && t.disk == u.disk && t.limbo == u.limbo && t.replay == u.replay
            && forall m :: m in t.workers && m != a.m ==> m in s.workers && t.workers[m] == s.workers[m]
    ensures a.m in Do(s, a).workers ==> Do(s, a).workers[a.m].id == s.workers[a.m].id
  {
    hide SystemEffect, WorkerEffect;
  }

  lemma {:induction false} OtherWorkerKeepsOutcome(s: Sys, a: Action, id: Id, o: Outcome)
    requires WorkerAction(a) && Enabled(s, a) && Unapplied(s, id, o) && s.workers[a.m].id != id
    ensures Unapplied(Do(s, a), id, o)
  {
    if a.Lock? || a.SaveFile? || a.RemoveFile? { OtherJournal(s, a, id); } else { QuietJournal(s, a, id); }
    WorkerDo(s, a);
    hide Do, WorkerEffect, SystemEffect, Enabled, Unapplied;
    SameKeepsOutcome(s, Do(s, a), id, o);
  }

  /** Tables, clock, dispatch and restart leave the journal alone. */
  lemma {:induction false} TableKeepsOutcome(s: Sys, a: Action, id: Id, o: Outcome)
    requires !WorkerAction(a) && Enabled(s, a) && Unapplied(s, id, o)
    requires !a.ReplayTake? && !a.ReplayApply? && !a.ReplayRemove? && !a.Damage? && !a.Crash?
    ensures Unapplied(SystemEffect(s, a), id, o)
  {
    hide WorkerEffect;
    assert SameFor(s, SystemEffect(s, a), id);
  }

  lemma {:induction false} ReplayKeepsOutcome(s: Sys, a: Action, id: Id, o: Outcome)
    requires (a.ReplayTake? || a.ReplayApply? || a.ReplayRemove?) && Enabled(s, a)
    requires Unapplied(s, id, o) && !Takes(s, a, id, o)
    ensures Unapplied(SystemEffect(s, a), id, o)
  {
    hide WorkerEffect, WithOutcome;
  }

  lemma {:induction false} FaultKeepsOutcome(s: Sys, a: Action, id: Id, o: Outcome)
    requires (a.Damage? || a.Crash?) && Enabled(s, a) && Unapplied(s, id, o) && a != Damage(id)
    ensures Unapplied(SystemEffect(s, a), id, o)
  {
    hide WorkerEffect;
  }

  lemma {:induction false} SystemKeepsOutcome(s: Sys, a: Action, id: Id, o: Outcome)
    requires !WorkerAction(a) && Enabled(s, a) && Unapplied(s, id, o) && a != Damage(id) && !Takes(s, a, id, o)
    ensures Unapplied(SystemEffect(s, a), id, o)
  {
    hide Unapplied, SystemEffect, Enabled;
    if a.ReplayTake? || a.ReplayApply? || a.ReplayRemove? {
      ReplayKeepsOutcome(s, a, id, o);
    } else if a.Damage? || a.Crash? {
      FaultKeepsOutcome(s, a, id, o);
    } else {
      TableKeepsOutcome(s, a, id, o);
    }
  }

  lemma {:induction false} QuitKeepsOutcome(s: Sys, m: int, id: Id, o: Outcome)
    requires Unapplied(s, id, o)
    ensures Unapplied(Quit(s, m), id, o)
  {
  }

  lemma {:induction false} StepKeepsOutcome(s: Sys, a: Action, id: Id, o: Outcome)
    requires Inv(s) && Enabled(s, a) && Unapplied(s, id, o)
    requires a != Damage(id) && !Takes(s, a, id, o)
    ensures Unapplied(Do(s, a), id, o)
  {
    if !WorkerAction(a) {
      SystemKeepsOutcome(s, a, id, o);
    } else if s.workers[a.m].id == id {
      OwnWorkerKeepsOutcome(s, a, id, o);
      QuitKeepsOutcome(s, a.m, id, o);
    } else {
      OtherWorkerKeepsOutcome(s, a, id, o);
    }
  }

  /** Somewhere in the run the database takes `o` for `id`, or the file is damaged. */
  predicate TakenOrDamaged(s: Sys, steps: seq<Action>, id: Id, o: Outcome)
    requires Run(s, steps)
    decreases |steps|
  {
    steps != [] &&
    (Takes(s, steps[0], id, o) || steps[0] == Damage(id) || TakenOrDamaged(Do(s, steps[0]), steps[1..], id, o))
  }

  /** Whatever happens, crashes included, a durable outcome stays journalled until the database takes it. */
  lemma {:induction false} OutcomeNeverLost(s: Sys, steps: seq<Action>, id: Id, o: Outcome)
    requires Inv(s) && Run(s, steps) && Reliable(s, steps) && Unapplied(s, id, o)
    ensures TakenOrDamaged(s, steps, id, o) || Unapplied(Exec(s, steps), id, o)
    decreases |steps|
  {
    if steps != [] && !Takes(s, steps[0], id, o) && steps[0] != Damage(id) {
      StepInv(s, steps[0]);
      StepKeepsOutcome(s, steps[0], id, o);
      OutcomeNeverLost(Do(s, steps[0]), steps[1..], id, o);
    }
  }

  // ---------- Both assumptions are needed ----------

  lemma {:induction false} Extend(s: Sys, steps: seq<Action>, a: Action)
    requires Run(s, steps) && Enabled(Exec(s, steps), a)
    ensures Run(s, steps + [a]) && Exec(s, steps + [a]) == Do(Exec(s, steps), a)
    decreases |steps|
  {
    if steps != [] {
      Extend(Do(s, steps[0]), steps[1..], a);
      assert (steps + [a])[1..] == steps[1..] + [a];
    } else {
      assert Run(Do(s, a), [a][1..]);
    }
  }

  lemma {:induction false} ExtendReliable(s: Sys, steps: seq<Action>, a: Action)
    requires Run(s, steps) && Reliable(s, steps) && Enabled(Exec(s, steps), a) && Assumed(Exec(s, steps), a)
    ensures Run(s, steps + [a]) && Reliable(s, steps + [a])
    decreases |steps|
  {
    Extend(s, steps, a);
    if steps != [] {
      ExtendReliable(Do(s, steps[0]), steps[1..], a);
      assert (steps + [a])[1..] == steps[1..] + [a];
    } else {
      assert Reliable(Do(s, a), [a][1..]);
    }
  }

  const EMPTY := Sys(0, map[], map[], map[], map[], map[], Idle, Replaying, [])
  const CLEAR := Before(false, true, true, true, true, true, true, true, false, true, true, true, false)
  const CLEAR_AFTER := After(true, true, false, true, true, Outcome(Failed, NoIssue))

  // ---------- Runs in which hardly anything goes wrong ----------

  function KindOf(r: TransportReply): Kind { if r.SmsReply? then Sms else Mms }

  /** Nothing goes wrong in this step; a transport that answers has the message it fits, and answers r. */
  predicate Smooth(s: Sys, a: Action, r: TransportReply)
    requires Enabled(s, a)
  {
    match a
    case Answered(m, answer) => answer == r && s.workers[m].id in s.rows && s.rows[s.workers[m].id].kind == KindOf(r)
    case Check(_, e) => e.useWifi == r.WifiMmsReply?
    case Recheck(_, e) => e.useWifi == r.WifiMmsReply?
    case Claim(_, _, reply) => reply.Acked?
    case Lock(_, acquired) => acquired
    case SaveFile(_, f) => f.Synced?
    case ApplyRow(_, reply) => reply.Acked?
    case RemoveFile(_, f) => f.Synced?
    case ReplayApply(reply) => reply.Acked?
    case ReplayRemove(f) => f.Synced?
    case Repair(reply) => reply.Acked?
    case Interrupt(reply) => reply.Acked?
    case Damage(_) => false
    case Crash(_) => false
    case _ => true
  }

  /** The record of a replayed outcome, that of r, is unlinked but not durably so, and memory does not hold it. */
  predicate Undoes(s: Sys, a: Action, r: TransportReply)
    requires Enabled(s, a)
  {
    && a == ReplayRemove(Unsynced) && s.replay.id !in s.mem
    && s.replay.id in s.disk && s.disk[s.replay.id] == Good(Classify(r))
  }

  /** The answer of the transports, and how many crashes and undone unlinks a run has. */
  datatype Way = Way(r: TransportReply, crashes: nat, undone: nat)

  /** Apart from so many crashes and undone unlinks, every step of the run is smooth. */
  predicate Goes(s: Sys, steps: seq<Action>, way: Way)
    requires Run(s, steps)
    decreases |steps|
  {
    if steps == [] then way.crashes == 0 && way.undone == 0
    else
      var a, t := steps[0], Do(s, steps[0]);
      || (Smooth(s, a, way.r) && Goes(t, steps[1..], way))
      || (a.Crash? && way.crashes > 0 && Goes(t, steps[1..], way.(crashes := way.crashes - 1)))
      || (Undoes(s, a, way.r) && way.undone > 0 && Goes(t, steps[1..], way.(undone := way.undone - 1)))
  }

  /** With an honest answer, the undone unlinks are the only steps that break the assumptions. */
  lemma {:induction false} OnlyUndoesBreaks(s: Sys, a: Action, r: TransportReply)
    requires Enabled(s, a) && Honest(r)
    ensures Smooth(s, a, r) || a.Crash? ==> Assumed(s, a)
    ensures Undoes(s, a, r) && Retry(Classify(r)) ==> !Assumed(s, a)
  {
    if Undoes(s, a, r) { assert Good(Classify(r)) in Alternatives(s, s.replay.id); }
  }

  /** With no crash and no undone unlink, the answers are the only steps that may break them. */
  lemma {:induction false} OnlyAnswersBreak(s: Sys, a: Action, r: TransportReply)
    requires Enabled(s, a) && Smooth(s, a, r)
    ensures Assumed(s, a) <==> !a.Answered? || Honest(r)
  {
  }

  /** What one more step makes of the count. */
  predicate Adds(s: Sys, a: Action, way: Way, more: Way)
    requires Enabled(s, a)
  {
    || (Smooth(s, a, way.r) && more == way)
    || (a.Crash? && more == way.(crashes := way.crashes + 1))
    || (Undoes(s, a, way.r) && more == way.(undone := way.undone + 1))
  }

  lemma {:induction false} FirstStep(s: Sys, steps: seq<Action>, way: Way) returns (rest: Way)
    requires steps != [] && Run(s, steps) && Goes(s, steps, way)
    ensures Adds(s, steps[0], rest, way) && Goes(Do(s, steps[0]), steps[1..], rest)
  {
    hide Do, Enabled, Smooth, Undoes;
    var t := Do(s, steps[0]);
    rest := if Smooth(s, steps[0], way.r) && Goes(t, steps[1..], way) then way
            else if steps[0].Crash? && way.crashes > 0 && Goes(t, steps[1..], way.(crashes := way.crashes - 1))
            then way.(crashes := way.crashes - 1)
            else way.(undone := way.undone - 1);
  }

  lemma {:induction false} BeforeGoes(s: Sys, steps: seq<Action>, rest: Way, way: Way)
    requires steps != [] && Run(s, steps) && Adds(s, steps[0], rest, way) && Goes(Do(s, steps[0]), steps[1..], rest)
    ensures Goes(s, steps, way)
  {
    hide Do, Enabled, Smooth, Undoes;
  }

  lemma {:induction false} ExtendGoes(s: Sys, steps: seq<Action>, way: Way, a: Action, more: Way)
    requires Run(s, steps) && Goes(s, steps, way) && Enabled(Exec(s, steps), a) && Adds(Exec(s, steps), a, way, more)
    ensures Run(s, steps + [a]) && Goes(s, steps + [a], more)
    decreases |steps|
  {
    hide Do, Enabled, Smooth, Undoes;
    Extend(s, steps, a);
    if steps == [] {
      assert [a][1..] == [] && Run(Do(s, a), []) && Goes(Do(s, a), [], way);
      BeforeGoes(s, [a], way, more);
    } else {
      var rest := FirstStep(s, steps, way);
      var later := Way(more.r, more.crashes - (way.crashes - rest.crashes), more.undone - (way.undone - rest.undone));
      ExtendGoes(Do(s, steps[0]), steps[1..], rest, a, later);
      assert (steps + [a])[1..] == steps[1..] + [a];
      BeforeGoes(s, steps + [a], later, more);
    }
  }

  ghost predicate Reachable(way: Way, s: Sys) {
    exists steps :: Run(EMPTY, steps) && Goes(EMPTY, steps, way) && Exec(EMPTY, steps) == s
  }

  lemma {:induction false} ReachStart(r: TransportReply)
    ensures Reachable(Way(r, 0, 0), EMPTY)
  {
    assert Run(EMPTY, []) && Exec(EMPTY, []) == EMPTY && Goes(EMPTY, [], Way(r, 0, 0));
  }

  lemma {:induction false} ReachMore(way: Way, s: Sys, a: Action, more: Way)
    requires Reachable(way, s) && Enabled(s, a) && Adds(s, a, way, more)
    ensures Reachable(more, Do(s, a))
  {
    hide Do, Enabled, Adds;
    var steps :| Run(EMPTY, steps) && Goes(EMPTY, steps, way) && Exec(EMPTY, steps) == s;
    Extend(EMPTY, steps, a);
    ExtendGoes(EMPTY, steps, way, a, more);
  }

  lemma {:induction false} ReachStep(way: Way, s: Sys, a: Action)
    requires Reachable(way, s) && Enabled(s, a) && Smooth(s, a, way.r)
    ensures Reachable(way, Do(s, a))
  {
    hide Reachable, Do, Enabled, Smooth;
    ReachMore(way, s, a, way);
  }

  lemma {:induction false} ReachCrash(way: Way, s: Sys, survivors: map<Id, Record>)
    requires Reachable(way, s) && Enabled(s, Crash(survivors))
    ensures Reachable(way.(crashes := way.crashes + 1), Do(s, Crash(survivors)))
  {
    hide Reachable, Do;
    ReachMore(way, s, Crash(survivors), way.(crashes := way.crashes + 1));
  }

  /** The state `s` with exactly one worker, serving module 1. */
  function Solo(s: Sys, w: Worker, p: Phase): Sys { s.(workers := map[1 := w.(phase := p)]) }

  /** One step of a lone worker. */
  lemma {:induction false} SoloStep(way: Way, s: Sys, w: Worker, p: Phase, a: Action, t: Sys, p': Phase)
    requires WorkerAction(a) && a.m == 1 && Enabled(Solo(s, w, p), a)
    requires WorkerEffect(Solo(s, w, p), a) == Effect(Solo(t, w, p), Some(p')) && Smooth(Solo(s, w, p), a, way.r)
    ensures Reachable(way, Solo(s, w, p)) ==> Reachable(way, Solo(t, w, p'))
  {
    assert map[1 := w.(phase := p)][1 := w.(phase := p')] == map[1 := w.(phase := p')];
    assert Do(Solo(s, w, p), a) == Solo(t, w, p');
    if Reachable(way, Solo(s, w, p)) { ReachStep(way, Solo(s, w, p), a); }
  }

  function Clear(r: TransportReply): Before { CLEAR.(useWifi := r.WifiMmsReply?) }

  function ClearAfter(r: TransportReply): After { CLEAR_AFTER.(useWifi := r.WifiMmsReply?) }

  predicate Dispatchable(s: Sys, id: Id, r: TransportReply) {
    && s.boot.Up? && s.workers == map[] && id in s.rows && !Pending(s, id) && !IsRx(id)
    && s.rows[id].module_id == 1 && s.rows[id].kind == KindOf(r) && s.rows[id].deletedAt.None?
    && s.rows[id].state in {Queued, WaitingNetwork}
  }

  function Dispatched(s: Sys, id: Id): Sys
    requires id in s.rows
  {
    s.(rows := s.rows[id := ClaimedRow(id, s.rows[id], s.now)],
       log := s.log + [Entry(id, s.rows[id].createdAt, s.now, NoAnswer)])
  }

  function Dispatcher(s: Sys, id: Id): Worker
    requires id in s.rows
  {
    Worker(id, s.now, s.rows[id].createdAt, Claimed)
  }

  lemma {:induction false} ReachChecked(way: Way, s: Sys, id: Id)
    requires Reachable(way, s) && Dispatchable(s, id, way.r)
    ensures Reachable(way, Solo(s, Dispatcher(s, id), Checked(s.rows[id].state)))
  {
    hide Reachable;
    var w, seen := Dispatcher(s, id), s.rows[id].state;
    ReachStep(way, s, Select(1, id));
    assert Do(s, Select(1, id)) == Solo(s, w, Selected(seen));
    SoloStep(way, s, w, Selected(seen), CheckJournal(1), s, Cleared(seen));
    assert Precheck(id, KindOf(way.r), Clear(way.r)) == Proceed;
    SoloStep(way, s, w, Cleared(seen), Check(1, Clear(way.r)), s, Checked(seen));
  }

  lemma {:induction false} ReachClaim(way: Way, s: Sys, id: Id)
    requires Reachable(way, s) && Dispatchable(s, id, way.r)
    ensures Reachable(way,
            Solo(s.(rows := s.rows[id := ClaimedRow(id, s.rows[id], s.now)]), Dispatcher(s, id), Claimed))
  {
    hide Reachable;
    ReachChecked(way, s, id);
    var w, seen := Dispatcher(s, id), s.rows[id].state;
    var u := s.(rows := s.rows[id := ClaimedRow(id, s.rows[id], s.now)]);
    SoloStep(way, s, w, Checked(seen), Claim(1, true, Acked), u, Claimed);
  }

  /** From a dispatchable row with an idle worker pool, a worker reaches the transport. */
  lemma {:induction false} ReachHandOff(way: Way, s: Sys, id: Id)
    requires Reachable(way, s) && Dispatchable(s, id, way.r)
    ensures Reachable(way, Solo(Dispatched(s, id), Dispatcher(s, id), Handed(|s.log|)))
  {
    hide Reachable;
    ReachClaim(way, s, id);
    var w, u := Dispatcher(s, id), s.(rows := s.rows[id := ClaimedRow(id, s.rows[id], s.now)]);
    SoloStep(way, u, w, Claimed, Recheck(1, ClearAfter(way.r)), u, Ready);
    SoloStep(way, u, w, Ready, HandOff(1), Dispatched(s, id), Handed(|s.log|));
  }

  /** A restart that finds nothing to replay or repair. */
  lemma {:induction false} ReachUp(way: Way, s: Sys)
    requires Reachable(way, s) && s.boot.Replaying? && s.replay.Idle? && s.mem == map[] && s.disk == map[]
    requires forall id :: id in s.rows ==> s.rows[id].state in {Queued, WaitingNetwork}
    ensures Reachable(way, s.(boot := Up))
  {
    hide WorkerEffect;
    hide Reachable;
    ReachStep(way, s, ReplayDrained);
    var t := s.(boot := Repairing);
    ReachStep(way, t, Repair(Acked));
    assert Do(t, Repair(Acked)).rows == s.rows;
    var u := s.(boot := Interrupting);
    ReachStep(way, u, Interrupt(Acked));
    assert Do(u, Interrupt(Acked)).rows == s.rows;
  }

  /** A fresh system with one queued message. */
  lemma {:induction false} ReachQueued(id: Id, r: TransportReply)
    ensures Reachable(Way(r, 0, 0), Fresh(id, r))
  {
    hide Reachable;
    var way := Way(r, 0, 0);
    ReachStart(r);
    ReachUp(way, EMPTY);
    ReachStep(way, EMPTY.(boot := Up), Enqueue(id, 1, KindOf(r), 600));
  }

  function WithAnswer(s: Sys, n: nat, r: TransportReply): Sys
    requires n < |s.log|
  {
    s.(log := s.log[n := s.log[n].(answer := if NothingSubmitted(r) then Nothing else Maybe)])
  }

  /** The worker's message is of the kind that r answers. */
  predicate Fits(s: Sys, w: Worker, r: TransportReply) { w.id in s.rows && s.rows[w.id].kind == KindOf(r) }

  /** A lone worker whose transport has answered holds the outcome in memory. */
  lemma {:induction false} ReachRecorded(way: Way, s: Sys, w: Worker, n: nat)
    requires Reachable(way, Solo(s, w, Handed(n))) && s.replay.Idle? && n < |s.log| && Fits(s, w, way.r)
    ensures Reachable(way,
            Solo(WithAnswer(s, n, way.r).(mem := s.mem[w.id := Classify(way.r)]), w, Recorded(Classify(way.r))))
  {
    hide Reachable;
    var o, u := Classify(way.r), WithAnswer(s, n, way.r);
    SoloStep(way, s, w, Handed(n), Answered(1, way.r), u, Deciding(o));
    SoloStep(way, u, w, Deciding(o), Lock(1, true), u.(mem := s.mem[w.id := o]), Recorded(o));
  }

  /** ...and, without a fault, in its file. */
  lemma {:induction false} ReachStored(way: Way, s: Sys, w: Worker, n: nat)
    requires Reachable(way, Solo(s, w, Handed(n))) && Fits(s, w, way.r)
    requires s.replay.Idle? && n < |s.log| && s.mem == map[] && s.disk == map[] && s.limbo == map[]
    ensures Reachable(way, Solo(WithAnswer(s, n, way.r).(mem := map[w.id := Classify(way.r)],
            disk := map[w.id := Good(Classify(way.r))]),
                           w, Stored(Classify(way.r))))
  {
    hide Reachable;
    ReachRecorded(way, s, w, n);
    var o := Classify(way.r);
    var v := WithAnswer(s, n, way.r).(mem := map[w.id := o]);
    SoloStep(way, v, w, Recorded(o), SaveFile(1, Synced), v.(disk := map[w.id := Good(o)]), Stored(o));
  }

  lemma {:induction false} ReachApplied(way: Way, s: Sys, w: Worker, n: nat)
    requires Reachable(way, Solo(s, w, Handed(n))) && Fits(s, w, way.r)
    requires s.replay.Idle? && n < |s.log| && s.mem == map[] && s.disk == map[] && s.limbo == map[]
    ensures Reachable(way, Solo(WithAnswer(s, n, way.r).(rows := WithOutcome(s.rows, w.id, Classify(way.r)),
                                                mem := map[w.id := Classify(way.r)],
                                                disk := map[w.id := Good(Classify(way.r))]), w, Written))
  {
    hide Reachable;
    ReachStored(way, s, w, n);
    var o := Classify(way.r);
    var x := WithAnswer(s, n, way.r).(mem := map[w.id := o], disk := map[w.id := Good(o)]);
    SoloStep(way, x, w, Stored(o), ApplyRow(1, Acked), x.(rows := WithOutcome(s.rows, w.id, o)), Written);
  }

  function FreshRow(r: TransportReply): Row { Row(1, KindOf(r), Queued, NoIssue, 0, None, 600, None) }

  function Fresh(id: Id, r: TransportReply): Sys { EMPTY.(boot := Up, rows := map[id := FreshRow(r)]) }

  /** After the first hand-off of the message is answered with `r`. */
  function Bounced(id: Id, r: TransportReply): Sys {
    EMPTY.(boot := Up,
        rows := map[id := FreshRow(r).(state := WaitingNetwork, issue := Classify(r).issue, operationAt := Some(0))],
           log := [Entry(id, 0, 0, if NothingSubmitted(r) then Nothing else Maybe)])
  }

  /** The lone worker of message `id` after it applied `r`, still holding the journal lock. */
  function BouncedWritten(id: Id, r: TransportReply): Sys {
    Bounced(id, r).(mem := map[id := Classify(r)], disk := map[id := Good(Classify(r))])
  }

  lemma {:induction false} BouncedShape(id: Id, r: TransportReply)
    requires !IsRx(id) && Classify(r).state == WaitingNetwork
    ensures var b, o := Dispatched(Fresh(id, r), id), Classify(r);
      WithAnswer(b, 0, r).(rows := WithOutcome(b.rows, id, o), mem := map[id := o], disk := map[id := Good(o)])
      == BouncedWritten(id, r)
  {
    var b := Dispatched(Fresh(id, r), id);
    assert b.rows == map[id := FreshRow(r).(state := Sending, operationAt := Some(0))];
    assert WithOutcome(b.rows, id, Classify(r)) == Bounced(id, r).rows;
    assert WithAnswer(b, 0, r).log == Bounced(id, r).log;
  }

  lemma {:induction false} ReachBouncedWritten(way: Way, id: Id)
    requires way == Way(way.r, 0, 0) && !IsRx(id) && Classify(way.r).state == WaitingNetwork
    ensures Reachable(way, Solo(BouncedWritten(id, way.r), Dispatcher(Fresh(id, way.r), id), Written))
  {
    hide Reachable;
    ReachQueued(id, way.r);
    assert Dispatchable(Fresh(id, way.r), id, way.r);
    ReachHandOff(way, Fresh(id, way.r), id);
    var b := Dispatched(Fresh(id, way.r), id);
    assert |Fresh(id, way.r).log| == 0 && |b.log| == 1 && b.mem == map[] && b.disk == map[] && b.limbo == map[];
    ReachApplied(way, b, Dispatcher(Fresh(id, way.r), id), 0);
    BouncedShape(id, way.r);
  }

  lemma {:induction false} ReachBounced(way: Way, id: Id)
    requires way == Way(way.r, 0, 0) && !IsRx(id) && Classify(way.r).state == WaitingNetwork
    ensures Reachable(way, Bounced(id, way.r))
  {
    hide Reachable;
    ReachBouncedWritten(way, id);
    var c := Solo(BouncedWritten(id, way.r), Dispatcher(Fresh(id, way.r), id), Written);
    ReachStep(way, c, RemoveFile(1, Synced));
    assert Do(c, RemoveFile(1, Synced)) == Bounced(id, way.r);
  }

  /**
   * For every answer that breaks honesty there is a run in which nothing else goes wrong, no crash, no lost reply and
   * no file fault, and which hands a possibly submitted message to a transport again.
   */
  lemma {:induction false} DishonestAnswerResubmits(r: TransportReply)
    requires !Honest(r)
    ensures exists steps ::
              Run(EMPTY, steps) && Goes(EMPTY, steps, Way(r, 0, 0)) && !NeverResubmitted(Exec(EMPTY, steps).log)
  {
    hide Goes;
    RetryMeansNothing(r);
    var id: Id := "m";
    var way := Way(r, 0, 0);
    ReachBounced(way, id);
    var b := Bounced(id, r);
    assert Dispatchable(b, id, r);
    ReachHandOff(way, b, id);
    var t := Solo(Dispatched(b, id), Dispatcher(b, id), Handed(1));
    assert t.log[0].id == t.log[1].id && t.log[0].answer != Nothing && t.log[1].born == 0;
  }

  /** An honest answer that puts the message back in the queue. */
  predicate Requeues(r: TransportReply) { Honest(r) && Retry(Classify(r)) }

  /** A restarted process that finds `id` sending and a journalled outcome that re-queues it. */
  function Restarted(id: Id, log: seq<Entry>, r: TransportReply): Sys {
    EMPTY.(rows := map[id := FreshRow(r).(state := Sending, operationAt := Some(0))],
           disk := map[id := Good(Classify(r))], log := log)
  }

  /** The same process once the outcome is replayed and its file unlinked with result `f`. */
  function Recovered(id: Id, log: seq<Entry>, f: FileOp, r: TransportReply): Sys {
    EMPTY.(boot := Up, log := log,
           rows := map[id := FreshRow(r).(state := WaitingNetwork, issue := Classify(r).issue, operationAt := Some(0))],
           limbo := if f.Unsynced? then map[id := {Good(Classify(r))}] else map[])
  }

  lemma {:induction false} ReachReplayed(way: Way, id: Id, log: seq<Entry>)
    requires Requeues(way.r) && Reachable(way, Restarted(id, log, way.r))
    ensures Reachable(way,
            Restarted(id, log, way.r).(rows := Recovered(id, log, Synced, way.r).rows, replay := Done(id)))
  {
    hide Reachable;
    var s, o := Restarted(id, log, way.r), Classify(way.r);
    ReachStep(way, s, ReplayTake(id));
    var t := s.(replay := Holding(id, o));
    assert Do(s, ReplayTake(id)) == t;
    ReachStep(way, t, ReplayApply(Acked));
    assert WithOutcome(s.rows, id, o) == Recovered(id, log, Synced, way.r).rows;
  }

  lemma {:induction false} ReachRecovered(way: Way, id: Id, log: seq<Entry>)
    requires Requeues(way.r) && Reachable(way, Restarted(id, log, way.r))
    ensures Reachable(way, Recovered(id, log, Synced, way.r))
    ensures Reachable(way.(undone := way.undone + 1), Recovered(id, log, Unsynced, way.r))
  {
    hide Reachable;
    ReachReplayed(way, id, log);
    ReachUnlinked(way, id, log, Synced, way);
    ReachUnlinked(way, id, log, Unsynced, way.(undone := way.undone + 1));
  }

  lemma {:induction false} ReachUnlinked(way: Way, id: Id, log: seq<Entry>, f: FileOp, more: Way)
    requires Reachable(way,
             Restarted(id, log, way.r).(rows := Recovered(id, log, Synced, way.r).rows, replay := Done(id)))
    requires (f.Synced? && more == way) || (f.Unsynced? && more == way.(undone := way.undone + 1))
    ensures Reachable(more, Recovered(id, log, f, way.r))
  {
    hide Reachable;
    var up := Recovered(id, log, f, way.r);
    var u := Restarted(id, log, way.r).(rows := up.rows, replay := Done(id));
    assert Adds(u, ReplayRemove(f), way, more);
    assert Alternatives(u, id) == {Good(Classify(way.r))};
    ReachMore(way, u, ReplayRemove(f), more);
    assert Do(u, ReplayRemove(f)) == up.(boot := Replaying);
    ReachUp(more, up.(boot := Replaying));
    assert up.(boot := Replaying).(boot := Up) == up;
  }

  /** The outcome of the first hand-off reaches the journal file. */
  lemma {:induction false} ReachJournalled(way: Way, id: Id, w: Worker, b: Sys)
    requires way == Way(way.r, 0, 0) && Requeues(way.r) && !IsRx(id) && b == Dispatched(Fresh(id, way.r), id)
             && w == Dispatcher(Fresh(id, way.r), id)
    ensures Reachable(way, Solo(b.(log := [Entry(id, 0, 0, Nothing)], mem := map[id := Classify(way.r)],
                              disk := map[id := Good(Classify(way.r))]), w, Stored(Classify(way.r))))
  {
    hide Reachable;
    var o := Classify(way.r);
    ReachQueued(id, way.r);
    assert Dispatchable(Fresh(id, way.r), id, way.r);
    ReachHandOff(way, Fresh(id, way.r), id);
    ReachStored(way, b, w, 0);
    assert WithAnswer(b, 0, way.r).log == [Entry(id, 0, 0, Nothing)];
  }

  lemma {:induction false} ReachRestarted(way: Way, id: Id)
    requires way == Way(way.r, 0, 0) && Requeues(way.r) && !IsRx(id)
    ensures Reachable(way.(crashes := 1), Restarted(id, [Entry(id, 0, 0, Nothing)], way.r))
  {
    hide Reachable;
    var b, w, o := Dispatched(Fresh(id, way.r), id), Dispatcher(Fresh(id, way.r), id), Classify(way.r);
    ReachJournalled(way, id, w, b);
    var x := Solo(b.(log := [Entry(id, 0, 0, Nothing)], mem := map[id := o], disk := map[id := Good(o)]), w, Stored(o));
    ReachCrash(way, x, map[]);
    assert x.rows == Restarted(id, [], way.r).rows;
    assert Do(x, Crash(map[])) == Restarted(id, x.log, way.r);
  }

  /** A worker hands the recovered message off and the process dies; the undone unlink is back. */
  lemma {:induction false} ReachUndone(way: Way, id: Id, log: seq<Entry>)
    requires Requeues(way.r) && !IsRx(id) && Reachable(way, Recovered(id, log, Unsynced, way.r))
    ensures Reachable(way.(crashes := way.crashes + 1), Restarted(id, log + [Entry(id, 0, 0, NoAnswer)], way.r))
  {
    hide Reachable;
    var s := Recovered(id, log, Unsynced, way.r);
    assert Dispatchable(s, id, way.r);
    ReachHandOff(way, s, id);
    var h := Solo(Dispatched(s, id), Dispatcher(s, id), Handed(|log|));
    ReachCrash(way, h, map[id := Good(Classify(way.r))]);
    assert h.rows == Restarted(id, [], way.r).rows;
    assert Do(h, Crash(map[id := Good(Classify(way.r))])) == Restarted(id, h.log, way.r);
  }

  /** The message is back in the queue for the second time, and is handed off for the third. */
  lemma {:induction false} ReachThird(id: Id, r: TransportReply) returns (t: Sys)
    requires Requeues(r) && !IsRx(id)
    ensures Reachable(Way(r, 2, 1), t) && |t.log| == 3
    ensures t.log[1] == Entry(id, 0, 0, NoAnswer) && t.log[2] == t.log[1]
  {
    hide Reachable, Do, Enabled;
    var log := [Entry(id, 0, 0, Nothing)];
    ReachRestarted(Way(r, 0, 0), id);
    ReachRecovered(Way(r, 1, 0), id, log);
    ReachUndone(Way(r, 1, 1), id, log);
    var log' := log + [Entry(id, 0, 0, NoAnswer)];
    ReachRecovered(Way(r, 2, 1), id, log');
    var z := Recovered(id, log', Synced, r);
    assert Dispatchable(z, id, r);
    ReachHandOff(Way(r, 2, 1), z, id);
    t := Solo(Dispatched(z, id), Dispatcher(z, id), Handed(2));
  }

  /**
   * With honest transports the other assumption is needed as well: for every answer that re-queues there is a run with
   * two crashes and one undone unlink of that answer's replayed record, in which every other step goes well, and which
   * hands a possibly submitted message to a transport again.
   */
  lemma {:induction false} UndoneUnlinkResubmits(r: TransportReply)
    requires Honest(r) && Classify(r).state == WaitingNetwork
    ensures exists steps ::
              Run(EMPTY, steps) && Goes(EMPTY, steps, Way(r, 2, 1)) && !NeverResubmitted(Exec(EMPTY, steps).log)
  {
    hide Goes, Do, Enabled;
    var t := ReachThird("m", r);
    assert !NeverResubmitted(t.log) by { assert t.log[1].id == t.log[2].id && t.log[1].answer != Nothing; }
    var steps :| Run(EMPTY, steps) && Goes(EMPTY, steps, Way(r, 2, 1)) && Exec(EMPTY, steps) == t;
  }

  /** The undone unlink is what does it: with an honest answer and none of them, no number of crashes does harm. */
  lemma {:induction false} CrashesAloneAreSafe(r: TransportReply, steps: seq<Action>, crashes: nat)
    requires Honest(r) && Run(EMPTY, steps) && Goes(EMPTY, steps, Way(r, crashes, 0))
    ensures NeverResubmitted(Exec(EMPTY, steps).log)
  {
    GoesReliably(EMPTY, steps, Way(r, crashes, 0));
    NoMessageResubmitted(EMPTY, steps);
  }

  lemma {:induction false} GoesReliably(s: Sys, steps: seq<Action>, way: Way)
    requires Honest(way.r) && Run(s, steps) && Goes(s, steps, way) && way.undone == 0
    ensures Reliable(s, steps)
    decreases |steps|
  {
    hide Do, Enabled, Smooth, Assumed;
    if steps != [] {
      var a, t, rest := steps[0], Do(s, steps[0]), steps[1..];
      OnlyUndoesBreaks(s, a, way.r);
      if Smooth(s, a, way.r) && Goes(t, rest, way) {
        GoesReliably(t, rest, way);
      } else {
        GoesReliably(t, rest, way.(crashes := way.crashes - 1));
      }
    }
  }
}
