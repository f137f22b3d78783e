/**
 * Status reports of sent text messages (sections 9.2.3.6 and 9.2.3.15 of 3GPP TS 23.040): a report names a peer and an
 * 8-bit message reference, which the network reuses. One card is modelled; a message is its index in the table.
 */
module Receipts {
  import opened Common

  const RECENT := WEEK
  const SLACK := 10 * MINUTE

  datatype State = Accepted | Partial | Unknown | Failed | Delivered | Other
  datatype Issue = NoIssue | ResultTimeout | SmsStatus(code: nat) | OtherIssue

  /** One submitted part as the transport recorded it. */
  datatype PartResult = PartResult(reference: nat, submittedAt: Option<int>)

  /** A message of ours; `parts` is empty when the result lists none, and `partsTotal` is 0 when it is missing. */
  datatype Message = Message(peer: string, text: bool, created: int, parts: seq<PartResult>, partsTotal: int,
                             state: State, issue: Issue)

  datatype Report = Report(peer: string, reference: nat, status: nat, scts: Option<int>, received: int)

  // ---------- Matching ----------

  function Digits(peer: string): string {
    if peer != "" && peer[0] == '+' then Digits(peer[1..]) else peer
  }

  /** As many leading plus signs as there are go, and nothing else. */
  lemma {:induction false} PlusPlaysNoPart(peer: string, other: string)
    ensures Digits("+" + peer) == Digits(peer)
    ensures Digits(peer) == "" || Digits(peer)[0] != '+'
    ensures peer == "" || peer[0] != '+' ==> Digits(peer) == peer
    ensures Digits(peer) == other ==>
              |other| <= |peer| && peer[|peer| - |other|..] == other
              && forall i :: 0 <= i < |peer| - |other| ==> peer[i] == '+'
  {
    assert ("+" + peer)[1..] == peer;
    if peer != "" && peer[0] == '+' {
      PlusPlaysNoPart(peer[1..], other);
      if Digits(peer) == other {
        forall i | 0 <= i < |peer| - |other| ensures peer[i] == '+' {
          if i > 0 { assert peer[1..][i - 1] == peer[i]; }
        }
      }
    }
  }

  function SubmittedAt(m: Message, k: nat): int
    requires k < |m.parts|
  {
    if m.parts[k].submittedAt.Some? then m.parts[k].submittedAt.value else m.created
  }

  predicate PartMatches(m: Message, k: nat, p: Report)
    requires k < |m.parts|
  {
    && Digits(m.peer) == Digits(p.peer) && m.parts[k].reference == p.reference && p.received >= m.created
    && (p.scts.Some? ==> SubmittedAt(m, k) - SLACK <= p.scts.value <= SubmittedAt(m, k) + SLACK)
  }

  predicate AnyPartMatches(m: Message, p: Report) { exists k :: 0 <= k < |m.parts| && PartMatches(m, k, p) }

  predicate Matches(m: Message, p: Report, now: int) {
    m.text && m.created > now - RECENT && AnyPartMatches(m, p)
  }

  /** The numbers agree up to a plus, the references are the same, and the report came after and in time. */
  predicate Fits(m: Message, part: PartResult, p: Report) {
    var at := if part.submittedAt.Some? then part.submittedAt.value else m.created;
    && p.received >= m.created && Digits(m.peer) == Digits(p.peer) && part.reference == p.reference
    && (p.scts.Some? ==> -600 <= p.scts.value - at <= 600)
  }

  lemma {:induction false} PartFits(m: Message, k: nat, p: Report)
    requires k < |m.parts|
    ensures PartMatches(m, k, p) <==> Fits(m, m.parts[k], p)
  {
    hide Digits;
  }

  /** A report fits a text message of the last week exactly if it fits one of its parts, with or without a plus. */
  lemma {:induction false} MatchesExactly(m: Message, p: Report, now: int)
    ensures Matches(m, p, now) <==>
            m.text && now - m.created < 604800 && exists k :: 0 <= k < |m.parts| && Fits(m, m.parts[k], p)
  {
    hide Digits, PartMatches;
    forall k | 0 <= k < |m.parts| ensures PartMatches(m, k, p) <==> Fits(m, m.parts[k], p) { PartFits(m, k, p); }
  }

  lemma {:induction false} SameFit(m: Message, n: Message, p: Report, q: Report, k: nat)
    requires n == m.(peer := n.peer) && q == p.(peer := q.peer) && k < |m.parts|
    requires Digits(n.peer) == Digits(m.peer) && Digits(q.peer) == Digits(p.peer)
    ensures Fits(n, n.parts[k], q) == Fits(m, m.parts[k], p)
  {
    hide Digits;
  }

  lemma {:induction false} SamePeer(m: Message, n: Message, p: Report, q: Report, now: int)
    requires n == m.(peer := n.peer) && q == p.(peer := q.peer)
    requires Digits(n.peer) == Digits(m.peer) && Digits(q.peer) == Digits(p.peer)
    ensures Matches(n, q, now) == Matches(m, p, now)
  {
    hide Matches, Digits, Fits;
    MatchesExactly(m, p, now);
    MatchesExactly(n, q, now);
    forall k | 0 <= k < |m.parts| ensures Fits(n, n.parts[k], q) == Fits(m, m.parts[k], p) { SameFit(m, n, p, q, k); }
  }

  /** Whether the numbers are written with a plus makes no difference. */
  lemma {:induction false} PlusFits(m: Message, p: Report, now: int)
    ensures Matches(m.(peer := "+" + m.peer), p, now) == Matches(m, p, now)
    ensures Matches(m, p.(peer := "+" + p.peer), now) == Matches(m, p, now)
  {
    PlusPlaysNoPart(m.peer, "");
    PlusPlaysNoPart(p.peer, "");
    hide Matches, Digits;
    SamePeer(m, m.(peer := "+" + m.peer), p, p, now);
    SamePeer(m, m, p, p.(peer := "+" + p.peer), now);
  }

  function Matchers(ms: seq<Message>, p: Report, now: int): (found: set<nat>)
    ensures forall i: nat :: i in found <==> i < |ms| && Matches(ms[i], p, now)
  {
    set i: nat | i < |ms| && Matches(ms[i], p, now)
  }

  /** The report can only be about message i. */
  predicate Names(ms: seq<Message>, p: Report, now: int, i: nat) { Matchers(ms, p, now) == {i} }

  // ---------- Outcomes ----------

  predicate Permanent(status: nat) { 64 <= status <= 127 }

  function Failures(ms: seq<Message>, reports: seq<Report>, now: int, i: nat): set<nat> {
    set r | 0 <= r < |reports| && Permanent(reports[r].status) && Names(ms, reports[r], now, i) :: reports[r].status
  }

  function DeliveredReferences(ms: seq<Message>, reports: seq<Report>, now: int, i: nat): set<nat> {
    set r | 0 <= r < |reports| && reports[r].status == 0 && Names(ms, reports[r], now, i) :: reports[r].reference
  }

  predicate Waiting(m: Message) {
    m.state in {Accepted, Partial, Unknown} || (m.state.Failed? && m.issue.ResultTimeout?)
  }

  predicate AllDelivered(m: Message, references: set<nat>) {
    !m.state.Partial? && m.partsTotal > 0 && |references| == m.partsTotal && |m.parts| == m.partsTotal
  }

  predicate Greatest(codes: set<nat>, code: nat) { code in codes && forall c :: c in codes ==> c <= code }

  lemma {:induction false} HasGreatest(codes: set<nat>)
    requires codes != {}
    ensures exists code :: Greatest(codes, code)
  {
    var c :| c in codes;
    var rest := codes - {c};
    assert forall x :: x in codes ==> x in rest || x == c;
    if rest == {} {
      assert Greatest(codes, c);
    } else {
      HasGreatest(rest);
      var d :| Greatest(rest, d);
      assert Greatest(codes, if c < d then d else c);
    }
  }

  ghost function Updated(ms: seq<Message>, reports: seq<Report>, now: int, i: nat): Message
    requires i < |ms|
  {
    var failures := Failures(ms, reports, now, i);
    if !Waiting(ms[i]) then ms[i]
    else if failures != {} then
      HasGreatest(failures);
      var code :| Greatest(failures, code);
      ms[i].(state := Failed, issue := SmsStatus(code))
    else if AllDelivered(ms[i], DeliveredReferences(ms, reports, now, i)) then
        ms[i].(state := Delivered, issue := NoIssue)
    else ms[i]
  }

  ghost function Applied(ms: seq<Message>, reports: seq<Report>, now: int): (after: seq<Message>)
    ensures |after| == |ms| && forall i :: 0 <= i < |ms| ==> after[i] == Updated(ms, reports, now, i)
  {
    seq(|ms|, i requires 0 <= i < |ms| => Updated(ms, reports, now, i))
  }

  // ---------- Delivered means every part was ----------

  function References(parts: seq<PartResult>): (refs: set<nat>)
    ensures forall k :: 0 <= k < |parts| ==> parts[k].reference in refs
    ensures forall x :: x in refs ==> exists k :: 0 <= k < |parts| && parts[k].reference == x
  {
    if parts == [] then {} else References(parts[..|parts| - 1]) + {parts[|parts| - 1].reference}
  }

  predicate DistinctReferences(parts: seq<PartResult>) {
    forall j, k :: 0 <= j < k < |parts| ==> parts[j].reference != parts[k].reference
  }

  lemma {:induction false} NoParts() ensures DistinctReferences([]) {}

  lemma {:induction false} OneMore(init: seq<PartResult>, last: PartResult)
    requires DistinctReferences(init) && last.reference !in References(init)
    ensures DistinctReferences(init + [last])
  {
    hide References;
  }

  lemma {:induction false} FewReferences(parts: seq<PartResult>)
    ensures |References(parts)| <= |parts|
    ensures |References(parts)| == |parts| ==> DistinctReferences(parts)
  {
    hide DistinctReferences;
    if parts == [] {
      NoParts();
    } else {
      var init, last := parts[..|parts| - 1], parts[|parts| - 1];
      FewReferences(init);
      if last.reference in References(init) {
        assert References(parts) == References(init);
      } else if |References(init)| == |init| {
        OneMore(init, last);
        assert parts == init + [last];
      }
    }
  }

  /** Part k of message i has a delivery report of its own: it fits this part, no other part, and no other message. */
  ghost predicate PartConfirmed(ms: seq<Message>, reports: seq<Report>, now: int, i: nat, k: nat)
    requires i < |ms| && k < |ms[i].parts|
  {
    exists r :: 0 <= r < |reports| && Confirms(ms, reports[r], now, i, k)
  }

  ghost predicate Confirms(ms: seq<Message>, p: Report, now: int, i: nat, k: nat)
    requires i < |ms| && k < |ms[i].parts|
  {
    && p.status == 0 && Names(ms, p, now, i) && PartMatches(ms[i], k, p)
    && forall h :: 0 <= h < |ms[i].parts| && h != k ==> !PartMatches(ms[i], h, p)
  }

  lemma {:induction false} DeliveredAreOwn(ms: seq<Message>, reports: seq<Report>, now: int, i: nat)
    requires i < |ms|
    ensures DeliveredReferences(ms, reports, now, i) <= References(ms[i].parts)
  {
    forall x | x in DeliveredReferences(ms, reports, now, i) ensures x in References(ms[i].parts) {
      var r :| 0 <= r < |reports| && reports[r].status == 0 && Names(ms, reports[r], now, i)
          && reports[r].reference == x;
      assert i in Matchers(ms, reports[r], now);
    }
  }

  /** With different references, a report that names the message can be about one of its parts only. */
  lemma {:induction false} OnlyPart(ms: seq<Message>, p: Report, now: int, i: nat, k: nat)
    requires i < |ms| && k < |ms[i].parts| && DistinctReferences(ms[i].parts)
    requires p.status == 0 && Names(ms, p, now, i) && p.reference == ms[i].parts[k].reference
    ensures Confirms(ms, p, now, i, k)
  {
    hide Digits;
    assert i in Matchers(ms, p, now);
    var h :| 0 <= h < |ms[i].parts| && PartMatches(ms[i], h, p);
    assert h == k;
  }

  /** As many delivered references as parts force every part to have been delivered. */
  lemma {:induction false} AllConfirmed(ms: seq<Message>, reports: seq<Report>, now: int, i: nat, k: nat)
    requires i < |ms| && k < |ms[i].parts|
    requires |DeliveredReferences(ms, reports, now, i)| >= |ms[i].parts|
    ensures PartConfirmed(ms, reports, now, i, k)
  {
    var m, refs := ms[i], DeliveredReferences(ms, reports, now, i);
    DeliveredAreOwn(ms, reports, now, i);
    FewReferences(m.parts);
    SameSizeSubset(refs, References(m.parts));
    var x := m.parts[k].reference;
    assert x in refs;
    hide References, DistinctReferences, Names, Confirms;
    var r :| 0 <= r < |reports| && reports[r].status == 0 && Names(ms, reports[r], now, i) && reports[r].reference == x;
    OnlyPart(ms, reports[r], now, i, k);
  }

  lemma {:induction false} CountReferences(parts: seq<PartResult>)
    requires DistinctReferences(parts)
    ensures |References(parts)| == |parts|
  {
    if parts != [] {
      var init, last := parts[..|parts| - 1], parts[|parts| - 1].reference;
      CountReferences(init);
      forall k | 0 <= k < |init| ensures init[k].reference != last {
        assert parts[k].reference != parts[|parts| - 1].reference;
      }
    }
  }

  lemma {:induction false} ConfirmedCounts(ms: seq<Message>, reports: seq<Report>, now: int, i: nat)
    requires i < |ms| && DistinctReferences(ms[i].parts)
    requires forall k :: 0 <= k < |ms[i].parts| ==> PartConfirmed(ms, reports, now, i, k)
    ensures |DeliveredReferences(ms, reports, now, i)| == |ms[i].parts|
  {
    var m, refs := ms[i], DeliveredReferences(ms, reports, now, i);
    DeliveredAreOwn(ms, reports, now, i);
    forall x | x in References(m.parts) ensures x in refs {
      var k :| 0 <= k < |m.parts| && m.parts[k].reference == x;
      assert PartConfirmed(ms, reports, now, i, k);
      var r :| 0 <= r < |reports| && Confirms(ms, reports[r], now, i, k);
      assert reports[r].reference == x;
    }
    assert refs == References(m.parts);
    CountReferences(m.parts);
  }

  /** No report that can only be about message i says that it failed. */
  ghost predicate NoFailure(ms: seq<Message>, reports: seq<Report>, now: int, i: nat) {
    forall r :: 0 <= r < |reports| && Permanent(reports[r].status) ==> !Names(ms, reports[r], now, i)
  }

  lemma {:induction false} FailuresEmpty(ms: seq<Message>, reports: seq<Report>, now: int, i: nat)
    ensures NoFailure(ms, reports, now, i) <==> Failures(ms, reports, now, i) == {}
  {
    if NoFailure(ms, reports, now, i) {
      assert Failures(ms, reports, now, i) == {};
    } else {
      var r :| 0 <= r < |reports| && Permanent(reports[r].status) && Names(ms, reports[r], now, i);
      assert reports[r].status in Failures(ms, reports, now, i);
    }
  }

  /**
   * A waiting message becomes delivered exactly when nothing unambiguous says it failed, its result lists all its
   * parts under different references, and each part has its own delivery report.
   */
  lemma {:induction false} DeliveredExactly(ms: seq<Message>, reports: seq<Report>, now: int, i: nat)
    requires i < |ms| && Waiting(ms[i])
    ensures Applied(ms, reports, now)[i].state.Delivered? <==>
              && !ms[i].state.Partial? && |ms[i].parts| == ms[i].partsTotal > 0
              && NoFailure(ms, reports, now, i) && DistinctReferences(ms[i].parts)
              && forall k :: 0 <= k < |ms[i].parts| ==> PartConfirmed(ms, reports, now, i, k)
  {
    var m, refs := ms[i], DeliveredReferences(ms, reports, now, i);
    FailuresEmpty(ms, reports, now, i);
    if |m.parts| == m.partsTotal > 0 {
      if |refs| == |m.parts| {
        DeliveredAreOwn(ms, reports, now, i);
        FewReferences(m.parts);
        SameSizeSubset(refs, References(m.parts));
        forall k | 0 <= k < |m.parts| ensures PartConfirmed(ms, reports, now, i, k) {
          AllConfirmed(ms, reports, now, i, k);
        }
      } else if DistinctReferences(m.parts)
          && (forall k :: 0 <= k < |m.parts| ==> PartConfirmed(ms, reports, now, i, k)) {
        ConfirmedCounts(ms, reports, now, i);
      }
    }
  }

  /** The greatest permanent code of the reports that can be about message i only. */
  ghost predicate WorstCode(ms: seq<Message>, reports: seq<Report>, now: int, i: nat, code: nat) {
    && (exists r :: 0 <= r < |reports| && Names(ms, reports[r], now, i) && Permanent(code) && reports[r].status == code)
    && (forall r :: 0 <= r < |reports| && Names(ms, reports[r], now, i) && Permanent(reports[r].status) ==>
          reports[r].status <= code)
  }

  /**
   * A waiting message fails by a report exactly if one that can be about no other message says so, with the worst code.
   */
  lemma {:induction false} FailedExactly(ms: seq<Message>, reports: seq<Report>, now: int, i: nat)
    requires i < |ms| && Waiting(ms[i])
    ensures var m := Applied(ms, reports, now)[i];
            && (m != ms[i] && m.state.Failed? <==> !NoFailure(ms, reports, now, i))
            && (m != ms[i] && m.state.Failed? ==>
                  m.issue.SmsStatus? && WorstCode(ms, reports, now, i, m.issue.code)
                  && m == ms[i].(state := Failed, issue := m.issue))
  {
    FailuresEmpty(ms, reports, now, i);
    if Failures(ms, reports, now, i) != {} {
      HasGreatest(Failures(ms, reports, now, i));
      var m, failures := Applied(ms, reports, now)[i], Failures(ms, reports, now, i);
      assert Greatest(failures, m.issue.code);
      forall r | 0 <= r < |reports| && Names(ms, reports[r], now, i) && Permanent(reports[r].status)
        ensures reports[r].status <= m.issue.code
      {
        assert reports[r].status in failures;
      }
    }
  }

  // ---------- Ambiguous reports ----------

  lemma {:induction false} UselessReport(ms: seq<Message>, reports: seq<Report>, now: int, r: nat, i: nat)
    requires r < |reports| && !Names(ms, reports[r], now, i)
    ensures Failures(ms, reports[..r] + reports[r + 1..], now, i) == Failures(ms, reports, now, i)
    ensures DeliveredReferences(ms, reports[..r] + reports[r + 1..], now, i) == DeliveredReferences(ms, reports, now, i)
  {
    var fewer := reports[..r] + reports[r + 1..];
    forall h | 0 <= h < |reports| && h != r ensures reports[h] in fewer {
      assert reports[h] == fewer[if h < r then h else h - 1];
    }
    forall h | 0 <= h < |fewer| ensures fewer[h] == reports[if h < r then h else h + 1] {
    }
    forall x | x in Failures(ms, reports, now, i) ensures x in Failures(ms, fewer, now, i) {
      var h :| 0 <= h < |reports| && Permanent(reports[h].status) && Names(ms, reports[h], now, i)
          && reports[h].status == x;
      assert reports[h] == fewer[if h < r then h else h - 1];
    }
    forall x | x in DeliveredReferences(ms, reports, now, i) ensures x in DeliveredReferences(ms, fewer, now, i) {
      var h :| 0 <= h < |reports| && reports[h].status == 0 && Names(ms, reports[h], now, i)
          && reports[h].reference == x;
      assert reports[h] == fewer[if h < r then h else h - 1];
    }
  }

  /** A report that fits two messages advances neither: the table ends up as if it had never come. */
  lemma {:induction false} AmbiguousAdvancesNothing(ms: seq<Message>, reports: seq<Report>, now: int, r: nat, i: nat,
                                                    j: nat)
    requires r < |reports| && i < |ms| && j < |ms| && i != j
    requires Matches(ms[i], reports[r], now) && Matches(ms[j], reports[r], now)
    ensures Applied(ms, reports[..r] + reports[r + 1..], now) == Applied(ms, reports, now)
  {
    assert i in Matchers(ms, reports[r], now) && j in Matchers(ms, reports[r], now);
    forall h | 0 <= h < |ms|
      ensures Applied(ms, reports[..r] + reports[r + 1..], now)[h] == Applied(ms, reports, now)[h]
    {
      UselessReport(ms, reports, now, r, h);
    }
  }

  /** Reports are about messages of ours that wait: everything else stays, and a delivered message stays delivered. */
  lemma {:induction false} OnlyWaitingChange(ms: seq<Message>, reports: seq<Report>, now: int, i: nat)
    requires i < |ms|
    ensures Applied(ms, reports, now)[i] != ms[i] ==> Waiting(ms[i]) && ms[i].text && ms[i].created > now - RECENT
    ensures ms[i].state.Delivered? ==> Applied(ms, reports, now)[i] == ms[i]
    ensures Applied(ms, reports, now)[i].(state := ms[i].state, issue := ms[i].issue) == ms[i]
  {
    var failures, refs := Failures(ms, reports, now, i), DeliveredReferences(ms, reports, now, i);
    if Applied(ms, reports, now)[i] != ms[i] {
      var r: nat;
      if failures != {} {
        var x :| x in failures;
        r :| 0 <= r < |reports| && Permanent(reports[r].status) && Names(ms, reports[r], now, i);
      } else {
        assert refs != {};
        var x :| x in refs;
        r :| 0 <= r < |reports| && reports[r].status == 0 && Names(ms, reports[r], now, i);
      }
      assert i in Matchers(ms, reports[r], now);
    }
  }

  /**
   * Only messages of the last seven days are compared. A report without a service-centre time that fits two messages
   * holds back both, until the older one is a week old; then it delivers the younger one.
   */
  lemma {:induction false} AgeingResolvesAmbiguity(peer: string, start: int, reference: nat)
    ensures var old_ := Message(peer, true, start, [PartResult(reference, None)], 1, Delivered, NoIssue);
            var new_ := Message(peer, true, start + DAY, [PartResult(reference, None)], 1, Accepted, NoIssue);
            var p := Report(peer, reference, 0, None, start + DAY);
            && Applied([old_, new_], [p], start + WEEK - 1) == [old_, new_]
            && Applied([old_, new_], [p], start + WEEK)[1].state.Delivered?
  {
    var old_ := Message(peer, true, start, [PartResult(reference, None)], 1, Delivered, NoIssue);
    var new_ := Message(peer, true, start + DAY, [PartResult(reference, None)], 1, Accepted, NoIssue);
    var p := Report(peer, reference, 0, None, start + DAY);
    var ms, before, after := [old_, new_], start + WEEK - 1, start + WEEK;
    assert PartMatches(old_, 0, p) && PartMatches(new_, 0, p);
    AmbiguousAdvancesNothing(ms, [p], before, 0, 0, 1);
    assert [p][..0] + [p][1..] == [];
    assert Applied(ms, [], before) == ms by {
      assert DeliveredReferences(ms, [], before, 0) == {} && DeliveredReferences(ms, [], before, 1) == {};
      assert Failures(ms, [], before, 0) == {} && Failures(ms, [], before, 1) == {};
    }
    assert Matchers(ms, p, after) == {1};
    assert Confirms(ms, p, after, 1, 0);
    assert [p][0] == p;
    DeliveredExactly(ms, [p], after, 1);
  }

  // ---------- The update, row by row ----------

  class Table {
    var messages: seq<Message>
    var reports: seq<Report>

    constructor (messages: seq<Message>, reports: seq<Report>)
      ensures this.messages == messages && this.reports == reports
    {
      this.messages, this.reports := messages, reports;
    }

    /** How many messages the report fits, and the first of them. */
    static method CountMatches(ms: seq<Message>, p: Report, now: int) returns (n: nat, first: nat)
      ensures n == |Matchers(ms, p, now)|
      ensures n == 1 ==> Names(ms, p, now, first)
    {
      hide Matches, Matchers;
      n, first := 0, 0;
      NoMatchers(p, now);
      for i := 0 to |ms|
        invariant n == |Matchers(ms[..i], p, now)| && (n == 1 ==> Names(ms[..i], p, now, first))
      {
        OneMessage(ms, p, now, i);
        if Matches(ms[i], p, now) {
          if n == 0 { first := i; }
          n := n + 1;
        }
      }
      assert ms[..|ms|] == ms;
    }

    /** What the unambiguous reports say about message i. */
    static method Collect(ms: seq<Message>, reports: seq<Report>, now: int, i: nat)
      returns (failures: set<nat>, delivered: set<nat>)
      ensures failures == Failures(ms, reports, now, i) && delivered == DeliveredReferences(ms, reports, now, i)
    {
      failures, delivered := {}, {};
      for r := 0 to |reports|
        invariant failures == Failures(ms, reports[..r], now, i)
        invariant delivered == DeliveredReferences(ms, reports[..r], now, i)
      {
        var n, first := CountMatches(ms, reports[r], now);
        OneReport(ms, reports, now, i, r);
        if n == 1 && first == i {
          if Permanent(reports[r].status) { failures := failures + {reports[r].status}; }
          if reports[r].status == 0 { delivered := delivered + {reports[r].reference}; }
        }
      }
      assert reports[..|reports|] == reports;
    }

    method ApplySMSReports(now: int)
      modifies this`messages
      ensures messages == Applied(old(messages), reports, now)
    {
      var before := messages;
      for i := 0 to |before|
        invariant |messages| == |before|
        invariant forall j :: 0 <= j < i ==> messages[j] == Applied(before, reports, now)[j]
        invariant forall j :: i <= j < |before| ==> messages[j] == before[j]
      {
        var failures, delivered := Collect(before, reports, now, i);
        if Waiting(before[i]) {
          if failures != {} {
            var code := Top(failures);
            messages := messages[i := before[i].(state := Failed, issue := SmsStatus(code))];
          } else if AllDelivered(before[i], delivered) {
            messages := messages[i := before[i].(state := Delivered, issue := NoIssue)];
          }
        }
      }
    }
  }

  method Top(codes: set<nat>) returns (code: nat)
    requires codes != {}
    ensures Greatest(codes, code)
    ensures forall c :: Greatest(codes, c) ==> c == code
  {
    var rest := codes;
    code :| code in rest;
    rest := rest - {code};
    while rest != {}
      invariant code in codes && rest <= codes && forall c :: c in codes && c !in rest ==> c <= code
    {
      var c :| c in rest;
      if c > code { code := c; }
      rest := rest - {c};
    }
  }

  lemma {:induction false} NoMatchers(p: Report, now: int) ensures Matchers([], p, now) == {} {}

  lemma {:induction false} OneMessage(ms: seq<Message>, p: Report, now: int, i: nat)
    requires i < |ms|
    ensures i !in Matchers(ms[..i], p, now)
    ensures Matchers(ms[..i + 1], p, now) == Matchers(ms[..i], p, now) + (if Matches(ms[i], p, now) then {i} else {})
  {
    hide Matches;
  }

  lemma {:induction false} OneReport(ms: seq<Message>, reports: seq<Report>, now: int, i: nat, r: nat)
    requires r < |reports|
    ensures var p := reports[r];
            && Failures(ms, reports[..r + 1], now, i) ==
               Failures(ms, reports[..r], now, i)
                   + (if Permanent(p.status) && Names(ms, p, now, i) then {p.status} else {})
            && DeliveredReferences(ms, reports[..r + 1], now, i) ==
               DeliveredReferences(ms, reports[..r], now, i)
                   + (if p.status == 0 && Names(ms, p, now, i) then {p.reference} else {})
  {
    var a, b := reports[..r], reports[..r + 1];
    assert forall h :: 0 <= h < r ==> a[h] == b[h];
    forall x | x in Failures(ms, a, now, i) ensures x in Failures(ms, b, now, i) {
      var h :| 0 <= h < |a| && Permanent(a[h].status) && Names(ms, a[h], now, i) && a[h].status == x;
      assert b[h] == a[h];
    }
    forall x | x in DeliveredReferences(ms, a, now, i) ensures x in DeliveredReferences(ms, b, now, i) {
      var h :| 0 <= h < |a| && a[h].status == 0 && Names(ms, a[h], now, i) && a[h].reference == x;
      assert b[h] == a[h];
    }
    assert b[r] == reports[r];
  }
}
