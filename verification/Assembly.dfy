/**
 * Incoming text fragments (section 9.2.3.24.1 of 3GPP TS 23.040): each is stored once as a part, joined to the newest
 * open message with its reference, and a message is received only when it is whole. One card is modelled; a
 * fingerprint stands for the digest of card and TPDU, and also for the message id made from it.
 */
module Assembly {
  import opened Common

  type Fingerprint = nat

  const WINDOW := 10 * MINUTE
  const MAX_PARTS := 32

  datatype Concat = Concat(reference: int, total: int, sequence: int)

  /**
   * What the modem or the IMS stack delivers: the TPDU in hexadecimal digits, the length of its decoded text, and
   * `text`, the body after the 8-bit user data rule.
   */
  datatype Delivery = Delivery(fp: Fingerprint, from: string, concat: Option<Concat>, encoding: string,
                               text: string, binary: bool, bad: bool, tpdu: string, size: nat)

  datatype Meta = Meta(reference: int, total: int, encoding: string, binary: bool)

  datatype PushState = Unsupported | DownloadPending | Report | Undecodable
  datatype State = Received | Receiving | DecodeError | Push(outcome: PushState)

  datatype Message = Message(id: Fingerprint, peer: string, meta: Option<Meta>, created: int,
                             mms: bool, state: State, body: string)

  datatype Part = Part(fp: Fingerprint, message: Fingerprint, sequence: int, body: string, bad: bool)

  /** Interprets an assembled MMS notification: its state and the peer it names. */
  type Decoder = (string, string) -> (PushState, string)

  datatype Box = Box(messages: seq<Message>, parts: seq<Part>, forgotten: set<Fingerprint>)

  // ---------- Tables ----------

  predicate Stored(parts: seq<Part>, fp: Fingerprint) { exists i :: 0 <= i < |parts| && parts[i].fp == fp }

  predicate Occupied(parts: seq<Part>, id: Fingerprint, sequence: int) {
    exists i :: 0 <= i < |parts| && parts[i].message == id && parts[i].sequence == sequence
  }

  predicate OpenFor(m: Message, v: Delivery, now: int) {
    && m.state.Receiving? && m.peer == v.from && m.meta.Some? && v.concat.Some?
    && m.meta.value.reference == v.concat.value.reference && m.meta.value.total == v.concat.value.total
    && m.meta.value.encoding == v.encoding && m.created > now - WINDOW
  }

  /** The newest open message the fragment belongs to. */
  function FindOpen(ms: seq<Message>, v: Delivery, now: int): (at: Option<nat>)
    ensures at.Some? ==> at.value < |ms| && OpenFor(ms[at.value], v, now)
    ensures at.Some? ==> forall j :: at.value < j < |ms| ==> !OpenFor(ms[j], v, now)
    ensures at.None? ==> forall j :: 0 <= j < |ms| ==> !OpenFor(ms[j], v, now)
  {
    if ms == [] then None
    else if OpenFor(ms[|ms| - 1], v, now) then Some(|ms| - 1)
    else FindOpen(ms[..|ms| - 1], v, now)
  }

  function Find(ms: seq<Message>, id: Fingerprint): (at: Option<nat>)
    ensures at.Some? ==> at.value < |ms| && ms[at.value].id == id
    ensures at.None? ==> forall j :: 0 <= j < |ms| ==> ms[j].id != id
  {
    if ms == [] then None
    else if ms[|ms| - 1].id == id then Some(|ms| - 1)
    else Find(ms[..|ms| - 1], id)
  }

  /** The parts of a message, in order of arrival. */
  function RowsOf(parts: seq<Part>, id: Fingerprint): (rows: seq<Part>)
    ensures forall p :: p in rows <==> p in parts && p.message == id
  {
    if parts == [] then []
    else
      var rest := RowsOf(parts[..|parts| - 1], id);
      if parts[|parts| - 1].message == id then rest + [parts[|parts| - 1]] else rest
  }

  /** Keeps the rows ordered by sequence number. */
  function InsertRow(rows: seq<Part>, p: Part): seq<Part> {
    if rows == [] then [p]
    else if rows[|rows| - 1].sequence <= p.sequence then rows + [p]
    else InsertRow(rows[..|rows| - 1], p) + [rows[|rows| - 1]]
  }

  function BySequence(rows: seq<Part>): seq<Part> {
    if rows == [] then [] else InsertRow(BySequence(rows[..|rows| - 1]), rows[|rows| - 1])
  }

  function Join(rows: seq<Part>): string {
    if rows == [] then "" else Join(rows[..|rows| - 1]) + rows[|rows| - 1].body
  }

  // ---------- One delivery ----------

  predicate HexDigit(c: char) { '0' <= c <= '9' || 'a' <= c <= 'f' || 'A' <= c <= 'F' }

  /** Whole bytes, at least one. */
  predicate Hex(text: string) {
    |text| % 2 == 0 && text != "" && forall i :: 0 <= i < |text| ==> HexDigit(text[i])
  }

  /** Sender, text and TPDU keep to their limits. */
  predicate Readable(v: Delivery) {
    |v.tpdu| <= 1024 && v.size <= 4096 && |v.from| <= 128 && v.from != "" && Hex(v.tpdu)
  }

  /** The numbers of a fragment make sense; these are looked at only if the delivery is not known yet. */
  predicate Numbered(v: Delivery) {
    v.concat.Some? ==>
      var c := v.concat.value;
      1 <= c.sequence <= c.total <= MAX_PARTS && 0 <= c.reference <= 65535
  }

  predicate Valid(v: Delivery) { Readable(v) && Numbered(v) }

  function SequenceOf(v: Delivery): int { if v.concat.Some? then v.concat.value.sequence else 1 }
  function TotalOf(v: Delivery): int { if v.concat.Some? then v.concat.value.total else 1 }

  predicate Ignored(b: Box, v: Delivery) { v.fp in b.forgotten || Stored(b.parts, v.fp) }

  predicate BinaryFor(b: Box, v: Delivery, at: Option<nat>)
    requires at.Some? ==> at.value < |b.messages|
  {
    v.binary || (at.Some? && b.messages[at.value].meta.Some? && b.messages[at.value].meta.value.binary)
  }

  /** The message the part goes to: an open one with the place free, or its own. */
  function Target(b: Box, v: Delivery, at: Option<nat>): Fingerprint
    requires at.Some? ==> at.value < |b.messages|
  {
    if at.Some? && !Occupied(b.parts, b.messages[at.value].id, SequenceOf(v)) then b.messages[at.value].id else v.fp
  }

  function MetaOf(v: Delivery, binary: bool): Option<Meta> {
    if v.concat.None? then None
    else Some(Meta(v.concat.value.reference, v.concat.value.total, v.encoding, binary))
  }

  function FirstState(v: Delivery, binary: bool): State {
    if binary then Receiving else if v.bad then DecodeError else if v.concat.Some? then Receiving else Received
  }

  function Fresh(v: Delivery, id: Fingerprint, now: int, binary: bool): Message {
    Message(id, v.from, MetaOf(v, binary), now, binary, FirstState(v, binary), if binary then "" else v.text)
  }

  /** The message row once all its present parts are joined. */
  function Joined(m: Message, v: Delivery, binary: bool, rows: seq<Part>, push: Decoder): (r: Message)
    ensures r.id == m.id
  {
    var text := Join(BySequence(rows));
    if binary && |rows| == TotalOf(v) then
      var d := push(text, v.from);
      m.(peer := d.1, meta := None, mms := true, state := Push(d.0), body := "")
    else if binary then
      m.(meta := MetaOf(v, true), mms := true, state := Receiving, body := "")
    else
      m.(meta := MetaOf(v, false), mms := false, body := text,
         state := if |rows| == TotalOf(v) && !v.bad then Received else FirstState(v, false))
  }

  function Insert(b: Box, v: Delivery, id: Fingerprint, now: int, binary: bool, push: Decoder): Box {
    var ms := if Find(b.messages, id).Some? then b.messages else b.messages + [Fresh(v, id, now, binary)];
    var ps := b.parts + [Part(v.fp, id, SequenceOf(v), v.text, v.bad)];
    var i := if Find(b.messages, id).Some? then Find(b.messages, id).value else |b.messages|;
    b.(messages := ms[i := Joined(ms[i], v, binary, RowsOf(ps, id), push)], parts := ps)
  }

  function Store(b: Box, v: Delivery, now: int, push: Decoder): Box {
    if !Valid(v) || Ignored(b, v) then b
    else
      var at := FindOpen(b.messages, v, now);
      var id := Target(b, v, at);
      if Occupied(b.parts, id, SequenceOf(v)) then b   // the unique key refuses it
      else Insert(b, v, id, now, BinaryFor(b, v, at), push)
  }

  // ---------- Sorting and joining ----------

  predicate Ordered(rows: seq<Part>) { forall i, j :: 0 <= i < j < |rows| ==> rows[i].sequence <= rows[j].sequence }

  lemma {:induction false} InsertRowKeeps(rows: seq<Part>, p: Part)
    ensures multiset(InsertRow(rows, p)) == multiset(rows) + multiset{p}
  {
    if rows != [] && rows[|rows| - 1].sequence > p.sequence {
      InsertRowKeeps(rows[..|rows| - 1], p);
      assert rows == rows[..|rows| - 1] + [rows[|rows| - 1]];
    }
  }

  lemma {:induction false} AppendOrdered(init: seq<Part>, last: Part)
    requires Ordered(init) && forall p :: p in init ==> p.sequence <= last.sequence
    ensures Ordered(init + [last])
  {
  }

  lemma {:induction false} InsertRowOrders(rows: seq<Part>, p: Part)
    requires Ordered(rows)
    ensures Ordered(InsertRow(rows, p))
  {
    if rows != [] {
      var init, last := rows[..|rows| - 1], rows[|rows| - 1];
      if last.sequence > p.sequence {
        InsertRowOrders(init, p);
        InsertRowKeeps(init, p);
        forall q | q in InsertRow(init, p) ensures q.sequence <= last.sequence {
          assert q in multiset(InsertRow(init, p));
          assert q in multiset(init) || q == p;
        }
        AppendOrdered(InsertRow(init, p), last);
      } else {
        forall q | q in rows ensures q.sequence <= p.sequence {}
        AppendOrdered(rows, p);
      }
    }
  }

  lemma {:induction false} OrderedEmpty() ensures Ordered([]) {}

  lemma {:induction false} BySequenceSorts(rows: seq<Part>)
    ensures Ordered(BySequence(rows)) && multiset(BySequence(rows)) == multiset(rows)
  {
    hide InsertRow, Ordered;
    if rows == [] {
      assert Ordered([]) by { OrderedEmpty(); }
    } else {
      BySequenceSorts(rows[..|rows| - 1]);
      InsertRowOrders(BySequence(rows[..|rows| - 1]), rows[|rows| - 1]);
      InsertRowKeeps(BySequence(rows[..|rows| - 1]), rows[|rows| - 1]);
      assert rows == rows[..|rows| - 1] + [rows[|rows| - 1]];
    }
  }

  predicate DistinctSequences(rows: seq<Part>) {
    forall i, j :: 0 <= i < j < |rows| ==> rows[i].sequence != rows[j].sequence
  }

  predicate InRange(rows: seq<Part>, n: int) { forall p :: p in rows ==> 1 <= p.sequence <= n }

  /** n different sequence numbers between 1 and n are 1 to n. */
  lemma {:induction false} Pigeonhole(rows: seq<Part>, n: nat)
    requires |rows| == n && Ordered(rows) && DistinctSequences(rows) && InRange(rows, n)
    ensures forall i :: 0 <= i < n ==> rows[i].sequence == i + 1
  {
    if n > 0 {
      var init := rows[..n - 1];
      forall p | p in init ensures 1 <= p.sequence <= n - 1 {
        var i :| 0 <= i < n - 1 && init[i] == p;
        assert rows[i].sequence < rows[n - 1].sequence <= n by { assert rows[n - 1] in rows; }
        assert rows[i] in rows;
      }
      Pigeonhole(init, n - 1);
      if n > 1 { assert rows[n - 2].sequence == n - 1 by { assert init[n - 2].sequence == n - 1; } }
      assert rows[n - 1] in rows;
      forall i | 0 <= i < n ensures rows[i].sequence == i + 1 {
        if i < n - 1 { assert init[i].sequence == i + 1; }
      }
    }
  }

  lemma {:induction false} CountDistinct(a: seq<Part>, b: seq<Part>)
    requires multiset(a) == multiset(b) && DistinctSequences(a)
    ensures DistinctSequences(b)
  {
    forall i, j | 0 <= i < j < |b| ensures b[i].sequence != b[j].sequence {
      if b[i].sequence == b[j].sequence {
        var x, y := b[i], b[j];
        assert x in multiset(b) && y in multiset(b);
        assert x in a && y in a;
        if x == y {
          TwiceCounts(b, i, j);
          TwiceMeansTwo(a, x);
        }
      }
    }
  }

  lemma {:induction false} TwiceCounts(b: seq<Part>, i: nat, j: nat)
    requires i < j < |b| && b[i] == b[j]
    ensures multiset(b)[b[i]] >= 2
  {
    assert b == b[..i] + [b[i]] + b[i + 1..j] + [b[j]] + b[j + 1..];
  }

  lemma {:induction false} TwiceMeansTwo(a: seq<Part>, x: Part)
    requires multiset(a)[x] >= 2
    ensures exists i, j :: 0 <= i < j < |a| && a[i] == x && a[j] == x
  {
    assert x in multiset(a);
    var i :| 0 <= i < |a| && a[i] == x;
    var rest := a[..i] + a[i + 1..];
    assert a == a[..i] + [x] + a[i + 1..];
    assert multiset(a) == multiset(rest) + multiset{x};
    assert x in multiset(rest);
    var j :| 0 <= j < |rest| && rest[j] == x;
    if j < i { assert a[j] == x && a[i] == x; } else { assert a[j + 1] == x && a[i] == x; }
  }

  function Flatten(texts: seq<string>): string {
    if texts == [] then "" else Flatten(texts[..|texts| - 1]) + texts[|texts| - 1]
  }

  function Bodies(rows: seq<Part>): (texts: seq<string>)
    ensures |texts| == |rows| && forall i :: 0 <= i < |rows| ==> texts[i] == rows[i].body
  {
    seq(|rows|, i requires 0 <= i < |rows| => rows[i].body)
  }

  lemma {:induction false} JoinIsFlatten(rows: seq<Part>)
    ensures Join(rows) == Flatten(Bodies(rows))
  {
    if rows != [] {
      JoinIsFlatten(rows[..|rows| - 1]);
      assert Bodies(rows)[..|rows| - 1] == Bodies(rows[..|rows| - 1]);
    }
  }

  // ---------- The inductive invariant ----------

  function Total(m: Message): int { if m.meta.Some? then m.meta.value.total else 1 }

  predicate NoneBad(rows: seq<Part>) { forall p :: p in rows ==> !p.bad }

  predicate MessageInv(m: Message, rows: seq<Part>) {
    && (m.state.Receiving? ==> m.meta.Some? && m.meta.value.binary == m.mms)
    && (m.state.Receiving? || m.state.Received? ==> InRange(rows, Total(m)))
    && (m.state.Receiving? ==> |rows| < Total(m))
    && (m.state.Received? ==> !m.mms && |rows| == Total(m))
    && ((m.state.Receiving? && !m.mms) || m.state.Received? ==> NoneBad(rows) && m.body == Join(BySequence(rows)))
  }

  ghost predicate PartKeys(parts: seq<Part>) {
    && (forall i, j :: 0 <= i < j < |parts| ==> parts[i].fp != parts[j].fp)
    && (forall i, j :: 0 <= i < j < |parts| && parts[i].message == parts[j].message ==>
        parts[i].sequence != parts[j].sequence)
  }

  ghost predicate Keys(b: Box) {
    && (forall i, j :: 0 <= i < j < |b.messages| ==> b.messages[i].id != b.messages[j].id)
    && PartKeys(b.parts)
  }

  ghost predicate References(b: Box) {
    && (forall i :: 0 <= i < |b.messages| ==> Stored(b.parts, b.messages[i].id))
    && (forall i :: 0 <= i < |b.parts| ==> Find(b.messages, b.parts[i].message).Some?)
  }

  ghost predicate Inv(b: Box) {
    && Keys(b) && References(b)
    && (forall i :: 0 <= i < |b.messages| ==> MessageInv(b.messages[i], RowsOf(b.parts, b.messages[i].id)))
  }

  lemma {:induction false} FindAt(ms: seq<Message>, i: nat)
    requires i < |ms| && forall j, k :: 0 <= j < k < |ms| ==> ms[j].id != ms[k].id
    ensures Find(ms, ms[i].id) == Some(i)
  {
  }

  /** The unique key on message and sequence never refuses a part. */
  lemma {:induction false} NeverRefused(b: Box, v: Delivery, now: int)
    requires References(b) && Valid(v) && !Ignored(b, v)
    ensures !Occupied(b.parts, Target(b, v, FindOpen(b.messages, v, now)), SequenceOf(v))
    ensures Find(b.messages, v.fp).None?
  {
    hide Find, FindOpen;
    forall j | 0 <= j < |b.messages| ensures b.messages[j].id != v.fp {
      assert Stored(b.parts, b.messages[j].id);
    }
    forall i | 0 <= i < |b.parts| ensures b.parts[i].message != v.fp {
      assert Find(b.messages, b.parts[i].message).Some?;
    }
  }

  /** What one delivery does: one part more, one message new or joined, every other message as it was. */
  ghost predicate Takes(b: Box, c: Box, v: Delivery, now: int, binary: bool, i: nat, push: Decoder) {
    && i < |c.messages| && c.forgotten == b.forgotten
    && var id := c.messages[i].id;
    && c.parts == b.parts + [Part(v.fp, id, SequenceOf(v), v.text, v.bad)]
    && !Occupied(b.parts, id, SequenceOf(v))
    && RowsOf(c.parts, id) == RowsOf(b.parts, id) + [Part(v.fp, id, SequenceOf(v), v.text, v.bad)]
    && if i < |b.messages| then
         && OpenFor(b.messages[i], v, now)
         && (forall j :: i < j < |b.messages| ==> !OpenFor(b.messages[j], v, now))
         && (binary <==> v.binary || b.messages[i].meta.value.binary)
         && c.messages == b.messages[i := Joined(b.messages[i], v, binary, RowsOf(c.parts, id), push)]
       else
         && i == |b.messages| && id == v.fp && RowsOf(b.parts, id) == []
         && c.messages == b.messages + [Joined(Fresh(v, id, now, binary), v, binary, RowsOf(c.parts, id), push)]
  }

  lemma {:induction false} StoreTakes(b: Box, v: Delivery, now: int, push: Decoder) returns (i: nat, binary: bool)
    requires Inv(b) && Valid(v) && !Ignored(b, v)
    ensures Takes(b, Store(b, v, now, push), v, now, binary, i, push)
    ensures Find(b.messages, v.fp).None?
    ensures FindOpen(b.messages, v, now).None? ==> i == |b.messages| && binary == v.binary
    ensures var at := FindOpen(b.messages, v, now);
            at.Some? ==>
                i
                == (if Occupied(b.parts, b.messages[at.value].id, SequenceOf(v)) then |b.messages| else at.value)
                         && (binary <==> v.binary || b.messages[at.value].meta.value.binary)
  {
    hide Joined, BySequence, InsertRow, Join, Keys, References, RowsOf, Find, FindOpen, Occupied, Stored;
    NeverRefused(b, v, now);
    var at := FindOpen(b.messages, v, now);
    var id := Target(b, v, at);
    binary := BinaryFor(b, v, at);
    var p := Part(v.fp, id, SequenceOf(v), v.text, v.bad);
    RowsMore(b.parts, p);
    if id == v.fp {
      i := |b.messages|;
      NoRowsYet(b, v.fp);
    } else {
      i := at.value;
      FoundAgain(b, i);
    }
  }

  lemma {:induction false} RowsMore(parts: seq<Part>, p: Part)
    ensures RowsOf(parts + [p], p.message) == RowsOf(parts, p.message) + [p]
  {
    assert (parts + [p])[..|parts|] == parts;
  }

  lemma {:induction false} FoundAgain(b: Box, i: nat)
    requires Keys(b) && i < |b.messages|
    ensures Find(b.messages, b.messages[i].id) == Some(i)
  {
    FindAt(b.messages, i);
  }

  lemma {:induction false} NoRowsMatch(parts: seq<Part>, id: Fingerprint)
    requires forall k :: 0 <= k < |parts| ==> parts[k].message != id
    ensures RowsOf(parts, id) == []
  {
    if parts != [] { NoRowsMatch(parts[..|parts| - 1], id); }
  }

  lemma {:induction false} NoRowsYet(b: Box, id: Fingerprint)
    requires References(b) && Find(b.messages, id).None?
    ensures RowsOf(b.parts, id) == []
  {
    forall k | 0 <= k < |b.parts| ensures b.parts[k].message != id {
      assert Find(b.messages, b.parts[k].message).Some?;
    }
    NoRowsMatch(b.parts, id);
  }

  lemma {:induction false} RowsFrame(parts: seq<Part>, p: Part, id: Fingerprint)
    requires p.message != id
    ensures RowsOf(parts + [p], id) == RowsOf(parts, id)
  {
    assert (parts + [p])[..|parts|] == parts;
  }

  /** The joined message satisfies what is required of it. */
  lemma {:induction false} JoinedInv(m: Message, v: Delivery, binary: bool, before: seq<Part>, p: Part, push: Decoder)
    requires Valid(v) && p.sequence == SequenceOf(v) && p.bad == v.bad
    requires before != [] ==> MessageInv(m, before) && m.state.Receiving? && v.concat.Some? && Total(m) == TotalOf(v)
    requires before != [] && m.mms ==> binary
    ensures MessageInv(Joined(m, v, binary, before + [p], push), before + [p])
  {
    hide BySequence, Join;
    var rows := before + [p];
    assert InRange(rows, TotalOf(v)) by {
      forall q | q in rows ensures 1 <= q.sequence <= TotalOf(v) { assert q in before || q == p; }
    }
    if !binary && !v.bad {
      assert NoneBad(rows) by {
        forall q | q in rows ensures !q.bad { assert q in before || q == p; }
      }
    }
  }

  lemma {:induction false} StoreKeepsMessages(b: Box, v: Delivery, now: int, push: Decoder)
    requires Inv(b) && Valid(v) && !Ignored(b, v)
    ensures var c := Store(b, v, now, push);
            forall i :: 0 <= i < |c.messages| ==> MessageInv(c.messages[i], RowsOf(c.parts, c.messages[i].id))
  {
    var c := Store(b, v, now, push);
    var i, binary := StoreTakes(b, v, now, push);
    var id := c.messages[i].id;
    var p := Part(v.fp, id, SequenceOf(v), v.text, v.bad);
    forall j | 0 <= j < |c.messages|
      ensures MessageInv(c.messages[j], RowsOf(c.parts, c.messages[j].id))
    {
      if j == i {
        var m := if i < |b.messages| then b.messages[i] else Fresh(v, id, now, binary);
        JoinedInv(m, v, binary, RowsOf(b.parts, id), p, push);
      } else {
        assert c.messages[j] == b.messages[j] && c.messages[j].id != id;
        RowsFrame(b.parts, p, c.messages[j].id);
      }
    }
  }

  /** The part of Takes that the keys depend on. */
  lemma {:induction false} TakenRows(b: Box, c: Box, v: Delivery, now: int, binary: bool, i: nat, push: Decoder)
                                     returns (p: Part)
    requires Takes(b, c, v, now, binary, i, push)
    ensures p.fp == v.fp && c.parts == b.parts + [p] && !Occupied(b.parts, p.message, p.sequence)
    ensures |b.messages| <= |c.messages| && i < |c.messages| && c.messages[i].id == p.message
    ensures forall j :: 0 <= j < |b.messages| ==> c.messages[j].id == b.messages[j].id
    ensures |c.messages| == |b.messages|
            || (|c.messages| == |b.messages| + 1 && c.messages[|b.messages|].id == v.fp)
  {
    hide Joined, RowsOf, Occupied;
    p := Part(v.fp, c.messages[i].id, SequenceOf(v), v.text, v.bad);
  }

  lemma {:induction false} AddPart(parts: seq<Part>, p: Part)
    requires PartKeys(parts) && !Stored(parts, p.fp) && !Occupied(parts, p.message, p.sequence)
    ensures PartKeys(parts + [p])
  {
  }

  lemma {:induction false} TakesKeepsKeys(b: Box, c: Box, v: Delivery, now: int, binary: bool, i: nat, push: Decoder)
    requires Keys(b) && Takes(b, c, v, now, binary, i, push) && !Stored(b.parts, v.fp) && Find(b.messages, v.fp).None?
    ensures Keys(c)
  {
    hide Takes, PartKeys, Find, Occupied, Stored;
    var p := TakenRows(b, c, v, now, binary, i, push);
    AddPart(b.parts, p);
    forall j, k | 0 <= j < k < |c.messages| ensures c.messages[j].id != c.messages[k].id {
      if k < |b.messages| { assert b.messages[j].id != b.messages[k].id; }
    }
  }

  lemma {:induction false} TakesKeepsReferences(b: Box, c: Box, v: Delivery, now: int, binary: bool, i: nat,
                                                push: Decoder)
    requires References(b) && Takes(b, c, v, now, binary, i, push)
    ensures References(c)
  {
    hide Takes, Find, Occupied;
    var p := TakenRows(b, c, v, now, binary, i, push);
    forall j | 0 <= j < |c.messages| ensures Stored(c.parts, c.messages[j].id) {
      if j < |b.messages| {
        assert Stored(b.parts, b.messages[j].id);
        var k :| 0 <= k < |b.parts| && b.parts[k].fp == b.messages[j].id;
        assert c.parts[k].fp == c.messages[j].id;
      } else {
        assert c.parts[|b.parts|].fp == v.fp;
      }
    }
    forall k | 0 <= k < |c.parts| ensures Find(c.messages, c.parts[k].message).Some? {
      if k < |b.parts| {
        var at := Find(b.messages, b.parts[k].message);
        assert c.messages[at.value].id == c.parts[k].message;
      } else {
        assert c.messages[i].id == c.parts[k].message;
      }
    }
  }

  lemma {:induction false} StoreInv(b: Box, v: Delivery, now: int, push: Decoder)
    requires Inv(b)
    ensures Inv(Store(b, v, now, push))
  {
    if Valid(v) && !Ignored(b, v) {
      hide Store, Takes, Keys, References, Stored, Find;
      StoreKeepsMessages(b, v, now, push);
      var i, binary := StoreTakes(b, v, now, push);
      TakesKeepsKeys(b, Store(b, v, now, push), v, now, binary, i, push);
      TakesKeepsReferences(b, Store(b, v, now, push), v, now, binary, i, push);
    }
  }

  /** Exactly the parts 1 to n are there, none damaged, and the body is their texts in that order. */
  ghost predicate Whole(parts: seq<Part>, id: Fingerprint, n: int, body: string) {
    && |RowsOf(parts, id)| == n
    && exists texts: seq<string> ::
         |texts| == n && body == Flatten(texts)
         && forall k :: 0 <= k < n ==>
              exists p :: p in RowsOf(parts, id) && p.sequence == k + 1 && p.body == texts[k] && !p.bad
  }

  lemma {:induction false} RowsDistinct(parts: seq<Part>, id: Fingerprint)
    requires PartKeys(parts)
    ensures DistinctSequences(RowsOf(parts, id))
  {
    if parts != [] {
      RowsDistinct(parts[..|parts| - 1], id);
    }
  }

  /** Sorted, the rows of a complete set are the parts 1 to n. */
  lemma {:induction false} SortedComplete(rows: seq<Part>, n: nat)
    requires |rows| == n && DistinctSequences(rows) && InRange(rows, n)
    ensures |BySequence(rows)| == n
    ensures forall k :: 0 <= k < n ==> BySequence(rows)[k].sequence == k + 1 && BySequence(rows)[k] in rows
  {
    hide BySequence, Join;
    var sorted := BySequence(rows);
    BySequenceSorts(rows);
    CountDistinct(rows, sorted);
    assert |multiset(sorted)| == |multiset(rows)|;
    forall p | p in sorted ensures p in rows { assert p in multiset(sorted); }
    Pigeonhole(sorted, n);
    forall k | 0 <= k < n ensures sorted[k].sequence == k + 1 && sorted[k] in rows { assert sorted[k] in sorted; }
  }

  /** A received message is whole: the pieces are all there, once each, and the text is in order. */
  lemma {:induction false} ReceivedIsWhole(b: Box, i: nat)
    requires Inv(b) && i < |b.messages| && b.messages[i].state.Received?
    ensures Whole(b.parts, b.messages[i].id, Total(b.messages[i]), b.messages[i].body)
  {
    var m := b.messages[i];
    RowsDistinct(b.parts, m.id);
    WholeBody(b.parts, m);
  }

  lemma {:induction false} WholeBody(parts: seq<Part>, m: Message)
    requires m.state.Received? && MessageInv(m, RowsOf(parts, m.id)) && DistinctSequences(RowsOf(parts, m.id))
    ensures Whole(parts, m.id, Total(m), m.body)
  {
    hide BySequence, Join, Flatten, RowsOf, DistinctSequences;
    var rows := RowsOf(parts, m.id);
    SortedComplete(rows, Total(m));
    var sorted := BySequence(rows);
    JoinIsFlatten(sorted);
    var texts := Bodies(sorted);
    forall k | 0 <= k < Total(m)
      ensures exists p :: p in rows && p.sequence == k + 1 && p.body == texts[k] && !p.bad
    {
      assert sorted[k] in rows;
    }
  }

  /** Deliveries change only open messages: what was received or refused stays as it is. */
  lemma {:induction false} ClosedStays(b: Box, v: Delivery, now: int, push: Decoder, i: nat)
    requires Inv(b) && i < |b.messages| && !b.messages[i].state.Receiving?
    ensures i < |Store(b, v, now, push).messages| && Store(b, v, now, push).messages[i] == b.messages[i]
    ensures RowsOf(Store(b, v, now, push).parts, b.messages[i].id) == RowsOf(b.parts, b.messages[i].id)
  {
    if Valid(v) && !Ignored(b, v) {
      var k, binary := StoreTakes(b, v, now, push);
      var c := Store(b, v, now, push);
      hide Store, BySequence, Join, RowsOf, Find, Keys, References;
      assert k != i;
      DistinctFrom(b, c, v, now, binary, k, push, i);
      RowsFrame(b.parts, Part(v.fp, c.messages[k].id, SequenceOf(v), v.text, v.bad), b.messages[i].id);
    }
  }

  // ---------- Repeats ----------

  /** Deliveries, and cleanups that remove messages and keep only the fingerprints of their parts. */
  datatype Event = Comes(v: Delivery, now: int) | Purged(ids: set<Fingerprint>)

  function Purge(b: Box, ids: set<Fingerprint>): Box {
    Box(Kept(b.messages, (m: Message) => m.id in ids), Kept(b.parts, (p: Part) => p.message in ids),
        b.forgotten + set i | 0 <= i < |b.parts| && b.parts[i].message in ids :: b.parts[i].fp)
  }

  function Later(b: Box, events: seq<Event>, push: Decoder): Box {
    if events == [] then b
    else
      var c := Later(b, events[..|events| - 1], push);
      match events[|events| - 1]
      case Comes(v, now) => Store(c, v, now, push)
      case Purged(ids) => Purge(c, ids)
  }

  lemma {:induction false} StoreKnows(b: Box, v: Delivery, now: int, push: Decoder, u: Delivery)
    requires Ignored(b, u)
    ensures Ignored(Store(b, v, now, push), u)
  {
    if u.fp !in b.forgotten {
      var i :| 0 <= i < |b.parts| && b.parts[i].fp == u.fp;
      assert Store(b, v, now, push).parts[i] == b.parts[i];
    }
  }

  lemma {:induction false} PurgeKnows(b: Box, ids: set<Fingerprint>, u: Delivery)
    requires Ignored(b, u)
    ensures Ignored(Purge(b, ids), u)
  {
    if u.fp !in b.forgotten {
      var i :| 0 <= i < |b.parts| && b.parts[i].fp == u.fp;
      if b.parts[i].message !in ids {
        var gone := (p: Part) => p.message in ids;
        KeptIs(b.parts, gone);
        assert b.parts[i] in b.parts && !gone(b.parts[i]);
        assert b.parts[i] in Purge(b, ids).parts;
      }
    }
  }

  lemma {:induction false} LaterKnows(b: Box, events: seq<Event>, push: Decoder, u: Delivery)
    requires Ignored(b, u)
    ensures Ignored(Later(b, events, push), u)
  {
    if events != [] {
      var init := events[..|events| - 1];
      LaterKnows(b, init, push, u);
      match events[|events| - 1]
      case Comes(v, now) => StoreKnows(Later(b, init, push), v, now, push, u);
      case Purged(ids) => PurgeKnows(Later(b, init, push), ids, u);
    }
  }

  /** A fragment that arrives again changes nothing, whatever was delivered or purged in between. */
  lemma {:induction false} RepeatChangesNothing(b: Box, v: Delivery, now: int, push: Decoder, events: seq<Event>,
                                                later: int)
    requires Inv(b) && Valid(v)
    ensures var c := Later(Store(b, v, now, push), events, push); Store(c, v, later, push) == c
  {
    if !Ignored(b, v) {
      var i, binary := StoreTakes(b, v, now, push);
      var parts := Store(b, v, now, push).parts;
      assert parts[|b.parts|].fp == v.fp;
    }
    LaterKnows(Store(b, v, now, push), events, push, v);
  }

  // ---------- Any order, with repeats and other traffic in between ----------

  datatype Arrival = Arrival(v: Delivery, now: int)

  function StoreAll(b: Box, arrivals: seq<Arrival>, push: Decoder): Box {
    if arrivals == [] then b
    else
      var last := arrivals[|arrivals| - 1];
      Store(StoreAll(b, arrivals[..|arrivals| - 1], push), last.v, last.now, push)
  }

  /** The undamaged text fragments of one message. */
  predicate Pieces(ps: seq<Delivery>) {
    && 1 <= |ps|
    && (forall k :: 0 <= k < |ps| ==> Valid(ps[k]) && !ps[k].binary && !ps[k].bad)
    && (forall k :: 0 <= k < |ps| ==>
          ps[k].from == ps[0].from && ps[k].encoding == ps[0].encoding && ps[k].concat.Some? && ps[0].concat.Some?
          && ps[k].concat.value == Concat(ps[0].concat.value.reference, |ps|, k + 1))
    && (forall j, k :: 0 <= j < k < |ps| ==> ps[j].fp != ps[k].fp)
  }

  predicate SameKey(u: Delivery, v: Delivery) {
    && u.from == v.from && u.encoding == v.encoding && u.concat.Some? && v.concat.Some?
    && u.concat.value.reference == v.concat.value.reference && u.concat.value.total == v.concat.value.total
  }

  /** Traffic that is not about this message. */
  predicate Elsewhere(u: Delivery, ps: seq<Delivery>)
    requires |ps| > 0
  {
    !SameKey(u, ps[0]) && forall k :: 0 <= k < |ps| ==> ps[k].fp != u.fp
  }

  /** Pieces arrive within the window, as often and in whatever order they like. */
  predicate Traffic(arrivals: seq<Arrival>, ps: seq<Delivery>, start: int)
    requires |ps| > 0
  {
    forall i :: 0 <= i < |arrivals| ==>
      (arrivals[i].v in ps && start <= arrivals[i].now < start + WINDOW) || Elsewhere(arrivals[i].v, ps)
  }

  function Texts(ps: seq<Delivery>): (texts: seq<string>)
    ensures |texts| == |ps| && forall k :: 0 <= k < |ps| ==> texts[k] == ps[k].text
  {
    seq(|ps|, k requires 0 <= k < |ps| => ps[k].text)
  }

  function Row(ps: seq<Delivery>, id: Fingerprint, k: nat): Part
    requires k < |ps|
  {
    Part(ps[k].fp, id, k + 1, ps[k].text, false)
  }

  /** Nothing of the message has arrived, and no other open message could take its pieces. */
  ghost predicate Untouched(b: Box, ps: seq<Delivery>, start: int)
    requires |ps| > 0
  {
    && (forall k :: 0 <= k < |ps| ==> !Ignored(b, ps[k]))
    && (forall j :: 0 <= j < |b.messages| ==> !OpenFor(b.messages[j], ps[0], start))
  }

  predicate AllOf(rows: seq<Part>, ps: seq<Delivery>, id: Fingerprint, seen: set<nat>) {
    && |rows| == |seen|
    && forall p :: p in rows ==> exists k :: k in seen && k < |ps| && p == Row(ps, id, k)
  }

  /** The pieces in `seen` have arrived and are collected in message number i. */
  ghost predicate Collecting(b: Box, ps: seq<Delivery>, start: int, seen: set<nat>, i: nat)
    requires |ps| > 0
  {
    && i < |b.messages| && (forall k :: k in seen ==> k < |ps|)
    && var m := b.messages[i];
    && m.peer == ps[0].from && m.meta == MetaOf(ps[0], false) && start <= m.created && !m.mms
    && m.state == (if |seen| == |ps| then Received else Receiving)
    && (forall j :: 0 <= j < |b.messages| && j != i ==> !OpenFor(b.messages[j], ps[0], start))
    && AllOf(RowsOf(b.parts, m.id), ps, m.id, seen)
    && (forall k :: 0 <= k < |ps| ==> ps[k].fp !in b.forgotten && (Stored(b.parts, ps[k].fp) <==> k in seen))
  }

  ghost predicate Progress(b: Box, ps: seq<Delivery>, start: int, seen: set<nat>)
    requires |ps| > 0
  {
    Inv(b) && if seen == {} then Untouched(b, ps, start) else exists i :: Collecting(b, ps, start, seen, i)
  }

  lemma {:induction false} OpenLater(m: Message, ps: seq<Delivery>, k: nat, start: int, now: int)
    requires Pieces(ps) && k < |ps| && start <= now && OpenFor(m, ps[k], now)
    ensures OpenFor(m, ps[0], start)
  {
  }

  lemma {:induction false} StoredAfter(parts: seq<Part>, p: Part, fp: Fingerprint)
    ensures Stored(parts + [p], fp) <==> Stored(parts, fp) || p.fp == fp
  {
    if Stored(parts, fp) {
      var i :| 0 <= i < |parts| && parts[i].fp == fp;
      assert (parts + [p])[i].fp == fp;
    }
    if p.fp == fp { assert (parts + [p])[|parts|].fp == fp; }
  }

  lemma {:induction false} FirstPiece(b: Box, ps: seq<Delivery>, start: int, k: nat, now: int, push: Decoder)
    requires Pieces(ps) && Inv(b) && Untouched(b, ps, start) && k < |ps| && start <= now < start + WINDOW
    ensures exists i :: Collecting(Store(b, ps[k], now, push), ps, start, {k}, i)
  {
    hide Store, BySequence, Join, Inv, RowsOf;
    var v := ps[k];
    var c := Store(b, v, now, push);
    forall j | 0 <= j < |b.messages| ensures !OpenFor(b.messages[j], v, now) {
      if OpenFor(b.messages[j], v, now) { OpenLater(b.messages[j], ps, k, start, now); }
    }
    var i, binary := StoreTakes(b, v, now, push);
    var p := Part(v.fp, v.fp, SequenceOf(v), v.text, v.bad);
    assert RowsOf(c.parts, v.fp) == [p] && p == Row(ps, v.fp, k);
    forall h | 0 <= h < |ps| ensures Stored(c.parts, ps[h].fp) <==> h == k {
      StoredAfter(b.parts, p, ps[h].fp);
    }
    assert Collecting(c, ps, start, {k}, i);
  }

  lemma {:induction false} FewerThan(seen: set<nat>, n: nat, k: nat)
    requires k < n && k !in seen && forall j :: j in seen ==> j < n
    ensures |seen| < n
  {
    if n > 1 && n - 1 in seen {
      FewerThan(seen - {n - 1}, n - 1, k);
    } else if n > 1 && k < n - 1 {
      FewerThan(seen, n - 1, k);
    } else if n > 1 {
      if seen != {} {
        var j :| j in seen;
        FewerThan(seen - {j}, n, k);
        Below(seen, n - 1);
      }
    } else {
      assert seen == {};
    }
  }

  lemma {:induction false} Below(seen: set<nat>, n: nat)
    requires forall j :: j in seen ==> j < n
    ensures |seen| <= n
  {
    if n == 0 { assert seen == {}; } else { Below(seen - {n - 1}, n - 1); }
  }

  /** The next piece finds its message open and its place free. */
  lemma {:induction false} NextTarget(b: Box, ps: seq<Delivery>, start: int, seen: set<nat>, i: nat, k: nat, now: int)
    requires Pieces(ps) && Collecting(b, ps, start, seen, i)
    requires k < |ps| && k !in seen && start <= now < start + WINDOW
    ensures Valid(ps[k]) && !Ignored(b, ps[k]) && FindOpen(b.messages, ps[k], now) == Some(i)
    ensures !Occupied(b.parts, b.messages[i].id, k + 1)
  {
    hide RowsOf;
    var v, m := ps[k], b.messages[i];
    FewerThan(seen, |ps|, k);
    assert OpenFor(m, v, now);
    forall j | 0 <= j < |b.messages| && j != i ensures !OpenFor(b.messages[j], v, now) {
      if OpenFor(b.messages[j], v, now) { OpenLater(b.messages[j], ps, k, start, now); }
    }
    var rows := RowsOf(b.parts, m.id);
    forall q | 0 <= q < |b.parts| ensures !(b.parts[q].message == m.id && b.parts[q].sequence == k + 1) {
      if b.parts[q].message == m.id { assert b.parts[q] in rows; }
    }
  }

  lemma {:induction false} NextPiece(b: Box, ps: seq<Delivery>, start: int, seen: set<nat>, i: nat, k: nat, now: int,
                                     push: Decoder)
    requires Pieces(ps) && Inv(b) && Collecting(b, ps, start, seen, i)
    requires k < |ps| && k !in seen && start <= now < start + WINDOW
    ensures Collecting(Store(b, ps[k], now, push), ps, start, seen + {k}, i)
  {
    hide Store, BySequence, Join, Inv, RowsOf, FindOpen, Occupied;
    var v, m := ps[k], b.messages[i];
    var c := Store(b, v, now, push);
    NextTarget(b, ps, start, seen, i, k, now);
    var h, binary := StoreTakes(b, v, now, push);
    assert h == i && !binary;
    CollectMore(b, c, ps, start, seen, i, k, now, push);
  }

  lemma {:induction false} CollectMore(b: Box, c: Box, ps: seq<Delivery>, start: int, seen: set<nat>, i: nat, k: nat,
                                       now: int, push: Decoder)
    requires Pieces(ps) && Collecting(b, ps, start, seen, i) && k < |ps| && k !in seen
    requires Takes(b, c, ps[k], now, false, i, push)
    ensures Collecting(c, ps, start, seen + {k}, i)
  {
    hide BySequence, Join, RowsOf, Occupied, AllOf, Stored;
    var v, m := ps[k], b.messages[i];
    var rows := RowsOf(b.parts, m.id);
    var p := Row(ps, m.id, k);
    AllOfMore(rows, ps, m.id, seen, k);
    AllOfSize(rows, ps, m.id, seen);
    assert c.messages[i] == Joined(m, v, false, rows + [p], push);
    forall h | 0 <= h < |ps| ensures Stored(c.parts, ps[h].fp) <==> h in seen + {k} {
      StoredAfter(b.parts, p, ps[h].fp);
    }
  }

  lemma {:induction false} AllOfSize(rows: seq<Part>, ps: seq<Delivery>, id: Fingerprint, seen: set<nat>)
    requires AllOf(rows, ps, id, seen)
    ensures |rows| == |seen|
  {
  }

  lemma {:induction false} AllOfMore(rows: seq<Part>, ps: seq<Delivery>, id: Fingerprint, seen: set<nat>, k: nat)
    requires AllOf(rows, ps, id, seen) && k < |ps| && k !in seen
    ensures AllOf(rows + [Row(ps, id, k)], ps, id, seen + {k})
  {
    forall p | p in rows + [Row(ps, id, k)] ensures exists h :: h in seen + {k} && h < |ps| && p == Row(ps, id, h) {
      if p in rows {
        var h :| h in seen && h < |ps| && p == Row(ps, id, h);
        assert h in seen + {k};
      } else {
        assert k in seen + {k};
      }
    }
  }

  /** Traffic about other messages opens and joins other messages only. */
  lemma {:induction false} OtherMessages(b: Box, u: Delivery, now: int, push: Decoder, ps: seq<Delivery>, start: int)
    requires Pieces(ps) && Inv(b) && Valid(u) && !Ignored(b, u) && Elsewhere(u, ps)
    ensures var c := Store(b, u, now, push);
            |b.messages| <= |c.messages|
            && (forall j :: 0 <= j < |c.messages| && (j >= |b.messages| || c.messages[j] != b.messages[j]) ==>
                  !OpenFor(c.messages[j], ps[0], start))
            && (forall j :: 0 <= j < |b.messages| && SameKeyMessage(b.messages[j], ps[0]) ==>
                  c.messages[j] == b.messages[j]
                      && RowsOf(c.parts, b.messages[j].id) == RowsOf(b.parts, b.messages[j].id))
  {
    hide Store, BySequence, Join, RowsOf, Inv;
    var c := Store(b, u, now, push);
    var i, binary := StoreTakes(b, u, now, push);
    var p := Part(u.fp, c.messages[i].id, SequenceOf(u), u.text, u.bad);
    forall j | 0 <= j < |b.messages| && SameKeyMessage(b.messages[j], ps[0])
      ensures c.messages[j] == b.messages[j] && RowsOf(c.parts, b.messages[j].id) == RowsOf(b.parts, b.messages[j].id)
    {
      DistinctFrom(b, c, u, now, binary, i, push, j);
      RowsFrame(b.parts, p, b.messages[j].id);
    }
  }

  predicate SameKeyMessage(m: Message, v: Delivery) {
    m.peer == v.from && m.meta == MetaOf(v, false) && v.concat.Some?
  }

  lemma {:induction false} DistinctFrom(b: Box, c: Box, u: Delivery, now: int, binary: bool, i: nat, push: Decoder,
                                        j: nat)
    requires Inv(b) && Takes(b, c, u, now, binary, i, push) && j < |b.messages| && j != i
             && Find(b.messages, u.fp).None?
    ensures c.messages[j] == b.messages[j] && c.messages[i].id != b.messages[j].id
  {
    hide BySequence, Join, RowsOf, Find;
  }

  lemma {:induction false} OtherTraffic(b: Box, ps: seq<Delivery>, start: int, seen: set<nat>, u: Delivery, now: int,
                                        push: Decoder)
    requires Pieces(ps) && Progress(b, ps, start, seen) && Elsewhere(u, ps)
    ensures Progress(Store(b, u, now, push), ps, start, seen)
  {
    hide Store, BySequence, Join, RowsOf, Inv;
    var c := Store(b, u, now, push);
    StoreInv(b, u, now, push);
    if Valid(u) && !Ignored(b, u) {
      OtherMessages(b, u, now, push, ps, start);
      var h, binary := StoreTakes(b, u, now, push);
      var p := Part(u.fp, c.messages[h].id, SequenceOf(u), u.text, u.bad);
      forall k | 0 <= k < |ps| ensures Stored(c.parts, ps[k].fp) <==> Stored(b.parts, ps[k].fp) {
        StoredAfter(b.parts, p, ps[k].fp);
      }
      if seen != {} {
        var i :| Collecting(b, ps, start, seen, i);
        assert Collecting(c, ps, start, seen, i);
      }
    } else {
      IgnoredUnchanged(b, u, now, push);
    }
  }

  lemma {:induction false} IgnoredUnchanged(b: Box, u: Delivery, now: int, push: Decoder)
    requires !Valid(u) || Ignored(b, u)
    ensures Store(b, u, now, push) == b
  {
  }

  lemma {:induction false} OnePiece(b: Box, ps: seq<Delivery>, start: int, seen: set<nat>, k: nat, now: int,
                                    push: Decoder)
    requires Pieces(ps) && Progress(b, ps, start, seen) && k < |ps| && start <= now < start + WINDOW
    ensures Progress(Store(b, ps[k], now, push), ps, start, seen + {k})
  {
    hide Store, Inv, Collecting, Untouched;
    StoreInv(b, ps[k], now, push);
    if seen == {} {
      FirstPiece(b, ps, start, k, now, push);
      assert seen + {k} == {k};
    } else {
      var i :| Collecting(b, ps, start, seen, i);
      if k in seen {
        SeenIsIgnored(b, ps, start, seen, i, k);
        IgnoredUnchanged(b, ps[k], now, push);
        assert seen + {k} == seen;
      } else {
        NextPiece(b, ps, start, seen, i, k, now, push);
      }
    }
  }

  lemma {:induction false} SeenIsIgnored(b: Box, ps: seq<Delivery>, start: int, seen: set<nat>, i: nat, k: nat)
    requires |ps| > 0 && Collecting(b, ps, start, seen, i) && k in seen
    ensures Ignored(b, ps[k])
  {
  }

  /** The pieces that have arrived. */
  function Arrived(arrivals: seq<Arrival>, ps: seq<Delivery>): set<nat> {
    set k: nat | k < |ps| && exists i :: 0 <= i < |arrivals| && arrivals[i].v == ps[k]
  }

  lemma {:induction false} ArrivedMore(arrivals: seq<Arrival>, ps: seq<Delivery>, k: nat)
    requires Pieces(ps) && arrivals != [] && k < |ps| && arrivals[|arrivals| - 1].v == ps[k]
    ensures Arrived(arrivals, ps) == Arrived(arrivals[..|arrivals| - 1], ps) + {k}
  {
    var init, n := arrivals[..|arrivals| - 1], |arrivals|;
    forall h: nat | h < |ps| ensures h in Arrived(arrivals, ps) <==> h in Arrived(init, ps) + {k} {
      if h in Arrived(arrivals, ps) && h != k {
        var i :| 0 <= i < n && arrivals[i].v == ps[h];
        assert i < n - 1 && init[i].v == ps[h];
      }
      if h in Arrived(init, ps) {
        var i :| 0 <= i < n - 1 && init[i].v == ps[h];
        assert arrivals[i].v == ps[h];
      }
    }
  }

  lemma {:induction false} ArrivedSame(arrivals: seq<Arrival>, ps: seq<Delivery>)
    requires Pieces(ps) && arrivals != [] && Elsewhere(arrivals[|arrivals| - 1].v, ps)
    ensures Arrived(arrivals, ps) == Arrived(arrivals[..|arrivals| - 1], ps)
  {
    var init, n := arrivals[..|arrivals| - 1], |arrivals|;
    forall h: nat | h < |ps| ensures h in Arrived(arrivals, ps) <==> h in Arrived(init, ps) {
      if h in Arrived(arrivals, ps) {
        var i :| 0 <= i < n && arrivals[i].v == ps[h];
        assert i < n - 1 && init[i].v == ps[h];
      }
      if h in Arrived(init, ps) {
        var i :| 0 <= i < n - 1 && init[i].v == ps[h];
        assert arrivals[i].v == ps[h];
      }
    }
  }

  lemma {:induction false} ArrivalsProgress(b: Box, arrivals: seq<Arrival>, ps: seq<Delivery>, start: int,
                                            push: Decoder)
    requires Pieces(ps) && Inv(b) && Untouched(b, ps, start) && Traffic(arrivals, ps, start)
    ensures Progress(StoreAll(b, arrivals, push), ps, start, Arrived(arrivals, ps))
  {
    hide Store, Inv, Collecting, Untouched, Pieces, Arrived, Elsewhere;
    if arrivals == [] {
      assert Arrived(arrivals, ps) == {} by { NoneArrived(ps); }
    } else {
      var init, last := arrivals[..|arrivals| - 1], arrivals[|arrivals| - 1];
      ArrivalsProgress(b, init, ps, start, push);
      var c := StoreAll(b, init, push);
      if last.v in ps && start <= last.now < start + WINDOW {
        var k :| 0 <= k < |ps| && ps[k] == last.v;
        OnePiece(c, ps, start, Arrived(init, ps), k, last.now, push);
        ArrivedMore(arrivals, ps, k);
      } else {
        OtherTraffic(c, ps, start, Arrived(init, ps), last.v, last.now, push);
        ArrivedSame(arrivals, ps);
      }
    }
  }

  lemma {:induction false} NoneArrived(ps: seq<Delivery>)
    ensures Arrived([], ps) == {}
  {
  }

  lemma {:induction false} AllNumbers(seen: set<nat>, n: nat)
    requires forall k :: k in seen ==> k < n
    requires forall k :: k in Numbers(n) ==> k in seen
    ensures seen == Numbers(n)
  {
    forall k | k in seen ensures k in Numbers(n) { InNumbers(k, n); }
  }

  /** All pieces collected make the text in order. */
  lemma {:induction false} CollectedText(rows: seq<Part>, ps: seq<Delivery>, id: Fingerprint, seen: set<nat>)
    requires AllOf(rows, ps, id, seen) && |rows| == |ps| && DistinctSequences(rows)
    ensures Join(BySequence(rows)) == Flatten(Texts(ps))
  {
    hide BySequence, Join, Flatten;
    var n := |ps|;
    forall p | p in rows ensures 1 <= p.sequence <= n {
      var k :| k in seen && k < |ps| && p == Row(ps, id, k);
    }
    SortedComplete(rows, n);
    var sorted := BySequence(rows);
    forall k | 0 <= k < n ensures sorted[k].body == ps[k].text {
      assert sorted[k] in rows;
      var h :| h in seen && h < |ps| && sorted[k] == Row(ps, id, h);
    }
    assert Bodies(sorted) == Texts(ps);
    JoinIsFlatten(sorted);
  }

  /**
   * Whatever the order, with repeats and any other traffic in between: once every piece has arrived within ten minutes
   * there is exactly one message made of them, received, with the whole text in order.
   */
  lemma {:induction false} AnyOrderAssembles(b: Box, arrivals: seq<Arrival>, ps: seq<Delivery>, start: int,
                                             push: Decoder)
    requires Pieces(ps) && Inv(b) && Untouched(b, ps, start) && Traffic(arrivals, ps, start)
    requires forall k :: 0 <= k < |ps| ==> exists i :: 0 <= i < |arrivals| && arrivals[i].v == ps[k]
    ensures exists i :: MadeOf(StoreAll(b, arrivals, push), ps, i)
    ensures forall i, j :: MadeOf(StoreAll(b, arrivals, push), ps, i) && MadeOf(StoreAll(b, arrivals, push), ps, j) ==>
            i == j
  {
    hide Store, StoreAll, Inv, Untouched, Traffic;
    ArrivalsProgress(b, arrivals, ps, start, push);
    var c, seen := StoreAll(b, arrivals, push), Arrived(arrivals, ps);
    forall k | k in Numbers(|ps|) ensures k in seen {
      var piece := ps[k];
      assert exists i :: 0 <= i < |arrivals| && arrivals[i].v == piece;
    }
    AllNumbers(seen, |ps|);
    InNumbers(0, |ps|);
    var i := Collected(c, ps, start, seen);
    CollectedIsMade(c, ps, start, i);
    forall i, j | MadeOf(c, ps, i) && MadeOf(c, ps, j) ensures i == j { MadeOnce(c, ps, i, j); }
  }

  lemma {:induction false} MadeOnce(c: Box, ps: seq<Delivery>, i: nat, j: nat)
    requires |ps| > 0 && Inv(c) && MadeOf(c, ps, i) && MadeOf(c, ps, j)
    ensures i == j
  {
    assert Keys(c) && PartKeys(c.parts) && i < |c.messages| && j < |c.messages|;
    HasFirst(c, ps, i);
    HasFirst(c, ps, j);
    hide Inv, MadeOf, Keys, PartKeys;
    SamePart(c.parts, Row(ps, c.messages[i].id, 0), Row(ps, c.messages[j].id, 0));
    SameMessage(c, i, j);
  }

  lemma {:induction false} SamePart(parts: seq<Part>, p: Part, q: Part)
    requires PartKeys(parts) && p in parts && q in parts && p.fp == q.fp
    ensures p == q
  {
  }

  lemma {:induction false} SameMessage(c: Box, i: nat, j: nat)
    requires Keys(c) && i < |c.messages| && j < |c.messages| && c.messages[i].id == c.messages[j].id
    ensures i == j
  {
    hide PartKeys;
  }

  lemma {:induction false} HasFirst(c: Box, ps: seq<Delivery>, i: nat)
    requires |ps| > 0 && Inv(c) && MadeOf(c, ps, i)
    ensures Row(ps, c.messages[i].id, 0) in c.parts
  {
    var id, n := c.messages[i].id, |ps|;
    var rows := RowsOf(c.parts, id);
    RowsDistinct(c.parts, id);
    hide Flatten, Texts, MessageInv, References, BySequence;
    forall p | p in rows ensures 1 <= p.sequence <= n {
      var k :| k in Numbers(n) && k < n && p == Row(ps, id, k);
    }
    SortedComplete(rows, n);
    var first := BySequence(rows)[0];
    assert first in rows && first.sequence == 1;
    var k :| k in Numbers(n) && k < n && first == Row(ps, id, k);
  }

  /** The message consists of exactly these pieces and carries their text. */
  ghost predicate MadeOf(c: Box, ps: seq<Delivery>, i: nat)
    requires |ps| > 0
  {
    && i < |c.messages| && c.messages[i].state.Received? && c.messages[i].peer == ps[0].from
    && c.messages[i].body == Flatten(Texts(ps))
    && AllOf(RowsOf(c.parts, c.messages[i].id), ps, c.messages[i].id, Numbers(|ps|))
  }

  lemma {:induction false} Collected(c: Box, ps: seq<Delivery>, start: int, seen: set<nat>) returns (i: nat)
    requires |ps| > 0 && Progress(c, ps, start, seen) && seen != {}
    ensures Inv(c) && Collecting(c, ps, start, seen, i)
  {
    hide Inv, Collecting, Untouched;
    i :| Collecting(c, ps, start, seen, i);
  }

  lemma {:induction false} CollectedIsMade(c: Box, ps: seq<Delivery>, start: int, i: nat)
    requires |ps| > 0 && Inv(c) && Collecting(c, ps, start, Numbers(|ps|), i)
    ensures MadeOf(c, ps, i)
  {
    hide BySequence, Join, Flatten, RowsOf, Numbers, References;
    var m := c.messages[i];
    var rows := RowsOf(c.parts, m.id);
    RowsDistinct(c.parts, m.id);
    assert MessageInv(m, rows);
    CollectedText(rows, ps, m.id, Numbers(|ps|));
  }

  // ---------- What a shared reference does ----------

  /**
   * A fragment is added to an existing message if and only if that is the newest open one of its key, less than ten
   * minutes old, and has the place free. Whose text it is plays no part.
   */
  lemma {:induction false} JoinsExactly(b: Box, v: Delivery, now: int, push: Decoder, i: nat)
    requires Inv(b) && Valid(v) && !Ignored(b, v) && i < |b.messages|
    ensures var c := Store(b, v, now, push);
            |c.parts| == |b.parts| + 1 && c.parts[|b.parts|].fp == v.fp
            && (c.parts[|b.parts|].message == b.messages[i].id <==>
                && OpenFor(b.messages[i], v, now)
                && (forall j :: i < j < |b.messages| ==> !OpenFor(b.messages[j], v, now))
                && !Occupied(b.parts, b.messages[i].id, SequenceOf(v)))
  {
    hide Inv, Store, Valid, Ignored, OpenFor, Occupied;
    var k := JoinedAt(b, v, now, push);
    FoundIs(b.messages, v, now, i);
  }

  lemma {:induction false} FoundIs(ms: seq<Message>, v: Delivery, now: int, i: nat)
    requires i < |ms|
    ensures FindOpen(ms, v, now) == Some(i) <==>
            OpenFor(ms[i], v, now) && forall j :: i < j < |ms| ==> !OpenFor(ms[j], v, now)
  {
    hide OpenFor;
  }

  lemma {:induction false} JoinedAt(b: Box, v: Delivery, now: int, push: Decoder) returns (k: nat)
    requires Inv(b) && Valid(v) && !Ignored(b, v)
    ensures var c, at := Store(b, v, now, push), FindOpen(b.messages, v, now);
            && |c.parts| == |b.parts| + 1 && c.parts[|b.parts|].fp == v.fp && k <= |b.messages|
            && c.parts[|b.parts|].message == (if k < |b.messages| then b.messages[k].id else v.fp)
            && k == (if at.Some? && !Occupied(b.parts, b.messages[at.value].id, SequenceOf(v)) then at.value
                     else |b.messages|)
    ensures forall j :: 0 <= j < |b.messages| ==> b.messages[j].id != v.fp
    ensures forall i, j :: 0 <= i < j < |b.messages| ==> b.messages[i].id != b.messages[j].id
  {
    var binary: bool;
    k, binary := StoreTakes(b, v, now, push);
    hide Store, BySequence, Join, RowsOf, Keys, References, Joined;
    TakesIds(b, Store(b, v, now, push), v, now, binary, k, push);
  }

  lemma {:induction false} TakesIds(b: Box, c: Box, v: Delivery, now: int, binary: bool, k: nat, push: Decoder)
    requires Takes(b, c, v, now, binary, k, push)
    ensures k <= |b.messages| && k < |c.messages|
    ensures c.parts == b.parts + [Part(v.fp, c.messages[k].id, SequenceOf(v), v.text, v.bad)]
    ensures c.messages[k].id == if k < |b.messages| then b.messages[k].id else v.fp
  {
    hide RowsOf, Occupied;
  }

  /**
   * Two messages whose references coincide: the second first piece opens a message of its own, and the tail of the
   * first message joins that one. The result is received, but belongs to neither sender's text.
   */
  lemma {:induction false} SharedReferenceMixes(a1: Delivery, b1: Delivery, a2: Delivery, now: int, push: Decoder)
    requires Valid(a1) && Valid(b1) && Valid(a2) && SameKey(a1, a2) && SameKey(b1, a2) && TotalOf(a2) == 2
    requires SequenceOf(a1) == 1 && SequenceOf(b1) == 1 && SequenceOf(a2) == 2
    requires !a1.binary && !a1.bad && !b1.binary && !b1.bad && !a2.binary && !a2.bad
    requires a1.fp != b1.fp && a1.fp != a2.fp && b1.fp != a2.fp
    ensures var c := StoreAll(Box([], [], {}), [Arrival(a1, now), Arrival(b1, now), Arrival(a2, now)], push);
            |c.messages| == 2 && c.messages[0].state.Receiving?
            && c.messages[1].state.Received? && c.messages[1].body == b1.text + a2.text
  {
    hide Store, BySequence, Join, RowsOf, Inv;
    var arrivals := [Arrival(a1, now), Arrival(b1, now), Arrival(a2, now)];
    assert arrivals[..2][..1] == [Arrival(a1, now)] && arrivals[..2][1] == Arrival(b1, now);
    assert [Arrival(a1, now)][..0] == [];
    var s0 := Box([], [], {});
    EmptyInv();
    var s1 := FirstOpens(s0, a1, now, push);
    var s2 := SecondOpens(s1, a1, b1, now, push);
    assert s1 == StoreAll(s0, [Arrival(a1, now)], push);
    assert s2 == StoreAll(s0, arrivals[..2], push);
    ThirdJoins(s2, a1, b1, a2, now, push);
  }

  lemma {:induction false} EmptyInv()
    ensures Inv(Box([], [], {}))
  {
  }

  predicate TextPiece(v: Delivery, sequence: int, key: Delivery) {
    Valid(v) && SameKey(v, key) && TotalOf(v) == 2 && SequenceOf(v) == sequence && !v.binary && !v.bad
  }

  /** An open message that holds one text piece, in a message of its own. */
  predicate Alone(m: Message, v: Delivery, rows: seq<Part>) {
    && m.id == v.fp && m.peer == v.from && m.meta == MetaOf(v, false) && m.state.Receiving?
    && rows == [Part(v.fp, v.fp, SequenceOf(v), v.text, false)]
  }

  lemma {:induction false} FirstOpens(s0: Box, a1: Delivery, now: int, push: Decoder) returns (s1: Box)
    requires s0 == Box([], [], {}) && Inv(s0) && TextPiece(a1, 1, a1)
    ensures s1 == Store(s0, a1, now, push) && Inv(s1) && s1.forgotten == {}
    ensures |s1.messages| == 1 && s1.messages[0].created == now && Alone(s1.messages[0], a1, RowsOf(s1.parts, a1.fp))
    ensures s1.parts == [Part(a1.fp, a1.fp, 1, a1.text, false)]
  {
    hide Store, BySequence, Join, RowsOf, Inv;
    s1 := Store(s0, a1, now, push);
    StoreInv(s0, a1, now, push);
    var i, binary := StoreTakes(s0, a1, now, push);
  }

  lemma {:induction false} SecondOpens(s1: Box, a1: Delivery, b1: Delivery, now: int, push: Decoder) returns (s2: Box)
    requires Inv(s1) && TextPiece(a1, 1, b1) && TextPiece(b1, 1, b1) && a1.fp != b1.fp && s1.forgotten == {}
    requires |s1.messages| == 1 && s1.messages[0].created == now && Alone(s1.messages[0], a1, RowsOf(s1.parts, a1.fp))
    requires s1.parts == [Part(a1.fp, a1.fp, 1, a1.text, false)]
    ensures s2 == Store(s1, b1, now, push) && Inv(s2) && s2.forgotten == {}
    ensures |s2.messages| == 2 && s2.messages[0] == s1.messages[0]
    ensures s2.messages[1].created == now && Alone(s2.messages[1], b1, RowsOf(s2.parts, b1.fp))
    ensures s2.parts == [Part(a1.fp, a1.fp, 1, a1.text, false), Part(b1.fp, b1.fp, 1, b1.text, false)]
  {
    hide Store, BySequence, Join, RowsOf, Inv;
    s2 := Store(s1, b1, now, push);
    StoreInv(s1, b1, now, push);
    assert s1.parts[0].message == a1.fp && s1.parts[0].sequence == 1;
    var i, binary := StoreTakes(s1, b1, now, push);
  }

  lemma {:induction false} ThirdJoins(s2: Box, a1: Delivery, b1: Delivery, a2: Delivery, now: int, push: Decoder)
    requires Inv(s2) && TextPiece(b1, 1, a2) && TextPiece(a2, 2, a2) && a2.fp != a1.fp && a2.fp != b1.fp
             && a1.fp != b1.fp
    requires s2.forgotten == {} && |s2.messages| == 2 && s2.messages[0].state.Receiving?
    requires s2.messages[1].created == now && Alone(s2.messages[1], b1, RowsOf(s2.parts, b1.fp))
    requires s2.parts == [Part(a1.fp, a1.fp, 1, a1.text, false), Part(b1.fp, b1.fp, 1, b1.text, false)]
    ensures var c := Store(s2, a2, now, push);
            |c.messages| == 2 && c.messages[0].state.Receiving?
            && c.messages[1].state.Received? && c.messages[1].body == b1.text + a2.text
  {
    hide Store, BySequence, Join, RowsOf, Inv;
    assert !Stored(s2.parts, a2.fp);
    assert OpenFor(s2.messages[1], a2, now);
    assert !Occupied(s2.parts, b1.fp, 2);
    var i, binary := StoreTakes(s2, a2, now, push);
    var q, p := Part(b1.fp, b1.fp, 1, b1.text, false), Part(a2.fp, b1.fp, 2, a2.text, false);
    assert RowsOf(Store(s2, a2, now, push).parts, b1.fp) == [q, p];
    JoinTwo(q, p);
  }

  lemma {:induction false} JoinTwo(q: Part, p: Part)
    requires q.sequence <= p.sequence
    ensures Join(BySequence([q, p])) == q.body + p.body
  {
    assert [q, p][..1] == [q] && [q][..0] == [];
    assert BySequence([q]) == [q];
    assert BySequence([q, p]) == [q, p];
    assert Join([q]) == q.body;
  }

  // ---------- The inbox as it is updated ----------

  lemma {:induction false} InvReferences(b: Box)
    requires Inv(b)
    ensures References(b)
  {
  }

  /** A message in one part, as it is stored: received, unless it could not be decoded; an MMS notification is read. */
  function Single(v: Delivery, now: int, push: Decoder): (m: Message)
    ensures m.id == v.fp && m.created == now && m.meta.None? && m.mms == v.binary
    ensures !v.binary ==> m.body == v.text && m.peer == v.from && m.state == if v.bad then DecodeError else Received
    ensures v.binary ==> m.body == "" && (m.state, m.peer) == (Push(push(v.text, v.from).0), push(v.text, v.from).1)
  {
    var (outcome, peer) := push(v.text, v.from);
    if v.binary then Message(v.fp, peer, None, now, true, Push(outcome), "")
    else Message(v.fp, v.from, None, now, false, if v.bad then DecodeError else Received, v.text)
  }

  /** What comes in one part becomes one message of its own. */
  lemma {:induction false} SingleStored(b: Box, v: Delivery, now: int, push: Decoder)
    requires Inv(b) && Readable(v) && v.concat.None? && !Ignored(b, v)
    ensures Store(b, v, now, push)
            == b.(messages := b.messages + [Single(v, now, push)], parts := b.parts
                + [Part(v.fp, v.fp, 1, v.text, v.bad)])
  {
    hide Store, Inv, Joined, Fresh, Single, RowsOf, Find, FindOpen, Occupied, Readable;
    NoneOpen(b.messages, v, now);
    var i, binary := StoreTakes(b, v, now, push);
    var p := Part(v.fp, v.fp, 1, v.text, v.bad);
    var c := Store(b, v, now, push);
    assert c.messages[i].id == v.fp && c.parts == b.parts + [p];
    assert RowsOf(c.parts, v.fp) == RowsOf(b.parts, v.fp) + [p] == [p];
    SingleJoined(v, now, push);
  }

  lemma {:induction false} NoneOpen(ms: seq<Message>, v: Delivery, now: int)
    requires v.concat.None?
    ensures FindOpen(ms, v, now).None?
  {
  }

  lemma {:induction false} SingleJoined(v: Delivery, now: int, push: Decoder)
    requires v.concat.None?
    ensures Joined(Fresh(v, v.fp, now, v.binary), v, v.binary, [Part(v.fp, v.fp, 1, v.text, v.bad)], push)
            == Single(v, now, push)
  {
    var p := Part(v.fp, v.fp, 1, v.text, v.bad);
    assert [p][..0] == [];
    assert [p][..|[p]| - 1] == [];
    assert BySequence([p]) == [p];
    assert Join([p]) == Join([]) + p.body == p.body;
  }

  /** Every delivery that is taken adds its part, and one that is whole its message. */
  lemma {:induction false} TakenWhole(b: Box, v: Delivery, now: int, push: Decoder)
    requires Inv(b)
    ensures var c := Store(b, v, now, push);
            && (!Valid(v) || Ignored(b, v) ==> c == b)
            && (Valid(v) && !Ignored(b, v) ==>
                  |c.parts| == |b.parts| + 1 && c.parts[..|b.parts|] == b.parts
                  && c.parts[|b.parts|].fp == v.fp && c.parts[|b.parts|].body == v.text)
            && (Valid(v) && !Ignored(b, v) && v.concat.None? ==>
                  c.messages == b.messages + [Single(v, now, push)]
                  && c.parts == b.parts + [Part(v.fp, v.fp, 1, v.text, v.bad)])
  {
    if Valid(v) && !Ignored(b, v) {
      var i, binary := StoreTakes(b, v, now, push);
      if v.concat.None? { SingleStored(b, v, now, push); }
    }
  }

  datatype Answer = Accepted | Invalid | DatabaseError

  class Inbox {
    var messages: seq<Message>
    var parts: seq<Part>
    var forgotten: set<Fingerprint>

    ghost function Contents(): Box reads this { Box(messages, parts, forgotten) }

    constructor ()
      ensures Contents() == Box([], [], {}) && Inv(Contents())
    {
      messages, parts, forgotten := [], [], {};
    }

    method HasPart(fp: Fingerprint) returns (found: bool)
      ensures found == Stored(parts, fp)
    {
      for i := 0 to |parts|
        invariant forall j :: 0 <= j < i ==> parts[j].fp != fp
      {
        if parts[i].fp == fp { return true; }
      }
      return false;
    }

    method NewestOpen(v: Delivery, now: int) returns (at: Option<nat>)
      ensures at == FindOpen(messages, v, now)
    {
      var i := |messages|;
      while i > 0
        invariant 0 <= i <= |messages| && FindOpen(messages, v, now) == FindOpen(messages[..i], v, now)
      {
        assert messages[..i][..i - 1] == messages[..i - 1];
        if OpenFor(messages[i - 1], v, now) { return Some(i - 1); }
        i := i - 1;
      }
      assert messages[..|messages|] == messages;
      return None;
    }

    method PlaceTaken(id: Fingerprint, sequence: int) returns (taken: bool)
      ensures taken == Occupied(parts, id, sequence)
    {
      for i := 0 to |parts|
        invariant forall j :: 0 <= j < i ==> !(parts[j].message == id && parts[j].sequence == sequence)
      {
        if parts[i].message == id && parts[i].sequence == sequence { return true; }
      }
      return false;
    }

    /** Counts the parts of a message and joins their texts in the order of their sequence numbers. */
    static method Assemble(rows: seq<Part>, id: Fingerprint) returns (count: nat, text: string)
      ensures count == |RowsOf(rows, id)| && text == Join(BySequence(RowsOf(rows, id)))
    {
      var sorted: seq<Part> := [];
      count := 0;
      for i := 0 to |rows|
        invariant count == |RowsOf(rows[..i], id)| && sorted == BySequence(RowsOf(rows[..i], id))
      {
        assert rows[..i + 1][..i] == rows[..i];
        if rows[i].message == id {
          ghost var before := RowsOf(rows[..i], id);
          assert (before + [rows[i]])[..|before|] == before;
          sorted := InsertRow(sorted, rows[i]);
          count := count + 1;
        }
      }
      assert rows[..|rows|] == rows;
      text := Join(sorted);
    }

    /** One transaction: the whole of Store, or nothing. */
    method StoreIncoming(v: Delivery, now: int, push: Decoder, reply: Reply) returns (answer: Answer)
      requires Inv(Contents())
      modifies this`messages, this`parts
      ensures Inv(Contents())
      ensures Contents() == if Valid(v) && reply.Committed() then Store(old(Contents()), v, now, push)
              else old(Contents())
      ensures answer.Invalid? <==>
              |v.tpdu| > 1024 || v.tpdu == "" || |v.tpdu| % 2 == 1
              || (exists i :: 0 <= i < |v.tpdu| && !HexDigit(v.tpdu[i]))
              || v.size > 4096 || v.from == "" || |v.from| > 128
              || (v.concat.Some? && !old(Ignored(Contents(), v))
                  && var c := v.concat.value;
                     c.sequence < 1 || c.sequence > c.total || c.total > 32 || c.reference < 0 || c.reference > 65535)
      ensures answer.Accepted? <==> !answer.Invalid? && (old(Ignored(Contents(), v)) || reply.Acked?)
      ensures answer.Invalid? || old(Ignored(Contents(), v)) || reply.LostDropped? ==> Contents() == old(Contents())
      ensures !answer.Invalid? && !old(Ignored(Contents(), v)) && reply.Committed() ==>
                |parts| == |old(parts)| + 1 && parts[..|old(parts)|] == old(parts)
                && parts[|old(parts)|].fp == v.fp && parts[|old(parts)|].body == v.text
      ensures !answer.Invalid? && !old(Ignored(Contents(), v)) && reply.Committed() && v.concat.None? ==>
                && messages == old(messages) + [Single(v, now, push)]
                && parts == old(parts) + [Part(v.fp, v.fp, 1, v.text, v.bad)]
    {
      hide Inv, RowsOf, BySequence, Join, Find, FindOpen, Occupied, Stored, OpenFor, HexDigit;
      StoreInv(Contents(), v, now, push);
      TakenWhole(Contents(), v, now, push);
      if !Readable(v) { return Invalid; }
      var known := HasPart(v.fp);
      if v.fp in forgotten || known { return Accepted; }
      if !Numbered(v) { return Invalid; }
      InvReferences(Contents());
      NeverRefused(Contents(), v, now);
      var at := NewestOpen(v, now);
      var binary := v.binary;
      var id := v.fp;
      if at.Some? {
        binary := binary || (messages[at.value].meta.Some? && messages[at.value].meta.value.binary);
        var taken := PlaceTaken(messages[at.value].id, SequenceOf(v));
        if !taken { id := messages[at.value].id; }
      }
      answer := Keep(v, now, push, reply, id, binary);
    }

    /** The message row, the part, and the message again with all its parts joined. */
    method Keep(v: Delivery, now: int, push: Decoder, reply: Reply, id: Fingerprint, binary: bool)
      returns (answer: Answer)
      modifies this`messages, this`parts
      ensures Contents() == if reply.Committed() then Insert(old(Contents()), v, id, now, binary, push)
              else old(Contents())
      ensures answer == if reply.Acked? then Accepted else DatabaseError
    {
      hide RowsOf, BySequence, Join, Find;
      var ms := messages;
      var where := Find(ms, id);
      if where.None? { ms, where := ms + [Fresh(v, id, now, binary)], Some(|ms|); }
      var ps := parts + [Part(v.fp, id, SequenceOf(v), v.text, v.bad)];
      var count, text := Assemble(ps, id);
      var m := ms[where.value].(mms := binary, meta := MetaOf(v, binary), body := if binary then "" else text,
                               state := if count == TotalOf(v) && !v.bad && !binary then Received
                                   else FirstState(v, binary));
      if binary && count == TotalOf(v) {
        var (outcome, peer) := push(text, v.from);
        m := m.(peer := peer, meta := None, state := Push(outcome));
      }
      if reply.Committed() { messages, parts := ms[where.value := m], ps; }
      answer := if reply.Acked? then Accepted else DatabaseError;
    }
  }
}
