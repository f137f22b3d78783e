/**
 * The incremental thread list: a server that numbers every change, purges tombstones and remembers a floor,
 * and a browser client that follows cursor and snapshot page by page.
 *
 * Server and client interleave freely; a response may travel while the server moves on, or be lost.
 */
module Sync {
  import opened Common

  type Key = string
  type Text = string

  /** A row of message_threads: revision, time and text of the newest message, or a tombstone. */
  datatype Thread = Thread(rev: nat, at: int, body: Option<Text>)

  /** `head` is the greatest of the floor, the thread revisions and `other`, the greatest message revision. */
  datatype Server = Server(threads: map<Key, Thread>, floor: nat, other: nat, head: nat)

  ghost predicate Valid(s: Server) {
    && s.floor <= s.head && s.other <= s.head
    && (forall k :: k in s.threads ==> 0 < s.threads[k].rev <= s.head)
    && (forall k, l :: k in s.threads && l in s.threads && s.threads[k].rev == s.threads[l].rev ==> k == l)
    && (s.head == s.floor || s.head == s.other || exists k :: k in s.threads && s.threads[k].rev == s.head)
  }

  // ---------- Server steps ----------

  datatype Change =
    | Write(key: Key, at: int, body: Option<Text>)  // a message change bumps its thread
    | WriteOther                                    // a message change that no thread shows
    | PurgeMessages(floor: nat, left: nat)          // message tombstones go, the floor covers their revisions
    | PurgeThreads(keys: set<Key>)                  // thread tombstones below the floor go

  ghost predicate Allowed(s: Server, c: Change) {
    match c
    case Write(_, _, _) => true
    case WriteOther => true
    case PurgeMessages(floor, left) =>
      s.floor <= floor <= s.head && left <= s.other && (left == s.other || s.other <= floor)
    case PurgeThreads(keys) =>
      forall k :: k in keys ==> k in s.threads && s.threads[k].body.None? && s.threads[k].rev < s.floor
  }

  function Changed(s: Server, c: Change): Server {
    match c
    case Write(k, at, body) => s.(threads := s.threads[k := Thread(s.head + 1, at, body)], head := s.head + 1)
    case WriteOther => s.(other := s.head + 1, head := s.head + 1)
    case PurgeMessages(floor, left) => s.(floor := floor, other := left)
    case PurgeThreads(keys) => s.(threads := s.threads - keys)
  }

  /** The head the server computes never goes back, whatever is purged. */
  lemma {:induction false} ChangedValid(s: Server, c: Change)
    requires Valid(s) && Allowed(s, c)
    ensures Valid(Changed(s, c)) && Changed(s, c).head >= s.head && Changed(s, c).floor >= s.floor
  {
    var t := Changed(s, c);
    match c
    case Write(k, _, _) => assert t.threads[k].rev == t.head;
    case WriteOther =>
    case PurgeMessages(_, _) =>
      if s.head != s.floor && s.head != s.other {
        var k :| k in s.threads && s.threads[k].rev == s.head;
        assert t.threads[k].rev == t.head;
      }
    case PurgeThreads(keys) =>
      if s.head != s.floor && s.head != s.other {
        var k :| k in s.threads && s.threads[k].rev == s.head;
        assert k !in keys;
        assert t.threads[k].rev == t.head;
      }
  }

  // ---------- One page ----------

  datatype Item = Item(key: Key, rev: nat, at: int, body: Option<Text>)

  datatype Page = Page(items: seq<Item>, cursor: nat, more: bool, snapshot: nat)

  datatype Answer = Rejected | CursorExpired | Served(page: Page)

  ghost predicate HasRev(s: Server, rev: nat) { exists k :: k in s.threads && s.threads[k].rev == rev }

  ghost function ItemAt(s: Server, rev: nat): (i: Item)
    requires HasRev(s, rev)
    ensures i.key in s.threads && i.rev == rev && Shows(i, i.key, s.threads[i.key])
  {
    var k :| k in s.threads && s.threads[k].rev == rev;
    Item(k, rev, s.threads[k].at, s.threads[k].body)
  }

  /** The current rows with revisions in (lo, hi], oldest first, at most `limit` of them. */
  ghost function Scan(s: Server, lo: nat, hi: nat, limit: nat): seq<Item>
    decreases hi - lo
  {
    if lo >= hi || limit == 0 then []
    else if HasRev(s, lo + 1) then [ItemAt(s, lo + 1)] + Scan(s, lo + 1, hi, limit - 1)
    else Scan(s, lo + 1, hi, limit)
  }

  const PAGE := 200

  /** beginMessageSync and messageThreadsAPI at one committed state. */
  ghost function Serve(s: Server, after: nat, snapshot: nat, contactsFull: bool): Answer {
    if snapshot > s.head || after > s.head || (snapshot > 0 && after > snapshot) then Rejected
    else if (snapshot > 0 && snapshot < s.floor) || (snapshot == 0 && after > 0 && after < s.floor) then CursorExpired
    else
      var snap := if snapshot == 0 then s.head else snapshot;
      var rows := Scan(s, after, snap, PAGE + 1);
      var more := |rows| > PAGE;
      var items := if more then rows[..PAGE] else rows;
      Served(Page(items, if more then items[|items| - 1].rev else snap, more || contactsFull, snap))
  }

  predicate Shows(i: Item, k: Key, t: Thread) { i == Item(k, t.rev, t.at, t.body) }

  ghost predicate ItemsOf(s: Server, lo: nat, hi: nat, items: seq<Item>) {
    && (forall i :: 0 <= i < |items| ==>
        items[i].key in s.threads
        && Shows(items[i], items[i].key, s.threads[items[i].key]))
    && (forall i :: 0 <= i < |items| ==> lo < items[i].rev <= hi)
    && (forall i, j :: 0 <= i < j < |items| ==> items[i].rev < items[j].rev)
  }

  lemma {:induction false} ScanItems(s: Server, lo: nat, hi: nat, limit: nat)
    ensures ItemsOf(s, lo, hi, Scan(s, lo, hi, limit)) && |Scan(s, lo, hi, limit)| <= limit
    decreases hi - lo
  {
    if lo < hi && limit > 0 {
      if HasRev(s, lo + 1) {
        var rest := Scan(s, lo + 1, hi, limit - 1);
        ScanItems(s, lo + 1, hi, limit - 1);
        var items := [ItemAt(s, lo + 1)] + rest;
        forall i | 0 < i < |items| ensures items[i] == rest[i - 1] {
        }
      } else {
        ScanItems(s, lo + 1, hi, limit);
      }
    }
  }

  lemma {:induction false} ScanEmpty(s: Server, lo: nat, hi: nat, limit: nat)
    requires s.threads == map[]
    ensures Scan(s, lo, hi, limit) == []
    decreases hi - lo
  {
    if lo < hi && limit > 0 { ScanEmpty(s, lo + 1, hi, limit); }
  }

  /** A row in range is listed unless the limit cut the list before it. */
  lemma {:induction false} ScanComplete(s: Server, lo: nat, hi: nat, limit: nat, k: Key)
    requires Valid(s) && k in s.threads && lo < s.threads[k].rev <= hi && limit > 0
    ensures var items := Scan(s, lo, hi, limit);
      || (exists i :: 0 <= i < |items| && Shows(items[i], k, s.threads[k]))
      || (|items| == limit && items[|items| - 1].rev < s.threads[k].rev)
    decreases hi - lo
  {
    var rev := s.threads[k].rev;
    if !HasRev(s, lo + 1) {
      assert rev != lo + 1;
      ScanComplete(s, lo + 1, hi, limit, k);
    } else if rev == lo + 1 {
      assert Shows(Scan(s, lo, hi, limit)[0], k, s.threads[k]);
    } else if limit > 1 {
      var items, rest := Scan(s, lo, hi, limit), Scan(s, lo + 1, hi, limit - 1);
      ScanComplete(s, lo + 1, hi, limit - 1, k);
      assert items[1..] == rest;
      if i :| 0 <= i < |rest| && Shows(rest[i], k, s.threads[k]) { assert items[i + 1] == rest[i]; }
    } else {
      assert Scan(s, lo, hi, limit) == [ItemAt(s, lo + 1)] + Scan(s, lo + 1, hi, 0);
      assert Scan(s, lo + 1, hi, 0) == [];
    }
  }

  // ---------- The client ----------

  datatype Summary = Summary(rev: nat, at: int, body: Option<Text>, provisional: bool)

  /** merge(item, provisional) */
  function Merge(sums: map<Key, Summary>, i: Item, provisional: bool): map<Key, Summary> {
    if i.key !in sums then sums[i.key := Summary(i.rev, i.at, i.body, provisional)]
    else
      var p := sums[i.key];
      if p.rev > i.rev || (p.rev == i.rev && !(p.provisional && !provisional)) then sums
      else if provisional && p.at > i.at then sums[i.key := p.(rev := i.rev, provisional := true)]
      else sums[i.key := Summary(i.rev, i.at, i.body, provisional)]
  }

  function MergeAll(sums: map<Key, Summary>, items: seq<Item>): map<Key, Summary> {
    if items == [] then sums
    else Merge(MergeAll(sums, items[..|items| - 1]), items[|items| - 1], false)
  }

  datatype Client = Client(sums: map<Key, Summary>, cursor: nat, snapshot: nat)

  const BLANK := Client(map[], 0, 0)

  /** What poll() does with an answer; other errors leave the client alone. */
  function Receive(c: Client, a: Answer): Client {
    match a
    case Rejected => c
    case CursorExpired => BLANK
    case Served(p) =>
      Client(MergeAll(c.sums, p.items), if p.cursor >= c.cursor then p.cursor else c.cursor,
             if p.more then p.snapshot else 0)
  }

  // ---------- What the client may rely on ----------

  predicate Holds(m: Summary, t: Thread) { m == Summary(t.rev, t.at, t.body, false) }

  /**
   * `cursor`: every row up to it is held as it is now.
   * `bound`: a row held from the server is current, or has changed after `bound`, or was purged -- and then it is
   * held as deleted or the floor has passed the revision behind `bound`.
   */
  ghost predicate Good(s: Server, sums: map<Key, Summary>, cursor: nat, bound: nat) {
    && cursor <= s.head && bound <= s.head
    && (forall k :: k in s.threads && s.threads[k].rev <= cursor ==> k in sums && Holds(sums[k], s.threads[k]))
    && (forall k :: k in sums && !sums[k].provisional && k in s.threads ==>
          Holds(sums[k], s.threads[k]) || s.threads[k].rev > bound)
    && (forall k :: k in sums && !sums[k].provisional && k !in s.threads ==> sums[k].body.None? || s.floor > bound + 1)
    && (forall k :: k in sums ==> sums[k].rev <= s.head && (k in s.threads ==> sums[k].rev <= s.threads[k].rev))
    && (forall k :: k in sums && !sums[k].provisional && k in s.threads && !Holds(sums[k], s.threads[k]) ==>
          sums[k].rev < s.threads[k].rev)
  }

  /** The server may change under any client without breaking what it relies on. */
  lemma {:induction false} ChangedGood(s: Server, c: Change, sums: map<Key, Summary>, cursor: nat, bound: nat)
    requires Valid(s) && Allowed(s, c) && Good(s, sums, cursor, bound)
    ensures Good(Changed(s, c), sums, cursor, bound)
  {
  }

  // ---------- Merging a page ----------

  predicate DistinctKeys(items: seq<Item>) {
    forall i, j :: 0 <= i < j < |items| ==> items[i].key != items[j].key
  }

  lemma {:induction false} MergeAllOther(sums: map<Key, Summary>, items: seq<Item>, k: Key)
    requires forall i :: 0 <= i < |items| ==> items[i].key != k
    ensures k in MergeAll(sums, items) <==> k in sums
    ensures k in sums ==> MergeAll(sums, items)[k] == sums[k]
  {
    if items != [] { MergeAllOther(sums, items[..|items| - 1], k); }
  }

  lemma {:induction false} MergeAllItem(sums: map<Key, Summary>, items: seq<Item>, n: nat)
    requires DistinctKeys(items) && n < |items|
    ensures var k := items[n].key; var all, one := MergeAll(sums, items), Merge(sums, items[n], false);
      k in all && all[k] == one[k]
  {
    var front := items[..|items| - 1];
    if n < |front| {
      MergeAllItem(sums, front, n);
    } else {
      MergeAllOther(sums, front, items[n].key);
    }
  }

  lemma {:induction false} PageKeysDistinct(s: Server, lo: nat, hi: nat, items: seq<Item>)
    requires ItemsOf(s, lo, hi, items)
    ensures DistinctKeys(items)
  {
    forall i, j | 0 <= i < j < |items| ensures items[i].key != items[j].key {
      assert items[i].rev < items[j].rev;
    }
  }

  /** Everything in (after, upTo] is on the page. */
  ghost predicate Lists(s: Server, after: nat, upTo: nat, items: seq<Item>) {
    && ItemsOf(s, after, upTo, items)
    && forall k :: k in s.threads && after < s.threads[k].rev <= upTo ==>
         exists i :: 0 <= i < |items| && Shows(items[i], k, s.threads[k])
  }

  /** A served page lists exactly the rows between the request's cursor and the page's own. */
  lemma {:induction false} ServedLists(s: Server, after: nat, snapshot: nat, contactsFull: bool)
    requires Valid(s) && Serve(s, after, snapshot, contactsFull).Served?
    ensures var p := Serve(s, after, snapshot, contactsFull).page;
      && after <= p.cursor <= p.snapshot <= s.head && Lists(s, after, p.cursor, p.items)
      && (!p.more ==> p.cursor == p.snapshot) && |p.items| <= PAGE
  {
    var p := Serve(s, after, snapshot, contactsFull).page;
    var rows := Scan(s, after, p.snapshot, PAGE + 1);
    ScanItems(s, after, p.snapshot, PAGE + 1);
    forall k | k in s.threads && after < s.threads[k].rev <= p.cursor
      ensures exists i :: 0 <= i < |p.items| && Shows(p.items[i], k, s.threads[k])
    {
      ScanListed(s, after, p.snapshot, p.items, p.cursor, k);
    }
  }

  /** A client whose cursor expired starts over from nothing, and its next request is served. */
  lemma {:induction false} StartOverIsServed(s: Server, c: Client, contactsFull: bool)
    ensures var again := Receive(c, CursorExpired);
      again == Client(map[], 0, 0) && Serve(s, again.cursor, again.snapshot, contactsFull).Served?
  {
    ScanItems(s, 0, s.head, PAGE + 1);
  }

  /**
   * A request is answered with a page unless its cursor or snapshot is ahead of the server, or too much was purged
   * since; and a page that does not end the list is full and moves the cursor on.
   */
  lemma {:induction false} ServedExactly(s: Server, after: nat, snapshot: nat, contactsFull: bool)
    ensures var a := Serve(s, after, snapshot, contactsFull);
      var ahead := snapshot > s.head || after > s.head || (snapshot > 0 && after > snapshot);
      && (a.Rejected? <==> ahead)
      && (a.CursorExpired? <==> !ahead && if snapshot > 0 then snapshot < s.floor else 0 < after < s.floor)
      && (a.Served? ==>
            && a.page.snapshot == (if snapshot > 0 then snapshot else s.head)
            && (a.page.more && !contactsFull ==> |a.page.items| == 200 && a.page.cursor > after)
            && (contactsFull ==> a.page.more))
  {
    var snap := if snapshot == 0 then s.head else snapshot;
    ScanItems(s, after, snap, PAGE + 1);
  }

  lemma {:induction false} ScanListed(s: Server, after: nat, snap: nat, items: seq<Item>, cursor: nat, k: Key)
    requires Valid(s) && k in s.threads && after < s.threads[k].rev <= cursor <= snap
    requires var rows := Scan(s, after, snap, PAGE + 1);
      if |rows| > PAGE then items == rows[..PAGE] && cursor == rows[PAGE - 1].rev else items == rows && cursor == snap
    ensures exists i :: 0 <= i < |items| && Shows(items[i], k, s.threads[k])
  {
    var rows := Scan(s, after, snap, PAGE + 1);
    ScanItems(s, after, snap, PAGE + 1);
    ScanComplete(s, after, snap, PAGE + 1, k);
    if |rows| == PAGE + 1 { assert rows[PAGE - 1].rev < rows[PAGE].rev; }
    var i :| 0 <= i < |rows| && Shows(rows[i], k, s.threads[k]);
    assert items[i] == rows[i];
  }

  /** One key after the merge: current if the page lists it, untouched and not due if it does not. */
  lemma {:induction false} MergedAt(s: Server, sums: map<Key, Summary>, after: nat, upTo: nat, items: seq<Item>,
                                    bound: nat, k: Key)
    requires Good(s, sums, after, bound) && Lists(s, after, upTo, items)
    ensures var all := MergeAll(sums, items);
      || (k in s.threads && k in all && Holds(all[k], s.threads[k]))
      || (&& (k in all <==> k in sums) && (k in sums ==> all[k] == sums[k])
          && (k in s.threads ==> !(after < s.threads[k].rev <= upTo)))
  {
    if i :| 0 <= i < |items| && items[i].key == k {
      PageKeysDistinct(s, after, upTo, items);
      MergeAllItem(sums, items, i);
    } else {
      MergeAllOther(sums, items, k);
    }
  }

  /**
   * Merging a page keeps the promise and moves the cursor up to the page's. `bound` may move along with the cursor
   * only if the floor has not passed the revision behind it: tombstones go strictly below the floor.
   */
  lemma {:induction false} MergedGood(s: Server, sums: map<Key, Summary>, after: nat, upTo: nat, items: seq<Item>,
                                      bound: nat, bound': nat)
    requires Valid(s) && Good(s, sums, after, bound) && Lists(s, after, upTo, items)
    requires after <= upTo <= s.head && bound' <= s.head
    requires bound' == bound || (bound' == upTo && after <= bound && s.floor <= bound + 1)
    ensures Good(s, MergeAll(sums, items), upTo, bound')
  {
    var all := MergeAll(sums, items);
    forall k: Key
      ensures k in s.threads && s.threads[k].rev <= upTo ==> k in all && Holds(all[k], s.threads[k])
      ensures k in all && !all[k].provisional && k in s.threads ==>
              Holds(all[k], s.threads[k])
              || s.threads[k].rev > bound'
      ensures k in all && !all[k].provisional && k !in s.threads ==> all[k].body.None? || s.floor > bound' + 1
      ensures k in all ==> all[k].rev <= s.head && (k in s.threads ==> all[k].rev <= s.threads[k].rev)
      ensures k in all && !all[k].provisional && k in s.threads && !Holds(all[k], s.threads[k]) ==>
              all[k].rev < s.threads[k].rev
    {
      MergedAt(s, sums, after, upTo, items, bound, k);
    }
  }

  // ---------- Messages the browser sends itself ----------

  /**
   * A message just sent is shown before the server lists it. At that moment its thread has its revision or a later
   * one, or the thread is purged already.
   */
  ghost predicate SentOnce(s: Server, i: Item) {
    i.rev <= s.head && (i.key in s.threads ==> i.rev <= s.threads[i.key].rev)
  }

  /**
   * A message that was just sent is shown at once, unless its thread shows something later already; the answer of the
   * server about the same revision replaces it.
   */
  lemma {:induction false} SentIsShown(sums: map<Key, Summary>, i: Item, from: Item)
    requires i.key in sums ==> sums[i.key].rev < i.rev
    requires from.key == i.key && from.rev >= i.rev
    ensures var sent := Merge(sums, i, true);
            && i.key in sent && sent[i.key].rev == i.rev && sent[i.key].provisional && sent[i.key].at >= i.at
            && (i.key !in sums || sums[i.key].at <= i.at ==> sent[i.key].at == i.at && sent[i.key].body == i.body)
            && (i.key in sums && sums[i.key].at > i.at ==>
                  sent[i.key].at == sums[i.key].at && sent[i.key].body == sums[i.key].body)
            && (forall k :: k != i.key ==> (k in sent <==> k in sums) && (k in sums ==> sent[k] == sums[k]))
            && Merge(sent, from, false) == sent[i.key := Summary(from.rev, from.at, from.body, false)]
  {
  }

  /** A provisional entry never hides what the server already sent. */
  lemma {:induction false} SentGood(s: Server, sums: map<Key, Summary>, i: Item, cursor: nat, bound: nat)
    requires Good(s, sums, cursor, bound) && SentOnce(s, i)
    ensures Good(s, Merge(sums, i, true), cursor, bound)
  {
  }

  /** Sending while a page travels: the page's rows win, or the sent message is newer than they are. */
  lemma {:induction false} SentThenMerged(sums: map<Key, Summary>, i: Item, items: seq<Item>, k: Key)
    requires DistinctKeys(items)
    ensures var a, b := MergeAll(Merge(sums, i, true), items), MergeAll(sums, items);
      || ((k in a <==> k in b) && (k in a ==> a[k] == b[k]))
      || (k == i.key && k in a && a[k].provisional && a[k].rev == i.rev && (k in b ==> b[k].rev < i.rev))
  {
    if n :| 0 <= n < |items| && items[n].key == k {
      MergeAllItem(sums, items, n);
      MergeAllItem(Merge(sums, i, true), items, n);
    } else {
      MergeAllOther(sums, items, k);
      MergeAllOther(Merge(sums, i, true), items, k);
    }
  }

  lemma {:induction false} SentInFlightGood(s: Server, sums: map<Key, Summary>, i: Item, items: seq<Item>, cursor: nat,
                                            bound: nat)
    requires Good(s, MergeAll(sums, items), cursor, bound) && SentOnce(s, i) && DistinctKeys(items)
    ensures Good(s, MergeAll(Merge(sums, i, true), items), cursor, bound)
  {
    var a, b := MergeAll(Merge(sums, i, true), items), MergeAll(sums, items);
    forall k
      ensures k in s.threads && s.threads[k].rev <= cursor ==> k in a && Holds(a[k], s.threads[k])
      ensures k in a && !a[k].provisional ==> k in b && a[k] == b[k]
      ensures k in a ==> a[k].rev <= s.head && (k in s.threads ==> a[k].rev <= s.threads[k].rev)
    {
      SentThenMerged(sums, i, items, k);
    }
  }

  // ---------- Server and client together ----------

  /** `base`: the round in progress began from an empty client. `reply`: the answer on its way. */
  datatype World = World(srv: Server, client: Client, base: bool, reply: Option<Answer>)

  datatype Step =
    | ServerStep(change: Change)
    | Request(contactsFull: bool)
    | Arrive
    | Lose
    | Reset
    | Send(item: Item)

  ghost predicate CanStep(w: World, a: Step) {
    match a
    case ServerStep(c) => Allowed(w.srv, c)
    case Request(_) => w.reply.None?
    case Arrive => w.reply.Some?
    case Lose => true
    case Reset => true
    case Send(i) => SentOnce(w.srv, i)
  }

  ghost function Next(w: World, a: Step): World
    requires CanStep(w, a)
  {
    match a
    case ServerStep(c) => w.(srv := Changed(w.srv, c))
    case Request(full) =>
      w.(base := if w.client.snapshot == 0 then w.client.cursor == 0 else w.base,
         reply := Some(Serve(w.srv, w.client.cursor, w.client.snapshot, full)))
    case Arrive => w.(client := Receive(w.client, w.reply.value), reply := None)
    case Lose => w.(reply := None)
    case Reset => w.(client := BLANK, reply := None)
    case Send(i) => w.(client := w.client.(sums := Merge(w.client.sums, i, true)))
  }

  /**
   * Mid-round no tombstone above the client's cursor can be gone yet, which the purge removes below the floor, or the
   * floor has passed the whole round.
   */
  predicate FloorBehind(floor: nat, cursor: nat, snapshot: nat) { floor <= cursor + 1 || snapshot < floor }

  /** The one thing line 53 does not check: needed only for later pages of a round that began with rows already held. */
  predicate Timely(w: World, a: Step) {
    a.Request? && w.client.snapshot > 0 && !w.base ==> FloorBehind(w.srv.floor, w.client.cursor, w.client.snapshot)
  }

  function Bound(w: World): nat {
    if w.client.snapshot > 0 && w.base then w.client.snapshot else w.client.cursor
  }

  ghost predicate WorldInv(w: World) {
    && Valid(w.srv)
    && Good(w.srv, w.client.sums, w.client.cursor, Bound(w))
    && (w.client.snapshot > 0 ==> w.client.cursor <= w.client.snapshot <= w.srv.head)
    && (w.client.cursor == 0 && w.client.snapshot == 0 ==>
          forall k :: k in w.client.sums ==> w.client.sums[k].provisional)
    && (w.reply.Some? ==> !w.reply.value.Rejected?)
    && (w.reply.Some? && w.reply.value.Served? ==> PageInv(w, w.reply.value.page))
  }

  ghost predicate PageInv(w: World, p: Page) {
    && w.client.cursor <= p.cursor <= p.snapshot <= w.srv.head
    && (w.client.snapshot > 0 ==> p.snapshot == w.client.snapshot)
    && (!p.more ==> p.cursor == p.snapshot)
    && (p.cursor == 0 ==> p.items == [])
    && DistinctKeys(p.items)
    && Good(w.srv, MergeAll(w.client.sums, p.items), p.cursor, if w.base then p.snapshot else p.cursor)
  }

  lemma {:induction false} RequestInv(w: World, full: bool)
    requires WorldInv(w) && w.reply.None? && Timely(w, Request(full))
    ensures WorldInv(Next(w, Request(full)))
  {
    var t := Next(w, Request(full));
    var c := w.client;
    if t.reply.value.Served? {
      var p := t.reply.value.page;
      ServedLists(w.srv, c.cursor, c.snapshot, full);
      PageKeysDistinct(w.srv, c.cursor, p.cursor, p.items);
      var bound := if t.base then p.snapshot else c.cursor;
      assert Good(w.srv, c.sums, c.cursor, bound);
      MergedGood(w.srv, c.sums, c.cursor, p.cursor, p.items, bound, if t.base then p.snapshot else p.cursor);
    }
  }

  lemma {:induction false} ServerInv(w: World, c: Change)
    requires WorldInv(w) && CanStep(w, ServerStep(c))
    ensures WorldInv(Next(w, ServerStep(c)))
  {
    hide Good, Valid, MergeAll;
    ChangedValid(w.srv, c);
    ChangedGood(w.srv, c, w.client.sums, w.client.cursor, Bound(w));
    if w.reply.Some? && w.reply.value.Served? {
      var p := w.reply.value.page;
      ChangedGood(w.srv, c, MergeAll(w.client.sums, p.items), p.cursor, if w.base then p.snapshot else p.cursor);
    }
  }

  lemma {:induction false} ArriveInv(w: World)
    requires WorldInv(w) && CanStep(w, Arrive)
    ensures WorldInv(Next(w, Arrive))
  {
  }

  lemma {:induction false} IdleInv(w: World, a: Step)
    requires WorldInv(w) && CanStep(w, a) && (a.Lose? || a.Reset?)
    ensures WorldInv(Next(w, a))
  {
  }

  lemma {:induction false} SendInv(w: World, i: Item)
    requires WorldInv(w) && CanStep(w, Send(i))
    ensures WorldInv(Next(w, Send(i)))
  {
    hide Good, Valid;
    SentGood(w.srv, w.client.sums, i, w.client.cursor, Bound(w));
    if w.reply.Some? && w.reply.value.Served? {
      var p := w.reply.value.page;
      SentInFlightGood(w.srv, w.client.sums, i, p.items, p.cursor, if w.base then p.snapshot else p.cursor);
    }
  }

  lemma {:induction false} StepInv(w: World, a: Step)
    requires WorldInv(w) && CanStep(w, a) && Timely(w, a)
    ensures WorldInv(Next(w, a))
  {
    hide WorldInv, Next;
    match a
    case ServerStep(c) => ServerInv(w, c);
    case Request(full) => RequestWorks(w, full);
    case Arrive => ArriveInv(w);
    case Lose => IdleInv(w, a);
    case Reset => IdleInv(w, a);
    case Send(i) => SendInv(w, i);
  }

  lemma {:induction false} RequestWorks(w: World, full: bool)
    requires WorldInv(w) && CanStep(w, Request(full)) && Timely(w, Request(full))
    ensures WorldInv(Next(w, Request(full)))
  {
    hide WorldInv, Next;
    RequestInv(w, full);
  }

  // ---------- What holds without any condition ----------

  /** Rows up to the cursor are held as they are now, and what is held from the server is never ahead of it. */
  ghost predicate Current(s: Server, sums: map<Key, Summary>, cursor: nat) {
    && cursor <= s.head
    && (forall k :: k in s.threads && s.threads[k].rev <= cursor ==> k in sums && Holds(sums[k], s.threads[k]))
    && (forall k :: k in sums ==> sums[k].rev <= s.head && (k in s.threads ==> sums[k].rev <= s.threads[k].rev))
    && (forall k :: k in sums && !sums[k].provisional && k in s.threads && !Holds(sums[k], s.threads[k]) ==>
          sums[k].rev < s.threads[k].rev)
  }

  ghost predicate WorldCurrent(w: World) {
    && Valid(w.srv) && Current(w.srv, w.client.sums, w.client.cursor)
    && (w.client.snapshot > 0 ==> w.client.cursor <= w.client.snapshot <= w.srv.head)
    && (w.reply.Some? ==> !w.reply.value.Rejected?)
    && (w.reply.Some? && w.reply.value.Served? ==> PageCurrent(w, w.reply.value.page))
  }

  ghost predicate PageCurrent(w: World, p: Page) {
    && w.client.cursor <= p.cursor <= p.snapshot <= w.srv.head
    && (w.client.snapshot > 0 ==> p.snapshot == w.client.snapshot)
    && (!p.more ==> p.cursor == p.snapshot)
    && DistinctKeys(p.items) && Current(w.srv, MergeAll(w.client.sums, p.items), p.cursor)
  }

  lemma {:induction false} ChangedCurrent(s: Server, c: Change, sums: map<Key, Summary>, cursor: nat)
    requires Valid(s) && Allowed(s, c) && Current(s, sums, cursor)
    ensures Current(Changed(s, c), sums, cursor)
  {
  }

  lemma {:induction false} MergedCurrent(s: Server, sums: map<Key, Summary>, after: nat, upTo: nat, items: seq<Item>)
    requires Valid(s) && Current(s, sums, after) && Lists(s, after, upTo, items) && after <= upTo <= s.head
    ensures Current(s, MergeAll(sums, items), upTo)
  {
    forall k
      ensures var all := MergeAll(sums, items);
              || (k in s.threads && k in all && Holds(all[k], s.threads[k]))
              || (&& (k in all <==> k in sums) && (k in sums ==> all[k] == sums[k])
                  && (k in s.threads ==> !(after < s.threads[k].rev <= upTo)))
    {
      if i :| 0 <= i < |items| && items[i].key == k {
        PageKeysDistinct(s, after, upTo, items);
        MergeAllItem(sums, items, i);
      } else {
        MergeAllOther(sums, items, k);
      }
    }
  }

  lemma {:induction false} SentCurrent(s: Server, sums: map<Key, Summary>, i: Item, cursor: nat)
    requires Current(s, sums, cursor) && SentOnce(s, i)
    ensures Current(s, Merge(sums, i, true), cursor)
  {
  }

  lemma {:induction false} SentInFlightCurrent(s: Server, sums: map<Key, Summary>, i: Item, items: seq<Item>,
                                               cursor: nat)
    requires Current(s, MergeAll(sums, items), cursor) && SentOnce(s, i) && DistinctKeys(items)
    ensures Current(s, MergeAll(Merge(sums, i, true), items), cursor)
  {
    var a, b := MergeAll(Merge(sums, i, true), items), MergeAll(sums, items);
    forall k
      ensures k in s.threads && s.threads[k].rev <= cursor ==> k in a && Holds(a[k], s.threads[k])
      ensures k in a && !a[k].provisional ==> k in b && a[k] == b[k]
      ensures k in a ==> a[k].rev <= s.head && (k in s.threads ==> a[k].rev <= s.threads[k].rev)
    {
      SentThenMerged(sums, i, items, k);
    }
  }

  lemma {:induction false} RequestCurrent(w: World, full: bool)
    requires WorldCurrent(w) && w.reply.None?
    ensures WorldCurrent(Next(w, Request(full)))
  {
    var t, c := Next(w, Request(full)), w.client;
    if t.reply.value.Served? {
      var p := t.reply.value.page;
      ServedLists(w.srv, c.cursor, c.snapshot, full);
      PageKeysDistinct(w.srv, c.cursor, p.cursor, p.items);
      MergedCurrent(w.srv, c.sums, c.cursor, p.cursor, p.items);
    }
    hide Current, Valid, MergeAll, DistinctKeys;
  }

  /** Any step, however far the floor has moved. */
  lemma {:induction false} StepCurrent(w: World, a: Step)
    requires WorldCurrent(w) && CanStep(w, a)
    ensures WorldCurrent(Next(w, a))
  {
    match a
    case Request(full) => RequestCurrent(w, full);
    case ServerStep(c) =>
      hide Current, Valid, MergeAll;
      ChangedValid(w.srv, c);
      ChangedCurrent(w.srv, c, w.client.sums, w.client.cursor);
      if w.reply.Some? && w.reply.value.Served? {
        ChangedCurrent(w.srv, c, MergeAll(w.client.sums, w.reply.value.page.items), w.reply.value.page.cursor);
      }
    case Send(i) =>
      hide Current, Valid;
      SentCurrent(w.srv, w.client.sums, i, w.client.cursor);
      if w.reply.Some? && w.reply.value.Served? {
        SentInFlightCurrent(w.srv, w.client.sums, i, w.reply.value.page.items, w.reply.value.page.cursor);
      }
    case _ =>
  }

  // ---------- Main results ----------

  ghost predicate Run(w: World, steps: seq<Step>)
    decreases |steps|
  {
    steps == [] || (CanStep(w, steps[0]) && Run(Next(w, steps[0]), steps[1..]))
  }

  ghost function Exec(w: World, steps: seq<Step>): World
    requires Run(w, steps)
    decreases |steps|
  {
    if steps == [] then w else Exec(Next(w, steps[0]), steps[1..])
  }

  /** No request of the run comes in the middle of a round when a tombstone above its cursor may be gone. */
  ghost predicate InTime(w: World, steps: seq<Step>)
    requires Run(w, steps)
    decreases |steps|
  {
    steps == [] || (Timely(w, steps[0]) && InTime(Next(w, steps[0]), steps[1..]))
  }

  lemma {:induction false} RunInv(w: World, steps: seq<Step>)
    requires WorldInv(w) && Run(w, steps) && InTime(w, steps)
    ensures WorldInv(Exec(w, steps))
    decreases |steps|
  {
    if steps != [] {
      StepInv(w, steps[0]);
      RunInv(Next(w, steps[0]), steps[1..]);
    }
  }

  lemma {:induction false} RunCurrent(w: World, steps: seq<Step>)
    requires WorldCurrent(w) && Run(w, steps)
    ensures WorldCurrent(Exec(w, steps))
    decreases |steps|
  {
    hide WorldCurrent, Next, CanStep;
    if steps != [] {
      StepCurrent(w, steps[0]);
      RunCurrent(Next(w, steps[0]), steps[1..]);
    }
  }

  /** Nothing the client shows from the server is missing, outdated or purged without notice. */
  ghost predicate Synced(s: Server, c: Client) {
    && (forall k :: k in s.threads && s.threads[k].rev <= c.cursor ==> k in c.sums && Holds(c.sums[k], s.threads[k]))
    && (forall k :: k in c.sums && !c.sums[k].provisional && k in s.threads && s.threads[k].rev <= c.cursor ==>
          Holds(c.sums[k], s.threads[k]))
    && (forall k, full :: k in c.sums && !c.sums[k].provisional && c.sums[k].body.Some? && k !in s.threads ==>
          Serve(s, c.cursor, c.snapshot, full) == CursorExpired)
  }

  lemma {:induction false} GoodIsSynced(s: Server, c: Client)
    requires Good(s, c.sums, c.cursor, c.cursor) && c.snapshot == 0
    requires c.cursor == 0 ==> forall k :: k in c.sums ==> c.sums[k].provisional
    ensures Synced(s, c)
  {
  }

  lemma {:induction false} BetweenRounds(w: World)
    requires WorldInv(w) && w.client.snapshot == 0
    ensures Synced(w.srv, w.client)
  {
    hide Synced, Good, Valid;
    GoodIsSynced(w.srv, w.client);
  }

  /** An empty client and any valid server. */
  predicate Start(w: World) { w.client == BLANK && w.reply.None? }

  /** In every run, at any moment: the client holds the current version of every row up to its cursor. */
  lemma {:induction false} RowsStayCurrent(w: World, steps: seq<Step>)
    requires Start(w) && Valid(w.srv) && Run(w, steps)
    ensures var t := Exec(w, steps);
            forall k :: k in t.srv.threads && t.srv.threads[k].rev <= t.client.cursor ==>
              k in t.client.sums && Holds(t.client.sums[k], t.srv.threads[k])
  {
    RunCurrent(w, steps);
  }

  /** In every run a round's last page brings the cursor up to the snapshot taken when the round began. */
  lemma {:induction false} RoundReachesSnapshot(w: World, steps: seq<Step>)
    requires Start(w) && Valid(w.srv) && Run(w, steps)
    ensures var t := Exec(w, steps);
      t.reply.Some? && t.reply.value.Served? && !t.reply.value.page.more ==>
        var done := Next(t, Arrive).client;
        && done.cursor == t.reply.value.page.snapshot && done.snapshot == 0
        && (t.client.snapshot > 0 ==> done.cursor == t.client.snapshot)
  {
    RunCurrent(w, steps);
  }

  /** A client that follows the protocol is never told that its cursor is invalid. */
  lemma {:induction false} NeverRejected(w: World, steps: seq<Step>)
    requires Start(w) && Valid(w.srv) && Run(w, steps)
    ensures Exec(w, steps).reply != Some(Rejected)
  {
    RunCurrent(w, steps);
  }

  /**
   * In every run with its requests in time, a client between rounds holds the current version of every row up to its
   * cursor, and a purged row it still shows makes its next request expire.
   */
  lemma {:induction false} ClientStaysSynced(w: World, steps: seq<Step>)
    requires Start(w) && Valid(w.srv) && Run(w, steps) && InTime(w, steps)
    ensures var t := Exec(w, steps); t.client.snapshot == 0 ==> Synced(t.srv, t.client)
  {
    RunInv(w, steps);
    if Exec(w, steps).client.snapshot == 0 { BetweenRounds(Exec(w, steps)); }
  }

  /** The last page of a carried round, served at this floor, leaves no purged row shown without notice. */
  ghost predicate LastPageSafe(cursor: nat, snapshot: nat, floor: nat) {
    forall s: Server, sums ::
      Valid(s) && s.floor == floor && snapshot <= s.head && Good(s, sums, cursor, cursor)
      && Serve(s, cursor, snapshot, false).Served? && !Serve(s, cursor, snapshot, false).page.more ==>
        var p := Serve(s, cursor, snapshot, false).page;
        Synced(s, Client(MergeAll(sums, p.items), p.cursor, 0))
  }

  /**
   * The missing check is exactly this one: with the floor inside (cursor + 1, snapshot] a deletion can be missed, as
   * tombstones of threads go strictly below the floor.
   */
  lemma {:induction false} FloorGuardIsExact(cursor: nat, snapshot: nat, floor: nat)
    requires 0 < cursor <= snapshot
    ensures LastPageSafe(cursor, snapshot, floor) <==> FloorBehind(floor, cursor, snapshot)
  {
    if FloorBehind(floor, cursor, snapshot) {
      forall s: Server, sums |
        Valid(s) && s.floor == floor && snapshot <= s.head && Good(s, sums, cursor, cursor)
        && Serve(s, cursor, snapshot, false).Served? && !Serve(s, cursor, snapshot, false).page.more
        ensures var p := Serve(s, cursor, snapshot, false).page;
          Synced(s, Client(MergeAll(sums, p.items), p.cursor, 0))
      {
        var p := Serve(s, cursor, snapshot, false).page;
        ServedLists(s, cursor, snapshot, false);
        MergedGood(s, sums, cursor, p.cursor, p.items, cursor, p.cursor);
      }
    } else {
      var s := Server(map[], floor, snapshot, snapshot);
      var sums := map["k" := Summary(cursor, 0, Some("old"), false)];
      ScanEmpty(s, cursor, snapshot, PAGE + 1);
      var p := Serve(s, cursor, snapshot, false).page;
      assert p == Page([], snapshot, false, snapshot);
      var c := Client(MergeAll(sums, p.items), p.cursor, 0);
      assert c.sums["k"].body.Some? && "k" !in s.threads;
      assert Serve(s, c.cursor, c.snapshot, false).Served?;
    }
  }

  // ---------- A run that misses a deletion ----------

  ghost predicate Reachable(w: World) {
    exists w0, steps :: Start(w0) && Valid(w0.srv) && Run(w0, steps) && Exec(w0, steps) == w
  }

  lemma {:induction false} Extend(w: World, steps: seq<Step>, a: Step)
    requires Run(w, steps) && CanStep(Exec(w, steps), a)
    ensures Run(w, steps + [a]) && Exec(w, steps + [a]) == Next(Exec(w, steps), a)
    decreases |steps|
  {
    if steps != [] {
      Extend(Next(w, steps[0]), steps[1..], a);
      assert (steps + [a])[1..] == steps[1..] + [a];
    } else {
      assert Run(Next(w, a), [a][1..]);
    }
  }

  lemma {:induction false} ReachStep(w: World, a: Step)
    requires Reachable(w) && CanStep(w, a)
    ensures Reachable(Next(w, a))
  {
    var w0, steps :| Start(w0) && Valid(w0.srv) && Run(w0, steps) && Exec(w0, steps) == w;
    Extend(w0, steps, a);
  }

  /** Where every revision of a range is taken, a page lists them one by one. */
  lemma {:induction false} DenseScan(s: Server, lo: nat, hi: nat, limit: nat)
    requires lo + limit <= hi && forall r :: lo < r <= lo + limit ==> HasRev(s, r)
    ensures var rows := Scan(s, lo, hi, limit);
            |rows| == limit && forall i :: 0 <= i < |rows| ==> rows[i].rev == lo + 1 + i
    decreases hi - lo
  {
    if limit > 0 {
      assert HasRev(s, lo + 1);
      DenseScan(s, lo + 1, hi, limit - 1);
    }
  }

  const KEPT: Key := "kept"

  function Other(i: nat): Key { seq(i + 4, n => 'x') }

  /** The client knows one row; n more have been written since. */
  ghost predicate Grown(w: World, n: nat) {
    && w.reply.None? && w.client == Client(map[KEPT := Summary(1, 0, Some("text"), false)], 1, 0)
    && w.srv.floor == 0 && w.srv.other == 0 && w.srv.head == n + 1 && Valid(w.srv)
    && KEPT in w.srv.threads && w.srv.threads[KEPT] == Thread(1, 0, Some("text"))
    && (forall r :: 1 < r <= n + 1 ==> HasRev(w.srv, r))
    && (forall k :: k in w.srv.threads && k != KEPT ==> |k| <= n + 4)
  }

  lemma {:induction false} ReachStart(w: World)
    requires Start(w) && Valid(w.srv)
    ensures Reachable(w)
  {
    assert Run(w, []) && Exec(w, []) == w;
  }

  lemma {:induction false} OnlyRow(s: Server)
    requires s == Server(map[KEPT := Thread(1, 0, Some("text"))], 0, 0, 1)
    ensures Serve(s, 0, 0, false) == Served(Page([Item(KEPT, 1, 0, Some("text"))], 1, false, 1))
    ensures MergeAll(map[], [Item(KEPT, 1, 0, Some("text"))]) == map[KEPT := Summary(1, 0, Some("text"), false)]
  {
    assert s.threads[KEPT].rev == 1;
    assert HasRev(s, 1);
    var i := ItemAt(s, 1);
    assert i == Item(KEPT, 1, 0, Some("text"));
    assert Scan(s, 1, 1, PAGE) == [];
    assert Scan(s, 0, 1, PAGE + 1) == [i];
    assert [i][..0] == [];
  }

  lemma {:induction false} ReachFirst() returns (w: World)
    ensures Reachable(w) && Grown(w, 0)
  {
    hide Reachable;
    var s := Server(map[KEPT := Thread(1, 0, Some("text"))], 0, 0, 1);
    var w0 := World(s, BLANK, false, None);
    assert s.threads[KEPT].rev == 1;
    ReachStart(w0);
    ReachStep(w0, Request(false));
    var w1 := Next(w0, Request(false));
    OnlyRow(s);
    ReachStep(w1, Arrive);
    w := Next(w1, Arrive);
    assert w.client.sums == map[KEPT := Summary(1, 0, Some("text"), false)];
  }

  lemma {:induction false} ReachGrown(n: nat) returns (w: World)
    ensures Reachable(w) && Grown(w, n)
  {
    hide Reachable;
    if n == 0 {
      w := ReachFirst();
    } else {
      var v := ReachGrown(n - 1);
      var c := Write(Other(n), 0, Some("new"));
      ReachStep(v, ServerStep(c));
      w := Next(v, ServerStep(c));
      ChangedValid(v.srv, c);
      assert |Other(n)| == n + 4;
      assert w.srv.threads[Other(n)].rev == n + 1;
      forall r | 1 < r <= n + 1 ensures HasRev(w.srv, r) {
        if r <= n {
          assert HasRev(v.srv, r);
          var k :| k in v.srv.threads && v.srv.threads[k].rev == r;
          assert w.srv.threads[k].rev == r;
        }
      }
    }
  }

  /** The row the client knows is deleted, then another message... */
  lemma {:induction false} ReachDeleted() returns (w: World)
    ensures Reachable(w) && w.reply.None? && w.client == Client(map[KEPT := Summary(1, 0, Some("text"), false)], 1, 0)
    ensures w.srv.head == PAGE + 4 == w.srv.other && w.srv.floor == 0 && Valid(w.srv)
    ensures KEPT in w.srv.threads && w.srv.threads[KEPT] == Thread(PAGE + 3, 0, None)
    ensures forall r :: 1 < r <= PAGE + 2 ==> HasRev(w.srv, r)
  {
    hide Reachable;
    var v := ReachGrown(PAGE + 1);
    var c := Write(KEPT, 0, None);
    ReachStep(v, ServerStep(c));
    var u := Next(v, ServerStep(c));
    ChangedValid(v.srv, c);
    forall r | 1 < r <= PAGE + 2 ensures HasRev(u.srv, r) {
      assert HasRev(v.srv, r);
      var k :| k in v.srv.threads && v.srv.threads[k].rev == r;
      assert u.srv.threads[k].rev == r;
    }
    ReachStep(u, ServerStep(WriteOther));
    w := Next(u, ServerStep(WriteOther));
    ChangedValid(u.srv, WriteOther);
    forall r | 1 < r <= PAGE + 2 ensures HasRev(w.srv, r) { assert HasRev(u.srv, r); }
  }

  /** ...and a round begins that does not fit on one page. */
  lemma {:induction false} ReachMidRound() returns (w: World)
    ensures Reachable(w) && w.reply.None? && !w.base && w.client.cursor == PAGE + 1 && w.client.snapshot == PAGE + 4
    ensures KEPT in w.client.sums && w.client.sums[KEPT] == Summary(1, 0, Some("text"), false)
    ensures w.srv.head == PAGE + 4 == w.srv.other && w.srv.floor == 0 && Valid(w.srv)
    ensures KEPT in w.srv.threads && w.srv.threads[KEPT] == Thread(PAGE + 3, 0, None)
  {
    hide Reachable;
    var u := ReachDeleted();
    ReachStep(u, Request(false));
    var x := Next(u, Request(false));
    FirstPage(u.srv);
    hide Serve, MergeAll, Valid, HasRev, Scan;
    MergeAllOther(u.client.sums, x.reply.value.page.items, KEPT);
    ReachStep(x, Arrive);
    w := Next(x, Arrive);
  }

  /** The first of a round's pages: two hundred rows, the deleted one not among them. */
  lemma {:induction false} FirstPage(s: Server)
    requires s.head == PAGE + 4 && s.floor == 0 && KEPT in s.threads && s.threads[KEPT].rev == PAGE + 3
    requires forall r :: 1 < r <= PAGE + 2 ==> HasRev(s, r)
    ensures var a := Serve(s, 1, 0, false);
            && a.Served? && a.page.more && a.page.cursor == PAGE + 1 && a.page.snapshot == PAGE + 4
            && forall i :: 0 <= i < |a.page.items| ==> a.page.items[i].key != KEPT
  {
    DenseScan(s, 1, PAGE + 4, PAGE + 1);
    ScanItems(s, 1, PAGE + 4, PAGE + 1);
    var p := Serve(s, 1, 0, false).page;
    assert p.items == Scan(s, 1, PAGE + 4, PAGE + 1)[..PAGE];
    forall i | 0 <= i < |p.items| ensures p.items[i].key != KEPT { assert p.items[i].rev < PAGE + 3; }
  }

  /** Both tombstones are purged: the floor reaches the other message's revision, which is above the row's. */
  lemma {:induction false} ReachPurged() returns (w: World)
    ensures Reachable(w) && w.reply.None? && !w.base && w.client.cursor == PAGE + 1 && w.client.snapshot == PAGE + 4
    ensures KEPT in w.client.sums && w.client.sums[KEPT] == Summary(1, 0, Some("text"), false)
    ensures w.srv.head == PAGE + 4 == w.srv.floor && KEPT !in w.srv.threads && !Timely(w, Request(false))
  {
    hide Reachable;
    var v := ReachMidRound();
    var floor, purge := PurgeMessages(PAGE + 4, 0), PurgeThreads({KEPT});
    ReachStep(v, ServerStep(floor));
    var u := Next(v, ServerStep(floor));
    ReachStep(u, ServerStep(purge));
    w := Next(u, ServerStep(purge));
  }

  /**
   * A run from an empty client: in the middle of a round the deleted row is purged, and the floor passes the cursor.
   * The round ends without a word, and the client goes on showing the row.
   */
  lemma {:induction false} LateRequestMissesDeletion() returns (w: World)
    ensures Reachable(w) && w.client.snapshot == 0 && !Synced(w.srv, w.client)
    ensures KEPT !in w.srv.threads && KEPT in w.client.sums && w.client.sums[KEPT].body == Some("text")
    ensures forall full :: Serve(w.srv, w.client.cursor, 0, full).Served?
  {
    hide Reachable;
    var t := ReachPurged();
    ReachStep(t, Request(false));
    var x := Next(t, Request(false));
    var p := x.reply.value.page;
    ScanItems(t.srv, PAGE + 1, PAGE + 4, PAGE + 1);
    ScanShort(t.srv, PAGE + 1, PAGE + 4, PAGE + 1);
    MergeAllOther(t.client.sums, p.items, KEPT);
    ReachStep(x, Arrive);
    w := Next(x, Arrive);
    assert Serve(w.srv, w.client.cursor, 0, false).Served?;
  }

  lemma {:induction false} ScanShort(s: Server, lo: nat, hi: nat, limit: nat)
    requires lo <= hi
    ensures |Scan(s, lo, hi, limit)| <= hi - lo
    decreases hi - lo
  {
    if lo < hi && limit > 0 { ScanShort(s, lo + 1, hi, if HasRev(s, lo + 1) then limit - 1 else limit); }
  }

  // ---------- The browser module ----------

  class MessageData {
    var summaries: map<Key, Summary>
    var cursor: nat
    var snapshot: nat

    ghost function State(): Client
      reads this
    {
      Client(summaries, cursor, snapshot)
    }

    constructor ()
      ensures State() == BLANK
    {
      summaries, cursor, snapshot := map[], 0, 0;
    }

    method MergeOne(item: Item, provisional: bool) returns (changed: bool)
      modifies this`summaries
      ensures summaries == Merge(old(summaries), item, provisional)
      ensures !changed ==> summaries == old(summaries)
      ensures changed <==>
              item.key !in old(summaries) || old(summaries)[item.key].rev < item.rev
              || (old(summaries)[item.key].rev == item.rev && old(summaries)[item.key].provisional && !provisional)
      ensures changed ==>
                && item.key in summaries && summaries == old(summaries)[item.key := summaries[item.key]]
                && var shown := summaries[item.key];
                   && shown.rev == item.rev && shown.provisional == provisional
                   && if provisional && item.key in old(summaries) && old(summaries)[item.key].at > item.at
                      then shown.at == old(summaries)[item.key].at && shown.body == old(summaries)[item.key].body
                      else shown.at == item.at && shown.body == item.body
    {
      var i := item;
      if i.key in summaries {
        var previous := summaries[i.key];
        if previous.rev > i.rev { return false; }
        if previous.rev == i.rev && !(previous.provisional && !provisional) { return false; }
        if provisional && previous.at > i.at {
          i := Item(i.key, i.rev, previous.at, previous.body);
        }
      }
      summaries := summaries[i.key := Summary(i.rev, i.at, i.body, provisional)];
      changed := true;
    }

    /** poll(), from the answer on. */
    method Poll(answer: Answer) returns (more: bool)
      modifies this
      ensures State() == Receive(old(State()), answer)
      ensures more <==> answer.CursorExpired? || (answer.Served? && answer.page.more)
      ensures answer.Rejected? ==> State() == old(State())
      ensures answer.CursorExpired? ==> summaries == map[] && cursor == 0 && snapshot == 0
      ensures answer.Served? ==> cursor == Max(answer.page.cursor, old(cursor))
                                 && snapshot == if more then answer.page.snapshot else 0
    {
      more := false;
      if answer.CursorExpired? {
        summaries, cursor, snapshot := map[], 0, 0;
        more := true;
      } else if answer.Served? {
        var page := answer.page;
        var n := 0;
        while n < |page.items|
          invariant n <= |page.items|
          invariant summaries == MergeAll(old(summaries), page.items[..n])
          invariant cursor == old(cursor) && snapshot == old(snapshot)
        {
          assert page.items[..n + 1][..n] == page.items[..n];
          var _ := MergeOne(page.items[n], false);
          n := n + 1;
        }
        assert page.items[..n] == page.items;
        if page.cursor >= cursor { cursor := page.cursor; }
        more := page.more;
        snapshot := if more then page.snapshot else 0;
      }
    }
  }
}
