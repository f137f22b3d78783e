/**
 * Which module sends next: each pass goes round the pending modules, starting behind the last one started, and one
 * worker per module runs at a time.
 */
module FairSend {
  import opened Common

  type Id = nat

  const PAUSE := 250    // milliseconds between two starts of a module

  // ---------- The order of a pass ----------

  function Insert(s: seq<Id>, x: Id): seq<Id> {
    if s == [] then [x] else if s[|s| - 1] < x then s + [x] else Insert(s[..|s| - 1], x) + [s[|s| - 1]]
  }

  function Sorted(ids: seq<Id>): seq<Id> {
    if ids == [] then [] else Insert(Sorted(ids[..|ids| - 1]), ids[|ids| - 1])
  }

  /** The first place whose id is above `after`. */
  function Above(s: seq<Id>, after: Id): (k: nat)
    ensures k <= |s|
  {
    if s == [] then 0 else if s[|s| - 1] > after then Above(s[..|s| - 1], after) else |s|
  }

  function Fair(ids: seq<Id>, after: Id): seq<Id> {
    var s := Sorted(ids);
    s[Above(s, after)..] + s[..Above(s, after)]
  }

  predicate Distinct(ids: seq<Id>) { forall i, j :: 0 <= i < j < |ids| ==> ids[i] != ids[j] }

  predicate Ascending(s: seq<Id>) { forall i, j :: 0 <= i < j < |s| ==> s[i] < s[j] }

  /** Going round from c, x comes before y. */
  predicate Before(c: Id, x: Id, y: Id) {
    (c < x && (x < y || y <= c)) || (x <= c && y <= c && x < y)
  }

  predicate GoesRound(order: seq<Id>, c: Id) { forall i, j :: 0 <= i < j < |order| ==> Before(c, order[i], order[j]) }

  lemma {:induction false} InsertKeeps(s: seq<Id>, x: Id)
    ensures multiset(Insert(s, x)) == multiset(s) + multiset{x}
  {
    if s != [] && s[|s| - 1] >= x {
      InsertKeeps(s[..|s| - 1], x);
      assert s == s[..|s| - 1] + [s[|s| - 1]];
    }
  }

  lemma {:induction false} AppendAscends(init: seq<Id>, last: Id)
    requires Ascending(init) && forall y :: y in init ==> y < last
    ensures Ascending(init + [last])
  {
    assert forall i :: 0 <= i < |init| ==> init[i] in init;
  }

  lemma {:induction false} InsertAscends(s: seq<Id>, x: Id)
    requires Ascending(s) && x !in s
    ensures Ascending(Insert(s, x))
  {
    if s != [] {
      var init, last := s[..|s| - 1], s[|s| - 1];
      assert last in s;
      if last < x {
        forall y | y in s ensures y < x { var i :| 0 <= i < |s| && s[i] == y; }
        AppendAscends(s, x);
      } else {
        InsertAscends(init, x);
        InsertKeeps(init, x);
        forall y | y in Insert(init, x) ensures y < last {
          assert y in multiset(Insert(init, x));
          assert y in multiset(init) || y == x;
        }
        AppendAscends(Insert(init, x), last);
      }
    }
  }

  lemma {:induction false} SortedIs(ids: seq<Id>)
    requires Distinct(ids)
    ensures Ascending(Sorted(ids)) && multiset(Sorted(ids)) == multiset(ids)
  {
    hide Insert, Ascending;
    if ids == [] {
      NothingAscends();
    } else {
      var init, last := ids[..|ids| - 1], ids[|ids| - 1];
      SortedIs(init);
      assert ids == init + [last];
      assert last !in init;
      assert last in Sorted(init) ==> last in multiset(Sorted(init));
      InsertAscends(Sorted(init), last);
      InsertKeeps(Sorted(init), last);
    }
  }

  lemma {:induction false} NothingAscends() ensures Ascending([]) {}

  lemma {:induction false} AboveSplits(s: seq<Id>, after: Id)
    requires Ascending(s)
    ensures forall i :: 0 <= i < |s| ==> (s[i] > after <==> i >= Above(s, after))
  {
    if s != [] && s[|s| - 1] > after {
      AboveSplits(s[..|s| - 1], after);
      assert forall i :: 0 <= i < |s| - 1 ==> s[i] == s[..|s| - 1][i];
    }
  }

  lemma {:induction false} RoundOf(s: seq<Id>, after: Id, k: nat)
    requires Ascending(s) && k <= |s| && forall i :: 0 <= i < |s| ==> (s[i] > after <==> i >= k)
    ensures GoesRound(s[k..] + s[..k], after)
  {
    var order, m := s[k..] + s[..k], |s| - k;
    forall i, j | 0 <= i < j < |order| ensures Before(after, order[i], order[j]) {
      var x := if i < m then i + k else i - m;
      var y := if j < m then j + k else j - m;
      assert order[i] == s[x] && order[j] == s[y];
      assert s[x] > after <==> x >= k;
      assert s[y] > after <==> y >= k;
    }
  }

  /** A pass visits every pending module once, in the order of their numbers from the cursor on and round. */
  lemma {:induction false} FairGoesRound(ids: seq<Id>, after: Id)
    requires Distinct(ids)
    ensures multiset(Fair(ids, after)) == multiset(ids) && GoesRound(Fair(ids, after), after)
  {
    hide Sorted, Above, Ascending, GoesRound, Distinct;
    SortedIs(ids);
    var s := Sorted(ids);
    AboveSplits(s, after);
    RoundOf(s, after, Above(s, after));
    assert s == s[..Above(s, after)] + s[Above(s, after)..];
  }

  lemma {:induction false} FairMembers(ids: seq<Id>, after: Id)
    requires Distinct(ids)
    ensures forall x :: x in Fair(ids, after) <==> x in ids
  {
    FairGoesRound(ids, after);
    forall x ensures x in Fair(ids, after) <==> x in ids {
      assert x in multiset(Fair(ids, after)) <==> x in multiset(ids);
    }
  }

  // ---------- One pass over a lane ----------

  /** What is started: the startable modules in order, while slots last. */
  function Starts(order: seq<Id>, startable: set<nat>, slots: nat): seq<Id> {
    if order == [] || slots == 0 then []
    else if order[0] in startable then [order[0]] + Starts(order[1..], startable, slots - 1)
    else Starts(order[1..], startable, slots)
  }

  function Last(started: seq<Id>, cursor: Id): Id { if started == [] then cursor else started[|started| - 1] }

  lemma {:induction false} StartsFrom(order: seq<Id>, startable: set<nat>, slots: nat, c: Id)
    requires GoesRound(order, c)
    ensures forall x :: x in Starts(order, startable, slots) ==> x in order && x in startable
    ensures GoesRound(Starts(order, startable, slots), c)
  {
    if order != [] && slots > 0 {
      var rest := order[1..];
      assert forall i :: 0 <= i < |rest| ==> rest[i] == order[i + 1];
      StartsFrom(rest, startable, if order[0] in startable then slots - 1 else slots, c);
      var tail := Starts(rest, startable, if order[0] in startable then slots - 1 else slots);
      forall x | x in tail ensures Before(c, order[0], x) {
        var i :| 0 <= i < |rest| && rest[i] == x;
        assert Before(c, order[0], order[i + 1]);
      }
    }
  }

  /** Slots only run out: whoever could start and comes before one that started, started too. */
  lemma {:induction false} EarlierStarts(order: seq<Id>, startable: set<nat>, slots: nat, i: nat, j: nat)
    requires i < j < |order| && order[i] in startable && order[j] in Starts(order, startable, slots) && Distinct(order)
    ensures order[i] in Starts(order, startable, slots)
  {
    if slots > 0 {
      var rest := order[1..];
      assert forall k :: 0 <= k < |rest| ==> rest[k] == order[k + 1];
      if i > 0 {
        EarlierStarts(rest, startable, if order[0] in startable then slots - 1 else slots, i - 1, j - 1);
      }
    }
  }

  /** The pass as a whole, in terms of who comes before whom. */
  lemma {:induction false} PassStarts(ids: seq<Id>, startable: set<nat>, slots: nat, c: Id, x: Id, y: Id)
    requires Distinct(ids) && x in ids && x in startable && Before(c, x, y)
    requires y in Starts(Fair(ids, c), startable, slots)
    ensures x in Starts(Fair(ids, c), startable, slots)
  {
    hide Fair;
    var order := Fair(ids, c);
    FairGoesRound(ids, c);
    FairMembers(ids, c);
    StartsFrom(order, startable, slots, c);
    var i :| 0 <= i < |order| && order[i] == x;
    var j :| 0 <= j < |order| && order[j] == y;
    if j < i { assert Before(c, order[j], order[i]); }
    assert Distinct(order) by {
      forall k, l | 0 <= k < l < |order| ensures order[k] != order[l] { assert Before(c, order[k], order[l]); }
    }
    EarlierStarts(order, startable, slots, i, j);
  }

  /** No slot stays free while somebody who may start is left, and nobody else is started. */
  lemma {:induction false} StartsFill(order: seq<Id>, startable: set<nat>, slots: nat)
    ensures forall x :: x in Starts(order, startable, slots) ==> x in order && x in startable
    ensures |Starts(order, startable, slots)| <= slots
    ensures forall x :: x in order && x in startable && x !in Starts(order, startable, slots) ==>
            |Starts(order, startable, slots)| == slots
  {
    if order != [] && slots > 0 {
      var rest, left := order[1..], if order[0] in startable then slots - 1 else slots;
      StartsFill(rest, startable, left);
      assert forall x :: x in order ==> x == order[0] || x in rest;
    }
  }

  /** Everyone started comes before the last one started, or is it. */
  lemma {:induction false} UpToLast(ids: seq<Id>, startable: set<nat>, slots: nat, c: Id, x: Id)
    requires Distinct(ids) && x in Starts(Fair(ids, c), startable, slots)
    ensures var started := Starts(Fair(ids, c), startable, slots);
            Last(started, c) in started && (x == Last(started, c) || Before(c, x, Last(started, c)))
  {
    hide Fair, Starts;
    FairGoesRound(ids, c);
    StartsFrom(Fair(ids, c), startable, slots, c);
    var started := Starts(Fair(ids, c), startable, slots);
    var i :| 0 <= i < |started| && started[i] == x;
    if i < |started| - 1 { assert Before(c, started[i], started[|started| - 1]); }
  }

  // ---------- Fairness over many passes ----------

  /** What one pass finds: the pending modules of the lane, those that may start, and the free slots. */
  datatype Pass = Pass(ids: seq<Id>, startable: set<nat>, slots: nat)

  function StartedIn(p: Pass, c: Id): seq<Id> { Starts(Fair(p.ids, c), p.startable, p.slots) }

  function CursorAfter(p: Pass, c: Id): Id { Last(StartedIn(p, c), c) }

  /** The cursor before pass i. */
  function CursorAt(passes: seq<Pass>, c: Id, i: nat): Id
    requires i <= |passes|
  {
    if i == 0 then c else CursorAfter(passes[i - 1], CursorAt(passes, c, i - 1))
  }

  predicate Waits(p: Pass, b: Id) { Distinct(p.ids) && b in p.ids && b in p.startable }

  /** Where the pass with a's start leaves b, if b was not started behind a: ahead of a in the next round. */
  lemma {:induction false} AfterStart(p: Pass, c: Id, a: Id, b: Id)
    requires Waits(p, b) && a != b && a in StartedIn(p, c)
    requires !(b in StartedIn(p, c) && Before(c, a, b))
    ensures Before(CursorAfter(p, c), b, a)
  {
    hide Starts, Fair;
    UpToLast(p.ids, p.startable, p.slots, c, a);
    var last := CursorAfter(p, c);
    if Before(c, a, b) {
      if Before(c, b, last) { PassStarts(p.ids, p.startable, p.slots, c, b, last); }
    }
  }

  /** A pass that starts neither keeps b ahead of a. */
  lemma {:induction false} StaysAhead(p: Pass, c: Id, a: Id, b: Id)
    requires Waits(p, b) && a != b && Before(c, b, a) && b !in StartedIn(p, c) && a !in StartedIn(p, c)
    ensures Before(CursorAfter(p, c), b, a)
  {
    hide Starts, Fair;
    var last := CursorAfter(p, c);
    if StartedIn(p, c) != [] {
      UpToLast(p.ids, p.startable, p.slots, c, StartedIn(p, c)[0]);
      if Before(c, b, last) { PassStarts(p.ids, p.startable, p.slots, c, b, last); }
    }
  }

  /** b is started in one of the passes between, or behind a in the first, or ahead of a in the last. */
  ghost predicate StartedBetween(passes: seq<Pass>, c: Id, i: nat, j: nat, a: Id, b: Id)
    requires i < j < |passes|
  {
    || (exists k :: i < k < j && b in StartedIn(passes[k], CursorAt(passes, c, k)))
    || (b in StartedIn(passes[i], CursorAt(passes, c, i)) && Before(CursorAt(passes, c, i), a, b))
    || (b in StartedIn(passes[j], CursorAt(passes, c, j)) && Before(CursorAt(passes, c, j), b, a))
  }

  lemma {:induction false} KeepsAhead(passes: seq<Pass>, c: Id, i: nat, k: nat, a: Id, b: Id)
    requires i < k < |passes| && a != b && Before(CursorAt(passes, c, i + 1), b, a)
    requires forall h :: i < h < k ==> Waits(passes[h], b)
    requires forall h :: i < h < k ==> b !in StartedIn(passes[h], CursorAt(passes, c, h))
    requires forall h :: i < h < k ==> a !in StartedIn(passes[h], CursorAt(passes, c, h))
    ensures Before(CursorAt(passes, c, k), b, a)
    decreases k
  {
    hide StartedIn;
    if i + 1 < k {
      KeepsAhead(passes, c, i, k - 1, a, b);
      StaysAhead(passes[k - 1], CursorAt(passes, c, k - 1), a, b);
    }
  }

  /**
   * Between two starts of a module, every other module of its lane that is pending and may start in those passes is
   * started at least once.
   */
  lemma {:induction false} NobodyStartsTwiceFirst(passes: seq<Pass>, c: Id, i: nat, j: nat, a: Id, b: Id)
    requires i < j < |passes| && a != b && forall h :: i <= h <= j ==> Waits(passes[h], b)
    requires a in StartedIn(passes[i], CursorAt(passes, c, i)) && a in StartedIn(passes[j], CursorAt(passes, c, j))
    requires forall h :: i < h < j ==> a !in StartedIn(passes[h], CursorAt(passes, c, h))
    ensures StartedBetween(passes, c, i, j, a, b)
  {
    hide StartedIn;
    if !StartedBetween(passes, c, i, j, a, b) {
      AfterStart(passes[i], CursorAt(passes, c, i), a, b);
      KeepsAhead(passes, c, i, j, a, b);
      LastPass(passes[j], CursorAt(passes, c, j), a, b);
    }
  }

  lemma {:induction false} LastPass(p: Pass, c: Id, a: Id, b: Id)
    requires Waits(p, b) && Before(c, b, a) && a in StartedIn(p, c)
    ensures b in StartedIn(p, c)
  {
    PassStarts(p.ids, p.startable, p.slots, c, b, a);
  }

  // ---------- The dispatcher ----------

  function Startable(ids: seq<Id>, active: set<Id>, sendAfter: map<Id, int>, now: int): set<nat> {
    set id | id in ids && MayStart(id, active, sendAfter, now)
  }

  function Members(ids: seq<Id>): set<Id> { set id | id in ids }

  predicate MayStart(id: Id, active: set<Id>, sendAfter: map<Id, int>, now: int) {
    id !in active && (id in sendAfter ==> now >= sendAfter[id])
  }

  /** After its start a module rests for a quarter of a second. */
  function Paused(sendAfter: map<Id, int>, started: seq<Id>, now: int): (after: map<Id, int>)
    ensures forall id :: id in started ==> id in after && after[id] == now + PAUSE
    ensures forall id :: id !in started ==>
            (id in after <==> id in sendAfter)
            && (id in after ==> after[id] == sendAfter[id])
  {
    map id | id in sendAfter.Keys + Members(started) :: if id in started then now + PAUSE else sendAfter[id]
  }

  /** Only pending modules are remembered. */
  function Of(sendAfter: map<Id, int>, ids: set<Id>): map<Id, int> {
    map id | id in sendAfter && id in ids :: sendAfter[id]
  }

  lemma {:induction false} PausedMore(sendAfter: map<Id, int>, started: seq<Id>, id: Id, now: int)
    ensures Paused(sendAfter, started, now)[id := now + PAUSE] == Paused(sendAfter, started + [id], now)
    ensures Paused(sendAfter, [], now) == sendAfter
  {
  }

  lemma {:induction false} NextStart(order: seq<Id>, startable: set<nat>, slots: nat, i: nat)
    requires i < |order|
    ensures slots == 0 ==> Starts(order[i..], startable, slots) == [] && Starts(order[i + 1..], startable, slots) == []
    ensures slots > 0 && order[i] in startable ==>
              Starts(order[i..], startable, slots) == [order[i]] + Starts(order[i + 1..], startable, slots - 1)
    ensures slots > 0 && order[i] !in startable ==>
              Starts(order[i..], startable, slots) == Starts(order[i + 1..], startable, slots)
  {
    assert order[i..][1..] == order[i + 1..];
  }

  lemma {:induction false} NoStart(startable: set<nat>, slots: nat) ensures Starts([], startable, slots) == [] {}

  lemma {:induction false} NoMembers(sendAfter: map<Id, int>, now: int)
    ensures Members([]) == {} && sendAfter == Paused(sendAfter, [], now)
  {
  }

  /** Before its turn, whether a module may start is still what it was at the beginning of the pass. */
  lemma {:induction false} StillMay(order: seq<Id>, i: nat, before: set<Id>, started: seq<Id>, after: map<Id, int>,
                                    now: int)
    requires Distinct(order) && i < |order| && forall x :: x in started ==> x in order[..i]
    ensures MayStart(order[i], before + Members(started), Paused(after, started, now), now)
            <==> order[i] in Startable(order, before, after, now)
  {
    assert order[i] !in order[..i];
  }

  lemma {:induction false} OneDone(order: seq<Id>, i: nat, was: seq<Id>)
    requires i < |order| && (forall x :: x in was ==> x in order[..i])
    ensures Members(was + [order[i]]) == Members(was) + {order[i]}
    ensures (forall x :: x in was + [order[i]] ==> x in order[..i + 1])
    ensures (forall x :: x in was ==> x in order[..i + 1])
  {
    assert order[..i + 1] == order[..i] + [order[i]];
  }

  /** Only who is in the order matters. */
  lemma {:induction false} SameStarts(order: seq<Id>, a: set<nat>, b: set<nat>, slots: nat)
    requires forall x :: x in order ==> (x in a <==> x in b)
    ensures Starts(order, a, slots) == Starts(order, b, slots)
  {
    if order != [] && slots > 0 {
      assert order[0] in order;
      assert forall x :: x in order[1..] ==> x in order;
      SameStarts(order[1..], a, b, if order[0] in a then slots - 1 else slots);
    }
  }

  class Scheduler {
    const limit: nat
    var active: set<Id>              // the modules whose worker runs
    var sendAfter: map<Id, int>
    var sendCursor: Id
    var replyCursor: Id

    ghost predicate Valid() reads this { |active| <= limit }

    constructor (limit: nat)
      ensures Valid() && active == {} && this.limit == limit
    {
      this.limit := limit;
      active, sendAfter, sendCursor, replyCursor := {}, map[], 0, 0;
    }

    /** A worker ends. */
    method Finish(id: Id)
      requires Valid()
      modifies this`active
      ensures Valid() && active == old(active) - {id}
    {
      ghost var was := active;
      active := active - {id};
      assert was == if id in was then active + {id} else active;
    }

    method Start(id: Id) returns (started: bool)
      requires Valid()
      modifies this`active
      ensures Valid()
      ensures started <==> id !in old(active) && |old(active)| < limit
      ensures active == if started then old(active) + {id} else old(active)
    {
      started := id !in active && |active| < limit;
      if started { active := active + {id}; }
    }

    method TryStart(id: Id, now: int) returns (started: bool)
      requires Valid()
      modifies this`active, this`sendAfter
      ensures Valid()
      ensures started <==> old(MayStart(id, active, sendAfter, now)) && |old(active)| < limit
      ensures started <==> id !in old(active) && (id in old(sendAfter) ==> now >= old(sendAfter)[id])
                           && |old(active)| < limit
      ensures active == if started then old(active) + {id} else old(active)
      ensures |active| == |old(active)| + (if started then 1 else 0)
      ensures sendAfter == if started then old(sendAfter)[id := now + PAUSE] else old(sendAfter)
    {
      started := false;
      if id !in sendAfter || now >= sendAfter[id] {
        started := Start(id);
        if started { sendAfter := sendAfter[id := now + PAUSE]; }
      }
    }

    method RunLane(order: seq<Id>, now: int) returns (started: seq<Id>)
      requires Valid() && Distinct(order)
      modifies this`active, this`sendAfter
      ensures Valid()
      ensures started == Starts(order, Startable(order, old(active), old(sendAfter), now), limit - |old(active)|)
      ensures active == old(active) + Members(started) && |active| == |old(active)| + |started|
      ensures sendAfter == Paused(old(sendAfter), started, now)
    {
      hide Paused, Starts, Startable, Distinct, Members, MayStart;
      started := [];
      NoMembers(sendAfter, now);
      ghost var before, after := active, sendAfter;
      ghost var startable, slots := Startable(order, active, sendAfter, now), limit - |active|;
      assert order[0..] == order && started + Starts(order, startable, slots) == Starts(order, startable, slots);
      for i := 0 to |order|
        invariant Valid() && |active| == |before| + |started|
        invariant started + Starts(order[i..], startable, limit - |active|) == Starts(order, startable, slots)
        invariant active == before + Members(started) && (forall x :: x in started ==> x in order[..i])
        invariant sendAfter == Paused(after, started, now)
      {
        var id := order[i];
        NextStart(order, startable, limit - |active|, i);
        StillMay(order, i, before, started, after, now);
        ghost var was := started;
        var ok := TryStart(id, now);
        if ok { started := started + [id]; }
        OneDone(order, i, was);
        PausedMore(after, was, id, now);
      }
      NoStart(startable, limit - |active|);
      assert order[|order|..] == [] && started + [] == started && order[..|order|] == order;
    }

    /**
     * One pass: replies first, then the rest with the slots that are left; each lane remembers whom it started last.
     */
    method DispatchSends(ids: seq<Id>, priority: seq<Id>, now: int) returns (replies: seq<Id>, others: seq<Id>)
      requires Valid() && Distinct(ids) && Distinct(priority) && forall x :: x in ids ==> x !in priority
      modifies this
      ensures Valid()
      ensures replies == StartedIn(Pass(priority, Startable(priority, old(active), old(sendAfter), now),
              limit - |old(active)|),
                                   old(replyCursor))
      ensures |old(active)| + |replies| <= limit
      ensures others == StartedIn(Pass(ids, Startable(ids, old(active), old(sendAfter), now),
              limit - |old(active)| - |replies|),
                                  old(sendCursor))
      ensures (forall x :: x in replies ==> x in priority) && (forall x :: x in others ==> x in ids)
      ensures forall x :: x in replies || x in others ==>
              x !in old(active) && (x in old(sendAfter) ==> now >= old(sendAfter)[x])
      ensures forall x :: x in priority && x !in old(active) && (x in old(sendAfter) ==> now >= old(sendAfter)[x]) ==>
              x in replies || |old(active)| + |replies| == limit
      ensures forall x :: x in ids && x !in old(active) && (x in old(sendAfter) ==> now >= old(sendAfter)[x]) ==>
              x in others || |old(active)| + |replies| + |others| == limit
      ensures replyCursor == Last(replies, old(replyCursor)) && sendCursor == Last(others, old(sendCursor))
      ensures active == old(active) + Members(replies) + Members(others)
      ensures sendAfter == Of(Paused(Paused(old(sendAfter), replies, now), others, now), Members(ids)
              + Members(priority))
    {
      hide Paused, Fair, Starts, Distinct, Startable, MayStart, GoesRound, Members, Of;
      FairDistinct(priority, replyCursor);
      FairDistinct(ids, sendCursor);
      ghost var before, after := active, sendAfter;
      var first, second := Fair(priority, replyCursor), Fair(ids, sendCursor);
      StartableOrder(first, priority, before, after, now, limit - |active|);
      replies := RunLane(first, now);
      if replies != [] { replyCursor := replies[|replies| - 1]; }
      StartsWithin(first, Startable(priority, before, after, now), limit - |before|);
      OtherLane(second, ids, replies, before, after, now, limit - |active|, first);
      others := RunLane(second, now);
      LaneFills(priority, before, after, now, limit - |before|, old(replyCursor));
      LaneFills(ids, before, after, now, limit - |before| - |replies|, old(sendCursor));
      if others != [] { sendCursor := others[|others| - 1]; }
      sendAfter := Of(sendAfter, Members(ids) + Members(priority));
    }
  }

  /** One lane of a pass: it starts who waits and may start, and leaves nobody out while a slot is free. */
  lemma {:induction false} LaneFills(ids: seq<Id>, active: set<Id>, sendAfter: map<Id, int>, now: int, slots: nat,
                                     c: Id)
    requires Distinct(ids)
    ensures var started := StartedIn(Pass(ids, Startable(ids, active, sendAfter, now), slots), c);
            && |started| <= slots
            && (forall x :: x in started ==> x in ids && x !in active && (x in sendAfter ==> now >= sendAfter[x]))
            && (forall x :: x in ids && x !in active && (x in sendAfter ==> now >= sendAfter[x]) ==>
                  x in started || |started| == slots)
  {
    hide Fair, Starts, Distinct;
    FairMembers(ids, c);
    StartsFill(Fair(ids, c), Startable(ids, active, sendAfter, now), slots);
  }

  lemma {:induction false} StartableOrder(order: seq<Id>, ids: seq<Id>, active: set<Id>, sendAfter: map<Id, int>,
                                          now: int, slots: nat)
    requires forall x :: x in order <==> x in ids
    ensures Starts(order, Startable(order, active, sendAfter, now), slots)
            == Starts(order, Startable(ids, active, sendAfter, now), slots)
  {
    SameStarts(order, Startable(order, active, sendAfter, now), Startable(ids, active, sendAfter, now), slots);
  }

  /** What the first lane started does not concern the second. */
  lemma {:induction false} OtherLane(order: seq<Id>, ids: seq<Id>, started: seq<Id>, before: set<Id>,
                                     after: map<Id, int>, now: int, slots: nat, first: seq<Id>)
    requires (forall x :: x in order <==> x in ids) && (forall x :: x in ids ==> x !in first)
    requires forall x :: x in started ==> x in first
    ensures Starts(order, Startable(order, before + Members(started), Paused(after, started, now), now), slots)
            == Starts(order, Startable(ids, before, after, now), slots)
  {
    SameStarts(order, Startable(order, before + Members(started), Paused(after, started, now), now),
               Startable(ids, before, after, now), slots);
  }

  lemma {:induction false} StartsWithin(order: seq<Id>, startable: set<nat>, slots: nat)
    ensures |Starts(order, startable, slots)| <= slots
    ensures forall x :: x in Starts(order, startable, slots) ==> x in order
  {
    if order != [] && slots > 0 {
      StartsWithin(order[1..], startable, if order[0] in startable then slots - 1 else slots);
    }
  }

  lemma {:induction false} FairDistinct(ids: seq<Id>, after: Id)
    requires Distinct(ids)
    ensures Distinct(Fair(ids, after)) && forall x :: x in Fair(ids, after) <==> x in ids
  {
    FairGoesRound(ids, after);
    FairMembers(ids, after);
    var order := Fair(ids, after);
    forall i, j | 0 <= i < j < |order| ensures order[i] != order[j] { assert Before(after, order[i], order[j]); }
  }
}
