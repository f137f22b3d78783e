/**
 * Admission of developer requests: token buckets refilled only when looked at, swept after two idle minutes, several
 * budgets charged together. Times are nanoseconds of a clock that does not go back; a bucket holds whole units, UNIT of
 * them to a token, so that one nanosecond brings exactly `perMinute` units and nothing is rounded.
 */
module Limiter {
  import opened Common

  type Key = string

  const UNIT := 60 * 1000000000
  const IDLE := 2 * UNIT           // two minutes
  const SWEEP := UNIT              // one minute
  const MAX_BUCKETS := 4096

  /** Every key has one budget for good. */
  datatype Budget = Budget(key: Key, perMinute: nat, burst: nat)
  type Config = Key -> Budget

  datatype Bucket = Bucket(units: int, at: int)
  type Buckets = map<Key, Bucket>

  datatype Outcome = Admitted | Later(delay: int) | Full

  predicate Sane(g: Budget) { g.perMinute >= 1 && g.burst >= 1 }

  /** An idle bucket is full again before it is swept. */
  predicate RefillsInTime(g: Budget) { g.burst <= 2 * g.perMinute }

  function Cap(g: Budget): int { g.burst * UNIT }

  function Refill(b: Bucket, g: Budget, now: int): int { Min(Cap(g), b.units + Max(0, now - b.at) * g.perMinute) }

  /** What a budget holds at a moment; a bucket that is not there is full. */
  function Level(bs: Buckets, g: Budget, now: int): int { if g.key in bs then Refill(bs[g.key], g, now) else Cap(g) }

  /** The budgets in use all refill in time, so sweeping never shows. */
  function TotalBudget(): (g: Budget) ensures Sane(g) && RefillsInTime(g) { Budget("total", 6000, 100) }
  function BulkBudget(): (g: Budget) ensures Sane(g) && RefillsInTime(g) { Budget("bulk-send", 1200, 25) }
  function IngressBudget(): (g: Budget) ensures Sane(g) && RefillsInTime(g) { Budget("ingress", 6000, 100) }
  function PeerBudget(peer: string): (g: Budget) ensures Sane(g) && RefillsInTime(g) {
    Budget("peer:" + peer, 6000, 100)
  }

  function CategoryBudget(post: bool, tail: string): (g: Budget)
    ensures Sane(g) && RefillsInTime(g)
  {
    if post && tail == "/messages" then Budget("send", 1500, 32)
    else if post && tail == "/attachments" then Budget("upload", 300, 4)
    else Budget("read", 3600, 64)
  }

  // ---------- take() ----------

  function Swept(bs: Buckets, sweep: int, now: int): Buckets {
    if now < sweep then bs else map k | k in bs && now - bs[k].at < IDLE :: bs[k]
  }

  /** Time until the bucket holds a token. */
  function Wait(level: int, g: Budget): int
    requires Sane(g)
  {
    if level >= UNIT then 0 else (UNIT - level + g.perMinute - 1) / g.perMinute
  }

  function Longest(bs: Buckets, gs: seq<Budget>, now: int): (d: int)
    requires forall g :: g in gs ==> Sane(g)
    ensures d >= 0
  {
    if gs == [] then 0
    else Max(Longest(bs, gs[..|gs| - 1], now), Wait(Level(bs, gs[|gs| - 1], now), gs[|gs| - 1]))
  }

  function Missing(bs: Buckets, gs: seq<Budget>): nat {
    if gs == [] then 0 else Missing(bs, gs[..|gs| - 1]) + (if gs[|gs| - 1].key in bs then 0 else 1)
  }

  function Charge(bs: Buckets, gs: seq<Budget>, now: int): Buckets {
    if gs == [] then bs
    else Charge(bs, gs[..|gs| - 1], now)[gs[|gs| - 1].key := Bucket(Level(bs, gs[|gs| - 1], now) - UNIT, now)]
  }

  predicate Request(config: Config, gs: seq<Budget>) {
    && (forall i :: 0 <= i < |gs| ==> gs[i] == config(gs[i].key) && Sane(gs[i]))
    && (forall i, j :: 0 <= i < j < |gs| ==> gs[i].key != gs[j].key)
  }

  datatype State = State(buckets: Buckets, sweep: int)

  function Decide(s: State, now: int, gs: seq<Budget>): Outcome
    requires forall g :: g in gs ==> Sane(g)
  {
    var bs := Swept(s.buckets, s.sweep, now);
    if |bs| + Missing(bs, gs) > MAX_BUCKETS then Full
    else if Longest(bs, gs, now) > 0 then Later(Longest(bs, gs, now))
    else Admitted
  }

  function Taken(s: State, now: int, gs: seq<Budget>): State
    requires forall g :: g in gs ==> Sane(g)
  {
    var bs := Swept(s.buckets, s.sweep, now);
    State(if Decide(s, now, gs).Admitted? then Charge(bs, gs, now) else bs, if now < s.sweep then s.sweep
        else now + SWEEP)
  }

  // ---------- Arithmetic ----------

  lemma {:induction false} MulMono(a: int, b: int, n: nat)
    requires a <= b
    ensures a * n <= b * n
  {
  }

  lemma {:induction false} MulSplit(a: int, b: int, n: int)
    ensures (a + b) * n == a * n + b * n
  {
  }

  /** Wait is the exact time: not a nanosecond earlier. */
  lemma {:induction false} WaitExact(level: int, g: Budget, d: int)
    requires Sane(g) && d >= 0
    ensures level + d * g.perMinute >= UNIT <==> d >= Wait(level, g)
  {
    var n := g.perMinute;
    if level < UNIT {
      var need := UNIT - level;
      var w := (need + n - 1) / n;
      assert w * n <= need + n - 1 < w * n + n;
      if d >= w { MulMono(w, d, n); } else { MulMono(d, w - 1, n); MulSplit(w, -1, n); }
    } else {
      MulMono(0, d, n);
    }
  }

  // ---------- Levels ----------

  predicate BucketsInv(bs: Buckets, clock: int) { forall k :: k in bs ==> bs[k].units >= 0 && bs[k].at <= clock }

  lemma {:induction false} LevelBounds(bs: Buckets, g: Budget, clock: int, now: int)
    requires BucketsInv(bs, clock) && clock <= now && Sane(g)
    ensures 0 <= Level(bs, g, now) <= Cap(g)
  {
    if g.key in bs { MulMono(0, now - bs[g.key].at, g.perMinute); }
  }

  /** A level grows by `perMinute` units a nanosecond until it is full. */
  lemma {:induction false} LevelGrows(bs: Buckets, g: Budget, clock: int, now: int, later: int)
    requires BucketsInv(bs, clock) && clock <= now <= later && Sane(g)
    ensures Level(bs, g, later) == Min(Cap(g), Level(bs, g, now) + (later - now) * g.perMinute)
  {
    MulMono(0, later - now, g.perMinute);
    if g.key in bs {
      MulSplit(now - bs[g.key].at, later - now, g.perMinute);
    }
  }

  /** Sweeping changes no level, now or later. */
  lemma {:induction false} SweepKeepsLevel(bs: Buckets, sweep: int, g: Budget, clock: int, now: int, later: int)
    requires BucketsInv(bs, clock) && clock <= now <= later && Sane(g) && RefillsInTime(g)
    ensures Level(Swept(bs, sweep, now), g, later) == Level(bs, g, later)
    ensures BucketsInv(Swept(bs, sweep, now), clock)
  {
    if g.key in bs && g.key !in Swept(bs, sweep, now) {
      MulMono(IDLE, later - bs[g.key].at, g.perMinute);
    }
  }

  /** The condition is needed: a budget with a larger burst gains tokens by being swept. */
  lemma {:induction false} SweepNeedsTime(g: Budget, start: int)
    requires Sane(g) && !RefillsInTime(g)
    ensures var bs := map[g.key := Bucket(0, start)];
            BucketsInv(bs, start)
            && Level(Swept(bs, start, start + IDLE), g, start + IDLE) == Cap(g) > Level(bs, g, start + IDLE)
  {
    assert IDLE * g.perMinute == 2 * g.perMinute * UNIT;
  }

  lemma {:induction false} ChargeAt(bs: Buckets, gs: seq<Budget>, now: int, k: Key)
    requires forall i, j :: 0 <= i < j < |gs| ==> gs[i].key != gs[j].key
    ensures (forall i :: 0 <= i < |gs| ==> gs[i].key != k) ==>
              (k in Charge(bs, gs, now) <==> k in bs) && (k in bs ==> Charge(bs, gs, now)[k] == bs[k])
    ensures forall i :: 0 <= i < |gs| && gs[i].key == k ==>
              k in Charge(bs, gs, now) && Charge(bs, gs, now)[k] == Bucket(Level(bs, gs[i], now) - UNIT, now)
  {
    if gs != [] {
      ChargeAt(bs, gs[..|gs| - 1], now, k);
      forall i | 0 <= i < |gs| && gs[i].key == k
        ensures k in Charge(bs, gs, now) && Charge(bs, gs, now)[k] == Bucket(Level(bs, gs[i], now) - UNIT, now)
      {
        if i < |gs| - 1 { assert gs[..|gs| - 1][i] == gs[i]; }
      }
    }
  }

  predicate Asks(gs: seq<Budget>, k: Key) { exists i :: 0 <= i < |gs| && gs[i].key == k }

  /** A charge takes exactly one token from each budget it names and leaves the others alone. */
  lemma {:induction false} ChargeTakesOne(bs: Buckets, config: Config, gs: seq<Budget>, g: Budget, clock: int,
                                          now: int, later: int)
    requires BucketsInv(bs, clock) && clock <= now <= later && Request(config, gs) && g == config(g.key) && Sane(g)
    ensures Level(Charge(bs, gs, now), g, now) == Level(bs, g, now) - (if Asks(gs, g.key) then UNIT else 0)
    ensures !Asks(gs, g.key) ==> Level(Charge(bs, gs, now), g, later) == Level(bs, g, later)
    ensures Asks(gs, g.key) ==>
              Level(Charge(bs, gs, now), g, later)
                  == Min(Cap(g), Level(bs, g, now) - UNIT + (later - now) * g.perMinute)
  {
    ChargeAt(bs, gs, now, g.key);
    LevelBounds(bs, g, clock, now);
    if Asks(gs, g.key) {
      var i :| 0 <= i < |gs| && gs[i].key == g.key;
      assert gs[i] == g;
      assert Charge(bs, gs, now)[g.key] == Bucket(Level(bs, g, now) - UNIT, now);
    }
  }

  lemma {:induction false} LongestIs(bs: Buckets, gs: seq<Budget>, now: int, i: nat)
    requires i < |gs| && forall g :: g in gs ==> Sane(g)
    ensures Wait(Level(bs, gs[i], now), gs[i]) <= Longest(bs, gs, now)
  {
    if i < |gs| - 1 { LongestIs(bs, gs[..|gs| - 1], now, i); }
  }

  lemma {:induction false} LongestOne(bs: Buckets, gs: seq<Budget>, now: int) returns (i: nat)
    requires forall g :: g in gs ==> Sane(g)
    requires Longest(bs, gs, now) > 0
    ensures i < |gs| && Wait(Level(bs, gs[i], now), gs[i]) == Longest(bs, gs, now)
  {
    i := |gs| - 1;
    if Wait(Level(bs, gs[i], now), gs[i]) != Longest(bs, gs, now) { i := LongestOne(bs, gs[..|gs| - 1], now); }
  }

  lemma {:induction false} ChargeKeepsInv(bs: Buckets, gs: seq<Budget>, clock: int, now: int)
    requires BucketsInv(bs, clock) && clock <= now
    requires forall i :: 0 <= i < |gs| ==> Level(bs, gs[i], now) >= UNIT
    ensures BucketsInv(Charge(bs, gs, now), now)
  {
    if gs != [] { ChargeKeepsInv(bs, gs[..|gs| - 1], clock, now); }
  }

  lemma {:induction false} AdmittedHave(bs: Buckets, gs: seq<Budget>, now: int)
    requires forall g :: g in gs ==> Sane(g)
    ensures Longest(bs, gs, now) == 0 <==> forall i :: 0 <= i < |gs| ==> Level(bs, gs[i], now) >= UNIT
  {
    if Longest(bs, gs, now) == 0 {
      forall i | 0 <= i < |gs| ensures Level(bs, gs[i], now) >= UNIT {
        LongestIs(bs, gs, now, i);
        WaitExact(Level(bs, gs[i], now), gs[i], 0);
      }
    } else {
      var i := LongestOne(bs, gs, now);
    }
  }

  // ---------- Against buckets that are refilled all the time and never swept ----------

  predicate Known(config: Config, g: Budget) { g == config(g.key) && Sane(g) && RefillsInTime(g) }

  /** The two sets of buckets hold the same for every budget from now on. */
  ghost predicate Agree(bs: Buckets, ideal: Buckets, config: Config, clock: int) {
    && BucketsInv(bs, clock) && BucketsInv(ideal, clock)
    && forall g, t :: Known(config, g) && t >= clock ==> Level(bs, g, t) == Level(ideal, g, t)
  }

  predicate IdealAllows(ideal: Buckets, gs: seq<Budget>, now: int) {
    forall i :: 0 <= i < |gs| ==> Level(ideal, gs[i], now) >= UNIT
  }

  predicate KnownRequest(config: Config, gs: seq<Budget>) {
    Request(config, gs) && forall i :: 0 <= i < |gs| ==> Known(config, gs[i])
  }

  lemma {:induction false} RequestSane(config: Config, gs: seq<Budget>)
    requires Request(config, gs)
    ensures forall g :: g in gs ==> Sane(g)
  {
  }

  lemma {:induction false} ChargesAgree(bs: Buckets, ideal: Buckets, config: Config, gs: seq<Budget>, now: int)
    requires Agree(bs, ideal, config, now) && KnownRequest(config, gs) && IdealAllows(bs, gs, now)
    ensures Agree(Charge(bs, gs, now), Charge(ideal, gs, now), config, now)
  {
    forall i | 0 <= i < |gs| ensures Level(ideal, gs[i], now) >= UNIT {
      assert Known(config, gs[i]);
    }
    ChargeKeepsInv(bs, gs, now, now);
    ChargeKeepsInv(ideal, gs, now, now);
    forall g, t | Known(config, g) && t >= now
      ensures Level(Charge(bs, gs, now), g, t) == Level(Charge(ideal, gs, now), g, t)
    {
      ChargeTakesOne(bs, config, gs, g, now, now, t);
      ChargeTakesOne(ideal, config, gs, g, now, now, t);
      assert Level(bs, g, t) == Level(ideal, g, t) && Level(bs, g, now) == Level(ideal, g, now);
    }
  }

  lemma {:induction false} SweepAgrees(bs: Buckets, ideal: Buckets, sweep: int, config: Config, clock: int, now: int)
    requires Agree(bs, ideal, config, clock) && clock <= now
    ensures Agree(Swept(bs, sweep, now), ideal, config, now)
  {
    forall g, t | Known(config, g) && t >= now ensures Level(Swept(bs, sweep, now), g, t) == Level(ideal, g, t) {
      SweepKeepsLevel(bs, sweep, g, clock, now, t);
    }
  }

  /** Apart from the limit on buckets, the decisions are those of the ideal buckets, call after call. */
  lemma {:induction false} TakeRefines(s: State, ideal: Buckets, config: Config, clock: int, now: int, gs: seq<Budget>)
    requires Agree(s.buckets, ideal, config, clock) && clock <= now && KnownRequest(config, gs)
    ensures (forall g :: g in gs ==> Sane(g))
    ensures var room := |Swept(s.buckets, s.sweep, now)| + Missing(Swept(s.buckets, s.sweep, now), gs) <= MAX_BUCKETS;
            && (Decide(s, now, gs).Admitted? <==> IdealAllows(ideal, gs, now) && room)
            && (Decide(s, now, gs).Later? <==> !IdealAllows(ideal, gs, now) && room)
    ensures Agree(Taken(s, now, gs).buckets, if Decide(s, now, gs).Admitted? then Charge(ideal, gs, now)
            else ideal, config, now)
  {
    RequestSane(config, gs);
    var bs := Swept(s.buckets, s.sweep, now);
    SweepAgrees(s.buckets, ideal, s.sweep, config, clock, now);
    AdmittedHave(bs, gs, now);
    forall i | 0 <= i < |gs| ensures Level(bs, gs[i], now) == Level(ideal, gs[i], now) {
      assert Known(config, gs[i]);
    }
    if Decide(s, now, gs).Admitted? { ChargesAgree(bs, ideal, config, gs, now); }
  }

  /** A call that is turned away takes nothing from any budget. */
  lemma {:induction false} RejectionIsFree(s: State, config: Config, clock: int, now: int, gs: seq<Budget>, g: Budget,
                                           later: int)
    requires BucketsInv(s.buckets, clock) && clock <= now <= later && KnownRequest(config, gs) && Known(config, g)
    ensures (forall g :: g in gs ==> Sane(g))
    ensures !Decide(s, now, gs).Admitted? ==> Level(Taken(s, now, gs).buckets, g, later) == Level(s.buckets, g, later)
  {
    RequestSane(config, gs);
    SweepKeepsLevel(s.buckets, s.sweep, g, clock, now, later);
  }

  // ---------- The calls the code makes ----------

  /** The budget of a key; peers share their figures. */
  function InUse(k: Key): Budget {
    if k == "total" then TotalBudget()
    else if k == "bulk-send" then BulkBudget()
    else if k == "ingress" then IngressBudget()
    else if k == "send" then CategoryBudget(true, "/messages")
    else if k == "upload" then CategoryBudget(true, "/attachments")
    else if k == "read" then CategoryBudget(false, k)
    else Budget(k, PeerBudget("").perMinute, PeerBudget("").burst)
  }

  /** What a call of the API, an item of a batch, an inline image and an arriving connection take. */
  function CallBudgets(post: bool, tail: string): seq<Budget> {
    if post && tail == "/messages/batch" then [TotalBudget()] else [TotalBudget(), CategoryBudget(post, tail)]
  }
  function BatchBudgets(): seq<Budget> { [CategoryBudget(true, "/messages"), BulkBudget()] }
  function ImageBudgets(): seq<Budget> { [CategoryBudget(true, "/attachments")] }
  function ArrivalBudgets(peer: string): seq<Budget> { [IngressBudget(), PeerBudget(peer)] }

  /** Every such call names different keys, one budget for each key, all of which refill in time. */
  lemma {:induction false} CallsAreKnown(post: bool, tail: string, peer: string)
    ensures KnownRequest(InUse, CallBudgets(post, tail)) && KnownRequest(InUse, BatchBudgets())
    ensures KnownRequest(InUse, ImageBudgets()) && KnownRequest(InUse, ArrivalBudgets(peer))
  {
    KeysApart(peer);
    var calls, batch, image, arrival := CallBudgets(post, tail), BatchBudgets(), ImageBudgets(), ArrivalBudgets(peer);
    hide PeerBudget;
    assert forall g :: g in calls || g in batch || g in image || g in arrival ==> Known(InUse, g);
  }

  lemma {:induction false} KeysApart(peer: string)
    ensures PeerBudget(peer).key !in {"total", "bulk-send", "ingress", "send", "upload", "read"}
    ensures InUse(PeerBudget(peer).key) == PeerBudget(peer)
  {
    assert PeerBudget(peer).key[0] == 'p';
  }

  // ---------- Retrying ----------

  function KeysOf(gs: seq<Budget>): (keys: set<Key>)
    ensures forall k :: k in keys <==> Asks(gs, k)
  {
    set i | 0 <= i < |gs| :: gs[i].key
  }

  lemma {:induction false} KeysGrow(gs: seq<Budget>)
    requires gs != [] && forall i, j :: 0 <= i < j < |gs| ==> gs[i].key != gs[j].key
    ensures KeysOf(gs) == KeysOf(gs[..|gs| - 1]) + {gs[|gs| - 1].key}
    ensures gs[|gs| - 1].key !in KeysOf(gs[..|gs| - 1])
  {
    var init, last := gs[..|gs| - 1], gs[|gs| - 1].key;
    forall k ensures Asks(gs, k) <==> Asks(init, k) || k == last {
      if Asks(gs, k) && k != last {
        var i :| 0 <= i < |gs| && gs[i].key == k;
        assert init[i].key == k;
      }
      if Asks(init, k) {
        var i :| 0 <= i < |init| && init[i].key == k;
        assert gs[i].key == k;
      }
    }
    forall i | 0 <= i < |init| ensures init[i].key != last {
      assert gs[i].key != gs[|gs| - 1].key;
    }
  }

  lemma {:induction false} NoKeys() ensures KeysOf([]) == {} {}

  lemma {:induction false} OneMoreKey(keys: set<Key>, k: Key, gone: set<Key>)
    requires k !in keys
    ensures |(keys + {k}) * gone| == |keys * gone| + (if k in gone then 1 else 0)
  {
    assert (keys + {k}) * gone == keys * gone + (if k in gone then {k} else {});
  }

  lemma {:induction false} MissingAfterSweep(bs: Buckets, fewer: Buckets, gs: seq<Budget>)
    requires fewer.Keys <= bs.Keys && forall i, j :: 0 <= i < j < |gs| ==> gs[i].key != gs[j].key
    ensures Missing(fewer, gs) == Missing(bs, gs) + |KeysOf(gs) * (bs.Keys - fewer.Keys)|
  {
    hide KeysOf, Asks;
    var gone := bs.Keys - fewer.Keys;
    if gs == [] {
      NoKeys();
    } else {
      var init, last := gs[..|gs| - 1], gs[|gs| - 1].key;
      MissingAfterSweep(bs, fewer, init);
      KeysGrow(gs);
      OneMoreKey(KeysOf(init), last, gone);
    }
  }

  /** Sweeping frees at least the places that the swept budgets will need again. */
  lemma {:induction false} SweepMakesRoom(bs: Buckets, fewer: Buckets, gs: seq<Budget>)
    requires fewer.Keys <= bs.Keys && forall i, j :: 0 <= i < j < |gs| ==> gs[i].key != gs[j].key
    ensures |fewer| + Missing(fewer, gs) <= |bs| + Missing(bs, gs)
  {
    MissingAfterSweep(bs, fewer, gs);
    var gone := bs.Keys - fewer.Keys;
    SubsetSize(KeysOf(gs) * gone, gone);
    assert bs.Keys == fewer.Keys + gone;
    assert |bs| == |bs.Keys| && |fewer| == |fewer.Keys|;
  }

  lemma {:induction false} SubsetSize<T>(a: set<T>, b: set<T>)
    requires a <= b
    ensures |a| <= |b|
  {
    assert b == a + (b - a);
  }

  /** Enough after `pause` in every budget exactly if `pause` is at least the longest wait. */
  lemma {:induction false} LongestExact(bs: Buckets, config: Config, gs: seq<Budget>, now: int, pause: int)
    requires BucketsInv(bs, now) && pause >= 0 && KnownRequest(config, gs)
    ensures (forall g :: g in gs ==> Sane(g))
    ensures IdealAllows(bs, gs, now + pause) <==> pause >= Longest(bs, gs, now)
  {
    RequestSane(config, gs);
    forall i | 0 <= i < |gs|
      ensures Level(bs, gs[i], now + pause) >= UNIT <==> pause >= Wait(Level(bs, gs[i], now), gs[i])
    {
      assert Known(config, gs[i]);
      LevelGrows(bs, gs[i], now, now, now + pause);
      WaitExact(Level(bs, gs[i], now), gs[i], pause);
      MulMono(1, gs[i].burst, UNIT);
    }
    forall i | 0 <= i < |gs| ensures Wait(Level(bs, gs[i], now), gs[i]) <= Longest(bs, gs, now) {
      LongestIs(bs, gs, now, i);
    }
    if Longest(bs, gs, now) > 0 { var i := LongestOne(bs, gs, now); }
  }

  /** A lone retry succeeds after the delay that was returned, and not before. */
  lemma {:induction false} RetryExact(s: State, config: Config, clock: int, now: int, gs: seq<Budget>, pause: int)
    requires BucketsInv(s.buckets, clock) && clock <= now && KnownRequest(config, gs) && pause >= 0
    requires forall g :: g in gs ==> Sane(g)
    requires Decide(s, now, gs).Later?
    ensures Decide(Taken(s, now, gs), now + pause, gs).Admitted? <==> pause >= Decide(s, now, gs).delay
  {
    var bs := Swept(s.buckets, s.sweep, now);
    assert Taken(s, now, gs).buckets == bs && BucketsInv(bs, now);
    LongestExact(bs, config, gs, now, pause);
    RoomAgain(bs, config, Taken(s, now, gs).sweep, now, pause, gs);
  }

  /** With room on the first call, a second one is decided by the levels alone. */
  lemma {:induction false} RoomAgain(bs: Buckets, config: Config, sweep: int, now: int, pause: int, gs: seq<Budget>)
    requires BucketsInv(bs, now) && pause >= 0 && KnownRequest(config, gs) && |bs| + Missing(bs, gs) <= MAX_BUCKETS
    requires forall g :: g in gs ==> Sane(g)
    ensures Decide(State(bs, sweep), now + pause, gs).Admitted? <==> IdealAllows(bs, gs, now + pause)
  {
    hide Missing, Longest;
    var again := Swept(bs, sweep, now + pause);
    SweepMakesRoom(bs, again, gs);
    forall i | 0 <= i < |gs| ensures Level(again, gs[i], now + pause) == Level(bs, gs[i], now + pause) {
      assert Known(config, gs[i]);
      SweepKeepsLevel(bs, sweep, gs[i], now, now + pause, now + pause);
    }
    AdmittedHave(again, gs, now + pause);
  }

  // ---------- Admissions over a run ----------

  datatype Call = Call(now: int, gs: seq<Budget>)

  /** Calls in order of time, each with proper budgets. */
  predicate Calls(config: Config, cs: seq<Call>, clock: int) {
    && (forall i :: 0 <= i < |cs| ==> KnownRequest(config, cs[i].gs) && clock <= cs[i].now)
    && (forall i, j :: 0 <= i < j < |cs| ==> cs[i].now <= cs[j].now)
  }

  lemma {:induction false} CallSane(config: Config, cs: seq<Call>, clock: int)
    requires Calls(config, cs, clock) && cs != []
    ensures forall g :: g in cs[0].gs ==> Sane(g)
    ensures Calls(config, cs[1..], cs[0].now)
  {
    RequestSane(config, cs[0].gs);
  }

  /** How many of the calls get a token from the budget. */
  ghost function Granted(s: State, config: Config, cs: seq<Call>, clock: int, k: Key): nat
    requires Calls(config, cs, clock)
    decreases |cs|
  {
    if cs == [] then 0
    else
      CallSane(config, cs, clock);
      var c := cs[0];
      (if Decide(s, c.now, c.gs).Admitted? && Asks(c.gs, k) then 1 else 0)
      + Granted(Taken(s, c.now, c.gs), config, cs[1..], c.now, k)
  }

  lemma {:induction false} TakeKeepsInv(s: State, config: Config, clock: int, now: int, gs: seq<Budget>)
    requires BucketsInv(s.buckets, clock) && clock <= now && KnownRequest(config, gs)
    ensures (forall g :: g in gs ==> Sane(g))
    ensures BucketsInv(Taken(s, now, gs).buckets, now)
  {
    RequestSane(config, gs);
    var bs := Swept(s.buckets, s.sweep, now);
    AdmittedHave(bs, gs, now);
    if Decide(s, now, gs).Admitted? { ChargeKeepsInv(bs, gs, clock, now); }
  }

  /** What a call leaves in a budget: one token less if it was admitted and asked for it. */
  lemma {:induction false} TakeLevel(s: State, config: Config, clock: int, now: int, gs: seq<Budget>, g: Budget)
    requires BucketsInv(s.buckets, clock) && clock <= now && KnownRequest(config, gs) && Known(config, g)
    ensures (forall g :: g in gs ==> Sane(g))
    ensures Level(Taken(s, now, gs).buckets, g, now) ==
            Level(s.buckets, g, now) - (if Decide(s, now, gs).Admitted? && Asks(gs, g.key) then UNIT else 0)
  {
    RequestSane(config, gs);
    SweepKeepsLevel(s.buckets, s.sweep, g, clock, now, now);
    if Decide(s, now, gs).Admitted? {
      ChargeTakesOne(Swept(s.buckets, s.sweep, now), config, gs, g, clock, now, now);
    }
  }

  lemma {:induction false} GrantedWithin(s: State, config: Config, cs: seq<Call>, clock: int, g: Budget, from: int,
                                         to: int)
    requires Calls(config, cs, clock) && BucketsInv(s.buckets, clock) && clock <= from && Known(config, g)
    requires forall i :: 0 <= i < |cs| ==> from <= cs[i].now <= to
    requires from <= to
    ensures Granted(s, config, cs, clock, g.key) * UNIT <= Level(s.buckets, g, from) + (to - from) * g.perMinute
    decreases |cs|
  {
    hide Level, Decide, Taken, Asks, Cap, Known, KnownRequest;
    if cs == [] {
      GrownLevel(s.buckets, config, g, clock, from, from);
      MulMono(0, to - from, g.perMinute);
    } else {
      var c := cs[0];
      CallSane(config, cs, clock);
      var t := Taken(s, c.now, c.gs);
      TakeKeepsInv(s, config, clock, c.now, c.gs);
      TakeLevel(s, config, clock, c.now, c.gs, g);
      GrantedWithin(t, config, cs[1..], c.now, g, c.now, to);
      GrownLevel(s.buckets, config, g, clock, from, c.now);
      MulSplit(c.now - from, to - c.now, g.perMinute);
      assert (c.now - from) + (to - c.now) == to - from;
      Sum(Granted(s, config, cs, clock, g.key), Granted(t, config, cs[1..], c.now, g.key),
          Decide(s, c.now, c.gs).Admitted? && Asks(c.gs, g.key), Level(s.buckets, g, from), Level(s.buckets, g, c.now),
          Level(t.buckets, g, c.now), (c.now - from) * g.perMinute, (to - c.now) * g.perMinute);
    }
  }

  lemma {:induction false} GrownLevel(bs: Buckets, config: Config, g: Budget, clock: int, from: int, now: int)
    requires BucketsInv(bs, clock) && clock <= from <= now && Known(config, g)
    ensures 0 <= Level(bs, g, from) && Level(bs, g, now) <= Level(bs, g, from) + (now - from) * g.perMinute
  {
    LevelBounds(bs, g, clock, from);
    LevelGrows(bs, g, clock, from, now);
  }

  lemma {:induction false} Sum(all: nat, rest: nat, one: bool, start: int, now: int, left: int, before: int, after: int)
    requires all == (if one then 1 else 0) + rest && rest * UNIT <= left + after
    requires now <= start + before && left == now - (if one then UNIT else 0)
    ensures all * UNIT <= start + (before + after)
  {
  }

  /** From any state, in any window: at most the burst and what the rate brings. */
  lemma {:induction false} AdmissionsBounded(s: State, config: Config, cs: seq<Call>, clock: int, g: Budget,
                                             window: nat)
    requires Calls(config, cs, clock) && BucketsInv(s.buckets, clock) && Known(config, g) && cs != []
    requires cs[|cs| - 1].now - cs[0].now <= window
    ensures Granted(s, config, cs, clock, g.key) * UNIT <= g.burst * UNIT + window * g.perMinute
  {
    GrantedWithin(s, config, cs, clock, g, cs[0].now, cs[0].now + window);
    LevelBounds(s.buckets, g, clock, cs[0].now);
  }

  // ---------- The admission object ----------

  datatype Work = Plain | Upload | Image | Bulk

  const MAX_ACTIVE := 16
  const MAX_UPLOADS := 4
  const MAX_BATCHES := 4

  /** Work entered and not yet released; each release counts once. */
  function Doing(open: map<nat, Work>, kinds: set<Work>): set<nat> { set t | t in open && open[t] in kinds }
  function Active(open: map<nat, Work>): set<nat> { Doing(open, {Plain, Upload}) }
  function Uploads(open: map<nat, Work>): set<nat> { Doing(open, {Upload, Image}) }
  function Batches(open: map<nat, Work>): set<nat> { Doing(open, {Bulk}) }

  class Admission {
    var buckets: Buckets
    var sweep: int
    var active: int
    var uploads: int
    var batches: int
    var open: map<nat, Work>
    var next: nat

    ghost function Now(): State reads this { State(buckets, sweep) }

    /** The counters are the work in hand, and never beyond the limits. */
    ghost predicate Counted() reads this {
      && (forall t :: t in open ==> t < next)
      && active == |Active(open)| <= MAX_ACTIVE && uploads == |Uploads(open)| <= MAX_UPLOADS
      && batches == |Batches(open)| <= MAX_BATCHES
    }

    constructor ()
      ensures Counted() && open == map[] && buckets == map[]
    {
      buckets, sweep, active, uploads, batches, open, next := map[], 0, 0, 0, 0, map[], 0;
    }

    method Sweep(now: int)
      modifies this`buckets, this`sweep
      ensures buckets == Swept(old(buckets), old(sweep), now)
      ensures sweep == if now < old(sweep) then old(sweep) else now + SWEEP
    {
      if now < sweep { return; }
      var todo := buckets.Keys;
      while todo != {}
        invariant todo <= buckets.Keys <= old(buckets).Keys
        invariant forall k :: k in buckets ==> buckets[k] == old(buckets)[k]
        invariant forall k :: k in old(buckets) && k !in todo ==> (k in buckets <==> now - old(buckets)[k].at < IDLE)
      {
        var k :| k in todo;
        todo := todo - {k};
        if now - buckets[k].at >= IDLE { buckets := buckets - {k}; }
      }
      sweep := now + SWEEP;
    }

    /** The refilled bucket of every budget, the longest wait, and how many buckets would be new. */
    method Refresh(now: int, gs: seq<Budget>) returns (nexts: seq<Bucket>, retry: int, missing: int)
      requires forall g :: g in gs ==> Sane(g)
      ensures |nexts| == |gs| && forall j :: 0 <= j < |gs| ==> nexts[j] == Bucket(Level(buckets, gs[j], now), now)
      ensures retry == Longest(buckets, gs, now) && missing == Missing(buckets, gs)
    {
      nexts, retry, missing := [], 0, 0;
      for i := 0 to |gs|
        invariant |nexts| == i && forall j :: 0 <= j < i ==> nexts[j] == Bucket(Level(buckets, gs[j], now), now)
        invariant retry == Longest(buckets, gs[..i], now) && missing == Missing(buckets, gs[..i])
      {
        assert gs[..i + 1][..i] == gs[..i];
        var g := gs[i];
        assert Sane(g);
        var b := Bucket(Cap(g), now);
        if g.key in buckets { b := buckets[g.key]; } else { missing := missing + 1; }
        b := Bucket(Min(Cap(g), b.units + Max(0, now - b.at) * g.perMinute), now);
        assert b.units == Level(buckets, g, now) by { assert 0 * g.perMinute == 0; }
        hide Level, Sane, Missing;
        nexts := nexts + [b];
        var wait := Delay(b.units, g);
        retry := Max(retry, wait);
      }
      assert gs[..|gs|] == gs;
    }

    static method Delay(units: int, g: Budget) returns (wait: int)
      requires Sane(g)
      ensures wait == Wait(units, g)
    {
      wait := 0;
      if units < UNIT { wait := (UNIT - units + g.perMinute - 1) / g.perMinute; }
    }

    method Spend(now: int, gs: seq<Budget>, nexts: seq<Bucket>)
      requires |nexts| == |gs| && forall j :: 0 <= j < |gs| ==> nexts[j] == Bucket(Level(buckets, gs[j], now), now)
      modifies this`buckets
      ensures buckets == Charge(old(buckets), gs, now)
    {
      hide Level;
      for i := 0 to |gs|
        invariant buckets == Charge(old(buckets), gs[..i], now)
      {
        assert gs[..i + 1][..i] == gs[..i];
        buckets := buckets[gs[i].key := Bucket(nexts[i].units - UNIT, now)];
      }
      assert gs[..|gs|] == gs;
    }

    /** Charges all budgets together, or none. */
    method Take(now: int, gs: seq<Budget>) returns (outcome: Outcome)
      requires forall g :: g in gs ==> Sane(g)
      modifies this`buckets, this`sweep
      ensures outcome == Decide(old(Now()), now, gs) && Now() == Taken(old(Now()), now, gs)
    {
      hide Level, Longest, Missing, Charge, Swept;
      Sweep(now);
      var nexts, retry, missing := Refresh(now, gs);
      if |buckets| + missing > MAX_BUCKETS { return Full; }
      if retry > 0 { return Later(retry); }
      Spend(now, gs, nexts);
      outcome := Admitted;
    }

    /** Opens a slot, or nothing when one of its limits is reached. */
    method Open(work: Work) returns (ticket: Option<nat>)
      requires Counted()
      modifies this`active, this`uploads, this`batches, this`open, this`next
      ensures Counted()
      ensures ticket.None? <==>
                match old(open) case held =>
                  match work
                  case Plain => |Active(held)| >= MAX_ACTIVE
                  case Upload => |Active(held)| >= MAX_ACTIVE || |Uploads(held)| >= MAX_UPLOADS
                  case Image => |Uploads(held)| >= MAX_UPLOADS
                  case Bulk => |Batches(held)| >= MAX_BATCHES
      ensures ticket.None? ==> open == old(open)
      ensures ticket.Some? ==> ticket.value !in old(open) && open == old(open)[ticket.value := work]
    {
      var entering, sending := work.Plain? || work.Upload?, work.Upload? || work.Image?;
      if entering && active >= MAX_ACTIVE { return None; }
      if sending && uploads >= MAX_UPLOADS { return None; }
      if work.Bulk? && batches >= MAX_BATCHES { return None; }
      ghost var before := open;
      if entering { active := active + 1; }
      if sending { uploads := uploads + 1; }
      if work.Bulk? { batches := batches + 1; }
      open := open[next := work];
      OpenCounts(before, next, work);
      ticket, next := Some(next), next + 1;
    }

    /** Ends the work; ending it again changes nothing. */
    method Release(ticket: nat)
      requires Counted()
      modifies this`active, this`uploads, this`batches, this`open
      ensures Counted() && open == old(open) - {ticket}
    {
      if ticket !in open { assert open == open - {ticket}; return; }
      var work := open[ticket];
      OpenCounts(open - {ticket}, ticket, work);
      assert (open - {ticket})[ticket := work] == open;
      if work.Plain? || work.Upload? { active := active - 1; }
      if work.Upload? || work.Image? { uploads := uploads - 1; }
      if work.Bulk? { batches := batches - 1; }
      open := open - {ticket};
    }
  }

  lemma {:induction false} DoingMore(open: map<nat, Work>, t: nat, work: Work, kinds: set<Work>)
    requires t !in open
    ensures |Doing(open[t := work], kinds)| == |Doing(open, kinds)| + (if work in kinds then 1 else 0)
  {
    assert Doing(open[t := work], kinds) == Doing(open, kinds) + (if work in kinds then {t} else {});
  }

  lemma {:induction false} OpenCounts(open: map<nat, Work>, t: nat, work: Work)
    requires t !in open
    ensures |Active(open[t := work])| == |Active(open)| + (if work.Plain? || work.Upload? then 1 else 0)
    ensures |Uploads(open[t := work])| == |Uploads(open)| + (if work.Upload? || work.Image? then 1 else 0)
    ensures |Batches(open[t := work])| == |Batches(open)| + (if work.Bulk? then 1 else 0)
  {
    DoingMore(open, t, work, {Plain, Upload});
    DoingMore(open, t, work, {Upload, Image});
    DoingMore(open, t, work, {Bulk});
  }
}
