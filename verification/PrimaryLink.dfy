/**
 * Which physical link the host uses: the preferred one whenever it is connected, another only after it has been away
 * for a while and the other has been probed; and the tables, marks and tunnel addresses that networks are given.
 */
module PrimaryLink {
  import opened Common
  import FairSend

  type Key = nat

  const FALLBACK_DELAY := 5
  const PROBE_INTERVAL := 15
  const WORKERS := 4
  const MAX_SLOTS := 200

  // ---------- Slots and what is derived from them ----------

  const HOST_TABLE := 0x5a000001
  const PROBE_MARK := 0x5a0f0001

  datatype Network = Network(slot: nat, configured: bool)

  /** Tables double as marks; an IPv4 tunnel is the four addresses from 198.18.slot.0. */
  function Direct(slot: nat): nat { 0x5a100000 + slot }
  function Vpn(slot: nat): nat { 0x5a200000 + slot }
  function TunnelBase(slot: nat): nat { ((198 * 256 + 18) * 256 + slot) * 256 }

  const EIGHTY := 0x1_0000_0000_0000_0000_0000
  const SITE := 0xfd9a_7279

  /** An IPv6 tunnel is the four addresses from fd9a:7279:slot:: on. */
  function TunnelBase6(slot: nat): nat { (SITE * 0x10000 + slot) * EIGHTY }

  predicate Overlap(a: nat, b: nat) { a < b + 4 && b < a + 4 }

  /** Slots are handed out once each, from 1. */
  ghost predicate Slotted(networks: map<Key, Network>) {
    && (forall k :: k in networks ==> 1 <= networks[k].slot <= |networks| && networks[k].slot <= MAX_SLOTS)
    && (forall k, l :: k in networks && l in networks && k != l ==> networks[k].slot != networks[l].slot)
  }

  /** One network of an inventory: known ones keep their slot, new ones get the next while there are slots left. */
  function Listed(networks: map<Key, Network>, k: Key): map<Key, Network> {
    if k in networks then networks[k := networks[k].(configured := true)]
    else if |networks| + 1 > MAX_SLOTS then networks
    else networks[k := Network(|networks| + 1, true)]
  }

  lemma {:induction false} MapSize(m: map<Key, Network>, k: Key, n: Network)
    ensures |m[k := n]| == |m| + (if k in m then 0 else 1)
  {
    assert m[k := n].Keys == m.Keys + {k};
    assert |m[k := n]| == |m[k := n].Keys| && |m| == |m.Keys|;
  }

  lemma {:induction false} ListedSize(networks: map<Key, Network>, k: Key)
    ensures |Listed(networks, k)| == |networks| + (if k !in networks && |networks| < MAX_SLOTS then 1 else 0)
    ensures forall l :: l in networks ==> l in Listed(networks, k)
    ensures k in Listed(networks, k) || |networks| >= MAX_SLOTS
  {
    if k in networks {
      MapSize(networks, k, networks[k].(configured := true));
    } else {
      MapSize(networks, k, Network(|networks| + 1, true));
    }
  }

  /** The next slot is above all that are taken. */
  lemma {:induction false} AddedSlot(networks: map<Key, Network>, k: Key)
    requires Slotted(networks) && k !in networks && |networks| < MAX_SLOTS
    ensures Slotted(networks[k := Network(|networks| + 1, true)])
  {
    MapSize(networks, k, Network(|networks| + 1, true));
  }

  lemma {:induction false} RelistedSlot(networks: map<Key, Network>, k: Key)
    requires Slotted(networks) && k in networks
    ensures Slotted(networks[k := networks[k].(configured := true)])
  {
    MapSize(networks, k, networks[k].(configured := true));
  }

  lemma {:induction false} ListedSlots(networks: map<Key, Network>, k: Key)
    requires Slotted(networks)
    ensures Slotted(Listed(networks, k))
    ensures forall l :: l in networks ==> l in Listed(networks, k) && Listed(networks, k)[l].slot == networks[l].slot
  {
    hide Slotted;
    if k in networks { RelistedSlot(networks, k); } else if |networks| < MAX_SLOTS { AddedSlot(networks, k); }
  }

  /** Adds the configured networks of an inventory. */
  method Inventory(networks: map<Key, Network>, source: seq<(Key, bool)>) returns (after: map<Key, Network>)
    requires Slotted(networks)
    ensures Slotted(after)
    ensures forall k :: k in networks ==> k in after && after[k].slot == networks[k].slot
    ensures forall i :: 0 <= i < |source| && source[i].1 ==> source[i].0 in after || |after| >= MAX_SLOTS
  {
    hide Slotted, Listed;
    after := networks;
    for i := 0 to |source|
      invariant Slotted(after)
      invariant forall k :: k in networks ==> k in after && after[k].slot == networks[k].slot
      invariant forall j :: 0 <= j < i && source[j].1 ==> source[j].0 in after || |after| >= MAX_SLOTS
    {
      if source[i].1 {
        ListedSlots(after, source[i].0);
        ListedSize(after, source[i].0);
        after := Listed(after, source[i].0);
      }
    }
  }

  /** Distinct networks never share a table, a mark or a tunnel address, nor use the host's. */
  lemma {:induction false} ResourcesApart(networks: map<Key, Network>, k: Key, l: Key)
    requires Slotted(networks) && k in networks && l in networks
    ensures Direct(networks[k].slot) != Vpn(networks[l].slot)
    ensures HOST_TABLE !in {Direct(networks[k].slot), Vpn(networks[k].slot)}
    ensures PROBE_MARK !in {Direct(networks[k].slot), Vpn(networks[k].slot)}
    ensures k != l ==>
            Direct(networks[k].slot) != Direct(networks[l].slot)
            && Vpn(networks[k].slot) != Vpn(networks[l].slot)
    ensures k != l ==> !Overlap(TunnelBase(networks[k].slot), TunnelBase(networks[l].slot))
    ensures k != l ==> !Overlap(TunnelBase6(networks[k].slot), TunnelBase6(networks[l].slot))
    ensures TunnelBase(networks[k].slot) / 0x10000 == 198 * 256 + 18
    ensures TunnelBase6(networks[k].slot) / (0x10000 * EIGHTY) == SITE
  {
  }

  // ---------- Candidates ----------

  datatype Link = Link(connected: bool, online: bool)

  function Online(links: map<Key, Link>, keys: seq<Key>, without: Key): seq<Key> {
    if keys == [] then []
    else
      var rest := Online(links, keys[..|keys| - 1], without);
      var k := keys[|keys| - 1];
      if k != without && k in links && links[k].online then rest + [k] else rest
  }

  /** The links to try instead, the system's own first. */
  function Candidates(links: map<Key, Link>, keys: seq<Key>, preferred: Key, system: Key): seq<Key> {
    var online := Online(links, keys, preferred);
    var others := FairSend.Sorted(online);
    if system in online then [system] + Without(others, system) else others
  }

  function Without(keys: seq<Key>, k: Key): seq<Key> {
    if keys == [] then []
    else if keys[|keys| - 1] == k then Without(keys[..|keys| - 1], k)
    else Without(keys[..|keys| - 1], k) + [keys[|keys| - 1]]
  }

  lemma {:induction false} OnlineIs(links: map<Key, Link>, keys: seq<Key>, without: Key)
    requires FairSend.Distinct(keys)
    ensures FairSend.Distinct(Online(links, keys, without))
    ensures forall k :: k in Online(links, keys, without) <==>
            k in keys && k != without && k in links
            && links[k].online
  {
    if keys != [] {
      var init := keys[..|keys| - 1];
      OnlineIs(links, init, without);
      assert keys == init + [keys[|keys| - 1]];
      assert keys[|keys| - 1] !in init;
    }
  }

  lemma {:induction false} WithoutIs(keys: seq<Key>, k: Key)
    ensures forall l :: l in Without(keys, k) <==> l in keys && l != k
  {
    if keys != [] {
      WithoutIs(keys[..|keys| - 1], k);
      assert keys == keys[..|keys| - 1] + [keys[|keys| - 1]];
    }
  }

  /** Exactly the other links that are online. */
  lemma {:induction false} CandidatesAre(links: map<Key, Link>, keys: seq<Key>, preferred: Key, system: Key)
    requires FairSend.Distinct(keys)
    ensures forall k :: k in Candidates(links, keys, preferred, system) <==>
            k in keys && k != preferred && k in links
            && links[k].online
    ensures system in Candidates(links, keys, preferred, system) ==>
            Candidates(links, keys, preferred, system)[0] == system
  {
    OnlineIs(links, keys, preferred);
    var online := Online(links, keys, preferred);
    FairSend.SortedIs(online);
    var sorted := FairSend.Sorted(online);
    forall k ensures k in sorted <==> k in online { assert k in multiset(sorted) <==> k in multiset(online); }
    WithoutIs(sorted, system);
  }

  // ---------- Probing in turns ----------

  /** The places probed in a round that starts at `start`: up to four, going round. */
  function Batch<T>(items: seq<T>, start: nat): seq<T>
    requires start < |items|
  {
    var turned := items[start..] + items[..start];
    turned[..Min(WORKERS, |items|)]
  }

  function NextStart(start: nat, n: nat): (next: nat)
    requires start < n
    ensures next < n
  {
    (start + Min(WORKERS, n)) % n
  }

  /** Where the round after `rounds` others starts, the candidates staying the same. */
  function StartAfter(start: nat, n: nat, rounds: nat): (s: nat)
    requires start < n
    ensures s < n
    decreases rounds
  {
    if rounds == 0 then start else StartAfter(NextStart(start, n), n, rounds - 1)
  }

  /** How far ahead of the start a place is, going round. */
  function Ahead(start: nat, at: nat, n: nat): nat
    requires start < n && at < n
  {
    if at >= start then at - start else at + n - start
  }

  lemma {:induction false} ProbedNow<T>(items: seq<T>, start: nat, at: nat)
    requires start < |items| && at < |items| && Ahead(start, at, |items|) < WORKERS
    ensures items[at] in Batch(items, start)
  {
    var turned := items[start..] + items[..start];
    assert turned[Ahead(start, at, |items|)] == items[at];
    assert Batch(items, start)[Ahead(start, at, |items|)] == items[at];
  }

  lemma {:induction false} ModOnce(x: nat, n: nat)
    requires 0 < n && x < 2 * n
    ensures x % n == if x < n then x else x - n
  {
    if x >= n { assert x / n == 1; }
  }

  lemma {:induction false} NextIsCloser(start: nat, at: nat, n: nat)
    requires start < n && at < n && Ahead(start, at, n) >= WORKERS
    ensures Ahead(NextStart(start, n), at, n) == Ahead(start, at, n) - WORKERS
  {
    ModOnce(start + WORKERS, n);
  }

  /** With the same candidates, each is probed within as many rounds as four of them fit into the list, rounded up. */
  lemma {:induction false} EveryCandidateProbed<T>(items: seq<T>, start: nat, at: nat) returns (round: nat)
    requires start < |items| && at < |items|
    ensures WORKERS * round <= Ahead(start, at, |items|) && round < (|items| + WORKERS - 1) / WORKERS
    ensures items[at] in Batch(items, StartAfter(start, |items|, round))
    decreases Ahead(start, at, |items|)
  {
    var n := |items|;
    if Ahead(start, at, n) < WORKERS {
      ProbedNow(items, start, at);
      round := 0;
    } else {
      NextIsCloser(start, at, n);
      round := EveryCandidateProbed(items, NextStart(start, n), at);
      round := round + 1;
    }
  }

  // ---------- The choice ----------

  /** The first of the probed links that answered and is still online. */
  function FirstReady(batch: seq<Key>, reach: Key -> bool, latest: map<Key, Link>): (chosen: Option<Key>)
    ensures chosen.Some? ==> chosen.value in batch && Ready(chosen.value, reach, latest)
    ensures chosen.None? ==> forall k :: k in batch ==> !Ready(k, reach, latest)
    ensures chosen.Some? ==> exists i :: 0 <= i < |batch| && batch[i] == chosen.value
                                         && forall j :: 0 <= j < i ==> !Ready(batch[j], reach, latest)
  {
    if batch == [] then None
    else if Ready(batch[0], reach, latest) then Some(batch[0])
    else
      var later := FirstReady(batch[1..], reach, latest);
      assert forall j :: 0 < j < |batch| ==> batch[1..][j - 1] == batch[j];
      assert later.Some? ==> exists i :: 0 <= i < |batch| && batch[i] == later.value
                                         && forall j :: 0 <= j < i ==> !Ready(batch[j], reach, latest) by {
        if later.Some? {
          var i :| 0 <= i < |batch[1..]| && batch[1..][i] == later.value
                   && forall j :: 0 <= j < i ==> !Ready(batch[1..][j], reach, latest);
          forall j | 0 <= j < i + 1 ensures !Ready(batch[j], reach, latest) {
            if j > 0 { assert batch[1..][j - 1] == batch[j]; }
          }
          assert batch[i + 1] == later.value;
        }
      }
      later
  }

  predicate Ready(k: Key, reach: Key -> bool, latest: map<Key, Link>) { reach(k) && k in latest && latest[k].online }

  /** What one look at the links finds. */
  datatype View = View(links: map<Key, Link>, keys: seq<Key>, preferred: Key, system: Key,
                       reach: Key -> bool, latest: map<Key, Link>, dns: bool)

  predicate Sensible(v: View) {
    v.preferred in v.links && v.preferred in v.latest && FairSend.Distinct(v.keys)
  }

  // ---------- What the looks so far have seen ----------

  /**
   * One look: which link was preferred, whether a reading of it, the fresh one after a probe included, found it
   * connected, and what was chosen.
   */
  datatype Look = Look(at: int, preferred: Key, connected: bool, chosen: Key)

  /** Since when the looks find the link that is now preferred, and was all the time, disconnected. */
  function AbsentSince(looks: seq<Look>): (since: Option<int>)
    ensures since.Some? ==> looks != [] && !looks[|looks| - 1].connected
  {
    if looks == [] then None
    else
      var n := |looks| - 1;
      var before := AbsentSince(looks[..n]);
      if looks[n].connected then None
      else if before.Some? && looks[n - 1].preferred == looks[n].preferred then before
      else Some(looks[n].at)
  }

  /** From look i to look n the same link was preferred, and never found connected. */
  predicate Missed(looks: seq<Look>, i: nat, n: nat)
    requires n < |looks|
  {
    forall j :: i <= j <= n ==> looks[j].preferred == looks[n].preferred && !looks[j].connected
  }

  /** The link preferred at look n had been missing for `time` at least. */
  ghost predicate Away(looks: seq<Look>, n: nat, time: nat)
    requires n < |looks|
  {
    exists i :: 0 <= i <= n && looks[i].at + time <= looks[n].at && Missed(looks, i, n)
  }

  lemma {:induction false} AbsentSinceIs(looks: seq<Look>) returns (i: nat)
    requires AbsentSince(looks).Some?
    ensures i < |looks| && AbsentSince(looks) == Some(looks[i].at) && Missed(looks, i, |looks| - 1)
    ensures i == 0 || looks[i - 1].connected || looks[i - 1].preferred != looks[i].preferred
  {
    var n := |looks| - 1;
    var init := looks[..n];
    if AbsentSince(init).Some? && looks[n - 1].preferred == looks[n].preferred {
      i := AbsentSinceIs(init);
      forall j | i <= j <= n ensures looks[j].preferred == looks[n].preferred && !looks[j].connected {
        if j < n { assert looks[j] == init[j] && Missed(init, i, n - 1); }
      }
    } else {
      i := n;
    }
  }

  /** The choice of look n is the preferred link, one found after five seconds of absence, or one chosen before. */
  ghost predicate Explained(looks: seq<Look>, n: nat)
    requires n < |looks|
  {
    || looks[n].chosen == looks[n].preferred
    || Away(looks, n, FALLBACK_DELAY)
    || exists m :: 0 <= m < n && looks[m].chosen == looks[n].chosen
  }

  /** Whatever is chosen was once the preferred link, or was once found after five seconds of absence. */
  lemma {:induction false} EveryChoiceEarned(looks: seq<Look>, n: nat) returns (m: nat)
    requires n < |looks| && forall k :: 0 <= k < |looks| ==> Explained(looks, k)
    ensures m <= n && looks[m].chosen == looks[n].chosen
    ensures looks[m].chosen == looks[m].preferred || Away(looks, m, FALLBACK_DELAY)
    decreases n
  {
    if looks[n].chosen == looks[n].preferred || Away(looks, n, FALLBACK_DELAY) {
      m := n;
    } else {
      assert Explained(looks, n);
      var k :| 0 <= k < n && looks[k].chosen == looks[n].chosen;
      m := EveryChoiceEarned(looks, k);
    }
  }

  lemma {:induction false} EarlierAway(looks: seq<Look>, look: Look, n: nat, time: nat)
    requires n < |looks| && Away(looks, n, time)
    ensures Away(looks + [look], n, time)
  {
    var i :| 0 <= i <= n && looks[i].at + time <= looks[n].at && Missed(looks, i, n);
    assert Missed(looks + [look], i, n);
  }

  lemma {:induction false} EarlierExplained(looks: seq<Look>, look: Look)
    requires forall n :: 0 <= n < |looks| ==> Explained(looks, n)
    ensures forall n :: 0 <= n < |looks| ==> Explained(looks + [look], n)
  {
    var more := looks + [look];
    forall n | 0 <= n < |looks| ensures Explained(more, n) {
      assert Explained(looks, n);
      if Away(looks, n, FALLBACK_DELAY) { EarlierAway(looks, look, n, FALLBACK_DELAY); }
      if m :| 0 <= m < n && looks[m].chosen == looks[n].chosen { assert more[m].chosen == more[n].chosen; }
    }
  }

  /** A look at a link that has been missing since `since` sees five seconds of absence. */
  lemma {:induction false} NowAway(looks: seq<Look>, look: Look, since: int)
    requires AbsentSince(looks + [look]) == Some(since) && since + FALLBACK_DELAY <= look.at
    ensures Away(looks + [look], |looks|, FALLBACK_DELAY)
  {
    var i := AbsentSinceIs(looks + [look]);
  }

  /** Whether a reading in this look finds the preferred link connected. */
  predicate Seen(v: View, probed: seq<Key>)
    requires Sensible(v)
  {
    v.links[v.preferred].connected || (probed != [] && v.latest[v.preferred].connected)
  }

  class Controller {
    var selection: Option<Key>
    var absentAt: Option<int>
    var nextProbe: int
    var probeOffset: nat
    var primary: Option<Key>       // the link in use, as last reported
    ghost var clock: int
    ghost var looks: seq<Look>

    /** `absentAt` is the beginning of the absence, and probing never starts before it has lasted long enough. */
    ghost predicate Valid() reads this {
      && absentAt == AbsentSince(looks)
      && (absentAt.Some? ==> absentAt.value <= clock && nextProbe >= absentAt.value + FALLBACK_DELAY)
      && (if looks == [] then selection.None? else selection == Some(looks[|looks| - 1].preferred))
      && (primary.Some? ==> exists m :: 0 <= m < |looks| && looks[m].chosen == primary.value)
      && forall n :: 0 <= n < |looks| ==> Explained(looks, n)
    }

    constructor (now: int)
      ensures Valid() && primary.None? && clock == now && looks == []
    {
      selection, absentAt, nextProbe, probeOffset, primary, clock, looks := None, None, 0, 0, None, now, [];
    }

    /** The routes of the last choice are in place. */
    method Report(chosen: Key)
      requires Valid() && looks != [] && looks[|looks| - 1].chosen == chosen
      modifies this`primary
      ensures Valid() && primary == Some(chosen)
    {
      primary := Some(chosen);
    }

    /** The preferred link is left for a while only after an absence of five seconds, seen by every look in it. */
    lemma {:induction false} LeftAfterAbsence(n: nat) returns (m: nat)
      requires Valid() && n < |looks|
      ensures m <= n && looks[m].chosen == looks[n].chosen
      ensures looks[m].chosen == looks[m].preferred || Away(looks, m, FALLBACK_DELAY)
    {
      m := EveryChoiceEarned(looks, n);
    }

    /** The link in use instead of the preferred one, if it is still connected. */
    predicate InUse(v: View, k: Key) reads this`primary {
      primary == Some(k) && k != v.preferred && k in v.links && v.links[k].connected
    }

    predicate Substituted(v: View) reads this`primary { primary.Some? && InUse(v, primary.value) }

    method SelectPrimary(v: View, now: int) returns (chosen: Key, probed: seq<Key>)
      requires Valid() && clock <= now && Sensible(v)
      modifies this`selection, this`absentAt, this`nextProbe, this`probeOffset, this`clock, this`looks
      ensures Valid() && clock == now && selection == Some(v.preferred)
      ensures looks == old(looks) + [Look(now, v.preferred, Seen(v, probed), chosen)]
      ensures !v.links[v.preferred].connected && absentAt.Some? ==>
                absentAt == if old(selection) == Some(v.preferred) && old(absentAt).Some? then old(absentAt)
                    else Some(now)
      ensures absentAt.None? <==> Seen(v, probed)
      ensures v.links[v.preferred].connected ==> chosen == v.preferred && absentAt.None? && probed == []
      ensures chosen != v.preferred ==>
                InUse(v, chosen)
                || (Away(looks, |looks| - 1, FALLBACK_DELAY) && Ready(chosen, v.reach, v.latest)
                    && !v.latest[v.preferred].connected
                    && chosen in Candidates(v.links, v.keys, v.preferred, v.system))
      ensures probed != [] ==>
                var all := Candidates(v.links, v.keys, v.preferred, v.system);
                && old(selection) == Some(v.preferred) && now >= old(nextProbe) && nextProbe == now + PROBE_INTERVAL
                && all != [] && probed == Batch(all, old(probeOffset) % |all|)
                && probeOffset == NextStart(old(probeOffset) % |all|, |all|)
                && (v.dns && !v.latest[v.preferred].connected && FirstReady(probed, v.reach, v.latest).Some? ==>
                      Some(chosen) == FirstReady(probed, v.reach, v.latest))
      ensures probed != [] <==>
              old(selection) == Some(v.preferred) && !v.links[v.preferred].connected && old(absentAt).Some?
              && now >= old(nextProbe) && !Substituted(v)
              && Candidates(v.links, v.keys, v.preferred, v.system) != []
      ensures chosen ==
              if v.links[v.preferred].connected then v.preferred
              else if Substituted(v) then primary.value
              else if v.dns && !v.latest[v.preferred].connected && FirstReady(probed, v.reach, v.latest).Some?
              then FirstReady(probed, v.reach, v.latest).value
              else v.preferred
    {
      chosen, probed := Choose(v, now);
      clock := now;
      NoteLook(Look(now, v.preferred, Seen(v, probed), chosen), InUse(v, chosen), old(selection), old(absentAt));
    }

    /** A further look keeps what is known of all looks. */
    ghost method NoteLook(look: Look, kept: bool, last: Option<Key>, since: Option<int>)
      requires since == AbsentSince(looks)
      requires if looks == [] then last.None? else last == Some(looks[|looks| - 1].preferred)
      requires selection == Some(look.preferred) && clock == look.at
      requires absentAt == if look.connected then None
                           else if last == selection && since.Some? then since else Some(look.at)
      requires absentAt.Some? ==> absentAt.value <= clock && nextProbe >= absentAt.value + FALLBACK_DELAY
      requires primary.Some? ==> exists m :: 0 <= m < |looks| && looks[m].chosen == primary.value
      requires forall n :: 0 <= n < |looks| ==> Explained(looks, n)
      requires kept ==> primary == Some(look.chosen)
      requires look.chosen == look.preferred || kept
               || (absentAt.Some? && absentAt.value + FALLBACK_DELAY <= look.at)
      modifies this`looks
      ensures Valid() && looks == old(looks) + [look]
      ensures look.chosen == look.preferred || kept || Away(looks, |looks| - 1, FALLBACK_DELAY)
    {
      hide Away;
      assert (looks + [look])[..|looks|] == looks;
      EarlierExplained(looks, look);
      if look.chosen != look.preferred && !kept { NowAway(looks, look, absentAt.value); }
      looks := looks + [look];
    }

    /** select_primary itself: `absentAt` is kept through an absence and set at its first look. */
    method Choose(v: View, now: int) returns (chosen: Key, probed: seq<Key>)
      requires Valid() && clock <= now && Sensible(v)
      modifies this`selection, this`absentAt, this`nextProbe, this`probeOffset
      ensures selection == Some(v.preferred)
      ensures v.links[v.preferred].connected ==> chosen == v.preferred && probed == []
      ensures absentAt ==
                if Seen(v, probed) then None
                else if old(selection) == Some(v.preferred) && old(absentAt).Some? then old(absentAt) else Some(now)
      ensures absentAt.Some? ==> nextProbe >= absentAt.value + FALLBACK_DELAY
      ensures chosen != v.preferred ==>
                InUse(v, chosen)
                || (absentAt.Some? && absentAt.value + FALLBACK_DELAY <= now
                    && Ready(chosen, v.reach, v.latest) && !v.latest[v.preferred].connected
                    && chosen in Candidates(v.links, v.keys, v.preferred, v.system))
      ensures probed != [] ==>
                var all := Candidates(v.links, v.keys, v.preferred, v.system);
                && old(selection) == Some(v.preferred) && now >= old(nextProbe) && nextProbe == now + PROBE_INTERVAL
                && all != [] && probed == Batch(all, old(probeOffset) % |all|)
                && probeOffset == NextStart(old(probeOffset) % |all|, |all|)
                && (v.dns && !v.latest[v.preferred].connected && FirstReady(probed, v.reach, v.latest).Some? ==>
                      Some(chosen) == FirstReady(probed, v.reach, v.latest))
      ensures probed != [] <==>
              old(selection) == Some(v.preferred) && !v.links[v.preferred].connected && old(absentAt).Some?
              && now >= old(nextProbe) && !Substituted(v)
              && Candidates(v.links, v.keys, v.preferred, v.system) != []
      ensures chosen ==
              if v.links[v.preferred].connected then v.preferred
              else if Substituted(v) then primary.value
              else if v.dns && !v.latest[v.preferred].connected && FirstReady(probed, v.reach, v.latest).Some?
              then FirstReady(probed, v.reach, v.latest).value
              else v.preferred
    {
      probed, chosen := [], v.preferred;
      if selection != Some(v.preferred) {
        selection, absentAt, nextProbe, probeOffset := Some(v.preferred), None, 0, 0;
      }
      if v.links[v.preferred].connected {
        absentAt, nextProbe := None, 0;
        return;
      }
      if absentAt.None? { absentAt, nextProbe := Some(now), now + FALLBACK_DELAY; }
      if primary.Some? && primary.value != v.preferred && primary.value in v.links && v.links[primary.value].connected {
        chosen := primary.value;
        return;
      }
      if now < nextProbe { return; }
      nextProbe := now + PROBE_INTERVAL;
      var all := Candidates(v.links, v.keys, v.preferred, v.system);
      if all == [] { return; }
      var start := probeOffset % |all|;
      probed := Batch(all, start);
      probeOffset := (start + |probed|) % |all|;
      if v.latest[v.preferred].connected {
        absentAt := None;
        return;
      }
      var first := FirstReady(probed, v.reach, v.latest);
      if first.Some? && v.dns {
        chosen := first.value;
        BatchFrom(all, start, chosen);
      }
    }
  }

  lemma {:induction false} BatchFrom(items: seq<Key>, start: nat, k: Key)
    requires start < |items| && k in Batch(items, start)
    ensures k in items
  {
  }
}
