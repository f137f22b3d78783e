/**
 * The SIP gateway's account snapshot: writers commit a change and then apply it, while any number of refreshes read the
 * database without the gateway's lock and apply what they read later. An epoch fences off the stale ones.
 */
module SipFence {
  import opened Common

  type Id = nat
  type RefreshId = nat

  /** An account as the database has it: every change counts its version up, a deletion included. */
  datatype Row = Row(version: nat, present: bool)

  const NEVER := Row(0, false)

  type Table = map<Id, Row>

  function At(t: Table, id: Id): Row { if id in t then t[id] else NEVER }

  /** A refresh has noted the epoch, has read the tables, or has failed to. */
  datatype Refresh = Noted(epoch: nat) | Read(epoch: nat, rows: Table) | Broken(epoch: nat)

  /** The writer between its commit and its change of the gateway; `known` tells whether the commit was confirmed. */
  datatype Writer = NoWriter | Unapplied(id: Id, row: Row, known: bool)

  /**
   * `view` is what the gateway works with; a suspended account has no credentials there whatever its row says.
   * `floor` is, for each account, the version that was last applied or certain when it was suspended.
   */
  datatype Sys = Sys(db: Table, view: Table, suspended: set<Id>, epoch: nat, ready: bool, writer: Writer,
                     refreshes: map<RefreshId, Refresh>, floor: map<Id, nat>)

  datatype Action =
    | Commit(id: Id, present: bool, reply: Reply)
    | Apply
    | Note(r: RefreshId)
    | ReadTables(r: RefreshId, ok: bool)
    | Finish(r: RefreshId)

  predicate Enabled(s: Sys, a: Action) {
    match a
    case Commit(_, _, _) => s.writer.NoWriter?
    case Apply => s.writer.Unapplied?
    case Note(r) => r !in s.refreshes
    case ReadTables(r, _) => r in s.refreshes && s.refreshes[r].Noted?
    case Finish(r) => r in s.refreshes && !s.refreshes[r].Noted?
  }

  function Changed(db: Table, id: Id, present: bool): Table { db[id := Row(At(db, id).version + 1, present)] }

  /** The account's credentials, if the gateway accepts them. */
  predicate Live(s: Sys, id: Id) { At(s.view, id).present && id !in s.suspended }

  function Floor(s: Sys, id: Id): nat { if id in s.floor then s.floor[id] else 0 }

  function Do(s: Sys, a: Action): Sys
    requires Enabled(s, a)
  {
    match a
    case Commit(id, present, reply) =>
      var db := if reply.Committed() then Changed(s.db, id, present) else s.db;
      s.(db := db, writer := Unapplied(id, At(db, id), reply.Acked?))
    case Apply =>
      var w := s.writer;
      if w.known then
        s.(epoch := s.epoch + 1, view := s.view[w.id := w.row], suspended := s.suspended - {w.id},
           floor := s.floor[w.id := Max(Floor(s, w.id), w.row.version)], writer := NoWriter)
      else
        s.(epoch := s.epoch + 1, suspended := s.suspended + {w.id},
           floor := s.floor[w.id := Max(Floor(s, w.id), w.row.version)], writer := NoWriter)
    case Note(r) => s.(refreshes := s.refreshes[r := Noted(s.epoch)])
    case ReadTables(r, ok) =>
      var e := s.refreshes[r].epoch;
      s.(refreshes := s.refreshes[r := if ok then Read(e, s.db) else Broken(e)])
    case Finish(r) =>
      var f, t := s.refreshes[r], s.(refreshes := s.refreshes - {r});
      if f.epoch != s.epoch then t
      else if f.Broken? then t.(ready := false)
      else t.(view := f.rows, suspended := {}, ready := true)
  }

  /** A state the row has been in: with the same version it is the same row. */
  predicate Earlier(a: Row, b: Row) { a.version <= b.version && (a.version == b.version ==> a == b) }

  /** Both tables count up together with what was applied. */
  ghost predicate Inv(s: Sys) {
    && (forall id: Id :: Settled(s, id))
    && (forall r, id: Id :: r in s.refreshes ==> Consistent(s, s.refreshes[r], id))
    && (s.writer.Unapplied? ==> s.writer.row == At(s.db, s.writer.id))
  }

  predicate Settled(s: Sys, id: Id) {
    && Floor(s, id) <= At(s.db, id).version
    && Earlier(At(s.view, id), At(s.db, id))
    && (id !in s.suspended ==> Floor(s, id) <= At(s.view, id).version)
  }

  /** Rows and applied versions only count up. */
  lemma {:induction false} StepGrows(s: Sys, a: Action, id: Id)
    requires Enabled(s, a)
    ensures Earlier(At(s.db, id), At(Do(s, a).db, id)) && Floor(s, id) <= Floor(Do(s, a), id)
    ensures Do(s, a).epoch == s.epoch ==> Floor(Do(s, a), id) == Floor(s, id)
    ensures s.epoch <= Do(s, a).epoch
  {
  }

  lemma {:induction false} StepSettled(s: Sys, a: Action, id: Id)
    requires Inv(s) && Enabled(s, a)
    ensures Settled(Do(s, a), id)
  {
    assert Settled(s, id);
    if a.Finish? { assert Consistent(s, s.refreshes[a.r], id); }
  }

  /** One refresh: still no newer than the tables, and no older than the last change if it is not fenced off. */
  predicate Consistent(s: Sys, f: Refresh, id: Id) {
    && f.epoch <= s.epoch
    && (f.Read? ==>
        Earlier(At(f.rows, id), At(s.db, id))
        && (f.epoch == s.epoch ==> Floor(s, id) <= At(f.rows, id).version))
  }

  lemma {:induction false} StepConsistent(s: Sys, a: Action, f: Refresh, id: Id)
    requires Enabled(s, a) && Consistent(s, f, id)
    ensures Consistent(Do(s, a), f, id)
  {
    StepGrows(s, a, id);
    hide Do, Floor, At, Enabled;
  }

  lemma {:induction false} NewConsistent(s: Sys, a: Action, r: RefreshId, id: Id)
    requires Enabled(s, a) && Settled(s, id) && r in Do(s, a).refreshes
    requires r in s.refreshes ==> s.refreshes[r].epoch <= s.epoch
    requires r in s.refreshes ==> Do(s, a).refreshes[r] != s.refreshes[r]
    ensures Consistent(Do(s, a), Do(s, a).refreshes[r], id)
  {
  }

  lemma {:induction false} StepWriter(s: Sys, a: Action)
    requires Inv(s) && Enabled(s, a)
    ensures Do(s, a).writer.Unapplied? ==> Do(s, a).writer.row == At(Do(s, a).db, Do(s, a).writer.id)
  {
  }

  lemma {:induction false} StepInv(s: Sys, a: Action)
    requires Inv(s) && Enabled(s, a)
    ensures Inv(Do(s, a))
  {
    var t := Do(s, a);
    StepWriter(s, a);
    forall id: Id ensures Settled(t, id) { StepSettled(s, a, id); }
    forall r, id: Id | r in t.refreshes ensures Consistent(t, t.refreshes[r], id) {
      assert Settled(s, id);
      if r in s.refreshes && t.refreshes[r] == s.refreshes[r] {
        assert Consistent(s, s.refreshes[r], id);
        StepConsistent(s, a, s.refreshes[r], id);
      } else {
        assert r in s.refreshes ==> Consistent(s, s.refreshes[r], 0);
        NewConsistent(s, a, r, id);
      }
    }
    hide Do, Settled, Consistent, Enabled;
  }

  // ---------- What the fence gives ----------

  lemma {:induction false} Fenced(s: Sys, id: Id)
    requires Inv(s)
    ensures id !in s.suspended ==> At(s.view, id).version >= Floor(s, id)
    ensures Earlier(At(s.view, id), At(s.db, id))
  {
    assert Settled(s, id);
  }

  predicate Possible(s: Sys, run: seq<Action>)
    decreases |run|
  {
    run == [] || (Enabled(s, run[0]) && Possible(Do(s, run[0]), run[1..]))
  }

  function After(s: Sys, run: seq<Action>): Sys
    requires Possible(s, run)
    decreases |run|
  {
    if run == [] then s else After(Do(s, run[0]), run[1..])
  }

  lemma {:induction false} RunInv(s: Sys, run: seq<Action>)
    requires Inv(s) && Possible(s, run)
    ensures Inv(After(s, run))
    ensures forall id: Id :: Floor(After(s, run), id) >= Floor(s, id) && Earlier(At(s.db, id), At(After(s, run).db, id))
    decreases |run|
  {
    hide Inv, Do, Enabled, Floor, At;
    if run != [] {
      StepInv(s, run[0]);
      forall id: Id
        ensures Floor(s, id) <= Floor(Do(s, run[0]), id) && Earlier(At(s.db, id), At(Do(s, run[0]).db, id))
      {
        StepGrows(s, run[0], id);
      }
      RunInv(Do(s, run[0]), run[1..]);
    }
  }

  /** A gateway that has just started. */
  predicate Init(s: Sys) {
    && (forall id :: id in s.db ==> s.db[id].version > 0)
    && s.view == map[] && s.suspended == {} && s.writer.NoWriter? && s.refreshes == map[] && s.floor == map[]
    && !s.ready
  }

  lemma {:induction false} InitInv(s: Sys)
    requires Init(s)
    ensures Inv(s)
  {
  }

  /**
   * Over every run from a gateway's start, whatever refreshes and writers overlap: what it shows of an account is a row
   * the database had, and no older than what was applied last.
   */
  lemma {:induction false} NoStaleOverwrite(s: Sys, run: seq<Action>, id: Id)
    requires Init(s) && Possible(s, run)
    ensures var t := After(s, run);
            && (id !in t.suspended ==> At(t.view, id).version >= Floor(t, id))
            && Earlier(At(t.view, id), At(t.db, id))
  {
    InitInv(s);
    RunInv(s, run);
    Fenced(After(s, run), id);
  }

  /**
   * A confirmed change that was applied is never undone by a refresh that read the tables before it: from then on the
   * gateway shows that version or a later one, or has the account suspended.
   */
  lemma {:induction false} AppliedStays(s: Sys, run: seq<Action>)
    requires Inv(s) && s.writer.Unapplied? && s.writer.known && Possible(Do(s, Apply), run)
    ensures var t, w := After(Do(s, Apply), run), s.writer;
            w.id in t.suspended || At(t.view, w.id).version >= w.row.version
  {
    StepInv(s, Apply);
    RunInv(Do(s, Apply), run);
    Fenced(After(Do(s, Apply), run), s.writer.id);
  }

  /** The row of the account is `row`, the gateway has been told, and no writer is at it. */
  predicate Told(s: Sys, id: Id, row: Row) {
    && At(s.db, id) == row && row.version <= Floor(s, id) && id !in s.suspended
    && (s.writer.Unapplied? ==> s.writer.id != id)
  }

  lemma {:induction false} ToldStep(s: Sys, a: Action, id: Id, row: Row)
    requires Told(s, id, row) && Enabled(s, a) && !(a.Commit? && a.id == id)
    ensures Told(Do(s, a), id, row)
  {
  }

  lemma {:induction false} ToldRun(s: Sys, run: seq<Action>, id: Id, row: Row)
    requires Told(s, id, row) && Possible(s, run) && forall i :: 0 <= i < |run| ==> !(run[i].Commit? && run[i].id == id)
    ensures Told(After(s, run), id, row)
    decreases |run|
  {
    hide Told, Do, Enabled;
    if run != [] {
      ToldStep(s, run[0], id, row);
      ToldRun(Do(s, run[0]), run[1..], id, row);
    }
  }

  /**
   * A confirmed change takes effect at once and changes no other account, and as long as nobody commits another change
   * of the account, the gateway shows exactly this row, whatever refreshes and other writers do.
   */
  lemma {:induction false} AppliedLives(s: Sys, run: seq<Action>)
    requires Inv(s) && s.writer.Unapplied? && s.writer.known && Possible(Do(s, Apply), run)
    requires forall i :: 0 <= i < |run| ==> !(run[i].Commit? && run[i].id == s.writer.id)
    ensures var w, u, t := s.writer, Do(s, Apply), After(Do(s, Apply), run);
            && (forall id :: id != w.id ==> At(u.view, id) == At(s.view, id) && (Live(u, id) <==> Live(s, id)))
            && At(u.view, w.id) == w.row && At(t.view, w.id) == w.row
            && (Live(u, w.id) <==> w.row.present) && (Live(t, w.id) <==> w.row.present)
  {
    var w, u := s.writer, Do(s, Apply);
    StepInv(s, Apply);
    ToldRun(u, run, w.id, w.row);
    RunInv(u, run);
    Fenced(After(u, run), w.id);
    Fenced(u, w.id);
  }

  /** A revoked account stays out until its next change. */
  lemma {:induction false} RevokedStaysOut(s: Sys, run: seq<Action>)
    requires Inv(s) && s.writer.Unapplied? && s.writer.known && !s.writer.row.present && Possible(Do(s, Apply), run)
    ensures var t, id := After(Do(s, Apply), run), s.writer.id;
            Live(t, id) ==> At(t.db, id).version > s.writer.row.version
  {
    StepInv(s, Apply);
    RunInv(Do(s, Apply), run);
    Fenced(After(Do(s, Apply), run), s.writer.id);
  }

  /**
   * A commit whose answer was lost may or may not have happened. Whatever did, the account has no credentials at the
   * gateway until rows are applied that include the outcome.
   */
  lemma {:induction false} UncertainIsSafe(s: Sys, run: seq<Action>)
    requires Inv(s) && s.writer.Unapplied? && !s.writer.known && Possible(Do(s, Apply), run)
    ensures !Live(Do(s, Apply), s.writer.id)
    ensures var t, id := After(Do(s, Apply), run), s.writer.id;
            Live(t, id) ==> At(t.view, id).version >= At(s.db, id).version
                            && (!At(s.db, id).present ==> At(t.db, id).version > At(s.db, id).version)
  {
    StepInv(s, Apply);
    RunInv(Do(s, Apply), run);
    Fenced(After(Do(s, Apply), run), s.writer.id);
  }

  /** An undisturbed refresh brings the gateway to what the database has, and ends every suspension. */
  lemma {:induction false} RefreshConverges(s: Sys, r: RefreshId)
    requires Inv(s) && r !in s.refreshes
    ensures Possible(s, [Note(r), ReadTables(r, true), Finish(r)])
    ensures var t := After(s, [Note(r), ReadTables(r, true), Finish(r)]);
            t.view == s.db == t.db && t.suspended == {} && t.ready
            && forall id: Id :: Live(t, id) <==> At(s.db, id).present
  {
    var run := [Note(r), ReadTables(r, true), Finish(r)];
    assert run[1..] == [ReadTables(r, true), Finish(r)] && run[1..][1..] == [Finish(r)];
    var a := Do(s, Note(r));
    var b := Do(a, ReadTables(r, true));
    assert Possible(Do(b, Finish(r)), []);
    assert [Finish(r)][1..] == [];
    assert Possible(b, [Finish(r)]) && After(b, [Finish(r)]) == Do(b, Finish(r));
    assert Possible(a, run[1..]) && After(a, run[1..]) == Do(b, Finish(r));
  }

  // ---------- The gateway's lists ----------

  datatype Account = Account(id: Id, revision: nat)
  datatype Policy = Policy(account: Id, revision: nat)

  function Others(accounts: seq<Account>, id: Id): seq<Account> { Kept(accounts, (a: Account) => a.id == id) }

  function OtherPolicies(policies: seq<Policy>, id: Id): seq<Policy> { Kept(policies, (p: Policy) => p.account == id) }

  /** The first policy of an account. */
  function FirstPolicy(policies: seq<Policy>, id: Id): (policy: Option<Policy>)
    ensures policy.None? <==> forall p :: p in policies ==> p.account != id
    ensures policy.Some? ==> policy.value in policies && policy.value.account == id
  {
    if policies == [] then None
    else if policies[0].account == id then Some(policies[0])
    else FirstPolicy(policies[1..], id)
  }

  function Added<T>(items: seq<T>, item: Option<T>): seq<T> { if item.Some? then items + [item.value] else items }

  /** Exactly the other accounts remain. */
  lemma {:induction false} OthersAre(accounts: seq<Account>, id: Id)
    ensures forall a :: a in Others(accounts, id) <==> a in accounts && a.id != id
  {
    KeptIs(accounts, (a: Account) => a.id == id);
  }

  class Gateway {
    var epoch: nat
    var accounts: seq<Account>
    var policies: seq<Policy>

    constructor ()
      ensures epoch == 0 && accounts == [] && policies == []
    {
      epoch, accounts, policies := 0, [], [];
    }

    /** One account changes, the others keep their place, and every refresh under way becomes stale. */
    method ApplyAccount(id: Id, account: Option<Account>, policy: Option<Policy>)
      modifies this
      ensures epoch == old(epoch) + 1
      ensures accounts == Added(Others(old(accounts), id), account)
      ensures policies == Added(OtherPolicies(old(policies), id), policy)
    {
      epoch := epoch + 1;
      var kept: seq<Account> := [];
      for i := 0 to |accounts|
        invariant kept == Others(accounts[..i], id)
      {
        assert accounts[..i + 1][..i] == accounts[..i];
        if accounts[i].id != id { kept := kept + [accounts[i]]; }
      }
      assert accounts[..|accounts|] == accounts;
      var rules: seq<Policy> := [];
      for i := 0 to |policies|
        invariant rules == OtherPolicies(policies[..i], id)
      {
        assert policies[..i + 1][..i] == policies[..i];
        if policies[i].account != id { rules := rules + [policies[i]]; }
      }
      assert policies[..|policies|] == policies;
      if account.Some? { kept := kept + [account.value]; }
      if policy.Some? { rules := rules + [policy.value]; }
      accounts, policies := kept, rules;
    }

    /** No credentials for the account, its policy kept. */
    method SuspendAccount(id: Id)
      modifies this
      ensures epoch == old(epoch) + 1 && accounts == Others(old(accounts), id)
      ensures forall a :: a in accounts ==> a.id != id
      ensures forall a :: a in old(accounts) && a.id != id ==> a in accounts
      ensures policies == Added(OtherPolicies(old(policies), id), FirstPolicy(old(policies), id))
    {
      var policy: Option<Policy> := None;
      var i := 0;
      while i < |policies| && policy.None?
        invariant 0 <= i <= |policies|
        invariant if policy.None? then FirstPolicy(policies[i..], id) == FirstPolicy(policies, id)
                  else policy == FirstPolicy(policies, id)
      {
        if policies[i].account == id { policy := Some(policies[i]); }
        i := i + 1;
      }
      OthersAre(accounts, id);
      ApplyAccount(id, None, policy);
    }
  }
}
