/**
 * Admission and drain: write requests, business work, control operations, module jobs and calls each have their own
 * lock and their own counter, and the status that decides about an upgrade reads them one after the other. A module
 * keeps its endpoint, so both are one number here; periods that end by themselves after a recovery are left out.
 */
module Drain {
  import opened Common

  type Module = nat
  type Ticket = nat
  type Call = nat

  /** A control operation in progress; `running` tells whether the line has a worker when Wi-Fi is switched. */
  datatype Control =
    | Apn(line: Module) | WiFi(line: Module, on: bool, running: bool) | Networks(lines: set<Module>)
  {
    function Lines(): set<Module> { if Networks? then lines else {line} }
    /** APN changes hold the hardware gate instead of the module's control lock. */
    predicate Locks() { !Apn? }
  }

  datatype Sys = Sys(
    // maintenanceGate and a setDraining between its two writes
    gate: bool, switching: Option<bool>, requests: set<Ticket>,
    draining: bool, ready: bool,                                         // moduleManager
    tokens: map<Ticket, Module>, flags: set<Module>, controls: map<Ticket, Control>, jobs: set<Module>,
    // sipCalls; `checked`: an INVITE past the drain check holds the lock
    checked: bool, admitting: set<Call>, active: set<Call>, incoming: set<Call>)

  datatype Action =
    | SwitchModules(value: bool) | SwitchGate
    | SetReady(value: bool)
    | Enter(t: Ticket) | Leave(t: Ticket)
    | Reserve(t: Ticket, line: Module) | Release(t: Ticket)
    | Begin(t: Ticket, control: Control) | End(t: Ticket)
    | StartJobs(lines: set<Module>) | FinishJobs(lines: set<Module>)
    | CheckInvite | RefuseInvite | Admit(call: Call) | Promote(call: Call, t: Ticket) | Unadmit(call: Call)
    | Incoming(call: Call, t: Ticket) | EndCall(call: Call)

  predicate Locked(s: Sys, line: Module) {
    exists t :: t in s.controls && s.controls[t].Locks() && line in s.controls[t].Lines()
  }

  predicate Busy(s: Sys, line: Module) { exists t :: t in s.tokens && s.tokens[t] == line }

  /** What each control operation checks under the manager's lock. */
  predicate ControlAllowed(s: Sys, c: Control) {
    && !s.draining && s.ready
    && (forall line :: line in c.Lines() ==> !Busy(s, line) && (c.Locks() ==> !Locked(s, line)))
    && match c
       case Apn(line) => line !in s.flags && line !in s.jobs
       case WiFi(line, on, running) => on || !running ==> line !in s.jobs
       case Networks(lines) => forall line :: line in lines ==> line !in s.flags && line !in s.jobs
  }

  predicate JobsAllowed(s: Sys, lines: set<Module>) {
    !s.draining && s.ready
    && forall line :: line in lines ==> line !in s.jobs && line !in s.flags && !Busy(s, line) && !Locked(s, line)
  }

  predicate Enabled(s: Sys, a: Action) {
    match a
    case SwitchModules(_) => s.switching.None?
    case SwitchGate => s.switching.Some?
    case Enter(t) => s.switching.None? && !s.gate && t !in s.requests
    case Leave(t) => t in s.requests
    case Reserve(t, line) =>
      && t !in s.tokens && !s.draining && s.ready && line !in s.flags && line !in s.jobs
      && !(exists c :: c in s.controls && s.controls[c].Networks? && line in s.controls[c].lines)
    case Release(t) => t in s.tokens
    case Begin(t, c) => t !in s.controls && ControlAllowed(s, c)
    case End(t) => t in s.controls
    case StartJobs(lines) => JobsAllowed(s, lines)
    case FinishJobs(lines) => lines <= s.jobs
    case CheckInvite => !s.checked && !s.draining
    case RefuseInvite => s.checked
    case Admit(call) => s.checked && call !in s.admitting
    case Promote(call, t) => !s.checked && call in s.admitting && t in s.tokens
    case Unadmit(call) => !s.checked && call in s.admitting
    case Incoming(call, t) => !s.checked && t in s.tokens
    case EndCall(_) => !s.checked
    case SetReady(_) => true
  }

  function Do(s: Sys, a: Action): Sys
    requires Enabled(s, a)
  {
    match a
    case SwitchModules(v) => s.(draining := v, switching := Some(v))
    case SwitchGate => s.(gate := s.switching.value, switching := None)
    case SetReady(v) => s.(ready := v)
    case Enter(t) => s.(requests := s.requests + {t})
    case Leave(t) => s.(requests := s.requests - {t})
    case Reserve(t, line) => s.(tokens := s.tokens[t := line])
    case Release(t) => s.(tokens := s.tokens - {t})
    case Begin(t, c) => s.(flags := s.flags + c.Lines(), controls := s.controls[t := c])
    case End(t) => s.(flags := s.flags - s.controls[t].Lines(), controls := s.controls - {t})
    case StartJobs(lines) => s.(jobs := s.jobs + lines)
    case FinishJobs(lines) => s.(jobs := s.jobs - lines)
    case CheckInvite => s.(checked := true)
    case RefuseInvite => s.(checked := false)
    case Admit(call) => s.(checked := false, admitting := s.admitting + {call})
    case Promote(call, _) => s.(active := s.active + {call})
    case Unadmit(call) => s.(admitting := s.admitting - {call})
    case Incoming(call, _) => s.(incoming := s.incoming + {call})
    case EndCall(call) => s.(active := s.active - {call}, incoming := s.incoming - {call})
  }

  // ---------- Invariants ----------

  /** Live work and an active job never share a module, flags belong to operations, and the two drain marks agree. */
  ghost predicate Inv(s: Sys) {
    && (forall t :: t in s.tokens ==> s.tokens[t] !in s.jobs)
    && (forall line :: line in s.flags ==> exists t :: t in s.controls && line in s.controls[t].Lines())
    && (s.switching.None? ==> s.gate == s.draining)
    && (s.switching.Some? ==> s.draining == s.switching.value)
  }

  lemma {:induction false} FlagsOwned(s: Sys, a: Action, line: Module)
    requires Inv(s) && Enabled(s, a) && line in Do(s, a).flags
    ensures exists t :: t in Do(s, a).controls && line in Do(s, a).controls[t].Lines()
  {
    var u := Do(s, a);
    if a.Begin? && line in a.control.Lines() {
      assert u.controls[a.t] == a.control;
    } else {
      var t :| t in s.controls && line in s.controls[t].Lines();
      assert t in u.controls && u.controls[t] == s.controls[t];
    }
  }

  lemma {:induction false} StepInv(s: Sys, a: Action)
    requires Inv(s) && Enabled(s, a)
    ensures Inv(Do(s, a))
  {
    forall line | line in Do(s, a).flags
      ensures exists t :: t in Do(s, a).controls && line in Do(s, a).controls[t].Lines()
    {
      FlagsOwned(s, a, line);
    }
  }

  // ---------- Control flags and who owns them ----------

  /** While a control operation runs, its modules are marked and carry no work. */
  ghost predicate Guarded(s: Sys) {
    forall t, line :: t in s.controls && line in s.controls[t].Lines() ==> line in s.flags && !Busy(s, line)
  }

  /** An operation ends and takes a mark that another one still needs. */
  ghost predicate TakesMark(s: Sys, a: Action) {
    && a.End? && a.t in s.controls
    && exists u, line :: u in s.controls && u != a.t && line in s.controls[u].Lines() && line in s.controls[a.t].Lines()
  }

  lemma {:induction false} BusyBefore(s: Sys, a: Action, line: Module)
    requires Enabled(s, a) && (Busy(Do(s, a), line) || Busy(s, line))
    ensures Busy(Do(s, a), line) ==> Busy(s, line) || (a.Reserve? && a.line == line)
    ensures a.Begin? ==> (Busy(Do(s, a), line) <==> Busy(s, line))
  {
  }

  lemma {:induction false} GuardedOr(s: Sys, a: Action)
    requires Guarded(s) && Enabled(s, a) && !TakesMark(s, a)
    ensures Guarded(Do(s, a))
  {
    var u := Do(s, a);
    forall t, line | t in u.controls && line in u.controls[t].Lines() ensures line in u.flags && !Busy(u, line) {
      if a.Begin? && t == a.t {
        assert !Busy(s, line);
      } else {
        assert t in s.controls && u.controls[t] == s.controls[t];
        assert line in s.flags && !Busy(s, line);
      }
      if Busy(u, line) { BusyBefore(s, a, line); }
    }
  }

  /** A step keeps marks and work apart if and only if it does not end an operation whose mark another one needs. */
  lemma {:induction false} GuardedStays(s: Sys, a: Action)
    requires Guarded(s) && Enabled(s, a)
    ensures Guarded(Do(s, a)) <==> !TakesMark(s, a)
  {
    if TakesMark(s, a) {
      var u, line :| u in s.controls && u != a.t && line in s.controls[u].Lines() && line in s.controls[a.t].Lines();
      assert u in Do(s, a).controls && line in Do(s, a).controls[u].Lines() && line !in Do(s, a).flags;
    } else {
      GuardedOr(s, a);
    }
  }

  /**
   * A Wi-Fi change may begin while an APN change has the module marked, and takes the mark away when it ends. The mark
   * survives exactly if nobody else was using it.
   */
  lemma {:induction false} WiFiTakesTheMark(s: Sys, t: Ticket, line: Module, on: bool, running: bool)
    requires Guarded(s) && Enabled(s, Begin(t, WiFi(line, on, running)))
    ensures var u := Do(s, Begin(t, WiFi(line, on, running)));
            Enabled(u, End(t)) && (Guarded(Do(u, End(t))) <==> Unused(s, line))
  {
    var u := Do(s, Begin(t, WiFi(line, on, running)));
    GuardedStays(s, Begin(t, WiFi(line, on, running)));
    GuardedStays(u, End(t));
    if !Unused(s, line) {
      var o :| o in s.controls && line in s.controls[o].Lines();
      assert o in u.controls && line in u.controls[o].Lines() && line in u.controls[t].Lines();
    }
  }

  predicate Unused(s: Sys, line: Module) { forall t :: t in s.controls ==> line !in s.controls[t].Lines() }

  const QUIET := Sys(false, None, {}, false, true, map[], {}, map[], {}, false, {}, {}, {})

  /** So business work can be admitted in the middle of an APN change. */
  lemma {:induction false} WorkDuringApnChange(line: Module)
    ensures var apn, wifi := Begin(0, Apn(line)), Begin(1, WiFi(line, true, false));
            var s := QUIET;
            && Enabled(s, apn) && Enabled(Do(s, apn), wifi) && Enabled(Do(Do(s, apn), wifi), End(1))
            && Enabled(Do(Do(Do(s, apn), wifi), End(1)), Reserve(2, line))
            && 0 in Do(Do(Do(Do(s, apn), wifi), End(1)), Reserve(2, line)).controls
  {
  }

  // ---------- Drain ----------

  predicate Possible(s: Sys, run: seq<Action>)
    decreases |run|
  {
    run == [] || (Enabled(s, run[0]) && Possible(Do(s, run[0]), run[1..]))
  }

  function After(s: Sys, run: seq<Action>): Sys
    requires Possible(s, run)
    decreases |run|
  {
    if run == [] then s else After(Do(s, run[0]), run[1..])
  }

  /** No step of the run takes a mark that another operation needs. */
  ghost predicate NoMarkTaken(s: Sys, run: seq<Action>)
    requires Possible(s, run)
    decreases |run|
  {
    run == [] || (!TakesMark(s, run[0]) && NoMarkTaken(Do(s, run[0]), run[1..]))
  }

  /** Marks and work are apart at every moment of the run. */
  ghost predicate AlwaysGuarded(s: Sys, run: seq<Action>)
    requires Possible(s, run)
    decreases |run|
  {
    Guarded(s) && (run == [] || AlwaysGuarded(Do(s, run[0]), run[1..]))
  }

  lemma {:induction false} RunInv(s: Sys, run: seq<Action>)
    requires Inv(s) && Possible(s, run)
    ensures Inv(After(s, run))
    ensures AlwaysGuarded(s, run) ==> Guarded(After(s, run))
    decreases |run|
  {
    hide Inv, Guarded, Enabled, Do;
    if run != [] {
      StepInv(s, run[0]);
      RunInv(Do(s, run[0]), run[1..]);
    }
  }

  /** A run keeps marks and work apart all along if and only if no step of it takes a mark that another needs. */
  lemma {:induction false} GuardedExactly(s: Sys, run: seq<Action>)
    requires Guarded(s) && Possible(s, run)
    ensures AlwaysGuarded(s, run) <==> NoMarkTaken(s, run)
    decreases |run|
  {
    hide Guarded, Enabled, Do, TakesMark;
    if run != [] {
      var t := Do(s, run[0]);
      GuardedStays(s, run[0]);
      if Guarded(t) { GuardedExactly(t, run[1..]); }
    }
  }

  /**
   * No module of a running control operation has an active job; only a running Wi-Fi line may be switched off in one.
   */
  ghost predicate JobsApart(s: Sys) {
    forall t, line :: t in s.controls && line in s.controls[t].Lines() && line in s.jobs ==>
        s.controls[t] == WiFi(line, false, true)
  }

  lemma {:induction false} JobsApartStep(s: Sys, a: Action)
    requires Guarded(s) && JobsApart(s) && Enabled(s, a)
    ensures JobsApart(Do(s, a))
  {
    var u := Do(s, a);
    forall t, line | t in u.controls && line in u.controls[t].Lines() && line in u.jobs
      ensures u.controls[t] == WiFi(line, false, true)
    {
      if a.Begin? && t == a.t {
        assert ControlAllowed(s, a.control) && line in a.control.Lines();
      } else {
        assert t in s.controls && u.controls[t] == s.controls[t] && line in s.flags;
        assert line in s.jobs;
      }
    }
  }

  lemma {:induction false} JobsApartRun(s: Sys, run: seq<Action>)
    requires Guarded(s) && JobsApart(s) && Possible(s, run) && NoMarkTaken(s, run)
    ensures JobsApart(After(s, run))
    decreases |run|
  {
    hide Guarded, JobsApart, Enabled, Do, TakesMark;
    if run != [] {
      GuardedStays(s, run[0]);
      JobsApartStep(s, run[0]);
      JobsApartRun(Do(s, run[0]), run[1..]);
    }
  }

  /** A running Wi-Fi line can be switched off in the middle of a job of its module; no other switch is let through. */
  lemma {:induction false} WiFiOffDuringJob(line: Module)
    ensures var s := QUIET;
            && Enabled(s, StartJobs({line})) && Enabled(Do(s, StartJobs({line})), Begin(0, WiFi(line, false, true)))
            && forall on, running :: on || !running ==>
                !Enabled(Do(s, StartJobs({line})), Begin(0, WiFi(line, on, running)))
  {
  }

  /** A module without work, mark, job or operation admits each of them, unless the system drains or is not ready. */
  lemma {:induction false} FreeModuleAdmits(s: Sys, t: Ticket, c: Control)
    requires t !in s.tokens && t !in s.controls && !s.draining && s.ready
    requires forall line :: line in c.Lines() ==>
             line !in s.jobs && line !in s.flags && !Busy(s, line) && Unused(s, line)
    ensures Enabled(s, Begin(t, c)) && Enabled(s, StartJobs(c.Lines()))
    ensures forall line :: line in c.Lines() ==> Enabled(s, Reserve(t, line))
  {
    forall line | line in c.Lines() ensures !Locked(s, line) && Enabled(s, Reserve(t, line)) {
      assert Unused(s, line);
    }
  }

  /** When an operation ends that shared its modules with no other, they are as free as before it began. */
  lemma {:induction false} EndGivesBack(s: Sys, t: Ticket, c: Control)
    requires Guarded(s) && Enabled(s, Begin(t, c)) && forall line :: line in c.Lines() ==>
             Unused(s, line)
             && line !in s.flags
    ensures Enabled(Do(s, Begin(t, c)), End(t)) && Do(Do(s, Begin(t, c)), End(t)) == s
  {
    var u := Do(Do(s, Begin(t, c)), End(t));
    assert u.controls == s.controls && u.flags == s.flags;
  }

  /**
   * Over every run, live work and an active job never share a module. Control operations keep work out too, and their
   * modules marked, at every moment of the run if and only if none of them ends with a mark that another still needs;
   * then no module of theirs has an active job either, except that a running Wi-Fi line may be switched off in one.
   */
  lemma {:induction false} WorkKeptApart(run: seq<Action>)
    requires Possible(QUIET, run)
    ensures var s := After(QUIET, run);
            && (forall t :: t in s.tokens ==> s.tokens[t] !in s.jobs)
            && (AlwaysGuarded(QUIET, run) <==> NoMarkTaken(QUIET, run))
            && (NoMarkTaken(QUIET, run) ==>
                  && (forall t, c :: t in s.tokens && c in s.controls ==> s.tokens[t] !in s.controls[c].Lines())
                  && (forall c, line :: c in s.controls && line in s.controls[c].Lines() && line in s.jobs ==>
                        s.controls[c] == WiFi(line, false, true)))
  {
    RunInv(QUIET, run);
    GuardedExactly(QUIET, run);
    var s := After(QUIET, run);
    if NoMarkTaken(QUIET, run) {
      JobsApartRun(QUIET, run);
      forall t, c | t in s.tokens && c in s.controls ensures s.tokens[t] !in s.controls[c].Lines() {
        assert Busy(s, s.tokens[t]);
      }
    }
  }

  predicate NoResume(run: seq<Action>) { forall i :: 0 <= i < |run| ==> run[i] != SwitchModules(false) }

  /** Draining is on for the modules and for requests. */
  predicate Draining(s: Sys) { s.draining && s.gate && (s.switching.Some? ==> s.switching.value) }

  predicate Idle(s: Sys) {
    s.requests == {} && s.tokens == map[] && s.flags == {} && s.jobs == {} && s.admitting == {} && s.active == {}
        && s.incoming == {}
  }

  predicate NoWork(s: Sys) { s.tokens == map[] && s.flags == {} && s.jobs == {} }

  /** No call, and no INVITE between its check and its admission: what the status sees when it gets the lock. */
  predicate NoCalls(s: Sys) { !s.checked && s.admitting == {} && s.active == {} && s.incoming == {} }

  /**
   * While draining, nothing of a kind that is gone comes back; a call can come only from an INVITE or from work in
   * hand.
   */
  lemma {:induction false} DrainedStep(s: Sys, a: Action)
    requires Draining(s) && Enabled(s, a) && a != SwitchModules(false)
    ensures Draining(Do(s, a))
    ensures Do(s, a).requests <= s.requests && Do(s, a).tokens.Keys <= s.tokens.Keys
    ensures Do(s, a).flags <= s.flags && Do(s, a).jobs <= s.jobs
    ensures NoWork(s) ==> NoWork(Do(s, a))
    ensures NoWork(s) && NoCalls(s) ==> NoCalls(Do(s, a))
  {
  }

  lemma {:induction false} DrainedRun(s: Sys, run: seq<Action>)
    requires Draining(s) && Possible(s, run) && NoResume(run)
    ensures Draining(After(s, run))
    ensures s.requests == {} ==> After(s, run).requests == {}
    ensures NoWork(s) ==> NoWork(After(s, run))
    ensures NoWork(s) && NoCalls(s) ==> NoCalls(After(s, run))
    decreases |run|
  {
    hide Enabled, Do;
    if run != [] {
      DrainedStep(s, run[0]);
      DrainedRun(Do(s, run[0]), run[1..]);
    }
  }

  /**
   * The status reads the requests, then work, marks and jobs, then the calls, with anything happening in between. If it
   * was draining and everything read was zero, the appliance is idle at the end and stays idle until it is resumed.
   */
  lemma {:induction false} StatusIsSound(s1: Sys, run12: seq<Action>, run23: seq<Action>, run34: seq<Action>)
    requires Inv(s1) && s1.switching.None? && s1.gate && s1.requests == {}
    requires Possible(s1, run12) && NoResume(run12) && NoWork(After(s1, run12))
    requires Possible(After(s1, run12), run23) && NoResume(run23) && NoCalls(After(After(s1, run12), run23))
    requires Possible(After(After(s1, run12), run23), run34) && NoResume(run34)
    ensures Idle(After(After(After(s1, run12), run23), run34))
  {
    DrainedRun(s1, run12);
    DrainedRun(After(s1, run12), run23);
    DrainedRun(After(After(s1, run12), run23), run34);
  }

  /** Reading the calls without their lock is not enough: an INVITE past its check is not counted yet. */
  lemma {:induction false} LockIsNeeded(call: Call)
    ensures var s := QUIET.(draining := true, gate := true, checked := true);
            && Inv(s) && Draining(s) && Idle(s) && Enabled(s, Admit(call)) && !Idle(Do(s, Admit(call)))
  {
    assert call in Do(QUIET.(draining := true, gate := true, checked := true), Admit(call)).admitting;
  }

  /** Reading the calls before the work is not enough: work in hand may still bring a call in and end before it. */
  lemma {:induction false} OrderIsNeeded(call: Call, line: Module)
    ensures var s := QUIET.(draining := true, gate := true, tokens := map[0 := line]);
            && Inv(s) && Draining(s) && NoCalls(s) && Possible(s, [Incoming(call, 0), Release(0)])
            && NoWork(After(s, [Incoming(call, 0), Release(0)])) && !Idle(After(s, [Incoming(call, 0), Release(0)]))
  {
    var s := QUIET.(draining := true, gate := true, tokens := map[0 := line]);
    var t := Do(s, Incoming(call, 0));
    assert [Incoming(call, 0), Release(0)][1..] == [Release(0)] && [Release(0)][1..] == [];
    assert Possible(Do(t, Release(0)), []);
    assert Possible(t, [Release(0)]) && After(t, [Release(0)]) == Do(t, Release(0));
    assert Do(t, Release(0)).tokens == map[] && call in Do(t, Release(0)).incoming;
  }

  // ---------- The counters ----------

  /** The admissions still open on a module. */
  function Held(open: map<Ticket, Module>, line: Module): set<Ticket> { set t | t in open && open[t] == line }

  predicate Counted(work: map<Module, int>, open: map<Ticket, Module>, line: Module) {
    if line in work then work[line] == |Held(open, line)| > 0 else |Held(open, line)| == 0
  }

  lemma {:induction false} HeldMore(open: map<Ticket, Module>, t: Ticket, line: Module, l: Module)
    requires t !in open
    ensures |Held(open[t := line], l)| == |Held(open, l)| + (if l == line then 1 else 0)
  {
    assert Held(open[t := line], l) == Held(open, l) + (if l == line then {t} else {});
  }

  /** Admission to write requests. */
  class MaintenanceGate {
    var draining: bool
    var requests: int
    var open: set<Ticket>
    var next: Ticket

    ghost predicate Valid() reads this { requests == |open| && forall t :: t in open ==> t < next }

    constructor ()
      ensures Valid() && !draining && open == {}
    {
      draining, requests, open, next := false, 0, {}, 0;
    }

    method Enter() returns (ticket: Option<Ticket>)
      requires Valid()
      modifies this`requests, this`open, this`next
      ensures Valid()
      ensures ticket.None? <==> draining
      ensures ticket.None? ==> open == old(open)
      ensures ticket.Some? ==> ticket.value !in old(open) && open == old(open) + {ticket.value}
    {
      if draining { return None; }
      requests := requests + 1;
      open, ticket, next := open + {next}, Some(next), next + 1;
    }

    /** Only the first call of a release counts. */
    method Leave(ticket: Ticket)
      requires Valid()
      modifies this`requests, this`open
      ensures Valid() && open == old(open) - {ticket}
    {
      if ticket in open { requests := requests - 1; }
      open := open - {ticket};
    }
  }

  /** Admission to business work; the count of a module is there exactly while it is not zero. */
  class ModuleWork {
    var work: map<Module, int>
    var open: map<Ticket, Module>
    var next: Ticket

    ghost predicate Valid() reads this {
      && (forall t :: t in open ==> t < next)
      && (forall line :: Counted(work, open, line))
    }

    constructor ()
      ensures Valid() && open == map[]
    {
      work, open, next := map[], map[], 0;
      new;
      forall line: Module ensures Counted(work, open, line) { assert Held(open, line) == {}; }
    }

    method Reserve(line: Module, allowed: bool) returns (ticket: Option<Ticket>)
      requires Valid()
      modifies this
      ensures Valid()
      ensures ticket.None? <==> !allowed
      ensures ticket.None? ==> open == old(open) && work == old(work)
      ensures ticket.Some? ==> ticket.value !in old(open) && open == old(open)[ticket.value := line]
    {
      if !allowed { return None; }
      hide Held, Counted;
      ghost var oldWork, before := work, open;
      work := work[line := (if line in work then work[line] else 0) + 1];
      open := open[next := line];
      forall l: Module ensures Counted(work, open, l) {
        assert Counted(oldWork, before, l);
        CountedMore(oldWork, before, next, line, l);
      }
      ticket, next := Some(next), next + 1;
    }

    method Release(ticket: Ticket)
      requires Valid()
      modifies this`work, this`open
      ensures Valid() && open == old(open) - {ticket}
    {
      if ticket !in open { assert open - {ticket} == open; return; }
      hide Held, Counted;
      ghost var oldWork, before := work, open;
      var line := open[ticket];
      open := open - {ticket};
      assert open[ticket := line] == before;
      assert Counted(oldWork, before, line);
      CountedIn(oldWork, open, ticket, line);
      work := if work[line] == 1 then work - {line} else work[line := work[line] - 1];
      forall l: Module ensures Counted(work, open, l) {
        assert Counted(oldWork, before, l);
        CountedLess(oldWork, open, ticket, line, l);
      }
    }
  }

  lemma {:induction false} CountedMore(work: map<Module, int>, open: map<Ticket, Module>, t: Ticket, line: Module,
                                       l: Module)
    requires t !in open && Counted(work, open, l)
    ensures Counted(work[line := (if line in work then work[line] else 0) + 1], open[t := line], l)
  {
    HeldMore(open, t, line, l);
  }

  lemma {:induction false} CountedIn(work: map<Module, int>, open: map<Ticket, Module>, t: Ticket, line: Module)
    requires t !in open && Counted(work, open[t := line], line)
    ensures line in work
  {
    HeldMore(open, t, line, line);
  }

  lemma {:induction false} CountedLess(work: map<Module, int>, open: map<Ticket, Module>, t: Ticket, line: Module,
                                       l: Module)
    requires t !in open && line in work && Counted(work, open[t := line], l)
    ensures Counted(if work[line] == 1 then work - {line} else work[line := work[line] - 1], open, l)
  {
    HeldMore(open, t, line, l);
  }
}
