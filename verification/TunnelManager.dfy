/**
 * The tunnel manager as it runs: the binding in memory, its saved copy, the certificate and the remote account are
 * changed in place, and every change is one step of the machine in Tunnel.
 */
module TunnelManager {
  import opened Common
  import opened Tunnel

  const ATTEMPTS := 5

  /** What the surroundings answer during one connection attempt. */
  datatype World = World(granted: bool, zone: bool, resume: Reply, secret: bool, provision: Reply,
                         findTunnel: bool, tunnelPick: TunnelId, newTunnel: TunnelId, create: Reply, keepTunnel: Reply,
                         findDns: bool, dnsPick: DnsId, newDns: DnsId, record: Reply, keepDns: Reply, files: bool)

  /** One attempt: what came back, and whether a failure is followed by another one; the time may also be over. */
  datatype Try = Try(reply: Reply, again: bool)

  /** The account answers a GET with what there is, and a new resource gets an id of its own. */
  predicate TunnelAnswers(r: Remote, b: Binding, w: World) {
    if TunnelsNamed(r, b.name) == {} then w.newTunnel !in r.tunnels else w.tunnelPick in TunnelsNamed(r, b.name)
  }

  predicate DnsAnswers(r: Remote, b: Binding, w: World) {
    if RecordsAt(r, b.domain) == {} then w.newDns !in r.dns else w.dnsPick in RecordsAt(r, b.domain)
  }

  /** The certificate is there or can be had, and the intent to provision gets saved. */
  predicate Intends(b: Binding, cert: bool, w: World) {
    (cert || (w.granted && !b.provisioned)) && w.zone && w.resume.Acked? && w.secret && w.provision.Acked?
  }

  /** The tunnel of an attempt that gets one: of the name if there is any, and else a new one. */
  function TunnelOf(r: Remote, b: Binding, w: World): TunnelId {
    if TunnelsNamed(r, b.name) != {} then w.tunnelPick else w.newTunnel
  }

  function DnsOf(r: Remote, b: Binding, w: World): DnsId {
    if RecordsAt(r, b.domain) != {} then w.dnsPick else w.newDns
  }

  predicate GetsTunnel(r: Remote, b: Binding, w: World) {
    w.findTunnel && (TunnelsNamed(r, b.name) == {} ==> w.create.Acked?) && w.keepTunnel.Acked?
  }

  /** A record at the domain has to be the appliance's own, to the tunnel `b` names. */
  predicate GetsDns(r: Remote, b: Binding, w: World) {
    && w.findDns && w.keepDns.Acked?
    && if RecordsAt(r, b.domain) == {} then w.record.Acked? else w.dnsPick in r.dns && OwnRecord(r.dns[w.dnsPick], b)
  }

  /** Everything that a successful attempt needs from the account, the database and the disk. */
  predicate Connects(r: Remote, b: Binding, cert: bool, w: World) {
    && Intends(b, cert, w) && GetsTunnel(r, b, w)
    && GetsDns(r, b.(tunnel := Some(TunnelOf(r, b, w))), w) && w.files
  }

  /** The account after it: a tunnel and a record were added if they were missing, and nothing else. */
  function Published(r: Remote, b: Binding, w: World): Remote
    requires b.name.Some? && b.domain.Some?
  {
    var own := Record(b.domain.value, TunnelOf(r, b, w), b.name.value);
    Remote(if TunnelsNamed(r, b.name) == {} then r.tunnels[w.newTunnel := b.name.value] else r.tunnels,
           if RecordsAt(r, b.domain) == {} then r.dns[w.newDns := own] else r.dns)
  }

  /** Every reply is good. */
  predicate Well(w: World) {
    && w.zone && w.resume.Acked? && w.secret && w.provision.Acked? && w.findTunnel && w.create.Acked?
    && w.keepTunnel.Acked? && w.findDns && w.record.Acked? && w.keepDns.Acked? && w.files
  }

  /** With good replies an attempt fails only without a certificate or on somebody else's record at its domain. */
  lemma {:induction false} WellConnects(r: Remote, b: Binding, cert: bool, w: World)
    requires Well(w) && TunnelAnswers(r, b, w) && DnsAnswers(r, b, w) && b.name.Some? && b.domain.Some?
    ensures Connects(r, b, cert, w) <==>
            (cert || (w.granted && !b.provisioned))
            && (RecordsAt(r, b.domain) == {}
                || (r.dns[w.dnsPick].comment == b.name.value
                    && r.dns[w.dnsPick].target == if TunnelsNamed(r, b.name) == {} then w.newTunnel else w.tunnelPick))
  {
  }

  /** What the account and the disk answer during one cleanup; `order` lists the records of the domain. */
  datatype Answers = Answers(stopped: bool, find: bool, pick: TunnelId, look: bool, list: bool, order: seq<DnsId>,
                             drop: DnsId -> nat -> Try, connections: bool, delete: nat -> Try,
                             cleared: nat -> Try, files: bool, certGone: bool, blank: nat -> Try)

  /** The tunnel a cleanup is about. */
  datatype Identity = Unknown | Absent | Known(id: TunnelId, there: bool)

  /** One of up to five attempts is acknowledged, and no earlier one was the last. */
  ghost predicate Succeeds(tries: nat -> Try) {
    exists i :: 0 <= i < ATTEMPTS && tries(i).reply.Acked? && forall j :: 0 <= j < i ==> tries(j).again
  }

  lemma {:induction false} AtOnce(tries: nat -> Try)
    requires tries(0).reply.Acked?
    ensures Succeeds(tries)
  {
    assert 0 <= 0 < ATTEMPTS;
  }

  /** Own records, connections and tunnel of a known identity can be removed. */
  ghost predicate RemovesKnown(r: Remote, own: Binding, there: bool, a: Answers) {
    && a.list && (forall d :: d in RecordsOf(r, own) ==> Succeeds(a.drop(d)))
    && (there ==> a.connections && Succeeds(a.delete))
  }

  /** The tunnel that a removal is about: the saved one, or one of the name. */
  function IdOf(b: Binding, a: Answers): TunnelId { if b.tunnel.Some? then b.tunnel.value else a.pick }

  /** What is the appliance's can be found, is its own, and can be removed. */
  ghost predicate Removes(r: Remote, b: Binding, a: Answers) {
    var id := IdOf(b, a);
    && (b.tunnel.None? ==> a.find)
    && ((b.tunnel.None? && TunnelsNamed(r, b.name) == {})
        || (&& a.look && (id in r.tunnels ==> Some(r.tunnels[id]) == b.name)
            && RemovesKnown(r, b.(tunnel := Some(id)), id in r.tunnels, a)))
  }

  lemma {:induction false} RemovesBy(r: Remote, b: Binding, a: Answers)
    ensures Removes(r, b, a) <==>
      if b.tunnel.None? && !a.find then false
      else if b.tunnel.None? && TunnelsNamed(r, b.name) == {} then true
      else if !a.look || (IdOf(b, a) in r.tunnels && Some(r.tunnels[IdOf(b, a)]) != b.name) then false
      else RemovesKnown(r, b.(tunnel := Some(IdOf(b, a))), IdOf(b, a) in r.tunnels, a)
  {
  }

  /** Everything that a successful cleanup needs. */
  ghost predicate CleansUp(r: Remote, b: Binding, cert: bool, a: Answers) {
    && a.stopped && (b.remoteCleared || (Succeeds(a.cleared) && (b.provisioned ==> cert && Removes(r, b, a))))
    && a.files && Succeeds(a.blank)
  }

  /** Every reply is good. */
  predicate AllWell(a: Answers) {
    && a.stopped && a.find && a.look && a.list && a.connections && a.files
    && a.delete(0).reply.Acked? && a.cleared(0).reply.Acked? && a.blank(0).reply.Acked?
  }

  /** With good replies a cleanup succeeds, unless the tunnel's id now belongs to another one or the key is gone. */
  lemma {:induction false} WellCleansUp(r: Remote, b: Binding, cert: bool, a: Answers)
    requires AllWell(a) && (forall d :: d in r.dns ==> a.drop(d)(0).reply.Acked?) && Answered(r, b, a)
    ensures CleansUp(r, b, cert, a) <==>
            b.remoteCleared || !b.provisioned
            || (cert && (b.tunnel.Some? && b.tunnel.value in r.tunnels ==> Some(r.tunnels[b.tunnel.value]) == b.name))
  {
    AtOnce(a.delete);
    AtOnce(a.cleared);
    AtOnce(a.blank);
    forall d | d in r.dns ensures Succeeds(a.drop(d)) { AtOnce(a.drop(d)); }
    assert forall own: Binding :: RecordsOf(r, own) <= r.dns.Keys;
  }

  /** From `was` to `now` nothing came up, and only what carries the binding's name went. */
  predicate OnlyOwnGone(was: Remote, now: Remote, b: Binding) {
    && (forall d :: d in now.dns ==> d in was.dns && now.dns[d] == was.dns[d])
    && (forall d :: d in was.dns && d !in now.dns ==>
        Some(was.dns[d].comment) == b.name
        && Some(was.dns[d].domain) == b.domain)
    && (forall t :: t in now.tunnels ==> t in was.tunnels && now.tunnels[t] == was.tunnels[t])
    && (forall t :: t in was.tunnels && t !in now.tunnels ==> Some(was.tunnels[t]) == b.name)
  }

  lemma {:induction false} NothingGone(r: Remote, b: Binding)
    ensures OnlyOwnGone(r, r, b)
  {
  }

  lemma {:induction false} GoneThenGone(was: Remote, mid: Remote, now: Remote, b: Binding, own: Binding)
    requires own.name == b.name && own.domain == b.domain && OnlyOwnGone(was, mid, own) && OnlyOwnGone(mid, now, own)
    ensures OnlyOwnGone(was, now, b)
  {
  }

  /** One of the binding's own records may go. */
  lemma {:induction false} DropOne(was: Remote, mid: Remote, now: Remote, b: Binding, did: DnsId)
    requires OnlyOwnGone(was, mid, b) && did in was.dns && OwnRecord(was.dns[did], b)
    requires now == mid || now == mid.(dns := mid.dns - {did})
    ensures OnlyOwnGone(was, now, b) && RecordsOf(now, b) <= RecordsOf(mid, b)
    ensures did !in now.dns ==> RecordsOf(now, b) <= RecordsOf(mid, b) - {did}
  {
  }

  /** Each of `ids` once. */
  predicate Lists(order: seq<DnsId>, ids: set<DnsId>) {
    && (forall d :: d in order ==> d in ids) && (forall d :: d in ids ==> d in order)
    && forall i, j :: 0 <= i < j < |order| ==> order[i] != order[j]
  }

  predicate Answered(r: Remote, b: Binding, a: Answers) {
    && (TunnelsNamed(r, b.name) != {} ==> a.pick in TunnelsNamed(r, b.name))
    && Lists(a.order, RecordsAt(r, b.domain))
  }

  /** What is left to delete of the listed records from place i on. */
  function Todo(listed: map<DnsId, Record>, b: Binding, order: seq<DnsId>, i: nat): set<DnsId>
    requires i <= |order| && forall d :: d in order ==> d in listed
  {
    set d | d in order[i..] && OwnRecord(listed[d], b)
  }

  lemma {:induction false} ListedAll(r: Remote, b: Binding, order: seq<DnsId>)
    requires Lists(order, RecordsAt(r, b.domain))
    ensures (forall d :: d in order ==> d in r.dns) && Todo(r.dns, b, order, 0) == RecordsOf(r, b)
    ensures Todo(r.dns, b, order, |order|) == {}
    ensures forall i, j :: 0 <= i < j < |order| ==> order[i] != order[j]
  {
    assert order[0..] == order;
  }

  lemma {:induction false} TodoNext(listed: map<DnsId, Record>, b: Binding, order: seq<DnsId>, i: nat)
    requires i < |order| && (forall d :: d in order ==> d in listed)
    requires forall i, j :: 0 <= i < j < |order| ==> order[i] != order[j]
    ensures OwnRecord(listed[order[i]], b) ==>
              order[i] in Todo(listed, b, order, i)
                  && Todo(listed, b, order, i + 1) == Todo(listed, b, order, i) - {order[i]}
    ensures !OwnRecord(listed[order[i]], b) ==> Todo(listed, b, order, i + 1) == Todo(listed, b, order, i)
  {
    assert order[i..] == [order[i]] + order[i + 1..];
    assert order[i] !in order[i + 1..];
  }

  datatype Answer = Accepted | OwnerRequired | DisconnectFirst | DatabaseError

  class Manager {
    var binding: Binding
    var running: bool
    var saved: Binding
    var remote: Remote
    var cert: bool
    ghost const start: Sys
    ghost var sys: Sys
    ghost var steps: seq<Action>

    ghost predicate Linked() reads this`sys, this`steps {
      Init(start) && Possible(start, steps) && After(start, steps) == sys
    }

    ghost predicate Valid() reads this {
      && Linked() && sys.proc.Up? && binding == sys.proc.mem && saved == sys.db && remote == sys.remote
      && cert == sys.cert
      && running == !sys.proc.conn.NoConn?
    }

    /** The account may hold anything of others. */
    constructor (remote: Remote)
      ensures Valid() && sys.proc == Up(BLANK, NoConn, NoClean)
    {
      binding, saved, this.remote, cert, running := BLANK, BLANK, remote, false, false;
      start := Sys(BLANK, Down, remote, false, {}, false);
      sys, steps := Sys(BLANK, Up(BLANK, NoConn, NoClean), remote, false, {}, false), [Boot];
      new;
      assert Possible(Do(start, Boot), [Boot][1..]);
    }

    ghost method Take(a: Action)
      requires Linked() && Enabled(sys, a)
      modifies this`sys, this`steps
      ensures Linked() && sys == Do(old(sys), a) && steps == old(steps) + [a]
    {
      Append(start, steps, a);
      steps, sys := steps + [a], Do(sys, a);
    }

    /** Where the connect worker stands. */
    ghost predicate At(c: Conn) reads this { sys.proc.Up? && sys.proc.conn == c }

    ghost predicate CleanAt(k: Clean) reads this { sys.proc.Up? && sys.proc.clean == k }

    /** The names generated and the other worker are as before. */
    ghost predicate Aside(was: Sys) reads this {
      sys.used == was.used && sys.touched == was.touched && sys.proc.Up? && was.proc.Up?
          && sys.proc.clean == was.proc.clean
    }

    /** The database may have taken a save that is then rolled back in memory. */
    method Update(changed: Binding, r: Reply) returns (ok: bool)
      modifies this`binding, this`saved
      ensures ok <==> r.Acked?
      ensures binding == if ok then changed else old(binding)
      ensures saved == if r.Committed() then changed else old(saved)
    {
      var previous := binding;
      binding := changed;
      if r.Committed() { saved := changed; }
      ok := r.Acked?;
      if !ok { binding := previous; }
    }

    /** connect(): the wish is saved, under a fresh name if there is none, before the worker starts. */
    method Connect(owner: Owner, domain: Domain, name: Name, r: Reply) returns (answer: Answer)
      requires Valid() && Enabled(sys, Action.Connect(owner, domain, name, r))
      modifies this
      ensures Valid() && old(steps) <= steps && remote == old(remote) && cert == old(cert)
      ensures answer.OwnerRequired? <==> old(binding.owner.Some? && binding.owner.value != owner)
      ensures answer.DisconnectFirst? <==>
                !answer.OwnerRequired?
                    && (old(binding).removing || old(binding).domain !in {None, Some(domain)})
      ensures answer.DatabaseError? <==>
              !answer.OwnerRequired? && !answer.DisconnectFirst? && !old(running) && !r.Acked?
      ensures answer.Accepted? && old(running) ==> binding == old(binding) && saved == old(saved) && sys == old(sys)
      ensures answer.Accepted? && !old(running) ==>
                && At(ReadCert) && binding == saved && binding.status.Connecting?
                && binding == (if old(binding).domain.Some? then old(binding)
                               else BLANK.(domain := Some(domain), owner := Some(owner),
                                   name := Some(name))).(status := Connecting)
      ensures !answer.Accepted? ==> binding == old(binding) && running == old(running)
      ensures answer.OwnerRequired? || answer.DisconnectFirst? ==> saved == old(saved)
    {
      Take(Action.Connect(owner, domain, name, r));
      if OwnerRefused(binding, owner) { return OwnerRequired; }
      if binding.domain.Some? && binding.domain.value != domain { return DisconnectFirst; }
      if binding.removing { return DisconnectFirst; }
      if running { return Accepted; }
      var changed := if binding.domain.None? then
          BLANK.(domain := Some(domain), owner := Some(owner), name := Some(name)) else binding;
      var ok := Update(changed.(status := Connecting), r);
      running := ok;
      answer := if ok then Accepted else DatabaseError;
    }

    /** disconnect(): the wish to remove is saved before the cleanup starts, and lasts over a restart. */
    method Disconnect(owner: Owner, r: Reply) returns (answer: Answer)
      requires Valid()
      modifies this`binding, this`saved, this`sys, this`steps
      ensures Valid() && old(steps) <= steps
      ensures answer.OwnerRequired? <==> old(binding.owner.Some? && binding.owner.value != owner)
      ensures answer.Accepted? <==>
              !answer.OwnerRequired?
              && (old(binding).status.Disconnected? || old(binding).status.Disconnecting? || r.Acked?)
      ensures answer.Accepted? && !old(binding).status.Disconnected? && !old(binding).status.Disconnecting? ==>
                && CleanAt(AwaitConn) && binding == saved
                && binding == old(binding).(status := Disconnecting, resume := false, removing := true)
      ensures !answer.Accepted? || old(binding).status.Disconnected? || old(binding).status.Disconnecting? ==>
                binding == old(binding) && (answer.DatabaseError? || saved == old(saved)) && sys.proc == old(sys).proc
    {
      Take(Action.Disconnect(owner, r));
      if OwnerRefused(binding, owner) { return OwnerRequired; }
      if binding.status.Disconnected? || binding.status.Disconnecting? { return Accepted; }
      var ok := Update(binding.(status := Disconnecting, resume := false, removing := true), r);
      answer := if ok then Accepted else DatabaseError;
    }

    /** The connect worker ends; a disconnection that is under way keeps its status. */
    method ConnectEnds(r: Reply)
      requires Valid() && At(Ended)
      modifies this
      ensures Valid() && old(steps) <= steps && !running && remote == old(remote) && cert == old(cert)
      ensures binding == if old(binding).status.Disconnecting? then old(binding) else old(binding).(status := Failed)
      ensures saved == old(saved) || saved == binding
    {
      Take(FinishConnect(r));
      running := false;
      if binding.status.Disconnecting? { return; }
      binding := binding.(status := Failed);
      if r.Committed() { saved := binding; }
    }

    /** The process dies and starts again: what was saved decides what goes on. */
    method Restart()
      requires Valid()
      modifies this
      ensures Valid() && old(steps) <= steps && saved == old(saved) && remote == old(remote) && cert == old(cert)
      ensures binding.(status := saved.status, resume := saved.resume) == saved
      ensures CleanAt(if saved.domain.Some? && saved.removing && saved.status.Disconnecting? then AwaitConn
              else NoClean)
      ensures At(if saved.domain.Some? && saved.resume && !saved.removing then ReadCert else NoConn)
    {
      Take(Crash);
      Take(Boot);
      binding, running := saved, false;
      if binding.domain.Some? {
        if binding.removing && binding.status.Disconnecting? {
          binding := binding.(resume := false);
        } else if binding.resume && !binding.removing {
          binding, running := binding.(status := Connecting), true;
        } else {
          binding := binding.(status := Failed);
        }
      }
    }

    /** A save of the connect worker, which goes on only if it is acknowledged. */
    method SaveStep(c: Conn, changed: Binding, r: Reply) returns (ok: bool)
      requires Valid() && At(c) && (c.SaveResume? || c.SaveProvisioned? || c.SaveTunnel? || c.SaveDns?)
      requires changed == ConnSaved(binding, c)
      modifies this`binding, this`saved, this`sys, this`steps
      ensures Valid() && old(steps) <= steps && Aside(old(sys)) && ok == r.Acked?
      ensures At(if ok then AfterSave(c) else Ended)
      ensures binding == if ok then changed else old(binding)
      ensures saved == if r.Committed() then changed else old(saved)
    {
      Take(Action.Save(r));
      ok := Update(changed, r);
    }

    method Proceed(c: Conn, ok: bool)
      requires Valid() && At(c) && (c.CheckZone? || c.WriteSecret? || c.WriteFiles? || c.Running?)
      modifies this`sys, this`steps
      ensures Valid() && old(steps) <= steps && Aside(old(sys)) && At(if ok then AfterAdvance(c) else Ended)
    {
      Take(Advance(ok));
    }

    method Authorize(granted: bool) returns (ok: bool)
      requires Valid() && At(ReadCert)
      modifies this`cert, this`sys, this`steps
      ensures Valid() && old(steps) <= steps && Aside(old(sys))
      ensures ok <==> old(cert) || (granted && !binding.provisioned)
      ensures At(if ok then CheckZone else Ended) && (cert <==> ok)
    {
      Take(Cert(granted));
      ok := true;
      if !cert {
        if binding.provisioned || !granted { return false; }
        cert := true;
      }
    }

    /** The tunnel of this name, found or made. */
    method EnsureTunnel(find: bool, pick: TunnelId, id: TunnelId, create: Reply) returns (found: Option<TunnelId>)
      requires Valid() && At(FindTunnel) && binding.name.Some?
      requires find && TunnelsNamed(remote, binding.name) == {} ==> id !in remote.tunnels
      requires find && TunnelsNamed(remote, binding.name) != {} ==> pick in TunnelsNamed(remote, binding.name)
      modifies this`remote, this`sys, this`steps
      ensures Valid() && old(steps) <= steps && Aside(old(sys))
      ensures At(if found.Some? then SaveTunnel(found.value) else Ended)
      ensures found ==
        if !find then None
        else if TunnelsNamed(old(remote), binding.name) != {} then Some(pick)
        else if create.Acked? then Some(id) else None
      ensures remote ==
        if find && TunnelsNamed(old(remote), binding.name) == {} && create.Committed()
        then old(remote).(tunnels := old(remote).tunnels[id := binding.name.value]) else old(remote)
    {
      Take(Lookup(find, pick));
      if !find { return None; }
      if TunnelsNamed(remote, binding.name) != {} { return Some(pick); }
      Take(CreateT(id, create));
      if create.Committed() { remote := remote.(tunnels := remote.tunnels[id := binding.name.value]); }
      found := if create.Acked? then Some(id) else None;
    }

    /** The record at the domain, if it is ours, or a new one; anything else there is a conflict. */
    method EnsureDns(find: bool, pick: DnsId, did: DnsId, create: Reply) returns (found: Option<DnsId>)
      requires Valid() && At(FindDns) && binding.name.Some? && binding.tunnel.Some? && binding.domain.Some?
      requires find && RecordsAt(remote, binding.domain) == {} ==> did !in remote.dns
      requires find && RecordsAt(remote, binding.domain) != {} ==> pick in RecordsAt(remote, binding.domain)
      modifies this`remote, this`sys, this`steps
      ensures Valid() && old(steps) <= steps && Aside(old(sys))
      ensures At(if found.Some? then SaveDns(found.value) else Ended)
      ensures found ==
        if !find then None
        else if RecordsAt(old(remote), binding.domain) != {} then
          if old(remote).dns[pick].target == binding.tunnel.value && old(remote).dns[pick].comment == binding.name.value
          then Some(pick) else None
        else if create.Acked? then Some(did) else None
      ensures remote ==
        if find && RecordsAt(old(remote), binding.domain) == {} && create.Committed() then
          old(remote).(dns := old(remote).dns[
            did := Record(binding.domain.value, binding.tunnel.value, binding.name.value)])
        else old(remote)
    {
      Take(Lookup(find, pick));
      if !find { return None; }
      if RecordsAt(remote, binding.domain) != {} {
        found := if OwnRecord(remote.dns[pick], binding) then Some(pick) else None;
        return;
      }
      Take(CreateD(did, create));
      var x := Record(binding.domain.value, binding.tunnel.value, binding.name.value);
      if create.Committed() { remote := remote.(dns := remote.dns[did := x]); }
      found := if create.Acked? then Some(did) else None;
    }

    /** Up to the saved intent to provision: nothing remote has changed yet. */
    method Intend(w: World) returns (ok: bool)
      requires Valid() && At(ReadCert)
      modifies this`binding, this`saved, this`cert, this`sys, this`steps
      ensures Valid() && old(steps) <= steps && Aside(old(sys)) && At(if ok then FindTunnel else Ended)
      ensures ok <==> Intends(old(binding), old(cert), w)
      ensures cert <==> old(cert) || (w.granted && !old(binding).provisioned)
      ensures binding.name == old(binding).name && binding.domain == old(binding).domain
      ensures ok ==> cert && binding == saved == Resumed(old(binding)).(provisioned := true)
    {
      hide Linked, Do, Enabled, ConnSaved;
      ok := Authorize(w.granted);
      if !ok { return; }
      Proceed(CheckZone, w.zone);
      if !w.zone { return false; }
      ok := SaveStep(SaveResume, Resumed(binding), w.resume);
      if !ok { return; }
      Proceed(WriteSecret, w.secret);
      if !w.secret { return false; }
      ok := SaveStep(SaveProvisioned, Provisioned(binding), w.provision);
    }

    /** The tunnel and its saved id. */
    method Tunnelled(w: World) returns (ok: bool)
      requires Valid() && At(FindTunnel) && binding.name.Some? && TunnelAnswers(remote, binding, w) && saved == binding
      modifies this`remote, this`binding, this`saved, this`sys, this`steps
      ensures Valid() && old(steps) <= steps && Aside(old(sys)) && At(if ok then FindDns else Ended)
      ensures ok <==> GetsTunnel(old(remote), old(binding), w)
      ensures ok ==> binding == saved == old(binding).(tunnel := Some(TunnelOf(old(remote), old(binding), w)))
      ensures remote.dns == old(remote).dns
      ensures ok ==>
                remote.tunnels == if TunnelsNamed(old(remote), binding.name) != {} then old(remote).tunnels
                                  else old(remote).tunnels[w.newTunnel := binding.name.value]
      ensures forall t :: t in remote.tunnels && t != w.newTunnel ==> t in old(remote).tunnels
      ensures forall t :: t in old(remote).tunnels ==>
              t in remote.tunnels
              && remote.tunnels[t] == old(remote).tunnels[t]
    {
      hide Linked, Do, Enabled, ConnSaved;
      var id := EnsureTunnel(w.findTunnel, w.tunnelPick, w.newTunnel, w.create);
      if id.None? { return false; }
      ok := SaveStep(SaveTunnel(id.value), WithTunnel(binding, id.value), w.keepTunnel);
    }

    /** The record, its saved id and the connector's files. */
    method Publish(w: World) returns (ok: bool)
      requires Valid() && At(FindDns) && binding.name.Some? && binding.tunnel.Some? && binding.domain.Some?
               && DnsAnswers(remote, binding, w)
      requires saved == binding
      modifies this`remote, this`binding, this`saved, this`sys, this`steps
      ensures Valid() && old(steps) <= steps && Aside(old(sys)) && At(if ok then Running else Ended)
      ensures ok <==> GetsDns(old(remote), old(binding), w) && w.files
      ensures ok ==> binding == saved == old(binding).(dns := Some(DnsOf(old(remote), old(binding), w)))
      ensures remote.tunnels == old(remote).tunnels
      ensures ok ==>
                remote.dns == if RecordsAt(old(remote), binding.domain) != {} then old(remote).dns
                              else old(remote).dns[w.newDns := Record(binding.domain.value, binding.tunnel.value,
                                                                      binding.name.value)]
      ensures forall d :: d in old(remote).dns ==> d in remote.dns && remote.dns[d] == old(remote).dns[d]
    {
      hide Linked, Do, Enabled, ConnSaved, RecordsAt, TunnelsNamed;
      RecordsStay(remote, binding);
      var did := EnsureDns(w.findDns, w.dnsPick, w.newDns, w.record);
      ok := did.Some?;
      if ok { ok := Finish(did.value, w); }
    }

    /** The record's id is saved, and the connector's files are written. */
    method Finish(did: DnsId, w: World) returns (ok: bool)
      requires Valid() && At(SaveDns(did))
      modifies this`binding, this`saved, this`sys, this`steps
      ensures Valid() && old(steps) <= steps && Aside(old(sys)) && At(if ok then Running else Ended)
      ensures ok <==> w.keepDns.Acked? && w.files
      ensures ok ==> binding == saved == old(binding).(dns := Some(did))
    {
      hide Linked, Do, Enabled, ConnSaved;
      ok := SaveStep(SaveDns(did), WithDns(binding, did), w.keepDns);
      if !ok { return; }
      Proceed(WriteFiles, w.files);
      ok := w.files;
    }

    /**
     * One attempt, from the certificate to the running connector: every remote resource is made only after the intent
     * it belongs to is saved. It succeeds exactly if every answer it needs is good and no foreign record is at the
     * domain; then tunnel and record exist and are saved, what was missing was added, and nothing else changed.
     */
    method ConnectFlow(w: World) returns (ok: bool)
      requires Valid() && At(ReadCert) && binding.name.Some? && binding.domain.Some?
      requires TunnelAnswers(remote, binding, w) && DnsAnswers(remote, binding, w)
      modifies this
      ensures Valid() && old(steps) <= steps && Aside(old(sys)) && At(if ok then Running else Ended)
      ensures ok <==> Connects(old(remote), old(binding), old(cert), w)
      ensures ok ==> remote == Published(old(remote), old(binding), w) && Established()
      ensures ok ==>
                binding == Resumed(old(binding)).(provisioned := true, dns := binding.dns,
                                                  tunnel := Some(TunnelOf(old(remote), old(binding), w)))
    {
      hide Linked, Do, Enabled, RecordsAt, TunnelsNamed, TunnelAnswers, DnsAnswers, Intends, GetsTunnel, GetsDns;
      hide TunnelOf, DnsOf, OwnRecord;
      ghost var b, r := binding, remote;
      AnswersHold(r, r, b, Resumed(b).(provisioned := true), w);
      AnswersHold(r, r, b.(tunnel := Some(TunnelOf(r, b, w))),
                  Resumed(b).(provisioned := true, tunnel := Some(TunnelOf(r, b, w))), w);
      ok := Intend(w);
      if !ok { return; }
      ok := Provide(w);
      if ok { PublishedOwn(r, b, w); }
    }

    /** Tunnel and record, each saved. */
    method Provide(w: World) returns (ok: bool)
      requires Valid() && At(FindTunnel) && saved == binding && binding.name.Some? && binding.domain.Some?
      requires TunnelAnswers(remote, binding, w) && DnsAnswers(remote, binding, w)
      modifies this`remote, this`binding, this`saved, this`sys, this`steps
      ensures Valid() && old(steps) <= steps && Aside(old(sys)) && At(if ok then Running else Ended)
      ensures ok <==>
              GetsTunnel(old(remote), old(binding), w) && w.files
              && GetsDns(old(remote), old(binding).(tunnel := Some(TunnelOf(old(remote), old(binding), w))), w)
      ensures ok ==>
                remote == Published(old(remote), old(binding), w)
                && binding == saved == old(binding).(tunnel := Some(TunnelOf(old(remote), old(binding), w)),
                                                     dns := Some(DnsOf(old(remote), old(binding), w)))
    {
      hide Linked, Do, Enabled, RecordsAt, TunnelsNamed, TunnelAnswers, DnsAnswers, GetsTunnel, GetsDns, OwnRecord;
      hide TunnelOf, DnsOf;
      ghost var b, r := binding, remote;
      ok := Tunnelled(w);
      if !ok { return; }
      AnswersHold(r, remote, b, binding, w);
      AnswersHold(r, remote, b.(tunnel := binding.tunnel), binding, w);
      ok := Publish(w);
    }

    /** What an attempt gets depends on name and domain of the binding, and for the record on its tunnel. */
    lemma {:induction false} AnswersHold(r: Remote, q: Remote, b: Binding, c: Binding, w: World)
      requires b.name == c.name && b.domain == c.domain
      ensures r == q ==>
                TunnelAnswers(r, b, w) == TunnelAnswers(q, c, w) && GetsTunnel(r, b, w) == GetsTunnel(q, c, w)
                && TunnelOf(r, b, w) == TunnelOf(q, c, w)
      ensures r.dns == q.dns ==>
                RecordsAt(r, b.domain) == RecordsAt(q, c.domain) && DnsAnswers(r, b, w) == DnsAnswers(q, c, w)
                && DnsOf(r, b, w) == DnsOf(q, c, w) && (b.tunnel == c.tunnel ==> GetsDns(r, b, w) == GetsDns(q, c, w))
    {
    }

    /** An attempt that succeeds ends with a tunnel of the name and an own record. */
    lemma {:induction false} PublishedOwn(r: Remote, b: Binding, w: World)
      requires b.name.Some? && b.domain.Some? && TunnelAnswers(r, b, w) && DnsAnswers(r, b, w)
      requires GetsDns(r, b.(tunnel := Some(TunnelOf(r, b, w))), w)
      ensures var now, t, d := Published(r, b, w), TunnelOf(r, b, w), DnsOf(r, b, w);
        && t in now.tunnels && Some(now.tunnels[t]) == b.name && d in now.dns
        && forall c: Binding :: c.name == b.name && c.domain == b.domain && c.tunnel == Some(t) ==>
            OwnRecord(now.dns[d], c)
    {
    }

    /** The records at a domain do not depend on tunnels. */
    lemma {:induction false} RecordsStay(r: Remote, b: Binding)
      ensures forall q: Remote :: q.dns == r.dns ==> RecordsAt(q, b.domain) == RecordsAt(r, b.domain)
      ensures forall d :: d in RecordsAt(r, b.domain) ==> d in r.dns && Some(r.dns[d].domain) == b.domain
      ensures forall t :: t in TunnelsNamed(r, b.name) ==> t in r.tunnels && Some(r.tunnels[t]) == b.name
    {
    }

    /** Tunnel and record exist, are the appliance's own, and are saved, as is the wish to be connected. */
    predicate Established() reads this {
      && binding == saved && saved.provisioned && cert && (saved.removing || saved.resume)
      && saved.name.Some? && saved.domain.Some?
      && saved.tunnel.Some? && saved.tunnel.value in remote.tunnels
      && Some(remote.tunnels[saved.tunnel.value]) == saved.name
      && saved.dns.Some? && saved.dns.value in remote.dns && OwnRecord(remote.dns[saved.dns.value], saved)
    }

    /**
     * A connected appliance dies and starts again. If every reply is good and nobody else has a record at its domain,
     * it is connected again, and the account is as it was.
     */
    method Reconnect(w: World) returns (ok: bool)
      requires Valid() && At(Running) && Established() && !saved.removing && Well(w)
      requires TunnelAnswers(remote, saved, w) && DnsAnswers(remote, saved, w)
      requires forall d :: d in RecordsAt(remote, saved.domain) ==> Some(remote.dns[d].comment) == saved.name
      modifies this
      ensures ok && Valid() && old(steps) <= steps && At(Running) && Established()
      ensures remote == old(remote) && saved.tunnel == old(saved).tunnel && saved.name == old(saved).name
    {
      OwnAre();
      hide Linked, Do, Enabled, RecordsAt, TunnelsNamed, TunnelAnswers, DnsAnswers, Connects, Published, OwnRecord;
      ghost var b := saved;
      Restart();
      AnswersHold(remote, remote, b, binding, w);
      StillThere(remote, b, binding, w);
      ok := ConnectFlow(w);
    }

    /** With good replies, an attempt finds the tunnel and the record of an earlier one. */
    lemma {:induction false} StillThere(r: Remote, b: Binding, c: Binding, w: World)
      requires Well(w) && TunnelAnswers(r, b, w) && DnsAnswers(r, b, w)
               && b == c.(status := b.status, resume := b.resume)
      requires b.name.Some? && b.domain.Some? && b.tunnel.Some? && b.tunnel.value in r.tunnels
               && Some(r.tunnels[b.tunnel.value]) == b.name
      requires b.dns.Some? && b.dns.value in r.dns && OwnRecord(r.dns[b.dns.value], b)
      requires forall t :: t in TunnelsNamed(r, b.name) ==> b.tunnel == Some(t)
      requires forall d :: d in RecordsAt(r, b.domain) ==> OwnRecord(r.dns[d], b)
      ensures Connects(r, c, true, w) && Published(r, c, w) == r && TunnelOf(r, c, w) == b.tunnel.value
    {
      assert b.tunnel.value in TunnelsNamed(r, b.name) && b.dns.value in RecordsAt(r, b.domain);
    }

    /** While connected, a tunnel of the appliance's name is the saved one, and a record with it is its own. */
    lemma {:induction false} OwnAre()
      requires Valid() && At(Running) && saved.name.Some?
      ensures forall t :: t in TunnelsNamed(remote, saved.name) ==> saved.tunnel == Some(t)
      ensures forall d :: d in RecordsAt(remote, saved.domain) && Some(remote.dns[d].comment) == saved.name ==>
              OwnRecord(remote.dns[d], saved)
    {
      assert Inv(start);
      RunInv(start, steps);
      hide Linked, Possible, After, Do, Enabled;
      assert saved.name.value in sys.used;
      forall t | t in TunnelsNamed(remote, saved.name) ensures saved.tunnel == Some(t) {
        assert t in OwnTunnels(remote, sys.used);
      }
      forall d | d in remote.dns && Some(remote.dns[d].comment) == saved.name ensures OwnRecord(remote.dns[d], saved) {
        assert d in OwnDns(remote, sys.used);
      }
    }

    // ---------- Cleanup ----------

    /** Nothing of the connect worker is left to disturb the cleanup. */
    ghost predicate Cleaning(k: Clean) reads this { Valid() && At(NoConn) && CleanAt(k) }

    /** After waiting for the connect worker, cleanupFlow reads the binding and what is left to do. */
    method CleanupReads(stopped: bool) returns (ok: bool)
      requires Valid() && CleanAt(AwaitConn) && (stopped ==> !running)
      modifies this`sys, this`steps
      ensures Same(old(sys), old(steps))
      ensures if !ok then CleanAt(Report)
              else if binding.remoteCleared then Cleaning(RemoveFiles)
              else if !binding.provisioned then Cleaning(SaveCleared)
              else cert && Cleaning(if binding.tunnel.None? then Locate(binding) else Inspect(binding))
      ensures ok <==> stopped && (binding.remoteCleared || !binding.provisioned || cert)
    {
      Take(CleanStart(stopped));
      if !stopped { return false; }
      Take(CleanRead);
      ok := binding.remoteCleared || !binding.provisioned || cert;
    }

    ghost predicate Same(was: Sys, before: seq<Action>) reads this {
      Valid() && before <= steps && sys.used == was.used
    }

    /** Which tunnel is to go: its id, whether it still exists, and that it is ours. */
    method Identify(b: Binding, a: Answers) returns (who: Identity)
      requires Cleaning(if b.tunnel.None? then Locate(b) else Inspect(b))
      requires TunnelsNamed(remote, b.name) != {} ==> a.pick in TunnelsNamed(remote, b.name)
      modifies this`sys, this`steps
      ensures Same(old(sys), old(steps))
      ensures who ==
        if b.tunnel.None? && !a.find then Unknown
        else if b.tunnel.None? && TunnelsNamed(remote, b.name) == {} then Absent
        else if !a.look then Unknown
        else if IdOf(b, a) in remote.tunnels && Some(remote.tunnels[IdOf(b, a)]) != b.name then Unknown
        else Known(IdOf(b, a), IdOf(b, a) in remote.tunnels)
      ensures match who
              case Unknown => CleanAt(Report)
              case Absent => Cleaning(SaveCleared) && TunnelsNamed(remote, b.name) == {}
              case Known(id, there) =>
                && Cleaning(ListDns(b.(tunnel := Some(id)), there)) && (b.tunnel.Some? ==> b.tunnel == Some(id))
                && (there <==> id in remote.tunnels) && (there ==> Some(remote.tunnels[id]) == b.name)
    {
      var id := a.pick;
      if b.tunnel.None? {
        Take(CleanGet(a.find, a.pick));
        if !a.find { return Unknown; }
        if TunnelsNamed(remote, b.name) == {} { return Absent; }
      } else {
        id := b.tunnel.value;
      }
      assert Cleaning(Inspect(b.(tunnel := Some(id))));
      Take(CleanGet(a.look, 0));
      if !a.look { return Unknown; }
      var there := id in remote.tunnels;
      if there && Some(remote.tunnels[id]) != b.name { return Unknown; }
      who := Known(id, there);
    }

    /** One attempt to delete a record. */
    method TryRecord(k: Clean, did: DnsId, reply: Reply, giveUp: bool)
      requires Cleaning(k) && k.DropDns? && did in k.todo
      modifies this`remote, this`sys, this`steps
      ensures Same(old(sys), old(steps))
      ensures if reply.Acked? then Cleaning(k.(todo := k.todo - {did})) else if giveUp then CleanAt(Report)
              else Cleaning(k)
      ensures remote == if reply.Committed() then old(remote).(dns := old(remote).dns - {did}) else old(remote)
    {
      hide Linked;
      Take(CleanDelete(did, reply, giveUp));
      if reply.Committed() { remote := remote.(dns := remote.dns - {did}); }
    }

    /** Up to five attempts to delete one record; an attempt that fails may have deleted it all the same. */
    method DropRecord(k: Clean, did: DnsId, tries: nat -> Try) returns (ok: bool)
      requires Cleaning(k) && k.DropDns? && did in k.todo
      modifies this`remote, this`sys, this`steps
      ensures Same(old(sys), old(steps))
      ensures ok <==> Succeeds(tries)
      ensures if ok then Cleaning(k.(todo := k.todo - {did})) && did !in remote.dns else CleanAt(Report)
      ensures remote == old(remote) || remote == old(remote).(dns := old(remote).dns - {did})
    {
      hide Linked, Do, Enabled;
      var attempt := 0;
      while true
        invariant attempt < ATTEMPTS && Cleaning(k) && Same(old(sys), old(steps))
        invariant forall i :: 0 <= i < attempt ==> !tries(i).reply.Acked? && tries(i).again
        invariant remote == old(remote) || remote == old(remote).(dns := old(remote).dns - {did})
        decreases ATTEMPTS - attempt
      {
        var t := tries(attempt);
        var giveUp := !t.again || attempt + 1 == ATTEMPTS;
        TryRecord(k, did, t.reply, giveUp);
        if t.reply.Acked? { return true; }
        if giveUp { return false; }
        attempt := attempt + 1;
      }
    }

    /** The records listed for the domain, one after the other; those of others are passed over. */
    method DropRecords(b: Binding, there: bool, order: seq<DnsId>, drop: DnsId -> nat -> Try) returns (ok: bool)
      requires Cleaning(DropDns(b, there, RecordsOf(remote, b)))
      requires Lists(order, RecordsAt(remote, b.domain))
      modifies this`remote, this`sys, this`steps
      ensures Same(old(sys), old(steps)) && remote.tunnels == old(remote).tunnels && OnlyOwnGone(old(remote), remote, b)
      ensures ok <==> forall d :: d in RecordsOf(old(remote), b) ==> Succeeds(drop(d))
      ensures if ok then Cleaning(DropDns(b, there, {})) && RecordsOf(remote, b) == {} else CleanAt(Report)
    {
      hide Linked, Do, Enabled, OnlyOwnGone, RecordsOf, Todo, Lists, Succeeds;
      var listed, i := remote.dns, 0;
      ListedAll(remote, b, order);
      NothingGone(remote, b);
      ok := true;
      while i < |order|
        invariant 0 <= i <= |order| && Same(old(sys), old(steps)) && listed == old(remote).dns
        invariant Cleaning(DropDns(b, there, Todo(listed, b, order, i)))
        invariant remote.tunnels == old(remote).tunnels && OnlyOwnGone(old(remote), remote, b)
        invariant RecordsOf(remote, b) <= Todo(listed, b, order, i) <= RecordsOf(old(remote), b)
        invariant ok && forall d :: d in RecordsOf(old(remote), b) && d !in Todo(listed, b, order, i) ==>
                  Succeeds(drop(d))
      {
        TodoNext(listed, b, order, i);
        if OwnRecord(listed[order[i]], b) {
          ghost var mid := remote;
          ok := DropRecord(DropDns(b, there, Todo(listed, b, order, i)), order[i], drop(order[i]));
          DropOne(old(remote), mid, remote, b, order[i]);
          if !ok { return; }
        }
        i := i + 1;
      }
    }

    method ListRecords(own: Binding, there: bool, list: bool) returns (ok: bool)
      requires Cleaning(ListDns(own, there))
      modifies this`sys, this`steps
      ensures Same(old(sys), old(steps)) && ok == list
      ensures if ok then Cleaning(DropDns(own, there, RecordsOf(remote, own))) else CleanAt(Report)
    {
      hide Linked, RecordsOf;
      Take(CleanGet(list, 0));
      ok := list;
    }

    method RecordsGone(own: Binding, there: bool)
      requires Cleaning(DropDns(own, there, {}))
      modifies this`sys, this`steps
      ensures Same(old(sys), old(steps)) && Cleaning(if there then DropConnections(own) else SaveCleared)
    {
      hide Linked;
      Take(CleanNext(true));
    }

    /** list_dns and delete_dns. */
    method RemoveListed(own: Binding, there: bool, a: Answers) returns (ok: bool)
      requires Cleaning(ListDns(own, there)) && Lists(a.order, RecordsAt(remote, own.domain))
      modifies this`remote, this`sys, this`steps
      ensures Same(old(sys), old(steps)) && remote.tunnels == old(remote).tunnels
              && OnlyOwnGone(old(remote), remote, own)
      ensures ok <==> a.list && forall d :: d in RecordsOf(old(remote), own) ==> Succeeds(a.drop(d))
      ensures if ok then Cleaning(if there then DropConnections(own) else SaveCleared) else CleanAt(Report)
    {
      hide Linked, Do, Enabled, OnlyOwnGone, Lists, Clear, RecordsOf, Succeeds;
      NothingGone(remote, own);
      ok := ListRecords(own, there, a.list);
      if !ok { return; }
      ok := DropRecords(own, there, a.order, a.drop);
      if ok { RecordsGone(own, there); }
    }

    /** One attempt to delete the tunnel. */
    method TryTunnel(k: Clean, reply: Reply, giveUp: bool)
      requires Cleaning(k) && k.DropTunnel? && k.b.tunnel.Some?
      modifies this`remote, this`sys, this`steps
      ensures Same(old(sys), old(steps))
      ensures if reply.Acked? then Cleaning(SaveCleared) else if giveUp then CleanAt(Report) else Cleaning(k)
      ensures remote == if reply.Committed() then old(remote).(tunnels := old(remote).tunnels - {k.b.tunnel.value})
              else old(remote)
    {
      hide Linked;
      Take(CleanDropTunnel(reply, giveUp));
      if reply.Committed() { remote := remote.(tunnels := remote.tunnels - {k.b.tunnel.value}); }
    }

    method DropOwnTunnel(k: Clean, tries: nat -> Try) returns (ok: bool)
      requires Cleaning(k) && k.DropTunnel? && k.b.tunnel.Some?
      modifies this`remote, this`sys, this`steps
      ensures Same(old(sys), old(steps))
      ensures ok <==> Succeeds(tries)
      ensures if ok then Cleaning(SaveCleared) && k.b.tunnel.value !in remote.tunnels else CleanAt(Report)
      ensures remote == old(remote) || remote == old(remote).(tunnels := old(remote).tunnels - {k.b.tunnel.value})
    {
      hide Linked, Do, Enabled;
      var attempt := 0;
      while true
        invariant attempt < ATTEMPTS && Cleaning(k) && Same(old(sys), old(steps))
        invariant forall i :: 0 <= i < attempt ==> !tries(i).reply.Acked? && tries(i).again
        invariant remote == old(remote) || remote == old(remote).(tunnels := old(remote).tunnels - {k.b.tunnel.value})
        decreases ATTEMPTS - attempt
      {
        var t := tries(attempt);
        var giveUp := !t.again || attempt + 1 == ATTEMPTS;
        TryTunnel(k, t.reply, giveUp);
        if t.reply.Acked? { return true; }
        if giveUp { return false; }
        attempt := attempt + 1;
      }
    }

    /**
     * removeOwned: ownership is checked before anything goes, the records go before the tunnel they point to, and
     * nothing that belongs to others goes. Success leaves nothing of the appliance in the account.
     */
    method RemoveOwned(b: Binding, a: Answers) returns (ok: bool)
      requires Cleaning(if b.tunnel.None? then Locate(b) else Inspect(b))
      requires Answered(remote, b, a)
      modifies this`remote, this`sys, this`steps
      ensures Same(old(sys), old(steps)) && OnlyOwnGone(old(remote), remote, b)
      ensures ok <==> Removes(old(remote), b, a)
      ensures if ok then Cleaning(SaveCleared) && Clear(remote, sys.used) else CleanAt(Report)
    {
      hide Linked, Do, Enabled, TunnelsNamed, RecordsOf, RecordsAt, OnlyOwnGone, Lists, Clear, Succeeds, Removes;
      hide RemovesKnown;
      NothingGone(remote, b.(tunnel := Some(IdOf(b, a))));
      NothingGone(remote, b);
      RemovesBy(remote, b, a);
      var who := Identify(b, a);
      match who
      case Unknown => return false;
      case Absent => ClearedNow(); return true;
      case Known(id, there) =>
        ok := RemoveKnown(b.(tunnel := Some(id)), there, a);
        GoneThenGone(old(remote), old(remote), remote, b, b.(tunnel := Some(id)));
        if ok { ClearedNow(); }
    }

    /** The records, and then the tunnel if it is still there. */
    method RemoveKnown(own: Binding, there: bool, a: Answers) returns (ok: bool)
      requires Cleaning(ListDns(own, there)) && Lists(a.order, RecordsAt(remote, own.domain))
      requires own.tunnel.Some? && (there <==> own.tunnel.value in remote.tunnels)
      requires there ==> Some(remote.tunnels[own.tunnel.value]) == own.name
      modifies this`remote, this`sys, this`steps
      ensures Same(old(sys), old(steps)) && OnlyOwnGone(old(remote), remote, own)
      ensures ok <==> RemovesKnown(old(remote), own, there, a)
      ensures if ok then Cleaning(SaveCleared) else CleanAt(Report)
    {
      hide Linked, Do, Enabled, TunnelsNamed, RecordsOf, RecordsAt, OnlyOwnGone, Lists, Clear, Succeeds;
      ok := RemoveListed(own, there, a);
      ghost var mid := remote;
      NothingGone(mid, own);
      if ok && there { ok := DropChecked(own, a); }
      GoneThenGone(old(remote), mid, remote, own, own);
    }

    /** clear_connections and delete_tunnel. */
    method DropChecked(own: Binding, a: Answers) returns (ok: bool)
      requires Cleaning(DropConnections(own)) && own.tunnel.Some? && own.name.Some?
      requires own.tunnel.value in remote.tunnels ==> Some(remote.tunnels[own.tunnel.value]) == own.name
      modifies this`remote, this`sys, this`steps
      ensures Same(old(sys), old(steps)) && remote.dns == old(remote).dns && OnlyOwnGone(old(remote), remote, own)
      ensures ok <==> a.connections && Succeeds(a.delete)
      ensures if ok then Cleaning(SaveCleared) else CleanAt(Report)
    {
      Take(CleanNext(a.connections));
      if !a.connections { return false; }
      ok := DropOwnTunnel(DropTunnel(own), a.delete);
    }

    /** Where the cleanup says that the account is cleared, it is. */
    lemma {:induction false} ClearedNow()
      requires Cleaning(SaveCleared)
      ensures Clear(remote, sys.used)
    {
      assert Inv(start);
      RunInv(start, steps);
    }

    /**
     * The cleanup from its beginning: on success the binding is blank, the credentials are gone and nothing of the
     * appliance is left in the account. On any outcome everything of others is still there.
     */
    method CleanupFlow(a: Answers) returns (ok: bool)
      requires Valid() && CleanAt(AwaitConn) && (a.stopped ==> !running) && Answered(remote, binding, a)
      modifies this
      ensures Same(old(sys), old(steps)) && OnlyOwnGone(old(remote), remote, old(binding))
      ensures ok <==> CleansUp(old(remote), old(binding), old(cert), a)
      ensures ok ==> binding == saved == BLANK && !cert && Clear(remote, sys.used)
      ensures !ok ==> CleanAt(Report)
      ensures saved.status.Disconnected? || saved.remoteCleared || !cert ==> Clear(remote, sys.used)
    {
      hide Linked, Do, Enabled, OnlyOwnGone, Answered, Clear, Removes, Succeeds;
      NothingGone(remote, binding);
      ok := CleanupReads(a.stopped);
      if ok && !binding.remoteCleared && binding.provisioned { ok := RemoveOwned(binding, a); }
      if ok { ok := FinishCleanup(a.cleared, a.files, a.certGone, a.blank); }
      NothingLeftBehind();
    }

    /** What a failed cleanup leaves: the wish to remove, and the stage it failed in. */
    method CleanupReport(r: Reply)
      requires Valid() && CleanAt(Report)
      modifies this`binding, this`saved, this`sys, this`steps
      ensures Same(old(sys), old(steps)) && CleanAt(NoClean)
      ensures binding == old(binding).(status := Failed) && (saved == old(saved) || saved == binding)
    {
      Take(CleanReport(r));
      binding := binding.(status := Failed);
      if r.Committed() { saved := binding; }
    }

    /** One attempt to save. */
    method TrySave(k: Clean, changed: Binding, reply: Reply, giveUp: bool) returns (ok: bool)
      requires Cleaning(k) && (k.SaveCleared? || k.SaveBlank?)
      requires changed == if k.SaveCleared? then binding.(remoteCleared := true) else BLANK
      modifies this`binding, this`saved, this`sys, this`steps
      ensures Same(old(sys), old(steps)) && ok == reply.Acked?
      ensures if ok then binding == saved == changed && Cleaning(if k.SaveCleared? then RemoveFiles else NoClean)
              else binding == old(binding) && if giveUp then CleanAt(Report) else Cleaning(k)
    {
      hide Linked;
      Take(CleanSave(reply, giveUp));
      ok := Update(changed, reply);
    }

    /** cleanupSave: up to five attempts while there is time, each of which may have reached the database. */
    method CleanupSave(k: Clean, changed: Binding, tries: nat -> Try) returns (ok: bool)
      requires Cleaning(k) && (k.SaveCleared? || k.SaveBlank?)
      requires changed == if k.SaveCleared? then binding.(remoteCleared := true) else BLANK
      modifies this`binding, this`saved, this`sys, this`steps
      ensures Valid() && old(steps) <= steps && sys.used == old(sys).used
      ensures ok <==> Succeeds(tries)
      ensures ok ==> binding == saved == changed && Cleaning(if k.SaveCleared? then RemoveFiles else NoClean)
      ensures !ok ==> binding == old(binding) && CleanAt(Report)
    {
      hide Linked, Do, Enabled;
      var attempt := 0;
      while true
        invariant attempt < ATTEMPTS && old(steps) <= steps && sys.used == old(sys).used
        invariant forall i :: 0 <= i < attempt ==> !tries(i).reply.Acked? && tries(i).again
        invariant binding == old(binding) && Cleaning(k)
        decreases ATTEMPTS - attempt
      {
        var t := tries(attempt);
        var giveUp := !t.again || attempt + 1 == ATTEMPTS;
        ok := TrySave(k, changed, t.reply, giveUp);
        if ok || giveUp { return; }
        attempt := attempt + 1;
      }
    }

    method RemoveCredentials(ok: bool, certGone: bool)
      requires Cleaning(RemoveFiles)
      modifies this`cert, this`sys, this`steps
      ensures Valid() && old(steps) <= steps && sys.used == old(sys).used && (ok ==> !cert && Cleaning(SaveBlank))
      ensures !ok ==> CleanAt(Report)
    {
      Take(CleanFiles(ok, certGone));
      if ok || certGone { cert := false; }
    }

    /**
     * The end of a cleanup, once the account has been cleared: credentials go only after that is saved, and a binding
     * is blank only when nothing of the appliance is left in the account.
     */
    method FinishCleanup(cleared: nat -> Try, files: bool, certGone: bool, blank: nat -> Try) returns (ok: bool)
      requires Cleaning(if binding.remoteCleared then RemoveFiles else SaveCleared)
      modifies this`binding, this`saved, this`cert, this`sys, this`steps
      ensures Valid() && old(steps) <= steps && sys.used == old(sys).used && (ok || CleanAt(Report))
      ensures ok <==> (old(binding).remoteCleared || Succeeds(cleared)) && files && Succeeds(blank)
      ensures ok ==> binding == saved == BLANK && !cert && Clear(remote, sys.used)
      ensures saved.status.Disconnected? || saved.remoteCleared || !cert ==> Clear(remote, sys.used)
    {
      hide Linked, Do, Enabled;
      ok := true;
      if !binding.remoteCleared { ok := CleanupSave(SaveCleared, Cleared(binding), cleared); }
      if ok {
        RemoveCredentials(files, certGone);
        ok := files;
        if ok { ok := CleanupSave(SaveBlank, BLANK, blank); }
      }
      NothingLeftBehind();
    }

    /** Whatever has happened so far. */
    lemma {:induction false} NothingLeftBehind()
      requires Valid()
      ensures saved.status.Disconnected? || saved.remoteCleared || !cert || binding.status.Disconnected? ==>
              Clear(remote, sys.used)
    {
      NothingLeaks(start, steps);
    }
  }

  function Resumed(b: Binding): (r: Binding)
    ensures r == ConnSaved(b, SaveResume) && r.name == b.name && r.domain == b.domain
  {
    if b.removing then b else b.(resume := true, status := Connecting)
  }

  function Provisioned(b: Binding): (r: Binding)
    ensures r == ConnSaved(b, SaveProvisioned)
  {
    b.(provisioned := true)
  }

  function WithTunnel(b: Binding, id: TunnelId): (r: Binding)
    ensures r == ConnSaved(b, SaveTunnel(id))
  {
    b.(tunnel := Some(id))
  }

  function WithDns(b: Binding, did: DnsId): (r: Binding)
    ensures r == ConnSaved(b, SaveDns(did))
  {
    b.(dns := Some(did))
  }

  function Cleared(b: Binding): Binding { b.(remoteCleared := true) }
}
