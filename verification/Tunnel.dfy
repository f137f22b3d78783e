/**
 * Connecting and disconnecting a Cloudflare tunnel: remote resources are created and destroyed by workers that
 * persist their intent first. Every API call may fail with or without effect, every save may be lost, and the
 * process may die between any two effects.
 */
module Tunnel {
  import opened Common

  type Name = nat      // random tunnel name, also the comment on the DNS record
  type TunnelId = nat
  type DnsId = nat
  type Domain = string
  type Owner = string

  datatype Status = Disconnected | Authorizing | Connecting | Connected | Disconnecting | Failed

  datatype Binding = Binding(
    domain: Option<Domain>, owner: Option<Owner>, name: Option<Name>,
    tunnel: Option<TunnelId>, dns: Option<DnsId>, status: Status,
    resume: bool, provisioned: bool, removing: bool, remoteCleared: bool)

  const BLANK := Binding(None, None, None, None, None, Disconnected, false, false, false, false)

  datatype Record = Record(domain: Domain, target: TunnelId, comment: Name)

  /** The Cloudflare account. */
  datatype Remote = Remote(tunnels: map<TunnelId, Name>, dns: map<DnsId, Record>)

  /** Where the connect worker stands; `Ended` is a failed or finished attempt. */
  datatype Conn =
    | NoConn | ReadCert | CheckZone | SaveResume | WriteSecret | SaveProvisioned
    | FindTunnel | CreateTunnel | SaveTunnel(id: TunnelId)
    | FindDns | CreateDns | SaveDns(did: DnsId) | WriteFiles | Running | Ended

  /** Where the cleanup worker stands; `b` is the binding it read when it began. */
  datatype Clean =
    | NoClean | AwaitConn | ReadBinding
    | Locate(b: Binding) | Inspect(b: Binding) | ListDns(b: Binding, exists_: bool)
    | DropDns(b: Binding, exists_: bool, todo: set<DnsId>) | DropConnections(b: Binding) | DropTunnel(b: Binding)
    | SaveCleared | RemoveFiles | SaveBlank | Report

  datatype Process = Down | Up(mem: Binding, conn: Conn, clean: Clean)

  /** `used`: every name ever generated. `touched`: the cleanup of the current name has begun. */
  datatype Sys = Sys(db: Binding, proc: Process, remote: Remote, cert: bool, used: set<Name>, touched: bool)

  datatype Action =
    | Boot
    | Crash
    | Connect(owner: Owner, domain: Domain, fresh_: Name, reply: Reply)
    | Disconnect(owner: Owner, reply: Reply)
    | ShowStatus(status: Status)
    | Cert(granted: bool)
    | Advance(ok: bool)                      // steps without a choice: zone check, files, connector
    | Save(reply: Reply)                     // the save the connect worker stands at
    | Lookup(ok: bool, pick: nat)            // GET of tunnels or DNS records; `pick` is the first match, if any
    | CreateT(id: TunnelId, reply: Reply)
    | CreateD(did: DnsId, reply: Reply)
    | RetryConnect
    | FinishConnect(reply: Reply)
    | CleanStart(ok: bool)
    | CleanRead
    | CleanGet(ok: bool, pick: TunnelId)
    | CleanDelete(did: DnsId, reply: Reply, giveUp: bool)
    | CleanNext(ok: bool)
    | CleanDropTunnel(reply: Reply, giveUp: bool)
    | CleanSave(reply: Reply, giveUp: bool)
    | CleanFiles(ok: bool, certGone: bool)   // the certificate goes first; a later file may fail
    | CleanReport(reply: Reply)
    | Foreign(remote: Remote)

  // ---------- Saves ----------

  /** update(): memory takes the change only if the save is acknowledged; the database may take it regardless. */
  function Update(s: Sys, changed: Binding, r: Reply): Sys
    requires s.proc.Up?
  {
    s.(db := if r.Committed() then changed else s.db,
       proc := if r.Acked? then s.proc.(mem := changed) else s.proc)
  }

  // ---------- The connect worker ----------

  function AtConn(s: Sys, c: Conn): Sys
    requires s.proc.Up?
  {
    s.(proc := s.proc.(conn := c))
  }

  function TunnelsNamed(r: Remote, n: Option<Name>): set<TunnelId> {
    set t | t in r.tunnels && Some(r.tunnels[t]) == n
  }

  function RecordsAt(r: Remote, d: Option<Domain>): set<DnsId> {
    set k | k in r.dns && Some(r.dns[k].domain) == d
  }

  predicate OwnRecord(x: Record, b: Binding) {
    Some(x.domain) == b.domain && Some(x.target) == b.tunnel && Some(x.comment) == b.name
  }

  /** The records at the domain that match the binding in every respect. */
  function RecordsOf(r: Remote, b: Binding): set<DnsId> {
    set d | d in RecordsAt(r, b.domain) && OwnRecord(r.dns[d], b)
  }

  /** What the connect worker's GET returns: the tunnels of its name, or the records of its domain. */
  function Found(s: Sys): set<nat>
    requires s.proc.Up?
  {
    if s.proc.conn.FindTunnel? then TunnelsNamed(s.remote, s.proc.mem.name) else RecordsAt(s.remote, s.proc.mem.domain)
  }

  predicate ConnEnabled(s: Sys, a: Action)
    requires s.proc.Up?
  {
    var c := s.proc.conn;
    match a
    case Cert(_) => c.ReadCert?
    case Advance(_) => c.CheckZone? || c.WriteSecret? || c.WriteFiles? || c.Running?
    case Save(_) => c.SaveResume? || c.SaveProvisioned? || c.SaveTunnel? || c.SaveDns?
    case Lookup(ok, pick) =>
      var found := Found(s);
      (c.FindTunnel? || c.FindDns?) && (ok && found != {} ==> pick in found)
    case CreateT(id, _) => c.CreateTunnel? && id !in s.remote.tunnels && s.proc.mem.name.Some?
    case CreateD(did, _) =>
      c.CreateDns? && did !in s.remote.dns
      && s.proc.mem.name.Some? && s.proc.mem.tunnel.Some? && s.proc.mem.domain.Some?
    case RetryConnect => c.Ended? && s.proc.mem.resume && !s.proc.mem.removing
    case FinishConnect(_) => c.Ended?
    case _ => false
  }

  function ConnSaved(b: Binding, c: Conn): Binding {
    match c
    case SaveResume => if b.removing then b else b.(resume := true, status := Connecting)
    case SaveProvisioned => b.(provisioned := true)
    case SaveTunnel(id) => b.(tunnel := Some(id))
    case SaveDns(did) => b.(dns := Some(did))
    case _ => b
  }

  function AfterSave(c: Conn): Conn {
    match c
    case SaveResume => WriteSecret
    case SaveProvisioned => FindTunnel
    case SaveTunnel(_) => FindDns
    case _ => WriteFiles
  }

  function AfterAdvance(c: Conn): Conn {
    match c
    case CheckZone => SaveResume
    case WriteSecret => SaveProvisioned
    case WriteFiles => Running
    case _ => Ended
  }

  function ConnDo(s: Sys, a: Action): Sys
    requires s.proc.Up? && ConnEnabled(s, a)
  {
    var c, b := s.proc.conn, s.proc.mem;
    match a
    case Cert(granted) =>
      if s.cert then AtConn(s, CheckZone)
      else if b.provisioned || !granted then AtConn(s, Ended)
      else AtConn(s, CheckZone).(cert := true)
    case Advance(ok) => AtConn(s, if ok then AfterAdvance(c) else Ended)
    case Save(r) => AtConn(Update(s, ConnSaved(b, c), r), if r.Acked? then AfterSave(c) else Ended)
    case Lookup(ok, pick) =>
      if !ok then AtConn(s, Ended)
      else if Found(s) == {} then AtConn(s, if c.FindTunnel? then CreateTunnel else CreateDns)
      else if c.FindTunnel? then AtConn(s, SaveTunnel(pick))
      else AtConn(s, if OwnRecord(s.remote.dns[pick], b) then SaveDns(pick) else Ended)
    case CreateT(id, r) =>
      var t := if r.Committed() then s.(remote := s.remote.(tunnels := s.remote.tunnels[id := b.name.value])) else s;
      AtConn(t, if r.Acked? then SaveTunnel(id) else Ended)
    case CreateD(did, r) =>
      var x := Record(b.domain.value, b.tunnel.value, b.name.value);
      var t := if r.Committed() then s.(remote := s.remote.(dns := s.remote.dns[did := x])) else s;
      AtConn(t, if r.Acked? then SaveDns(did) else Ended)
    case RetryConnect => AtConn(s, ReadCert)
    case FinishConnect(r) =>
      if b.status.Disconnecting? then AtConn(s, NoConn)
      else
        var failed := b.(status := Failed);
        AtConn(s, NoConn).(proc := Up(failed, NoConn, s.proc.clean), db := if r.Committed() then failed else s.db)
  }

  // ---------- The cleanup worker ----------

  function AtClean(s: Sys, k: Clean): Sys
    requires s.proc.Up?
  {
    s.(proc := s.proc.(clean := k))
  }

  predicate CleanEnabled(s: Sys, a: Action)
    requires s.proc.Up?
  {
    var k := s.proc.clean;
    match a
    case CleanStart(ok) => k.AwaitConn? && (ok ==> s.proc.conn.NoConn?)
    case CleanRead => k.ReadBinding?
    case CleanGet(ok, pick) =>
      (k.Locate? || k.Inspect? || k.ListDns?)
      && (ok && k.Locate? && TunnelsNamed(s.remote, k.b.name) != {} ==> pick in TunnelsNamed(s.remote, k.b.name))
    case CleanDelete(did, _, _) => k.DropDns? && did in k.todo
    case CleanNext(_) => (k.DropDns? && k.todo == {}) || k.DropConnections?
    case CleanDropTunnel(_, _) => k.DropTunnel?
    case CleanSave(_, _) => k.SaveCleared? || k.SaveBlank?
    case CleanFiles(_, _) => k.RemoveFiles?
    case CleanReport(_) => k.Report?
    case _ => false
  }

  function CleanDo(s: Sys, a: Action): Sys
    requires s.proc.Up? && CleanEnabled(s, a)
  {
    var k, b := s.proc.clean, s.proc.mem;
    match a
    case CleanStart(ok) => AtClean(s, if ok then ReadBinding else Report)
    case CleanRead =>
      var t := s.(touched := true);
      if b.remoteCleared then AtClean(t, RemoveFiles)
      else if !b.provisioned then AtClean(t, SaveCleared)
      else if !s.cert then AtClean(t, Report)
      else if b.tunnel.None? then AtClean(t, Locate(b)) else AtClean(t, Inspect(b))
    case CleanGet(ok, pick) =>
      if !ok then AtClean(s, Report)
      else if k.Locate? then
        if TunnelsNamed(s.remote, k.b.name) == {} then AtClean(s, SaveCleared)
        else AtClean(s, Inspect(k.b.(tunnel := Some(pick))))
      else if k.Inspect? then
        if k.b.tunnel.Some? && k.b.tunnel.value in s.remote.tunnels then
          if Some(s.remote.tunnels[k.b.tunnel.value]) == k.b.name then AtClean(s, ListDns(k.b, true))
              else AtClean(s, Report)
        else AtClean(s, ListDns(k.b, false))
      else
        AtClean(s, DropDns(k.b, k.exists_, RecordsOf(s.remote, k.b)))
    case CleanDelete(did, r, giveUp) =>
      var t := if r.Committed() then s.(remote := s.remote.(dns := s.remote.dns - {did})) else s;
      AtClean(t, if r.Acked? then k.(todo := k.todo - {did}) else if giveUp then Report else k)
    case CleanNext(ok) =>
      if k.DropDns? then AtClean(s, if k.exists_ then DropConnections(k.b) else SaveCleared)
      else AtClean(s, if ok then DropTunnel(k.b) else Report)
    case CleanDropTunnel(r, giveUp) =>
      var t := if r.Committed() && k.b.tunnel.Some?
               then s.(remote := s.remote.(tunnels := s.remote.tunnels - {k.b.tunnel.value})) else s;
      AtClean(t, if r.Acked? then SaveCleared else if giveUp then Report else k)
    case CleanSave(r, giveUp) =>
      if k.SaveCleared? then
        AtClean(Update(s, b.(remoteCleared := true), r), if r.Acked? then RemoveFiles else if giveUp then Report else k)
      else
        AtClean(Update(s, BLANK, r), if r.Acked? then NoClean else if giveUp then Report else k)
    case CleanFiles(ok, certGone) =>
      AtClean(s, if ok then SaveBlank else Report).(cert := s.cert && !ok && !certGone)
    case CleanReport(r) =>
      var failed := b.(status := Failed);
      s.(proc := Up(failed, s.proc.conn, NoClean), db := if r.Committed() then failed else s.db)
  }

  // ---------- The manager ----------

  predicate OwnerRefused(b: Binding, owner: Owner) { b.owner.Some? && b.owner.value != owner }

  predicate ConnectAccepted(b: Binding, owner: Owner, domain: Domain) {
    !OwnerRefused(b, owner) && (b.domain.Some? ==> b.domain.value == domain) && !b.removing
  }

  predicate Enabled(s: Sys, a: Action) {
    match a
    case Boot => s.proc.Down?
    case Crash => s.proc.Up?
    case Connect(_, _, n, _) =>
      && s.proc.Up? && n !in s.used
      && (forall t :: t in s.remote.tunnels ==> s.remote.tunnels[t] != n)
      && (forall d :: d in s.remote.dns ==> s.remote.dns[d].comment != n)
    case Disconnect(_, _) => s.proc.Up?
    case ShowStatus(st) =>
      s.proc.Up? && !s.proc.conn.NoConn? && !s.proc.mem.status.Disconnecting?
      && (st.Authorizing? || st.Connecting? || st.Connected?)
    case Foreign(r) => OwnedKept(s, r)
    case _ => s.proc.Up? && (ConnEnabled(s, a) || CleanEnabled(s, a))
  }

  /** Before another tunnel can be created. */
  predicate Pre(c: Conn) {
    c.ReadCert? || c.CheckZone? || c.SaveResume? || c.WriteSecret? || c.SaveProvisioned? || c.FindTunnel?
        || c.CreateTunnel?
  }

  /** Another tunnel of the current name may still be created. */
  predicate MayCreate(s: Sys) {
    if s.proc.Up? then s.proc.mem.name.Some? && (!s.proc.mem.removing || Pre(s.proc.conn))
    else s.db.name.Some? && !s.db.removing
  }

  /** The tunnel's id is saved, or about to be, while another tunnel may still be created in its place. */
  predicate Critical(s: Sys, t: TunnelId) {
    !s.touched && MayCreate(s) && (s.db.tunnel == Some(t) || (s.proc.Up? && s.proc.conn == SaveTunnel(t)))
  }

  /**
   * Other users of the account come and go, and may delete what is the appliance's, but neither change nor forge it.
   */
  predicate OwnUnforged(s: Sys, r: Remote) {
    && (forall t :: t in r.tunnels && r.tunnels[t] in s.used ==> t in s.remote.tunnels)
    && (forall t ::
          t in r.tunnels && t in s.remote.tunnels && (r.tunnels[t] in s.used || s.remote.tunnels[t] in s.used) ==>
            r.tunnels[t] == s.remote.tunnels[t])
    && (forall d :: d in r.dns && r.dns[d].comment in s.used ==> d in s.remote.dns && s.remote.dns[d] == r.dns[d])
  }

  /** They leave the appliance's tunnel alone while it is critical. */
  predicate OwnedKept(s: Sys, r: Remote) {
    OwnUnforged(s, r)
    && forall t :: t in s.remote.tunnels && s.remote.tunnels[t] in s.used && Critical(s, t) ==> t in r.tunnels
  }

  function Do(s: Sys, a: Action): Sys
    requires Enabled(s, a)
  {
    match a
    case Boot =>
      if s.db.domain.None? then s.(proc := Up(s.db, NoConn, NoClean))
      else if s.db.removing && s.db.status.Disconnecting? then
        s.(proc := Up(s.db.(resume := false), NoConn, AwaitConn))
      else if s.db.resume && !s.db.removing then s.(proc := Up(s.db.(status := Connecting), ReadCert, NoClean))
      else s.(proc := Up(s.db.(status := Failed), NoConn, NoClean))
    case Crash => s.(proc := Down)
    case Connect(owner, domain, n, r) =>
      var b := s.proc.mem;
      if !ConnectAccepted(b, owner, domain) || !s.proc.conn.NoConn? then s
      else
        var isNew := b.domain.None?;
        var next := (if isNew then BLANK.(domain := Some(domain), owner := Some(owner), name := Some(n))
            else b).(status := Connecting);
        var t := Update(s, next, r).(used := if isNew then s.used + {n} else s.used,
                                     touched := if isNew then false else s.touched);
        if r.Acked? then AtConn(t, ReadCert) else t
    case Disconnect(owner, r) =>
      var b := s.proc.mem;
      if OwnerRefused(b, owner) || b.status.Disconnected? || b.status.Disconnecting? then s
      else
        var t := Update(s, b.(status := Disconnecting, resume := false, removing := true), r);
        if r.Acked? then AtClean(t, AwaitConn) else t
    case ShowStatus(st) => s.(proc := s.proc.(mem := s.proc.mem.(status := st)))
    case Foreign(r) => s.(remote := r)
    case _ => if ConnEnabled(s, a) then ConnDo(s, a) else CleanDo(s, a)
  }

  predicate Init(s: Sys) {
    s.db == BLANK && s.proc.Down? && !s.cert && s.used == {} && !s.touched
  }

  // ---------- What is promised ----------

  /** Tunnels and records that carry a name this appliance generated. */
  function OwnTunnels(r: Remote, used: set<Name>): set<TunnelId> { set t | t in r.tunnels && r.tunnels[t] in used }

  function OwnDns(r: Remote, used: set<Name>): set<DnsId> { set d | d in r.dns && r.dns[d].comment in used }

  /** The binding knows how to find and remove everything the appliance owns remotely. */
  ghost predicate Tracks(r: Remote, used: set<Name>, b: Binding) {
    && (forall t :: t in OwnTunnels(r, used) ==> b.name == Some(r.tunnels[t]) && b.provisioned && !b.remoteCleared)
    && (forall t :: t in OwnTunnels(r, used) && b.tunnel.Some? ==> b.tunnel == Some(t))
    && (forall d :: d in OwnDns(r, used) ==> OwnRecord(r.dns[d], b) && b.provisioned && !b.remoteCleared)
  }

  ghost predicate Clear(r: Remote, used: set<Name>) { OwnTunnels(r, used) == {} && OwnDns(r, used) == {} }

  // ---------- The inductive invariant ----------

  predicate WellFormed(used: set<Name>, b: Binding) {
    && (b.domain.Some? <==> b.name.Some?)
    && (b.name.Some? ==> b.name.value in used)
    && (b.provisioned || b.tunnel.Some? ==> b.name.Some?)
    && (b.status.Disconnected? <==> b.name.None?)
    && (b.name.None? ==> !b.removing && !b.remoteCleared)
  }

  /** Tunnel ids in a binding belong to its own tunnel while that exists. */
  predicate IdLive(r: Remote, b: Binding) {
    b.tunnel.Some? ==> b.tunnel.value in r.tunnels && Some(r.tunnels[b.tunnel.value]) == b.name
  }

  predicate PastProvision(c: Conn) {
    c.FindTunnel? || c.CreateTunnel? || c.SaveTunnel? || c.FindDns? || c.CreateDns? || c.SaveDns? || c.WriteFiles?
        || c.Running?
  }

  predicate PastTunnel(c: Conn) { c.FindDns? || c.CreateDns? || c.SaveDns? || c.WriteFiles? || c.Running? }

  predicate HasCert(c: Conn) {
    PastProvision(c) || c.CheckZone? || c.SaveResume? || c.WriteSecret? || c.SaveProvisioned?
  }

  ghost predicate ConnInv(s: Sys)
    requires s.proc.Up?
  {
    var c, b := s.proc.conn, s.proc.mem;
    && (!c.NoConn? ==> b.name.Some? && !s.touched && s.proc.clean in {NoClean, AwaitConn, Report})
    && (HasCert(c) ==> s.cert)
    && (PastProvision(c) ==> b.provisioned && s.db.provisioned && s.db.name == b.name)
    && (PastTunnel(c) ==> b.tunnel.Some? && s.db.tunnel == b.tunnel && s.db.domain == b.domain)
    && (c.CreateTunnel? ==> OwnTunnels(s.remote, s.used) == {} && b.tunnel.None? && s.db.tunnel.None?)
    && (c.SaveTunnel? ==> OwnTunnels(s.remote, s.used) <= {c.id} && (b.tunnel.Some? ==> b.tunnel.value == c.id))
    && (c.SaveTunnel? && !b.removing ==> OwnTunnels(s.remote, s.used) == {c.id})
    && (c.CreateDns? ==> OwnDns(s.remote, s.used) == {})
  }

  predicate CleanHolds(k: Clean) {
    k.Locate? || k.Inspect? || k.ListDns? || k.DropDns? || k.DropConnections? || k.DropTunnel?
  }

  predicate CleanDone(k: Clean) { k.SaveCleared? || k.RemoveFiles? || k.SaveBlank? }

  ghost predicate CleanInv(s: Sys)
    requires s.proc.Up?
  {
    var k, m := s.proc.clean, s.proc.mem;
    var tunnels, dns := OwnTunnels(s.remote, s.used), OwnDns(s.remote, s.used);
    && (!k.NoClean? ==> m.name.Some?)
    && (!k.NoClean? && !k.Report? ==> m.removing && (s.db.removing || s.db.name.None?))
    && (CleanHolds(k) ==> k.b.name == m.name && k.b.domain == m.domain && (m.tunnel.Some? ==> k.b.tunnel == m.tunnel))
    && (k.Locate? ==> dns == {} && k.b.tunnel.None?)
    && (CleanHolds(k) && !k.Locate? ==>
          && k.b.tunnel.Some? && (forall t :: t in tunnels ==> Some(t) == k.b.tunnel)
          && (forall d :: d in dns ==> OwnRecord(s.remote.dns[d], k.b)))
    && (k.ListDns? && !k.exists_ ==> tunnels == {})
    && (k.DropDns? ==> dns <= k.todo && (!k.exists_ ==> tunnels == {}))
    && (k.DropConnections? || k.DropTunnel? ==> dns == {})
    && (CleanDone(k) ==> Clear(s.remote, s.used))
    && (CleanHolds(k) || CleanDone(k) ==> s.touched && s.proc.conn.NoConn?)
    && (k.ReadBinding? ==> s.proc.conn.NoConn?)
  }

  /** What a binding, saved or in memory, always satisfies. */
  ghost predicate BindingInv(s: Sys, b: Binding) {
    && WellFormed(s.used, b) && Tracks(s.remote, s.used, b)
    && (!s.touched ==> !b.remoteCleared) && (!s.touched && MayCreate(s) ==> IdLive(s.remote, b))
    && (s.touched ==> b.removing || b.name.None?)
  }

  /** How far the saved binding may be from the one in memory. */
  predicate MemoryInv(touched: bool, db: Binding, mem: Binding, c: Conn) {
    && (mem.removing ==> db.removing || db.name.None?)
    && (!touched && mem.tunnel.Some? ==> db.tunnel == mem.tunnel)
    && (!touched && db.removing && (!mem.removing || Pre(c)) ==> db.tunnel == mem.tunnel)
  }

  ghost predicate Inv(s: Sys) {
    && BindingInv(s, s.db)
    && (s.proc.Up? ==> BindingInv(s, s.proc.mem) && ConnInv(s) && CleanInv(s))
    && (s.proc.Up? ==> MemoryInv(s.touched, s.db, s.proc.mem, s.proc.conn))
    && (s.proc.Up? && s.proc.mem.name.None? ==>
          s.db.tunnel.None? && !s.db.provisioned && !s.db.remoteCleared && Clear(s.remote, s.used))
    && (s.cert || Clear(s.remote, s.used))
    && (forall t, u :: t in OwnTunnels(s.remote, s.used) && u in OwnTunnels(s.remote, s.used) ==> t == u)
  }

  lemma {:induction false} InvCert(s: Sys, a: Action)
    requires a.Cert? && Inv(s) && Enabled(s, a)
    ensures Inv(ConnDo(s, a))
  {
  }

  lemma {:induction false} InvAdvance(s: Sys, a: Action)
    requires a.Advance? && Inv(s) && Enabled(s, a)
    ensures Inv(ConnDo(s, a))
  {
  }

  /** Saving a change of the binding keeps the invariant of everything the two workers do not look at. */
  lemma {:induction false} UpdateInv(s: Sys, changed: Binding, r: Reply)
    requires Inv(s) && s.proc.Up? && BindingInv(s, changed)
    requires changed.name == s.proc.mem.name && (s.proc.mem.removing ==> changed.removing)
    requires MemoryInv(s.touched, Update(s, changed, r).db, Update(s, changed, r).proc.mem, s.proc.conn)
    requires ConnInv(Update(s, changed, r)) && CleanInv(Update(s, changed, r))
    ensures Inv(Update(s, changed, r))
  {
  }

  /** The connect worker moves on and nothing else changes. */
  lemma {:induction false} AtConnInv(s: Sys, c: Conn)
    requires Inv(s) && s.proc.Up? && !s.proc.conn.NoConn? && !c.NoConn? && ConnInv(AtConn(s, c))
    requires Pre(c) && s.proc.mem.removing ==> Pre(s.proc.conn)
    ensures Inv(AtConn(s, c))
  {
  }

  lemma {:induction false} SavedInv(s: Sys, c: Conn)
    requires Inv(s) && s.proc.Up? && s.proc.conn == c
             && (c.SaveResume? || c.SaveProvisioned? || c.SaveTunnel? || c.SaveDns?)
    ensures BindingInv(s, ConnSaved(s.proc.mem, c))
  {
  }

  lemma {:induction false} UpdatedConnInv(s: Sys, c: Conn, r: Reply)
    requires Inv(s) && s.proc.Up? && s.proc.conn == c
             && (c.SaveResume? || c.SaveProvisioned? || c.SaveTunnel? || c.SaveDns?)
    ensures var u := Update(s, ConnSaved(s.proc.mem, c), r);
            ConnInv(u) && CleanInv(u) && ConnInv(AtConn(u, if r.Acked? then AfterSave(c) else Ended))
  {
  }

  lemma {:induction false} InvSave(s: Sys, a: Action)
    requires a.Save? && Inv(s) && Enabled(s, a)
    ensures Inv(ConnDo(s, a))
  {
    var c := s.proc.conn;
    var next := ConnSaved(s.proc.mem, c);
    SavedInv(s, c);
    UpdatedConnInv(s, c, a.reply);
    hide Inv, BindingInv, ConnInv, CleanInv;
    UpdateInv(s, next, a.reply);
    AtConnInv(Update(s, next, a.reply), if a.reply.Acked? then AfterSave(c) else Ended);
  }

  lemma {:induction false} InvLookup(s: Sys, a: Action)
    requires a.Lookup? && Inv(s) && Enabled(s, a)
    ensures Inv(ConnDo(s, a))
  {
    var c, b, r := s.proc.conn, s.proc.mem, s.remote;
    var own, dns := OwnTunnels(r, s.used), OwnDns(r, s.used);
    if a.ok && c.FindTunnel? {
      var found := TunnelsNamed(r, b.name);
      assert forall t :: t in own <==> t in found;
      assert b.tunnel.Some? ==> b.tunnel.value in found;
      assert s.db.tunnel.Some? ==> s.db.tunnel.value in found;
      forall t | t in found ensures own == {t} {
      }
    } else if a.ok {
      assert forall d :: d in dns ==> d in RecordsAt(r, b.domain);
    }
  }

  lemma {:induction false} InvCreateT(s: Sys, a: Action)
    requires a.CreateT? && Inv(s) && Enabled(s, a)
    ensures Inv(ConnDo(s, a))
  {
    var t := ConnDo(s, a);
    assert OwnTunnels(t.remote, t.used) == if a.reply.Committed() then {a.id} else {};
    assert OwnDns(t.remote, t.used) == OwnDns(s.remote, s.used);
  }

  lemma {:induction false} InvCreateD(s: Sys, a: Action)
    requires a.CreateD? && Inv(s) && Enabled(s, a)
    ensures Inv(ConnDo(s, a))
  {
  }

  lemma {:induction false} InvRetryConnect(s: Sys, a: Action)
    requires a.RetryConnect? && Inv(s) && Enabled(s, a)
    ensures Inv(ConnDo(s, a))
  {
  }

  lemma {:induction false} InvFinishConnect(s: Sys, a: Action)
    requires a.FinishConnect? && Inv(s) && Enabled(s, a)
    ensures Inv(ConnDo(s, a))
  {
  }

  lemma {:induction false} InvCleanStart(s: Sys, a: Action)
    requires a.CleanStart? && Inv(s) && Enabled(s, a)
    ensures Inv(CleanDo(s, a))
  {
  }

  /** The cleanup moves on and nothing else changes. */
  lemma {:induction false} AtCleanInv(s: Sys, k: Clean)
    requires Inv(s) && s.proc.Up? && CleanInv(AtClean(s, k))
    requires !s.proc.conn.NoConn? ==> k.Report? || k.AwaitConn?
    ensures Inv(AtClean(s, k))
  {
  }

  lemma {:induction false} TouchInv(s: Sys)
    requires Inv(s) && s.proc.Up? && s.proc.clean.ReadBinding?
    ensures Inv(s.(touched := true))
  {
    hide TunnelsNamed, RecordsAt;
  }

  lemma {:induction false} InvCleanRead(s: Sys, a: Action)
    requires a.CleanRead? && Inv(s) && Enabled(s, a)
    ensures Inv(CleanDo(s, a))
  {
    var t := s.(touched := true);
    TouchInv(s);
    AtCleanInv(t, CleanDo(s, a).proc.clean);
  }

  lemma {:induction false} InvLocate(s: Sys, a: Action)
    requires a.CleanGet? && Inv(s) && Enabled(s, a) && s.proc.clean.Locate?
    ensures Inv(CleanDo(s, a))
  {
    var t, k := CleanDo(s, a), s.proc.clean;
    assert forall x :: x in OwnTunnels(s.remote, s.used) <==> x in TunnelsNamed(s.remote, k.b.name);
    AtCleanInv(s, t.proc.clean);
  }

  lemma {:induction false} InvInspect(s: Sys, a: Action)
    requires a.CleanGet? && Inv(s) && Enabled(s, a) && s.proc.clean.Inspect?
    ensures Inv(CleanDo(s, a))
  {
    var t, k := CleanDo(s, a), s.proc.clean;
    assert forall x :: x in OwnTunnels(s.remote, s.used) ==> x == k.b.tunnel.value && x in s.remote.tunnels;
    AtCleanInv(s, t.proc.clean);
  }

  lemma {:induction false} InvListDns(s: Sys, a: Action)
    requires a.CleanGet? && Inv(s) && Enabled(s, a) && s.proc.clean.ListDns?
    ensures Inv(CleanDo(s, a))
  {
    var t, k := CleanDo(s, a), s.proc.clean;
    assert forall d :: d in OwnDns(s.remote, s.used) ==> d in RecordsAt(s.remote, k.b.domain);
    AtCleanInv(s, t.proc.clean);
  }

  lemma {:induction false} FewerDns(r: Remote, used: set<Name>, did: DnsId)
    ensures var t := r.(dns := r.dns - {did});
            OwnTunnels(t, used) == OwnTunnels(r, used) && OwnDns(t, used) == OwnDns(r, used) - {did}
  {
  }

  /** A record of ours may go while the cleanup removes records. */
  lemma {:induction false} DroppedRecord(s: Sys, did: DnsId)
    requires Inv(s) && s.proc.Up? && s.proc.clean.DropDns?
    ensures Inv(s.(remote := s.remote.(dns := s.remote.dns - {did})))
    ensures OwnDns(s.remote.(dns := s.remote.dns - {did}), s.used) == OwnDns(s.remote, s.used) - {did}
  {
    FewerDns(s.remote, s.used, did);
    hide RecordsAt, TunnelsNamed;
  }

  lemma {:induction false} InvCleanDelete(s: Sys, a: Action)
    requires a.CleanDelete? && Inv(s) && Enabled(s, a)
    ensures Inv(CleanDo(s, a))
  {
    var t := if a.reply.Committed() then s.(remote := s.remote.(dns := s.remote.dns - {a.did})) else s;
    if a.reply.Committed() { DroppedRecord(s, a.did); }
    AtCleanInv(t, CleanDo(s, a).proc.clean);
  }

  lemma {:induction false} InvCleanNext(s: Sys, a: Action)
    requires a.CleanNext? && Inv(s) && Enabled(s, a)
    ensures Inv(CleanDo(s, a))
  {
    AtCleanInv(s, CleanDo(s, a).proc.clean);
  }

  lemma {:induction false} InvCleanDropTunnel(s: Sys, a: Action)
    requires a.CleanDropTunnel? && Inv(s) && Enabled(s, a)
    ensures Inv(CleanDo(s, a))
  {
    var t, k := CleanDo(s, a), s.proc.clean;
    assert forall x :: x in OwnTunnels(t.remote, t.used) ==> x in OwnTunnels(s.remote, s.used);
    assert OwnDns(t.remote, t.used) == {};
    assert a.reply.Committed() ==> OwnTunnels(t.remote, t.used) == {};
  }

  lemma {:induction false} InvSaveCleared(s: Sys, a: Action)
    requires a.CleanSave? && Inv(s) && Enabled(s, a) && s.proc.clean.SaveCleared?
    ensures Inv(CleanDo(s, a))
  {
    var next := s.proc.mem.(remoteCleared := true);
    UpdateInv(s, next, a.reply);
    AtCleanInv(Update(s, next, a.reply), CleanDo(s, a).proc.clean);
  }

  lemma {:induction false} InvSaveBlank(s: Sys, a: Action)
    requires a.CleanSave? && Inv(s) && Enabled(s, a) && s.proc.clean.SaveBlank?
    ensures Inv(CleanDo(s, a))
  {
    var t := CleanDo(s, a);
    assert Clear(t.remote, t.used);
    assert BindingInv(s, BLANK);
    assert BindingInv(t, t.db) && BindingInv(t, t.proc.mem);
    assert ConnInv(t);
    assert CleanInv(t);
  }

  lemma {:induction false} InvCleanSave(s: Sys, a: Action)
    requires a.CleanSave? && Inv(s) && Enabled(s, a)
    ensures Inv(CleanDo(s, a))
  {
    if s.proc.clean.SaveCleared? { InvSaveCleared(s, a); } else { InvSaveBlank(s, a); }
  }

  lemma {:induction false} InvCleanFiles(s: Sys, a: Action)
    requires a.CleanFiles? && Inv(s) && Enabled(s, a)
    ensures Inv(CleanDo(s, a))
  {
  }

  lemma {:induction false} InvCleanReport(s: Sys, a: Action)
    requires a.CleanReport? && Inv(s) && Enabled(s, a)
    ensures Inv(CleanDo(s, a))
  {
  }

  /** Whatever status and intent to resume the restart shows in memory, the rest is what was saved. */
  lemma {:induction false} BootedBinding(s: Sys, b: Binding)
    requires BindingInv(s, s.db) && b.(status := s.db.status, resume := s.db.resume) == s.db
    requires b.status.Disconnected? <==> s.db.status.Disconnected?
    ensures BindingInv(s, b)
  {
  }

  lemma {:induction false} InvBoot(s: Sys, a: Action)
    requires a.Boot? && Inv(s) && Enabled(s, a)
    ensures Inv(Do(s, a))
  {
    var t := Do(s, a);
    BootedBinding(s, t.proc.mem);
    if s.db.name.None? {
      assert OwnTunnels(s.remote, s.used) == {} && OwnDns(s.remote, s.used) == {};
    }
    assert BindingInv(t, t.db) && BindingInv(t, t.proc.mem);
    hide Tracks, IdLive;
  }

  lemma {:induction false} InvCrash(s: Sys, a: Action)
    requires a.Crash? && Inv(s) && Enabled(s, a)
    ensures Inv(Do(s, a))
  {
  }

  /** A name that no remote resource carries changes nothing about what is owned. */
  lemma {:induction false} UnseenName(r: Remote, used: set<Name>, n: Name)
    requires forall t :: t in r.tunnels ==> r.tunnels[t] != n
    requires forall d :: d in r.dns ==> r.dns[d].comment != n
    ensures OwnTunnels(r, used + {n}) == OwnTunnels(r, used)
    ensures OwnDns(r, used + {n}) == OwnDns(r, used)
  {
  }

  lemma {:induction false} InvConnectNew(s: Sys, a: Action)
    requires a.Connect? && Inv(s) && Enabled(s, a)
    requires s.proc.mem.domain.None? && s.proc.conn.NoConn?
    requires ConnectAccepted(s.proc.mem, a.owner, a.domain)
    ensures Inv(Do(s, a))
  {
    var t := Do(s, a);
    UnseenName(s.remote, s.used, a.fresh_);
    assert Clear(t.remote, t.used);
    assert BindingInv(t, t.db);
    assert BindingInv(t, t.proc.mem);
    assert ConnInv(t);
    assert CleanInv(t);
  }

  lemma {:induction false} InvConnectAgain(s: Sys, a: Action)
    requires a.Connect? && Inv(s) && Enabled(s, a)
    requires s.proc.mem.domain.Some? && s.proc.conn.NoConn?
    requires ConnectAccepted(s.proc.mem, a.owner, a.domain)
    ensures Inv(Do(s, a))
  {
    var next := s.proc.mem.(status := Connecting);
    assert BindingInv(s, next);
    UpdateInv(s, next, a.reply);
  }

  lemma {:induction false} InvConnect(s: Sys, a: Action)
    requires a.Connect? && Inv(s) && Enabled(s, a)
    ensures Inv(Do(s, a))
  {
    if ConnectAccepted(s.proc.mem, a.owner, a.domain) && s.proc.conn.NoConn? {
      if s.proc.mem.domain.None? { InvConnectNew(s, a); } else { InvConnectAgain(s, a); }
    }
  }

  lemma {:induction false} InvDisconnect(s: Sys, a: Action)
    requires a.Disconnect? && Inv(s) && Enabled(s, a)
    ensures Inv(Do(s, a))
  {
    var b, t := s.proc.mem, Do(s, a);
    if t != s {
      var next := b.(status := Disconnecting, resume := false, removing := true);
      assert BindingInv(s, next);
      var u := Update(s, next, a.reply);
      assert Inv(u);
      if a.reply.Acked? { AtCleanInv(u, AwaitConn); }
    }
  }

  lemma {:induction false} InvShowStatus(s: Sys, a: Action)
    requires a.ShowStatus? && Inv(s) && Enabled(s, a)
    ensures Inv(Do(s, a))
  {
  }

  lemma {:induction false} InvForeign(s: Sys, a: Action)
    requires a.Foreign? && Inv(s) && Enabled(s, a)
    ensures Inv(Do(s, a))
  {
    assert OwnTunnels(a.remote, s.used) <= OwnTunnels(s.remote, s.used);
    assert OwnDns(a.remote, s.used) <= OwnDns(s.remote, s.used);
  }

  lemma {:induction false} ConnStepInv(s: Sys, a: Action)
    requires Inv(s) && s.proc.Up? && Enabled(s, a) && ConnEnabled(s, a)
    ensures Inv(ConnDo(s, a))
  {
    hide Inv, ConnDo, Enabled;
    match a
    case Cert(_) => InvCert(s, a);
    case Advance(_) => InvAdvance(s, a);
    case Save(_) => InvSave(s, a);
    case Lookup(_, _) => InvLookup(s, a);
    case CreateT(_, _) => InvCreateT(s, a);
    case CreateD(_, _) => InvCreateD(s, a);
    case RetryConnect => InvRetryConnect(s, a);
    case FinishConnect(_) => InvFinishConnect(s, a);
    case _ => assert false;
  }

  lemma {:induction false} CleanStepInv(s: Sys, a: Action)
    requires Inv(s) && s.proc.Up? && Enabled(s, a) && CleanEnabled(s, a)
    ensures Inv(CleanDo(s, a))
  {
    hide Inv, CleanDo, Enabled;
    match a
    case CleanStart(_) => InvCleanStart(s, a);
    case CleanRead => InvCleanRead(s, a);
    case CleanGet(_, _) =>
      if s.proc.clean.Locate? { InvLocate(s, a); }
      else if s.proc.clean.Inspect? { InvInspect(s, a); }
      else { InvListDns(s, a); }
    case CleanDelete(_, _, _) => InvCleanDelete(s, a);
    case CleanNext(_) => InvCleanNext(s, a);
    case CleanDropTunnel(_, _) => InvCleanDropTunnel(s, a);
    case CleanSave(_, _) => InvCleanSave(s, a);
    case CleanFiles(_, _) => InvCleanFiles(s, a);
    case CleanReport(_) => InvCleanReport(s, a);
    case _ => assert false;
  }

  lemma {:induction false} StepInv(s: Sys, a: Action)
    requires Inv(s) && Enabled(s, a)
    ensures Inv(Do(s, a))
  {
    hide Inv, ConnDo, CleanDo;
    match a
    case Boot => InvBoot(s, a);
    case Crash => InvCrash(s, a);
    case Connect(_, _, _, _) => InvConnect(s, a);
    case Disconnect(_, _) => InvDisconnect(s, a);
    case ShowStatus(_) => InvShowStatus(s, a);
    case Foreign(_) => InvForeign(s, a);
    case _ => if ConnEnabled(s, a) { ConnStepInv(s, a); } else { CleanStepInv(s, a); }
  }

  // ---------- Whole runs ----------

  /** Every step of the run is possible where it is taken. */
  predicate Possible(s: Sys, run: seq<Action>)
    decreases |run|
  {
    run == [] || (Enabled(s, run[0]) && Possible(Do(s, run[0]), run[1..]))
  }

  function After(s: Sys, run: seq<Action>): Sys
    requires Possible(s, run)
    decreases |run|
  {
    if run == [] then s else After(Do(s, run[0]), run[1..])
  }

  lemma {:induction false} RunInv(s: Sys, run: seq<Action>)
    requires Inv(s) && Possible(s, run)
    ensures Inv(After(s, run))
    decreases |run|
  {
    hide Inv, Do, Enabled;
    if run != [] {
      StepInv(s, run[0]);
      RunInv(Do(s, run[0]), run[1..]);
    }
  }

  /** A tunnel of the appliance exists remotely only while its name, the provisioned mark and the certificate do. */
  ghost predicate TunnelsRecorded(s: Sys) {
    forall t :: t in OwnTunnels(s.remote, s.used) ==>
      && s.db.name == Some(s.remote.tunnels[t]) && s.db.provisioned && !s.db.remoteCleared && s.cert
      && (s.db.tunnel.Some? ==> s.db.tunnel.value == t)
  }

  /** A DNS record of the appliance exists only while the saved binding describes it exactly. */
  ghost predicate RecordsRecorded(s: Sys) {
    forall d :: d in OwnDns(s.remote, s.used) ==>
      && s.db.tunnel == Some(s.remote.dns[d].target) && s.db.domain == Some(s.remote.dns[d].domain)
      && s.db.name == Some(s.remote.dns[d].comment) && s.db.provisioned && s.cert
  }

  ghost predicate OneTunnel(s: Sys) {
    forall t, u :: t in OwnTunnels(s.remote, s.used) && u in OwnTunnels(s.remote, s.used) ==> t == u
  }

  /**
   * "disconnected", saved or shown, the cleared mark and a missing certificate all mean that nothing is left behind.
   */
  ghost predicate NothingLeft(s: Sys) {
    (s.db.status.Disconnected? || s.db.remoteCleared || !s.cert
     || (s.proc.Up? && (s.proc.mem.status.Disconnected? || s.proc.mem.remoteCleared)))
    ==> Clear(s.remote, s.used)
  }

  lemma {:induction false} InvPromises(s: Sys)
    requires Inv(s)
    ensures TunnelsRecorded(s) && RecordsRecorded(s) && OneTunnel(s) && NothingLeft(s)
  {
  }

  /** Over every run from a fresh installation, with failures, lost saves, crashes and other users of the account. */
  lemma {:induction false} NothingLeaks(s: Sys, run: seq<Action>)
    requires Init(s) && Possible(s, run)
    ensures TunnelsRecorded(After(s, run)) && RecordsRecorded(After(s, run))
    ensures OneTunnel(After(s, run)) && NothingLeft(After(s, run))
  {
    assert Inv(s);
    RunInv(s, run);
    InvPromises(After(s, run));
  }

  // ---------- What the account's other users must leave alone ----------

  lemma {:induction false} Append(s: Sys, run: seq<Action>, a: Action)
    requires Possible(s, run) && Enabled(After(s, run), a)
    ensures Possible(s, run + [a]) && After(s, run + [a]) == Do(After(s, run), a)
    decreases |run|
  {
    if run == [] {
      assert run + [a] == [a];
    } else {
      Append(Do(s, run[0]), run[1..], a);
      assert (run + [a])[1..] == run[1..] + [a];
    }
  }

  /** Some run, in which others behave, ends in a saved disconnection with a tunnel of the appliance left behind. */
  ghost predicate Leaky(s: Sys) {
    exists run :: Possible(s, run) && After(s, run).db.status.Disconnected?
                  && OwnTunnels(After(s, run).remote, After(s, run).used) != {}
  }

  lemma {:induction false} Back(s: Sys, a: Action)
    requires Enabled(s, a) && Leaky(Do(s, a))
    ensures Leaky(s)
  {
    var run :| Possible(Do(s, a), run) && After(Do(s, a), run).db.status.Disconnected?
               && OwnTunnels(After(Do(s, a), run).remote, After(Do(s, a), run).used) != {};
    assert ([a] + run)[1..] == run;
    assert After(s, [a] + run) == After(Do(s, a), run);
  }

  /** The binding points to a tunnel that is gone, while another of the appliance exists. */
  ghost predicate Orphaned(s: Sys, b: Binding) {
    && OwnTunnels(s.remote, s.used) != {} && s.cert
    && b.tunnel.Some? && b.tunnel.value !in s.remote.tunnels && b.provisioned && !b.remoteCleared && b.name.Some?
  }

  /** The end of a cleanup that found nothing. */
  lemma {:induction false} EndLeaks(s: Sys)
    requires s.proc.Up? && s.proc.conn.NoConn? && OwnTunnels(s.remote, s.used) != {}
    requires s.proc.clean.SaveCleared? || s.proc.clean.RemoveFiles? || s.proc.clean.SaveBlank?
    ensures Leaky(s)
    decreases if s.proc.clean.SaveCleared? then 2 else if s.proc.clean.RemoveFiles? then 1 else 0
  {
    var a := if s.proc.clean.RemoveFiles? then CleanFiles(true, true) else CleanSave(Acked, false);
    if s.proc.clean.SaveBlank? {
      assert Possible(Do(s, a), []) && After(Do(s, a), []).db == BLANK;
    } else {
      EndLeaks(Do(s, a));
    }
    Back(s, a);
  }

  lemma {:induction false} DropLeaks(s: Sys)
    requires s.proc.Up? && s.proc.conn.NoConn? && OwnTunnels(s.remote, s.used) != {}
    requires s.proc.clean.DropDns? && !s.proc.clean.exists_
    ensures Leaky(s)
    decreases |s.proc.clean.todo|
  {
    hide Leaky;
    if d :| d in s.proc.clean.todo {
      var a := CleanDelete(d, Acked, false);
      FewerDns(s.remote, s.used, d);
      DropLeaks(Do(s, a));
      Back(s, a);
    } else {
      EndLeaks(Do(s, CleanNext(true)));
      Back(s, CleanNext(true));
    }
  }

  /** A cleanup that looks for the tunnel that is gone. */
  lemma {:induction false} SearchLeaks(s: Sys)
    requires s.proc.Up? && s.proc.conn.NoConn? && Orphaned(s, s.proc.mem)
    requires var k := s.proc.clean;
             k.AwaitConn? || k.ReadBinding? || (k.Inspect? && k.b == s.proc.mem) || (k.ListDns? && !k.exists_)
    ensures Leaky(s)
    decreases match s.proc.clean case AwaitConn => 3 case ReadBinding => 2 case Inspect(_) => 1 case _ => 0
  {
    hide Leaky;
    match s.proc.clean
    case ListDns(_, _) => DropLeaks(Do(s, CleanGet(true, 0))); Back(s, CleanGet(true, 0));
    case Inspect(_) => SearchLeaks(Do(s, CleanGet(true, 0))); Back(s, CleanGet(true, 0));
    case ReadBinding => SearchLeaks(Do(s, CleanRead)); Back(s, CleanRead);
    case AwaitConn => SearchLeaks(Do(s, CleanStart(true))); Back(s, CleanStart(true));
  }

  lemma {:induction false} DisconnectLeaks(s: Sys)
    requires s.proc.Up? && s.proc.conn.NoConn? && Orphaned(s, s.proc.mem) && s.proc.mem.status.Failed?
    ensures Leaky(s)
  {
    hide Leaky;
    var a := Disconnect(if s.proc.mem.owner.Some? then s.proc.mem.owner.value else "", Acked);
    SearchLeaks(Do(s, a));
    Back(s, a);
  }

  /** A connection resumed at the restart is given up. */
  lemma {:induction false} ResumedLeaks(s: Sys)
    requires s.proc.Up? && Orphaned(s, s.proc.mem) && s.proc.mem.status.Connecting?
    requires s.proc.conn.ReadCert? || s.proc.conn.CheckZone? || s.proc.conn.Ended?
    ensures Leaky(s)
    decreases match s.proc.conn case ReadCert => 2 case CheckZone => 1 case _ => 0
  {
    hide Leaky;
    match s.proc.conn
    case ReadCert => ResumedLeaks(Do(s, Cert(true))); Back(s, Cert(true));
    case CheckZone => ResumedLeaks(Do(s, Advance(false))); Back(s, Advance(false));
    case Ended => DisconnectLeaks(Do(s, FinishConnect(LostDropped))); Back(s, FinishConnect(LostDropped));
  }

  lemma {:induction false} RestartLeaks(s: Sys)
    requires s.proc.Down? && Orphaned(s, s.db) && s.db.domain.Some?
    ensures Leaky(s)
  {
    hide Leaky;
    var t := Do(s, Boot);
    if t.proc.clean.AwaitConn? {
      SearchLeaks(t);
    } else if t.proc.conn.ReadCert? {
      ResumedLeaks(t);
    } else {
      DisconnectLeaks(t);
    }
    Back(s, Boot);
  }

  // ---------- Another tunnel in the place of a deleted one ----------

  /** The binding points to a tunnel that is gone, and no other carries its name. */
  ghost predicate Forsaken(s: Sys, b: Binding) {
    && b.name.Some? && b.name.value in s.used && b.domain.Some? && TunnelsNamed(s.remote, b.name) == {} && s.cert
    && b.tunnel.Some? && b.tunnel.value !in s.remote.tunnels && b.provisioned && !b.remoteCleared
  }

  lemma {:induction false} SubsetSize(a: set<nat>, b: set<nat>)
    requires a <= b
    ensures |a| <= |b|
  {
    assert b == a + (b - a);
  }

  lemma {:induction false} Unused(ids: set<nat>) returns (id: nat)
    ensures id !in ids
  {
    var some := Numbers(|ids| + 1);
    if some <= ids { SubsetSize(some, ids); }
    id :| id in some && id !in ids;
  }

  /** A creation whose answer is lost in a crash. */
  lemma {:induction false} CreateLeaks(s: Sys)
    requires s.proc.Up? && s.proc.conn.CreateTunnel? && Forsaken(s, s.db) && s.db.name == s.proc.mem.name
    ensures Leaky(s)
  {
    hide Leaky;
    var other := Unused(s.remote.tunnels.Keys + {s.db.tunnel.value});
    var a := CreateT(other, LostCommitted);
    var t := Do(s, a);
    assert other in OwnTunnels(t.remote, t.used);
    RestartLeaks(Do(t, Crash));
    Back(t, Crash);
    Back(s, a);
  }

  function Rank(c: Conn): nat {
    match c
    case ReadCert => 6
    case CheckZone => 5
    case SaveResume => 4
    case WriteSecret => 3
    case SaveProvisioned => 2
    case FindTunnel => 1
    case _ => 0
  }

  /** From any stage before the creation. */
  lemma {:induction false} AttemptLeaks(s: Sys)
    requires s.proc.Up? && Pre(s.proc.conn) && Forsaken(s, s.proc.mem) && Forsaken(s, s.db)
             && s.db.name == s.proc.mem.name
    ensures Leaky(s)
    decreases Rank(s.proc.conn)
  {
    hide Leaky;
    var a := match s.proc.conn
      case ReadCert => Cert(true)
      case FindTunnel => Lookup(true, 0)
      case SaveResume => Save(Acked)
      case SaveProvisioned => Save(Acked)
      case _ => Advance(true);
    if s.proc.conn.CreateTunnel? {
      CreateLeaks(s);
    } else {
      assert Enabled(s, a) && Rank(Do(s, a).proc.conn) < Rank(s.proc.conn);
      AttemptLeaks(Do(s, a));
      Back(s, a);
    }
  }

  lemma {:induction false} FreshName(s: Sys) returns (n: Name)
    ensures n !in s.used && (forall t :: t in s.remote.tunnels ==> s.remote.tunnels[t] != n)
    ensures forall d :: d in s.remote.dns ==> s.remote.dns[d].comment != n
  {
    n := Unused(s.used + (set t | t in s.remote.tunnels :: s.remote.tunnels[t])
                + (set d | d in s.remote.dns :: s.remote.dns[d].comment));
  }

  /** The user connects again. */
  lemma {:induction false} AgainLeaks(s: Sys)
    requires s.proc.Up? && s.proc.conn.NoConn? && Forsaken(s, s.proc.mem) && !s.proc.mem.removing
    ensures Leaky(s)
  {
    hide Leaky;
    var b := s.proc.mem;
    var n := FreshName(s);
    var a := Connect(if b.owner.Some? then b.owner.value else "", b.domain.value, n, Acked);
    AttemptLeaks(Do(s, a));
    Back(s, a);
  }

  /** From any stage after the creation: the attempt ends, and the user connects again. */
  lemma {:induction false} LateLeaks(s: Sys)
    requires s.proc.Up? && !Pre(s.proc.conn) && Forsaken(s, s.proc.mem) && !s.proc.mem.removing
    ensures Leaky(s)
    decreases if s.proc.conn.NoConn? then 0 else if s.proc.conn.Ended? then 1 else 2
  {
    hide Leaky;
    if s.proc.conn.NoConn? {
      AgainLeaks(s);
    } else {
      var did := Unused(s.remote.dns.Keys);
      var a := match s.proc.conn
        case SaveTunnel(_) => Save(LostDropped)
        case SaveDns(_) => Save(LostDropped)
        case FindDns => Lookup(false, 0)
        case CreateDns => CreateD(did, LostDropped)
        case Ended => FinishConnect(LostDropped)
        case _ => Advance(false);
      assert Enabled(s, a);
      LateLeaks(Do(s, a));
      Back(s, a);
    }
  }

  /** The process dies, and the restart or the user connects again. */
  lemma {:induction false} CrashLeaks(s: Sys)
    requires s.proc.Down? && Forsaken(s, s.db) && !s.db.removing
    ensures Leaky(s)
  {
    hide Leaky;
    var t := Do(s, Boot);
    if t.proc.conn.NoConn? { AgainLeaks(t); } else { AttemptLeaks(t); }
    Back(s, Boot);
  }

  lemma {:induction false} OnlyOwn(s: Sys, t: TunnelId, x: TunnelId)
    requires Inv(s) && t in OwnTunnels(s.remote, s.used)
    ensures x in s.remote.tunnels && s.remote.tunnels[x] in s.used ==> x == t
  {
    assert x in OwnTunnels(s.remote, s.used) <==> x in s.remote.tunnels && s.remote.tunnels[x] in s.used;
  }

  /** Deleting the tunnel while it is critical lets some run leak. */
  lemma {:induction false} DeletionLeaks(s: Sys, r: Remote, t: TunnelId)
    requires Inv(s) && OwnUnforged(s, r) && Critical(s, t)
    requires t in s.remote.tunnels && s.remote.tunnels[t] in s.used && t !in r.tunnels
    ensures Leaky(s.(remote := r))
  {
    hide Leaky;
    var u := s.(remote := r);
    assert s.db.name == Some(s.remote.tunnels[t]);
    forall x | x in r.tunnels ensures Some(r.tunnels[x]) != s.db.name {
      OnlyOwn(s, t, x);
    }
    if s.proc.Down? {
      CrashLeaks(u);
    } else if s.proc.conn == SaveTunnel(t) && !s.proc.mem.removing {
      LateLeaks(Do(u, Save(Acked)));
      Back(u, Save(Acked));
    } else if s.proc.mem.tunnel == Some(t) && Pre(s.proc.conn) {
      AttemptLeaks(u);
    } else if s.proc.mem.tunnel == Some(t) && !s.proc.mem.removing {
      LateLeaks(u);
    } else {
      CrashLeaks(Do(u, Crash));
      Back(u, Crash);
    }
  }

  /**
   * What others do to the appliance's resources, short of changing or forging them, can lead to a leak if and only if
   * they delete its tunnel while its id is saved, or about to be, and another one may still be created.
   */
  lemma {:induction false} ForeignExactly(s: Sys, r: Remote)
    requires Inv(s) && OwnUnforged(s, r)
    ensures Leaky(s.(remote := r)) <==> !OwnedKept(s, r)
  {
    var u := s.(remote := r);
    if OwnedKept(s, r) {
      InvForeign(s, Foreign(r));
      forall run | Possible(u, run)
        ensures !(After(u, run).db.status.Disconnected? && OwnTunnels(After(u, run).remote, After(u, run).used) != {})
      {
        RunInv(u, run);
        InvPromises(After(u, run));
      }
    } else {
      var t :| t in s.remote.tunnels && s.remote.tunnels[t] in s.used && Critical(s, t) && t !in r.tunnels;
      DeletionLeaks(s, r, t);
    }
  }

  // ---------- Both critical moments are reached ----------

  const FRESH := Sys(BLANK, Down, Remote(map[], map[]), false, {}, false)

  function Named(name: Name): Binding {
    BLANK.(domain := Some("example.org"), owner := Some("owner"), name := Some(name), status := Connecting)
  }

  /** A first attempt, up to the intent to provision... */
  lemma {:induction false} FirstAttempt(name: Name) returns (run: seq<Action>)
    ensures var b := Named(name).(resume := true);
            Possible(FRESH, run)
            && After(FRESH, run) == Sys(b, Up(b, SaveProvisioned, NoClean), Remote(map[], map[]), true, {name}, false)
  {
    run := [Boot];
    assert After(FRESH, run) == FRESH.(proc := Up(BLANK, NoConn, NoClean));
    var a := Connect("owner", "example.org", name, Acked);
    Append(FRESH, run, a);
    run := run + [a];
    Append(FRESH, run, Cert(true));
    run := run + [Cert(true)];
    Append(FRESH, run, Advance(true));
    run := run + [Advance(true)];
    Append(FRESH, run, Save(Acked));
    run := run + [Save(Acked)];
    Append(FRESH, run, Advance(true));
    run := run + [Advance(true)];
  }

  /** ...and up to the new tunnel. */
  lemma {:induction false} ReachCritical(name: Name, t: TunnelId) returns (run: seq<Action>)
    ensures Possible(FRESH, run)
    ensures var s := After(FRESH, run);
            s.proc.Up? && s.proc.conn == SaveTunnel(t) && !s.proc.mem.removing && s.proc.mem.name == Some(name)
            && s.remote == Remote(map[t := name], map[]) && s.used == {name} && !s.touched && s.db.tunnel.None?
  {
    run := FirstAttempt(name);
    Append(FRESH, run, Save(Acked));
    run := run + [Save(Acked)];
    Append(FRESH, run, Lookup(true, 0));
    run := run + [Lookup(true, 0)];
    Append(FRESH, run, CreateT(t, Acked));
    run := run + [CreateT(t, Acked)];
  }

  /**
   * From a fresh installation, deleting the tunnel just before its id is saved, or just after, lets a later run end
   * in a disconnection that leaves another tunnel behind.
   */
  lemma {:induction false} OutsideDeletionLeaks(name: Name, t: TunnelId)
                                                returns (before: seq<Action>, after: seq<Action>)
    ensures Possible(FRESH, before) && Possible(FRESH, after)
    ensures var s := After(FRESH, before); s.proc.Up? && s.proc.conn == SaveTunnel(t) && s.db.tunnel.None?
    ensures After(FRESH, after).db.tunnel == Some(t)
    ensures Leaky(After(FRESH, before).(remote := Remote(map[], map[])))
    ensures Leaky(After(FRESH, after).(remote := Remote(map[], map[])))
  {
    hide Leaky;
    before := ReachCritical(name, t);
    Append(FRESH, before, Save(Acked));
    after := before + [Save(Acked)];
    assert Inv(FRESH);
    RunInv(FRESH, before);
    RunInv(FRESH, after);
    DeletionLeaks(After(FRESH, before), Remote(map[], map[]), t);
    DeletionLeaks(After(FRESH, after), Remote(map[], map[]), t);
  }
}
