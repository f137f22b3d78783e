/**
 * The resumable package upload: bytes go to a part file, the acknowledged offset to a separate record, and the
 * process may die between any two durable effects (`fuel` counts the effects that still take place) or in the middle
 * of a write.
 */
module Upload {
  import opened Common

  newtype Byte = b: int | 0 <= b < 256
  type File = seq<Byte>
  type Id = nat
  type Owner = string

  const CHUNK_SIZE := 1024 * 1024
  const BLOCK := 65536

  datatype State = Idle | Uploading | Validating | Ready | Queued | Running | Complete | Failed

  /** transfer.json */
  datatype Meta = Meta(id: Id, owner: Owner, identity: string, size: nat, offset: nat)

  /** status.json */
  datatype Status = Status(state: State, owner: Option<Owner>, upload: Option<Id>, offset: nat, ticket: Option<nat>)

  const IDLE := Status(Idle, None, None, 0, None)

  datatype Error = Busy | Conflict | StorageLow | SignatureInvalid | Incomplete | Unavailable | InvalidPackage

  datatype Reply = Shown(state: State, offset: nat) | Refused(error: Error) | Died

  /** What is on disk, and what has been promised: `content` is acknowledged, `finished` was handed to the validator. */
  datatype Snapshot = Snapshot(part: Option<File>, verified: Option<File>, meta: Option<Meta>, status: Status,
                               content: File, used: set<Id>, finished: map<Id, File>)

  predicate HandedOver(st: State) { st.Validating? || st.Ready? || st.Queued? || st.Running? }

  ghost predicate Inv(s: Snapshot) {
    && (s.meta.Some? ==> s.meta.value.id in s.used && |s.content| == s.meta.value.offset <= s.meta.value.size)
    && (s.meta.Some? && s.part.Some? ==> s.content <= s.part.value && |s.part.value| <= s.meta.value.size)
    && s.finished.Keys <= s.used
    && (s.meta.Some? && s.meta.value.id in s.finished ==>
          s.finished[s.meta.value.id] == s.content && s.meta.value.offset == s.meta.value.size)
    && (HandedOver(s.status.state) && s.verified.Some? ==>
          s.status.upload.Some? && s.status.upload.value in s.finished
              && s.finished[s.status.upload.value] == s.verified.value)
  }

  ghost predicate Current(s: Snapshot, id: Id) { s.meta.Some? && s.meta.value.id == id }

  /** From `a` to `b` no acknowledged byte is lost or changed while its upload lasts, and no upload comes back. */
  ghost predicate Follows(a: Snapshot, b: Snapshot) {
    && a.used <= b.used
    && (forall id :: id in a.used && Current(b, id) ==>
          Current(a, id) && a.meta.value == b.meta.value.(offset := a.meta.value.offset) && a.content <= b.content)
    && (forall id :: id in a.finished ==> id in b.finished && b.finished[id] == a.finished[id])
    && (forall id :: id in b.finished && id in a.used && id !in a.finished ==>
          Current(a, id) && a.content <= b.finished[id] && |b.finished[id]| == a.meta.value.size)
  }

  /** The client's bytes, block by block, or nothing if the stream ends early. */
  method Receive(stream: File, size: nat) returns (data: Option<File>)
    ensures data == if |stream| < size then None else Some(stream[..size])
  {
    var got: File := [];
    var rest: nat := size;
    while rest > 0
      invariant |got| + rest == size && |got| <= |stream| && got == stream[..|got|]
    {
      var n := Min(Min(rest, BLOCK), |stream| - |got|);
      if n == 0 { return None; }
      got := got + stream[|got|..|got| + n];
      rest := rest - n;
    }
    assert got == stream[..size];
    return Some(got);
  }

  /** More changes of the disk than one request makes: with so much fuel the process does not die in it. */
  const ENOUGH := 8

  class Updater {
    var part: Option<File>
    var verified: Option<File>
    var meta: Option<Meta>
    var status: Status
    ghost var content: File
    ghost var used: set<Id>
    ghost var finished: map<Id, File>

    ghost function Now(): Snapshot reads this { Snapshot(part, verified, meta, status, content, used, finished) }

    constructor ()
      ensures Inv(Now()) && meta.None? && status == IDLE && used == {}
    {
      part, verified, meta, status := None, None, None, IDLE;
      content, used, finished := [], {}, map[];
    }

    predicate Owned(owner: Owner, id: Id) reads this { meta.Some? && meta.value.owner == owner && meta.value.id == id }

    predicate Resumable(owner: Owner, identity: string, size: nat) reads this {
      meta.Some? && meta.value.owner == owner && meta.value.identity == identity && meta.value.size == size
    }

    function UploadingStatus(m: Meta): Status { Status(Uploading, Some(m.owner), Some(m.id), m.offset, None) }

    /** What status() shows, after marking work that stopped without a result. */
    method Show(interrupted: bool) returns (reply: Reply)
      requires Inv(Now())
      modifies this`status
      ensures Inv(Now()) && Follows(old(Now()), Now())
      ensures reply == Shown(status.state, status.offset)
      ensures status == old(status).(state := status.state)
      ensures status.state == if interrupted && old(status.state) in {Queued, Running, Validating} then Failed
                              else old(status.state)
    {
      if interrupted && status.state in {Queued, Running, Validating} { status := status.(state := Failed); }
      reply := Shown(status.state, status.offset);
    }

    /** Removes the uploaded files; the part goes before the record that describes it. */
    method ClearUpload(fuel: nat) returns (left: nat, died: bool)
      requires Inv(Now())
      modifies this`part, this`meta
      ensures Inv(Now()) && Follows(old(Now()), Now())
      ensures !died ==> part.None? && meta.None?
      ensures meta.None? || meta == old(meta)
      ensures fuel >= 2 ==> !died && left == fuel - 2
    {
      left := fuel;
      if left == 0 { return left, true; }
      left, part := left - 1, None;
      if left == 0 { return left, true; }
      left, meta := left - 1, None;
      died := false;
    }

    method Discard(fuel: nat) returns (left: nat, died: bool)
      requires Inv(Now())
      modifies this`part, this`meta, this`verified
      ensures Inv(Now()) && Follows(old(Now()), Now())
      ensures !died ==> part.None? && meta.None? && verified.None?
      ensures fuel >= 3 ==> !died && left == fuel - 3
    {
      left, died := ClearUpload(fuel);
      if died { return; }
      if left == 0 { return left, true; }
      left, verified := left - 1, None;
    }

    /** A new upload: everything of the previous one goes first. */
    method Begin(owner: Owner, identity: string, size: nat, id: Id, fuel: nat) returns (reply: Reply)
      requires Inv(Now()) && id !in used
      modifies this
      ensures Inv(Now()) && Follows(old(Now()), Now())
      ensures reply.Died? || reply == Shown(Uploading, 0)
      ensures fuel >= ENOUGH ==> reply.Shown?
      ensures reply.Shown? ==> meta == Some(Meta(id, owner, identity, size, 0)) && content == [] && part == Some([])
      ensures reply.Shown? ==> status == UploadingStatus(meta.value)
    {
      var left, died := Discard(fuel);
      if died { return Died; }
      if left == 0 { return Died; }
      left, part := left - 1, Some([]);
      if left == 0 { return Died; }
      left, meta := left - 1, Some(Meta(id, owner, identity, size, 0));
      content, used := [], used + {id};
      if left == 0 { return Died; }
      status := UploadingStatus(meta.value);
      reply := Shown(Uploading, 0);
    }

    method StartUpload(owner: Owner, identity: string, size: nat, sealed: bool, space: bool, id: Id, fuel: nat)
      returns (reply: Reply)
      requires Inv(Now()) && id !in used && status.state !in {Queued, Running}
      modifies this
      ensures Inv(Now()) && Follows(old(Now()), Now())
      ensures reply.Refused? ==> Now() == old(Now())
      ensures meta.Some? && old(meta.Some?) && old(meta.value.owner) != owner ==> Now() == old(Now())
      ensures reply.Shown? && reply.state.Uploading? ==>
                Resumable(owner, identity, size) && status.state.Uploading? && part == Some(content)
                    && reply.offset == |content|
      ensures old(Resumable(owner, identity, size) && part.Some?) ==> meta == old(meta) && content == old(content)
      ensures reply.Shown? ==> reply.state == status.state
      ensures reply == Refused(SignatureInvalid) <==> !sealed
      ensures reply == Refused(Busy) <==> sealed && old(meta.Some? && meta.value.owner != owner)
      ensures reply == Refused(StorageLow) <==>
              sealed && !space && old(meta.Some? ==> meta.value.owner == owner)
              && !old(Resumable(owner, identity, size) && (status.state in {Ready, Validating} || part.Some?))
      ensures fuel >= ENOUGH && sealed && old(meta.Some? ==> meta.value.owner == owner) ==>
                if old(Resumable(owner, identity, size) && status.state in {Ready, Validating}) then
                  reply == Shown(old(status.state), old(status.offset)) && Now() == old(Now())
                else if old(Resumable(owner, identity, size) && part.Some?) then
                  reply == Shown(Uploading, old(meta.value.offset)) && meta == old(meta)
                else space ==> reply == Shown(Uploading, 0) && meta == Some(Meta(id, owner, identity, size, 0))
    {
      if !sealed { return Refused(SignatureInvalid); }
      if meta.Some? && meta.value.owner != owner { return Refused(Busy); }
      if Resumable(owner, identity, size) {
        if status.state in {Ready, Validating} {
          reply := Show(false);
          return;
        }
        if part.Some? && |part.value| >= meta.value.offset {
          assert part.value[..meta.value.offset] == content;
          if fuel == 0 { return Died; }
          part := Some(part.value[..meta.value.offset]);
          if fuel == 1 { return Died; }
          status := UploadingStatus(meta.value);
          return Shown(Uploading, meta.value.offset);
        }
      }
      if !space { return Refused(StorageLow); }
      reply := Begin(owner, identity, size, id, fuel);
    }

    /** Writes the next chunk behind the acknowledged bytes; `torn` is what an interrupted write leaves there. */
    method AppendChunk(data: File, torn: File, fuel: nat) returns (reply: Reply)
      requires Inv(Now()) && meta.Some? && part.Some? && status.state.Uploading?
      requires 0 < |data| && meta.value.offset + |data| <= meta.value.size
      modifies this`part, this`meta, this`status, this`content
      ensures Inv(Now()) && Follows(old(Now()), Now())
      ensures reply.Died? || reply == Shown(Uploading, |content|)
      ensures reply.Shown? ==> content == old(content) + data && part == Some(content)
      ensures fuel >= 3 ==> reply.Shown?
      ensures status.state.Uploading? && meta.Some? && meta.value == old(meta.value).(offset := meta.value.offset)
    {
      var m := meta.value;
      var kept := part.value[..m.offset];
      assert kept == content;
      if fuel == 0 {
        part := Some(kept + torn[..Min(|torn|, m.size - m.offset)]);
        return Died;
      }
      part := Some(kept + data);
      if fuel == 1 { return Died; }
      meta := Some(m.(offset := m.offset + |data|));
      content := content + data;
      if fuel == 2 { return Died; }
      status := UploadingStatus(meta.value);
      reply := Shown(Uploading, meta.value.offset);
    }

    predicate ChunkFits(owner: Owner, id: Id, offset: int, size: int) reads this {
      Owned(owner, id) && 0 <= offset <= meta.value.offset && 0 < size <= CHUNK_SIZE && offset + size <= meta.value.size
      && status.state.Uploading?
    }

    /**
     * A chunk is acknowledged only if the file holds it at its place, whether it was appended now or repeats earlier
     * bytes; anything else leaves the disk as it was.
     */
    method UploadChunk(owner: Owner, id: Id, offset: int, size: int, stream: File, space: bool, torn: File, fuel: nat)
      returns (reply: Reply)
      requires Inv(Now())
      modifies this`part, this`meta, this`status, this`content
      ensures Inv(Now()) && Follows(old(Now()), Now())
      ensures reply.Refused? ==> Now() == old(Now())
      ensures reply.Shown? ==>
                old(ChunkFits(owner, id, offset, size)) && Owned(owner, id) && |stream| >= size
                && reply == Shown(Uploading, |content|) && offset + size <= |content|
                && content[offset..offset + size] == stream[..size]
      ensures !old(ChunkFits(owner, id, offset, size)) ==> reply == Refused(Conflict)
      ensures old(ChunkFits(owner, id, offset, size) && part.Some?) && space && |stream| >= size && fuel >= 3 ==>
                (reply.Shown? <==>
                   (offset == old(|content|)
                    || (offset + size <= old(|content|) && old(content)[offset..offset + size] == stream[..size])))
    {
      if !ChunkFits(owner, id, offset, size) { return Refused(Conflict); }
      if !space { return Refused(StorageLow); }
      var data := Receive(stream, size);
      if data.None? { return Refused(Incomplete); }
      if offset < meta.value.offset {
        if offset + size > meta.value.offset { return Refused(Conflict); }
        if part.None? { return Refused(InvalidPackage); }
        assert part.value[offset..offset + size] == content[offset..offset + size];
        if part.value[offset..offset + size] != data.value { return Refused(Conflict); }
        if fuel == 0 { return Died; }
        status := UploadingStatus(meta.value);
        return Shown(Uploading, meta.value.offset);
      }
      if part.None? { return Refused(InvalidPackage); }
      if |part.value| < offset { return Refused(Conflict); }
      reply := AppendChunk(data.value, torn, fuel);
    }

    /** Hands the complete file to the validator; if that cannot be started, the upload is open again. */
    method FinishUpload(owner: Owner, id: Id, started: bool, interrupted: bool, fuel: nat) returns (reply: Reply)
      requires Inv(Now()) && status.state !in {Queued, Running}
      modifies this
      ensures Inv(Now()) && Follows(old(Now()), Now())
      ensures reply.Shown? && old(status.state !in {Ready, Validating}) ==>
                && old(Owned(owner, id)) && old(part.Some?)
                && status.state.Validating? && status.upload == Some(id)
                && content == old(content) && verified == Some(content) && verified == old(part)
                && |verified.value| == old(meta.value.size)
      ensures reply == Refused(Conflict) <==> !old(Owned(owner, id))
      ensures old(Owned(owner, id) && status.state in {Ready, Validating}) ==>
                reply == Shown(status.state, old(status.offset))
                && status.state == if interrupted && old(status.state).Validating? then Failed else old(status.state)
      ensures reply == Refused(Incomplete) <==>
              old(Owned(owner, id) && status.state !in {Ready, Validating} && meta.value.offset != meta.value.size)
      ensures reply == Refused(InvalidPackage) <==>
              old(Owned(owner, id) && status.state !in {Ready, Validating} && meta.value.offset == meta.value.size
                  && part.None?)
      ensures old(Owned(owner, id) && status.state !in {Ready, Validating} && meta.value.offset == meta.value.size
                  && part.Some?) && fuel >= ENOUGH ==>
                reply == if started then Shown(Validating, 0) else Refused(Unavailable)
      ensures reply.Refused? && !reply.error.Unavailable? ==> Now() == old(Now())
      ensures reply == Refused(Unavailable) ==>
                Now().(finished := old(finished), status := old(status), verified := old(verified)) == old(Now())
                && verified.None? && status.state.Uploading?
    {
      if !Owned(owner, id) { return Refused(Conflict); }
      if status.state in {Ready, Validating} {
        reply := Show(interrupted);
        return;
      }
      if meta.value.offset != meta.value.size { return Refused(Incomplete); }
      if part.None? { return Refused(InvalidPackage); }
      if fuel == 0 { return Died; }
      verified, part := part, None;
      finished := finished[id := content];
      if fuel == 1 { return Died; }
      status := Status(Validating, Some(owner), Some(id), 0, None);
      if started { return Shown(Validating, 0); }
      if fuel == 2 { return Died; }
      part, verified := verified, None;
      if fuel == 3 { return Died; }
      status := UploadingStatus(meta.value);
      reply := Refused(Unavailable);
    }

    method Cancel(owner: Owner, id: Id, fuel: nat) returns (reply: Reply)
      requires Inv(Now())
      modifies this`part, this`meta, this`verified, this`status
      ensures Inv(Now()) && Follows(old(Now()), Now())
      ensures reply.Shown? ==> meta.None? && part.None? && verified.None? && status == IDLE
      ensures !old(Owned(owner, id)) ==> reply == Refused(Conflict) && Now() == old(Now())
      ensures old(Owned(owner, id)) && fuel >= ENOUGH ==> reply == Shown(Idle, 0)
    {
      if !Owned(owner, id) { return Refused(Conflict); }
      var left, died := Discard(fuel);
      if died || left == 0 { return Died; }
      status := IDLE;
      reply := Shown(Idle, 0);
    }

    /** Queues the installation of a package that validated. */
    method Apply(owner: Owner, ticket: nat, started: bool, fuel: nat) returns (reply: Reply)
      requires Inv(Now())
      modifies this`status
      ensures Inv(Now()) && Follows(old(Now()), Now())
      ensures reply.Shown? ==> status == old(status).(state := Queued)
      ensures old(status.state) != Ready || old(status.owner) != Some(owner) || old(status.ticket) != Some(ticket)
              ==> reply == Refused(Conflict) && Now() == old(Now())
      ensures old(status.state) == Ready && old(status.owner) == Some(owner) && old(status.ticket) == Some(ticket)
              && fuel >= ENOUGH ==>
                if started then reply == Shown(Queued, status.offset)
                else reply == Refused(Unavailable) && status == old(status)
    {
      if status.state != Ready || status.owner != Some(owner) || status.ticket != Some(ticket) {
        return Refused(Conflict);
      }
      if fuel == 0 { return Died; }
      status := status.(state := Queued);
      if started { return Shown(Queued, status.offset); }
      if fuel == 1 { return Died; }
      status := status.(state := Ready);
      reply := Refused(Unavailable);
    }

    /** A day without progress ends an upload. */
    method Expire(stale: bool, fuel: nat) returns (left: nat, died: bool)
      requires Inv(Now())
      modifies this`part, this`meta, this`verified, this`status
      ensures Inv(Now()) && Follows(old(Now()), Now())
      ensures old(meta.None?) || !stale || old(status.state) in {Validating, Queued, Running} ==>
              Now() == old(Now())
              && !died && left == fuel
    {
      left, died := fuel, false;
      if meta.Some? && stale && status.state !in {Validating, Queued, Running} {
        left, died := Discard(left);
        if died { return; }
        if left == 0 { return left, true; }
        left, status := left - 1, IDLE;
      }
    }

    /** After a failure or an installation the files go, the verified one first. */
    method Tidy(fuel: nat)
      requires Inv(Now())
      modifies this`part, this`meta, this`verified
      ensures Inv(Now()) && Follows(old(Now()), Now())
      ensures fuel >= 3 ==> verified.None? && part.None? && meta.None?
    {
      if fuel == 0 { return; }
      verified := None;
      var _, _ := ClearUpload(fuel - 1);
    }

    /**
     * The validator or the installer. Whatever it passes to the installer is the complete content of a finished upload;
     * `accepted` is the outcome of the signature and package checks.
     */
    method Run(validating: bool, accepted: bool, installs: bool, ticket: nat, fuel: nat)
               returns (installed: Option<File>)
      requires Inv(Now())
      modifies this
      ensures Inv(Now()) && Follows(old(Now()), Now())
      ensures installed.Some? ==>
                && old(status.state).Queued? && accepted && old(status.upload).Some?
                && old(status.upload).value in old(finished)
                && installed.value == old(finished)[old(status.upload).value]
      ensures status.state.Ready? && !old(status.state).Ready? ==>
              validating && accepted && verified == old(verified)
              && verified.Some?
      ensures validating && old(status.state).Validating? && fuel >= ENOUGH ==>
                if accepted && old(verified).Some? then
                  status == old(status).(state := Ready, ticket := Some(ticket)) && verified == old(verified)
                else status.state.Failed? && verified.None? && part.None? && meta.None?
      ensures !validating && old(status.state).Queued? && fuel >= ENOUGH ==>
                installed == (if accepted then old(verified) else None)
                && status.state == (if installed.Some? && installs then Complete else Failed)
                && verified.None? && part.None? && meta.None?
    {
      installed := None;
      if status.state != (if validating then Validating else Queued) { return; }
      var ok := accepted && verified.Some?;
      var left := fuel;
      if ok && validating {
        if left > 0 { status := status.(state := Ready, ticket := Some(ticket)); }
        return;
      }
      if ok {
        if left == 0 { return; }
        left, status := left - 1, status.(state := Running);
        installed := verified;
      }
      if left == 0 { return; }
      status := status.(state := if ok && installs then Complete else Failed);
      Tidy(left - 1);
    }
  }

  // ---------- Requests, one at a time under the lock ----------

  datatype Request =
    | Start(owner: Owner, identity: string, size: nat, sealed: bool)
    | Chunk(owner: Owner, upload: Id, offset: int, length: int, stream: File)
    | Finish(owner: Owner, upload: Id)
    | Stop(owner: Owner, upload: Id)
    | Install(owner: Owner, ticket: nat)

  /** What the surroundings decide while a request is served. */
  datatype World = World(stale: bool, interrupted: bool, space: bool, started: bool, torn: File, fresh_: Id, fuel: nat)

  /**
   * Serves one request: outdated uploads go first, and nothing but a repeated finish gets past a running validation.
   */
  method Query(u: Updater, request: Request, w: World) returns (reply: Reply)
    requires Inv(u.Now()) && w.fresh_ !in u.used
    modifies u
    ensures Inv(u.Now()) && Follows(old(u.Now()), u.Now())
    ensures request.Chunk? && reply.Shown? ==>
              Acknowledged(u.Now(), request.upload, request.offset, request.stream, request.length)
    ensures old(u.status.state) in {Queued, Running, Validating}
            && !(request.Finish? && old(u.status.state).Validating?)
            ==> reply == Refused(Busy) && u.Now() == old(u.Now())
    ensures request.Finish? && !w.stale && w.started && w.fuel >= ENOUGH
            && old(u.Owned(request.owner, request.upload) && u.status.state.Uploading?
                   && u.meta.value.offset == u.meta.value.size && u.part.Some?) ==>
              reply == Shown(Validating, 0) && u.status.upload == Some(request.upload) && u.verified == old(u.part)
  {
    var left, died := u.Expire(w.stale, w.fuel);
    if died { return Died; }
    ghost var middle := u.Now();
    if request.Finish? && u.status.state in {Validating, Ready} {
      if !u.Owned(request.owner, request.upload) { return Refused(Conflict); }
      reply := u.Show(w.interrupted);
    } else if u.status.state in {Queued, Running, Validating} {
      reply := Refused(Busy);
    } else {
      match request {
        case Start(owner, identity, size, sealed) =>
          reply := u.StartUpload(owner, identity, size, sealed, w.space, w.fresh_, left);
        case Chunk(owner, id, offset, length, stream) =>
          reply := u.UploadChunk(owner, id, offset, length, stream, w.space, w.torn, left);
        case Finish(owner, id) => reply := u.FinishUpload(owner, id, w.started, w.interrupted, left);
        case Stop(owner, id) => reply := u.Cancel(owner, id, left);
        case Install(owner, ticket) => reply := u.Apply(owner, ticket, w.started, left);
      }
    }
    FollowsOn(old(u.Now()), middle, u.Now());
  }

  // ---------- Whole runs ----------

  /** Bytes acknowledged for an upload: still held by it at their place. */
  ghost predicate Acknowledged(s: Snapshot, id: Id, offset: int, stream: File, length: int) {
    && Current(s, id) && 0 <= offset && 0 < length <= |stream| && offset + length <= |s.content|
    && s.content[offset..offset + length] == stream[..length]
  }

  lemma {:induction false} FollowsOn(a: Snapshot, b: Snapshot, c: Snapshot)
    requires Inv(a) && Inv(b) && Inv(c) && Follows(a, b) && Follows(b, c)
    ensures Follows(a, c)
  {
  }

  /** The disk after each request, validation or installation, whether it ended or died. */
  ghost predicate History(h: seq<Snapshot>) {
    && (forall i :: 0 <= i < |h| ==> Inv(h[i]))
    && (forall i :: 0 <= i < |h| - 1 ==> Follows(h[i], h[i + 1]))
  }

  lemma {:induction false} HistoryFollows(h: seq<Snapshot>, i: nat, j: nat)
    requires History(h) && i <= j < |h|
    ensures Follows(h[i], h[j])
    decreases j
  {
    if i < j {
      HistoryFollows(h, i, j - 1);
      assert Follows(h[j - 1], h[j - 1 + 1]);
      FollowsOn(h[i], h[j - 1], h[j]);
    }
  }

  /**
   * The service over its whole life: every request and every run of the validator or installer, whether it ended or the
   * process died in it and was started again, leaves one more snapshot of the disk in `trace`.
   */
  class Service {
    const updater: Updater
    ghost var trace: seq<Snapshot>

    ghost predicate Valid() reads this, updater {
      History(trace) && trace != [] && trace[|trace| - 1] == updater.Now()
    }

    constructor ()
      ensures Valid() && fresh(updater) && |trace| == 1
    {
      updater := new Updater();
      new;
      trace := [updater.Now()];
    }

    ghost method Note()
      requires History(trace) && trace != [] && Inv(updater.Now()) && Follows(trace[|trace| - 1], updater.Now())
      modifies this`trace
      ensures Valid() && trace == old(trace) + [updater.Now()]
    {
      trace := trace + [updater.Now()];
    }

    method Serve(request: Request, w: World) returns (reply: Reply)
      requires Valid() && w.fresh_ !in updater.used
      modifies this`trace, updater
      ensures Valid() && trace == old(trace) + [updater.Now()]
      ensures request.Chunk? && reply.Shown? ==>
                Acknowledged(trace[|trace| - 1], request.upload, request.offset, request.stream, request.length)
    {
      hide Follows, Inv;
      reply := Query(updater, request, w);
      Note();
    }

    /** What is installed is what the record of handed-over files says of the upload. */
    method Work(validating: bool, accepted: bool, installs: bool, ticket: nat, fuel: nat)
                returns (installed: Option<File>)
      requires Valid()
      modifies this`trace, updater
      ensures Valid() && trace == old(trace) + [updater.Now()]
      ensures installed.Some? ==> InstalledFrom(trace, |trace| - 1, installed.value)
    {
      hide Follows, Inv;
      ghost var before := updater.Now();
      installed := updater.Run(validating, accepted, installs, ticket, fuel);
      Note();
      assert trace[|trace| - 2] == before;
    }

    method Report(interrupted: bool) returns (reply: Reply)
      requires Valid()
      modifies this`trace, updater
      ensures Valid() && trace == old(trace) + [updater.Now()]
    {
      hide Follows, Inv;
      reply := updater.Show(interrupted);
      Note();
    }

    /** Within an upload the offset only grows, and the part file keeps every acknowledged byte. */
    lemma {:induction false} OffsetOnlyGrows(i: nat, j: nat, id: Id)
      requires Valid() && i <= j < |trace| && Current(trace[i], id) && Current(trace[j], id)
      ensures trace[i].meta.value.offset <= trace[j].meta.value.offset
      ensures trace[j].part.Some? ==>
                trace[i].meta.value.offset <= |trace[j].part.value| <= trace[j].meta.value.size
                && trace[j].part.value[..trace[i].meta.value.offset] == trace[i].content
    {
      HistoryFollows(trace, i, j);
    }

    /** A chunk acknowledged once is, at its place, in the file that is validated. */
    lemma {:induction false} ChunkIsValidated(i: nat, j: nat, id: Id, offset: int, stream: File, length: int)
      requires Valid() && i <= j < |trace| && Acknowledged(trace[i], id, offset, stream, length)
      requires HandedOver(trace[j].status.state) && trace[j].status.upload == Some(id) && trace[j].verified.Some?
      ensures |trace[j].verified.value| == trace[i].meta.value.size
      ensures trace[j].verified.value[offset..offset + length] == stream[..length]
    {
      HistoryFollows(trace, i, j);
      assert trace[i].content <= trace[j].verified.value;
    }

    /** And in the file that is installed. */
    lemma {:induction false} ChunkIsInstalled(i: nat, j: nat, id: Id, offset: int, stream: File, length: int,
                                              file: File)
      requires Valid() && i < j < |trace| && Acknowledged(trace[i], id, offset, stream, length)
      requires InstalledFrom(trace, j, file) && trace[j - 1].status.upload == Some(id)
      ensures |file| == trace[i].meta.value.size && file[offset..offset + length] == stream[..length]
    {
      HistoryFollows(trace, i, j - 1);
      assert trace[i].content <= file;
    }

    /** An upload that was given up or replaced never continues. */
    lemma {:induction false} NoUploadReturns(i: nat, j: nat, k: nat, id: Id)
      requires Valid() && i <= j <= k < |trace| && Current(trace[i], id) && !Current(trace[j], id)
      ensures !Current(trace[k], id)
    {
      HistoryFollows(trace, i, j);
      HistoryFollows(trace, j, k);
    }
  }

  /** The installer that left snapshot j got this file: that of the finished upload the status named. */
  ghost predicate InstalledFrom(trace: seq<Snapshot>, j: nat, file: File) {
    && 0 < j < |trace| && trace[j - 1].status.state.Queued? && trace[j - 1].status.upload.Some?
    && trace[j - 1].status.upload.value in trace[j - 1].finished
    && file == trace[j - 1].finished[trace[j - 1].status.upload.value]
  }
}
