/** What holds in every reachable state of the safe-file protocol. */
module SafeFileInvariants {
  import opened SafeFile
  import opened Text

  // ----- targets and their history

  ghost function ImageOf(disk: Disk, path: string): Image {
    if User(path) in disk then Present(TextOf(disk[User(path)].data), disk[User(path)].mode) else Absent
  }

  /** The image the last commit to a path left, or the original one. */
  ghost function LastImage(log: seq<Commit>, path: string, origin: Disk): Image {
    if log == [] then ImageOf(origin, path)
    else if Last(log).path == path then Last(log).image
    else LastImage(Init(log), path, origin)
  }

  /** Every target holds, whole and synced, what its last commit left. */
  ghost predicate TargetsOk(s: State, origin: Disk) {
    forall path: string | !IsTempName(path) ::
      && ImageOf(s.disk, path) == LastImage(s.log, path, origin)
      && (User(path) in s.disk ==> s.disk[User(path)].data.Bytes? && s.disk[User(path)].synced)
  }

  /** A commit left the whole content its job was about. */
  ghost predicate EntryOk(c: Commit, taken: map<BackupId, Snapshot>) {
    && !IsTempName(c.path)
    && match c.job
       case Write(path, content) => c.path == path && c.image.Present? && c.image.text == content
       case Configure(path, content, _) => c.path == path && c.image.Present? && c.image.text == content
       case Undo(id) => id in taken && c.path == taken[id].path && Restores(c.image, taken[id].content)
  }

  ghost predicate Restores(image: Image, content: Option<string>) {
    match content case None => image == Absent case Some(text) => image.Present? && image.text == text
  }

  ghost predicate LogOk(s: State) {
    forall k | 0 <= k < |s.log| :: EntryOk(s.log[k], s.taken)
  }

  // ----- backups

  /** The copy of a backup is complete, unless its open was reported as "no such file". */
  ghost predicate CopyOk(s: State, id: BackupId) {
    id in s.taken && s.taken[id].content.Some? ==>
      if id in s.swallowed then Original(id) !in s.disk
      else IsWhole(s.disk, Original(id), s.taken[id].content.value)
  }

  ghost predicate IsWhole(disk: Disk, path: Path, text: string) {
    path in disk && disk[path].data == Bytes(text) && disk[path].synced
  }

  function DigestOf(content: Option<string>): Digest {
    match content case None => NoDigest case Some(text) => Digest(text)
  }

  /** A manifest that parses says what the backup found, and its copy is complete. */
  ghost predicate NoteOk(s: State, id: BackupId) {
    ManifestOf(id) in s.disk && s.disk[ManifestOf(id)].data.Json? ==>
      && id in s.taken
      && s.disk[ManifestOf(id)].data.manifest
         == Manifest(id, s.taken[id].path, DigestOf(s.taken[id].content), s.taken[id].content.Some?)
      && CopyOk(s, id)
  }

  ghost predicate IsUntouched(s: State, id: BackupId) {
    id !in s.taken && id !in s.swallowed && Original(id) !in s.disk && ManifestOf(id) !in s.disk
  }

  ghost predicate BackupsOk(s: State) {
    && (forall id: BackupId :: NoteOk(s, id))
    && (forall id: BackupId | id !in s.used :: IsUntouched(s, id))
    && (forall id | id in s.taken :: !IsTempName(s.taken[id].path))
  }

  // ----- processes

  /** The part of the program that is `atomicWrite`. */
  predicate InWrite(pc: Pc) {
    pc.Stat? || pc.Chmod? || pc.Rename? || pc.Cleanup?
    || ((pc.Open? || pc.Fill? || pc.Sync? || pc.Close?) && pc.stage == Temp)
  }

  predicate IsOver(pc: Pc) {
    pc.Done? || pc.Failed? || pc.Dead?
  }

  /** Which parts of the program a job runs through, and what it carries there. */
  ghost predicate JobOk(taken: map<BackupId, Snapshot>, p: Proc) {
    match p.job
    case Write(path, content) =>
      (InWrite(p.pc) || IsOver(p.pc)) && p.path == path && p.content == content && !IsTempName(path)
    case Configure(path, content, _) =>
      !p.pc.ReadNote? && !p.pc.ReadCopy? && !p.pc.Unlink? && p.path == path && p.content == content && !IsTempName(path)
    case Undo(id) =>
      || p.pc.ReadNote? || IsOver(p.pc)
      || (&& id in taken && p.path == taken[id].path && !IsTempName(p.path)
          && match p.pc
             case ReadCopy => taken[id].content.Some? && p.checksum == DigestOf(taken[id].content)
             case Unlink => taken[id].content.None?
             case pc => InWrite(pc) && taken[id].content == Some(p.content))
  }

  /** The temp file of a running write: present once opened, whole once filled, synced before the rename. */
  ghost predicate TempOk(disk: Disk, pid: Pid, p: Proc) {
    var temp := User(TempName(p.path, pid));
    match p.pc
    case Fill(Temp) => temp in disk
    case Sync(Temp) => temp in disk && disk[temp].data == Bytes(p.content)
    case Close(Temp, ok) => temp in disk && (ok ==> IsWhole(disk, temp, p.content))
    case Chmod => IsWhole(disk, temp, p.content)
    case Rename => IsWhole(disk, temp, p.content) && disk[temp].mode == p.mode
    case _ => true
  }

  ghost predicate SnapOk(s: State, p: Proc) {
    IdOf(p.job) in s.taken && s.taken[IdOf(p.job)] == Snapshot(p.path, if p.existed then Some(p.copy) else None)
  }

  /** How far a running backup has come. */
  ghost predicate BackupOk(s: State, p: Proc) {
    var id := IdOf(p.job);
    match p.pc
    case Mkdir => IsUntouched(s, id)
    case ReadTarget => IsUntouched(s, id)
    case Open(Copy) => SnapOk(s, p) && p.existed && id !in s.swallowed && Original(id) !in s.disk &&
        ManifestOf(id) !in s.disk
    case Fill(Copy) => SnapOk(s, p) && p.existed && id !in s.swallowed && Original(id) in s.disk &&
        ManifestOf(id) !in s.disk
    case Sync(Copy) => SnapOk(s, p) && p.existed && id !in s.swallowed && ManifestOf(id) !in s.disk
                       && Original(id) in s.disk && s.disk[Original(id)].data == Bytes(p.copy)
    case Close(Copy, ok) => SnapOk(s, p) && p.existed && id !in s.swallowed && ManifestOf(id) !in s.disk
                            && (ok ==> IsWhole(s.disk, Original(id), p.copy))
    case Open(Note) => SnapOk(s, p) && CopyOk(s, id) && ManifestOf(id) !in s.disk
    case Fill(Note) => SnapOk(s, p) && CopyOk(s, id)
    case Sync(Note) => SnapOk(s, p) && CopyOk(s, id)
    case Close(Note, _) => SnapOk(s, p) && CopyOk(s, id)
    case _ => true
  }

  ghost predicate IsCommitted(log: seq<Commit>, call: nat) {
    exists k :: 0 <= k < |log| && log[k].call == call
  }

  ghost predicate ProcOk(s: State, pid: Pid, p: Proc) {
    && JobOk(s.taken, p) && TempOk(s.disk, pid, p)
    && (p.job.Configure? ==> BackupOk(s, p) && p.job.id in s.used)
    && p.call < s.calls && (p.pc != Done ==> p.unlinked)
  }

  ghost predicate ProcsOk(s: State) {
    forall pid | pid in s.procs :: ProcOk(s, pid, s.procs[pid])
  }

  /** No two processes share a call number or a backup id. */
  ghost predicate ProcsApart(procs: map<Pid, Proc>) {
    forall i, j | i in procs && j in procs && i != j ::
      && procs[i].call != procs[j].call
      && (procs[i].job.Configure? && procs[j].job.Configure? ==> procs[i].job.id != procs[j].job.id)
  }

  /** A call is in the log exactly if it returned, a swallowed unlink error apart. */
  ghost predicate CallsOk(s: State) {
    && (forall k | 0 <= k < |s.log| :: s.log[k].call < s.calls)
    && (forall k, pid | 0 <= k < |s.log| && pid in s.procs && s.log[k].call == s.procs[pid].call ::
          s.log[k].job == s.procs[pid].job)
    && (forall pid | pid in s.procs ::
          IsCommitted(s.log, s.procs[pid].call) <==> s.procs[pid].pc == Done && s.procs[pid].unlinked)
  }

  ghost predicate Inv(s: State, origin: Disk) {
    && TargetsOk(s, origin) && LogOk(s) && BackupsOk(s)
    && ProcsOk(s) && ProcsApart(s.procs) && CallsOk(s)
  }

  lemma InitialInv(s: State)
    requires IsInitial(s)
    ensures Inv(s, s.disk)
  {
  }

  // ----- framing

  ghost predicate SameAt(d: Disk, e: Disk, path: Path) {
    (path in d <==> path in e) && (path in d ==> d[path] == e[path])
  }

  ghost predicate Extends(taken: map<BackupId, Snapshot>, more: map<BackupId, Snapshot>) {
    forall id | id in taken :: id in more && more[id] == taken[id]
  }

  ghost predicate SameBackup(s: State, t: State, id: BackupId) {
    && SameAt(s.disk, t.disk, Original(id)) && SameAt(s.disk, t.disk, ManifestOf(id))
    && (id in s.taken <==> id in t.taken) && (id in s.swallowed <==> id in t.swallowed)
  }

  /** A process is unaffected by what happens outside its temp file and its backup. */
  lemma ProcFramed(s: State, t: State, pid: Pid, p: Proc)
    requires ProcOk(s, pid, p) && Extends(s.taken, t.taken) && s.used <= t.used && s.calls <= t.calls
    requires SameAt(s.disk, t.disk, User(TempName(p.path, pid)))
    requires p.job.Configure? ==> SameBackup(s, t, p.job.id)
    ensures ProcOk(t, pid, p)
  {
  }

  /** What one step of a process may change. */
  ghost predicate Footprint(s: State, t: State, pid: Pid, p: Proc) {
    && (forall path: Path | !SameAt(s.disk, t.disk, path) ::
          || path == User(TempName(p.path, pid))
          || (path.User? && !IsTempName(path.name))
          || (p.job.Configure? && (path == Original(p.job.id) || path == ManifestOf(p.job.id))))
    && (forall id: BackupId | id in t.taken || id in t.swallowed || id in s.swallowed ::
          (p.job.Configure? && id == p.job.id) ||
              ((id in s.taken <==> id in t.taken) && (id in s.swallowed <==> id in t.swallowed)))
    && Extends(s.taken, t.taken) && t.used == s.used && t.calls == s.calls
  }

  /** The step of one process leaves the others in order. */
  lemma OthersFramed(s: State, t: State, pid: Pid, p': Proc)
    requires ProcsOk(s) && ProcsApart(s.procs) && pid in s.procs && Footprint(s, t, pid, s.procs[pid])
    requires t.procs == s.procs[pid := p'] && p'.job == s.procs[pid].job && p'.call == s.procs[pid].call
    requires ProcOk(t, pid, p')
    ensures ProcsOk(t) && ProcsApart(t.procs)
  {
    var p := s.procs[pid];
    forall i | i in t.procs && i != pid
      ensures ProcOk(t, i, t.procs[i])
    {
      var q := s.procs[i];
      assert ProcOk(s, i, q);
      assert IsTempName(TempName(q.path, i));
      if TempName(q.path, i) == TempName(p.path, pid) {
        TempNameInjective(q.path, i, p.path, pid);
      }
      hide ProcOk, TempName, IsTempName;
      assert SameAt(s.disk, t.disk, User(TempName(q.path, i)));
      if q.job.Configure? {
        assert SameAt(s.disk, t.disk, Original(q.job.id)) && SameAt(s.disk, t.disk, ManifestOf(q.job.id));
        assert SameBackup(s, t, q.job.id);
      }
      ProcFramed(s, t, i, q);
    }
  }

  ghost predicate SameBackups(s: State, t: State) {
    && (forall id: BackupId :: SameAt(s.disk, t.disk, Original(id)) && SameAt(s.disk, t.disk, ManifestOf(id)))
    && t.taken == s.taken && t.swallowed == s.swallowed && s.used <= t.used
  }

  lemma BackupsFramed(s: State, t: State)
    requires BackupsOk(s) && SameBackups(s, t)
    ensures BackupsOk(t)
  {
    forall id: BackupId
      ensures NoteOk(t, id) && (id !in t.used ==> IsUntouched(t, id))
    {
      assert NoteOk(s, id) && SameAt(s.disk, t.disk, Original(id)) && SameAt(s.disk, t.disk, ManifestOf(id));
    }
  }

  ghost predicate SameTargets(s: State, t: State) {
    (forall path: string | !IsTempName(path) :: SameAt(s.disk, t.disk, User(path))) && t.log == s.log
  }

  lemma TargetsFramed(s: State, t: State, origin: Disk)
    requires TargetsOk(s, origin) && SameTargets(s, t)
    ensures TargetsOk(t, origin)
  {
    forall path: string | !IsTempName(path)
      ensures ImageOf(t.disk, path) == LastImage(t.log, path, origin)
      ensures User(path) in t.disk ==> t.disk[User(path)].data.Bytes? && t.disk[User(path)].synced
    {
      assert SameAt(s.disk, t.disk, User(path));
      assert ImageOf(s.disk, path) == ImageOf(t.disk, path);
    }
  }

  lemma LogFramed(s: State, t: State)
    requires LogOk(s) && t.log == s.log && Extends(s.taken, t.taken)
    ensures LogOk(t)
  {
  }

  /** A step that commits nothing. */
  lemma CallsFramed(s: State, t: State, pid: Pid, p': Proc)
    requires CallsOk(s) && pid in s.procs && t.log == s.log && t.calls == s.calls && t.procs == s.procs[pid := p']
    requires p'.call == s.procs[pid].call && p'.job == s.procs[pid].job
    requires (p'.pc == Done ==> !p'.unlinked) && s.procs[pid].pc != Done
    ensures CallsOk(t)
  {
  }

  /** A step that changes neither targets, nor backups, nor history: only its own temp file and itself. */
  lemma QuietStep(s: State, t: State, origin: Disk, pid: Pid)
    requires Inv(s, origin) && pid in s.procs && pid in t.procs
    requires var p, p' := s.procs[pid], t.procs[pid];
             && t.procs == s.procs[pid := p'] && p'.job == p.job && p'.call == p.call
             && p.pc != Done && (p'.pc == Done ==> !p'.unlinked) && ProcOk(t, pid, p')
             && (forall path: Path | path != User(TempName(p.path, pid)) :: SameAt(s.disk, t.disk, path))
    requires t.log == s.log && t.taken == s.taken && t.swallowed == s.swallowed && t.used == s.used &&
        t.calls == s.calls
    ensures Inv(t, origin)
  {
    hide ProcOk, LogOk, NoteOk, CopyOk, TempName;
    var p := s.procs[pid];
    assert IsTempName(TempName(p.path, pid));
    hide IsTempName;
    OthersFramed(s, t, pid, t.procs[pid]);
    BackupsFramed(s, t);
    TargetsFramed(s, t, origin);
    LogFramed(s, t);
    CallsFramed(s, t, pid, t.procs[pid]);
  }
}
