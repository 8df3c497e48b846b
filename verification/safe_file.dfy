/**
 * Atomic writes, backups and undo as a protocol of single system calls. Any number of processes
 * interleave; each call may succeed or fail, a process may die between two calls, and the machine
 * may lose power, which garbles every file that was not synced.
 */
module SafeFile {
  import opened Decimal
  import opened Text

  type Pid = nat
  type BackupId = nat

  // ----- files

  /** A collision-free hash: digests are equal only for equal texts. */
  datatype Digest = NoDigest | Digest(of: string)

  datatype Manifest = Manifest(backupId: BackupId, originalPath: string, checksum: Digest, existedBefore: bool)

  /** File content: a text, or a manifest that parses. */
  datatype Data = Bytes(text: string) | Json(manifest: Manifest)

  /** `synced`: the content survives a loss of power. */
  datatype File = File(data: Data, mode: nat, synced: bool)

  /** A file of the user's, or one of the two files of a backup directory. */
  datatype Path = User(name: string) | Original(id: BackupId) | ManifestOf(id: BackupId)

  type Disk = map<Path, File>

  const DEFAULT_MODE := 384 // 0o600
  const MODE_BITS := 512    // mode & 0o777

  /** `<file>.<pid>.tmp` */
  function TempName(path: string, pid: Pid): string {
    path + ("." + (Digits(pid) + ".tmp"))
  }

  ghost predicate IsTempName(name: string) {
    exists path, pid :: name == TempName(path, pid)
  }

  /** The temp name determines both the path and the process. */
  lemma TempNameInjective(p: string, i: Pid, q: string, j: Pid)
    requires TempName(p, i) == TempName(q, j)
    ensures p == q && i == j
  {
    var d, e, name := Digits(i), Digits(j), TempName(p, i);
    var stem := name[..|name| - 4];
    assert stem == p + ("." + d) && TempName(q, j)[..|name| - 4] == q + ("." + e);
    LastDot(p, d, q, e);
    LastDot(q, e, p, d);
    assert stem[..|p|] == p && stem[..|q|] == q;
    assert stem[|p| + 1..] == d && stem[|q| + 1..] == e;
    DigitsInjective(i, j);
  }

  lemma TempNameExample()
    ensures TempName("a", 42) == "a.42.tmp"
  {
    assert Digits(4) == "4" && Digits(42) == Digits(4) + "2" == "42";
  }

  lemma LastDot(p: string, d: string, q: string, e: string)
    requires p + ("." + d) == q + ("." + e) && forall k | 0 <= k < |d| :: IsDigit(d[k])
    ensures |q| <= |p|
  {
    var s := p + ("." + d);
    assert s[|q|] == '.';
    assert forall k | |p| < k < |s| :: s[k] == d[k - |p| - 1];
  }

  // ----- processes

  /** `Note` is the manifest. */
  datatype Stage = Copy | Note | Temp

  /** What a process was asked to do: a bare write, a backup followed by a write, or an undo. */
  datatype Job =
    | Write(path: string, content: string)
    | Configure(path: string, content: string, id: BackupId)
    | Undo(id: BackupId)

  /** The next system call of a process. */
  datatype Pc =
    | Mkdir | ReadTarget
    | Open(stage: Stage) | Fill(stage: Stage) | Sync(stage: Stage) | Close(stage: Stage, ok: bool)
    | Stat | Chmod | Rename | Cleanup
    | ReadNote | ReadCopy | Unlink
    | Done | Failed | Dead

  /**
   * `path` and `content` are what the atomic write writes; `existed` and `copy` what the backup
   * read; `checksum` what the manifest promised; `unlinked` is false if an unlink error was swallowed.
   */
  datatype Proc = Proc(pc: Pc, call: nat, job: Job, path: string, content: string, mode: nat,
                       existed: bool, copy: string, checksum: Digest, unlinked: bool)

  /** The whole content and mode of a file; `Absent` if there is none. */
  datatype Image = Absent | Present(text: string, mode: nat)

  /** One change of a target: the rename that replaced it, or the unlink that removed it. */
  datatype Commit = Commit(call: nat, job: Job, path: string, image: Image)

  /** What a backup found: the path, and its content if it existed. */
  datatype Snapshot = Snapshot(path: string, content: Option<string>)

  /**
   * `disk` and `procs` are the system; the rest is history. `log` lists the changes of targets,
   * `taken` what each backup found, `swallowed` the backups whose copy failed to open with a
   * "no such file" error, which the code takes for a missing source.
   */
  datatype State = State(disk: Disk, procs: map<Pid, Proc>, calls: nat, used: set<BackupId>,
                         log: seq<Commit>, taken: map<BackupId, Snapshot>, swallowed: set<BackupId>)

  function TextOf(data: Data): string {
    match data case Bytes(text) => text case Json(_) => ""
  }

  function IdOf(job: Job): BackupId {
    match job case Write(_, _) => 0 case Configure(_, _, id) => id case Undo(id) => id
  }

  function ManifestFor(p: Proc): Manifest {
    Manifest(IdOf(p.job), p.path, if p.existed then Digest(p.copy) else NoDigest, p.existed)
  }

  /** The file a stage writes. */
  function StagePath(pid: Pid, p: Proc, stage: Stage): Path {
    match stage
    case Copy => Original(IdOf(p.job))
    case Note => ManifestOf(IdOf(p.job))
    case Temp => User(TempName(p.path, pid))
  }

  function StageData(p: Proc, stage: Stage): Data {
    match stage
    case Copy => Bytes(p.copy)
    case Note => Json(ManifestFor(p))
    case Temp => Bytes(p.content)
  }

  /** Where a process goes once a stage is closed without an error. */
  function AfterClose(stage: Stage): Pc {
    match stage case Copy => Open(Note) case Note => Stat case Temp => Chmod
  }

  /** Where it goes when a stage fails: a failed backup gives up, a failed write removes its temp file. */
  function AfterFailure(stage: Stage): Pc {
    if stage == Temp then Cleanup else Failed
  }

  function NewProc(job: Job, call: nat): Proc {
    match job
    case Write(path, content) => Proc(Stat, call, job, path, content, DEFAULT_MODE, false, "", NoDigest, true)
    case Configure(path, content, _) => Proc(Mkdir, call, job, path, content, DEFAULT_MODE, false, "", NoDigest, true)
    case Undo(_) => Proc(ReadNote, call, job, "", "", DEFAULT_MODE, false, "", NoDigest, true)
  }

  predicate IsIdle(s: State, pid: Pid) {
    pid !in s.procs || s.procs[pid].pc in {Done, Failed, Dead}
  }

  /** Targets are not temp files, and a backup id is fresh. */
  ghost predicate MayStart(s: State, job: Job) {
    match job
    case Write(path, _) => !IsTempName(path)
    case Configure(path, _, id) => !IsTempName(path) && id !in s.used
    case Undo(_) => true
  }

  // ----- steps

  /**
   * `Succeed` and `Fail` are the two outcomes of the next call of a process: `umasked` is the mode
   * a newly created file ends up with, `junk` what a failed write leaves behind, `missing` whether a
   * failed open reports "no such file". `PowerLoss` kills every process; a file that was not synced
   * keeps its content, loses it to `junk`, or is gone.
   */
  datatype Event =
    | Start(pid: Pid, job: Job)
    | Succeed(pid: Pid, umasked: nat)
    | Fail(pid: Pid, junk: string, missing: bool)
    | Crash(pid: Pid)
    | PowerLoss(garbled: map<Path, string>, gone: set<Path>)

  function WithProc(s: State, pid: Pid, p: Proc): State {
    s.(procs := s.procs[pid := p])
  }

  /** Opening truncates an existing file and keeps its mode. */
  function Opened(disk: Disk, path: Path, umasked: nat): Disk {
    disk[path := File(Bytes(""), if path in disk then disk[path].mode else umasked, false)]
  }

  function SucceedBackup(s: State, pid: Pid, p: Proc): State {
    if p.pc == Mkdir then WithProc(s, pid, p.(pc := ReadTarget))
    else
      var source := User(p.path);
      var id := IdOf(p.job);
      if source in s.disk then
        var text := TextOf(s.disk[source].data);
        WithProc(s, pid, p.(pc := Open(Copy), existed := true, copy := text))
          .(taken := s.taken[id := Snapshot(p.path, Some(text))])
      else
        WithProc(s, pid, p.(pc := Open(Note), existed := false))
          .(taken := s.taken[id := Snapshot(p.path, None)])
  }

  function SucceedStage(s: State, pid: Pid, p: Proc, umasked: nat): State
    requires p.pc.Open? || p.pc.Fill? || p.pc.Sync? || p.pc.Close?
  {
    var path := StagePath(pid, p, p.pc.stage);
    match p.pc
    case Open(stage) =>
      WithProc(s, pid, p.(pc := Fill(stage))).(disk := Opened(s.disk, path, umasked))
    case Fill(stage) =>
      var file := File(StageData(p, stage), if path in s.disk then s.disk[path].mode else umasked, false);
      WithProc(s, pid, p.(pc := Sync(stage))).(disk := s.disk[path := file])
    case Sync(stage) =>
      var disk := if path in s.disk then s.disk[path := s.disk[path].(synced := true)] else s.disk;
      WithProc(s, pid, p.(pc := Close(stage, true))).(disk := disk)
    case Close(stage, ok) =>
      WithProc(s, pid, p.(pc := if ok then AfterClose(stage) else AfterFailure(stage)))
  }

  function SucceedReplace(s: State, pid: Pid, p: Proc): State {
    var temp, target := User(TempName(p.path, pid)), User(p.path);
    if p.pc == Stat then
      WithProc(s, pid,
          p.(pc := Open(Temp), mode := if target in s.disk then s.disk[target].mode % MODE_BITS else DEFAULT_MODE))
    else if p.pc == Cleanup then
      WithProc(s, pid, p.(pc := Failed)).(disk := s.disk - {temp})
    else if temp !in s.disk then WithProc(s, pid, p.(pc := Cleanup))
    else if p.pc == Chmod then
      WithProc(s, pid, p.(pc := Rename)).(disk := s.disk[temp := s.disk[temp].(mode := p.mode)])
    else
      WithProc(s, pid, p.(pc := Done))
        .(disk := (s.disk - {temp})[target := s.disk[temp]],
          log := s.log + [Commit(p.call, p.job, p.path, Present(TextOf(s.disk[temp].data), s.disk[temp].mode))])
  }

  function SucceedUndo(s: State, pid: Pid, p: Proc): State {
    var id := IdOf(p.job);
    match p.pc
    case ReadNote =>
      if ManifestOf(id) in s.disk && s.disk[ManifestOf(id)].data.Json? then
        var m := s.disk[ManifestOf(id)].data.manifest;
        WithProc(s, pid,
            p.(pc := if m.existedBefore then ReadCopy else Unlink, path := m.originalPath, checksum := m.checksum))
      else WithProc(s, pid, p.(pc := Failed))
    case ReadCopy =>
      if Original(id) in s.disk && Digest(TextOf(s.disk[Original(id)].data)) == p.checksum then
        WithProc(s, pid, p.(pc := Stat, content := TextOf(s.disk[Original(id)].data)))
      else WithProc(s, pid, p.(pc := Failed))
    case _ =>
      WithProc(s, pid, p.(pc := Done))
        .(disk := s.disk - {User(p.path)}, log := s.log + [Commit(p.call, p.job, p.path, Absent)])
  }

  function Succeeded(s: State, pid: Pid, p: Proc, umasked: nat): State {
    match p.pc
    case Mkdir => SucceedBackup(s, pid, p)
    case ReadTarget => SucceedBackup(s, pid, p)
    case Open(_) => SucceedStage(s, pid, p, umasked)
    case Fill(_) => SucceedStage(s, pid, p, umasked)
    case Sync(_) => SucceedStage(s, pid, p, umasked)
    case Close(_, _) => SucceedStage(s, pid, p, umasked)
    case Stat => SucceedReplace(s, pid, p)
    case Chmod => SucceedReplace(s, pid, p)
    case Rename => SucceedReplace(s, pid, p)
    case Cleanup => SucceedReplace(s, pid, p)
    case ReadNote => SucceedUndo(s, pid, p)
    case ReadCopy => SucceedUndo(s, pid, p)
    case Unlink => SucceedUndo(s, pid, p)
    case _ => s
  }

  function FailedCall(s: State, pid: Pid, p: Proc, junk: string, missing: bool): State {
    match p.pc
    case Open(stage) =>
      if stage == Copy && missing then
        WithProc(s, pid, p.(pc := Open(Note))).(swallowed := s.swallowed + {IdOf(p.job)})
      else WithProc(s, pid, p.(pc := AfterFailure(stage)))
    case Fill(stage) =>
      var path := StagePath(pid, p, stage);
      var file := File(Bytes(junk), if path in s.disk then s.disk[path].mode else 0, false);
      WithProc(s, pid, p.(pc := Close(stage, false))).(disk := s.disk[path := file])
    case Sync(stage) => WithProc(s, pid, p.(pc := Close(stage, false)))
    case Close(stage, _) => WithProc(s, pid, p.(pc := AfterFailure(stage)))
    case Stat => WithProc(s, pid, p.(pc := Open(Temp), mode := DEFAULT_MODE))
    case Chmod => WithProc(s, pid, p.(pc := Cleanup))
    case Rename => WithProc(s, pid, p.(pc := Cleanup))
    case Unlink => WithProc(s, pid, p.(pc := Done, unlinked := false))
    case _ => WithProc(s, pid, p.(pc := Failed))
  }

  function AfterPowerLoss(disk: Disk, garbled: map<Path, string>, gone: set<Path>): Disk {
    map path | path in disk && (disk[path].synced || path !in gone) ::
      if disk[path].synced then disk[path]
      else disk[path].(data := if path in garbled then Bytes(garbled[path]) else disk[path].data)
  }

  /** Events that cannot happen leave the state alone. */
  ghost function Step(s: State, e: Event): State {
    match e
    case Start(pid, job) =>
      if IsIdle(s, pid) && MayStart(s, job) then
        WithProc(s, pid, NewProc(job, s.calls))
          .(calls := s.calls + 1, used := if job.Configure? then s.used + {job.id} else s.used)
      else s
    case Succeed(pid, umasked) => if IsIdle(s, pid) then s else Succeeded(s, pid, s.procs[pid], umasked)
    case Fail(pid, junk, missing) => if IsIdle(s, pid) then s else FailedCall(s, pid, s.procs[pid], junk, missing)
    case Crash(pid) => if IsIdle(s, pid) then s else WithProc(s, pid, s.procs[pid].(pc := Dead))
    case PowerLoss(garbled, gone) =>
      s.(disk := AfterPowerLoss(s.disk, garbled, gone),
         procs := map pid | pid in s.procs :: if IsIdle(s, pid) then s.procs[pid] else s.procs[pid].(pc := Dead))
  }

  /** Every interleaving, with failures, crashes and losses of power anywhere. */
  ghost function Run(s: State, events: seq<Event>): State
    decreases |events|
  {
    if events == [] then s else Step(Run(s, Init(events)), Last(events))
  }

  /** Only the user's files exist, whole and synced, whatever their names; no backups, no processes. */
  ghost predicate IsInitial(s: State) {
    && (forall path | path in s.disk :: path.User? && s.disk[path].data.Bytes? && s.disk[path].synced)
    && s.procs == map[] && s.calls == 0 && s.log == [] && s.taken == map[] && s.used == {} && s.swallowed == {}
  }
}
