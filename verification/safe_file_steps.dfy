/** Every step of the safe-file protocol keeps its invariant. */
module SafeFileSteps {
  import opened SafeFile
  import opened SafeFileInvariants
  import opened Text

  // ----- steps that touch no target and no backup file

  /** The process after a step is in order, and only its own temp file has changed. */
  ghost predicate IsQuietStep(s: State, t: State, pid: Pid) {
    && pid in s.procs && pid in t.procs
    && var p, p' := s.procs[pid], t.procs[pid];
       && t.procs == s.procs[pid := p'] && p'.job == p.job && p'.call == p.call
       && p.pc != Done && (p'.pc == Done ==> !p'.unlinked) && ProcOk(t, pid, p')
       && (forall path: Path | path != User(TempName(p.path, pid)) :: SameAt(s.disk, t.disk, path))
       && t.log == s.log && t.taken == s.taken && t.swallowed == s.swallowed && t.used == s.used && t.calls == s.calls
  }

  lemma QuietInv(s: State, t: State, origin: Disk, pid: Pid)
    requires Inv(s, origin) && IsQuietStep(s, t, pid)
    ensures Inv(t, origin)
  {
    hide Inv, ProcOk, TempName;
    QuietStep(s, t, origin, pid);
  }

  lemma TempStageSuccess(s: State, pid: Pid, umasked: nat)
    requires pid in s.procs && ProcOk(s, pid, s.procs[pid])
    requires var pc := s.procs[pid].pc; (pc.Open? || pc.Fill? || pc.Sync?) && pc.stage == Temp
    ensures IsQuietStep(s, SucceedStage(s, pid, s.procs[pid], umasked), pid)
  {
    hide TempName;
  }

  lemma CloseSuccess(s: State, pid: Pid, umasked: nat)
    requires pid in s.procs && ProcOk(s, pid, s.procs[pid]) && s.procs[pid].pc.Close?
    ensures IsQuietStep(s, SucceedStage(s, pid, s.procs[pid], umasked), pid)
  {
    hide TempName;
  }

  lemma ReplaceSuccess(s: State, pid: Pid)
    requires pid in s.procs && ProcOk(s, pid, s.procs[pid])
    requires var pc := s.procs[pid].pc; pc.Stat? || pc.Chmod? || pc.Cleanup?
    ensures IsQuietStep(s, SucceedReplace(s, pid, s.procs[pid]), pid)
  {
    hide TempName;
  }

  lemma UndoReads(s: State, pid: Pid)
    requires pid in s.procs && ProcOk(s, pid, s.procs[pid]) && BackupsOk(s)
    requires var pc := s.procs[pid].pc; pc.ReadNote? || pc.ReadCopy?
    ensures IsQuietStep(s, SucceedUndo(s, pid, s.procs[pid]), pid)
  {
    hide TempName;
    assert NoteOk(s, IdOf(s.procs[pid].job));
  }

  lemma MkdirSuccess(s: State, pid: Pid)
    requires pid in s.procs && ProcOk(s, pid, s.procs[pid]) && s.procs[pid].pc.Mkdir?
    ensures IsQuietStep(s, SucceedBackup(s, pid, s.procs[pid]), pid)
  {
    hide TempName;
  }

  predicate IsQuiet(pc: Pc) {
    !pc.Rename? && !pc.Unlink? && !pc.ReadTarget? && !IsBackupWrite(pc)
  }

  predicate IsBackupWrite(pc: Pc) {
    (pc.Open? || pc.Fill? || pc.Sync?) && pc.stage != Temp
  }

  lemma QuietSuccess(s: State, pid: Pid, umasked: nat)
    requires pid in s.procs && ProcOk(s, pid, s.procs[pid]) && BackupsOk(s)
    requires !IsIdle(s, pid) && IsQuiet(s.procs[pid].pc)
    ensures IsQuietStep(s, Succeeded(s, pid, s.procs[pid], umasked), pid)
  {
    hide ProcOk, BackupsOk, IsQuietStep, SucceedStage, SucceedReplace, SucceedUndo, SucceedBackup, StagePath, StageData;
    var pc := s.procs[pid].pc;
    if pc.Mkdir? {
      MkdirSuccess(s, pid);
    } else if pc.Close? {
      CloseSuccess(s, pid, umasked);
    } else if pc.ReadNote? || pc.ReadCopy? {
      UndoReads(s, pid);
    } else if pc.Stat? || pc.Chmod? || pc.Cleanup? {
      ReplaceSuccess(s, pid);
    } else {
      TempStageSuccess(s, pid, umasked);
    }
  }

  lemma QuietSuccessInv(s: State, origin: Disk, pid: Pid, umasked: nat)
    requires Inv(s, origin) && !IsIdle(s, pid) && IsQuiet(s.procs[pid].pc)
    ensures Inv(Succeeded(s, pid, s.procs[pid], umasked), origin)
  {
    assert ProcOk(s, pid, s.procs[pid]) && BackupsOk(s);
    hide Inv, ProcOk, BackupsOk, IsQuietStep, Succeeded;
    QuietSuccess(s, pid, umasked);
    QuietInv(s, Succeeded(s, pid, s.procs[pid], umasked), origin, pid);
  }

  lemma TempStageFailure(s: State, pid: Pid, junk: string, missing: bool)
    requires pid in s.procs && ProcOk(s, pid, s.procs[pid])
    requires var pc := s.procs[pid].pc; (pc.Open? || pc.Fill? || pc.Sync? || pc.Close?) && pc.stage == Temp
    ensures IsQuietStep(s, FailedCall(s, pid, s.procs[pid], junk, missing), pid)
  {
    hide TempName;
  }

  lemma BackupCloseFailure(s: State, pid: Pid, junk: string, missing: bool)
    requires pid in s.procs && ProcOk(s, pid, s.procs[pid])
    requires var pc := s.procs[pid].pc; (pc.Sync? || pc.Close?) && pc.stage != Temp
    ensures IsQuietStep(s, FailedCall(s, pid, s.procs[pid], junk, missing), pid)
  {
    hide TempName;
  }

  /** A failed call outside the stages changes the process alone. */
  function FailedAlone(p: Proc): Proc {
    if p.pc.Stat? then p.(pc := Open(Temp), mode := DEFAULT_MODE)
    else if p.pc.Chmod? || p.pc.Rename? then p.(pc := Cleanup)
    else if p.pc.Unlink? then p.(pc := Done, unlinked := false)
    else p.(pc := Failed)
  }

  lemma FailsAlone(s: State, pid: Pid, junk: string, missing: bool)
    requires !IsIdle(s, pid)
    requires var pc := s.procs[pid].pc; !(pc.Open? || pc.Fill? || pc.Sync? || pc.Close?)
    ensures FailedCall(s, pid, s.procs[pid], junk, missing) == WithProc(s, pid, FailedAlone(s.procs[pid]))
  {
    hide StagePath;
  }

  lemma OtherFailure(s: State, pid: Pid, junk: string, missing: bool)
    requires pid in s.procs && ProcOk(s, pid, s.procs[pid]) && !IsIdle(s, pid)
    requires var pc := s.procs[pid].pc; !(pc.Open? || pc.Fill? || pc.Sync? || pc.Close?)
    ensures IsQuietStep(s, FailedCall(s, pid, s.procs[pid], junk, missing), pid)
  {
    FailsAlone(s, pid, junk, missing);
    hide FailedCall, TempName;
  }

  lemma FailureIsQuiet(s: State, pid: Pid, junk: string, missing: bool)
    requires pid in s.procs && ProcOk(s, pid, s.procs[pid]) && !IsIdle(s, pid)
    requires var pc := s.procs[pid].pc; (pc.Open? || pc.Fill?) ==> pc.stage == Temp
    ensures IsQuietStep(s, FailedCall(s, pid, s.procs[pid], junk, missing), pid)
  {
    hide ProcOk, IsQuietStep, FailedCall;
    var pc := s.procs[pid].pc;
    if !(pc.Open? || pc.Fill? || pc.Sync? || pc.Close?) {
      OtherFailure(s, pid, junk, missing);
    } else if pc.stage == Temp {
      TempStageFailure(s, pid, junk, missing);
    } else {
      BackupCloseFailure(s, pid, junk, missing);
    }
  }

  lemma CrashIsQuiet(s: State, pid: Pid)
    requires pid in s.procs && ProcOk(s, pid, s.procs[pid]) && !IsIdle(s, pid)
    ensures IsQuietStep(s, WithProc(s, pid, s.procs[pid].(pc := Dead)), pid)
  {
    hide TempName;
  }

  lemma CrashInv(s: State, origin: Disk, pid: Pid)
    requires Inv(s, origin) && !IsIdle(s, pid)
    ensures Inv(WithProc(s, pid, s.procs[pid].(pc := Dead)), origin)
  {
    assert ProcOk(s, pid, s.procs[pid]);
    hide Inv, ProcOk, IsQuietStep;
    CrashIsQuiet(s, pid);
    QuietInv(s, WithProc(s, pid, s.procs[pid].(pc := Dead)), origin, pid);
  }

  // ----- steps of a backup

  /** The process after a step is in order, and only its own backup has changed. */
  ghost predicate IsBackupStep(s: State, t: State, pid: Pid) {
    && pid in s.procs && pid in t.procs
    && var p, p' := s.procs[pid], t.procs[pid];
       && t.procs == s.procs[pid := p'] && p'.job == p.job && p'.call == p.call && p.job.Configure?
       && p.pc != Done && p'.pc != Done && ProcOk(t, pid, p') && NoteOk(t, p.job.id)
       && (p.job.id in t.taken ==> !IsTempName(t.taken[p.job.id].path))
       && (forall path: Path | path != Original(p.job.id) && path != ManifestOf(p.job.id) ::
           SameAt(s.disk, t.disk, path))
       && (forall id: BackupId | id != p.job.id ::
           (id in s.taken <==> id in t.taken) && (id in s.swallowed <==> id in t.swallowed))
       && Extends(s.taken, t.taken) && t.log == s.log && t.used == s.used && t.calls == s.calls && p.job.id in s.used
  }

  lemma BackupStepInv(s: State, t: State, origin: Disk, pid: Pid)
    requires Inv(s, origin) && IsBackupStep(s, t, pid)
    ensures Inv(t, origin)
  {
    OtherBackupsFramed(s, t, s.procs[pid].job.id);
    hide ProcOk, TempName, IsTempName, NoteOk, EntryOk;
    var p := s.procs[pid];
    OthersFramed(s, t, pid, t.procs[pid]);
    TargetsFramed(s, t, origin);
    LogFramed(s, t);
    CallsFramed(s, t, pid, t.procs[pid]);
  }

  lemma OtherBackupsFramed(s: State, t: State, own: BackupId)
    requires BackupsOk(s) && NoteOk(t, own) && own in s.used && t.used == s.used && Extends(s.taken, t.taken)
    requires own in t.taken ==> !IsTempName(t.taken[own].path)
    requires forall id: BackupId | id != own :: SameBackup(s, t, id)
    ensures BackupsOk(t)
  {
    hide IsTempName;
    forall id: BackupId
      ensures NoteOk(t, id) && (id !in t.used ==> IsUntouched(t, id))
    {
      if id != own {
        assert NoteOk(s, id) && SameBackup(s, t, id);
      }
    }
    forall id | id in t.taken
      ensures !IsTempName(t.taken[id].path)
    {
      if id != own {
        assert SameBackup(s, t, id);
      }
    }
  }

  lemma CopyOpened(s: State, pid: Pid, umasked: nat)
    requires pid in s.procs && ProcOk(s, pid, s.procs[pid]) && BackupsOk(s) && s.procs[pid].pc == Open(Copy)
    ensures IsBackupStep(s, SucceedStage(s, pid, s.procs[pid], umasked), pid)
  {
    hide TempName, IsTempName;
  }

  lemma CopyFilled(s: State, pid: Pid, umasked: nat)
    requires pid in s.procs && ProcOk(s, pid, s.procs[pid]) && BackupsOk(s) && s.procs[pid].pc == Fill(Copy)
    ensures IsBackupStep(s, SucceedStage(s, pid, s.procs[pid], umasked), pid)
  {
    hide TempName, IsTempName;
  }

  lemma CopySynced(s: State, pid: Pid, umasked: nat)
    requires pid in s.procs && ProcOk(s, pid, s.procs[pid]) && BackupsOk(s) && s.procs[pid].pc == Sync(Copy)
    ensures IsBackupStep(s, SucceedStage(s, pid, s.procs[pid], umasked), pid)
  {
    hide TempName, IsTempName;
  }

  lemma CopyStageSuccess(s: State, pid: Pid, umasked: nat)
    requires pid in s.procs && ProcOk(s, pid, s.procs[pid]) && BackupsOk(s)
    requires IsBackupWrite(s.procs[pid].pc) && s.procs[pid].pc.stage == Copy
    ensures IsBackupStep(s, SucceedStage(s, pid, s.procs[pid], umasked), pid)
  {
    hide ProcOk, BackupsOk, IsBackupStep, SucceedStage;
    var pc := s.procs[pid].pc;
    if pc.Open? {
      CopyOpened(s, pid, umasked);
    } else if pc.Fill? {
      CopyFilled(s, pid, umasked);
    } else {
      CopySynced(s, pid, umasked);
    }
  }

  lemma NoteOpened(s: State, pid: Pid, umasked: nat)
    requires pid in s.procs && ProcOk(s, pid, s.procs[pid]) && BackupsOk(s) && s.procs[pid].pc == Open(Note)
    ensures IsBackupStep(s, SucceedStage(s, pid, s.procs[pid], umasked), pid)
  {
    hide TempName, IsTempName;
    assert NoteOk(s, s.procs[pid].job.id);
    assert SameAt(s.disk, SucceedStage(s, pid, s.procs[pid], umasked).disk, Original(s.procs[pid].job.id));
  }

  lemma NoteFilled(s: State, pid: Pid, umasked: nat)
    requires pid in s.procs && ProcOk(s, pid, s.procs[pid]) && BackupsOk(s) && s.procs[pid].pc == Fill(Note)
    ensures IsBackupStep(s, SucceedStage(s, pid, s.procs[pid], umasked), pid)
  {
    hide TempName, IsTempName;
    assert NoteOk(s, s.procs[pid].job.id);
    assert SameAt(s.disk, SucceedStage(s, pid, s.procs[pid], umasked).disk, Original(s.procs[pid].job.id));
  }

  lemma NoteSynced(s: State, pid: Pid, umasked: nat)
    requires pid in s.procs && ProcOk(s, pid, s.procs[pid]) && BackupsOk(s) && s.procs[pid].pc == Sync(Note)
    ensures IsBackupStep(s, SucceedStage(s, pid, s.procs[pid], umasked), pid)
  {
    hide TempName, IsTempName;
    assert NoteOk(s, s.procs[pid].job.id);
    assert SameAt(s.disk, SucceedStage(s, pid, s.procs[pid], umasked).disk, Original(s.procs[pid].job.id));
  }

  lemma NoteStageSuccess(s: State, pid: Pid, umasked: nat)
    requires pid in s.procs && ProcOk(s, pid, s.procs[pid]) && BackupsOk(s)
    requires IsBackupWrite(s.procs[pid].pc) && s.procs[pid].pc.stage == Note
    ensures IsBackupStep(s, SucceedStage(s, pid, s.procs[pid], umasked), pid)
  {
    hide ProcOk, BackupsOk, IsBackupStep, SucceedStage;
    var pc := s.procs[pid].pc;
    if pc.Open? {
      NoteOpened(s, pid, umasked);
    } else if pc.Fill? {
      NoteFilled(s, pid, umasked);
    } else {
      NoteSynced(s, pid, umasked);
    }
  }

  lemma BackupOpenFailure(s: State, pid: Pid, junk: string, missing: bool)
    requires pid in s.procs && ProcOk(s, pid, s.procs[pid]) && BackupsOk(s)
    requires s.procs[pid].pc.Open? && s.procs[pid].pc.stage != Temp
    ensures IsBackupStep(s, FailedCall(s, pid, s.procs[pid], junk, missing), pid)
  {
    hide TempName, IsTempName;
    assert NoteOk(s, s.procs[pid].job.id);
  }

  lemma BackupFillFailure(s: State, pid: Pid, junk: string, missing: bool)
    requires pid in s.procs && ProcOk(s, pid, s.procs[pid]) && BackupsOk(s)
    requires s.procs[pid].pc.Fill? && s.procs[pid].pc.stage != Temp
    ensures IsBackupStep(s, FailedCall(s, pid, s.procs[pid], junk, missing), pid)
  {
    hide TempName, IsTempName;
    assert NoteOk(s, s.procs[pid].job.id);
  }

  lemma BackupFailure(s: State, pid: Pid, junk: string, missing: bool)
    requires pid in s.procs && ProcOk(s, pid, s.procs[pid]) && BackupsOk(s)
    requires var pc := s.procs[pid].pc; (pc.Open? || pc.Fill?) && pc.stage != Temp
    ensures IsBackupStep(s, FailedCall(s, pid, s.procs[pid], junk, missing), pid)
  {
    hide ProcOk, BackupsOk, IsBackupStep, FailedCall;
    if s.procs[pid].pc.Open? {
      BackupOpenFailure(s, pid, junk, missing);
    } else {
      BackupFillFailure(s, pid, junk, missing);
    }
  }

  lemma ReadTargetSuccess(s: State, pid: Pid)
    requires pid in s.procs && ProcOk(s, pid, s.procs[pid]) && BackupsOk(s) && s.procs[pid].pc.ReadTarget?
    ensures IsBackupStep(s, SucceedBackup(s, pid, s.procs[pid]), pid)
  {
    hide TempName, IsTempName;
  }

  // ----- steps that change a target

  /** The step that commits: the target gets its new image, and the call is over. */
  ghost predicate IsCommitStep(s: State, t: State, pid: Pid, image: Image) {
    && pid in s.procs && pid in t.procs
    && var p, p' := s.procs[pid], t.procs[pid];
       && t.procs == s.procs[pid := p'] && p'.job == p.job && p'.call == p.call
       && p.pc != Done && p'.pc == Done && p'.unlinked && ProcOk(t, pid, p') && !IsTempName(p.path)
       && t.log == s.log + [Commit(p.call, p.job, p.path, image)] && EntryOk(Last(t.log), s.taken)
       && ImageOf(t.disk, p.path) == image
       && (User(p.path) in t.disk ==> t.disk[User(p.path)].data.Bytes? && t.disk[User(p.path)].synced)
       && (forall path: Path | path != User(p.path) && path != User(TempName(p.path, pid)) ::
           SameAt(s.disk, t.disk, path))
       && t.taken == s.taken && t.swallowed == s.swallowed && t.used == s.used && t.calls == s.calls
  }

  lemma CommitStepInv(s: State, t: State, origin: Disk, pid: Pid, image: Image)
    requires Inv(s, origin) && IsCommitStep(s, t, pid, image)
    ensures Inv(t, origin)
  {
    var p := s.procs[pid];
    assert IsTempName(TempName(p.path, pid));
    assert ProcOk(s, pid, p);
    hide TempName, IsTempName, EntryOk, JobOk, TempOk, BackupOk;
    assert t.log[..|t.log| - 1] == s.log;
    CommitTargets(s, t, origin, p.path, image);
    CommitCalls(s, t, pid);
    CommitFrame(s, t, pid, image);
    assert LogOk(t);
  }

  lemma CommitFrame(s: State, t: State, pid: Pid, image: Image)
    requires ProcsOk(s) && ProcsApart(s.procs) && BackupsOk(s) && IsCommitStep(s, t, pid, image)
    ensures ProcsOk(t) && ProcsApart(t.procs) && BackupsOk(t)
  {
    hide ProcOk, TempName, IsTempName, NoteOk, EntryOk;
    OthersFramed(s, t, pid, t.procs[pid]);
    BackupsFramed(s, t);
  }

  lemma CommitTargets(s: State, t: State, origin: Disk, changed: string, image: Image)
    requires TargetsOk(s, origin) && |t.log| > 0 && Init(t.log) == s.log && Last(t.log).path == changed &&
        Last(t.log).image == image
    requires ImageOf(t.disk, changed) == image
    requires User(changed) in t.disk ==> t.disk[User(changed)].data.Bytes? && t.disk[User(changed)].synced
    requires forall path: string | path != changed && !IsTempName(path) :: SameAt(s.disk, t.disk, User(path))
    ensures TargetsOk(t, origin)
  {
    hide IsTempName;
    forall path: string | !IsTempName(path)
      ensures ImageOf(t.disk, path) == LastImage(t.log, path, origin)
      ensures User(path) in t.disk ==> t.disk[User(path)].data.Bytes? && t.disk[User(path)].synced
    {
      if path != changed {
        assert SameAt(s.disk, t.disk, User(path));
        assert ImageOf(s.disk, path) == ImageOf(t.disk, path);
      }
    }
  }

  lemma CommitCalls(s: State, t: State, pid: Pid)
    requires CallsOk(s) && ProcsApart(s.procs) && pid in s.procs && pid in t.procs
    requires t.procs == s.procs[pid := t.procs[pid]] && t.procs[pid].call == s.procs[pid].call && t.calls == s.calls
    requires t.procs[pid].pc == Done && t.procs[pid].unlinked && s.procs[pid].call < s.calls
    requires |t.log| > 0 && Init(t.log) == s.log && Last(t.log).call == s.procs[pid].call
    requires t.procs[pid].job == s.procs[pid].job == Last(t.log).job
    ensures CallsOk(t)
  {
    forall i | i in t.procs
      ensures IsCommitted(t.log, t.procs[i].call) <==> t.procs[i].pc == Done && t.procs[i].unlinked
    {
      assert IsCommitted(t.log, t.procs[i].call) <==> IsCommitted(s.log, t.procs[i].call) || i == pid by {
        assert t.log == s.log + [Last(t.log)];
        assert t.log[|t.log| - 1].call == s.procs[pid].call;
        assert forall k | 0 <= k < |s.log| :: t.log[k] == s.log[k];
      }
    }
  }

  lemma RenameCommits(s: State, pid: Pid)
    requires pid in s.procs && ProcOk(s, pid, s.procs[pid]) && s.procs[pid].pc.Rename?
    ensures IsCommitStep(s, SucceedReplace(s, pid, s.procs[pid]), pid, Present(s.procs[pid].content, s.procs[pid].mode))
  {
    var p := s.procs[pid];
    assert IsTempName(TempName(p.path, pid));
    hide TempName, IsTempName;
  }

  lemma UnlinkCommits(s: State, pid: Pid)
    requires pid in s.procs && ProcOk(s, pid, s.procs[pid]) && s.procs[pid].pc.Unlink?
    ensures IsCommitStep(s, SucceedUndo(s, pid, s.procs[pid]), pid, Absent)
  {
    var p := s.procs[pid];
    hide TempName, IsTempName;
  }

  // ----- starting, losing power, any step

  lemma StartInv(s: State, origin: Disk, pid: Pid, job: Job)
    requires Inv(s, origin) && IsIdle(s, pid) && MayStart(s, job)
    ensures Inv(Step(s, Start(pid, job)), origin)
  {
    var t := Step(s, Start(pid, job));
    assert t.disk == s.disk && t.log == s.log && t.taken == s.taken;
    NewProcOk(s, t, pid, job);
    hide TempName, IsTempName, JobOk, TempOk, BackupOk, EntryOk, NoteOk, MayStart;
    BackupsFramed(s, t);
    TargetsFramed(s, t, origin);
    forall i | i in t.procs && i != pid
      ensures ProcOk(t, i, t.procs[i])
    {
      assert ProcOk(s, i, s.procs[i]);
      ProcFramed(s, t, i, s.procs[i]);
    }
    assert ProcsOk(t);
    StartCalls(s, t, pid);
  }

  lemma NewProcOk(s: State, t: State, pid: Pid, job: Job)
    requires BackupsOk(s) && MayStart(s, job) && IsIdle(s, pid) && t == Step(s, Start(pid, job))
    ensures t.procs == s.procs[pid := NewProc(job, s.calls)] && ProcOk(t, pid, t.procs[pid])
    ensures t.procs[pid].pc != Done && (job.Configure? ==> job.id !in s.used)
  {
    hide TempName, IsTempName;
  }

  lemma StartCalls(s: State, t: State, pid: Pid)
    requires CallsOk(s) && ProcsOk(s) && ProcsApart(s.procs) && t.log == s.log && t.calls == s.calls + 1 &&
        pid in t.procs
    requires t.procs == s.procs[pid := t.procs[pid]] && t.procs[pid].call == s.calls && t.procs[pid].pc != Done
    requires t.procs[pid].job.Configure? ==> t.procs[pid].job.id !in s.used
    ensures CallsOk(t) && ProcsApart(t.procs)
  {
    hide JobOk, TempOk, BackupOk;
    forall i | i in t.procs && i != pid
      ensures t.procs[i].call < s.calls && (t.procs[i].job.Configure? ==> t.procs[i].job.id in s.used)
    {
      assert ProcOk(s, i, s.procs[i]);
    }
  }

  /** A loss of power keeps synced files and kills every running process. */
  ghost predicate IsLoss(s: State, t: State) {
    && t == s.(disk := t.disk, procs := t.procs)
    && (forall path | path in t.disk :: path in s.disk && (t.disk[path].data.Json? ==> t.disk[path] == s.disk[path]))
    && (forall path | path in s.disk && s.disk[path].synced :: path in t.disk && t.disk[path] == s.disk[path])
    && t.procs.Keys == s.procs.Keys
    && forall pid | pid in s.procs ::
         t.procs[pid] == if IsOver(s.procs[pid].pc) then s.procs[pid] else s.procs[pid].(pc := Dead)
  }

  lemma PowerLossIsLoss(s: State, garbled: map<Path, string>, gone: set<Path>)
    ensures IsLoss(s, Step(s, PowerLoss(garbled, gone)))
  {
  }

  lemma PowerLossInv(s: State, origin: Disk, garbled: map<Path, string>, gone: set<Path>)
    requires Inv(s, origin)
    ensures Inv(Step(s, PowerLoss(garbled, gone)), origin)
  {
    var t := Step(s, PowerLoss(garbled, gone));
    PowerLossIsLoss(s, garbled, gone);
    hide Step, TargetsOk, LogOk, BackupsOk, ProcsOk, ProcsApart, CallsOk, IsLoss;
    LossKeepsTargets(s, t, origin);
    LossKeepsLog(s, t);
    LossKeepsBackups(s, t);
    LossKeepsProcs(s, t);
    LossKeepsCalls(s, t);
  }

  lemma LossKeepsLog(s: State, t: State)
    requires LogOk(s) && IsLoss(s, t)
    ensures LogOk(t)
  {
    hide EntryOk;
  }

  lemma LossKeepsProcs(s: State, t: State)
    requires ProcsOk(s) && ProcsApart(s.procs) && IsLoss(s, t)
    ensures ProcsOk(t) && ProcsApart(t.procs)
  {
    hide ProcOk;
    forall i | i in t.procs
      ensures ProcOk(t, i, t.procs[i])
    {
      LossKeepsProc(s, t, i);
    }
  }

  lemma LossKeepsCalls(s: State, t: State)
    requires CallsOk(s) && IsLoss(s, t)
    ensures CallsOk(t)
  {
  }

  lemma LossKeepsTargets(s: State, t: State, origin: Disk)
    requires TargetsOk(s, origin) && IsLoss(s, t)
    ensures TargetsOk(t, origin)
  {
    hide IsTempName;
    forall path: string | !IsTempName(path)
      ensures SameAt(s.disk, t.disk, User(path))
    {
      assert ImageOf(s.disk, path) == LastImage(s.log, path, origin);
    }
    TargetsFramed(s, t, origin);
  }

  lemma LossKeepsProc(s: State, t: State, pid: Pid)
    requires IsLoss(s, t) && pid in s.procs && ProcOk(s, pid, s.procs[pid])
    ensures ProcOk(t, pid, t.procs[pid])
  {
    hide TempName, IsTempName;
  }

  lemma LossKeepsBackups(s: State, t: State)
    requires BackupsOk(s) && IsLoss(s, t)
    ensures BackupsOk(t)
  {
    hide IsTempName;
    forall id: BackupId
      ensures NoteOk(t, id) && (id !in t.used ==> IsUntouched(t, id))
    {
      assert NoteOk(s, id);
    }
  }

  lemma SuccessInv(s: State, origin: Disk, pid: Pid, umasked: nat)
    requires Inv(s, origin) && !IsIdle(s, pid)
    ensures Inv(Step(s, Succeed(pid, umasked)), origin)
  {
    var p := s.procs[pid];
    assert ProcOk(s, pid, p) && BackupsOk(s);
    hide Inv, ProcOk, BackupsOk, IsBackupStep, IsCommitStep;
    if p.pc.Rename? {
      RenameCommits(s, pid);
      CommitStepInv(s, SucceedReplace(s, pid, p), origin, pid, Present(p.content, p.mode));
    } else if p.pc.Unlink? {
      UnlinkCommits(s, pid);
      CommitStepInv(s, SucceedUndo(s, pid, p), origin, pid, Absent);
    } else if p.pc.ReadTarget? {
      ReadTargetSuccess(s, pid);
      BackupStepInv(s, SucceedBackup(s, pid, p), origin, pid);
    } else if IsBackupWrite(p.pc) {
      if p.pc.stage == Copy {
        CopyStageSuccess(s, pid, umasked);
      } else {
        NoteStageSuccess(s, pid, umasked);
      }
      BackupStepInv(s, SucceedStage(s, pid, p, umasked), origin, pid);
    } else {
      QuietSuccessInv(s, origin, pid, umasked);
    }
  }

  lemma FailureInv(s: State, origin: Disk, pid: Pid, junk: string, missing: bool)
    requires Inv(s, origin) && !IsIdle(s, pid)
    ensures Inv(Step(s, Fail(pid, junk, missing)), origin)
  {
    var p := s.procs[pid];
    assert ProcOk(s, pid, p) && BackupsOk(s);
    hide Inv, ProcOk, BackupsOk, IsBackupStep, IsQuietStep, FailedCall;
    if (p.pc.Open? || p.pc.Fill?) && p.pc.stage != Temp {
      BackupFailure(s, pid, junk, missing);
      BackupStepInv(s, FailedCall(s, pid, p, junk, missing), origin, pid);
    } else {
      FailureIsQuiet(s, pid, junk, missing);
      QuietInv(s, FailedCall(s, pid, p, junk, missing), origin, pid);
    }
  }

  lemma StepInv(s: State, origin: Disk, e: Event)
    requires Inv(s, origin)
    ensures Inv(Step(s, e), origin)
  {
    hide Inv;
    match e
    case Start(pid, job) =>
      if IsIdle(s, pid) && MayStart(s, job) {
        StartInv(s, origin, pid, job);
      }
    case Succeed(pid, umasked) =>
      if !IsIdle(s, pid) {
        SuccessInv(s, origin, pid, umasked);
      }
    case Fail(pid, junk, missing) =>
      if !IsIdle(s, pid) {
        FailureInv(s, origin, pid, junk, missing);
      }
    case Crash(pid) =>
      if !IsIdle(s, pid) {
        CrashInv(s, origin, pid);
      }
    case PowerLoss(garbled, gone) =>
      PowerLossInv(s, origin, garbled, gone);
  }

  lemma {:induction false} RunInv(s: State, events: seq<Event>)
    requires IsInitial(s)
    ensures Inv(Run(s, events), s.disk)
    decreases |events|
  {
    hide Inv, Step;
    if events == [] {
      InitialInv(s);
    } else {
      RunInv(s, Init(events));
      StepInv(Run(s, Init(events)), s.disk, Last(events));
    }
  }
}
