/** Backup before write: no configuration is replaced before its backup is durable and complete. */
module SafeFileOrder {
  import opened SafeFile
  import opened SafeFileInvariants
  import opened SafeFileSteps
  import opened Text

  /** The part of the program that is `backupFile`. */
  predicate InBackup(pc: Pc) {
    pc.Mkdir? || pc.ReadTarget? || ((pc.Open? || pc.Fill? || pc.Sync? || pc.Close?) && pc.stage != Temp)
  }

  /** A manifest that parses and survives a loss of power. */
  ghost predicate HasNote(s: State, id: BackupId) {
    ManifestOf(id) in s.disk && s.disk[ManifestOf(id)].data.Json? && s.disk[ManifestOf(id)].synced
  }

  ghost predicate BackedUp(s: State, id: BackupId, path: string) {
    HasNote(s, id) && id in s.taken && s.taken[id].path == path
  }

  /** How far the manifest of a running configuration has come; from the write on it is there. */
  ghost predicate PhaseOk(s: State, p: Proc) {
    var id := IdOf(p.job);
    match p.pc
    case Sync(Note) => ManifestOf(id) in s.disk && s.disk[ManifestOf(id)].data.Json?
    case Close(Note, ok) => ok ==> BackedUp(s, id, p.path)
    case pc => InWrite(pc) ==> BackedUp(s, id, p.path)
  }

  ghost predicate PhasesOk(s: State) {
    forall pid | pid in s.procs && s.procs[pid].job.Configure? :: PhaseOk(s, s.procs[pid])
  }

  /** A commit of a configuration has its backup, and nothing is still writing that backup. */
  ghost predicate CommitNoted(s: State, c: Commit) {
    c.job.Configure? ==>
      && c.job.id in s.used && BackedUp(s, c.job.id, c.path)
      && forall pid | pid in s.procs && s.procs[pid].job.Configure? && s.procs[pid].job.id == c.job.id ::
           !InBackup(s.procs[pid].pc)
  }

  ghost predicate NotedOk(s: State) {
    PhasesOk(s) && forall k | 0 <= k < |s.log| :: CommitNoted(s, s.log[k])
  }

  // ----- one step of one process

  /** What a step does to manifests, phases and the log. */
  ghost predicate IsPhaseStep(s: State, t: State, pid: Pid) {
    && pid in s.procs && pid in t.procs
    && var p, p' := s.procs[pid], t.procs[pid];
       && t.procs == s.procs[pid := p'] && p'.job == p.job
       && t.used == s.used && Extends(s.taken, t.taken)
       && (forall id: BackupId ::
           SameAt(s.disk, t.disk, ManifestOf(id)) || (p.job.Configure? && id == p.job.id && InBackup(p.pc)))
       && (p.job.Configure? ==> PhaseOk(t, p') && (InBackup(p'.pc) ==> InBackup(p.pc)))
       && (t.log == s.log
           || ((exists image :: t.log == s.log + [Commit(p.call, p.job, p.path, image)])
               && (p.job.Configure? ==> InWrite(p.pc) && !InBackup(p'.pc))))
  }

  lemma PhaseFramed(s: State, t: State, p: Proc)
    requires PhaseOk(s, p) && SameAt(s.disk, t.disk, ManifestOf(IdOf(p.job))) && Extends(s.taken, t.taken)
    ensures PhaseOk(t, p)
  {
  }

  lemma PhaseStepKeepsPhases(s: State, t: State, pid: Pid)
    requires PhasesOk(s) && ProcsApart(s.procs) && IsPhaseStep(s, t, pid)
    ensures PhasesOk(t)
  {
    forall i | i in t.procs && t.procs[i].job.Configure?
      ensures PhaseOk(t, t.procs[i])
    {
      if i != pid {
        assert PhaseOk(s, s.procs[i]);
        hide PhaseOk;
        PhaseFramed(s, t, s.procs[i]);
      }
    }
  }

  lemma CommitStaysNoted(s: State, t: State, pid: Pid, c: Commit)
    requires CommitNoted(s, c) && IsPhaseStep(s, t, pid)
    ensures CommitNoted(t, c)
  {
    hide PhaseOk;
    if c.job.Configure? {
      assert SameAt(s.disk, t.disk, ManifestOf(c.job.id));
    }
  }

  lemma PhaseStepKeepsNoted(s: State, t: State, pid: Pid)
    requires NotedOk(s) && ProcsApart(s.procs) && ProcsOk(s) && IsPhaseStep(s, t, pid)
    ensures NotedOk(t)
  {
    PhaseStepKeepsPhases(s, t, pid);
    forall k | 0 <= k < |t.log|
      ensures CommitNoted(t, t.log[k])
    {
      if k < |s.log| {
        assert t.log[k] == s.log[k];
        CommitStaysNoted(s, t, pid, s.log[k]);
      } else {
        NewCommitNoted(s, t, pid);
      }
    }
  }

  lemma NewCommitNoted(s: State, t: State, pid: Pid)
    requires PhasesOk(s) && ProcsApart(s.procs) && ProcsOk(s) && IsPhaseStep(s, t, pid) && t.log != s.log
    ensures |t.log| == |s.log| + 1 && t.log[..|s.log|] == s.log && CommitNoted(t, t.log[|s.log|])
  {
    var p := s.procs[pid];
    if p.job.Configure? {
      assert ProcOk(s, pid, p) && PhaseOk(s, p);
      assert SameAt(s.disk, t.disk, ManifestOf(p.job.id));
    }
    hide ProcOk;
  }

  lemma TempPhase(s: State, pid: Pid, umasked: nat)
    requires pid in s.procs && PhasesOk(s)
    requires var pc := s.procs[pid].pc; (pc.Open? || pc.Fill? || pc.Sync? || pc.Close?) && pc.stage == Temp
    ensures IsPhaseStep(s, SucceedStage(s, pid, s.procs[pid], umasked), pid)
  {
    hide TempName;
  }

  lemma BackupPhase(s: State, pid: Pid, umasked: nat)
    requires pid in s.procs && PhasesOk(s) && ProcOk(s, pid, s.procs[pid])
    requires var pc := s.procs[pid].pc; (pc.Open? || pc.Fill? || pc.Sync? || pc.Close?) && pc.stage != Temp
    ensures IsPhaseStep(s, SucceedStage(s, pid, s.procs[pid], umasked), pid)
  {
    hide TempName, IsTempName, CopyOk, IsWhole, IsUntouched;
  }

  lemma FirstPhases(s: State, pid: Pid)
    requires pid in s.procs && PhasesOk(s) && ProcOk(s, pid, s.procs[pid]) &&
        (s.procs[pid].pc.Mkdir? || s.procs[pid].pc.ReadTarget?)
    ensures IsPhaseStep(s, SucceedBackup(s, pid, s.procs[pid]), pid)
  {
    hide TempName, IsTempName;
  }

  lemma ReplacePhase(s: State, pid: Pid)
    requires pid in s.procs && PhasesOk(s)
    requires var pc := s.procs[pid].pc; pc.Stat? || pc.Cleanup?
    ensures IsPhaseStep(s, SucceedReplace(s, pid, s.procs[pid]), pid)
  {
    hide TempName, IsTempName;
  }

  lemma ChmodPhase(s: State, pid: Pid)
    requires pid in s.procs && PhasesOk(s) && s.procs[pid].pc.Chmod?
    ensures IsPhaseStep(s, SucceedReplace(s, pid, s.procs[pid]), pid)
  {
    hide TempName, IsTempName;
  }

  lemma RenamePhase(s: State, pid: Pid)
    requires pid in s.procs && PhasesOk(s) && s.procs[pid].pc.Rename?
    ensures IsPhaseStep(s, SucceedReplace(s, pid, s.procs[pid]), pid)
  {
    hide TempName, IsTempName;
  }

  lemma UndoPhase(s: State, pid: Pid)
    requires pid in s.procs && PhasesOk(s) && ProcOk(s, pid, s.procs[pid])
    requires var pc := s.procs[pid].pc; pc.ReadNote? || pc.ReadCopy? || pc.Unlink?
    ensures IsPhaseStep(s, SucceedUndo(s, pid, s.procs[pid]), pid)
  {
    hide TempName, IsTempName;
  }

  lemma SuccessPhase(s: State, pid: Pid, umasked: nat)
    requires !IsIdle(s, pid) && PhasesOk(s) && ProcOk(s, pid, s.procs[pid])
    ensures IsPhaseStep(s, Succeeded(s, pid, s.procs[pid], umasked), pid)
  {
    hide PhasesOk, ProcOk, IsPhaseStep, SucceedStage, SucceedReplace, SucceedBackup, SucceedUndo;
    var pc := s.procs[pid].pc;
    if pc.Mkdir? || pc.ReadTarget? {
      FirstPhases(s, pid);
    } else if pc.Open? || pc.Fill? || pc.Sync? || pc.Close? {
      if pc.stage == Temp {
        TempPhase(s, pid, umasked);
      } else {
        BackupPhase(s, pid, umasked);
      }
    } else if pc.ReadNote? || pc.ReadCopy? || pc.Unlink? {
      UndoPhase(s, pid);
    } else if pc.Rename? {
      RenamePhase(s, pid);
    } else if pc.Chmod? {
      ChmodPhase(s, pid);
    } else {
      ReplacePhase(s, pid);
    }
  }

  lemma BackupFailurePhase(s: State, pid: Pid, junk: string, missing: bool)
    requires !IsIdle(s, pid) && PhasesOk(s) && ProcOk(s, pid, s.procs[pid])
    requires var pc := s.procs[pid].pc; (pc.Open? || pc.Fill? || pc.Sync? || pc.Close?) && pc.stage != Temp
    ensures IsPhaseStep(s, FailedCall(s, pid, s.procs[pid], junk, missing), pid)
  {
    hide TempName, IsTempName, CopyOk, IsWhole, IsUntouched, TempOk;
  }

  lemma TempFailurePhase(s: State, pid: Pid, junk: string, missing: bool)
    requires !IsIdle(s, pid) && PhasesOk(s)
    requires var pc := s.procs[pid].pc; (pc.Open? || pc.Fill? || pc.Sync? || pc.Close?) && pc.stage == Temp
    ensures IsPhaseStep(s, FailedCall(s, pid, s.procs[pid], junk, missing), pid)
  {
    hide TempName, IsTempName;
  }

  lemma OtherFailurePhase(s: State, pid: Pid, junk: string, missing: bool)
    requires !IsIdle(s, pid) && PhasesOk(s)
    requires var pc := s.procs[pid].pc; !(pc.Open? || pc.Fill? || pc.Sync? || pc.Close?)
    ensures IsPhaseStep(s, FailedCall(s, pid, s.procs[pid], junk, missing), pid)
  {
    FailsAlone(s, pid, junk, missing);
    hide FailedCall;
  }

  lemma FailurePhase(s: State, pid: Pid, junk: string, missing: bool)
    requires !IsIdle(s, pid) && PhasesOk(s) && ProcOk(s, pid, s.procs[pid])
    ensures IsPhaseStep(s, FailedCall(s, pid, s.procs[pid], junk, missing), pid)
  {
    hide PhasesOk, ProcOk, IsPhaseStep, FailedCall;
    var pc := s.procs[pid].pc;
    if (pc.Open? || pc.Fill? || pc.Sync? || pc.Close?) && pc.stage != Temp {
      BackupFailurePhase(s, pid, junk, missing);
    } else if pc.Open? || pc.Fill? || pc.Sync? || pc.Close? {
      TempFailurePhase(s, pid, junk, missing);
    } else {
      OtherFailurePhase(s, pid, junk, missing);
    }
  }

  // ----- any step, any run

  lemma StartNoted(s: State, pid: Pid, job: Job)
    requires NotedOk(s) && IsIdle(s, pid) && MayStart(s, job)
    ensures NotedOk(Step(s, Start(pid, job)))
  {
    var t := Step(s, Start(pid, job));
    hide IsTempName;
    forall k | 0 <= k < |t.log|
      ensures CommitNoted(t, t.log[k])
    {
      assert CommitNoted(s, s.log[k]);
    }
    forall i | i in t.procs && t.procs[i].job.Configure?
      ensures PhaseOk(t, t.procs[i])
    {
      if i != pid {
        assert PhaseOk(s, s.procs[i]);
      }
    }
  }

  lemma LossNoted(s: State, t: State)
    requires NotedOk(s) && IsLoss(s, t)
    ensures NotedOk(t)
  {
    hide PhaseOk, CommitNoted;
    forall k | 0 <= k < |t.log|
      ensures CommitNoted(t, t.log[k])
    {
      assert CommitNoted(s, s.log[k]);
      CommitNotedAfterLoss(s, t, s.log[k]);
    }
    forall pid | pid in t.procs && t.procs[pid].job.Configure?
      ensures PhaseOk(t, t.procs[pid])
    {
      assert PhaseOk(s, s.procs[pid]);
      PhaseAfterLoss(s, t, pid);
    }
  }

  lemma CommitNotedAfterLoss(s: State, t: State, c: Commit)
    requires CommitNoted(s, c) && IsLoss(s, t)
    ensures CommitNoted(t, c)
  {
  }

  lemma PhaseAfterLoss(s: State, t: State, pid: Pid)
    requires IsLoss(s, t) && pid in s.procs && PhaseOk(s, s.procs[pid])
    ensures PhaseOk(t, t.procs[pid])
  {
    hide BackedUp;
  }

  lemma StepNoted(s: State, origin: Disk, e: Event)
    requires Inv(s, origin) && NotedOk(s)
    ensures NotedOk(Step(s, e))
  {
    match e
    case Start(pid, job) =>
      if IsIdle(s, pid) && MayStart(s, job) {
        hide NotedOk, Inv;
        StartNoted(s, pid, job);
      }
    case PowerLoss(garbled, gone) =>
      hide NotedOk, Inv;
      PowerLossIsLoss(s, garbled, gone);
      LossNoted(s, Step(s, e));
    case Succeed(pid, umasked) =>
      if !IsIdle(s, pid) {
        ProcAndPhases(s, origin, pid);
        hide PhasesOk, ProcOk, IsPhaseStep, Succeeded;
        SuccessPhase(s, pid, umasked);
        PhaseStepKeepsNoted(s, Step(s, e), pid);
      }
    case Fail(pid, junk, missing) =>
      if !IsIdle(s, pid) {
        ProcAndPhases(s, origin, pid);
        hide PhasesOk, ProcOk, IsPhaseStep, FailedCall;
        FailurePhase(s, pid, junk, missing);
        PhaseStepKeepsNoted(s, Step(s, e), pid);
      }
    case Crash(pid) =>
      if !IsIdle(s, pid) {
        ProcAndPhases(s, origin, pid);
        hide PhasesOk, ProcOk, IsPhaseStep;
        CrashPhase(s, pid);
        PhaseStepKeepsNoted(s, Step(s, e), pid);
      }
  }

  lemma ProcAndPhases(s: State, origin: Disk, pid: Pid)
    requires Inv(s, origin) && NotedOk(s) && pid in s.procs
    ensures ProcOk(s, pid, s.procs[pid]) && PhasesOk(s) && ProcsApart(s.procs) && ProcsOk(s)
  {
  }

  lemma CrashPhase(s: State, pid: Pid)
    requires pid in s.procs
    ensures IsPhaseStep(s, WithProc(s, pid, s.procs[pid].(pc := Dead)), pid)
  {
  }

  lemma {:induction false} RunNoted(s: State, events: seq<Event>)
    requires IsInitial(s)
    ensures NotedOk(Run(s, events))
    decreases |events|
  {
    if events != [] {
      hide Inv, Step, NotedOk;
      RunNoted(s, Init(events));
      RunInv(s, Init(events));
      StepNoted(Run(s, Init(events)), s.disk, Last(events));
    }
  }

  /**
   * Whenever a configuration has replaced its target, in any run and from then on, the backup it
   * took is there: the manifest is durable and names the path, digest and existence that the backup
   * found, and the copy is complete exactly when its open was not taken for a missing source.
   */
  lemma ConfigureBacksUpFirst(s0: State, events: seq<Event>, k: nat)
    requires IsInitial(s0)
    requires var s := Run(s0, events); k < |s.log| && s.log[k].job.Configure?
    ensures var s := Run(s0, events);
            var c := s.log[k];
            var id := c.job.id;
            && BackedUp(s, id, c.path)
            && s.disk[ManifestOf(id)].data.manifest
               == Manifest(id, c.path, DigestOf(s.taken[id].content), s.taken[id].content.Some?)
            && (s.taken[id].content.Some? ==>
                  (IsWhole(s.disk, Original(id), s.taken[id].content.value) <==> id !in s.swallowed))
  {
    var s := Run(s0, events);
    RunInv(s0, events);
    RunNoted(s0, events);
    assert CommitNoted(s, s.log[k]) && NoteOk(s, s.log[k].job.id);
    hide Step, Run, IsInitial, TargetsOk, LogOk, ProcsOk, CallsOk, ProcsApart;
  }
}
