/** What becomes of temp files: which are on disk, and when a failed write removes its own. */
module SafeFileTemp {
  import opened SafeFile
  import opened SafeFileInvariants
  import opened SafeFileProgram
  import opened SafeFileSteps
  import opened Text

  function TempOf(path: string, pid: Pid): Path {
    User(TempName(path, pid))
  }

  /** The process is in a write of this path, past the open of its temp file. */
  ghost predicate HoldsTemp(s: State, pid: Pid, path: string) {
    && pid in s.procs && s.procs[pid].path == path
    && InWrite(s.procs[pid].pc) && !s.procs[pid].pc.Stat? && !s.procs[pid].pc.Open?
  }

  /** The write is given up with its temp file on disk: the process dies, or its cleanup fails. */
  ghost predicate LeavesTemp(s: State, e: Event, pid: Pid) {
    e.PowerLoss? || e == Crash(pid) || (e.Fail? && e.pid == pid && pid in s.procs && s.procs[pid].pc.Cleanup?)
  }

  /** A step of a process on its own temp file. */
  lemma OwnSuccess(s: State, pid: Pid, umasked: nat)
    requires !IsIdle(s, pid) && ProcOk(s, pid, s.procs[pid]) && InWrite(s.procs[pid].pc)
    ensures var t, path := Succeeded(s, pid, s.procs[pid], umasked), s.procs[pid].path;
            TempOf(path, pid) in t.disk ==>
                HoldsTemp(t, pid, path) || (TempOf(path, pid) in s.disk && s.procs[pid].pc.Stat?)
  {
    hide TempName, IsTempName, CopyOk, IsUntouched, BackupOk;
    var p := s.procs[pid];
    if p.pc.Rename? {
      RenameRemovesTemp(s, pid);
    } else if p.pc.Open? || p.pc.Fill? || p.pc.Sync? || p.pc.Close? {
      StageHoldsTemp(s, pid, umasked);
    }
    hide SucceedStage;
  }

  lemma StageHoldsTemp(s: State, pid: Pid, umasked: nat)
    requires !IsIdle(s, pid)
    requires var pc := s.procs[pid].pc; (pc.Open? || pc.Fill? || pc.Sync? || pc.Close?) && pc.stage == Temp
    ensures HoldsTemp(SucceedStage(s, pid, s.procs[pid], umasked), pid, s.procs[pid].path)
  {
    hide TempName;
  }

  lemma RenameRemovesTemp(s: State, pid: Pid)
    requires pid in s.procs && ProcOk(s, pid, s.procs[pid]) && s.procs[pid].pc.Rename?
    ensures TempOf(s.procs[pid].path, pid) !in SucceedReplace(s, pid, s.procs[pid]).disk
  {
    assert IsTempName(TempName(s.procs[pid].path, pid));
    hide TempName, IsTempName;
  }

  lemma OwnFailure(s: State, pid: Pid, junk: string, missing: bool)
    requires !IsIdle(s, pid) && InWrite(s.procs[pid].pc) && !s.procs[pid].pc.Cleanup?
    ensures var t, path := FailedCall(s, pid, s.procs[pid], junk, missing), s.procs[pid].path;
            HoldsTemp(t, pid, path) || (t.disk == s.disk && s.procs[pid].pc.Stat?)
  {
    hide TempName;
  }

  // ----- temp files of others

  ghost predicate IsOthersTemp(q: Path, p: Proc, pid: Pid) {
    q.User? && IsTempName(q.name) && (q == TempOf(p.path, pid) ==> !InWrite(p.pc))
  }

  lemma StageTouches(s: State, pid: Pid, umasked: nat, q: Path)
    requires !IsIdle(s, pid) && IsOthersTemp(q, s.procs[pid], pid)
    requires var pc := s.procs[pid].pc; pc.Open? || pc.Fill? || pc.Sync? || pc.Close?
    ensures SameAt(s.disk, SucceedStage(s, pid, s.procs[pid], umasked).disk, q)
  {
    hide TempName, IsTempName;
  }

  lemma ReplaceTouches(s: State, pid: Pid, q: Path)
    requires !IsIdle(s, pid) && IsOthersTemp(q, s.procs[pid], pid) && !IsTempName(s.procs[pid].path)
    requires var pc := s.procs[pid].pc; pc.Stat? || pc.Chmod? || pc.Rename? || pc.Cleanup?
    ensures SameAt(s.disk, SucceedReplace(s, pid, s.procs[pid]).disk, q)
  {
    hide TempName, IsTempName;
  }

  lemma UndoTouches(s: State, pid: Pid, q: Path)
    requires !IsIdle(s, pid) && IsOthersTemp(q, s.procs[pid], pid)
    requires var pc := s.procs[pid].pc; pc.ReadNote? || pc.ReadCopy? || (pc.Unlink? && !IsTempName(s.procs[pid].path))
    ensures SameAt(s.disk, SucceedUndo(s, pid, s.procs[pid]).disk, q)
  {
    hide TempName, IsTempName;
  }

  lemma PathIsNoTemp(s: State, pid: Pid)
    requires pid in s.procs && ProcOk(s, pid, s.procs[pid])
    ensures InWrite(s.procs[pid].pc) || s.procs[pid].pc.Unlink? ==> !IsTempName(s.procs[pid].path)
  {
    hide TempName, IsTempName, TempOk, BackupOk;
  }

  lemma SuccessTouches(s: State, pid: Pid, umasked: nat, q: Path)
    requires !IsIdle(s, pid) && ProcOk(s, pid, s.procs[pid]) && IsOthersTemp(q, s.procs[pid], pid)
    ensures SameAt(s.disk, Succeeded(s, pid, s.procs[pid], umasked).disk, q)
  {
    PathIsNoTemp(s, pid);
    hide ProcOk, IsOthersTemp, SucceedStage, SucceedReplace, SucceedUndo, SameAt;
    var pc := s.procs[pid].pc;
    if pc.Mkdir? || pc.ReadTarget? {
      SameDisk(s.disk, q);
    } else if pc.Open? || pc.Fill? || pc.Sync? || pc.Close? {
      StageTouches(s, pid, umasked, q);
    } else if pc.ReadNote? || pc.ReadCopy? || pc.Unlink? {
      UndoTouches(s, pid, q);
    } else {
      ReplaceTouches(s, pid, q);
    }
  }

  lemma SameDisk(disk: Disk, q: Path)
    ensures SameAt(disk, disk, q)
  {
  }

  lemma FailureTouches(s: State, pid: Pid, junk: string, missing: bool, q: Path)
    requires !IsIdle(s, pid) && IsOthersTemp(q, s.procs[pid], pid)
    ensures SameAt(s.disk, FailedCall(s, pid, s.procs[pid], junk, missing).disk, q)
  {
    hide TempName, IsTempName;
  }

  // ----- any step, any run

  /** A temp file that is there after a step is held by its write, or was there and is nobody's or left behind. */
  ghost predicate TempAccounted(s: State, e: Event, path: string, pid: Pid) {
    TempOf(path, pid) in Step(s, e).disk ==>
      || HoldsTemp(Step(s, e), pid, path)
      || (TempOf(path, pid) in s.disk && (HoldsTemp(s, pid, path) ==> LeavesTemp(s, e, pid)))
  }

  /** A step of the process itself, in a write of this path. */
  lemma OwnStep(s: State, e: Event, pid: Pid)
    requires (e.Succeed? || e.Fail?) && e.pid == pid && !IsIdle(s, pid)
    requires ProcOk(s, pid, s.procs[pid]) && InWrite(s.procs[pid].pc)
    ensures TempAccounted(s, e, s.procs[pid].path, pid)
  {
    hide Succeeded, FailedCall, ProcOk, TempOf;
    if e.Succeed? {
      OwnSuccess(s, pid, e.umasked);
    } else if s.procs[pid].pc.Cleanup? {
      FailsAlone(s, pid, e.junk, e.missing);
    } else {
      OwnFailure(s, pid, e.junk, e.missing);
    }
  }

  /** A step of another process, or of this one outside a write of this path. */
  lemma OtherStep(s: State, e: Event, path: string, pid: Pid)
    requires (e.Succeed? || e.Fail?) && !IsIdle(s, e.pid) && ProcOk(s, e.pid, s.procs[e.pid])
    requires e.pid != pid || s.procs[pid].path != path || !InWrite(s.procs[pid].pc)
    ensures TempAccounted(s, e, path, pid)
  {
    var q, p := TempOf(path, pid), s.procs[e.pid];
    assert IsTempName(TempName(path, pid));
    if q == TempOf(p.path, e.pid) {
      TempNameInjective(path, pid, p.path, e.pid);
    }
    hide Succeeded, FailedCall, ProcOk, TempName, IsTempName;
    if e.Succeed? {
      SuccessTouches(s, e.pid, e.umasked, q);
    } else {
      FailureTouches(s, e.pid, e.junk, e.missing, q);
    }
    if e.pid != pid && pid in s.procs {
      ForeignStep(s, e, pid);
    }
  }

  lemma QuietEvent(s: State, e: Event, path: string, pid: Pid)
    requires e.Start? || e.Crash? || e.PowerLoss? || IsIdle(s, e.pid)
    ensures TempAccounted(s, e, path, pid)
  {
    hide TempName, IsTempName;
  }

  lemma StepAccounted(s: State, origin: Disk, e: Event, path: string, pid: Pid)
    requires Inv(s, origin)
    ensures TempAccounted(s, e, path, pid)
  {
    if e.Start? || e.Crash? || e.PowerLoss? || IsIdle(s, e.pid) {
      hide *;
      QuietEvent(s, e, path, pid);
    } else {
      assert ProcOk(s, e.pid, s.procs[e.pid]);
      hide Inv, ProcOk, TempAccounted;
      if e.pid == pid && s.procs[pid].path == path && InWrite(s.procs[pid].pc) {
        OwnStep(s, e, pid);
      } else {
        OtherStep(s, e, path, pid);
      }
    }
  }

  /**
   * Over every run, a file under the temp name of a path and a process was there from the start, or
   * that process is in a write of that path past its open, or it died there or had its cleanup fail.
   */
  lemma {:induction false} TempHasCause(s0: State, events: seq<Event>, path: string, pid: Pid) returns (i: nat)
    requires IsInitial(s0) && TempOf(path, pid) in Run(s0, events).disk && TempOf(path, pid) !in s0.disk
    ensures !HoldsTemp(Run(s0, events), pid, path) ==>
              && i < |events| && HoldsTemp(Run(s0, events[..i]), pid, path)
              && LeavesTemp(Run(s0, events[..i]), events[i], pid)
    decreases |events|
  {
    hide Step, Inv, IsInitial, HoldsTemp, LeavesTemp;
    i := 0;
    if events != [] {
      var before := Init(events);
      RunInv(s0, before);
      StepAccounted(Run(s0, before), s0.disk, Last(events), path, pid);
      if !HoldsTemp(Run(s0, events), pid, path) {
        if HoldsTemp(Run(s0, before), pid, path) {
          i := |events| - 1;
        } else {
          i := TempHasCause(s0, before, path, pid);
          assert events[..i] == before[..i];
        }
      }
    }
  }

  /**
   * A write fails only by way of its cleanup, and then its temp file is gone exactly if the cleanup
   * succeeded or there was nothing to remove.
   */
  lemma FailedWriteRemovesTempIff(s0: State, events: seq<Event>, e: Event, pid: Pid)
    requires IsInitial(s0) && pid in Run(s0, events).procs && InWrite(Run(s0, events).procs[pid].pc)
    requires pid in Step(Run(s0, events), e).procs && Step(Run(s0, events), e).procs[pid].pc == Failed
    ensures var s := Run(s0, events);
            var temp := TempOf(s.procs[pid].path, pid);
            && s.procs[pid].pc.Cleanup? && (e.Succeed? || e.Fail?) && e.pid == pid
            && (temp !in Step(s, e).disk <==> e.Succeed? || temp !in s.disk)
  {
    var s := Run(s0, events);
    RunInv(s0, events);
    assert ProcOk(s, pid, s.procs[pid]);
    hide Inv, IsInitial, ProcOk, Run;
    FailingEvent(s, e, pid);
    if e.Fail? {
      FailsAlone(s, pid, e.junk, e.missing);
    }
    hide FailedCall, TempName;
  }

  lemma FailingEvent(s: State, e: Event, pid: Pid)
    requires pid in s.procs && InWrite(s.procs[pid].pc) && ProcOk(s, pid, s.procs[pid])
    requires pid in Step(s, e).procs && Step(s, e).procs[pid].pc == Failed
    ensures s.procs[pid].pc.Cleanup? && (e.Succeed? || e.Fail?) && e.pid == pid
  {
    hide Succeeded, FailedCall, ProcOk, TempName;
    if e.Succeed? || e.Fail? {
      if e.pid == pid {
        CallMoves(s, pid, e);
      } else if !IsIdle(s, e.pid) {
        ForeignStep(s, e, pid);
      }
    }
  }

  // ----- the failing input

  /** After a failed write of the temp file, a failed cleanup leaves it. */
  lemma CleanupErrorLeavesTemp(s: State, pid: Pid)
    requires pid in s.procs && s.procs[pid].pc == Close(Temp, false) && ProcOk(s, pid, s.procs[pid])
    ensures var t := Step(Step(s, Succeed(pid, 0)), Fail(pid, "", false));
            pid in t.procs && t.procs[pid].pc == Failed && TempOf(s.procs[pid].path, pid) in t.disk
  {
    hide TempName, IsTempName, JobOk;
  }
}
