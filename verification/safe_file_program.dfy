/**
 * The code of the safe-file layer as a program. It runs its system calls one by one, with the other
 * processes at work between any two of them, and its control flow follows the protocol.
 */
module SafeFileProgram {
  import opened SafeFile
  import opened SafeFileInvariants
  import opened SafeFileOrder
  import opened SafeFileSteps
  import opened SafeFileTheorems
  import opened Text

  /** Events of other processes; the machine stays up while a call is under way. */
  ghost predicate IsForeign(events: seq<Event>, pid: Pid) {
    forall k | 0 <= k < |events| :: !events[k].PowerLoss? && events[k].pid != pid
  }

  /** Both invariants of the protocol. */
  ghost predicate Ok(s: State, origin: Disk) {
    Inv(s, origin) && NotedOk(s)
  }

  lemma StepOk(s: State, origin: Disk, e: Event)
    requires Ok(s, origin)
    ensures Ok(Step(s, e), origin)
  {
    hide Inv, NotedOk, Step;
    StepInv(s, origin, e);
    StepNoted(s, origin, e);
  }

  lemma {:induction false} ForeignRun(s: State, origin: Disk, events: seq<Event>, pid: Pid)
    requires Ok(s, origin) && IsForeign(events, pid) && pid in s.procs
    ensures var t := Run(s, events); Ok(t, origin) && pid in t.procs && t.procs[pid] == s.procs[pid]
    decreases |events|
  {
    hide Ok;
    if events != [] {
      ForeignRun(s, origin, Init(events), pid);
      StepOk(Run(s, Init(events)), origin, Last(events));
      ForeignStep(Run(s, Init(events)), Last(events), pid);
    }
  }

  lemma ForeignStep(s: State, e: Event, pid: Pid)
    requires !e.PowerLoss? && e.pid != pid && pid in s.procs
    ensures pid in Step(s, e).procs && Step(s, e).procs[pid] == s.procs[pid]
  {
    hide Succeeded, FailedCall, TempName, IsTempName;
    if e.Succeed? && !IsIdle(s, e.pid) {
      SuccessReturns(s, e.pid, e.umasked);
    } else if e.Fail? && !IsIdle(s, e.pid) {
      FailureReturns(s, e.pid, e.junk, e.missing);
    }
  }

  /** A call whose outcome alone decides where the process goes. */
  predicate IsPlain(pc: Pc) {
    InWrite(pc) || pc.Mkdir? || pc.Open? || pc.Fill? || pc.Sync? || pc.Close?
  }

  /** Where the process stands after such a call; `missing` is a failed open's "no such file". */
  function NextPc(pc: Pc, ok: bool, missing: bool): Pc
    requires IsPlain(pc)
  {
    match pc
    case Mkdir => if ok then ReadTarget else Failed
    case Stat => Open(Temp)
    case Open(stage) => if ok then Fill(stage) else if stage == Copy && missing then Open(Note) else AfterFailure(stage)
    case Fill(stage) => if ok then Sync(stage) else Close(stage, false)
    case Sync(stage) => Close(stage, ok)
    case Close(stage, whole) => if ok && whole then AfterClose(stage) else AfterFailure(stage)
    case Chmod => if ok then Rename else Cleanup
    case Rename => if ok then Done else Cleanup
    case _ => Failed
  }

  /** Where it stands after a whole stage. */
  function AfterWrite(stage: Stage, ok: bool, missing: bool): Pc {
    if ok then AfterClose(stage)
    else if stage == Copy && missing then Open(Note)
    else AfterFailure(stage)
  }

  /** Where it stands after a read. */
  function AfterRead(pc: Pc, ok: bool, found: bool): Pc {
    if !ok then Failed
    else if pc == ReadTarget then if found then Open(Copy) else Open(Note)
    else if pc == ReadNote then if found then ReadCopy else Unlink
    else Stat
  }

  /** The process has moved on to `pc` with the same call. */
  ghost predicate Moved(s: State, t: State, pid: Pid, pc: Pc) {
    && pid in s.procs && pid in t.procs && t.procs[pid].pc == pc
    && t.procs[pid].call == s.procs[pid].call && t.procs[pid].job == s.procs[pid].job && t.procs[pid].unlinked
  }

  lemma StageMoves(s: State, pid: Pid, umasked: nat)
    requires pid in s.procs && s.procs[pid].unlinked
    requires var pc := s.procs[pid].pc; pc.Open? || pc.Fill? || pc.Sync? || pc.Close?
    ensures Moved(s, SucceedStage(s, pid, s.procs[pid], umasked), pid, NextPc(s.procs[pid].pc, true, false))
  {
    hide TempName, StagePath, StageData, Opened;
  }

  lemma ReplaceMoves(s: State, pid: Pid)
    requires pid in s.procs && s.procs[pid].unlinked && TempOk(s.disk, pid, s.procs[pid])
    requires var pc := s.procs[pid].pc; pc.Stat? || pc.Chmod? || pc.Rename? || pc.Cleanup?
    ensures Moved(s, SucceedReplace(s, pid, s.procs[pid]), pid, NextPc(s.procs[pid].pc, true, false))
  {
    hide TempName;
  }

  lemma FailureMoves(s: State, pid: Pid, junk: string, missing: bool)
    requires pid in s.procs && s.procs[pid].unlinked && IsPlain(s.procs[pid].pc)
    ensures Moved(s, FailedCall(s, pid, s.procs[pid], junk, missing), pid, NextPc(s.procs[pid].pc, false, missing))
  {
    hide TempName, StagePath;
  }

  lemma MkdirMoves(s: State, pid: Pid)
    requires pid in s.procs && s.procs[pid].unlinked && s.procs[pid].pc.Mkdir?
    ensures Moved(s, SucceedBackup(s, pid, s.procs[pid]), pid, ReadTarget)
  {
  }

  lemma CallMoves(s: State, pid: Pid, e: Event)
    requires pid in s.procs && IsPlain(s.procs[pid].pc) && ProcOk(s, pid, s.procs[pid])
    requires (e.Succeed? || e.Fail?) && e.pid == pid
    ensures Moved(s, Step(s, e), pid, NextPc(s.procs[pid].pc, e.Succeed?, e.Fail? && e.missing))
  {
    hide SucceedStage, SucceedReplace, FailedCall, TempName, JobOk, TempOk, BackupOk, Moved;
    var pc := s.procs[pid].pc;
    if e.Fail? {
      FailureMoves(s, pid, e.junk, e.missing);
    } else if pc.Mkdir? {
      MkdirMoves(s, pid);
    } else if pc.Open? || pc.Fill? || pc.Sync? || pc.Close? {
      StageMoves(s, pid, e.umasked);
    } else {
      ReplaceMoves(s, pid);
    }
  }

  lemma ReadMoves(s: State, pid: Pid, e: Event) returns (ok: bool, found: bool)
    requires pid in s.procs && s.procs[pid].pc in {ReadTarget, ReadNote, ReadCopy} && s.procs[pid].unlinked
    requires (e.Succeed? || e.Fail?) && e.pid == pid
    ensures Moved(s, Step(s, e), pid, AfterRead(s.procs[pid].pc, ok, found))
  {
    hide TempName, IsTempName;
    var pc := Step(s, e).procs[pid].pc;
    ok, found := pc != Failed, pc == Open(Copy) || pc == ReadCopy;
  }

  lemma UnlinkStep(s: State, pid: Pid, e: Event)
    requires pid in s.procs && s.procs[pid].pc == Unlink && (e.Succeed? || e.Fail?) && e.pid == pid
    ensures var t := Step(s, e);
            pid in t.procs && t.procs[pid].pc == Done
            && t.procs[pid].call == s.procs[pid].call && t.procs[pid].job == s.procs[pid].job
  {
    hide TempName, IsTempName;
  }

  lemma CommittedIffDone(s: State, origin: Disk, pid: Pid)
    requires Ok(s, origin) && pid in s.procs
    ensures IsCommitted(s.log, s.procs[pid].call) <==> s.procs[pid].pc == Done && s.procs[pid].unlinked
  {
  }

  lemma WritesAreBackedUp(s: State, origin: Disk, pid: Pid)
    requires Ok(s, origin) && pid in s.procs && InWrite(s.procs[pid].pc) && s.procs[pid].job.Configure?
    ensures BackedUp(s, s.procs[pid].job.id, s.procs[pid].job.path)
  {
    assert PhaseOk(s, s.procs[pid]) && ProcOk(s, pid, s.procs[pid]);
  }

  lemma CommittedAreBackedUp(s: State, origin: Disk, pid: Pid)
    requires Ok(s, origin) && pid in s.procs && IsCommitted(s.log, s.procs[pid].call) && s.procs[pid].job.Configure?
    ensures BackedUp(s, s.procs[pid].job.id, s.procs[pid].job.path)
  {
    var k :| 0 <= k < |s.log| && s.log[k].call == s.procs[pid].call;
    assert CommitNoted(s, s.log[k]) && EntryOk(s.log[k], s.taken) && s.log[k].job == s.procs[pid].job;
  }

  /**
   * A machine that a process runs on together with others. Its disk is a value of the model, so the
   * methods are ghost.
   */
  class Machine {
    ghost var st: State
    ghost const origin: Disk

    /** The process is about to make this system call, or over, as part of this call and job. */
    ghost predicate At(pid: Pid, pc: Pc, call: nat, job: Job)
      reads this
    {
      && Ok(st, origin) && pid in st.procs && st.procs[pid].pc == pc
      && st.procs[pid].call == call && st.procs[pid].job == job && st.procs[pid].unlinked
    }

    /** Whatever the other processes do meanwhile. */
    ghost method Others(pid: Pid, pc: Pc, call: nat, job: Job)
      requires At(pid, pc, call, job)
      modifies this
      ensures At(pid, pc, call, job)
    {
      hide Ok;
      var events: seq<Event> :| IsForeign(events, pid) by { assert IsForeign([], pid); }
      ForeignRun(st, origin, events, pid);
      st := Run(st, events);
    }

    /** The machine lets one system call succeed or fail, after whatever the others do. */
    ghost method Happens(pid: Pid, pc: Pc, call: nat, job: Job) returns (before: State, e: Event)
      requires At(pid, pc, call, job)
      modifies this
      ensures Ok(before, origin) && pid in before.procs && before.procs[pid].pc == pc && before.procs[pid].unlinked
      ensures before.procs[pid].call == call && before.procs[pid].job == job
      ensures (e.Succeed? || e.Fail?) && e.pid == pid && st == Step(before, e) && Ok(st, origin)
    {
      hide Ok;
      Others(pid, pc, call, job);
      before := st;
      var fails: bool, umasked: nat, junk: string, missing: bool := *, *, *, *;
      e := if fails then Fail(pid, junk, missing) else Succeed(pid, umasked);
      StepOk(st, origin, e);
      st := Step(st, e);
    }

    ghost method Call(pid: Pid, pc: Pc, call: nat, job: Job) returns (ok: bool, missing: bool)
      requires At(pid, pc, call, job) && IsPlain(pc)
      modifies this
      ensures At(pid, NextPc(pc, ok, missing), call, job)
    {
      var before, e := Happens(pid, pc, call, job);
      assert ProcOk(before, pid, before.procs[pid]);
      hide Ok, ProcOk, Step;
      CallMoves(before, pid, e);
      ok, missing := e.Succeed?, e.Fail? && e.missing;
    }

    /** Reading the target, the manifest (parsed) or the copy (checked against the checksum). */
    ghost method Read(pid: Pid, pc: Pc, call: nat, job: Job) returns (ok: bool, found: bool)
      requires At(pid, pc, call, job) && pc in {ReadTarget, ReadNote, ReadCopy}
      modifies this
      ensures At(pid, AfterRead(pc, ok, found), call, job)
    {
      var before, e := Happens(pid, pc, call, job);
      hide Ok, Step;
      ok, found := ReadMoves(before, pid, e);
    }

    /** `writeSync`: open, write and sync, and a close in any case. */
    ghost method WriteSync(pid: Pid, stage: Stage, call: nat, job: Job) returns (ok: bool, missing: bool)
      requires At(pid, Open(stage), call, job)
      modifies this
      ensures At(pid, AfterWrite(stage, ok, missing), call, job)
    {
      hide Ok;
      ok, missing := Call(pid, Open(stage), call, job);
      if !ok {
        return;
      }
      missing := false;
      var written, w := Call(pid, Fill(stage), call, job);
      if written {
        written, w := Call(pid, Sync(stage), call, job);
      }
      var closed, c := Call(pid, Close(stage, written), call, job);
      ok := written && closed;
    }

    /**
     * `backupFile`: the directory, the source, its copy, the manifest. A "no such file" from opening
     * the copy ends up where a missing source does.
     */
    ghost method BackupFile(pid: Pid, call: nat, job: Job) returns (ok: bool)
      requires At(pid, Mkdir, call, job) && job.Configure?
      modifies this
      ensures At(pid, if ok then Stat else Failed, call, job)
      ensures ok ==> BackedUp(st, job.id, job.path)
    {
      hide Ok, BackedUp;
      var found, missing;
      ok, missing := Call(pid, Mkdir, call, job);
      if !ok {
        return;
      }
      ok, found := Read(pid, ReadTarget, call, job);
      if !ok {
        return;
      }
      if found {
        ok, missing := WriteSync(pid, Copy, call, job);
        if !ok && !missing {
          return;
        }
      }
      ok, missing := WriteSync(pid, Note, call, job);
      if ok {
        WritesAreBackedUp(st, origin, pid);
      }
    }

    /**
     * `atomicWrite`: stat with a fallback, the temp file, chmod, rename, and on any error the removal
     * of the temp file. It returns exactly when the target was replaced, whatever the others did.
     */
    ghost method AtomicWrite(pid: Pid, call: nat, job: Job) returns (ok: bool)
      requires At(pid, Stat, call, job)
      modifies this
      ensures At(pid, if ok then Done else Failed, call, job)
      ensures ok <==> IsCommitted(st.log, call)
    {
      hide Ok;
      var m;
      var stated, _ := Call(pid, Stat, call, job);
      ok, m := WriteSync(pid, Temp, call, job);
      if ok {
        ok, m := Call(pid, Chmod, call, job);
        if ok {
          ok, m := Call(pid, Rename, call, job);
        }
      }
      if !ok {
        var removed, _ := Call(pid, Cleanup, call, job);
      }
      CommittedIffDone(st, origin, pid);
    }

    /** `apply`: the backup, then the write. When it returns, the target is replaced and its backup durable. */
    ghost method Apply(pid: Pid, call: nat, job: Job) returns (ok: bool)
      requires At(pid, Mkdir, call, job) && job.Configure?
      modifies this
      ensures At(pid, if ok then Done else Failed, call, job)
      ensures ok <==> IsCommitted(st.log, call)
      ensures ok ==> BackedUp(st, job.id, job.path)
    {
      hide Ok, BackedUp;
      ok := BackupFile(pid, call, job);
      if ok {
        ok := AtomicWrite(pid, call, job);
      }
      CommittedIffDone(st, origin, pid);
      if ok {
        CommittedAreBackedUp(st, origin, pid);
      }
    }

    /**
     * `restoreBackup`: the manifest, then either the checked copy and a write, or an unlink whose
     * error is swallowed. The target changed exactly if it returned and swallowed nothing.
     */
    ghost method RestoreBackup(pid: Pid, call: nat, job: Job) returns (ok: bool)
      requires At(pid, ReadNote, call, job) && job.Undo?
      modifies this
      ensures Ok(st, origin) && pid in st.procs && st.procs[pid].call == call && st.procs[pid].job == job
      ensures st.procs[pid].pc == if ok then Done else Failed
      ensures IsCommitted(st.log, call) <==> ok && st.procs[pid].unlinked
    {
      hide Ok;
      var existed;
      ok, existed := Read(pid, ReadNote, call, job);
      if ok && existed {
        ok, existed := Read(pid, ReadCopy, call, job);
        if ok {
          ok := AtomicWrite(pid, call, job);
        }
      } else if ok {
        var before, e := Happens(pid, Unlink, call, job);
        UnlinkStep(before, pid, e);
      }
      CommittedIffDone(st, origin, pid);
    }
  }
}
