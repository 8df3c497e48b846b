/** Runs in which a promise of the safe-file layer is not met: a temp file stays, an undo undoes nothing. */
module SafeFileExamples {
  import opened SafeFile
  import opened SafeFileInvariants
  import opened SafeFileMode
  import opened SafeFileOrder
  import opened SafeFileProgram
  import opened SafeFileSteps
  import opened SafeFileTemp
  import opened SafeFileTheorems
  import opened Text

  /** The process has come to `pc` in this call; a run is named by its events. */
  ghost predicate Reaches(s0: State, events: seq<Event>, pid: Pid, pc: Pc, call: nat, job: Job) {
    var s := Run(s0, events);
    IsInitial(s0) && pid in s.procs && s.procs[pid].pc == pc && s.procs[pid].call == call && s.procs[pid].job == job
  }

  /** One more call, which succeeds or fails. */
  lemma Calls(s0: State, events: seq<Event>, pid: Pid, pc: Pc, call: nat, job: Job, ok: bool) returns (more: seq<Event>)
    requires Reaches(s0, events, pid, pc, call, job) && IsPlain(pc)
    ensures more == events + [if ok then Succeed(pid, 0) else Fail(pid, "", false)]
    ensures Reaches(s0, more, pid, NextPc(pc, ok, false), call, job)
  {
    hide Step, Inv, Run, IsInitial;
    var e := if ok then Succeed(pid, 0) else Fail(pid, "", false);
    more := events + [e];
    RunInv(s0, events);
    ProcIsOk(Run(s0, events), s0.disk, pid);
    RunEnds(s0, events, e);
    CallMoves(Run(s0, events), pid, e);
  }

  /** Where a backup that found no file stands `k` calls after reading the target. */
  function BackupPc(k: nat): Pc {
    if k == 0 then Open(Note) else if k == 1 then Fill(Note) else if k == 2 then Sync(Note)
    else if k == 3 then Close(Note, true) else Stat
  }

  lemma CallsThroughBackup(s0: State, events: seq<Event>, pid: Pid, call: nat, job: Job) returns (more: seq<Event>)
    requires Reaches(s0, events, pid, Open(Note), call, job)
    ensures Reaches(s0, events + more, pid, Stat, call, job)
  {
    hide Reaches;
    more := [];
    assert events + more == events;
    for k := 0 to 4
      invariant Reaches(s0, events + more, pid, BackupPc(k), call, job)
    {
      var next := Calls(s0, events + more, pid, BackupPc(k), call, job, true);
      assert events + (more + [Succeed(pid, 0)]) == events + more + [Succeed(pid, 0)];
      more := more + [Succeed(pid, 0)];
    }
  }

  lemma Starts(s0: State, events: seq<Event>, pid: Pid, job: Job)
    requires IsInitial(s0) && IsIdle(Run(s0, events), pid) && MayStart(Run(s0, events), job)
    ensures Reaches(s0, events + [Start(pid, job)], pid, NewProc(job, 0).pc, Run(s0, events).calls, job)
    ensures Run(s0, events + [Start(pid, job)]).disk == Run(s0, events).disk
  {
    hide Run, IsInitial, MayStart, IsTempName;
    RunEnds(s0, events, Start(pid, job));
  }

  // ----- a temp file that stays

  /** The write of the temp file fails, as on a full disk, and so does its removal. */
  lemma LeftoverExample() returns (s0: State, events: seq<Event>)
    ensures IsInitial(s0) && TempOf("a", 0) !in s0.disk
    ensures var t := Run(s0, events);
            0 in t.procs && t.procs[0].pc == Failed && TempOf("a", 0) in t.disk
  {
    var job := Write("a", "new");
    s0 := EmptyDisk(job);
    hide Reaches, Step, Run, IsTempName, TempName, IsInitial, MayStart, IsIdle;
    Starts(s0, [], 0, job);
    var e1 := [] + [Start(0, job)];
    var e2 := Calls(s0, e1, 0, Stat, 0, job, true);
    var e3 := Calls(s0, e2, 0, Open(Temp), 0, job, true);
    var e4 := Calls(s0, e3, 0, Fill(Temp), 0, job, false);
    events := LeftOver(s0, e4, 0, 0, job);
  }

  lemma LeftOver(s0: State, events: seq<Event>, pid: Pid, call: nat, job: Job) returns (more: seq<Event>)
    requires Reaches(s0, events, pid, Close(Temp, false), call, job) && job.Write?
    ensures var t := Run(s0, more);
            pid in t.procs && t.procs[pid].pc == Failed && TempOf(job.path, pid) in t.disk
  {
    hide Step, Inv, Run, IsInitial, TempName, IsTempName;
    var s := Run(s0, events);
    RunInv(s0, events);
    ProcIsOk(s, s0.disk, pid);
    PathOfWrite(s, pid);
    CleanupErrorLeavesTemp(s, pid);
    RunEnds(s0, events, Succeed(pid, 0));
    RunEnds(s0, events + [Succeed(pid, 0)], Fail(pid, "", false));
    more := events + [Succeed(pid, 0)] + [Fail(pid, "", false)];
  }

  lemma PathOfWrite(s: State, pid: Pid)
    requires pid in s.procs && ProcOk(s, pid, s.procs[pid])
    ensures var p := s.procs[pid]; p.job.Write? || p.job.Configure? ==> p.path == p.job.path
  {
    hide TempName, IsTempName, TempOk, BackupOk;
  }

  // ----- an undo that undoes nothing

  /** An undo of a backup that found no file, whose unlink fails: it returns, and the disk is as before. */
  lemma UnlinkErrorChangesNothing(s: State, pid: Pid, id: BackupId) returns (before: State, e: Event)
    requires IsIdle(s, pid) && ManifestOf(id) in s.disk && s.disk[ManifestOf(id)].data.Json?
    requires !s.disk[ManifestOf(id)].data.manifest.existedBefore
    ensures before == Step(Step(s, Start(pid, Undo(id))), Succeed(pid, 0)) && e == Fail(pid, "", false)
    ensures UndoReturns(before, e, pid, id) && Step(before, e).disk == s.disk
  {
    hide TempName, IsTempName;
    before := Step(Step(s, Start(pid, Undo(id))), Succeed(pid, 0));
    e := Fail(pid, "", false);
    assert before.procs[pid].pc == Unlink;
  }

  /** A configuration creates a file, and the undo that should delete it returns with the file still there. */
  lemma UndoExample() returns (s0: State, events: seq<Event>, e: Event)
    ensures IsInitial(s0) && User("a") !in s0.disk && UndoReturns(Run(s0, events), e, 0, 0)
    ensures HoldsText(Step(Run(s0, events), e), "a", "new")
  {
    hide *;
    var job := Configure("a", "new", 0);
    s0 := EmptyDisk(job);
    Starts(s0, [], 0, job);
    var e1 := [] + [Start(0, job)];
    StartPc(job);
    var e3 := TakesEmptyBackup(s0, e1, job);
    var b := CallsThroughBackup(s0, e3, 0, 0, job);
    var more := WritesOut(s0, e3 + b, 0, 0, job);
    assert e3 + b + more == e3 + (b + more);
    events, e := UndoesNothing(s0, e3, b + more, job);
  }

  lemma StartPc(job: Job)
    requires job.Configure?
    ensures NewProc(job, 0).pc == Mkdir
  {
  }

  /** A machine without files, ready for any job on the target "a". */
  lemma EmptyDisk(job: Job) returns (s0: State)
    requires !job.Undo? && job.path == "a"
    ensures IsInitial(s0) && User("a") !in s0.disk && TempOf("a", 0) !in s0.disk
    ensures var s := Run(s0, []); IsIdle(s, 0) && MayStart(s, job) && s.disk == s0.disk && s.calls == 0
  {
    s0 := State(map[], map[], 0, {}, [], map[], {});
    ShortNameIsNoTemp("a");
    hide TempName, IsTempName;
  }

  ghost predicate HoldsText(s: State, path: string, text: string) {
    ImageOf(s.disk, path).Present? && ImageOf(s.disk, path).text == text
  }

  /** The atomic write of a job: afterwards the target holds the text, by a commit of this job. */
  lemma WritesOut(s0: State, before: seq<Event>, pid: Pid, call: nat, job: Job) returns (more: seq<Event>)
    requires Reaches(s0, before, pid, Stat, call, job) && !job.Undo?
    ensures Reaches(s0, before + more, pid, Done, call, job)
    ensures var t := Run(s0, before + more);
            HoldsText(t, job.path, job.content) && t.log != [] && Last(t.log).job == job
  {
    hide Reaches, Run, HoldsText;
    var ok := Succeed(pid, 0);
    var start := Calls(s0, before, pid, Stat, call, job, true);
    var between := CallsToRename(s0, start, pid, call, job);
    var done := Calls(s0, start + between, pid, Rename, call, job, true);
    WrittenText(s0, before, between, pid, call, job);
    more := [ok] + between + [ok];
    assert before + more == done;
  }

  lemma CallsToRename(s0: State, events: seq<Event>, pid: Pid, call: nat, job: Job) returns (between: seq<Event>)
    requires Reaches(s0, events, pid, Open(Temp), call, job)
    ensures Reaches(s0, events + between, pid, Rename, call, job)
  {
    hide Run, IsInitial;
    between := ToRename(s0, events, pid);
  }

  lemma WrittenText(s0: State, before: seq<Event>, between: seq<Event>, pid: Pid, call: nat, job: Job)
    requires Reaches(s0, before, pid, Stat, call, job) && !job.Undo?
    requires Reaches(s0, before + [Succeed(pid, 0)] + between, pid, Rename, call, job)
    requires Reaches(s0, before + [Succeed(pid, 0)] + between + [Succeed(pid, 0)], pid, Done, call, job)
    ensures var t := Run(s0, before + [Succeed(pid, 0)] + between + [Succeed(pid, 0)]);
            HoldsText(t, job.path, job.content) && t.log != [] && Last(t.log).job == job
  {
    hide Run, IsInitial;
    var ok := Succeed(pid, 0);
    WriteKeepsMode(s0, before, ok, between, ok, pid);
    CallsCommitIffTheyReturn(s0, before + [ok] + between + [ok], pid);
    CarriesItsJob(s0, before, pid);
    CarriesItsJob(s0, before + [ok] + between, pid);
  }

  lemma CarriesItsJob(s0: State, events: seq<Event>, pid: Pid)
    requires IsInitial(s0) && pid in Run(s0, events).procs && !Run(s0, events).procs[pid].job.Undo?
    ensures var p := Run(s0, events).procs[pid]; p.path == p.job.path && p.content == p.job.content
  {
    hide Run, IsInitial, Inv, ProcOk;
    RunInv(s0, events);
    ProcIsOk(Run(s0, events), s0.disk, pid);
    PathOfWrite(Run(s0, events), pid);
    ContentOfWrite(Run(s0, events), pid);
  }

  lemma ContentOfWrite(s: State, pid: Pid)
    requires pid in s.procs && ProcOk(s, pid, s.procs[pid])
    ensures var p := s.procs[pid]; p.job.Write? || p.job.Configure? ==> p.content == p.job.content
  {
    hide TempName, IsTempName, TempOk, BackupOk;
  }

  /** The undo of that configuration, with an unlink that fails. */
  lemma UndoesNothing(s0: State, taken: seq<Event>, more: seq<Event>, job: Job) returns (events: seq<Event>, e: Event)
    requires Reaches(s0, taken + more, 0, Done, 0, job) && job == Configure("a", "new", 0)
    requires var s := Run(s0, taken); 0 in s.taken && s.taken[0] == Snapshot("a", None)
    requires var t := Run(s0, taken + more); HoldsText(t, "a", "new") && t.log != [] && Last(t.log).job == job
    ensures UndoReturns(Run(s0, events), e, 0, 0) && HoldsText(Step(Run(s0, events), e), "a", "new")
  {
    hide Run, Step, IsInitial;
    var done := taken + more;
    var s := Run(s0, done);
    SnapshotsStay(s0, taken, more, 0);
    ConfigureBacksUpFirst(s0, done, |s.log| - 1);
    var before, fails := UnlinkErrorChangesNothing(s, 0, 0);
    RunEnds(s0, done, Start(0, Undo(0)));
    RunEnds(s0, done + [Start(0, Undo(0))], Succeed(0, 0));
    events, e := done + [Start(0, Undo(0))] + [Succeed(0, 0)], fails;
    hide UndoReturns;
  }

  /** The two calls that find no file. */
  lemma TakesEmptyBackup(s0: State, e1: seq<Event>, job: Job) returns (e3: seq<Event>)
    requires Reaches(s0, e1, 0, Mkdir, 0, job) && job == Configure("a", "new", 0)
    requires User("a") !in Run(s0, e1).disk
    ensures Reaches(s0, e3, 0, Open(Note), 0, job)
    ensures var s := Run(s0, e3); 0 in s.taken && s.taken[0] == Snapshot("a", None) && User("a") !in s.disk
  {
    hide Run, IsInitial;
    RunInv(s0, e1);
    ProcIsOk(Run(s0, e1), s0.disk, 0);
    PathOfWrite(Run(s0, e1), 0);
    hide Inv, ProcOk;
    RunEnds(s0, e1, Succeed(0, 0));
    RunEnds(s0, e1 + [Succeed(0, 0)], Succeed(0, 0));
    e3 := e1 + [Succeed(0, 0)] + [Succeed(0, 0)];
  }
}
