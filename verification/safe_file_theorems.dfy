/** What the safe-file layer promises, over every run. */
module SafeFileTheorems {
  import opened SafeFile
  import opened SafeFileInvariants
  import opened SafeFileSteps
  import opened Text

  /** A commit made by some call on this path, leaving the whole content that call was to write. */
  ghost predicate CommittedWhole(s: State, path: string, image: Image) {
    exists k :: 0 <= k < |s.log| && s.log[k].path == path && s.log[k].image == image && EntryOk(s.log[k], s.taken)
  }

  /** Over all interleavings, a target holds its whole old content or one writer's whole new content. */
  lemma TargetIsNeverMixed(s0: State, events: seq<Event>, path: string)
    requires IsInitial(s0) && !IsTempName(path)
    ensures var s := Run(s0, events);
            var image := ImageOf(s.disk, path);
            image == LastImage(s.log, path, s0.disk) &&
                (image == ImageOf(s0.disk, path) || CommittedWhole(s, path, image))
  {
    hide IsTempName;
    var s := Run(s0, events);
    RunInv(s0, events);
    LastImageIsCommitted(s.log, path, s0.disk);
  }

  lemma {:induction false} LastImageIsCommitted(log: seq<Commit>, path: string, origin: Disk)
    ensures var image := LastImage(log, path, origin);
            image == ImageOf(origin, path) || exists k :: 0 <= k < |log| && log[k].path == path && log[k].image == image
  {
    if log != [] && Last(log).path != path {
      LastImageIsCommitted(Init(log), path, origin);
    }
  }

  /** A call that failed, or died before its rename, has changed no target; one that returned has, once. */
  lemma CallsCommitIffTheyReturn(s0: State, events: seq<Event>, pid: Pid)
    requires IsInitial(s0) && pid in Run(s0, events).procs
    ensures var s := Run(s0, events);
            var p := s.procs[pid];
            && (IsCommitted(s.log, p.call) <==> p.pc == Done && p.unlinked)
            && forall k | 0 <= k < |s.log| && s.log[k].call == p.call :: s.log[k].job == p.job
  {
    RunInv(s0, events);
  }

  /** A step changes a target only by a commit to that target, after which the committing call is over. */
  lemma OnlyCommitsChangeTargets(s0: State, events: seq<Event>, e: Event, path: string)
    requires IsInitial(s0) && !IsTempName(path)
    ensures var s := Run(s0, events);
            var t := Step(s, e);
            ImageOf(t.disk, path) != ImageOf(s.disk, path) ==>
              && |t.log| == |s.log| + 1 && Init(t.log) == s.log && Last(t.log).path == path
              && Last(t.log).image == ImageOf(t.disk, path)
              && exists pid :: pid in t.procs && t.procs[pid].call == Last(t.log).call && t.procs[pid].pc == Done
  {
    var s := Run(s0, events);
    var t := Step(s, e);
    RunInv(s0, events);
    StepInv(s, s0.disk, e);
    hide IsTempName;
    assert ImageOf(s.disk, path) == LastImage(s.log, path, s0.disk);
    assert ImageOf(t.disk, path) == LastImage(t.log, path, s0.disk);
    hide Inv;
    LogGrowsByCommits(s, e);
  }

  lemma LogGrowsByCommits(s: State, e: Event)
    ensures var t := Step(s, e);
            t.log == s.log
            || (|t.log| == |s.log| + 1 && Init(t.log) == s.log && e.Succeed? && e.pid in t.procs
                && t.procs[e.pid].call == Last(t.log).call && t.procs[e.pid].pc == Done)
  {
    hide TempName, IsTempName;
  }

  /**
   * A manifest that parses and says the file existed has a complete copy beside it exactly when
   * opening the copy was not reported as "no such file".
   */
  lemma ManifestHasCopyIffNotSwallowed(s0: State, events: seq<Event>, id: BackupId)
    requires IsInitial(s0)
    ensures var s := Run(s0, events);
            ManifestOf(id) in s.disk && s.disk[ManifestOf(id)].data.Json? &&
                s.disk[ManifestOf(id)].data.manifest.existedBefore ==>
              && id in s.taken && s.taken[id].content.Some?
              && (IsWhole(s.disk, Original(id), s.taken[id].content.value) <==> id !in s.swallowed)
  {
    RunInv(s0, events);
    assert NoteOk(Run(s0, events), id);
  }

  /** The failure is real: an existing file, a copy that cannot be opened, and a manifest all the same. */
  lemma SwallowedCopyExample() returns (s0: State, events: seq<Event>, id: BackupId)
    ensures IsInitial(s0)
    ensures var s := Run(s0, events);
            && ManifestOf(id) in s.disk && s.disk[ManifestOf(id)].data.Json?
            && s.disk[ManifestOf(id)].data.manifest.existedBefore && Original(id) !in s.disk
  {
    var start := Start(0, Configure("a", "new", 0));
    s0 := State(map[User("a") := File(Bytes("old"), 0, true)], map[], 0, {}, [], map[], {});
    id := 0;
    ShortNameIsNoTemp("a");
    var s1 := ExampleStep(s0, s0, [], start);
    assert s1.procs[0] == NewProc(Configure("a", "new", 0), 0) && s1.disk == s0.disk;
    hide Step, Run;
    var s3, e3 := ReadsTarget(s0, s1, [] + [start], 0);
    events := SwallowedCopy(s0, s3, e3, 0, id);
  }

  /** Two calls from the start of a configuration to the open of the copy, if the target exists. */
  lemma ReadsTarget(s0: State, s: State, events: seq<Event>, pid: Pid) returns (t: State, more: seq<Event>)
    requires s == Run(s0, events) && pid in s.procs && s.procs[pid].pc == Mkdir && User(s.procs[pid].path) in s.disk
    ensures t == Run(s0, more) && t.disk == s.disk
    ensures pid in t.procs && t.procs[pid].pc == Open(Copy) && t.procs[pid].existed
    ensures t.procs[pid].job == s.procs[pid].job && t.procs[pid].call == s.procs[pid].call && events <= more
  {
    var ok := Succeed(pid, 0);
    var s1 := ExampleStep(s0, s, events, ok);
    t := ExampleStep(s0, s1, events + [ok], ok);
    more := events + [ok] + [ok];
    hide Run;
  }

  /** Three calls from the open of the copy to a written manifest without a copy. */
  lemma SwallowedCopy(s0: State, s: State, events: seq<Event>, pid: Pid, id: BackupId) returns (more: seq<Event>)
    requires s == Run(s0, events) && pid in s.procs && Original(id) !in s.disk
    requires var p := s.procs[pid]; p.pc == Open(Copy) && p.existed && p.job.Configure? && p.job.id == id
    ensures var t := Run(s0, more);
            && ManifestOf(id) in t.disk && t.disk[ManifestOf(id)].data.Json?
            && t.disk[ManifestOf(id)].data.manifest.existedBefore && Original(id) !in t.disk
  {
    var missing, ok := Fail(pid, "", true), Succeed(pid, 0);
    var s1 := ExampleStep(s0, s, events, missing);
    var s2 := ExampleStep(s0, s1, events + [missing], ok);
    var s3 := ExampleStep(s0, s2, events + [missing] + [ok], ok);
    more := events + [missing] + [ok] + [ok];
    hide Run, TempName, IsTempName;
  }

  lemma ExampleStep(s0: State, s: State, events: seq<Event>, e: Event) returns (t: State)
    requires s == Run(s0, events)
    ensures t == Step(s, e) == Run(s0, events + [e])
  {
    t := Step(s, e);
    assert Init(events + [e]) == events;
  }

  lemma ShortNameIsNoTemp(name: string)
    requires |name| < 4
    ensures !IsTempName(name)
  {
    forall path, pid: Pid
      ensures name != TempName(path, pid)
    {
      assert |TempName(path, pid)| >= 5;
    }
  }

  // ----- undo

  /** What a backup records is what the target held when it was read, and it is never rewritten. */
  lemma SnapshotIsWhatWasThere(s: State, e: Event, id: BackupId)
    requires id !in s.taken && id in Step(s, e).taken
    ensures var snapshot := Step(s, e).taken[id];
            Restores(ImageOf(s.disk, snapshot.path), snapshot.content)
  {
    hide TempName, IsTempName;
  }

  lemma {:induction false} SnapshotsStay(s0: State, events: seq<Event>, more: seq<Event>, id: BackupId)
    requires IsInitial(s0) && id in Run(s0, events).taken
    ensures id in Run(s0, events + more).taken && Run(s0, events + more).taken[id] == Run(s0, events).taken[id]
    decreases |more|
  {
    hide Step, Inv, IsInitial;
    if more == [] {
      assert events + more == events;
    } else {
      SnapshotsStay(s0, events, Init(more), id);
      assert Init(events + more) == events + Init(more) && Last(events + more) == Last(more);
      RunInv(s0, events + Init(more));
      StepKeepsSnapshots(Run(s0, events + Init(more)), s0.disk, Last(more), id);
    }
  }

  lemma StepKeepsSnapshots(s: State, origin: Disk, e: Event, id: BackupId)
    requires Inv(s, origin) && id in s.taken
    ensures id in Step(s, e).taken && Step(s, e).taken[id] == s.taken[id]
  {
    hide Succeeded, FailedCall, Inv;
    if e.Succeed? && !IsIdle(s, e.pid) {
      SuccessTakes(s, origin, e.pid, e.umasked, id);
    } else if e.Fail? && !IsIdle(s, e.pid) {
      FailureTakesNothing(s, e.pid, e.junk, e.missing);
    }
  }

  lemma FailureTakesNothing(s: State, pid: Pid, junk: string, missing: bool)
    requires !IsIdle(s, pid)
    ensures FailedCall(s, pid, s.procs[pid], junk, missing).taken == s.taken
  {
    hide StagePath;
  }

  /** Only reading the source of a backup records anything, under an id that is not recorded yet. */
  lemma SuccessTakes(s: State, origin: Disk, pid: Pid, umasked: nat, id: BackupId)
    requires Inv(s, origin) && !IsIdle(s, pid) && id in s.taken
    ensures var t := Succeeded(s, pid, s.procs[pid], umasked); id in t.taken && t.taken[id] == s.taken[id]
  {
    if s.procs[pid].pc.ReadTarget? {
      assert ProcOk(s, pid, s.procs[pid]);
      hide TempName, TempOk;
    } else {
      hide Inv;
      OthersTakeNothing(s, pid, umasked);
    }
  }

  lemma OthersTakeNothing(s: State, pid: Pid, umasked: nat)
    requires !IsIdle(s, pid) && !s.procs[pid].pc.ReadTarget?
    ensures Succeeded(s, pid, s.procs[pid], umasked).taken == s.taken
  {
    hide TempName, StagePath, StageData, Opened;
  }

  /** The step at which an undo returns. */
  ghost predicate UndoReturns(s: State, e: Event, pid: Pid, id: BackupId) {
    var t := Step(s, e);
    && pid in s.procs && s.procs[pid].job == Undo(id) && !IsOver(s.procs[pid].pc)
    && pid in t.procs && t.procs[pid].pc == Done
  }

  /**
   * When an undo returns, the file is as the backup found it, absent included, exactly when no
   * unlink error was swallowed or there was nothing to unlink.
   */
  lemma UndoRestores(s0: State, events: seq<Event>, e: Event, pid: Pid, id: BackupId)
    requires IsInitial(s0) && UndoReturns(Run(s0, events), e, pid, id)
    ensures var s := Run(s0, events);
            var t := Step(s, e);
            && id in s.taken
            && (Restores(ImageOf(t.disk, s.taken[id].path), s.taken[id].content)
                <==> t.procs[pid].unlinked || User(s.taken[id].path) !in s.disk)
  {
    var s := Run(s0, events);
    var p := s.procs[pid];
    RunInv(s0, events);
    assert ProcOk(s, pid, p);
    hide Inv, IsTempName, TempName, BackupOk;
    ReturningEvent(s, e, pid, id);
    if e.Succeed? {
      if p.pc.Rename? {
        RenameCommits(s, pid);
      } else {
        UnlinkCommits(s, pid);
      }
    }
  }

  lemma ReturningEvent(s: State, e: Event, pid: Pid, id: BackupId)
    requires UndoReturns(s, e, pid, id)
    ensures (e.Succeed? && e.pid == pid && (s.procs[pid].pc.Rename? || s.procs[pid].pc.Unlink?))
            || (e.Fail? && e.pid == pid && s.procs[pid].pc.Unlink?)
  {
    hide Succeeded, FailedCall, TempName, IsTempName;
    if e.Succeed? && !IsIdle(s, e.pid) {
      SuccessReturns(s, e.pid, e.umasked);
    } else if e.Fail? && !IsIdle(s, e.pid) {
      FailureReturns(s, e.pid, e.junk, e.missing);
    }
  }

  lemma SuccessReturns(s: State, pid: Pid, umasked: nat)
    requires !IsIdle(s, pid)
    ensures var t := Succeeded(s, pid, s.procs[pid], umasked);
            && t.procs == s.procs[pid := t.procs[pid]]
            && (t.procs[pid].pc == Done ==> s.procs[pid].pc.Rename? || s.procs[pid].pc.Unlink?)
  {
    hide TempName, StagePath, StageData;
    var pc := s.procs[pid].pc;
    if pc.Open? || pc.Fill? || pc.Sync? || pc.Close? {
      StageReturns(s, pid, umasked);
      hide SucceedStage;
    } else if pc.Mkdir? || pc.ReadTarget? {
    } else if pc.ReadNote? || pc.ReadCopy? || pc.Unlink? {
    }
  }

  lemma StageReturns(s: State, pid: Pid, umasked: nat)
    requires !IsIdle(s, pid)
    requires var pc := s.procs[pid].pc; pc.Open? || pc.Fill? || pc.Sync? || pc.Close?
    ensures var t := SucceedStage(s, pid, s.procs[pid], umasked);
            t.procs == s.procs[pid := t.procs[pid]] && t.procs[pid].pc != Done
  {
    hide TempName, StagePath, StageData;
  }

  lemma FailureReturns(s: State, pid: Pid, junk: string, missing: bool)
    requires !IsIdle(s, pid)
    ensures var t := FailedCall(s, pid, s.procs[pid], junk, missing);
            && t.procs == s.procs[pid := t.procs[pid]] && (t.procs[pid].pc == Done ==> s.procs[pid].pc.Unlink?)
  {
    var pc := s.procs[pid].pc;
    if pc.Open? || pc.Fill? || pc.Sync? || pc.Close? {
      StageFailureReturns(s, pid, junk, missing);
    } else {
      FailsAlone(s, pid, junk, missing);
    }
    hide FailedCall;
  }

  lemma StageFailureReturns(s: State, pid: Pid, junk: string, missing: bool)
    requires !IsIdle(s, pid)
    requires var pc := s.procs[pid].pc; pc.Open? || pc.Fill? || pc.Sync? || pc.Close?
    ensures var t := FailedCall(s, pid, s.procs[pid], junk, missing);
            t.procs == s.procs[pid := t.procs[pid]] && t.procs[pid].pc != Done
  {
    hide TempName, StagePath;
  }

  /** From the backup to the undo: whatever ran in between, the undo brings back the text that was there. */
  lemma UndoBringsBackTheText(s0: State, before: seq<Event>, take: Event, between: seq<Event>, undo: Event, pid: Pid,
      id: BackupId)
    requires IsInitial(s0)
    requires id !in Run(s0, before).taken && id in Run(s0, before + [take]).taken
    requires var s := Run(s0, before + [take] + between);
             UndoReturns(s, undo, pid, id) && Step(s, undo).procs[pid].unlinked
    ensures var earlier := Run(s0, before);
            var now := Run(s0, before + [take] + between + [undo]);
            var path := Run(s0, before + [take]).taken[id].path;
            && (User(path) in now.disk <==> User(path) in earlier.disk)
            && (User(path) in now.disk ==> TextOf(now.disk[User(path)].data) == TextOf(earlier.disk[User(path)].data))
  {
    hide Step, Inv, IsInitial;
    var taken, last := before + [take], before + [take] + between;
    assert Init(taken) == before && Init(last + [undo]) == last;
    SnapshotIsWhatWasThere(Run(s0, before), take, id);
    SnapshotsStay(s0, taken, between, id);
    UndoRestores(s0, last, undo, pid, id);
  }
}
