/** An atomic write keeps the mode of the file it replaces. */
module SafeFileMode {
  import opened SafeFile
  import opened SafeFileInvariants
  import opened SafeFileProgram
  import opened SafeFileSteps
  import opened SafeFileTheorems
  import opened Text

  predicate PastStat(pc: Pc) {
    IsOver(pc) || (InWrite(pc) && pc != Stat)
  }

  /** As long as the process is in this call, it is past the stat and remembers its result. */
  ghost predicate Remembers(s: State, pid: Pid, call: nat, path: string, mode: nat) {
    && pid in s.procs && call < s.calls
    && (s.procs[pid].call == call ==>
        PastStat(s.procs[pid].pc) && s.procs[pid].path == path && s.procs[pid].mode == mode)
  }

  lemma StageRemembers(s: State, pid: Pid, umasked: nat, call: nat, path: string, mode: nat)
    requires Remembers(s, pid, call, path, mode)
    requires var pc := s.procs[pid].pc; (pc.Open? || pc.Fill? || pc.Sync? || pc.Close?)
    ensures Remembers(SucceedStage(s, pid, s.procs[pid], umasked), pid, call, path, mode)
  {
    hide TempName, Opened, StageData;
  }

  lemma ReplaceRemembers(s: State, pid: Pid, call: nat, path: string, mode: nat)
    requires Remembers(s, pid, call, path, mode) && InWrite(s.procs[pid].pc)
    ensures Remembers(SucceedReplace(s, pid, s.procs[pid]), pid, call, path, mode)
  {
    hide TempName;
  }

  lemma SuccessRemembers(s: State, pid: Pid, umasked: nat, call: nat, path: string, mode: nat)
    requires Remembers(s, pid, call, path, mode) && !IsIdle(s, pid)
    ensures Remembers(Succeeded(s, pid, s.procs[pid], umasked), pid, call, path, mode)
  {
    var pc := s.procs[pid].pc;
    if pc.Open? || pc.Fill? || pc.Sync? || pc.Close? {
      hide SucceedStage, Remembers;
      StageRemembers(s, pid, umasked, call, path, mode);
    } else if pc.Stat? || pc.Chmod? || pc.Rename? || pc.Cleanup? {
      hide SucceedReplace, Remembers;
      ReplaceRemembers(s, pid, call, path, mode);
    } else {
      SuccessIsCall(s, pid, umasked);
      hide Succeeded;
    }
  }

  lemma SuccessIsCall(s: State, pid: Pid, umasked: nat)
    requires !IsIdle(s, pid) && !InWrite(s.procs[pid].pc)
    ensures var t := Succeeded(s, pid, s.procs[pid], umasked);
            t.calls == s.calls && pid in t.procs && t.procs[pid].call == s.procs[pid].call
  {
    hide TempName, Opened, StageData, StagePath;
  }

  lemma FailureRemembers(s: State, pid: Pid, junk: string, missing: bool, call: nat, path: string, mode: nat)
    requires Remembers(s, pid, call, path, mode) && !IsIdle(s, pid)
    ensures Remembers(FailedCall(s, pid, s.procs[pid], junk, missing), pid, call, path, mode)
  {
    hide TempName, StagePath;
  }

  lemma OtherSuccess(s: State, pid: Pid, umasked: nat)
    requires !IsIdle(s, pid)
    ensures Succeeded(s, pid, s.procs[pid], umasked).calls == s.calls
  {
    hide TempName, Opened, StageData, StagePath;
  }

  lemma StepRemembers(s: State, e: Event, pid: Pid, call: nat, path: string, mode: nat)
    requires Remembers(s, pid, call, path, mode)
    ensures Remembers(Step(s, e), pid, call, path, mode)
  {
    match e
    case Start(_, _) =>
    case PowerLoss(_, _) =>
    case Crash(_) =>
    case Succeed(i, umasked) =>
      if !IsIdle(s, i) {
        SuccessReturns(s, i, umasked);
        OtherSuccess(s, i, umasked);
        if i == pid {
          SuccessRemembers(s, pid, umasked, call, path, mode);
        }
        hide Succeeded;
      }
    case Fail(i, junk, missing) =>
      if !IsIdle(s, i) {
        FailureReturns(s, i, junk, missing);
        if i == pid {
          FailureRemembers(s, pid, junk, missing, call, path, mode);
        }
        hide StagePath;
      }
  }

  lemma {:induction false} RunRemembers(s0: State, events: seq<Event>, more: seq<Event>, pid: Pid, call: nat,
      path: string, mode: nat)
    requires Remembers(Run(s0, events), pid, call, path, mode)
    ensures Remembers(Run(s0, events + more), pid, call, path, mode)
    decreases |more|
  {
    hide Step, Remembers;
    if more == [] {
      assert events + more == events;
    } else {
      RunRemembers(s0, events, Init(more), pid, call, path, mode);
      assert Init(events + more) == events + Init(more) && Last(events + more) == Last(more);
      StepRemembers(Run(s0, events + Init(more)), Last(more), pid, call, path, mode);
    }
  }

  /** The permission bits of the file in place, or owner-only for a new one. */
  function ModeOf(disk: Disk, path: string): nat {
    if User(path) in disk then disk[User(path)].mode % MODE_BITS else DEFAULT_MODE
  }

  /** What a write remembers of its stat: any error of the stat counts as "no such file". */
  function RememberedMode(disk: Disk, path: string, stat: Event): nat {
    if stat.Succeed? then ModeOf(disk, path) else DEFAULT_MODE
  }

  /**
   * Whatever runs between its stat and its rename, a write commits its whole content, and with the
   * mode that the target had at the stat exactly when the stat succeeded or that mode is the default.
   */
  lemma WriteKeepsMode(s0: State, before: seq<Event>, stat: Event, between: seq<Event>, rename: Event, pid: Pid)
    requires IsInitial(s0) && (stat.Succeed? || stat.Fail?) && stat.pid == pid && rename.Succeed? && rename.pid == pid
    requires pid in Run(s0, before).procs && Run(s0, before).procs[pid].pc == Stat
    requires var s := Run(s0, before + [stat] + between);
             pid in s.procs && s.procs[pid].pc == Rename && s.procs[pid].call == Run(s0, before).procs[pid].call
    ensures var p := Run(s0, before).procs[pid];
            var t := Run(s0, before + [stat] + between + [rename]);
            var mode := ModeOf(Run(s0, before).disk, p.path);
            && t.log != [] && Last(t.log).call == p.call && Last(t.log).image.Present?
            && ImageOf(t.disk, p.path) == Last(t.log).image
            && Last(t.log).image.text == Run(s0, before + [stat] + between).procs[pid].content
            && Last(t.log).image.mode == RememberedMode(Run(s0, before).disk, p.path, stat)
            && (Last(t.log).image.mode == mode <==> stat.Succeed? || mode == DEFAULT_MODE)
  {
    hide IsInitial, Inv, Run;
    var s, p := Run(s0, before), Run(s0, before).procs[pid];
    var s1, s2 := Run(s0, before + [stat]), Run(s0, before + [stat] + between);
    RunEnds(s0, before, stat);
    RunEnds(s0, before + [stat] + between, rename);
    RunInv(s0, before);
    ProcIsOk(s, s0.disk, pid);
    StatRemembers(s, stat, pid);
    RunRemembers(s0, before + [stat], between, pid, p.call, p.path, RememberedMode(s.disk, p.path, stat));
    RunInv(s0, before + [stat] + between);
    ProcIsOk(s2, s0.disk, pid);
    hide ProcOk, ModeOf;
    RenameCommits(s2, pid);
    hide SucceedReplace, TempName;
  }

  lemma RunEnds(s0: State, events: seq<Event>, e: Event)
    ensures Run(s0, events + [e]) == Step(Run(s0, events), e)
  {
    hide Step;
    assert Init(events + [e]) == events;
  }

  lemma ProcIsOk(s: State, origin: Disk, pid: Pid)
    requires Inv(s, origin) && pid in s.procs
    ensures ProcOk(s, pid, s.procs[pid])
  {
  }

  lemma StatRemembers(s: State, stat: Event, pid: Pid)
    requires (stat.Succeed? || stat.Fail?) && stat.pid == pid
    requires pid in s.procs && s.procs[pid].pc == Stat && s.procs[pid].call < s.calls
    ensures var p := s.procs[pid];
            Remembers(Step(s, stat), pid, p.call, p.path, RememberedMode(s.disk, p.path, stat))
  {
    hide TempName;
  }

  // ----- the failing input

  /** A file that all may read, and a write whose stat fails: the new file is its owner's only. */
  lemma StatErrorLosesMode() returns (s0: State, events: seq<Event>)
    ensures IsInitial(s0) && ImageOf(s0.disk, "a") == Present("old", 0x1A4) // 0o644
    ensures ImageOf(Run(s0, events).disk, "a") == Present("new", DEFAULT_MODE)
  {
    s0 := State(map[User("a") := File(Bytes("old"), 0x1A4, true)], map[], 0, {}, [], map[], {});
    var start, stat, ok := Start(0, Write("a", "new")), Fail(0, "", false), Succeed(0, 0);
    ShortNameIsNoTemp("a");
    RunEnds(s0, [], start);
    RunEnds(s0, [start], stat);
    assert Run(s0, []) == s0 && [] + [start] == [start];
    var s := Run(s0, [start]);
    assert s.procs[0] == NewProc(Write("a", "new"), 0) && s.disk == s0.disk;
    assert Run(s0, [start] + [stat]).procs[0] == s.procs[0].(pc := Open(Temp), mode := DEFAULT_MODE);
    hide Step, Run, IsInitial;
    var between := ToRename(s0, [start] + [stat], 0);
    events := [start] + [stat] + between + [ok];
    WriteKeepsMode(s0, [start], stat, between, ok, 0);
    RunInv(s0, [start] + [stat] + between);
    ContentIsTheJobs(Run(s0, [start] + [stat] + between), s0.disk, 0);
  }

  lemma ContentIsTheJobs(s: State, origin: Disk, pid: Pid)
    requires Inv(s, origin) && pid in s.procs && s.procs[pid].job.Write?
    ensures s.procs[pid].content == s.procs[pid].job.content
  {
    assert ProcOk(s, pid, s.procs[pid]);
  }

  /** Where a write stands `k` calls after its stat. */
  function WritePc(k: nat): Pc {
    if k == 0 then Open(Temp) else if k == 1 then Fill(Temp) else if k == 2 then Sync(Temp)
    else if k == 3 then Close(Temp, true) else if k == 4 then Chmod else Rename
  }

  /** The five calls between the stat and the rename, none of them failing. */
  lemma ToRename(s0: State, events: seq<Event>, pid: Pid) returns (between: seq<Event>)
    requires IsInitial(s0) && pid in Run(s0, events).procs && Run(s0, events).procs[pid].pc == Open(Temp)
    ensures Moved(Run(s0, events), Run(s0, events + between), pid, Rename)
  {
    between := [];
    assert events + between == events;
    NotUnlinked(s0, events, pid);
    for k := 0 to 5
      invariant Moved(Run(s0, events), Run(s0, events + between), pid, WritePc(k))
    {
      hide Run, IsInitial;
      NextCall(s0, events + between, pid);
      assert events + (between + [Succeed(pid, 0)]) == events + between + [Succeed(pid, 0)];
      between := between + [Succeed(pid, 0)];
    }
  }

  lemma NotUnlinked(s0: State, events: seq<Event>, pid: Pid)
    requires IsInitial(s0) && pid in Run(s0, events).procs && Run(s0, events).procs[pid].pc == Open(Temp)
    ensures Moved(Run(s0, events), Run(s0, events), pid, Open(Temp))
  {
    hide Step, Inv, Run, IsInitial;
    RunInv(s0, events);
    ProcIsOk(Run(s0, events), s0.disk, pid);
  }

  lemma NextCall(s0: State, events: seq<Event>, pid: Pid)
    requires IsInitial(s0) && pid in Run(s0, events).procs && IsPlain(Run(s0, events).procs[pid].pc)
    ensures var s := Run(s0, events);
            Moved(s, Run(s0, events + [Succeed(pid, 0)]), pid, NextPc(s.procs[pid].pc, true, false))
  {
    hide Step, Inv, Run, IsInitial, Moved;
    RunInv(s0, events);
    ProcIsOk(Run(s0, events), s0.disk, pid);
    RunEnds(s0, events, Succeed(pid, 0));
    CallMoves(Run(s0, events), pid, Succeed(pid, 0));
  }
}
