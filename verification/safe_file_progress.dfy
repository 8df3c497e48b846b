/** When the system calls of a process succeed, what it was asked to do gets done. */
module SafeFileProgress {
  import opened SafeFile
  import opened SafeFileExamples
  import opened SafeFileInvariants
  import opened SafeFileMode
  import opened SafeFileOrder
  import opened SafeFileProgram
  import opened SafeFileSteps
  import opened SafeFileTheorems
  import opened Text

  /** The next calls of a process, none of them failing; new files get these modes. */
  function Oks(pid: Pid, umasks: seq<nat>): seq<Event> {
    seq(|umasks|, k requires 0 <= k < |umasks| => Succeed(pid, umasks[k]))
  }

  lemma OksSplit(pid: Pid, umasks: seq<nat>, n: nat)
    requires n <= |umasks|
    ensures Oks(pid, umasks) == Oks(pid, umasks[..n]) + Oks(pid, umasks[n..])
  {
  }

  lemma OksSnoc(pid: Pid, umasks: seq<nat>)
    requires umasks != []
    ensures Oks(pid, umasks) == Oks(pid, Init(umasks)) + [Succeed(pid, Last(umasks))]
  {
  }

  // ----- calls whose outcome alone decides

  /** Where a process stands after `n` such calls. */
  function PcAfter(pc: Pc, n: nat): Pc {
    if n == 0 then pc
    else
      var before := PcAfter(pc, n - 1);
      if IsPlain(before) then NextPc(before, true, false) else before
  }

  predicate PlainFor(pc: Pc, n: nat) {
    forall k | 0 <= k < n :: IsPlain(PcAfter(pc, k)) && PcAfter(pc, k) != Rename
  }

  /** The seven calls of an atomic write. */
  lemma WritePath()
    ensures PlainFor(Stat, 6) && PcAfter(Stat, 6) == Rename && PcAfter(Stat, 1) == Open(Temp)
  {
    assert PcAfter(Stat, 0) == Stat;
    assert PcAfter(Stat, 1) == Open(Temp);
    assert PcAfter(Stat, 2) == Fill(Temp);
    assert PcAfter(Stat, 3) == Sync(Temp);
    assert PcAfter(Stat, 4) == Close(Temp, true);
    assert PcAfter(Stat, 5) == Chmod;
  }

  /** The four calls of the manifest, and before them those of the copy. */
  lemma BackupPath()
    ensures PlainFor(Open(Note), 4) && PcAfter(Open(Note), 4) == Stat
    ensures PlainFor(Open(Copy), 8) && PcAfter(Open(Copy), 8) == Stat
  {
    assert PcAfter(Open(Note), 0) == Open(Note);
    assert PcAfter(Open(Note), 1) == Fill(Note);
    assert PcAfter(Open(Note), 2) == Sync(Note);
    assert PcAfter(Open(Note), 3) == Close(Note, true);
    assert PcAfter(Open(Copy), 0) == Open(Copy);
    assert PcAfter(Open(Copy), 1) == Fill(Copy);
    assert PcAfter(Open(Copy), 2) == Sync(Copy);
    assert PcAfter(Open(Copy), 3) == Close(Copy, true);
    assert PcAfter(Open(Copy), 4) == Open(Note);
    assert PcAfter(Open(Copy), 5) == Fill(Note);
    assert PcAfter(Open(Copy), 6) == Sync(Note);
    assert PcAfter(Open(Copy), 7) == Close(Note, true);
  }

  /** Nothing but the process's own files has changed: no commit, and no copy was lost. */
  ghost predicate SameHistory(s: State, t: State) {
    t.log == s.log && t.swallowed == s.swallowed
  }

  lemma {:induction false} ChainOfCalls(s0: State, events: seq<Event>, pid: Pid, pc: Pc, call: nat, job: Job,
                                        umasks: seq<nat>)
    requires Reaches(s0, events, pid, pc, call, job) && PlainFor(pc, |umasks|)
    ensures Reaches(s0, events + Oks(pid, umasks), pid, PcAfter(pc, |umasks|), call, job)
    ensures SameHistory(Run(s0, events), Run(s0, events + Oks(pid, umasks)))
    decreases |umasks|
  {
    hide Reaches, Run, NextPc;
    if umasks == [] {
      assert events + Oks(pid, umasks) == events;
    } else {
      var before := Init(umasks);
      ChainOfCalls(s0, events, pid, pc, call, job, before);
      OksSnoc(pid, umasks);
      assert events + Oks(pid, umasks) == events + Oks(pid, before) + [Succeed(pid, Last(umasks))];
      OneCall(s0, events + Oks(pid, before), pid, PcAfter(pc, |before|), call, job, Last(umasks));
    }
  }

  lemma OneCall(s0: State, events: seq<Event>, pid: Pid, pc: Pc, call: nat, job: Job, umasked: nat)
    requires Reaches(s0, events, pid, pc, call, job) && IsPlain(pc)
    ensures Reaches(s0, events + [Succeed(pid, umasked)], pid, NextPc(pc, true, false), call, job)
    ensures pc != Rename ==> SameHistory(Run(s0, events), Run(s0, events + [Succeed(pid, umasked)]))
  {
    hide Step, Inv, Run, IsInitial;
    var e := Succeed(pid, umasked);
    RunInv(s0, events);
    ProcIsOk(Run(s0, events), s0.disk, pid);
    RunEnds(s0, events, e);
    CallMoves(Run(s0, events), pid, e);
    LogGrowsByCommits(Run(s0, events), e);
    SwallowsNothing(Run(s0, events), e);
  }

  lemma SwallowsNothing(s: State, e: Event)
    requires e.Succeed?
    ensures Step(s, e).swallowed == s.swallowed
  {
    hide TempName, StagePath, StageData, Opened;
  }

  // ----- the atomic write

  /** What a process is to write is settled when its write begins. */
  lemma ContentStays(s0: State, events: seq<Event>, more: seq<Event>, pid: Pid, call: nat, job: Job)
    requires Reaches(s0, events, pid, Stat, call, job) && Reaches(s0, events + more, pid, Rename, call, job)
    ensures Run(s0, events + more).procs[pid].content == Run(s0, events).procs[pid].content
  {
    hide Step, Inv, Run, IsInitial;
    RunInv(s0, events);
    RunInv(s0, events + more);
    ProcIsOk(Run(s0, events), s0.disk, pid);
    ProcIsOk(Run(s0, events + more), s0.disk, pid);
    ContentIs(Run(s0, events), pid);
    ContentIs(Run(s0, events + more), pid);
    hide ProcOk;
    if job.Undo? {
      SnapshotsStay(s0, events, more, job.id);
    }
  }

  lemma ContentIs(s: State, pid: Pid)
    requires pid in s.procs && ProcOk(s, pid, s.procs[pid]) && InWrite(s.procs[pid].pc)
    ensures var p := s.procs[pid];
            match p.job
            case Write(path, content) => p.path == path && p.content == content
            case Configure(path, content, _) => p.path == path && p.content == content
            case Undo(id) => id in s.taken && p.path == s.taken[id].path && s.taken[id].content == Some(p.content)
  {
    hide TempName, IsTempName, TempOk, BackupOk;
  }

  /** The target holds this text, with the permission bits of the file that was there; a new file is its owner's. */
  ghost predicate Replaced(s: State, t: State, path: string, text: string) {
    ImageOf(t.disk, path)
    == Present(text, if User(path) in s.disk then s.disk[User(path)].mode % 0x200 else 0x180) // 0o777 + 1, 0o600
  }

  lemma SevenCalls(s0: State, events: seq<Event>, pid: Pid, call: nat, job: Job, umasks: seq<nat>)
    requires Reaches(s0, events, pid, Stat, call, job) && |umasks| == 7
    ensures Reaches(s0, events + Oks(pid, umasks), pid, Done, call, job)
    ensures var s, t := Run(s0, events), Run(s0, events + Oks(pid, umasks));
            && t.procs[pid].unlinked && t.swallowed == s.swallowed
            && Replaced(s, t, s.procs[pid].path, s.procs[pid].content)
  {
    var stat, between, rename := Succeed(pid, umasks[0]), Oks(pid, umasks[1..6]), Succeed(pid, umasks[6]);
    assert Oks(pid, umasks[..6]) == [stat] + between && Oks(pid, umasks) == [stat] + between + [rename];
    assert events + Oks(pid, umasks[..6]) == events + [stat] + between;
    assert events + Oks(pid, umasks) == events + [stat] + between + [rename];
    hide Oks, Run, Reaches, Replaced, PlainFor;
    WritePath();
    ChainOfCalls(s0, events, pid, Stat, call, job, umasks[..6]);
    OneCall(s0, events + [stat] + between, pid, Rename, call, job, umasks[6]);
    RenameReplaces(s0, events, stat, between, rename, pid, call, job);
  }

  lemma RenameReplaces(s0: State, before: seq<Event>, stat: Event, between: seq<Event>, rename: Event, pid: Pid,
                       call: nat, job: Job)
    requires stat.Succeed? && stat.pid == pid && rename.Succeed? && rename.pid == pid
    requires Reaches(s0, before, pid, Stat, call, job)
    requires Reaches(s0, before + [stat] + between, pid, Rename, call, job)
    requires Reaches(s0, before + [stat] + between + [rename], pid, Done, call, job)
    ensures var s, t := Run(s0, before), Run(s0, before + [stat] + between + [rename]);
            && t.procs[pid].unlinked && Replaced(s, t, s.procs[pid].path, s.procs[pid].content)
            && t.swallowed == Run(s0, before + [stat] + between).swallowed
  {
    hide Run, IsInitial, Step;
    WriteKeepsMode(s0, before, stat, between, rename, pid);
    assert before + [stat] + between == before + ([stat] + between);
    ContentStays(s0, before, [stat] + between, pid, call, job);
    CallsCommitIffTheyReturn(s0, before + [stat] + between + [rename], pid);
    RunEnds(s0, before + [stat] + between, rename);
    SwallowsNothing(Run(s0, before + [stat] + between), rename);
    var t := Run(s0, before + [stat] + between + [rename]);
    assert t.log[|t.log| - 1].call == t.procs[pid].call;
    assert IsCommitted(t.log, t.procs[pid].call);
  }

  /** A write whose seven calls succeed is done, and the target holds its text under the old permission bits. */
  lemma WriteSucceeds(s0: State, events: seq<Event>, pid: Pid, path: string, content: string, umasks: seq<nat>)
    requires IsInitial(s0) && |umasks| == 7
    requires IsIdle(Run(s0, events), pid) && MayStart(Run(s0, events), Write(path, content))
    ensures var s, t := Run(s0, events), Run(s0, events + [Start(pid, Write(path, content))] + Oks(pid, umasks));
            && pid in t.procs && t.procs[pid].pc == Done && t.procs[pid].job == Write(path, content)
            && Replaced(s, t, path, content)
  {
    hide Run, IsInitial, MayStart, IsIdle, Oks;
    var job, started := Write(path, content), events + [Start(pid, Write(path, content))];
    Starts(s0, events, pid, job);
    SevenCalls(s0, started, pid, Run(s0, events).calls, job, umasks);
    CarriesItsJob(s0, started, pid);
  }

  // ----- the undo

  lemma NoteIsRead(s: State, pid: Pid, id: BackupId, umasked: nat)
    requires pid in s.procs && s.procs[pid].pc == ReadNote && s.procs[pid].job == Undo(id)
    requires NoteOk(s, id) && ManifestOf(id) in s.disk && s.disk[ManifestOf(id)].data.Json?
    ensures var content := s.taken[id].content;
            Step(s, Succeed(pid, umasked))
            == WithProc(s, pid, s.procs[pid].(pc := if content.Some? then ReadCopy else Unlink,
                                              path := s.taken[id].path, checksum := DigestOf(content)))
  {
    hide TempName, IsTempName, CopyOk;
  }

  /** The digest of the copy is the one in the manifest; without a copy the undo gives up. */
  lemma CopyIsRead(s: State, pid: Pid, id: BackupId, umasked: nat)
    requires pid in s.procs && s.procs[pid].pc == ReadCopy && s.procs[pid].job == Undo(id)
    requires id in s.taken && s.taken[id].content.Some? && s.procs[pid].checksum == DigestOf(s.taken[id].content)
    requires CopyOk(s, id)
    ensures Step(s, Succeed(pid, umasked))
         == WithProc(s, pid, if id in s.swallowed then s.procs[pid].(pc := Failed)
                             else s.procs[pid].(pc := Stat, content := s.taken[id].content.value))
  {
    hide TempName, IsTempName;
  }

  lemma UndoStarts(s: State, pid: Pid, id: BackupId)
    requires IsIdle(s, pid)
    ensures Step(s, Start(pid, Undo(id)))
         == WithProc(s, pid, NewProc(Undo(id), s.calls)).(calls := s.calls + 1)
  {
    hide TempName, IsTempName;
  }

  /** A backup that an undo can read. */
  ghost predicate HasBackup(s: State, id: BackupId) {
    ManifestOf(id) in s.disk && s.disk[ManifestOf(id)].data.Json? && id in s.taken
  }

  /** The undo has read the manifest. */
  ghost predicate ReadTheNote(s: State, t: State, pid: Pid, id: BackupId)
    requires id in s.taken
  {
    && t.disk == s.disk && t.taken == s.taken && t.swallowed == s.swallowed
    && pid in t.procs && t.procs[pid].job == Undo(id) && t.procs[pid].call == s.calls
    && t.procs[pid].pc == (if s.taken[id].content.Some? then ReadCopy else Unlink)
    && t.procs[pid].path == s.taken[id].path && t.procs[pid].checksum == DigestOf(s.taken[id].content)
  }

  lemma UndoReadsNote(s0: State, events: seq<Event>, pid: Pid, id: BackupId, umasked: nat)
    requires IsInitial(s0) && IsIdle(Run(s0, events), pid) && HasBackup(Run(s0, events), id)
    ensures ReadTheNote(Run(s0, events), Run(s0, events + [Start(pid, Undo(id))] + [Succeed(pid, umasked)]), pid, id)
  {
    hide Run, IsInitial, Step, TempName, IsTempName;
    var s, started := Run(s0, events), events + [Start(pid, Undo(id))];
    RunInv(s0, started);
    NoteHolds(Run(s0, started), s0.disk, id);
    hide Inv, NoteOk;
    RunEnds(s0, events, Start(pid, Undo(id)));
    RunEnds(s0, started, Succeed(pid, umasked));
    UndoStarts(s, pid, id);
    NoteIsRead(Run(s0, started), pid, id, umasked);
  }

  lemma NoteHolds(s: State, origin: Disk, id: BackupId)
    requires Inv(s, origin)
    ensures NoteOk(s, id)
  {
  }

  lemma UndoReadsCopy(s0: State, events: seq<Event>, pid: Pid, id: BackupId, u: nat, v: nat)
    requires IsInitial(s0) && IsIdle(Run(s0, events), pid) && HasBackup(Run(s0, events), id)
    requires Run(s0, events).taken[id].content.Some?
    ensures var s, t := Run(s0, events),
        Run(s0, events + [Start(pid, Undo(id))] + [Succeed(pid, u)] + [Succeed(pid, v)]);
            && t.disk == s.disk && t.swallowed == s.swallowed
            && pid in t.procs && t.procs[pid].job == Undo(id) && t.procs[pid].call == s.calls
            && t.procs[pid].path == s.taken[id].path
            && t.procs[pid].pc == (if id in s.swallowed then Failed else Stat)
            && (id !in s.swallowed ==> t.procs[pid].content == s.taken[id].content.value)
  {
    hide Run, IsInitial, Step, IsIdle;
    UndoReadsNote(s0, events, pid, id, u);
    var noted := events + [Start(pid, Undo(id))] + [Succeed(pid, u)];
    RunInv(s0, noted);
    NoteHolds(Run(s0, noted), s0.disk, id);
    assert CopyOk(Run(s0, noted), id);
    hide Inv, NoteOk, CopyOk;
    CopyIsRead(Run(s0, noted), pid, id, v);
    RunEnds(s0, noted, Succeed(pid, v));
  }

  /**
   * Progress of an undo whose backup recorded a text: if its nine calls succeed, and the copy was not lost to a
   * swallowed error, it is done and the file holds that text again.
   */
  lemma UndoSucceeds(s0: State, events: seq<Event>, pid: Pid, id: BackupId, umasks: seq<nat>)
    requires IsInitial(s0) && IsIdle(Run(s0, events), pid) && HasBackup(Run(s0, events), id) && |umasks| == 9
    requires Run(s0, events).taken[id].content.Some? && id !in Run(s0, events).swallowed
    ensures var s, t := Run(s0, events), Run(s0, events + [Start(pid, Undo(id))] + Oks(pid, umasks));
            && pid in t.procs && t.procs[pid].pc == Done && t.procs[pid].job == Undo(id)
            && Replaced(s, t, s.taken[id].path, s.taken[id].content.value)
            && Restores(ImageOf(t.disk, s.taken[id].path), s.taken[id].content)
  {
    var base := events + [Start(pid, Undo(id))] + [Succeed(pid, umasks[0])] + [Succeed(pid, umasks[1])];
    hide Run, IsInitial, IsIdle, Oks, ModeOf, ImageOf, HasBackup;
    TwoOks(events + [Start(pid, Undo(id))], pid, umasks);
    UndoReadsCopy(s0, events, pid, id, umasks[0], umasks[1]);
    SevenCalls(s0, base, pid, Run(s0, events).calls, Undo(id), umasks[2..]);
  }

  lemma TwoOks(events: seq<Event>, pid: Pid, umasks: seq<nat>)
    requires |umasks| >= 2
    ensures events + Oks(pid, umasks)
         == events + [Succeed(pid, umasks[0])] + [Succeed(pid, umasks[1])] + Oks(pid, umasks[2..])
  {
    OksSplit(pid, umasks, 2);
    assert Oks(pid, umasks[..2]) == [Succeed(pid, umasks[0])] + [Succeed(pid, umasks[1])];
    hide Oks;
  }

  lemma NoOks(events: seq<Event>, pid: Pid, umasks: seq<nat>)
    requires umasks == []
    ensures events + Oks(pid, umasks) == events
  {
  }

  /** If the copy was lost, the undo fails although every call succeeds, and nothing has changed. */
  lemma UndoFailsWithoutCopy(s0: State, events: seq<Event>, pid: Pid, id: BackupId, umasks: seq<nat>)
    requires IsInitial(s0) && IsIdle(Run(s0, events), pid) && HasBackup(Run(s0, events), id) && |umasks| == 2
    requires Run(s0, events).taken[id].content.Some? && id in Run(s0, events).swallowed
    ensures var s, t := Run(s0, events), Run(s0, events + [Start(pid, Undo(id))] + Oks(pid, umasks));
            pid in t.procs && t.procs[pid].pc == Failed && t.disk == s.disk
  {
    hide Run, IsInitial, IsIdle, Oks, HasBackup;
    TwoOks(events + [Start(pid, Undo(id))], pid, umasks);
    NoOks(events + [Start(pid, Undo(id))] + [Succeed(pid, umasks[0])] + [Succeed(pid, umasks[1])], pid, umasks[2..]);
    UndoReadsCopy(s0, events, pid, id, umasks[0], umasks[1]);
  }

  /** Progress of an undo whose backup found no file: two calls, and there is none again. */
  lemma UndoRemoves(s0: State, events: seq<Event>, pid: Pid, id: BackupId, umasks: seq<nat>)
    requires IsInitial(s0) && IsIdle(Run(s0, events), pid) && HasBackup(Run(s0, events), id) && |umasks| == 2
    requires Run(s0, events).taken[id].content == None
    ensures var s, t := Run(s0, events), Run(s0, events + [Start(pid, Undo(id))] + Oks(pid, umasks));
            && pid in t.procs && t.procs[pid].pc == Done && t.procs[pid].job == Undo(id)
            && ImageOf(t.disk, s.taken[id].path) == Absent
  {
    var noted := events + [Start(pid, Undo(id))] + [Succeed(pid, umasks[0])];
    hide Run, IsInitial, IsIdle, Oks, HasBackup;
    TwoOks(events + [Start(pid, Undo(id))], pid, umasks);
    NoOks(noted + [Succeed(pid, umasks[1])], pid, umasks[2..]);
    UndoReadsNote(s0, events, pid, id, umasks[0]);
    RunEnds(s0, noted, Succeed(pid, umasks[1]));
    Unlinks(Run(s0, noted), pid, umasks[1]);
  }

  lemma Unlinks(s: State, pid: Pid, umasked: nat)
    requires pid in s.procs && s.procs[pid].pc == Unlink
    ensures var t := Step(s, Succeed(pid, umasked));
            && pid in t.procs && t.procs[pid].pc == Done && t.procs[pid].job == s.procs[pid].job
            && ImageOf(t.disk, s.procs[pid].path) == Absent
  {
    hide TempName, IsTempName;
  }

  // ----- the configuration

  lemma BackupReads(s: State, pid: Pid, u: nat, v: nat)
    requires pid in s.procs && s.procs[pid].pc == Mkdir && s.procs[pid].job.Configure?
    ensures var p, t := s.procs[pid], Step(Step(s, Succeed(pid, u)), Succeed(pid, v));
            var found := User(p.path) in s.disk;
            && t.disk == s.disk && SameHistory(s, t)
            && pid in t.procs && t.procs[pid].job == p.job && t.procs[pid].call == p.call && t.procs[pid].path == p.path
            && t.procs[pid].pc == (if found then Open(Copy) else Open(Note))
            && p.job.id in t.taken
            && t.taken[p.job.id] == Snapshot(p.path, if found then Some(TextOf(s.disk[User(p.path)].data)) else None)
  {
    hide TempName, IsTempName;
  }

  /** What a file holds, if there is one. */
  ghost function ContentAt(disk: Disk, path: string): Option<string> {
    if User(path) in disk then Some(TextOf(disk[User(path)].data)) else None
  }

  /** The backup has read the target. */
  ghost predicate ReadTheTarget(s: State, t: State, job: Job)
    requires job.Configure?
  {
    && t.disk == s.disk && SameHistory(s, t) && job.id in t.taken
    && t.taken[job.id] == Snapshot(job.path, ContentAt(s.disk, job.path))
  }

  lemma ConfigureReads(s0: State, events: seq<Event>, pid: Pid, job: Job, u: nat, v: nat)
    requires IsInitial(s0) && job.Configure? && IsIdle(Run(s0, events), pid) && MayStart(Run(s0, events), job)
    ensures var s := Run(s0, events);
            var more := events + [Start(pid, job)] + [Succeed(pid, u)] + [Succeed(pid, v)];
            && Reaches(s0, more, pid, if ContentAt(s.disk, job.path).Some? then Open(Copy)
                else Open(Note), s.calls, job)
            && ReadTheTarget(s, Run(s0, more), job)
  {
    hide Run, IsInitial, MayStart, IsIdle, Step;
    var started := events + [Start(pid, job)];
    Starts(s0, events, pid, job);
    StartPc(job);
    CarriesItsJob(s0, started, pid);
    RunEnds(s0, events, Start(pid, job));
    StartKeepsHistory(Run(s0, events), pid, job);
    RunEnds(s0, started, Succeed(pid, u));
    RunEnds(s0, started + [Succeed(pid, u)], Succeed(pid, v));
    BackupReads(Run(s0, started), pid, u, v);
  }

  lemma StartKeepsHistory(s: State, pid: Pid, job: Job)
    ensures SameHistory(s, Step(s, Start(pid, job)))
  {
    hide TempName, IsTempName;
  }

  /** The calls of a backup once the target is read. */
  function BackupCalls(content: Option<string>): nat {
    if content.Some? then 8 else 4
  }

  lemma BackupIsTaken(s0: State, events: seq<Event>, pid: Pid, call: nat, job: Job, content: Option<string>,
                      umasks: seq<nat>)
    requires Reaches(s0, events, pid, if content.Some? then Open(Copy) else Open(Note), call, job)
    requires |umasks| == BackupCalls(content)
    ensures Reaches(s0, events + Oks(pid, umasks), pid, Stat, call, job)
    ensures SameHistory(Run(s0, events), Run(s0, events + Oks(pid, umasks)))
  {
    hide Run, Reaches, Oks, SameHistory, PlainFor, PcAfter;
    BackupPath();
    ChainOfCalls(s0, events, pid, if content.Some? then Open(Copy) else Open(Note), call, job, umasks);
  }

  /** Between two states of a run without a commit in between, every target is the same. */
  lemma SameTargetsBetween(s0: State, x: seq<Event>, y: seq<Event>, path: string)
    requires IsInitial(s0) && Run(s0, x).log == Run(s0, y).log && !IsTempName(path)
    ensures ImageOf(Run(s0, x).disk, path) == ImageOf(Run(s0, y).disk, path)
    ensures ModeOf(Run(s0, x).disk, path) == ModeOf(Run(s0, y).disk, path)
  {
    hide IsTempName, Run;
    RunInv(s0, x);
    RunInv(s0, y);
    assert ImageOf(Run(s0, x).disk, path) == LastImage(Run(s0, x).log, path, s0.disk);
    assert ImageOf(Run(s0, y).disk, path) == LastImage(Run(s0, y).log, path, s0.disk);
    hide Inv;
  }

  lemma FreshIsNotSwallowed(s0: State, events: seq<Event>, job: Job)
    requires IsInitial(s0) && job.Configure? && MayStart(Run(s0, events), job)
    ensures job.id !in Run(s0, events).swallowed && !IsTempName(job.path)
  {
    hide IsTempName, Run;
    RunInv(s0, events);
    assert IsUntouched(Run(s0, events), job.id);
  }

  lemma DoneIsBackedUp(s0: State, events: seq<Event>, pid: Pid, call: nat, job: Job)
    requires Reaches(s0, events, pid, Done, call, job) && job.Configure? && Run(s0, events).procs[pid].unlinked
    ensures BackedUp(Run(s0, events), job.id, job.path)
  {
    hide Run, IsInitial, BackedUp;
    var t := Run(s0, events);
    CallsCommitIffTheyReturn(s0, events, pid);
    var k :| 0 <= k < |t.log| && t.log[k].call == call;
    RunInv(s0, events);
    LoggedIsOk(t, s0.disk, k);
    ConfigureBacksUpFirst(s0, events, k);
  }

  lemma LoggedIsOk(s: State, origin: Disk, k: nat)
    requires Inv(s, origin) && k < |s.log|
    ensures EntryOk(s.log[k], s.taken)
  {
  }

  /** The run of a configuration up to its write. */
  lemma ConfigureBacksUp(s0: State, events: seq<Event>, pid: Pid, job: Job, umasks: seq<nat>)
    requires IsInitial(s0) && job.Configure? && IsIdle(Run(s0, events), pid) && MayStart(Run(s0, events), job)
    requires |umasks| == 2 + BackupCalls(ContentAt(Run(s0, events).disk, job.path))
    ensures var s, more := Run(s0, events), events + [Start(pid, job)] + Oks(pid, umasks);
            && Reaches(s0, more, pid, Stat, s.calls, job) && SameHistory(s, Run(s0, more))
            && job.id in Run(s0, more).taken
            && Run(s0, more).taken[job.id] == Snapshot(job.path, ContentAt(s.disk, job.path))
  {
    hide Run, IsInitial, IsIdle, MayStart, Oks, Reaches, ContentAt;
    var s, read := Run(s0, events), events + [Start(pid, job)] + [Succeed(pid, umasks[0])] + [Succeed(pid, umasks[1])];
    TwoOks(events + [Start(pid, job)], pid, umasks);
    ConfigureReads(s0, events, pid, job, umasks[0], umasks[1]);
    BackupIsTaken(s0, read, pid, s.calls, job, ContentAt(s.disk, job.path), umasks[2..]);
    SnapshotsStay(s0, read, Oks(pid, umasks[2..]), job.id);
  }

  /**
   * Progress of a configuration: if its calls succeed, 17 if the target exists and 13 if not, it is done. The
   * target holds its text under the old permission bits, and the backup holds what was there before.
   */
  lemma ConfigureSucceeds(s0: State, events: seq<Event>, pid: Pid, job: Job, umasks: seq<nat>)
    requires IsInitial(s0) && job.Configure? && IsIdle(Run(s0, events), pid) && MayStart(Run(s0, events), job)
    requires |umasks| == if User(job.path) in Run(s0, events).disk then 17 else 13
    ensures var s, t := Run(s0, events), Run(s0, events + [Start(pid, job)] + Oks(pid, umasks));
            && pid in t.procs && t.procs[pid].pc == Done && t.procs[pid].job == job
            && Replaced(s, t, job.path, job.content)
            && BackedUp(t, job.id, job.path) && job.id !in t.swallowed
            && t.taken[job.id] == Snapshot(job.path, ContentAt(s.disk, job.path))
  {
    var s, n := Run(s0, events), |umasks| - 7;
    var saved := events + [Start(pid, job)] + Oks(pid, umasks[..n]);
    OksSplit(pid, umasks, n);
    assert events + [Start(pid, job)] + Oks(pid, umasks) == saved + Oks(pid, umasks[n..]);
    FreshIsNotSwallowed(s0, events, job);
    hide Run, IsInitial, IsIdle, MayStart, Oks, IsTempName, ImageOf, ModeOf, BackedUp;
    ConfigureBacksUp(s0, events, pid, job, umasks[..n]);
    hide ContentAt;
    CarriesItsJob(s0, saved, pid);
    SevenCalls(s0, saved, pid, s.calls, job, umasks[n..]);
    SameTargetsBetween(s0, events, saved, job.path);
    SnapshotsStay(s0, saved, Oks(pid, umasks[n..]), job.id);
    DoneIsBackedUp(s0, saved + Oks(pid, umasks[n..]), pid, s.calls, job);
  }

  // ----- there and back

  /** The calls of a configuration of this path. */
  ghost function ConfigureCalls(s: State, path: string): nat {
    if User(path) in s.disk then 17 else 13
  }

  /** The calls of the undo of it. */
  ghost function UndoCalls(s: State, path: string): nat {
    if User(path) in s.disk then 9 else 2
  }

  /**
   * There and back, from any state a run can reach: if all calls of a configuration and of its undo succeed,
   * the target is as it was, its text and permission bits included, or there is none again.
   */
  lemma ConfigureThenUndo(s0: State, events: seq<Event>, pid: Pid, job: Job, umasks: seq<nat>, others: seq<nat>)
    requires IsInitial(s0) && job.Configure? && IsIdle(Run(s0, events), pid) && MayStart(Run(s0, events), job)
    requires |umasks| == ConfigureCalls(Run(s0, events), job.path)
    requires |others| == UndoCalls(Run(s0, events), job.path)
    ensures var s := Run(s0, events);
            var there := events + [Start(pid, job)] + Oks(pid, umasks);
            var t := Run(s0, there + [Start(pid, Undo(job.id))] + Oks(pid, others));
            && pid in t.procs && t.procs[pid].pc == Done && t.procs[pid].job == Undo(job.id)
            && ImageOf(t.disk, job.path)
               == match ImageOf(s.disk, job.path)
                  case Absent => Absent
                  case Present(text, mode) => Present(text, mode % 0x200)
  {
    var there := events + [Start(pid, job)] + Oks(pid, umasks);
    hide Run, IsInitial, MayStart, Oks;
    ConfigureSucceeds(s0, events, pid, job, umasks);
    if User(job.path) in Run(s0, events).disk {
      UndoSucceeds(s0, there, pid, job.id, others);
      SamePermissions(Run(s0, events), Run(s0, there), job.path, job.content);
    } else {
      UndoRemoves(s0, there, pid, job.id, others);
    }
  }

  lemma SamePermissions(s: State, t: State, path: string, text: string)
    requires Replaced(s, t, path, text)
    ensures ModeOf(t.disk, path) == ModeOf(s.disk, path)
    ensures User(path) in s.disk ==> ModeOf(s.disk, path) == s.disk[User(path)].mode % 0x200
  {
  }
}
