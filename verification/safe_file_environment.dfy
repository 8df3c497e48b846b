/** What the protocol has to expect of the machine: failures, deaths and losses of power at their worst. */
module SafeFileEnvironment {
  import opened SafeFile
  import opened SafeFileInvariants
  import opened Text

  /** A synced file survives every loss of power, and nothing appears that was not there. */
  lemma SyncedSurvives(s: State, garbled: map<Path, string>, gone: set<Path>, path: Path)
    ensures var t := Step(s, PowerLoss(garbled, gone));
            && (path in t.disk ==> path in s.disk)
            && (path in s.disk && s.disk[path].synced ==> path in t.disk && t.disk[path] == s.disk[path])
  {
    hide IsIdle;
  }

  /** Any other file may be gone afterwards, or hold anything. */
  lemma UnsyncedCanBeLost(s: State, path: Path, junk: string)
    requires path in s.disk && !s.disk[path].synced
    ensures path !in Step(s, PowerLoss(map[], {path})).disk
    ensures var t := Step(s, PowerLoss(map[path := junk], {})); path in t.disk && t.disk[path].data == Bytes(junk)
  {
    hide IsIdle;
  }

  /** A loss of power ends every process that is not over, wherever it stands; a crash ends one, and only that. */
  lemma ProcessesDie(s: State, garbled: map<Path, string>, gone: set<Path>, pid: Pid)
    requires pid in s.procs && !IsOver(s.procs[pid].pc)
    ensures var t := Step(s, PowerLoss(garbled, gone)); pid in t.procs && t.procs[pid].pc == Dead
    ensures Step(s, Crash(pid)) == s.(procs := s.procs[pid := s.procs[pid].(pc := Dead)])
  {
  }

  /** A write that fails may leave anything in the file, and it is not synced. */
  lemma FailedFillLeavesAnything(s: State, pid: Pid, stage: Stage, junk: string, missing: bool)
    requires pid in s.procs && s.procs[pid].pc == Fill(stage)
    ensures var t, path := Step(s, Fail(pid, junk, missing)), StagePath(pid, s.procs[pid], stage);
            && path in t.disk && t.disk[path].data == Bytes(junk) && !t.disk[path].synced
            && t.procs[pid].pc == Close(stage, false)
  {
    hide TempName, StagePath;
  }

  /** Opening a file empties it, whatever it held and however safe that was; writing it does not sync it. */
  lemma OpenTruncates(s: State, pid: Pid, stage: Stage, umasked: nat)
    requires pid in s.procs && s.procs[pid].pc == Open(stage)
    ensures var t, path := Step(s, Succeed(pid, umasked)), StagePath(pid, s.procs[pid], stage);
            && path in t.disk && t.disk[path].data == Bytes("") && !t.disk[path].synced
            && (path !in s.disk ==> t.disk[path].mode == umasked)
            && (path in s.disk ==> t.disk[path].mode == s.disk[path].mode)
  {
    hide TempName, StagePath;
  }

  lemma FillDoesNotSync(s: State, pid: Pid, stage: Stage, umasked: nat)
    requires pid in s.procs && s.procs[pid].pc == Fill(stage)
    ensures var t, path := Step(s, Succeed(pid, umasked)), StagePath(pid, s.procs[pid], stage);
            path in t.disk && !t.disk[path].synced && t.disk[path].data == StageData(s.procs[pid], stage)
  {
    hide TempName, StagePath, StageData;
  }
}
