/** A plan reads the target, the apply backs it up and replaces it later: what a change in between does. */
module ApplyPlan {
  import opened ClientTarget
  import opened CodexToml
  import opened SafeFile
  import opened SafeFileExamples
  import opened SafeFileInvariants
  import opened SafeFileOrder
  import opened SafeFileSteps
  import opened SafeFileTheorems
  import opened Text

  /** What `readRaw` gives: the text, or nothing if there is no file. */
  function ReadRaw(disk: Disk, path: string): string {
    if User(path) in disk then TextOf(disk[User(path)].data) else ""
  }

  /** The text a backup found, nothing if there was no file. */
  function Found(snapshot: Snapshot): string {
    match snapshot.content case None => "" case Some(text) => text
  }

  /** The job of applying a plan that was made from a text. */
  function Applying(path: string, planned: string, target: Target, id: BackupId): Job {
    Configure(path, MergedToml(planned, target), id)
  }

  /**
   * In every run, the text that applying a plan commits is the merge of the text it has backed up
   * exactly if the merge keeps the same lines of that text and of what the plan had read. That is so
   * in particular if the target still held what the plan read.
   */
  lemma AppliedIsMergeOfBackupIff(s0: State, before: seq<Event>, between: seq<Event>, k: nat, path: string,
                                  target: Target, id: BackupId)
    requires IsInitial(s0)
    requires var s := Run(s0, before + between);
             k < |s.log| && s.log[k].job == Applying(path, ReadRaw(Run(s0, before).disk, path), target, id)
    ensures var s := Run(s0, before + between);
            var planned := ReadRaw(Run(s0, before).disk, path);
            && id in s.taken && s.taken[id].path == path && s.log[k].image.Present?
            && var found, text := Found(s.taken[id]), s.log[k].image.text;
               && (text == MergedToml(found, target) <==> Rest(found) == Rest(planned))
               && (found == planned ==> text == MergedToml(found, target))
  {
    hide Run, IsInitial, Rest, MergedToml, ReadRaw;
    var s := Run(s0, before + between);
    ConfigureBacksUpFirst(s0, before + between, k);
    CommitsItsContent(s0, before + between, k);
    SameMergeIff(ReadRaw(Run(s0, before).disk, path), Found(s.taken[id]), target);
  }

  lemma CommitsItsContent(s0: State, events: seq<Event>, k: nat)
    requires IsInitial(s0) && k < |Run(s0, events).log| && Run(s0, events).log[k].job.Configure?
    ensures var c := Run(s0, events).log[k]; c.path == c.job.path && c.image.Present? && c.image.text == c.job.content
  {
    hide Run, IsInitial, IsTempName;
    RunInv(s0, events);
    assert EntryOk(Run(s0, events).log[k], Run(s0, events).taken);
  }

  /**
   * The same of the text that is replaced: the step that commits leaves the merge of what the target
   * held right before it exactly if the merge keeps the same lines of that and of what was planned.
   */
  lemma ReplacedIsMergedIff(s0: State, events: seq<Event>, e: Event, path: string, planned: string, target: Target,
                            id: BackupId)
    requires IsInitial(s0)
    requires var s, t := Run(s0, events), Step(Run(s0, events), e);
             |t.log| == |s.log| + 1 && Last(t.log).job == Applying(path, planned, target, id)
    ensures var s, t := Run(s0, events), Step(Run(s0, events), e);
            && ReadRaw(t.disk, path) == MergedToml(planned, target)
            && (ReadRaw(t.disk, path) == MergedToml(ReadRaw(s.disk, path), target)
                <==> Rest(ReadRaw(s.disk, path)) == Rest(planned))
  {
    hide Run, Step, IsInitial, Rest, MergedToml;
    var s, t := Run(s0, events), Step(Run(s0, events), e);
    RunInv(s0, events);
    StepInv(s, s0.disk, e);
    LastCommitShows(t, s0.disk);
    SameMergeIff(planned, ReadRaw(s.disk, path), target);
  }

  lemma LastCommitShows(t: State, origin: Disk)
    requires Inv(t, origin) && t.log != [] && Last(t.log).job.Configure?
    ensures ReadRaw(t.disk, Last(t.log).job.path) == Last(t.log).job.content
  {
    hide IsTempName, BackupsOk, ProcsOk, CallsOk, ProcsApart;
    var c := Last(t.log);
    assert EntryOk(c, t.taken);
    assert ImageOf(t.disk, c.path) == LastImage(t.log, c.path, origin);
  }

  // ----- the failing input

  lemma FreshId(used: set<BackupId>) returns (id: BackupId)
    ensures forall x: BackupId | x in used :: x < id
    decreases used
  {
    id := 0;
    if used != {} {
      var x :| x in used;
      var above := FreshId(used - {x});
      id := if x < above then above else x + 1;
      assert forall y | y in used :: y == x || y in used - {x};
    }
  }

  /** Where a backup stands `k` calls after finding a file. */
  function CopyPc(k: nat): Pc {
    if k == 0 then Open(Copy) else if k == 1 then Fill(Copy) else if k == 2 then Sync(Copy)
    else if k == 3 then Close(Copy, true) else Open(Note)
  }

  lemma CallsThroughCopy(s0: State, events: seq<Event>, pid: Pid, call: nat, job: Job) returns (more: seq<Event>)
    requires Reaches(s0, events, pid, Open(Copy), call, job)
    ensures Reaches(s0, events + more, pid, Open(Note), call, job)
  {
    hide Reaches;
    more := [];
    assert events + more == events;
    for k := 0 to 4
      invariant Reaches(s0, events + more, pid, CopyPc(k), call, job)
    {
      var next := Calls(s0, events + more, pid, CopyPc(k), call, job, true);
      assert events + (more + [Succeed(pid, 0)]) == events + more + [Succeed(pid, 0)];
      more := more + [Succeed(pid, 0)];
    }
  }

  /** The two calls that find a file, the four that copy it, and the manifest. */
  lemma TakesBackup(s0: State, events: seq<Event>, pid: Pid, call: nat, job: Job) returns (more: seq<Event>)
    requires Reaches(s0, events, pid, Mkdir, call, job) && !job.Undo? && User(job.path) in Run(s0, events).disk
    ensures Reaches(s0, more, pid, Stat, call, job) && events <= more
  {
    hide Reaches, Run;
    var found := FindsFile(s0, events, pid, call, job);
    var copy := CallsThroughCopy(s0, found, pid, call, job);
    var note := CallsThroughBackup(s0, found + copy, pid, call, job);
    more := found + copy + note;
  }

  lemma FindsFile(s0: State, events: seq<Event>, pid: Pid, call: nat, job: Job) returns (more: seq<Event>)
    requires Reaches(s0, events, pid, Mkdir, call, job) && !job.Undo? && User(job.path) in Run(s0, events).disk
    ensures Reaches(s0, more, pid, Open(Copy), call, job) && events <= more
  {
    hide Run, IsInitial;
    CarriesItsJob(s0, events, pid);
    var t;
    t, more := ReadsTarget(s0, Run(s0, events), events, pid);
  }

  /** A line written between plan and apply is backed up, and the configuration is committed without it. */
  lemma LostUpdateExample(target: Target) returns (s0: State, before: seq<Event>, events: seq<Event>)
    ensures IsInitial(s0) && ReadRaw(s0.disk, "a") == "" && ReadRaw(Run(s0, before).disk, "a") == ONE_LINE
    ensures ReadRaw(Run(s0, before + events).disk, "a") == MergedToml("", target) != MergedToml(ONE_LINE, target)
  {
    var job := Write("a", ONE_LINE);
    RestOfOneLine();
    SameMergeIff("", ONE_LINE, target);
    hide *;
    s0 := EmptyDisk(job);
    before := WritesLine(s0, job);
    events := AppliesPlan(s0, before, job, MergedToml("", target));
    NoFileReadsEmpty(s0);
    TextReads(Run(s0, before), "a", ONE_LINE);
    TextReads(Run(s0, before + events), "a", MergedToml("", target));
  }

  lemma NoFileReadsEmpty(s: State)
    ensures User("a") !in s.disk ==> ReadRaw(s.disk, "a") == ""
  {
  }

  lemma TextReads(s: State, path: string, text: string)
    requires HoldsText(s, path, text)
    ensures ReadRaw(s.disk, path) == text && User(path) in s.disk
  {
  }

  lemma WritesLine(s0: State, job: Job) returns (before: seq<Event>)
    requires job.Write? && IsInitial(s0)
    requires var s := Run(s0, []); IsIdle(s, 0) && MayStart(s, job) && s.calls == 0
    ensures Reaches(s0, before, 0, Done, 0, job) && HoldsText(Run(s0, before), job.path, job.content)
  {
    hide Run, IsInitial, MayStart, IsIdle, Reaches, HoldsText;
    Starts(s0, [], 0, job);
    var start := [] + [Start(0, job)];
    var more := WritesOut(s0, start, 0, 0, job);
    before := start + more;
  }

  /** A configuration of the same target, once the write is over. */
  lemma AppliesPlan(s0: State, before: seq<Event>, job: Job, content: string) returns (events: seq<Event>)
    requires Reaches(s0, before, 0, Done, 0, job) && !job.Undo? && HoldsText(Run(s0, before), "a", job.content)
    ensures HoldsText(Run(s0, before + events), "a", content)
  {
    hide Run, IsInitial, HoldsText;
    var s := Run(s0, before);
    ShortNameIsNoTemp("a");
    TextReads(s, "a", job.content);
    var id := FreshId(s.used);
    assert id !in s.used;
    var next := Configure("a", content, id);
    Starts(s0, before, 0, next);
    var start := before + [Start(0, next)];
    hide Reaches, IsTempName;
    var taken := TakesBackup(s0, start, 0, s.calls, next);
    var more := WritesOut(s0, taken, 0, s.calls, next);
    events := (taken + more)[|before|..];
    assert before + events == taken + more;
  }
}
