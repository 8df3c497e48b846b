/**
 * The command line's permission guard: a memoized check of the service's files, consent, fix and one
 * retry, shared by all API calls of a process. An event is one turn of the event loop.
 */
module PermissionGuard {
  import opened Text

  /** A check: its status call is out, the operator is asked, the fix is posted, or it is over. */
  datatype Phase = Fetching | Prompting | Fixing | Passed | Rejected

  /** `consent`: the operator said yes in this check. `posted`: the fix was posted for it. */
  datatype Check = Check(phase: Phase, consent: bool, posted: bool)

  /** What the status call gives. */
  datatype Status = Forbidden | Error | Blocked | Clear(warnings: bool)

  datatype Reply = Success | Locked | OtherError

  datatype Pc =
    | AwaitFirst(check: nat) | SentFirst | AwaitRetry(check: nat) | SentRetry | Returned | Threw

  /** `awaited` lists the checks that had passed when the call was sent, one for each time. */
  datatype Call = Call(exempt: bool, pc: Pc, sent: nat, awaited: seq<nat>)

  /**
   * `permissionCheck` and `warningsPrinted` are the module's variables. `locked` counts the 423
   * answers, `reruns` those that started a check, `printed` the times warnings were printed.
   */
  datatype State = State(permissionCheck: Option<nat>, warningsPrinted: bool, exited: bool,
                         checks: seq<Check>, calls: seq<Call>, locked: nat, reruns: nat, printed: nat)

  datatype Event =
    | Begin(exempt: bool)
    | StatusAnswer(check: nat, status: Status)
    | Confirm(check: nat, yes: bool)
    | PromptError(check: nat)
    | FixAnswer(check: nat, ok: bool)
    | Resume(call: nat)
    | Answer(call: nat, reply: Reply)

  const START := State(None, false, false, [], [], 0, 0, 0)

  /** The memoized check, started if there is none. */
  function Ensure(s: State): (State, nat) {
    match s.permissionCheck
    case Some(k) => (s, k)
    case None =>
      var k := |s.checks|;
      (s.(permissionCheck := Some(k), checks := s.checks + [Check(Fetching, false, false)]), k)
  }

  function WithCheck(s: State, k: nat, c: Check): State
    requires k < |s.checks|
  {
    s.(checks := s.checks[k := c])
  }

  function WithCall(s: State, i: nat, c: Call): State
    requires i < |s.calls|
  {
    s.(calls := s.calls[i := c])
  }

  function Began(s: State, exempt: bool): State {
    if exempt then s.(calls := s.calls + [Call(true, SentFirst, 1, [])])
    else
      var (t, k) := Ensure(s);
      t.(calls := t.calls + [Call(false, AwaitFirst(k), 0, [])])
  }

  function StatusGiven(s: State, k: nat, status: Status): State
    requires k < |s.checks|
  {
    var c := s.checks[k];
    match status
    case Forbidden => WithCheck(s, k, c.(phase := Passed))
    case Error => WithCheck(s, k, c.(phase := Rejected))
    case Blocked => WithCheck(s, k, c.(phase := Prompting))
    case Clear(warnings) =>
      var t := WithCheck(s, k, c.(phase := Passed));
      if warnings && !s.warningsPrinted then t.(warningsPrinted := true, printed := s.printed + 1) else t
  }

  /** Without consent the process exits; with it the fix is posted. */
  function Confirmed(s: State, k: nat, yes: bool): State
    requires k < |s.checks|
  {
    if yes then WithCheck(s, k, Check(Fixing, true, true)) else s.(exited := true)
  }

  function CheckOf(pc: Pc): Option<nat> {
    match pc case AwaitFirst(k) => Some(k) case AwaitRetry(k) => Some(k) case _ => None
  }

  /** The awaited check is over: the call is sent, or throws what the check threw. */
  function Resumed(s: State, i: nat): State
    requires i < |s.calls|
  {
    var c := s.calls[i];
    match CheckOf(c.pc)
    case None => s
    case Some(k) =>
      if k >= |s.checks| then s
      else if s.checks[k].phase == Passed then
        var pc := if c.pc.AwaitFirst? then SentFirst else SentRetry;
        WithCall(s, i, c.(pc := pc, sent := c.sent + 1, awaited := c.awaited + [k]))
      else if s.checks[k].phase == Rejected then WithCall(s, i, c.(pc := Threw))
      else s
  }

  /** A 423 on the first attempt of a guarded call drops the memoized check and awaits a new one. */
  function Answered(s: State, i: nat, reply: Reply): State
    requires i < |s.calls|
  {
    var c := s.calls[i];
    if c.pc != SentFirst && c.pc != SentRetry then s
    else
      var s1 := if reply == Locked then s.(locked := s.locked + 1) else s;
      if reply == Success then WithCall(s1, i, c.(pc := Returned))
      else if reply == Locked && !c.exempt && c.pc == SentFirst then
        var (s2, k) := Ensure(s1.(permissionCheck := None, reruns := s1.reruns + 1));
        WithCall(s2, i, c.(pc := AwaitRetry(k)))
      else WithCall(s1, i, c.(pc := Threw))
  }

  /** One turn; nothing happens after the process has exited. */
  function Step(s: State, e: Event): State {
    if s.exited then s
    else
      match e
      case Begin(exempt) => Began(s, exempt)
      case StatusAnswer(k, status) =>
        if k < |s.checks| && s.checks[k].phase == Fetching then StatusGiven(s, k, status) else s
      case Confirm(k, yes) => if k < |s.checks| && s.checks[k].phase == Prompting then Confirmed(s, k, yes) else s
      case PromptError(k) =>
        if k < |s.checks| && s.checks[k].phase == Prompting then WithCheck(s, k, s.checks[k].(phase := Rejected)) else s
      case FixAnswer(k, ok) =>
        if k < |s.checks| && s.checks[k].phase == Fixing then
          WithCheck(s, k, s.checks[k].(phase := if ok then Passed else Rejected))
        else s
      case Resume(i) => if i < |s.calls| then Resumed(s, i) else s
      case Answer(i, reply) => if i < |s.calls| then Answered(s, i, reply) else s
  }

  function Run(events: seq<Event>): State
    decreases |events|
  {
    if events == [] then START else Step(Run(Init(events)), Last(events))
  }

  // ----- the invariant

  /** A fix is posted only with consent, and only after the prompt of the same check. */
  predicate CheckOk(c: Check) {
    && (c.posted ==> c.consent)
    && (c.phase == Fixing ==> c.posted)
    && (c.phase == Fetching || c.phase == Prompting ==> !c.consent && !c.posted)
  }

  ghost predicate HasPassed(checks: seq<Check>, k: nat) {
    k < |checks| && checks[k].phase == Passed
  }

  predicate SentOk(c: Call) {
    match c.pc
    case AwaitFirst(_) => c.sent == 0 && !c.exempt
    case SentFirst => c.sent == 1
    case AwaitRetry(_) => c.sent == 1 && !c.exempt
    case SentRetry => c.sent == 2 && !c.exempt
    case _ => c.sent <= if c.exempt then 1 else 2
  }

  /** Each time a guarded call was sent, the check it awaited had passed; the retry awaits a later check. */
  ghost predicate CallOk(checks: seq<Check>, c: Call) {
    && SentOk(c) && |c.awaited| == (if c.exempt then 0 else c.sent)
    && (CheckOf(c.pc).Some? ==> CheckOf(c.pc).value < |checks|)
    && (forall j | 0 <= j < |c.awaited| :: HasPassed(checks, c.awaited[j]))
    && (c.sent == 2 && !c.exempt ==> c.awaited[0] < c.awaited[1])
    && (c.pc.AwaitRetry? ==> c.awaited[0] < c.pc.check)
  }

  ghost predicate ChecksOk(s: State) {
    && (forall k | 0 <= k < |s.checks| :: CheckOk(s.checks[k]))
    && (s.permissionCheck.Some? ==> s.permissionCheck.value + 1 == |s.checks|)
    && |s.checks| == (if s.permissionCheck.Some? then 1 else 0) + s.reruns && s.reruns <= s.locked
    && (s.permissionCheck == None ==> s.reruns == 0)
    && s.printed == if s.warningsPrinted then 1 else 0
  }

  ghost predicate CallsOk(s: State) {
    forall i | 0 <= i < |s.calls| :: CallOk(s.checks, s.calls[i])
  }

  ghost predicate Inv(s: State) {
    ChecksOk(s) && CallsOk(s)
  }

  /** Checks only move on: none disappears, and one that passed stays passed. */
  ghost predicate Grows(x: seq<Check>, y: seq<Check>) {
    |x| <= |y| && forall k | 0 <= k < |x| && x[k].phase == Passed :: y[k].phase == Passed
  }

  lemma CallStaysOk(x: seq<Check>, y: seq<Check>, c: Call)
    requires CallOk(x, c) && Grows(x, y)
    ensures CallOk(y, c)
  {
    assert forall j | 0 <= j < |c.awaited| :: HasPassed(x, c.awaited[j]);
  }

  lemma StepChecks(s: State, e: Event)
    requires ChecksOk(s) && CallsOk(s)
    ensures ChecksOk(Step(s, e)) && Grows(s.checks, Step(s, e).checks)
  {
    hide ChecksOk, CallsOk, Grows, Began, StatusGiven, Confirmed, Resumed, Answered;
    NothingGrows(s);
    if s.exited {
      return;
    }
    match e
    case Begin(exempt) => BeganChecks(s, exempt);
    case StatusAnswer(k, status) =>
      if k < |s.checks| && s.checks[k].phase == Fetching {
        StatusChecks(s, k, status);
      }
    case Confirm(k, yes) =>
      if k < |s.checks| && s.checks[k].phase == Prompting {
        ConfirmChecks(s, k, yes);
      }
    case PromptError(k) =>
      if k < |s.checks| && s.checks[k].phase == Prompting {
        PromptChecks(s, k);
      }
    case FixAnswer(k, ok) =>
      if k < |s.checks| && s.checks[k].phase == Fixing {
        FixChecks(s, k, ok);
      }
    case Resume(i) =>
      if i < |s.calls| {
        ResumedChecks(s, i);
      }
    case Answer(i, reply) =>
      if i < |s.calls| {
        AnsweredChecks(s, i, reply);
      }
  }

  lemma NothingGrows(s: State)
    ensures Grows(s.checks, s.checks)
  {
  }

  lemma BeganChecks(s: State, exempt: bool)
    requires ChecksOk(s)
    ensures var t := Began(s, exempt); ChecksOk(t) && Grows(s.checks, t.checks)
  {
  }

  lemma StatusChecks(s: State, k: nat, status: Status)
    requires ChecksOk(s) && k < |s.checks| && s.checks[k].phase == Fetching
    ensures var t := StatusGiven(s, k, status); ChecksOk(t) && Grows(s.checks, t.checks)
  {
  }

  lemma ConfirmChecks(s: State, k: nat, yes: bool)
    requires ChecksOk(s) && k < |s.checks| && s.checks[k].phase == Prompting
    ensures var t := Confirmed(s, k, yes); ChecksOk(t) && Grows(s.checks, t.checks)
  {
  }

  lemma PromptChecks(s: State, k: nat)
    requires ChecksOk(s) && k < |s.checks| && s.checks[k].phase == Prompting
    ensures var t := WithCheck(s, k, s.checks[k].(phase := Rejected)); ChecksOk(t) && Grows(s.checks, t.checks)
  {
  }

  lemma FixChecks(s: State, k: nat, ok: bool)
    requires ChecksOk(s) && k < |s.checks| && s.checks[k].phase == Fixing
    ensures var t := WithCheck(s, k, s.checks[k].(phase := if ok then Passed else Rejected));
            ChecksOk(t) && Grows(s.checks, t.checks)
  {
  }

  lemma ResumedChecks(s: State, i: nat)
    requires ChecksOk(s) && i < |s.calls|
    ensures var t := Resumed(s, i); ChecksOk(t) && Grows(s.checks, t.checks)
  {
  }

  lemma AnsweredChecks(s: State, i: nat, reply: Reply)
    requires ChecksOk(s) && CallsOk(s) && i < |s.calls|
    ensures var t := Answered(s, i, reply); ChecksOk(t) && Grows(s.checks, t.checks)
  {
    var c := s.calls[i];
    assert CallOk(s.checks, c);
    assert c.pc == SentFirst && !c.exempt ==> HasPassed(s.checks, c.awaited[0]);
    hide CallsOk, CallOk;
  }

  lemma OthersStayOk(s: State, t: State, i: nat)
    requires CallsOk(s) && Grows(s.checks, t.checks) && |s.calls| <= |t.calls| <= |s.calls| + 1
    requires forall j | 0 <= j < |s.calls| && j != i :: t.calls[j] == s.calls[j]
    requires i < |t.calls| ==> CallOk(t.checks, t.calls[i])
    requires |t.calls| > |s.calls| ==> i == |s.calls|
    ensures CallsOk(t)
  {
    forall j | 0 <= j < |t.calls|
      ensures CallOk(t.checks, t.calls[j])
    {
      if j != i {
        CallStaysOk(s.checks, t.checks, s.calls[j]);
      }
    }
  }

  lemma BeganOk(s: State, exempt: bool)
    requires ChecksOk(s)
    ensures var t := Began(s, exempt); CallOk(t.checks, Last(t.calls))
  {
  }

  lemma ResumedOk(s: State, i: nat)
    requires ChecksOk(s) && i < |s.calls| && CallOk(s.checks, s.calls[i])
    ensures var t := Resumed(s, i); CallOk(t.checks, t.calls[i])
  {
  }

  lemma AnsweredOk(s: State, i: nat, reply: Reply)
    requires ChecksOk(s) && i < |s.calls| && CallOk(s.checks, s.calls[i])
    ensures var t := Answered(s, i, reply); Grows(s.checks, t.checks) ==> CallOk(t.checks, t.calls[i])
  {
    var t := Answered(s, i, reply);
    if Grows(s.checks, t.checks) {
      CallStaysOk(s.checks, t.checks, s.calls[i]);
      assert s.calls[i].sent == 1 && !s.calls[i].exempt ==> HasPassed(s.checks, s.calls[i].awaited[0]);
    }
  }

  lemma OneMoreCall(s: State, exempt: bool)
    ensures Began(s, exempt).calls == s.calls + [Last(Began(s, exempt).calls)]
  {
  }

  lemma SameOtherCalls(s: State, i: nat, reply: Reply)
    requires i < |s.calls|
    ensures var t := Answered(s, i, reply); |t.calls| == |s.calls| && t.calls == s.calls[i := t.calls[i]]
  {
  }

  lemma StepInv(s: State, e: Event)
    requires Inv(s)
    ensures Inv(Step(s, e))
  {
    var t := Step(s, e);
    StepChecks(s, e);
    hide CallOk, ChecksOk, Ensure, Grows;
    if s.exited {
    } else if e.Begin? {
      BeganOk(s, e.exempt);
      OneMoreCall(s, e.exempt);
      OthersStayOk(s, t, |s.calls|);
    } else if (e.Resume? || e.Answer?) && e.call < |s.calls| {
      assert CallOk(s.checks, s.calls[e.call]);
      if e.Resume? {
        ResumedOk(s, e.call);
      } else {
        AnsweredOk(s, e.call, e.reply);
        SameOtherCalls(s, e.call, e.reply);
      }
      OthersStayOk(s, t, e.call);
    } else {
      OthersStayOk(s, t, |s.calls|);
    }
  }

  lemma {:induction false} RunInv(events: seq<Event>)
    ensures Inv(Run(events))
    decreases |events|
  {
    hide Step, Inv;
    if events == [] {
      StartInv();
    } else {
      RunInv(Init(events));
      StepInv(Run(Init(events)), Last(events));
    }
  }

  lemma StartInv()
    ensures Inv(START)
  {
  }

  // ----- what the guard promises, over all interleavings

  /** A guarded call that was sent was preceded, each time, by a check that passed; the second by a later one. */
  lemma NoCallBeforeACheck(events: seq<Event>, i: nat)
    requires i < |Run(events).calls| && !Run(events).calls[i].exempt
    ensures var s := Run(events);
            var c := s.calls[i];
            && c.sent <= 2 && |c.awaited| == c.sent
            && (forall j | 0 <= j < c.sent :: HasPassed(s.checks, c.awaited[j]))
            && (c.sent == 2 ==> c.awaited[0] < c.awaited[1])
  {
    RunInv(events);
    assert CallOk(Run(events).checks, Run(events).calls[i]);
  }

  /** The call was retried, or its retry awaits a check. */
  predicate IsRetried(c: Call) {
    c.pc.AwaitRetry? || c.sent == 2
  }

  /** The check that the retry awaits or has awaited. */
  function RetryCheck(c: Call): nat
    requires IsRetried(c)
  {
    if c.pc.AwaitRetry? then c.pc.check else if |c.awaited| > 1 then c.awaited[1] else 0
  }

  lemma ResumedRetries(s: State, i: nat)
    requires i < |s.calls| && CallOk(s.checks, s.calls[i])
    ensures var c, d := s.calls[i], Resumed(s, i).calls[i];
            IsRetried(d) ==> IsRetried(c) && RetryCheck(d) == RetryCheck(c)
  {
  }

  lemma AnsweredRetries(s: State, i: nat, reply: Reply)
    requires ChecksOk(s) && i < |s.calls| && CallOk(s.checks, s.calls[i])
    ensures var c, d := s.calls[i], Answered(s, i, reply).calls[i];
            IsRetried(d) ==>
              if IsRetried(c) then RetryCheck(d) == RetryCheck(c)
              else reply == Locked && c.pc == SentFirst && RetryCheck(d) == |s.checks|
  {
  }

  lemma BeganRetries(s: State, exempt: bool)
    ensures Began(s, exempt).calls == s.calls + [Last(Began(s, exempt).calls)]
    ensures !IsRetried(Last(Began(s, exempt).calls))
  {
  }

  lemma SameCallsAfterResume(s: State, i: nat)
    requires i < |s.calls|
    ensures var t := Resumed(s, i); |t.calls| == |s.calls| && t.calls == s.calls[i := t.calls[i]]
  {
  }

  lemma ChecksOnly(s: State, k: nat, status: Status, yes: bool)
    requires k < |s.checks|
    ensures StatusGiven(s, k, status).calls == s.calls && Confirmed(s, k, yes).calls == s.calls
  {
  }

  lemma StepRetries(s: State, e: Event, i: nat)
    requires Inv(s) && i < |Step(s, e).calls| && IsRetried(Step(s, e).calls[i])
    ensures i < |s.calls|
    ensures var k := RetryCheck(Step(s, e).calls[i]);
            if IsRetried(s.calls[i]) then k == RetryCheck(s.calls[i])
            else e == Answer(i, Locked) && s.calls[i].pc == SentFirst && !s.exited && k == |s.checks|
  {
    assert ChecksOk(s) && (i < |s.calls| ==> CallOk(s.checks, s.calls[i]));
    hide Inv, ChecksOk, CallOk, RetryCheck, IsRetried, Began, StatusGiven, Confirmed, Resumed, Answered;
    if !s.exited {
      match e
      case Begin(exempt) => BeganRetries(s, exempt);
      case StatusAnswer(k, status) => if k < |s.checks| { ChecksOnly(s, k, status, true); }
      case Confirm(k, yes) => if k < |s.checks| { ChecksOnly(s, k, Error, yes); }
      case PromptError(k) =>
      case FixAnswer(k, ok) =>
      case Resume(j) =>
        if j < |s.calls| {
          SameCallsAfterResume(s, j);
          ResumedRetries(s, i);
        }
      case Answer(j, reply) =>
        if j < |s.calls| {
          SameOtherCalls(s, j, reply);
          AnsweredRetries(s, i, reply);
        }
    }
  }

  /**
   * In every run, the check that a retry awaits was started in the very turn of that call's own 423:
   * it is numbered after all checks there were before.
   */
  lemma {:induction false} RetryAwaitsOwnCheck(events: seq<Event>, i: nat) returns (u: nat)
    requires i < |Run(events).calls| && IsRetried(Run(events).calls[i])
    ensures u < |events| && events[u] == Answer(i, Locked)
    ensures var s := Run(events[..u]);
            && i < |s.calls| && s.calls[i].pc == SentFirst && !s.exited
            && RetryCheck(Run(events).calls[i]) == |s.checks|
    decreases |events|
  {
    hide Step, Inv, RetryCheck, IsRetried;
    var before := Init(events);
    RunInv(before);
    StepRetries(Run(before), Last(events), i);
    if IsRetried(Run(before).calls[i]) {
      u := RetryAwaitsOwnCheck(before, i);
      assert events[..u] == before[..u];
    } else {
      u := |events| - 1;
    }
  }

  /** No call, exempt or not, is sent more than twice; an exempt one only once. */
  lemma SentAtMostTwice(events: seq<Event>, i: nat)
    requires i < |Run(events).calls|
    ensures Run(events).calls[i].sent <= if Run(events).calls[i].exempt then 1 else 2
  {
    RunInv(events);
    assert CallOk(Run(events).checks, Run(events).calls[i]);
  }

  /** The turn that posts a fix is the one in which the operator says yes to the prompt of that check. */
  lemma ConsentIsAYes(s: State, e: Event, k: nat)
    requires Inv(s) && k < |Step(s, e).checks| && Step(s, e).checks[k].posted
    requires !(k < |s.checks| && s.checks[k].posted)
    ensures e == Confirm(k, true) && k < |s.checks| && s.checks[k].phase == Prompting && !s.exited
  {
    if k < |s.checks| {
      assert CheckOk(s.checks[k]);
    }
  }

  /** No fix without a yes in the same check: every posted fix goes back to such a turn of the run. */
  lemma {:induction false} NoFixWithoutConsent(events: seq<Event>, k: nat) returns (i: nat)
    requires k < |Run(events).checks| && Run(events).checks[k].posted
    ensures i < |events| && events[i] == Confirm(k, true)
    ensures var s := Run(events[..i]); k < |s.checks| && s.checks[k].phase == Prompting && !s.exited
    decreases |events|
  {
    hide Step, Inv;
    var before := Init(events);
    var s := Run(before);
    if k < |s.checks| && s.checks[k].posted {
      i := NoFixWithoutConsent(before, k);
      assert events[..i] == before[..i];
    } else {
      RunInv(before);
      ConsentIsAYes(s, Last(events), k);
      i := |events| - 1;
    }
  }

  /** Status checks number at most one more than the 423 answers; warnings are printed at most once. */
  lemma ChecksAreBounded(events: seq<Event>)
    ensures |Run(events).checks| <= 1 + Run(events).locked && Run(events).printed <= 1
  {
    RunInv(events);
  }

  /** After a "no" nothing more is sent, checked or posted. */
  lemma {:induction false} NothingAfterExit(events: seq<Event>, more: seq<Event>)
    requires Run(events).exited
    ensures Run(events + more) == Run(events)
    decreases |more|
  {
    if more == [] {
      assert events + more == events;
    } else {
      NothingAfterExit(events, Init(more));
      assert Init(events + more) == events + Init(more);
    }
  }

  // ----- the guard itself

  /** The module's variables, the checks and the running calls. Each method is one turn. */
  class Guard {
    var permissionCheck: Option<nat>
    var warningsPrinted: bool
    var exited: bool
    var checks: seq<Check>
    var calls: seq<Call>
    ghost var locked: nat
    ghost var reruns: nat
    ghost var printed: nat

    ghost function View(): State
      reads this
    {
      State(permissionCheck, warningsPrinted, exited, checks, calls, locked, reruns, printed)
    }

    constructor ()
      ensures View() == START
    {
      permissionCheck, warningsPrinted, exited, checks, calls := None, false, false, [], [];
      locked, reruns, printed := 0, 0, 0;
    }

    /** Starts the check unless one is memoized. */
    method EnsurePermissionsSafe() returns (check: nat)
      modifies this`permissionCheck, this`checks
      ensures (View(), check) == Ensure(old(View()))
    {
      if permissionCheck == None {
        permissionCheck := Some(|checks|);
        checks := checks + [Check(Fetching, false, false)];
      }
      check := permissionCheck.value;
    }

    /** A call up to its first send or the check before it. */
    method Request(exempt: bool)
      requires !exited
      modifies this
      ensures View() == Step(old(View()), Begin(exempt))
    {
      if exempt {
        calls := calls + [Call(true, SentFirst, 1, [])];
      } else {
        var check := EnsurePermissionsSafe();
        calls := calls + [Call(false, AwaitFirst(check), 0, [])];
      }
    }

    /** The answer to a status call. */
    method OnStatus(k: nat, status: Status)
      requires !exited && k < |checks| && checks[k].phase == Fetching
      modifies this
      ensures View() == Step(old(View()), StatusAnswer(k, status))
    {
      var phase := Passed;
      if status == Error {
        phase := Rejected;
      } else if status == Blocked {
        phase := Prompting;
      } else if status == Clear(true) && !warningsPrinted {
        warningsPrinted := true;
        printed := printed + 1;
      }
      checks := checks[k := checks[k].(phase := phase)];
    }

    /** The operator's answer: exit, or post the fix. */
    method OnConfirm(k: nat, yes: bool)
      requires !exited && k < |checks| && checks[k].phase == Prompting
      modifies this
      ensures View() == Step(old(View()), Confirm(k, yes))
    {
      if !yes {
        exited := true;
        return;
      }
      checks := checks[k := Check(Fixing, true, true)];
    }

    /** The prompt itself fails: the memoized check is rejected, and nothing is posted. */
    method OnPromptError(k: nat)
      requires !exited && k < |checks| && checks[k].phase == Prompting
      modifies this
      ensures View() == Step(old(View()), PromptError(k))
    {
      checks := checks[k := checks[k].(phase := Rejected)];
    }

    /** The answer to the fix. */
    method OnFix(k: nat, ok: bool)
      requires !exited && k < |checks| && checks[k].phase == Fixing
      modifies this
      ensures View() == Step(old(View()), FixAnswer(k, ok))
    {
      checks := checks[k := checks[k].(phase := if ok then Passed else Rejected)];
    }

    /** The answer to a call: done, thrown, or the check again and one retry. */
    method OnAnswer(i: nat, reply: Reply)
      requires !exited && i < |calls| && (calls[i].pc == SentFirst || calls[i].pc == SentRetry)
      modifies this
      ensures View() == Step(old(View()), Answer(i, reply))
    {
      var c := calls[i];
      if reply == Success {
        calls := calls[i := c.(pc := Returned)];
        return;
      }
      if reply == Locked {
        locked := locked + 1;
      }
      if c.pc == SentFirst && !c.exempt && reply == Locked {
        permissionCheck := None;
        reruns := reruns + 1;
        var check := EnsurePermissionsSafe();
        calls := calls[i := c.(pc := AwaitRetry(check))];
      } else {
        calls := calls[i := c.(pc := Threw)];
      }
    }

    /** The awaited check is over. */
    method OnChecked(i: nat)
      requires !exited && i < |calls| && CheckOf(calls[i].pc).Some? && CheckOf(calls[i].pc).value < |checks|
      requires var phase := checks[CheckOf(calls[i].pc).value].phase; phase == Passed || phase == Rejected
      modifies this
      ensures View() == Step(old(View()), Resume(i))
    {
      var c := calls[i];
      var k := CheckOf(c.pc).value;
      if checks[k].phase == Rejected {
        calls := calls[i := c.(pc := Threw)];
      } else {
        var pc := if c.pc.AwaitFirst? then SentFirst else SentRetry;
        calls := calls[i := c.(pc := pc, sent := c.sent + 1, awaited := c.awaited + [k])];
      }
    }
  }
}
