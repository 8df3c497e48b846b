/** What a passed check stands for, and what becomes of a call, over every run of the permission guard. */
module GuardLaws {
  import opened PermissionGuard
  import opened Text

  // ----- the turns of a check

  /** The status call of check `k` is answered in this turn. */
  predicate IsAnswered(s: State, e: Event, k: nat, status: Status) {
    !s.exited && e == StatusAnswer(k, status) && k < |s.checks| && s.checks[k].phase == Fetching
  }

  /** The operator answers the prompt of check `k` in this turn. */
  predicate IsConfirmed(s: State, e: Event, k: nat, yes: bool) {
    !s.exited && e == Confirm(k, yes) && k < |s.checks| && s.checks[k].phase == Prompting
  }

  predicate PromptFails(s: State, e: Event, k: nat) {
    !s.exited && e == PromptError(k) && k < |s.checks| && s.checks[k].phase == Prompting
  }

  /** The fix of check `k` is answered in this turn. */
  predicate IsFixed(s: State, e: Event, k: nat, ok: bool) {
    !s.exited && e == FixAnswer(k, ok) && k < |s.checks| && s.checks[k].phase == Fixing
  }

  /** The phases of a check, each with the only turns that lead to it. */
  lemma CheckMoves(s: State, e: Event, k: nat)
    requires k < |s.checks|
    ensures k < |Step(s, e).checks|
    ensures var p, q := s.checks[k].phase, Step(s, e).checks[k].phase;
            && (q == Fetching ==> p == Fetching)
            && (q == Prompting <==> (p == Prompting && !IsConfirmed(s, e, k, true) && !PromptFails(s, e, k))
                                    || IsAnswered(s, e, k, Blocked))
            && (q == Fixing <==> (p == Fixing && !IsFixed(s, e, k, true) && !IsFixed(s, e, k, false))
                                 || IsConfirmed(s, e, k, true))
            && (q == Passed <==> p == Passed || IsAnswered(s, e, k, Forbidden)
                                 || IsAnswered(s, e, k, Clear(true)) || IsAnswered(s, e, k, Clear(false))
                                 || IsFixed(s, e, k, true))
            && (q == Rejected <==> p == Rejected || IsAnswered(s, e, k, Error) || PromptFails(s, e, k)
                                   || IsFixed(s, e, k, false))
  {
    hide Began, Resumed, Answered;
    ChecksStay(s, e, k);
  }

  /** Requests and their answers start checks and leave the ones there are alone. */
  lemma ChecksStay(s: State, e: Event, k: nat)
    requires k < |s.checks|
    ensures e.Begin? || e.Resume? || e.Answer? ==> k < |Step(s, e).checks| && Step(s, e).checks[k] == s.checks[k]
  {
  }

  lemma NewCheckFetches(s: State, e: Event, k: nat)
    requires |s.checks| <= k < |Step(s, e).checks|
    ensures Step(s, e).checks[k] == Check(Fetching, false, false)
  {
  }

  // ----- over a run: each phase has its history

  /** The state before the `i`-th turn. */
  function Before(events: seq<Event>, i: nat): State
    requires i <= |events|
  {
    Run(events[..i])
  }

  ghost predicate AnsweredAt(events: seq<Event>, i: int, k: nat, status: Status) {
    0 <= i < |events| && IsAnswered(Before(events, i), events[i], k, status)
  }

  ghost predicate ConfirmedAt(events: seq<Event>, i: int, k: nat, yes: bool) {
    0 <= i < |events| && IsConfirmed(Before(events, i), events[i], k, yes)
  }

  ghost predicate PromptFailedAt(events: seq<Event>, i: int, k: nat) {
    0 <= i < |events| && PromptFails(Before(events, i), events[i], k)
  }

  ghost predicate FixedAt(events: seq<Event>, i: int, k: nat, ok: bool) {
    0 <= i < |events| && IsFixed(Before(events, i), events[i], k, ok)
  }

  /** The status call found unsafe files, and the operator agreed to fix them. */
  ghost predicate AgreedToFix(events: seq<Event>, i: int, j: int, k: nat) {
    i < j && AnsweredAt(events, i, k, Blocked) && ConfirmedAt(events, j, k, true)
  }

  /** A status that lets calls through as it is. */
  ghost predicate WasSafe(events: seq<Event>, k: nat) {
    exists i :: AnsweredAt(events, i, k, Forbidden) || AnsweredAt(events, i, k, Clear(true))
                || AnsweredAt(events, i, k, Clear(false))
  }

  ghost predicate WasFixed(events: seq<Event>, k: nat, ok: bool) {
    exists i, j, l :: AgreedToFix(events, i, j, k) && j < l && FixedAt(events, l, k, ok)
  }

  ghost predicate WasBlocked(events: seq<Event>, k: nat) {
    exists i :: AnsweredAt(events, i, k, Blocked)
  }

  ghost predicate PromptFailed(events: seq<Event>, k: nat) {
    exists i, j :: i < j && AnsweredAt(events, i, k, Blocked) && PromptFailedAt(events, j, k)
  }

  /** What must have happened for a check to be where it is. */
  ghost predicate HasHistory(events: seq<Event>, k: nat, phase: Phase) {
    match phase
    case Fetching => forall i, status :: !AnsweredAt(events, i, k, status)
    case Prompting => WasBlocked(events, k)
    case Fixing => exists i, j :: AgreedToFix(events, i, j, k)
    case Passed => WasSafe(events, k) || WasFixed(events, k, true)
    case Rejected =>
      || (exists i :: AnsweredAt(events, i, k, Error)) || PromptFailed(events, k) || WasFixed(events, k, false)
  }

  /** What happened in a shorter run happened in a longer one, at the same turn, and the other way round. */
  lemma SameBefore(events: seq<Event>, e: Event, i: int, k: nat)
    requires i < |events|
    ensures forall status :: AnsweredAt(events + [e], i, k, status) <==> AnsweredAt(events, i, k, status)
    ensures forall yes :: ConfirmedAt(events + [e], i, k, yes) <==> ConfirmedAt(events, i, k, yes)
    ensures PromptFailedAt(events + [e], i, k) <==> PromptFailedAt(events, i, k)
    ensures forall ok :: FixedAt(events + [e], i, k, ok) <==> FixedAt(events, i, k, ok)
  {
    hide Run;
    if i >= 0 {
      assert (events + [e])[..i] == events[..i];
    }
  }

  lemma AtTheEnd(events: seq<Event>, e: Event, k: nat)
    ensures var n, s := |events|, Run(events);
            && (forall status :: AnsweredAt(events + [e], n, k, status) <==> IsAnswered(s, e, k, status))
            && (forall yes :: ConfirmedAt(events + [e], n, k, yes) <==> IsConfirmed(s, e, k, yes))
            && (PromptFailedAt(events + [e], n, k) <==> PromptFails(s, e, k))
            && (forall ok :: FixedAt(events + [e], n, k, ok) <==> IsFixed(s, e, k, ok))
  {
    hide Run;
    assert (events + [e])[..|events|] == events;
  }

  /** A check that is not there yet counts as one whose status is not known. */
  function PhaseOf(s: State, k: nat): Phase {
    if k < |s.checks| then s.checks[k].phase else Fetching
  }

  lemma PhaseMoves(s: State, e: Event, k: nat)
    ensures var p, q := PhaseOf(s, k), PhaseOf(Step(s, e), k);
            && (q == Fetching ==> p == Fetching && forall status :: !IsAnswered(s, e, k, status))
            && (q == Prompting ==> p == Prompting || IsAnswered(s, e, k, Blocked))
            && (q == Fixing ==> p == Fixing || (p == Prompting && IsConfirmed(s, e, k, true)))
            && (q == Passed ==> p == Passed || IsAnswered(s, e, k, Forbidden) || IsAnswered(s, e, k, Clear(true))
                                || IsAnswered(s, e, k, Clear(false)) || (p == Fixing && IsFixed(s, e, k, true)))
            && (q == Rejected ==> p == Rejected || IsAnswered(s, e, k, Error)
                                  || (p == Prompting && PromptFails(s, e, k)) ||
                                      (p == Fixing && IsFixed(s, e, k, false)))
  {
    if k < |s.checks| {
      CheckMoves(s, e, k);
      AnsweredMoves(s, e, k);
    } else if k < |Step(s, e).checks| {
      NewCheckFetches(s, e, k);
    }
    hide Step;
  }

  lemma AnsweredMoves(s: State, e: Event, k: nat)
    requires k < |s.checks| && k < |Step(s, e).checks|
    ensures forall status | IsAnswered(s, e, k, status) :: Step(s, e).checks[k].phase != Fetching
  {
  }

  lemma SafeStays(events: seq<Event>, e: Event, k: nat)
    requires WasSafe(events, k)
    ensures WasSafe(events + [e], k)
  {
    hide AnsweredAt;
    var i :| AnsweredAt(events, i, k, Forbidden) || AnsweredAt(events, i, k, Clear(true))
             || AnsweredAt(events, i, k, Clear(false));
    AnsweredInRun(events, i, k);
    SameBefore(events, e, i, k);
  }

  lemma AnsweredInRun(events: seq<Event>, i: int, k: nat)
    ensures forall status | AnsweredAt(events, i, k, status) :: i < |events|
  {
  }

  lemma BlockedStays(events: seq<Event>, e: Event, k: nat)
    requires WasBlocked(events, k)
    ensures WasBlocked(events + [e], k)
  {
    hide AnsweredAt;
    var i :| AnsweredAt(events, i, k, Blocked);
    AnsweredInRun(events, i, k);
    SameBefore(events, e, i, k);
  }

  lemma AgreedStays(events: seq<Event>, e: Event, i: int, j: int, k: nat)
    requires AgreedToFix(events, i, j, k)
    ensures j < |events| && AgreedToFix(events + [e], i, j, k)
  {
    SameBefore(events, e, i, k);
    SameBefore(events, e, j, k);
  }

  lemma FixedStays(events: seq<Event>, e: Event, k: nat, ok: bool)
    requires WasFixed(events, k, ok)
    ensures WasFixed(events + [e], k, ok)
  {
    var i, j, l :| AgreedToFix(events, i, j, k) && j < l && FixedAt(events, l, k, ok);
    SameBefore(events, e, l, k);
    AgreedStays(events, e, i, j, k);
    assert FixedAt(events + [e], l, k, ok);
  }

  lemma PromptFailedStays(events: seq<Event>, e: Event, k: nat)
    requires PromptFailed(events, k)
    ensures PromptFailed(events + [e], k)
  {
    var i, j :| i < j && AnsweredAt(events, i, k, Blocked) && PromptFailedAt(events, j, k);
    SameBefore(events, e, i, k);
    SameBefore(events, e, j, k);
  }

  lemma ErrorStays(events: seq<Event>, e: Event, k: nat)
    requires exists i :: AnsweredAt(events, i, k, Error)
    ensures exists i :: AnsweredAt(events + [e], i, k, Error)
  {
    hide AnsweredAt;
    var i :| AnsweredAt(events, i, k, Error);
    AnsweredInRun(events, i, k);
    SameBefore(events, e, i, k);
  }

  /** A history lasts, except that of a status not yet known. */
  lemma HistoryStays(events: seq<Event>, e: Event, k: nat, phase: Phase)
    requires HasHistory(events, k, phase)
    requires phase == Fetching ==> forall status :: !IsAnswered(Run(events), e, k, status)
    ensures HasHistory(events + [e], k, phase)
  {
    hide WasSafe, WasFixed, WasBlocked, PromptFailed, AnsweredAt, AgreedToFix, IsAnswered;
    match phase
    case Fetching => UnansweredStays(events, e, k);
    case Prompting => BlockedStays(events, e, k);
    case Fixing =>
      var i, j :| AgreedToFix(events, i, j, k);
      AgreedStays(events, e, i, j, k);
    case Passed =>
      if WasSafe(events, k) {
        SafeStays(events, e, k);
      } else {
        FixedStays(events, e, k, true);
      }
    case Rejected =>
      if PromptFailed(events, k) {
        PromptFailedStays(events, e, k);
      } else if WasFixed(events, k, false) {
        FixedStays(events, e, k, false);
      } else {
        ErrorStays(events, e, k);
      }
  }

  lemma UnansweredStays(events: seq<Event>, e: Event, k: nat)
    requires forall i, status :: !AnsweredAt(events, i, k, status)
    requires forall status :: !IsAnswered(Run(events), e, k, status)
    ensures forall i, status :: !AnsweredAt(events + [e], i, k, status)
  {
    hide IsAnswered;
    forall i, status
      ensures !AnsweredAt(events + [e], i, k, status)
    {
      if i < |events| {
        SameBefore(events, e, i, k);
      } else {
        AtTheEnd(events, e, k);
      }
    }
  }

  /** The turn at the end of a run gives a check its next history. */
  lemma HistoryBegins(events: seq<Event>, e: Event, k: nat, p: Phase, q: Phase)
    requires HasHistory(events, k, p)
    requires var s := Run(events);
      match q
      case Fetching => false
      case Prompting => IsAnswered(s, e, k, Blocked)
      case Fixing => p == Prompting && IsConfirmed(s, e, k, true)
      case Passed =>
        || IsAnswered(s, e, k, Forbidden) || IsAnswered(s, e, k, Clear(true)) || IsAnswered(s, e, k, Clear(false))
        || (p == Fixing && IsFixed(s, e, k, true))
      case Rejected =>
        || IsAnswered(s, e, k, Error) || (p == Prompting && PromptFails(s, e, k))
        || (p == Fixing && IsFixed(s, e, k, false))
    ensures HasHistory(events + [e], k, q)
  {
    hide IsAnswered, IsConfirmed, IsFixed, PromptFails;
    var n := |events|;
    AtTheEnd(events, e, k);
    if p == Prompting {
      var i :| AnsweredAt(events, i, k, Blocked);
      AnsweredInRun(events, i, k);
      SameBefore(events, e, i, k);
      assert q == Fixing ==> AgreedToFix(events + [e], i, n, k);
    } else if p == Fixing {
      var i, j :| AgreedToFix(events, i, j, k);
      AgreedStays(events, e, i, j, k);
      assert q == Passed && IsFixed(Run(events), e, k, true) ==> FixedAt(events + [e], n, k, true);
      assert q == Rejected && IsFixed(Run(events), e, k, false) ==> FixedAt(events + [e], n, k, false);
    }
  }

  /** Over every run: each check is where its history puts it. */
  lemma {:induction false} PhaseHasHistory(events: seq<Event>, k: nat)
    ensures HasHistory(events, k, PhaseOf(Run(events), k))
    decreases |events|
  {
    hide Step, IsAnswered, IsConfirmed, IsFixed, PromptFails, HasHistory;
    if events == [] {
      NothingYet(k);
    } else {
      var before, e := Init(events), Last(events);
      var p, q := PhaseOf(Run(before), k), PhaseOf(Run(events), k);
      assert events == before + [e];
      PhaseHasHistory(before, k);
      PhaseMoves(Run(before), e, k);
      if p == q && (q == Fetching ==> forall status :: !IsAnswered(Run(before), e, k, status)) {
        HistoryStays(before, e, k, q);
      } else {
        HistoryBegins(before, e, k, p, q);
      }
    }
  }

  lemma NothingYet(k: nat)
    ensures HasHistory([], k, PhaseOf(Run([]), k))
  {
  }

  // ----- what a passed check stands for

  lemma AnsweredInPrefix(events: seq<Event>, j: nat, i: int, k: nat, status: Status)
    requires i < j <= |events|
    ensures AnsweredAt(events[..j], i, k, status) <==> AnsweredAt(events, i, k, status)
  {
    hide Run;
    if i >= 0 {
      assert events[..j][..i] == events[..i];
    }
  }

  /** The status of a check is given once. */
  lemma AnsweredOnce(events: seq<Event>, k: nat, i: int, j: int, x: Status, y: Status)
    requires AnsweredAt(events, i, k, x) && AnsweredAt(events, j, k, y)
    ensures i == j && x == y
  {
    NotAnsweredBefore(events, k, i, j, x, y);
    NotAnsweredBefore(events, k, j, i, y, x);
  }

  lemma NotAnsweredBefore(events: seq<Event>, k: nat, i: int, j: int, x: Status, y: Status)
    requires AnsweredAt(events, i, k, x) && AnsweredAt(events, j, k, y)
    ensures i >= j
  {
    hide Run;
    if i < j {
      AnsweredInPrefix(events, j, i, k, x);
      PhaseHasHistory(events[..j], k);
    }
  }

  lemma PhaseEnds(s: State, e: Event, k: nat)
    ensures PhaseOf(s, k) == Passed ==> PhaseOf(Step(s, e), k) == Passed
    ensures PhaseOf(s, k) == Rejected ==> PhaseOf(Step(s, e), k) == Rejected
  {
    if k < |s.checks| {
      CheckMoves(s, e, k);
    }
    hide Step;
  }

  lemma {:induction false} PhaseStays(events: seq<Event>, j: nat, k: nat)
    requires j <= |events|
    ensures PhaseOf(Before(events, j), k) == Passed ==> PhaseOf(Run(events), k) == Passed
    ensures PhaseOf(Before(events, j), k) == Rejected ==> PhaseOf(Run(events), k) == Rejected
    decreases |events|
  {
    hide Step, PhaseOf;
    if j == |events| {
      assert events[..j] == events;
    } else {
      PhaseStays(Init(events), j, k);
      assert Init(events)[..j] == events[..j];
      PhaseEnds(Run(Init(events)), Last(events), k);
    }
  }

  /** A check whose status call failed never passes, nor does one whose prompt or fix failed. */
  lemma FailedNeverPasses(events: seq<Event>, k: nat, i: nat)
    requires AnsweredAt(events, i, k, Error) || PromptFailedAt(events, i, k) || FixedAt(events, i, k, false)
    ensures PhaseOf(Run(events), k) == Rejected
  {
    var s, t := Before(events, i), Before(events, i + 1);
    assert t == Step(s, events[i]) by {
      assert Init(events[..i + 1]) == events[..i] && Last(events[..i + 1]) == events[i];
    }
    hide Run, Step;
    CheckMoves(s, events[i], k);
    PhaseStays(events, i + 1, k);
  }

  /**
   * Over every run: a check that has passed goes back to a status that lets calls through, or to a status
   * that found unsafe files, a yes of the operator and a fix that succeeded, in this order and all of that check.
   */
  lemma PassedGoesBack(events: seq<Event>, k: nat)
    requires k < |Run(events).checks| && Run(events).checks[k].phase == Passed
    ensures WasSafe(events, k) || WasFixed(events, k, true)
    ensures WasBlocked(events, k) ==> WasFixed(events, k, true) && !WasSafe(events, k)
    ensures forall i ::
        !AnsweredAt(events, i, k, Error) && !PromptFailedAt(events, i, k) && !FixedAt(events, i, k, false)
  {
    hide Run, WasFixed, AnsweredAt, PromptFailedAt, FixedAt;
    PhaseHasHistory(events, k);
    if WasBlocked(events, k) {
      BlockedIsNotSafe(events, k);
    }
    forall i
      ensures !AnsweredAt(events, i, k, Error) && !PromptFailedAt(events, i, k) && !FixedAt(events, i, k, false)
    {
      TurnInRun(events, i, k);
      if AnsweredAt(events, i, k, Error) || PromptFailedAt(events, i, k) || FixedAt(events, i, k, false) {
        FailedNeverPasses(events, k, i);
      }
    }
  }

  lemma TurnInRun(events: seq<Event>, i: int, k: nat)
    ensures AnsweredAt(events, i, k, Error) || PromptFailedAt(events, i, k) || FixedAt(events, i, k, false) ==> i >= 0
  {
  }

  lemma BlockedIsNotSafe(events: seq<Event>, k: nat)
    requires WasBlocked(events, k)
    ensures !WasSafe(events, k)
  {
    hide AnsweredAt;
    if WasSafe(events, k) {
      var i :| AnsweredAt(events, i, k, Blocked);
      var j :| AnsweredAt(events, j, k, Forbidden) || AnsweredAt(events, j, k, Clear(true))
               || AnsweredAt(events, j, k, Clear(false));
      if AnsweredAt(events, j, k, Forbidden) {
        AnsweredOnce(events, k, i, j, Blocked, Forbidden);
      } else if AnsweredAt(events, j, k, Clear(true)) {
        AnsweredOnce(events, k, i, j, Blocked, Clear(true));
      } else {
        AnsweredOnce(events, k, i, j, Blocked, Clear(false));
      }
    }
  }

  // ----- what a call stands for

  /** A guarded call is sent in this turn, after the check it awaited passed. */
  ghost predicate SendsAfter(s: State, e: Event, i: nat, k: nat) {
    && !s.exited && e == Resume(i) && i < |s.calls| && CheckOf(s.calls[i].pc) == Some(k)
    && k < |s.checks| && s.checks[k].phase == Passed
  }

  /** A guarded call is sent exactly in such turns, and each time the check is noted. */
  lemma SendsIff(s: State, e: Event, i: nat)
    requires i < |s.calls|
    ensures i < |Step(s, e).calls| && Step(s, e).calls[i].exempt == s.calls[i].exempt
    ensures var c, d := s.calls[i], Step(s, e).calls[i];
            if exists k: nat :: SendsAfter(s, e, i, k) then
              d.sent == c.sent + 1 && SendsAfter(s, e, i, CheckOf(c.pc).value) &&
                  d.awaited == c.awaited + [CheckOf(c.pc).value]
            else d.sent == c.sent && d.awaited == c.awaited
  {
    hide Began, StatusGiven, Confirmed, Answered;
    if e != Resume(i) {
      CallsStay(s, e, i);
    } else if CheckOf(s.calls[i].pc).Some? {
      var k := CheckOf(s.calls[i].pc).value;
      assert SendsAfter(s, e, i, k) <==> !s.exited && k < |s.checks| && s.checks[k].phase == Passed;
    }
  }

  lemma CallsStay(s: State, e: Event, i: nat)
    requires i < |s.calls| && e != Resume(i)
    ensures i < |Step(s, e).calls|
    ensures var c, d := s.calls[i], Step(s, e).calls[i];
            d.sent == c.sent && d.awaited == c.awaited && d.exempt == c.exempt
  {
  }

  lemma NewCall(s: State, e: Event, i: nat)
    requires |s.calls| <= i < |Step(s, e).calls|
    ensures e.Begin? && i == |s.calls| && Step(s, e).calls[i].exempt == e.exempt
    ensures Step(s, e).calls[i].awaited == [] && Step(s, e).calls[i].sent == if e.exempt then 1 else 0
  {
  }

  lemma AwaitedStep(s: State, e: Event, i: nat)
    requires i < |Step(s, e).calls|
    ensures if i < |s.calls| then
              var c, d := s.calls[i], Step(s, e).calls[i];
              d.awaited == c.awaited
              || (exists k: nat :: SendsAfter(s, e, i, k) && d.awaited == c.awaited + [k])
            else Step(s, e).calls[i].awaited == []
  {
    hide Step;
    if i < |s.calls| {
      SendsIff(s, e, i);
    } else {
      NewCall(s, e, i);
    }
  }

  /**
   * Over every run: each time a guarded call is sent, the check it awaited has passed, and if that check found
   * unsafe files, the operator said yes and the fix succeeded before the call was sent.
   */
  lemma {:induction false} CallGoesBack(events: seq<Event>, i: nat, n: nat) returns (u: nat)
    requires i < |Run(events).calls| && n < |Run(events).calls[i].awaited|
    ensures u < |events| && SendsAfter(Before(events, u), events[u], i, Run(events).calls[i].awaited[n])
    ensures var k, past := Run(events).calls[i].awaited[n], events[..u];
            && (WasSafe(past, k) || WasFixed(past, k, true))
            && (WasBlocked(past, k) ==> WasFixed(past, k, true))
    decreases |events|
  {
    hide Step, WasSafe, WasFixed, WasBlocked, SendsAfter;
    var before, e := Init(events), Last(events);
    var s, k := Run(before), Run(events).calls[i].awaited[n];
    AwaitedStep(s, e, i);
    if i < |s.calls| && n < |s.calls[i].awaited| {
      u := CallGoesBack(before, i, n);
      assert before[..u] == events[..u];
    } else {
      u := |before|;
      assert events[..u] == before;
      SentAfterPassed(s, e, i, k);
      PassedGoesBack(before, k);
    }
  }

  lemma SentAfterPassed(s: State, e: Event, i: nat, k: nat)
    requires SendsAfter(s, e, i, k)
    ensures k < |s.checks| && s.checks[k].phase == Passed
  {
  }

  predicate IsOver(pc: Pc) {
    pc == Returned || pc == Threw
  }

  /** How a call ends in a turn. */
  ghost predicate EndsBy(s: State, e: Event, i: nat, pc: Pc) {
    !s.exited && i < |s.calls| &&
    var c := s.calls[i];
    if pc == Returned then e == Answer(i, Success) && (c.pc == SentFirst || c.pc == SentRetry)
    else
      || (e == Answer(i, OtherError) && (c.pc == SentFirst || c.pc == SentRetry))
      || (e == Answer(i, Locked) && (c.pc == SentRetry || (c.pc == SentFirst && c.exempt)))
      || (e == Resume(i) && CheckOf(c.pc).Some? && CheckOf(c.pc).value < |s.checks|
          && s.checks[CheckOf(c.pc).value].phase == Rejected)
  }

  /** A call returns or throws in a turn exactly if one of these happens to it. */
  lemma EndsIff(s: State, e: Event, i: nat, pc: Pc)
    requires i < |s.calls| && IsOver(pc)
    ensures i < |Step(s, e).calls|
    ensures Step(s, e).calls[i].pc == pc <==> s.calls[i].pc == pc || EndsBy(s, e, i, pc)
  {
    hide Began, StatusGiven, Confirmed;
    if !(e.Answer? && e.call == i) && e != Resume(i) {
      OtherCallsStay(s, e, i);
    }
  }

  lemma OtherCallsStay(s: State, e: Event, i: nat)
    requires i < |s.calls| && !(e.Answer? && e.call == i) && e != Resume(i)
    ensures i < |Step(s, e).calls| && Step(s, e).calls[i] == s.calls[i]
  {
  }

  /** The first 423 of a guarded call, and only that, makes it await a new check, started in that turn. */
  lemma RetriesIff(s: State, e: Event, i: nat)
    requires i < |s.calls| && !s.calls[i].pc.AwaitRetry?
    ensures i < |Step(s, e).calls|
    ensures Step(s, e).calls[i].pc.AwaitRetry?
       <==> !s.exited && e == Answer(i, Locked) && s.calls[i].pc == SentFirst && !s.calls[i].exempt
    ensures Step(s, e).calls[i].pc.AwaitRetry? ==>
              && Step(s, e).calls[i].pc.check == |s.checks| && Step(s, e).permissionCheck == Some(|s.checks|)
              && Step(s, e).checks == s.checks + [Check(Fetching, false, false)]
  {
  }

  /** A guarded call begins by awaiting the memoized check; one is started only if there is none. */
  lemma BeginsByAwaiting(s: State)
    requires !s.exited
    ensures var t := Step(s, Begin(false));
            && |t.calls| == |s.calls| + 1 && t.permissionCheck.Some?
            && Last(t.calls).pc == AwaitFirst(t.permissionCheck.value)
            && (s.permissionCheck.Some? ==> t.permissionCheck == s.permissionCheck && t.checks == s.checks)
            && (s.permissionCheck == None ==>
                  t.permissionCheck == Some(|s.checks|) && t.checks == s.checks + [Check(Fetching, false, false)])
  {
  }

  // ----- exit and warnings

  /** The process exits exactly by a "no" to some prompt. */
  lemma {:induction false} ExitsIff(events: seq<Event>)
    ensures Run(events).exited <==> exists i, k: nat :: ConfirmedAt(events, i, k, false)
    decreases |events|
  {
    hide Step, ConfirmedAt;
    if events == [] {
      NobodyAsked();
    } else {
      var before, e := Init(events), Last(events);
      assert events == before + [e];
      ExitsIff(before);
      ExitStep(Run(before), e);
      forall i: int, k: nat
        ensures i < |before| ==> (ConfirmedAt(events, i, k, false) <==> ConfirmedAt(before, i, k, false))
        ensures i >= |before| ==>
                  (ConfirmedAt(events, i, k, false) <==> i == |before| && IsConfirmed(Run(before), e, k, false))
        ensures ConfirmedAt(before, i, k, false) ==> i < |before|
      {
        ConfirmedInRun(before, e, i, k);
      }
      if k: nat :| IsConfirmed(Run(before), e, k, false) {
        assert ConfirmedAt(events, |before|, k, false);
      }
    }
  }

  lemma NobodyAsked()
    ensures !Run([]).exited && forall i, k: nat :: !ConfirmedAt([], i, k, false)
  {
  }

  lemma ConfirmedInRun(before: seq<Event>, e: Event, i: int, k: nat)
    ensures var events := before + [e];
            && (i < |before| ==> (ConfirmedAt(events, i, k, false) <==> ConfirmedAt(before, i, k, false)))
            && (i >= |before| ==>
                  (ConfirmedAt(events, i, k, false) <==> i == |before| && IsConfirmed(Run(before), e, k, false)))
            && (ConfirmedAt(before, i, k, false) ==> i < |before|)
  {
    hide Run, IsConfirmed;
    if i < |before| {
      SameBefore(before, e, i, k);
    } else {
      AtTheEnd(before, e, k);
    }
  }

  lemma ExitStep(s: State, e: Event)
    ensures Step(s, e).exited <==> s.exited || exists k: nat :: IsConfirmed(s, e, k, false)
  {
    if e.Confirm? && !e.yes && !s.exited {
      assert IsConfirmed(s, e, e.check, false) <==> e.check < |s.checks| && s.checks[e.check].phase == Prompting;
    }
  }

  /** Warnings are printed, once, exactly if some status reported them. */
  lemma {:induction false} WarnsIff(events: seq<Event>)
    ensures Run(events).warningsPrinted <==> exists i, k: nat :: AnsweredAt(events, i, k, Clear(true))
    ensures Run(events).printed == if Run(events).warningsPrinted then 1 else 0
    decreases |events|
  {
    hide Step, AnsweredAt;
    if events == [] {
      NothingAnswered();
    } else {
      var before, e := Init(events), Last(events);
      assert events == before + [e];
      WarnsIff(before);
      WarnStep(Run(before), e);
      forall i: int, k: nat
        ensures i < |before| ==> (AnsweredAt(events, i, k, Clear(true)) <==> AnsweredAt(before, i, k, Clear(true)))
        ensures i >= |before| ==>
                  (AnsweredAt(events, i, k, Clear(true)) <==>
                      i == |before| && IsAnswered(Run(before), e, k, Clear(true)))
        ensures AnsweredAt(before, i, k, Clear(true)) ==> i < |before|
      {
        ClearInRun(before, e, i, k);
      }
      if k: nat :| IsAnswered(Run(before), e, k, Clear(true)) {
        assert AnsweredAt(events, |before|, k, Clear(true));
      }
    }
  }

  lemma NothingAnswered()
    ensures !Run([]).warningsPrinted && Run([]).printed == 0
    ensures forall i, k: nat :: !AnsweredAt([], i, k, Clear(true))
  {
  }

  lemma ClearInRun(before: seq<Event>, e: Event, i: int, k: nat)
    ensures var events, c := before + [e], Clear(true);
            && (i < |before| ==> (AnsweredAt(events, i, k, c) <==> AnsweredAt(before, i, k, c)))
            && (i >= |before| ==>
                  (AnsweredAt(events, i, k, c) <==> i == |before| && IsAnswered(Run(before), e, k, c)))
            && (AnsweredAt(before, i, k, c) ==> i < |before|)
  {
    hide Run, IsAnswered;
    if i < |before| {
      SameBefore(before, e, i, k);
    } else {
      AtTheEnd(before, e, k);
    }
  }

  lemma WarnStep(s: State, e: Event)
    ensures Step(s, e).warningsPrinted <==> s.warningsPrinted || exists k: nat :: IsAnswered(s, e, k, Clear(true))
    ensures Step(s, e).printed == s.printed + if Step(s, e).warningsPrinted && !s.warningsPrinted then 1 else 0
  {
    if e.StatusAnswer? && !s.exited && e.status == Clear(true) {
      assert IsAnswered(s, e, e.check, Clear(true))
          <==> e.check < |s.checks| && s.checks[e.check].phase == Fetching;
    }
  }
}
