/** What the dashboard's client does with its tokens and its answers, over every run. */
module SessionLaws {
  import opened SessionRefresh
  import opened Text

  // ----- what a refresh stores

  /** The body of an answered refresh has been read: the turn in which the refresh succeeds. */
  predicate Succeeds(s: State, e: Event) {
    e.RefreshBody? && e.refresh < |s.refreshes| && s.refreshes[e.refresh].phase == Reading
  }

  /** The keys hold what the body brought; an empty refresh token or no expiry leaves the old one, the user stays. */
  ghost predicate HoldsTokensOf(e: Event, before: Keys, after: Keys)
    requires e.RefreshBody?
  {
    && after.token == Some(e.token)
    && after.refreshToken == (if e.refreshToken == "" then before.refreshToken else Some(e.refreshToken))
    && after.expiresAt == (if e.expiresAt == None then before.expiresAt else e.expiresAt)
    && after.user == before.user
  }

  /** In that turn the refresh settles, the slot is cleared and the new tokens are stored. */
  lemma SuccessStores(s: State, e: Event)
    requires Succeeds(s, e)
    ensures var t := Step(s, e);
            && HoldsTokensOf(e, s.keys, t.keys) && t.refreshPromise == None && t.requests == s.requests
            && t.refreshes == s.refreshes[e.refresh := Refresh(s.refreshes[e.refresh].token, Settled(true))]
  {
  }

  /** Refreshes settle as successful in no other turn. */
  lemma OnlySuccessSettles(s: State, e: Event, k: nat)
    requires k < |Step(s, e).refreshes| && Step(s, e).refreshes[k].phase == Settled(true)
    requires !(k < |s.refreshes| && s.refreshes[k].phase == Settled(true))
    ensures Succeeds(s, e) && e.refresh == k
  {
  }

  /** A refresh that is out fails exactly by a refusing answer or an error; then the slot is cleared as well. */
  lemma FailsIff(s: State, e: Event, k: nat)
    requires k < |s.refreshes| && !s.refreshes[k].phase.Settled?
    ensures k < |Step(s, e).refreshes|
    ensures Step(s, e).refreshes[k].phase == Settled(false)
       <==> e == RefreshError(k) || (e == RefreshAnswer(k, false) && s.refreshes[k].phase == Calling)
    ensures Step(s, e).refreshes[k].phase == Settled(false) ==>
              Step(s, e).refreshPromise == None && Step(s, e).keys == s.keys
  {
  }

  /** An accepting answer makes it read the body. */
  lemma ReadsIff(s: State, e: Event, k: nat)
    requires k < |s.refreshes| && s.refreshes[k].phase == Calling
    ensures k < |Step(s, e).refreshes|
    ensures Step(s, e).refreshes[k].phase == Reading <==> e == RefreshAnswer(k, true)
  {
  }

  /** Over every run: a refresh that has succeeded stored the tokens of its body in the turn in which it did. */
  lemma {:induction false} SuccessfulRefreshStored(keys: Keys, events: seq<Event>, k: nat) returns (i: nat)
    requires k < |Run(Start(keys), events).refreshes|
    requires Run(Start(keys), events).refreshes[k].phase == Settled(true)
    ensures i < |events|
    ensures var s, t := Run(Start(keys), events[..i]), Run(Start(keys), events[..i + 1]);
            Succeeds(s, events[i]) && events[i].refresh == k && HoldsTokensOf(events[i], s.keys, t.keys)
    decreases |events|
  {
    hide Step, Succeeds, HoldsTokensOf;
    var before := Init(events);
    var s := Run(Start(keys), before);
    if k < |s.refreshes| && s.refreshes[k].phase == Settled(true) {
      i := SuccessfulRefreshStored(keys, before, k);
      assert events[..i] == before[..i] && events[..i + 1] == before[..i + 1];
    } else {
      OnlySuccessSettles(s, Last(events), k);
      SuccessStores(s, Last(events));
      i := |events| - 1;
      assert events[..i + 1] == events && events[..i] == before;
    }
  }

  // ----- which token a call carries

  /** A request is rejected in this turn. */
  ghost predicate RejectsNow(s: State, e: Event) {
    exists r :: 0 <= r < |s.requests| && r < |Step(s, e).requests|
                && s.requests[r].pc != Unauthorized && Step(s, e).requests[r].pc == Unauthorized
  }

  /** The turns that may change the session keys: the page stores some, a refresh succeeds, a request is rejected. */
  ghost predicate TouchesKeys(s: State, e: Event) {
    e.Storage? || Succeeds(s, e) || RejectsNow(s, e)
  }

  lemma ChangedKeysWereTouched(s: State, e: Event)
    ensures Step(s, e).keys != s.keys ==> TouchesKeys(s, e)
  {
    if Step(s, e).keys != s.keys && !e.Storage? && !Succeeds(s, e) {
      assert e.Answer? || e.Resume?;
      var r := e.request;
      assert s.requests[r].pc != Unauthorized && Step(s, e).requests[r].pc == Unauthorized;
    }
  }

  /** No turn from the `i`-th on, up to the `j`-th, touches the keys. */
  ghost predicate KeysUntouched(keys: Keys, events: seq<Event>, i: int, j: int)
    requires 0 <= i && j <= |events|
  {
    forall m | i <= m < j :: !TouchesKeys(Run(Start(keys), events[..m]), events[m])
  }

  lemma {:induction false} KeysStay(keys: Keys, events: seq<Event>, i: nat, j: nat)
    requires i <= j <= |events| && KeysUntouched(keys, events, i, j)
    ensures Run(Start(keys), events[..j]).keys == Run(Start(keys), events[..i]).keys
    decreases j - i
  {
    hide Step, TouchesKeys;
    if i < j {
      KeysStay(keys, events, i, j - 1);
      assert !TouchesKeys(Run(Start(keys), events[..j - 1]), events[j - 1]);
      ChangedKeysWereTouched(Run(Start(keys), events[..j - 1]), events[j - 1]);
      assert Init(events[..j]) == events[..j - 1] && Last(events[..j]) == events[j - 1];
    }
  }

  lemma UntouchedBefore(keys: Keys, events: seq<Event>, i: nat, j: nat)
    requires j < |events|
    ensures KeysUntouched(keys, events, i, j) ==> KeysUntouched(keys, Init(events), i, j)
  {
    hide Run, TouchesKeys;
    if KeysUntouched(keys, events, i, j) {
      var before := Init(events);
      forall m | i <= m < j
        ensures !TouchesKeys(Run(Start(keys), before[..m]), before[m])
      {
        assert events[..m] == before[..m] && events[m] == before[m];
        assert !TouchesKeys(Run(Start(keys), events[..m]), events[m]);
      }
    }
  }

  /** What a token is sent as: an empty one is not sent. */
  function SentAs(token: string): Option<string> {
    if token == "" then None else Some(token)
  }

  /** Every call carries the token that is stored when it is made. */
  lemma CallCarriesStoredToken(s: State, e: Event, r: nat)
    requires r < |Step(s, e).requests|
    ensures var now := Step(s, e).requests[r].sent;
            var before := if r < |s.requests| then s.requests[r].sent else [];
            now == before || now == before + [if s.keys.token == None then None else SentAs(s.keys.token.value)]
  {
  }

  /** A request that awaits a refresh that has succeeded. */
  ghost predicate AwaitsRefresh(s: State, r: nat, k: nat) {
    && r < |s.requests| && Awaited(s.requests[r].pc) == Some(k)
    && k < |s.refreshes| && s.refreshes[k].phase == Settled(true)
  }

  lemma ResumesByCalling(s: State, r: nat, k: nat)
    requires AwaitsRefresh(s, r, k)
    ensures var t := Step(s, Resume(r));
            r < |t.requests|
            && t.requests[r].sent
                == s.requests[r].sent + [if s.keys.token == None then None else SentAs(s.keys.token.value)]
  {
  }

  /**
   * A request that goes on after a refresh succeeded makes its call with the token of that refresh,
   * unless some turn in between touched the keys.
   */
  lemma ResumedCallCarriesNewToken(keys: Keys, events: seq<Event>, r: nat, k: nat) returns (i: nat)
    requires AwaitsRefresh(Run(Start(keys), events), r, k)
    ensures i < |events| && Succeeds(Run(Start(keys), events[..i]), events[i]) && events[i].refresh == k
    ensures KeysUntouched(keys, events, i + 1, |events|) ==>
              var s, t := Run(Start(keys), events), Run(Start(keys), events + [Resume(r)]);
              && r < |s.requests| && r < |t.requests|
              && t.requests[r].sent == s.requests[r].sent + [SentAs(events[i].token)]
  {
    hide Step, Succeeds, TouchesKeys;
    i := SuccessfulRefreshStored(keys, events, k);
    assert events[..|events|] == events;
    if KeysUntouched(keys, events, i + 1, |events|) {
      KeysStay(keys, events, i + 1, |events|);
      ResumesByCalling(Run(Start(keys), events), r, k);
      assert Init(events + [Resume(r)]) == events;
    }
  }

  lemma SecondCallIsLast(s: State, e: Event, r: nat)
    requires Inv(s) && r < |s.requests| && |s.requests[r].sent| == 2
    ensures r < |Step(s, e).requests| && Step(s, e).requests[r].sent == s.requests[r].sent
  {
    assert RequestOk(s.refreshes, s.requests[r]);
  }

  lemma SecondCallResumes(s: State, e: Event, r: nat)
    requires Inv(s) && r < |Step(s, e).requests| && |Step(s, e).requests[r].sent| == 2
    requires !(r < |s.requests| && |s.requests[r].sent| == 2)
    ensures e == Resume(r) && AwaitsSuccess(s, r) && AwaitsRefresh(s, r, s.requests[r].pc.task)
    ensures |s.requests[r].sent| == 1
  {
    if r < |s.requests| {
      assert RequestOk(s.refreshes, s.requests[r]);
    }
  }

  /**
   * Over every run: the second call of a request is made in a turn in which it awaits a refresh that has
   * succeeded, and it carries the token of that refresh unless some turn in between touched the keys.
   */
  lemma {:induction false} RetryCarriesNewToken(keys: Keys, events: seq<Event>, r: nat) returns (i: nat, j: nat)
    requires r < |Run(Start(keys), events).requests| && |Run(Start(keys), events).requests[r].sent| == 2
    ensures i < j < |events| && events[j] == Resume(r)
    ensures var s := Run(Start(keys), events[..j]);
            && AwaitsSuccess(s, r)
            && Succeeds(Run(Start(keys), events[..i]), events[i]) && events[i].refresh == s.requests[r].pc.task
    ensures KeysUntouched(keys, events, i + 1, j) ==>
              Run(Start(keys), events).requests[r].sent[1] == SentAs(events[i].token)
    decreases |events|
  {
    hide Step, Inv, Succeeds, KeysUntouched;
    var before := Init(events);
    var s := Run(Start(keys), before);
    RunInv(keys, before);
    if r < |s.requests| && |s.requests[r].sent| == 2 {
      i, j := RetryCarriesNewToken(keys, before, r);
      SecondCallIsLast(s, Last(events), r);
      assert events[..i] == before[..i] && events[..j] == before[..j];
      UntouchedBefore(keys, events, i + 1, j);
    } else {
      SecondCallResumes(s, Last(events), r);
      j := |before|;
      i := ResumedCallCarriesNewToken(keys, before, r, s.requests[r].pc.task);
      assert events == before + [Resume(r)] && events[..j] == before && events[..i] == before[..i];
      UntouchedBefore(keys, events, i + 1, j);
    }
  }

  // ----- when a refresh is started, and by whom it is awaited

  /** A refresh appears only in an empty slot, which it fills; it posts the stored refresh token, if there is one. */
  lemma RefreshStarts(s: State, e: Event)
    requires Step(s, e).refreshes != [] && |Step(s, e).refreshes| > |s.refreshes|
    ensures var t := Step(s, e);
            && s.refreshPromise == None && t.refreshPromise == Some(|s.refreshes|)
            && |t.refreshes| == |s.refreshes| + 1
            && Last(t.refreshes)
               == match s.keys.refreshToken
                  case None => Refresh(None, Settled(false))
                  case Some(token) =>
                    if token == "" then Refresh(None, Settled(false)) else Refresh(Some(token), Calling)
  {
  }

  /** Who begins to wait in a turn waits for the refresh in the slot. */
  lemma AwaitsTheSlot(s: State, e: Event, r: nat)
    requires r < |Step(s, e).requests| && Awaited(Step(s, e).requests[r].pc).Some?
    requires !(r < |s.requests| && Awaited(s.requests[r].pc).Some?)
    ensures Awaited(Step(s, e).requests[r].pc) == Step(s, e).refreshPromise
  {
  }

  /**
   * A request waits for a refresh before its first call exactly if it is neither a login nor a refresh and
   * the stored expiry is less than five minutes, but more than no time, away. Otherwise it calls at once.
   */
  lemma RefreshesEarlyIff(s: State, route: Route, now: int)
    ensures var t := Step(s, Begin(route, now));
            && |t.requests| == |s.requests| + 1
            && var q := Last(t.requests);
               && (q.pc.WaitBefore? <==> route != LoginRoute && route != RefreshRoute && s.keys.expiresAt.Some?
                                         && now < s.keys.expiresAt.value < now + 5 * 60 * 1000)
               && (q.pc.WaitBefore? ==> q.sent == [])
               && (!q.pc.WaitBefore? ==> q.pc == Sending && |q.sent| == 1)
  {
  }

  // ----- what becomes of a request

  predicate Ended(pc: Pc) {
    pc.Returned? || pc == Unauthorized || pc == Broken
  }

  /** How a request can end in a turn. */
  ghost predicate EndsBy(s: State, e: Event, r: nat, pc: Pc) {
    r < |s.requests| &&
    var q := s.requests[r];
    match pc
    case Returned(status) =>
      e == Answer(r, status)
      && ((q.pc == Sending && (status != 401 || q.route == LoginRoute)) || (q.pc == Resending && status != 401))
    case Unauthorized =>
      || (e == Answer(r, 401) && q.pc == Resending)
      || (e == Resume(r) && q.pc.WaitRetry? && q.pc.task < |s.refreshes|
          && s.refreshes[q.pc.task].phase == Settled(false))
    case Broken => e == NetworkError(r) && (q.pc == Sending || q.pc == Resending)
    case _ => false
  }

  /** A request ends in a turn exactly if one of these happens to it, and an ended one stays as it is. */
  lemma EndsIff(s: State, e: Event, r: nat, pc: Pc)
    requires r < |s.requests| && Ended(pc)
    ensures r < |Step(s, e).requests|
    ensures Step(s, e).requests[r].pc == pc <==> s.requests[r].pc == pc || EndsBy(s, e, r, pc)
  {
  }

  lemma NeverBeginsEnded(s: State, e: Event)
    ensures |s.requests| <= |Step(s, e).requests| <= |s.requests| + 1
    ensures |Step(s, e).requests| == |s.requests| + 1 ==> !Ended(Last(Step(s, e).requests).pc)
  {
  }

  /** Over every run: every ended request ended by an answer, an error or a refused refresh of its own. */
  lemma {:induction false} EndedBy(keys: Keys, events: seq<Event>, r: nat) returns (i: nat)
    requires r < |Run(Start(keys), events).requests| && Ended(Run(Start(keys), events).requests[r].pc)
    ensures i < |events| && EndsBy(Run(Start(keys), events[..i]), events[i], r, Run(Start(keys), events).requests[r].pc)
    decreases |events|
  {
    hide Step, EndsBy;
    var before, pc := Init(events), Run(Start(keys), events).requests[r].pc;
    var s := Run(Start(keys), before);
    NeverBeginsEnded(s, Last(events));
    EndsIff(s, Last(events), r, pc);
    if s.requests[r].pc == pc {
      i := EndedBy(keys, before, r);
      assert events[..i] == before[..i];
    } else {
      i := |events| - 1;
    }
  }

  /** A first 401 outside the login makes a request wait for a refresh, and nothing else does after a call. */
  lemma WaitsToRetryIff(s: State, e: Event, r: nat)
    requires r < |s.requests| && !s.requests[r].pc.WaitRetry?
    ensures r < |Step(s, e).requests|
    ensures Step(s, e).requests[r].pc.WaitRetry?
       <==> e == Answer(r, 401) && s.requests[r].pc == Sending && s.requests[r].route != LoginRoute
  {
  }
}
