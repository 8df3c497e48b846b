/**
 * The dashboard's API client: concurrent requests share one silent token refresh. An event is one
 * turn of the event loop, from the resumption of a function to its next `await`.
 */
module SessionRefresh {
  import opened Text

  const FIVE_MINUTES := 300_000

  /** The four session keys in local storage. */
  datatype Keys = Keys(token: Option<string>, user: Option<string>, refreshToken: Option<string>,
      expiresAt: Option<int>)

  const NO_KEYS := Keys(None, None, None, None)

  /** How far a refresh has come: its call is out, its answer is being read, or it is settled. */
  datatype Phase = Calling | Reading | Settled(result: bool)

  /** `token` is the refresh token that was sent, if there was one to send. */
  datatype Refresh = Refresh(token: Option<string>, phase: Phase)

  datatype Route = LoginRoute | RefreshRoute | OtherRoute

  /** Where a request stands; `task` is the refresh it awaits. */
  datatype Pc =
    | WaitBefore(task: nat)
    | Sending
    | WaitRetry(task: nat)
    | Resending
    | Returned(status: int)
    | Unauthorized
    | Broken

  /** `sent` lists the bearer tokens of the calls made; `saw` the refreshes awaited and what each gave. */
  datatype Request = Request(route: Route, pc: Pc, sent: seq<Option<string>>, saw: seq<(nat, bool)>)

  /** `refreshPromise` is the shared slot; refreshes and requests are numbered in order of appearance. */
  datatype State = State(keys: Keys, refreshPromise: Option<nat>, refreshes: seq<Refresh>, requests: seq<Request>)

  datatype Event =
    | Begin(route: Route, now: int)
    | Answer(request: nat, status: int)
    | NetworkError(request: nat)
    | Resume(request: nat)
    | RefreshAnswer(refresh: nat, ok: bool)
    | RefreshError(refresh: nat)
    | RefreshBody(refresh: nat, token: string, refreshToken: string, expiresAt: Option<int>)
    | Storage(keys: Keys)

  /** An absent or empty refresh token is no token. */
  predicate HasRefreshToken(keys: Keys) {
    keys.refreshToken.Some? && keys.refreshToken.value != ""
  }

  /** The token a call is sent with: the stored one, if it is not empty. */
  function Bearer(keys: Keys): Option<string> {
    if keys.token == Some("") then None else keys.token
  }

  predicate ExpiresSoon(keys: Keys, now: int) {
    keys.expiresAt.Some? && 0 < keys.expiresAt.value - now < FIVE_MINUTES
  }

  /**
   * Joins the refresh in the slot or starts one. Without a token the new refresh is settled at once,
   * and it leaves the function before the `finally` that would clear the slot.
   */
  function TrySilentRefresh(s: State): (State, nat) {
    match s.refreshPromise
    case Some(task) => (s, task)
    case None =>
      var task := |s.refreshes|;
      var refresh :=
        if HasRefreshToken(s.keys) then Refresh(s.keys.refreshToken, Calling) else Refresh(None, Settled(false));
      (s.(refreshPromise := Some(task), refreshes := s.refreshes + [refresh]), task)
  }

  /** The end of a refresh: the result, and the slot cleared. */
  function Settle(s: State, task: nat, result: bool): State
    requires task < |s.refreshes|
  {
    s.(refreshPromise := None, refreshes := s.refreshes[task := s.refreshes[task].(phase := Settled(result))])
  }

  function WithPc(s: State, r: nat, pc: Pc): State
    requires r < |s.requests|
  {
    s.(requests := s.requests[r := s.requests[r].(pc := pc)])
  }

  /** Sends the original call, for the first or the second time. */
  function Send(s: State, r: nat, pc: Pc): State
    requires r < |s.requests|
  {
    s.(requests := s.requests[r := s.requests[r].(pc := pc, sent := s.requests[r].sent + [Bearer(s.keys)])])
  }

  /** Gives up: the session keys go, and the request rejects. */
  function Reject(s: State, r: nat): State
    requires r < |s.requests|
  {
    WithPc(s, r, Unauthorized).(keys := NO_KEYS)
  }

  function Began(s: State, route: Route, now: int): State {
    var r := |s.requests|;
    var s1 := s.(requests := s.requests + [Request(route, Sending, [], [])]);
    if route == OtherRoute && ExpiresSoon(s.keys, now) then
      var (s2, task) := TrySilentRefresh(s1);
      WithPc(s2, r, WaitBefore(task))
    else Send(s1, r, Sending)
  }

  function Answered(s: State, r: nat, status: int): State
    requires r < |s.requests|
  {
    var q := s.requests[r];
    if q.pc == Sending then
      if status == 401 && q.route != LoginRoute then
        var (s1, task) := TrySilentRefresh(s);
        WithPc(s1, r, WaitRetry(task))
      else WithPc(s, r, Returned(status))
    else if q.pc == Resending then
      if status == 401 then Reject(s, r) else WithPc(s, r, Returned(status))
    else s
  }

  /** The refresh a request awaits, if it awaits one. */
  function Awaited(pc: Pc): Option<nat> {
    match pc case WaitBefore(task) => Some(task) case WaitRetry(task) => Some(task) case _ => None
  }

  function Resumed(s: State, r: nat): State
    requires r < |s.requests|
  {
    var q := s.requests[r];
    match Awaited(q.pc)
    case None => s
    case Some(task) =>
      if task < |s.refreshes| && s.refreshes[task].phase.Settled? then
        var result := s.refreshes[task].phase.result;
        var s1 := s.(requests := s.requests[r := q.(saw := q.saw + [(task, result)])]);
        if q.pc.WaitBefore? then Send(s1, r, Sending)
        else if result then Send(s1, r, Resending)
        else Reject(s1, r)
      else s
  }

  /** Storing the new tokens; an absent refresh token or expiry keeps the old one. */
  function Stored(keys: Keys, token: string, refreshToken: string, expiresAt: Option<int>): Keys {
    keys.(token := Some(token),
          refreshToken := if refreshToken != "" then Some(refreshToken) else keys.refreshToken,
          expiresAt := if expiresAt.Some? then expiresAt else keys.expiresAt)
  }

  /** One turn; an event that cannot happen leaves the state alone. */
  function Step(s: State, e: Event): State {
    match e
    case Begin(route, now) => Began(s, route, now)
    case Answer(r, status) => if r < |s.requests| then Answered(s, r, status) else s
    case NetworkError(r) =>
      if r < |s.requests| && (s.requests[r].pc == Sending || s.requests[r].pc == Resending)
      then WithPc(s, r, Broken)
      else s
    case Resume(r) => if r < |s.requests| then Resumed(s, r) else s
    case RefreshAnswer(k, ok) =>
      if k < |s.refreshes| && s.refreshes[k].phase == Calling then
        if ok then s.(refreshes := s.refreshes[k := s.refreshes[k].(phase := Reading)]) else Settle(s, k, false)
      else s
    case RefreshError(k) =>
      if k < |s.refreshes| && !s.refreshes[k].phase.Settled? then Settle(s, k, false) else s
    case RefreshBody(k, token, refreshToken, expiresAt) =>
      if k < |s.refreshes| && s.refreshes[k].phase == Reading then
        Settle(s, k, true).(keys := Stored(s.keys, token, refreshToken, expiresAt))
      else s
    case Storage(keys) => s.(keys := keys)
  }

  function Run(s: State, events: seq<Event>): State
    decreases |events|
  {
    if events == [] then s else Step(Run(s, Init(events)), Last(events))
  }

  function Start(keys: Keys): State {
    State(keys, None, [], [])
  }

  // ----- the invariant

  /** A refresh that is not settled is the one in the slot. */
  ghost predicate SlotOk(s: State) {
    && (forall k | 0 <= k < |s.refreshes| && !s.refreshes[k].phase.Settled? ::
          s.refreshPromise == Some(k) && s.refreshes[k].token.Some?)
    && (s.refreshPromise.Some? ==>
          && s.refreshPromise.value < |s.refreshes|
          && (s.refreshes[s.refreshPromise.value].phase.Settled? ==> s.refreshes[s.refreshPromise.value].token == None))
    && (forall k | 0 <= k < |s.refreshes| && s.refreshes[k].token == None ::
          s.refreshPromise == Some(k) && s.refreshes[k].phase == Settled(false))
  }

  /** How many calls a request has made by the time it stands somewhere. */
  predicate SentOk(q: Request) {
    match q.pc
    case WaitBefore(_) => |q.sent| == 0
    case Sending => |q.sent| == 1
    case WaitRetry(_) => |q.sent| == 1
    case Resending => |q.sent| == 2
    case Returned(_) => 1 <= |q.sent| <= 2
    case Unauthorized => 1 <= |q.sent| <= 2
    case Broken => 1 <= |q.sent| <= 2
  }

  predicate RequestOk(refreshes: seq<Refresh>, q: Request) {
    && SentOk(q)
    && (Awaited(q.pc).Some? ==> Awaited(q.pc).value < |refreshes|)
    && forall i | 0 <= i < |q.saw| :: q.saw[i].0 < |refreshes| && refreshes[q.saw[i].0].phase == Settled(q.saw[i].1)
  }

  ghost predicate Inv(s: State) {
    SlotOk(s) && RequestsOk(s)
  }

  /** Refreshes only ever move on: none disappears, and a settled one keeps its result. */
  ghost predicate Grows(old_: seq<Refresh>, new_: seq<Refresh>) {
    |old_| <= |new_| && forall k | 0 <= k < |old_| && old_[k].phase.Settled? :: new_[k] == old_[k]
  }

  lemma RequestStaysOk(x: seq<Refresh>, y: seq<Refresh>, q: Request)
    requires RequestOk(x, q) && Grows(x, y)
    ensures RequestOk(y, q)
  {
  }

  /** What a turn does to the refreshes and the slot. */
  ghost predicate MovesOn(s: State, t: State) {
    Grows(s.refreshes, t.refreshes) && SlotOk(t)
  }

  lemma BeganMovesOn(s: State, route: Route, now: int)
    requires SlotOk(s)
    ensures MovesOn(s, Began(s, route, now))
  {
  }

  lemma AnsweredMovesOn(s: State, r: nat, status: int)
    requires SlotOk(s) && r < |s.requests|
    ensures MovesOn(s, Answered(s, r, status))
  {
  }

  lemma ResumedMovesOn(s: State, r: nat)
    requires SlotOk(s) && r < |s.requests|
    ensures MovesOn(s, Resumed(s, r))
  {
  }

  lemma SettleMovesOn(s: State, k: nat, result: bool, keys: Keys)
    requires SlotOk(s) && k < |s.refreshes| && !s.refreshes[k].phase.Settled?
    ensures MovesOn(s, Settle(s, k, result)) && MovesOn(s, Settle(s, k, result).(keys := keys))
  {
  }

  lemma ReadingMovesOn(s: State, k: nat)
    requires SlotOk(s) && k < |s.refreshes| && s.refreshes[k].phase == Calling
    ensures MovesOn(s, s.(refreshes := s.refreshes[k := s.refreshes[k].(phase := Reading)]))
  {
  }

  lemma StepGrows(s: State, e: Event)
    requires SlotOk(s)
    ensures Grows(s.refreshes, Step(s, e).refreshes) && SlotOk(Step(s, e))
  {
    hide Began, Answered, Resumed, Settle, Stored;
    match e
    case Begin(route, now) => BeganMovesOn(s, route, now);
    case Answer(r, status) => if r < |s.requests| { AnsweredMovesOn(s, r, status); }
    case NetworkError(r) =>
    case Resume(r) => if r < |s.requests| { ResumedMovesOn(s, r); }
    case RefreshAnswer(k, ok) =>
      if k < |s.refreshes| && s.refreshes[k].phase == Calling {
        ReadingMovesOn(s, k);
        SettleMovesOn(s, k, false, s.keys);
      }
    case RefreshError(k) =>
      if k < |s.refreshes| && !s.refreshes[k].phase.Settled? {
        SettleMovesOn(s, k, false, s.keys);
      }
    case RefreshBody(k, token, refreshToken, expiresAt) =>
      if k < |s.refreshes| && s.refreshes[k].phase == Reading {
        SettleMovesOn(s, k, true, Stored(s.keys, token, refreshToken, expiresAt));
      }
    case Storage(keys) =>
  }

  ghost predicate RequestsOk(s: State) {
    forall r | 0 <= r < |s.requests| :: RequestOk(s.refreshes, s.requests[r])
  }

  /** At most one request changes in a turn, the others only see the refreshes move on. */
  lemma OthersStayOk(s: State, t: State, r: nat)
    requires RequestsOk(s) && Grows(s.refreshes, t.refreshes) && |s.requests| <= |t.requests| <= |s.requests| + 1
    requires forall i | 0 <= i < |s.requests| && i != r :: t.requests[i] == s.requests[i]
    requires r < |t.requests| ==> RequestOk(t.refreshes, t.requests[r])
    requires |t.requests| > |s.requests| ==> r == |s.requests|
    ensures RequestsOk(t)
  {
    forall i | 0 <= i < |t.requests|
      ensures RequestOk(t.refreshes, t.requests[i])
    {
      if i != r {
        RequestStaysOk(s.refreshes, t.refreshes, s.requests[i]);
      }
    }
  }

  lemma BeganOk(s: State, route: Route, now: int)
    requires SlotOk(s)
    ensures var t := Began(s, route, now); RequestOk(t.refreshes, Last(t.requests))
  {
  }

  lemma AnsweredOk(s: State, r: nat, status: int)
    requires SlotOk(s) && r < |s.requests| && RequestOk(s.refreshes, s.requests[r])
    ensures var t := Answered(s, r, status); RequestOk(t.refreshes, t.requests[r])
  {
  }

  lemma ResumedOk(s: State, r: nat)
    requires SlotOk(s) && r < |s.requests| && RequestOk(s.refreshes, s.requests[r])
    ensures var t := Resumed(s, r); RequestOk(t.refreshes, t.requests[r])
  {
  }

  lemma TurnInv(s: State, e: Event)
    requires SlotOk(s) && RequestsOk(s) && (e.Begin? || e.Answer? || e.NetworkError? || e.Resume?)
    ensures RequestsOk(Step(s, e))
  {
    var t := Step(s, e);
    var r := if e.Begin? then |s.requests| else e.request;
    StepGrows(s, e);
    if e.Begin? {
      BeganOk(s, e.route, e.now);
    } else if r < |s.requests| {
      assert RequestOk(s.refreshes, s.requests[r]);
      if e.Answer? {
        AnsweredOk(s, r, e.status);
      } else if e.Resume? {
        ResumedOk(s, r);
      }
    }
    hide RequestOk, SlotOk;
    OthersStayOk(s, t, r);
  }

  lemma StepInv(s: State, e: Event)
    requires Inv(s)
    ensures Inv(Step(s, e))
  {
    StepGrows(s, e);
    if e.Begin? || e.Answer? || e.NetworkError? || e.Resume? {
      hide Step;
      TurnInv(s, e);
    } else {
      OthersStayOk(s, Step(s, e), |s.requests|);
    }
  }

  lemma {:induction false} RunInv(keys: Keys, events: seq<Event>)
    ensures Inv(Run(Start(keys), events))
    decreases |events|
  {
    hide Step, Inv;
    if events == [] {
      StartInv(keys);
    } else {
      RunInv(keys, Init(events));
      StepInv(Run(Start(keys), Init(events)), Last(events));
    }
  }

  lemma StartInv(keys: Keys)
    ensures Inv(Start(keys))
  {
  }

  // ----- what the client promises, over all interleavings

  /** At most one refresh is in flight, and it is the one in the slot that others join. */
  lemma OneRefreshInFlight(keys: Keys, events: seq<Event>, j: nat, k: nat)
    ensures var s := Run(Start(keys), events);
            j < |s.refreshes| && k < |s.refreshes| && !s.refreshes[j].phase.Settled? &&
                !s.refreshes[k].phase.Settled? ==>
              j == k && s.refreshPromise == Some(j)
  {
    RunInv(keys, events);
  }

  /** Requests that awaited the same refresh saw the same result, the one it settled with. */
  lemma JoinersSeeOneResult(keys: Keys, events: seq<Event>, p: nat, q: nat, i: nat, j: nat)
    requires var s := Run(Start(keys), events);
             p < |s.requests| && q < |s.requests| && i < |s.requests[p].saw| && j < |s.requests[q].saw|
    ensures var s := Run(Start(keys), events);
            var x, y := s.requests[p].saw[i], s.requests[q].saw[j];
            x.0 == y.0 ==> x.1 == y.1 && x.0 < |s.refreshes| && s.refreshes[x.0].phase == Settled(x.1)
  {
    RunInv(keys, events);
    var s := Run(Start(keys), events);
    assert RequestOk(s.refreshes, s.requests[p]) && RequestOk(s.refreshes, s.requests[q]);
  }

  /** The original call is made at most twice, and a second time only after a refresh that succeeded. */
  lemma AtMostTwoCalls(keys: Keys, events: seq<Event>, r: nat)
    requires r < |Run(Start(keys), events).requests|
    ensures |Run(Start(keys), events).requests[r].sent| <= 2
  {
    RunInv(keys, events);
    var s := Run(Start(keys), events);
    assert RequestOk(s.refreshes, s.requests[r]);
  }

  lemma SecondSend(s: State, e: Event, r: nat)
    requires Inv(s) && r < |Step(s, e).requests| && |Step(s, e).requests[r].sent| == 2
    requires !(r < |s.requests| && |s.requests[r].sent| == 2)
    ensures r < |s.requests| && |s.requests[r].sent| == 1 && AwaitsSuccess(s, r)
  {
    if r < |s.requests| {
      assert RequestOk(s.refreshes, s.requests[r]);
    }
  }

  /** The request got a 401 and awaits a refresh that has succeeded. */
  ghost predicate AwaitsSuccess(s: State, r: nat) {
    r < |s.requests| && s.requests[r].pc.WaitRetry?
    && s.requests[r].pc.task < |s.refreshes| && s.refreshes[s.requests[r].pc.task].phase == Settled(true)
  }

  /** Every second call goes back to a turn in which the request awaited a refresh that had succeeded. */
  lemma {:induction false} SecondCallFollowsRefresh(keys: Keys, events: seq<Event>, r: nat) returns (i: nat)
    requires r < |Run(Start(keys), events).requests| && |Run(Start(keys), events).requests[r].sent| == 2
    ensures i < |events| && AwaitsSuccess(Run(Start(keys), events[..i]), r)
    decreases |events|
  {
    hide Step, Inv, AwaitsSuccess;
    var before := Init(events);
    var s := Run(Start(keys), before);
    if r < |s.requests| && |s.requests[r].sent| == 2 {
      i := SecondCallFollowsRefresh(keys, before, r);
      assert events[..i] == before[..i];
    } else {
      RunInv(keys, before);
      SecondSend(s, Last(events), r);
      i := |events| - 1;
    }
  }

  lemma Rejects(s: State, e: Event, r: nat)
    requires r < |Step(s, e).requests| && Step(s, e).requests[r].pc == Unauthorized
    requires !(r < |s.requests| && s.requests[r].pc == Unauthorized)
    ensures Step(s, e).keys == Keys(None, None, None, None)
  {
  }

  /** A request that is rejected as Unauthorized was so in a turn that removed all four session keys. */
  lemma {:induction false} UnauthorizedRemovesKeys(keys: Keys, events: seq<Event>, r: nat) returns (i: nat)
    requires r < |Run(Start(keys), events).requests| && Run(Start(keys), events).requests[r].pc == Unauthorized
    ensures i < |events|
    ensures var s, t := Run(Start(keys), events[..i]), Run(Start(keys), events[..i + 1]);
            && !(r < |s.requests| && s.requests[r].pc == Unauthorized)
            && r < |t.requests| && t.requests[r].pc == Unauthorized && t.keys == Keys(None, None, None, None)
    decreases |events|
  {
    hide Step;
    var before := Init(events);
    var s := Run(Start(keys), before);
    if r < |s.requests| && s.requests[r].pc == Unauthorized {
      i := UnauthorizedRemovesKeys(keys, before, r);
      assert events[..i] == before[..i] && events[..i + 1] == before[..i + 1];
    } else {
      Rejects(s, Last(events), r);
      i := |events| - 1;
      assert events[..i + 1] == events;
    }
  }

  // ----- the slot that is never cleared

  /** The slot holds a refresh that is already settled. */
  predicate IsStuck(s: State) {
    s.refreshPromise.Some? && s.refreshPromise.value < |s.refreshes| &&
        s.refreshes[s.refreshPromise.value].phase.Settled?
  }

  /** That is so exactly if some refresh was started without a token. */
  lemma StuckIffStartedWithoutToken(keys: Keys, events: seq<Event>)
    ensures var s := Run(Start(keys), events);
            IsStuck(s) <==> exists k :: 0 <= k < |s.refreshes| && s.refreshes[k].token == None
  {
    RunInv(keys, events);
  }

  lemma StuckStep(s: State, e: Event)
    requires Inv(s) && IsStuck(s)
    ensures Step(s, e).refreshPromise == s.refreshPromise && Step(s, e).refreshes == s.refreshes
  {
  }

  lemma {:induction false} StuckForever(s: State, more: seq<Event>)
    requires Inv(s) && IsStuck(s)
    ensures Inv(Run(s, more)) && Run(s, more).refreshPromise == s.refreshPromise &&
        Run(s, more).refreshes == s.refreshes
    decreases |more|
  {
    hide Step, Inv;
    if more != [] {
      StuckForever(s, Init(more));
      StepInv(Run(s, Init(more)), Last(more));
      StuckStep(Run(s, Init(more)), Last(more));
    }
  }

  /** Without a stuck slot some continuation, a login among it, sends another refresh call. */
  lemma NotStuckCanRefresh(s: State) returns (more: seq<Event>)
    requires Inv(s) && !IsStuck(s)
    ensures |Run(s, more).refreshes| == |s.refreshes| + 1 &&
        Last(Run(s, more).refreshes) == Refresh(Some("token"), Calling)
  {
    var free := FreeSlot(s);
    hide Run, Inv, Step;
    var s1 := Run(s, free);
    var login := Storage(Keys(None, None, Some("token"), None));
    var more1 := RunStep(s, s1, free, login);
    var more2 := RunStep(s, Run(s, more1), more1, Begin(RefreshRoute, 0));
    more := RunStep(s, Run(s, more2), more2, Answer(|s1.requests|, 401));
    FreeSlotRefreshes(s1, login);
  }

  lemma FreeSlot(s: State) returns (free: seq<Event>)
    requires Inv(s) && !IsStuck(s)
    ensures Run(s, free).refreshPromise == None && |Run(s, free).refreshes| == |s.refreshes|
  {
    if s.refreshPromise == None {
      free := [];
    } else {
      free := RunStep(s, s, [], RefreshError(s.refreshPromise.value));
    }
  }

  lemma RunStep(s: State, t: State, events: seq<Event>, e: Event) returns (more: seq<Event>)
    requires t == Run(s, events)
    ensures more == events + [e] && Run(s, more) == Step(t, e)
  {
    more := events + [e];
    assert Init(more) == events;
  }

  lemma FreeSlotRefreshes(s: State, login: Event)
    requires s.refreshPromise == None && login.Storage? && HasRefreshToken(login.keys)
    ensures var t := Step(Step(Step(s, login), Begin(RefreshRoute, 0)), Answer(|s.requests|, 401));
            t.refreshes == s.refreshes + [Refresh(login.keys.refreshToken, Calling)]
  {
  }

  /** The client can never refresh again exactly when its slot is stuck, whatever is stored later. */
  lemma NeverRefreshesAgainIffStuck(keys: Keys, events: seq<Event>)
    ensures var s := Run(Start(keys), events);
            IsStuck(s) <==> forall more: seq<Event> :: |Run(s, more).refreshes| == |s.refreshes|
  {
    var s := Run(Start(keys), events);
    RunInv(keys, events);
    hide Inv, Step, IsStuck;
    if IsStuck(s) {
      forall more: seq<Event>
        ensures |Run(s, more).refreshes| == |s.refreshes|
      {
        StuckForever(s, more);
      }
    } else {
      var more := NotStuckCanRefresh(s);
    }
  }

  /** One request without a session, answered by a 401, is enough. */
  lemma StuckExample()
    ensures IsStuck(Run(Start(NO_KEYS), [Begin(OtherRoute, 0), Answer(0, 401)]))
  {
    var begin, answer := Begin(OtherRoute, 0), Answer(0, 401);
    var none := RunStep(Start(NO_KEYS), Start(NO_KEYS), [], begin);
    var more := RunStep(Start(NO_KEYS), Run(Start(NO_KEYS), none), none, answer);
    assert more == [begin, answer];
  }

  // ----- the client itself

  /** The module's variables and the running requests. Each method is one turn. */
  class ApiClient {
    var keys: Keys
    var refreshPromise: Option<nat>
    var refreshes: seq<Refresh>
    var requests: seq<Request>

    function View(): State
      reads this
    {
      State(keys, refreshPromise, refreshes, requests)
    }

    constructor (keys: Keys)
      ensures View() == Start(keys)
    {
      this.keys, refreshPromise, refreshes, requests := keys, None, [], [];
    }

    /** The stored token, where an empty one counts as none. */
    function AuthHeader(): Option<string>
      reads this`keys
    {
      match keys.token
      case Some(token) => if token != "" then Some(token) else None
      case None => None
    }

    method JoinRefresh() returns (task: nat)
      requires refreshPromise.Some? ==> refreshPromise.value < |refreshes|
      modifies this`refreshPromise, this`refreshes
      ensures (View(), task) == TrySilentRefresh(old(View()))
    {
      if refreshPromise.Some? {
        return refreshPromise.value;
      }
      task := |refreshes|;
      if keys.refreshToken == None || keys.refreshToken == Some("") {
        refreshes := refreshes + [Refresh(None, Settled(false))];
      } else {
        refreshes := refreshes + [Refresh(keys.refreshToken, Calling)];
      }
      refreshPromise := Some(task);
    }

    /** A request up to its first call or the refresh before it. */
    method Open(route: Route, now: int)
      requires Inv(View())
      modifies this
      ensures View() == Step(old(View()), Begin(route, now)) && Inv(View())
    {
      StepInv(View(), Begin(route, now));
      var r := |requests|;
      requests := requests + [Request(route, Sending, [], [])];
      if route != LoginRoute && route != RefreshRoute {
        var left := if keys.expiresAt.Some? then keys.expiresAt.value - now else 0;
        var remaining := if left > 0 then left else 0;
        if remaining > 0 && remaining < FIVE_MINUTES {
          var task := JoinRefresh();
          requests := requests[r := requests[r].(pc := WaitBefore(task))];
          return;
        }
      }
      requests := requests[r := requests[r].(sent := requests[r].sent + [AuthHeader()])];
    }

    /** The answer to the first or the second call. */
    method OnAnswer(r: nat, status: int)
      requires Inv(View()) && r < |requests| && (requests[r].pc == Sending || requests[r].pc == Resending)
      modifies this
      ensures View() == Step(old(View()), Answer(r, status)) && Inv(View())
    {
      StepInv(View(), Answer(r, status));
      var q := requests[r];
      if q.pc == Sending && status == 401 && q.route != LoginRoute {
        var task := JoinRefresh();
        requests := requests[r := q.(pc := WaitRetry(task))];
      } else if q.pc == Resending && status == 401 {
        GiveUp(r);
      } else {
        requests := requests[r := q.(pc := Returned(status))];
      }
    }

    /** The awaited refresh has settled. */
    method OnRefreshed(r: nat)
      requires Inv(View()) && r < |requests| && Awaited(requests[r].pc).Some?
      requires refreshes[Awaited(requests[r].pc).value].phase.Settled?
      modifies this
      ensures View() == Step(old(View()), Resume(r)) && Inv(View())
    {
      StepInv(View(), Resume(r));
      var q := requests[r];
      var task := Awaited(q.pc).value;
      var refreshed := refreshes[task].phase.result;
      var saw := q.saw + [(task, refreshed)];
      if q.pc.WaitBefore? {
        requests := requests[r := q.(pc := Sending, sent := q.sent + [AuthHeader()], saw := saw)];
      } else if refreshed {
        requests := requests[r := q.(pc := Resending, sent := q.sent + [AuthHeader()], saw := saw)];
      } else {
        requests := requests[r := q.(saw := saw)];
        GiveUp(r);
      }
    }

    /** Removes the session and rejects. */
    method GiveUp(r: nat)
      requires r < |requests|
      modifies this`keys, this`requests
      ensures View() == Reject(old(View()), r)
    {
      keys := keys.(token := None);
      keys := keys.(user := None);
      keys := keys.(refreshToken := None);
      keys := keys.(expiresAt := None);
      requests := requests[r := requests[r].(pc := Unauthorized)];
    }

    /** The refresh call succeeded and its body was read. */
    method OnTokens(k: nat, token: string, refreshToken: string, expiresAt: Option<int>)
      requires Inv(View()) && k < |refreshes| && refreshes[k].phase == Reading
      modifies this
      ensures View() == Step(old(View()), RefreshBody(k, token, refreshToken, expiresAt)) && Inv(View())
    {
      StepInv(View(), RefreshBody(k, token, refreshToken, expiresAt));
      keys := keys.(token := Some(token));
      if refreshToken != "" {
        keys := keys.(refreshToken := Some(refreshToken));
      }
      if expiresAt.Some? {
        keys := keys.(expiresAt := expiresAt);
      }
      refreshes := refreshes[k := refreshes[k].(phase := Settled(true))];
      refreshPromise := None;
    }

    /** The refresh call failed. */
    method OnRefreshError(k: nat)
      requires Inv(View()) && k < |refreshes| && !refreshes[k].phase.Settled?
      modifies this
      ensures View() == Step(old(View()), RefreshError(k)) && Inv(View())
    {
      StepInv(View(), RefreshError(k));
      refreshes := refreshes[k := refreshes[k].(phase := Settled(false))];
      refreshPromise := None;
    }
  }
}
