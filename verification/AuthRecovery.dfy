/**
 * Recovery from expired credentials (apps/dashboard/src/lib/auth-recovery.ts): one refresh for
 * concurrent 401 answers, one safe read retry, one login when the refresh cannot recover.
 *
 * The interceptor is a machine whose steps are the points at which its code runs without
 * interruption: an answer arrives, the stored refresh settles, a waiting request resumes, a
 * queued callback runs. Steps of any number of requests interleave freely. The calls of
 * auth.refresh and auth.login are queued callbacks, run first come first served.
 */
module AuthRecovery {
  import opened Common

  /** A request waits on the refresh with this number; a request that is done stays Done. */
  datatype Phase = InFlight | Waiting(refresh: nat) | Done

  datatype Request = Request(read: bool, attempted: bool, aborted: bool, phase: Phase)

  datatype Job = CallRefresh(refresh: nat) | CallLogin

  /** What an observer sees, in order. */
  datatype Event =
    | Sent(request: nat)
    | Answered401(request: nat)
    | Unconfigured401
    | RefreshCreated(refresh: nat)
    | RefreshCalled(refresh: nat)
    | RefreshSettled(refresh: nat, token: Option<string>)
    | LoginStarted
    | LoginCalled
    | AbortSignalled(request: nat)
    | Resent(request: nat, bearer: string)

  datatype State = State(
    refresh: Option<nat>, created: nat, results: map<nat, Option<string>>,
    loginStarted: bool, jobs: seq<Job>, requests: map<nat, Request>, log: seq<Event>)

  const INITIAL := State(None, 0, map[], false, [], map[], [])

  datatype Action =
    | Send(request: nat, read: bool)
    | Abort(request: nat)
    | Finish(request: nat)
    | Unauthorized(request: nat)
    | UnauthorizedWithoutConfig
    | RunJob
    | Settle(token: Option<string>)
    | Resume(request: nat)

  /** A refresh that yields nothing, fails, or yields an empty token cannot recover. */
  predicate Usable(token: Option<string>) {
    token.Some? && token.value != ""
  }

  function Log(s: State, e: Event): State {
    s.(log := s.log + [e])
  }

  function LoginOnce(s: State): State {
    if s.loginStarted then s else Log(s.(loginStarted := true, jobs := s.jobs + [CallLogin]), LoginStarted)
  }

  function WithPhase(s: State, r: nat, phase: Phase): State
    requires r in s.requests
  {
    s.(requests := s.requests[r := s.requests[r].(phase := phase)])
  }

  predicate Enabled(s: State, a: Action) {
    match a
    case Send(r, _) => r !in s.requests
    case Abort(r) => r in s.requests
    case Finish(r) => r in s.requests && s.requests[r].phase == InFlight
    case Unauthorized(r) => r in s.requests && s.requests[r].phase == InFlight
    case UnauthorizedWithoutConfig => true
    case RunJob => s.jobs != []
    case Settle(_) => s.refresh.Some? && CallRefresh(s.refresh.value) !in s.jobs
    case Resume(r) => r in s.requests && s.requests[r].phase.Waiting? && s.requests[r].phase.refresh in s.results
  }

  /** The stored refresh, created when there is none. */
  function EnsureRefresh(s: State): State {
    if s.refresh.Some? then s
    else
      Log(s.(refresh := Some(s.created), created := s.created + 1, jobs := s.jobs + [CallRefresh(s.created)]),
          RefreshCreated(s.created))
  }

  function OnUnauthorized(s: State, r: nat): State
    requires r in s.requests
  {
    var t := Log(s, Answered401(r));
    if t.requests[r].attempted || t.loginStarted then WithPhase(LoginOnce(t), r, Done)
    else
      var u := EnsureRefresh(t);
      u.(requests := u.requests[r := u.requests[r].(attempted := true, phase := Waiting(u.refresh.value))])
  }

  function OnResume(s: State, r: nat): State
    requires r in s.requests && s.requests[r].phase.Waiting? && s.requests[r].phase.refresh in s.results
  {
    var q := s.requests[r];
    var token := s.results[q.phase.refresh];
    if !Usable(token) then WithPhase(LoginOnce(s), r, Done)
    else if q.aborted || !q.read then WithPhase(s, r, Done)
    else Log(WithPhase(s, r, InFlight), Resent(r, token.value))
  }

  function OnJob(s: State): State
    requires s.jobs != []
  {
    Log(s.(jobs := s.jobs[1..]), if s.jobs[0].CallLogin? then LoginCalled else RefreshCalled(s.jobs[0].refresh))
  }

  function OnSettle(s: State, token: Option<string>): State
    requires s.refresh.Some?
  {
    Log(s.(refresh := None, results := s.results[s.refresh.value := token]), RefreshSettled(s.refresh.value, token))
  }

  function Step(s: State, a: Action): State
    requires Enabled(s, a)
  {
    match a
    case Send(r, read) => Log(s.(requests := s.requests[r := Request(read, false, false, InFlight)]), Sent(r))
    case Abort(r) => Log(s.(requests := s.requests[r := s.requests[r].(aborted := true)]), AbortSignalled(r))
    case Finish(r) => WithPhase(s, r, Done)
    case Unauthorized(r) => OnUnauthorized(s, r)
    case UnauthorizedWithoutConfig => LoginOnce(Log(s, Unconfigured401))
    case RunJob => OnJob(s)
    case Settle(token) => OnSettle(s, token)
    case Resume(r) => OnResume(s, r)
  }

  /** A run: any enabled step after any other. */
  ghost predicate Run(states: seq<State>, actions: seq<Action>) {
    && |states| == |actions| + 1 && states[0] == INITIAL
    && forall i :: 0 <= i < |actions| ==> Enabled(states[i], actions[i]) && states[i + 1] == Step(states[i], actions[i])
  }

  // ----- What every run guarantees --------------------------------------------

  function Sends(log: seq<Event>, r: nat): nat {
    if log == [] then 0
    else
      var e := log[|log| - 1];
      Sends(log[..|log| - 1], r) + if e == Sent(r) || (e.Resent? && e.request == r) then 1 else 0
  }

  ghost predicate Earlier(log: seq<Event>, e: Event, i: nat) {
    exists j :: 0 <= j < i <= |log| && log[j] == e
  }

  /** The refreshes created and not yet settled. */
  ghost predicate Pending(log: seq<Event>, g: nat) {
    RefreshCreated(g) in log && forall t :: RefreshSettled(g, t) !in log
  }

  ghost predicate SingleFlight(log: seq<Event>) {
    forall g: nat, h: nat :: Pending(log, g) && Pending(log, h) ==> g == h
  }

  ghost predicate LoginAtMostOnce(log: seq<Event>) {
    && (forall i, j :: 0 <= i < j < |log| && log[i] == LoginStarted ==> log[j] != LoginStarted)
    && forall i, j :: 0 <= i < j < |log| && log[i] == LoginCalled ==> log[j] != LoginCalled
  }

  /** Neither is a refresh created once login has started nor auth.refresh called once auth.login has been. */
  ghost predicate NoRefreshAfterLogin(log: seq<Event>) {
    && (forall i, j :: 0 <= i < j < |log| && log[i] == LoginStarted ==> !log[j].RefreshCreated?)
    && forall i, j :: 0 <= i < j < |log| && log[i] == LoginCalled ==> !log[j].RefreshCalled?
  }

  /** A re-sent request was refused, then a refresh settled with the token it now carries, and no abort came before. */
  ghost predicate Justified(log: seq<Event>, i: nat)
    requires i < |log| && log[i].Resent?
  {
    && log[i].bearer != ""
    && !Earlier(log, AbortSignalled(log[i].request), i)
    && exists j, k, g: nat ::
      0 <= j < k < i && log[j] == Answered401(log[i].request) && log[k] == RefreshSettled(g, Some(log[i].bearer))
  }

  ghost predicate WasResent(log: seq<Event>, r: nat) {
    exists bearer :: Resent(r, bearer) in log
  }

  /**
   * The login answers a 401 that carries no request, a 401 of a request that had been re-sent, or a
   * refresh that settled without a usable token after a request was refused.
   */
  ghost predicate LoginJustified(log: seq<Event>, i: nat)
    requires i < |log|
  {
    || (i > 0 && log[i - 1] == Unconfigured401)
    || (i > 0 && log[i - 1].Answered401? && WasResent(log[..i - 1], log[i - 1].request))
    || exists j, k, r, g, token ::
      0 <= j < k < i && log[j] == Answered401(r) && log[k] == RefreshSettled(g, token) && !Usable(token)
  }

  ghost predicate LoginsJustified(log: seq<Event>) {
    forall i :: 0 <= i < |log| && log[i] == LoginStarted ==> LoginJustified(log, i)
  }

  /**
   * Every refresh that was created and every login that was started is queued until it is called, and
   * is called once; a refresh settles only after its call.
   */
  ghost predicate CallsInOrder(s: State) {
    && (forall g: nat :: RefreshCreated(g) in s.log <==> CallRefresh(g) in s.jobs || RefreshCalled(g) in s.log)
    && (forall g: nat :: !(CallRefresh(g) in s.jobs && RefreshCalled(g) in s.log))
    && (forall g: nat, t :: RefreshSettled(g, t) in s.log ==> RefreshCalled(g) in s.log)
    && (LoginStarted in s.log <==> CallLogin in s.jobs || LoginCalled in s.log)
    && Distinct(s.jobs)
    && forall g: nat, i, j :: 0 <= i < j < |s.log| && s.log[i] == RefreshCalled(g) ==> s.log[j] != RefreshCalled(g)
  }

  ghost predicate Safe(s: State) {
    && CallsInOrder(s) && SingleFlight(s.log) && LoginAtMostOnce(s.log) && NoRefreshAfterLogin(s.log)
    && LoginsJustified(s.log) && (forall r: nat :: Sends(s.log, r) <= 2)
    && (forall i :: 0 <= i < |s.log| && s.log[i].Resent? ==>
          s.log[i].request in s.requests && s.requests[s.log[i].request].read && Justified(s.log, i))
  }

  // ----- Invariants -----------------------------------------------------------

  /** Exactly the stored refresh is pending. */
  ghost predicate RefreshInv(s: State) {
    && (forall g: nat :: RefreshCreated(g) in s.log <==> g < s.created)
    && (forall g: nat, t :: RefreshSettled(g, t) in s.log ==> g in s.results)
    && (forall g: nat :: g in s.results ==> RefreshSettled(g, s.results[g]) in s.log)
    && (forall g: nat :: g in s.results <==> g < s.created && s.refresh != Some(g))
    && (s.refresh.Some? ==> s.refresh.value < s.created)
  }

  /** The login call, if any, is the last queued callback, and nothing is queued once it has run. */
  ghost predicate LoginInv(s: State) {
    && LoginAtMostOnce(s.log) && NoRefreshAfterLogin(s.log)
    && (LoginStarted in s.log <==> s.loginStarted)
    && (CallLogin in s.jobs || LoginCalled in s.log ==> s.loginStarted)
    && (LoginCalled in s.log ==> s.jobs == [])
    && (forall i :: 0 <= i < |s.jobs| - 1 ==> s.jobs[i] != CallLogin)
  }

  ghost predicate WaitsAfter401(log: seq<Event>, r: nat, g: nat) {
    exists j :: 0 <= j < |log| && log[j] == Answered401(r) && SettlesAfter(log, g, j)
  }

  ghost predicate SettlesAfter(log: seq<Event>, g: nat, j: nat) {
    forall k, t :: 0 <= k < |log| && log[k] == RefreshSettled(g, t) ==> j < k
  }

  ghost predicate RequestInv(s: State, r: nat)
    requires r in s.requests
  {
    var q := s.requests[r];
    && Sends(s.log, r) <= 2 && (!q.attempted || q.phase.Waiting? ==> Sends(s.log, r) == 1)
    && (q.aborted <==> AbortSignalled(r) in s.log)
    && (q.attempted && q.phase.InFlight? ==> WasResent(s.log, r))
    && (q.phase.Waiting? ==> q.attempted && q.phase.refresh < s.created && WaitsAfter401(s.log, r, q.phase.refresh))
  }

  ghost predicate KnownInv(s: State) {
    forall r: nat :: r in s.requests ==> RequestInv(s, r)
  }

  ghost predicate UnknownInv(s: State) {
    forall r: nat :: r !in s.requests ==> Sends(s.log, r) == 0 && AbortSignalled(r) !in s.log
  }

  ghost predicate ResentInv(s: State) {
    forall i :: 0 <= i < |s.log| && s.log[i].Resent? ==>
      s.log[i].request in s.requests && s.requests[s.log[i].request].read && Justified(s.log, i)
  }

  ghost predicate RequestsInv(s: State) {
    KnownInv(s) && UnknownInv(s) && ResentInv(s)
  }

  ghost predicate Inv(s: State) {
    RefreshInv(s) && LoginInv(s) && RequestsInv(s) && LoginsJustified(s.log) && CallsInOrder(s)
  }

  lemma InvIsSafe(s: State)
    requires Inv(s)
    ensures Safe(s)
  {
    forall g: nat | Pending(s.log, g) ensures s.refresh == Some(g) {
      assert g !in s.results;
    }
    forall r: nat ensures Sends(s.log, r) <= 2 {
      if r in s.requests { assert RequestInv(s, r); }
    }
  }

  // ----- Preservation: the refresh --------------------------------------------

  lemma LogMembers(s: State, e: Event)
    ensures forall x :: x in Log(s, e).log <==> x in s.log || x == e
  {}

  lemma RefreshLog(s: State, e: Event)
    requires RefreshInv(s) && !e.RefreshCreated? && !e.RefreshSettled?
    ensures RefreshInv(Log(s, e))
  {
    LogMembers(s, e);
  }

  lemma RefreshLogin(s: State)
    requires RefreshInv(s)
    ensures RefreshInv(LoginOnce(s))
  {
    RefreshLog(s, LoginStarted);
  }

  lemma RefreshEnsure(s: State)
    requires RefreshInv(s)
    ensures RefreshInv(EnsureRefresh(s))
  {
    LogMembers(s, RefreshCreated(s.created));
  }

  lemma RefreshSettle(s: State, token: Option<string>)
    requires RefreshInv(s) && s.refresh.Some?
    ensures RefreshInv(OnSettle(s, token))
  {
    LogMembers(s, RefreshSettled(s.refresh.value, token));
  }

  lemma RefreshSame(s: State, t: State)
    requires RefreshInv(s) && t.log == s.log
      && t.created == s.created && t.results == s.results && t.refresh == s.refresh
    ensures RefreshInv(t)
  {}

  lemma RefreshStep(s: State, a: Action)
    requires RefreshInv(s) && Enabled(s, a)
    ensures RefreshInv(Step(s, a))
  {
    hide RefreshInv;
    match a
    case Send(r, _) => RefreshLog(s, Sent(r)); RefreshSame(Log(s, Sent(r)), Step(s, a));
    case Abort(r) => RefreshLog(s, AbortSignalled(r)); RefreshSame(Log(s, AbortSignalled(r)), Step(s, a));
    case Finish(_) => RefreshSame(s, Step(s, a));
    case UnauthorizedWithoutConfig => RefreshLog(s, Unconfigured401); RefreshLogin(Log(s, Unconfigured401));
    case RunJob =>
      var e := if s.jobs[0].CallLogin? then LoginCalled else RefreshCalled(s.jobs[0].refresh);
      RefreshLog(s, e);
      RefreshSame(Log(s, e), Step(s, a));
    case Settle(token) => RefreshSettle(s, token);
    case Unauthorized(r) =>
      var t := Log(s, Answered401(r));
      RefreshLog(s, Answered401(r));
      RefreshLogin(t);
      RefreshEnsure(t);
      RefreshSame(if t.requests[r].attempted || t.loginStarted then LoginOnce(t) else EnsureRefresh(t), Step(s, a));
    case Resume(r) =>
      var token := s.results[s.requests[r].phase.refresh];
      RefreshLogin(s);
      if Usable(token) {
        RefreshLog(s, Resent(r, token.value));
        var dropped := s.requests[r].aborted || !s.requests[r].read;
        RefreshSame(if dropped then s else Log(s, Resent(r, token.value)), Step(s, a));
      } else {
        RefreshSame(LoginOnce(s), Step(s, a));
      }
  }

  // ----- Preservation: the login ----------------------------------------------

  lemma LoginLog(s: State, e: Event)
    requires LoginInv(s) && !e.LoginStarted? && !e.LoginCalled? && !e.RefreshCreated? && !e.RefreshCalled?
    ensures LoginInv(Log(s, e))
  {
    LogMembers(s, e);
  }

  lemma LoginLogin(s: State)
    requires LoginInv(s)
    ensures LoginInv(LoginOnce(s))
  {
    LogMembers(s, LoginStarted);
  }

  lemma LoginEnsure(s: State)
    requires LoginInv(s) && !s.loginStarted
    ensures LoginInv(EnsureRefresh(s))
  {
    LogMembers(s, RefreshCreated(s.created));
  }

  lemma LoginJob(s: State)
    requires LoginInv(s) && s.jobs != []
    ensures LoginInv(OnJob(s))
  {
    var e := if s.jobs[0].CallLogin? then LoginCalled else RefreshCalled(s.jobs[0].refresh);
    LogMembers(s, e);
    assert s.jobs == [s.jobs[0]] + s.jobs[1..];
  }

  lemma LoginStep(s: State, a: Action)
    requires LoginInv(s) && Enabled(s, a)
    ensures LoginInv(Step(s, a))
  {
    match a
    case Send(r, _) => LoginLog(s, Sent(r));
    case Abort(r) => LoginLog(s, AbortSignalled(r));
    case Finish(_) =>
    case UnauthorizedWithoutConfig => LoginLog(s, Unconfigured401); LoginLogin(Log(s, Unconfigured401));
    case RunJob => LoginJob(s);
    case Settle(token) => LoginLog(s, RefreshSettled(s.refresh.value, token));
    case Unauthorized(r) =>
      var t := Log(s, Answered401(r));
      LoginLog(s, Answered401(r));
      if t.requests[r].attempted || t.loginStarted { LoginLogin(t); } else { LoginEnsure(t); }
    case Resume(r) =>
      var token := s.results[s.requests[r].phase.refresh];
      if !Usable(token) { LoginLogin(s); }
      else if !s.requests[r].aborted && s.requests[r].read { LoginLog(s, Resent(r, token.value)); }
  }

  // ----- Preservation: the requests -------------------------------------------

  predicate IsSend(e: Event, r: nat) {
    e == Sent(r) || (e.Resent? && e.request == r)
  }

  lemma SendsSnoc(log: seq<Event>, e: Event, r: nat)
    ensures Sends(log + [e], r) == Sends(log, r) + if IsSend(e, r) then 1 else 0
  {
    assert (log + [e])[..|log|] == log;
  }

  lemma JustifiedSnoc(log: seq<Event>, e: Event, i: nat)
    requires i < |log| && log[i].Resent? && Justified(log, i)
    ensures Justified(log + [e], i)
  {
    var after := log + [e];
    var j, k, g: nat :| 0 <= j < k < i
      && log[j] == Answered401(log[i].request) && log[k] == RefreshSettled(g, Some(log[i].bearer));
    assert after[j] == Answered401(after[i].request) && after[k] == RefreshSettled(g, Some(after[i].bearer));
    assert forall n :: 0 <= n < i ==> after[n] == log[n];
  }

  lemma WaitsSnoc(log: seq<Event>, e: Event, r: nat, g: nat)
    requires WaitsAfter401(log, r, g)
    ensures WaitsAfter401(log + [e], r, g)
  {
    var j :| 0 <= j < |log| && log[j] == Answered401(r) && SettlesAfter(log, g, j);
    var after := log + [e];
    assert after[j] == Answered401(r) && SettlesAfter(after, g, j);
  }

  /** Logging an event that is neither a sending nor an abort of the request keeps what is known about it. */
  lemma RequestLog(s: State, e: Event, r: nat)
    requires r in s.requests && RequestInv(s, r) && !IsSend(e, r) && e != AbortSignalled(r)
    ensures RequestInv(Log(s, e), r)
  {
    SendsSnoc(s.log, e, r);
    LogMembers(s, e);
    if s.requests[r].phase.Waiting? {
      WaitsSnoc(s.log, e, r, s.requests[r].phase.refresh);
    }
  }

  /** What is known about one request only depends on it, the log and the number of refreshes created. */
  lemma RequestSame(s: State, t: State, r: nat)
    requires r in s.requests && r in t.requests && t.requests[r] == s.requests[r]
      && t.log == s.log && t.created >= s.created
    requires RequestInv(s, r)
    ensures RequestInv(t, r)
  {}

  ghost predicate KeepsRequests(s: State, t: State) {
    forall r :: r in s.requests ==> r in t.requests && t.requests[r].read == s.requests[r].read
  }

  lemma ResentLog(s: State, t: State, e: Event)
    requires ResentInv(s) && KeepsRequests(s, t) && t.log == s.log + [e]
    requires e.Resent? ==> e.request in t.requests && t.requests[e.request].read && Justified(t.log, |s.log|)
    ensures ResentInv(t)
  {
    forall i | 0 <= i < |t.log| && t.log[i].Resent?
      ensures t.log[i].request in t.requests && t.requests[t.log[i].request].read && Justified(t.log, i)
    {
      if i < |s.log| {
        JustifiedSnoc(s.log, e, i);
      }
    }
  }

  lemma ResentSame(s: State, t: State)
    requires ResentInv(s) && KeepsRequests(s, t) && t.log == s.log
    ensures ResentInv(t)
  {}

  /** A request that has not been sent stays unsent and unaborted. */
  lemma UnknownLog(s: State, t: State, e: Event)
    requires UnknownInv(s) && t.log == s.log + [e] && t.requests.Keys >= s.requests.Keys
    requires (e.Sent? || e.Resent? || e.AbortSignalled?) ==> e.request in t.requests
    ensures UnknownInv(t)
  {
    LogMembers(s, e);
    forall r: nat | r !in t.requests ensures Sends(t.log, r) == 0 && AbortSignalled(r) !in t.log {
      SendsSnoc(s.log, e, r);
      assert Log(s, e).log == t.log;
    }
  }

  /** One more event about request r leaves what is known about every other request. */
  lemma KnownLog(s: State, t: State, e: Event, r: nat)
    requires KnownInv(s) && t.log == s.log + [e] && t.created >= s.created
    requires (e.Sent? || e.Resent? || e.AbortSignalled?) ==> e.request == r
    requires forall q: nat :: q in t.requests && q != r ==> q in s.requests && t.requests[q] == s.requests[q]
    requires r in t.requests ==> RequestInv(t, r)
    ensures KnownInv(t)
  {
    forall q: nat | q in t.requests && q != r ensures RequestInv(t, q) {
      assert RequestInv(s, q);
      RequestLog(s, e, q);
      RequestSame(Log(s, e), t, q);
    }
  }

  /** Logging an event of no concern to the requests. */
  lemma RequestsLog(s: State, t: State, e: Event)
    requires RequestsInv(s) && !e.Sent? && !e.Resent? && !e.AbortSignalled?
    requires t.requests == s.requests && t.log == s.log + [e] && t.created >= s.created
    ensures RequestsInv(t)
  {
    hide ResentInv, UnknownInv, RequestInv;
    ResentLog(s, t, e);
    UnknownLog(s, t, e);
    forall r: nat | r in t.requests ensures RequestInv(t, r) {
      RequestLog(s, e, r);
      RequestSame(Log(s, e), t, r);
    }
  }

  lemma RequestsLogin(s: State)
    requires RequestsInv(s)
    ensures RequestsInv(LoginOnce(s))
  {
    hide RequestsInv;
    if !s.loginStarted {
      RequestsLog(s, LoginOnce(s), LoginStarted);
    }
  }

  lemma RequestsEnsure(s: State)
    requires RequestsInv(s)
    ensures RequestsInv(EnsureRefresh(s))
  {
    hide RequestsInv;
    if s.refresh.None? {
      RequestsLog(s, EnsureRefresh(s), RefreshCreated(s.created));
    }
  }

  /** Changing one request, without a new event. */
  lemma RequestsUpdate(s: State, t: State, r: nat)
    requires RequestsInv(s) && r in s.requests && r in t.requests && RequestInv(t, r)
    requires t.requests == s.requests[r := t.requests[r]] && t.requests[r].read == s.requests[r].read
    requires t.log == s.log && t.created == s.created
    ensures RequestsInv(t)
  {
    hide ResentInv, RequestInv;
    ResentSame(s, t);
    forall q: nat | q in t.requests ensures RequestInv(t, q) {
      if q != r { RequestSame(s, t, q); }
    }
  }

  /** Being done is compatible with everything known, except that a waiting request stops waiting. */
  lemma RequestsDone(s: State, r: nat)
    requires RequestsInv(s) && r in s.requests
    ensures RequestsInv(WithPhase(s, r, Done))
  {
    assert RequestInv(s, r);
    RequestsUpdate(s, WithPhase(s, r, Done), r);
  }

  lemma RequestsSend(s: State, r: nat, read: bool)
    requires RequestsInv(s) && r !in s.requests
    ensures RequestsInv(Step(s, Send(r, read)))
  {
    hide ResentInv, KnownInv;
    var e := Sent(r);
    var t := Step(s, Send(r, read));
    ResentLog(s, t, e);
    UnknownLog(s, t, e);
    SendsSnoc(s.log, e, r);
    LogMembers(s, e);
    assert t.log == Log(s, e).log;
    KnownLog(s, t, e, r);
  }

  lemma RequestsAbort(s: State, r: nat)
    requires RequestsInv(s) && r in s.requests
    ensures RequestsInv(Step(s, Abort(r)))
  {
    hide ResentInv, UnknownInv, WaitsAfter401;
    var e := AbortSignalled(r);
    var t := Step(s, Abort(r));
    ResentLog(s, t, e);
    UnknownLog(s, t, e);
    SendsSnoc(s.log, e, r);
    assert RequestInv(s, r);
    if s.requests[r].phase.Waiting? {
      WaitsSnoc(s.log, e, r, s.requests[r].phase.refresh);
    }
    KnownLog(s, t, e, r);
  }

  /** A refused request starts to wait: no settling of that refresh precedes the refusal. */
  lemma RequestsUnauthorized(s: State, r: nat)
    requires RefreshInv(s) && RequestsInv(s) && r in s.requests && s.requests[r].phase == InFlight
    ensures RequestsInv(OnUnauthorized(s, r))
  {
    hide RefreshInv, ResentInv, UnknownInv, WaitsAfter401;
    var e := Answered401(r);
    var t := Log(s, e);
    RequestsLog(s, t, e);
    if s.requests[r].attempted || s.loginStarted {
      RequestsLogin(t);
      RequestsDone(LoginOnce(t), r);
    } else {
      RequestsEnsure(t);
      var u := EnsureRefresh(t);
      RefusedWaits(s, r);
      assert RequestInv(s, r) && RequestInv(u, r);
      UntriedSentOnce(s, r);
      RequestsUpdate(u, OnUnauthorized(s, r), r);
    }
  }

  lemma UntriedSentOnce(s: State, r: nat)
    requires r in s.requests && RequestInv(s, r) && !s.requests[r].attempted
    ensures Sends(EnsureRefresh(Log(s, Answered401(r))).log, r) == 1
  {
    var t := Log(s, Answered401(r));
    SendsSnoc(s.log, Answered401(r), r);
    SendsSnoc(t.log, RefreshCreated(t.created), r);
  }

  lemma RefusedWaits(s: State, r: nat)
    requires RefreshInv(s)
    ensures var u := EnsureRefresh(Log(s, Answered401(r)));
      u.refresh.Some? && u.refresh.value < u.created && WaitsAfter401(u.log, r, u.refresh.value)
  {
    var t := Log(s, Answered401(r));
    RefreshLog(s, Answered401(r));
    RefreshEnsure(t);
    var u := EnsureRefresh(t);
    var g := u.refresh.value;
    assert u.log[|s.log|] == Answered401(r);
    assert g !in u.results;
    assert forall k, x :: 0 <= k < |u.log| && u.log[k] == RefreshSettled(g, x) ==> u.log[k] in u.log;
    assert SettlesAfter(u.log, g, |s.log|);
  }

  /** A waiting request that can resume was refused before its refresh settled. */
  lemma SettledAfterRefusal(s: State, r: nat) returns (j: nat, k: nat)
    requires RefreshInv(s) && KnownInv(s) && Enabled(s, Resume(r))
    ensures var g := s.requests[r].phase.refresh;
      j < k < |s.log| && s.log[j] == Answered401(r) && s.log[k] == RefreshSettled(g, s.results[g])
  {
    var g := s.requests[r].phase.refresh;
    assert RequestInv(s, r);
    j :| 0 <= j < |s.log| && s.log[j] == Answered401(r) && SettlesAfter(s.log, g, j);
    assert RefreshSettled(g, s.results[g]) in s.log;
    k :| 0 <= k < |s.log| && s.log[k] == RefreshSettled(g, s.results[g]);
  }

  lemma ResendIsJustified(s: State, r: nat)
    requires RefreshInv(s) && KnownInv(s) && Enabled(s, Resume(r))
    requires Usable(s.results[s.requests[r].phase.refresh]) && !s.requests[r].aborted
    ensures var token := s.results[s.requests[r].phase.refresh].value;
      Justified(s.log + [Resent(r, token)], |s.log|)
  {
    var j, k := SettledAfterRefusal(s, r);
    var token := s.results[s.requests[r].phase.refresh].value;
    var after := s.log + [Resent(r, token)];
    assert RequestInv(s, r);
    assert after[j] == Answered401(r) && after[k] == s.log[k];
    assert forall n :: 0 <= n < |s.log| ==> after[n] == s.log[n];
  }

  lemma RequestsResend(s: State, r: nat)
    requires RefreshInv(s) && RequestsInv(s) && Enabled(s, Resume(r))
    requires Usable(s.results[s.requests[r].phase.refresh]) && !s.requests[r].aborted && s.requests[r].read
    ensures RequestsInv(OnResume(s, r))
  {
    hide RefreshInv, ResentInv, UnknownInv, Justified, WaitsAfter401;
    var e := Resent(r, s.results[s.requests[r].phase.refresh].value);
    var t := OnResume(s, r);
    assert t.log == s.log + [e] && t.created == s.created;
    ResendIsJustified(s, r);
    ResentLog(s, t, e);
    UnknownLog(s, t, e);
    assert RequestInv(s, r);
    SendsSnoc(s.log, e, r);
    LogMembers(s, e);
    assert t.log == Log(s, e).log;
    KnownLog(s, t, e, r);
  }

  lemma RequestsStep(s: State, a: Action)
    requires RefreshInv(s) && RequestsInv(s) && Enabled(s, a)
    ensures RequestsInv(Step(s, a))
  {
    hide RefreshInv, RequestsInv;
    match a
    case Send(r, read) => RequestsSend(s, r, read);
    case Abort(r) => RequestsAbort(s, r);
    case Finish(r) => RequestsDone(s, r);
    case UnauthorizedWithoutConfig =>
      RequestsLog(s, Log(s, Unconfigured401), Unconfigured401);
      RequestsLogin(Log(s, Unconfigured401));
    case RunJob =>
      RequestsLog(s, Step(s, a), if s.jobs[0].CallLogin? then LoginCalled else RefreshCalled(s.jobs[0].refresh));
    case Settle(token) => RequestsLog(s, Step(s, a), RefreshSettled(s.refresh.value, token));
    case Unauthorized(r) => RequestsUnauthorized(s, r);
    case Resume(r) =>
      if !Usable(s.results[s.requests[r].phase.refresh]) {
        RequestsLogin(s);
        RequestsDone(LoginOnce(s), r);
      } else if s.requests[r].aborted || !s.requests[r].read {
        RequestsDone(s, r);
      } else {
        RequestsResend(s, r);
      }
  }

  // ----- Preservation: why a login starts -------------------------------------

  lemma LoginJustifiedSnoc(log: seq<Event>, e: Event, i: nat)
    requires i < |log| && LoginJustified(log, i)
    ensures LoginJustified(log + [e], i)
  {
    var after := log + [e];
    if j, k, r, g, token :|
      0 <= j < k < i && log[j] == Answered401(r) && log[k] == RefreshSettled(g, token) && !Usable(token)
    {
      assert after[j] == Answered401(r) && after[k] == RefreshSettled(g, token);
    } else {
      assert after[i - 1] == log[i - 1] && after[..i - 1] == log[..i - 1];
    }
  }

  lemma ReasonLog(log: seq<Event>, e: Event)
    requires LoginsJustified(log) && (e == LoginStarted ==> LoginJustified(log + [e], |log|))
    ensures LoginsJustified(log + [e])
  {
    hide LoginJustified;
    var after := log + [e];
    forall i | 0 <= i < |after| && after[i] == LoginStarted ensures LoginJustified(after, i) {
      if i < |log| {
        LoginJustifiedSnoc(log, e, i);
      }
    }
  }

  /** A login started right after this event has its reason. */
  ghost predicate Reason(log: seq<Event>, e: Event) {
    e == Unconfigured401 || (e.Answered401? && WasResent(log, e.request))
  }

  lemma ReasonLogin(log: seq<Event>, e: Event)
    requires LoginsJustified(log) && !e.LoginStarted? && Reason(log, e)
    ensures LoginsJustified(log + [e] + [LoginStarted])
  {
    ReasonLog(log, e);
    var after := log + [e] + [LoginStarted];
    assert after[|log|] == e && after[..|log|] == log;
    ReasonLog(log + [e], LoginStarted);
  }

  lemma ReasonResume(s: State, r: nat)
    requires RefreshInv(s) && KnownInv(s) && LoginsJustified(s.log) && Enabled(s, Resume(r))
    requires !Usable(s.results[s.requests[r].phase.refresh])
    ensures LoginsJustified(s.log + [LoginStarted])
  {
    hide LoginsJustified, RefreshInv, KnownInv;
    var j, k := SettledAfterRefusal(s, r);
    var after := s.log + [LoginStarted];
    assert after[j] == s.log[j] && after[k] == s.log[k];
    ReasonLog(s.log, LoginStarted);
  }

  lemma ReasonStep(s: State, a: Action)
    requires RefreshInv(s) && KnownInv(s) && LoginsJustified(s.log) && Enabled(s, a)
    ensures LoginsJustified(Step(s, a).log)
  {
    hide RefreshInv, LoginsJustified, WasResent;
    match a
    case Send(r, _) => ReasonLog(s.log, Sent(r));
    case Abort(r) => ReasonLog(s.log, AbortSignalled(r));
    case Finish(_) =>
    case UnauthorizedWithoutConfig =>
      ReasonLog(s.log, Unconfigured401);
      ReasonLogin(s.log, Unconfigured401);
    case RunJob => ReasonLog(s.log, if s.jobs[0].CallLogin? then LoginCalled else RefreshCalled(s.jobs[0].refresh));
    case Settle(token) => ReasonLog(s.log, RefreshSettled(s.refresh.value, token));
    case Unauthorized(r) =>
      var e := Answered401(r);
      ReasonLog(s.log, e);
      ReasonLog(s.log + [e], RefreshCreated(s.created));
      assert RequestInv(s, r);
      if s.requests[r].attempted {
        ReasonLogin(s.log, e);
      }
    case Resume(r) =>
      var token := s.results[s.requests[r].phase.refresh];
      if Usable(token) {
        ReasonLog(s.log, Resent(r, token.value));
      } else {
        hide KnownInv;
        ReasonResume(s, r);
      }
  }

  // ----- Preservation: the queued calls ---------------------------------------

  lemma CallsLog(s: State, t: State, e: Event)
    requires CallsInOrder(s) && t.jobs == s.jobs && t.log == s.log + [e]
    requires !e.RefreshCreated? && !e.RefreshCalled? && !e.LoginStarted? && !e.LoginCalled?
    requires e.RefreshSettled? ==> RefreshCalled(e.refresh) in s.log
    ensures CallsInOrder(t)
  {
    LogMembers(s, e);
    assert t.log == Log(s, e).log;
  }

  lemma CallsLogin(s: State)
    requires CallsInOrder(s) && LoginInv(s)
    ensures CallsInOrder(LoginOnce(s))
  {
    LogMembers(s, LoginStarted);
  }

  lemma CallsEnsure(s: State)
    requires CallsInOrder(s) && RefreshInv(s)
    ensures CallsInOrder(EnsureRefresh(s))
  {
    LogMembers(s, RefreshCreated(s.created));
    assert RefreshCreated(s.created) !in s.log;
  }

  lemma CallsJob(s: State)
    requires CallsInOrder(s) && s.jobs != []
    ensures CallsInOrder(OnJob(s))
  {
    var e := if s.jobs[0].CallLogin? then LoginCalled else RefreshCalled(s.jobs[0].refresh);
    LogMembers(s, e);
    RestOfJobs(s.jobs);
    hide Distinct;
    CalledOnce(s, e);
  }

  /** A call that is still queued has not been made before. */
  lemma CalledOnce(s: State, e: Event)
    requires CallsInOrder(s) && s.jobs != []
    requires e == if s.jobs[0].CallLogin? then LoginCalled else RefreshCalled(s.jobs[0].refresh)
    ensures
      var log := s.log + [e];
      forall g: nat, i, j :: 0 <= i < j < |log| && log[i] == RefreshCalled(g) ==> log[j] != RefreshCalled(g)
  {
    var log := s.log + [e];
    assert s.jobs[0] in s.jobs;
    forall g: nat, i, j | 0 <= i < j < |log| && log[i] == RefreshCalled(g) ensures log[j] != RefreshCalled(g) {
      assert log[i] in s.log;
    }
  }

  lemma RestOfJobs(jobs: seq<Job>)
    requires jobs != [] && Distinct(jobs)
    ensures Distinct(jobs[1..]) && jobs[0] !in jobs[1..]
    ensures forall x :: x in jobs <==> x in jobs[1..] || x == jobs[0]
  {
    assert jobs == [jobs[0]] + jobs[1..];
  }

  lemma CallsStep(s: State, a: Action)
    requires RefreshInv(s) && LoginInv(s) && CallsInOrder(s) && Enabled(s, a)
    ensures CallsInOrder(Step(s, a))
  {
    hide CallsInOrder, RefreshInv, LoginInv;
    match a
    case Send(r, _) => CallsLog(s, Step(s, a), Sent(r));
    case Abort(r) => CallsLog(s, Step(s, a), AbortSignalled(r));
    case Finish(_) => CallsSame(s, Step(s, a));
    case UnauthorizedWithoutConfig =>
      CallsLog(s, Log(s, Unconfigured401), Unconfigured401);
      LoginLog(s, Unconfigured401);
      CallsLogin(Log(s, Unconfigured401));
    case RunJob => CallsJob(s);
    case Settle(token) =>
      SettledIsCalled(s);
      CallsLog(s, Step(s, a), RefreshSettled(s.refresh.value, token));
    case Unauthorized(r) =>
      var t := Log(s, Answered401(r));
      CallsLog(s, t, Answered401(r));
      LoginLog(s, Answered401(r));
      RefreshLog(s, Answered401(r));
      CallsLogin(t);
      CallsEnsure(t);
      CallsSame(if t.requests[r].attempted || t.loginStarted then LoginOnce(t) else EnsureRefresh(t), Step(s, a));
    case Resume(r) =>
      var token := s.results[s.requests[r].phase.refresh];
      CallsLogin(s);
      CallsSame(LoginOnce(s), WithPhase(LoginOnce(s), r, Done));
      CallsSame(s, WithPhase(s, r, Done));
      if Usable(token) {
        CallsSame(s, WithPhase(s, r, InFlight));
        var e := Resent(r, token.value);
        CallsLog(WithPhase(s, r, InFlight), Log(WithPhase(s, r, InFlight), e), e);
      }
  }

  lemma CallsSame(s: State, t: State)
    requires CallsInOrder(s) && t.jobs == s.jobs && t.log == s.log
    ensures CallsInOrder(t)
  {}

  lemma SettledIsCalled(s: State)
    requires RefreshInv(s) && CallsInOrder(s) && s.refresh.Some? && CallRefresh(s.refresh.value) !in s.jobs
    ensures RefreshCalled(s.refresh.value) in s.log
  {}

  /** Every step of the protocol keeps the invariant. */
  lemma StepKeepsInv(s: State, a: Action)
    requires Inv(s) && Enabled(s, a)
    ensures Inv(Step(s, a))
  {
    ReasonStep(s, a);
    CallsStep(s, a);
    hide RefreshInv, LoginInv, RequestsInv, LoginsJustified, CallsInOrder;
    RefreshStep(s, a);
    LoginStep(s, a);
    RequestsStep(s, a);
  }

  /**
   * In every interleaving, over any number of requests: at most one refresh is pending, login
   * starts and is called at most once and not without a reason, no refresh is created or called
   * after that, each request is sent at most twice, and only a read is re-sent, after a refusal, with the token of a
   * refresh that settled later, and not once aborted.
   */
  lemma {:induction false} EveryRunIsSafe(states: seq<State>, actions: seq<Action>)
    requires Run(states, actions)
    ensures Inv(states[|actions|]) && Safe(states[|actions|])
  {
    hide Inv, Safe;
    var n := |actions|;
    if n == 0 {
      InitialInv();
    } else {
      assert Run(states[..n], actions[..n - 1]);
      EveryRunIsSafe(states[..n], actions[..n - 1]);
      assert states[..n][n - 1] == states[n - 1];
      StepKeepsInv(states[n - 1], actions[n - 1]);
    }
    InvIsSafe(states[n]);
  }

  // ----- What every run achieves ----------------------------------------------

  /** What the settling of a request's refresh brings it. */
  ghost predicate Resumed(s: State, t: State, r: nat, token: Option<string>)
    requires r in s.requests && r in t.requests
  {
    var q := s.requests[r];
    && (Usable(token) && q.read && !q.aborted ==>
        t.requests[r].phase == InFlight && t.log == s.log + [Resent(r, token.value)] && t.jobs == s.jobs)
    && (Usable(token) && (!q.read || q.aborted) ==>
        t.requests[r].phase == Done && t.log == s.log && t.jobs == s.jobs)
    && (!Usable(token) ==>
        t.requests[r].phase == Done && LoginStarted in t.log
        && t.log == if LoginStarted in s.log then s.log else s.log + [LoginStarted])
    && t.requests == s.requests[r := t.requests[r]] && t.refresh == s.refresh
  }

  /** What a 401 does: the first one before any login waits on the pending refresh, any other starts the login. */
  ghost predicate Refused(s: State, t: State, r: nat)
    requires r in s.requests && r in t.requests
  {
    && (!s.requests[r].attempted && LoginStarted !in s.log ==>
        && t.refresh.Some? && t.requests[r].phase == Waiting(t.refresh.value) && t.requests[r].attempted
        && Pending(t.log, t.refresh.value) && (s.refresh.Some? ==> t.refresh == s.refresh)
        && t.log == s.log + [Answered401(r)] + if s.refresh.Some? then [] else [RefreshCreated(t.refresh.value)])
    && (s.requests[r].attempted || LoginStarted in s.log ==>
        && t.requests[r].phase == Done && t.refresh == s.refresh && LoginStarted in t.log
        && t.log == s.log + [Answered401(r)] + if LoginStarted in s.log then [] else [LoginStarted])
    && t.requests == s.requests[r := t.requests[r]]
  }

  lemma ResumeExactly(s: State, r: nat)
    requires Inv(s) && Enabled(s, Resume(r))
    ensures Resumed(s, Step(s, Resume(r)), r, s.results[s.requests[r].phase.refresh])
  {
    StartedIsLogged(s);
    hide Inv, Resumed;
    ResumeOutcome(s, r);
  }

  lemma ResumeOutcome(s: State, r: nat)
    requires LoginStarted in s.log <==> s.loginStarted
    requires r in s.requests && s.requests[r].phase.Waiting? && s.requests[r].phase.refresh in s.results
    ensures r in OnResume(s, r).requests
    ensures Resumed(s, OnResume(s, r), r, s.results[s.requests[r].phase.refresh])
  {
    var t := OnResume(s, r);
    assert t.requests == s.requests[r := t.requests[r]];
  }

  lemma StartedIsLogged(s: State)
    requires Inv(s)
    ensures LoginStarted in s.log <==> s.loginStarted
  {}

  lemma RefusalExactly(s: State, r: nat)
    requires Inv(s) && Enabled(s, Unauthorized(r))
    ensures Refused(s, Step(s, Unauthorized(r)), r)
  {
    StartedIsLogged(s);
    RefreshStep(s, Unauthorized(r));
    hide Inv, Refused, RefreshInv;
    if s.requests[r].attempted || s.loginStarted {
      RefusedAgain(s, r);
    } else {
      RefusedFirst(s, r);
    }
  }

  lemma RefusedAgain(s: State, r: nat)
    requires r in s.requests && (LoginStarted in s.log <==> s.loginStarted)
    requires s.requests[r].attempted || s.loginStarted
    ensures r in OnUnauthorized(s, r).requests && Refused(s, OnUnauthorized(s, r), r)
  {
    var t := OnUnauthorized(s, r);
    LogMembers(s, Answered401(r));
    LogMembers(Log(s, Answered401(r)), LoginStarted);
    assert t.requests == s.requests[r := t.requests[r]];
    hide Pending;
  }

  lemma RefusedFirst(s: State, r: nat)
    requires r in s.requests && (LoginStarted in s.log <==> s.loginStarted)
    requires !s.requests[r].attempted && !s.loginStarted && RefreshInv(OnUnauthorized(s, r))
    ensures r in OnUnauthorized(s, r).requests && Refused(s, OnUnauthorized(s, r), r)
  {
    var t := OnUnauthorized(s, r);
    PendingIsStored(t);
    hide Pending, RefreshInv;
    assert t.requests == s.requests[r := t.requests[r]];
  }

  lemma PendingIsStored(s: State)
    requires RefreshInv(s) && s.refresh.Some?
    ensures Pending(s.log, s.refresh.value)
  {}

  lemma RunReaches(states: seq<State>, actions: seq<Action>, i: nat)
    requires Run(states, actions) && i <= |actions|
    ensures Inv(states[i])
  {
    assert Run(states[..i + 1], actions[..i]);
    EveryRunIsSafe(states[..i + 1], actions[..i]);
  }

  /**
   * In every run: a request that resumes had been refused, and its refresh settled after that. With a
   * usable token an unaborted read is sent again with that token and in flight again, anything else is
   * done; without one the login has started.
   */
  lemma EveryResumeRecovers(states: seq<State>, actions: seq<Action>, i: nat, r: nat)
    requires Run(states, actions) && i < |actions| && actions[i] == Resume(r)
    ensures Inv(states[i]) && Enabled(states[i], Resume(r)) && r in states[i + 1].requests
    ensures exists j: nat, k: nat, g, token ::
      && j < k < |states[i].log| && states[i].log[j] == Answered401(r)
      && states[i].log[k] == RefreshSettled(g, token) && Resumed(states[i], states[i + 1], r, token)
  {
    var s := states[i];
    RunReaches(states, actions, i);
    ResumeExactly(s, r);
    var j, k := SettledAfterRefusal(s, r);
  }

  /** In every run the first 401 of a request before any login leaves it waiting on the pending refresh. */
  lemma EveryRefusalWaits(states: seq<State>, actions: seq<Action>, i: nat, r: nat)
    requires Run(states, actions) && i < |actions| && actions[i] == Unauthorized(r)
    ensures r in states[i].requests && r in states[i + 1].requests && Refused(states[i], states[i + 1], r)
  {
    RunReaches(states, actions, i);
    RefusalExactly(states[i], r);
  }

  /** No request is stuck: while one waits, its refresh is queued, pending or settled, and the next step is enabled. */
  lemma NoRequestIsStuck(s: State, r: nat, token: Option<string>)
    requires Inv(s) && r in s.requests && s.requests[r].phase.Waiting?
    ensures
      var g := s.requests[r].phase.refresh;
      || Enabled(s, Resume(r))
      || (s.refresh == Some(g) && Enabled(s, Settle(token)))
      || (s.refresh == Some(g) && CallRefresh(g) in s.jobs && Enabled(s, RunJob))
  {
    hide RefreshInv, LoginInv, LoginsJustified, CallsInOrder, UnknownInv, ResentInv, WaitsAfter401, WasResent, Sends;
    assert RequestInv(s, r);
    StoredOrSettled(s, s.requests[r].phase.refresh);
  }

  lemma StoredOrSettled(s: State, g: nat)
    requires RefreshInv(s) && g < s.created
    ensures g in s.results || s.refresh == Some(g)
  {}

  /** Every other step is on record: the log grows by exactly what happened, and only the request named changes. */
  lemma OthersAreRecorded(s: State, a: Action)
    requires Inv(s) && Enabled(s, a) && !a.Unauthorized? && !a.Resume?
    ensures
      var t := Step(s, a);
      match a
      case Send(r, read) =>
        t == s.(log := s.log + [Sent(r)], requests := t.requests) && r in t.requests
        && t.requests == s.requests[r := t.requests[r]] && t.requests[r] == Request(read, false, false, InFlight)
      case Abort(r) =>
        t == s.(log := s.log + [AbortSignalled(r)], requests := t.requests) && r in t.requests
        && t.requests == s.requests[r := s.requests[r].(aborted := true)]
      case Finish(r) => t == s.(requests := s.requests[r := s.requests[r].(phase := Done)])
      case UnauthorizedWithoutConfig =>
        t.requests == s.requests && t.refresh == s.refresh && LoginStarted in t.log
        && t.log == s.log + [Unconfigured401] + if LoginStarted in s.log then [] else [LoginStarted]
      case RunJob =>
        && t == s.(jobs := s.jobs[1..], log := t.log)
        && t.log == s.log + [match s.jobs[0] case CallLogin => LoginCalled case CallRefresh(g) => RefreshCalled(g)]
      case Settle(token) =>
        && t == s.(log := s.log + [RefreshSettled(s.refresh.value, token)], refresh := None, results := t.results)
        && t.results == s.results[s.refresh.value := token]
      case _ => true
  {
    StartedIsLogged(s);
    hide RefreshInv, LoginInv, RequestsInv, LoginsJustified, CallsInOrder, Inv;
    LogMembers(Log(s, Unconfigured401), LoginStarted);
  }

  lemma InitialInv()
    ensures Inv(INITIAL)
  {}

  // ----- The interceptor ------------------------------------------------------

  /** The shared variables of the interceptor and the per-request flags it sets. */
  class Interceptor {
    var refresh: Option<nat>
    var loginStarted: bool
    var created: nat
    var results: map<nat, Option<string>>
    var jobs: seq<Job>
    var requests: map<nat, Request>
    ghost var log: seq<Event>

    ghost function Snapshot(): State
      reads this
    {
      State(refresh, created, results, loginStarted, jobs, requests, log)
    }

    constructor ()
      ensures Snapshot() == INITIAL
    {
      refresh, loginStarted, created, results, jobs, requests, log := None, false, 0, map[], [], map[], [];
    }

    method StartLoginOnce()
      modifies this
      ensures Snapshot() == LoginOnce(old(Snapshot()))
    {
      if loginStarted {
        return;
      }
      loginStarted := true;
      jobs := jobs + [CallLogin];
      log := log + [LoginStarted];
    }

    /** The error handler up to its await, for a 401 answer that carries its request configuration. */
    method OnAnswer401(r: nat)
      requires Inv(Snapshot()) && Enabled(Snapshot(), Unauthorized(r))
      modifies this
      ensures Snapshot() == Step(old(Snapshot()), Unauthorized(r)) && Inv(Snapshot())
      ensures r in requests && Refused(old(Snapshot()), Snapshot(), r)
    {
      hide Inv;
      StepKeepsInv(Snapshot(), Unauthorized(r));
      RefusalExactly(Snapshot(), r);
      log := log + [Answered401(r)];
      var config := requests[r];
      if config.attempted || loginStarted {
        StartLoginOnce();
        requests := requests[r := config.(phase := Done)];
        return;
      }
      if refresh.None? {
        refresh := Some(created);
        jobs := jobs + [CallRefresh(created)];
        log := log + [RefreshCreated(created)];
        created := created + 1;
      }
      requests := requests[r := config.(attempted := true, phase := Waiting(refresh.value))];
    }

    /** The error handler for a 401 answer without a request configuration. */
    method OnUnconfigured401()
      requires Inv(Snapshot())
      modifies this
      ensures Snapshot() == Step(old(Snapshot()), UnauthorizedWithoutConfig) && Inv(Snapshot())
    {
      hide Inv;
      StepKeepsInv(Snapshot(), UnauthorizedWithoutConfig);
      log := log + [Unconfigured401];
      StartLoginOnce();
    }

    /** The settling of the stored refresh, which first clears the shared variable. */
    method OnRefreshSettled(token: Option<string>)
      requires Inv(Snapshot()) && Enabled(Snapshot(), Settle(token))
      modifies this
      ensures Snapshot() == Step(old(Snapshot()), Settle(token)) && Inv(Snapshot())
    {
      hide Inv;
      StepKeepsInv(Snapshot(), Settle(token));
      var g := refresh.value;
      refresh := None;
      results := results[g := token];
      log := log + [RefreshSettled(g, token)];
    }

    /** The error handler after its await; it returns the token to re-send the request with, if any. */
    method OnResumed(r: nat) returns (resend: Option<string>)
      requires Inv(Snapshot()) && Enabled(Snapshot(), Resume(r))
      modifies this
      ensures Snapshot() == Step(old(Snapshot()), Resume(r)) && Inv(Snapshot())
      ensures r in requests && Resumed(old(Snapshot()), Snapshot(), r, old(results[requests[r].phase.refresh]))
      ensures resend.Some? <==> requests[r].phase == InFlight
      ensures
        var token, q := old(results[requests[r].phase.refresh]), old(requests[r]);
        resend == if Usable(token) && q.read && !q.aborted then token else None
    {
      hide Inv;
      StepKeepsInv(Snapshot(), Resume(r));
      ResumeExactly(Snapshot(), r);
      var config := requests[r];
      var token := results[config.phase.refresh];
      resend := None;
      if !Usable(token) {
        StartLoginOnce();
        requests := requests[r := config.(phase := Done)];
        return;
      }
      if config.aborted || !config.read {
        requests := requests[r := config.(phase := Done)];
        return;
      }
      requests := requests[r := config.(phase := InFlight)];
      log := log + [Resent(r, token.value)];
      resend := token;
    }
  }
}
