/**
 * Interleavings. The client is single-threaded, but every request is a
 * suspension point, so timer ticks, responses, logout clicks and login
 * submissions interleave. A `Sys` holds the session state, the cycles of
 * `updateUserTotals` still waiting for a response, and the number of
 * `/users/{id}` requests in flight; `Step` applies one event.
 */
module Flight {
  import opened Wrappers
  import opened Credentials
  import opened Api
  import opened Forms
  import opened Session

  /** A response for a waiting cycle: a connection status or a totals body. */
  datatype Answer = ConnectedAnswer(connection: Reply<Connection>) | TotalsAnswer(totals: Reply<Totals>)

  /** The answer is of the kind the cycle is waiting for. */
  predicate Fits(c: Cycle, a: Answer)
  {
    (c.AwaitConnected? && a.ConnectedAnswer?) || ((c.AwaitDayTotals? || c.AwaitWeekTotals?) && a.TotalsAnswer?)
  }

  /** Resume a waiting cycle with its response. */
  function Resume(s: State, c: Cycle, a: Answer): (State, Cycle)
    requires Fits(c, a)
  {
    match c
    case AwaitConnected(_) => ReceiveConnected(s, a.connection)
    case AwaitDayTotals(_, zone) => ReceiveDayTotals(s, zone, a.totals)
    case AwaitWeekTotals(_, _, day) => ReceiveWeekTotals(s, day, a.totals)
  }

  datatype Event =
    | Tick                                    // the interval fires, or another call of updateUserTotals
    | Deliver(task: nat, answer: Answer)      // the response awaited by cycle number `task` arrives
    | LogOutClick                             // the logout button
    | LoginSubmitted(form: FormData)          // the login form is submitted
    | UserFetched(reply: Reply<UserRecord>)   // the response to a pending `/users/{id}` request

  datatype Sys = Sys(state: State, tasks: seq<Cycle>, fetches: nat)

  /** Keep a cycle in the task list only while it waits. */
  function Spawn(tasks: seq<Cycle>, c: Cycle): seq<Cycle>
  {
    if c.Awaiting() then tasks + [c] else tasks
  }

  /** Cycle i moves on to c, or leaves the list when it has finished. */
  function Advance(tasks: seq<Cycle>, i: nat, c: Cycle): seq<Cycle>
    requires i < |tasks|
  {
    if c.Awaiting() then tasks[i := c] else tasks[..i] + tasks[i + 1..]
  }

  /** An event can happen: a response only for something in flight, and of the right kind. */
  predicate Enabled(sys: Sys, e: Event)
  {
    match e
    case Deliver(i, a) => i < |sys.tasks| && Fits(sys.tasks[i], a)
    case UserFetched(_) => sys.fetches > 0
    case _ => true
  }

  function Step(sys: Sys, e: Event): Sys
    requires Enabled(sys, e)
  {
    match e
    case Tick =>
      var (t, c) := BeginCycle(sys.state);
      Sys(t, Spawn(sys.tasks, c), sys.fetches)
    case Deliver(i, a) =>
      var (t, c) := Resume(sys.state, sys.tasks[i], a);
      Sys(t, Advance(sys.tasks, i, c), sys.fetches)
    case LogOutClick =>
      Sys(LogOut(sys.state), sys.tasks, sys.fetches)
    case LoginSubmitted(form) =>
      var (t, requested) := HandleLoginFormSubmit(sys.state, form);
      Sys(t, sys.tasks, if requested.Some? then sys.fetches + 1 else sys.fetches)
    case UserFetched(reply) =>
      var (t, c) := ReceiveUser(sys.state, reply);
      Sys(t, Spawn(sys.tasks, c), sys.fetches - 1)
  }

  /** Run a sequence of events; one that cannot happen in the current state does not occur. */
  function Run(sys: Sys, es: seq<Event>): Sys
    decreases |es|
  {
    if es == [] then sys
    else Run(if Enabled(sys, es[0]) then Step(sys, es[0]) else sys, es[1..])
  }

  /** Running starts with the first event. */
  lemma RunFirst(sys: Sys, e: Event, rest: seq<Event>)
    ensures Run(sys, [e] + rest) == Run(if Enabled(sys, e) then Step(sys, e) else sys, rest)
  {
    assert ([e] + rest)[1..] == rest;
  }

  /**
   * Single flight: at most one cycle waits for a response, and while one does
   * the guard `fetchingUpdate` is set.
   */
  ghost predicate SingleFlight(sys: Sys)
  {
    && |sys.tasks| <= 1
    && (|sys.tasks| == 1 ==> sys.tasks[0].Awaiting() && sys.state.fetchingUpdate)
  }

  /**
   * The events other than a logout click, a login with an empty field, and a
   * failed or unusable user fetch. A tick, a response or a successful user
   * fetch can still log out (when its call finds no key), but only from within
   * the one cycle that is starting or running.
   */
  predicate NoLogOut(e: Event)
  {
    match e
    case Tick => true
    case Deliver(_, _) => true
    case LogOutClick => false
    case LoginSubmitted(form) => FormField(form, "key") != "" && FormField(form, "user") != ""
    case UserFetched(reply) => reply.Response? && reply.error == "" && reply.data.id != ""
  }

  lemma {:induction false} StepKeepsSingleFlight(sys: Sys, e: Event)
    requires SingleFlight(sys) && Enabled(sys, e) && NoLogOut(e)
    ensures SingleFlight(Step(sys, e))
  {
    match e
    case Tick =>
    case Deliver(i, a) =>
      match sys.tasks[i] {
        case AwaitConnected(_) =>
          GuardReleased(sys.state, "", Totals(0.0, 0.0), a.connection, TransportError);
        case AwaitDayTotals(_, zone) =>
          GuardReleased(sys.state, zone, Totals(0.0, 0.0), TransportError, a.totals);
        case AwaitWeekTotals(_, _, day) =>
          GuardReleased(sys.state, "", day, TransportError, a.totals);
      }
    case LogOutClick =>
    case LoginSubmitted(form) =>
      SubmitStoresThenAttempts(sys.state, form);
    case UserFetched(reply) =>
  }

  /**
   * Between logouts the guard does its job: however ticks and responses
   * interleave, at most one cycle is ever in flight.
   */
  lemma {:induction false} SingleFlightWithoutLogOut(sys: Sys, es: seq<Event>)
    requires SingleFlight(sys)
    requires forall i :: 0 <= i < |es| ==> NoLogOut(es[i])
    ensures SingleFlight(Run(sys, es))
    decreases |es|
  {
    if es != [] {
      if Enabled(sys, es[0]) {
        StepKeepsSingleFlight(sys, es[0]);
      }
      SingleFlightWithoutLogOut(if Enabled(sys, es[0]) then Step(sys, es[0]) else sys, es[1..]);
    }
  }

  /** A logged-in session with credentials k / u and no cycle running. */
  function LoggedInSys(k: string, u: UserRecord): Sys
  {
    Sys(State(map[KeyApiKey := k, KeyUserId := u.id], Some(u), false, Some(1), {1},
              2, View(true, false, None, None)), [], 0)
  }

  /**
   * logOut drops the guard while a cycle is in flight, so a logout followed by
   * a new login starts a second cycle beside the first: two cycles in flight.
   */
  lemma LogOutThenLoginRunsTwoCycles(k: string, u: UserRecord)
    requires k != "" && u.id != ""
    ensures SingleFlight(LoggedInSys(k, u))
    ensures var form := map["key" := Some(k), "user" := Some(u.id)];
      var after := Run(LoggedInSys(k, u), [Tick, LogOutClick, LoginSubmitted(form), UserFetched(Response("", u))]);
      && after.tasks == [AwaitConnected(u.id), AwaitConnected(u.id)]
      && !SingleFlight(after)
  {
    var form := map["key" := Some(k), "user" := Some(u.id)];
    var fetched := UserFetched(Response("", u));
    var s0 := LoggedInSys(k, u);
    assert HasApiKey(s0.state.store);
    var s1 := Step(s0, Tick);
    assert s1.tasks == [AwaitConnected(u.id)];
    var s2 := Step(s1, LogOutClick);
    assert s2.tasks == s1.tasks && !s2.state.fetchingUpdate;
    assert FormField(form, "key") == k && FormField(form, "user") == u.id;
    SubmitStoresThenAttempts(s2.state, form);
    var s3 := Step(s2, LoginSubmitted(form));
    assert s3.fetches == 1 && HasApiKey(s3.state.store) && !s3.state.fetchingUpdate && s3.tasks == s1.tasks;
    var s4 := Step(s3, fetched);
    assert s4.tasks == [AwaitConnected(u.id), AwaitConnected(u.id)];
    RunFirst(s0, Tick, [LogOutClick, LoginSubmitted(form), fetched]);
    RunFirst(s1, LogOutClick, [LoginSubmitted(form), fetched]);
    RunFirst(s2, LoginSubmitted(form), [fetched]);
    RunFirst(s3, fetched, []);
  }

  /**
   * Nothing discards a stale result: a cycle waiting for its week totals when
   * the user logs out still renders them, in the logged-out view.
   */
  lemma StaleTotalsRenderedAfterLogOut(k: string, u: UserRecord, zone: string, day: Totals, week: Totals)
    requires k != "" && u.id != ""
    ensures var start := LoggedInSys(k, u);
      var waiting := Sys(start.state.(fetchingUpdate := true), [AwaitWeekTotals(u.id, zone, day)], 0);
      var after := Run(waiting, [LogOutClick, Deliver(0, TotalsAnswer(Response("", week)))]);
      && !LoggedIn(after.state.user) && !after.state.view.authenticated
      && after.state.view.totals == Some(CardioTotals(day, week))
      && after.tasks == []
  {
    var start := LoggedInSys(k, u);
    var waiting := Sys(start.state.(fetchingUpdate := true), [AwaitWeekTotals(u.id, zone, day)], 0);
    var arrive := Deliver(0, TotalsAnswer(Response("", week)));
    var s1 := Step(waiting, LogOutClick);
    RunFirst(waiting, LogOutClick, [arrive]);
    RunFirst(s1, arrive, []);
  }

  /**
   * One cycle run without interference: the guard is taken and released, the
   * connection status is rendered when its call succeeds, and the totals
   * change only when all three calls succeed, to the two fetched bodies.
   */
  lemma {:induction false} UninterruptedCycle(s: State, c: Reply<Connection>, d: Reply<Totals>, w: Reply<Totals>)
    requires Inv(s) && LoggedIn(s.user) && HasApiKey(s.store) && !s.fetchingUpdate
    ensures var es := [Tick, Deliver(0, ConnectedAnswer(c)), Deliver(0, TotalsAnswer(d)), Deliver(0, TotalsAnswer(w))];
      var after := Run(Sys(s, [], 0), es);
      && after.tasks == [] && !after.state.fetchingUpdate
      && after.state.view.connected == (if Settle(c).Resolved? then Some(c.data.connected) else s.view.connected)
      && after.state.view.totals ==
           (if Settle(c).Resolved? && Settle(d).Resolved? && Settle(w).Resolved?
            then Some(CardioTotals(d.data, w.data)) else s.view.totals)
      && after.state.user == s.user && after.state.store == s.store
  {
    var a1, a2, a3 := Deliver(0, ConnectedAnswer(c)), Deliver(0, TotalsAnswer(d)), Deliver(0, TotalsAnswer(w));
    var id, zone := s.user.value.id, TimeZoneOf(s.user.value);
    var s0 := Sys(s, [], 0);
    var guarded := s.(fetchingUpdate := true);
    var s1 := Sys(guarded, [AwaitConnected(id)], 0);
    assert Step(s0, Tick) == s1;
    RunFirst(s0, Tick, [a1, a2, a3]);
    if Settle(c).Rejected? {
      var s2 := Sys(s, [], 0);
      assert Step(s1, a1) == s2;
      RunFirst(s1, a1, [a2, a3]);
      RunFirst(s2, a2, [a3]);
      RunFirst(s2, a3, []);
    } else {
      var shown := guarded.(view := guarded.view.(connected := Some(c.data.connected)));
      var s2 := Sys(shown, [AwaitDayTotals(id, zone)], 0);
      assert Step(s1, a1) == s2;
      RunFirst(s1, a1, [a2, a3]);
      if Settle(d).Rejected? {
        var s3 := Sys(EndCycle(shown), [], 0);
        assert Step(s2, a2) == s3;
        RunFirst(s2, a2, [a3]);
        RunFirst(s3, a3, []);
      } else {
        var s3 := Sys(shown, [AwaitWeekTotals(id, zone, d.data)], 0);
        assert Step(s2, a2) == s3;
        RunFirst(s2, a2, [a3]);
        RunFirst(s3, a3, []);
      }
    }
  }

  /**
   * A logout while `/users/{id}` is in flight does not stop a successful
   * response from logging the user in with an empty store; the first cycle
   * then finds no key and logs out again, leaving no user and no interval.
   */
  lemma LogOutDuringUserFetch(sys: Sys, u: UserRecord)
    requires sys.fetches > 0 && TimerInv(sys.state) && u.id != ""
    ensures var fetched := UserFetched(Response("", u));
      var after := Run(sys, [LogOutClick, fetched]);
      && after.state.user == None && after.state.store == map[] && after.state.timers == {}
      && after.tasks == sys.tasks && !after.state.fetchingUpdate
  {
    var fetched := UserFetched(Response("", u));
    var s1 := Step(sys, LogOutClick);
    RunFirst(sys, LogOutClick, [fetched]);
    RunFirst(s1, fetched, []);
    LogOutKeepsInv(sys.state);
    ReceiveUserSuccess(s1.state, u);
  }
}
