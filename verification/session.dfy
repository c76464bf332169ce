/**
 * The session/sync controller of the cardio-logger web client as a state
 * machine over values. Each `await` of the client is a step boundary: a
 * transition runs the synchronous code up to the next request and returns what
 * is then in flight, and the response enters the next transition as a `Reply`.
 * The imperative class `Controller.App` is proved to follow these functions.
 */
module Session {
  import opened Wrappers
  import opened Credentials
  import opened Api
  import opened Forms

  /** The zone used for "now" when the user record names none. */
  const DefaultTimeZone := "UTC"

  /** The record fetched from `/users/{id}`; "" stands for a missing or empty field. */
  datatype UserRecord = UserRecord(id: string, timezone: string)

  /** The body of `/connected/{id}`. */
  datatype Connection = Connection(connected: bool)

  /** One body of `/user-cardio-totals/{id}`, with the numbers as the server sends them. */
  datatype Totals = Totals(points: real, activeSeconds: real)

  /** The day and week totals shown together. */
  datatype CardioTotals = CardioTotals(day: Totals, week: Totals)

  /**
   * What the page shows: the authenticated view or the login view, the
   * logging-in indicator, the connected/disconnected panel and the totals
   * (`None` until first rendered).
   */
  datatype View = View(authenticated: bool, loggingIn: bool, connected: Option<bool>, totals: Option<CardioTotals>)

  /**
   * The client's state: the credential store, the module-level `user`,
   * `fetchingUpdate` and `userUpdateInterval`, the set of intervals the runtime
   * has armed with the next handle it will hand out, and the rendered view.
   */
  datatype State = State(
    store: Store,
    user: Option<UserRecord>,
    fetchingUpdate: bool,
    interval: Option<nat>,
    timers: set<nat>,
    nextHandle: nat,
    view: View)

  /**
   * Where one run of `updateUserTotals` stands: refused by its guard, waiting
   * for one of its three responses (with the locals it carries across the
   * await), or finished by failure or by completion.
   */
  datatype Cycle =
    | NotStarted
    | AwaitConnected(userId: string)
    | AwaitDayTotals(userId: string, zone: string)
    | AwaitWeekTotals(userId: string, zone: string, day: Totals)
    | Failed
    | Completed
  {
    predicate Awaiting()
    {
      AwaitConnected? || AwaitDayTotals? || AwaitWeekTotals?
    }
  }

  /** The state at page load: whatever `localStorage` kept, nothing else. */
  function Initial(persisted: Store): State
  {
    State(persisted, None, false, None, {}, 1, View(false, false, None, None))
  }

  /** loggedIn(): `user && user.id`. */
  predicate LoggedIn(user: Option<UserRecord>)
  {
    user.Some? && user.value.id != ""
  }

  /** `user.timezone || defaultTimeZone`, the zone handed to the clock. */
  function TimeZoneOf(u: UserRecord): (zone: string)
    ensures zone != ""
    ensures u.timezone != "" ==> zone == u.timezone
    ensures u.timezone == "" ==> zone == DefaultTimeZone
  {
    if u.timezone != "" then u.timezone else DefaultTimeZone
  }

  function IntervalSet(interval: Option<nat>): set<nat>
  {
    if interval.Some? then {interval.value} else {}
  }

  /** refreshLoggedInState: hide the logging-in indicator, show the view that matches `loggedIn()`. */
  function Refresh(s: State): (t: State)
    ensures ViewInv(t) && !t.view.loggingIn
    ensures t.view.connected == s.view.connected && t.view.totals == s.view.totals
    ensures t.(view := s.view) == s
  {
    s.(view := s.view.(authenticated := LoggedIn(s.user), loggingIn := false))
  }

  /** logOut: clear the store and the user, stop the interval, drop the guard, re-render. */
  function LogOut(s: State): (t: State)
    ensures t.store == map[] && t.user == None && t.interval == None && !t.fetchingUpdate
    ensures t.timers == s.timers - IntervalSet(s.interval) && t.nextHandle == s.nextHandle
    ensures !t.view.authenticated && !t.view.loggingIn
    ensures t.view.connected == s.view.connected && t.view.totals == s.view.totals
  {
    var cleared := s.(store := map[], user := None);
    var stopped :=
      if cleared.interval.Some?
      then cleared.(timers := cleared.timers - {cleared.interval.value}, interval := None)
      else cleared;
    Refresh(stopped.(fetchingUpdate := false))
  }

  /** The interval part of handleLoggedIn: cancel any previous interval, arm a fresh one. */
  function Arm(s: State): (t: State)
    ensures t.interval == Some(s.nextHandle) && t.nextHandle == s.nextHandle + 1
    ensures t.timers == s.timers - IntervalSet(s.interval) + {s.nextHandle}
    ensures t.(interval := s.interval, timers := s.timers, nextHandle := s.nextHandle) == s
    ensures TimerInv(s) ==> TimerInv(t)
  {
    var cancelled := if s.interval.Some? then s.(timers := s.timers - {s.interval.value}) else s;
    var h := cancelled.nextHandle;
    cancelled.(interval := Some(h), timers := cancelled.timers + {h}, nextHandle := h + 1)
  }

  /** handleLoggedIn: re-render, (re)arm the interval, then start the first cycle. */
  function HandleLoggedIn(s: State): (r: (State, Cycle))
    ensures TimerInv(s) && s.interval.Some? ==> s.interval.value !in r.0.timers
    ensures LoggedIn(s.user) && !s.fetchingUpdate ==> r.1 != NotStarted
    ensures r.1.Awaiting() ==> r.0.interval == Some(s.nextHandle) && r.0.fetchingUpdate && r.0.view.authenticated
  {
    BeginCycle(Arm(Refresh(s)))
  }

  /** The `finally` of updateUserTotals. */
  function EndCycle(s: State): (t: State)
    ensures !t.fetchingUpdate
    ensures t.(fetchingUpdate := s.fetchingUpdate) == s
  {
    s.(fetchingUpdate := false)
  }

  /**
   * updateUserTotals up to its first await: the guard, then `apiCall` for
   * `/connected/{id}`, which without a stored key logs out and throws.
   */
  function BeginCycle(s: State): (r: (State, Cycle))
    ensures r.1.AwaitConnected? <==> !s.fetchingUpdate && LoggedIn(s.user) && HasApiKey(s.store)
    ensures r.1.AwaitConnected? ==> r.1.userId == s.user.value.id
    ensures r.1 == NotStarted || r.1 == Failed || r.1.AwaitConnected?
    ensures r.1 == Failed ==> r.0 == LogOut(s)
  {
    if s.fetchingUpdate || !LoggedIn(s.user) then (s, NotStarted)
    else
      var guarded := s.(fetchingUpdate := true);
      if !HasApiKey(guarded.store) then (EndCycle(LogOut(guarded)), Failed)
      else (guarded, AwaitConnected(guarded.user.value.id))
  }

  /**
   * The connection status arrives: render it, resolve the zone from `user`
   * (which throws when `user` has meanwhile become null), then request the day
   * totals.
   */
  function ReceiveConnected(s: State, reply: Reply<Connection>): (r: (State, Cycle))
    ensures r.1.AwaitDayTotals? <==> Settle(reply).Resolved? && s.user.Some? && HasApiKey(s.store)
    ensures r.1.AwaitDayTotals? ==>
      r.1 == AwaitDayTotals(s.user.value.id, TimeZoneOf(s.user.value)) && r.0.fetchingUpdate == s.fetchingUpdate
    ensures r.1 == Failed || r.1.AwaitDayTotals?
  {
    match Settle(reply)
    case Rejected => (EndCycle(s), Failed)
    case Resolved(body) =>
      var shown := s.(view := s.view.(connected := Some(body.connected)));
      if shown.user.None? then (EndCycle(shown), Failed)
      else if !HasApiKey(shown.store) then (EndCycle(LogOut(shown)), Failed)
      else (shown, AwaitDayTotals(shown.user.value.id, TimeZoneOf(shown.user.value)))
  }

  /** The day totals arrive: keep them and request the week totals for the same "now". */
  function ReceiveDayTotals(s: State, zone: string, reply: Reply<Totals>): (r: (State, Cycle))
    ensures r.1.AwaitWeekTotals? <==> Settle(reply).Resolved? && s.user.Some? && HasApiKey(s.store)
    ensures r.1.AwaitWeekTotals? ==> r.1 == AwaitWeekTotals(s.user.value.id, zone, reply.data) && r.0 == s
    ensures r.1 == Failed || r.1.AwaitWeekTotals?
  {
    match Settle(reply)
    case Rejected => (EndCycle(s), Failed)
    case Resolved(day) =>
      if s.user.None? then (EndCycle(s), Failed)
      else if !HasApiKey(s.store) then (EndCycle(LogOut(s)), Failed)
      else (s, AwaitWeekTotals(s.user.value.id, zone, day))
  }

  /** The week totals arrive: render both totals at once and release the guard. */
  function ReceiveWeekTotals(s: State, day: Totals, reply: Reply<Totals>): (r: (State, Cycle))
    ensures r.1 == Completed <==> Settle(reply).Resolved?
    ensures r.1 == Completed || r.1 == Failed
    ensures !r.0.fetchingUpdate && r.0.user == s.user && r.0.store == s.store && r.0.interval == s.interval
  {
    match Settle(reply)
    case Rejected => (EndCycle(s), Failed)
    case Resolved(week) => (EndCycle(s.(view := s.view.(totals := Some(CardioTotals(day, week))))), Completed)
  }

  /**
   * attemptFetchUser up to its await: without both credentials it logs out;
   * otherwise it shows the logging-in indicator and requests `/users/{id}` for
   * the stored user id, which it returns.
   */
  function AttemptFetchUser(s: State): (r: (State, Option<string>))
    ensures r.1.Some? <==> HasApiKey(s.store) && GetStoredCredentials(s.store).user.Some?
    ensures r.1.Some? ==> r.1 == GetStoredCredentials(s.store).user && r.0.view.loggingIn && r.0.user == s.user
    ensures r.1.None? ==> r.0 == LogOut(s)
  {
    var creds := GetStoredCredentials(s.store);
    if creds.key.None? || creds.user.None? then (LogOut(s), None)
    else (s.(view := s.view.(loggingIn := true)), Some(creds.user.value))
  }

  /**
   * The user record arrives: it is assigned to `user`; a usable one leads to
   * handleLoggedIn, anything else (including a rejected request) to logOut.
   */
  function ReceiveUser(s: State, reply: Reply<UserRecord>): (r: (State, Cycle))
    ensures LoggedIn(r.0.user) ==> Settle(reply).Resolved? && r.0.user == Some(reply.data)
    ensures Settle(reply).Rejected? ==> r == (LogOut(s), NotStarted)
    ensures r.1.Awaiting() ==> r.1 == AwaitConnected(reply.data.id)
  {
    match Settle(reply)
    case Rejected => (LogOut(s), NotStarted)
    case Resolved(fetched) =>
      var withUser := s.(user := Some(fetched));
      if LoggedIn(withUser.user) then HandleLoggedIn(withUser) else (LogOut(withUser), NotStarted)
  }

  /** handleLoginFormSubmit: store both submitted fields, then run attemptFetchUser. */
  function HandleLoginFormSubmit(s: State, form: FormData): (r: (State, Option<string>))
    ensures r.1.Some? ==>
      GetStoredCredentials(r.0.store) == Credentials(Some(FormField(form, "key")), Some(FormField(form, "user")))
    ensures r.1.None? ==> r.0.store == map[] && r.0.user == None
  {
    AttemptFetchUser(s.(store := Save(s.store, FormField(form, "key"), FormField(form, "user"))))
  }

  /**
   * connect up to its await: `user.id` of a null user throws before any
   * request; `apiCall` without a key logs out; otherwise `/connect/{id}` is
   * requested for the returned id.
   */
  function Connect(s: State): (r: (State, Option<string>))
    ensures r.1.Some? <==> s.user.Some? && HasApiKey(s.store)
    ensures r.1.Some? ==> r.1.value == s.user.value.id && r.0 == s
    ensures s.user.Some? && !HasApiKey(s.store) ==> r.0 == LogOut(s)
    ensures s.user.None? ==> r.0 == s
  {
    if s.user.None? then (s, None)
    else if !HasApiKey(s.store) then (LogOut(s), None)
    else (s, Some(s.user.value.id))
  }

  /** The connect acknowledgement arrives: a resolved one triggers a cycle at once. */
  function ReceiveConnectAck(s: State, reply: Reply<()>): (r: (State, Cycle))
    ensures r.1.Awaiting() <==> Settle(reply).Resolved? && !s.fetchingUpdate && LoggedIn(s.user) && HasApiKey(s.store)
    ensures Settle(reply).Rejected? ==> r == (s, NotStarted)
  {
    match Settle(reply)
    case Rejected => (s, NotStarted)
    case Resolved(_) => BeginCycle(s)
  }

  // ---------------------------------------------------------------------------
  // Invariants

  /** A non-null `user` always has a usable id, so `user != null` iff `loggedIn()`. */
  ghost predicate UserInv(s: State)
  {
    s.user.Some? ==> s.user.value.id != ""
  }

  /** The runtime runs exactly the interval `userUpdateInterval` names, and handles are fresh. */
  ghost predicate TimerInv(s: State)
  {
    && s.timers == IntervalSet(s.interval)
    && forall h :: h in s.timers ==> h < s.nextHandle
  }

  /** The page shows the authenticated view exactly when `loggedIn()` holds. */
  ghost predicate ViewInv(s: State)
  {
    s.view.authenticated == LoggedIn(s.user)
  }

  /** The interval runs exactly while a user is set: no orphaned timer, no user without polling. */
  ghost predicate PollingInv(s: State)
  {
    s.user.None? <==> s.interval.None?
  }

  ghost predicate Inv(s: State)
  {
    UserInv(s) && TimerInv(s) && ViewInv(s) && PollingInv(s)
  }

  lemma InitialInv(persisted: Store)
    ensures Inv(Initial(persisted))
  {
  }

  lemma LoggedInIffUser(s: State)
    requires Inv(s)
    ensures LoggedIn(s.user) <==> s.user.Some?
    ensures s.view.authenticated <==> s.user.Some?
  {
  }

  /** At most one interval is ever armed. */
  lemma AtMostOneTimer(s: State)
    requires TimerInv(s)
    ensures |s.timers| <= 1
  {
  }

  /** Exactly one interval runs while the session is logged in, and none otherwise. */
  lemma OneTimerIffLoggedIn(s: State)
    requires Inv(s)
    ensures LoggedIn(s.user) <==> |s.timers| == 1
    ensures !LoggedIn(s.user) <==> s.timers == {}
  {
    if s.interval.Some? {
      assert s.timers == {s.interval.value};
    }
  }

  lemma LogOutKeepsInv(s: State)
    requires TimerInv(s)
    ensures Inv(LogOut(s))
  {
  }

  lemma ArmKeepsInv(s: State)
    requires TimerInv(s) && LoggedIn(s.user)
    ensures Inv(Arm(Refresh(s)))
  {
  }

  lemma BeginCycleKeepsInv(s: State)
    requires Inv(s)
    ensures Inv(BeginCycle(s).0)
  {
  }

  lemma HandleLoggedInKeepsInv(s: State)
    requires TimerInv(s) && LoggedIn(s.user)
    ensures Inv(HandleLoggedIn(s).0)
  {
  }

  lemma ReceiveKeepsInv(s: State, zone: string, day: Totals,
                        c: Reply<Connection>, t: Reply<Totals>, ack: Reply<()>)
    requires Inv(s)
    ensures Inv(ReceiveConnected(s, c).0)
    ensures Inv(ReceiveDayTotals(s, zone, t).0)
    ensures Inv(ReceiveWeekTotals(s, day, t).0)
    ensures Inv(ReceiveConnectAck(s, ack).0)
    ensures Inv(Connect(s).0)
  {
    BeginCycleKeepsInv(s);
  }

  lemma FetchUserKeepsInv(s: State, reply: Reply<UserRecord>, form: FormData)
    requires Inv(s)
    ensures Inv(AttemptFetchUser(s).0)
    ensures Inv(ReceiveUser(s, reply).0)
    ensures Inv(HandleLoginFormSubmit(s, form).0)
  {
    if Settle(reply).Resolved? && LoggedIn(Some(Settle(reply).value)) {
      HandleLoggedInKeepsInv(s.(user := Some(Settle(reply).value)));
    }
  }

  // ---------------------------------------------------------------------------
  // logOut

  /** logOut resets everything and is idempotent. */
  lemma LogOutResets(s: State)
    ensures var t := LogOut(s);
      && t.store == map[] && t.user == None && t.interval == None && !t.fetchingUpdate
      && !LoggedIn(t.user) && !t.view.authenticated && !t.view.loggingIn
      && GetStoredCredentials(t.store) == Credentials(None, None)
      && (TimerInv(s) ==> t.timers == {})
      && LogOut(t) == t
  {
  }

  // ---------------------------------------------------------------------------
  // attemptFetchUser and handleLoginFormSubmit

  /** Without both credentials no request is made and the result is exactly the logOut state. */
  lemma AttemptWithoutCredentials(s: State)
    requires GetStoredCredentials(s.store).key.None? || GetStoredCredentials(s.store).user.None?
    ensures AttemptFetchUser(s) == (LogOut(s), None)
  {
  }

  /** With both credentials the stored user id is requested and only the indicator changes. */
  lemma AttemptWithCredentials(s: State)
    requires HasApiKey(s.store) && GetStoredCredentials(s.store).user.Some?
    ensures AttemptFetchUser(s).1 == Some(s.store[KeyUserId])
    ensures AttemptFetchUser(s).0 == s.(view := s.view.(loggingIn := true))
  {
  }

  /** A rejected fetch, or a fetched user without a usable id, ends in exactly the logOut state. */
  lemma ReceiveUserFailure(s: State, reply: Reply<UserRecord>)
    requires Settle(reply).Rejected? || reply.data.id == ""
    ensures ReceiveUser(s, reply) == (LogOut(s), NotStarted)
  {
  }

  /**
   * A usable fetched user becomes `user`, the session is logged in, exactly one
   * fresh interval runs (the previous one cancelled) and one cycle is triggered.
   */
  lemma ReceiveUserSuccess(s: State, u: UserRecord)
    requires TimerInv(s) && u.id != ""
    ensures var (t, c) := ReceiveUser(s, Response("", u));
      && (HasApiKey(s.store) || s.fetchingUpdate ==>
            && t.user == Some(u) && LoggedIn(t.user) && t.view.authenticated
            && t.interval == Some(s.nextHandle) && t.timers == {s.nextHandle})
      && (s.interval.Some? ==> s.interval.value !in t.timers)
      && (s.fetchingUpdate ==> c == NotStarted)
      && (!s.fetchingUpdate && HasApiKey(s.store) ==> c == AwaitConnected(u.id) && t.fetchingUpdate)
      && (!s.fetchingUpdate && !HasApiKey(s.store) ==> c == Failed && t.user == None && t.timers == {})
  {
  }

  /**
   * The submitted key and user are both written before attemptFetchUser reads
   * them: the request goes to the submitted user id exactly when both are usable.
   */
  lemma SubmitStoresThenAttempts(s: State, form: FormData)
    ensures var stored := s.(store := Save(s.store, FormField(form, "key"), FormField(form, "user")));
      HandleLoginFormSubmit(s, form) == AttemptFetchUser(stored)
    ensures var (t, requested) := HandleLoginFormSubmit(s, form);
      && (requested.Some? <==> FormField(form, "key") != "" && FormField(form, "user") != "")
      && (requested.Some? ==> requested.value == FormField(form, "user"))
      && (requested.Some? ==> t.store == Save(s.store, FormField(form, "key"), FormField(form, "user")))
      && (requested.None? ==> t.store == map[] && !LoggedIn(t.user))
  {
  }

  // ---------------------------------------------------------------------------
  // updateUserTotals

  /** The guard: a set flag or a logged-out session makes the call a no-op. */
  lemma GuardRefuses(s: State)
    requires s.fetchingUpdate || !LoggedIn(s.user)
    ensures BeginCycle(s) == (s, NotStarted)
  {
  }

  /**
   * Past the guard the flag is set while the request is in flight; without a
   * key no request is made, the session is logged out and the flag released.
   */
  lemma GuardTaken(s: State)
    requires !s.fetchingUpdate && LoggedIn(s.user)
    ensures var (t, c) := BeginCycle(s);
      && (HasApiKey(s.store) ==> t == s.(fetchingUpdate := true) && c == AwaitConnected(s.user.value.id))
      && (!HasApiKey(s.store) ==> c == Failed && t == LogOut(s) && !t.fetchingUpdate)
  {
  }

  /**
   * The flag is released on every exit path of a cycle and untouched while
   * the cycle still waits for a response.
   */
  lemma GuardReleased(s: State, zone: string, day: Totals, c: Reply<Connection>, t: Reply<Totals>)
    ensures var r := ReceiveConnected(s, c);
      (r.1.Awaiting() ==> r.0.fetchingUpdate == s.fetchingUpdate) && (!r.1.Awaiting() ==> !r.0.fetchingUpdate)
    ensures var r := ReceiveDayTotals(s, zone, t);
      (r.1.Awaiting() ==> r.0.fetchingUpdate == s.fetchingUpdate) && (!r.1.Awaiting() ==> !r.0.fetchingUpdate)
    ensures var r := ReceiveWeekTotals(s, day, t);
      !r.1.Awaiting() && !r.0.fetchingUpdate
    ensures var r := BeginCycle(s);
      r.1.Awaiting() ==> r.0.fetchingUpdate
  {
  }

  /**
   * The connection status is rendered once its call succeeds; the totals are
   * never touched before the week totals arrive, and then only when that call
   * succeeds too, with both the day and the week totals.
   */
  lemma TotalsOnlyAfterBothFetches(s: State, zone: string, day: Totals, c: Reply<Connection>, t: Reply<Totals>)
    ensures ReceiveConnected(s, c).0.view.totals == s.view.totals
    ensures ReceiveConnected(s, c).0.view.connected ==
              (if Settle(c).Resolved? then Some(c.data.connected) else s.view.connected)
    ensures ReceiveDayTotals(s, zone, t).0.view.totals == s.view.totals
    ensures ReceiveDayTotals(s, zone, t).0.view.connected == s.view.connected
    ensures ReceiveWeekTotals(s, day, t).0.view.totals ==
              (if Settle(t).Resolved? then Some(CardioTotals(day, t.data)) else s.view.totals)
    ensures BeginCycle(s).0.view.totals == s.view.totals
  {
  }

  /** A call that meets no stored key ends the cycle in the logOut state without a request. */
  lemma MissingKeyLogsOut(s: State, zone: string, c: Reply<Connection>, t: Reply<Totals>)
    requires !HasApiKey(s.store) && s.user.Some?
    ensures Settle(c).Resolved? ==>
              ReceiveConnected(s, c) == (LogOut(s.(view := s.view.(connected := Some(c.data.connected)))), Failed)
    ensures Settle(t).Resolved? ==> ReceiveDayTotals(s, zone, t) == (LogOut(s), Failed)
  {
  }
}
