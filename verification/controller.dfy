/**
 * The client as it is written: module-level variables updated in place by the
 * handlers. `App` holds `user`, `fetchingUpdate` and `userUpdateInterval`, the
 * `localStorage` map, the runtime's armed intervals and the rendered view; each
 * method performs the handler's steps in order and is proved to end in the
 * state the matching `Session` transition describes.
 */
module Controller {
  import opened Wrappers
  import opened Credentials
  import opened Api
  import opened Forms
  import Session

  class App {
    var store: Store
    var user: Option<Session.UserRecord>
    var fetchingUpdate: bool
    var userUpdateInterval: Option<nat>
    var timers: set<nat>
    var nextHandle: nat
    var view: Session.View

    /** The whole state as a value. */
    function Snapshot(): Session.State
      reads this
    {
      Session.State(store, user, fetchingUpdate, userUpdateInterval, timers, nextHandle, view)
    }

    ghost predicate Valid()
      reads this
    {
      Session.Inv(Snapshot())
    }

    /** Page load: the persisted store, no user, no interval, no cycle. */
    constructor (persisted: Store)
      ensures Snapshot() == Session.Initial(persisted)
      ensures Valid()
    {
      store := persisted;
      user := None;
      fetchingUpdate := false;
      userUpdateInterval := None;
      timers := {};
      nextHandle := 1;
      view := Session.View(false, false, None, None);
    }

    /** clearInterval. */
    method ClearInterval(h: nat)
      modifies this`timers
      ensures timers == old(timers) - {h}
    {
      timers := timers - {h};
    }

    /** setInterval: the runtime arms an interval under a handle it has never used. */
    method SetInterval() returns (h: nat)
      modifies this`timers, this`nextHandle
      ensures h == old(nextHandle) && nextHandle == h + 1
      ensures timers == old(timers) + {h}
    {
      h := nextHandle;
      nextHandle := nextHandle + 1;
      timers := timers + {h};
    }

    /** refreshLoggedInState, with setLoggingInUI(false). */
    method RefreshLoggedInState()
      modifies this`view
      ensures Snapshot() == Session.Refresh(old(Snapshot()))
    {
      view := view.(loggingIn := false);
      view := view.(authenticated := Session.LoggedIn(user));
    }

    /** logOut. */
    method LogOut()
      modifies this
      ensures Snapshot() == Session.LogOut(old(Snapshot()))
      ensures Session.TimerInv(old(Snapshot())) ==> Valid()
    {
      ghost var before := Snapshot();
      store := map[];
      user := None;
      if userUpdateInterval.Some? {
        ClearInterval(userUpdateInterval.value);
        userUpdateInterval := None;
      }
      fetchingUpdate := false;
      RefreshLoggedInState();
      if Session.TimerInv(before) {
        Session.LogOutKeepsInv(before);
      }
    }

    /** handleLoggedIn: called once `loggedIn()` holds. */
    method HandleLoggedIn() returns (c: Session.Cycle)
      requires Session.LoggedIn(user) && Session.TimerInv(Snapshot())
      modifies this
      ensures (Snapshot(), c) == Session.HandleLoggedIn(old(Snapshot()))
      ensures Valid()
    {
      ghost var before := Snapshot();
      RefreshLoggedInState();
      if userUpdateInterval.Some? {
        ClearInterval(userUpdateInterval.value);
      }
      var h := SetInterval();
      userUpdateInterval := Some(h);
      assert Snapshot() == Session.Arm(Session.Refresh(before));
      Session.ArmKeepsInv(before);
      c := UpdateUserTotals();
    }

    /** updateUserTotals up to its first await. */
    method UpdateUserTotals() returns (c: Session.Cycle)
      requires Valid()
      modifies this
      ensures (Snapshot(), c) == Session.BeginCycle(old(Snapshot()))
      ensures Valid()
    {
      Session.BeginCycleKeepsInv(Snapshot());
      if fetchingUpdate || !Session.LoggedIn(user) {
        return Session.NotStarted;
      }
      fetchingUpdate := true;
      if !HasApiKey(store) {
        LogOut();
        fetchingUpdate := false;
        return Session.Failed;
      }
      c := Session.AwaitConnected(user.value.id);
    }

    /** The `/connected/{id}` response of a waiting cycle. */
    method ReceiveConnected(reply: Reply<Session.Connection>) returns (c: Session.Cycle)
      requires Valid()
      modifies this
      ensures (Snapshot(), c) == Session.ReceiveConnected(old(Snapshot()), reply)
      ensures Valid()
    {
      Session.ReceiveKeepsInv(Snapshot(), "", Session.Totals(0.0, 0.0), reply, TransportError, TransportError);
      var outcome := Settle(reply);
      if outcome.Rejected? {
        fetchingUpdate := false;
        return Session.Failed;
      }
      view := view.(connected := Some(outcome.value.connected));
      if user.None? {
        fetchingUpdate := false;
        return Session.Failed;
      }
      var zone := Session.TimeZoneOf(user.value);
      if !HasApiKey(store) {
        LogOut();
        fetchingUpdate := false;
        return Session.Failed;
      }
      c := Session.AwaitDayTotals(user.value.id, zone);
    }

    /** The day totals response of a waiting cycle. */
    method ReceiveDayTotals(zone: string, reply: Reply<Session.Totals>) returns (c: Session.Cycle)
      requires Valid()
      modifies this
      ensures (Snapshot(), c) == Session.ReceiveDayTotals(old(Snapshot()), zone, reply)
      ensures Valid()
    {
      Session.ReceiveKeepsInv(Snapshot(), zone, Session.Totals(0.0, 0.0), TransportError, reply, TransportError);
      var outcome := Settle(reply);
      if outcome.Rejected? || user.None? {
        fetchingUpdate := false;
        return Session.Failed;
      }
      if !HasApiKey(store) {
        LogOut();
        fetchingUpdate := false;
        return Session.Failed;
      }
      c := Session.AwaitWeekTotals(user.value.id, zone, outcome.value);
    }

    /** The week totals response of a waiting cycle: handleCumulativeTotalsUpdate, then `finally`. */
    method ReceiveWeekTotals(day: Session.Totals, reply: Reply<Session.Totals>) returns (c: Session.Cycle)
      requires Valid()
      modifies this
      ensures (Snapshot(), c) == Session.ReceiveWeekTotals(old(Snapshot()), day, reply)
      ensures Valid()
    {
      Session.ReceiveKeepsInv(Snapshot(), "", day, TransportError, reply, TransportError);
      var outcome := Settle(reply);
      if outcome.Resolved? {
        view := view.(totals := Some(Session.CardioTotals(day, outcome.value)));
        c := Session.Completed;
      } else {
        c := Session.Failed;
      }
      fetchingUpdate := false;
    }

    /** attemptFetchUser up to its await; returns the user id requested, if any. */
    method AttemptFetchUser() returns (requested: Option<string>)
      requires Valid()
      modifies this
      ensures (Snapshot(), requested) == Session.AttemptFetchUser(old(Snapshot()))
      ensures Valid()
    {
      Session.FetchUserKeepsInv(Snapshot(), TransportError, map[]);
      var creds := GetStoredCredentials(store);
      if creds.key.None? || creds.user.None? {
        LogOut();
        return None;
      }
      view := view.(loggingIn := true);
      requested := Some(creds.user.value);
    }

    /** The `/users/{id}` response: assign `user`, then handleLoggedIn or logOut. */
    method ReceiveUser(reply: Reply<Session.UserRecord>) returns (c: Session.Cycle)
      requires Valid()
      modifies this
      ensures (Snapshot(), c) == Session.ReceiveUser(old(Snapshot()), reply)
      ensures Valid()
    {
      var outcome := Settle(reply);
      if outcome.Resolved? {
        user := Some(outcome.value);
        if Session.LoggedIn(user) {
          c := HandleLoggedIn();
          return;
        }
      }
      LogOut();
      c := Session.NotStarted;
    }

    /** handleLoginFormSubmit: write both slots, then attemptFetchUser. */
    method HandleLoginFormSubmit(form: FormData) returns (requested: Option<string>)
      requires Valid()
      modifies this
      ensures (Snapshot(), requested) == Session.HandleLoginFormSubmit(old(Snapshot()), form)
      ensures Valid()
    {
      store := store[KeyApiKey := FormField(form, "key")];
      store := store[KeyUserId := FormField(form, "user")];
      requested := AttemptFetchUser();
    }

    /** connect up to its await; returns the user id whose connection is requested, if any. */
    method Connect() returns (requested: Option<string>)
      requires Valid()
      modifies this
      ensures (Snapshot(), requested) == Session.Connect(old(Snapshot()))
      ensures Valid()
    {
      if user.None? {
        return None;
      }
      if !HasApiKey(store) {
        LogOut();
        return None;
      }
      requested := Some(user.value.id);
    }

    /** The `/connect/{id}` acknowledgement: a resolved one runs updateUserTotals at once. */
    method ReceiveConnectAck(reply: Reply<()>) returns (c: Session.Cycle)
      requires Valid()
      modifies this
      ensures (Snapshot(), c) == Session.ReceiveConnectAck(old(Snapshot()), reply)
      ensures Valid()
    {
      if Settle(reply).Rejected? {
        return Session.NotStarted;
      }
      c := UpdateUserTotals();
    }
  }
}
