/** The session provider (`UserProvider`): the signed-in user and token held in
    memory, a `loading` flag, three keys of the browser's durable key/value
    store, and at most one pending auto-logout timer. Time is the provider's
    `now` field, in milliseconds; the timer is the instant it is due to fire. */
module Session {
  import opened Common
  import opened NumberText

  const ExpirationKey: string := "expirationTime"
  const UserKey: string := "user"
  const TokenKey: string := "token"

  /** The JSON text of a user record; `JSON.stringify` of an object is never empty. */
  type JsonText = s: string | s != "" witness "{}"

  /** The user record handed to `login`, kept opaque. */
  datatype UserRecord = UserRecord(json: JsonText)

  /** `JSON.stringify` of a user record. */
  function Stringify(u: UserRecord): JsonText { u.json }

  /** `JSON.parse` of the text `Stringify` wrote. */
  function ParseUser(text: JsonText): UserRecord { UserRecord(text) }

  /** `localStorage.getItem(key)`: the stored text, or null. */
  function GetItem(store: map<string, string>, key: string): Option<string> {
    if key in store then Some(store[key]) else None
  }

  /** A stored text used as a condition: null and "" are falsy. */
  predicate IsTruthy(item: Option<string>) {
    item.Some? && item.value != ""
  }

  /** The three keys are present and non-empty. */
  predicate HasStoredSession(store: map<string, string>) {
    IsTruthy(GetItem(store, UserKey)) && IsTruthy(GetItem(store, TokenKey)) && IsTruthy(GetItem(store, ExpirationKey))
  }

  /** Everything the provider holds, as a value. */
  datatype State = State(
    user: Option<UserRecord>,
    token: Option<string>,
    loading: bool,
    store: map<string, string>,
    timer: Option<int>)

  /** The in-memory user and token are set together and cleared together. */
  predicate Paired(s: State) {
    s.user.Some? == s.token.Some?
  }

  /** The provider as first rendered: nothing in memory, `loading` true, no timer,
      and whatever the durable store already holds. */
  function Fresh(persisted: map<string, string>): State {
    State(None, None, true, persisted, None)
  }

  /** `new Date().getTime() + expiresIn * 1000` */
  function ExpirationTime(now: int, expiresIn: Num): Num {
    Finite(now).Plus(expiresIn.Times(Finite(1000)))
  }

  /** `login(userData, tokenValue, expiresIn)` at instant `now`: writes the three
      keys and the in-memory user and token; the timer is left as it was. */
  function AfterLogin(s: State, userData: UserRecord, tokenValue: string, expiresIn: Num, now: int): State {
    s.(store := s.store[ExpirationKey := NumText(ExpirationTime(now, expiresIn))]
                       [UserKey := Stringify(userData)]
                       [TokenKey := tokenValue],
       user := Some(userData),
       token := Some(tokenValue))
  }

  /** `logout()`: removes the three keys and clears the in-memory user and token;
      the timer is left as it was. */
  function AfterLogout(s: State): State {
    s.(store := s.store - {ExpirationKey, UserKey, TokenKey}, user := None, token := None)
  }

  /** Milliseconds left on the stored session at instant `now` (NaN when the
      stored expiry is not a number). */
  function Remaining(store: map<string, string>, now: int): Num
    requires ExpirationKey in store
  {
    ParseInt(store[ExpirationKey]).Minus(Finite(now))
  }

  /** The restore-on-load effect at instant `now`. A live stored session is
      adopted and a logout is scheduled for its remaining time, and the effect
      returns before `loading` is cleared; a lapsed one is purged; with a key
      missing nothing is read. */
  function AfterRestore(s: State, now: int): State {
    if HasStoredSession(s.store) then
      var expiresIn := Remaining(s.store, now);
      if expiresIn.IsPositive() then
        s.(user := Some(ParseUser(s.store[UserKey])),
           token := Some(s.store[TokenKey]),
           timer := Some(now + expiresIn.n))
      else
        AfterLogout(s).(loading := false)
    else
      s.(loading := false)
  }

  /** The effect's cleanup: `clearTimeout` of the timer it scheduled. */
  function AfterCleanup(s: State): State {
    s.(timer := None)
  }

  /** The clock reaches instant `t`: a timer due by then fires and runs `logout`. */
  function AfterAdvance(s: State, t: int): State {
    if s.timer.Some? && s.timer.value <= t then AfterLogout(s).(timer := None) else s
  }

  /** What the restore effect would do if it also cleared `loading` after adopting
      a live session (the corrected form of `AfterRestore`). */
  function AfterRestoreIntended(s: State, now: int): (r: State)
    ensures !r.loading
    ensures r.(loading := true) == AfterRestore(s, now).(loading := true)
  {
    AfterRestore(s, now).(loading := false)
  }

  /** Events that may follow the restore effect. */
  datatype Event =
    | LoginEvent(userData: UserRecord, tokenValue: string, expiresIn: Num, at: int)
    | LogoutEvent
    | CleanupEvent
    | AdvanceEvent(to: int)

  function Step(s: State, e: Event): State {
    match e
    case LoginEvent(u, tok, ttl, at) => AfterLogin(s, u, tok, ttl, at)
    case LogoutEvent => AfterLogout(s)
    case CleanupEvent => AfterCleanup(s)
    case AdvanceEvent(t) => AfterAdvance(s, t)
  }

  function Run(s: State, events: seq<Event>): State
    decreases |events|
  {
    if events == [] then s else Run(Step(s, events[0]), events[1..])
  }

  // ---------------------------------------------------------------------------
  // Properties of the operations

  /** `login` persists the expiry instant `now + expiresIn * 1000` so that it reads
      back exactly, stores the user and token under their keys, sets the
      in-memory user and token, and neither schedules a timer nor touches
      `loading` or any other key. */
  lemma LoginRecordsSession(s: State, u: UserRecord, tok: string, expiresIn: int, now: int)
    ensures var r := AfterLogin(s, u, tok, Finite(expiresIn), now);
      && ExpirationKey in r.store && ParseInt(r.store[ExpirationKey]) == Finite(now + expiresIn * 1000)
      && UserKey in r.store && r.store[UserKey] != "" && ParseUser(r.store[UserKey]) == u
      && GetItem(r.store, TokenKey) == Some(tok)
      && r.user == Some(u) && r.token == Some(tok)
      && r.timer == s.timer && r.loading == s.loading
      && forall k :: k in s.store && k !in {ExpirationKey, UserKey, TokenKey} ==> GetItem(r.store, k) == GetItem(s.store, k)
  {
    ParseIntRoundTrip(Finite(now + expiresIn * 1000));
  }

  /** `logout` leaves none of the three keys and no user or token, keeps every other
      key, and a second `logout` changes nothing. */
  lemma LogoutClearsSession(s: State)
    ensures var r := AfterLogout(s);
      && ExpirationKey !in r.store && UserKey !in r.store && TokenKey !in r.store
      && r.user == None && r.token == None
      && r.timer == s.timer && r.loading == s.loading
      && (forall k :: k in s.store && k !in {ExpirationKey, UserKey, TokenKey} ==> GetItem(r.store, k) == GetItem(s.store, k))
      && AfterLogout(r) == r
  {
  }

  /** Restoring a live session adopts the stored user and token, schedules the
      one logout at the stored expiry instant, i.e. after the remaining time
      rather than a fresh lifetime, leaves the store alone and keeps `loading`. */
  lemma RestoreAdoptsLiveSession(s: State, now: int, expiry: int)
    requires HasStoredSession(s.store)
    requires ParseInt(s.store[ExpirationKey]) == Finite(expiry) && expiry > now
    ensures var r := AfterRestore(s, now);
      && r.user == Some(ParseUser(s.store[UserKey])) && r.token == Some(s.store[TokenKey])
      && r.timer == Some(expiry)
      && r.store == s.store && r.loading == s.loading
  {
  }

  /** Restoring a lapsed session (remaining time zero, negative or NaN) runs
      `logout`: the keys are purged, nothing is adopted and `loading` ends false. */
  lemma RestorePurgesLapsedSession(s: State, now: int)
    requires HasStoredSession(s.store)
    requires !Remaining(s.store, now).IsPositive()
    ensures var r := AfterRestore(s, now);
      && r == AfterLogout(s).(loading := false)
      && r.user == None && r.token == None && !r.loading && r.timer == s.timer
      && ExpirationKey !in r.store && UserKey !in r.store && TokenKey !in r.store
  {
  }

  /** With any of the three keys missing or empty, the effect only clears `loading`. */
  lemma RestoreWithoutStoredSession(s: State, now: int)
    requires !HasStoredSession(s.store)
    ensures AfterRestore(s, now) == s.(loading := false)
  {
  }

  /** A fresh provider ends up signed in by the restore effect exactly when the
      store holds all three keys and a positive remaining time. */
  lemma RestoreSignsInIffLive(persisted: map<string, string>, now: int)
    ensures var r := AfterRestore(Fresh(persisted), now);
      (r.user.Some? <==> HasStoredSession(persisted) && Remaining(persisted, now).IsPositive())
      && (r.user.Some? <==> r.loading)
  {
  }

  /** Reloading after `login(u, tok, expiresIn)` at `t0` (a fresh provider on the
      persisted store, restored at `t1`) signs back in with the same user and
      token and the timer at the original expiry exactly when `t1` is before it;
      from that instant on the reload purges the store instead. */
  lemma {:induction false} ReloadAfterLogin(s: State, u: UserRecord, tok: string, expiresIn: int, t0: int, t1: int)
    requires tok != ""
    ensures var r := AfterRestore(Fresh(AfterLogin(s, u, tok, Finite(expiresIn), t0).store), t1);
      && (r.user.Some? <==> t1 < t0 + expiresIn * 1000)
      && (t1 < t0 + expiresIn * 1000 ==> r.user == Some(u) && r.token == Some(tok) && r.timer == Some(t0 + expiresIn * 1000))
      && (t1 >= t0 + expiresIn * 1000 ==>
            r.token == None && !r.loading && ExpirationKey !in r.store && UserKey !in r.store && TokenKey !in r.store)
  {
    var persisted := AfterLogin(s, u, tok, Finite(expiresIn), t0).store;
    ParseIntRoundTrip(Finite(t0 + expiresIn * 1000));
    assert HasStoredSession(persisted);
    assert Remaining(persisted, t1) == Finite(t0 + expiresIn * 1000 - t1);
  }

  /** The timer is the only source of automatic expiry: when it is due it fires and
      the result is exactly the `logout` state, otherwise nothing happens. */
  lemma TimerFiringIsLogout(s: State, t: int)
    ensures s.timer.Some? && s.timer.value <= t ==> AfterAdvance(s, t) == AfterLogout(s).(timer := None)
    ensures !(s.timer.Some? && s.timer.value <= t) ==> AfterAdvance(s, t) == s
  {
  }

  /** A login with an empty token is not a stored session: a reload neither
      restores nor purges it. The user stays signed out, the stored user and
      expiry are left in place, and only `loading` changes. */
  lemma {:induction false} ReloadAfterEmptyTokenLogin(s: State, u: UserRecord, expiresIn: int, t0: int, t1: int)
    ensures var persisted := AfterLogin(s, u, "", Finite(expiresIn), t0).store;
      var r := AfterRestore(Fresh(persisted), t1);
      && r == Fresh(persisted).(loading := false)
      && r.user == None && r.token == None
      && UserKey in r.store && ExpirationKey in r.store
  {
    var persisted := AfterLogin(s, u, "", Finite(expiresIn), t0).store;
    assert GetItem(persisted, TokenKey) == Some("");
    RestoreWithoutStoredSession(Fresh(persisted), t1);
  }

  /** A session adopted on reload lasts until the stored expiry instant and no
      longer: at any later `t` it is signed in exactly when `t` is before it. */
  lemma {:induction false} RestoredSessionLastsUntilExpiry(s: State, now: int, expiry: int, t: int)
    requires HasStoredSession(s.store)
    requires ParseInt(s.store[ExpirationKey]) == Finite(expiry) && expiry > now
    ensures AfterAdvance(AfterRestore(s, now), t).user.Some? <==> t < expiry
  {
    RestoreAdoptsLiveSession(s, now, expiry);
  }

  /** `login` schedules nothing: when no timer is pending, a signed-in session
      stays signed in however far the clock advances. */
  lemma LoginAloneNeverExpires(s: State, u: UserRecord, tok: string, expiresIn: Num, now: int, t: int)
    requires s.timer.None?
    ensures AfterAdvance(AfterLogin(s, u, tok, expiresIn, now), t).user == Some(u)
  {
  }

  /** `login` does not replace the timer a reload scheduled: when that timer comes
      due it logs out the newer session too, whatever its lifetime. */
  lemma StaleTimerEndsNewerLogin(s: State, u: UserRecord, tok: string, expiresIn: Num, now: int, due: int)
    requires s.timer == Some(due)
    ensures var r := AfterAdvance(AfterLogin(s, u, tok, expiresIn, now), due);
      r.user == None && r.token == None && TokenKey !in r.store && r.timer == None
  {
  }

  /** Every operation keeps the in-memory user and token paired. */
  lemma {:induction false} OperationsKeepPaired(s: State, events: seq<Event>, now: int)
    requires Paired(s)
    ensures Paired(AfterRestore(s, now)) && Paired(Run(s, events))
    decreases |events|
  {
    if events != [] {
      OperationsKeepPaired(Step(s, events[0]), events[1..], now);
    }
  }

  /** Only the restore effect writes `loading`: no sequence of logins, logouts,
      cleanups and timer firings changes it. */
  lemma {:induction false} OnlyRestoreClearsLoading(s: State, events: seq<Event>)
    ensures Run(s, events).loading == s.loading
    decreases |events|
  {
    if events != [] {
      OnlyRestoreClearsLoading(Step(s, events[0]), events[1..]);
    }
  }

  // ---------------------------------------------------------------------------
  // The provider object

  class SessionProvider {
    var user: Option<UserRecord>
    var token: Option<string>
    var loading: bool
    /** The browser's durable key/value store. */
    var store: map<string, string>
    /** The instant the pending auto-logout fires, if one is pending. */
    var timer: Option<int>
    /** The clock, in milliseconds. */
    var now: int

    function Snapshot(): State
      reads this
    {
      State(user, token, loading, store, timer)
    }

    ghost predicate Valid()
      reads this
    {
      Paired(Snapshot())
    }

    /** The provider mounts over whatever the durable store already holds. */
    constructor (persisted: map<string, string>, clock: int)
      ensures Valid() && Snapshot() == Fresh(persisted) && now == clock
    {
      user, token, loading := None, None, true;
      store, timer := persisted, None;
      now := clock;
    }

    method Login(userData: UserRecord, tokenValue: string, expiresIn: Num)
      requires Valid()
      modifies this
      ensures Valid() && now == old(now)
      ensures Snapshot() == AfterLogin(old(Snapshot()), userData, tokenValue, expiresIn, now)
    {
      var expirationTime := Finite(now).Plus(expiresIn.Times(Finite(1000)));
      store := store[ExpirationKey := NumText(expirationTime)];
      store := store[UserKey := Stringify(userData)];
      store := store[TokenKey := tokenValue];
      user := Some(userData);
      token := Some(tokenValue);
    }

    method Logout()
      requires Valid()
      modifies this
      ensures Valid() && now == old(now)
      ensures Snapshot() == AfterLogout(old(Snapshot()))
    {
      store := store - {ExpirationKey};
      store := store - {UserKey};
      store := store - {TokenKey};
      user := None;
      token := None;
    }

    /** The restore-on-load effect. React runs the previous run's cleanup before
        running an effect again, so no timer of an earlier run is pending. */
    method RestoreEffect()
      requires Valid() && timer.None?
      modifies this
      ensures Valid() && now == old(now)
      ensures Snapshot() == AfterRestore(old(Snapshot()), now)
    {
      var storedUser := GetItem(store, UserKey);
      var storedToken := GetItem(store, TokenKey);
      var storedExpiration := GetItem(store, ExpirationKey);

      if IsTruthy(storedUser) && IsTruthy(storedToken) && IsTruthy(storedExpiration) {
        var expiresIn := ParseInt(storedExpiration.value).Minus(Finite(now));
        if expiresIn.IsPositive() {
          user := Some(ParseUser(storedUser.value));
          token := storedToken;
          timer := Some(now + expiresIn.n);
          return;
        } else {
          Logout();
        }
      }
      loading := false;
    }

    /** The restore-on-load effect with `loading` cleared on every branch. */
    method RestoreEffectIntended()
      requires Valid() && timer.None?
      modifies this
      ensures Valid() && now == old(now)
      ensures Snapshot() == AfterRestoreIntended(old(Snapshot()), now)
    {
      RestoreEffect();
      loading := false;
    }

    /** The effect's cleanup cancels the timer it scheduled. */
    method CleanupEffect()
      requires Valid()
      modifies this
      ensures Valid() && now == old(now)
      ensures Snapshot() == AfterCleanup(old(Snapshot()))
    {
      timer := None;
    }

    /** The clock moves forward to `t`; a timer due by then fires `logout`. */
    method AdvanceTo(t: int)
      requires Valid() && now <= t
      modifies this
      ensures Valid() && now == t
      ensures Snapshot() == AfterAdvance(old(Snapshot()), t)
    {
      if timer.Some? && timer.value <= t {
        now := timer.value;
        timer := None;
        Logout();
      }
      now := t;
    }
  }
}
