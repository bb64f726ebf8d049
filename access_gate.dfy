/** The access gate (`ProtectedRoute`): decides, from the session's `loading`
    flag and user alone, whether protected content shows, a pending indicator
    shows, or the browser is sent to the login page. */
module AccessGate {
  import opened Common
  import Session
  import NumberText

  datatype Outcome =
    | Pending                             // "Checking authentication…"
    | Redirect(to: string, replace: bool) // <Navigate to=… replace />
    | RenderChildren

  /** The gate's decision. It reads `loading` and `user` only: the token, the
      stored expiry and the timer play no part, and nothing is written. */
  function Decide<U>(loading: bool, user: Option<U>): (r: Outcome)
    ensures r == Pending <==> loading
    ensures r == Redirect("/login", true) <==> !loading && user.None?
    ensures r == RenderChildren <==> !loading && user.Some?
  {
    if loading then Pending
    else if user.None? then Redirect("/login", true)
    else RenderChildren
  }

  /** The gate as it sees the provider's state. */
  function DecideFor(s: Session.State): Outcome {
    Decide(s.loading, s.user)
  }

  /** Until the restore effect has run, the gate neither redirects nor shows the
      protected content, whatever is stored. */
  lemma NoDecisionBeforeRestore(persisted: map<string, string>)
    ensures DecideFor(Session.Fresh(persisted)) == Pending
  {
  }

  /** After the restore effect, a reload without a live stored session is sent
      to the login page, never shown the protected content. */
  lemma {:induction false} RestoreWithoutLiveSessionRedirects(persisted: map<string, string>, now: int)
    requires !(Session.HasStoredSession(persisted) && Session.Remaining(persisted, now).IsPositive())
    ensures DecideFor(Session.AfterRestore(Session.Fresh(persisted), now)) == Redirect("/login", true)
  {
    Session.RestoreSignsInIffLive(persisted, now);
  }

  /** As written, restoring a live session returns before `loading` is cleared,
      and nothing else ever clears it: after any later logins, logouts, cleanups
      and timer firings the gate still shows the pending indicator. */
  lemma {:induction false} LiveRestoreLeavesGatePending(persisted: map<string, string>, now: int, events: seq<Session.Event>)
    requires Session.HasStoredSession(persisted) && Session.Remaining(persisted, now).IsPositive()
    ensures DecideFor(Session.Run(Session.AfterRestore(Session.Fresh(persisted), now), events)) == Pending
  {
    Session.OnlyRestoreClearsLoading(Session.AfterRestore(Session.Fresh(persisted), now), events);
  }

  /** With `loading` cleared in every branch of the restore effect, the gate shows
      the protected content exactly when a live session was stored, and sends
      the browser to the login page otherwise. */
  lemma {:induction false} IntendedRestoreDecides(persisted: map<string, string>, now: int)
    ensures var live := Session.HasStoredSession(persisted) && Session.Remaining(persisted, now).IsPositive();
      && (live <==> DecideFor(Session.AfterRestoreIntended(Session.Fresh(persisted), now)) == RenderChildren)
      && (!live <==> DecideFor(Session.AfterRestoreIntended(Session.Fresh(persisted), now)) == Redirect("/login", true))
  {
    Session.RestoreSignsInIffLive(persisted, now);
  }

  /** As written, the auto-logout timer armed by a live restore ends the session
      at the stored expiry, yet the gate never notices: before and after the
      timer fires it shows the pending indicator, never the login redirect. */
  lemma {:induction false} TimerFiringLeavesGatePending(persisted: map<string, string>, now: int, expiry: int, t: int)
    requires Session.HasStoredSession(persisted)
    requires NumberText.ParseInt(persisted[Session.ExpirationKey]) == Finite(expiry) && expiry > now
    ensures var r := Session.AfterAdvance(Session.AfterRestore(Session.Fresh(persisted), now), t);
      && (r.user.None? <==> t >= expiry)
      && DecideFor(r) == Pending
  {
    Session.RestoreAdoptsLiveSession(Session.Fresh(persisted), now, expiry);
  }

  /** With the corrected restore, the gate shows the protected content until the
      stored expiry and sends the browser to the login page once the timer fires. */
  lemma {:induction false} TimerFiringClosesGate(persisted: map<string, string>, now: int, expiry: int, t: int)
    requires Session.HasStoredSession(persisted)
    requires NumberText.ParseInt(persisted[Session.ExpirationKey]) == Finite(expiry) && expiry > now
    ensures DecideFor(Session.AfterAdvance(Session.AfterRestoreIntended(Session.Fresh(persisted), now), t))
      == if t < expiry then RenderChildren else Redirect("/login", true)
  {
    Session.RestoreAdoptsLiveSession(Session.Fresh(persisted), now, expiry);
  }
}
