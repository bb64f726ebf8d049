/** The login page: a form of named fields, a `loading` flag while the
    credentials are posted, the `login` call on success, and the redirect to
    "/center" whenever a user is signed in. Navigations and toasts are kept as
    logs so that what the page did can be stated. */
module LoginPage {
  import opened Common
  import opened NumberText
  import Session

  /** The body of a successful login reply. */
  datatype LoginData = LoginData(user: Session.UserRecord, token: string, expiresIn: int)

  /** The outcome of posting the form: the reply body, or the rejection with the
      server's `response.data` if it sent one. */
  datatype LoginResult = Succeeded(data: LoginData) | Rejected(responseData: Option<string>)

  datatype Toast = SuccessToast(text: string) | ErrorToast(text: string)

  function InitialForm(): map<string, string> {
    map["email" := "", "password" := ""]
  }

  /** `{ ...formData, [id]: value }`: the named field takes the new value and
      every other field keeps its own. */
  function WithField(form: map<string, string>, id: string, value: string): (r: map<string, string>)
    ensures r.Keys == form.Keys + {id}
    ensures id in r && r[id] == value
    ensures forall k :: k in form && k != id ==> k in r && r[k] == form[k]
  {
    form[id := value]
  }

  /** The error toast's text: the server's response data, else "Login failed". */
  function FailureText(responseData: Option<string>): (t: string)
    ensures t != ""
    ensures responseData.Some? && responseData.value != "" ==> t == responseData.value
  {
    if responseData.Some? && responseData.value != "" then responseData.value else "Login failed"
  }

  /** The token and lifetime arguments `login(data.user, data.expiresIn)` passes:
      the lifetime lands in the token parameter (stored as its decimal text) and
      the lifetime parameter is undefined, which `undefined * 1000` makes NaN. */
  function AsWrittenLoginArguments(d: LoginData): (string, Num) {
    (NumText(Finite(d.expiresIn)), NaN)
  }

  /** The arguments of the evidently intended call `login(data.user, data.token, data.expiresIn)`. */
  function IntendedLoginArguments(d: LoginData): (string, Num) {
    (d.token, Finite(d.expiresIn))
  }

  /** The session a successful submit leaves in the store, as written. */
  function AsWrittenSession(s: Session.State, d: LoginData, now: int): Session.State {
    Session.AfterLogin(s, d.user, AsWrittenLoginArguments(d).0, AsWrittenLoginArguments(d).1, now)
  }

  /** The session a successful submit leaves in the store with the intended call. */
  function IntendedSession(s: Session.State, d: LoginData, now: int): Session.State {
    Session.AfterLogin(s, d.user, IntendedLoginArguments(d).0, IntendedLoginArguments(d).1, now)
  }

  /** As written, the stored token is the lifetime's text, the stored expiry is
      "NaN", and a reload at any later instant purges the session instead of
      restoring it. */
  lemma AsWrittenLoginNeverSurvivesReload(s: Session.State, d: LoginData, t0: int, t1: int)
    ensures var persisted := AsWrittenSession(s, d, t0).store;
      && Session.GetItem(persisted, Session.TokenKey) == Some(NumText(Finite(d.expiresIn)))
      && Session.GetItem(persisted, Session.ExpirationKey) == Some("NaN")
    ensures var r := Session.AfterRestore(Session.Fresh(AsWrittenSession(s, d, t0).store), t1);
      && r.user == None && r.token == None && !r.loading
      && Session.ExpirationKey !in r.store && Session.UserKey !in r.store && Session.TokenKey !in r.store
  {
    var persisted := AsWrittenSession(s, d, t0).store;
    ParseIntRoundTrip(NaN);
    assert Session.Remaining(persisted, t1) == NaN;
  }

  /** With the intended call, a reload before the lifetime has run out restores
      the signed-in user and the server's token, and a reload after it purges. */
  lemma IntendedLoginSurvivesReload(s: Session.State, d: LoginData, t0: int, t1: int)
    requires d.token != ""
    ensures var r := Session.AfterRestore(Session.Fresh(IntendedSession(s, d, t0).store), t1);
      && (r.user.Some? <==> t1 < t0 + d.expiresIn * 1000)
      && (t1 < t0 + d.expiresIn * 1000 ==> r.user == Some(d.user) && r.token == Some(d.token))
  {
    Session.ReloadAfterLogin(s, d.user, d.token, d.expiresIn, t0, t1);
  }

  class LoginPage {
    var formData: map<string, string>
    var loading: bool
    /** The paths passed to `navigate`, oldest first. */
    var navigations: seq<string>
    var toasts: seq<Toast>
    /** The session provider the page reads through `useUser`. */
    const session: Session.SessionProvider

    constructor (session: Session.SessionProvider)
      ensures formData == InitialForm() && !loading
      ensures navigations == [] && toasts == [] && this.session == session
    {
      formData := InitialForm();
      loading := false;
      navigations, toasts := [], [];
      this.session := session;
    }

    /** A change in the input whose id is `id`. */
    method HandleInputChange(id: string, value: string)
      modifies this
      ensures formData == WithField(old(formData), id, value)
      ensures loading == old(loading) && navigations == old(navigations) && toasts == old(toasts)
    {
      formData := formData[id := value];
    }

    /** The effect that runs when the signed-in user changes. */
    method RedirectEffect()
      modifies this
      ensures navigations == old(navigations) + (if session.user.Some? then ["/center"] else [])
      ensures formData == old(formData) && loading == old(loading) && toasts == old(toasts)
    {
      if session.user.Some? {
        navigations := navigations + ["/center"];
      }
    }

    /** Submitting the form: `loading` is set and the form is posted as it is. */
    method BeginSubmit() returns (body: map<string, string>)
      modifies this
      ensures loading && body == formData
      ensures formData == old(formData) && navigations == old(navigations) && toasts == old(toasts)
    {
      loading := true;
      body := formData;
    }

    /** The post completes, as written: on success `login(data.user, data.expiresIn)`
        and a navigation to "/center"; on failure an error toast and no session
        change. `loading` is cleared either way. */
    method FinishSubmit(result: LoginResult)
      requires session.Valid()
      modifies this, session
      ensures session.Valid() && session.now == old(session.now) && !loading && formData == old(formData)
      ensures result.Succeeded? ==>
        && session.Snapshot() == AsWrittenSession(old(session.Snapshot()), result.data, session.now)
        && navigations == old(navigations) + ["/center"]
        && toasts == old(toasts) + [SuccessToast("Successfully logged in!")]
      ensures result.Rejected? ==>
        && session.Snapshot() == old(session.Snapshot())
        && navigations == old(navigations)
        && toasts == old(toasts) + [ErrorToast(FailureText(result.responseData))]
    {
      match result {
        case Succeeded(data) =>
          toasts := toasts + [SuccessToast("Successfully logged in!")];
          session.Login(data.user, NumText(Finite(data.expiresIn)), NaN);
          navigations := navigations + ["/center"];
        case Rejected(responseData) =>
          toasts := toasts + [ErrorToast(FailureText(responseData))];
      }
      loading := false;
    }

    /** The post completes, with the evidently intended `login` call. */
    method FinishSubmitIntended(result: LoginResult)
      requires session.Valid()
      modifies this, session
      ensures session.Valid() && session.now == old(session.now) && !loading && formData == old(formData)
      ensures result.Succeeded? ==>
        && session.Snapshot() == IntendedSession(old(session.Snapshot()), result.data, session.now)
        && navigations == old(navigations) + ["/center"]
        && toasts == old(toasts) + [SuccessToast("Successfully logged in!")]
      ensures result.Rejected? ==>
        && session.Snapshot() == old(session.Snapshot())
        && navigations == old(navigations)
        && toasts == old(toasts) + [ErrorToast(FailureText(result.responseData))]
    {
      match result {
        case Succeeded(data) =>
          toasts := toasts + [SuccessToast("Successfully logged in!")];
          session.Login(data.user, data.token, Finite(data.expiresIn));
          navigations := navigations + ["/center"];
        case Rejected(responseData) =>
          toasts := toasts + [ErrorToast(FailureText(responseData))];
      }
      loading := false;
    }
  }
}
