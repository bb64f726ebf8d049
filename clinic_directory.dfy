/** The clinic overview page: a fixed list of five clinics filtered by the
    search text. Only the clinic's name is searched, ignoring ASCII case; the
    location is shown but never searched. */
module ClinicDirectory {
  import opened Common
  import Session
  import Routes
  import LoginPage

  datatype Clinic = Clinic(id: string, name: string, location: string)

  /** The clinics the page lists, in display order. */
  const Clinics: seq<Clinic> := [
    Clinic("1", "Hargeisa Group Hospital", "Hargeisa, Woqooyi Galbeed"),
    Clinic("2", "Berbera Regional Hospital", "Berbera, Woqooyi Galbeed"),
    Clinic("3", "Burao General Hospital", "Burao, Togdheer"),
    Clinic("4", "Erigavo Hospital", "Erigavo, Sanaag"),
    Clinic("5", "Las Anod Hospital", "Las Anod, Sool")
  ]

  predicate NameMatches(c: Clinic, search: string) {
    Contains(Lower(c.name), Lower(search))
  }

  /** The clinics shown for a search: those whose name matches, in list order. */
  function FilteredClinics(search: string): (r: seq<Clinic>)
    ensures IsSubsequence(r, Clinics)
    ensures forall i :: 0 <= i < |r| ==> r[i] in Clinics && NameMatches(r[i], search)
    ensures forall i :: 0 <= i < |Clinics| && NameMatches(Clinics[i], search) ==> Clinics[i] in r
  {
    Filter(Clinics, c => NameMatches(c, search))
  }

  /** Whether "No clinics found." is shown. */
  predicate ShowsNoClinics(search: string) {
    FilteredClinics(search) == []
  }

  /** An empty search lists all five clinics, in order. */
  lemma EmptySearchListsAll()
    ensures FilteredClinics("") == Clinics
    ensures !ShowsNoClinics("")
  {
    forall i | 0 <= i < |Clinics|
      ensures NameMatches(Clinics[i], "")
    {
      assert StartsWith(Lower(Clinics[i].name), "");
    }
    FilterKeepsAll(Clinics, c => NameMatches(c, ""));
  }

  /** The search ignores ASCII case. */
  lemma SearchIgnoresCase(search: string)
    ensures FilteredClinics(search) == FilteredClinics(Lower(search))
  {
    LowerOfLowercase(Lower(search));
    FilterAgrees(Clinics, c => NameMatches(c, search), c => NameMatches(c, Lower(search)));
  }

  /** Two clinics lie in Woqooyi Galbeed. */
  lemma TwoClinicsInWoqooyi()
    ensures Contains(Clinics[0].location, "Woqooyi") && Contains(Clinics[1].location, "Woqooyi")
  {
    var hargeisa, berbera := Clinics[0].location, Clinics[1].location;
    assert hargeisa[10..17] == "Woqooyi";
    assert berbera[9..16] == "Woqooyi";
    ContainsAfter(hargeisa, "Woqooyi", 10);
    ContainsAfter(berbera, "Woqooyi", 9);
  }

  /** No clinic name has the letter q in either case. */
  lemma NoNameHasQ(c: Clinic)
    requires c in Clinics
    ensures forall j :: 0 <= j < |c.name| ==> LowerChar(c.name[j]) != 'q'
  {
  }

  /** A name without the letter q does not match the region's name. */
  lemma {:induction false} NameWithoutQMissesWoqooyi(name: string)
    requires forall j :: 0 <= j < |name| ==> LowerChar(name[j]) != 'q'
    ensures !Contains(Lower(name), Lower("Woqooyi"))
  {
    assert Lower("Woqooyi")[2] == 'q';
    MissingCharNotContained(Lower(name), Lower("Woqooyi"), 2);
  }

  /** No clinic's name matches the region's name. */
  lemma NoNameMentionsWoqooyi(c: Clinic)
    requires c in Clinics
    ensures !NameMatches(c, "Woqooyi")
  {
    NoNameHasQ(c);
    NameWithoutQMissesWoqooyi(c.name);
  }

  /** Searching for that region finds nothing: the location is not searched,
      and the page shows "No clinics found.". */
  lemma LocationIsNotSearched()
    ensures ShowsNoClinics("Woqooyi")
  {
    var r := FilteredClinics("Woqooyi");
    if r != [] {
      NoNameMentionsWoqooyi(r[0]);
    }
  }

  /** Text found in a suffix is found in the whole. */
  lemma {:induction false} ContainsAfter(hay: string, needle: string, k: nat)
    requires k <= |hay| && StartsWith(hay[k..], needle)
    ensures Contains(hay, needle)
    decreases k
  {
    if k > 0 {
      assert hay[1..][k - 1..] == hay[k..];
      ContainsAfter(hay[1..], needle, k - 1);
    }
  }

  /** A clinic card links to "/clinic/<id>", which no route names: whatever the
      session, the route table picks the fallback login page. */
  lemma ClinicLinksShowLoginPage(c: Clinic, s: Session.State)
    requires c in Clinics
    ensures Routes.Render(["clinic", c.id], s) == Routes.Shows(Routes.LoginPage)
  {
    Routes.UnmatchedPathRendersLogin(["clinic", c.id], s);
  }

  /** Following a clinic card's link: the route table picks the login page, and
      that page's redirect effect then sends a signed-in user on to "/center";
      a signed-out user stays on the login page. */
  method FollowClinicLink(c: Clinic, provider: Session.SessionProvider)
    returns (shown: Routes.Screen, navigations: seq<string>)
    requires c in Clinics
    ensures shown == Routes.Shows(Routes.LoginPage)
    ensures navigations == (if provider.user.Some? then ["/center"] else [])
  {
    ClinicLinksShowLoginPage(c, provider.Snapshot());
    shown := Routes.Render(["clinic", c.id], provider.Snapshot());
    var page := new LoginPage.LoginPage(provider);
    page.RedirectEffect();
    navigations := page.navigations;
  }
}
