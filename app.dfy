/** The session state of App.tsx: which page is shown, who is signed in,
    the last assessment and its recommendations, and the handlers that
    move between them. Persistence (browser storage, the database) is not
    modelled: what it would return is a parameter. */
module App {
  import opened Seqs
  import opened Sorting
  import opened Types

  datatype Page = Home | Dashboard | RolesPage | AssessmentPage | ResultsPage | AnalyticsPage | Login | Signup

  /** `protectedPages`. */
  predicate IsProtected(p: Page)
  {
    p == Dashboard || p == AssessmentPage || p == ResultsPage || p == AnalyticsPage
  }

  /** The page `handleNavigate(page)` shows: protected pages send a visitor
      who is not signed in to the login page, and the results page sends a
      user without an assessment to the assessment. */
  function NavigateTarget(page: Page, signedIn: bool, hasAssessment: bool): Page
  {
    if IsProtected(page) && !signedIn then Login
    else if page == ResultsPage && !hasAssessment then AssessmentPage
    else page
  }

  /** The navigation guard: the requested page is shown unless a guard
      applies, and the home, roles, login and sign-up pages are never
      redirected. A protected page is only reached signed in, and the
      results page only with an assessment. */
  lemma NavigateGuard(page: Page, signedIn: bool, hasAssessment: bool)
    ensures var p := NavigateTarget(page, signedIn, hasAssessment);
            && (IsProtected(page) && !signedIn ==> p == Login)
            && (page == ResultsPage && signedIn && !hasAssessment ==> p == AssessmentPage)
            && (!IsProtected(page) ==> p == page)
            && (signedIn && (page != ResultsPage || hasAssessment) ==> p == page)
            && (IsProtected(p) ==> signedIn)
            && (p == ResultsPage ==> hasAssessment)
  {
  }

  function Percentage(r: AIRecommendation): int
  {
    r.matchPercentage
  }

  /** `[...recs].sort((a, b) => b.matchPercentage - a.matchPercentage)`. */
  function SortByMatch(recs: seq<AIRecommendation>): seq<AIRecommendation>
  {
    SortDesc(recs, Percentage)
  }

  /** The stored order: a permutation of the recommendations with
      non-increasing percentages, the first one the best, and entries with
      equal percentages in the order they arrived. */
  lemma SortByMatchSpec(recs: seq<AIRecommendation>, k: int)
    ensures var s := SortByMatch(recs);
            && multiset(s) == multiset(recs)
            && (forall i, j :: 0 <= i < j < |s| ==> s[i].matchPercentage >= s[j].matchPercentage)
            && (recs != [] ==> forall r :: r in recs ==> s[0].matchPercentage >= r.matchPercentage)
            && Filter(HasKey(Percentage, k), s) == Filter(HasKey(Percentage, k), recs)
  {
    if recs != [] {
      SortHeadIsMax(recs, Percentage);
    }
    SortStable(recs, Percentage, k);
  }

  /** What the database returns for a user's latest assessment. */
  datatype SavedAssessment = SavedAssessment(data: AssessmentData, recommendations: seq<AIRecommendation>)

  class AppState {
    var user: Option<User>
    var currentPage: Page
    var assessmentData: Option<AssessmentData>
    var recommendations: seq<AIRecommendation>
    var isSyncing: bool

    /** The recommendations are kept best first, and analytics is only shown
        signed in. The other guarded pages are not covered, because the
        handlers that await storage resume after a logout may have run:
        the dashboard can become the current page signed out
        (`LoginResumesSignedOut`), the results page without an assessment
        (`ResultsSignedOutWithoutAssessment`), and the assessment page signed
        out (`RestartSignedOut`). */
    ghost predicate Valid()
      reads this
    {
      && NonIncreasing(recommendations, Percentage)
      && (currentPage == AnalyticsPage ==> user.Some?)
    }

    constructor()
      ensures Valid()
      ensures user == None && currentPage == Home && assessmentData == None && recommendations == []
      ensures !isSyncing
    {
      user := None;
      currentPage := Home;
      assessmentData := None;
      recommendations := [];
      isSyncing := false;
    }

    /** `recommendations[0]?.matchPercentage`, shown on the dashboard: the
        best percentage stored. */
    function TopPercentage(): (r: Option<int>)
      reads this
      requires Valid()
      ensures recommendations == [] <==> r == None
      ensures r.Some? ==> forall x :: x in recommendations ==> r.value >= x.matchPercentage
    {
      if recommendations == [] then None else Some(recommendations[0].matchPercentage)
    }

    /** `handleNavigate`. */
    method HandleNavigate(page: Page)
      requires Valid()
      modifies this
      ensures Valid()
      ensures currentPage == NavigateTarget(page, old(user).Some?, old(assessmentData).Some?)
      ensures user == old(user) && assessmentData == old(assessmentData) && recommendations == old(recommendations)
      ensures isSyncing == old(isSyncing)
    {
      if IsProtected(page) && user.None? {
        currentPage := Login;
        return;
      }
      if page == ResultsPage && assessmentData.None? {
        currentPage := AssessmentPage;
        return;
      }
      currentPage := page;
    }

    /** `handleLogin` up to its await: the user is signed in and the sync
        indicator shown. */
    method BeginLogin(u: User)
      requires Valid()
      modifies this
      ensures Valid()
      ensures user == Some(u) && isSyncing
      ensures currentPage == old(currentPage) && assessmentData == old(assessmentData) && recommendations == old(recommendations)
    {
      user := Some(u);
      isSyncing := true;
    }

    /** `handleLogin` after its await: a saved assessment is restored in
        sorted order, the sync indicator hidden and the dashboard made the
        current page, whoever is signed in by then. */
    method FinishLogin(saved: Option<SavedAssessment>)
      requires Valid()
      modifies this
      ensures Valid()
      ensures currentPage == Dashboard && !isSyncing && user == old(user)
      ensures saved.Some? ==> assessmentData == Some(saved.value.data)
                              && recommendations == SortByMatch(saved.value.recommendations)
      ensures saved.None? ==> assessmentData == old(assessmentData) && recommendations == old(recommendations)
    {
      if saved.Some? {
        var sorted := SortByMatch(saved.value.recommendations);
        assessmentData := Some(saved.value.data);
        recommendations := sorted;
      }
      isSyncing := false;
      currentPage := Dashboard;
    }

    /** `handleLogin` with nothing in between its two halves: the user is
        signed in, a saved assessment is restored in sorted order, and the
        dashboard is shown. */
    method HandleLogin(u: User, saved: Option<SavedAssessment>)
      requires Valid()
      modifies this
      ensures Valid()
      ensures user == Some(u) && currentPage == Dashboard && !isSyncing
      ensures saved.Some? ==> assessmentData == Some(saved.value.data)
                              && recommendations == SortByMatch(saved.value.recommendations)
      ensures saved.None? ==> assessmentData == old(assessmentData) && recommendations == old(recommendations)
    {
      BeginLogin(u);
      FinishLogin(saved);
    }

    /** The login resumption as evidently intended: the restore and the
        dashboard apply only while the user who signed in is still signed
        in; otherwise only the sync indicator is hidden. The dashboard then
        never becomes the current page signed out. */
    method FinishLoginChecked(u: User, saved: Option<SavedAssessment>)
      requires Valid() && (currentPage == Dashboard ==> user.Some?)
      modifies this
      ensures Valid() && (currentPage == Dashboard ==> user.Some?)
      ensures !isSyncing && user == old(user)
      ensures old(user) == Some(u) ==> currentPage == Dashboard
      ensures old(user) == Some(u) && saved.Some? ==>
                assessmentData == Some(saved.value.data) && recommendations == SortByMatch(saved.value.recommendations)
      ensures old(user) != Some(u) || saved.None? ==>
                assessmentData == old(assessmentData) && recommendations == old(recommendations)
      ensures old(user) != Some(u) ==> currentPage == old(currentPage)
    {
      if user == Some(u) {
        FinishLogin(saved);
      } else {
        isSyncing := false;
      }
    }

    /** `initSession` up to its await, for a stored user: that user is
        signed in and the sync indicator shown. */
    method BeginRestore(u: User)
      requires Valid()
      modifies this
      ensures Valid()
      ensures user == Some(u) && isSyncing
      ensures currentPage == old(currentPage) && assessmentData == old(assessmentData) && recommendations == old(recommendations)
    {
      user := Some(u);
      isSyncing := true;
    }

    /** `initSession` after its await: a saved assessment is restored in
        sorted order, the sync indicator hidden, and the dashboard shown
        when the address names no other page. */
    method FinishRestore(saved: Option<SavedAssessment>, hashIsHome: bool)
      requires Valid()
      modifies this
      ensures Valid()
      ensures !isSyncing && user == old(user)
      ensures saved.Some? ==> assessmentData == Some(saved.value.data)
                              && recommendations == SortByMatch(saved.value.recommendations)
      ensures saved.None? ==> assessmentData == old(assessmentData) && recommendations == old(recommendations)
      ensures currentPage == if hashIsHome then Dashboard else old(currentPage)
    {
      if saved.Some? {
        var sorted := SortByMatch(saved.value.recommendations);
        assessmentData := Some(saved.value.data);
        recommendations := sorted;
      }
      isSyncing := false;
      if hashIsHome {
        currentPage := Dashboard;
      }
    }

    /** The session restore run once at start-up (`initSession`) with
        nothing in between its two halves: with a stored user, that user is
        signed in, a saved assessment restored in sorted order, and the
        dashboard shown when the address names no other page. */
    method RestoreSession(savedUser: Option<User>, saved: Option<SavedAssessment>, hashIsHome: bool)
      requires Valid()
      modifies this
      ensures Valid()
      ensures savedUser.None? ==> user == old(user) && currentPage == old(currentPage) && isSyncing == old(isSyncing)
                                  && assessmentData == old(assessmentData) && recommendations == old(recommendations)
      ensures savedUser.Some? ==> user == savedUser && !isSyncing
      ensures savedUser.Some? && saved.Some? ==> assessmentData == Some(saved.value.data)
                                                 && recommendations == SortByMatch(saved.value.recommendations)
      ensures savedUser.Some? && saved.None? ==> assessmentData == old(assessmentData) && recommendations == old(recommendations)
      ensures savedUser.Some? ==> currentPage == if hashIsHome then Dashboard else old(currentPage)
    {
      if savedUser.Some? {
        BeginRestore(savedUser.value);
        FinishRestore(saved, hashIsHome);
      }
    }

    /** `handleLogout`. */
    method HandleLogout()
      requires Valid()
      modifies this
      ensures Valid()
      ensures user == None && assessmentData == None && recommendations == [] && currentPage == Home
      ensures isSyncing == old(isSyncing)
    {
      user := None;
      assessmentData := None;
      recommendations := [];
      currentPage := Home;
    }

    /** `handleAssessmentComplete` up to the save: the profile and the
        sorted recommendations are stored. */
    method BeginAssessmentComplete(data: AssessmentData, recs: seq<AIRecommendation>)
      requires Valid()
      modifies this
      ensures Valid()
      ensures assessmentData == Some(data) && recommendations == SortByMatch(recs)
      ensures currentPage == old(currentPage) && user == old(user) && isSyncing == old(isSyncing)
    {
      var sorted := SortByMatch(recs);
      assessmentData := Some(data);
      recommendations := sorted;
    }

    /** `handleAssessmentComplete` after the save (awaited only when a user
        is signed in): the results page becomes the current page, whatever
        is stored by then. */
    method FinishAssessmentComplete()
      requires Valid()
      modifies this
      ensures Valid()
      ensures currentPage == ResultsPage
      ensures user == old(user) && assessmentData == old(assessmentData) && recommendations == old(recommendations)
      ensures isSyncing == old(isSyncing)
    {
      currentPage := ResultsPage;
    }

    /** `handleAssessmentComplete` with nothing in between its two halves:
        the profile and the sorted recommendations are stored and the
        results page is shown. */
    method HandleAssessmentComplete(data: AssessmentData, recs: seq<AIRecommendation>)
      requires Valid()
      modifies this
      ensures Valid()
      ensures assessmentData == Some(data) && recommendations == SortByMatch(recs)
      ensures currentPage == ResultsPage && user == old(user) && isSyncing == old(isSyncing)
    {
      BeginAssessmentComplete(data, recs);
      FinishAssessmentComplete();
    }

    /** The authentication page's switch between signing in and signing up,
        offered on those two pages only. */
    method ToggleAuth()
      requires Valid() && (currentPage == Login || currentPage == Signup)
      modifies this
      ensures Valid()
      ensures currentPage == (if old(currentPage) == Login then Signup else Login)
      ensures user == old(user) && assessmentData == old(assessmentData) && recommendations == old(recommendations)
      ensures isSyncing == old(isSyncing)
    {
      currentPage := if currentPage == Login then Signup else Login;
    }

    /** "Retake" on the results page: the assessment page is set directly,
        without `handleNavigate`'s guard. */
    method Restart()
      requires Valid() && currentPage == ResultsPage
      modifies this
      ensures Valid() && currentPage == AssessmentPage
      ensures user == old(user) && assessmentData == old(assessmentData) && recommendations == old(recommendations)
      ensures isSyncing == old(isSyncing)
    {
      currentPage := AssessmentPage;
    }
  }

  /** The assessment page can be shown signed out. A user signs in and
      starts an assessment, signs out while the answer is pending, the
      answer still arrives (`onComplete` fires after the delay), and
      "retake" on the results page opens the assessment with no user. */
  method RestartSignedOut() returns (s: AppState)
    ensures s.Valid() && s.user == None && s.currentPage == AssessmentPage
  {
    s := new AppState();
    s.HandleLogin(User("Ada", "ada@example.com"), None);
    s.HandleNavigate(AssessmentPage);
    s.HandleLogout();
    s.HandleAssessmentComplete(AssessmentData("Current Student", "CSE", 8.0, [], [], 50), []);
    s.Restart();
  }

  /** The dashboard can become the current page signed out, holding the
      previous user's assessment. A user signs in and signs out (the
      navigation bar offers it at once) while the saved assessment is being
      fetched; the login then resumes, restores that assessment and sets the
      dashboard, which renders nothing without a user. */
  method LoginResumesSignedOut() returns (s: AppState)
    ensures s.Valid() && s.user == None && s.currentPage == Dashboard
    ensures s.assessmentData == Some(AssessmentData("Current Student", "CSE", 8.0, [], [], 50))
  {
    var data := AssessmentData("Current Student", "CSE", 8.0, [], [], 50);
    s := new AppState();
    s.BeginLogin(User("Ada", "ada@example.com"));
    s.HandleLogout();
    s.FinishLogin(Some(SavedAssessment(data, [])));
  }

  /** The assessment left behind by `LoginResumesSignedOut` reaches the next
      user. When that user's fetch finds nothing, the login keeps what is
      stored, so their dashboard reports an assessment and the previous
      user's recommendations. */
  method StaleAssessmentReachesNextUser(recs: seq<AIRecommendation>) returns (s: AppState)
    ensures s.Valid() && s.user == Some(User("Bob", "bob@example.com")) && s.currentPage == Dashboard
    ensures s.assessmentData == Some(AssessmentData("Current Student", "CSE", 8.0, [], [], 50))
    ensures s.recommendations == SortByMatch(recs)
  {
    var data := AssessmentData("Current Student", "CSE", 8.0, [], [], 50);
    s := new AppState();
    s.BeginLogin(User("Ada", "ada@example.com"));
    s.HandleLogout();
    s.FinishLogin(Some(SavedAssessment(data, recs)));
    s.HandleLogin(User("Bob", "bob@example.com"), None);
  }

  /** The same sequence with the checked resumption ends signed out on the
      home page with nothing restored. */
  method LoginLogoutChecked() returns (s: AppState)
    ensures s.Valid() && s.user == None && s.currentPage == Home
    ensures s.assessmentData == None && s.recommendations == [] && !s.isSyncing
  {
    var data := AssessmentData("Current Student", "CSE", 8.0, [], [], 50);
    var u := User("Ada", "ada@example.com");
    s := new AppState();
    s.BeginLogin(u);
    s.HandleLogout();
    s.FinishLoginChecked(u, Some(SavedAssessment(data, [])));
  }

  /** The results page can become the current page without an assessment.
      A signed-in user completes an assessment and signs out while it is
      being saved; the handler then resumes and sets the results page, which
      renders nothing because the logout emptied the recommendations. */
  method ResultsSignedOutWithoutAssessment() returns (s: AppState)
    ensures s.Valid() && s.user == None && s.assessmentData == None && s.currentPage == ResultsPage
  {
    s := new AppState();
    s.HandleLogin(User("Ada", "ada@example.com"), None);
    s.HandleNavigate(AssessmentPage);
    s.BeginAssessmentComplete(AssessmentData("Current Student", "CSE", 8.0, [], [], 50), []);
    s.HandleLogout();
    s.FinishAssessmentComplete();
  }
}
