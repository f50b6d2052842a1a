/** The route/session controller of main.js: the URL fragment, the session
    user and the current page, the navigation chrome, the auth forms, and
    the dashboard whose subscription is released before every route
    decision. A fragment assignment that changes the fragment raises one
    pending hash-change event (an assignment of the same value raises none). */
module Router {

  import opened Session
  import opened Dashboard

  datatype Page = DashboardPage | ProfilePage | TrendsPage | AuthPage

  function PageHash(p: Page): string
  {
    match p
    case DashboardPage => "#dashboard"
    case ProfilePage => "#profile"
    case TrendsPage => "#trends"
    case AuthPage => "#auth"
  }

  /** What handleRouteChange does with a fragment under a session. */
  datatype Decision = Render(page: Page) | Redirect(target: string) | Inert

  /** `window.location.hash || "#dashboard"` */
  function Effective(hash: string): (h: string)
    ensures h != ""
    ensures hash != "" ==> h == hash
  {
    if hash == "" then "#dashboard" else hash
  }

  /** The route switch of handleRouteChange. */
  function Decide(hash: string, user: Option<User>): (d: Decision)
    ensures d.Render? ==> Effective(hash) == PageHash(d.page)
    ensures d.Render? && d.page != AuthPage ==> user.Some?
    ensures d == Inert <==> Effective(hash) == "#logout"
    ensures d.Redirect? ==> d.target == "#auth" || (d.target == "#dashboard" && user.Some?)
    ensures forall p :: user.Some? && Effective(hash) == PageHash(p) ==> d == Render(p)
    ensures Effective(hash) == "#auth" ==> d == Render(AuthPage)
  {
    var h := Effective(hash);
    if h == "#dashboard" then (if user.Some? then Render(DashboardPage) else Redirect("#auth"))
    else if h == "#profile" then (if user.Some? then Render(ProfilePage) else Redirect("#auth"))
    else if h == "#trends" then (if user.Some? then Render(TrendsPage) else Redirect("#auth"))
    else if h == "#auth" then Render(AuthPage)
    else if h == "#logout" then Inert
    else if user.Some? then Redirect("#dashboard") else Redirect("#auth")
  }

  const KnownRoutes: set<string> := {"#dashboard", "#profile", "#trends", "#auth", "#logout"}

  /** Protected routes without a user go to `#auth` and render nothing. */
  lemma ProtectedRoutesNeedUser(hash: string)
    requires Effective(hash) in {"#dashboard", "#profile", "#trends"}
    ensures Decide(hash, None) == Redirect("#auth")
  {
  }

  /** An empty fragment is the dashboard route. */
  lemma EmptyIsDashboard(user: Option<User>)
    ensures Decide("", user) == Decide("#dashboard", user)
    ensures user.Some? ==> Decide("", user) == Render(DashboardPage)
  {
  }

  /** Unknown fragments redirect by session and render nothing. */
  lemma UnknownRoutesRedirect(hash: string, user: Option<User>)
    requires Effective(hash) !in KnownRoutes
    ensures Decide(hash, user) == Redirect(if user.Some? then "#dashboard" else "#auth")
  {
  }

  /** The route switch itself renders the auth page for a signed-in user;
      only the auth-state observer sends such a user to the dashboard. */
  lemma AuthRouteRendersForSignedInUser(u: User)
    ensures Decide("#auth", Some(u)) == Render(AuthPage)
  {
  }

  /** Every redirect target renders directly under the same session, and
      differs from the fragment that was redirected. */
  lemma RedirectsDoNotChain(hash: string, user: Option<User>)
    requires Decide(hash, user).Redirect?
    ensures Decide(Decide(hash, user).target, user).Render?
    ensures Decide(hash, user).target != hash
  {
  }

  /** The fragment routing ends on: the redirect target, or the fragment
      itself. */
  function Resolve(hash: string, user: Option<User>): (h: string)
    ensures !Decide(h, user).Redirect?
    ensures Decide(hash, user).Render? ==> h == hash
  {
    var d := Decide(hash, user);
    if d.Redirect? then (RedirectsDoNotChain(hash, user); d.target) else hash
  }

  /** The fragment handleAuthStateChange assigns, if any. */
  function AuthTarget(hash: string, user: Option<User>): Option<string>
  {
    if user.Some? then
      (if hash == "#auth" || hash == "" || hash == "#" then Some("#dashboard") else None)
    else if hash != "#auth" then Some("#auth")
    else None
  }

  /** The fragment after handleAuthStateChange. */
  function AfterAuth(hash: string, user: Option<User>): (h: string)
    ensures user.Some? && hash in {"#auth", "", "#"} ==> h == "#dashboard"
    ensures user.None? ==> h == "#auth"
    ensures user.Some? && hash !in {"#auth", "", "#"} ==> h == hash
  {
    match AuthTarget(hash, user)
    case Some(t) => t
    case None => hash
  }

  /** Applying the auth-state rule twice is applying it once. */
  lemma AuthRedirectIdempotent(hash: string, user: Option<User>)
    ensures AfterAuth(AfterAuth(hash, user), user) == AfterAuth(hash, user)
  {
  }

  /** A session change lands a signed-out user on the auth page and a user
      signing in from the auth page (or from no fragment) on the dashboard. */
  lemma AuthChangeThenRoute(hash: string, user: Option<User>)
    ensures user.None? ==> Decide(AfterAuth(hash, user), user) == Render(AuthPage)
    ensures user.Some? && hash in {"#auth", "", "#"} ==> Decide(AfterAuth(hash, user), user) == Render(DashboardPage)
  {
  }

  datatype NavLink = NavDashboard | NavProfile | NavTrends | NavAuth

  function LinkHash(l: NavLink): string
  {
    match l
    case NavDashboard => "#dashboard"
    case NavProfile => "#profile"
    case NavTrends => "#trends"
    case NavAuth => "#auth"
  }

  /** The links updateActiveNavigation marks active for a fragment. */
  function ActiveLinks(hash: string): (s: set<NavLink>)
    ensures |s| <= 1
    ensures forall l :: l in s <==> LinkHash(l) == hash
  {
    if hash == "#dashboard" then {NavDashboard}
    else if hash == "#profile" then {NavProfile}
    else if hash == "#trends" then {NavTrends}
    else if hash == "#auth" then {NavAuth}
    else {}
  }

  /** The fragment a nav click assigns; None when a logout fails. */
  function ClickTarget(l: NavLink, user: Option<User>, logoutSucceeded: bool): (t: Option<string>)
    ensures user.None? ==> t == Some("#auth")
    ensures user.Some? && l != NavAuth ==> t == Some(LinkHash(l))
    ensures t.None? <==> l == NavAuth && user.Some? && !logoutSucceeded
    ensures l == NavAuth && t.Some? ==> t.value == "#auth"
  {
    if l == NavAuth then
      (if user.Some? && !logoutSucceeded then None else Some("#auth"))
    else if user.Some? then Some(LinkHash(l))
    else Some("#auth")
  }

  /** `email.split('@')[0]`: the text before the first `@`. */
  function LocalPart(email: string): (r: string)
    ensures r <= email
    ensures forall k :: 0 <= k < |r| ==> r[k] != '@'
    ensures |r| < |email| ==> email[|r|] == '@'
  {
    if email == [] || email[0] == '@' then [] else [email[0]] + LocalPart(email[1..])
  }

  /** The name in the greeting: the display name if truthy, else the local part of the email. */
  function UserName(u: User): (n: string)
    ensures TruthyText(u.displayName) ==> n == u.displayName.value
    ensures !TruthyText(u.displayName) ==>
      (n <= u.email && (forall k :: 0 <= k < |n| ==> n[k] != '@') && (|n| < |u.email| ==> u.email[|n|] == '@'))
  {
    if TruthyText(u.displayName) then u.displayName.value else LocalPart(u.email)
  }

  /** The navigation chrome for a session. */
  datatype Chrome = Chrome(authText: string, authHref: string, protectedShown: bool, greeting: Option<string>)

  function ChromeFor(user: Option<User>): (c: Chrome)
    ensures c.protectedShown <==> user.Some?
    ensures c.greeting.Some? <==> user.Some?
    ensures user.Some? ==> c.authText == "Logout" && c.authHref == "#logout" && c.greeting == Some(UserName(user.value))
    ensures user.None? ==> c.authText == "Sign In" && c.authHref == "#auth"
  {
    if user.Some? then Chrome("Logout", "#logout", true, Some(UserName(user.value)))
    else Chrome("Sign In", "#auth", false, None)
  }

  /** handleSignUp's check before the identity service is called. */
  function PasswordCheck(password: string, confirm: string): (r: Option<string>)
    ensures r.None? <==> password == confirm
    ensures r.Some? ==> r.value == "Passwords do not match"
  {
    if password != confirm then Some("Passwords do not match") else None
  }

  datatype Tab = SignInTab | SignUpTab

  datatype SignInForm = SignInForm(email: string, password: string)
  datatype SignUpForm = SignUpForm(name: string, email: string, password: string, confirm: string)

  const EmptySignIn: SignInForm := SignInForm("", "")
  const EmptySignUp: SignUpForm := SignUpForm("", "", "", "")

  /** The auth page's tabs, forms and error texts. */
  datatype AuthForms = AuthForms(signInTabActive: bool, signUpTabActive: bool, signInShown: bool, signUpShown: bool,
                                 signInError: string, signUpError: string, signInForm: SignInForm,
                                 signUpForm: SignUpForm)

  /** The auth page as its template shows it: the sign-in tab and form,
      no error texts, every input empty. */
  const FreshAuthForms: AuthForms := AuthForms(true, false, true, false, "", "", EmptySignIn, EmptySignUp)

  /** The dashboard right after it is rendered over the state `s0`: the
      template's cards, status connecting, an enabled button, no message
      and no payment in flight; a pending bill reset and the banner are
      timer-driven and carry over. */
  function RenderedDashboard(s0: ViewState): (s: ViewState)
    ensures s.display == TemplateDisplay && s.status == Readings.Connecting
    ensures !s.payDisabled && s.payMessage == NoMessage && s.inFlight == None
    ensures s.resetsPending == s0.resetsPending && s.bannerShown == s0.bannerShown
  {
    ViewState(TemplateDisplay, Readings.Connecting, false, NoMessage, None, s0.resetsPending, s0.bannerShown)
  }

  class App {
    var hash: string
    /** A hash-change event is waiting to be dispatched. */
    var hashChanged: bool
    var user: Option<User>
    var currentPage: Option<Page>
    /** The page in the app container. */
    var view: Option<Page>
    var active: set<NavLink>

    var authText: string
    var authHref: string
    var protectedShown: bool
    var greeting: Option<string>
    /** The last browser alert. */
    var notice: Option<string>

    var signInTabActive: bool
    var signUpTabActive: bool
    var signInShown: bool
    var signUpShown: bool
    var signInError: string
    var signUpError: string
    var signInForm: SignInForm
    var signUpForm: SignUpForm

    const dash: DashboardView

    /** The listener is live only while the dashboard is the current page,
        and it is the only open subscription. */
    ghost predicate Valid()
      reads this, dash
    {
      && dash.Valid()
      && dash.live == Tracked(dash.listener)
      && (dash.listener.Some? ==> currentPage == Some(DashboardPage))
    }

    function ChromeOf(): Chrome
      reads this
    {
      Chrome(authText, authHref, protectedShown, greeting)
    }

    function Forms(): AuthForms
      reads this
    {
      AuthForms(signInTabActive, signUpTabActive, signInShown, signUpShown, signInError, signUpError,
                signInForm, signUpForm)
    }

    /** The pending events routing still has to dispatch: two for a redirect
        (the redirect and the render), one otherwise. */
    ghost function PendingEvents(): nat
      reads this
    {
      if !hashChanged then 0 else if Decide(hash, user).Redirect? then 2 else 1
    }

    /** The page as loaded, before any event. */
    constructor (initialHash: string)
      ensures Valid() && fresh(dash)
      ensures hash == initialHash && !hashChanged && user == None
      ensures currentPage == None && view == None && active == {}
      ensures ChromeOf() == ChromeFor(None) && dash.live == {}
    {
      hash, hashChanged, user := initialHash, false, None;
      currentPage, view, active := None, None, {};
      authText, authHref, protectedShown, greeting := "Sign In", "#auth", false, None;
      notice := None;
      signInTabActive, signUpTabActive, signInShown, signUpShown := true, false, true, false;
      signInError, signUpError := "", "";
      signInForm, signUpForm := EmptySignIn, EmptySignUp;
      dash := new DashboardView();
    }

    /** `window.location.hash = h` */
    method AssignHash(h: string)
      modifies this`hash, this`hashChanged
      ensures hash == h
      ensures hashChanged == (old(hashChanged) || h != old(hash))
    {
      if h != hash {
        hash := h;
        hashChanged := true;
      }
    }

    /** cleanupCurrentPage: releases the dashboard listener when the current
        page is the dashboard; afterwards no subscription is open. */
    method CleanupCurrentPage() returns (cancelled: Option<nat>)
      requires Valid()
      modifies dash`listener, dash`live
      ensures Valid()
      ensures cancelled == (if old(currentPage) == Some(DashboardPage) then old(dash.listener) else None)
      ensures cancelled == old(dash.listener)
      ensures dash.listener == None && dash.live == {}
    {
      cancelled := None;
      if currentPage == Some(DashboardPage) {
        cancelled := dash.CleanupConsumptionListener();
      }
    }

    /** updateActiveNavigation */
    method UpdateActiveNavigation(h: string)
      modifies this`active
      ensures active == ActiveLinks(h)
    {
      active := {};
      if h == "#dashboard" {
        active := {NavDashboard};
      } else if h == "#profile" {
        active := {NavProfile};
      } else if h == "#trends" {
        active := {NavTrends};
      } else if h == "#auth" {
        active := {NavAuth};
      }
    }

    /** renderDashboardPage: the only render that opens a subscription. */
    method RenderDashboardPage()
      requires Valid() && dash.live == {}
      modifies this`currentPage, this`view, dash
      ensures Valid()
      ensures currentPage == Some(DashboardPage) && view == Some(DashboardPage)
      ensures dash.listener == Some(old(dash.nextId)) && dash.live == {dash.listener.value}
      ensures dash.payments == old(dash.payments)
      ensures dash.State() == RenderedDashboard(old(dash.State()))
    {
      currentPage := Some(DashboardPage);
      view := Some(DashboardPage);
      dash.Render();
    }

    /** renderProfilePageWrapper (the profile view itself is not modelled). */
    method RenderProfilePageWrapper()
      requires Valid() && dash.live == {}
      modifies this`currentPage, this`view
      ensures Valid()
      ensures currentPage == Some(ProfilePage) && view == Some(ProfilePage)
    {
      currentPage := Some(ProfilePage);
      view := Some(ProfilePage);
    }

    /** renderTrendsPageWrapper: the current page is set at once; the view
        changes only when the module import resolves (TrendsModuleLoaded). */
    method RenderTrendsPageWrapper()
      requires Valid() && dash.live == {}
      modifies this`currentPage
      ensures Valid()
      ensures currentPage == Some(TrendsPage)
    {
      currentPage := Some(TrendsPage);
    }

    /** The trends module import resolves and renders its view into the app
        container, whatever the route is by then (the view's content is not
        modelled). */
    method TrendsModuleLoaded()
      modifies this`view
      ensures view == Some(TrendsPage)
    {
      view := Some(TrendsPage);
    }

    /** The failure of the trends module import, which comes later. */
    method TrendsModuleFailed()
      modifies this`hash, this`hashChanged
      ensures hash == "#dashboard" && hashChanged == (old(hashChanged) || old(hash) != "#dashboard")
    {
      AssignHash("#dashboard");
    }

    /** renderAuthPage: the template shows the sign-in form and tab. */
    method RenderAuthPage()
      requires Valid() && dash.live == {}
      modifies this`currentPage, this`view, this`signInTabActive, this`signUpTabActive, this`signInShown,
        this`signUpShown, this`signInError, this`signUpError, this`signInForm, this`signUpForm
      ensures Valid()
      ensures currentPage == Some(AuthPage) && view == Some(AuthPage)
      ensures signInShown && !signUpShown && signInTabActive && !signUpTabActive
      ensures signInError == "" && signUpError == "" && signInForm == EmptySignIn && signUpForm == EmptySignUp
      ensures Forms() == FreshAuthForms
    {
      currentPage := Some(AuthPage);
      view := Some(AuthPage);
      signInTabActive, signUpTabActive, signInShown, signUpShown := true, false, true, false;
      signInError, signUpError := "", "";
      signInForm, signUpForm := EmptySignIn, EmptySignUp;
    }

    /** The outcome of routing the decision `d`, against the state before
        it: `h0` the fragment, `c0` the pending-event flag, `p0`, `v0` and
        `a0` the current page, the view and the active links, `f0` the auth
        forms and `s0` the dashboard's view state. A render sets the page,
        the view (trends waits for its import) and the active link, and keeps
        the fragment; a redirect assigns the target, raises an event and
        keeps the page, the view and the links; `#logout` keeps the page and
        clears the active links. Only an auth render touches the forms, and
        only a dashboard render touches the dashboard, which then alone holds
        a subscription; each leaves its page as its template shows it. */
    ghost predicate RoutedBy(d: Decision, h0: string, c0: bool, p0: Option<Page>, v0: Option<Page>,
                             a0: set<NavLink>, f0: AuthForms, s0: ViewState)
      reads this, dash
    {
      && (dash.listener.Some? <==> d == Render(DashboardPage))
      && (d.Render? ==> (currentPage == Some(d.page) && view == (if d.page == TrendsPage then v0 else currentPage)
                         && active == ActiveLinks(Effective(h0)) && hash == h0 && hashChanged == c0))
      && (d.Redirect? ==> (hash == d.target && hashChanged && currentPage == p0 && view == v0 && active == a0))
      && (d == Inert ==> (hash == h0 && hashChanged == c0 && currentPage == p0 && view == v0 && active == {}))
      && (d != Render(AuthPage) ==> Forms() == f0)
      && (d != Render(DashboardPage) ==> dash.State() == s0)
      && (d == Render(AuthPage) ==> Forms() == FreshAuthForms)
      && (d == Render(DashboardPage) ==> dash.State() == RenderedDashboard(s0))
    }

    /** handleRouteChange: cleanup first, then the route switch, with the
        outcome RoutedBy states for the decision on the old fragment. The
        subscription open before is closed afterwards. */
    method HandleRouteChange()
      requires Valid()
      modifies this`hash, this`hashChanged, this`currentPage, this`view, this`active, this`signInTabActive,
        this`signUpTabActive, this`signInShown, this`signUpShown, this`signInError, this`signUpError,
        this`signInForm, this`signUpForm, dash
      ensures Valid()
      ensures user == old(user) && ChromeOf() == old(ChromeOf()) && dash.payments == old(dash.payments)
      ensures notice == old(notice)
      ensures old(dash.live) !! dash.live
      ensures RoutedBy(Decide(old(hash), user), old(hash), old(hashChanged), old(currentPage), old(view), old(active), old(Forms()), old(dash.State()))
    {
      var d := Decide(hash, user);
      var _ := CleanupCurrentPage();
      ghost var before := dash.nextId;
      Route(d);
      assert dash.live == Tracked(dash.listener) && (dash.listener.Some? ==> dash.listener.value == before);
    }

    /** The route switch after the cleanup: a redirect assigns the target;
        otherwise the page's render, if any, then updateActiveNavigation
        (which `#logout` reaches too, and where it marks no link). */
    method Route(d: Decision)
      requires Valid() && dash.live == {} && d == Decide(hash, user)
      modifies this`hash, this`hashChanged, this`currentPage, this`view, this`active, this`signInTabActive,
        this`signUpTabActive, this`signInShown, this`signUpShown, this`signInError, this`signUpError,
        this`signInForm, this`signUpForm, dash
      ensures Valid() && dash.payments == old(dash.payments)
      ensures dash.listener.Some? ==> dash.listener.value == old(dash.nextId)
      ensures RoutedBy(d, old(hash), old(hashChanged), old(currentPage), old(view), old(active), old(Forms()), old(dash.State()))
    {
      if d.Redirect? {
        RedirectsDoNotChain(hash, user);
        AssignHash(d.target);
        return;
      }
      if d.Render? {
        RenderPage(d.page);
      }
      UpdateActiveNavigation(Effective(hash));
    }

    /** The render wrapper for a page. */
    method RenderPage(page: Page)
      requires Valid() && dash.live == {}
      modifies this`currentPage, this`view, this`signInTabActive, this`signUpTabActive, this`signInShown,
        this`signUpShown, this`signInError, this`signUpError, this`signInForm, this`signUpForm, dash
      ensures Valid()
      ensures currentPage == Some(page) && view == (if page == TrendsPage then old(view) else Some(page))
      ensures dash.listener.Some? <==> page == DashboardPage
      ensures dash.listener.Some? ==> dash.listener.value == old(dash.nextId)
      ensures dash.payments == old(dash.payments) && notice == old(notice)
      ensures page != AuthPage ==> Forms() == old(Forms())
      ensures page != DashboardPage ==> dash.State() == old(dash.State())
      ensures page == AuthPage ==> Forms() == FreshAuthForms
      ensures page == DashboardPage ==> dash.State() == RenderedDashboard(old(dash.State()))
    {
      match page
      case DashboardPage => RenderDashboardPage();
      case ProfilePage => RenderProfilePageWrapper();
      case TrendsPage => RenderTrendsPageWrapper();
      case AuthPage => RenderAuthPage();
    }

    /** initializeApp's initial route, evaluated directly (the observer and
        the listeners it registers are the event methods of this class). */
    method InitializeApp()
      requires Valid()
      modifies this, dash
      ensures Valid()
      ensures user == old(user) && ChromeOf() == old(ChromeOf()) && dash.payments == old(dash.payments)
      ensures notice == old(notice)
      ensures RoutedBy(Decide(old(hash), user), old(hash), old(hashChanged), old(currentPage), old(view), old(active), old(Forms()), old(dash.State()))
    {
      HandleRouteChange();
    }

    /** The browser delivers a pending hash-change event, if there is one:
        the flag is cleared and the route change runs once. */
    method DispatchHashChange()
      requires Valid()
      modifies this, dash
      ensures Valid()
      ensures user == old(user) && ChromeOf() == old(ChromeOf()) && dash.payments == old(dash.payments)
      ensures notice == old(notice)
      ensures !old(hashChanged) ==> (hash == old(hash) && !hashChanged && currentPage == old(currentPage)
        && view == old(view) && active == old(active) && Forms() == old(Forms())
        && dash.State() == old(dash.State()) && dash.listener == old(dash.listener) && dash.live == old(dash.live))
      ensures old(hashChanged) ==> RoutedBy(Decide(old(hash), user), old(hash), false, old(currentPage), old(view),
                                            old(active), old(Forms()), old(dash.State()))
    {
      if hashChanged {
        hashChanged := false;
        HandleRouteChange();
      }
    }

    /** The event loop until no hash-change event is pending: at most two
        route evaluations, ending on the resolved fragment with its page. */
    /** The state once routing has come to rest on the decision `d` (a
        render or `#logout`; never a redirect), against the page `p0`, the
        view `v0`, the auth forms `f0` and the dashboard state `s0` from
        before the events: the active links follow the fragment (none for
        `#logout`), a render makes its page current and shown (trends waits
        for its import) and leaves its own page as the template shows it,
        everything else is kept, and a subscription is open exactly for the
        dashboard. */
    ghost predicate Settled(d: Decision, p0: Option<Page>, v0: Option<Page>, f0: AuthForms, s0: ViewState)
      reads this, dash
    {
      && !d.Redirect?
      && active == (if d == Inert then {} else ActiveLinks(Effective(hash)))
      && (d.Render? ==> currentPage == Some(d.page) && view == (if d.page == TrendsPage then v0 else Some(d.page)))
      && (d == Inert ==> currentPage == p0 && view == v0)
      && Forms() == (if d == Render(AuthPage) then FreshAuthForms else f0)
      && dash.State() == (if d == Render(DashboardPage) then RenderedDashboard(s0) else s0)
      && (dash.listener.Some? <==> d == Render(DashboardPage))
    }

    method Settle() returns (events: nat)
      requires Valid()
      modifies this, dash
      ensures Valid() && !hashChanged && user == old(user)
      ensures events == old(PendingEvents()) && events <= 2
      ensures old(hashChanged) ==> hash == Resolve(old(hash), user)
      ensures old(hashChanged) && Decide(hash, user).Render? ==> currentPage == Some(Decide(hash, user).page)
      ensures dash.listener.Some? ==> currentPage == Some(DashboardPage)
      ensures dash.payments == old(dash.payments) && ChromeOf() == old(ChromeOf()) && notice == old(notice)
      ensures !old(hashChanged) ==> (hash == old(hash) && currentPage == old(currentPage) && view == old(view)
        && active == old(active) && Forms() == old(Forms()) && dash.State() == old(dash.State())
        && dash.listener == old(dash.listener))
      ensures old(hashChanged) ==> (dash.listener.Some? <==> Decide(hash, user) == Render(DashboardPage))
      ensures old(hashChanged) ==> Settled(Decide(hash, user), old(currentPage), old(view), old(Forms()), old(dash.State()))
    {
      events := 0;
      while hashChanged
        invariant Valid() && user == old(user)
        invariant events + PendingEvents() == old(PendingEvents())
        invariant old(hashChanged) ==> Resolve(hash, user) == Resolve(old(hash), user)
        invariant !old(hashChanged) ==> (events == 0 && !hashChanged && hash == old(hash)
          && currentPage == old(currentPage) && view == old(view) && active == old(active)
          && Forms() == old(Forms()) && dash.State() == old(dash.State()) && dash.listener == old(dash.listener))
        invariant old(hashChanged) && !hashChanged ==> !Decide(hash, user).Redirect?
        invariant old(hashChanged) && !hashChanged && Decide(hash, user).Render? ==>
          currentPage == Some(Decide(hash, user).page)
        invariant dash.payments == old(dash.payments) && ChromeOf() == old(ChromeOf()) && notice == old(notice)
        invariant old(hashChanged) && !hashChanged ==> (dash.listener.Some? <==> Decide(hash, user) == Render(DashboardPage))
        invariant old(hashChanged) && hashChanged ==> (currentPage == old(currentPage) && view == old(view)
          && Forms() == old(Forms()) && dash.State() == old(dash.State()))
        invariant old(hashChanged) && !hashChanged ==>
          Settled(Decide(hash, user), old(currentPage), old(view), old(Forms()), old(dash.State()))
        decreases PendingEvents()
      {
        if Decide(hash, user).Redirect? {
          RedirectsDoNotChain(hash, user);
        }
        DispatchHashChange();
        events := events + 1;
      }
    }

    /** A fragment entered by the user (or a link followed), then routing. */
    method Navigate(h: string) returns (events: nat)
      requires Valid()
      modifies this, dash
      ensures Valid() && !hashChanged && events <= 2
      ensures user == old(user) && ChromeOf() == old(ChromeOf()) && notice == old(notice)
      ensures dash.payments == old(dash.payments)
      ensures old(hashChanged) || h != old(hash) ==> hash == Resolve(h, user)
      ensures (old(hashChanged) || h != old(hash)) && Decide(hash, user).Render? ==>
        currentPage == Some(Decide(hash, user).page)
      ensures old(hashChanged) || h != old(hash) ==>
        (dash.listener.Some? <==> Decide(hash, user) == Render(DashboardPage))
      ensures old(hashChanged) || h != old(hash) ==>
        Settled(Decide(hash, user), old(currentPage), old(view), old(Forms()), old(dash.State()))
      ensures !old(hashChanged) && h == old(hash) ==> (hash == old(hash) && currentPage == old(currentPage)
        && view == old(view) && active == old(active) && Forms() == old(Forms()) && dash.State() == old(dash.State())
        && dash.listener == old(dash.listener))
      ensures dash.listener.Some? ==> currentPage == Some(DashboardPage)
    {
      AssignHash(h);
      events := Settle();
    }

    /** updateNavigation */
    method UpdateNavigation(u: Option<User>)
      modifies this`authText, this`authHref, this`protectedShown, this`greeting
      ensures ChromeOf() == ChromeFor(u)
    {
      if u.Some? {
        authText, authHref := "Logout", "#logout";
        protectedShown := true;
        greeting := Some(UserName(u.value));
      } else {
        authText, authHref := "Sign In", "#auth";
        protectedShown := false;
        greeting := None;
      }
    }

    /** The auth-state observer: the new session, the chrome for it, and the
        fragment handleAuthStateChange forces. */
    method HandleAuthStateChange(u: Option<User>)
      requires Valid()
      modifies this`user, this`authText, this`authHref, this`protectedShown, this`greeting, this`hash, this`hashChanged
      ensures Valid()
      ensures user == u && ChromeOf() == ChromeFor(u)
      ensures hash == AfterAuth(old(hash), u)
      ensures hashChanged == (old(hashChanged) || hash != old(hash))
    {
      user := u;
      UpdateNavigation(u);
      var target := AuthTarget(hash, u);
      if target.Some? {
        AssignHash(target.value);
      }
    }

    /** A click on a nav link. The auth link signs a user out; when that
        fails an alert is shown and the fragment stays. */
    method ClickNav(l: NavLink, logoutSucceeded: bool)
      modifies this`hash, this`hashChanged, this`notice
      ensures ClickTarget(l, user, logoutSucceeded).Some? ==>
        (hash == ClickTarget(l, user, logoutSucceeded).value && notice == old(notice)
         && hashChanged == (old(hashChanged) || hash != old(hash)))
      ensures ClickTarget(l, user, logoutSucceeded).None? ==>
        (hash == old(hash) && hashChanged == old(hashChanged) && notice == Some("Failed to logout. Please try again."))
    {
      if l == NavAuth {
        if user.Some? {
          if logoutSucceeded {
            AssignHash("#auth");
          } else {
            notice := Some("Failed to logout. Please try again.");
          }
        } else {
          AssignHash("#auth");
        }
      } else if user.Some? {
        AssignHash(LinkHash(l));
      } else {
        AssignHash("#auth");
      }
    }

    /** switchAuthTab: one form shown, its tab active, both errors cleared. */
    method SwitchAuthTab(tab: Tab)
      modifies this`signInTabActive, this`signUpTabActive, this`signInShown, this`signUpShown,
        this`signInError, this`signUpError
      ensures signInShown != signUpShown && signInTabActive != signUpTabActive
      ensures signInShown <==> tab == SignInTab
      ensures signInTabActive == signInShown
      ensures signInError == "" && signUpError == ""
    {
      if tab == SignInTab {
        signInTabActive, signUpTabActive := true, false;
        signInShown, signUpShown := true, false;
      } else {
        signUpTabActive, signInTabActive := true, false;
        signUpShown, signInShown := true, false;
      }
      signInError := "";
      signUpError := "";
    }

    /** The user types into the sign-up form. */
    method EnterSignUp(form: SignUpForm)
      modifies this`signUpForm
      ensures signUpForm == form
    {
      signUpForm := form;
    }

    /** The user types into the sign-in form. */
    method EnterSignIn(form: SignInForm)
      modifies this`signInForm
      ensures signInForm == form
    {
      signInForm := form;
    }

    /** handleSignIn; `serviceError` is the identity service's failure. */
    method HandleSignIn(serviceError: Option<string>)
      modifies this`signInError, this`signInForm
      ensures serviceError.Some? ==> signInError == serviceError.value && signInForm == old(signInForm)
      ensures serviceError.None? ==> signInError == "" && signInForm == EmptySignIn
    {
      signInError := "";
      if serviceError.Some? {
        signInError := serviceError.value;
      } else {
        signInForm := EmptySignIn;
      }
    }

    /** handleSignUp: passwords must match before the identity service is
        called; `serviceError` is that call's failure. */
    method HandleSignUp(serviceError: Option<string>) returns (registerCalled: bool)
      modifies this`signUpError, this`signUpForm
      ensures registerCalled <==> old(signUpForm).password == old(signUpForm).confirm
      ensures !registerCalled ==> signUpError == "Passwords do not match" && signUpForm == old(signUpForm)
      ensures registerCalled && serviceError.Some? ==> signUpError == serviceError.value && signUpForm == old(signUpForm)
      ensures registerCalled && serviceError.None? ==> signUpError == "" && signUpForm == EmptySignUp
    {
      signUpError := "";
      var mismatch := PasswordCheck(signUpForm.password, signUpForm.confirm);
      if mismatch.Some? {
        signUpError := mismatch.value;
        return false;
      }
      registerCalled := true;
      if serviceError.Some? {
        signUpError := serviceError.value;
      } else {
        signUpForm := EmptySignUp;
      }
    }
  }

  /** Whatever the events so far, the controller's invariant allows at most
      one open subscription. */
  lemma AtMostOneSubscription(a: App)
    requires a.Valid()
    ensures |a.dash.live| <= 1
    ensures a.dash.live != {} ==> a.currentPage == Some(DashboardPage)
  {
  }
}
