/**
 * The page router (MainApp): the current page, the redirect effect that reacts to the session,
 * navigation, and the choice of what to render.
 */
module Router {
  import opened Wrappers
  import opened Domain
  import Auth

  /** What fills the main area of the signed-in layout. */
  datatype Content = ProductList | CartView | OrdersView | AdminDashboard | AccessDenied | NoContent

  /** The screen MainApp renders. */
  datatype Screen = LoadingScreen | LoginForm | RegisterForm | Shell(page: string, content: Content)

  /** The redirect effect on (page, user, loading). */
  function Redirect(page: string, user: Option<User>, isLoading: bool): (r: string)
    ensures r == page || (!isLoading && (r == "login" || r == "products"))
  {
    if !isLoading && user.None? then "login"
    else if !isLoading && user.Some? && (page == "login" || page == "register") then "products"
    else page
  }

  /** Without a user, once loading is over, every page becomes the login page, the register page included. */
  lemma RedirectAnonymous(page: string, user: Option<User>, isLoading: bool)
    requires !isLoading && user.None?
    ensures Redirect(page, user, isLoading) == "login"
  {
  }

  /** With a user, the two authentication pages go to the product list and every other page stays. */
  lemma RedirectSignedIn(page: string, user: Option<User>, isLoading: bool)
    requires !isLoading && user.Some?
    ensures page == "login" || page == "register" ==> Redirect(page, user, isLoading) == "products"
    ensures page != "login" && page != "register" ==> Redirect(page, user, isLoading) == page
  {
  }

  /** While the session is loading the page is left alone. */
  lemma RedirectWhileLoading(page: string, user: Option<User>)
    ensures Redirect(page, user, true) == page
  {
  }

  /** Redirecting twice is redirecting once: the effect re-run the first redirect triggers changes nothing. */
  lemma RedirectIdempotent(page: string, user: Option<User>, isLoading: bool)
    ensures Redirect(Redirect(page, user, isLoading), user, isLoading) == Redirect(page, user, isLoading)
  {
  }

  /** The pages the redirect leaves where they are, for each session state. */
  lemma RedirectFixedPoints(page: string, user: Option<User>, isLoading: bool)
    ensures Redirect(page, user, isLoading) == page <==>
      || isLoading
      || (user.None? && page == "login")
      || (user.Some? && page != "login" && page != "register")
  {
  }

  /** What MainApp renders for a page and a session. */
  function Render(page: string, user: Option<User>, isLoading: bool): (s: Screen)
    ensures s.Shell? ==> !isLoading && user.Some? && s.page == page
    ensures s.Shell? && s.content == AdminDashboard ==> user.Some? && user.value.isAdmin
  {
    if isLoading then LoadingScreen
    else if user.None? then (if page == "register" then RegisterForm else LoginForm)
    else
      Shell(page,
        if page == "products" then ProductList
        else if page == "cart" then CartView
        else if page == "orders" then OrdersView
        else if page == "admin" then (if user.value.isAdmin then AdminDashboard else AccessDenied)
        else NoContent)
  }

  /** The admin dashboard renders exactly on the admin page for an administrator; other users get access denied there. */
  lemma AdminGate(page: string, user: Option<User>, isLoading: bool)
    ensures Render(page, user, isLoading) == Shell(page, AdminDashboard) <==>
      !isLoading && page == "admin" && Auth.IsAdmin(user)
    ensures Render(page, user, isLoading) == Shell(page, AccessDenied) <==>
      !isLoading && page == "admin" && user.Some? && !user.value.isAdmin
  {
  }

  /** Without a user the register form renders exactly on the register page, the login form on every other. */
  lemma AnonymousForms(page: string, user: Option<User>)
    requires user.None?
    ensures Render(page, user, false) == RegisterForm <==> page == "register"
    ensures Render(page, user, false) == LoginForm <==> page != "register"
  {
  }

  /** Loading shows the loading screen and nothing else. */
  lemma LoadingScreenOnlyWhileLoading(page: string, user: Option<User>, isLoading: bool)
    ensures Render(page, user, isLoading) == LoadingScreen <==> isLoading
  {
  }

  /**
   * A page the redirect has settled never shows the register form: navigating to 'register'
   * without a user is undone by the effect before the form can stay on screen.
   */
  lemma SettledPageNeverShowsRegister(page: string, user: Option<User>, isLoading: bool)
    requires Redirect(page, user, isLoading) == page
    ensures Render(page, user, isLoading) != RegisterForm
  {
  }

  /** The shell renders only for a signed-in user, and never on an authentication page once redirected. */
  lemma SettledShellPages(page: string, user: Option<User>, isLoading: bool)
    requires Redirect(page, user, isLoading) == page
    ensures Render(page, user, isLoading).Shell? ==> user.Some? && page != "login" && page != "register"
  {
  }

  class App {
    const session: Auth.SessionStore
    var currentPage: string

    /** The first render shows the product page. */
    constructor (session: Auth.SessionStore)
      ensures this.session == session && currentPage == "products"
    {
      this.session := session;
      currentPage := "products";
    }

    /** The redirect effect, run whenever the user, the loading flag or the page changes. */
    method RedirectEffect()
      modifies this
      ensures currentPage == Redirect(old(currentPage), session.user, session.isLoading)
    {
      if !session.isLoading && session.user.None? {
        currentPage := "login";
      } else if !session.isLoading && session.user.Some? {
        if currentPage == "login" || currentPage == "register" {
          currentPage := "products";
        }
      }
    }

    /** `handleNavigate`: the page becomes exactly the one asked for. */
    method Navigate(page: string)
      modifies this
      ensures currentPage == page
    {
      currentPage := page;
    }

    /** The screen MainApp renders for the current page and session. */
    function View(): (s: Screen)
      reads this, session
      ensures s == LoadingScreen <==> session.isLoading
      ensures s.Shell? ==> session.user.Some? && s.page == currentPage
    {
      Render(currentPage, session.user, session.isLoading)
    }
  }

  /** Navigating to the register page without a user ends on the login form once the effect has run. */
  method NavigateToRegisterAnonymously(app: App)
    requires app.session.user.None? && !app.session.isLoading
    modifies app
    ensures app.currentPage == "login" && app.View() == LoginForm
  {
    app.Navigate("register");
    app.RedirectEffect();
  }
}
