/** The application shell of src/App.tsx: the authentication state it owns and
    provides to every page through the auth context, its `logout`, and the route
    table from paths to pages. */
module App {
  import opened Json
  import opened AuthService

  /** The pages the router can show. */
  datatype Page = HomePage | ProductsPage | SpecsPage | ContactPage | AboutPage | LoginPage | RegisterPage

  /** The home page's path, where `navigate('/')` leads. */
  const HomePath: string := "/"

  /** The `<Routes>` table, in declaration order. */
  const Routes: seq<(string, Page)> := [
    (HomePath, HomePage),
    ("/products", ProductsPage),
    ("/specs", SpecsPage),
    ("/contact", ContactPage),
    ("/about", AboutPage),
    ("/login", LoginPage),
    ("/register", RegisterPage)
  ]

  /** The first entry of `table` whose path is `path`. */
  function RouteIn(table: seq<(string, Page)>, path: string): (p: Option<Page>)
    ensures p.Some? <==> exists i :: 0 <= i < |table| && table[i].0 == path
    ensures p.Some? ==> exists i :: 0 <= i < |table| && table[i] == (path, p.value)
    decreases |table|
  {
    if table == [] then None
    else if table[0].0 == path then Some(table[0].1)
    else
      var rest := RouteIn(table[1..], path);
      assert forall i :: 1 <= i < |table| ==> table[i] == table[1..][i - 1];
      assert rest.Some? ==> exists i :: 1 <= i < |table| && table[i] == (path, rest.value);
      rest
  }

  /** The page the router shows at `path`, if any. */
  function Route(path: string): (p: Option<Page>)
    ensures p.Some? <==> exists i :: 0 <= i < |Routes| && Routes[i].0 == path
    ensures p.Some? ==> exists i :: 0 <= i < |Routes| && Routes[i] == (path, p.value)
  {
    RouteIn(Routes, path)
  }

  /** Seven routes with pairwise distinct paths, each to a different page. */
  lemma RoutesDistinct()
    ensures |Routes| == 7
    ensures forall i, j :: 0 <= i < j < |Routes| ==> Routes[i].0 != Routes[j].0 && Routes[i].1 != Routes[j].1
  {
  }

  /** No route serves '/logout'. */
  lemma LogoutIsNotRouted()
    ensures Route("/logout") == None
  {
  }

  /** The state App owns: whether someone is signed in, who, and the loading flag. */
  class AppState {
    var isAuthenticated: bool
    var user: Option<UserInfo>
    var isLoading: bool

    /** Nothing ever sets `isLoading`, so the loading overlay is never shown. */
    predicate Valid()
      reads this
    {
      !isLoading
    }

    constructor ()
      ensures !isAuthenticated && user == None && !isLoading
      ensures Valid()
    {
      isAuthenticated := false;
      user := None;
      isLoading := false;
    }

    /** `setIsAuthenticated(value)`. */
    method SetIsAuthenticated(value: bool)
      requires Valid()
      modifies this
      ensures Valid()
      ensures isAuthenticated == value && user == old(user) && isLoading == old(isLoading)
    {
      isAuthenticated := value;
    }

    /** `setUser(value)`. */
    method SetUser(value: Option<UserInfo>)
      requires Valid()
      modifies this
      ensures Valid()
      ensures user == value && isAuthenticated == old(isAuthenticated) && isLoading == old(isLoading)
    {
      user := value;
    }

    /** `logout`: signs out and forgets the user; nothing else, the stored token
        included, is touched. */
    method Logout()
      requires Valid()
      modifies this
      ensures Valid()
      ensures !isAuthenticated && user == None && isLoading == old(isLoading)
    {
      isAuthenticated := false;
      user := None;
    }

    /** `{isLoading && <Loading />}`. */
    function ShowsLoading(): (shown: bool)
      reads this
      ensures Valid() ==> !shown
    {
      isLoading
    }
  }
}
