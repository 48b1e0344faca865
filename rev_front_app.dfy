/**
 * The shell of the older front end (frontend/rev-front/src/App.jsx): a sidebar that sets the
 * active view, a search box, and a main area that shows the user table, the login form, the
 * registration form, or the filtered category listing.
 */
module RevFrontApp {
  import opened Sidebar
  import opened CategorySearch

  /** The sidebar items' keys, top to bottom. */
  const SidebarKeys: seq<string> := ["home", "search", "members", "ratings", "settings", "users", "register", "login"]

  datatype Screen = UserTableScreen | LoginScreen | RegisterScreen | ListingScreen(categories: seq<Category>)

  /** The view chosen in the main area: three keys have a component, any other shows the listing. */
  function SelectScreen(activeView: string, searchQuery: string): (s: Screen)
    ensures s == UserTableScreen <==> activeView == "users"
    ensures s == LoginScreen <==> activeView == "login"
    ensures s == RegisterScreen <==> activeView == "register"
    ensures s.ListingScreen? <==> activeView !in {"users", "login", "register"}
    ensures s.ListingScreen? ==> s.categories == FilterData(Catalogue, searchQuery)
  {
    if activeView == "users" then UserTableScreen
    else if activeView == "login" then LoginScreen
    else if activeView == "register" then RegisterScreen
    else ListingScreen(FilterData(Catalogue, searchQuery))
  }

  /** The sidebar's keys are distinct, so at most one item is marked active, whatever the active view. */
  lemma AtMostOneActive(activeView: string)
    ensures Distinct(SidebarKeys)
    ensures forall i, j :: (0 <= i < |SidebarKeys| && 0 <= j < |SidebarKeys| &&
                            ActiveMarks(SidebarKeys, activeView)[i] && ActiveMarks(SidebarKeys, activeView)[j]) ==> i == j
  {
    var keys := SidebarKeys;
    forall i, j | 0 <= i < j < |keys| ensures keys[i] != keys[j] {
      assert keys[i][0] != keys[j][0] || |keys[i]| != |keys[j]|;
    }
  }

  /**
   * After a click on item `i`, exactly that item is marked active, and the listing is shown iff the
   * item is one of the first five (home to settings), the ones that do not select a form.
   */
  lemma ClickMarksItem(i: nat, searchQuery: string)
    requires i < |SidebarKeys|
    ensures ActiveMarks(SidebarKeys, SidebarKeys[i])[i]
    ensures forall j :: 0 <= j < |SidebarKeys| && ActiveMarks(SidebarKeys, SidebarKeys[i])[j] ==> j == i
    ensures SelectScreen(SidebarKeys[i], searchQuery).ListingScreen? <==> i < 5
  {
    AtMostOneActive(SidebarKeys[i]);
  }

  /** The state of the App component. The search box's `onChange` assigns `searchQuery`. */
  class Shell {
    var searchQuery: string
    var activeView: string

    constructor ()
      ensures searchQuery == "" && activeView == "home"
    {
      searchQuery := "";
      activeView := "home";
    }

    /** `onClick={() => setActiveView(key)}` of the `i`-th sidebar item; nothing else changes. */
    method ClickItem(i: nat)
      requires i < |SidebarKeys|
      modifies this`activeView
      ensures activeView == SidebarKeys[i]
      ensures forall j :: 0 <= j < |SidebarKeys| ==> (ActiveMarks(SidebarKeys, activeView)[j] <==> j == i)
    {
      activeView := SidebarKeys[i];
      AtMostOneActive(activeView);
    }

    /** What the main area shows. */
    function Shown(): Screen
      reads this
    {
      SelectScreen(activeView, searchQuery)
    }
  }
}
