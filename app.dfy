/**
 * The shell of the current front end (frontend/src/App.jsx): the sidebar sets the active view;
 * 'home' shows the theme list, 'login' and 'register' the forms, anything else a placeholder.
 */
module App {
  import opened Sidebar
  import opened Text

  /** The sidebar items' keys, top to bottom. */
  const SidebarKeys: seq<string> := ["home", "search", "members", "ratings", "settings", "register", "login"]

  datatype Screen = ThemesScreen | LoginScreen | RegisterScreen | PlaceholderScreen(text: string)

  /** The placeholder paragraph for a view that has no content yet; it names the view. */
  function PlaceholderText(activeView: string): (t: string)
    ensures Contains(t, activeView)
  {
    var lead := "Содержимое для раздела \"";
    var t := lead + activeView + "\" будет добавлено позже.";
    assert t[|lead|..] == activeView + "\" будет добавлено позже.";
    ContainsAt(t, activeView, |lead|);
    t
  }

  /** The view chosen in the main area. */
  function SelectScreen(activeView: string): (s: Screen)
    ensures s == ThemesScreen <==> activeView == "home"
    ensures s == LoginScreen <==> activeView == "login"
    ensures s == RegisterScreen <==> activeView == "register"
    ensures s.PlaceholderScreen? <==> activeView !in {"home", "login", "register"}
    ensures s.PlaceholderScreen? ==> s.text == PlaceholderText(activeView)
  {
    if activeView == "home" then ThemesScreen
    else if activeView == "login" then LoginScreen
    else if activeView == "register" then RegisterScreen
    else PlaceholderScreen(PlaceholderText(activeView))
  }

  /** The sidebar's keys are distinct, so at most one item is marked active, whatever the active view. */
  lemma AtMostOneActive(activeView: string)
    ensures Distinct(SidebarKeys)
    ensures forall i, j :: (0 <= i < |SidebarKeys| && 0 <= j < |SidebarKeys| &&
                            ActiveMarks(SidebarKeys, activeView)[i] && ActiveMarks(SidebarKeys, activeView)[j]) ==> i == j
  {
    var keys := SidebarKeys;
    forall i, j | 0 <= i < j < |keys| ensures keys[i] != keys[j] {
      assert keys[i][0] != keys[j][0] || |keys[i]| != |keys[j]|;
    }
  }

  /** The state of the App component. The search box's `onChange` assigns `searchQuery`. */
  class Shell {
    var searchQuery: string
    var activeView: string

    constructor ()
      ensures searchQuery == "" && activeView == "home"
      ensures SelectScreen(activeView) == ThemesScreen
    {
      searchQuery := "";
      activeView := "home";
    }

    /** `onClick={() => setActiveView(key)}` of the `i`-th sidebar item; the search query is kept. */
    method ClickItem(i: nat)
      requires i < |SidebarKeys|
      modifies this`activeView
      ensures activeView == SidebarKeys[i]
      ensures forall j :: 0 <= j < |SidebarKeys| ==> (ActiveMarks(SidebarKeys, activeView)[j] <==> j == i)
    {
      activeView := SidebarKeys[i];
      AtMostOneActive(activeView);
    }

    /** What the main area shows. */
    function Shown(): Screen
      reads this
    {
      SelectScreen(activeView)
    }
  }
}
