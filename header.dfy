/** The top bar: the path each navigation tab leads to, the highlighted tab,
    the account menu with its logout, and the avatar's letter. Case mapping
    is modelled on ASCII letters. */
module Header {
  import opened Wrappers
  import opened ClientTypes
  import Auth

  function LowerChar(c: char): char {
    if 'A' <= c <= 'Z' then (c as int + 32) as char else c
  }

  function UpperChar(c: char): char {
    if 'a' <= c <= 'z' then (c as int - 32) as char else c
  }

  /** `toLowerCase()`. */
  function Lower(s: string): (r: string)
    ensures |r| == |s| && forall i :: 0 <= i < |s| ==> r[i] == LowerChar(s[i])
  {
    seq(|s|, i requires 0 <= i < |s| => LowerChar(s[i]))
  }

  /** `replace(' ', '-')` with a string pattern: only the first space. */
  function ReplaceFirstSpace(s: string): string {
    if s == [] then []
    else if s[0] == ' ' then ['-'] + s[1..]
    else [s[0]] + ReplaceFirstSpace(s[1..])
  }

  const NavItems: seq<string> := ["Dashboard", "Insights", "Watchlist", "Portfolio", "AI Advisor", "Settings"]

  /** The path a tab click navigates to. */
  function TabPath(page: string): string {
    if page == "Dashboard" then "/" else "/" + ReplaceFirstSpace(Lower(page))
  }

  lemma {:induction false} ReplaceWithoutSpace(s: string)
    requires ' ' !in s
    ensures ReplaceFirstSpace(s) == s
  {
    if s != [] {
      ReplaceWithoutSpace(s[1..]);
      assert s == [s[0]] + s[1..];
    }
  }

  /** Only the first space becomes a dash; later ones stay. */
  lemma {:induction false} ReplaceFirstOnly(a: string, b: string)
    requires ' ' !in a
    ensures ReplaceFirstSpace(a + " " + b) == a + "-" + b
  {
    if a == [] {
      assert a + " " + b == [' '] + b;
    } else {
      ReplaceFirstOnly(a[1..], b);
      assert (a + " " + b)[1..] == a[1..] + " " + b;
      assert a == [a[0]] + a[1..];
    }
  }

  lemma LowerConcat(a: string, b: string)
    ensures Lower(a + b) == Lower(a) + Lower(b)
  {
  }

  /** Any page but "Dashboard" goes to its lower-cased name with the first
      space turned into a dash; a name without spaces keeps its letters. */
  lemma TabPathShape(page: string, a: string, b: string)
    requires page != "Dashboard"
    ensures page == a + " " + b && ' ' !in a ==> TabPath(page) == "/" + Lower(a) + "-" + Lower(b)
    ensures ' ' !in page ==> TabPath(page) == "/" + Lower(page)
  {
    if page == a + " " + b && ' ' !in a {
      LowerConcat(a + " ", b);
      LowerConcat(a, " ");
      assert Lower(" ") == " ";
      assert ' ' !in Lower(a) by {
        forall i | 0 <= i < |a| ensures Lower(a)[i] != ' ' {
          assert a[i] != ' ';
        }
      }
      ReplaceFirstOnly(Lower(a), Lower(b));
    }
    if ' ' !in page {
      assert ' ' !in Lower(page) by {
        forall i | 0 <= i < |page| ensures Lower(page)[i] != ' ' {
          assert page[i] != ' ';
        }
      }
      ReplaceWithoutSpace(Lower(page));
    }
  }

  /** The two-word tab goes to `/ai-advisor`, Dashboard to `/`. */
  lemma NavPaths()
    ensures TabPath(NavItems[0]) == "/"
    ensures TabPath(NavItems[4]) == "/ai-advisor"
  {
    TabPathShape("AI Advisor", "AI", "Advisor");
    assert "AI Advisor" == "AI" + " " + "Advisor";
    assert Lower("AI") == "ai";
    assert Lower("Advisor") == "advisor";
  }

  /** The avatar's letter: the first character of a non-empty full name,
      else the upper-cased first character of the email. `None` when both
      are empty: the render then throws. */
  function Avatar(user: User): (r: Option<string>)
    ensures user.fullName.Some? && user.fullName.value != "" ==> r == Some([user.fullName.value[0]])
    ensures (user.fullName.None? || user.fullName.value == "") && user.email != "" ==> r == Some([UpperChar(user.email[0])])
    ensures r.None? <==> (user.fullName.None? || user.fullName.value == "") && user.email == ""
  {
    if user.fullName.Some? && user.fullName.value != "" then Some([user.fullName.value[0]])
    else if user.email != "" then Some([UpperChar(user.email[0])])
    else None
  }

  /** The bar's own state; `location` is where it last navigated. */
  class HeaderState {
    var activeTab: string
    var menuOpen: bool
    var location: string

    constructor(path: string)
      ensures activeTab == "Dashboard" && !menuOpen && location == path
    {
      activeTab := "Dashboard";
      menuOpen := false;
      location := path;
    }

    /** The clicked tab becomes the active one. */
    method TabClick(page: string)
      modifies this
      ensures activeTab == page && location == TabPath(page) && menuOpen == old(menuOpen)
    {
      activeTab := page;
      location := TabPath(page);
    }

    /** The logo acts as the Dashboard tab. */
    method LogoClick()
      modifies this
      ensures activeTab == "Dashboard" && location == "/" && menuOpen == old(menuOpen)
    {
      TabClick("Dashboard");
    }

    method OpenMenu()
      modifies this
      ensures menuOpen && activeTab == old(activeTab) && location == old(location)
    {
      menuOpen := true;
    }

    method CloseMenu()
      modifies this
      ensures !menuOpen && activeTab == old(activeTab) && location == old(location)
    {
      menuOpen := false;
    }

    /** Sign out, close the menu and go to the login page. */
    method Logout(auth: Auth.AuthSession)
      requires auth.Valid()
      modifies this, auth
      ensures auth.State() == Auth.AfterLogout(old(auth.State())) && auth.Valid()
      ensures !menuOpen && location == "/login" && activeTab == old(activeTab)
    {
      auth.Logout();
      CloseMenu();
      location := "/login";
    }
  }
}
