/**
 * The site header: the three-way theme toggle and its icon, the scrolled
 * flag, the mobile menu, and which navigation link is highlighted.
 */
module NavigationBar {
  import opened Wrappers

  datatype NavItem = NavItem(href: string, caption: string)

  const NavItems: seq<NavItem> := [
    NavItem("/", "Home"),
    NavItem("/projects", "Projects"),
    NavItem("/contact", "Contact")
  ]

  /** `theme` as reported by the theme provider: a name, or undefined before it is known. */
  type ThemeName = Option<string>

  /** dark to light, light to system, anything else (system, undefined, unknown) to dark. */
  function ToggleTheme(theme: ThemeName): (next: string)
    ensures theme == Some("dark") ==> next == "light"
    ensures theme == Some("light") ==> next == "system"
    ensures theme != Some("dark") && theme != Some("light") ==> next == "dark"
  {
    if theme == Some("dark") then "light"
    else if theme == Some("light") then "system"
    else "dark"
  }

  /** Three toggles bring dark, light and system back to themselves. */
  lemma ThreeTogglesCycle(t: string)
    requires t in ["dark", "light", "system"]
    ensures ToggleTheme(Some(ToggleTheme(Some(ToggleTheme(Some(t)))))) == t
  {
  }

  /** From any start, one toggle lands on the cycle and stays on it. */
  lemma ToggleEntersCycle(theme: ThemeName)
    ensures ToggleTheme(theme) in ["dark", "light", "system"]
  {
  }

  datatype Icon = Moon | Sun | Monitor

  function ThemeIcon(theme: ThemeName): (icon: Icon)
    ensures icon == Moon <==> theme == Some("dark")
    ensures icon == Sun <==> theme == Some("light")
  {
    if theme == Some("dark") then Moon
    else if theme == Some("light") then Sun
    else Monitor
  }

  const ScrollThreshold: int := 50

  function IsActive(pathname: string, item: NavItem): bool {
    pathname == item.href
  }

  /** The hrefs are distinct, so at most one link is highlighted. */
  lemma AtMostOneActive(pathname: string, i: nat, j: nat)
    requires i < |NavItems| && j < |NavItems|
    requires IsActive(pathname, NavItems[i]) && IsActive(pathname, NavItems[j])
    ensures i == j
  {
  }

  class Header {
    var mounted: bool
    var isOpen: bool
    var scrolled: bool
    var theme: ThemeName

    constructor (theme: ThemeName)
      ensures !mounted && !isOpen && !scrolled && this.theme == theme
    {
      mounted := false;
      isOpen := false;
      scrolled := false;
      this.theme := theme;
    }

    /** Nothing is rendered until the first effect has run. */
    function Renders(): bool
      reads this
    {
      mounted
    }

    method Mount()
      modifies this
      ensures mounted && Renders()
      ensures isOpen == old(isOpen) && scrolled == old(scrolled) && theme == old(theme)
    {
      mounted := true;
    }

    method HandleScroll(scrollY: int)
      modifies this
      ensures scrolled <==> scrollY > ScrollThreshold
      ensures mounted == old(mounted) && isOpen == old(isOpen) && theme == old(theme)
    {
      scrolled := scrollY > ScrollThreshold;
    }

    method ToggleThemeClicked()
      modifies this
      ensures theme == Some(ToggleTheme(old(theme)))
      ensures mounted == old(mounted) && isOpen == old(isOpen) && scrolled == old(scrolled)
    {
      theme := Some(ToggleTheme(theme));
    }

    method ToggleMenu()
      modifies this
      ensures isOpen == !old(isOpen)
      ensures mounted == old(mounted) && scrolled == old(scrolled) && theme == old(theme)
    {
      isOpen := !isOpen;
    }

    /** The backdrop and every mobile link close the menu. */
    method CloseMenu()
      modifies this
      ensures !isOpen
      ensures mounted == old(mounted) && scrolled == old(scrolled) && theme == old(theme)
    {
      isOpen := false;
    }
  }
}
