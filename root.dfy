/** The layout's navigation bar: which tab is highlighted for the current path. */
module Root {

  import opened Text

  /** The two navigation targets, in display order. */
  const Navigation: seq<string> := ["/", "/manual-assessment"]

  /** `isActive`: the home tab only for the path "/" itself; any other tab
      whenever the path starts with its target (a plain string prefix). */
  function IsActive(pathname: string, href: string): (active: bool)
    ensures href == "/" ==> (active <==> pathname == "/")
    ensures href != "/" ==> (active <==> |href| <= |pathname| && pathname[..|href|] == href)
  {
    if href == "/" then pathname == "/" else StartsWith(pathname, href)
  }

  /** The current page's own tab is always highlighted. */
  lemma ActiveOnOwnPath(href: string)
    ensures IsActive(href, href)
  {
  }

  /** A non-home tab stays highlighted on every longer path, including paths
      that are not below it such as "/manual-assessmentX". */
  lemma ActiveOnExtensions(pathname: string, href: string, more: string)
    requires href != "/" && IsActive(pathname, href)
    ensures IsActive(pathname + more, href)
  {
    assert (pathname + more)[..|href|] == pathname[..|href|];
  }

  lemma PrefixMatchIsLoose()
    ensures IsActive("/manual-assessmentX", "/manual-assessment")
    ensures !IsActive("/", "/manual-assessment")
  {
    ActiveOnExtensions("/manual-assessment", "/manual-assessment", "X");
  }

  /** The two tabs are never highlighted together. */
  lemma NavigationExclusive(pathname: string)
    ensures !(IsActive(pathname, Navigation[0]) && IsActive(pathname, Navigation[1]))
  {
  }
}
