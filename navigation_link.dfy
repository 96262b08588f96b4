/**
 * The navigation link (src/components/NavigationLink.tsx): when a link
 * counts as active for the current path, and what a click does.
 */
module NavigationLink {
  import opened Strings

  /** `isActive`. */
  predicate IsActive(pathname: string, to: string) {
    pathname == to || (to != "/" && StartsWith(pathname, to))
  }

  /**
   * A link is active on its own path; the root link only on exactly '/';
   * any other link on every path it is a prefix of.
   */
  lemma IsActiveSpec(pathname: string, to: string)
    ensures IsActive(to, to)
    ensures to == "/" ==> (IsActive(pathname, to) <==> pathname == "/")
    ensures to != "/" ==> (IsActive(pathname, to) <==> StartsWith(pathname, to))
  {
  }

  /** The prefix is textual, not by path segment: '/quest' is active on '/quests'. */
  lemma PrefixNotSegment()
    ensures IsActive("/quests", "/quest")
    ensures !IsActive("/quests", "/")
  {
    assert "/quests"[..6] == "/quest";
  }

  datatype ClickEffect = PreventDefault | CallOnClick | Navigate(to: string)

  /** `handleClick`, given whether an `onClick` prop is present. */
  function HandleClick(to: string, hasOnClick: bool): (r: seq<ClickEffect>)
    ensures |r| >= 2 && r[0] == PreventDefault && r[|r| - 1] == Navigate(to)
    ensures CallOnClick in r <==> hasOnClick
    ensures forall i :: 0 <= i < |r| && r[i].Navigate? ==> i == |r| - 1
  {
    [PreventDefault] + (if hasOnClick then [CallOnClick] else []) + [Navigate(to)]
  }
}
