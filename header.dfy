/**
 * The active-link rule of the site header (src/components/navigation/header.tsx):
 * which of the fixed navigation links is highlighted for the current path.
 */
module Header {
  import opened Wrappers
  import opened JsText

  const Home: string := "/"

  /** The hrefs of `navLinks`, in display order. */
  const NavLinks: seq<string> := ["/", "/announcements", "/about", "/gallery", "/contact"]

  /** `usePathname() ?? ""`: a missing pathname is the empty string. */
  function CurrentPathname(pathname: Option<string>): (p: string)
    ensures pathname.Some? ==> p == pathname.value
    ensures pathname.None? ==> p == ""
  {
    pathname.GetOr("")
  }

  /** `pathname === href || (href !== "/" && pathname.startsWith(href))`. */
  predicate IsActive(pathname: string, href: string)
  {
    pathname == href || (href != Home && StartsWith(pathname, href))
  }

  /** The Home link is active exactly on the root path itself. */
  lemma HomeActiveIff(pathname: string)
    ensures IsActive(pathname, Home) <==> pathname == Home
  {
  }

  /** Any other link is active exactly when its href is a raw prefix of the path. */
  lemma OtherActiveIff(pathname: string, href: string)
    requires href != Home
    ensures IsActive(pathname, href) <==> StartsWith(pathname, href)
  {
    if pathname == href { assert pathname[..|href|] == href; }
  }

  /** There is no segment boundary: `/aboutus` and `/gallery-2024` light up their links. */
  lemma ActiveWithoutSegmentBoundary()
    ensures IsActive("/aboutus", NavLinks[2])
    ensures IsActive("/gallery-2024", NavLinks[3])
    ensures !IsActive("/aboutus", Home)
  {
    assert "/aboutus"[..6] == "/about";
    assert "/gallery-2024"[..8] == "/gallery";
  }

  /** With no pathname, no link is active. */
  lemma NoLinkActiveWithoutPathname(i: nat)
    requires i < |NavLinks|
    ensures !IsActive(CurrentPathname(None), NavLinks[i])
  {
  }

  /** Apart from Home, no href of the list is a prefix of another. */
  predicate PrefixFreeBesidesHome(links: seq<string>)
  {
    forall i, j :: 0 <= i < |links| && 0 <= j < |links| && i != j && links[i] != Home ==>
      !StartsWith(links[j], links[i])
  }

  lemma NavLinksPrefixFree()
    ensures PrefixFreeBesidesHome(NavLinks)
    ensures forall i :: 0 <= i < |NavLinks| ==> NavLinks[i] != ""
    ensures forall i :: 1 <= i < |NavLinks| ==> NavLinks[i] != Home && |NavLinks[i]| > 1
  {
    var l := NavLinks;
    // Home is excluded as a prefix by the predicate, and is too short to extend another href.
    DifferAt(l[1], l[2], 2);
    DifferAt(l[1], l[3], 1);
    DifferAt(l[1], l[4], 1);
    DifferAt(l[2], l[3], 1);
    DifferAt(l[2], l[4], 1);
    DifferAt(l[3], l[4], 1);
    forall j | 1 <= j < |l| ensures !StartsWith(l[0], l[j]) {
    }
  }

  /**
   * For every path, at most one link of the header is active: Home only on
   * `/` itself, where no other href fits, and two other hrefs that were both
   * prefixes of the path would be prefixes of each other.
   */
  lemma AtMostOneActive(pathname: string, i: nat, j: nat)
    requires i < |NavLinks| && j < |NavLinks|
    requires IsActive(pathname, NavLinks[i]) && IsActive(pathname, NavLinks[j])
    ensures i == j
  {
    NavLinksPrefixFree();
    if i != j {
      if i == 0 || j == 0 {
        var k := if i == 0 then j else i;
        HomeActiveIff(pathname);
        OtherActiveIff(pathname, NavLinks[k]);
        assert false;
      } else {
        OtherActiveIff(pathname, NavLinks[i]);
        OtherActiveIff(pathname, NavLinks[j]);
        PrefixesAreComparable(pathname, NavLinks[i], NavLinks[j]);
        assert false;
      }
    }
  }
}
