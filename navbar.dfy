/** The marketing navbar of src/app/components/Navbar.tsx: its five links and their `isActive` test. */
module Navbar {
  import Strings

  datatype NavLink = NavLink(name: string, href: string)

  /** `navItems`, in this order. */
  const NavItems: seq<NavLink> := [
    NavLink("Home", "/"),
    NavLink("About", "/about"),
    NavLink("Services", "/services"),
    NavLink("Blog", "/blog"),
    NavLink("Contact", "/contact")
  ]

  /** `isActive(path)`: the root only on the root itself; any other link on a plain prefix match. */
  predicate IsActive(pathname: string, path: string) {
    if path == "/" && pathname == "/" then true
    else if path != "/" && Strings.StartsWith(pathname, path) then true
    else false
  }

  /** Home is active only on "/". */
  lemma RootActiveOnlyAtRoot(pathname: string)
    ensures IsActive(pathname, "/") <==> pathname == "/"
  {
  }

  /** A link other than Home is active iff the path starts with its href, with no boundary check:
      "/blogs" activates Blog. */
  lemma NonRootIsPlainPrefix(pathname: string, path: string)
    requires path != "/"
    ensures IsActive(pathname, path) <==> path <= pathname
    ensures IsActive("/blogs", "/blog")
  {
    assert "/blog" <= "/blogs";
  }

  /** On "/" only Home is active. */
  lemma OnlyHomeAtRoot()
    ensures forall i :: 0 <= i < |NavItems| ==> (IsActive("/", NavItems[i].href) <==> NavItems[i].name == "Home")
  {
    assert forall i :: 1 <= i < |NavItems| ==> |NavItems[i].href| > 1;
  }

  /** The links, by name, are Home, About, Services, Blog, Contact. */
  lemma NavItemNames()
    ensures |NavItems| == 5
    ensures NavItems[0].name == "Home" && NavItems[1].name == "About" && NavItems[2].name == "Services"
    ensures NavItems[3].name == "Blog" && NavItems[4].name == "Contact"
  {
  }
}
