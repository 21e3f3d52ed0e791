/** The sidebar's main navigation list and which entry is highlighted for the current path. */
module AppSidebar {
  import opened Paths

  /** One navigation entry (the icon is rendering only and not modelled). */
  datatype NavItem = NavItem(title: string, url: string, isActive: bool)

  const SectionUrls: seq<string> := ["/users", "/posts", "/reports", "/notices"]

  /** The `navMain` list built for `pathname`. */
  function NavMain(pathname: string): (items: seq<NavItem>)
    ensures |items| == 5
    ensures items[0].title == "Overview" && items[0].url == "/"
    ensures items[1].title == "User Management" && items[1].url == "/users"
    ensures items[2].title == "Post Management" && items[2].url == "/posts"
    ensures items[3].title == "Reports" && items[3].url == "/reports"
    ensures items[4].title == "Notices" && items[4].url == "/notices"
  {
    [ NavItem("Overview", "/", pathname == "/"),
      NavItem("User Management", "/users", StartsWith(pathname, "/users")),
      NavItem("Post Management", "/posts", StartsWith(pathname, "/posts")),
      NavItem("Reports", "/reports", StartsWith(pathname, "/reports")),
      NavItem("Notices", "/notices", StartsWith(pathname, "/notices")) ]
  }

  /** Overview matches the root exactly; every other entry matches its url as a prefix. */
  lemma ActiveRule(pathname: string)
    ensures NavMain(pathname)[0].isActive <==> pathname == "/"
    ensures forall i :: 1 <= i < 5 ==>
      (NavMain(pathname)[i].isActive <==> StartsWith(pathname, SectionUrls[i - 1]))
    ensures forall i :: 1 <= i < 5 ==> NavMain(pathname)[i].url == SectionUrls[i - 1]
  {
  }

  /** No section url is a prefix of another one, and none is a prefix of "/". */
  lemma SectionUrlsDisjoint()
    ensures forall i, j :: 0 <= i < |SectionUrls| && 0 <= j < |SectionUrls| && i != j ==>
      !StartsWith(SectionUrls[j], SectionUrls[i])
    ensures forall i :: 0 <= i < |SectionUrls| ==> !StartsWith("/", SectionUrls[i])
  {
    forall i, j | 0 <= i < |SectionUrls| && 0 <= j < |SectionUrls| && i != j
      ensures !StartsWith(SectionUrls[j], SectionUrls[i])
    {
      // the urls already differ in their second character
      assert SectionUrls[i][1] != SectionUrls[j][1];
    }
  }

  /** Whatever the path, at most one navigation entry is highlighted. */
  lemma AtMostOneActive(pathname: string)
    ensures forall i, j ::
      (0 <= i < 5 && 0 <= j < 5 && NavMain(pathname)[i].isActive && NavMain(pathname)[j].isActive) ==> i == j
  {
  }
}
