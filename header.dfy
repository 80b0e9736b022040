/**
 * The header's active-link highlight: the page's file name is looked up in a
 * small table of page names, giving the `href` of the link to highlight;
 * every navigation link loses `active`, and the first link whose lowercased
 * `href` is that target gains it.
 */
module Header {
  import opened Text
  import opened Wrappers

  /** One entry of the table: the paths it covers and the link it selects. */
  datatype Entry = Entry(paths: seq<string>, href: string)

  const Home: string := "index.html#home"

  const Table: seq<Entry> := [
    Entry(["", "index.html"], Home),
    Entry(["projects.html"], "projects.html"),
    Entry(["writeups.html"], "writeups.html"),
    Entry(["skills.html"], "skills.html"),
    Entry(["experiences.html"], "experiences.html")
  ]

  /**
   * `(pathname.split('/').pop() || 'index.html').toLowerCase()`: the page's
   * file name. It is never empty, so the table's `''` entry never matches.
   */
  function ActivePath(pathname: string): (path: string)
    ensures path != []
    ensures '/' !in path
  {
    var last := LastSegment(pathname, '/');
    var name := if last != [] then last else "index.html";
    assert forall k :: 0 <= k < |name| ==> name[k] != '/';
    Lower(name)
  }

  /** The file name is the lowercased text after the last `/`, or `index.html` when that is empty. */
  lemma ActivePathIsLastSegment(pathname: string)
    ensures LastSegment(pathname, '/') != [] ==> ActivePath(pathname) == Lower(LastSegment(pathname, '/'))
    ensures LastSegment(pathname, '/') == [] ==> ActivePath(pathname) == "index.html"
  {
    LowerFixed("index.html");
  }

  /** The text after a final `/` is the last segment. */
  lemma {:induction false} LastSegmentAfterSlash(dir: string, name: string)
    requires '/' !in name
    ensures LastSegment(dir + "/" + name, '/') == name
  {
    var s := dir + "/" + name;
    var r := LastSegment(s, '/');
    assert s[|s| - |name|..] == name;
    assert s[|s| - |name| - 1] == '/';
  }

  /** The page name of `dir/name`: the lowercased `name`, or `index.html` for a directory. */
  lemma {:induction false} ActivePathOf(dir: string, name: string)
    requires '/' !in name
    ensures name != [] ==> ActivePath(dir + "/" + name) == Lower(name)
    ensures name == [] ==> ActivePath(dir + "/" + name) == "index.html"
  {
    LastSegmentAfterSlash(dir, name);
    LowerFixed("index.html");
  }

  /** The position of the first entry covering `path`, if any. */
  function FirstEntry(path: string, entries: seq<Entry>): (r: Option<nat>)
    ensures r.Some? ==>
      && r.value < |entries| && path in entries[r.value].paths
      && (forall m :: 0 <= m < r.value ==> path !in entries[m].paths)
    ensures r.None? ==> forall m :: 0 <= m < |entries| ==> path !in entries[m].paths
  {
    if entries == [] then None
    else if path in entries[0].paths then Some(0)
    else match FirstEntry(path, entries[1..]) {
      case None => None
      case Some(m) => Some(m + 1)
    }
  }

  /** The link to highlight for the page `path`: that of the first entry covering it, else the home link. */
  function TargetHref(path: string): string {
    match FirstEntry(path, Table)
    case Some(m) => Table[m].href
    case None => Home
  }

  /** The four other pages select their own link. */
  lemma TargetHrefOwnPage(path: string)
    requires path in {"projects.html", "writeups.html", "skills.html", "experiences.html"}
    ensures TargetHref(path) == path
  {
    assert path in Table[1].paths || path in Table[2].paths || path in Table[3].paths || path in Table[4].paths;
    assert path !in Table[0].paths;
  }

  /** The home page and every page outside the table select the home link. */
  lemma TargetHrefHome(path: string)
    requires path !in {"projects.html", "writeups.html", "skills.html", "experiences.html"}
    ensures TargetHref(path) == Home
  {
    match FirstEntry(path, Table)
    case Some(m) =>
    case None =>
  }

  /** The site root selects the home link. */
  lemma RootPath()
    ensures TargetHref(ActivePath("/")) == Home
  {
    ActivePathOf("", "");
    assert "" + "/" + "" == "/";
    TargetHrefHome("index.html");
  }

  /** A navigation link; its `href` is fixed, its `active` class is not. */
  class NavLink {
    const href: string
    var active: bool

    constructor (href: string)
      ensures this.href == href && !active
    {
      this.href := href;
      active := false;
    }
  }

  /** The position of the first link whose lowercased `href` is `target`, if any. */
  function FirstLink(links: seq<NavLink>, target: string): (r: Option<nat>)
    ensures r.Some? ==>
      && r.value < |links| && Lower(links[r.value].href) == target
      && (forall k :: 0 <= k < r.value ==> Lower(links[k].href) != target)
    ensures r.None? ==> forall k :: 0 <= k < |links| ==> Lower(links[k].href) != target
  {
    if links == [] then None
    else if Lower(links[0].href) == target then Some(0)
    else match FirstLink(links[1..], target) {
      case None => None
      case Some(k) => Some(k + 1)
    }
  }

  /**
   * `setActive`: afterwards a link is active exactly when it is the first one
   * whose lowercased `href` is the target of the page, so at most one is.
   */
  method SetActive(pathname: string, links: seq<NavLink>)
    modifies set l | l in links
    ensures var first := FirstLink(links, TargetHref(ActivePath(pathname)));
      forall l :: l in links ==> (l.active <==> first.Some? && l == links[first.value])
    ensures forall a, b :: a in links && b in links && a.active && b.active ==> a == b
  {
    var path := ActivePath(pathname);
    ClearActive(links);
    var targetHref := FindTarget(path);
    var k := FindLink(links, targetHref);
    if k < |links| {
      links[k].active := true;
    }
  }

  /** `links.forEach(a => a.classList.remove('active'))`. */
  method ClearActive(links: seq<NavLink>)
    modifies set l | l in links
    ensures forall l :: l in links ==> !l.active
  {
    var n := 0;
    while n < |links|
      invariant 0 <= n <= |links|
      invariant forall m :: 0 <= m < n ==> !links[m].active
    {
      links[n].active := false;
      n := n + 1;
    }
  }

  /** The `for ... of` over the table: the `href` of the first entry covering `path`, else the home link. */
  method FindTarget(path: string) returns (targetHref: string)
    ensures targetHref == TargetHref(path)
  {
    targetHref := Home;
    ghost var hit: Option<nat> := None;
    var m := 0;
    while m < |Table|
      invariant 0 <= m <= |Table|
      invariant targetHref == Home && hit == None
      invariant forall m' :: 0 <= m' < m ==> path !in Table[m'].paths
    {
      if path in Table[m].paths {
        targetHref := Table[m].href;
        hit := Some(m);
        break;
      }
      m := m + 1;
    }
    assert hit == FirstEntry(path, Table);
  }

  /** `Array.from(links).find(...)` as a position: the first link whose lowercased `href` is `target`, or `|links|`. */
  method FindLink(links: seq<NavLink>, target: string) returns (k: nat)
    ensures k <= |links|
    ensures k < |links| <==> FirstLink(links, target).Some?
    ensures k < |links| ==> FirstLink(links, target) == Some(k)
  {
    k := 0;
    while k < |links| && Lower(links[k].href) != target
      invariant 0 <= k <= |links|
      invariant forall k' :: 0 <= k' < k ==> Lower(links[k'].href) != target
    {
      k := k + 1;
    }
  }
}
