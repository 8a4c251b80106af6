/**
 * The site's path helpers: the page name that marks the active navigation
 * link, the path normalisation that decides whether a link leads to the page
 * already shown, the decision to take over a link click, and the
 * same-address guard of in-page navigation.
 */
module Shared {
  import opened Wrappers

  /** `path.split("/").pop()`: the text after the last '/', or the whole path when it has none. */
  function LastSegment(path: string): (r: string)
    ensures '/' !in r && |r| <= |path| && r == path[|path| - |r|..]
    ensures |r| < |path| ==> path[|path| - |r| - 1] == '/'
    decreases |path|
  {
    if |path| == 0 || path[|path| - 1] == '/' then ""
    else LastSegment(path[..|path| - 1]) + [path[|path| - 1]]
  }

  /** The page `setActiveLink` marks: the last segment, or "index.html" when that is empty. */
  function PageName(path: string): (r: string)
    ensures r != "" && '/' !in r
  {
    var last := LastSegment(path);
    if last == "" then
      var home := "index.html";
      assert home[0] != '/' && home[1..] == "ndex.html" && '/' !in home[1..];
      home
    else last
  }

  /** The page name is never "" nor "/", so the home-link fallback of `setActiveLink` never runs; it is "index.html" or the path's last segment. */
  lemma PageNameIsASegment(path: string)
    ensures PageName(path) != "" && PageName(path) != "/"
    ensures PageName(path) == "index.html"
      || ('/' !in PageName(path) && PageName(path) == path[|path| - |PageName(path)|..])
  {
    var last := LastSegment(path);
    if last == "" {
      assert |"index.html"| == 10;
    }
  }

  /** A directory path names the home page; any path ending in a name names that name. */
  lemma PageNameOfDirectory(dir: string, name: string)
    requires name != "" && '/' !in name
    ensures PageName(dir + "/") == "index.html"
    ensures PageName(dir + "/" + name) == name
  {
    SegmentAfterSlash(dir, name);
  }

  /** Whatever follows the last '/' is the last segment, the empty text included. */
  lemma {:induction false} SegmentAfterSlash(dir: string, name: string)
    requires '/' !in name
    ensures LastSegment(dir + "/" + name) == name
    decreases |name|
  {
    var p := dir + "/" + name;
    if |name| > 0 {
      var n := |name| - 1;
      assert p[..|p| - 1] == dir + "/" + name[..n];
      assert p[|p| - 1] == name[n];
      SegmentAfterSlash(dir, name[..n]);
      assert name == name[..n] + [name[n]];
    }
  }

  /** A navigation link: its `href` and whether its `active` class is set. */
  datatype NavLink = NavLink(href: string, active: bool)

  /** Every link active exactly when its `href` is `page`. */
  function Activated(links: seq<NavLink>, page: string): (r: seq<NavLink>)
    ensures |r| == |links|
  {
    seq(|links|, k requires 0 <= k < |links| => links[k].(active := links[k].href == page))
  }

  /** Drops one trailing '/': the `replace(/\/$/, '')` step. */
  function DropSlash(p: string): (r: string)
    ensures if |p| > 0 && p[|p| - 1] == '/' then p == r + "/" else r == p
  {
    if |p| > 0 && p[|p| - 1] == '/' then p[..|p| - 1] else p
  }

  /** `pat` occurs in `s` at `i`. */
  predicate OccursAt(s: string, pat: string, i: int)
  {
    0 <= i && i + |pat| <= |s| && s[i..i + |pat|] == pat
  }

  /** The first place at or after `from` where `pat` occurs in `s`. */
  function FirstFrom(s: string, pat: string, from: nat): (r: Option<nat>)
    ensures r.Some? ==> from <= r.value && OccursAt(s, pat, r.value)
    ensures forall i | from <= i && (r.None? || i < r.value) :: !OccursAt(s, pat, i)
    decreases |s| - from
  {
    if from + |pat| > |s| then None
    else if s[from..from + |pat|] == pat then Some(from)
    else FirstFrom(s, pat, from + 1)
  }

  /** `s.replace(pat, '')` with a string pattern: only the first occurrence goes. */
  function RemoveFirst(s: string, pat: string): (r: string)
  {
    match FirstFrom(s, pat, 0)
    case None => s
    case Some(i) => s[..i] + s[i + |pat|..]
  }

  /** The replacement cuts out the first occurrence and nothing else, and leaves a string without one unchanged. */
  lemma RemoveFirstCuts(s: string, pat: string)
    ensures (forall i | 0 <= i :: !OccursAt(s, pat, i)) ==> RemoveFirst(s, pat) == s
    ensures forall i | OccursAt(s, pat, i) && (forall j | 0 <= j < i :: !OccursAt(s, pat, j)) ::
      RemoveFirst(s, pat) == s[..i] + s[i + |pat|..]
  {
    match FirstFrom(s, pat, 0)
    case None =>
    case Some(k) =>
      assert OccursAt(s, pat, k);
      forall i | OccursAt(s, pat, i) && (forall j | 0 <= j < i :: !OccursAt(s, pat, j))
        ensures i == k
      {
        assert i < k ==> !OccursAt(s, pat, i);
        assert k < i ==> !OccursAt(s, pat, k);
      }
  }

  /** `cleanPath` as written: drop one trailing '/', then the first "index.html" anywhere. */
  function CleanPathAsWritten(p: string): (r: string)
    ensures (exists i :: OccursAt(DropSlash(p), "index.html", i)) ==> |r| + 10 == |DropSlash(p)|
    ensures !(exists i :: OccursAt(DropSlash(p), "index.html", i)) ==> r == DropSlash(p)
  {
    RemoveFirst(DropSlash(p), "index.html")
  }

  /** As written, a directory and its index page clean to different paths, so a link between them is a page change. */
  lemma CleanPathAsWrittenSplitsDirectory()
    ensures CleanPathAsWritten("/d/") == "/d"
    ensures CleanPathAsWritten("/d/index.html") == "/d/"
    ensures CleanPathAsWritten("/d/") != CleanPathAsWritten("/d/index.html")
  {
    assert DropSlash("/d/") == "/d";
    assert FirstFrom("/d", "index.html", 0) == None;
    var p := "/d/" + "index.html";
    assert p == "/d/index.html";
    assert DropSlash(p) == p;
    assert p[0..10][0] != "index.html"[0];
    assert p[1..11][0] != "index.html"[0];
    assert p[2..12][0] != "index.html"[0];
    assert p[3..13] == "index.html";
    assert FirstFrom(p, "index.html", 3) == Some(3);
    assert FirstFrom(p, "index.html", 2) == Some(3);
    assert FirstFrom(p, "index.html", 1) == Some(3);
    assert FirstFrom(p, "index.html", 0) == Some(3);
    assert p[..3] + p[13..] == "/d/";
  }

  /** As written, "index.html" is cut out of the middle of a name too, so the page "/myindex.html" cleans to the path of "/my". */
  lemma CleanPathAsWrittenCutsInsideNames()
    ensures CleanPathAsWritten("/myindex.html") == "/my"
    ensures CleanPathAsWritten("/my") == "/my"
  {
    assert DropSlash("/my") == "/my";
    assert FirstFrom("/my", "index.html", 0) == None;
    var p := "/my" + "index.html";
    assert p == "/myindex.html";
    assert DropSlash(p) == p;
    assert p[0..10][0] != "index.html"[0];
    assert p[1..11][0] != "index.html"[0];
    assert p[2..12][0] != "index.html"[0];
    assert p[3..13] == "index.html";
    assert FirstFrom(p, "index.html", 3) == Some(3);
    assert FirstFrom(p, "index.html", 2) == Some(3);
    assert FirstFrom(p, "index.html", 1) == Some(3);
    assert FirstFrom(p, "index.html", 0) == Some(3);
    assert p[..3] + p[13..] == "/my";
  }

  /** `p` ends in the segment "/index.html". */
  predicate EndsInIndex(p: string)
  {
    |p| >= 11 && p[|p| - 11..] == "/index.html"
  }

  /** The normalisation the comparison is meant to make: drop a final "index.html" segment, then one trailing '/'. */
  function CleanPath(p: string): (r: string)
    ensures EndsInIndex(p) ==> p == r + "/index.html" || p == r + "index.html"
    ensures !EndsInIndex(p) ==> p == r || p == r + "/"
  {
    var q := if EndsInIndex(p) then p[..|p| - 10] else p;
    assert EndsInIndex(p) ==> p == q + "index.html";
    DropSlash(q)
  }

  /** A directory, its trailing-slash form and its index page all clean to the same path. */
  lemma CleanPathJoinsDirectory(d: string)
    requires |d| == 0 || d[|d| - 1] != '/'
    ensures CleanPath(d + "/") == d
    ensures CleanPath(d + "/index.html") == d
    ensures !EndsInIndex(d) ==> CleanPath(d) == d
  {
    var q := d + "/index.html";
    assert q[|q| - 11..] == "/index.html";
    assert q[..|q| - 10] == d + "/";
    assert !EndsInIndex(d + "/") by {
      assert (d + "/")[|d|] == '/';
    }
  }

  /** Any other page name is kept, so distinct pages in one directory stay distinct. */
  lemma CleanPathKeepsPages(d: string, name: string)
    requires name != "" && name != "index.html" && '/' !in name
    ensures CleanPath(d + "/" + name) == d + "/" + name
  {
    var p := d + "/" + name;
    assert p[|p| - 1] == name[|name| - 1];
    if |name| >= 11 {
      assert p[|p| - 11] == name[|name| - 11];
    } else if |name| == 10 {
      assert p[|p| - 10..] == name;
    } else {
      assert p[|p| - |name| - 1] == '/';
    }
    assert !EndsInIndex(p);
  }

  /** A URL reduced to the parts the router compares. */
  datatype Url = Url(href: string, origin: string, protocol: string, path: string)

  /** The anchor under a click: its resolved URL and its `target` attribute ("" when absent). */
  datatype Link = Link(url: Url, target: string)

  /** What the click handler does with a click. */
  datatype Action = Ignore | Suppress | Navigate(href: string)

  /** Same origin, or both pages opened from `file:`. */
  predicate Internal(target: Url, current: Url)
  {
    target.origin == current.origin || (target.protocol == "file:" && current.protocol == "file:")
  }

  /**
   * The click decision once `isSamePage` is known; `link` is `None` when the
   * click is not inside an anchor.
   */
  function Decide(link: Option<Link>, current: Url, samePage: bool): (r: Action)
    ensures r != Ignore ==> link.Some? && link.value.target == "" && '#' !in link.value.url.href
    ensures r.Navigate? ==> r.href == link.value.url.href && !samePage
  {
    if link.None? || link.value.url.href == "" then Ignore
    else
      var l := link.value;
      if Internal(l.url, current) && l.target == "" && '#' !in l.url.href then
        (if !samePage then Navigate(l.url.href) else Suppress)
      else Ignore
  }

  /** The click listener as written: `isSamePage` compares the paths after `cleanPath` as written. */
  function Intercept(link: Option<Link>, current: Url): (r: Action)
    ensures r != Ignore ==> link.Some? && link.value.url.href != ""
    ensures r.Navigate? ==>
      r.href == link.value.url.href && CleanPathAsWritten(link.value.url.path) != CleanPathAsWritten(current.path)
  {
    Decide(link, current, link.Some? && CleanPathAsWritten(link.value.url.path) == CleanPathAsWritten(current.path))
  }

  /** A click is taken over exactly for an internal anchor with no target and no '#'; it navigates exactly when the as-written cleaned paths differ. */
  lemma InterceptOnlyInternal(link: Option<Link>, current: Url)
    ensures Intercept(link, current) != Ignore <==>
      (link.Some? && link.value.url.href != "" && Internal(link.value.url, current)
       && link.value.target == "" && '#' !in link.value.url.href)
    ensures Intercept(link, current).Navigate? <==>
      (Intercept(link, current) != Ignore
       && CleanPathAsWritten(link.value.url.path) != CleanPathAsWritten(current.path))
    ensures Intercept(link, current).Navigate? ==> Intercept(link, current).href == link.value.url.href
  {
  }

  /** As written, a link from a directory's index page to the directory navigates, reloading the page already shown. */
  lemma InterceptAsWrittenReloadsDirectory(href: string, current: Url)
    requires href != "" && '#' !in href && current.path == "/d/index.html"
    ensures Intercept(Some(Link(Url(href, current.origin, current.protocol, "/d/"), "")), current) == Navigate(href)
  {
    CleanPathAsWrittenSplitsDirectory();
  }

  /** As written, a link from "/my" to the different page "/myindex.html" is suppressed, so it never opens. */
  lemma InterceptAsWrittenMergesPages(href: string, current: Url)
    requires href != "" && '#' !in href && current.path == "/my"
    ensures Intercept(Some(Link(Url(href, current.origin, current.protocol, "/myindex.html"), "")), current) == Suppress
  {
    CleanPathAsWrittenCutsInsideNames();
  }

  /** The click decision the comment at the `cleanPath` line describes: `isSamePage` compares the intended normalisation. */
  function IntendedIntercept(link: Option<Link>, current: Url): (r: Action)
    ensures r != Ignore ==> link.Some? && link.value.url.href != ""
    ensures r.Navigate? ==>
      r.href == link.value.url.href && CleanPath(link.value.url.path) != CleanPath(current.path)
    ensures (r == Ignore) == (Intercept(link, current) == Ignore)
  {
    Decide(link, current, link.Some? && CleanPath(link.value.url.path) == CleanPath(current.path))
  }

  /** With the intended normalisation, a link from a directory's index page to the directory is suppressed rather than reloaded. */
  lemma InterceptSuppressesSamePage(d: string, href: string, current: Url)
    requires |d| == 0 || d[|d| - 1] != '/'
    requires href != "" && '#' !in href && current.path == d + "/index.html"
    ensures IntendedIntercept(Some(Link(Url(href, current.origin, current.protocol, d + "/"), "")), current) == Suppress
  {
    CleanPathJoinsDirectory(d);
  }

  /** With the intended normalisation, a link to another page of the same directory navigates. */
  lemma InterceptNavigatesBetweenPages(d: string, a: string, b: string, href: string, current: Url)
    requires a != "" && a != "index.html" && '/' !in a
    requires b != "" && b != "index.html" && '/' !in b && a != b
    requires href != "" && '#' !in href && current.path == d + "/" + a
    ensures IntendedIntercept(Some(Link(Url(href, current.origin, current.protocol, d + "/" + b), "")), current) == Navigate(href)
  {
    CleanPathKeepsPages(d, a);
    CleanPathKeepsPages(d, b);
    assert (d + "/" + a)[|d| + 1..] == a && (d + "/" + b)[|d| + 1..] == b;
  }

  /** The router's view of the browser: the current address and what it has been asked to do. */
  datatype Effect = Pushed(url: string) | Fetched(url: string) | Loaded(url: string)
  datatype Browser = Browser(location: string, effects: seq<Effect>)

  /** `navigateTo`: nothing for the current address; else push and fetch, or a full load when the push throws. */
  function Navigated(b: Browser, url: string, pushThrows: bool): (r: Browser)
    ensures url == b.location ==> r == b
    ensures url != b.location ==> r.location == url && |r.effects| > |b.effects|
  {
    if url == b.location then b
    else if pushThrows then Browser(url, b.effects + [Loaded(url)])
    else Browser(url, b.effects + [Pushed(url), Fetched(url)])
  }

  /** Navigating twice to one address pushes it once: the guard makes the second call a no-op. */
  lemma NavigatedIdempotent(b: Browser, url: string, f: bool, g: bool)
    ensures Navigated(Navigated(b, url, f), url, g) == Navigated(b, url, f)
  {
  }

  /** The navigation bar's links, as `setActiveLink` finds them. */
  class NavBar {
    var links: seq<NavLink>

    constructor (hrefs: seq<string>)
      ensures |links| == |hrefs| && forall k | 0 <= k < |links| :: links[k] == NavLink(hrefs[k], false)
    {
      links := seq(|hrefs|, k requires 0 <= k < |hrefs| => NavLink(hrefs[k], false));
    }

    /** The `forEach` of `setActiveLink`: a link is active exactly when its `href` is `page`. */
    method MarkActive(page: string)
      modifies this
      ensures links == Activated(old(links), page)
    {
      ghost var start := links;
      var i := 0;
      while i < |links|
        invariant 0 <= i <= |links| == |start|
        invariant forall k | 0 <= k < i :: links[k] == start[k].(active := start[k].href == page)
        invariant forall k | i <= k < |links| :: links[k] == start[k]
      {
        ghost var before := links;
        var link := links[i];
        if link.href == page {
          links := links[i := link.(active := true)];
        } else {
          links := links[i := link.(active := false)];
        }
        assert links == before[i := start[i].(active := start[i].href == page)];
        i := i + 1;
      }
    }

    /** `setActiveLink` at `path`: exactly the links whose `href` is the page name are active. */
    method SetActiveLink(path: string)
      modifies this
      ensures links == Activated(old(links), PageName(path))
      ensures forall k | 0 <= k < |links| ::
        links[k].href == old(links[k].href) && (links[k].active <==> links[k].href == PageName(path))
    {
      var lastSeg := LastSegment(path);
      var page := if lastSeg == "" then "index.html" else lastSeg;
      MarkActive(page);
      PageNameIsASegment(path);
      if page == "" || page == "/" {
        assert false;
      }
    }
  }

  /** The page's routing state: the browser it drives. */
  class Router {
    var location: string
    var effects: seq<Effect>

    function Snapshot(): Browser
      reads this
    {
      Browser(location, effects)
    }

    constructor (start: string)
      ensures location == start && effects == []
    {
      location := start;
      effects := [];
    }

    /** `navigateTo`; `pushThrows` says whether `history.pushState` throws, as it may under `file:`. */
    method NavigateTo(url: string, pushThrows: bool)
      modifies this
      ensures Snapshot() == Navigated(old(Snapshot()), url, pushThrows)
    {
      if url == location {
        return;
      }
      if pushThrows {
        location := url;
        effects := effects + [Loaded(url)];
      } else {
        effects := effects + [Pushed(url)];
        location := url;
        effects := effects + [Fetched(url)];
      }
    }

    /** The document click listener; returns whether the default action is prevented. */
    method OnClick(link: Option<Link>, current: Url, pushThrows: bool) returns (prevented: bool)
      requires current.href == location
      modifies this
      ensures prevented <==> Intercept(link, current) != Ignore
      ensures Intercept(link, current).Navigate? ==>
        Snapshot() == Navigated(old(Snapshot()), link.value.url.href, pushThrows)
      ensures !Intercept(link, current).Navigate? ==> Snapshot() == old(Snapshot())
    {
      var action := Intercept(link, current);
      match action
      case Ignore =>
        prevented := false;
      case Suppress =>
        prevented := true;
      case Navigate(href) =>
        prevented := true;
        NavigateTo(href, pushThrows);
    }
  }
}
