/**
 * The navigation sidebar: the longest-prefix search for the active menu link
 * (`findBestMatch`) and, per menu entry, the visibility test and the
 * active / child-active / initially-opened flags of `LinksGroup`.
 */
module Sidebar {
  import opened Wrappers
  import opened Strings
  import Permissions
  import Users

  /** A menu entry; a missing `links` array is the empty sequence (both are skipped alike). */
  datatype NavItem = NavItem(
    caption: string,   // `label` in the source (a reserved word here)
    link: Option<string>,
    permission: Option<string>,
    links: seq<NavItem>,
    initiallyOpened: bool)

  /** `item.link` is truthy: present and non-empty. */
  predicate HasLink(item: NavItem) {
    item.link.Some? && item.link.value != ""
  }

  /** `pathname === link || pathname.startsWith(link + '/')`. */
  predicate Matches(link: string, pathname: string) {
    pathname == link || StartsWith(pathname, link + "/")
  }

  // ---------------------------------------------------------------------------
  // The tree and its links in visiting order

  /** The truthy links of a forest, in the depth-first order `traverse` visits them. */
  function Links(items: seq<NavItem>): seq<string>
    decreases items
  {
    if items == [] then []
    else (if HasLink(items[0]) then [items[0].link.value] else []) + Links(items[0].links) + Links(items[1..])
  }

  /** `n` is a node of the forest, at any depth. */
  ghost predicate Occurs(n: NavItem, items: seq<NavItem>)
    decreases items
  {
    exists i :: 0 <= i < |items| && (items[i] == n || Occurs(n, items[i].links))
  }

  lemma {:induction false} LinksAppend(a: seq<NavItem>, b: seq<NavItem>)
    ensures Links(a + b) == Links(a) + Links(b)
    decreases a
  {
    if a != [] {
      assert (a + b)[0] == a[0] && (a + b)[1..] == a[1..] + b;
      LinksAppend(a[1..], b);
    } else {
      assert a + b == b;
    }
  }

  /** Every collected link is the non-empty link of some node of the tree. */
  lemma {:induction false} LinksSound(items: seq<NavItem>, l: string)
    requires l in Links(items)
    ensures exists n :: Occurs(n, items) && HasLink(n) && n.link.value == l
    decreases items
  {
    var head := items[0];
    if HasLink(head) && head.link.value == l {
      assert Occurs(head, items);
    } else if l in Links(head.links) {
      LinksSound(head.links, l);
      var n :| Occurs(n, head.links) && HasLink(n) && n.link.value == l;
      assert Occurs(n, items);
    } else {
      assert l in Links(items[1..]);
      LinksSound(items[1..], l);
      var n :| Occurs(n, items[1..]) && HasLink(n) && n.link.value == l;
      var i :| 0 <= i < |items[1..]| && (items[1..][i] == n || Occurs(n, items[1..][i].links));
      assert items[i + 1] == items[1..][i];
      assert Occurs(n, items);
    }
  }

  /** The non-empty link of every node of the tree, at any depth, is collected. */
  lemma {:induction false} LinksComplete(items: seq<NavItem>, n: NavItem)
    requires Occurs(n, items) && HasLink(n)
    ensures n.link.value in Links(items)
    decreases items
  {
    var i :| 0 <= i < |items| && (items[i] == n || Occurs(n, items[i].links));
    if i > 0 {
      assert items[1..][i - 1] == items[i];
      LinksComplete(items[1..], n);
    } else if items[0] != n {
      LinksComplete(items[0].links, n);
    }
  }

  /** The collected links are exactly the non-empty links of the nodes of the tree. */
  lemma LinksAreNodeLinks(items: seq<NavItem>, l: string)
    ensures l in Links(items) <==> exists n :: Occurs(n, items) && HasLink(n) && n.link.value == l
  {
    if l in Links(items) {
      LinksSound(items, l);
    }
    if exists n :: Occurs(n, items) && HasLink(n) && n.link.value == l {
      var n :| Occurs(n, items) && HasLink(n) && n.link.value == l;
      LinksComplete(items, n);
    }
  }

  // ---------------------------------------------------------------------------
  // findBestMatch

  /** The two mutable variables of `findBestMatch`. */
  datatype Best = Best(bestMatch: Option<string>, maxLen: nat)

  /** One visit of `traverse`: take the link when it matches and is strictly longer. */
  function Visit(b: Best, link: string, pathname: string): Best {
    if Matches(link, pathname) && |link| > b.maxLen then Best(Some(link), |link|) else b
  }

  /** The effect of visiting `links` in order, starting from `b`. */
  function Scan(links: seq<string>, pathname: string, b: Best): Best {
    if links == [] then b else Scan(links[1..], pathname, Visit(b, links[0], pathname))
  }

  lemma {:induction false} ScanAppend(xs: seq<string>, ys: seq<string>, pathname: string, b: Best)
    ensures Scan(xs + ys, pathname, b) == Scan(ys, pathname, Scan(xs, pathname, b))
  {
    if xs != [] {
      assert (xs + ys)[0] == xs[0] && (xs + ys)[1..] == xs[1..] + ys;
      ScanAppend(xs[1..], ys, pathname, Visit(b, xs[0], pathname));
    } else {
      assert xs + ys == ys;
    }
  }

  /** The specification of `findBestMatch`: scan every link of the tree from `null, 0`. */
  function BestMatch(items: seq<NavItem>, pathname: string): Option<string> {
    Scan(Links(items), pathname, Best(None, 0)).bestMatch
  }

  /** The recursive `traverse` closure: a loop over `list` that descends into every child list. */
  method Traverse(list: seq<NavItem>, pathname: string, b: Best) returns (r: Best)
    ensures r == Scan(Links(list), pathname, b)
    decreases list
  {
    r := b;
    for i := 0 to |list|
      invariant r == Scan(Links(list[..i]), pathname, b)
    {
      var item := list[i];
      if item.link.Some? && item.link.value != "" && Matches(item.link.value, pathname) {
        if |item.link.value| > r.maxLen {
          r := Best(Some(item.link.value), |item.link.value|);
        }
      }
      ghost var own := if HasLink(item) then [item.link.value] else [];
      ghost var afterOwn := r;
      r := Traverse(item.links, pathname, r);
      assert list[..i + 1] == list[..i] + [item];
      LinksAppend(list[..i], [item]);
      assert Links([item]) == own + Links(item.links);
      ScanAppend(Links(list[..i]), own + Links(item.links), pathname, b);
      ScanAppend(own, Links(item.links), pathname, Scan(Links(list[..i]), pathname, b));
    }
    assert list[..|list|] == list;
  }

  method FindBestMatch(items: seq<NavItem>, pathname: string) returns (bestMatch: Option<string>)
    ensures bestMatch == BestMatch(items, pathname)
  {
    var b := Traverse(items, pathname, Best(None, 0));
    bestMatch := b.bestMatch;
  }

  /** What a scan keeps: the current best matches, is as long as recorded, and beats every matching link seen. */
  lemma {:induction false} ScanFindsLongest(links: seq<string>, pathname: string, b: Best)
    requires forall i :: 0 <= i < |links| ==> links[i] != ""
    requires b.bestMatch.Some? ==> b.maxLen == |b.bestMatch.value| && Matches(b.bestMatch.value, pathname)
    requires b.bestMatch.None? ==> b.maxLen == 0
    ensures var r := Scan(links, pathname, b);
            && (r.bestMatch.Some? ==> r.maxLen == |r.bestMatch.value| && Matches(r.bestMatch.value, pathname))
            && (r.bestMatch.None? ==> r.maxLen == 0)
            && (r.bestMatch == b.bestMatch || (r.bestMatch.Some? && r.bestMatch.value in links))
            && b.maxLen <= r.maxLen
            && (forall l :: l in links && Matches(l, pathname) ==> |l| <= r.maxLen)
            && (r.bestMatch.None? ==> b.bestMatch.None? && forall l :: l in links ==> !Matches(l, pathname))
  {
    if links != [] {
      var b' := Visit(b, links[0], pathname);
      ScanFindsLongest(links[1..], pathname, b');
      assert forall l :: l in links ==> l == links[0] || l in links[1..];
    }
  }

  /** The result, when there is one, is a link of some node of the tree that matches the pathname. */
  lemma BestMatchIsMatchingNodeLink(items: seq<NavItem>, pathname: string)
    requires BestMatch(items, pathname).Some?
    ensures var r := BestMatch(items, pathname).value;
            Matches(r, pathname) && exists n :: Occurs(n, items) && n.link == Some(r)
  {
    var links := Links(items);
    LinksNonEmpty(items);
    ScanFindsLongest(links, pathname, Best(None, 0));
    var r := BestMatch(items, pathname).value;
    LinksAreNodeLinks(items, r);
  }

  /** No matching link of the tree is longer than the result, and there is a result iff some link matches. */
  lemma BestMatchIsLongest(items: seq<NavItem>, pathname: string, n: NavItem)
    requires Occurs(n, items) && HasLink(n) && Matches(n.link.value, pathname)
    ensures BestMatch(items, pathname).Some?
    ensures |n.link.value| <= |BestMatch(items, pathname).value|
  {
    var links := Links(items);
    LinksNonEmpty(items);
    LinksAreNodeLinks(items, n.link.value);
    ScanFindsLongest(links, pathname, Best(None, 0));
  }

  /** `null` exactly when no node has a non-empty link matching the pathname. */
  lemma BestMatchNoneIff(items: seq<NavItem>, pathname: string)
    ensures BestMatch(items, pathname).None?
            <==> forall n :: Occurs(n, items) && HasLink(n) ==> !Matches(n.link.value, pathname)
  {
    if BestMatch(items, pathname).None? {
      LinksNonEmpty(items);
      ScanFindsLongest(Links(items), pathname, Best(None, 0));
      forall n | Occurs(n, items) && HasLink(n) ensures !Matches(n.link.value, pathname) {
        LinksAreNodeLinks(items, n.link.value);
      }
    } else {
      BestMatchIsMatchingNodeLink(items, pathname);
      var r := BestMatch(items, pathname).value;
      LinksNonEmpty(items);
      ScanFindsLongest(Links(items), pathname, Best(None, 0));
      var n :| Occurs(n, items) && n.link == Some(r);
      assert r in Links(items);
      assert HasLink(n);
    }
  }

  lemma {:induction false} LinksNonEmpty(items: seq<NavItem>)
    ensures forall i :: 0 <= i < |Links(items)| ==> Links(items)[i] != ""
    decreases items
  {
    if items != [] {
      LinksNonEmpty(items[0].links);
      LinksNonEmpty(items[1..]);
    }
  }

  // ---------------------------------------------------------------------------
  // LinksGroup

  /** An ADMIN sees everything; otherwise an entry without a permission is shown, and one with a permission only when granted. */
  predicate IsVisible(user: Users.User, item: NavItem) {
    user.Identity() == Users.ADMIN
    || !(item.permission.Some? && item.permission.value != "")
    || Permissions.HasPermission(user.Permissions(), item.permission.value)
  }

  /** `link === activeLink`; a missing link is `undefined` and never equals a string or `null`. */
  predicate SameLink(link: Option<string>, activeLink: Option<string>) {
    link.Some? && activeLink.Some? && link.value == activeLink.value
  }

  predicate IsActive(item: NavItem, activeLink: Option<string>) {
    SameLink(item.link, activeLink)
  }

  /** `containsActive`: the node or some node below it carries the active link. */
  predicate ContainsActive(node: NavItem, activeLink: Option<string>)
    decreases node
  {
    SameLink(node.link, activeLink)
    || exists i :: 0 <= i < |node.links| && ContainsActive(node.links[i], activeLink)
  }

  predicate IsChildActive(item: NavItem, activeLink: Option<string>) {
    |item.links| > 0
    && exists i :: 0 <= i < |item.links|
         && (SameLink(item.links[i].link, activeLink) || ContainsActive(item.links[i], activeLink))
  }

  predicate InitiallyOpened(item: NavItem, activeLink: Option<string>) {
    item.initiallyOpened || IsChildActive(item, activeLink)
  }

  lemma {:induction false} ContainsActiveIff(node: NavItem, activeLink: Option<string>)
    ensures ContainsActive(node, activeLink)
            <==> SameLink(node.link, activeLink) || exists n :: Occurs(n, node.links) && SameLink(n.link, activeLink)
    decreases node
  {
    forall i | 0 <= i < |node.links| {
      ContainsActiveIff(node.links[i], activeLink);
    }
    if exists n :: Occurs(n, node.links) && SameLink(n.link, activeLink) {
      var n :| Occurs(n, node.links) && SameLink(n.link, activeLink);
      var i :| 0 <= i < |node.links| && (node.links[i] == n || Occurs(n, node.links[i].links));
      assert ContainsActive(node.links[i], activeLink);
    }
    if exists i :: 0 <= i < |node.links| && ContainsActive(node.links[i], activeLink) {
      var i :| 0 <= i < |node.links| && ContainsActive(node.links[i], activeLink);
      if SameLink(node.links[i].link, activeLink) {
        assert Occurs(node.links[i], node.links);
      } else {
        var n :| Occurs(n, node.links[i].links) && SameLink(n.link, activeLink);
        assert Occurs(n, node.links);
      }
    }
  }

  /** Child-active exactly when some strict descendant carries the active link. */
  lemma ChildActiveIff(item: NavItem, activeLink: Option<string>)
    ensures IsChildActive(item, activeLink)
            <==> exists n :: Occurs(n, item.links) && SameLink(n.link, activeLink)
  {
    var node := NavItem(item.caption, None, item.permission, item.links, item.initiallyOpened);
    ContainsActiveIff(node, activeLink);
    assert IsChildActive(item, activeLink) <==> ContainsActive(node, activeLink);
  }

  /** A group starts open when its flag says so or when some descendant is the active link. */
  lemma InitiallyOpenedIff(item: NavItem, activeLink: Option<string>)
    ensures InitiallyOpened(item, activeLink)
            <==> item.initiallyOpened || exists n :: Occurs(n, item.links) && SameLink(n.link, activeLink)
  {
    ChildActiveIff(item, activeLink);
  }

  /** With no active link nothing is active, child-active, or opened by activity. */
  lemma NoActiveLinkNothingActive(item: NavItem)
    ensures !IsActive(item, None)
    ensures !IsChildActive(item, None)
    ensures InitiallyOpened(item, None) == item.initiallyOpened
  {
    ChildActiveIff(item, None);
  }

  /** The active link chosen by the sidebar is active in the entry that carries it. */
  lemma ChosenLinkMarksItsEntry(items: seq<NavItem>, pathname: string, item: NavItem)
    requires item in items
    requires HasLink(item) && BestMatch(items, pathname) == item.link
    ensures IsActive(item, BestMatch(items, pathname))
  {
  }

  /** A non-admin sees an entry with a non-empty permission exactly when the permission list grants it. */
  lemma VisibleIffGranted(user: Users.User, item: NavItem)
    requires user.Identity() != Users.ADMIN
    requires item.permission.Some? && item.permission.value != ""
    ensures IsVisible(user, item)
            <==> user.Permissions().Some? && Permissions.Grants(user.Permissions().value, item.permission.value)
  {
    Permissions.HasPermissionIff(user.Permissions(), item.permission.value);
  }
}
