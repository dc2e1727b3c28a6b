/**
 * What the Sitemap extractor promises, stated on the tree denotation of `SitemapTree` (and,
 * through `ExtractOnTree`, on every serialised document): last-wins fields, items in
 * document order, the first failing item's error, the repeated-`loc` abort.
 */
module SitemapProperties {
  import opened Wrappers
  import opened Errors
  import opened Xml
  import opened XmlTree
  import opened Ext
  import opened SitemapFeed
  import opened SitemapParse
  import opened SitemapTree

  // ---------------------------------------------------------------------------------------
  // Last wins

  /** The last of the children `cs` that satisfies `p`, searched from the end. */
  function LastWhere(cs: seq<Node>, p: Node -> bool): (r: Option<Node>)
    decreases |cs|
    ensures r.Some? ==> exists i :: 0 <= i < |cs| && cs[i] == r.value && p(cs[i]) && forall j :: i < j < |cs| ==> !p(cs[j])
    ensures r.None? ==> forall i :: 0 <= i < |cs| ==> !p(cs[i])
  {
    if cs == [] then None
    else if p(cs[|cs| - 1]) then Some(cs[|cs| - 1])
    else
      var r := LastWhere(cs[..|cs| - 1], p);
      assert forall i :: 0 <= i < |cs| - 1 ==> cs[..|cs| - 1][i] == cs[i];
      r
  }

  /** Searching from the end of `[c] + rest` looks at `c` only when `rest` has no match. */
  lemma {:induction false} LastWhereCons(c: Node, rest: seq<Node>, p: Node -> bool)
    ensures LastWhere([c] + rest, p) == if LastWhere(rest, p).Some? then LastWhere(rest, p) else if p(c) then Some(c) else None
    decreases |rest|
  {
    var cs := [c] + rest;
    if rest != [] {
      assert cs[|cs| - 1] == rest[|rest| - 1];
      if !p(rest[|rest| - 1]) {
        assert cs[..|cs| - 1] == [c] + rest[..|rest| - 1];
        LastWhereCons(c, rest[..|rest| - 1], p);
      }
    } else {
      assert cs[..|cs| - 1] == [];
    }
  }

  /** A fold whose step overwrites a field with `g(n)` on the children satisfying `p`, and
      leaves it alone on the others, ends with the value of the last such child. */
  lemma {:induction false} FoldLastWins<S, V>(step: (Node, S) -> S, cs: seq<Node>, s: S, get: S -> V, p: Node -> bool, g: Node -> V)
    requires forall n, t :: get(step(n, t)) == if p(n) then g(n) else get(t)
    ensures get(Fold(step, cs, s)) == match LastWhere(cs, p) { case None => get(s) case Some(n) => g(n) }
    decreases cs
  {
    if cs != [] {
      FoldLastWins(step, cs[1..], step(cs[0], s), get, p, g);
      assert cs == [cs[0]] + cs[1..];
      LastWhereCons(cs[0], cs[1..], p);
    }
  }

  /** An element of the given lower-cased name (extension or not). */
  function Named(name: string): Node -> bool
  {
    (n: Node) => n.Element? && Lower(n.name) == name
  }

  /** The character data of the last child that satisfies `p`, or "" when there is none. */
  function LastContent(cs: seq<Node>, p: Node -> bool): string
  {
    match LastWhere(cs, p)
    case None => ""
    case Some(n) => Content(n)
  }

  /** The character data of the last child called `name`, or "" when there is none. */
  function LastText(cs: seq<Node>, name: string): string
  {
    LastContent(cs, Named(name))
  }

  // ---------------------------------------------------------------------------------------
  // publication, image, news

  /** `publication` keeps the last `name` and the last `language`; anything else is skipped. */
  lemma PublicationFields(n: Node)
    requires n.Element?
    ensures PublicationOf(n) == News(LastText(n.children, "name"), "", LastText(n.children, "language"), "")
  {
    var cs := n.children;
    FoldLastWins(PublicationChild, cs, EmptyNews, (t: News) => t.name, Named("name"), Content);
    FoldLastWins(PublicationChild, cs, EmptyNews, (t: News) => t.language, Named("language"), Content);
    var never := (m: Node) => false;
    FoldLastWins(PublicationChild, cs, EmptyNews, (t: News) => t.title, never, Content);
    FoldLastWins(PublicationChild, cs, EmptyNews, (t: News) => t.publicationDate, never, Content);
  }

  /** `image` keeps the last `loc`. */
  lemma ImageFields(n: Node)
    requires n.Element?
    ensures ImageOf(n) == Image(LastText(n.children, "loc"))
  {
    FoldLastWins(ImageChild, n.children, EmptyImage, (t: Image) => t.link, Named("loc"), Content);
  }

  /** `news` keeps the last `title` and `publication_date`, and the name and language of the
      last `publication`. */
  lemma NewsFields(n: Node)
    requires n.Element?
    ensures var news := NewsOf(n);
            && news.title == LastText(n.children, "title")
            && news.publicationDate == LastText(n.children, "publication_date")
            && news.name == (match LastWhere(n.children, Named("publication")) { case None => "" case Some(m) => PublicationOf(m).name })
            && news.language == (match LastWhere(n.children, Named("publication")) { case None => "" case Some(m) => PublicationOf(m).language })
  {
    var cs := n.children;
    var pub := (m: Node) => if m.Element? then PublicationOf(m) else EmptyNews;
    FoldLastWins(NewsChild, cs, EmptyNews, (t: News) => t.title, Named("title"), Content);
    FoldLastWins(NewsChild, cs, EmptyNews, (t: News) => t.publicationDate, Named("publication_date"), Content);
    FoldLastWins(NewsChild, cs, EmptyNews, (t: News) => t.name, Named("publication"), (m: Node) => pub(m).name);
    FoldLastWins(NewsChild, cs, EmptyNews, (t: News) => t.language, Named("publication"), (m: Node) => pub(m).language);
  }

  // ---------------------------------------------------------------------------------------
  // url

  /** A child of `url` read as `name`: extension elements go to the extension parser instead. */
  function UrlChild(name: string): Node -> bool
  {
    (n: Node) => n.Element? && !n.isExt && Lower(n.name) == name
  }

  predicate IsExtensionElement(n: Node)
  {
    n.Element? && n.isExt
  }

  /** The record a `news` child contributes (any other node contributes nothing). */
  function NewsOfChild(n: Node): News
  {
    if n.Element? then NewsOf(n) else EmptyNews
  }

  /** The record an `image` child contributes. */
  function ImageOfChild(n: Node): Image
  {
    if n.Element? then ImageOf(n) else EmptyImage
  }

  /** A `news` child whose `publication_date` the date parser accepts. */
  function ParsedNews(plugins: Plugins): Node -> bool
  {
    (n: Node) => UrlChild("news")(n) && plugins.parseDate(NewsOfChild(n).publicationDate).Some?
  }

  /** What one child does to the accumulator of a walk that neither fails nor stops. */
  function ItemAccStep(n: Node, plugins: Plugins, acc: ItemAcc): ItemAcc
  {
    if n.Chars? then acc
    else if n.isExt then
      // an extension error ends the walk, so the map kept for it here is never used
      WithExtensions(acc, match plugins.parseExtension(acc.exts, Tokens(n)) { case Err(_) => acc.exts case Ok(exts) => exts })
    else ItemChild(n, plugins, acc)
  }

  function ItemAccFold(plugins: Plugins): (Node, ItemAcc) -> ItemAcc
  {
    (n, acc) => ItemAccStep(n, plugins, acc)
  }

  /** A failed or stopped walk stays as it is. */
  lemma {:induction false} ItemWalkAbsorbs(cs: seq<Node>, plugins: Plugins, s: Result<ItemWalk, Error>)
    requires s.Err? || s.value.stopped
    ensures ItemChildren(cs, plugins, s) == s
    decreases cs
  {
    if cs != [] {
      ItemWalkAbsorbs(cs[1..], plugins, s);
    }
  }

  /** A walk that neither fails nor stops is the fold of `ItemAccStep`, and every `loc` it met
      was read while the link was still empty. */
  lemma {:induction false} SuccessfulWalk(cs: seq<Node>, plugins: Plugins, acc: ItemAcc, acc': ItemAcc)
    requires ItemChildren(cs, plugins, Ok(ItemWalk(acc, false))) == Ok(ItemWalk(acc', false))
    ensures acc' == Fold(ItemAccFold(plugins), cs, acc)
    ensures |acc.item.link| > 0 ==> forall i :: 0 <= i < |cs| ==> !UrlChild("loc")(cs[i])
    ensures forall i, j :: 0 <= i < j < |cs| && UrlChild("loc")(cs[i]) && UrlChild("loc")(cs[j]) ==> Content(cs[i]) == ""
    decreases cs
  {
    if cs != [] {
      var n := cs[0];
      var s1 := ItemNode(n, plugins, Ok(ItemWalk(acc, false)));
      if s1.Err? || s1.value.stopped {
        ItemWalkAbsorbs(cs[1..], plugins, s1);
      } else {
        var acc1 := s1.value.acc;
        assert acc1 == ItemAccStep(n, plugins, acc);
        assert UrlChild("loc")(n) ==> |acc.item.link| == 0 && acc1.item.link == Content(n);
        assert !UrlChild("loc")(n) ==> acc1.item.link == acc.item.link;
        SuccessfulWalk(cs[1..], plugins, acc1, acc');
        forall i, j | 0 <= i < j < |cs| && UrlChild("loc")(cs[i]) && UrlChild("loc")(cs[j])
          ensures Content(cs[i]) == ""
        {
          if i > 0 {
            assert cs[1..][i - 1] == cs[i] && cs[1..][j - 1] == cs[j];
          } else {
            assert cs[1..][j - 1] == cs[j];
          }
        }
        if |acc.item.link| > 0 {
          forall i | 0 <= i < |cs|
            ensures !UrlChild("loc")(cs[i])
          {
            if i > 0 {
              assert cs[1..][i - 1] == cs[i];
            }
          }
        }
      }
    }
  }

  /** The accumulator at the end of a `url` whose walk neither fails nor stops. */
  function ItemAccOf(n: Node, plugins: Plugins): ItemAcc
    requires n.Element?
  {
    Fold(ItemAccFold(plugins), n.children, NewItemAcc)
  }

  /** A successfully read `url` is the fold of `ItemAccStep` over its children, finished; a
      `loc` after a non-empty `loc` never occurs in it. */
  lemma SuccessfulItem(n: Node, plugins: Plugins)
    requires n.Element? && ItemOf(n, plugins).Ok?
    ensures ItemOf(n, plugins).value.0 == Finish(ItemAccOf(n, plugins))
    ensures forall i, j :: 0 <= i < j < |n.children| && UrlChild("loc")(n.children[i]) && UrlChild("loc")(n.children[j])
                           ==> Content(n.children[i]) == ""
  {
    var w := ItemChildren(n.children, plugins, NewItemWalk).value;
    SuccessfulWalk(n.children, plugins, NewItemAcc, w.acc);
  }

  /** The link of a successfully read `url` is the text of its last `loc`. */
  lemma ItemLink(n: Node, plugins: Plugins)
    requires n.Element? && ItemOf(n, plugins).Ok?
    ensures ItemOf(n, plugins).value.0.link == LastContent(n.children, UrlChild("loc"))
  {
    SuccessfulItem(n, plugins);
    FoldLastWins(ItemAccFold(plugins), n.children, NewItemAcc, (a: ItemAcc) => a.item.link, UrlChild("loc"), Content);
  }

  /** The image of a successfully read `url` is that of its last `image`, absent without one. */
  lemma ItemImage(n: Node, plugins: Plugins)
    requires n.Element? && ItemOf(n, plugins).Ok?
    ensures ItemOf(n, plugins).value.0.image ==
              match LastWhere(n.children, UrlChild("image")) { case None => None case Some(m) => Some(ImageOfChild(m)) }
  {
    SuccessfulItem(n, plugins);
    FoldLastWins(ItemAccFold(plugins), n.children, NewItemAcc, (a: ItemAcc) => a.item.image, UrlChild("image"),
                 (m: Node) => Some(ImageOfChild(m)));
  }

  /** Title and raw date come from the last `news`. */
  lemma ItemNews(n: Node, plugins: Plugins)
    requires n.Element? && ItemOf(n, plugins).Ok?
    ensures var item := ItemOf(n, plugins).value.0;
            var last := LastWhere(n.children, UrlChild("news"));
            && item.title == (match last { case None => "" case Some(m) => NewsOfChild(m).title })
            && item.pubDate == (match last { case None => "" case Some(m) => NewsOfChild(m).publicationDate })
  {
    var cs, step := n.children, ItemAccFold(plugins);
    SuccessfulItem(n, plugins);
    FoldLastWins(step, cs, NewItemAcc, (a: ItemAcc) => a.item.title, UrlChild("news"), (m: Node) => NewsOfChild(m).title);
    FoldLastWins(step, cs, NewItemAcc, (a: ItemAcc) => a.item.pubDate, UrlChild("news"), (m: Node) => NewsOfChild(m).publicationDate);
  }

  /** The parsed date comes from the last `news` whose date parses, and stays absent when none
      does: a date that does not parse neither aborts nor clears an earlier parsed date. */
  lemma ItemPubDateParsed(n: Node, plugins: Plugins)
    requires n.Element? && ItemOf(n, plugins).Ok?
    ensures ItemOf(n, plugins).value.0.pubDateParsed ==
              match LastWhere(n.children, ParsedNews(plugins)) {
                case None => None
                case Some(m) => plugins.parseDate(NewsOfChild(m).publicationDate) }
  {
    SuccessfulItem(n, plugins);
    forall m: Node, a: ItemAcc
      ensures ItemAccFold(plugins)(m, a).item.pubDateParsed ==
                if ParsedNews(plugins)(m) then plugins.parseDate(NewsOfChild(m).publicationDate) else a.item.pubDateParsed
    {
      if m.Element? && !m.isExt && Lower(m.name) == "news" {
        assert NewsOfChild(m) == NewsOf(m);
      }
    }
    FoldLastWins(ItemAccFold(plugins), n.children, NewItemAcc, (a: ItemAcc) => a.item.pubDateParsed, ParsedNews(plugins),
                 (m: Node) => plugins.parseDate(NewsOfChild(m).publicationDate));
  }

  /** A successfully read `url` has extensions exactly when it has an extension child. */
  lemma ItemExtensions(n: Node, plugins: Plugins)
    requires n.Element? && ItemOf(n, plugins).Ok?
    ensures ItemOf(n, plugins).value.0.extensions.Some? <==> exists i :: 0 <= i < |n.children| && IsExtensionElement(n.children[i])
  {
    SuccessfulItem(n, plugins);
    var untouched := (a: ItemAcc) => a.item.extensions.None? && a.exts == map[];
    FoldLastWins(ItemAccFold(plugins), n.children, NewItemAcc, untouched, (m: Node) => IsExtensionElement(m), (m: Node) => false);
  }

  /** With an extension parser that never fails, the walk over a child never fails. */
  lemma {:induction false} ItemNodeNeverFails(n: Node, plugins: Plugins, w: ItemWalk)
    requires forall a, t :: plugins.parseExtension(a, t).Ok?
    ensures ItemNode(n, plugins, Ok(w)).Ok?
    decreases n
  {
    if n.Element? && !n.isExt && !w.stopped {
      ItemChildrenNeverFail(n.children, plugins, w);
    }
  }

  /** With an extension parser that never fails, the walk over children never fails. */
  lemma {:induction false} ItemChildrenNeverFail(cs: seq<Node>, plugins: Plugins, w: ItemWalk)
    requires forall a, t :: plugins.parseExtension(a, t).Ok?
    ensures ItemChildren(cs, plugins, Ok(w)).Ok?
    decreases cs
  {
    if cs != [] {
      ItemNodeNeverFails(cs[0], plugins, w);
      ItemChildrenNeverFail(cs[1..], plugins, ItemNode(cs[0], plugins, Ok(w)).value);
    }
  }

  /** A `loc` after a non-empty `loc` makes the whole `url` fail: the second `loc` is not
      consumed, the loop ends on its end tag, and the closing check wants `url`'s.  Unless an
      extension failed first, the error is that closing check's. */
  lemma SecondLocFails(n: Node, plugins: Plugins, i: nat, j: nat)
    requires n.Element? && i < j < |n.children|
    requires UrlChild("loc")(n.children[i]) && UrlChild("loc")(n.children[j]) && Content(n.children[i]) != ""
    ensures ItemOf(n, plugins).Err?
    ensures (forall a, t :: plugins.parseExtension(a, t).Ok?) ==> ItemOf(n, plugins) == Err(Unexpected(EndTag, "url"))
  {
    if ItemOf(n, plugins).Ok? {
      SuccessfulItem(n, plugins);
    }
    if forall a, t :: plugins.parseExtension(a, t).Ok? {
      ItemChildrenNeverFail(n.children, plugins, ItemWalk(NewItemAcc, false));
    }
  }

  // ---------------------------------------------------------------------------------------
  // urlset

  /** A child of `urlset` that is read as an item. */
  predicate IsUrl(n: Node)
  {
    n.Element? && !n.isExt && Lower(n.name) == "url"
  }

  /** The `url` children, in document order. */
  function Urls(cs: seq<Node>): (us: seq<Node>)
    ensures forall i :: 0 <= i < |us| ==> IsUrl(us[i])
  {
    if cs == [] then [] else (if IsUrl(cs[0]) then [cs[0]] else []) + Urls(cs[1..])
  }

  /** A failed read of the items stays failed. */
  lemma {:induction false} FeedFoldAbsorbs(cs: seq<Node>, plugins: Plugins, e: Error)
    ensures Fold(FeedStep(plugins), cs, Err(e)) == Err(e)
    decreases cs
  {
    if cs != [] {
      FeedFoldAbsorbs(cs[1..], plugins, e);
    }
  }

  /** Reading the children of `urlset` succeeds exactly when every `url` child reads. */
  lemma {:induction false} FeedFoldSucceeds(cs: seq<Node>, plugins: Plugins, done: seq<Item>)
    ensures var us := Urls(cs);
            Fold(FeedStep(plugins), cs, Ok(done)).Ok? <==> forall i :: 0 <= i < |us| ==> ItemOf(us[i], plugins).Ok?
    decreases cs
  {
    if cs != [] {
      var n, rest := cs[0], cs[1..];
      var us := Urls(cs);
      if IsUrl(n) {
        assert us == [n] + Urls(rest);
        match ItemOf(n, plugins)
        case Err(e) =>
          assert FeedStep(plugins)(n, Ok(done)) == Err(e);
          FeedFoldAbsorbs(rest, plugins, e);
          assert us[0] == n;
        case Ok(x) =>
          assert Fold(FeedStep(plugins), cs, Ok(done)) == Fold(FeedStep(plugins), rest, Ok(done + [x.0]));
          FeedFoldSucceeds(rest, plugins, done + [x.0]);
          assert (forall i :: 0 <= i < |us| ==> ItemOf(us[i], plugins).Ok?)
             <==> (forall i :: 0 <= i < |Urls(rest)| ==> ItemOf(Urls(rest)[i], plugins).Ok?) by {
            assert forall i :: 0 <= i < |Urls(rest)| ==> Urls(rest)[i] == us[i + 1];
          }
      } else {
        assert us == Urls(rest);
        FeedFoldSucceeds(rest, plugins, done);
      }
    }
  }

  /** A successful read of the children of `urlset` after the items `done` appends one item per
      `url` child, in document order. */
  lemma {:induction false} FeedFoldItems(cs: seq<Node>, plugins: Plugins, done: seq<Item>)
    ensures var r := Fold(FeedStep(plugins), cs, Ok(done));
            var us := Urls(cs);
            r.Ok? ==> && |r.value| == |done| + |us| && r.value[..|done|] == done
                      && forall i :: 0 <= i < |us| ==> ItemOf(us[i], plugins).Ok? && r.value[|done| + i] == ItemOf(us[i], plugins).value.0
    decreases cs
  {
    if cs != [] {
      var n, rest := cs[0], cs[1..];
      var us := Urls(cs);
      if IsUrl(n) {
        assert us == [n] + Urls(rest);
        match ItemOf(n, plugins)
        case Err(e) =>
          assert FeedStep(plugins)(n, Ok(done)) == Err(e);
          FeedFoldAbsorbs(rest, plugins, e);
        case Ok(x) =>
          FeedFoldItems(rest, plugins, done + [x.0]);
          var r := Fold(FeedStep(plugins), rest, Ok(done + [x.0]));
          if r.Ok? {
            forall i | 0 <= i < |us|
              ensures ItemOf(us[i], plugins).Ok? && r.value[|done| + i] == ItemOf(us[i], plugins).value.0
            {
              if i > 0 {
                assert us[i] == Urls(rest)[i - 1];
              }
            }
            assert r.value[..|done|] == (r.value[..|done| + 1])[..|done|];
          }
      } else {
        assert us == Urls(rest);
        FeedFoldItems(rest, plugins, done);
      }
    }
  }

  /** The `url` children `us` read successfully up to index `i`, where reading fails with `e`. */
  predicate FirstFailure(us: seq<Node>, plugins: Plugins, i: nat, e: Error)
    requires forall k :: 0 <= k < |us| ==> us[k].Element?
  {
    i < |us| && ItemOf(us[i], plugins) == Err(e) && forall k :: 0 <= k < i ==> ItemOf(us[k], plugins).Ok?
  }

  /** A `url` child that reads successfully moves the first failure one place on. */
  lemma FirstFailureCons(n: Node, us: seq<Node>, plugins: Plugins, i: nat, e: Error)
    requires n.Element? && forall k :: 0 <= k < |us| ==> us[k].Element?
    requires ItemOf(n, plugins).Ok? && FirstFailure(us, plugins, i, e)
    ensures FirstFailure([n] + us, plugins, i + 1, e)
  {
    var vs := [n] + us;
    forall k | 0 <= k < i + 1
      ensures ItemOf(vs[k], plugins).Ok?
    {
      if k > 0 {
        assert vs[k] == us[k - 1];
      }
    }
  }

  /** When reading the children of `urlset` fails, the error is that of the first `url` child
      that fails to read. */
  lemma {:induction false} FeedFoldError(cs: seq<Node>, plugins: Plugins, done: seq<Item>, e: Error)
    requires Fold(FeedStep(plugins), cs, Ok(done)) == Err(e)
    ensures exists i: nat :: FirstFailure(Urls(cs), plugins, i, e)
    decreases cs
  {
    var n, rest := cs[0], cs[1..];
    if IsUrl(n) {
      assert Urls(cs) == [n] + Urls(rest);
      match ItemOf(n, plugins)
      case Err(e0) =>
        FeedFoldAbsorbs(rest, plugins, e0);
        assert FirstFailure(Urls(cs), plugins, 0, e);
      case Ok(x) =>
        FeedFoldError(rest, plugins, done + [x.0], e);
        var i: nat :| FirstFailure(Urls(rest), plugins, i, e);
        FirstFailureCons(n, Urls(rest), plugins, i, e);
    } else {
      assert Urls(cs) == Urls(rest);
      FeedFoldError(rest, plugins, done, e);
    }
  }

  /** The items of a `urlset`: one per `url` child, in document order; or the error of the
      first `url` child that fails. */
  lemma FeedItemsInOrder(cs: seq<Node>, plugins: Plugins)
    ensures var r := FeedItems(cs, plugins);
            var us := Urls(cs);
            && (r.Ok? <==> forall i :: 0 <= i < |us| ==> ItemOf(us[i], plugins).Ok?)
            && (r.Ok? ==> |r.value| == |us| && forall i :: 0 <= i < |us| ==> r.value[i] == ItemOf(us[i], plugins).value.0)
            && (r.Err? ==> exists i :: 0 <= i < |us| && ItemOf(us[i], plugins) == Err(r.error)
                                       && forall k :: 0 <= k < i ==> ItemOf(us[k], plugins).Ok?)
  {
    FeedFoldSucceeds(cs, plugins, []);
    FeedFoldItems(cs, plugins, []);
    if FeedItems(cs, plugins).Err? {
      FeedFoldError(cs, plugins, [], FeedItems(cs, plugins).error);
    }
  }

  // ---------------------------------------------------------------------------------------
  // Whole documents

  /** The extractor on any serialised document (events without a start tag, a root element,
      then anything): a root other
      than `urlset` is refused; a `urlset` gives one item per `url` child, in document order,
      or the error of the first `url` child that fails; Title and Language stay empty and
      Version follows the namespace. */
  lemma DocumentFeed(lead: seq<Token>, root: Node, rest: seq<Token>, plugins: Plugins)
    requires BeforeRoot(lead) && root.Element?
    ensures var r := Extract(lead + Tokens(root) + rest, plugins);
            var us := Urls(root.children);
            && (Lower(root.name) != "urlset" ==> r == Err(Unexpected(StartTag, "urlset")))
            && (r.Ok? <==> Lower(root.name) == "urlset" && forall i :: 0 <= i < |us| ==> ItemOf(us[i], plugins).Ok?)
            && (r.Ok? ==> && |r.value.items| == |us|
                          && (forall i :: 0 <= i < |us| ==> r.value.items[i] == ItemOf(us[i], plugins).value.0)
                          && r.value.title == "" && r.value.language == ""
                          && r.value.version == (if Attribute(root.attrs, "xmlns") == SitemapNamespace then "0.9" else "unknow"))
            && (r.Err? && Lower(root.name) == "urlset" ==>
                  exists i :: 0 <= i < |us| && ItemOf(us[i], plugins) == Err(r.error)
                              && forall k :: 0 <= k < i ==> ItemOf(us[k], plugins).Ok?)
  {
    ExtractOnTree(lead, root, rest, plugins);
    FeedItemsInOrder(root.children, plugins);
  }

  /** A `urlset` without `url` children gives a feed with no items. */
  lemma NoUrlsNoItems(lead: seq<Token>, root: Node, rest: seq<Token>, plugins: Plugins)
    requires BeforeRoot(lead) && root.Element? && Lower(root.name) == "urlset" && Urls(root.children) == []
    ensures Extract(lead + Tokens(root) + rest, plugins) == Ok(EmptyFeed.(version := ParseVersion(root.name, root.attrs)))
  {
    DocumentFeed(lead, root, rest, plugins);
  }
}
