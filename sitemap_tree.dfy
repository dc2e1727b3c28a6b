/**
 * What the Sitemap extractor computes, stated on the document tree rather than on the event
 * stream: each element level is a left-to-right fold over the element's children.  The
 * `...OnTree` lemmas prove that the token-level specification of the extractor (and so the
 * methods proved equal to it) agrees with these folds on every serialised document.
 */
module SitemapTree {
  import opened Wrappers
  import opened Errors
  import opened Xml
  import opened XmlTree
  import opened Ext
  import opened SitemapFeed
  import opened SitemapParse

  // ---------------------------------------------------------------------------------------
  // publication

  /** What one child of `publication` does to the record. */
  function PublicationChild(n: Node, news: News): News
  {
    if n.Chars? then news
    else if Lower(n.name) == "name" then news.(name := Content(n))
    else if Lower(n.name) == "language" then news.(language := Content(n))
    else news
  }

  /** The record a `publication` element yields. */
  function PublicationOf(n: Node): News
    requires n.Element?
  {
    Fold(PublicationChild, n.children, EmptyNews)
  }

  lemma {:induction false} PublicationLoopEnd(toks: seq<Token>, pos: nat, news: News)
    requires pos < |toks| && toks[pos].End?
    ensures PublicationLoop(toks, pos, news) == Ok((news, pos + 1))
  {
  }

  lemma {:induction false} PublicationLoopText(toks: seq<Token>, pos: nat, news: News)
    requires pos < |toks| && NextTag(toks, pos) == NextTag(toks, pos + 1)
    ensures PublicationLoop(toks, pos, news) == PublicationLoop(toks, pos + 1, news)
  {
  }

  lemma {:induction false} PublicationLoopChild(toks: seq<Token>, pos: nat, news: News, q: nat, next: News)
    requires pos < |toks| && NextTag(toks, pos) == Ok(pos + 1) && toks[pos].Start?
    requires PublicationStep(toks, pos + 1, news) == Ok((next, q))
    ensures PublicationLoop(toks, pos, news) == PublicationLoop(toks, q, next)
  {
  }

  lemma {:induction false} PublicationStepOnTree(toks: seq<Token>, pos: nat, n: Node, news: News)
    requires n.Element? && At(toks, pos, Tokens(n))
    ensures toks[pos].Start?
    ensures PublicationStep(toks, pos + 1, news) == Ok((PublicationChild(n, news), pos + |Tokens(n)|))
  {
    NextTagElement(toks, pos, n);
    if Lower(n.name) == "name" || Lower(n.name) == "language" {
      ParseTextElement(toks, pos, n);
    } else {
      SkipElement(toks, pos, n);
    }
  }

  /** One child of `publication` read by the loop. */
  lemma {:induction false} PublicationLoopNode(toks: seq<Token>, pos: nat, n: Node, news: News)
    requires At(toks, pos, Tokens(n))
    ensures PublicationLoop(toks, pos, news) == PublicationLoop(toks, pos + |Tokens(n)|, PublicationChild(n, news))
  {
    if n.Chars? {
      NextTagChars(toks, pos, n);
      PublicationLoopText(toks, pos, news);
    } else {
      NextTagElement(toks, pos, n);
      PublicationStepOnTree(toks, pos, n, news);
      PublicationLoopChild(toks, pos, news, pos + |Tokens(n)|, PublicationChild(n, news));
    }
  }

  lemma {:induction false} PublicationLoopMoves(toks: seq<Token>)
    ensures forall p: nat, n: Node, t: News :: At(toks, p, Tokens(n))
              ==> PublicationLoop(toks, p, t) == PublicationLoop(toks, p + |Tokens(n)|, PublicationChild(n, t))
  {
    forall p: nat, n: Node, t: News | At(toks, p, Tokens(n))
      ensures PublicationLoop(toks, p, t) == PublicationLoop(toks, p + |Tokens(n)|, PublicationChild(n, t))
    {
      PublicationLoopNode(toks, p, n, t);
    }
  }

  lemma {:induction false} PublicationLoopOnTree(toks: seq<Token>, pos: nat, cs: seq<Node>, news: News)
    requires At(toks, pos, TokensOf(cs)) && pos + |TokensOf(cs)| < |toks| && toks[pos + |TokensOf(cs)|].End?
    ensures PublicationLoop(toks, pos, news) == Ok((Fold(PublicationChild, cs, news), pos + |TokensOf(cs)| + 1))
  {
    var loop := (p: nat, t: News) => if p <= |toks| then PublicationLoop(toks, p, t) else Err(NoNextTag);
    PublicationLoopMoves(toks);
    LoopOverNodes(toks, pos, cs, news, pos + |TokensOf(cs)|, loop, PublicationChild);
    PublicationLoopEnd(toks, pos + |TokensOf(cs)|, Fold(PublicationChild, cs, news));
  }

  /** `parsePublication` on a serialised `publication` element (start tag at index `pos`). */
  lemma {:induction false} ReadPublicationOnTree(toks: seq<Token>, pos: nat, n: Node)
    requires n.Element? && At(toks, pos, Tokens(n)) && Lower(n.name) == "publication"
    ensures ReadPublication(toks, pos + 1) == Ok((PublicationOf(n), pos + |Tokens(n)|))
  {
    AtElement(toks, pos, n);
    LowerTagNames();
    PublicationLoopOnTree(toks, pos + 1, n.children, EmptyNews);
  }

  // ---------------------------------------------------------------------------------------
  // image

  /** What one child of `image` does to the record. */
  function ImageChild(n: Node, image: Image): Image
  {
    if n.Element? && Lower(n.name) == "loc" then image.(link := Content(n)) else image
  }

  /** The record an `image` element yields. */
  function ImageOf(n: Node): Image
    requires n.Element?
  {
    Fold(ImageChild, n.children, EmptyImage)
  }

  lemma {:induction false} ImageLoopEnd(toks: seq<Token>, pos: nat, image: Image)
    requires pos < |toks| && toks[pos].End?
    ensures ImageLoop(toks, pos, image) == Ok((image, pos + 1))
  {
  }

  lemma {:induction false} ImageLoopText(toks: seq<Token>, pos: nat, image: Image)
    requires pos < |toks| && NextTag(toks, pos) == NextTag(toks, pos + 1)
    ensures ImageLoop(toks, pos, image) == ImageLoop(toks, pos + 1, image)
  {
  }

  lemma {:induction false} ImageLoopChild(toks: seq<Token>, pos: nat, image: Image, q: nat, next: Image)
    requires pos < |toks| && NextTag(toks, pos) == Ok(pos + 1) && toks[pos].Start?
    requires ImageStep(toks, pos + 1, image) == Ok((next, q))
    ensures ImageLoop(toks, pos, image) == ImageLoop(toks, q, next)
  {
  }

  lemma {:induction false} ImageStepOnTree(toks: seq<Token>, pos: nat, n: Node, image: Image)
    requires n.Element? && At(toks, pos, Tokens(n))
    ensures toks[pos].Start?
    ensures ImageStep(toks, pos + 1, image) == Ok((ImageChild(n, image), pos + |Tokens(n)|))
  {
    NextTagElement(toks, pos, n);
    if Lower(n.name) == "loc" {
      ParseTextElement(toks, pos, n);
    } else {
      SkipElement(toks, pos, n);
    }
  }

  /** One child of `image` read by the loop. */
  lemma {:induction false} ImageLoopNode(toks: seq<Token>, pos: nat, n: Node, image: Image)
    requires At(toks, pos, Tokens(n))
    ensures ImageLoop(toks, pos, image) == ImageLoop(toks, pos + |Tokens(n)|, ImageChild(n, image))
  {
    if n.Chars? {
      NextTagChars(toks, pos, n);
      ImageLoopText(toks, pos, image);
    } else {
      NextTagElement(toks, pos, n);
      ImageStepOnTree(toks, pos, n, image);
      ImageLoopChild(toks, pos, image, pos + |Tokens(n)|, ImageChild(n, image));
    }
  }

  lemma {:induction false} ImageLoopMoves(toks: seq<Token>)
    ensures forall p: nat, n: Node, t: Image :: At(toks, p, Tokens(n))
              ==> ImageLoop(toks, p, t) == ImageLoop(toks, p + |Tokens(n)|, ImageChild(n, t))
  {
    forall p: nat, n: Node, t: Image | At(toks, p, Tokens(n))
      ensures ImageLoop(toks, p, t) == ImageLoop(toks, p + |Tokens(n)|, ImageChild(n, t))
    {
      ImageLoopNode(toks, p, n, t);
    }
  }

  lemma {:induction false} ImageLoopOnTree(toks: seq<Token>, pos: nat, cs: seq<Node>, image: Image)
    requires At(toks, pos, TokensOf(cs)) && pos + |TokensOf(cs)| < |toks| && toks[pos + |TokensOf(cs)|].End?
    ensures ImageLoop(toks, pos, image) == Ok((Fold(ImageChild, cs, image), pos + |TokensOf(cs)| + 1))
  {
    var loop := (p: nat, t: Image) => if p <= |toks| then ImageLoop(toks, p, t) else Err(NoNextTag);
    ImageLoopMoves(toks);
    LoopOverNodes(toks, pos, cs, image, pos + |TokensOf(cs)|, loop, ImageChild);
    ImageLoopEnd(toks, pos + |TokensOf(cs)|, Fold(ImageChild, cs, image));
  }

  /** `parseImage` on a serialised `image` element. */
  lemma {:induction false} ReadImageOnTree(toks: seq<Token>, pos: nat, n: Node)
    requires n.Element? && At(toks, pos, Tokens(n)) && Lower(n.name) == "image"
    ensures ReadImage(toks, pos + 1) == Ok((ImageOf(n), pos + |Tokens(n)|))
  {
    AtElement(toks, pos, n);
    LowerTagNames();
    ImageLoopOnTree(toks, pos + 1, n.children, EmptyImage);
  }

  // ---------------------------------------------------------------------------------------
  // news

  /** What one child of `news` does to the record. */
  function NewsChild(n: Node, news: News): News
  {
    if n.Chars? then news
    else if Lower(n.name) == "publication" then
      var publication := PublicationOf(n);
      news.(name := publication.name, language := publication.language)
    else if Lower(n.name) == "publication_date" then news.(publicationDate := Content(n))
    else if Lower(n.name) == "title" then news.(title := Content(n))
    else news
  }

  /** The record a `news` element yields. */
  function NewsOf(n: Node): News
    requires n.Element?
  {
    Fold(NewsChild, n.children, EmptyNews)
  }

  lemma {:induction false} NewsLoopEnd(toks: seq<Token>, pos: nat, news: News)
    requires pos < |toks| && toks[pos].End?
    ensures NewsLoop(toks, pos, news) == Ok((news, pos + 1))
  {
  }

  lemma {:induction false} NewsLoopText(toks: seq<Token>, pos: nat, news: News)
    requires pos < |toks| && NextTag(toks, pos) == NextTag(toks, pos + 1)
    ensures NewsLoop(toks, pos, news) == NewsLoop(toks, pos + 1, news)
  {
  }

  lemma {:induction false} NewsLoopChild(toks: seq<Token>, pos: nat, news: News, q: nat, next: News)
    requires pos < |toks| && NextTag(toks, pos) == Ok(pos + 1) && toks[pos].Start?
    requires NewsStep(toks, pos + 1, news) == Ok((next, q))
    ensures NewsLoop(toks, pos, news) == NewsLoop(toks, q, next)
  {
  }

  lemma {:induction false} NewsStepOnTree(toks: seq<Token>, pos: nat, n: Node, news: News)
    requires n.Element? && At(toks, pos, Tokens(n))
    ensures toks[pos].Start?
    ensures NewsStep(toks, pos + 1, news) == Ok((NewsChild(n, news), pos + |Tokens(n)|))
  {
    NextTagElement(toks, pos, n);
    if Lower(n.name) == "publication" {
      ReadPublicationOnTree(toks, pos, n);
    } else if Lower(n.name) == "publication_date" || Lower(n.name) == "title" {
      ParseTextElement(toks, pos, n);
    } else {
      SkipElement(toks, pos, n);
    }
  }

  /** One child of `news` read by the loop. */
  lemma {:induction false} NewsLoopNode(toks: seq<Token>, pos: nat, n: Node, news: News)
    requires At(toks, pos, Tokens(n))
    ensures NewsLoop(toks, pos, news) == NewsLoop(toks, pos + |Tokens(n)|, NewsChild(n, news))
  {
    if n.Chars? {
      NextTagChars(toks, pos, n);
      NewsLoopText(toks, pos, news);
    } else {
      NextTagElement(toks, pos, n);
      NewsStepOnTree(toks, pos, n, news);
      NewsLoopChild(toks, pos, news, pos + |Tokens(n)|, NewsChild(n, news));
    }
  }

  lemma {:induction false} NewsLoopMoves(toks: seq<Token>)
    ensures forall p: nat, n: Node, t: News :: At(toks, p, Tokens(n))
              ==> NewsLoop(toks, p, t) == NewsLoop(toks, p + |Tokens(n)|, NewsChild(n, t))
  {
    forall p: nat, n: Node, t: News | At(toks, p, Tokens(n))
      ensures NewsLoop(toks, p, t) == NewsLoop(toks, p + |Tokens(n)|, NewsChild(n, t))
    {
      NewsLoopNode(toks, p, n, t);
    }
  }

  lemma {:induction false} NewsLoopOnTree(toks: seq<Token>, pos: nat, cs: seq<Node>, news: News)
    requires At(toks, pos, TokensOf(cs)) && pos + |TokensOf(cs)| < |toks| && toks[pos + |TokensOf(cs)|].End?
    ensures NewsLoop(toks, pos, news) == Ok((Fold(NewsChild, cs, news), pos + |TokensOf(cs)| + 1))
  {
    var loop := (p: nat, t: News) => if p <= |toks| then NewsLoop(toks, p, t) else Err(NoNextTag);
    NewsLoopMoves(toks);
    LoopOverNodes(toks, pos, cs, news, pos + |TokensOf(cs)|, loop, NewsChild);
    NewsLoopEnd(toks, pos + |TokensOf(cs)|, Fold(NewsChild, cs, news));
  }

  /** `parseNews` on a serialised `news` element. */
  lemma {:induction false} ReadNewsOnTree(toks: seq<Token>, pos: nat, n: Node)
    requires n.Element? && At(toks, pos, Tokens(n)) && Lower(n.name) == "news"
    ensures ReadNews(toks, pos + 1) == Ok((NewsOf(n), pos + |Tokens(n)|))
  {
    AtElement(toks, pos, n);
    LowerTagNames();
    NewsLoopOnTree(toks, pos + 1, n.children, EmptyNews);
  }

  // ---------------------------------------------------------------------------------------
  // url

  /** Where the walk over a `url` element's children has got to: `stopped` once a repeated
      `loc` has made the loop end on that `loc`'s end tag instead of the `url`'s. */
  datatype ItemWalk = ItemWalk(acc: ItemAcc, stopped: bool)

  const NewItemWalk: Result<ItemWalk, Error> := Ok(ItemWalk(NewItemAcc, false))

  /** What one recognised, non-extension child of `url` does to the accumulator. */
  function ItemChild(n: Node, plugins: Plugins, acc: ItemAcc): ItemAcc
    requires n.Element?
  {
    if Lower(n.name) == "news" then WithNews(acc, NewsOf(n), plugins.parseDate)
    else if Lower(n.name) == "loc" then acc.(item := acc.item.(link := Content(n)))
    else if Lower(n.name) == "image" then acc.(item := acc.item.(image := Some(ImageOf(n))))
    else acc
  }

  /** What one child of `url` does to the walk.  An extension child goes to the extension
      parser, whose error ends everything.  A `loc` met once the link is set is not consumed:
      the loop goes on inside it, reading its children as if they were children of the `url`,
      and ends at its end tag. */
  function ItemNode(n: Node, plugins: Plugins, s: Result<ItemWalk, Error>): Result<ItemWalk, Error>
    decreases n
  {
    match s
    case Err(e) => Err(e)
    case Ok(w) =>
      if w.stopped || n.Chars? then s
      else if n.isExt then
        match plugins.parseExtension(w.acc.exts, Tokens(n)) {
          case Err(e) => Err(e)
          case Ok(exts) => Ok(ItemWalk(WithExtensions(w.acc, exts), false))
        }
      else if Lower(n.name) == "loc" && |w.acc.item.link| > 0 then
        match ItemChildren(n.children, plugins, s) {
          case Err(e) => Err(e)
          case Ok(inner) => Ok(ItemWalk(inner.acc, true))
        }
      else Ok(ItemWalk(ItemChild(n, plugins, w.acc), false))
  }

  /** The loop of `parseItem` over the children `cs`. */
  function ItemChildren(cs: seq<Node>, plugins: Plugins, s: Result<ItemWalk, Error>): Result<ItemWalk, Error>
    decreases cs
  {
    if cs == [] then s else ItemChildren(cs[1..], plugins, ItemNode(cs[0], plugins, s))
  }

  /** The item (and the feed-level hints) a `url` element yields, or why it fails. */
  function ItemOf(n: Node, plugins: Plugins): Result<(Item, Feed), Error>
    requires n.Element?
  {
    match ItemChildren(n.children, plugins, NewItemWalk) {
      case Err(e) => Err(e)
      case Ok(w) => if w.stopped then Err(Unexpected(EndTag, "url")) else Ok((Finish(w.acc), w.acc.hints))
    }
  }

  lemma {:induction false} ItemChildrenFold(cs: seq<Node>, plugins: Plugins, s: Result<ItemWalk, Error>)
    ensures ItemChildren(cs, plugins, s) == Fold((n, t) => ItemNode(n, plugins, t), cs, s)
    decreases cs
  {
    if cs != [] {
      ItemChildrenFold(cs[1..], plugins, ItemNode(cs[0], plugins, s));
    }
  }

  /** `ParseExtension` on a serialised extension element hands the capability its events. */
  lemma {:induction false} ExtensionOnTree(toks: seq<Token>, pos: nat, n: Node, exts: Extensions, parse: ExtensionParser)
    requires n.Element? && At(toks, pos, Tokens(n))
    ensures ParseExtension(exts, toks, pos + 1, parse)
            == match parse(exts, Tokens(n)) {
                 case Err(e) => Err(e)
                 case Ok(updated) => Ok((updated, pos + |Tokens(n)|))
               }
  {
    ScanElement(toks, pos, n);
    AtSlice(toks, pos, Tokens(n));
  }

  /** The loop of `parseItem` from index `p`, seen through the walk: `end` is the index just
      past the `url`'s end tag, where a finished loop lands; a loop that ends earlier, on a `loc`
      end tag, has stopped.  `None` for a landing place the loop never reaches. */
  function ItemRun(toks: seq<Token>, end: nat, plugins: Plugins, p: nat, s: Result<ItemWalk, Error>): Option<Result<ItemWalk, Error>>
  {
    match s
    case Err(e) => Some(Err(e))
    case Ok(w) =>
      if w.stopped then Some(s)
      else if p > |toks| then None
      else Landing(toks, end, ItemLoop(toks, p, plugins, w.acc))
  }

  /** The walk a loop that ended with `landed` stands for. */
  function Landing(toks: seq<Token>, end: nat, landed: Result<(ItemAcc, nat), Error>): Option<Result<ItemWalk, Error>>
  {
    match landed
    case Err(e) => Some(Err(e))
    case Ok(r) =>
      if r.1 == end then Some(Ok(ItemWalk(r.0, false)))
      else if 0 < r.1 < end && r.1 <= |toks| && toks[r.1 - 1].End? && Lower(toks[r.1 - 1].name) == "loc" then Some(Ok(ItemWalk(r.0, true)))
      else None
  }

  lemma {:induction false} ItemLoopEnd(toks: seq<Token>, pos: nat, plugins: Plugins, acc: ItemAcc)
    requires pos < |toks| && toks[pos].End?
    ensures ItemLoop(toks, pos, plugins, acc) == Ok((acc, pos + 1))
  {
  }

  lemma {:induction false} ItemLoopText(toks: seq<Token>, pos: nat, plugins: Plugins, acc: ItemAcc)
    requires pos < |toks| && NextTag(toks, pos) == NextTag(toks, pos + 1)
    ensures ItemLoop(toks, pos, plugins, acc) == ItemLoop(toks, pos + 1, plugins, acc)
  {
  }

  lemma {:induction false} ItemLoopChild(toks: seq<Token>, pos: nat, plugins: Plugins, acc: ItemAcc)
    requires pos < |toks| && NextTag(toks, pos) == Ok(pos + 1) && toks[pos].Start?
    ensures ItemLoop(toks, pos, plugins, acc)
            == match ItemStep(toks, pos + 1, plugins, acc) {
                 case Err(e) => Err(e)
                 case Ok(step) => ItemLoop(toks, step.1, plugins, step.0)
               }
  {
  }

  /** A child of `url` that the loop reads whole. */
  lemma {:induction false} ItemStepOnTree(toks: seq<Token>, pos: nat, n: Node, plugins: Plugins, acc: ItemAcc)
    requires n.Element? && !n.isExt && At(toks, pos, Tokens(n))
    requires Lower(n.name) == "loc" ==> |acc.item.link| == 0
    ensures toks[pos].Start?
    ensures ItemStep(toks, pos + 1, plugins, acc) == Ok((ItemChild(n, plugins, acc), pos + |Tokens(n)|))
  {
    NextTagElement(toks, pos, n);
    if Lower(n.name) == "news" {
      ReadNewsOnTree(toks, pos, n);
    } else if Lower(n.name) == "loc" {
      ParseTextElement(toks, pos, n);
    } else if Lower(n.name) == "image" {
      ReadImageOnTree(toks, pos, n);
    } else {
      SkipElement(toks, pos, n);
    }
  }

  /** An extension child of `url`. */
  lemma {:induction false} ItemStepExtension(toks: seq<Token>, pos: nat, n: Node, plugins: Plugins, acc: ItemAcc)
    requires n.Element? && n.isExt && At(toks, pos, Tokens(n))
    ensures toks[pos].Start?
    ensures ItemStep(toks, pos + 1, plugins, acc)
            == match plugins.parseExtension(acc.exts, Tokens(n)) {
                 case Err(e) => Err(e)
                 case Ok(exts) => Ok((WithExtensions(acc, exts), pos + |Tokens(n)|))
               }
  {
    NextTagElement(toks, pos, n);
    ExtensionOnTree(toks, pos, n, acc.exts, plugins.parseExtension);
  }

  /** The walk sees only where the loop lands. */
  lemma {:induction false} ItemRunSame(toks: seq<Token>, end: nat, plugins: Plugins, p: nat, acc: ItemAcc, q: nat, acc': ItemAcc)
    requires p <= |toks| && q <= |toks| && ItemLoop(toks, p, plugins, acc) == ItemLoop(toks, q, plugins, acc')
    ensures ItemRun(toks, end, plugins, p, Ok(ItemWalk(acc, false))) == ItemRun(toks, end, plugins, q, Ok(ItemWalk(acc', false)))
  {
  }

  /** The loop over one child that `ItemStep` reads. */
  lemma {:induction false} ItemRunStep(toks: seq<Token>, end: nat, plugins: Plugins, pos: nat, acc: ItemAcc, q: nat, acc': ItemAcc)
    requires pos < |toks| && NextTag(toks, pos) == Ok(pos + 1) && toks[pos].Start?
    requires ItemStep(toks, pos + 1, plugins, acc) == Ok((acc', q))
    ensures ItemRun(toks, end, plugins, pos, Ok(ItemWalk(acc, false))) == ItemRun(toks, end, plugins, q, Ok(ItemWalk(acc', false)))
  {
    ItemLoopChild(toks, pos, plugins, acc);
    ItemRunSame(toks, end, plugins, pos, acc, q, acc');
  }

  /** A loop that goes on inside a child and lands on the child's `loc` end tag, before `end`,
      has stopped. */
  lemma {:induction false} ItemRunInside(toks: seq<Token>, end: nat, inner: nat, plugins: Plugins, pos: nat, acc: ItemAcc, r: Result<ItemWalk, Error>)
    requires pos < |toks| && NextTag(toks, pos) == Ok(pos + 1) && toks[pos].Start?
    requires ItemStep(toks, pos + 1, plugins, acc) == Ok((acc, pos + 1))
    requires ItemRun(toks, inner, plugins, pos + 1, Ok(ItemWalk(acc, false))) == Some(r)
    requires 0 < inner < end && inner <= |toks| && toks[inner - 1].End? && Lower(toks[inner - 1].name) == "loc"
    ensures ItemRun(toks, end, plugins, pos, Ok(ItemWalk(acc, false)))
            == Some(match r {
                      case Err(e) => Err(e)
                      case Ok(w) => Ok(ItemWalk(w.acc, true))
                    })
  {
    ItemLoopChild(toks, pos, plugins, acc);
    var loop := ItemLoop(toks, pos + 1, plugins, acc);
    assert ItemLoop(toks, pos, plugins, acc) == loop;
    match loop
    case Err(e) =>
    case Ok(x) =>
      assert x.1 == inner || (x.1 < inner && toks[x.1 - 1].End? && Lower(toks[x.1 - 1].name) == "loc");
  }

  /** A repeated `loc`: the loop goes on inside it and lands on its end tag. */
  lemma {:induction false} ItemLoopRepeatedLoc(toks: seq<Token>, pos: nat, n: Node, plugins: Plugins, acc: ItemAcc, end: nat)
    requires n.Element? && !n.isExt && At(toks, pos, Tokens(n)) && pos + |Tokens(n)| < end
    requires Lower(n.name) == "loc" && |acc.item.link| > 0
    ensures ItemRun(toks, end, plugins, pos, Ok(ItemWalk(acc, false)))
            == Some(match ItemChildren(n.children, plugins, Ok(ItemWalk(acc, false))) {
                      case Err(e) => Err(e)
                      case Ok(inner) => Ok(ItemWalk(inner.acc, true))
                    })
    decreases n, 0
  {
    AtElement(toks, pos, n);
    NextTagElement(toks, pos, n);
    assert ItemStep(toks, pos + 1, plugins, acc) == Ok((acc, pos + 1));
    ItemLoopOnTree(toks, pos + 1, n.children, plugins, Ok(ItemWalk(acc, false)));
    ItemRunInside(toks, end, pos + |Tokens(n)|, plugins, pos, acc, ItemChildren(n.children, plugins, Ok(ItemWalk(acc, false))));
  }

  lemma {:induction false} ItemLoopNodeText(toks: seq<Token>, pos: nat, n: Node, plugins: Plugins, acc: ItemAcc, end: nat)
    requires n.Chars? && At(toks, pos, Tokens(n))
    ensures ItemRun(toks, end, plugins, pos, Ok(ItemWalk(acc, false))) == ItemRun(toks, end, plugins, pos + 1, Ok(ItemWalk(acc, false)))
  {
    NextTagChars(toks, pos, n);
    ItemLoopText(toks, pos, plugins, acc);
    ItemRunSame(toks, end, plugins, pos, acc, pos + 1, acc);
  }

  lemma {:induction false} ItemLoopNodeExtension(toks: seq<Token>, pos: nat, n: Node, plugins: Plugins, acc: ItemAcc, end: nat)
    requires n.Element? && n.isExt && At(toks, pos, Tokens(n))
    ensures ItemRun(toks, end, plugins, pos, Ok(ItemWalk(acc, false)))
            == match plugins.parseExtension(acc.exts, Tokens(n)) {
                 case Err(e) => Some(Err(e))
                 case Ok(exts) => ItemRun(toks, end, plugins, pos + |Tokens(n)|, Ok(ItemWalk(WithExtensions(acc, exts), false)))
               }
  {
    ItemStepExtension(toks, pos, n, plugins, acc);
    NextTagElement(toks, pos, n);
    match plugins.parseExtension(acc.exts, Tokens(n))
    case Err(e) => ItemLoopChild(toks, pos, plugins, acc);
    case Ok(exts) => ItemRunStep(toks, end, plugins, pos, acc, pos + |Tokens(n)|, WithExtensions(acc, exts));
  }

  lemma {:induction false} ItemLoopNodeRead(toks: seq<Token>, pos: nat, n: Node, plugins: Plugins, acc: ItemAcc, end: nat)
    requires n.Element? && !n.isExt && At(toks, pos, Tokens(n))
    requires Lower(n.name) == "loc" ==> |acc.item.link| == 0
    ensures ItemRun(toks, end, plugins, pos, Ok(ItemWalk(acc, false)))
            == ItemRun(toks, end, plugins, pos + |Tokens(n)|, Ok(ItemWalk(ItemChild(n, plugins, acc), false)))
  {
    ItemStepOnTree(toks, pos, n, plugins, acc);
    NextTagElement(toks, pos, n);
    ItemRunStep(toks, end, plugins, pos, acc, pos + |Tokens(n)|, ItemChild(n, plugins, acc));
  }

  /** One child of `url` read by the loop. */
  lemma {:induction false} ItemLoopNode(toks: seq<Token>, pos: nat, n: Node, plugins: Plugins, s: Result<ItemWalk, Error>, end: nat)
    requires At(toks, pos, Tokens(n)) && pos + |Tokens(n)| < end
    ensures ItemRun(toks, end, plugins, pos, s) == ItemRun(toks, end, plugins, pos + |Tokens(n)|, ItemNode(n, plugins, s))
    decreases n, 1
  {
    if s.Ok? && !s.value.stopped {
      var acc := s.value.acc;
      assert s == Ok(ItemWalk(acc, false));
      if n.Chars? {
        ItemLoopNodeText(toks, pos, n, plugins, acc, end);
      } else if n.isExt {
        ItemLoopNodeExtension(toks, pos, n, plugins, acc, end);
      } else if Lower(n.name) == "loc" && |acc.item.link| > 0 {
        ItemLoopRepeatedLoc(toks, pos, n, plugins, acc, end);
      } else {
        ItemLoopNodeRead(toks, pos, n, plugins, acc, end);
      }
    }
  }

  lemma {:induction false} ItemLoopMoves(toks: seq<Token>, cs: seq<Node>, plugins: Plugins, end: nat)
    ensures forall p: nat, n: Node, t: Result<ItemWalk, Error> :: n in cs && At(toks, p, Tokens(n)) && p + |Tokens(n)| <= end - 1
              ==> ItemRun(toks, end, plugins, p, t) == ItemRun(toks, end, plugins, p + |Tokens(n)|, ItemNode(n, plugins, t))
    decreases cs, 2
  {
    forall p: nat, n: Node, t: Result<ItemWalk, Error> | n in cs && At(toks, p, Tokens(n)) && p + |Tokens(n)| <= end - 1
      ensures ItemRun(toks, end, plugins, p, t) == ItemRun(toks, end, plugins, p + |Tokens(n)|, ItemNode(n, plugins, t))
    {
      ItemLoopNode(toks, p, n, plugins, t, end);
    }
  }

  lemma {:induction false} ItemLoopOnTree(toks: seq<Token>, pos: nat, cs: seq<Node>, plugins: Plugins, s: Result<ItemWalk, Error>)
    requires At(toks, pos, TokensOf(cs)) && pos + |TokensOf(cs)| < |toks| && toks[pos + |TokensOf(cs)|].End?
    ensures ItemRun(toks, pos + |TokensOf(cs)| + 1, plugins, pos, s) == Some(ItemChildren(cs, plugins, s))
    decreases cs, 3
  {
    var end := pos + |TokensOf(cs)| + 1;
    var loop := (p: nat, t: Result<ItemWalk, Error>) => ItemRun(toks, end, plugins, p, t);
    var step := (n: Node, t: Result<ItemWalk, Error>) => ItemNode(n, plugins, t);
    ItemLoopMoves(toks, cs, plugins, end);
    LoopOverNodes(toks, pos, cs, s, end - 1, loop, step);
    ItemChildrenFold(cs, plugins, s);
    var f := ItemChildren(cs, plugins, s);
    if f.Ok? && !f.value.stopped {
      ItemLoopEnd(toks, end - 1, plugins, f.value.acc);
    }
  }

  /** `parseItem` on a serialised `url` element. */
  lemma {:induction false} ReadItemOnTree(toks: seq<Token>, pos: nat, n: Node, plugins: Plugins)
    requires n.Element? && At(toks, pos, Tokens(n)) && Lower(n.name) == "url"
    ensures ReadItem(toks, pos + 1, plugins)
            == match ItemOf(n, plugins) {
                 case Err(e) => Err(e)
                 case Ok(r) => Ok((r.0, r.1, pos + |Tokens(n)|))
               }
  {
    AtElement(toks, pos, n);
    LowerTagNames();
    ItemLoopOnTree(toks, pos + 1, n.children, plugins, NewItemWalk);
  }

  // ---------------------------------------------------------------------------------------
  // urlset

  /** What one child of `urlset` does to the items: a non-extension `url` adds its item,
      anything else is skipped; the first failing item ends everything. */
  function FeedChild(n: Node, plugins: Plugins, s: Result<seq<Item>, Error>): Result<seq<Item>, Error>
  {
    match s
    case Err(e) => Err(e)
    case Ok(items) =>
      if n.Element? && !n.isExt && Lower(n.name) == "url" then
        match ItemOf(n, plugins) {
          case Err(e) => Err(e)
          case Ok(r) => Ok(items + [r.0])
        }
      else s
  }

  function FeedStep(plugins: Plugins): (Node, Result<seq<Item>, Error>) -> Result<seq<Item>, Error>
  {
    (n, s) => FeedChild(n, plugins, s)
  }

  /** The items of the children `cs`, read in order. */
  function FeedItems(cs: seq<Node>, plugins: Plugins): Result<seq<Item>, Error>
  {
    Fold(FeedStep(plugins), cs, Ok([]))
  }

  /** The feed a document with root element `root` yields, or why it fails. */
  function FeedOf(root: Node, plugins: Plugins): Result<Feed, Error>
    requires root.Element?
  {
    if Lower(root.name) != "urlset" then Err(Unexpected(StartTag, "urlset"))
    else
      match FeedItems(root.children, plugins) {
        case Err(e) => Err(e)
        case Ok(items) => Ok(EmptyFeed.(items := items, version := ParseVersion(root.name, root.attrs)))
      }
  }

  /** The loop of `parseRoot` from index `p` with the items read so far. */
  function RootRun(toks: seq<Token>, plugins: Plugins, p: nat, s: Result<seq<Item>, Error>): Result<(seq<Item>, nat), Error>
  {
    match s
    case Err(e) => Err(e)
    case Ok(items) => if p <= |toks| then RootLoop(toks, p, plugins, items) else Err(NoNextTag)
  }

  lemma {:induction false} RootLoopEnd(toks: seq<Token>, pos: nat, plugins: Plugins, items: seq<Item>)
    requires pos < |toks| && toks[pos].End?
    ensures RootLoop(toks, pos, plugins, items) == Ok((items, pos + 1))
  {
  }

  lemma {:induction false} RootLoopText(toks: seq<Token>, pos: nat, plugins: Plugins, items: seq<Item>)
    requires pos < |toks| && NextTag(toks, pos) == NextTag(toks, pos + 1)
    ensures RootLoop(toks, pos, plugins, items) == RootLoop(toks, pos + 1, plugins, items)
  {
  }

  /** A child of `urlset` that `RootStep` reads: the loop goes on after it, or stops with
      its error. */
  lemma {:induction false} RootLoopChild(toks: seq<Token>, pos: nat, plugins: Plugins, items: seq<Item>, q: nat, next: Result<seq<Item>, Error>)
    requires pos < |toks| && NextTag(toks, pos) == Ok(pos + 1) && toks[pos].Start? && q <= |toks|
    requires RootStep(toks, pos + 1, plugins, items)
             == match next {
                  case Err(e) => Err(e)
                  case Ok(all) => Ok((all, q))
                }
    ensures RootRun(toks, plugins, pos, Ok(items)) == RootRun(toks, plugins, q, next)
  {
  }

  lemma {:induction false} RootStepOnTree(toks: seq<Token>, pos: nat, n: Node, plugins: Plugins, items: seq<Item>)
    requires n.Element? && At(toks, pos, Tokens(n))
    ensures toks[pos].Start?
    ensures RootStep(toks, pos + 1, plugins, items)
            == match FeedChild(n, plugins, Ok(items)) {
                 case Err(e) => Err(e)
                 case Ok(all) => Ok((all, pos + |Tokens(n)|))
               }
  {
    NextTagElement(toks, pos, n);
    if !n.isExt && Lower(n.name) == "url" {
      ReadItemOnTree(toks, pos, n, plugins);
    } else {
      SkipElement(toks, pos, n);
    }
  }

  /** One child of `urlset` read by the loop. */
  lemma {:induction false} RootLoopNode(toks: seq<Token>, pos: nat, n: Node, plugins: Plugins, s: Result<seq<Item>, Error>)
    requires At(toks, pos, Tokens(n))
    ensures RootRun(toks, plugins, pos, s) == RootRun(toks, plugins, pos + |Tokens(n)|, FeedChild(n, plugins, s))
  {
    if s.Ok? {
      if n.Chars? {
        NextTagChars(toks, pos, n);
        RootLoopText(toks, pos, plugins, s.value);
      } else {
        NextTagElement(toks, pos, n);
        RootStepOnTree(toks, pos, n, plugins, s.value);
        RootLoopChild(toks, pos, plugins, s.value, pos + |Tokens(n)|, FeedChild(n, plugins, s));
      }
    }
  }

  lemma {:induction false} RootLoopMoves(toks: seq<Token>, plugins: Plugins)
    ensures forall p: nat, n: Node, t: Result<seq<Item>, Error> :: At(toks, p, Tokens(n))
              ==> RootRun(toks, plugins, p, t) == RootRun(toks, plugins, p + |Tokens(n)|, FeedChild(n, plugins, t))
  {
    forall p: nat, n: Node, t: Result<seq<Item>, Error> | At(toks, p, Tokens(n))
      ensures RootRun(toks, plugins, p, t) == RootRun(toks, plugins, p + |Tokens(n)|, FeedChild(n, plugins, t))
    {
      RootLoopNode(toks, p, n, plugins, t);
    }
  }

  lemma {:induction false} RootLoopOnTree(toks: seq<Token>, pos: nat, cs: seq<Node>, plugins: Plugins)
    requires At(toks, pos, TokensOf(cs)) && pos + |TokensOf(cs)| < |toks| && toks[pos + |TokensOf(cs)|].End?
    ensures RootLoop(toks, pos, plugins, [])
            == match FeedItems(cs, plugins) {
                 case Err(e) => Err(e)
                 case Ok(all) => Ok((all, pos + |TokensOf(cs)| + 1))
               }
  {
    var loop := (p: nat, t: Result<seq<Item>, Error>) => RootRun(toks, plugins, p, t);
    RootLoopMoves(toks, plugins);
    LoopOverNodes(toks, pos, cs, Ok([]), pos + |TokensOf(cs)|, loop, FeedStep(plugins));
    var f := FeedItems(cs, plugins);
    if f.Ok? {
      RootLoopEnd(toks, pos + |TokensOf(cs)|, plugins, f.value);
    }
  }

  /** `parseRoot` on a serialised root element. */
  lemma {:induction false} ReadRootOnTree(toks: seq<Token>, pos: nat, root: Node, plugins: Plugins)
    requires root.Element? && At(toks, pos, Tokens(root))
    ensures ReadRoot(toks, pos + 1, plugins) == FeedOf(root, plugins)
  {
    AtElement(toks, pos, root);
    LowerTagNames();
    RootLoopOnTree(toks, pos + 1, root.children, plugins);
  }

  /** The extractor on a document where the serialised element `root` starts at `pos` and no
      start tag comes before it. */
  lemma {:induction false} ExtractAt(toks: seq<Token>, pos: nat, root: Node, plugins: Plugins)
    requires root.Element? && At(toks, pos, Tokens(root))
    requires forall k :: 0 <= k < pos ==> !toks[k].Start?
    ensures Extract(toks, plugins) == FeedOf(root, plugins)
  {
    AtHead(toks, pos, Tokens(root));
    FindRootPast(toks, 0, pos);
    ReadRootOnTree(toks, pos, root, plugins);
  }

  /** The extractor on a whole document: events without a start tag (text, stray end tags),
      a root element, then anything at all (the extractor stops at the root's end tag), means
      exactly `FeedOf` of the root. */
  lemma {:induction false} ExtractOnTree(lead: seq<Token>, root: Node, rest: seq<Token>, plugins: Plugins)
    requires BeforeRoot(lead) && root.Element?
    ensures Extract(lead + Tokens(root) + rest, plugins) == FeedOf(root, plugins)
  {
    var toks := lead + Tokens(root) + rest;
    AtMiddle(lead, Tokens(root), rest);
    forall k | 0 <= k < |lead|
      ensures !toks[k].Start?
    {
      assert toks[k] == lead[k];
    }
    ExtractAt(toks, |lead|, root, plugins);
  }
}
