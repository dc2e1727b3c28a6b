/**
 * The Sitemap streaming extractor (sitemap/parse.go).
 *
 * Each element level is read the same way: check the start tag, loop over the next tag,
 * dispatch on the lower-cased name of a start tag (recognised children are read, others are
 * skipped whole), stop the loop at the first end tag, check that end tag to close the level.
 * Any failure aborts the whole parse.
 *
 * Every level has a specification: `XStep` reads one child from its start tag, `XLoop` follows
 * the loop from a cursor position and an accumulated record, `ReadX` adds the opening and
 * closing `Expect`.  The methods `ParseX` are the imperative loops of the source and are
 * proved equal to their specification.
 */
module SitemapParse {
  import opened Wrappers
  import opened Errors
  import opened Xml
  import opened Ext
  import opened SitemapFeed

  const SitemapNamespace := "http://www.sitemaps.org/schemas/sitemap/0.9"

  /** The collaborators the extractor calls but that are not modelled: `shared.ParseDate` (with
      the conversion to UTC) and the extension parser behind `shared.ParseExtension`. */
  datatype Plugins = Plugins(parseDate: string -> Option<Instant>, parseExtension: ExtensionParser)

  // ---------------------------------------------------------------------------------------
  // Specification

  /** `parseVersion` on the current (`urlset`) start tag. */
  function ParseVersion(name: string, attrs: seq<Attr>): (version: string)
    ensures version == "0.9" <==> Lower(name) == "urlset" && Attribute(attrs, "xmlns") == SitemapNamespace
    ensures version != "0.9" ==> version == "unknow"
  {
    if Lower(name) == "urlset" then
      if Attribute(attrs, "xmlns") == SitemapNamespace then "0.9" else "unknow"
    else "unknow"
  }

  /** One child of `publication`, from its start tag: `name` and `language` are read as text,
      anything else is skipped. */
  function PublicationStep(toks: seq<Token>, p: nat, news: News): (r: Result<(News, nat), Error>)
    requires 0 < p <= |toks| && toks[p - 1].Start?
    ensures r.Ok? ==> p <= r.value.1 <= |toks|
  {
    var name := Lower(toks[p - 1].name);
    if name == "name" then
      match ParseText(toks, p) {
        case Err(e) => Err(e)
        case Ok(text) =>
          Ok((news.(name := text.0), text.1))
      }
    else if name == "language" then
      match ParseText(toks, p) {
        case Err(e) => Err(e)
        case Ok(text) =>
          Ok((news.(language := text.0), text.1))
      }
    else
      Ok((news, Skip(toks, p)))
  }

  /** The loop of `parsePublication`: children until the first end tag. */
  function PublicationLoop(toks: seq<Token>, pos: nat, news: News): (r: Result<(News, nat), Error>)
    requires pos <= |toks|
    decreases |toks| - pos
    ensures r.Ok? ==> pos < r.value.1 <= |toks|
  {
    match NextTag(toks, pos) {
      case Err(e) => Err(e)
      case Ok(p) =>
        if toks[p - 1].End? then Ok((news, p))
        else
          match PublicationStep(toks, p, news) {
            case Err(e) => Err(e)
            case Ok(step) =>
              PublicationLoop(toks, step.1, step.0)
          }
    }
  }

  function ReadPublication(toks: seq<Token>, pos: nat): (r: Result<(News, nat), Error>)
    requires pos <= |toks|
    ensures r.Ok? ==> pos < r.value.1 <= |toks|
    ensures ExpectTag(toks, pos, StartTag, "publication").Fail? ==> r == Err(Unexpected(StartTag, "publication"))
  {
    if ExpectTag(toks, pos, StartTag, "publication").Fail? then Err(Unexpected(StartTag, "publication"))
    else
      match PublicationLoop(toks, pos, EmptyNews) {
        case Err(e) => Err(e)
        case Ok(done) =>
          if ExpectTag(toks, done.1, EndTag, "publication").Fail? then Err(Unexpected(EndTag, "publication"))
          else Ok(done)
      }
  }

  /** One child of `image`: `loc` is read as the link, anything else is skipped. */
  function ImageStep(toks: seq<Token>, p: nat, image: Image): (r: Result<(Image, nat), Error>)
    requires 0 < p <= |toks| && toks[p - 1].Start?
    ensures r.Ok? ==> p <= r.value.1 <= |toks|
  {
    if Lower(toks[p - 1].name) == "loc" then
      match ParseText(toks, p) {
        case Err(e) => Err(e)
        case Ok(text) =>
          Ok((image.(link := text.0), text.1))
      }
    else
      Ok((image, Skip(toks, p)))
  }

  function ImageLoop(toks: seq<Token>, pos: nat, image: Image): (r: Result<(Image, nat), Error>)
    requires pos <= |toks|
    decreases |toks| - pos
    ensures r.Ok? ==> pos < r.value.1 <= |toks|
  {
    match NextTag(toks, pos) {
      case Err(e) => Err(e)
      case Ok(p) =>
        if toks[p - 1].End? then Ok((image, p))
        else
          match ImageStep(toks, p, image) {
            case Err(e) => Err(e)
            case Ok(step) =>
              ImageLoop(toks, step.1, step.0)
          }
    }
  }

  function ReadImage(toks: seq<Token>, pos: nat): (r: Result<(Image, nat), Error>)
    requires pos <= |toks|
    ensures r.Ok? ==> pos < r.value.1 <= |toks|
    ensures ExpectTag(toks, pos, StartTag, "image").Fail? ==> r == Err(Unexpected(StartTag, "image"))
  {
    if ExpectTag(toks, pos, StartTag, "image").Fail? then Err(Unexpected(StartTag, "image"))
    else
      match ImageLoop(toks, pos, EmptyImage) {
        case Err(e) => Err(e)
        case Ok(done) =>
          if ExpectTag(toks, done.1, EndTag, "image").Fail? then Err(Unexpected(EndTag, "image"))
          else Ok(done)
      }
  }

  /** One child of `news`: `publication` is read by `parsePublication` (its name and language
      replace the news' ones), `publication_date` and `title` as text, anything else is skipped. */
  function NewsStep(toks: seq<Token>, p: nat, news: News): (r: Result<(News, nat), Error>)
    requires 0 < p <= |toks| && toks[p - 1].Start?
    ensures r.Ok? ==> p <= r.value.1 <= |toks|
  {
    var name := Lower(toks[p - 1].name);
    if name == "publication" then
      match ReadPublication(toks, p) {
        case Err(e) => Err(e)
        case Ok(publication) =>
          Ok((news.(name := publication.0.name, language := publication.0.language), publication.1))
      }
    else if name == "publication_date" then
      match ParseText(toks, p) {
        case Err(e) => Err(e)
        case Ok(text) =>
          Ok((news.(publicationDate := text.0), text.1))
      }
    else if name == "title" then
      match ParseText(toks, p) {
        case Err(e) => Err(e)
        case Ok(text) =>
          Ok((news.(title := text.0), text.1))
      }
    else
      Ok((news, Skip(toks, p)))
  }

  function NewsLoop(toks: seq<Token>, pos: nat, news: News): (r: Result<(News, nat), Error>)
    requires pos <= |toks|
    decreases |toks| - pos
    ensures r.Ok? ==> pos < r.value.1 <= |toks|
  {
    match NextTag(toks, pos) {
      case Err(e) => Err(e)
      case Ok(p) =>
        if toks[p - 1].End? then Ok((news, p))
        else
          match NewsStep(toks, p, news) {
            case Err(e) => Err(e)
            case Ok(step) =>
              NewsLoop(toks, step.1, step.0)
          }
    }
  }

  function ReadNews(toks: seq<Token>, pos: nat): (r: Result<(News, nat), Error>)
    requires pos <= |toks|
    ensures r.Ok? ==> pos < r.value.1 <= |toks|
    ensures ExpectTag(toks, pos, StartTag, "news").Fail? ==> r == Err(Unexpected(StartTag, "news"))
  {
    if ExpectTag(toks, pos, StartTag, "news").Fail? then Err(Unexpected(StartTag, "news"))
    else
      match NewsLoop(toks, pos, EmptyNews) {
        case Err(e) => Err(e)
        case Ok(done) =>
          if ExpectTag(toks, done.1, EndTag, "news").Fail? then Err(Unexpected(EndTag, "news"))
          else Ok(done)
      }
  }

  /** What `parseItem` accumulates: the item, the feed-level hints taken from `news`, and the
      extension map (Go's `extensions`, which `ParseExtension` updates in place). */
  datatype ItemAcc = ItemAcc(item: Item, hints: Feed, exts: Extensions)

  const NewItemAcc := ItemAcc(NewItem, EmptyFeed, map[])

  /** The `news` branch of `parseItem`: title and raw date go to the item, the parsed date only
      when it parses, the publication name and language to the hints. */
  function WithNews(acc: ItemAcc, news: News, parseDate: string -> Option<Instant>): ItemAcc
  {
    var parsed := parseDate(news.publicationDate);
    acc.(item := acc.item.(title := news.title, pubDate := news.publicationDate,
                           pubDateParsed := if parsed.Some? then parsed else acc.item.pubDateParsed),
         hints := acc.hints.(title := news.name, language := news.language))
  }

  /** The extension branch of `parseItem`. */
  function WithExtensions(acc: ItemAcc, exts: Extensions): ItemAcc
  {
    acc.(item := acc.item.(extensions := Some(exts)), exts := exts)
  }

  /** The item once its loop has ended: `extensions` is attached when it is not empty. */
  function Finish(acc: ItemAcc): Item
  {
    if |acc.exts| > 0 then acc.item.(extensions := Some(acc.exts)) else acc.item
  }

  /** One child of `url`: an extension element goes to the extension parser; `news`, `loc` and
      `image` are read; anything else is skipped.  A `loc` met while the link is already set
      is left where it is: the cursor stays on its start tag (`continue`). */
  function ItemStep(toks: seq<Token>, p: nat, plugins: Plugins, acc: ItemAcc): (r: Result<(ItemAcc, nat), Error>)
    requires 0 < p <= |toks| && toks[p - 1].Start?
    ensures r.Ok? ==> p <= r.value.1 <= |toks|
  {
    var name := Lower(toks[p - 1].name);
    if toks[p - 1].isExt then
      match ParseExtension(acc.exts, toks, p, plugins.parseExtension) {
        case Err(e) => Err(e)
        case Ok(ext) =>
          Ok((WithExtensions(acc, ext.0), ext.1))
      }
    else if name == "news" then
      match ReadNews(toks, p) {
        case Err(e) => Err(e)
        case Ok(news) =>
          Ok((WithNews(acc, news.0, plugins.parseDate), news.1))
      }
    else if name == "loc" then
      if |acc.item.link| > 0 then Ok((acc, p))
      else
        match ParseText(toks, p) {
          case Err(e) => Err(e)
          case Ok(text) =>
            Ok((acc.(item := acc.item.(link := text.0)), text.1))
        }
    else if name == "image" then
      match ReadImage(toks, p) {
        case Err(e) => Err(e)
        case Ok(image) =>
          Ok((acc.(item := acc.item.(image := Some(image.0))), image.1))
      }
    else
      Ok((acc, Skip(toks, p)))
  }

  function ItemLoop(toks: seq<Token>, pos: nat, plugins: Plugins, acc: ItemAcc): (r: Result<(ItemAcc, nat), Error>)
    requires pos <= |toks|
    decreases |toks| - pos
    ensures r.Ok? ==> pos < r.value.1 <= |toks|
  {
    match NextTag(toks, pos) {
      case Err(e) => Err(e)
      case Ok(p) =>
        if toks[p - 1].End? then Ok((acc, p))
        else
          match ItemStep(toks, p, plugins, acc) {
            case Err(e) => Err(e)
            case Ok(step) =>
              ItemLoop(toks, step.1, plugins, step.0)
          }
    }
  }

  function ReadItem(toks: seq<Token>, pos: nat, plugins: Plugins): (r: Result<(Item, Feed, nat), Error>)
    requires pos <= |toks|
    ensures r.Ok? ==> pos < r.value.2 <= |toks|
    ensures ExpectTag(toks, pos, StartTag, "url").Fail? ==> r == Err(Unexpected(StartTag, "url"))
  {
    if ExpectTag(toks, pos, StartTag, "url").Fail? then Err(Unexpected(StartTag, "url"))
    else
      match ItemLoop(toks, pos, plugins, NewItemAcc) {
        case Err(e) => Err(e)
        case Ok(done) =>
          if ExpectTag(toks, done.1, EndTag, "url").Fail? then Err(Unexpected(EndTag, "url"))
          else Ok((Finish(done.0), done.0.hints, done.1))
      }
  }

  /** One child of `urlset`: extension elements and anything but `url` are skipped; a `url`
      is read and its item appended.  The hints returned with the item are dropped: the
      feed-level branch that would use them is guarded by `channel == nil`, and `channel` is
      never nil. */
  function RootStep(toks: seq<Token>, p: nat, plugins: Plugins, items: seq<Item>): (r: Result<(seq<Item>, nat), Error>)
    requires 0 < p <= |toks| && toks[p - 1].Start?
    ensures r.Ok? ==> p <= r.value.1 <= |toks|
  {
    if toks[p - 1].isExt then Ok((items, Skip(toks, p)))
    else if Lower(toks[p - 1].name) == "url" then
      match ReadItem(toks, p, plugins) {
        case Err(e) => Err(e)
        case Ok(item) =>
          Ok((items + [item.0], item.2))
      }
    else Ok((items, Skip(toks, p)))
  }

  function RootLoop(toks: seq<Token>, pos: nat, plugins: Plugins, items: seq<Item>): (r: Result<(seq<Item>, nat), Error>)
    requires pos <= |toks|
    decreases |toks| - pos
    ensures r.Ok? ==> pos < r.value.1 <= |toks|
  {
    match NextTag(toks, pos) {
      case Err(e) => Err(e)
      case Ok(p) =>
        if toks[p - 1].End? then Ok((items, p))
        else
          match RootStep(toks, p, plugins, items) {
            case Err(e) => Err(e)
            case Ok(step) =>
              RootLoop(toks, step.1, plugins, step.0)
          }
    }
  }

  function ReadRoot(toks: seq<Token>, pos: nat, plugins: Plugins): (r: Result<Feed, Error>)
    requires pos <= |toks|
    ensures ExpectTag(toks, pos, StartTag, "urlset").Fail? ==> r == Err(Unexpected(StartTag, "urlset"))
    ensures r.Ok? ==> 0 < pos && r.value.title == "" && r.value.language == ""
    ensures r.Ok? ==> r.value.version == ParseVersion(toks[pos - 1].name, toks[pos - 1].attrs)
  {
    if ExpectTag(toks, pos, StartTag, "urlset").Fail? then Err(Unexpected(StartTag, "urlset"))
    else
      var version := ParseVersion(toks[pos - 1].name, toks[pos - 1].attrs);
      match RootLoop(toks, pos, plugins, []) {
        case Err(e) => Err(e)
        case Ok(done) =>
          if ExpectTag(toks, done.1, EndTag, "urlset").Fail? then Err(Unexpected(EndTag, "urlset"))
          else Ok(EmptyFeed.(items := done.0, version := version))
      }
  }

  /** `Parser.Parse`: find the root element, then read it as a `urlset`. */
  function Extract(toks: seq<Token>, plugins: Plugins): (r: Result<Feed, Error>)
    ensures FindRoot(toks, 0).Err? ==> r == Err(NoRootElement)
    ensures r.Ok? ==> r.value.title == "" && r.value.language == ""
    ensures r.Ok? ==> FindRoot(toks, 0).Ok? &&
                      var root := toks[FindRoot(toks, 0).value - 1];
                      (r.value.version == "0.9" <==> Attribute(root.attrs, "xmlns") == SitemapNamespace) &&
                      (r.value.version != "0.9" ==> r.value.version == "unknow")
  {
    match FindRoot(toks, 0) {
      case Err(e) => Err(e)
      case Ok(root) =>
        ReadRoot(toks, root, plugins)
    }
  }

  // ---------------------------------------------------------------------------------------
  // The extractor

  method ParsePublication(toks: seq<Token>, pos: nat) returns (r: Result<(News, nat), Error>)
    requires pos <= |toks|
    ensures r == ReadPublication(toks, pos)
  {
    var check := ExpectTag(toks, pos, StartTag, "publication");
    if check.Fail? {
      return Err(check.error);
    }
    var news := EmptyNews;
    var p := pos;
    while true
      invariant p <= |toks|
      invariant PublicationLoop(toks, pos, EmptyNews) == PublicationLoop(toks, p, news)
      decreases |toks| - p
    {
      var next := NextTag(toks, p);
      if next.Err? {
        return Err(next.error);
      }
      var q := next.value;
      if toks[q - 1].End? {
        p := q;
        break;
      }
      var name := Lower(toks[q - 1].name);
      if name == "name" {
        var text := ParseText(toks, q);
        if text.Err? {
          return Err(text.error);
        }
        news := news.(name := text.value.0);
        p := text.value.1;
      } else if name == "language" {
        var text := ParseText(toks, q);
        if text.Err? {
          return Err(text.error);
        }
        news := news.(language := text.value.0);
        p := text.value.1;
      } else {
        p := Skip(toks, q);
      }
    }
    check := ExpectTag(toks, p, EndTag, "publication");
    if check.Fail? {
      return Err(check.error);
    }
    return Ok((news, p));
  }

  method ParseImage(toks: seq<Token>, pos: nat) returns (r: Result<(Image, nat), Error>)
    requires pos <= |toks|
    ensures r == ReadImage(toks, pos)
  {
    var check := ExpectTag(toks, pos, StartTag, "image");
    if check.Fail? {
      return Err(check.error);
    }
    var image := EmptyImage;
    var p := pos;
    while true
      invariant p <= |toks|
      invariant ImageLoop(toks, pos, EmptyImage) == ImageLoop(toks, p, image)
      decreases |toks| - p
    {
      var next := NextTag(toks, p);
      if next.Err? {
        return Err(next.error);
      }
      var q := next.value;
      if toks[q - 1].End? {
        p := q;
        break;
      }
      if Lower(toks[q - 1].name) == "loc" {
        var text := ParseText(toks, q);
        if text.Err? {
          return Err(text.error);
        }
        image := image.(link := text.value.0);
        p := text.value.1;
      } else {
        p := Skip(toks, q);
      }
    }
    check := ExpectTag(toks, p, EndTag, "image");
    if check.Fail? {
      return Err(check.error);
    }
    return Ok((image, p));
  }

  method ParseNews(toks: seq<Token>, pos: nat) returns (r: Result<(News, nat), Error>)
    requires pos <= |toks|
    ensures r == ReadNews(toks, pos)
  {
    var check := ExpectTag(toks, pos, StartTag, "news");
    if check.Fail? {
      return Err(check.error);
    }
    var news := EmptyNews;
    var p := pos;
    while true
      invariant p <= |toks|
      invariant NewsLoop(toks, pos, EmptyNews) == NewsLoop(toks, p, news)
      decreases |toks| - p
    {
      var next := NextTag(toks, p);
      if next.Err? {
        return Err(next.error);
      }
      var q := next.value;
      if toks[q - 1].End? {
        p := q;
        break;
      }
      var name := Lower(toks[q - 1].name);
      if name == "publication" {
        var result := ParsePublication(toks, q);
        if result.Err? {
          return Err(result.error);
        }
        news := news.(name := result.value.0.name, language := result.value.0.language);
        p := result.value.1;
      } else if name == "publication_date" {
        var text := ParseText(toks, q);
        if text.Err? {
          return Err(text.error);
        }
        news := news.(publicationDate := text.value.0);
        p := text.value.1;
      } else if name == "title" {
        var text := ParseText(toks, q);
        if text.Err? {
          return Err(text.error);
        }
        news := news.(title := text.value.0);
        p := text.value.1;
      } else {
        p := Skip(toks, q);
      }
    }
    check := ExpectTag(toks, p, EndTag, "news");
    if check.Fail? {
      return Err(check.error);
    }
    return Ok((news, p));
  }

  method ParseItem(toks: seq<Token>, pos: nat, plugins: Plugins) returns (r: Result<(Item, Feed, nat), Error>)
    requires pos <= |toks|
    ensures r == ReadItem(toks, pos, plugins)
  {
    var check := ExpectTag(toks, pos, StartTag, "url");
    if check.Fail? {
      return Err(check.error);
    }
    var item := NewItem;
    var feed := EmptyFeed;
    var extensions: Extensions := map[];
    var p := pos;
    while true
      invariant p <= |toks|
      invariant ItemLoop(toks, pos, plugins, NewItemAcc) == ItemLoop(toks, p, plugins, ItemAcc(item, feed, extensions))
      decreases |toks| - p
    {
      var next := NextTag(toks, p);
      if next.Err? {
        return Err(next.error);
      }
      var q := next.value;
      if toks[q - 1].End? {
        p := q;
        break;
      }
      var name := Lower(toks[q - 1].name);
      if toks[q - 1].isExt {
        var ext := ParseExtension(extensions, toks, q, plugins.parseExtension);
        if ext.Err? {
          return Err(ext.error);
        }
        extensions := ext.value.0;
        item := item.(extensions := Some(extensions));
        p := ext.value.1;
      } else if name == "news" {
        var result := ParseNews(toks, q);
        if result.Err? {
          return Err(result.error);
        }
        var news := result.value.0;
        item := item.(title := news.title, pubDate := news.publicationDate);
        var date := plugins.parseDate(news.publicationDate);
        if date.Some? {
          item := item.(pubDateParsed := Some(date.value));
        }
        feed := feed.(title := news.name, language := news.language);
        p := result.value.1;
      } else if name == "loc" {
        if |item.link| > 0 {
          p := q;
          continue;
        }
        var text := ParseText(toks, q);
        if text.Err? {
          return Err(text.error);
        }
        item := item.(link := text.value.0);
        p := text.value.1;
      } else if name == "image" {
        var result := ParseImage(toks, q);
        if result.Err? {
          return Err(result.error);
        }
        item := item.(image := Some(result.value.0));
        p := result.value.1;
      } else {
        p := Skip(toks, q);
      }
    }
    if |extensions| > 0 {
      item := item.(extensions := Some(extensions));
    }
    check := ExpectTag(toks, p, EndTag, "url");
    if check.Fail? {
      return Err(check.error);
    }
    return Ok((item, feed, p));
  }

  method ParseRoot(toks: seq<Token>, pos: nat, plugins: Plugins) returns (r: Result<Feed, Error>)
    requires pos <= |toks|
    ensures r == ReadRoot(toks, pos, plugins)
  {
    var check := ExpectTag(toks, pos, StartTag, "urlset");
    if check.Fail? {
      return Err(check.error);
    }
    var channel := EmptyFeed;
    var items: seq<Item> := [];
    var version := ParseVersion(toks[pos - 1].name, toks[pos - 1].attrs);
    var p := pos;
    while true
      invariant p <= |toks|
      invariant RootLoop(toks, pos, plugins, []) == RootLoop(toks, p, plugins, items)
      decreases |toks| - p
    {
      var next := NextTag(toks, p);
      if next.Err? {
        return Err(next.error);
      }
      var q := next.value;
      if toks[q - 1].End? {
        p := q;
        break;
      }
      if toks[q - 1].isExt {
        p := Skip(toks, q);
        continue;
      }
      if Lower(toks[q - 1].name) == "url" {
        var result := ParseItem(toks, q, plugins);
        if result.Err? {
          return Err(result.error);
        }
        items := items + [result.value.0];
        p := result.value.2;
      } else {
        p := Skip(toks, q);
      }
    }
    check := ExpectTag(toks, p, EndTag, "urlset");
    if check.Fail? {
      return Err(check.error);
    }
    channel := channel.(items := items, version := version);
    return Ok(channel);
  }

  method Parse(toks: seq<Token>, plugins: Plugins) returns (r: Result<Feed, Error>)
    ensures r == Extract(toks, plugins)
  {
    var root := FindRoot(toks, 0);
    if root.Err? {
      return Err(root.error);
    }
    r := ParseRoot(toks, root.value, plugins);
  }
}
