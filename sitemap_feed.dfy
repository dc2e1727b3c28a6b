/** The records the Sitemap extractor builds (sitemap/feed.go). */
module SitemapFeed {
  import opened Wrappers
  import opened Ext

  /** A point in time, in UTC. `time.Time` is not modelled beyond identity of instants. */
  type Instant = int

  /** The whole sitemap: Title and Language are optional (empty when unset), Items are in
      document order, Version is always set by a successful parse. */
  datatype Feed = Feed(title: string, items: seq<Item>, language: string, version: string)

  /** One `url` entry.  `image` is optional and exclusively owned; `pubDate` keeps the raw text
      and `pubDateParsed` the parsed instant, if any; `extensions` is absent (Go's nil map)
      until an extension element is met. */
  datatype Item = Item(
    title: string,
    link: string,
    image: Option<Image>,
    pubDate: string,
    pubDateParsed: Option<Instant>,
    extensions: Option<Extensions>)

  datatype Image = Image(link: string)

  /** The transient record read from a `news` element; only its fields are copied out. */
  datatype News = News(name: string, title: string, language: string, publicationDate: string)

  /** `&Feed{}`, `&Item{}`, `&Image{}` and `&News{}`: every field at its zero value. */
  const EmptyFeed := Feed("", [], "", "")
  const NewItem := Item("", "", None, "", None, None)
  const EmptyImage := Image("")
  const EmptyNews := News("", "", "", "")
}
