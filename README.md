# gofeed Sitemap core in Dafny

This project models the feed-type detection, the Sitemap extractor and the universal parser of
gofeed, a Go library that reads RSS, Atom and Sitemap documents into one feed model. It then
proves what they promise.

- **Xml** (`xml.dfy`): a document is the sequence of pull-parser events
  (`Start(name, attrs, isExt)`, `End(name)`, `Text(text)`). A cursor is the number of events
  consumed so far. The tokenizer's `Expect` and `Attribute`, and the shared helpers `FindRoot`,
  `NextTag`, `ParseText` and `Skip`, are functions over that sequence.
- **SitemapParse** (`sitemap_parse.dfy`): the extractor of `sitemap/parse.go`.
  - Every sub-parser (`parsePublication`, `parseImage`, `parseNews`, `parseItem`, `parseRoot`,
    `Parse`) is a method with the source's `for` loop as a `while` loop.
  - Each method is proved equal to a token-level reading function (`ReadPublication` …
    `Extract`).
- **SitemapTree** (`sitemap_tree.dfy`): a document can also be seen as a tree of `Node`s.
  - Each element level gets a tree-level meaning (`PublicationOf`, `ImageOf`, `NewsOf`,
    `ItemOf`, `FeedOf`), a left fold over the element's children.
  - The lemmas prove that the extractor on the serialised tree computes exactly that meaning
    (`ExtractOnTree`).
- **SitemapProperties** (`sitemap_properties.dfy`): properties proved on the tree-level meaning:
  - repeated fields: the last one wins;
  - items: one per `url`, in document order;
  - errors: the first failing `url`'s error is returned;
  - a repeated `loc` aborts the parse;
  - Version, Title and Language of the whole document.
- **Detector** (`detector.dfy`): `DetectFeedType` classifies the lower-cased root name.
- **FeedParser** (`parser.dfy`): the `Parser` object.
  - Its lazily installed translators and client are nullable fields, updated by methods.
  - `Parse` covers detect-and-replay and dispatch; `ParseURL`, `ParseURLWithProxy` and
    `ParseString` are also modelled.
  - The collaborators the model does not define are function values of a `Collaborators`
    record: the tokenizer, the Atom and RSS parsers, the default translators, the HTTP round
    trip and base64.
- **Wrappers**, **Errors**, **Ext**, **SitemapFeed**: `Option`/`Result`, the error values, the
  extension capability, and the records of `sitemap/feed.go`.

Where the code and the documented design disagree, the model follows the code:

- A namespace other than the Sitemap 0.9 one gives Version `"unknow"`, as in
  `sitemap/parse.go:108` and `:111`, not `"unknown"`.
- `channel` is allocated before the loop (`sitemap/parse.go:34`). So the `channel == nil`
  branches at `:65-76` and `:88-91` never run: Feed.Title and Feed.Language stay empty rather
  than being adopted from the first `news`.
- A second `loc` in a `url` is not "first wins".
  - After a non-empty Link, the `continue` at `sitemap/parse.go:162-164` leaves the cursor on
    the second `loc`'s start tag.
  - The loop then reads that element's children as if they were children of `url`, and stops
    at `</loc>`.
  - The closing `Expect(EndTag, "url")` then fails, so the whole parse fails
    (`SitemapProperties.SecondLocFails`).

## Model

| member | source | states |
|---|---|---|
| SitemapParse.ParseVersion | sitemap/parse.go:101-114 | Version is "0.9" exactly when the lower-cased name is `urlset` and `xmlns` is the Sitemap 0.9 namespace; otherwise it is "unknow" |
| SitemapParse.ReadRoot | sitemap/parse.go:27-99 | a `urlset` start tag is required (else the `Expect` error); on success Title and Language are empty and Version is `parseVersion` of the root start tag |
| SitemapParse.Extract | sitemap/parse.go:17-25 | no root element gives `NoRootElement`; a successful parse has empty Title and Language, and Version "0.9" iff the root's `xmlns` is the namespace, else "unknow" |
| SitemapParse.ParsePublication | sitemap/parse.go:285-329 | the imperative `parsePublication` loop computes exactly the reading `ReadPublication` (record and cursor, or the first error) |
| SitemapParse.ParseImage | sitemap/parse.go:248-283 | the `parseImage` loop computes exactly `ReadImage` |
| SitemapParse.ParseNews | sitemap/parse.go:194-246 | the `parseNews` loop computes exactly `ReadNews` |
| SitemapParse.ParseItem | sitemap/parse.go:116-192 | the `parseItem` loop (extensions, news, loc with its `continue`, image, skip) computes exactly `ReadItem` |
| SitemapParse.ParseRoot | sitemap/parse.go:27-99 | the `parseRoot` loop computes exactly `ReadRoot` |
| SitemapParse.Parse | sitemap/parse.go:17-25 | `Parser.Parse` computes exactly `Extract` |
| SitemapTree.ReadPublicationOnTree | sitemap/parse.go:285-329 | on a serialised `publication` element, the reading yields `PublicationOf` of the element and lands just past its end tag |
| SitemapTree.ReadImageOnTree | sitemap/parse.go:248-283 | on a serialised `image` element, the reading yields `ImageOf` and lands past the end tag |
| SitemapTree.ReadNewsOnTree | sitemap/parse.go:194-246 | on a serialised `news` element, the reading yields `NewsOf` and lands past the end tag |
| SitemapTree.ReadItemOnTree | sitemap/parse.go:116-192 | on a serialised `url` element, the reading yields `ItemOf` (item and feed hints, or its error) and lands past the end tag |
| SitemapTree.ItemLoopRepeatedLoc | sitemap/parse.go:161-164 | a `loc` met while Link is non-empty is not consumed: the loop goes on through its children and stops on its end tag |
| SitemapTree.ExtensionOnTree | sitemap/parse.go:140-145 | an extension child is handed whole (start to end tag) to the extension parser, and the cursor lands on its end tag |
| SitemapTree.ReadRootOnTree | sitemap/parse.go:27-99 | on a serialised root element, `parseRoot` yields `FeedOf` of the root |
| SitemapTree.ExtractOnTree | sitemap/parse.go:17-99 | on any document made of events without a start tag (text, stray end tags), a root element and anything after it, the extractor's result is `FeedOf` of the root |
| SitemapProperties.PublicationFields | sitemap/parse.go:304-320 | `publication` keeps the text of the last `name` and of the last `language`; other children are skipped and the title and date stay empty |
| SitemapProperties.ImageFields | sitemap/parse.go:266-274 | `image` keeps the text of its last `loc` |
| SitemapProperties.NewsFields | sitemap/parse.go:213-237 | `news` keeps the last `title` and `publication_date`, and the name and language of the last `publication` |
| SitemapProperties.SuccessfulItem | sitemap/parse.go:126-181 | a `url` that reads successfully is the fold of the per-child step over its children, and never has a `loc` after a non-empty `loc` |
| SitemapProperties.ItemLink | sitemap/parse.go:161-169 | the Link of a successfully read `url` is the text of its last `loc` |
| SitemapProperties.ItemImage | sitemap/parse.go:170-175 | Image is that of the last `image` child, and absent without one |
| SitemapProperties.ItemNews | sitemap/parse.go:146-153 | Title and PubDate come from the last `news` child, and are empty without one |
| SitemapProperties.ItemPubDateParsed | sitemap/parse.go:154-158 | PubDateParsed is the parsed date of the last `news` whose date parses, and absent when none does; a date that fails to parse does not abort |
| SitemapProperties.ItemExtensions | sitemap/parse.go:140-145 | Extensions is set exactly when the `url` has an extension child |
| SitemapProperties.ItemChildrenNeverFail | sitemap/parse.go:126-181 | with an extension parser that never fails, the walk over a `url`'s children never fails |
| SitemapProperties.SecondLocFails | sitemap/parse.go:161-164 | a `loc` after a non-empty `loc` makes the `url` fail; when the extension parser never fails, the error is the failed closing `Expect(EndTag, "url")` |
| SitemapProperties.Urls | sitemap/parse.go:52-59 | every child selected as an item source is a non-extension element named `url` |
| SitemapProperties.FeedFoldSucceeds | sitemap/parse.go:49-80 | reading the children of `urlset` succeeds exactly when every `url` child reads |
| SitemapProperties.FeedFoldItems | sitemap/parse.go:59-64 | a successful read appends one item per `url` child, in document order, after the items already read |
| SitemapProperties.FeedFoldError | sitemap/parse.go:60-63 | a failed read returns the error of the first `url` child that fails |
| SitemapProperties.FeedItemsInOrder | sitemap/parse.go:49-95 | the Items of a `urlset` are one per `url` child in document order, or the first failing `url`'s error |
| SitemapProperties.DocumentFeed | sitemap/parse.go:27-99 | for any document made of events without a start tag, a root element and anything after it: a root other than `urlset` fails; success exactly when every `url` reads; Items in order; Title and Language empty; Version by namespace; else the first failing `url`'s error |
| SitemapProperties.NoUrlsNoItems | sitemap/parse.go:88-95 | a `urlset` without `url` children yields a feed with no Items |
| Detector.Classify | detector.go:38-50 | "rdf" and "rss" give RSS, "feed" gives Atom, "urlset" gives Sitemap, each exactly on the lower-cased name; anything else gives Unknown |
| Detector.DetectFeedType | detector.go:30-51 | a document without a start tag gives Unknown; otherwise the result is exactly the classification of the first start tag's name |
| Detector.ClassifyIgnoresCase | detector.go:38 | a name and its lower-case form are classified alike |
| Detector.DetectOnTree | detector.go:30-51 | on a document made of events without a start tag, a root element and anything after it, detection classifies the root's name |
| FeedParser.ExtractedIsSitemap | sitemap/parse.go:28-31 | the Sitemap extractor succeeds only on documents that detection classifies as Sitemap |
| FeedParser.Replay | parser.go:61-67 | the buffered prefix followed by the unread rest is the original byte sequence, however much detection read |
| FeedParser.Translate | parser.go:138-162 | an extractor error is returned unchanged and the translator is not applied; a parsed feed goes through the translator |
| FeedParser.CheckStatus | parser.go:89-94 | a response passes exactly when 200 <= StatusCode < 400; otherwise the error is HTTPError with its StatusCode and Status |
| FeedParser.DocumentParsing | parser.go:55-79 | for a document made of events without a start tag, a root element and anything after it: Unknown fails with "Failed to detect feed type"; Atom and RSS go to their parser and translator; a `urlset` root is translated from `FeedOf` of the root |
| FeedParser.Parser.constructor | parser.go:43-50 | a new parser has no translator and no client |
| FeedParser.Parser.AtomTrans | parser.go:164-170 | returns a translator already set unchanged; otherwise installs a fresh default, which later calls return; no other field changes |
| FeedParser.Parser.RssTrans | parser.go:172-178 | same as `AtomTrans`, for the RSS translator |
| FeedParser.Parser.SitemapTrans | parser.go:180-186 | same as `AtomTrans`, for the Sitemap translator |
| FeedParser.Parser.HttpClient | parser.go:188-196 | returns an existing client unchanged; otherwise installs a fresh one with the 15 s timeout and the default transport |
| FeedParser.Parser.HttpClientWithProxy | parser.go:198-215 | returns an existing client unchanged, whatever the proxy; otherwise installs one with the 15 s timeout and a transport through the proxy (10 s TLS handshake, 1 s expect-continue) |
| FeedParser.Parser.ParseAtomFeed | parser.go:138-144 | the Atom parser's error is returned without fetching the translator; otherwise the translator is fetched (installed if need be) and applied |
| FeedParser.Parser.ParseRssFeed | parser.go:146-153 | the same for RSS |
| FeedParser.Parser.ParseSitemapFeed | parser.go:155-162 | the same for the Sitemap extractor, run on the stream's events |
| FeedParser.Parser.Parse | parser.go:55-79 | the result is the dispatch on the detected type over the replayed stream; only the getter of the translated kind may install its default; the client is untouched |
| FeedParser.Parser.ParseUrl | parser.go:83-103 | the client is the one set or a new default; a transport error or a status outside 200..399 is returned; otherwise the body is parsed as by `Parse` |
| FeedParser.Parser.ParseUrlWithProxy | parser.go:106-130 | like `ParseUrl`, through the proxied client, with `Proxy-Authorization: Basic` and the base64 of `name:password` |
| FeedParser.Parser.ParseString | parser.go:134-136 | behaves as `Parse` on the bytes of the string |

## Left out

- The XML tokenizer (goxpp) and the shared helpers `FindRoot`, `NextTag`, `ParseText`, `Skip`
  and `IsExtension` are not part of this model's sources. They are modelled as functions over
  the event sequence, with comments, processing instructions and the prolog producing no events.
- Xml.Lower: folds ASCII letters only. Go's `strings.ToLower` also maps other Unicode letters
  (for example U+0130 to `i`), so a tag name such as `İmage` matches `image` in the source but not
  in the model, because Unicode case mapping tables are out of scope.
- Xml.ParseText: is the untrimmed concatenation of all character data inside the element, and
  fails only when the element has no end tag. The source's `shared.ParseText` trims white space,
  decodes entities and fails on a bad entity. So a `loc` holding only white space counts as a
  non-empty Link in the model (and a later `loc` then fails the `url`, see `SecondLocFails`),
  where the source leaves Link empty. Entity decoding is part of the tokenizer, which is out of
  scope.
- `Skip`'s error is ignored by the extractor. In the model, an unterminated subtree is skipped to
  the end of the document, and the next `NextTag` fails.
- `shared.ParseDate`, `time.Time` and the UTC conversion: the date parser is an opaque function
  from text to an optional instant.
- Extension payload parsing (`shared.ParseExtension`) is an opaque parser. It receives the
  accumulator and the events of the whole extension element, and returns the new accumulator or
  an error. Go's in-place update of the shared map becomes passing the map along.
- The RSS and Atom parsers and all translators are opaque functions (`Collaborators`).
- The tokenizer of the universal parser is also an opaque function from bytes to events.
- `io.TeeReader` and `io.MultiReader` are reduced to the fact that the buffered prefix followed
  by the rest is the original stream.
- HTTP, TLS, timeouts as durations, URL parsing of the proxy host, and base64 are left out. The
  round trip is a function from client and request to a response or an error, and base64 is an
  opaque function.
- FeedParser.Parser.ParseUrl: does not model the deferred `Body.Close` error that replaces the
  result when closing fails, because closing a body is network I/O.
- FeedParser.Parser.ParseUrlWithProxy: does not model the `Body.Close` override either, because
  closing a body is network I/O. It also does not model the ignored `http.NewRequest` error: in
  the source an unparseable URL leaves the request nil, and setting its header panics; the model
  sends the request anyway, because URL parsing is left out.
- `Feed.String()` (JSON serialisation) is a convenience outside the extractor.
- Go's pointers for the records (`*Item`, `*Image`, `*Feed`) become values. No record is shared
  or updated after it is returned.
