/**
 * The universal parser (parser.go): detect the feed type of a byte stream, replay the bytes
 * detection consumed in front of the rest, run the matching format parser and translate its
 * result.  Translators and the HTTP client are installed lazily, on first use, in the
 * `Parser` object's fields.
 *
 * The tokenizer, the Atom and RSS parsers, the default translators, the network and base64
 * encoding are collaborators outside the model; a `Collaborators` value carries them as
 * functions.
 */
module FeedParser {
  import opened Wrappers
  import opened Errors
  import opened Xml
  import opened XmlTree
  import opened Detector
  import opened SitemapFeed
  import SitemapParse
  import SitemapTree

  newtype byte = b: int | 0 <= b < 0x100

  /** The message of the error `Parse` returns when detection gives `Unknown`. */
  const DetectionFailure := "Failed to detect feed type"

  /** The client timeout both client getters install, in seconds. */
  const ClientTimeout := 15

  /** The proxy transport's TLS handshake and expect-continue timeouts, in seconds. */
  const TlsHandshakeTimeout := 10
  const ExpectContinueTimeout := 1

  /** An HTTP request as the orchestrator builds it: method, URL and header fields. */
  datatype Request = Request(verb: string, url: string, header: map<string, string>)

  /** The parts of an HTTP response the orchestrator looks at. */
  datatype Response = Response(statusCode: int, status: string, body: seq<byte>)

  /** The transport of a proxied client: its timeouts and the proxy's host. */
  datatype Transport = Transport(tlsHandshakeTimeout: nat, expectContinueTimeout: nat, proxyHost: string)

  /** `http.Client`: a timeout and a transport (`None` is the default transport). */
  class Client {
    const timeout: nat
    const transport: Option<Transport>

    constructor (timeout: nat, transport: Option<Transport>)
      ensures this.timeout == timeout && this.transport == transport
    {
      this.timeout := timeout;
      this.transport := transport;
    }
  }

  /** A `Translator` turning a parsed feed of one format into the universal feed `U`. */
  class Translator<F, U> {
    const translate: F -> Result<U, Error>

    constructor (translate: F -> Result<U, Error>)
      ensures this.translate == translate
    {
      this.translate := translate;
    }
  }

  /** What the orchestrator calls but does not define. */
  datatype Collaborators<!A, !R, U> = Collaborators(
    /** The pull parser's events for a byte stream. */
    tokenize: seq<byte> -> seq<Token>,
    /** How many bytes of a stream detection pulls through the tee before it decides. */
    detectionReads: seq<byte> -> nat,
    /** `atom.Parser.Parse` and `rss.Parser.Parse`. */
    parseAtom: seq<byte> -> Result<A, Error>,
    parseRss: seq<byte> -> Result<R, Error>,
    /** The date and extension parsers the Sitemap extractor calls. */
    sitemapPlugins: SitemapParse.Plugins,
    /** `DefaultAtomTranslator`, `DefaultRSSTranslator` and `DefaultSitemapTranslator`. */
    defaultAtom: A -> Result<U, Error>,
    defaultRss: R -> Result<U, Error>,
    defaultSitemap: Feed -> Result<U, Error>,
    /** `client.Do(request)` (and `client.Get(url)`, a `GET` request without header fields). */
    send: (Client, Request) -> Result<Response, Error>,
    /** `base64.StdEncoding.EncodeToString`. */
    base64: string -> string)

  /** Detect-and-replay: the bytes detection consumed, which the tee copied into the buffer,
      followed by the bytes it left unread in the original reader. */
  function Replay(input: seq<byte>, consumed: nat): (stream: seq<byte>)
    ensures stream == input
  {
    var k := if consumed <= |input| then consumed else |input|;
    var buffered := input[..k];
    var unread := input[k..];
    buffered + unread
  }

  /** One of `parseAtomFeed`, `parseRSSFeed`, `parseSitemapFeed` once the parser has run: an
      error is returned unchanged and the translator is not applied; a parsed feed is translated. */
  function Translate<F, U>(parsed: Result<F, Error>, translate: F -> Result<U, Error>): (r: Result<U, Error>)
    ensures parsed.Err? ==> r == Err(parsed.error)
    ensures parsed.Ok? ==> r == translate(parsed.value)
  {
    match parsed
    case Err(e) => Err(e)
    case Ok(feed) => translate(feed)
  }

  /** The status check of `ParseURL` and `ParseURLWithProxy`. */
  function CheckStatus(response: Response): (r: Outcome<Error>)
    ensures r.Pass? <==> 200 <= response.statusCode < 400
    ensures r.Fail? ==> r.error == HttpStatus(response.statusCode, response.status)
  {
    if response.statusCode < 200 || response.statusCode >= 400 then Fail(HttpStatus(response.statusCode, response.status))
    else Pass
  }

  /** The value of the `Proxy-Authorization` header for a proxy user and password. */
  function ProxyAuthorization(encode: string -> string, name: string, passwd: string): string
  {
    "Basic " + encode(name + ":" + passwd)
  }

  /** A translator getter's effect on its field: a translator already set is kept, otherwise a
      new one holding the default is installed. */
  twostate predicate Installed<F, U>(before: Translator?<F, U>, new after: Translator?<F, U>, default: F -> Result<U, Error>)
  {
    if before != null then after == before
    else after != null && fresh(after) && after.translate == default
  }

  /** A client getter's effect on the field: a client already set is kept, otherwise a new one
      with the 15-second timeout and the given transport is installed. */
  twostate predicate ClientInstalled(before: Client?, new after: Client?, transport: Option<Transport>)
  {
    if before != null then after == before
    else after != null && fresh(after) && after.timeout == ClientTimeout && after.transport == transport
  }

  /** The Sitemap extractor succeeds only on documents that detection classifies as sitemaps. */
  lemma ExtractedIsSitemap(toks: seq<Token>, plugins: SitemapParse.Plugins)
    requires SitemapParse.Extract(toks, plugins).Ok?
    ensures DetectFeedType(toks) == Sitemap
  {
    var root := FindRoot(toks, 0).value;
    assert SitemapParse.ReadRoot(toks, root, plugins).Ok?;
    assert ExpectTag(toks, root, StartTag, "urlset").Pass?;
    LowerOfLower("urlset");
  }

  /** `Parser`. */
  class Parser<A, R, U> {
    var atomTranslator: Translator?<A, U>
    var rssTranslator: Translator?<R, U>
    var sitemapTranslator: Translator?<Feed, U>
    var client: Client?
    const env: Collaborators<A, R, U>

    /** `NewParser`: no translator and no client yet. */
    constructor (env: Collaborators<A, R, U>)
      ensures this.env == env
      ensures atomTranslator == null && rssTranslator == null && sitemapTranslator == null && client == null
    {
      this.env := env;
      atomTranslator, rssTranslator, sitemapTranslator, client := null, null, null, null;
    }

    /** The translation a getter would hand out now. */
    function AtomTranslation(): A -> Result<U, Error>
      reads this
    {
      if atomTranslator != null then atomTranslator.translate else env.defaultAtom
    }

    function RssTranslation(): R -> Result<U, Error>
      reads this
    {
      if rssTranslator != null then rssTranslator.translate else env.defaultRss
    }

    function SitemapTranslation(): Feed -> Result<U, Error>
      reads this
    {
      if sitemapTranslator != null then sitemapTranslator.translate else env.defaultSitemap
    }

    /** The feed type detection finds in `input`, and the stream the format parser then reads. */
    function Kind(input: seq<byte>): FeedType
    {
      DetectFeedType(env.tokenize(input))
    }

    function Stream(input: seq<byte>): seq<byte>
    {
      Replay(input, env.detectionReads(input))
    }

    /** What `Parse` returns on `input` with the translators now in the fields. */
    function Parsing(input: seq<byte>): Result<U, Error>
      reads this
    {
      match Kind(input)
      case Atom => Translate(env.parseAtom(Stream(input)), AtomTranslation())
      case Rss => Translate(env.parseRss(Stream(input)), RssTranslation())
      case Sitemap => Translate(SitemapParse.Extract(env.tokenize(Stream(input)), env.sitemapPlugins), SitemapTranslation())
      case Unknown => Err(Failed(DetectionFailure))
    }

    /** Whether a parse of `input` gets as far as translating, and so calls the getter of the
        detected kind's translator. */
    predicate Translates(input: seq<byte>, kind: FeedType)
    {
      Kind(input) == kind &&
      match kind
      case Atom => env.parseAtom(Stream(input)).Ok?
      case Rss => env.parseRss(Stream(input)).Ok?
      case Sitemap => SitemapParse.Extract(env.tokenize(Stream(input)), env.sitemapPlugins).Ok?
      case Unknown => false
    }

    /** The translator fields after a parse of `input`: the getter of the kind that was translated
        installed its default if need be, and the other fields are as they were. */
    twostate predicate TranslatorsAfter(input: seq<byte>)
      reads this
    {
      && (if Translates(input, Atom) then Installed(old(atomTranslator), atomTranslator, env.defaultAtom)
          else atomTranslator == old(atomTranslator))
      && (if Translates(input, Rss) then Installed(old(rssTranslator), rssTranslator, env.defaultRss)
          else rssTranslator == old(rssTranslator))
      && (if Translates(input, Sitemap) then Installed(old(sitemapTranslator), sitemapTranslator, env.defaultSitemap)
          else sitemapTranslator == old(sitemapTranslator))
    }

    /** `atomTrans`. */
    method AtomTrans() returns (t: Translator<A, U>)
      modifies this
      ensures Installed(old(atomTranslator), atomTranslator, env.defaultAtom) && t == atomTranslator
      ensures t.translate == old(AtomTranslation())
      ensures rssTranslator == old(rssTranslator) && sitemapTranslator == old(sitemapTranslator) && client == old(client)
    {
      if atomTranslator != null {
        return atomTranslator;
      }
      atomTranslator := new Translator(env.defaultAtom);
      return atomTranslator;
    }

    /** `rssTrans`. */
    method RssTrans() returns (t: Translator<R, U>)
      modifies this
      ensures Installed(old(rssTranslator), rssTranslator, env.defaultRss) && t == rssTranslator
      ensures t.translate == old(RssTranslation())
      ensures atomTranslator == old(atomTranslator) && sitemapTranslator == old(sitemapTranslator) && client == old(client)
    {
      if rssTranslator != null {
        return rssTranslator;
      }
      rssTranslator := new Translator(env.defaultRss);
      return rssTranslator;
    }

    /** `sitemapTrans`. */
    method SitemapTrans() returns (t: Translator<Feed, U>)
      modifies this
      ensures Installed(old(sitemapTranslator), sitemapTranslator, env.defaultSitemap) && t == sitemapTranslator
      ensures t.translate == old(SitemapTranslation())
      ensures atomTranslator == old(atomTranslator) && rssTranslator == old(rssTranslator) && client == old(client)
    {
      if sitemapTranslator != null {
        return sitemapTranslator;
      }
      sitemapTranslator := new Translator(env.defaultSitemap);
      return sitemapTranslator;
    }

    /** `httpClient`: the client in the field, or a new one with the default transport. */
    method HttpClient() returns (c: Client)
      modifies this
      ensures ClientInstalled(old(client), client, None) && c == client
      ensures atomTranslator == old(atomTranslator) && rssTranslator == old(rssTranslator)
      ensures sitemapTranslator == old(sitemapTranslator)
    {
      if client != null {
        return client;
      }
      client := new Client(ClientTimeout, None);
      return client;
    }

    /** `httpClientWithProxy`: the client in the field, whatever the proxy, or a new one whose
        transport goes through the proxy at `proxyHost`. */
    method HttpClientWithProxy(proxyHost: string) returns (c: Client)
      modifies this
      ensures ClientInstalled(old(client), client, Some(Transport(TlsHandshakeTimeout, ExpectContinueTimeout, proxyHost)))
      ensures c == client
      ensures atomTranslator == old(atomTranslator) && rssTranslator == old(rssTranslator)
      ensures sitemapTranslator == old(sitemapTranslator)
    {
      if client != null {
        return client;
      }
      var transport := Transport(TlsHandshakeTimeout, ExpectContinueTimeout, proxyHost);
      client := new Client(ClientTimeout, Some(transport));
      return client;
    }

    /** `parseAtomFeed`: the translator is fetched only once the Atom parser has succeeded. */
    method ParseAtomFeed(stream: seq<byte>) returns (r: Result<U, Error>)
      modifies this
      ensures r == Translate(env.parseAtom(stream), old(AtomTranslation()))
      ensures if env.parseAtom(stream).Ok? then Installed(old(atomTranslator), atomTranslator, env.defaultAtom)
              else atomTranslator == old(atomTranslator)
      ensures rssTranslator == old(rssTranslator) && sitemapTranslator == old(sitemapTranslator) && client == old(client)
    {
      var parsed := env.parseAtom(stream);
      if parsed.Err? {
        return Err(parsed.error);
      }
      var t := AtomTrans();
      r := t.translate(parsed.value);
    }

    /** `parseRSSFeed`. */
    method ParseRssFeed(stream: seq<byte>) returns (r: Result<U, Error>)
      modifies this
      ensures r == Translate(env.parseRss(stream), old(RssTranslation()))
      ensures if env.parseRss(stream).Ok? then Installed(old(rssTranslator), rssTranslator, env.defaultRss)
              else rssTranslator == old(rssTranslator)
      ensures atomTranslator == old(atomTranslator) && sitemapTranslator == old(sitemapTranslator) && client == old(client)
    {
      var parsed := env.parseRss(stream);
      if parsed.Err? {
        return Err(parsed.error);
      }
      var t := RssTrans();
      r := t.translate(parsed.value);
    }

    /** `parseSitemapFeed`: the Sitemap extractor runs on the stream's events. */
    method ParseSitemapFeed(stream: seq<byte>) returns (r: Result<U, Error>)
      modifies this
      ensures r == old(Translate(SitemapParse.Extract(env.tokenize(stream), env.sitemapPlugins), SitemapTranslation()))
      ensures if SitemapParse.Extract(env.tokenize(stream), env.sitemapPlugins).Ok?
              then Installed(old(sitemapTranslator), sitemapTranslator, env.defaultSitemap)
              else sitemapTranslator == old(sitemapTranslator)
      ensures atomTranslator == old(atomTranslator) && rssTranslator == old(rssTranslator) && client == old(client)
    {
      var parsed := SitemapParse.Parse(env.tokenize(stream), env.sitemapPlugins);
      if parsed.Err? {
        return Err(parsed.error);
      }
      var t := SitemapTrans();
      r := t.translate(parsed.value);
    }

    /** `Parse`: detect, replay, dispatch. */
    method Parse(input: seq<byte>) returns (r: Result<U, Error>)
      modifies this
      ensures r == old(Parsing(input))
      ensures TranslatorsAfter(input)
      ensures client == old(client)
    {
      var kind := DetectFeedType(env.tokenize(input));
      var stream := Replay(input, env.detectionReads(input));
      match kind {
        case Atom =>
          r := ParseAtomFeed(stream);
        case Rss =>
          r := ParseRssFeed(stream);
        case Sitemap =>
          r := ParseSitemapFeed(stream);
        case Unknown =>
          r := Err(Failed(DetectionFailure));
      }
    }

    /** `ParseURL`: fetch with the lazily installed client, check the status, parse the body. */
    method ParseUrl(feedUrl: string) returns (r: Result<U, Error>)
      modifies this
      ensures ClientInstalled(old(client), client, None)
      ensures var fetched := env.send(client, Request("GET", feedUrl, map[]));
              && (fetched.Err? ==> r == Err(fetched.error))
              && (fetched.Ok? && CheckStatus(fetched.value).Fail? ==> r == Err(CheckStatus(fetched.value).error))
              && (fetched.Ok? && CheckStatus(fetched.value).Pass? ==> r == old(Parsing(fetched.value.body)) && TranslatorsAfter(fetched.value.body))
              && (fetched.Err? || CheckStatus(fetched.value).Fail? ==>
                    atomTranslator == old(atomTranslator) && rssTranslator == old(rssTranslator) && sitemapTranslator == old(sitemapTranslator))
    {
      var c := HttpClient();
      var fetched := env.send(c, Request("GET", feedUrl, map[]));
      if fetched.Err? {
        return Err(fetched.error);
      }
      var response := fetched.value;
      var status := CheckStatus(response);
      if status.Fail? {
        return Err(status.error);
      }
      r := Parse(response.body);
    }

    /** `ParseURLWithProxy`: as `ParseURL`, through a proxied client, with the proxy credentials
        in a `Proxy-Authorization` header. */
    method ParseUrlWithProxy(feedUrl: string, proxyHost: string, proxyName: string, proxyPasswd: string) returns (r: Result<U, Error>)
      modifies this
      ensures ClientInstalled(old(client), client, Some(Transport(TlsHandshakeTimeout, ExpectContinueTimeout, proxyHost)))
      ensures var header := map["Proxy-Authorization" := ProxyAuthorization(env.base64, proxyName, proxyPasswd)];
              var fetched := env.send(client, Request("GET", feedUrl, header));
              && (fetched.Err? ==> r == Err(fetched.error))
              && (fetched.Ok? && CheckStatus(fetched.value).Fail? ==> r == Err(CheckStatus(fetched.value).error))
              && (fetched.Ok? && CheckStatus(fetched.value).Pass? ==> r == old(Parsing(fetched.value.body)) && TranslatorsAfter(fetched.value.body))
              && (fetched.Err? || CheckStatus(fetched.value).Fail? ==>
                    atomTranslator == old(atomTranslator) && rssTranslator == old(rssTranslator) && sitemapTranslator == old(sitemapTranslator))
    {
      var c := HttpClientWithProxy(proxyHost);
      var header := map["Proxy-Authorization" := ProxyAuthorization(env.base64, proxyName, proxyPasswd)];
      var fetched := env.send(c, Request("GET", feedUrl, header));
      if fetched.Err? {
        return Err(fetched.error);
      }
      var response := fetched.value;
      var status := CheckStatus(response);
      if status.Fail? {
        return Err(status.error);
      }
      r := Parse(response.body);
    }

    /** `ParseString`: a Go string is its bytes, and the reader over it yields exactly them. */
    method ParseString(feed: seq<byte>) returns (r: Result<U, Error>)
      modifies this
      ensures r == old(Parsing(feed))
      ensures TranslatorsAfter(feed)
      ensures client == old(client)
    {
      r := Parse(feed);
    }
  }

  /** `Parse` on a byte stream whose events are text or stray end tags, one root element and
      anything after it: the root's name picks the format, the format parser reads the whole
      stream, and a `urlset` root is read as the tree-level Sitemap feed before it is
      translated. */
  lemma DocumentParsing<A, R, U>(p: Parser<A, R, U>, input: seq<byte>, lead: seq<Token>, root: Node, rest: seq<Token>)
    requires BeforeRoot(lead) && root.Element? && p.env.tokenize(input) == lead + Tokens(root) + rest
    ensures Classify(root.name) == Unknown ==> p.Parsing(input) == Err(Failed(DetectionFailure))
    ensures Classify(root.name) == Atom ==> p.Parsing(input) == Translate(p.env.parseAtom(input), p.AtomTranslation())
    ensures Classify(root.name) == Rss ==> p.Parsing(input) == Translate(p.env.parseRss(input), p.RssTranslation())
    ensures Classify(root.name) == Sitemap ==>
              p.Parsing(input) == Translate(SitemapTree.FeedOf(root, p.env.sitemapPlugins), p.SitemapTranslation())
  {
    DetectOnTree(lead, root, rest);
    SitemapTree.ExtractOnTree(lead, root, rest, p.env.sitemapPlugins);
  }
}
