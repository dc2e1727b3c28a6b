/**
 * Feed-type detection (detector.go): find the document's root element and classify its
 * lower-cased name.  Detection never fails; a document without a root element is `Unknown`.
 */
module Detector {
  import opened Wrappers
  import opened Xml
  import opened XmlTree

  datatype FeedType = Unknown | Atom | Rss | Sitemap

  /** The `switch` on the root element's lower-cased name. */
  function Classify(name: string): (t: FeedType)
    ensures t == Rss <==> Lower(name) == "rdf" || Lower(name) == "rss"
    ensures t == Atom <==> Lower(name) == "feed"
    ensures t == Sitemap <==> Lower(name) == "urlset"
  {
    var lower := Lower(name);
    if lower == "rdf" then Rss
    else if lower == "rss" then Rss
    else if lower == "feed" then Atom
    else if lower == "urlset" then Sitemap
    else Unknown
  }

  /** `DetectFeedType` on the events of a document. */
  function DetectFeedType(toks: seq<Token>): (t: FeedType)
    ensures (forall k :: 0 <= k < |toks| ==> !toks[k].Start?) ==> t == Unknown
    ensures t != Unknown ==> exists i :: 0 <= i < |toks| && toks[i].Start? && t == Classify(toks[i].name)
                                         && forall k :: 0 <= k < i ==> !toks[k].Start?
    ensures forall i :: 0 <= i < |toks| && toks[i].Start? && (forall k :: 0 <= k < i ==> !toks[k].Start?) ==>
                          t == Classify(toks[i].name)
  {
    FindRootIsFirst(toks, 0);
    match FindRoot(toks, 0)
    case Err(_) => Unknown
    case Ok(root) => Classify(toks[root - 1].name)
  }

  /** Lower-casing twice is lower-casing once. */
  lemma LowerIdempotent(s: string)
    ensures Lower(Lower(s)) == Lower(s)
  {
    forall i | 0 <= i < |s|
      ensures Lower(Lower(s))[i] == Lower(s)[i]
    {
      assert Lower(s)[i] == LowerChar(s[i]);
    }
  }

  /** The classification ignores case: a name and its lower-case form are classified alike. */
  lemma ClassifyIgnoresCase(name: string)
    ensures Classify(name) == Classify(Lower(name))
  {
    LowerIdempotent(name);
  }

  /** Detection on a serialised document (events without a start tag, a root element, then
      anything) classifies the root. */
  lemma DetectOnTree(lead: seq<Token>, root: Node, rest: seq<Token>)
    requires BeforeRoot(lead) && root.Element?
    ensures DetectFeedType(lead + Tokens(root) + rest) == Classify(root.name)
  {
    var toks := lead + Tokens(root) + rest;
    AtMiddle(lead, Tokens(root), rest);
    AtHead(toks, |lead|, Tokens(root));
    forall k | 0 <= k < |lead|
      ensures !toks[k].Start?
    {
      assert toks[k] == lead[k];
    }
    FindRootPast(toks, 0, |lead|);
  }
}
