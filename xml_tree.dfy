/**
 * Well-formed documents as trees.  A tree is serialised to the events the tokenizer would
 * produce for it; the lemmas here say what the pull-parser primitives do on a serialised
 * element: `Scan` and `Skip` jump over it whole, `ParseText` returns its character data and
 * leaves the cursor on its end tag.  They are what connects the token-level extractor to the
 * tree-level meaning of a document.
 */
module XmlTree {
  import opened Wrappers
  import opened Xml

  datatype Node =
    | Element(name: string, attrs: seq<Attr>, isExt: bool, children: seq<Node>)
    | Chars(text: string)

  /** The events of one node, in document order. */
  function Tokens(n: Node): seq<Token>
    decreases n
  {
    match n
    case Element(name, attrs, isExt, children) => [Start(name, attrs, isExt)] + TokensOf(children) + [End(name)]
    case Chars(text) => [Text(text)]
  }

  function TokensOf(ns: seq<Node>): seq<Token>
    decreases ns
  {
    if ns == [] then [] else Tokens(ns[0]) + TokensOf(ns[1..])
  }

  /** The character data of a node: its own text, or that of all its descendants in order. */
  function Content(n: Node): string
    decreases n
  {
    match n
    case Element(_, _, _, children) => ContentOf(children)
    case Chars(text) => text
  }

  function ContentOf(ns: seq<Node>): string
    decreases ns
  {
    if ns == [] then "" else Content(ns[0]) + ContentOf(ns[1..])
  }

  /** The `k` events of `toks` from index `pos` on. */
  function Window(toks: seq<Token>, pos: nat, k: nat): (w: seq<Token>)
    requires pos + k <= |toks|
    ensures |w| == k
  {
    seq(k, i requires 0 <= i < k => toks[pos + i])
  }

  /** The events `ts` occur in `toks` from index `pos` on. */
  predicate At(toks: seq<Token>, pos: nat, ts: seq<Token>)
  {
    pos + |ts| <= |toks| && Window(toks, pos, |ts|) == ts
  }

  lemma {:induction false} AtIndex(toks: seq<Token>, pos: nat, ts: seq<Token>, i: nat)
    requires At(toks, pos, ts) && i < |ts|
    ensures toks[pos + i] == ts[i]
  {
    assert Window(toks, pos, |ts|)[i] == toks[pos + i];
  }

  /** `At` as a slice of the document. */
  lemma {:induction false} AtSlice(toks: seq<Token>, pos: nat, ts: seq<Token>)
    requires At(toks, pos, ts)
    ensures toks[pos..pos + |ts|] == ts
  {
    forall i | 0 <= i < |ts|
      ensures toks[pos..pos + |ts|][i] == ts[i]
    {
      AtIndex(toks, pos, ts, i);
    }
  }

  /** A document starts with its first part. */
  lemma {:induction false} AtPrefix(a: seq<Token>, b: seq<Token>)
    ensures At(a + b, 0, a)
  {
    forall i | 0 <= i < |a|
      ensures Window(a + b, 0, |a|)[i] == a[i]
    {
    }
  }

  /** A document holds its middle part right after its first part. */
  lemma {:induction false} AtMiddle(a: seq<Token>, b: seq<Token>, c: seq<Token>)
    ensures At(a + b + c, |a|, b)
  {
    forall i | 0 <= i < |b|
      ensures Window(a + b + c, |a|, |b|)[i] == b[i]
    {
    }
  }

  /** Events that may come before the root element: character data and stray end tags,
      but no start tag. */
  predicate BeforeRoot(lead: seq<Token>)
  {
    forall k :: 0 <= k < |lead| ==> !lead[k].Start?
  }

  lemma {:induction false} AtHead(toks: seq<Token>, pos: nat, ts: seq<Token>)
    requires At(toks, pos, ts) && ts != []
    ensures toks[pos] == ts[0]
  {
    AtIndex(toks, pos, ts, 0);
  }

  lemma {:induction false} AtSplit(toks: seq<Token>, pos: nat, a: seq<Token>, b: seq<Token>)
    requires At(toks, pos, a + b)
    ensures At(toks, pos, a) && At(toks, pos + |a|, b)
  {
    forall i | 0 <= i < |a|
      ensures Window(toks, pos, |a|)[i] == a[i]
    {
      AtIndex(toks, pos, a + b, i);
    }
    forall i | 0 <= i < |b|
      ensures Window(toks, pos + |a|, |b|)[i] == b[i]
    {
      AtIndex(toks, pos, a + b, |a| + i);
    }
  }

  /** A sequence of serialised nodes is its first node followed by the rest. */
  lemma {:induction false} AtFirst(toks: seq<Token>, pos: nat, cs: seq<Node>)
    requires cs != [] && At(toks, pos, TokensOf(cs))
    ensures At(toks, pos, Tokens(cs[0])) && At(toks, pos + |Tokens(cs[0])|, TokensOf(cs[1..]))
    ensures |TokensOf(cs)| == |Tokens(cs[0])| + |TokensOf(cs[1..])|
  {
    assert TokensOf(cs) == Tokens(cs[0]) + TokensOf(cs[1..]);
    AtSplit(toks, pos, Tokens(cs[0]), TokensOf(cs[1..]));
  }

  /** The children `cs` folded left to right through `step`. */
  function Fold<S>(step: (Node, S) -> S, cs: seq<Node>, s: S): S
    decreases cs
  {
    if cs == [] then s else Fold(step, cs[1..], step(cs[0], s))
  }

  /** A loop that, from the first event of any child `n` serialised at `p`, gets to the event
      after it with its state moved by `step`, gets over a whole serialised sequence of children
      with its state moved by their fold. */
  lemma {:induction false} LoopOverNodes<S, R>(toks: seq<Token>, pos: nat, cs: seq<Node>, s: S, hi: nat, loop: (nat, S) -> R, step: (Node, S) -> S)
    requires At(toks, pos, TokensOf(cs)) && pos + |TokensOf(cs)| <= hi
    requires forall p: nat, n: Node, t: S :: n in cs && At(toks, p, Tokens(n)) && p + |Tokens(n)| <= hi
                                             ==> loop(p, t) == loop(p + |Tokens(n)|, step(n, t))
    ensures loop(pos, s) == loop(pos + |TokensOf(cs)|, Fold(step, cs, s))
    decreases cs
  {
    if cs != [] {
      AtFirst(toks, pos, cs);
      LoopOverNodes(toks, pos + |Tokens(cs[0])|, cs[1..], step(cs[0], s), hi, loop, step);
    }
  }

  /** A serialised element: its start tag, its children, its end tag. */
  lemma {:induction false} AtElement(toks: seq<Token>, pos: nat, n: Node)
    requires n.Element? && At(toks, pos, Tokens(n))
    ensures |Tokens(n)| == |TokensOf(n.children)| + 2
    ensures toks[pos] == Start(n.name, n.attrs, n.isExt)
    ensures At(toks, pos + 1, TokensOf(n.children))
    ensures toks[pos + 1 + |TokensOf(n.children)|] == End(n.name)
  {
    var open, inner, close := [Start(n.name, n.attrs, n.isExt)], TokensOf(n.children), [End(n.name)];
    assert Tokens(n) == open + inner + close;
    AtSplit(toks, pos, open + inner, close);
    AtSplit(toks, pos, open, inner);
    AtHead(toks, pos, open);
    AtHead(toks, pos + 1 + |inner|, close);
  }

  /** Scanning over a serialised node does not change the depth count. */
  lemma {:induction false} ScanNode(toks: seq<Token>, pos: nat, n: Node, depth: nat)
    requires At(toks, pos, Tokens(n)) && 0 < depth
    ensures Scan(toks, pos, depth) == Scan(toks, pos + |Tokens(n)|, depth)
    decreases n
  {
    match n
    case Chars(text) =>
      AtHead(toks, pos, Tokens(n));
    case Element(name, attrs, isExt, children) =>
      AtElement(toks, pos, n);
      ScanNodes(toks, pos + 1, children, depth + 1);
  }

  lemma {:induction false} ScanNodes(toks: seq<Token>, pos: nat, cs: seq<Node>, depth: nat)
    requires At(toks, pos, TokensOf(cs)) && 0 < depth
    ensures Scan(toks, pos, depth) == Scan(toks, pos + |TokensOf(cs)|, depth)
    decreases cs
  {
    if cs != [] {
      AtFirst(toks, pos, cs);
      ScanNode(toks, pos, cs[0], depth);
      ScanNodes(toks, pos + |Tokens(cs[0])|, cs[1..], depth);
    }
  }

  /** From just after an element's start tag (index `pos`), `Scan` finds the element's end. */
  lemma {:induction false} ScanElement(toks: seq<Token>, pos: nat, n: Node)
    requires n.Element? && At(toks, pos, Tokens(n))
    ensures Scan(toks, pos + 1, 1) == Some(pos + |Tokens(n)|)
  {
    AtElement(toks, pos, n);
    ScanNodes(toks, pos + 1, n.children, 1);
  }

  /** `Skip` on a serialised element lands just past its end tag. */
  lemma {:induction false} SkipElement(toks: seq<Token>, pos: nat, n: Node)
    requires n.Element? && At(toks, pos, Tokens(n))
    ensures Skip(toks, pos + 1) == pos + |Tokens(n)|
  {
    ScanElement(toks, pos, n);
  }

  lemma {:induction false} TextBetweenSplit(toks: seq<Token>, lo: nat, mid: nat, hi: nat)
    requires lo <= mid <= hi <= |toks|
    ensures TextBetween(toks, lo, hi) == TextBetween(toks, lo, mid) + TextBetween(toks, mid, hi)
    decreases mid - lo
  {
    if lo < mid {
      TextBetweenSplit(toks, lo + 1, mid, hi);
    }
  }

  /** The character data between the ends of a serialised node is the node's content. */
  lemma {:induction false} TextNode(toks: seq<Token>, pos: nat, n: Node)
    requires At(toks, pos, Tokens(n))
    ensures TextBetween(toks, pos, pos + |Tokens(n)|) == Content(n)
    decreases n
  {
    match n
    case Chars(text) =>
      AtHead(toks, pos, Tokens(n));
    case Element(name, attrs, isExt, children) =>
      AtElement(toks, pos, n);
      TextNodes(toks, pos + 1, children);
      TextBetweenSplit(toks, pos + 1, pos + 1 + |TokensOf(children)|, pos + |Tokens(n)|);
  }

  lemma {:induction false} TextNodes(toks: seq<Token>, pos: nat, cs: seq<Node>)
    requires At(toks, pos, TokensOf(cs))
    ensures TextBetween(toks, pos, pos + |TokensOf(cs)|) == ContentOf(cs)
    decreases cs
  {
    if cs != [] {
      AtFirst(toks, pos, cs);
      TextNode(toks, pos, cs[0]);
      TextNodes(toks, pos + |Tokens(cs[0])|, cs[1..]);
      TextBetweenSplit(toks, pos, pos + |Tokens(cs[0])|, pos + |TokensOf(cs)|);
    }
  }

  /** `ParseText` on a serialised element returns its character data and lands on its end tag. */
  lemma {:induction false} ParseTextElement(toks: seq<Token>, pos: nat, n: Node)
    requires n.Element? && At(toks, pos, Tokens(n))
    ensures ParseText(toks, pos + 1) == Ok((Content(n), pos + |Tokens(n)|))
  {
    AtElement(toks, pos, n);
    ScanElement(toks, pos, n);
    TextNodes(toks, pos + 1, n.children);
  }

  /** `NextTag` passes over character data. */
  lemma {:induction false} NextTagChars(toks: seq<Token>, pos: nat, n: Node)
    requires n.Chars? && At(toks, pos, Tokens(n))
    ensures NextTag(toks, pos) == NextTag(toks, pos + 1)
  {
    AtHead(toks, pos, Tokens(n));
  }

  /** `NextTag` stops on the start tag of an element. */
  lemma {:induction false} NextTagElement(toks: seq<Token>, pos: nat, n: Node)
    requires n.Element? && At(toks, pos, Tokens(n))
    ensures NextTag(toks, pos) == Ok(pos + 1) && toks[pos] == Start(n.name, n.attrs, n.isExt)
  {
    AtElement(toks, pos, n);
  }
}
