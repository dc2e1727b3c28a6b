/**
 * The pull-parser primitives the extractors are written against (the XML tokenizer and the
 * repository's shared helpers `FindRoot`, `NextTag`, `ParseText` and `Skip`).  A document is
 * the sequence of events the tokenizer produces; comments, processing instructions and the
 * prolog produce none.  A cursor is a position `pos`: the number of events consumed so far,
 * so that the current event is `toks[pos - 1]` and `pos == 0` is the start of the document.
 */
module Xml {
  import opened Wrappers
  import opened Errors

  datatype Attr = Attr(name: string, value: string)

  datatype Token =
    | Start(name: string, attrs: seq<Attr>, isExt: bool)  // isExt: `shared.IsExtension` holds of it
    | End(name: string)
    | Text(text: string)

  predicate IsTag(t: Token)
  {
    t.Start? || t.End?
  }

  function LowerChar(c: char): char
  {
    if 'A' <= c <= 'Z' then (c as int - 'A' as int + 'a' as int) as char else c
  }

  /** `strings.ToLower`, on the ASCII letters. */
  function Lower(s: string): (r: string)
    ensures |r| == |s|
  {
    seq(|s|, i requires 0 <= i < |s| => LowerChar(s[i]))
  }

  /** A name without upper-case letters is its own lower-case form. */
  lemma {:induction false} LowerOfLower(s: string)
    requires forall i :: 0 <= i < |s| ==> !('A' <= s[i] <= 'Z')
    ensures Lower(s) == s
  {
    if s != [] {
      LowerOfLower(s[1..]);
    }
  }

  /** The tag names the extractors compare against are already lower-case. */
  lemma LowerTagNames()
    ensures Lower("urlset") == "urlset" && Lower("url") == "url" && Lower("loc") == "loc"
    ensures Lower("news") == "news" && Lower("image") == "image" && Lower("publication") == "publication"
  {
    LowerOfLower("urlset");
    LowerOfLower("url");
    LowerOfLower("loc");
    LowerOfLower("news");
    LowerOfLower("image");
    LowerOfLower("publication");
  }

  predicate IsEvent(t: Token, event: EventKind)
  {
    match event
    case StartTag => t.Start?
    case EndTag => t.End?
  }

  /** `ExpectTag(event, name)`: the current event is `event` and its name equals `name` up to case.
      The cursor does not move. */
  function ExpectTag(toks: seq<Token>, pos: nat, event: EventKind, name: string): (r: Outcome<Error>)
    requires pos <= |toks|
    ensures r.Pass? <==> 0 < pos && IsEvent(toks[pos - 1], event) && Lower(toks[pos - 1].name) == Lower(name)
    ensures r.Fail? ==> r.error == Unexpected(event, name)
  {
    if 0 < pos && IsEvent(toks[pos - 1], event) && Lower(toks[pos - 1].name) == Lower(name) then Pass
    else Fail(Unexpected(event, name))
  }

  /** `NextTag`: advance past text to the next start or end tag, failing at the end of the document. */
  function NextTag(toks: seq<Token>, pos: nat): (r: Result<nat, Error>)
    requires pos <= |toks|
    decreases |toks| - pos
    ensures r.Ok? ==> pos < r.value <= |toks| && IsTag(toks[r.value - 1])
    ensures r.Err? ==> r.error == NoNextTag
  {
    if pos == |toks| then Err(NoNextTag)
    else if IsTag(toks[pos]) then Ok(pos + 1)
    else NextTag(toks, pos + 1)
  }

  /** `FindRoot`: advance to the first start tag of the document. */
  function FindRoot(toks: seq<Token>, pos: nat): (r: Result<nat, Error>)
    requires pos <= |toks|
    decreases |toks| - pos
    ensures r.Ok? ==> pos < r.value <= |toks| && toks[r.value - 1].Start?
    ensures r.Err? ==> r.error == NoRootElement
  {
    if pos == |toks| then Err(NoRootElement)
    else if toks[pos].Start? then Ok(pos + 1)
    else FindRoot(toks, pos + 1)
  }

  /** `NextTag` skips only character data: every token it passes over is text, and when it
      fails the rest of the document is text. */
  lemma {:induction false} NextTagSkipsText(toks: seq<Token>, pos: nat)
    requires pos <= |toks|
    decreases |toks| - pos
    ensures NextTag(toks, pos).Ok? ==> forall k :: pos <= k < NextTag(toks, pos).value - 1 ==> toks[k].Text?
    ensures NextTag(toks, pos).Err? ==> forall k :: pos <= k < |toks| ==> toks[k].Text?
  {
    if pos < |toks| && !IsTag(toks[pos]) {
      NextTagSkipsText(toks, pos + 1);
    }
  }

  /** `FindRoot` passes over no start tag: the root is the first element of the document. */
  lemma {:induction false} FindRootIsFirst(toks: seq<Token>, pos: nat)
    requires pos <= |toks|
    decreases |toks| - pos
    ensures FindRoot(toks, pos).Ok? ==> forall k :: pos <= k < FindRoot(toks, pos).value - 1 ==> !toks[k].Start?
    ensures FindRoot(toks, pos).Err? ==> forall k :: pos <= k < |toks| ==> !toks[k].Start?
  {
    if pos < |toks| && !toks[pos].Start? {
      FindRootIsFirst(toks, pos + 1);
    }
  }

  /** `FindRoot` lands just past the first start tag, whatever non-start events precede it. */
  lemma {:induction false} FindRootPast(toks: seq<Token>, pos: nat, hi: nat)
    requires pos <= hi < |toks| && toks[hi].Start?
    requires forall k :: pos <= k < hi ==> !toks[k].Start?
    decreases hi - pos
    ensures FindRoot(toks, pos) == Ok(hi + 1)
  {
    if pos < hi {
      FindRootPast(toks, pos + 1, hi);
    }
  }

  /** The position just past the end tag that closes the `depth` elements open at `pos`,
      if the document has one. */
  function Scan(toks: seq<Token>, pos: nat, depth: nat): (r: Option<nat>)
    requires pos <= |toks| && 0 < depth
    decreases |toks| - pos
    ensures r.Some? ==> pos < r.value <= |toks| && toks[r.value - 1].End?
  {
    if pos == |toks| then None
    else match toks[pos]
      case Start(_, _, _) => Scan(toks, pos + 1, depth + 1)
      case End(_) => if depth == 1 then Some(pos + 1) else Scan(toks, pos + 1, depth - 1)
      case Text(_) => Scan(toks, pos + 1, depth)
  }

  /** `Skip` from a start tag: consume the element's whole subtree, up to and including its end
      tag.  The extractors ignore Skip's error; at the end of the document everything is consumed
      and the next `NextTag` fails. */
  function Skip(toks: seq<Token>, pos: nat): (r: nat)
    requires pos <= |toks|
    ensures pos <= r <= |toks|
    ensures r == |toks| || (pos < r && toks[r - 1].End?)
  {
    match Scan(toks, pos, 1)
    case Some(e) => e
    case None => |toks|
  }

  /** The character data of the events from index `lo` up to (not including) `hi`, in order. */
  function TextBetween(toks: seq<Token>, lo: nat, hi: nat): string
    requires lo <= hi <= |toks|
    decreases hi - lo
  {
    if lo == hi then ""
    else (if toks[lo].Text? then toks[lo].text else "") + TextBetween(toks, lo + 1, hi)
  }

  /** `ParseText` (`DecodeElement` of the current start tag): the element's character data;
      the cursor ends on the element's end tag. */
  function ParseText(toks: seq<Token>, pos: nat): (r: Result<(string, nat), Error>)
    requires pos <= |toks|
    ensures r.Ok? ==> pos < r.value.1 <= |toks| && toks[r.value.1 - 1].End?
    ensures r.Err? ==> r.error in {NotAtStartTag, UnterminatedElement}
  {
    if pos == 0 || !toks[pos - 1].Start? then Err(NotAtStartTag)
    else match Scan(toks, pos, 1)
      case None => Err(UnterminatedElement)
      case Some(e) => Ok((TextBetween(toks, pos, e - 1), e))
  }

  /** The pull parser's `Attribute(name)`: the value of the first attribute called `name`, or "". */
  function Attribute(attrs: seq<Attr>, name: string): (v: string)
    ensures (forall i :: 0 <= i < |attrs| ==> attrs[i].name != name) ==> v == ""
    ensures forall i :: 0 <= i < |attrs| && attrs[i].name == name && (forall j :: 0 <= j < i ==> attrs[j].name != name)
                        ==> v == attrs[i].value
  {
    if attrs == [] then ""
    else if attrs[0].name == name then attrs[0].value
    else Attribute(attrs[1..], name)
  }
}
