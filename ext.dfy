/**
 * The extension capability the extractors consume: a namespaced element outside the base
 * schema is handed, whole, to an extension parser that adds it to an accumulator.  What the
 * parser keeps is its own business; the model only fixes the shape of the accumulator
 * (prefix -> element name -> elements) and the parser's contract.
 */
module Ext {
  import opened Wrappers
  import opened Errors
  import opened Xml

  /** One parsed extension element, kept as the events it spans. */
  datatype Extension = Extension(events: seq<Token>)

  type Extensions = map<string, map<string, seq<Extension>>>

  /** Given the accumulator and the events of one extension element (from its start tag to its
      end tag), the updated accumulator or an error. */
  type ExtensionParser = (Extensions, seq<Token>) -> Result<Extensions, Error>

  /** `ParseExtension` from the extension's start tag: consume the element and hand its events to
      the capability; the cursor ends on the element's end tag. */
  function ParseExtension(acc: Extensions, toks: seq<Token>, pos: nat, parse: ExtensionParser)
    : (r: Result<(Extensions, nat), Error>)
    requires 0 < pos <= |toks|
    ensures r.Ok? ==> pos < r.value.1 <= |toks| && toks[r.value.1 - 1].End?
    ensures r.Ok? ==> parse(acc, toks[pos - 1..r.value.1]) == Ok(r.value.0)
    ensures Scan(toks, pos, 1).None? ==> r == Err(UnterminatedElement)
  {
    match Scan(toks, pos, 1)
    case None => Err(UnterminatedElement)
    case Some(e) =>
      match parse(acc, toks[pos - 1..e]) {
        case Err(failure) => Err(failure)
        case Ok(updated) =>
          Ok((updated, e))
      }
  }
}
