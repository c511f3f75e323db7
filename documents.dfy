/**
 * The values the interpreter threads and stores: YAML documents, the labelled
 * memory of MemoryAndContext, and the property scopes macros are evaluated in.
 *
 * A document is a value here, so the source's deepClone is the identity.  In
 * the source, saveTo stores the clone and hands that same object on as the
 * current document, so an in-place change made later to the current document
 * also reaches memory.  Values cannot be changed in place, and no statement
 * here updates its input, so that sharing does not arise in this model.
 */
module Documents {
  import opened Wrappers

  /** A YAML tree as the interpreter sees it, or Java's null. */
  datatype Doc = Null | Scalar(text: string) | Mapping(entries: seq<(string, Doc)>)

  /** getEmptyYAML(): the empty mapping. */
  const EmptyDoc: Doc := Mapping([])

  /** getNewSingleYAMLEntry(key, value): the one-entry document `key: value`. */
  function SingleEntry(key: string, value: string): (d: Doc)
    ensures d.Mapping? && |d.entries| == 1 && d.entries[0] == (key, Scalar(value))
  {
    Mapping([(key, Scalar(value))])
  }

  /** What memory holds under a label: a document, or an object of some other type. */
  datatype Stored = Document(doc: Doc) | Foreign(typeName: string)

  /** The Context of a MemoryAndContext: labelled memory and the YAML library in use. */
  datatype Context = Context(memory: map<string, Stored>, library: string)

  /** MemoryAndContext, whose context may itself be absent. */
  datatype MemoryAndContext = MemoryAndContext(context: Option<Context>)

  /**
   * The property scopes of `allProps`: the GLOBALVARIABLES scope that
   * setProperty writes, and the scopes loaded from properties files, by name.
   */
  datatype Scopes = Scopes(globals: map<string, string>, files: map<string, map<string, string>>)
}
