/**
 * The records stored in the vector collections. A LangChain `Document` is its page
 * content and a metadata dictionary; the MongoDB vector store keeps the metadata keys
 * as top-level fields of the stored record, so store queries are queries on metadata.
 * Timestamps (ISO-8601 strings in the program) are modelled as integer instants.
 */
module Documents {

  /** A JSON/BSON value as it appears in metadata and in the raw job files. */
  datatype Value =
    | Null
    | Bool(b: bool)
    | Int(i: int)
    | Str(s: string)
    | Obj(fields: map<string, Value>)
    | List(items: seq<Value>)

  type Metadata = map<string, Value>

  datatype Document = Document(pageContent: string, metadata: Metadata)

  /** Python truthiness of a value: `None`, `False`, `0`, `""`, `{}` and `[]` are false. */
  predicate Truthy(v: Value)
  {
    match v
    case Null => false
    case Bool(b) => b
    case Int(i) => i != 0
    case Str(s) => s != ""
    case Obj(m) => m != map[]
    case List(xs) => xs != []
  }

  /**
   * A text splitter (`RecursiveCharacterTextSplitter(chunk_size=1000, chunk_overlap=200)`
   * in every caller), taken as a given function from a text to its segments.
   */
  type Splitter = string -> seq<string>

  /** One document per segment, in order, all carrying `meta`. */
  function Chunks(segments: seq<string>, meta: Metadata): (r: seq<Document>)
    ensures |r| == |segments|
    ensures forall i :: 0 <= i < |r| ==> r[i] == Document(segments[i], meta)
  {
    seq(|segments|, i requires 0 <= i < |segments| => Document(segments[i], meta))
  }

  /** `split_documents([d])`: the segments of the page content, each with a copy of the metadata. */
  function SplitDocument(d: Document, split: Splitter): seq<Document>
  {
    Chunks(split(d.pageContent), d.metadata)
  }
}
