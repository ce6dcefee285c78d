/** The example records of the retrieval store, the five typed nodes derived
    from each record, the metadata rows kept per node, and the `chunk_<k>`
    identifiers that tie a node back to its record. */
module Records {
  import opened Wrappers
  import opened PyText

  /** One element of a connection entry: a JSON string, or any other JSON
      value together with the text Python's `str()` gives for it. */
  datatype Elem = Text(s: string) | NonText(shown: string)

  /** `str(e)`. */
  function Str(e: Elem): string {
    match e
    case Text(s) => s
    case NonText(shown) => shown
  }

  /** One entry of `output.connections`. Well-formed data has lists
      `[from, to, color, path]`; the decomposers also meet a string entry or
      some other JSON value and treat those differently. */
  datatype Connection = ConnList(items: seq<Elem>) | ConnString(s: string) | ConnOther

  /** A JSON value the model does not look into, kept as its JSON text. */
  type JsonText = string

  /** One entry of `output.parts`. The decomposers read only its `type`;
      its other keys (`id`, `attrs`, ...) are kept, in order, because a
      query hands the output back whole. */
  datatype Part = Part(partType: Option<string>, otherKeys: seq<(string, JsonText)>)

  /** The `output` object of a record (the circuit JSON). `parts` and
      `connections` may each be absent; every other key of the object is
      kept, in order, with its value. */
  datatype CircuitOutput = CircuitOutput(
    parts: Option<seq<Part>>,
    connections: Option<seq<Connection>>,
    otherKeys: seq<(string, JsonText)>)

  /** `{}` as an output object. */
  const EmptyOutput := CircuitOutput(None, None, [])

  /** One stored example (a "chunk"); every key may be absent. */
  datatype ExampleRecord = ExampleRecord(
    prompt: Option<string>,
    code: Option<string>,
    output: Option<CircuitOutput>,
    circuitSpace: Option<string>)

  /** The `{}` record used to pad the record list. */
  const Placeholder := ExampleRecord(None, None, None, None)

  datatype NodeType = PromptNode | CodeNode | PartsNode | OutputNode | CircuitNode {
    /** The node's `type` string. */
    function Name(): string {
      match this
      case PromptNode => "Prompt"
      case CodeNode => "Code"
      case PartsNode => "Parts"
      case OutputNode => "Output"
      case CircuitNode => "Circuit_Space"
    }

    /** What the node id appends to the record id. */
    function Suffix(): string {
      match this
      case PromptNode => "_prompt"
      case CodeNode => "_code"
      case PartsNode => "_parts"
      case OutputNode => "_output"
      case CircuitNode => "_circuit"
    }
  }

  /** The fixed order of the five nodes of a record. */
  const NodeOrder: seq<NodeType> := [PromptNode, CodeNode, PartsNode, OutputNode, CircuitNode]

  /** A node tuple `(node_id, type, chunk_id, text)`. */
  datatype Node = Node(nodeId: string, nodeType: NodeType, chunkId: string, text: string)

  /** A metadata row `{node_id, type, chunk_id}`, as persisted (so the type
      and the record id are plain strings that need not be well-formed). */
  datatype Meta = Meta(nodeId: string, nodeType: string, chunkId: string)

  /** The metadata row of a node: everything but its text. */
  function MetaOf(n: Node): (m: Meta)
    ensures m.nodeId == n.nodeId && m.nodeType == n.nodeType.Name() && m.chunkId == n.chunkId
  {
    Meta(n.nodeId, n.nodeType.Name(), n.chunkId)
  }

  /** The metadata rows of a node list, one per node, in order. */
  function MetaRows(nodes: seq<Node>): (rows: seq<Meta>)
    ensures |rows| == |nodes|
    ensures forall i :: 0 <= i < |nodes| ==> rows[i] == MetaOf(nodes[i])
  {
    if nodes == [] then [] else MetaRows(nodes[..|nodes| - 1]) + [MetaOf(nodes[|nodes| - 1])]
  }

  /** The five texts of a node list, embedded in one batch: one row per node,
      in node order. */
  function EmbedTexts<V>(nodes: seq<Node>, embed: string -> V): (rows: seq<V>)
    ensures |rows| == |nodes|
    ensures forall i :: 0 <= i < |nodes| ==> rows[i] == embed(nodes[i].text)
  {
    seq(|nodes|, i requires 0 <= i < |nodes| => embed(nodes[i].text))
  }

  /** `f"chunk_{k}"`. */
  function ChunkId(k: int): string {
    "chunk" + "_" + IntToString(k)
  }

  /** `int(chunk_id.split("_")[-1])`, `None` standing for the ValueError. */
  function ChunkIndexOf(chunkId: string): Option<int> {
    ParseInt(Last(Split(chunkId, '_')))
  }

  /** The record index a node's `chunk_id` refers to, when it parses and
      lies in `[0, count)`; otherwise the reference is malformed. */
  function ResolveChunk(chunkId: string, count: int): (r: Option<nat>)
    ensures r.Some? ==> r.value < count
  {
    match ChunkIndexOf(chunkId)
    case Some(k) => if 0 <= k < count then Some(k) else None
    case None => None
  }

  /** A record id parses back to the index it was made from. */
  lemma ChunkIdRoundTrip(k: int)
    ensures ChunkIndexOf(ChunkId(k)) == Some(k)
  {
    var digits := IntToString(k);
    assert '_' !in digits;
    assert '_' !in "chunk";
    SplitAround("chunk", '_', digits);
    SplitWithoutSeparator("chunk", '_');
    SplitWithoutSeparator(digits, '_');
    assert "chunk" + "_" == "chunk" + ['_'];
    ParseIntToString(k);
  }

  /** A record id resolves exactly when its index is in range. */
  lemma ResolveChunkId(k: int, count: int)
    ensures ResolveChunk(ChunkId(k), count) == if 0 <= k < count then Some(k) else None
  {
    ChunkIdRoundTrip(k);
  }

  /** `nodes` is the five-node decomposition skeleton of record `k`: the
      fixed types in the fixed order, ids `chunk_<k>_<suffix>`, and all
      carrying `chunk_<k>`. */
  ghost predicate Decomposes(nodes: seq<Node>, k: int) {
    |nodes| == 5 &&
    forall j :: 0 <= j < 5 ==>
      nodes[j].nodeType == NodeOrder[j] &&
      nodes[j].nodeId == ChunkId(k) + NodeOrder[j].Suffix() &&
      nodes[j].chunkId == ChunkId(k)
  }
}
