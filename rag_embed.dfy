/** The offline index build of `app/rag/embed.py`: a second decomposer of a
    record into five nodes, the loop that flattens every record's nodes into
    one list, and the metadata rows and embedding rows derived from it. */
module RagEmbed {
  import opened Wrappers
  import opened PyText
  import opened Records
  import RagRun

  /** The bulk decomposer raises when `" → ".join(conn[:2])` meets a
      connection that cannot be sliced into strings. */
  datatype DecomposeError = NonTextConnection

  /** `conn[:2]` as the list of strings `" → ".join` receives: the first two
      elements of a list (all of a shorter one), which must be strings, or the
      first two one-character strings of a string entry. Any other entry
      cannot be sliced or joined. */
  function FirstTwo(c: Connection): (r: Option<seq<string>>)
    ensures r.Some? ==> |r.value| <= 2
  {
    match c
    case ConnList(items) =>
      var first := if |items| < 2 then items else items[..2];
      if forall i :: 0 <= i < |first| ==> first[i].Text? then
        Some(seq(|first|, i requires 0 <= i < |first| => first[i].s))
      else None
    case ConnString(s) =>
      var first := if |s| < 2 then s else s[..2];
      Some(seq(|first|, i requires 0 <= i < |first| => [first[i]]))
    case ConnOther => None
  }

  /** The lines of the bulk Output node, one per connection entry with no
      filter, or the error of the first entry that cannot be joined. */
  function BulkLinkLines(conns: seq<Connection>): (r: Result<seq<string>, DecomposeError>)
    ensures r.Ok? <==> forall i :: 0 <= i < |conns| ==> FirstTwo(conns[i]).Some?
    ensures r.Ok? ==> |r.value| == |conns|
    ensures r.Ok? ==> forall i :: 0 <= i < |conns| ==> r.value[i] == Join(FirstTwo(conns[i]).value, " → ")
  {
    if conns == [] then Ok([])
    else
      match FirstTwo(conns[0])
      case None => Err(NonTextConnection)
      case Some(first) =>
        match BulkLinkLines(conns[1..])
        case Err(e) =>
          assert exists i :: 0 <= i < |conns[1..]| && FirstTwo(conns[1..][i]).None?;
          var i :| 0 <= i < |conns[1..]| && FirstTwo(conns[1..][i]).None?;
          assert conns[1..][i] == conns[i + 1];
          Err(e)
        case Ok(rest) =>
          assert forall i :: 1 <= i < |conns| ==> conns[i] == conns[1..][i - 1];
          Ok([Join(first, " → ")] + rest)
  }

  /** `chunk_to_nodes` of the bulk build: the same five nodes, in the same
      order with the same ids and texts as the store's decomposer, except
      that the Output text joins every connection entry, unfiltered. */
  function ChunkToNodes(chunk: ExampleRecord, k: int): (r: Result<seq<Node>, DecomposeError>)
    ensures r.Err? <==> BulkLinkLines(RagRun.ConnectionsOf(chunk)).Err?
    ensures r.Ok? ==> |r.value| == 5
  {
    match BulkLinkLines(RagRun.ConnectionsOf(chunk))
    case Err(e) => Err(e)
    case Ok(lines) =>
      var id := ChunkId(k);
      Ok([ Node(id + "_prompt", PromptNode, id, chunk.prompt.GetOr("")),
           Node(id + "_code", CodeNode, id, chunk.code.GetOr("")),
           Node(id + "_parts", PartsNode, id, RagRun.PartsText(chunk)),
           Node(id + "_output", OutputNode, id, Join(lines, "\n")),
           Node(id + "_circuit", CircuitNode, id, chunk.circuitSpace.GetOr("")) ])
  }

  /** The bulk nodes have the fixed skeleton of record `k` and equal the
      store's nodes except for the Output text, which joins every connection
      entry's line. */
  lemma BulkMatchesStore(chunk: ExampleRecord, k: int)
    requires ChunkToNodes(chunk, k).Ok?
    ensures Decomposes(ChunkToNodes(chunk, k).value, k)
    ensures forall j :: 0 <= j < 5 && j != 3 ==> ChunkToNodes(chunk, k).value[j] == RagRun.ChunkToNodes(chunk, k)[j]
    ensures ChunkToNodes(chunk, k).value[3].text == Join(BulkLinkLines(RagRun.ConnectionsOf(chunk)).value, "\n")
  {
  }

  /** A connection entry both decomposers render the same way: a list whose
      first two elements are strings. */
  predicate IsTextLink(c: Connection) {
    RagRun.IsLink(c) && c.items[0].Text? && c.items[1].Text?
  }

  lemma TextLinkLine(c: Connection)
    requires IsTextLink(c)
    ensures FirstTwo(c) == Some([c.items[0].s, c.items[1].s])
    ensures Join(FirstTwo(c).value, " → ") == RagRun.LinkLine(c)
  {
    var ss := [c.items[0].s, c.items[1].s];
    var first := c.items[..2];
    assert first[0] == c.items[0] && first[1] == c.items[1];
    assert seq(|first|, i requires 0 <= i < |first| => first[i].s) == ss;
    assert ss[1..] == [c.items[1].s];
  }

  lemma {:induction false} TextLinksAgree(conns: seq<Connection>)
    requires forall i :: 0 <= i < |conns| ==> IsTextLink(conns[i])
    ensures BulkLinkLines(conns) == Ok(RagRun.LinkLines(conns))
    decreases |conns|
  {
    if conns != [] {
      TextLinkLine(conns[0]);
      assert forall i :: 0 <= i < |conns[1..]| ==> conns[1..][i] == conns[i + 1];
      TextLinksAgree(conns[1..]);
    }
  }

  /** When every connection is a list whose first two elements are strings,
      the two decomposers produce identical nodes. */
  lemma DecomposersAgree(chunk: ExampleRecord, k: int)
    requires forall i :: 0 <= i < |RagRun.ConnectionsOf(chunk)| ==> IsTextLink(RagRun.ConnectionsOf(chunk)[i])
    ensures ChunkToNodes(chunk, k) == Ok(RagRun.ChunkToNodes(chunk, k))
  {
    TextLinksAgree(RagRun.ConnectionsOf(chunk));
  }

  /** A one-element connection list contributes its element to the bulk
      Output text, where the store's decomposer skips it. */
  lemma ShortConnectionKept(a: string, k: int)
    ensures var chunk := ExampleRecord(None, None, Some(CircuitOutput(None, Some([ConnList([Text(a)])]), [])), None);
      ChunkToNodes(chunk, k).Ok? && ChunkToNodes(chunk, k).value[3].text == a &&
      RagRun.ChunkToNodes(chunk, k)[3].text == ""
  {
    var c := ConnList([Text(a)]);
    assert seq(1, i requires 0 <= i < 1 => [Text(a)][i].s) == [a];
    assert FirstTwo(c) == Some([a]);
    assert [c][1..] == [];
  }

  /** The bulk decompositions of the records, record `c` with index `c`,
      or the error of the first record that fails. */
  function Decompositions(chunks: seq<ExampleRecord>): Result<seq<seq<Node>>, DecomposeError>
    decreases |chunks|
  {
    if chunks == [] then Ok([])
    else
      match Decompositions(chunks[..|chunks| - 1])
      case Err(e) => Err(e)
      case Ok(prev) =>
        match ChunkToNodes(chunks[|chunks| - 1], |chunks| - 1)
        case Err(e) => Err(e)
        case Ok(nodes) => Ok(prev + [nodes])
  }

  /** Node lists concatenated in order, the way `extend` builds `all_nodes`. */
  function Flat(parts: seq<seq<Node>>): seq<Node>
    decreases |parts|
  {
    if parts == [] then [] else Flat(parts[..|parts| - 1]) + parts[|parts| - 1]
  }

  /** `all_nodes`, or the error that ends `main`. */
  function Flattened(chunks: seq<ExampleRecord>): Result<seq<Node>, DecomposeError> {
    match Decompositions(chunks)
    case Err(e) => Err(e)
    case Ok(parts) => Ok(Flat(parts))
  }

  /** The loop of `main` that extends `all_nodes` record by record. */
  method Flatten(chunks: seq<ExampleRecord>) returns (r: Result<seq<Node>, DecomposeError>)
    ensures r == Flattened(chunks)
  {
    var all: seq<Node> := [];
    ghost var parts: seq<seq<Node>> := [];
    var idx := 0;
    while idx < |chunks|
      invariant 0 <= idx <= |chunks|
      invariant Decompositions(chunks[..idx]) == Ok(parts) && all == Flat(parts)
    {
      assert chunks[..idx + 1][..idx] == chunks[..idx];
      var nodes := ChunkToNodes(chunks[idx], idx);
      if nodes.Err? {
        DecompositionsStayFailed(chunks, idx + 1);
        return Err(nodes.error);
      }
      assert (parts + [nodes.value])[..|parts|] == parts;
      all := all + nodes.value;
      parts := parts + [nodes.value];
      idx := idx + 1;
    }
    assert chunks[..idx] == chunks;
    return Ok(all);
  }

  /** Once a prefix fails, every longer prefix fails with it. */
  lemma {:induction false} DecompositionsStayFailed(chunks: seq<ExampleRecord>, n: int)
    requires 0 <= n <= |chunks| && Decompositions(chunks[..n]).Err?
    ensures Decompositions(chunks) == Decompositions(chunks[..n])
    decreases |chunks| - n
  {
    if n < |chunks| {
      assert chunks[..n + 1][..n] == chunks[..n];
      DecompositionsStayFailed(chunks, n + 1);
    } else {
      assert chunks[..n] == chunks;
    }
  }

  /** The index build fails exactly when some record's decomposition fails. */
  lemma {:induction false} DecompositionsFail(chunks: seq<ExampleRecord>)
    ensures Decompositions(chunks).Err? <==> exists c :: 0 <= c < |chunks| && ChunkToNodes(chunks[c], c).Err?
    decreases |chunks|
  {
    if chunks != [] {
      var n := |chunks| - 1;
      var init := chunks[..n];
      var last := ChunkToNodes(chunks[n], n);
      DecompositionsFail(init);
      if Decompositions(init).Err? {
        assert Decompositions(chunks).Err?;
        var c :| 0 <= c < |init| && ChunkToNodes(init[c], c).Err?;
        assert init[c] == chunks[c];
      } else if last.Ok? {
        assert Decompositions(chunks) == Ok(Decompositions(init).value + [last.value]);
        forall c | 0 <= c < |chunks| ensures ChunkToNodes(chunks[c], c).Ok? {
          if c < n {
            assert init[c] == chunks[c];
          } else {
            assert c == n && ChunkToNodes(chunks[c], c) == last;
          }
        }
      } else {
        assert Decompositions(chunks).Err?;
      }
    }
  }

  /** A successful index build has one entry per record, entry `c` being
      the decomposition of record `c`. */
  lemma {:induction false} DecompositionsEntries(chunks: seq<ExampleRecord>)
    requires Decompositions(chunks).Ok?
    ensures |Decompositions(chunks).value| == |chunks|
    ensures forall c :: 0 <= c < |chunks| ==>
      ChunkToNodes(chunks[c], c).Ok? && Decompositions(chunks).value[c] == ChunkToNodes(chunks[c], c).value
    decreases |chunks|
  {
    if chunks != [] {
      var n := |chunks| - 1;
      var init := chunks[..n];
      DecompositionsEntries(init);
      var prev := Decompositions(init).value;
      var last := ChunkToNodes(chunks[n], n);
      assert last.Ok?;
      assert Decompositions(chunks) == Ok(prev + [last.value]);
      var all := prev + [last.value];
      forall c | 0 <= c < |chunks|
        ensures ChunkToNodes(chunks[c], c).Ok? && all[c] == ChunkToNodes(chunks[c], c).value
      {
        if c < n {
          assert init[c] == chunks[c] && all[c] == prev[c];
        } else {
          assert c == n && ChunkToNodes(chunks[c], c) == last && all[c] == last.value;
        }
      }
    }
  }

  /** Concatenating five-node lists: five nodes per list, and positions
      `5c` to `5c + 4` hold exactly list `c`. */
  lemma {:induction false} FlatLayout(parts: seq<seq<Node>>)
    requires forall c :: 0 <= c < |parts| ==> |parts[c]| == 5
    ensures |Flat(parts)| == 5 * |parts|
    ensures forall c :: 0 <= c < |parts| ==> Flat(parts)[5 * c..5 * c + 5] == parts[c]
    decreases |parts|
  {
    if parts != [] {
      var n := |parts| - 1;
      var init := parts[..n];
      FlatLayout(init);
      var all := Flat(parts);
      forall c | 0 <= c < |parts| ensures all[5 * c..5 * c + 5] == parts[c] {
        if c < n {
          assert init[c] == parts[c];
          assert all[5 * c..5 * c + 5] == Flat(init)[5 * c..5 * c + 5];
        }
      }
    }
  }

  /** A successful index build has five nodes per record, and positions
      `5c` to `5c + 4` are the decomposition of record `c`: the five fixed
      types in order, with the ids of `chunk_<c>`. */
  lemma FlattenedLayout(chunks: seq<ExampleRecord>)
    requires Flattened(chunks).Ok?
    ensures |Flattened(chunks).value| == 5 * |chunks|
    ensures forall c :: 0 <= c < |chunks| ==> Decomposes(Flattened(chunks).value[5 * c..5 * c + 5], c)
  {
    DecompositionsEntries(chunks);
    var parts := Decompositions(chunks).value;
    FlatLayout(parts);
    forall c | 0 <= c < |chunks| ensures Decomposes(Flattened(chunks).value[5 * c..5 * c + 5], c) {
      var r := ChunkToNodes(chunks[c], c);
      assert r.Ok? && parts[c] == r.value;
      BulkMatchesStore(chunks[c], c);
    }
  }

  lemma PositionResolves(nodes: seq<Node>, c: int, j: int, count: int)
    requires 0 <= c < count && 0 <= j < 5 && 5 * c + 5 <= |nodes|
    requires Decomposes(nodes[5 * c..5 * c + 5], c)
    ensures ResolveChunk(nodes[5 * c + j].chunkId, count) == Some(c)
  {
    assert nodes[5 * c + j] == nodes[5 * c..5 * c + 5][j];
    ResolveChunkId(c, count);
  }

  /** Position `p` lies in the slice of record `p / 5`, at offset `p % 5`. */
  lemma PositionSplits(p: int, count: int) returns (c: int, j: int)
    requires 0 <= p < 5 * count
    ensures 0 <= c < count && 0 <= j < 5 && p == 5 * c + j
  {
    c, j := p / 5, p % 5;
  }

  /** In a list laid out as five-node decompositions, node `p` names
      record `p / 5`. */
  lemma NodeResolves(nodes: seq<Node>, count: int, p: int)
    requires |nodes| == 5 * count
    requires forall c :: 0 <= c < count ==> Decomposes(nodes[5 * c..5 * c + 5], c)
    requires 0 <= p < |nodes|
    ensures ResolveChunk(nodes[p].chunkId, count).Some? && ResolveChunk(nodes[p].chunkId, count).value == p / 5
  {
    var c, j := PositionSplits(p, count);
    assert Decomposes(nodes[5 * c..5 * c + 5], c);
    PositionResolves(nodes, c, j, count);
    SplitQuotient(p, c, j);
    assert nodes[p] == nodes[5 * c + j];
  }

  /** The record of position `5c + j` is `c`. */
  lemma SplitQuotient(p: int, c: int, j: int)
    requires 0 <= j < 5 && p == 5 * c + j
    ensures p / 5 == c
  {
  }

  /** The files the build writes describe a consistent store: one embedding
      row per metadata row, and every metadata row naming a stored record.
      Position `p` of both files describes the same node, a node of record
      `p / 5`.
      The metadata comprehension of `main` is the store's projection
      `MetaRows`: id, type and record id of each node, in node order. */
  lemma BuildIsConsistent<V>(chunks: seq<ExampleRecord>, embed: string -> V)
    requires Flattened(chunks).Ok?
    ensures |EmbedTexts(Flattened(chunks).value, embed)| == |MetaRows(Flattened(chunks).value)|
    ensures RagRun.RowsResolve(MetaRows(Flattened(chunks).value), |chunks|)
    ensures var nodes := Flattened(chunks).value;
      forall p :: 0 <= p < |nodes| ==>
        EmbedTexts(nodes, embed)[p] == embed(nodes[p].text) && MetaRows(nodes)[p] == MetaOf(nodes[p]) &&
        ResolveChunk(MetaRows(nodes)[p].chunkId, |chunks|).Some? &&
        ResolveChunk(MetaRows(nodes)[p].chunkId, |chunks|).value == p / 5
  {
    var nodes := Flattened(chunks).value;
    FlattenedLayout(chunks);
    var rows := MetaRows(nodes);
    forall p | 0 <= p < |rows|
      ensures ResolveChunk(rows[p].chunkId, |chunks|).Some? && ResolveChunk(rows[p].chunkId, |chunks|).value == p / 5
    {
      NodeResolves(nodes, |chunks|, p);
      assert rows[p].chunkId == nodes[p].chunkId;
    }
  }
}
