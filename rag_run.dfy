/** The retrieval store of `app/rag/run.py`: the decomposition of a record
    into five nodes, the post-processing of nearest-neighbour hits into
    query results, the ingestion of a feedback record, and the projection of
    result dictionaries onto a field list. */
module RagRun {
  import opened Wrappers
  import opened PyText
  import opened Records

  // ---------------------------------------------------------------------
  // Record -> five nodes
  // ---------------------------------------------------------------------

  /** The `type` of each part, `""` when absent, in array order. */
  function PartTypes(parts: seq<Part>): (types: seq<string>)
    ensures |types| == |parts|
    ensures forall i :: 0 <= i < |parts| ==> types[i] == parts[i].partType.GetOr("")
  {
    seq(|parts|, i requires 0 <= i < |parts| => parts[i].partType.GetOr(""))
  }

  /** The parts of a record, `[]` when `output` or `output.parts` is absent. */
  function PartsOf(chunk: ExampleRecord): seq<Part> {
    chunk.output.GetOr(EmptyOutput).parts.GetOr([])
  }

  /** The connections of a record, `[]` when absent. */
  function ConnectionsOf(chunk: ExampleRecord): seq<Connection> {
    chunk.output.GetOr(EmptyOutput).connections.GetOr([])
  }

  /** The text of the Parts node: the part types joined by `", "`. */
  function PartsText(chunk: ExampleRecord): string {
    Join(PartTypes(PartsOf(chunk)), ", ")
  }

  /** A connection entry that the Output node renders: a list of at least
      two elements. */
  predicate IsLink(c: Connection) {
    c.ConnList? && |c.items| >= 2
  }

  /** The line of one link: its first two elements through `str`, joined by
      `" → "`. */
  function LinkLine(c: Connection): (line: string)
    requires IsLink(c)
    ensures line == Str(c.items[0]) + " → " + Str(c.items[1])
  {
    var first := c.items[..2];
    var shown := seq(2, i requires 0 <= i < 2 => Str(first[i]));
    assert shown[1..] == [Str(c.items[1])];
    shown[0] + " → " + Join(shown[1..], " → ")
  }

  /** The lines of the Output node: one per link entry, in order; every other
      entry is skipped. */
  function LinkLines(conns: seq<Connection>): (lines: seq<string>)
    ensures |lines| <= |conns|
    ensures (forall c :: c in conns ==> IsLink(c)) ==> |lines| == |conns|
    ensures (forall c :: c in conns ==> !IsLink(c)) ==> lines == []
  {
    if conns == [] then []
    else
      var rest := LinkLines(conns[1..]);
      assert forall c :: c in conns[1..] ==> c in conns;
      if IsLink(conns[0]) then [LinkLine(conns[0])] + rest else rest
  }

  /** The text of the Output node: the link lines joined by newlines. */
  function OutputText(chunk: ExampleRecord): string {
    Join(LinkLines(ConnectionsOf(chunk)), "\n")
  }

  /** `_chunk_to_nodes`: exactly five nodes, Prompt, Code, Parts, Output and
      Circuit_Space, with ids `chunk_<k>_<suffix>`, all carrying
      `chunk_<k>`; absent fields give `""`. */
  function ChunkToNodes(chunk: ExampleRecord, k: int): (nodes: seq<Node>)
    ensures Decomposes(nodes, k)
    ensures nodes[0].text == chunk.prompt.GetOr("")
    ensures nodes[1].text == chunk.code.GetOr("")
    ensures nodes[2].text == PartsText(chunk)
    ensures nodes[3].text == OutputText(chunk)
    ensures nodes[4].text == chunk.circuitSpace.GetOr("")
  {
    var id := ChunkId(k);
    [ Node(id + "_prompt", PromptNode, id, chunk.prompt.GetOr("")),
      Node(id + "_code", CodeNode, id, chunk.code.GetOr("")),
      Node(id + "_parts", PartsNode, id, PartsText(chunk)),
      Node(id + "_output", OutputNode, id, OutputText(chunk)),
      Node(id + "_circuit", CircuitNode, id, chunk.circuitSpace.GetOr("")) ]
  }

  /** A `{}` record gives five empty texts. */
  lemma PlaceholderNodesAreEmpty(k: int)
    ensures forall j :: 0 <= j < 5 ==> ChunkToNodes(Placeholder, k)[j].text == ""
  {
  }

  /** When no link line contains a newline, the Output text splits back into
      exactly its link lines. */
  lemma OutputTextLines(chunk: ExampleRecord)
    requires |LinkLines(ConnectionsOf(chunk))| >= 1
    requires forall i :: 0 <= i < |LinkLines(ConnectionsOf(chunk))| ==> '\n' !in LinkLines(ConnectionsOf(chunk))[i]
    ensures Split(OutputText(chunk), '\n') == LinkLines(ConnectionsOf(chunk))
  {
    SplitJoin(LinkLines(ConnectionsOf(chunk)), '\n');
    assert "\n" == ['\n'];
  }

  /** Every node of a record `k` in range resolves back to record `k`. */
  lemma NodesResolveToRecord(chunk: ExampleRecord, k: int, count: int)
    requires 0 <= k < count
    ensures forall j :: 0 <= j < 5 ==> ResolveChunk(ChunkToNodes(chunk, k)[j].chunkId, count) == Some(k)
  {
    ResolveChunkId(k, count);
  }

  // ---------------------------------------------------------------------
  // Query post-processing
  // ---------------------------------------------------------------------

  /** One search hit: (squared L2) distance and the row it names. */
  datatype Hit = Hit(distance: real, index: int)

  /** Every hit names an existing row: the search index holds exactly the
      rows that the metadata list describes. */
  predicate HitsIn(hits: seq<Hit>, rows: int) {
    forall i :: 0 <= i < |hits| ==> 0 <= hits[i].index < rows
  }

  predicate SortedByDistance(hits: seq<Hit>) {
    forall i, j :: 0 <= i < j < |hits| ==> hits[i].distance <= hits[j].distance
  }

  /** One result dictionary of `query`. */
  datatype QueryResult = QueryResult(
    matchedNode: string,
    nodeId: string,
    chunkId: string,
    score: real,
    prompt: string,
    code: string,
    output: CircuitOutput,
    circuitSpace: string)

  /** The result for a hit on node `m` of record `ch`: the node's metadata,
      the distance as score, and the record's fields with their defaults. */
  function MakeResult(h: Hit, m: Meta, ch: ExampleRecord): QueryResult {
    QueryResult(m.nodeType, m.nodeId, m.chunkId, h.distance,
      ch.prompt.GetOr(""), ch.code.GetOr(""), ch.output.GetOr(EmptyOutput), ch.circuitSpace.GetOr(""))
  }

  /** The record ids considered so far, after hit `h`: a hit within the
      threshold marks its record id seen, whether or not it then resolves. */
  function StepSeen(h: Hit, threshold: real, metadata: seq<Meta>, seen: set<string>): set<string>
    requires 0 <= h.index < |metadata|
  {
    if h.distance > threshold then seen else seen + {metadata[h.index].chunkId}
  }

  /** The record ids seen after all of `hits`. */
  function SeenAfter(hits: seq<Hit>, threshold: real, metadata: seq<Meta>, seen: set<string>): set<string>
    requires HitsIn(hits, |metadata|)
    decreases |hits|
  {
    if hits == [] then seen
    else SeenAfter(hits[1..], threshold, metadata, StepSeen(hits[0], threshold, metadata, seen))
  }

  /** What `query` returns for `hits` (in search order), having already seen
      the record ids `seen`: at most one result per hit. The `Query*` lemmas
      below state what the results are. */
  function QueryFrom(hits: seq<Hit>, threshold: real, metadata: seq<Meta>, chunks: seq<ExampleRecord>,
                     seen: set<string>): (r: seq<QueryResult>)
    requires HitsIn(hits, |metadata|)
    ensures |r| <= |hits|
    decreases |hits|
  {
    if hits == [] then []
    else
      var h := hits[0];
      var rest := QueryFrom(hits[1..], threshold, metadata, chunks, StepSeen(h, threshold, metadata, seen));
      if h.distance > threshold then rest
      else
        var m := metadata[h.index];
        if m.chunkId in seen then rest
        else
          match ResolveChunk(m.chunkId, |chunks|)
          case Some(k) => [MakeResult(h, m, chunks[k])] + rest
          case None => rest
  }

  /** Hit `j` is the first hit within the threshold for its record id, and
      that id was not seen before the hits started. */
  ghost predicate Selected(hits: seq<Hit>, threshold: real, metadata: seq<Meta>, seen: set<string>, j: int)
    requires HitsIn(hits, |metadata|)
  {
    0 <= j < |hits| && hits[j].distance <= threshold &&
    metadata[hits[j].index].chunkId !in SeenAfter(hits[..j], threshold, metadata, seen)
  }

  /** The results of a selected hit, as `query` emits them when its record
      id resolves. */
  function ResultOf(hits: seq<Hit>, metadata: seq<Meta>, chunks: seq<ExampleRecord>, j: int): Option<QueryResult>
    requires HitsIn(hits, |metadata|) && 0 <= j < |hits|
  {
    var m := metadata[hits[j].index];
    match ResolveChunk(m.chunkId, |chunks|)
    case Some(k) => Some(MakeResult(hits[j], m, chunks[k]))
    case None => None
  }

  lemma SeenGrows(hits: seq<Hit>, threshold: real, metadata: seq<Meta>, seen: set<string>)
    requires HitsIn(hits, |metadata|)
    ensures seen <= SeenAfter(hits, threshold, metadata, seen)
    decreases |hits|
  {
    if hits != [] {
      SeenGrows(hits[1..], threshold, metadata, StepSeen(hits[0], threshold, metadata, seen));
    }
  }

  /** Every returned score is within the threshold. */
  lemma {:induction false} QueryScoresWithinThreshold(hits: seq<Hit>, threshold: real, metadata: seq<Meta>,
                                                     chunks: seq<ExampleRecord>, seen: set<string>)
    requires HitsIn(hits, |metadata|)
    ensures forall r :: r in QueryFrom(hits, threshold, metadata, chunks, seen) ==> r.score <= threshold
    decreases |hits|
  {
    if hits != [] {
      QueryScoresWithinThreshold(hits[1..], threshold, metadata, chunks, StepSeen(hits[0], threshold, metadata, seen));
    }
  }

  /** At most one result per record id, and none for a record id already seen. */
  lemma {:induction false} QueryChunkIdsDistinct(hits: seq<Hit>, threshold: real, metadata: seq<Meta>,
                                                chunks: seq<ExampleRecord>, seen: set<string>)
    requires HitsIn(hits, |metadata|)
    ensures forall i :: 0 <= i < |QueryFrom(hits, threshold, metadata, chunks, seen)| ==>
      QueryFrom(hits, threshold, metadata, chunks, seen)[i].chunkId !in seen
    ensures forall i, j :: 0 <= i < j < |QueryFrom(hits, threshold, metadata, chunks, seen)| ==>
      QueryFrom(hits, threshold, metadata, chunks, seen)[i].chunkId != QueryFrom(hits, threshold, metadata, chunks, seen)[j].chunkId
    decreases |hits|
  {
    if hits != [] {
      var seen' := StepSeen(hits[0], threshold, metadata, seen);
      QueryChunkIdsDistinct(hits[1..], threshold, metadata, chunks, seen');
      var rest := QueryFrom(hits[1..], threshold, metadata, chunks, seen');
      var rs := QueryFrom(hits, threshold, metadata, chunks, seen);
      assert seen <= seen';
      if rs != rest {
        var m := metadata[hits[0].index];
        assert hits[0].distance <= threshold && m.chunkId !in seen;
        assert rs == [rs[0]] + rest && rs[0].chunkId == m.chunkId;
        PrependDistinct(rs[0], rest, seen, seen');
      }
    }
  }

  /** A result for a record id not yet seen, in front of results for ids
      not seen even after it, keeps the ids distinct and unseen. */
  lemma PrependDistinct(x: QueryResult, rest: seq<QueryResult>, seen: set<string>, seen': set<string>)
    requires x.chunkId !in seen && x.chunkId in seen' && seen <= seen'
    requires forall i :: 0 <= i < |rest| ==> rest[i].chunkId !in seen'
    requires forall i, j :: 0 <= i < j < |rest| ==> rest[i].chunkId != rest[j].chunkId
    ensures forall i :: 0 <= i < |[x] + rest| ==> ([x] + rest)[i].chunkId !in seen
    ensures forall i, j :: 0 <= i < j < |[x] + rest| ==> ([x] + rest)[i].chunkId != ([x] + rest)[j].chunkId
  {
    var rs := [x] + rest;
    forall i | 1 <= i < |rs| ensures rs[i] == rest[i - 1] && rs[i].chunkId != x.chunkId && rs[i].chunkId !in seen {
      assert rest[i - 1].chunkId !in seen';
    }
    forall i, j | 0 <= i < j < |rs| ensures rs[i].chunkId != rs[j].chunkId {
      if i > 0 {
        assert rest[i - 1].chunkId != rest[j - 1].chunkId;
      }
    }
  }

  /** Results keep search order: each result's score is the distance of a
      hit, and results from hits sorted by distance have non-decreasing
      scores, every one of them at least the first hit's distance. */
  lemma {:induction false} QueryScoresSorted(hits: seq<Hit>, threshold: real, metadata: seq<Meta>,
                                            chunks: seq<ExampleRecord>, seen: set<string>)
    requires HitsIn(hits, |metadata|)
    requires SortedByDistance(hits)
    ensures forall i, j :: 0 <= i < j < |QueryFrom(hits, threshold, metadata, chunks, seen)| ==>
      QueryFrom(hits, threshold, metadata, chunks, seen)[i].score <= QueryFrom(hits, threshold, metadata, chunks, seen)[j].score
    ensures forall i :: 0 <= i < |QueryFrom(hits, threshold, metadata, chunks, seen)| ==>
      hits[0].distance <= QueryFrom(hits, threshold, metadata, chunks, seen)[i].score
    decreases |hits|
  {
    if hits != [] {
      var tail := hits[1..];
      var seen' := StepSeen(hits[0], threshold, metadata, seen);
      var rest := QueryFrom(tail, threshold, metadata, chunks, seen');
      var rs := QueryFrom(hits, threshold, metadata, chunks, seen);
      assert SortedByDistance(tail) by {
        forall i, j | 0 <= i < j < |tail| ensures tail[i].distance <= tail[j].distance {
          assert tail[i] == hits[i + 1] && tail[j] == hits[j + 1];
        }
      }
      QueryScoresSorted(tail, threshold, metadata, chunks, seen');
      forall i | 0 <= i < |rest| ensures hits[0].distance <= rest[i].score {
        assert tail != [] && tail[0].distance <= rest[i].score;
        assert hits[0].distance <= hits[1].distance;
      }
      if rs != rest {
        assert rs == [rs[0]] + rest && rs[0].score == hits[0].distance;
        forall i, j | 0 <= i < j < |rs| ensures rs[i].score <= rs[j].score {
          if i > 0 {
            assert rs[i] == rest[i - 1] && rs[j] == rest[j - 1];
          } else {
            assert rs[j] == rest[j - 1];
          }
        }
      }
    }
  }

  /** Shifting by one hit: hit `j + 1` is selected among `hits` exactly when
      hit `j` is selected among the remaining hits, with the first hit's id
      added to the seen set. */
  lemma SelectedShift(hits: seq<Hit>, threshold: real, metadata: seq<Meta>, seen: set<string>, j: int)
    requires HitsIn(hits, |metadata|) && 0 <= j < |hits| - 1
    ensures Selected(hits, threshold, metadata, seen, j + 1) <==>
            Selected(hits[1..], threshold, metadata, StepSeen(hits[0], threshold, metadata, seen), j)
  {
    assert hits[..j + 1][1..] == hits[1..][..j];
    assert hits[..j + 1][0] == hits[0];
  }

  /** Completeness: a selected hit whose record id resolves yields its result. */
  lemma {:induction false} QuerySelectedHitIncluded(hits: seq<Hit>, threshold: real, metadata: seq<Meta>,
                                                   chunks: seq<ExampleRecord>, seen: set<string>, j: int)
    requires HitsIn(hits, |metadata|)
    requires Selected(hits, threshold, metadata, seen, j)
    requires ResultOf(hits, metadata, chunks, j).Some?
    ensures ResultOf(hits, metadata, chunks, j).value in QueryFrom(hits, threshold, metadata, chunks, seen)
    decreases |hits|
  {
    var seen' := StepSeen(hits[0], threshold, metadata, seen);
    if j > 0 {
      SelectedShift(hits, threshold, metadata, seen, j - 1);
      QuerySelectedHitIncluded(hits[1..], threshold, metadata, chunks, seen', j - 1);
      assert ResultOf(hits[1..], metadata, chunks, j - 1) == ResultOf(hits, metadata, chunks, j);
    } else {
      assert hits[..0] == [];
    }
  }

  /** Soundness: every result comes from a selected hit and is that hit's
      result; in particular the first hit within the threshold for a record
      id wins, and later hits on the same record contribute nothing. */
  lemma {:induction false} QueryResultsFromSelectedHits(hits: seq<Hit>, threshold: real, metadata: seq<Meta>,
                                                       chunks: seq<ExampleRecord>, seen: set<string>)
    requires HitsIn(hits, |metadata|)
    ensures forall r :: r in QueryFrom(hits, threshold, metadata, chunks, seen) ==>
      exists j :: Selected(hits, threshold, metadata, seen, j) && ResultOf(hits, metadata, chunks, j) == Some(r)
    decreases |hits|
  {
    if hits != [] {
      var seen' := StepSeen(hits[0], threshold, metadata, seen);
      QueryResultsFromSelectedHits(hits[1..], threshold, metadata, chunks, seen');
      forall r | r in QueryFrom(hits, threshold, metadata, chunks, seen)
        ensures exists j :: Selected(hits, threshold, metadata, seen, j) && ResultOf(hits, metadata, chunks, j) == Some(r)
      {
        assert hits[..0] == [];
        if r !in QueryFrom(hits[1..], threshold, metadata, chunks, seen') {
          assert Selected(hits, threshold, metadata, seen, 0) && ResultOf(hits, metadata, chunks, 0) == Some(r);
        } else {
          var j :| Selected(hits[1..], threshold, metadata, seen', j) && ResultOf(hits[1..], metadata, chunks, j) == Some(r);
          SelectedShift(hits, threshold, metadata, seen, j);
          assert ResultOf(hits[1..], metadata, chunks, j) == ResultOf(hits, metadata, chunks, j + 1);
          assert Selected(hits, threshold, metadata, seen, j + 1);
        }
      }
    }
  }

  /** A hit beyond the threshold is never looked at: changing what its row
      says changes nothing. */
  lemma {:induction false} QueryIgnoresDistantHits(hits: seq<Hit>, threshold: real, metadata: seq<Meta>,
                                                  metadata': seq<Meta>, chunks: seq<ExampleRecord>, seen: set<string>)
    requires HitsIn(hits, |metadata|) && |metadata'| == |metadata|
    requires forall i :: 0 <= i < |hits| && hits[i].distance <= threshold ==>
      metadata'[hits[i].index] == metadata[hits[i].index]
    ensures QueryFrom(hits, threshold, metadata', chunks, seen) == QueryFrom(hits, threshold, metadata, chunks, seen)
    decreases |hits|
  {
    if hits != [] {
      var seen' := StepSeen(hits[0], threshold, metadata, seen);
      assert StepSeen(hits[0], threshold, metadata', seen) == seen';
      QueryIgnoresDistantHits(hits[1..], threshold, metadata, metadata', chunks, seen');
    }
  }

  // ---------------------------------------------------------------------
  // Result dictionaries and the field projection
  // ---------------------------------------------------------------------

  /** A JSON value held in a result dictionary. */
  datatype Value = VText(s: string) | VScore(x: real) | VOutput(o: CircuitOutput)

  /** A dictionary as its key/value pairs in insertion order. */
  type Dict = seq<(string, Value)>

  /** `d.get(key)`: the value of the first pair with that key. */
  function Lookup(d: Dict, key: string): Option<Value>
    decreases |d|
  {
    if d == [] then None else if d[0].0 == key then Some(d[0].1) else Lookup(d[1..], key)
  }

  predicate HasKey(d: Dict, key: string) {
    Lookup(d, key).Some?
  }

  predicate DistinctKeys(d: Dict) {
    forall i, j :: 0 <= i < j < |d| ==> d[i].0 != d[j].0
  }

  lemma {:induction false} LookupAppend(d: Dict, key: string, v: Value, k: string)
    ensures Lookup(d + [(key, v)], k) == if HasKey(d, k) then Lookup(d, k) else if k == key then Some(v) else None
    decreases |d|
  {
    if d != [] {
      assert (d + [(key, v)])[1..] == d[1..] + [(key, v)];
      LookupAppend(d[1..], key, v, k);
    }
  }

  lemma {:induction false} LookupFound(d: Dict, k: string)
    requires HasKey(d, k)
    ensures exists i :: 0 <= i < |d| && d[i] == (k, Lookup(d, k).value)
    decreases |d|
  {
    if d[0].0 != k {
      LookupFound(d[1..], k);
      var i :| 0 <= i < |d[1..]| && d[1..][i] == (k, Lookup(d, k).value);
      assert d[i + 1] == (k, Lookup(d, k).value);
    }
  }

  /** The result as the dictionary `query` builds, keys in that order. */
  function AsDict(r: QueryResult): Dict {
    [ ("matched_node", VText(r.matchedNode)), ("node_id", VText(r.nodeId)), ("chunk_id", VText(r.chunkId)),
      ("score", VScore(r.score)), ("prompt", VText(r.prompt)), ("code", VText(r.code)),
      ("output", VOutput(r.output)), ("circuit_space", VText(r.circuitSpace)) ]
  }

  /** `{key: ch[key] for key in fields if key in ch}`: the requested keys that
      the dictionary has, in request order, each once, with their values. */
  function FilterRecord(ch: Dict, fields: seq<string>): (r: Dict)
    ensures forall k :: HasKey(r, k) <==> k in fields && HasKey(ch, k)
    ensures forall k :: HasKey(r, k) ==> Lookup(r, k) == Lookup(ch, k)
    ensures DistinctKeys(r)
    decreases |fields|
  {
    if fields == [] then []
    else
      var prev := FilterRecord(ch, fields[..|fields| - 1]);
      var key := fields[|fields| - 1];
      assert forall k :: k in fields <==> k in fields[..|fields| - 1] || k == key;
      if HasKey(ch, key) && !HasKey(prev, key) then
        var r := prev + [(key, Lookup(ch, key).value)];
        forall k ensures Lookup(r, k) == if HasKey(prev, k) then Lookup(prev, k) else if k == key then Lookup(ch, key) else None {
          LookupAppend(prev, key, Lookup(ch, key).value, k);
        }
        forall i | 0 <= i < |prev| ensures prev[i].0 != key {
          if prev[i].0 == key {
            LookupOfDistinct(prev, i);
          }
        }
        r
      else
        var r := prev;
        r
  }

  lemma {:induction false} LookupOfDistinct(d: Dict, i: int)
    requires 0 <= i < |d|
    ensures HasKey(d, d[i].0)
    decreases |d|
  {
    if i > 0 && d[0].0 != d[i].0 {
      LookupOfDistinct(d[1..], i - 1);
    }
  }

  /** `filter_rag_context`: one projected dictionary per input dictionary, in order. */
  function FilterRagContext(list: seq<Dict>, fields: seq<string>): (r: seq<Dict>)
    ensures |r| == |list|
    ensures forall i, k :: 0 <= i < |list| ==> (HasKey(r[i], k) <==> k in fields && HasKey(list[i], k))
    ensures forall i, k :: 0 <= i < |list| && HasKey(r[i], k) ==> Lookup(r[i], k) == Lookup(list[i], k)
  {
    seq(|list|, i requires 0 <= i < |list| => FilterRecord(list[i], fields))
  }

  /** Projecting a dictionary onto two distinct keys it has gives exactly
      those two pairs, in the requested order. */
  lemma ProjectTwo(d: Dict, f1: string, f2: string)
    requires HasKey(d, f1) && HasKey(d, f2) && f1 != f2
    ensures FilterRecord(d, [f1, f2]) == [(f1, Lookup(d, f1).value), (f2, Lookup(d, f2).value)]
  {
    assert [f1, f2][..1] == [f1];
    assert [f1][..0] == [];
    assert FilterRecord(d, []) == [];
    var one := FilterRecord(d, [f1]);
    assert one == [(f1, Lookup(d, f1).value)];
    assert !HasKey(one, f2);
  }

  // ---------------------------------------------------------------------
  // Record placement on ingestion
  // ---------------------------------------------------------------------

  /** `n` placeholder records (none for `n <= 0`). */
  function Padding(n: int): (r: seq<ExampleRecord>)
    ensures |r| == if n <= 0 then 0 else n
    ensures forall i :: 0 <= i < |r| ==> r[i] == Placeholder
  {
    if n <= 0 then [] else seq(n, _ => Placeholder)
  }

  /** Where an ingested record goes: appended at index `|chunks|`, written
      over the slot of an index in range, appended after padding for a larger
      index, and appended as is for a negative index. */
  function Place(chunks: seq<ExampleRecord>, chunk: ExampleRecord, idx: int): (r: seq<ExampleRecord>)
    ensures idx < 0 ==> r == chunks + [chunk]
    ensures 0 <= idx ==> |r| == if idx < |chunks| then |chunks| else idx + 1
    ensures 0 <= idx ==> r[idx] == chunk
    ensures forall j :: 0 <= j < |chunks| && j != idx ==> r[j] == chunks[j]
    ensures forall j :: |chunks| <= j < idx ==> r[j] == Placeholder
  {
    if idx == |chunks| then chunks + [chunk]
    else if 0 <= idx < |chunks| then chunks[idx := chunk]
    else chunks + Padding(idx - |chunks|) + [chunk]
  }

  /** The index a record is ingested at: the given one, or the current count. */
  function TargetIndex(chunkIdx: Option<int>, count: int): int {
    chunkIdx.GetOr(count)
  }

  /** Every metadata row resolves to a stored record. */
  ghost predicate RowsResolve(metadata: seq<Meta>, count: int) {
    forall i :: 0 <= i < |metadata| ==> ResolveChunk(metadata[i].chunkId, count).Some?
  }

  /** Ingesting at a non-negative index keeps every row resolvable; the five
      new rows resolve to the ingested record itself. */
  lemma IngestKeepsRowsResolvable(metadata: seq<Meta>, chunks: seq<ExampleRecord>, chunk: ExampleRecord, idx: int)
    requires RowsResolve(metadata, |chunks|) && idx >= 0
    ensures var chunks' := Place(chunks, chunk, idx);
      var metadata' := metadata + MetaRows(ChunkToNodes(chunk, idx));
      RowsResolve(metadata', |chunks'|) &&
      chunks'[idx] == chunk &&
      forall i :: |metadata| <= i < |metadata'| ==> ResolveChunk(metadata'[i].chunkId, |chunks'|) == Some(idx)
  {
    var chunks' := Place(chunks, chunk, idx);
    var metadata' := metadata + MetaRows(ChunkToNodes(chunk, idx));
    ResolveChunkId(idx, |chunks'|);
    forall i | 0 <= i < |metadata'|
      ensures ResolveChunk(metadata'[i].chunkId, |chunks'|).Some?
    {
      if i < |metadata| {
        assert metadata'[i] == metadata[i];
        ResolveMonotone(metadata[i].chunkId, |chunks|, |chunks'|);
      }
    }
  }

  lemma ResolveMonotone(chunkId: string, count: int, count': int)
    requires count <= count' && ResolveChunk(chunkId, count).Some?
    ensures ResolveChunk(chunkId, count') == ResolveChunk(chunkId, count)
  {
  }

  /** Ingesting at a negative index appends the record, but its five rows
      name `chunk_<idx>` and never resolve: the record is unreachable by query. */
  lemma NegativeIndexRowsDangle(metadata: seq<Meta>, chunks: seq<ExampleRecord>, chunk: ExampleRecord, idx: int)
    requires idx < 0
    ensures var chunks' := Place(chunks, chunk, idx);
      var metadata' := metadata + MetaRows(ChunkToNodes(chunk, idx));
      |chunks'| == |chunks| + 1 &&
      forall i :: |metadata| <= i < |metadata'| ==> ResolveChunk(metadata'[i].chunkId, |chunks'|) == None
  {
    ResolveChunkId(idx, |chunks| + 1);
  }

  /** A record id that no hit within the threshold carries is never marked seen. */
  lemma {:induction false} SeenAfterAvoids(hits: seq<Hit>, threshold: real, metadata: seq<Meta>,
                                          seen: set<string>, id: string)
    requires HitsIn(hits, |metadata|) && id !in seen
    requires forall i :: 0 <= i < |hits| && hits[i].distance <= threshold ==> metadata[hits[i].index].chunkId != id
    ensures id !in SeenAfter(hits, threshold, metadata, seen)
    decreases |hits|
  {
    if hits != [] {
      assert hits[0].distance <= threshold ==> metadata[hits[0].index].chunkId != id;
      forall i | 0 <= i < |hits[1..]| && hits[1..][i].distance <= threshold
        ensures metadata[hits[1..][i].index].chunkId != id
      {
        assert hits[1..][i] == hits[i + 1];
      }
      SeenAfterAvoids(hits[1..], threshold, metadata, StepSeen(hits[0], threshold, metadata, seen), id);
    }
  }

  /** When hit `j` is within the threshold and carries record id `id`, the
      first such hit is the selected one for `id`. */
  lemma FirstCarrierSelected(hits: seq<Hit>, threshold: real, metadata: seq<Meta>, id: string, j: int)
    returns (j0: int)
    requires HitsIn(hits, |metadata|)
    requires 0 <= j < |hits| && hits[j].distance <= threshold && metadata[hits[j].index].chunkId == id
    ensures 0 <= j0 <= j && metadata[hits[j0].index].chunkId == id
    ensures Selected(hits, threshold, metadata, {}, j0)
  {
    j0 := 0;
    while j0 < j && !(hits[j0].distance <= threshold && metadata[hits[j0].index].chunkId == id)
      invariant 0 <= j0 <= j
      invariant forall i :: 0 <= i < j0 && hits[i].distance <= threshold ==> metadata[hits[i].index].chunkId != id
    {
      j0 := j0 + 1;
    }
    var before := hits[..j0];
    forall i | 0 <= i < |before| && before[i].distance <= threshold
      ensures metadata[before[i].index].chunkId != id
    {
      assert before[i] == hits[i];
    }
    SeenAfterAvoids(before, threshold, metadata, {}, id);
  }

  /** After ingesting a record at a non-negative index, any search in which
      some hit within the threshold lands on one of the five new rows returns
      a result for the ingested record, carrying its fields (with the usual
      defaults), wherever that hit sits among the others. */
  lemma IngestedRecordIsFound(metadata: seq<Meta>, chunks: seq<ExampleRecord>, chunk: ExampleRecord,
                              idx: int, hits: seq<Hit>, threshold: real, j: int)
    requires idx >= 0
    requires HitsIn(hits, |metadata| + 5)
    requires 0 <= j < |hits| && hits[j].distance <= threshold && |metadata| <= hits[j].index
    ensures var metadata' := metadata + MetaRows(ChunkToNodes(chunk, idx));
      var chunks' := Place(chunks, chunk, idx);
      exists r :: r in QueryFrom(hits, threshold, metadata', chunks', {}) &&
        r.chunkId == ChunkId(idx) && r.prompt == chunk.prompt.GetOr("") && r.code == chunk.code.GetOr("") &&
        r.output == chunk.output.GetOr(EmptyOutput) && r.circuitSpace == chunk.circuitSpace.GetOr("")
  {
    var nodes := ChunkToNodes(chunk, idx);
    var metadata' := metadata + MetaRows(nodes);
    var chunks' := Place(chunks, chunk, idx);
    assert metadata'[hits[j].index] == MetaOf(nodes[hits[j].index - |metadata|]);
    var j0 := FirstCarrierSelected(hits, threshold, metadata', ChunkId(idx), j);
    ResolveChunkId(idx, |chunks'|);
    var r := MakeResult(hits[j0], metadata'[hits[j0].index], chunks'[idx]);
    assert ResultOf(hits, metadata', chunks', j0) == Some(r);
    QuerySelectedHitIncluded(hits, threshold, metadata', chunks', {}, j0);
  }

  // ---------------------------------------------------------------------
  // The store
  // ---------------------------------------------------------------------

  type Vector = seq<real>

  /** The statistics `ingest_feedback_chunk` returns (its `status` is always `"ok"`). */
  datatype IngestSummary = IngestSummary(chunkId: string, chunkIndex: int, newNodesAdded: nat,
                                         totalNodes: nat, totalChunks: nat)

  /** Stacking new rows whose width differs from the stored rows fails. */
  datatype IngestError = DimensionMismatch

  /** Every row has width `width`. */
  predicate Rows(vectors: seq<Vector>, width: int) {
    forall i :: 0 <= i < |vectors| ==> |vectors[i]| == width
  }

  /** Whether new rows can be stacked under the stored ones. */
  predicate Stackable(vectors: seq<Vector>, rows: seq<Vector>) {
    vectors == [] || Rows(rows, |vectors[0]|)
  }

  /** The in-memory store: the embedding rows (the search index holds the
      same rows), one metadata row per node, and the example records. */
  class ExampleStore {
    var vectors: seq<Vector>
    var metadata: seq<Meta>
    var chunks: seq<ExampleRecord>

    /** The store as loaded. */
    constructor (vectors: seq<Vector>, metadata: seq<Meta>, chunks: seq<ExampleRecord>)
      ensures this.vectors == vectors && this.metadata == metadata && this.chunks == chunks
    {
      this.vectors := vectors;
      this.metadata := metadata;
      this.chunks := chunks;
    }

    /** One metadata row per embedding row. */
    ghost predicate Aligned()
      reads this
    {
      |vectors| == |metadata|
    }

    /** Every metadata row names a stored record. */
    ghost predicate Resolvable()
      reads this
    {
      RowsResolve(metadata, |chunks|)
    }

    /** `query`'s loop over the hits of one search, in search order. */
    method Query(hits: seq<Hit>, threshold: real) returns (results: seq<QueryResult>)
      requires HitsIn(hits, |metadata|)
      ensures results == QueryFrom(hits, threshold, metadata, chunks, {})
    {
      results := [];
      var seen: set<string> := {};
      var i := 0;
      while i < |hits|
        invariant 0 <= i <= |hits|
        invariant results + QueryFrom(hits[i..], threshold, metadata, chunks, seen) == QueryFrom(hits, threshold, metadata, chunks, {})
      {
        assert hits[i..][0] == hits[i] && hits[i..][1..] == hits[i + 1..];
        ghost var before := seen;
        var distance := hits[i].distance;
        if distance <= threshold {
          var nodeMeta := metadata[hits[i].index];
          var chunkId := nodeMeta.chunkId;
          if chunkId !in seen {
            seen := seen + {chunkId};
            var parsed := ChunkIndexOf(chunkId);
            if parsed.Some? && 0 <= parsed.value < |chunks| {
              results := results + [MakeResult(hits[i], nodeMeta, chunks[parsed.value])];
            } else {
              assert ResolveChunk(chunkId, |chunks|) == None;
            }
          } else {
            assert seen == before + {chunkId};
          }
        }
        assert seen == StepSeen(hits[i], threshold, metadata, before);
        i := i + 1;
      }
    }

    /** The metadata loop of `ingest_feedback_chunk`: one row per node, in order. */
    method AppendMetadata(nodes: seq<Node>)
      modifies this
      ensures metadata == old(metadata) + MetaRows(nodes)
      ensures vectors == old(vectors) && chunks == old(chunks)
    {
      var i := 0;
      while i < |nodes|
        invariant 0 <= i <= |nodes|
        invariant metadata == old(metadata) + MetaRows(nodes[..i])
        invariant vectors == old(vectors) && chunks == old(chunks)
      {
        assert nodes[..i + 1][..i] == nodes[..i];
        metadata := metadata + [MetaOf(nodes[i])];
        i := i + 1;
      }
      assert nodes[..|nodes|] == nodes;
    }

    /** The placement step of `ingest_feedback_chunk`. */
    method PlaceRecord(chunk: ExampleRecord, idx: int)
      modifies this
      ensures chunks == Place(old(chunks), chunk, idx)
      ensures vectors == old(vectors) && metadata == old(metadata)
    {
      if idx == |chunks| {
        chunks := chunks + [chunk];
      } else if 0 <= idx < |chunks| {
        chunks := chunks[idx := chunk];
      } else {
        while |chunks| < idx
          invariant |old(chunks)| <= |chunks| <= if idx > |old(chunks)| then idx else |old(chunks)|
          invariant chunks == old(chunks) + Padding(|chunks| - |old(chunks)|)
          invariant vectors == old(vectors) && metadata == old(metadata)
          decreases idx - |chunks|
        {
          chunks := chunks + [Placeholder];
        }
        if idx < 0 {
          assert Padding(|chunks| - |old(chunks)|) == [] == Padding(idx - |old(chunks)|);
        }
        chunks := chunks + [chunk];
      }
    }

    /** `ingest_feedback_chunk`. The new rows are the embeddings of the
        record's five node texts; on success five rows and five metadata
        rows are appended in node order and the record is placed. */
    method Ingest(chunk: ExampleRecord, chunkIdx: Option<int>, embed: string -> Vector)
      returns (r: Result<IngestSummary, IngestError>)
      modifies this
      ensures var idx := TargetIndex(chunkIdx, old(|chunks|));
        var nodes := ChunkToNodes(chunk, idx);
        var rows := EmbedTexts(nodes, embed);
        if Stackable(old(vectors), rows) then
          vectors == old(vectors) + rows &&
          metadata == old(metadata) + MetaRows(nodes) &&
          chunks == Place(old(chunks), chunk, idx) &&
          r == Ok(IngestSummary(ChunkId(idx), idx, 5, |vectors|, |chunks|))
        else
          r == Err(DimensionMismatch) && unchanged(this)
      ensures r.Ok? && old(Aligned()) ==> Aligned()
    {
      var idx := if chunkIdx.Some? then chunkIdx.value else |chunks|;
      var chunkId := ChunkId(idx);
      var nodes := ChunkToNodes(chunk, idx);
      var rows := EmbedTexts(nodes, embed);
      if !Stackable(vectors, rows) {
        return Err(DimensionMismatch);
      }
      vectors := vectors + rows;
      AppendMetadata(nodes);
      PlaceRecord(chunk, idx);
      r := Ok(IngestSummary(chunkId, idx, |nodes|, |vectors|, |chunks|));
    }
  }
}
