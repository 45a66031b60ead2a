/**
 * The embedding index (`VectorStore`): an append-only list of text chunks
 * kept in lock-step with a flat L2 index whose row i embeds chunk i, plus
 * the pair of files it is persisted to.
 *
 * The sentence-embedding model and the index's nearest-neighbour search are
 * functions handed to the constructor; the search promises only the shape of
 * its answer (type `Searcher`). The persistence directory is the
 * ghost field `disk`; the outcome of each file operation is chosen freely,
 * because any of them may raise and the store swallows every such error.
 */
module VectorStores {
  import opened Values

  /** Width of the vectors the embedding model produces and of a freshly created index. */
  const EmbeddingDimension: nat := 384

  /** An embedding vector; its float32 coordinates are abstracted to integers. */
  type Embedding = seq<int>

  /** `faiss.IndexFlatL2`: its dimension and its rows, row i being the i-th vector added. */
  datatype FlatIndex = FlatIndex(d: nat, rows: seq<Embedding>)

  /** One entry of a search answer: a distance and a row ordinal (-1 for "no neighbour"). */
  datatype Neighbor = Neighbor(distance: int, ordinal: int)

  /** One result of `retrieve`: `{'text', 'distance', 'index'}`. */
  datatype Hit = Hit(text: string, distance: int, index: nat)

  /** A persisted file as a later load finds it. */
  datatype Stored<T> = Missing | Unreadable | Holds(content: T)

  /** The persistence directory: whether it exists, the index file and the chunk file. */
  datatype Disk = Disk(dirExists: bool, indexFile: Stored<FlatIndex>, chunksFile: Stored<seq<string>>)

  /** The in-memory state a store starts from. */
  datatype Loaded = Loaded(chunks: seq<string>, index: FlatIndex)

  function EmptyIndex(): FlatIndex {
    FlatIndex(EmbeddingDimension, [])
  }

  function Min(a: int, b: int): int {
    if a < b then a else b
  }

  /** `_load_or_create_index`: load both files when both exist; otherwise, or
      when reading either one raises, start from an empty index. The loaded
      chunk count is not compared with the loaded index size. */
  function LoadOrCreate(disk: Disk): (r: Loaded)
    ensures disk.indexFile.Holds? && disk.chunksFile.Holds? ==>
      r == Loaded(disk.chunksFile.content, disk.indexFile.content)
    ensures !(disk.indexFile.Holds? && disk.chunksFile.Holds?) ==>
      r.chunks == [] && r.index.rows == [] && r.index.d == EmbeddingDimension
  {
    if disk.indexFile != Missing && disk.chunksFile != Missing then
      match (disk.indexFile, disk.chunksFile)
      case (Holds(index), Holds(chunks)) => Loaded(chunks, index)
      case _ => Loaded([], EmptyIndex())
    else
      Loaded([], EmptyIndex())
  }

  /** Loading never compares the two files: a chunk file shorter than the index is accepted. */
  lemma LoadAcceptsMismatchedFiles(chunks: seq<string>, index: FlatIndex)
    requires |chunks| < |index.rows|
    ensures var r := LoadOrCreate(Disk(true, Holds(index), Holds(chunks)));
      |r.chunks| < |r.index.rows|
  {
  }

  /** How `_save_index` ended: both files written, or the index write or the
      chunk write raised, leaving that file as it was or truncated. */
  datatype SaveOutcome = Saved | IndexWriteFailed(truncated: bool) | ChunksWriteFailed(truncated: bool)

  /** The directory after `_save_index` with the given outcome. Without the
      directory both writes raise before anything is written. */
  function AfterSave(before: Disk, index: FlatIndex, chunks: seq<string>, outcome: SaveOutcome): (after: Disk)
    ensures after.dirExists == before.dirExists
    ensures !before.dirExists ==> after == before
    ensures before.dirExists && outcome == Saved ==> LoadOrCreate(after) == Loaded(chunks, index)
    ensures outcome.IndexWriteFailed? ==> after.chunksFile == before.chunksFile
  {
    if !before.dirExists then before
    else
      match outcome
      case Saved => before.(indexFile := Holds(index), chunksFile := Holds(chunks))
      case IndexWriteFailed(truncated) =>
        if truncated then before.(indexFile := Unreadable) else before
      case ChunksWriteFailed(truncated) =>
        before.(indexFile := Holds(index), chunksFile := if truncated then Unreadable else before.chunksFile)
  }

  /** A save whose chunk write raises after the index write succeeded leaves
      the new index beside the old chunk list; a later load takes both. */
  lemma TornSaveReloadsMismatched(before: Disk, index: FlatIndex, chunks: seq<string>)
    requires before.dirExists && before.chunksFile.Holds?
    ensures LoadOrCreate(AfterSave(before, index, chunks, ChunksWriteFailed(false)))
      == Loaded(before.chunksFile.content, index)
  {
  }

  /** How far `clear` got before an OS call raised. */
  datatype ClearOutcome = IndexRemoveFailed | ChunksRemoveFailed | DirRemoveFailed | Cleared

  /** The directory after `clear`: it removes the index file, the chunk file
      and the directory, in that order, stopping at the first failure. */
  function AfterClear(before: Disk, outcome: ClearOutcome): (after: Disk)
    ensures outcome == IndexRemoveFailed ==> after == before
    ensures outcome != IndexRemoveFailed ==> LoadOrCreate(after) == Loaded([], EmptyIndex())
    ensures outcome == Cleared ==> after == Disk(false, Missing, Missing)
  {
    match outcome
    case IndexRemoveFailed => before
    case ChunksRemoveFailed => before.(indexFile := Missing)
    case DirRemoveFailed => before.(indexFile := Missing, chunksFile := Missing)
    case Cleared => Disk(false, Missing, Missing)
  }

  /** Once `clear` has removed the directory, no later save persists anything. */
  lemma ClearedDirectoryStaysEmpty(before: Disk, index: FlatIndex, chunks: seq<string>, outcome: SaveOutcome)
    ensures var cleared := AfterClear(before, Cleared);
      AfterSave(cleared, index, chunks, outcome) == cleared
      && LoadOrCreate(AfterSave(cleared, index, chunks, outcome)) == Loaded([], EmptyIndex())
  {
  }

  /** Clearing an already cleared directory changes nothing, however far it gets. */
  lemma ClearIsIdempotent(before: Disk, outcome: ClearOutcome)
    ensures AfterClear(AfterClear(before, Cleared), outcome) == AfterClear(before, Cleared)
  {
  }

  /** `[chunk for chunk in chunks if chunk and chunk.strip()]` */
  function NonBlank(chunks: seq<string>): (r: seq<string>)
    ensures |r| <= |chunks|
    ensures forall c :: c in r ==> c in chunks && Strip(c) != ""
    ensures forall c :: c in chunks && Strip(c) != "" ==> c in r
  {
    if chunks == [] then []
    else (if Strip(chunks[0]) != "" then [chunks[0]] else []) + NonBlank(chunks[1..])
  }

  /** The filter keeps order: filtering a concatenation concatenates the filtered parts. */
  lemma {:induction false} NonBlankDistributes(a: seq<string>, b: seq<string>)
    ensures NonBlank(a + b) == NonBlank(a) + NonBlank(b)
  {
    if a != [] {
      assert (a + b)[1..] == a[1..] + b;
      NonBlankDistributes(a[1..], b);
    } else {
      assert a + b == b;
    }
  }

  /** How the batched call `self.model.encode(valid_chunks)` is abstracted:
      the model embeds each text on its own, and the batch is those
      embeddings in order. */
  function EncodeAll(encode: string -> Embedding, chunks: seq<string>): seq<Embedding> {
    seq(|chunks|, i requires 0 <= i < |chunks| => encode(chunks[i]))
  }

  /** `index.add` accepts the vectors only when they have the index's dimension. */
  predicate FitsIndex(index: FlatIndex, es: seq<Embedding>) {
    forall e :: e in es ==> |e| == index.d
  }

  /** The contract of `index.search(q, k)`: k entries, nearest first; each
      ordinal is -1 or a row of the index, and no row is reported twice. */
  ghost predicate SearchAnswer(index: FlatIndex, k: nat, answer: seq<Neighbor>) {
    && |answer| == k
    && (forall i :: 0 <= i < k ==> -1 <= answer[i].ordinal < |index.rows|)
    && (forall i, j :: 0 <= i < j < k ==> answer[i].distance <= answer[j].distance)
    && (forall i, j :: 0 <= i < j < k && answer[i].ordinal != -1 ==> answer[i].ordinal != answer[j].ordinal)
  }

  /** The exact k-nearest-neighbour search of the index, as a function that
      promises only the shape of its answer. It is defined for positive k and
      a query of the index's dimension; for any other call the library raises. */
  type Searcher = f: (FlatIndex, Embedding, nat) -> seq<Neighbor>
    | forall index: FlatIndex, query: Embedding, k: nat :: |query| == index.d && 0 < k ==> SearchAnswer(index, k, f(index, query, k))
    witness (index: FlatIndex, query: Embedding, k: nat) => seq(k, _ => Neighbor(0, -1))

  /** An answer entry that names a stored chunk (the guard in `retrieve`). */
  predicate Names(n: Neighbor, chunks: seq<string>) {
    0 <= n.ordinal < |chunks|
  }

  function ToHit(n: Neighbor, chunks: seq<string>): Hit
    requires Names(n, chunks)
  {
    Hit(chunks[n.ordinal], n.distance, n.ordinal)
  }

  /** The results the loop in `retrieve` builds from an answer: one hit per
      entry that names a stored chunk, in the answer's order. */
  function Collect(answer: seq<Neighbor>, chunks: seq<string>): (hits: seq<Hit>)
    ensures |hits| <= |answer|
    ensures forall h :: h in hits ==> h.index < |chunks| && h.text == chunks[h.index]
  {
    if answer == [] then []
    else
      var last := answer[|answer| - 1];
      Collect(answer[..|answer| - 1], chunks) + (if Names(last, chunks) then [ToHit(last, chunks)] else [])
  }

  /** The answer positions whose entries name a stored chunk, in increasing order. */
  function KeptPositions(answer: seq<Neighbor>, chunks: seq<string>): seq<nat> {
    if answer == [] then []
    else
      var n := |answer| - 1;
      KeptPositions(answer[..n], chunks) + (if Names(answer[n], chunks) then [n] else [])
  }

  /** `Collect` keeps exactly the entries that name a stored chunk, in the
      answer's order: the i-th hit comes from the i-th kept position. */
  lemma {:induction false} CollectIsOrderedFilter(answer: seq<Neighbor>, chunks: seq<string>)
    ensures var pos := KeptPositions(answer, chunks);
      var hits := Collect(answer, chunks);
      && |pos| == |hits|
      && (forall i :: 0 <= i < |pos| ==>
            pos[i] < |answer| && Names(answer[pos[i]], chunks) && hits[i] == ToHit(answer[pos[i]], chunks))
      && (forall i, j :: 0 <= i < j < |pos| ==> pos[i] < pos[j])
      && (forall p :: 0 <= p < |answer| && Names(answer[p], chunks) ==> p in pos)
  {
    if answer != [] {
      var n := |answer| - 1;
      var prefix := answer[..n];
      CollectIsOrderedFilter(prefix, chunks);
      var pos0, hits0 := KeptPositions(prefix, chunks), Collect(prefix, chunks);
      var pos, hits := KeptPositions(answer, chunks), Collect(answer, chunks);
      if Names(answer[n], chunks) {
        assert pos == pos0 + [n];
        assert hits == hits0 + [ToHit(answer[n], chunks)];
        forall i | 0 <= i < |pos|
          ensures pos[i] < |answer| && Names(answer[pos[i]], chunks) && hits[i] == ToHit(answer[pos[i]], chunks)
        {
          if i < |pos0| {
            assert pos[i] == pos0[i] && hits[i] == hits0[i];
            assert answer[pos0[i]] == prefix[pos0[i]];
          }
        }
        forall p | 0 <= p < |answer| && Names(answer[p], chunks)
          ensures p in pos
        {
          if p < n {
            assert prefix[p] == answer[p];
          }
        }
      } else {
        assert pos == pos0 && hits == hits0;
        forall i | 0 <= i < |pos|
          ensures pos[i] < |answer| && Names(answer[pos[i]], chunks) && hits[i] == ToHit(answer[pos[i]], chunks)
        {
          assert answer[pos0[i]] == prefix[pos0[i]];
        }
        forall p | 0 <= p < |answer| && Names(answer[p], chunks)
          ensures p in pos
        {
          assert prefix[p] == answer[p];
        }
      }
    }
  }

  /** Results keep the answer's order: an answer sorted by distance gives sorted results. */
  lemma CollectKeepsOrder(answer: seq<Neighbor>, chunks: seq<string>)
    requires forall i, j :: 0 <= i < j < |answer| ==> answer[i].distance <= answer[j].distance
    ensures var hits := Collect(answer, chunks);
      forall i, j :: 0 <= i < j < |hits| ==> hits[i].distance <= hits[j].distance
  {
    CollectIsOrderedFilter(answer, chunks);
    var pos := KeptPositions(answer, chunks);
    var hits := Collect(answer, chunks);
    forall i, j | 0 <= i < j < |hits|
      ensures hits[i].distance <= hits[j].distance
    {
      assert hits[i] == ToHit(answer[pos[i]], chunks) && hits[j] == ToHit(answer[pos[j]], chunks);
    }
  }

  /** An answer that reports no row twice gives results with distinct indices. */
  lemma CollectKeepsDistinct(answer: seq<Neighbor>, chunks: seq<string>)
    requires forall i, j :: 0 <= i < j < |answer| && answer[i].ordinal != -1 ==> answer[i].ordinal != answer[j].ordinal
    ensures var hits := Collect(answer, chunks);
      forall i, j :: 0 <= i < j < |hits| ==> hits[i].index != hits[j].index
  {
    CollectIsOrderedFilter(answer, chunks);
    var pos := KeptPositions(answer, chunks);
    var hits := Collect(answer, chunks);
    forall i, j | 0 <= i < j < |hits|
      ensures hits[i].index != hits[j].index
    {
      assert hits[i] == ToHit(answer[pos[i]], chunks) && hits[j] == ToHit(answer[pos[j]], chunks);
    }
  }

  /** What `retrieve(query, top_k)` returns on a store with these chunks and
      this index. An empty index, a non-positive `top_k` or a query of the
      wrong dimension gives no results (the last two make the search raise,
      which the handler turns into []); otherwise the search is asked for
      `min(top_k, ntotal)` neighbours. */
  function Results(encode: string -> Embedding, search: Searcher, chunks: seq<string>, index: FlatIndex,
                   query: string, topK: int): (hits: seq<Hit>)
    ensures index.rows == [] || topK <= 0 ==> hits == []
    ensures |encode(query)| != index.d ==> hits == []
    ensures |index.rows| > 0 && topK > 0 && |encode(query)| == index.d ==>
      hits == Collect(search(index, encode(query), Min(topK, |index.rows|)), chunks)
    ensures |hits| <= Min(topK, |index.rows|) || hits == []
    ensures forall h :: h in hits ==> h.index < |chunks| && h.text == chunks[h.index]
    ensures forall i, j :: 0 <= i < j < |hits| ==> hits[i].distance <= hits[j].distance
    ensures forall i, j :: 0 <= i < j < |hits| ==> hits[i].index != hits[j].index
  {
    var k := Min(topK, |index.rows|);
    if |index.rows| == 0 || k <= 0 || |encode(query)| != index.d then []
    else
      var answer := search(index, encode(query), k);
      CollectKeepsOrder(answer, chunks);
      CollectKeepsDistinct(answer, chunks);
      Collect(answer, chunks)
  }

  class VectorStore {
    /** The sentence-embedding model: `self.model.encode` on one text. */
    const encode: string -> Embedding
    /** `self.index.search` */
    const search: Searcher
    var textChunks: seq<string>
    var index: FlatIndex
    /** The persistence directory as a later process would find it. */
    ghost var disk: Disk

    /** Chunk count equals index size. Loading does not enforce it. */
    ghost predicate Consistent()
      reads this
    {
      |textChunks| == |index.rows|
    }

    /** `__init__` with `_load_or_create_index`; creating the directory may fail silently. */
    constructor (encode: string -> Embedding, search: Searcher, disk: Disk)
      ensures this.encode == encode && this.search == search
      ensures textChunks == LoadOrCreate(disk).chunks && index == LoadOrCreate(disk).index
      ensures this.disk == disk || this.disk == disk.(dirExists := true)
    {
      this.encode := encode;
      this.search := search;
      if disk.indexFile != Missing && disk.chunksFile != Missing {
        match (disk.indexFile, disk.chunksFile) {
          case (Holds(ix), Holds(cs)) =>
            index := ix;
            textChunks := cs;
          case _ =>
            index := EmptyIndex();
            textChunks := [];
        }
        this.disk := disk;
      } else {
        index := EmptyIndex();
        textChunks := [];
        ghost var made: bool :| true;
        this.disk := if made then disk.(dirExists := true) else disk;
      }
    }

    /** `_save_index`: writes both files; any error is swallowed. */
    method SaveIndex()
      modifies this`disk
      ensures exists outcome :: disk == AfterSave(old(disk), index, textChunks, outcome)
    {
      ghost var outcome: SaveOutcome :| true;
      disk := AfterSave(disk, index, textChunks, outcome);
      assert disk == AfterSave(old(disk), index, textChunks, outcome);
    }

    /** `add_documents`: drop blank chunks; if any remain, embed them, append
        the vectors and the chunks in lock-step, and save. A dimension
        mismatch makes `index.add` raise before anything changes. */
    method AddDocuments(chunks: seq<string>) returns (failure: Option<PyError>)
      modifies this
      ensures NonBlank(chunks) == [] ==>
        failure == None && textChunks == old(textChunks) && index == old(index) && disk == old(disk)
      ensures failure.Some? <==> NonBlank(chunks) != [] && !FitsIndex(old(index), EncodeAll(encode, NonBlank(chunks)))
      ensures failure.Some? ==> textChunks == old(textChunks) && index == old(index) && disk == old(disk)
      ensures failure.None? && NonBlank(chunks) != [] ==>
        && textChunks == old(textChunks) + NonBlank(chunks)
        && index == old(index).(rows := old(index).rows + EncodeAll(encode, NonBlank(chunks)))
        && exists outcome :: disk == AfterSave(old(disk), index, textChunks, outcome)
      ensures old(Consistent()) ==> Consistent()
      ensures old(Consistent()) && failure.None? ==>
        forall i :: old(|textChunks|) <= i < |textChunks| ==> index.rows[i] == encode(textChunks[i])
    {
      var valid := NonBlank(chunks);
      if valid == [] {
        return None;
      }
      var embeddings := EncodeAll(encode, valid);
      if !FitsIndex(index, embeddings) {
        return Some(PyError("AssertionError", ""));
      }
      index := index.(rows := index.rows + embeddings);
      textChunks := textChunks + valid;
      SaveIndex();
      failure := None;
    }

    /** `retrieve(query, top_k)` */
    method Retrieve(query: string, topK: int := 3) returns (hits: seq<Hit>)
      ensures hits == Results(encode, search, textChunks, index, query, topK)
    {
      if |index.rows| == 0 {
        return [];
      }
      var k := Min(topK, |index.rows|);
      var q := encode(query);
      if k <= 0 || |q| != index.d {
        return [];
      }
      var answer := search(index, q, k);
      hits := [];
      var i := 0;
      while i < |answer|
        invariant 0 <= i <= |answer|
        invariant hits == Collect(answer[..i], textChunks)
      {
        var n := answer[i];
        assert answer[..i + 1][..i] == answer[..i];
        if 0 <= n.ordinal < |textChunks| {
          hits := hits + [Hit(textChunks[n.ordinal], n.distance, n.ordinal)];
        }
        i := i + 1;
      }
      assert answer[..|answer|] == answer;
    }

    /** `clear`: removes the files and the directory, swallowing errors; the
        in-memory chunks and index are left as they are. */
    method Clear()
      modifies this`disk
      ensures textChunks == old(textChunks) && index == old(index)
      ensures exists outcome :: disk == AfterClear(old(disk), outcome)
    {
      ghost var outcome: ClearOutcome :| true;
      disk := AfterClear(disk, outcome);
      assert disk == AfterClear(old(disk), outcome);
    }

    /** `get_stats` */
    function GetStats(): (stats: Value)
      reads this
      ensures stats.Dict? && stats.entries.Keys == {"total_documents", "index_size", "embedding_dimension"}
      ensures Consistent() <==> stats.entries["total_documents"] == stats.entries["index_size"]
      ensures stats.entries["total_documents"] == Num(|textChunks|) && stats.entries["index_size"] == Num(|index.rows|)
      ensures stats.entries["embedding_dimension"] == Num(index.d)
    {
      Dict(map["total_documents" := Num(|textChunks|), "index_size" := Num(|index.rows|),
               "embedding_dimension" := Num(index.d)])
    }
  }
}
