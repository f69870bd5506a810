/** `SemanticSearchEngine` of src/search_engine.py: loading the embeddings
    file with validation of the vector lengths against the first record, and
    cosine-similarity search over the loaded records. The cosine similarity is
    an abstract function of two vectors of equal length. */
module SemanticSearch {
  import opened Common
  import opened Records
  import opened Ranking
  import opened Matching
  import opened Embeddings
  import opened Store

  /** The parsed top level of the embeddings file: a bare list of records or
      a dict holding it under "embeddings". */
  datatype Top = RecordList(records: seq<Record>) | Wrapped(records: seq<Record>)

  /** The embeddings file as `_load_embeddings` finds it. */
  datatype EmbeddingsFile = Missing | ZeroBytes | Corrupt | Parsed(top: Top)

  /** The warnings and errors the loader shows. */
  datatype Diagnostic =
    | NoEmbeddings
    | InvalidFile
    | EmptyFirstRecord
    | Skipped(participant: string, expected: nat, found: nat)

  datatype Loaded = Loaded(data: seq<Record>, log: seq<Diagnostic>)

  function HasDim(n: nat): Record -> bool {
    (x: Record) => |x.embedding| == n
  }

  /** The warning for a record whose vector length is not `n`, if it is not. */
  function SkipNote(x: Record, n: nat): seq<Diagnostic> {
    if |x.embedding| == n then [] else [Skipped(x.participant, n, |x.embedding|)]
  }

  /** The skip warnings of the validation loop, in order. */
  function Skips(rs: seq<Record>, n: nat): seq<Diagnostic>
    decreases |rs|
  {
    if rs == [] then [] else Skips(rs[..|rs| - 1], n) + SkipNote(rs[|rs| - 1], n)
  }

  /** `_load_embeddings`: nothing for a missing, empty or unparsable file, for
      an empty list and for a first record with an empty vector; otherwise the
      records whose vector has the first record's length. */
  function Load(file: EmbeddingsFile): (r: Loaded)
    ensures r.data != [] ==> |r.data[0].embedding| > 0
    ensures forall x :: x in r.data ==> |x.embedding| == |r.data[0].embedding|
  {
    match file
    case Missing => Loaded([], [NoEmbeddings])
    case ZeroBytes => Loaded([], [NoEmbeddings])
    case Corrupt => Loaded([], [InvalidFile])
    case Parsed(top) =>
      var rs := top.records;
      if rs == [] then Loaded([], [])
      else if |rs[0].embedding| == 0 then Loaded([], [EmptyFirstRecord])
      else
        var n := |rs[0].embedding|;
        FilterHead(rs, HasDim(n));
        Loaded(Filter(rs, HasDim(n)), Skips(rs, n))
  }

  /** The first record always survives validation. */
  lemma LoadKeepsFirst(top: Top)
    requires top.records != [] && |top.records[0].embedding| > 0
    ensures Load(Parsed(top)).data != [] && Load(Parsed(top)).data[0] == top.records[0]
  {
    FilterHead(top.records, HasDim(|top.records[0].embedding|));
  }

  /** The kept records stay in file order: those kept from the first `j`
      records come before those kept from the rest. */
  lemma LoadKeepsOrder(top: Top, j: nat)
    requires top.records != [] && |top.records[0].embedding| > 0 && j <= |top.records|
    ensures var n := |top.records[0].embedding|;
      Load(Parsed(top)).data == Filter(top.records[..j], HasDim(n)) + Filter(top.records[j..], HasDim(n))
  {
    var rs := top.records;
    assert rs == rs[..j] + rs[j..];
    FilterAppend(rs[..j], rs[j..], HasDim(|rs[0].embedding|));
  }

  /** A file whose vectors all have the first record's length loads whole
      and in order. */
  lemma LoadAllValid(top: Top)
    requires top.records != [] && |top.records[0].embedding| > 0
    requires forall i :: 0 <= i < |top.records| ==> |top.records[i].embedding| == |top.records[0].embedding|
    ensures Load(Parsed(top)).data == top.records
  {
    FilterAllPass(top.records, HasDim(|top.records[0].embedding|));
  }

  /** Every record is either kept or reported, never both: the skip warnings
      name exactly the records of another length, with both lengths. */
  lemma {:induction false} SkipsPartition(rs: seq<Record>, n: nat)
    ensures |Filter(rs, HasDim(n))| + |Skips(rs, n)| == |rs|
    ensures forall d :: d in Skips(rs, n) ==> d.Skipped? && d.expected == n && d.found != n
    decreases |rs|
  {
    if rs != [] {
      SkipsPartition(rs[..|rs| - 1], n);
    }
  }

  /** A validated load loses nothing silently. */
  lemma LoadAccounts(top: Top)
    requires top.records != [] && |top.records[0].embedding| > 0
    ensures |Load(Parsed(top)).data| + |Load(Parsed(top)).log| == |top.records|
    ensures forall x :: x in top.records && |x.embedding| == |top.records[0].embedding| ==> x in Load(Parsed(top)).data
  {
    var n := |top.records[0].embedding|;
    SkipsPartition(top.records, n);
    forall x | x in top.records && |x.embedding| == n ensures x in Load(Parsed(top)).data {
      FilterKeeps(top.records, HasDim(n), x);
    }
  }

  /** One more record: it is kept or reported. */
  lemma LoadStep(rs: seq<Record>, i: nat, n: nat)
    requires i < |rs|
    ensures Filter(rs[..i + 1], HasDim(n)) == Filter(rs[..i], HasDim(n)) + (if |rs[i].embedding| == n then [rs[i]] else [])
    ensures Skips(rs[..i + 1], n) == Skips(rs[..i], n) + SkipNote(rs[i], n)
  {
    assert rs[..i + 1][..i] == rs[..i];
    assert rs[..i + 1][i] == rs[i];
  }

  /** The validation loop of `_load_embeddings`. */
  method LoadEmbeddings(file: EmbeddingsFile) returns (data: seq<Record>, log: seq<Diagnostic>)
    ensures Loaded(data, log) == Load(file)
  {
    if file.Missing? || file.ZeroBytes? {
      return [], [NoEmbeddings];
    }
    if file.Corrupt? {
      return [], [InvalidFile];
    }
    var rs := file.top.records;
    if rs == [] {
      return [], [];
    }
    var n := |rs[0].embedding|;
    if n == 0 {
      return [], [EmptyFirstRecord];
    }
    data, log := [], [];
    var i := 0;
    while i < |rs|
      invariant 0 <= i <= |rs|
      invariant data == Filter(rs[..i], HasDim(n))
      invariant log == Skips(rs[..i], n)
    {
      LoadStep(rs, i, n);
      if |rs[i].embedding| == n {
        data := data + [rs[i]];
      } else {
        log := log + [Skipped(rs[i].participant, n, |rs[i].embedding|)];
      }
      i := i + 1;
    }
    assert rs[..i] == rs;
  }

  // ---------------------------------------------------------------------
  // search

  /** One result dict of `search`. */
  datatype EngineResult = EngineResult(
    participant: string,
    score: real,
    searchableText: string,
    metadata: Metadata,
    explanation: string)

  /** The cosine similarity of every stored vector with the query. */
  function AllScores(q: Vector, data: seq<Record>, cosine: (Vector, Vector) -> real): (r: seq<Scored>)
    ensures |r| == |data|
  {
    seq(|data|, j requires 0 <= j < |data| => Scored(cosine(q, data[j].embedding), data[j]))
  }

  /** The result dict for one chosen record; `None` when the explanation
      raises. */
  function EngineHit(query: string): Scored -> Option<EngineResult> {
    (x: Scored) => match ExplainThree(query, x.record.metadata)
      case None => None
      case Some(e) => Some(EngineResult(x.record.participant, x.score, x.record.searchableText, x.record.metadata, e))
  }

  /** Without the embedding service the query vector has the generator's
      length, which the constructor sets to the loaded records' length, so the
      search never fails on a length mismatch. */
  lemma FallbackQueryFits(em: Embedder, query: string, file: EmbeddingsFile)
    requires !em.apiAvailable
    requires Load(file).data != [] && em.dim == |Load(file).data[0].embedding|
    ensures SameDims(Embed(em, query), Load(file).data)
  {
    var data := Load(file).data;
    forall i | 0 <= i < |data| ensures |data[i].embedding| == |Embed(em, query)| {
      assert data[i] in data;
    }
  }

  class SemanticSearchEngine {
    const generator: EmbeddingGenerator
    var embeddingsData: seq<Record>
    /** The loader's warnings and errors, in order. */
    var log: seq<Diagnostic>

    /** `__init__`: load the file, then set the generator's dimension to the
        first loaded record's vector length. */
    constructor(file: EmbeddingsFile, configured: bool, embed: EmbedService)
      ensures fresh(generator)
      ensures Loaded(embeddingsData, log) == Load(file)
      ensures generator.apiAvailable == (configured && embed("test").Some?) && generator.embed == embed
      ensures generator.embeddingDim ==
        if embeddingsData == [] then DefaultDimension else |embeddingsData[0].embedding|
    {
      var g := new EmbeddingGenerator(configured, embed);
      var data, diagnostics := LoadEmbeddings(file);
      if data != [] {
        g.embeddingDim := |data[0].embedding|;
      }
      generator := g;
      embeddingsData := data;
      log := diagnostics;
    }

    /** `search`: no data gives `[]`; a query vector whose length differs from
        a stored one raises (`None`); otherwise the best `top_k` records by
        cosine similarity with their explanations, or `None` when an
        explanation raises. */
    method Search(query: string, topK: int, cosine: (Vector, Vector) -> real) returns (results: Option<seq<EngineResult>>)
      ensures embeddingsData == [] ==> results == Some([])
      ensures embeddingsData != [] && !SameDims(Embed(generator.State(), query), embeddingsData) ==> results.None?
      ensures embeddingsData != [] && SameDims(Embed(generator.State(), query), embeddingsData) ==>
        exists top :: IsTopK(top, AllScores(Embed(generator.State(), query), embeddingsData, cosine), topK, ScoreOf) &&
          results == MapOpt(EngineHit(query), top)
    {
      if embeddingsData == [] {
        return Some([]);
      }
      var q := generator.GenerateEmbedding(query);
      var similarities: seq<Scored> := [];
      var i := 0;
      while i < |embeddingsData|
        invariant 0 <= i <= |embeddingsData|
        invariant SameDims(q, embeddingsData[..i])
        invariant similarities == AllScores(q, embeddingsData[..i], cosine)
      {
        if |embeddingsData[i].embedding| != |q| {
          assert !SameDims(q, embeddingsData) by {
            assert |embeddingsData[i].embedding| != |q|;
          }
          return None;
        }
        assert embeddingsData[..i + 1] == embeddingsData[..i] + [embeddingsData[i]];
        similarities := similarities + [Scored(cosine(q, embeddingsData[i].embedding), embeddingsData[i])];
        i := i + 1;
      }
      assert embeddingsData[..i] == embeddingsData;
      var top := Take(SortDesc(similarities, ScoreOf), topK);
      SortedPrefixIsTopK(similarities, ScoreOf, topK);
      results := MapAll(EngineHit(query), top);
    }
  }
}
