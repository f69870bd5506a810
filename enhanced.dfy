/** `EnhancedSemanticSearchEngine` of src/vector_store.py: search through the
    `VectorStore` facade with an explanation per hit, the union over business
    types, the urgency floor, and the search for participants similar to a
    given one. */
module Enhanced {
  import opened Common
  import opened Records
  import opened Ranking
  import opened Store
  import opened Matching
  import opened Embeddings

  /** A search result with the `explanation` key added. */
  datatype Hit = Hit(result: SearchResult, explanation: string)

  function HitScore(h: Hit): real { h.result.score }

  /** `result['explanation'] = _explain_match(query, result)` for one result;
      `None` when the explanation raises. */
  function ExplainHit(query: string): SearchResult -> Option<Hit> {
    (r: SearchResult) => match Explain(query, r.metadata)
      case None => None
      case Some(e) => Some(Hit(r, e))
  }

  /** Adds an explanation to every result; `None` when one of them raises. */
  function Explained(query: string, rs: seq<SearchResult>): (r: Option<seq<Hit>>)
    ensures r.Some? <==> forall i :: 0 <= i < |rs| ==> Explain(query, rs[i].metadata).Some?
    ensures r.Some? ==> |r.value| == |rs|
    ensures r.Some? ==> forall i :: 0 <= i < |rs| ==> r.value[i] == Hit(rs[i], Explain(query, rs[i].metadata).value)
  {
    MapOpt(ExplainHit(query), rs)
  }

  /** `search`: embed the query, search the store, explain every hit. */
  function EnhancedSearch(st: StoreState, em: Embedder, query: string, k: int, filters: Option<Filters>): Option<seq<Hit>> {
    Explained(query, StoreSearch(st, Embed(em, query), k, filters))
  }

  // ---------------------------------------------------------------------
  // search_with_business_filter

  function TypeFilter(t: string): Filters {
    map[BusinessKey := Str(t)]
  }

  /** One iteration of the loop: the search restricted to one business type. */
  function TypeSearch(st: StoreState, em: Embedder, query: string, k: int): string -> Option<seq<Hit>> {
    (t: string) => EnhancedSearch(st, em, query, k, Some(TypeFilter(t)))
  }

  /** `all_results` after the loop: the per-type results, concatenated in
      the order of the types. */
  function UnionByType(st: StoreState, em: Embedder, query: string, types: seq<string>, k: int): Option<seq<Hit>> {
    ConcatOpt(TypeSearch(st, em, query, k), types)
  }

  /** `search_with_business_filter`: the union, stable-sorted by descending
      score, cut to `top_k`. */
  function BusinessFilterSearch(st: StoreState, em: Embedder, query: string, types: seq<string>, k: int): Option<seq<Hit>> {
    var all :- UnionByType(st, em, query, types, k);
    Some(Take(SortDesc(all, HitScore), k))
  }

  lemma UnionPrefixFails(st: StoreState, em: Embedder, query: string, types: seq<string>, k: int, j: nat)
    requires j <= |types|
    requires UnionByType(st, em, query, types[..j], k).None?
    ensures UnionByType(st, em, query, types, k).None?
  {
    ConcatOptPrefixFails(TypeSearch(st, em, query, k), types, j);
  }

  /** Every hit of the union comes from the search for one of the types. */
  lemma UnionMember(st: StoreState, em: Embedder, query: string, types: seq<string>, k: int, h: Hit)
    requires UnionByType(st, em, query, types, k).Some?
    requires h in UnionByType(st, em, query, types, k).value
    ensures exists t :: (t in types && EnhancedSearch(st, em, query, k, Some(TypeFilter(t))).Some? &&
      h in EnhancedSearch(st, em, query, k, Some(TypeFilter(t))).value)
  {
    var f := TypeSearch(st, em, query, k);
    ConcatOptMember(f, types, h);
    var t :| t in types && f(t).Some? && h in f(t).value;
    assert f(t) == EnhancedSearch(st, em, query, k, Some(TypeFilter(t)));
  }

  /** Conversely, every hit of every type's search is in the union. */
  lemma UnionCovers(st: StoreState, em: Embedder, query: string, types: seq<string>, k: int, t: string, h: Hit)
    requires UnionByType(st, em, query, types, k).Some?
    requires t in types
    requires EnhancedSearch(st, em, query, k, Some(TypeFilter(t))).Some?
    requires h in EnhancedSearch(st, em, query, k, Some(TypeFilter(t))).value
    ensures h in UnionByType(st, em, query, types, k).value
  {
    var f := TypeSearch(st, em, query, k);
    assert f(t) == EnhancedSearch(st, em, query, k, Some(TypeFilter(t)));
    ConcatOptCovers(f, types, t, h);
  }

  /** A hit of a local search carries the metadata of a stored record that
      passed the filter. */
  lemma LocalHitSound(st: StoreState, em: Embedder, query: string, k: int, filters: Filters, h: Hit)
    requires !st.usePinecone && filters != map[]
    requires EnhancedSearch(st, em, query, k, Some(filters)).Some?
    requires h in EnhancedSearch(st, em, query, k, Some(filters)).value
    ensures exists x :: (x in st.file.records && MatchesFilters(x, filters) == Some(true) &&
      h.result.metadata == x.metadata && h.result.participant == Str(x.participant))
  {
    var q := Embed(em, query);
    var rs := LocalSearch(st.file, q, k, Some(filters));
    var hits := EnhancedSearch(st, em, query, k, Some(filters)).value;
    var i :| 0 <= i < |hits| && hits[i] == h;
    LocalSearchSound(st.file, q, k, Some(filters), i);
  }

  /** Filter soundness of the union on the local backend: every hit's
      business focus equals one of the requested types up to case. */
  lemma BusinessFilterSound(st: StoreState, em: Embedder, query: string, types: seq<string>, k: int, h: Hit)
    requires !st.usePinecone
    requires BusinessFilterSearch(st, em, query, types, k).Some?
    requires h in BusinessFilterSearch(st, em, query, types, k).value
    ensures exists t :: (t in types &&
      Get(h.result.metadata, BusinessKey, Str("")).Str? &&
      Lower(Get(h.result.metadata, BusinessKey, Str("")).s) == Lower(t))
  {
    var all := UnionByType(st, em, query, types, k).value;
    assert h in SortDesc(all, HitScore);
    SortDescMembers(all, HitScore, h);
    UnionMember(st, em, query, types, k, h);
    var t :| t in types && EnhancedSearch(st, em, query, k, Some(TypeFilter(t))).Some? &&
      h in EnhancedSearch(st, em, query, k, Some(TypeFilter(t))).value;
    assert TypeFilter(t) != map[] by { assert BusinessKey in TypeFilter(t); }
    LocalHitSound(st, em, query, k, TypeFilter(t), h);
    var x :| x in st.file.records && MatchesFilters(x, TypeFilter(t)) == Some(true) &&
      h.result.metadata == x.metadata && h.result.participant == Str(x.participant);
    TypeFilterMatch(x, t);
  }

  lemma TypeFilterMatch(x: Record, t: string)
    requires MatchesFilters(x, TypeFilter(t)) == Some(true)
    ensures Get(x.metadata, BusinessKey, Str("")).Str?
    ensures Lower(Get(x.metadata, BusinessKey, Str("")).s) == Lower(t)
  {
    assert BusinessCheck(x, TypeFilter(t)) == Some(true);
  }

  /** The result is a best `top_k` of the union: hits of the union, by
      descending score, min(`top_k`, total) of them for a non-negative
      `top_k`, and none of the dropped hits scores above a kept one. */
  lemma BusinessFilterRanked(st: StoreState, em: Embedder, query: string, types: seq<string>, k: int)
    requires BusinessFilterSearch(st, em, query, types, k).Some?
    ensures var all := UnionByType(st, em, query, types, k).value;
      IsTopK(BusinessFilterSearch(st, em, query, types, k).value, all, k, HitScore)
    ensures var r := BusinessFilterSearch(st, em, query, types, k).value;
      k >= 0 ==> |r| == Min(k, |UnionByType(st, em, query, types, k).value|)
  {
    var all := UnionByType(st, em, query, types, k).value;
    SortedPrefixIsTopK(all, HitScore, k);
  }

  // ---------------------------------------------------------------------
  // search_by_urgency

  function UrgencyFilter(minUrgency: int): Filters {
    map[UrgencyKey := Int(minUrgency)]
  }

  /** Urgency soundness on the local backend: every hit has an integer
      urgency (3 when missing) of at least `min_urgency`. */
  lemma UrgencySearchSound(st: StoreState, em: Embedder, query: string, minUrgency: int, k: int, h: Hit)
    requires !st.usePinecone
    requires EnhancedSearch(st, em, query, k, Some(UrgencyFilter(minUrgency))).Some?
    requires h in EnhancedSearch(st, em, query, k, Some(UrgencyFilter(minUrgency))).value
    ensures Get(h.result.metadata, UrgencyKey, Int(3)).Int?
    ensures Get(h.result.metadata, UrgencyKey, Int(3)).i >= minUrgency
  {
    assert UrgencyFilter(minUrgency) != map[] by { assert UrgencyKey in UrgencyFilter(minUrgency); }
    LocalHitSound(st, em, query, k, UrgencyFilter(minUrgency), h);
    var x :| x in st.file.records && MatchesFilters(x, UrgencyFilter(minUrgency)) == Some(true) &&
      h.result.metadata == x.metadata && h.result.participant == Str(x.participant);
    assert UrgencyCheck(x, UrgencyFilter(minUrgency)) == Some(true);
  }

  // ---------------------------------------------------------------------
  // get_similar_participants

  function ParticipantFilter(name: string): Filters {
    map[ParticipantKey := Str(name)]
  }

  function NotNamed(name: string): Hit -> bool {
    (h: Hit) => h.result.participant != Str(name)
  }

  /** `f"{goal} {blocker}"` of the subject's metadata. */
  function SubjectQuery(md: Metadata): string {
    Show(Get(md, GoalKey, Str(""))) + " " + Show(Get(md, BlockerKey, Str("")))
  }

  /** `get_similar_participants`: look the subject up with the participant
      filter and an empty query, search with the subject's goal and blocker
      for `top_k + 1` hits, drop those named exactly like the subject, keep
      `top_k`. */
  function SimilarParticipants(st: StoreState, em: Embedder, name: string, k: int): Option<seq<Hit>> {
    var lookup :- EnhancedSearch(st, em, "", 1, Some(ParticipantFilter(name)));
    if lookup == [] then Some([])
    else
      var rs :- EnhancedSearch(st, em, SubjectQuery(lookup[0].result.metadata), k + 1, None);
      Some(Take(Filter(rs, NotNamed(name)), k))
  }

  /** No hit is named exactly like the subject, there are at most `top_k` of
      them, and each comes from the second search. */
  lemma SimilarParticipantsExclude(st: StoreState, em: Embedder, name: string, k: int)
    requires SimilarParticipants(st, em, name, k).Some?
    ensures var r := SimilarParticipants(st, em, name, k).value;
      (forall h :: h in r ==> h.result.participant != Str(name)) &&
      (k >= 0 ==> |r| <= k)
  {
    var lookup := EnhancedSearch(st, em, "", 1, Some(ParticipantFilter(name))).value;
    if lookup != [] {
      var rs := EnhancedSearch(st, em, SubjectQuery(lookup[0].result.metadata), k + 1, None).value;
      var kept := Filter(rs, NotNamed(name));
      forall h | h in Take(kept, k) ensures h.result.participant != Str(name) {
        assert h in kept;
      }
    }
  }

  /** On the local backend, a subject no stored record is named after (up to
      case) yields `[]`. */
  lemma UnknownSubject(st: StoreState, em: Embedder, name: string, k: int)
    requires !st.usePinecone && st.file.Stored?
    requires forall x :: x in st.file.records ==> Lower(x.participant) != Lower(name)
    ensures SimilarParticipants(st, em, name, k) == Some([])
  {
    var f := ParticipantFilter(name);
    var rs := st.file.records;
    assert f != map[] by { assert ParticipantKey in f; }
    forall i | 0 <= i < |rs| ensures MatchesFilters(rs[i], f) == Some(false) {
      assert rs[i] in rs;
    }
    LocalSearchNoneMatch(st.file, Embed(em, ""), 1, f);
    assert Explained("", []) == Some([]);
  }

  /** The lookup is case-insensitive but the exclusion is exact: a stored
      record whose name differs from the subject's only in case is found by the
      lookup and yet survives the exclusion. */
  lemma CaseVariantNotExcluded(x: Record, name: string, score: real, explanation: string)
    requires x.participant != name && Lower(x.participant) == Lower(name)
    ensures MatchesFilters(x, ParticipantFilter(name)) == Some(true)
    ensures NotNamed(name)(Hit(ToResult(Scored(score, x)), explanation))
  {
  }

  // ---------------------------------------------------------------------
  // The fallback embedding

  /** Without the embedding service the query is the 768-long zero vector of
      a fresh generator; a local store whose first record has another length
      then never returns anything. */
  lemma DegradedSearchEmpty(st: StoreState, em: Embedder, query: string, k: int)
    requires !em.apiAvailable && em.dim == DefaultDimension
    requires !st.usePinecone && st.file.Stored? && st.file.records != []
    requires |st.file.records[0].embedding| != DefaultDimension
    ensures EnhancedSearch(st, em, query, k, None) == Some([])
  {
  }

  /** Without the embedding service and with vectors of the generator's
      length, every score is 0 and the hits are the first `top_k` stored
      records in stored order. */
  lemma DegradedSearchStoredOrder(st: StoreState, em: Embedder, query: string, k: int)
    requires !em.apiAvailable
    requires !st.usePinecone && st.file.Stored? && st.file.records != []
    requires SameDims(Zeros(em.dim), st.file.records)
    requires EnhancedSearch(st, em, query, k, None).Some?
    ensures var hits := EnhancedSearch(st, em, query, k, None).value;
      forall i :: 0 <= i < |hits| ==> hits[i].result == ToResult(Scored(0.0, st.file.records[i]))
  {
    var q := Embed(em, query);
    LocalSearchZeroQuery(q, st.file.records, k);
  }

  class EnhancedSemanticSearchEngine {
    const generator: EmbeddingGenerator
    const store: VectorStore

    /** `__init__`: a fresh generator and a fresh store. */
    constructor(configured: bool, embed: EmbedService, useRemote: bool, libraryPresent: bool,
                apiKey: Option<string>, remote: RemoteIndex, file: LocalFile)
      ensures fresh(generator) && fresh(store)
      ensures generator.State() == Embedder(configured && embed("test").Some?, embed, DefaultDimension)
      ensures store.State() == StoreState(RemoteRequested(useRemote, libraryPresent, apiKey) && remote.initOk, file, remote)
    {
      generator := new EmbeddingGenerator(configured, embed);
      store := new VectorStore(useRemote, libraryPresent, apiKey, remote, file);
    }

    /** `search` */
    method Search(query: string, topK: int, filters: Option<Filters>) returns (hits: Option<seq<Hit>>)
      ensures hits == EnhancedSearch(store.State(), generator.State(), query, topK, filters)
    {
      var q := generator.GenerateEmbedding(query);
      var results := store.Search(q, topK, filters);
      hits := MapAll(ExplainHit(query), results);
    }

    /** `search_with_business_filter` */
    method SearchWithBusinessFilter(query: string, types: seq<string>, topK: int) returns (hits: Option<seq<Hit>>)
      ensures hits == BusinessFilterSearch(store.State(), generator.State(), query, types, topK)
    {
      var all: seq<Hit> := [];
      var i := 0;
      while i < |types|
        invariant 0 <= i <= |types|
        invariant UnionByType(store.State(), generator.State(), query, types[..i], topK) == Some(all)
      {
        var results := Search(query, topK, Some(TypeFilter(types[i])));
        assert types[..i + 1][..i] == types[..i];
        if results.None? {
          UnionPrefixFails(store.State(), generator.State(), query, types, topK, i + 1);
          return None;
        }
        all := all + results.value;
        i := i + 1;
      }
      assert types[..i] == types;
      all := SortDesc(all, HitScore);
      hits := Some(Take(all, topK));
    }

    /** `search_by_urgency` */
    method SearchByUrgency(query: string, minUrgency: int, topK: int) returns (hits: Option<seq<Hit>>)
      ensures hits == EnhancedSearch(store.State(), generator.State(), query, topK, Some(UrgencyFilter(minUrgency)))
    {
      hits := Search(query, topK, Some(UrgencyFilter(minUrgency)));
    }

    /** `get_similar_participants` */
    method GetSimilarParticipants(name: string, topK: int) returns (hits: Option<seq<Hit>>)
      ensures hits == SimilarParticipants(store.State(), generator.State(), name, topK)
    {
      var lookup := Search("", 1, Some(ParticipantFilter(name)));
      if lookup.None? {
        return None;
      }
      if lookup.value == [] {
        return Some([]);
      }
      var results := Search(SubjectQuery(lookup.value[0].result.metadata), topK + 1, None);
      if results.None? {
        return None;
      }
      hits := Some(Take(Filter(results.value, NotNamed(name)), topK));
    }
  }
}
