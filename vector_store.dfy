/** The `VectorStore` facade of src/vector_store.py: the choice between the
    Pinecone backend and the local JSON backend, the local backend's exact
    linear-scan search, delete and stats, and the parts of the Pinecone
    backend that do not need the service (metadata truncation, batching,
    filter translation and result formatting). The service itself is a
    `RemoteIndex` value of abstract functions. */
module Store {
  import opened Common
  import opened Records
  import opened Ranking

  /** A search filter dict, e.g. `{'business_focus': 'saas'}`. */
  type Filters = map<string, Value>

  /** The local embeddings file: absent, present but not parseable, or a list
      of records. */
  datatype LocalFile = NoFile | Unreadable | Stored(records: seq<Record>)

  const EmbeddingsPath := "data/embeddings.json"
  const IndexName := "semantic-insights"
  /** Dimension the Pinecone index is created with and that its stats report. */
  const RemoteDimension: nat := 768
  const BatchSize: nat := 100

  /** One search hit as both backends return it. */
  datatype SearchResult = SearchResult(
    id: string,
    score: real,
    participant: Value,
    metadata: Metadata,
    searchableText: Value)

  /** A `(similarity, item)` pair of the local scan. */
  datatype Scored = Scored(score: real, record: Record)

  function ScoreOf(x: Scored): real { x.score }

  // ---------------------------------------------------------------------
  // Local filter (`_matches_filters`). `None` stands for the exception that
  // `.lower()` or `<` raises on a value of the wrong type.

  function LowerEq(a: Value, b: Value): Option<bool> {
    if a.Str? && b.Str? then Some(Lower(a.s) == Lower(b.s)) else None
  }

  /** Python's `a < b` on two JSON values; `None` where it raises TypeError. */
  function Less(a: Value, b: Value): Option<bool> {
    match (a, b)
    case (Int(x), Int(y)) => Some(x < y)
    case (Str(x), Str(y)) => Some(LexLess(x, y))
    case _ => None
  }

  function BusinessCheck(item: Record, filters: Filters): Option<bool> {
    if BusinessKey in filters
    then LowerEq(Get(item.metadata, BusinessKey, Str("")), filters[BusinessKey])
    else Some(true)
  }

  function UrgencyCheck(item: Record, filters: Filters): Option<bool> {
    if UrgencyKey in filters then
      match Less(Get(item.metadata, UrgencyKey, Int(3)), filters[UrgencyKey])
      case None => None
      case Some(below) => Some(!below)
    else Some(true)
  }

  function ParticipantCheck(item: Record, filters: Filters): Option<bool> {
    if ParticipantKey in filters
    then LowerEq(Str(item.participant), filters[ParticipantKey])
    else Some(true)
  }

  /** `_matches_filters`: the three checks in the source's order, stopping at
      the first that fails or raises. */
  function MatchesFilters(item: Record, filters: Filters): Option<bool> {
    var b := BusinessCheck(item, filters);
    if b != Some(true) then b
    else
      var u := UrgencyCheck(item, filters);
      if u != Some(true) then u
      else ParticipantCheck(item, filters)
  }

  /** The filter dict a caller builds from typed values. */
  function TypedFilters(business: Option<string>, minUrgency: Option<int>, participant: Option<string>): Filters {
    (if business.Some? then map[BusinessKey := Str(business.value)] else map[]) +
    (if minUrgency.Some? then map[UrgencyKey := Int(minUrgency.value)] else map[]) +
    (if participant.Some? then map[ParticipantKey := Str(participant.value)] else map[])
  }

  /** For well-typed values the filter is the conjunction of a case-insensitive
      business match, an urgency floor (a missing urgency counting as 3) and a
      case-insensitive participant match. */
  lemma MatchesTypedFilters(item: Record, business: Option<string>, minUrgency: Option<int>, participant: Option<string>)
    requires Get(item.metadata, BusinessKey, Str("")).Str?
    requires Get(item.metadata, UrgencyKey, Int(3)).Int?
    ensures MatchesFilters(item, TypedFilters(business, minUrgency, participant)) == Some(
      (business.None? || Lower(Get(item.metadata, BusinessKey, Str("")).s) == Lower(business.value)) &&
      (minUrgency.None? || Get(item.metadata, UrgencyKey, Int(3)).i >= minUrgency.value) &&
      (participant.None? || Lower(item.participant) == Lower(participant.value)))
  {
    var f := TypedFilters(business, minUrgency, participant);
    assert BusinessKey in f <==> business.Some?;
    assert business.Some? ==> f[BusinessKey] == Str(business.value);
    assert UrgencyKey in f <==> minUrgency.Some?;
    assert minUrgency.Some? ==> f[UrgencyKey] == Int(minUrgency.value);
    assert ParticipantKey in f <==> participant.Some?;
    assert participant.Some? ==> f[ParticipantKey] == Str(participant.value);
  }

  /** The filter restricted to the three keys it understands. */
  function KnownKeys(filters: Filters): Filters {
    map k | k in filters && k in {BusinessKey, UrgencyKey, ParticipantKey} :: filters[k]
  }

  /** Keys other than the three are ignored. */
  lemma UnknownFilterKeysIgnored(item: Record, filters: Filters)
    ensures MatchesFilters(item, filters) == MatchesFilters(item, KnownKeys(filters))
  {
    var g := KnownKeys(filters);
    assert BusinessKey in g <==> BusinessKey in filters;
    assert UrgencyKey in g <==> UrgencyKey in filters;
    assert ParticipantKey in g <==> ParticipantKey in filters;
  }

  /** A business value that is not a string makes the filter raise, whatever
      else the filter says. */
  lemma NonStringBusinessRaises(item: Record, filters: Filters)
    requires BusinessKey in filters && !filters[BusinessKey].Str?
    ensures MatchesFilters(item, filters).None?
  {
  }

  function Passes(filters: Filters): Record -> bool {
    (x: Record) => MatchesFilters(x, filters) == Some(true)
  }

  predicate FilterDefined(rs: seq<Record>, filters: Filters) {
    forall i :: 0 <= i < |rs| ==> MatchesFilters(rs[i], filters).Some?
  }

  /** One step of the filtering loop over `data[..i]`. */
  lemma FilterStep(data: seq<Record>, i: nat, filters: Filters)
    requires i < |data|
    ensures FilterDefined(data[..i + 1], filters) <==>
      FilterDefined(data[..i], filters) && MatchesFilters(data[i], filters).Some?
    ensures FilterDefined(data, filters) ==> FilterDefined(data[..i + 1], filters)
    ensures Filter(data[..i + 1], Passes(filters)) ==
      Filter(data[..i], Passes(filters)) + (if MatchesFilters(data[i], filters) == Some(true) then [data[i]] else [])
  {
    assert data[..i + 1] == data[..i] + [data[i]];
    FilterSnoc(data[..i], data[i], Passes(filters));
    assert forall j :: 0 <= j < i ==> data[..i + 1][j] == data[..i][j];
  }

  /** The records the scan scores: all of them when there is no filter (a
      `None` or empty dict), the matching ones otherwise; `None` when the filter
      raises on some record. */
  function Candidates(rs: seq<Record>, filters: Option<Filters>): Option<seq<Record>> {
    if filters.None? || filters.value == map[] then Some(rs)
    else if FilterDefined(rs, filters.value) then Some(Filter(rs, Passes(filters.value)))
    else None
  }

  /** Urgency floor 4: a record with urgency 3 fails and one with urgency 5
      passes, whatever their vectors. */
  lemma UrgencyFloorExample(v: Vector, w: Vector)
    ensures MatchesFilters(Record("a", "A", v, "", map[UrgencyKey := Int(3)]), map[UrgencyKey := Int(4)]) == Some(false)
    ensures MatchesFilters(Record("b", "B", w, "", map[UrgencyKey := Int(5)]), map[UrgencyKey := Int(4)]) == Some(true)
  {
  }

  // ---------------------------------------------------------------------
  // Local search (`_search_local`)

  /** `np.dot` raises unless every candidate has the query's length. */
  predicate SameDims(q: Vector, rs: seq<Record>) {
    forall i :: 0 <= i < |rs| ==> |rs[i].embedding| == |q|
  }

  function Scores(q: Vector, rs: seq<Record>): (r: seq<Scored>)
    requires SameDims(q, rs)
    ensures |r| == |rs|
  {
    seq(|rs|, i requires 0 <= i < |rs| => Scored(Dot(q, rs[i].embedding), rs[i]))
  }

  function ToResult(x: Scored): SearchResult {
    SearchResult(x.record.id, x.score, Str(x.record.participant), x.record.metadata, Str(x.record.searchableText))
  }

  function Results(ranked: seq<Scored>): (r: seq<SearchResult>)
    ensures |r| == |ranked|
  {
    seq(|ranked|, i requires 0 <= i < |ranked| => ToResult(ranked[i]))
  }

  /** Score, stable sort by descending score, keep the first `k`. */
  function Ranked(q: Vector, cands: seq<Record>, k: int): seq<Scored>
    requires SameDims(q, cands)
  {
    Take(SortDesc(Scores(q, cands), ScoreOf), k)
  }

  /** What `_search_local` returns for the given file contents. */
  function LocalSearch(file: LocalFile, q: Vector, k: int, filters: Option<Filters>): seq<SearchResult> {
    if !file.Stored? || file.records == [] then []
    else
      match Candidates(file.records, filters)
      case None => []
      case Some(cands) => if SameDims(q, cands) then Results(Ranked(q, cands, k)) else []
  }

  /** A missing, unreadable or empty file yields no results. */
  lemma LocalSearchNoData(file: LocalFile, q: Vector, k: int, filters: Option<Filters>)
    requires !file.Stored? || file.records == []
    ensures LocalSearch(file, q, k, filters) == []
  {
  }

  lemma RankedMember(q: Vector, cands: seq<Record>, k: int, i: nat)
    requires SameDims(q, cands) && i < |Ranked(q, cands, k)|
    ensures exists j :: 0 <= j < |cands| && Ranked(q, cands, k)[i] == Scored(Dot(q, cands[j].embedding), cands[j])
  {
    var sorted := SortDesc(Scores(q, cands), ScoreOf);
    var x := Ranked(q, cands, k)[i];
    assert x == sorted[i];
    SortDescMembers(Scores(q, cands), ScoreOf, x);
    var j :| 0 <= j < |Scores(q, cands)| && Scores(q, cands)[j] == x;
  }

  /** Filter soundness: every result is a stored record that passed the
      filter, scored by the dot product of the query with its vector. */
  lemma LocalSearchSound(file: LocalFile, q: Vector, k: int, filters: Option<Filters>, i: nat)
    requires i < |LocalSearch(file, q, k, filters)|
    ensures file.Stored?
    ensures exists x :: (x in file.records && |x.embedding| == |q| &&
      LocalSearch(file, q, k, filters)[i] == ToResult(Scored(Dot(q, x.embedding), x)) &&
      (filters.Some? && filters.value != map[] ==> MatchesFilters(x, filters.value) == Some(true)))
  {
    var cands := Candidates(file.records, filters).value;
    RankedMember(q, cands, k, i);
    var j :| 0 <= j < |cands| && Ranked(q, cands, k)[i] == Scored(Dot(q, cands[j].embedding), cands[j]);
    var x := cands[j];
    assert x in cands;
    assert x in file.records;
  }

  /** For `top_k >= 0` the scan returns exactly min(top_k, #candidates)
      results; a negative `top_k` drops that many from the tail. */
  lemma LocalSearchCount(file: LocalFile, q: Vector, k: int, filters: Option<Filters>)
    requires file.Stored? && file.records != []
    requires Candidates(file.records, filters).Some?
    requires SameDims(q, Candidates(file.records, filters).value)
    ensures var n := |Candidates(file.records, filters).value|;
      |LocalSearch(file, q, k, filters)| == if k >= 0 then Min(k, n) else Max(0, n + k)
  {
  }

  /** Scores never increase down the result list. */
  lemma LocalSearchOrdered(file: LocalFile, q: Vector, k: int, filters: Option<Filters>)
    ensures var r := LocalSearch(file, q, k, filters);
      forall i, j :: 0 <= i < j < |r| ==> r[i].score >= r[j].score
  {
    var r := LocalSearch(file, q, k, filters);
    if r != [] {
      var cands := Candidates(file.records, filters).value;
      var sorted := SortDesc(Scores(q, cands), ScoreOf);
      forall i, j | 0 <= i < j < |r| ensures r[i].score >= r[j].score {
        assert r[i].score == sorted[i].score && r[j].score == sorted[j].score;
      }
    }
  }

  /** Ties keep stored order: among the ranked pairs with any one score, the
      survivors of the cut are the first of that score in candidate order. */
  lemma LocalRankingStable(q: Vector, cands: seq<Record>, k: int, v: real)
    requires SameDims(q, cands)
    ensures WithKey(Ranked(q, cands, k), ScoreOf, v) <= WithKey(Scores(q, cands), ScoreOf, v)
  {
    var sorted := SortDesc(Scores(q, cands), ScoreOf);
    var top := Ranked(q, cands, k);
    assert sorted == top + sorted[|top|..];
    WithKeyAppend(top, sorted[|top|..], ScoreOf, v);
    SortDescStable(Scores(q, cands), ScoreOf, v);
  }

  /** Every candidate left out of the results scores no higher than every
      candidate kept. */
  lemma LocalRankingTopK(q: Vector, cands: seq<Record>, k: int)
    requires SameDims(q, cands)
    ensures var sorted := SortDesc(Scores(q, cands), ScoreOf);
      var top := Ranked(q, cands, k);
      forall i, j :: 0 <= i < |top| <= j < |sorted| ==> top[i].score >= sorted[j].score
  {
  }

  /** With an all-zero query (the embedding fallback) every score is 0 and the
      results are the first `k` candidates in stored order. */
  lemma LocalSearchZeroQuery(q: Vector, cands: seq<Record>, k: int)
    requires SameDims(q, cands)
    requires q == Zeros(|q|)
    ensures Ranked(q, cands, k) == Take(Scores(q, cands), k)
    ensures forall i :: 0 <= i < |Ranked(q, cands, k)| ==> Ranked(q, cands, k)[i] == Scored(0.0, cands[i])
  {
    var s := Scores(q, cands);
    forall i | 0 <= i < |s| ensures ScoreOf(s[i]) == 0.0 {
      DotZeros(|q|, cands[i].embedding);
    }
    SortDescSorted(s, ScoreOf);
  }

  /** A candidate whose vector length differs from the query's empties the
      whole result (the dot product raises and the handler returns `[]`). */
  lemma LocalSearchDimensionMismatch(file: LocalFile, q: Vector, k: int, filters: Option<Filters>, x: Record)
    requires file.Stored? && Candidates(file.records, filters).Some?
    requires x in Candidates(file.records, filters).value && |x.embedding| != |q|
    ensures LocalSearch(file, q, k, filters) == []
  {
  }

  /** A filter that every stored record fails (without raising) yields no
      results. */
  lemma LocalSearchNoneMatch(file: LocalFile, q: Vector, k: int, f: Filters)
    requires file.Stored? && f != map[]
    requires forall i :: 0 <= i < |file.records| ==> MatchesFilters(file.records[i], f) == Some(false)
    ensures LocalSearch(file, q, k, Some(f)) == []
  {
    forall x | x in file.records ensures !Passes(f)(x) {
      var i :| 0 <= i < |file.records| && file.records[i] == x;
    }
    FilterNone(file.records, Passes(f));
  }

  /** Records a = [1, 0] and b = [0, 1], query [1, 0], top_k = 1: the one
      result is a with score 1. */
  lemma LocalSearchExample()
    ensures var a := Record("a", "A", [1.0, 0.0], "", map[]);
      var b := Record("b", "B", [0.0, 1.0], "", map[]);
      LocalSearch(Stored([a, b]), [1.0, 0.0], 1, None) == [SearchResult("a", 1.0, Str("A"), map[], Str(""))]
  {
    var a := Record("a", "A", [1.0, 0.0], "", map[]);
    var b := Record("b", "B", [0.0, 1.0], "", map[]);
    var q: Vector := [1.0, 0.0];
    ExampleRanked(a, b);
    assert Candidates([a, b], None) == Some([a, b]);
    assert LocalSearch(Stored([a, b]), q, 1, None) == Results(Ranked(q, [a, b], 1));
    assert Results([Scored(1.0, a)]) == [ToResult(Scored(1.0, a))];
  }

  lemma ExampleDots()
    ensures Dot([1.0, 0.0], [1.0, 0.0]) == 1.0
    ensures Dot([1.0, 0.0], [0.0, 1.0]) == 0.0
  {
    var q: Vector := [1.0, 0.0];
    assert q[1..] == [0.0] && q[1..][1..] == [];
    var v: Vector := [0.0, 1.0];
    assert v[1..] == [1.0] && v[1..][1..] == [];
  }

  lemma ExampleRanked(a: Record, b: Record)
    requires a.embedding == [1.0, 0.0] && b.embedding == [0.0, 1.0]
    ensures SameDims([1.0, 0.0], [a, b])
    ensures Ranked([1.0, 0.0], [a, b], 1) == [Scored(1.0, a)]
  {
    var q: Vector := [1.0, 0.0];
    ExampleDots();
    var s := Scores(q, [a, b]);
    assert s[0] == Scored(1.0, a) && s[1] == Scored(0.0, b);
    assert s == [Scored(1.0, a), Scored(0.0, b)];
    assert SortedDesc(s, ScoreOf);
    SortDescSorted(s, ScoreOf);
    assert Take(s, 1) == [Scored(1.0, a)];
  }

  // ---------------------------------------------------------------------
  // Local delete (`delete_by_id`)

  function NotId(id: string): Record -> bool {
    (x: Record) => x.id != id
  }

  /** `[item for item in data if item['id'] != id]` */
  function RemoveId(rs: seq<Record>, id: string): seq<Record> {
    Filter(rs, NotId(id))
  }

  /** Exactly the records with that id disappear; the rest keep their order. */
  lemma RemoveIdExact(rs: seq<Record>, id: string, a: seq<Record>, b: seq<Record>)
    ensures forall x :: x in RemoveId(rs, id) <==> x in rs && x.id != id
    ensures RemoveId(a + b, id) == RemoveId(a, id) + RemoveId(b, id)
  {
    forall x | x in rs && x.id != id ensures x in RemoveId(rs, id) {
      FilterKeeps(rs, NotId(id), x);
    }
    FilterAppend(a, b, NotId(id));
  }

  /** An absent id leaves the sequence unchanged. */
  lemma RemoveAbsentId(rs: seq<Record>, id: string)
    requires forall x :: x in rs ==> x.id != id
    ensures RemoveId(rs, id) == rs
  {
    assert forall i :: 0 <= i < |rs| ==> rs[i] in rs;
    FilterAllPass(rs, NotId(id));
  }

  /** The local branch of `delete_by_id`: success and the rewritten file, or
      failure (the file cannot be read) and the file unchanged. */
  function DeleteLocal(file: LocalFile, id: string): (bool, LocalFile) {
    if file.Stored? then (true, Stored(RemoveId(file.records, id))) else (false, file)
  }

  /** Deleting twice succeeds twice and leaves what deleting once left. */
  lemma DeleteIdempotent(file: LocalFile, id: string)
    requires file.Stored?
    ensures var (ok1, once) := DeleteLocal(file, id);
      var (ok2, twice) := DeleteLocal(once, id);
      ok1 && ok2 && twice == once
  {
    FilterIdempotent(file.records, NotId(id));
  }

  // ---------------------------------------------------------------------
  // Stats (`get_stats`)

  datatype StoreStats =
    | Stats(totalVectors: nat, backend: string, location: string, dimension: nat)
    | StatsError

  function LocalStats(file: LocalFile): (s: StoreStats)
    ensures s.Stats? <==> !file.Unreadable?
    ensures s.Stats? ==> s.backend == "local" && s.location == EmbeddingsPath
    ensures file.Stored? ==> s.totalVectors == |file.records|
    ensures file.Stored? && file.records != [] ==> s.dimension == |file.records[0].embedding|
    ensures file.NoFile? || (file.Stored? && file.records == []) ==> s.totalVectors == 0 && s.dimension == 0
  {
    match file
    case NoFile => Stats(0, "local", EmbeddingsPath, 0)
    case Unreadable => StatsError
    case Stored(rs) => Stats(|rs|, "local", EmbeddingsPath, if rs == [] then 0 else |rs[0].embedding|)
  }

  // ---------------------------------------------------------------------
  // Pinecone backend: the logic that does not need the service

  /** One clause of a Pinecone metadata filter. */
  datatype Clause = Eq(value: Value) | Gte(bound: Value)

  type RemoteFilter = map<string, Clause>

  /** The filter dict of `_search_pinecone`: equality on business and
      participant, `{"$gte": v}` on urgency, and `None` when nothing applies. */
  function TranslateFilters(filters: Option<Filters>): (r: Option<RemoteFilter>)
    ensures r.None? <==> filters.None? || KnownKeys(filters.value) == map[]
    ensures r.Some? ==> r.value.Keys == KnownKeys(filters.value).Keys
    ensures r.Some? && BusinessKey in r.value ==> r.value[BusinessKey] == Eq(filters.value[BusinessKey])
    ensures r.Some? && UrgencyKey in r.value ==> r.value[UrgencyKey] == Gte(filters.value[UrgencyKey])
    ensures r.Some? && ParticipantKey in r.value ==> r.value[ParticipantKey] == Eq(filters.value[ParticipantKey])
  {
    if filters.None? || filters.value == map[] then None
    else
      var f := filters.value;
      var m :=
        (if BusinessKey in f then map[BusinessKey := Eq(f[BusinessKey])] else map[]) +
        (if UrgencyKey in f then map[UrgencyKey := Gte(f[UrgencyKey])] else map[]) +
        (if ParticipantKey in f then map[ParticipantKey := Eq(f[ParticipantKey])] else map[]);
      assert m.Keys == KnownKeys(f).Keys;
      if m == map[] then None else Some(m)
  }

  /** How the index evaluates a metadata filter: `$eq` is exact equality,
      `$gte` compares numbers, and a field the vector lacks does not match. */
  predicate ClauseHolds(c: Clause, v: Value) {
    match c
    case Eq(x) => v == x
    case Gte(b) => v.Int? && b.Int? && v.i >= b.i
  }

  predicate RemoteAccepts(pf: RemoteFilter, md: Metadata) {
    forall k :: k in pf ==> k in md && ClauseHolds(pf[k], md[k])
  }

  /** `value[:n]`; slicing anything but a string raises. */
  function Truncated(v: Value, n: nat): (r: Option<Value>)
    ensures r.Some? <==> v.Str?
    ensures r.Some? ==> r.value.Str? && |r.value.s| <= n && r.value.s <= v.s
    ensures r.Some? && |v.s| <= n ==> r.value == v
    ensures r.Some? && |v.s| > n ==> |r.value.s| == n
  {
    if v.Str? then Some(Str(Take(v.s, n))) else None
  }

  /** The metadata dict `_upsert_pinecone` sends with one record; `None` when
      building it raises. `createdAt` stands for `datetime.now().isoformat()`. */
  function RemoteMetadata(item: Record, createdAt: string): Option<Metadata> {
    var md := item.metadata;
    var goal :- Truncated(Get(md, GoalKey, Str("")), 500);
    var blocker :- Truncated(Get(md, BlockerKey, Str("")), 500);
    var mindset :- Truncated(Get(md, MindsetKey, Str("")), 300);
    Some(map[
      ParticipantKey := Str(item.participant),
      GoalKey := goal,
      BlockerKey := blocker,
      BusinessKey := Get(md, BusinessKey, Str("")),
      MindsetKey := mindset,
      UrgencyKey := Get(md, UrgencyKey, Int(3)),
      CreatedAtKey := Str(createdAt),
      SearchableTextKey := Str(Take(item.searchableText, 1000))])
  }

  /** Goal and blocker are cut to their first 500 characters, the mindset to
      its first 300 and the searchable text to its first 1000; the urgency
      defaults to 3 and the business focus to "". A goal, blocker or mindset
      that is present but not a string makes the build raise. */
  lemma RemoteMetadataLimits(item: Record, createdAt: string)
    ensures var md := item.metadata;
      RemoteMetadata(item, createdAt).Some? <==>
        Get(md, GoalKey, Str("")).Str? && Get(md, BlockerKey, Str("")).Str? && Get(md, MindsetKey, Str("")).Str?
    ensures var md := item.metadata;
      var r := RemoteMetadata(item, createdAt);
      r.Some? ==>
        r.value.Keys == {ParticipantKey, GoalKey, BlockerKey, BusinessKey, MindsetKey, UrgencyKey, CreatedAtKey, SearchableTextKey} &&
        r.value[GoalKey] == Str(Take(Get(md, GoalKey, Str("")).s, 500)) &&
        r.value[BlockerKey] == Str(Take(Get(md, BlockerKey, Str("")).s, 500)) &&
        r.value[MindsetKey] == Str(Take(Get(md, MindsetKey, Str("")).s, 300)) &&
        r.value[ParticipantKey] == Str(item.participant) && r.value[CreatedAtKey] == Str(createdAt) &&
        r.value[SearchableTextKey] == Str(Take(item.searchableText, 1000)) && |Take(item.searchableText, 1000)| <= 1000 &&
        r.value[UrgencyKey] == (if UrgencyKey in md then md[UrgencyKey] else Int(3)) &&
        r.value[BusinessKey] == (if BusinessKey in md then md[BusinessKey] else Str(""))
  {
  }

  /** One vector of an upsert request. */
  datatype RemoteVector = RemoteVector(id: string, values: Vector, metadata: Metadata)

  predicate MetadataDefined(data: seq<Record>, createdAt: string) {
    forall i :: 0 <= i < |data| ==> RemoteMetadata(data[i], createdAt).Some?
  }

  function RemoteVectors(data: seq<Record>, createdAt: string): (r: seq<RemoteVector>)
    requires MetadataDefined(data, createdAt)
    ensures |r| == |data|
  {
    seq(|data|, i requires 0 <= i < |data| =>
      RemoteVector(data[i].id, data[i].embedding, RemoteMetadata(data[i], createdAt).value))
  }

  /** `[v[i:i + n] for i in range(0, len(v), n)]` */
  function Batches<T>(v: seq<T>, n: nat): seq<seq<T>>
    requires n > 0
    decreases |v|
  {
    if v == [] then []
    else if |v| <= n then [v]
    else [v[..n]] + Batches(v[n..], n)
  }

  function Flatten<T>(bs: seq<seq<T>>): seq<T>
    decreases |bs|
  {
    if bs == [] then [] else bs[0] + Flatten(bs[1..])
  }

  /** The batches are non-empty, at most `n` long, all but the last exactly
      `n` long, and together they are `v` in order. */
  lemma {:induction false} BatchesPartition<T>(v: seq<T>, n: nat)
    requires n > 0
    ensures Flatten(Batches(v, n)) == v
    ensures forall i :: 0 <= i < |Batches(v, n)| ==> 0 < |Batches(v, n)[i]| <= n
    ensures forall i :: 0 <= i < |Batches(v, n)| - 1 ==> |Batches(v, n)[i]| == n
    decreases |v|
  {
    if v != [] && |v| > n {
      BatchesPartition(v[n..], n);
      var bs := Batches(v, n);
      assert bs[1..] == Batches(v[n..], n);
      assert v == v[..n] + v[n..];
      forall i | 0 <= i < |bs| ensures 0 < |bs[i]| <= n {
        if i > 0 { assert bs[i] == Batches(v[n..], n)[i - 1]; }
      }
      forall i | 0 <= i < |bs| - 1 ensures |bs[i]| == n {
        if i > 0 { assert bs[i] == Batches(v[n..], n)[i - 1]; }
      }
    }
  }

  /** The service side of Pinecone, as the backend sees it. */
  datatype RemoteIndex = RemoteIndex(
    /** Creating the client and creating or opening the index succeeds. */
    initOk: bool,
    /** `index.upsert(vectors=batch)` succeeds. */
    accepts: seq<RemoteVector> -> bool,
    /** `index.query(...)`: the matches, or `None` when the call raises. */
    query: (Vector, int, Option<RemoteFilter>) -> Option<seq<RemoteMatch>>,
    /** `index.delete(ids=[id])` succeeds. */
    deletes: string -> bool,
    /** `describe_index_stats().total_vector_count`, or `None` when it raises. */
    vectorCount: Option<nat>)

  datatype RemoteMatch = RemoteMatch(id: string, score: real, metadata: Metadata)

  /** Sends the batches in order and stops at the first the service rejects
      (that one is sent too); the flag says whether all went through. */
  function SendBatches(remote: RemoteIndex, batches: seq<seq<RemoteVector>>): (r: (bool, seq<seq<RemoteVector>>))
    ensures r.1 <= batches
    ensures r.0 <==> r.1 == batches && forall i :: 0 <= i < |batches| ==> remote.accepts(batches[i])
    decreases |batches|
  {
    if batches == [] then (true, [])
    else if !remote.accepts(batches[0]) then (false, [batches[0]])
    else
      var rest := SendBatches(remote, batches[1..]);
      assert forall i :: 0 < i < |batches| ==> batches[i] == batches[1..][i - 1];
      (rest.0, [batches[0]] + rest.1)
  }

  /** A failed send stops at the first rejected batch: every batch before
      the last one sent was accepted, and the last one was rejected. */
  lemma {:induction false} SendBatchesStops(remote: RemoteIndex, batches: seq<seq<RemoteVector>>)
    ensures var r := SendBatches(remote, batches);
      forall i :: 0 <= i < |r.1| - 1 ==> remote.accepts(r.1[i])
    ensures var r := SendBatches(remote, batches);
      !r.0 ==> r.1 != [] && !remote.accepts(r.1[|r.1| - 1])
    decreases |batches|
  {
    if batches != [] && remote.accepts(batches[0]) {
      var rest := SendBatches(remote, batches[1..]);
      SendBatchesStops(remote, batches[1..]);
      var sent := [batches[0]] + rest.1;
      assert SendBatches(remote, batches) == (rest.0, sent);
      assert forall i :: 0 < i < |sent| ==> sent[i] == rest.1[i - 1];
    }
  }

  /** `_upsert_pinecone`: the outcome and the batches sent. */
  function RemoteUpsert(remote: RemoteIndex, data: seq<Record>, createdAt: string): (bool, seq<seq<RemoteVector>>) {
    if MetadataDefined(data, createdAt)
    then SendBatches(remote, Batches(RemoteVectors(data, createdAt), BatchSize))
    else (false, [])
  }

  /** A successful upsert sent every record once, in order, with its id and
      vector, in batches of at most 100. */
  lemma RemoteUpsertComplete(remote: RemoteIndex, data: seq<Record>, createdAt: string)
    requires RemoteUpsert(remote, data, createdAt).0
    ensures var sent := RemoteUpsert(remote, data, createdAt).1;
      var flat := Flatten(sent);
      |flat| == |data| &&
      (forall i :: 0 <= i < |data| ==> flat[i].id == data[i].id && flat[i].values == data[i].embedding) &&
      (forall i :: 0 <= i < |sent| ==> 0 < |sent[i]| <= BatchSize)
  {
    BatchesPartition(RemoteVectors(data, createdAt), BatchSize);
  }

  /** The dict `_search_pinecone` builds from one match. */
  function FormatMatch(m: RemoteMatch): SearchResult {
    var md := m.metadata;
    SearchResult(
      m.id, m.score, Get(md, ParticipantKey, Str("")),
      map[
        GoalKey := Get(md, GoalKey, Str("")),
        BlockerKey := Get(md, BlockerKey, Str("")),
        BusinessKey := Get(md, BusinessKey, Str("")),
        MindsetKey := Get(md, MindsetKey, Str("")),
        UrgencyKey := Get(md, UrgencyKey, Int(3))],
      Get(md, SearchableTextKey, Str("")))
  }

  /** What `_search_pinecone` returns: the formatted matches, or `[]` when the
      query raises. */
  function RemoteSearch(remote: RemoteIndex, q: Vector, k: int, filters: Option<Filters>): (r: seq<SearchResult>)
    ensures remote.query(q, k, TranslateFilters(filters)).None? ==> r == []
    ensures forall i :: 0 <= i < |r| ==>
      r[i].metadata.Keys == {GoalKey, BlockerKey, BusinessKey, MindsetKey, UrgencyKey}
  {
    match remote.query(q, k, TranslateFilters(filters))
    case None => []
    case Some(ms) => seq(|ms|, i requires 0 <= i < |ms| => FormatMatch(ms[i]))
  }

  /** The three fields the filters look at reach Pinecone untruncated: the
      business focus (default ""), the urgency (default 3) and the
      participant. */
  lemma UpsertedFilterFields(item: Record, createdAt: string)
    requires RemoteMetadata(item, createdAt).Some?
    ensures var md := RemoteMetadata(item, createdAt).value;
      BusinessKey in md && md[BusinessKey] == Get(item.metadata, BusinessKey, Str("")) &&
      UrgencyKey in md && md[UrgencyKey] == Get(item.metadata, UrgencyKey, Int(3)) &&
      ParticipantKey in md && md[ParticipantKey] == Str(item.participant)
  {
  }

  /** A Pinecone filter over the three keys holds exactly when each clause
      present holds. */
  lemma RemoteAcceptsByKey(pf: RemoteFilter, md: Metadata)
    requires pf.Keys <= {BusinessKey, UrgencyKey, ParticipantKey}
    requires BusinessKey in md && UrgencyKey in md && ParticipantKey in md
    ensures RemoteAccepts(pf, md) <==>
      (BusinessKey in pf ==> ClauseHolds(pf[BusinessKey], md[BusinessKey])) &&
      (UrgencyKey in pf ==> ClauseHolds(pf[UrgencyKey], md[UrgencyKey])) &&
      (ParticipantKey in pf ==> ClauseHolds(pf[ParticipantKey], md[ParticipantKey]))
  {
  }

  /** Where the two backends agree: for lower-case strings and integer
      urgencies, the local filter accepts a record exactly when the Pinecone
      filter accepts the metadata upserted for it. */
  lemma BackendsAgreeOnCanonicalValues(item: Record, createdAt: string, f: Filters)
    requires RemoteMetadata(item, createdAt).Some?
    requires Get(item.metadata, BusinessKey, Str("")).Str?
    requires Lower(Get(item.metadata, BusinessKey, Str("")).s) == Get(item.metadata, BusinessKey, Str("")).s
    requires Get(item.metadata, UrgencyKey, Int(3)).Int?
    requires Lower(item.participant) == item.participant
    requires BusinessKey in f ==> f[BusinessKey].Str? && Lower(f[BusinessKey].s) == f[BusinessKey].s
    requires UrgencyKey in f ==> f[UrgencyKey].Int?
    requires ParticipantKey in f ==> f[ParticipantKey].Str? && Lower(f[ParticipantKey].s) == f[ParticipantKey].s
    ensures MatchesFilters(item, f) == Some(
      match TranslateFilters(Some(f))
      case None => true
      case Some(pf) => RemoteAccepts(pf, RemoteMetadata(item, createdAt).value))
  {
    var md := RemoteMetadata(item, createdAt).value;
    UpsertedFilterFields(item, createdAt);
    var b := BusinessKey in f ==> md[BusinessKey] == f[BusinessKey];
    var u := UrgencyKey in f ==> md[UrgencyKey].i >= f[UrgencyKey].i;
    var p := ParticipantKey in f ==> md[ParticipantKey] == f[ParticipantKey];
    assert BusinessCheck(item, f) == Some(b);
    assert UrgencyCheck(item, f) == Some(u);
    assert ParticipantCheck(item, f) == Some(p);
    assert MatchesFilters(item, f) == Some(b && u && p);
    var t := TranslateFilters(Some(f));
    if t.Some? {
      var pf := t.value;
      assert pf.Keys <= {BusinessKey, UrgencyKey, ParticipantKey};
      RemoteAcceptsByKey(pf, md);
    } else {
      assert BusinessKey !in f && UrgencyKey !in f && ParticipantKey !in f by {
        assert BusinessKey in f ==> BusinessKey in KnownKeys(f);
        assert UrgencyKey in f ==> UrgencyKey in KnownKeys(f);
        assert ParticipantKey in f ==> ParticipantKey in KnownKeys(f);
      }
    }
  }

  /** Where they do not: a business filter that differs from the stored value
      only in case matches locally, but is sent to Pinecone verbatim as an
      exact-equality clause that the stored value fails. */
  lemma BackendsDisagreeOnCase(item: Record, createdAt: string, f: Filters)
    requires RemoteMetadata(item, createdAt).Some?
    requires BusinessKey in item.metadata && item.metadata[BusinessKey].Str?
    requires BusinessKey in f && f[BusinessKey].Str?
    requires item.metadata[BusinessKey] != f[BusinessKey]
    requires Lower(item.metadata[BusinessKey].s) == Lower(f[BusinessKey].s)
    ensures BusinessCheck(item, f) == Some(true)
    ensures TranslateFilters(Some(f)).Some?
    ensures !RemoteAccepts(TranslateFilters(Some(f)).value, RemoteMetadata(item, createdAt).value)
  {
    assert BusinessKey in KnownKeys(f);
    RemoteMetadataLimits(item, createdAt);
  }

  /** The filtering loop of `_search_local`; `ok` is false when the filter
      raises on some record. */
  method FilterScan(data: seq<Record>, f: Filters) returns (ok: bool, filtered: seq<Record>)
    ensures ok <==> FilterDefined(data, f)
    ensures ok ==> filtered == Filter(data, Passes(f))
  {
    filtered := [];
    var i := 0;
    while i < |data|
      invariant 0 <= i <= |data|
      invariant FilterDefined(data[..i], f)
      invariant filtered == Filter(data[..i], Passes(f))
    {
      var m := MatchesFilters(data[i], f);
      if m.None? {
        FilterScanFails(data, i, f);
        return false, [];
      }
      FilterScanKeeps(data, i, f, filtered);
      if m.value {
        filtered := filtered + [data[i]];
      }
      i := i + 1;
    }
    assert data[..i] == data;
    ok := true;
  }

  lemma FilterScanFails(data: seq<Record>, i: nat, f: Filters)
    requires i < |data| && MatchesFilters(data[i], f).None?
    ensures !FilterDefined(data, f)
  {
  }

  lemma FilterScanKeeps(data: seq<Record>, i: nat, f: Filters, filtered: seq<Record>)
    requires i < |data| && MatchesFilters(data[i], f).Some?
    requires FilterDefined(data[..i], f) && filtered == Filter(data[..i], Passes(f))
    ensures FilterDefined(data[..i + 1], f)
    ensures Filter(data[..i + 1], Passes(f)) ==
      filtered + (if MatchesFilters(data[i], f).value then [data[i]] else [])
  {
    FilterStep(data, i, f);
  }

  /** The scoring loop of `_search_local`; `ok` is false when some vector's
      length differs from the query's. */
  method ScoreScan(q: Vector, data: seq<Record>) returns (ok: bool, similarities: seq<Scored>)
    ensures ok <==> SameDims(q, data)
    ensures ok ==> similarities == Scores(q, data)
  {
    similarities := [];
    var j := 0;
    while j < |data|
      invariant 0 <= j <= |data|
      invariant SameDims(q, data[..j])
      invariant similarities == Scores(q, data[..j])
    {
      if |data[j].embedding| != |q| {
        return false, [];
      }
      assert data[..j + 1][..j] == data[..j];
      similarities := similarities + [Scored(Dot(q, data[j].embedding), data[j])];
      j := j + 1;
    }
    assert data[..j] == data;
    ok := true;
  }

  /** The loop of `_upsert_pinecone` that builds the vectors; `ok` is false
      when building some record's metadata raises. */
  method BuildVectors(data: seq<Record>, createdAt: string) returns (ok: bool, vectors: seq<RemoteVector>)
    ensures ok <==> MetadataDefined(data, createdAt)
    ensures ok ==> vectors == RemoteVectors(data, createdAt)
  {
    vectors := [];
    var i := 0;
    while i < |data|
      invariant 0 <= i <= |data|
      invariant MetadataDefined(data[..i], createdAt)
      invariant vectors == RemoteVectors(data[..i], createdAt)
    {
      var md := RemoteMetadata(data[i], createdAt);
      if md.None? {
        return false, [];
      }
      assert data[..i + 1][..i] == data[..i];
      vectors := vectors + [RemoteVector(data[i].id, data[i].embedding, md.value)];
      i := i + 1;
    }
    assert data[..i] == data;
    ok := true;
  }

  /** Sending the batches of a non-empty list: its first batch, then the
      batches of the rest unless the first is rejected. */
  lemma SendFirstBatch(remote: RemoteIndex, rest: seq<RemoteVector>)
    requires rest != []
    ensures var batch := if |rest| <= BatchSize then rest else rest[..BatchSize];
      var next := if |rest| <= BatchSize then [] else rest[BatchSize..];
      var r := SendBatches(remote, Batches(next, BatchSize));
      SendBatches(remote, Batches(rest, BatchSize)) ==
        if remote.accepts(batch) then (r.0, [batch] + r.1) else (false, [batch])
  {
    var batch := if |rest| <= BatchSize then rest else rest[..BatchSize];
    var next := if |rest| <= BatchSize then [] else rest[BatchSize..];
    assert Batches(rest, BatchSize) == [batch] + Batches(next, BatchSize);
    assert ([batch] + Batches(next, BatchSize))[1..] == Batches(next, BatchSize);
  }

  /** The batch loop of `_upsert_pinecone`: sends consecutive slices of 100
      and stops at the first one the service rejects. */
  method SendAll(remote: RemoteIndex, vectors: seq<RemoteVector>) returns (ok: bool, sent: seq<seq<RemoteVector>>)
    ensures (ok, sent) == SendBatches(remote, Batches(vectors, BatchSize))
  {
    ghost var all := SendBatches(remote, Batches(vectors, BatchSize));
    sent := [];
    var rest := vectors;
    while rest != []
      invariant all.0 == SendBatches(remote, Batches(rest, BatchSize)).0
      invariant all.1 == sent + SendBatches(remote, Batches(rest, BatchSize)).1
      decreases |rest|
    {
      var batch := if |rest| <= BatchSize then rest else rest[..BatchSize];
      var next := if |rest| <= BatchSize then [] else rest[BatchSize..];
      SendFirstBatch(remote, rest);
      sent := sent + [batch];
      if !remote.accepts(batch) {
        assert all == (false, sent);
        return false, sent;
      }
      rest := next;
    }
    assert Batches(rest, BatchSize) == [];
    assert sent + [] == sent;
    assert all == (true, sent);
    ok := true;
  }

  // ---------------------------------------------------------------------
  // The facade

  /** The backend-selection flag of the constructor: Pinecone only when the
      caller asks for it, the client library is installed and an API key is
      configured (a missing or empty key counts as none). */
  predicate RemoteRequested(useRemote: bool, libraryPresent: bool, apiKey: Option<string>) {
    useRemote && libraryPresent && apiKey.Some? && apiKey.value != ""
  }

  /** The state of a `VectorStore`: the active backend, the local file and
      the service. */
  datatype StoreState = StoreState(usePinecone: bool, file: LocalFile, remote: RemoteIndex)

  /** Search as dispatched by the facade. */
  function StoreSearch(st: StoreState, q: Vector, k: int, filters: Option<Filters>): seq<SearchResult> {
    if st.usePinecone then RemoteSearch(st.remote, q, k, filters) else LocalSearch(st.file, q, k, filters)
  }

  /** Stats as dispatched by the facade. */
  function StoreStatsOf(usePinecone: bool, file: LocalFile, remote: RemoteIndex): (s: StoreStats)
    ensures s.Stats? ==> s.backend == (if usePinecone then "pinecone" else "local")
    ensures usePinecone && s.Stats? ==> s.dimension == RemoteDimension && s.location == IndexName
  {
    if usePinecone then
      (match remote.vectorCount
       case None => StatsError
       case Some(n) => Stats(n, "pinecone", IndexName, RemoteDimension))
    else LocalStats(file)
  }

  class VectorStore {
    /** Whether the Pinecone backend is active. */
    var usePinecone: bool
    /** The local embeddings file (used when the local backend is active). */
    var localFile: LocalFile
    const remote: RemoteIndex

    /** `__init__` with `_init_pinecone`: a failing Pinecone initialisation
        falls back to local storage. */
    constructor(useRemote: bool, libraryPresent: bool, apiKey: Option<string>, remote: RemoteIndex, file: LocalFile)
      ensures usePinecone <==> RemoteRequested(useRemote, libraryPresent, apiKey) && remote.initOk
      ensures localFile == file && this.remote == remote
    {
      this.remote := remote;
      localFile := file;
      var requested := RemoteRequested(useRemote, libraryPresent, apiKey);
      if requested && !remote.initOk {
        requested := false;
      }
      usePinecone := requested;
    }

    /** `upsert_embeddings`: the local backend replaces the file with `data`;
        the Pinecone backend sends batches (returned as `sent`). */
    method UpsertEmbeddings(data: seq<Record>, createdAt: string) returns (ok: bool, sent: seq<seq<RemoteVector>>)
      modifies this
      ensures usePinecone == old(usePinecone)
      ensures usePinecone ==> (ok, sent) == RemoteUpsert(remote, data, createdAt) && localFile == old(localFile)
      ensures !usePinecone ==> ok && sent == [] && localFile == Stored(data)
    {
      if usePinecone {
        ok, sent := UpsertRemote(data, createdAt);
      } else {
        localFile := Stored(data);
        ok, sent := true, [];
      }
    }

    /** `_upsert_pinecone` */
    method UpsertRemote(data: seq<Record>, createdAt: string) returns (ok: bool, sent: seq<seq<RemoteVector>>)
      ensures (ok, sent) == RemoteUpsert(remote, data, createdAt)
    {
      var built, vectors := BuildVectors(data, createdAt);
      if !built {
        return false, [];
      }
      ok, sent := SendAll(remote, vectors);
    }

    /** `search`: dispatch to the active backend. */
    method Search(q: Vector, topK: int, filters: Option<Filters>) returns (results: seq<SearchResult>)
      ensures results == StoreSearch(State(), q, topK, filters)
    {
      if usePinecone {
        results := SearchRemote(q, topK, filters);
      } else {
        results := SearchLocal(q, topK, filters);
      }
    }

    /** `_search_pinecone` */
    method SearchRemote(q: Vector, topK: int, filters: Option<Filters>) returns (results: seq<SearchResult>)
      ensures results == RemoteSearch(remote, q, topK, filters)
    {
      var response := remote.query(q, topK, TranslateFilters(filters));
      if response.None? {
        return [];
      }
      var matches := response.value;
      results := [];
      var i := 0;
      while i < |matches|
        invariant 0 <= i <= |matches|
        invariant results == seq(i, j requires 0 <= j < i => FormatMatch(matches[j]))
      {
        results := results + [FormatMatch(matches[i])];
        i := i + 1;
      }
    }

    /** `_search_local`: filter, score every survivor, stable sort by
        descending score, keep `top_k`. */
    method SearchLocal(q: Vector, topK: int, filters: Option<Filters>) returns (results: seq<SearchResult>)
      ensures results == LocalSearch(localFile, q, topK, filters)
    {
      if !localFile.Stored? {
        return [];
      }
      var data := localFile.records;
      if data == [] {
        return [];
      }
      if filters.Some? && filters.value != map[] {
        var ok, filtered := FilterScan(data, filters.value);
        if !ok {
          return [];
        }
        data := filtered;
      }
      var ok, similarities := ScoreScan(q, data);
      if !ok {
        return [];
      }
      similarities := SortDesc(similarities, ScoreOf);
      var top := Take(similarities, topK);
      results := [];
      var t := 0;
      while t < |top|
        invariant 0 <= t <= |top|
        invariant results == Results(top[..t])
      {
        assert top[..t + 1][..t] == top[..t];
        results := results + [ToResult(top[t])];
        t := t + 1;
      }
      assert top[..t] == top;
    }

    /** `delete_by_id` */
    method DeleteById(id: string) returns (ok: bool)
      modifies this
      ensures usePinecone == old(usePinecone)
      ensures usePinecone ==> ok == remote.deletes(id) && localFile == old(localFile)
      ensures !usePinecone ==> (ok, localFile) == DeleteLocal(old(localFile), id)
    {
      if usePinecone {
        ok := remote.deletes(id);
      } else if localFile.Stored? {
        localFile := Stored(RemoveId(localFile.records, id));
        ok := true;
      } else {
        ok := false;
      }
    }

    function State(): StoreState
      reads this
    {
      StoreState(usePinecone, localFile, remote)
    }

    /** `get_stats`: reports which backend is active. */
    function GetStats(): (s: StoreStats)
      reads this
      ensures s.Stats? ==> s.backend == (if usePinecone then "pinecone" else "local")
    {
      StoreStatsOf(usePinecone, localFile, remote)
    }
  }
}
