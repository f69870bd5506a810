/** `EmbeddingGenerator` of src/embedding_generator.py: the searchable text of
    an insight, the embedding call with its zero-vector fallback, and the
    mapping of insights to embedding records. The embedding service is an
    abstract partial function. */
module Embeddings {
  import opened Common
  import opened Records

  /** Dimension `embedding_dim` starts at. */
  const DefaultDimension: nat := 768

  /** The embedding service: the vector for a text, or `None` when the call
      raises. */
  type EmbedService = string -> Option<Vector>

  /** What `generate_embedding` depends on. */
  datatype Embedder = Embedder(apiAvailable: bool, embed: EmbedService, dim: nat)

  /** `generate_embedding`: the service's vector, or `[0.0] * embedding_dim`
      when the service is unavailable or the call fails. */
  function Embed(e: Embedder, text: string): (v: Vector)
    ensures e.apiAvailable && e.embed(text).Some? ==> v == e.embed(text).value
    ensures !e.apiAvailable || e.embed(text).None? ==> |v| == e.dim && v == Zeros(e.dim)
  {
    if !e.apiAvailable then Zeros(e.dim)
    else match e.embed(text)
      case Some(v) => v
      case None => Zeros(e.dim)
  }

  /** Without the service every text gets the same vector, which scores 0
      against every vector of its length. */
  lemma FallbackIsConstant(e: Embedder, a: string, b: string, w: Vector)
    requires !e.apiAvailable
    requires |w| == e.dim
    ensures Embed(e, a) == Embed(e, b)
    ensures Dot(Embed(e, a), w) == 0.0
  {
    DotZeros(e.dim, w);
  }

  const ListSeparator := ", "
  const PartSeparator := " | "

  /** The five parts every searchable text has, `f"Goal: {...}"` and so on;
      an absent field renders as "" and a `null` one as "None". */
  function BaseParts(ins: Insight): seq<string> {
    var f := ins.fields;
    [ "Goal: " + Show(Get(f, GoalKey, Str(""))),
      "Main challenge: " + Show(Get(f, BlockerKey, Str(""))),
      "Business: " + Show(Get(f, BusinessKey, Str(""))),
      "Mindset: " + Show(Get(f, MindsetKey, Str(""))),
      "Current stage: " + Show(Get(f, CurrentStageKey, Str(""))) ]
  }

  /** The parts appended only for non-empty lists. */
  function ListParts(ins: Insight): seq<string> {
    (if ins.secondaryBlockers != [] then ["Other challenges: " + Join(ins.secondaryBlockers, ListSeparator)] else []) +
    (if ins.keyEmotions != [] then ["Emotions: " + Join(ins.keyEmotions, ListSeparator)] else [])
  }

  /** `create_searchable_text` */
  function SearchableText(ins: Insight): string {
    Join(BaseParts(ins) + ListParts(ins), PartSeparator)
  }

  lemma JoinFive(a: string, b: string, c: string, d: string, e: string, sep: string)
    ensures Join([a, b, c, d, e], sep) == a + sep + (b + sep + (c + sep + (d + sep + e)))
  {
    assert [d, e][1..] == [e];
    assert Join([d, e], sep) == d + sep + e;
    assert [c, d, e][1..] == [d, e];
    assert Join([c, d, e], sep) == c + sep + Join([d, e], sep);
    assert [b, c, d, e][1..] == [c, d, e];
    assert Join([b, c, d, e], sep) == b + sep + Join([c, d, e], sep);
    assert [a, b, c, d, e][1..] == [b, c, d, e];
  }

  /** The five labelled parts joined by " | ". */
  lemma BaseLayout(ins: Insight, goal: string, blocker: string, business: string, mindset: string, stage: string)
    requires goal == Show(Get(ins.fields, GoalKey, Str("")))
    requires blocker == Show(Get(ins.fields, BlockerKey, Str("")))
    requires business == Show(Get(ins.fields, BusinessKey, Str("")))
    requires mindset == Show(Get(ins.fields, MindsetKey, Str("")))
    requires stage == Show(Get(ins.fields, CurrentStageKey, Str("")))
    ensures Join(BaseParts(ins), PartSeparator) ==
      "Goal: " + goal + PartSeparator + ("Main challenge: " + blocker + PartSeparator + (
      "Business: " + business + PartSeparator + ("Mindset: " + mindset + PartSeparator +
      ("Current stage: " + stage))))
  {
    var p := BaseParts(ins);
    assert p == ["Goal: " + goal, "Main challenge: " + blocker, "Business: " + business,
      "Mindset: " + mindset, "Current stage: " + stage];
    JoinFive(p[0], p[1], p[2], p[3], p[4], PartSeparator);
  }

  /** The text is the five labelled parts in the order goal, main challenge,
      business, mindset, current stage (each field as `str()` renders it, ""
      when absent), followed by the list parts when there are any. */
  lemma SearchableTextLayout(ins: Insight, goal: string, blocker: string, business: string, mindset: string, stage: string)
    requires goal == Show(Get(ins.fields, GoalKey, Str("")))
    requires blocker == Show(Get(ins.fields, BlockerKey, Str("")))
    requires business == Show(Get(ins.fields, BusinessKey, Str("")))
    requires mindset == Show(Get(ins.fields, MindsetKey, Str("")))
    requires stage == Show(Get(ins.fields, CurrentStageKey, Str("")))
    ensures var five :=
        "Goal: " + goal + PartSeparator + ("Main challenge: " + blocker + PartSeparator + (
        "Business: " + business + PartSeparator + ("Mindset: " + mindset + PartSeparator +
        ("Current stage: " + stage))));
      SearchableText(ins) ==
        if ListParts(ins) == [] then five
        else five + PartSeparator + Join(ListParts(ins), PartSeparator)
  {
    BaseLayout(ins, goal, blocker, business, mindset, stage);
    var p := BaseParts(ins);
    if ListParts(ins) == [] {
      assert p + ListParts(ins) == p;
    } else {
      assert |p| == 5;
      JoinAppend(p, ListParts(ins), PartSeparator);
    }
  }

  /** Emotions come last: a non-empty emotion list appends exactly
      " | Emotions: " and the emotions joined by ", " to the text without them. */
  lemma EmotionsAppended(ins: Insight)
    requires ins.keyEmotions != []
    ensures SearchableText(ins) ==
      SearchableText(ins.(keyEmotions := [])) + PartSeparator + "Emotions: " + Join(ins.keyEmotions, ListSeparator)
  {
    var without := ins.(keyEmotions := []);
    var parts := BaseParts(without) + ListParts(without);
    assert BaseParts(ins) == BaseParts(without);
    assert BaseParts(ins) + ListParts(ins) == parts + ["Emotions: " + Join(ins.keyEmotions, ListSeparator)];
    JoinSnoc(parts, PartSeparator, "Emotions: " + Join(ins.keyEmotions, ListSeparator));
  }

  /** Secondary blockers come after the five parts and before the emotions. */
  lemma SecondaryBlockersAppended(ins: Insight)
    requires ins.secondaryBlockers != [] && ins.keyEmotions == []
    ensures SearchableText(ins) ==
      SearchableText(ins.(secondaryBlockers := [])) + PartSeparator + "Other challenges: " + Join(ins.secondaryBlockers, ListSeparator)
  {
    var without := ins.(secondaryBlockers := []);
    var parts := BaseParts(without) + ListParts(without);
    assert BaseParts(ins) == BaseParts(without);
    assert BaseParts(ins) + ListParts(ins) == parts + ["Other challenges: " + Join(ins.secondaryBlockers, ListSeparator)];
    JoinSnoc(parts, PartSeparator, "Other challenges: " + Join(ins.secondaryBlockers, ListSeparator));
  }

  /** The metadata of a record: the five fields, `None` where absent. */
  function RecordMetadata(ins: Insight): (md: Metadata)
    ensures md.Keys == {GoalKey, BlockerKey, BusinessKey, MindsetKey, UrgencyKey}
    ensures forall k :: k in md ==> md[k] == Get(ins.fields, k, Null)
  {
    var f := ins.fields;
    map[
      GoalKey := Get(f, GoalKey, Null),
      BlockerKey := Get(f, BlockerKey, Null),
      BusinessKey := Get(f, BusinessKey, Null),
      MindsetKey := Get(f, MindsetKey, Null),
      UrgencyKey := Get(f, UrgencyKey, Null)]
  }

  /** The record `process_all_insights` builds for one insight. */
  function ToRecord(e: Embedder, ins: Insight): Record {
    var text := SearchableText(ins);
    Record(ins.id, ins.participant, Embed(e, text), text, RecordMetadata(ins))
  }

  /** The records `process_all_insights` builds, one per insight, in order. */
  function AllRecords(e: Embedder, insights: seq<Insight>): seq<Record> {
    Map((ins: Insight) => ToRecord(e, ins), insights)
  }

  /** Record `i` is the record of insight `i`. */
  lemma RecordsAt(e: Embedder, insights: seq<Insight>)
    ensures |AllRecords(e, insights)| == |insights|
    ensures forall i :: 0 <= i < |insights| ==> AllRecords(e, insights)[i] == ToRecord(e, insights[i])
  {
    MapAt((ins: Insight) => ToRecord(e, ins), insights);
  }

  class EmbeddingGenerator {
    var embeddingDim: nat
    const apiAvailable: bool
    const embed: EmbedService

    /** `__init__`: the service counts as available when configuration
        succeeds and a test call for "test" succeeds. */
    constructor(configured: bool, embed: EmbedService)
      ensures embeddingDim == DefaultDimension
      ensures apiAvailable == (configured && embed("test").Some?)
      ensures this.embed == embed
    {
      embeddingDim := DefaultDimension;
      apiAvailable := configured && embed("test").Some?;
      this.embed := embed;
    }

    function State(): Embedder
      reads this
    {
      Embedder(apiAvailable, embed, embeddingDim)
    }

    /** `generate_embedding` */
    method GenerateEmbedding(text: string) returns (v: Vector)
      ensures v == Embed(State(), text)
    {
      if !apiAvailable {
        return Zeros(embeddingDim);
      }
      var response := embed(text);
      if response.None? {
        return Zeros(embeddingDim);
      }
      v := response.value;
    }

    /** The record for one insight: its searchable text, that text's
        embedding and the five metadata fields. */
    method BuildRecord(ins: Insight) returns (r: Record)
      ensures r == ToRecord(State(), ins)
    {
      var text := SearchableText(ins);
      var embedding := GenerateEmbedding(text);
      r := Record(ins.id, ins.participant, embedding, text, RecordMetadata(ins));
    }

    /** `process_all_insights`: without the service, the existing embeddings
        file contents; otherwise one record per insight, in order. */
    method ProcessAllInsights(existing: seq<Record>, insights: seq<Insight>) returns (records: seq<Record>)
      ensures !apiAvailable ==> records == existing
      ensures apiAvailable ==> records == AllRecords(State(), insights)
    {
      if !apiAvailable {
        return existing;
      }
      records := [];
      var i := 0;
      while i < |insights|
        invariant 0 <= i <= |insights|
        invariant records == AllRecords(State(), insights[..i])
      {
        var r := BuildRecord(insights[i]);
        assert insights[..i + 1][..i] == insights[..i];
        assert insights[..i + 1][i] == insights[i];
        records := records + [r];
        i := i + 1;
      }
      assert insights[..i] == insights;
    }
  }
}
