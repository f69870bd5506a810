/** The data the pipeline passes around: JSON values as they appear in
    metadata and filter dicts, extracted insights, and the embedding records
    that the embeddings file and the vector store hold. */
module Records {
  import opened Common

  /** A JSON value in a metadata or filter dict: `None`, an `int`, a `str`, or
      another value (an array or an object), which carries the text Python's
      `str()` gives it. */
  datatype Value = Null | Int(i: int) | Str(s: string) | Other(shown: string)

  type Metadata = map<string, Value>

  /** `d.get(k, default)` */
  function Get(m: Metadata, k: string, default: Value): (v: Value)
    ensures k !in m ==> v == default
  {
    if k in m then m[k] else default
  }

  /** How an f-string renders a value: `str(v)`. */
  function Show(v: Value): string {
    match v
    case Null => "None"
    case Int(i) => IntToString(i)
    case Str(s) => s
    case Other(shown) => shown
  }

  // Metadata keys, as spelled in the source.
  const GoalKey := "primary_goal"
  const BlockerKey := "main_blocker"
  const BusinessKey := "business_focus"
  const MindsetKey := "mindset_pattern"
  const UrgencyKey := "urgency_level"
  const ParticipantKey := "participant"
  const SearchableTextKey := "searchable_text"
  const CreatedAtKey := "created_at"
  const CurrentStageKey := "current_stage"

  /** One entry of the insights file: the transcript's id and participant,
      the extracted text fields and urgency as a JSON dict (a field the
      extraction did not return is absent), and the two list fields (absent,
      `null` and empty lists all behave as the empty list). */
  datatype Insight = Insight(
    id: string,
    participant: string,
    fields: Metadata,
    secondaryBlockers: seq<string>,
    keyEmotions: seq<string>)

  /** One embedding record of the embeddings file / local store. */
  datatype Record = Record(
    id: string,
    participant: string,
    embedding: Vector,
    searchableText: string,
    metadata: Metadata)
}
