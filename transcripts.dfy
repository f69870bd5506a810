/** `TranscriptProcessor` of src/transcript_processor.py: the availability
    check of the generative model, the extraction prompt, the cleaning of the
    model's reply, and the merge of the extracted fields into an insight dict.
    The model and the JSON parser are abstract partial functions. */
module Transcripts {
  import opened Common
  import opened Records

  /** The generative model: the reply text for a prompt, or `None` when the
      call (or reading `.text`) raises. */
  type Client = string -> Option<string>

  /** `json.loads` of the cleaned reply followed by `**insights`: the reply's
      JSON object, or `None` when parsing fails or the reply is not an
      object. */
  type Parser = string -> Option<Metadata>

  /** One entry of the transcripts file. */
  datatype Transcript = Transcript(id: Value, participant: Value, transcript: Value)

  /** `_check_api_availability`: there is a model and a "test" call to it
      succeeds. */
  predicate CheckApiAvailability(client: Option<Client>) {
    client.Some? && client.value("test").Some?
  }

  /** With no model the service is unavailable. */
  lemma NoClientUnavailable()
    ensures !CheckApiAvailability(None)
  {
  }

  // ---------------------------------------------------------------------
  // The prompt

  function Spaces(n: nat): (r: string)
    ensures |r| == n && forall i :: 0 <= i < n ==> r[i] == ' '
  {
    seq(n, _ => ' ')
  }

  /** The instruction line that opens the prompt. */
  const Instruction := "Analyze this coaching session transcript and extract key insights. Return your response as a valid JSON object with exactly these fields:"

  /** The eight field lines of the requested JSON object, without their
      indentation and line ends. */
  const FieldLines: seq<string> := [
    "\"primary_goal\": \"Main business/personal goal (be specific with numbers if mentioned)\",",
    "\"main_blocker\": \"Primary obstacle or challenge preventing progress\",",
    "\"secondary_blockers\": [\"List of additional challenges\"],",
    "\"business_focus\": \"Industry or business type (e.g., 'e-commerce', 'saas', 'coaching')\",",
    "\"mindset_pattern\": \"Dominant psychological pattern or limiting belief\",",
    "\"current_stage\": \"Where they are now (revenue, team size, etc.)\",",
    "\"key_emotions\": [\"Primary emotions expressed\"],",
    "\"urgency_level\": \"1-5 scale of how urgent their situation feels\""
  ]

  /** The field lines, each indented by 16 spaces and ended by a newline. */
  function FieldBlock(lines: seq<string>): string
    decreases |lines|
  {
    if lines == [] then "" else Spaces(16) + lines[0] + "\n" + FieldBlock(lines[1..])
  }

  /** Everything before the transcript text. */
  function PromptHead(): string {
    "\n" + Spaces(12) + Instruction + "\n" + Spaces(12) + "{\n" + FieldBlock(FieldLines) +
    Spaces(12) + "}\n" + Spaces(12) + "\n" + Spaces(12) + "Transcript: "
  }

  /** Everything after the transcript text. */
  function PromptTail(): string {
    "\n" + Spaces(12)
  }

  /** The f-string prompt for one transcript. */
  function Prompt(t: Transcript): string {
    PromptHead() + Show(t.transcript) + PromptTail()
  }

  /** The prompt quotes the transcript text whole. */
  lemma PromptQuotesTranscript(t: Transcript)
    ensures Contains(Prompt(t), Show(t.transcript))
  {
    ContainsMiddle(PromptHead(), Show(t.transcript), PromptTail());
  }

  /** Transcripts with different texts get different prompts. */
  lemma PromptInjective(t: Transcript, u: Transcript)
    requires Prompt(t) == Prompt(u)
    ensures Show(t.transcript) == Show(u.transcript)
  {
    MiddleUnique(PromptHead(), Show(t.transcript), Show(u.transcript), PromptTail());
  }

  // ---------------------------------------------------------------------
  // Cleaning the reply

  /** `s.replace(pat, "")`: removes the non-overlapping occurrences of `pat`,
      scanning from the left. */
  function RemoveAll(s: string, pat: string): (r: string)
    requires pat != []
    ensures |r| <= |s|
    decreases |s|
  {
    if |s| < |pat| then s
    else if s[..|pat|] == pat then RemoveAll(s[|pat|..], pat)
    else [s[0]] + RemoveAll(s[1..], pat)
  }

  const JsonFence := "```json"
  const Fence := "```"

  /** `reply.strip().replace("```json", "").replace("```", "")` */
  function Clean(reply: string): string {
    RemoveAll(RemoveAll(Strip(reply), JsonFence), Fence)
  }

  predicate NoBacktick(s: string) {
    forall i :: 0 <= i < |s| ==> s[i] != '`'
  }

  /** Text without a backtick passes through the removal of a pattern that
      starts with one. */
  lemma {:induction false} RemoveAllSkips(s: string, t: string, pat: string)
    requires pat != [] && pat[0] == '`' && NoBacktick(s)
    ensures RemoveAll(s + t, pat) == s + RemoveAll(t, pat)
    decreases |s|
  {
    var st := s + t;
    if s == [] {
      assert st == t;
    } else if |st| < |pat| {
      assert RemoveAll(t, pat) == t;
    } else {
      assert st[..|pat|][0] == s[0] != pat[0];
      assert RemoveAll(st, pat) == [s[0]] + RemoveAll(st[1..], pat);
      assert st[1..] == s[1..] + t;
      RemoveAllSkips(s[1..], t, pat);
      assert [s[0]] + s[1..] == s;
    }
  }

  /** A reply fenced as ```json ... ``` cleans to its body. */
  lemma CleanJsonFence(body: string)
    requires NoBacktick(body)
    ensures Clean(JsonFence + body + Fence) == body
  {
    var fenced := JsonFence + body + Fence;
    assert fenced[0] == '`' && fenced[|fenced| - 1] == '`';
    StripNoop(fenced);
    assert fenced[..|JsonFence|] == JsonFence;
    assert fenced[|JsonFence|..] == body + Fence;
    assert RemoveAll(fenced, JsonFence) == RemoveAll(body + Fence, JsonFence);
    RemoveAllSkips(body, Fence, JsonFence);
    assert RemoveAll(Fence, JsonFence) == Fence;
    RemoveAllSkips(body, Fence, Fence);
    assert Fence[..|Fence|] == Fence && Fence[|Fence|..] == "";
    assert RemoveAll(Fence, Fence) == "";
    assert body + "" == body;
  }

  lemma NoBacktickDrop(s: string, n: nat)
    requires NoBacktick(s) && n <= |s|
    ensures NoBacktick(s[n..])
  {
    forall i | 0 <= i < |s| - n ensures s[n..][i] != '`' {
      assert s[n..][i] == s[n + i];
    }
  }

  lemma NoBacktickTake(s: string, n: nat)
    requires NoBacktick(s) && n <= |s|
    ensures NoBacktick(s[..n])
  {
    forall i | 0 <= i < n ensures s[..n][i] != '`' {
      assert s[..n][i] == s[i];
    }
  }

  /** Stripping adds no backtick. */
  lemma NoBacktickStrip(s: string)
    requires NoBacktick(s)
    ensures NoBacktick(Strip(s))
  {
    var left := StripLeft(s);
    NoBacktickDrop(s, |s| - |left|);
    NoBacktickTake(left, |StripRight(left)|);
  }

  /** Removing a pattern that starts with a backtick leaves text without a
      backtick unchanged. */
  lemma RemoveAllAbsent(s: string, pat: string)
    requires pat != [] && pat[0] == '`' && NoBacktick(s)
    ensures RemoveAll(s, pat) == s
  {
    RemoveAllSkips(s, "", pat);
    assert s + "" == s;
  }

  /** A reply without a backtick is only stripped. */
  lemma CleanUnfenced(body: string)
    requires NoBacktick(body)
    ensures Clean(body) == Strip(body)
  {
    NoBacktickStrip(body);
    RemoveAllAbsent(Strip(body), JsonFence);
    RemoveAllAbsent(Strip(body), Fence);
  }

  // ---------------------------------------------------------------------
  // Extraction

  const IdKey := "id"

  /** `{"id": ..., "participant": ..., **insights}`: the extracted fields win
      over the transcript's id and participant. */
  function Merge(t: Transcript, extracted: Metadata): (m: Metadata)
    ensures m.Keys == extracted.Keys + {IdKey, ParticipantKey}
    ensures forall k :: k in extracted ==> m[k] == extracted[k]
    ensures IdKey !in extracted ==> m[IdKey] == t.id
    ensures ParticipantKey !in extracted ==> m[ParticipantKey] == t.participant
  {
    map[IdKey := t.id, ParticipantKey := t.participant] + extracted
  }

  /** The insight dict for one transcript; `None` when there is no model, the
      call raises or the reply does not parse to an object. */
  function Extract(client: Option<Client>, parse: Parser, t: Transcript): Option<Metadata> {
    if client.None? then None
    else
      var reply :- client.value(Prompt(t));
      var extracted :- parse(Clean(reply));
      Some(Merge(t, extracted))
  }

  function Extractor(client: Option<Client>, parse: Parser): Transcript -> Option<Metadata> {
    (t: Transcript) => Extract(client, parse, t)
  }

  /** The results of the extraction loop: failing transcripts are skipped. */
  function ExtractAll(client: Option<Client>, parse: Parser, ts: seq<Transcript>): seq<Metadata> {
    FilterMap(Extractor(client, parse), ts)
  }

  /** A transcript that fails leaves no trace in the results. */
  lemma SkipFailure(client: Option<Client>, parse: Parser, a: seq<Transcript>, t: Transcript, b: seq<Transcript>)
    requires Extract(client, parse, t).None?
    ensures ExtractAll(client, parse, a + [t] + b) == ExtractAll(client, parse, a + b)
  {
    var f := Extractor(client, parse);
    FilterMapAppend(f, a + [t], b);
    FilterMapAppend(f, a, [t]);
    FilterMapAppend(f, a, b);
    assert [t][..0] == [];
    assert FilterMap(f, [t]) == [];
  }

  /** Every transcript is processed independently: the results for two lists
      of transcripts, one after the other, are their results concatenated. */
  lemma ExtractAllAppend(client: Option<Client>, parse: Parser, a: seq<Transcript>, b: seq<Transcript>)
    ensures ExtractAll(client, parse, a + b) == ExtractAll(client, parse, a) + ExtractAll(client, parse, b)
  {
    FilterMapAppend(Extractor(client, parse), a, b);
  }

  /** One result per transcript at most, and exactly one each when none
      fails. */
  lemma ExtractAllCount(client: Option<Client>, parse: Parser, ts: seq<Transcript>)
    ensures |ExtractAll(client, parse, ts)| <= |ts|
    ensures |ExtractAll(client, parse, ts)| == |ts| <==> forall i :: 0 <= i < |ts| ==> Extract(client, parse, ts[i]).Some?
  {
    FilterMapCount(Extractor(client, parse), ts);
  }

  /** Without a model nothing is extracted. */
  lemma NoClientNoResults(parse: Parser, ts: seq<Transcript>)
    ensures ExtractAll(None, parse, ts) == []
  {
    FilterMapNone(Extractor(None, parse), ts);
  }

  class TranscriptProcessor {
    const client: Option<Client>
    const apiAvailable: bool

    /** `__init__`: a configuration failure leaves no model; otherwise the
        model is available when the test call succeeds. */
    constructor(configured: bool, model: Client)
      ensures client == (if configured then Some(model) else None)
      ensures apiAvailable == CheckApiAvailability(client)
    {
      client := if configured then Some(model) else None;
      apiAvailable := configured && model("test").Some?;
    }

    /** `process_all_transcripts`: the local insights when the model is not
        available, otherwise the extraction of every transcript that does not
        fail, in order. */
    method ProcessAllTranscripts(localInsights: seq<Metadata>, transcripts: seq<Transcript>, parse: Parser)
      returns (results: seq<Metadata>)
      ensures !apiAvailable ==> results == localInsights
      ensures apiAvailable ==> results == ExtractAll(client, parse, transcripts)
    {
      if !apiAvailable {
        return localInsights;
      }
      results := [];
      var i := 0;
      while i < |transcripts|
        invariant 0 <= i <= |transcripts|
        invariant results == ExtractAll(client, parse, transcripts[..i])
      {
        assert transcripts[..i + 1][..i] == transcripts[..i];
        var insight := Extract(client, parse, transcripts[i]);
        if insight.Some? {
          results := results + [insight.value];
        }
        i := i + 1;
      }
      assert transcripts[..i] == transcripts;
    }
  }
}
