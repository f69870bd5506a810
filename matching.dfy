/** The match-explanation heuristic of both search engines
    (`_explain_match` in src/vector_store.py and in src/search_engine.py): a
    list of reasons, checked by substring containment against the lower-cased
    query, rendered as a " + "-joined label list. */
module Matching {
  import opened Common
  import opened Records

  datatype Reason = SimilarGoal | SimilarChallenge | SameBusiness | SimilarMindset

  function Label(r: Reason): string {
    match r
    case SimilarGoal => "Similar goal"
    case SimilarChallenge => "Similar challenge"
    case SameBusiness => "Same business type"
    case SimilarMindset => "Similar mindset"
  }

  const NoReason := "Semantic similarity"
  const Separator := " + "

  /** `query.lower().split()` */
  function QueryWords(query: string): (words: seq<string>)
    ensures Words(words)
  {
    SplitShape(Lower(query));
    Split(Lower(query))
  }

  /** The query words are the query's whitespace-separated words: a query
      made of lower-case words joined by single spaces gives those words
      back. */
  lemma QueryWordsJoin(ws: seq<string>)
    requires Words(ws) && forall i :: 0 <= i < |ws| ==> Lower(ws[i]) == ws[i]
    ensures QueryWords(Join(ws, " ")) == ws
  {
    LowerJoin(ws);
    SplitJoin(ws);
  }

  /** `any(word in field.lower() for word in words)`, where `field` is the
      metadata value (default ""). The generator calls `.lower()` only once it
      has a word, so an empty word list never raises; otherwise a value that is
      not a string raises (`None`). */
  function WordCheck(words: seq<string>, field: Value): (r: Option<bool>)
    ensures words == [] ==> r == Some(false)
    ensures words != [] ==> (r.Some? <==> field.Str?)
    ensures r == Some(true) <==> field.Str? && AnyWordIn(words, Lower(field.s))
  {
    if words == [] then Some(false)
    else if field.Str? then Some(AnyWordIn(words, Lower(field.s)))
    else None
  }

  /** Some word occurs in `text` (Python's `word in text`). */
  predicate AnyWordIn(words: seq<string>, text: string) {
    exists i :: 0 <= i < |words| && Contains(text, words[i])
  }

  /** `field.lower() in query.lower()`: the whole business focus must occur in
      the query; a value that is not a string raises. */
  function BusinessInQuery(query: string, field: Value): (r: Option<bool>)
    ensures r.Some? <==> field.Str?
    ensures r == Some(true) <==> field.Str? && Contains(Lower(query), Lower(field.s))
  {
    if field.Str? then Some(Contains(Lower(query), Lower(field.s))) else None
  }

  /** The empty string occurs in every string, so an empty business focus
      always matches. */
  lemma EmptyBusinessAlwaysMatches(query: string)
    ensures BusinessInQuery(query, Str("")) == Some(true)
  {
    assert Lower("") == "";
    ContainsAt(Lower(query), "", 0);
  }

  function When(b: bool, r: Reason): seq<Reason> {
    if b then [r] else []
  }

  /** The reasons of src/vector_store.py, in the order goal, challenge,
      business type, mindset; `None` when a check raises. */
  function FourReasons(query: string, md: Metadata): Option<seq<Reason>> {
    var words := QueryWords(query);
    var goal :- WordCheck(words, Get(md, GoalKey, Str("")));
    var challenge :- WordCheck(words, Get(md, BlockerKey, Str("")));
    var business :- BusinessInQuery(query, Get(md, BusinessKey, Str("")));
    var mindset :- WordCheck(words, Get(md, MindsetKey, Str("")));
    Some(When(goal, SimilarGoal) + When(challenge, SimilarChallenge) +
      When(business, SameBusiness) + When(mindset, SimilarMindset))
  }

  /** The reasons of src/search_engine.py: goal, challenge, business type. */
  function ThreeReasons(query: string, md: Metadata): Option<seq<Reason>> {
    var words := QueryWords(query);
    var goal :- WordCheck(words, Get(md, GoalKey, Str("")));
    var challenge :- WordCheck(words, Get(md, BlockerKey, Str("")));
    var business :- BusinessInQuery(query, Get(md, BusinessKey, Str("")));
    Some(When(goal, SimilarGoal) + When(challenge, SimilarChallenge) + When(business, SameBusiness))
  }

  function Labels(rs: seq<Reason>): (ls: seq<string>)
    ensures |ls| == |rs|
    ensures forall i :: 0 <= i < |rs| ==> ls[i] == Label(rs[i])
  {
    seq(|rs|, i requires 0 <= i < |rs| => Label(rs[i]))
  }

  /** `" + ".join(reasons)`, or "Semantic similarity" when there is none. */
  function Render(rs: seq<Reason>): string {
    if rs == [] then NoReason else Join(Labels(rs), Separator)
  }

  /** `_explain_match` of src/vector_store.py. */
  function Explain(query: string, md: Metadata): Option<string> {
    var rs :- FourReasons(query, md);
    Some(Render(rs))
  }

  /** `_explain_match` of src/search_engine.py. */
  function ExplainThree(query: string, md: Metadata): Option<string> {
    var rs :- ThreeReasons(query, md);
    Some(Render(rs))
  }

  // ---------------------------------------------------------------------
  // Reading an explanation back

  /** The reason whose label starts `e`, if any. */
  function LeadingReason(e: string): (r: Option<Reason>)
    ensures r.Some? ==> Label(r.value) <= e
  {
    if Label(SimilarGoal) <= e then Some(SimilarGoal)
    else if Label(SimilarChallenge) <= e then Some(SimilarChallenge)
    else if Label(SameBusiness) <= e then Some(SameBusiness)
    else if Label(SimilarMindset) <= e then Some(SimilarMindset)
    else None
  }

  /** A non-empty " + "-separated list of labels. */
  function ParseLabels(e: string): Option<seq<Reason>>
    decreases |e|
  {
    var r :- LeadingReason(e);
    var rest := e[|Label(r)|..];
    if rest == [] then Some([r])
    else if Separator <= rest then
      var tail :- ParseLabels(rest[|Separator|..]);
      Some([r] + tail)
    else None
  }

  /** The reasons an explanation lists. */
  function Reasons(e: string): Option<seq<Reason>> {
    if e == NoReason then Some([]) else ParseLabels(e)
  }

  /** No label is a prefix of another label followed by anything. */
  lemma LabelsPrefixFree(r: Reason, t: string)
    ensures LeadingReason(Label(r) + t) == Some(r)
  {
    var e := Label(r) + t;
    assert e[1] == Label(r)[1] && e[8] == Label(r)[8];
  }

  lemma ParseOneLabel(r: Reason)
    ensures ParseLabels(Label(r)) == Some([r])
  {
    LabelsPrefixFree(r, "");
    assert Label(r) + "" == Label(r);
    assert Label(r)[|Label(r)|..] == [];
  }

  lemma ParseLabelCons(r: Reason, tail: string)
    requires ParseLabels(tail).Some?
    ensures ParseLabels(Label(r) + (Separator + tail)) == Some([r] + ParseLabels(tail).value)
  {
    var e := Label(r) + (Separator + tail);
    LabelsPrefixFree(r, Separator + tail);
    assert e[|Label(r)|..] == Separator + tail;
    assert (Separator + tail)[|Separator|..] == tail;
  }

  lemma {:induction false} ParseRender(rs: seq<Reason>)
    requires rs != []
    ensures ParseLabels(Join(Labels(rs), Separator)) == Some(rs)
    decreases |rs|
  {
    if |rs| == 1 {
      ParseOneLabel(rs[0]);
      assert [rs[0]] == rs;
    } else {
      var tail := Join(Labels(rs[1..]), Separator);
      assert Labels(rs)[1..] == Labels(rs[1..]);
      assert Join(Labels(rs), Separator) == Label(rs[0]) + (Separator + tail);
      ParseRender(rs[1..]);
      ParseLabelCons(rs[0], tail);
      assert [rs[0]] + rs[1..] == rs;
    }
  }

  /** The rendered explanation determines its reasons: reading it back gives
      the reasons in their order, and "Semantic similarity" means none. */
  lemma ReasonsRender(rs: seq<Reason>)
    ensures Reasons(Render(rs)) == Some(rs)
    ensures Render(rs) == NoReason <==> rs == []
  {
    if rs != [] {
      RenderedIsNotNoReason(rs);
      ParseRender(rs);
    }
  }

  /** A rendered list of labels is never the no-reason text: its second
      character is that of its first label. */
  lemma RenderedIsNotNoReason(rs: seq<Reason>)
    requires rs != []
    ensures Join(Labels(rs), Separator) != NoReason
  {
    JoinStartsWith(Labels(rs), Separator);
    LabelSecondChar(rs[0]);
  }

  /** The second character of every label differs from that of
      "Semantic similarity". */
  lemma LabelSecondChar(r: Reason)
    ensures |Label(r)| > 1 && Label(r)[1] != NoReason[1]
  {
  }

  /** The explanation of src/vector_store.py in terms of the four checks: the
      listed reasons are exactly the checks that hold, in the order goal,
      challenge, business type, mindset. */
  lemma ExplainLists(query: string, md: Metadata, g: bool, c: bool, b: bool, m: bool)
    requires var words := QueryWords(query);
      WordCheck(words, Get(md, GoalKey, Str(""))) == Some(g) &&
      WordCheck(words, Get(md, BlockerKey, Str(""))) == Some(c) &&
      BusinessInQuery(query, Get(md, BusinessKey, Str(""))) == Some(b) &&
      WordCheck(words, Get(md, MindsetKey, Str(""))) == Some(m)
    ensures Explain(query, md).Some?
    ensures Reasons(Explain(query, md).value) ==
      Some(When(g, SimilarGoal) + When(c, SimilarChallenge) + When(b, SameBusiness) + When(m, SimilarMindset))
    ensures Explain(query, md).value == NoReason <==> !g && !c && !b && !m
  {
    ReasonsRender(When(g, SimilarGoal) + When(c, SimilarChallenge) + When(b, SameBusiness) + When(m, SimilarMindset));
  }

  /** The explanation of src/search_engine.py in terms of its three checks:
      goal, challenge, business type in that order, "Semantic similarity"
      when none holds. */
  lemma ExplainThreeLists(query: string, md: Metadata, g: bool, c: bool, b: bool)
    requires var words := QueryWords(query);
      WordCheck(words, Get(md, GoalKey, Str(""))) == Some(g) &&
      WordCheck(words, Get(md, BlockerKey, Str(""))) == Some(c) &&
      BusinessInQuery(query, Get(md, BusinessKey, Str(""))) == Some(b)
    ensures ExplainThree(query, md).Some?
    ensures Reasons(ExplainThree(query, md).value) ==
      Some(When(g, SimilarGoal) + When(c, SimilarChallenge) + When(b, SameBusiness))
    ensures ExplainThree(query, md).value == NoReason <==> !g && !c && !b
  {
    ReasonsRender(When(g, SimilarGoal) + When(c, SimilarChallenge) + When(b, SameBusiness));
  }

  /** The four checks of src/vector_store.py, when none of them raises. */
  lemma FourReasonsAre(query: string, md: Metadata)
    requires FourReasons(query, md).Some?
    ensures var words := QueryWords(query);
      var g := WordCheck(words, Get(md, GoalKey, Str("")));
      var c := WordCheck(words, Get(md, BlockerKey, Str("")));
      var b := BusinessInQuery(query, Get(md, BusinessKey, Str("")));
      var m := WordCheck(words, Get(md, MindsetKey, Str("")));
      g.Some? && c.Some? && b.Some? && m.Some? &&
      FourReasons(query, md).value ==
        When(g.value, SimilarGoal) + When(c.value, SimilarChallenge) + When(b.value, SameBusiness) + When(m.value, SimilarMindset)
  {
  }

  /** An empty (or absent) business focus always yields "Same business type"
      whenever the explanation does not raise. */
  lemma EmptyBusinessExplained(query: string, md: Metadata)
    requires Get(md, BusinessKey, Str("")) == Str("")
    requires FourReasons(query, md).Some?
    ensures SameBusiness in FourReasons(query, md).value
  {
    EmptyBusinessAlwaysMatches(query);
    FourReasonsAre(query, md);
    var words := QueryWords(query);
    var pre := When(WordCheck(words, Get(md, GoalKey, Str(""))).value, SimilarGoal) +
      When(WordCheck(words, Get(md, BlockerKey, Str(""))).value, SimilarChallenge);
    assert FourReasons(query, md).value[|pre|] == SameBusiness;
  }

  /** Containment, not token equality: the query word "sale" matches a goal
      that mentions "sales". */
  lemma WordMatchIsSubstring()
    ensures WordCheck(["sale"], Str("More Sales")) == Some(true)
  {
    var text := Lower("More Sales");
    assert text == "more sales";
    assert text[5..9] == "sale";
    ContainsAt(text, "sale", 5);
    assert ["sale"][0] == "sale";
    assert AnyWordIn(["sale"], text);
  }

  /** The three-reason variant never mentions the mindset and otherwise
      agrees with the four-reason one. */
  lemma ThreeReasonsDropMindset(query: string, md: Metadata)
    requires FourReasons(query, md).Some?
    ensures ThreeReasons(query, md).Some?
    ensures SimilarMindset !in ThreeReasons(query, md).value
    ensures FourReasons(query, md).value ==
      ThreeReasons(query, md).value +
      When(WordCheck(QueryWords(query), Get(md, MindsetKey, Str(""))).value, SimilarMindset)
  {
    FourReasonsAre(query, md);
  }
}
