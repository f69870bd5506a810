/** The two pieces of logic of app.py that the overview table applies to
    every insight: `normalize_urgency` and the 40-character truncation of the
    goal and challenge cells. */
module App {
  import opened Common
  import opened Records

  // ---------------------------------------------------------------------
  // Python's int() on a string

  predicate IsDigit(c: char) { '0' <= c <= '9' }

  function DigitValue(c: char): nat
    requires IsDigit(c)
  {
    c as int - '0' as int
  }

  /** The digit part `int()` accepts, `digit (["_"] digit)*`: ASCII digits,
      with single underscores allowed between two digits. */
  predicate DigitRun(s: string)
    decreases |s|
  {
    s != [] && IsDigit(s[|s| - 1]) &&
    (|s| == 1 ||
     DigitRun(s[..|s| - 1]) ||
     (|s| >= 3 && s[|s| - 2] == '_' && DigitRun(s[..|s| - 2])))
  }

  /** The value of a digit run, underscores ignored. */
  function RunValue(s: string): nat
    requires DigitRun(s)
    decreases |s|
  {
    var d := DigitValue(s[|s| - 1]);
    if |s| == 1 then d
    else if DigitRun(s[..|s| - 1]) then 10 * RunValue(s[..|s| - 1]) + d
    else 10 * RunValue(s[..|s| - 2]) + d
  }

  /** A digit run starts with a digit. */
  lemma {:induction false} RunStartsWithDigit(s: string)
    requires DigitRun(s)
    ensures IsDigit(s[0])
    decreases |s|
  {
    if |s| > 1 {
      if DigitRun(s[..|s| - 1]) {
        RunStartsWithDigit(s[..|s| - 1]);
      } else {
        RunStartsWithDigit(s[..|s| - 2]);
      }
    }
  }

  /** The signed number after stripping: an optional sign and a digit run. */
  function ParseStripped(t: string): Option<int> {
    if t != [] && (t[0] == '-' || t[0] == '+') then
      if DigitRun(t[1..]) then
        var v: int := RunValue(t[1..]);
        Some(if t[0] == '-' then -v else v)
      else None
    else if DigitRun(t) then Some(RunValue(t))
    else None
  }

  /** `int(s)` for a string: surrounding whitespace, an optional sign and a
      digit run; `None` where it raises ValueError. */
  function ParseInt(s: string): Option<int> {
    ParseStripped(Strip(s))
  }

  lemma {:induction false} NatToStringValue(n: nat)
    ensures DigitRun(NatToString(n))
    ensures RunValue(NatToString(n)) == n
    decreases n
  {
    var s := NatToString(n);
    if n >= 10 {
      NatToStringValue(n / 10);
      assert s[..|s| - 1] == NatToString(n / 10);
      assert s[|s| - 2] != '_';
    }
  }

  /** `int(str(n)) == n` */
  lemma ParseIntRoundTrip(n: int)
    ensures ParseInt(IntToString(n)) == Some(n)
  {
    if n < 0 {
      ParseNegative(-n);
    } else {
      ParseNonNegative(n);
    }
  }

  lemma ParseNonNegative(n: nat)
    ensures ParseInt(NatToString(n)) == Some(n)
  {
    NatToStringValue(n);
    ParseRun(NatToString(n));
  }

  lemma ParseNegative(m: nat)
    requires m > 0
    ensures ParseInt(IntToString(0 - m)) == Some(0 - m)
  {
    NatToStringValue(m);
    ParseMinusRun(NatToString(m), m);
  }

  /** A minus sign followed by a digit run of value `m` parses to `-m`. */
  lemma ParseMinusRun(d: string, m: nat)
    requires DigitRun(d) && RunValue(d) == m
    ensures ParseInt("-" + d) == Some(0 - m)
  {
    var s := "-" + d;
    assert s[0] == '-';
    assert s[1..] == d;
    StripSigned(s);
    assert ParseStripped(s) == Some(0 - m);
  }

  /** A digit run, with nothing around it, parses to its value. */
  lemma ParseRun(t: string)
    requires DigitRun(t)
    ensures ParseInt(t) == Some(RunValue(t))
  {
    RunStartsWithDigit(t);
    StripNoop(t);
  }

  /** A sign followed by a digit run parses to the signed value. */
  lemma ParseSignedRun(s: string)
    requires s != [] && (s[0] == '-' || s[0] == '+') && DigitRun(s[1..])
    ensures ParseInt(s) == Some(if s[0] == '-' then 0 - RunValue(s[1..]) else RunValue(s[1..]))
  {
    StripSigned(s);
    SignedRunValue(s);
  }

  lemma StripSigned(s: string)
    requires s != [] && (s[0] == '-' || s[0] == '+') && DigitRun(s[1..])
    ensures Strip(s) == s
  {
    assert s[|s| - 1] == s[1..][|s| - 2];
    StripNoop(s);
  }

  lemma SignedRunValue(s: string)
    requires s != [] && (s[0] == '-' || s[0] == '+') && DigitRun(s[1..])
    ensures ParseStripped(s) == Some(if s[0] == '-' then 0 - RunValue(s[1..]) else RunValue(s[1..]))
  {
  }

  // ---------------------------------------------------------------------
  // normalize_urgency

  /** The `mapping` dict of descriptive labels. */
  const Labels: map<string, int> :=
    map["low" := 1, "medium" := 3, "high" := 5, "urgent" := 5, "critical" := 5]

  /** `mapping.get(key, 3)` read off the dict. */
  function LabelOrDefault(key: string): int {
    if key in Labels then Labels[key] else 3
  }

  /** The lookup with its default, written out label by label. */
  function LabelValue(key: string): (r: int)
    ensures r == LabelOrDefault(key)
    ensures r == 1 || r == 3 || r == 5
  {
    if key == "low" then 1
    else if key == "medium" then 3
    else if key == "high" || key == "urgent" || key == "critical" then 5
    else 3
  }

  /** The label lookup: `mapping.get(str(value).strip().lower(), 3)`. */
  function LabelUrgency(text: string): int {
    LabelValue(Lower(Strip(text)))
  }

  /** `normalize_urgency`: `None` is 3, an int is kept as it is, a numeric
      string is parsed, anything else goes through the label lookup. */
  function NormalizeUrgency(v: Value): (r: int)
    ensures v.Int? ==> r == v.i
    ensures v.Str? && ParseInt(v.s).Some? ==> r == ParseInt(v.s).value
    ensures r in {1, 3, 5} || v.Int? || (v.Str? && ParseInt(v.s).Some?)
  {
    match v
    case Null => 3
    case Int(i) => i
    case Str(s) => (match ParseInt(s) case Some(i) => i case None => LabelUrgency(s))
    case Other(shown) => LabelUrgency(shown)
  }

  /** An integer and its decimal string normalise to the same value. */
  lemma NumericStringAgrees(n: int)
    ensures NormalizeUrgency(Str(IntToString(n))) == NormalizeUrgency(Int(n)) == n
  {
    ParseIntRoundTrip(n);
  }

  /** Anything that is not numeric normalises to 1, 3 or 5: `None` to 3, and
      other values to their label's value after stripping and lower-casing,
      3 for text that is no label. */
  lemma NonNumericInScale(v: Value)
    requires !v.Int? && (v.Str? ==> ParseInt(v.s).None?)
    ensures NormalizeUrgency(v) in {1, 3, 5}
    ensures v.Null? ==> NormalizeUrgency(v) == 3
    ensures !v.Null? ==> NormalizeUrgency(v) == LabelOrDefault(Lower(Strip(Show(v))))
  {
  }

  lemma LowerKeepsSpace(c: char)
    ensures IsSpace(LowerChar(c)) == IsSpace(c)
  {
  }

  lemma {:induction false} StripLeftLower(s: string)
    ensures StripLeft(Lower(s)) == Lower(StripLeft(s))
    decreases |s|
  {
    if s != [] {
      var l := Lower(s);
      LowerKeepsSpace(s[0]);
      assert l[0] == LowerChar(s[0]);
      if IsSpace(s[0]) {
        assert l[1..] == Lower(s[1..]);
        StripLeftLower(s[1..]);
      }
    }
  }

  lemma {:induction false} StripRightLower(s: string)
    ensures StripRight(Lower(s)) == Lower(StripRight(s))
    decreases |s|
  {
    if s != [] {
      var l := Lower(s);
      LowerKeepsSpace(s[|s| - 1]);
      assert l[|s| - 1] == LowerChar(s[|s| - 1]);
      if IsSpace(s[|s| - 1]) {
        assert l[..|s| - 1] == Lower(s[..|s| - 1]);
        StripRightLower(s[..|s| - 1]);
      }
    }
  }

  /** The lookup ignores the case of the label. */
  lemma LabelsIgnoreCase(text: string)
    ensures LabelUrgency(Lower(text)) == LabelUrgency(text)
  {
    StripLeftLower(text);
    StripRightLower(StripLeft(text));
    LowerIdempotent(Strip(text));
    assert Lower(Strip(Lower(text))) == Lower(Strip(text));
  }

  /** Labels are matched after stripping and lower-casing. */
  lemma PaddedLabelExample()
    ensures NormalizeUrgency(Str(" HIGH ")) == 5
  {
    StripPaddedHigh();
    HighIsNotNumeric();
    PaddedHighLabel();
  }

  lemma PaddedHighLabel()
    ensures LabelUrgency(" HIGH ") == 5
  {
    StripPaddedHigh();
    LowerHigh();
    assert LabelValue("high") == 5;
  }

  lemma LowerHigh()
    ensures Lower("HIGH") == "high"
  {
    var l := Lower("HIGH");
    assert l[0] == 'h' && l[1] == 'i' && l[2] == 'g' && l[3] == 'h';
  }

  lemma HighIsNotNumeric()
    ensures ParseStripped("HIGH") == None
  {
    assert !DigitRun("HIGH") by { assert !IsDigit("HIGH"[3]); }
  }

  lemma StripPaddedHigh()
    ensures Strip(" HIGH ") == "HIGH"
  {
    assert StripLeft(" HIGH "[1..]) == "HIGH ";
    assert StripLeft(" HIGH ") == "HIGH ";
    assert StripRight("HIGH "[..4]) == "HIGH";
    assert StripRight("HIGH ") == "HIGH";
  }

  /** `int("1_0")` is 10, so "1_0" normalises to 10. */
  lemma UnderscoreExample()
    ensures NormalizeUrgency(Str("1_0")) == 10
  {
    ParseUnderscore();
  }

  lemma ParseUnderscore()
    ensures ParseInt("1_0") == Some(10)
  {
    var t := "1_0";
    assert t[..2] == "1_" && t[..1] == "1";
    assert DigitRun(t[..1]) && !DigitRun(t[..2]);
    assert DigitRun(t) && RunValue(t) == 10;
    ParseRun(t);
  }

  /** The int 7 stays 7 although the docstring promises a value between 1
      and 5, and the empty string is 3. */
  lemma OutOfScaleExample()
    ensures NormalizeUrgency(Int(7)) == 7
    ensures NormalizeUrgency(Str("")) == 3
  {
    assert Strip("") == "";
  }

  /** The urgency cell, `f"{normalize_urgency(insight.get('urgency_level', 3))}/5"`. */
  function UrgencyCell(fields: Metadata): string {
    IntToString(NormalizeUrgency(Get(fields, UrgencyKey, Int(3)))) + "/5"
  }

  /** The number in the urgency cell reads back as the normalised value. */
  lemma UrgencyCellReadsBack(fields: Metadata)
    ensures var c := UrgencyCell(fields);
      |c| > 2 && c[|c| - 2..] == "/5" &&
      ParseInt(c[..|c| - 2]) == Some(NormalizeUrgency(Get(fields, UrgencyKey, Int(3))))
  {
    var n := NormalizeUrgency(Get(fields, UrgencyKey, Int(3)));
    var c := UrgencyCell(fields);
    assert c[..|c| - 2] == IntToString(n);
    ParseIntRoundTrip(n);
  }

  // ---------------------------------------------------------------------
  // The 40-character cells

  const CellWidth: nat := 40
  const Ellipsis := "..."

  /** `s[:40] + "..."` when `len(s) > 40`, otherwise `s`. */
  function Truncate(s: string): (r: string)
    ensures |r| <= CellWidth + |Ellipsis|
  {
    if |s| > CellWidth then s[..CellWidth] + Ellipsis else s
  }

  /** A short text is shown whole; a long one by its first 40 characters and
      "...", so the only long texts shown unchanged are 43 characters ending
      in "...". */
  lemma TruncateShape(s: string)
    ensures |s| > CellWidth ==> Truncate(s)[..CellWidth] == s[..CellWidth] && Truncate(s)[CellWidth..] == Ellipsis
    ensures Truncate(s) == s <==> |s| <= CellWidth || (|s| == CellWidth + |Ellipsis| && s[CellWidth..] == Ellipsis)
  {
    if |s| > CellWidth {
      var r := Truncate(s);
      if |s| == CellWidth + |Ellipsis| && s[CellWidth..] == Ellipsis {
        assert s == s[..CellWidth] + s[CellWidth..];
      }
    }
  }

  /** Truncating a cell again changes nothing. */
  lemma TruncateIdempotent(s: string)
    ensures Truncate(Truncate(s)) == Truncate(s)
  {
    if |s| > CellWidth {
      var r := Truncate(s);
      assert r[..CellWidth] == s[..CellWidth];
    }
  }

  /** The goal or challenge cell for a field of the insight: "Unknown" when
      absent, the truncated text for a string, `None` where `len()` raises on
      `None` or an int. */
  function DisplayCell(field: Option<Value>): (r: Option<string>)
    ensures r.Some? <==> field.None? || field.value.Str?
    ensures field.None? ==> r == Some("Unknown")
    ensures field.Some? && field.value.Str? ==> r == Some(Truncate(field.value.s))
  {
    match field
    case None => Some("Unknown")
    case Some(Str(s)) => Some(Truncate(s))
    case Some(_) => None
  }

  /** The cell of `key` in an insight's fields. */
  function FieldCell(fields: Metadata, key: string): Option<string> {
    DisplayCell(if key in fields then Some(fields[key]) else None)
  }
}
