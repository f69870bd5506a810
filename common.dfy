/** Helpers shared by the whole model: an Option type, Python's slice `s[:k]`,
    an order-preserving filter, Python's string operations on `str`
    (`lower`, `strip`, `split`, `in`, `join`, `str(int)`, `<`) and the dot
    product of two vectors. */
module Common {

  datatype Option<+T> = None | Some(value: T) {
    predicate IsFailure() { None? }

    function PropagateFailure<U>(): Option<U>
      requires None?
    {
      None
    }

    function Extract(): T
      requires Some?
    {
      value
    }

    function GetOr(default: T): T {
      if Some? then value else default
    }
  }

  /** A stored embedding: the source keeps a list of floats, modelled as reals. */
  type Vector = seq<real>

  function Min(a: int, b: int): int { if a <= b then a else b }

  function Max(a: int, b: int): int { if a >= b then a else b }

  // ---------------------------------------------------------------------
  // Sequences

  /** Python's `s[:k]`: a non-negative `k` keeps at most the first `k`
      elements, a negative `k` drops the last `-k` elements. */
  function Take<T>(s: seq<T>, k: int): (r: seq<T>)
    ensures |r| <= |s| && r == s[..|r|]
    ensures k >= 0 ==> |r| == Min(k, |s|)
    ensures k < 0 ==> |r| == Max(0, |s| + k)
  {
    if k >= 0 then (if k <= |s| then s[..k] else s)
    else if |s| + k >= 0 then s[..|s| + k]
    else []
  }

  /** The elements of `s` that satisfy `p`, in their original order (a list
      comprehension `[x for x in s if p(x)]`). */
  function Filter<T>(s: seq<T>, p: T -> bool): (r: seq<T>)
    ensures |r| <= |s|
    ensures forall x :: x in r ==> x in s && p(x)
    decreases |s|
  {
    if s == [] then []
    else Filter(s[..|s| - 1], p) + (if p(s[|s| - 1]) then [s[|s| - 1]] else [])
  }

  lemma FilterSnoc<T>(s: seq<T>, x: T, p: T -> bool)
    ensures Filter(s + [x], p) == Filter(s, p) + (if p(x) then [x] else [])
  {
    assert (s + [x])[..|s + [x]| - 1] == s;
  }

  lemma {:induction false} FilterAppend<T>(a: seq<T>, b: seq<T>, p: T -> bool)
    ensures Filter(a + b, p) == Filter(a, p) + Filter(b, p)
    decreases |b|
  {
    if b == [] {
      assert a + b == a;
    } else {
      var b' := b[..|b| - 1];
      assert (a + b)[..|a + b| - 1] == a + b';
      assert (a + b)[|a + b| - 1] == b[|b| - 1];
      FilterAppend(a, b', p);
    }
  }

  /** Everything in `s` that satisfies `p` survives the filter. */
  lemma {:induction false} FilterKeeps<T>(s: seq<T>, p: T -> bool, x: T)
    requires x in s && p(x)
    ensures x in Filter(s, p)
    decreases |s|
  {
    if s[|s| - 1] != x {
      assert x in s[..|s| - 1];
      FilterKeeps(s[..|s| - 1], p, x);
    }
  }

  lemma {:induction false} FilterAllPass<T>(s: seq<T>, p: T -> bool)
    requires forall i :: 0 <= i < |s| ==> p(s[i])
    ensures Filter(s, p) == s
    decreases |s|
  {
    if s != [] {
      var init, last := s[..|s| - 1], s[|s| - 1];
      forall i | 0 <= i < |init| ensures p(init[i]) {
        assert init[i] == s[i];
      }
      FilterAllPass(init, p);
      assert p(last);
      assert init + [last] == s;
    }
  }

  lemma {:induction false} FilterNone<T>(s: seq<T>, p: T -> bool)
    requires forall x :: x in s ==> !p(x)
    ensures Filter(s, p) == []
    decreases |s|
  {
    if s != [] {
      assert forall x :: x in s[..|s| - 1] ==> x in s;
      FilterNone(s[..|s| - 1], p);
    }
  }

  /** A first element that passes stays first. */
  lemma {:induction false} FilterHead<T>(s: seq<T>, p: T -> bool)
    requires s != [] && p(s[0])
    ensures Filter(s, p) != [] && Filter(s, p)[0] == s[0]
    decreases |s|
  {
    if |s| > 1 {
      var init := s[..|s| - 1];
      assert init[0] == s[0];
      FilterHead(init, p);
    }
  }

  /** Filtering twice by the same predicate is filtering once. */
  lemma FilterIdempotent<T>(s: seq<T>, p: T -> bool)
    ensures Filter(Filter(s, p), p) == Filter(s, p)
  {
    var r := Filter(s, p);
    assert forall i :: 0 <= i < |r| ==> r[i] in r;
    FilterAllPass(r, p);
  }

  /** `[f(x) for x in s]` where `f` may raise (`None`). */
  function MapOpt<A, B>(f: A -> Option<B>, s: seq<A>): (r: Option<seq<B>>)
    ensures r.Some? <==> forall i :: 0 <= i < |s| ==> f(s[i]).Some?
    ensures r.Some? ==> |r.value| == |s|
    ensures r.Some? ==> forall i :: 0 <= i < |s| ==> r.value[i] == f(s[i]).value
  {
    if forall i :: 0 <= i < |s| ==> f(s[i]).Some?
    then Some(seq(|s|, i requires 0 <= i < |s| => f(s[i]).value))
    else None
  }

  /** `[f(x) for x in s]`, built front to back. */
  function Map<A, B>(f: A -> B, s: seq<A>): seq<B>
    decreases |s|
  {
    if s == [] then [] else Map(f, s[..|s| - 1]) + [f(s[|s| - 1])]
  }

  lemma {:induction false} MapAt<A, B>(f: A -> B, s: seq<A>)
    ensures |Map(f, s)| == |s|
    ensures forall i :: 0 <= i < |s| ==> Map(f, s)[i] == f(s[i])
    decreases |s|
  {
    if s != [] {
      var init := s[..|s| - 1];
      MapAt(f, init);
      forall i | 0 <= i < |init| ensures init[i] == s[i] { }
    }
  }

  /** The results of `f` over `s` concatenated in order, as a loop that
      extends one list with each call's results; `None` as soon as one call
      raises. */
  function ConcatOpt<A, B>(f: A -> Option<seq<B>>, s: seq<A>): Option<seq<B>>
    decreases |s|
  {
    if s == [] then Some([])
    else
      var init :- ConcatOpt(f, s[..|s| - 1]);
      var last :- f(s[|s| - 1]);
      Some(init + last)
  }

  /** Every element of the concatenation comes from the call on some input. */
  lemma {:induction false} ConcatOptMember<A, B>(f: A -> Option<seq<B>>, s: seq<A>, y: B)
    requires ConcatOpt(f, s).Some? && y in ConcatOpt(f, s).value
    ensures exists x :: x in s && f(x).Some? && y in f(x).value
    decreases |s|
  {
    var front := s[..|s| - 1];
    if y in ConcatOpt(f, front).value {
      ConcatOptMember(f, front, y);
      var x :| x in front && f(x).Some? && y in f(x).value;
      assert x in s;
    } else {
      assert s[|s| - 1] in s;
    }
  }

  /** Every result of every call is in the concatenation. */
  lemma {:induction false} ConcatOptCovers<A, B>(f: A -> Option<seq<B>>, s: seq<A>, x: A, y: B)
    requires ConcatOpt(f, s).Some? && x in s && f(x).Some? && y in f(x).value
    ensures y in ConcatOpt(f, s).value
    decreases |s|
  {
    var front := s[..|s| - 1];
    if x != s[|s| - 1] {
      assert s == front + [s[|s| - 1]];
      assert x in front;
      ConcatOptCovers(f, front, x, y);
    }
  }

  /** Once a prefix raises, the whole concatenation raises. */
  lemma {:induction false} ConcatOptPrefixFails<A, B>(f: A -> Option<seq<B>>, s: seq<A>, j: nat)
    requires j <= |s| && ConcatOpt(f, s[..j]).None?
    ensures ConcatOpt(f, s).None?
    decreases |s| - j
  {
    if j < |s| {
      assert s[..j + 1][..j] == s[..j];
      ConcatOptPrefixFails(f, s, j + 1);
    } else {
      assert s[..j] == s;
    }
  }

  /** `[y for x in s if (y := f(x)) is not None]`: the successful results,
      in order. */
  function FilterMap<A, B>(f: A -> Option<B>, s: seq<A>): seq<B>
    decreases |s|
  {
    if s == [] then []
    else FilterMap(f, s[..|s| - 1]) + (match f(s[|s| - 1]) case None => [] case Some(y) => [y])
  }

  lemma {:induction false} FilterMapAppend<A, B>(f: A -> Option<B>, a: seq<A>, b: seq<A>)
    ensures FilterMap(f, a + b) == FilterMap(f, a) + FilterMap(f, b)
    decreases |b|
  {
    if b == [] {
      assert a + b == a;
    } else {
      var b' := b[..|b| - 1];
      assert (a + b)[..|a + b| - 1] == a + b';
      assert (a + b)[|a + b| - 1] == b[|b| - 1];
      FilterMapAppend(f, a, b');
    }
  }

  lemma {:induction false} FilterMapCount<A, B>(f: A -> Option<B>, s: seq<A>)
    ensures |FilterMap(f, s)| <= |s|
    ensures |FilterMap(f, s)| == |s| <==> forall i :: 0 <= i < |s| ==> f(s[i]).Some?
    decreases |s|
  {
    if s != [] {
      var init := s[..|s| - 1];
      FilterMapCount(f, init);
      assert forall i :: 0 <= i < |init| ==> init[i] == s[i];
    }
  }

  lemma {:induction false} FilterMapNone<A, B>(f: A -> Option<B>, s: seq<A>)
    requires forall i :: 0 <= i < |s| ==> f(s[i]).None?
    ensures FilterMap(f, s) == []
    decreases |s|
  {
    if s != [] {
      var init := s[..|s| - 1];
      assert forall i :: 0 <= i < |init| ==> init[i] == s[i];
      FilterMapNone(f, init);
    }
  }

  /** The loop computing `MapOpt`, stopping at the first failure. */
  method MapAll<A, B>(f: A -> Option<B>, s: seq<A>) returns (r: Option<seq<B>>)
    ensures r == MapOpt(f, s)
  {
    var acc: seq<B> := [];
    var i := 0;
    while i < |s|
      invariant 0 <= i <= |s|
      invariant forall j :: 0 <= j < i ==> f(s[j]).Some?
      invariant |acc| == i
      invariant forall j :: 0 <= j < i ==> acc[j] == f(s[j]).value
    {
      var y := f(s[i]);
      if y.None? {
        return None;
      }
      acc := acc + [y.value];
      i := i + 1;
    }
    assert acc == MapOpt(f, s).value;
    r := Some(acc);
  }

  // ---------------------------------------------------------------------
  // Vectors

  function Dot(a: Vector, b: Vector): real
    requires |a| == |b|
    decreases |a|
  {
    if a == [] then 0.0 else a[0] * b[0] + Dot(a[1..], b[1..])
  }

  /** `[0.0] * n` */
  function Zeros(n: nat): (z: Vector)
    ensures |z| == n
    ensures forall i :: 0 <= i < n ==> z[i] == 0.0
  {
    seq(n, _ => 0.0)
  }

  /** The zero vector scores 0 against every vector of its length. */
  lemma {:induction false} DotZeros(n: nat, v: Vector)
    requires |v| == n
    ensures Dot(Zeros(n), v) == 0.0
    decreases n
  {
    if n > 0 {
      assert Zeros(n)[1..] == Zeros(n - 1);
      DotZeros(n - 1, v[1..]);
    }
  }

  // ---------------------------------------------------------------------
  // Characters and strings

  /** `str.isspace()` for one character: the characters Python's `strip()`,
      `split()` and `int()` treat as whitespace. */
  predicate IsSpace(c: char) {
    c == ' ' || ('\t' <= c <= '\r') || ('\U{1c}' <= c <= '\U{1f}') ||
    c == '\U{85}' || c == '\U{a0}' || c == '\U{1680}' ||
    ('\U{2000}' <= c <= '\U{200a}') || c == '\U{2028}' || c == '\U{2029}' ||
    c == '\U{202f}' || c == '\U{205f}' || c == '\U{3000}'
  }

  predicate NoSpace(s: string) {
    forall i :: 0 <= i < |s| ==> !IsSpace(s[i])
  }

  function LowerChar(c: char): char {
    if 'A' <= c <= 'Z' then (c as int + 32) as char else c
  }

  /** `str.lower()` on the ASCII letters. */
  function Lower(s: string): (r: string)
    ensures |r| == |s|
    ensures forall i :: 0 <= i < |s| ==> r[i] == LowerChar(s[i])
  {
    seq(|s|, i requires 0 <= i < |s| => LowerChar(s[i]))
  }

  lemma LowerIdempotent(s: string)
    ensures Lower(Lower(s)) == Lower(s)
  {
  }

  function StripLeft(s: string): (r: string)
    ensures |r| <= |s| && r == s[|s| - |r|..]
    ensures r != [] ==> !IsSpace(r[0])
    ensures forall i :: 0 <= i < |s| - |r| ==> IsSpace(s[i])
    decreases |s|
  {
    if s != [] && IsSpace(s[0]) then StripLeft(s[1..]) else s
  }

  function StripRight(s: string): (r: string)
    ensures |r| <= |s| && r == s[..|r|]
    ensures r != [] ==> !IsSpace(r[|r| - 1])
    ensures forall i :: |r| <= i < |s| ==> IsSpace(s[i])
    decreases |s|
  {
    if s != [] && IsSpace(s[|s| - 1]) then StripRight(s[..|s| - 1]) else s
  }

  /** `str.strip()`: drops leading and trailing whitespace. */
  function Strip(s: string): (r: string)
    ensures r != [] ==> !IsSpace(r[0]) && !IsSpace(r[|r| - 1])
  {
    StripRight(StripLeft(s))
  }

  /** A string that neither starts nor ends with whitespace is its own strip. */
  lemma StripNoop(s: string)
    requires s != [] ==> !IsSpace(s[0]) && !IsSpace(s[|s| - 1])
    ensures Strip(s) == s
  {
  }

  /** The longest whitespace-free prefix of `s`. */
  function LeadingWord(s: string): (w: string)
    ensures w <= s && NoSpace(w)
    ensures s != [] && !IsSpace(s[0]) ==> w != []
    ensures |w| < |s| ==> IsSpace(s[|w|])
    decreases |s|
  {
    if s == [] || IsSpace(s[0]) then [] else [s[0]] + LeadingWord(s[1..])
  }

  /** Non-empty, whitespace-free words. */
  predicate Words(ws: seq<string>) {
    forall i :: 0 <= i < |ws| ==> ws[i] != [] && NoSpace(ws[i])
  }

  /** `str.split()` with no separator: the maximal runs of non-whitespace. */
  function Split(s: string): seq<string>
    decreases |s|
  {
    var t := StripLeft(s);
    if t == [] then []
    else
      var w := LeadingWord(t);
      [w] + Split(t[|w|..])
  }

  /** The words of a split are non-empty and free of whitespace. */
  lemma {:induction false} SplitShape(s: string)
    ensures Words(Split(s))
    decreases |s|
  {
    var t := StripLeft(s);
    if t != [] {
      var w := LeadingWord(t);
      SplitShape(t[|w|..]);
      var ws := Split(s);
      assert ws == [w] + Split(t[|w|..]);
      forall i | 0 <= i < |ws| ensures ws[i] != [] && NoSpace(ws[i]) {
        if i > 0 { assert ws[i] == Split(t[|w|..])[i - 1]; }
      }
    }
  }

  /** A whitespace-free word followed by whitespace (or nothing) is the
      leading word. */
  lemma {:induction false} LeadingWordOf(w: string, rest: string)
    requires NoSpace(w) && (rest == [] || IsSpace(rest[0]))
    ensures LeadingWord(w + rest) == w
    decreases |w|
  {
    if w == [] {
      assert w + rest == rest;
    } else {
      var t := w + rest;
      assert t[0] == w[0] && t[1..] == w[1..] + rest;
      assert !IsSpace(w[0]);
      assert NoSpace(w[1..]) by {
        forall i | 0 <= i < |w[1..]| ensures !IsSpace(w[1..][i]) { assert w[1..][i] == w[i + 1]; }
      }
      LeadingWordOf(w[1..], rest);
    }
  }

  /** Leading whitespace does not change the split. */
  lemma SplitSkipsSpace(c: char, s: string)
    requires IsSpace(c)
    ensures Split([c] + s) == Split(s)
  {
    assert ([c] + s)[0] == c && ([c] + s)[1..] == s;
    assert StripLeft([c] + s) == StripLeft(s);
  }

  /** A word at the front of the text is the first word of the split. */
  lemma SplitWord(w: string, rest: string)
    requires w != [] && NoSpace(w) && (rest == [] || IsSpace(rest[0]))
    ensures Split(w + rest) == [w] + Split(rest)
  {
    var t := w + rest;
    assert t[0] == w[0] && !IsSpace(w[0]);
    assert StripLeft(t) == t;
    LeadingWordOf(w, rest);
    assert t[|w|..] == rest;
  }

  /** A word, a space, then more text: the word is the first of the split. */
  lemma SplitCons(w: string, rest: string)
    requires w != [] && NoSpace(w)
    ensures Split(w + " " + rest) == [w] + Split(rest)
  {
    var spaced := [' '] + rest;
    assert w + " " + rest == w + spaced;
    SplitWord(w, spaced);
    SplitSkipsSpace(' ', rest);
  }

  /** The induction step of `SplitJoin`: one more word in front. */
  lemma SplitJoinStep(ws: seq<string>)
    requires |ws| > 1 && ws[0] != [] && NoSpace(ws[0])
    requires Split(Join(ws[1..], " ")) == ws[1..]
    ensures Split(Join(ws, " ")) == ws
  {
    SplitCons(ws[0], Join(ws[1..], " "));
    assert [ws[0]] + ws[1..] == ws;
  }

  /** The tail of a list of words is a list of words. */
  lemma WordsTail(ws: seq<string>)
    requires ws != [] && Words(ws)
    ensures Words(ws[1..])
  {
    forall i | 0 <= i < |ws| - 1 ensures ws[1..][i] != [] && NoSpace(ws[1..][i]) {
      assert ws[1..][i] == ws[i + 1];
    }
  }

  /** Splitting the words joined by single spaces gives the words back:
      `" ".join(ws).split() == ws` for non-empty, whitespace-free words. */
  lemma {:induction false} SplitJoin(ws: seq<string>)
    requires Words(ws)
    ensures Split(Join(ws, " ")) == ws
    decreases |ws|
  {
    if |ws| == 1 {
      SplitWord(ws[0], []);
      assert ws[0] + [] == ws[0];
    } else if |ws| > 1 {
      WordsTail(ws);
      SplitJoin(ws[1..]);
      SplitJoinStep(ws);
    }
  }

  /** Lower-casing words that are already lower-case, joined by spaces,
      changes nothing. */
  lemma {:induction false} LowerJoin(ws: seq<string>)
    requires forall i :: 0 <= i < |ws| ==> Lower(ws[i]) == ws[i]
    ensures Lower(Join(ws, " ")) == Join(ws, " ")
    decreases |ws|
  {
    if |ws| > 1 {
      var tail := ws[1..];
      forall i | 0 <= i < |tail| ensures Lower(tail[i]) == tail[i] {
        assert tail[i] == ws[i + 1];
      }
      LowerJoin(tail);
      var a, b := ws[0] + " ", Join(tail, " ");
      assert Lower(a) == a by {
        assert Lower(ws[0]) == ws[0];
        forall i | 0 <= i < |a| ensures Lower(a)[i] == a[i] {
          if i < |ws[0]| { assert a[i] == ws[0][i]; assert Lower(ws[0])[i] == ws[0][i]; }
        }
      }
      assert Lower(a + b) == Lower(a) + Lower(b);
    }
  }

  /** Python's `sub in text`: `sub` occurs in `text` at some position. */
  predicate Contains(text: string, sub: string)
    decreases |text|
  {
    sub <= text || (text != [] && Contains(text[1..], sub))
  }

  lemma {:induction false} ContainsAt(text: string, sub: string, i: nat)
    requires i + |sub| <= |text| && text[i..i + |sub|] == sub
    ensures Contains(text, sub)
    decreases i
  {
    if i > 0 {
      assert text[1..][i - 1..i - 1 + |sub|] == text[i..i + |sub|];
      ContainsAt(text[1..], sub, i - 1);
    }
  }

  lemma ContainsMiddle(a: string, b: string, c: string)
    ensures Contains(a + b + c, b)
  {
    var t := a + b + c;
    assert t[|a|..|a| + |b|] == b;
    ContainsAt(t, b, |a|);
  }

  /** Equal texts with the same frame have the same middle. */
  lemma MiddleUnique(a: string, b: string, b': string, c: string)
    requires a + b + c == a + b' + c
    ensures b == b'
  {
    var t := a + b + c;
    assert |b| == |b'|;
    assert t[|a|..|a| + |b|] == b;
    assert (a + b' + c)[|a|..|a| + |b'|] == b';
  }

  /** `sep.join(parts)` */
  function Join(parts: seq<string>, sep: string): string
    decreases |parts|
  {
    if parts == [] then ""
    else if |parts| == 1 then parts[0]
    else parts[0] + sep + Join(parts[1..], sep)
  }

  /** A non-empty join starts with its first part. */
  lemma JoinStartsWith(parts: seq<string>, sep: string)
    requires parts != []
    ensures parts[0] <= Join(parts, sep)
  {
    if |parts| > 1 {
      assert Join(parts, sep) == parts[0] + (sep + Join(parts[1..], sep));
    }
  }

  /** Appending one part to a non-empty join adds the separator and the part. */
  lemma {:induction false} JoinSnoc(parts: seq<string>, sep: string, last: string)
    requires parts != []
    ensures Join(parts + [last], sep) == Join(parts, sep) + sep + last
    decreases |parts|
  {
    if |parts| == 1 {
      assert (parts + [last])[1..] == [last];
    } else {
      assert (parts + [last])[1..] == parts[1..] + [last];
      JoinSnoc(parts[1..], sep, last);
    }
  }

  lemma {:induction false} JoinAppend(a: seq<string>, b: seq<string>, sep: string)
    requires a != [] && b != []
    ensures Join(a + b, sep) == Join(a, sep) + sep + Join(b, sep)
    decreases |a|
  {
    if |a| == 1 {
      assert (a + b)[1..] == b;
    } else {
      assert (a + b)[1..] == a[1..] + b;
      JoinAppend(a[1..], b, sep);
    }
  }

  /** Python's `a < b` on strings: code-point lexicographic order. */
  predicate LexLess(a: string, b: string)
    decreases |a|
  {
    if a == [] then b != []
    else if b == [] then false
    else if a[0] != b[0] then a[0] < b[0]
    else LexLess(a[1..], b[1..])
  }

  function DigitChar(d: nat): char
    requires d < 10
  {
    ('0' as int + d) as char
  }

  /** Decimal digits of a natural number, most significant first. */
  function NatToString(n: nat): (s: string)
    ensures s != [] && forall i :: 0 <= i < |s| ==> '0' <= s[i] <= '9'
    decreases n
  {
    if n < 10 then [DigitChar(n)] else NatToString(n / 10) + [DigitChar(n % 10)]
  }

  /** `str(n)` for a Python int. */
  function IntToString(n: int): string {
    if n < 0 then "-" + NatToString(-n) else NatToString(n)
  }
}
