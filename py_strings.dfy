/**
 * The few operations on Python `str` that the proposal generator relies on:
 * `lower`, `strip`, `title`, substring search (`in`, `find`), `split` and `join`.
 * Strings are sequences of Unicode scalar values, as Python's are.
 */
module PyStrings {
  import opened Wrappers

  // ---------------------------------------------------------------------------
  // Character classes
  // ---------------------------------------------------------------------------

  /** Python's `str.isspace()`: the characters `strip()` removes. */
  predicate IsSpace(c: char) {
    || c == ' '
    || '\t' <= c <= '\r'
    || '\U{1C}' <= c <= '\U{1F}'
    || c == '\U{85}' || c == '\U{A0}' || c == '\U{1680}'
    || '\U{2000}' <= c <= '\U{200A}'
    || c == '\U{2028}' || c == '\U{2029}' || c == '\U{202F}' || c == '\U{205F}' || c == '\U{3000}'
  }

  /** Upper-case letters of the Latin-1 range: `A`-`Z` and `À`-`Þ` except `×`. */
  predicate IsUpperLatin1(c: char) {
    'A' <= c <= 'Z' || ('\U{C0}' <= c <= '\U{DE}' && c != '\U{D7}')
  }

  /** Lower-case letters of the Latin-1 range that have an upper-case partner there. */
  predicate IsLowerLatin1(c: char) {
    'a' <= c <= 'z' || ('\U{E0}' <= c <= '\U{FE}' && c != '\U{F7}')
  }

  /** Letters of the Latin-1 range (ASCII letters and `À`-`ÿ` except `×` and `÷`). */
  predicate IsLatin1Letter(c: char) {
    'a' <= c <= 'z' || 'A' <= c <= 'Z' ||
    ('\U{C0}' <= c <= '\U{FF}' && c != '\U{D7}' && c != '\U{F7}')
  }

  /** Python's `str.lower()` on one character, exact on the Latin-1 range. */
  function LowerChar(c: char): (d: char)
    ensures !IsUpperLatin1(d)
    ensures IsUpperLatin1(c) || d == c
  {
    if IsUpperLatin1(c) then (c as int + 32) as char else c
  }

  /** Python's `str.upper()` on one character, exact on the Latin-1 range except `ÿ`. */
  function UpperChar(c: char): (d: char)
    ensures IsLowerLatin1(c) ==> IsUpperLatin1(d) && LowerChar(d) == c
    ensures !IsLowerLatin1(c) ==> d == c
  {
    if IsLowerLatin1(c) then (c as int - 32) as char else c
  }

  // ---------------------------------------------------------------------------
  // lower, strip, title
  // ---------------------------------------------------------------------------

  /** Python's `s.lower()`: each character lowered, length kept. */
  function Lower(s: string): (r: string)
    ensures |r| == |s|
    ensures forall i :: 0 <= i < |s| ==> r[i] == LowerChar(s[i])
  {
    seq(|s|, i requires 0 <= i < |s| => LowerChar(s[i]))
  }

  /** Python's `s.lstrip()`: the suffix left after dropping leading whitespace. */
  function StripStart(s: string): (r: string)
    ensures |r| <= |s| && r == s[|s| - |r|..]
    ensures forall k :: 0 <= k < |s| - |r| ==> IsSpace(s[k])
    ensures r != [] ==> !IsSpace(r[0])
    decreases |s|
  {
    if s != [] && IsSpace(s[0]) then StripStart(s[1..]) else s
  }

  /** Python's `s.rstrip()`: the prefix left after dropping trailing whitespace. */
  function StripEnd(s: string): (r: string)
    ensures |r| <= |s| && r == s[..|r|]
    ensures forall k :: |r| <= k < |s| ==> IsSpace(s[k])
    ensures r != [] ==> !IsSpace(r[|r| - 1])
    decreases |s|
  {
    if s != [] && IsSpace(s[|s| - 1]) then StripEnd(s[..|s| - 1]) else s
  }

  /**
   * Python's `s.strip()`: the slice of `s` left between its leading and its
   * trailing whitespace. It neither starts nor ends with whitespace, and is
   * empty exactly when `s` is all whitespace.
   */
  function Strip(s: string): (r: string)
    ensures |r| <= |s|
    ensures exists a, b :: (0 <= a <= b <= |s| && r == s[a..b]
      && (forall k :: 0 <= k < a ==> IsSpace(s[k])) && (forall k :: b <= k < |s| ==> IsSpace(s[k])))
    ensures r != [] ==> !IsSpace(r[0]) && !IsSpace(r[|r| - 1])
    ensures r == [] <==> forall k :: 0 <= k < |s| ==> IsSpace(s[k])
  {
    StripParts(s);
    StripSlice(s);
    StripEnd(StripStart(s))
  }

  /** The result of `strip` is the slice of `s` between its leading and its trailing whitespace. */
  lemma StripSlice(s: string)
    ensures var front := StripStart(s); var r := StripEnd(front); var a := |s| - |front|;
      && a + |r| <= |s| && r == s[a..a + |r|]
      && (forall k :: 0 <= k < a ==> IsSpace(s[k]))
      && (forall k :: a + |r| <= k < |s| ==> IsSpace(s[k]))
  {
    var front := StripStart(s);
    var r := StripEnd(front);
    SliceOfSuffix(s, |s| - |front|, front, r);
  }

  /** A prefix of a suffix of `s` is a slice of `s`, and what follows it in the suffix follows it in `s`. */
  lemma SliceOfSuffix(s: string, a: nat, front: string, r: string)
    requires a <= |s| && front == s[a..] && |r| <= |front| && r == front[..|r|]
    ensures a + |r| <= |s| && r == s[a..a + |r|]
    ensures forall k :: a + |r| <= k < |s| ==> s[k] == front[k - a]
  {
  }

  /** How the two halves of `strip` fit together. */
  lemma StripParts(s: string)
    ensures var front := StripStart(s); var r := StripEnd(front);
      && (r != [] ==> !IsSpace(r[0]))
      && (r == [] <==> forall k :: 0 <= k < |s| ==> IsSpace(s[k]))
  {
    var front := StripStart(s);
    var r := StripEnd(front);
    if r != [] {
      assert r[0] == front[0];
      assert s[|s| - |front|] == front[0];
    }
  }

  /**
   * Python's "cased" characters on the Latin-1 range: the letters with a case
   * partner, and also `ß`, `ÿ`, `µ`, `ª` and `º`.
   */
  predicate IsCased(c: char) {
    IsUpperLatin1(c) || IsLowerLatin1(c) || c == 'ß' || c == 'ÿ' || c == 'µ' || c == 'ª' || c == 'º'
  }

  /** The Latin-1 characters whose title case is not a single Latin-1 character. */
  predicate TitleEspecial(c: char) {
    c == 'ß' || c == 'ÿ' || c == 'µ'
  }

  /**
   * Python's `c.title()` on the Latin-1 range: `ß` becomes `Ss`, `ÿ` and `µ`
   * become capitals outside the range, every other character is upper-cased.
   */
  function TitleChar(c: char): (t: string)
    ensures |t| == if c == 'ß' then 2 else 1
    ensures !TitleEspecial(c) ==> t == [UpperChar(c)]
  {
    if c == 'ß' then "Ss"
    else if c == 'ÿ' then "\U{0178}"
    else if c == 'µ' then "\U{039C}"
    else [UpperChar(c)]
  }

  /**
   * Python's `s.title()` after a character whose cased-ness is `afterCased`:
   * a cased character that follows an uncased one is title-cased, every other
   * cased character is lower-cased, uncased characters stay. Without the
   * special characters, only the case of letters changes.
   */
  function TitleFrom(s: string, afterCased: bool): (r: string)
    ensures |r| >= |s|
    ensures (forall k :: 0 <= k < |s| ==> !TitleEspecial(s[k])) ==>
      |r| == |s| && forall k :: 0 <= k < |s| ==> LowerChar(r[k]) == LowerChar(s[k])
    ensures s != [] && !afterCased && IsLowerLatin1(s[0]) ==> IsUpperLatin1(r[0])
    decreases |s|
  {
    if s == [] then []
    else
      var c := s[0];
      var d := if !IsCased(c) then [c] else if afterCased then [LowerChar(c)] else TitleChar(c);
      d + TitleFrom(s[1..], IsCased(c))
  }

  /** Python's `s.title()`, exact on the Latin-1 range. */
  function Title(s: string): (r: string)
    ensures |r| >= |s|
    ensures (forall k :: 0 <= k < |s| ==> !TitleEspecial(s[k])) ==>
      |r| == |s| && forall k :: 0 <= k < |s| ==> LowerChar(r[k]) == LowerChar(s[k])
    ensures s != [] && IsLowerLatin1(s[0]) ==> IsUpperLatin1(r[0])
  {
    TitleFrom(s, false)
  }

  /** `ß` inside a word stays, opening a word it becomes `Ss`; a letter after `º` is lowered, since `º` is cased. */
  lemma TitleEjemplos()
    ensures Title("aßb") == "Aßb"
    ensures Title("ßa") == "Ssa"
    ensures Title("ºa") == "ºa"
  {
    assert TitleFrom("b", true) == "b";
    assert TitleFrom("ßb", true) == "ßb";
    assert TitleFrom("a", true) == "a";
  }

  // ---------------------------------------------------------------------------
  // Substring search
  // ---------------------------------------------------------------------------

  /** `p` occurs in `s` starting at index `i`. */
  predicate OccursAt(s: string, p: string, i: nat) {
    i + |p| <= |s| && s[i..i + |p|] == p
  }

  /** The first index at or after `from` where `p` occurs in `s`, if any. */
  function FindFrom(s: string, p: string, from: nat): (r: Option<nat>)
    requires from <= |s|
    ensures r.Some? ==> from <= r.value && OccursAt(s, p, r.value)
    ensures r.Some? ==> forall j: nat :: from <= j < r.value ==> !OccursAt(s, p, j)
    ensures r.None? ==> forall j: nat :: from <= j ==> !OccursAt(s, p, j)
    decreases |s| - from
  {
    if from + |p| > |s| then None
    else if s[from..from + |p|] == p then Some(from)
    else if from == |s| then None
    else FindFrom(s, p, from + 1)
  }

  /** Python's `s.find(p)`, with `None` for `-1`: the first occurrence of `p`. */
  function Find(s: string, p: string): (r: Option<nat>)
    ensures r.Some? ==> OccursAt(s, p, r.value)
    ensures r.Some? ==> forall j: nat :: j < r.value ==> !OccursAt(s, p, j)
    ensures r.None? ==> forall j: nat :: !OccursAt(s, p, j)
  {
    FindFrom(s, p, 0)
  }

  /** Python's `p in s` for strings: raw substring containment. */
  predicate Contains(s: string, p: string) {
    Find(s, p).Some?
  }

  /** Text added before or after never removes an occurrence. */
  lemma ContainsExtend(s: string, p: string, before: string, after: string)
    requires Contains(s, p)
    ensures Contains(before + s + after, p)
  {
    var i := Find(s, p).value;
    var t := before + s + after;
    var at := |before| + i;
    forall k | 0 <= k < |p| ensures t[at + k] == p[k] {
      assert s[i..i + |p|][k] == p[k];
    }
    assert t[at..at + |p|] == p;
    assert OccursAt(t, p, at);
  }

  // ---------------------------------------------------------------------------
  // split and join
  // ---------------------------------------------------------------------------

  /**
   * Python's `s.split(sep)` for a non-empty separator: the pieces between
   * successive left-to-right, non-overlapping occurrences of `sep`.
   */
  function Split(s: string, sep: string): (r: seq<string>)
    requires |sep| > 0
    ensures |r| >= 1
    ensures Find(s, sep).None? ==> r == [s]
    ensures Find(s, sep).Some? ==> |r| >= 2 && r[0] == s[..Find(s, sep).value]
    decreases |s|
  {
    match Find(s, sep)
    case None => [s]
    case Some(i) => [s[..i]] + Split(s[i + |sep|..], sep)
  }

  /** No piece of a split contains the separator. */
  lemma {:induction false} SplitPiecesFree(s: string, sep: string)
    requires |sep| > 0
    ensures forall k :: 0 <= k < |Split(s, sep)| ==> !Contains(Split(s, sep)[k], sep)
    decreases |s|
  {
    var found := Find(s, sep);
    if found.Some? {
      var i := found.value;
      var head := s[..i];
      var rest := s[i + |sep|..];
      SplitPiecesFree(rest, sep);
      assert Split(s, sep) == [head] + Split(rest, sep);
      PrefixBeforeFirst(s, sep, i);
    }
  }

  /** The text before the first occurrence of `p` does not contain `p`. */
  lemma PrefixBeforeFirst(s: string, p: string, i: nat)
    requires |p| > 0 && i <= |s|
    requires forall j: nat :: j < i ==> !OccursAt(s, p, j)
    ensures !Contains(s[..i], p)
  {
    forall j: nat ensures !OccursAt(s[..i], p, j) {
      if j + |p| <= i {
        assert !OccursAt(s, p, j);
        assert s[..i][j..j + |p|] == s[j..j + |p|];
      }
    }
  }

  /** Every character of a split piece comes from the split text. */
  lemma {:induction false} SplitPiecesFrom(s: string, sep: string, k: nat, c: char)
    requires |sep| > 0 && k < |Split(s, sep)| && c in Split(s, sep)[k]
    ensures c in s
    decreases |s|
  {
    match Find(s, sep)
    case None =>
    case Some(i) =>
      var rest := s[i + |sep|..];
      assert Split(s, sep) == [s[..i]] + Split(rest, sep);
      if k == 0 {
        assert s == s[..i] + s[i..];
      } else {
        SplitPiecesFrom(rest, sep, k - 1, c);
        assert s == s[..i + |sep|] + rest;
      }
  }

  /** Python's `sep.join(xs)`. */
  function Join(sep: string, xs: seq<string>): (r: string)
    ensures xs == [] ==> r == []
    ensures |xs| == 1 ==> r == xs[0]
    decreases |xs|
  {
    if xs == [] then []
    else if |xs| == 1 then xs[0]
    else xs[0] + sep + Join(sep, xs[1..])
  }

  /** Joining a non-empty tail after one more piece puts the separator between them. */
  lemma JoinCons(sep: string, x: string, xs: seq<string>)
    requires xs != []
    ensures Join(sep, [x] + xs) == x + sep + Join(sep, xs)
  {
    assert ([x] + xs)[1..] == xs;
  }

  /** A string is the concatenation of its three slices around two cut points. */
  lemma ThreeSlices(s: string, a: nat, b: nat)
    requires a <= b <= |s|
    ensures s[..a] + s[a..b] + s[b..] == s
  {
    assert s[..a] + s[a..b] == s[..b];
  }

  /** Joining the pieces of a split with its separator gives back the original text. */
  lemma {:induction false} JoinSplit(s: string, sep: string)
    requires |sep| > 0
    ensures Join(sep, Split(s, sep)) == s
    decreases |s|
  {
    var found := Find(s, sep);
    if found.Some? {
      var i := found.value;
      var rest := s[i + |sep|..];
      var tail := Split(rest, sep);
      calc {
        Join(sep, Split(s, sep));
        { assert Split(s, sep) == [s[..i]] + tail; }
        Join(sep, [s[..i]] + tail);
        { JoinCons(sep, s[..i], tail); }
        s[..i] + sep + Join(sep, tail);
        { JoinSplit(rest, sep); }
        s[..i] + sep + rest;
        { assert s[i..i + |sep|] == sep; ThreeSlices(s, i, i + |sep|); }
        s;
      }
    }
  }

  /** A text without the first character of `p` contains no occurrence of `p`. */
  lemma NoOccurrence(s: string, p: string)
    requires |p| > 0 && p[0] !in s
    ensures Find(s, p).None?
  {
  }

  /**
   * In `a + sep + b`, where `a` lacks the first character of `sep`, the first
   * occurrence of `sep` is the one right after `a`.
   */
  lemma FirstOccurrenceAfter(a: string, sep: string, b: string)
    requires |sep| > 0 && sep[0] !in a
    ensures Find(a + sep + b, sep) == Some(|a|)
  {
    var s := a + sep + b;
    assert s[|a|..|a| + |sep|] == sep;
    assert OccursAt(s, sep, |a|);
  }

  /** A first piece without the separator's first character splits off on its own. */
  lemma SplitCons(x: string, sep: string, tail: string)
    requires |sep| > 0 && sep[0] !in x
    ensures Split(x + sep + tail, sep) == [x] + Split(tail, sep)
  {
    FirstOccurrenceAfter(x, sep, tail);
    SplitFirst(x, sep, tail);
  }

  /** When the first separator is the one right after `x`, `x` is the first piece. */
  lemma SplitFirst(x: string, sep: string, tail: string)
    requires |sep| > 0 && Find(x + sep + tail, sep) == Some(|x|)
    ensures Split(x + sep + tail, sep) == [x] + Split(tail, sep)
  {
    var s := x + sep + tail;
    assert s[..|x|] == x;
    assert s[|x| + |sep|..] == tail;
  }

  /**
   * Splitting a join gives back the pieces, provided there is at least one
   * piece and no piece holds the separator's first character.
   */
  lemma {:induction false} SplitJoin(sep: string, xs: seq<string>)
    requires |sep| > 0 && xs != []
    requires forall k :: 0 <= k < |xs| ==> sep[0] !in xs[k]
    ensures Split(Join(sep, xs), sep) == xs
    decreases |xs|
  {
    if |xs| == 1 {
      NoOccurrence(xs[0], sep);
    } else {
      SplitCons(xs[0], sep, Join(sep, xs[1..]));
      SplitJoin(sep, xs[1..]);
      assert xs == [xs[0]] + xs[1..];
    }
  }

  /** All the strings of `ps`, one after the other. */
  function Concat(ps: seq<string>): (r: string)
    ensures |ps| == 1 ==> r == ps[0]
    decreases |ps|
  {
    if ps == [] then [] else ps[0] + Concat(ps[1..])
  }

  /** Concatenation distributes over appending lists. */
  lemma {:induction false} ConcatAppend(ps: seq<string>, qs: seq<string>)
    ensures Concat(ps + qs) == Concat(ps) + Concat(qs)
    decreases |ps|
  {
    if ps == [] {
      assert ps + qs == qs;
    } else {
      assert (ps + qs)[1..] == ps[1..] + qs;
      ConcatAppend(ps[1..], qs);
    }
  }

  /** Piece `k` sits in the concatenation right after the pieces before it. */
  lemma ConcatAt(ps: seq<string>, k: nat)
    requires k < |ps|
    ensures OccursAt(Concat(ps), ps[k], |Concat(ps[..k])|)
    ensures Concat(ps) == Concat(ps[..k]) + ps[k] + Concat(ps[k + 1..])
  {
    assert ps == ps[..k] + ([ps[k]] + ps[k + 1..]);
    ConcatAppend(ps[..k], [ps[k]] + ps[k + 1..]);
    assert Concat([ps[k]] + ps[k + 1..]) == ps[k] + Concat(ps[k + 1..]);
    var s := Concat(ps);
    var o := |Concat(ps[..k])|;
    assert s[o..o + |ps[k]|] == ps[k];
  }

  /** A piece that comes after another starts no earlier than the other ends. */
  lemma ConcatOrdered(ps: seq<string>, j: nat, k: nat)
    requires j < k <= |ps|
    ensures |Concat(ps[..j])| + |ps[j]| <= |Concat(ps[..k])|
  {
    var rest := [ps[j]] + ps[j + 1..k];
    assert ps[..k] == ps[..j] + rest;
    ConcatAppend(ps[..j], rest);
    assert rest[1..] == ps[j + 1..k];
    assert Concat(rest) == ps[j] + Concat(ps[j + 1..k]);
    assert Concat(ps[..k]) == Concat(ps[..j]) + ps[j] + Concat(ps[j + 1..k]);
  }

  /** Concatenating one more piece appends it. */
  lemma ConcatSnoc(h: string, ps: seq<string>, i: nat)
    requires i < |ps|
    ensures h + Concat(ps[..i + 1]) == h + Concat(ps[..i]) + ps[i]
  {
    assert ps[..i + 1] == ps[..i] + [ps[i]];
    ConcatAppend(ps[..i], [ps[i]]);
  }

  /** After a fixed header, each piece still sits right after the pieces before it. */
  lemma ConcatAtAfter(h: string, ps: seq<string>, k: nat)
    requires k < |ps|
    ensures OccursAt(h + Concat(ps), ps[k], |h| + |Concat(ps[..k])|)
  {
    ConcatAt(ps, k);
    var o := |Concat(ps[..k])|;
    assert (h + Concat(ps))[|h| + o..|h| + o + |ps[k]|] == Concat(ps)[o..o + |ps[k]|];
  }

  /** The beginning of an occurrence occurs at the same place. */
  lemma OccursAtStart(s: string, b: string, h: string, o: nat)
    requires OccursAt(s, b, o) && |h| <= |b| && b[..|h|] == h
    ensures OccursAt(s, h, o)
  {
    assert s[o..o + |h|] == s[o..o + |b|][..|h|];
  }

  /** The first `n` elements of `xs`, or all of them when there are fewer (Python's `xs[:n]`). */
  function Take<T>(xs: seq<T>, n: nat): (r: seq<T>)
    ensures |r| <= n && |r| <= |xs| && r == xs[..|r|]
    ensures |r| < n ==> r == xs
  {
    if |xs| <= n then xs else xs[..n]
  }
}
