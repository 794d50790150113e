/** Character classes and the few string operations of Python's `str` that the
    log parser and the feature extractor rely on: `isspace`, `isdigit`, `isupper`,
    `isalnum`, `lower`, `strip`, `split(sep)` and `split()`. Letters, digits and
    case are ASCII; whitespace is the full set that `str.isspace` accepts. */
module Text {

  /** Python's `str.isspace()` for one character (also the class `\s`). */
  predicate IsSpace(c: char) {
    c == ' ' || ('\t' <= c <= '\r') || ('\U{1c}' <= c <= '\U{1f}') || c == '\U{85}' || c == '\U{a0}'
    || c == '\U{1680}' || ('\U{2000}' <= c <= '\U{200a}') || c == '\U{2028}' || c == '\U{2029}'
    || c == '\U{202f}' || c == '\U{205f}' || c == '\U{3000}'
  }

  predicate NotSpace(c: char) { !IsSpace(c) }

  predicate IsDigit(c: char) { '0' <= c <= '9' }

  predicate IsUpper(c: char) { 'A' <= c <= 'Z' }

  predicate IsLower(c: char) { 'a' <= c <= 'z' }

  predicate IsAlnum(c: char) { IsDigit(c) || IsUpper(c) || IsLower(c) }

  /** The regex class `\w`. */
  predicate IsWordChar(c: char) { IsAlnum(c) || c == '_' }

  function Lower(c: char): (r: char)
    ensures IsUpper(c) ==> IsLower(r)
    ensures !IsUpper(c) ==> r == c
  {
    if IsUpper(c) then (c as int + 32) as char else c
  }

  /** `s.lower()`; it keeps the length, so positions in `s` and in its lower-case form agree. */
  function LowerStr(s: string): (r: string)
    ensures |r| == |s|
    ensures forall i :: 0 <= i < |s| ==> r[i] == Lower(s[i])
  {
    seq(|s|, i requires 0 <= i < |s| => Lower(s[i]))
  }

  predicate AllSpace(s: string) { forall i :: 0 <= i < |s| ==> IsSpace(s[i]) }

  predicate AllDigits(s: string) { forall i :: 0 <= i < |s| ==> IsDigit(s[i]) }

  predicate AllWordChars(s: string) { forall i :: 0 <= i < |s| ==> IsWordChar(s[i]) }

  /** `s.isdigit()`: non-empty and every character a digit. */
  predicate IsDecimal(s: string) { |s| > 0 && AllDigits(s) }

  /** The value of a decimal digit string, as `int(s)` computes it. */
  function DecimalValue(s: string): (v: nat)
    requires AllDigits(s)
  {
    if s == [] then 0 else DecimalValue(s[..|s| - 1]) * 10 + (s[|s| - 1] as int - '0' as int)
  }

  datatype Option<T> = None | Some(value: T)

  /** A value, or the error an operation raised instead. */
  datatype Result<T, E> = Ok(value: T) | Err(error: E)

  /** `s[i..]` starts with `lit`, compared exactly. */
  predicate LitAt(s: string, i: nat, lit: string) {
    i + |lit| <= |s| && s[i..i + |lit|] == lit
  }

  /** `s[i..]` starts with `kw` up to ASCII case; `kw` is written in lower case. */
  predicate KeywordAt(s: string, i: nat, kw: string) {
    i + |kw| <= |s| && forall k :: 0 <= k < |kw| ==> Lower(s[i + k]) == kw[k]
  }

  /** `s.startswith(prefix)`. */
  predicate StartsWith(s: string, prefix: string) {
    |prefix| <= |s| && s[..|prefix|] == prefix
  }

  /** `pat in s`. */
  predicate Contains(s: string, pat: string) {
    exists i :: 0 <= i <= |s| && LitAt(s, i, pat)
  }

  /** Every slice of `s` occurs in `s`. */
  lemma SliceContained(s: string, i: nat, j: nat)
    requires i <= j <= |s|
    ensures Contains(s, s[i..j])
  {
    assert LitAt(s, i, s[i..j]);
  }

  /** The end of the longest run of characters satisfying `p` that starts at `i`. */
  function RunEnd(s: string, i: nat, p: char -> bool): (e: nat)
    requires i <= |s|
    ensures i <= e <= |s|
    ensures forall k :: i <= k < e ==> p(s[k])
    ensures e == |s| || !p(s[e])
    decreases |s| - i
  {
    if i < |s| && p(s[i]) then RunEnd(s, i + 1, p) else i
  }

  /** A run that starts with `s[i..j]` ends where the run from `j` ends. */
  lemma {:induction false} RunEndSkip(s: string, i: nat, j: nat, p: char -> bool)
    requires i <= j <= |s|
    requires forall k :: i <= k < j ==> p(s[k])
    ensures RunEnd(s, i, p) == RunEnd(s, j, p)
    decreases j - i
  {
    if i < j { RunEndSkip(s, i + 1, j, p); }
  }

  // ---------------------------------------------------------------- strip

  /** The start of the trailing whitespace of `s[lo..hi]`. */
  function TrailStart(s: string, lo: nat, hi: nat): (j: nat)
    requires lo <= hi <= |s|
    ensures lo <= j <= hi
    ensures forall k :: j <= k < hi ==> IsSpace(s[k])
    ensures j == lo || !IsSpace(s[j - 1])
    decreases hi
  {
    if lo < hi && IsSpace(s[hi - 1]) then TrailStart(s, lo, hi - 1) else hi
  }

  /** Where `s.strip()` starts and ends in `s`. */
  function StripStart(s: string): (i: nat)
    ensures i <= |s| && AllSpace(s[..i])
  {
    RunEnd(s, 0, IsSpace)
  }

  function StripEnd(s: string): (j: nat)
    ensures StripStart(s) <= j <= |s| && AllSpace(s[j..])
  {
    TrailStart(s, StripStart(s), |s|)
  }

  /** `s.strip()`: the slice of `s` left after removing leading and trailing whitespace. */
  function Strip(s: string): (r: string)
    ensures r == s[StripStart(s)..StripEnd(s)]
    ensures r == [] || (!IsSpace(r[0]) && !IsSpace(r[|r| - 1]))
    ensures r == [] <==> AllSpace(s)
  {
    var i := StripStart(s);
    var j := StripEnd(s);
    assert i == j ==> AllSpace(s) by {
      if i == j {
        forall k | 0 <= k < |s| ensures IsSpace(s[k]) { if k < i { assert s[k] == s[..i][k]; } }
      }
    }
    s[i..j]
  }

  /** What occurs in `s` still occurs in it once stripped. */
  lemma StripContained(s: string, c: string)
    requires Contains(s, c)
    ensures Contains(s, Strip(c))
  {
    var i :| 0 <= i <= |s| && LitAt(s, i, c);
    var a, b := StripStart(c), StripEnd(c);
    SliceOfSlice(s, i, c, a, b);
    SliceContained(s, i + a, i + b);
  }

  lemma SliceOfSlice(s: string, i: nat, c: string, a: nat, b: nat)
    requires i + |c| <= |s| && c == s[i..i + |c|] && a <= b <= |c|
    ensures c[a..b] == s[i + a..i + b]
  {
    assert forall k :: 0 <= k < b - a ==> c[a..b][k] == s[i + a..i + b][k];
  }

  // ---------------------------------------------------------------- split(sep)

  function IndexOf(s: string, c: char): (k: nat)
    requires c in s
    ensures k < |s| && s[k] == c && c !in s[..k]
  {
    if s[0] == c then 0 else
      var k := IndexOf(s[1..], c);
      assert s[1..][..k] == s[1..k + 1];
      k + 1
  }

  /** `s.split(sep)` for a one-character separator: the pieces between separators,
      always at least one (`"".split('\n') == [""]`). */
  function Split(s: string, sep: char): (r: seq<string>)
    ensures |r| >= 1
    ensures forall k :: 0 <= k < |r| ==> sep !in r[k]
    decreases |s|
  {
    if sep !in s then [s]
    else
      var k := IndexOf(s, sep);
      [s[..k]] + Split(s[k + 1..], sep)
  }

  /** `sep.join(parts)`. */
  function Join(parts: seq<string>, sep: char): string
    requires |parts| >= 1
  {
    if |parts| == 1 then parts[0] else parts[0] + [sep] + Join(parts[1..], sep)
  }

  /** Splitting loses nothing: joining the pieces with the separator gives back the text. */
  lemma {:induction false} JoinSplit(s: string, sep: char)
    ensures Join(Split(s, sep), sep) == s
    decreases |s|
  {
    if sep in s {
      var k := IndexOf(s, sep);
      JoinSplit(s[k + 1..], sep);
      JoinCons(s[..k], Split(s[k + 1..], sep), sep);
      assert s == s[..k] + [sep] + s[k + 1..];
    }
  }

  lemma JoinCons(a: string, rest: seq<string>, sep: char)
    requires |rest| >= 1
    ensures Join([a] + rest, sep) == a + [sep] + Join(rest, sep)
  {
    assert ([a] + rest)[1..] == rest;
  }

  /** Joining loses nothing either, when no piece holds the separator: splitting the
      joined text gives back the pieces. */
  lemma {:induction false} SplitJoin(parts: seq<string>, sep: char)
    requires |parts| >= 1 && forall k :: 0 <= k < |parts| ==> sep !in parts[k]
    ensures Split(Join(parts, sep), sep) == parts
    decreases |parts|
  {
    if |parts| > 1 {
      SplitJoin(parts[1..], sep);
      SplitCons(parts[0], sep, Join(parts[1..], sep));
      assert [parts[0]] + parts[1..] == parts;
    }
  }

  /** A slice is the part before `m`, the character at `m` and the part after. */
  lemma SlicePivot(s: string, lo: nat, m: nat, hi: nat)
    requires lo <= m < hi <= |s|
    ensures s[lo..hi] == s[lo..m] + [s[m]] + s[m + 1..hi]
  {
  }

  lemma {:induction false} SplitCons(a: string, sep: char, b: string)
    requires sep !in a
    ensures Split(a + [sep] + b, sep) == [a] + Split(b, sep)
  {
    var s := a + [sep] + b;
    assert s[|a|] == sep;
    var k := IndexOf(s, sep);
    assert s[..|a|] == a;
    assert k == |a|;
    assert s[k + 1..] == b;
  }

  // ---------------------------------------------------------------- split()

  /** `s.split()` with no argument: the maximal runs of non-whitespace characters. */
  function Words(s: string): (r: seq<string>)
    ensures forall k :: 0 <= k < |r| ==> |r[k]| > 0 && forall j :: 0 <= j < |r[k]| ==> !IsSpace(r[k][j])
  {
    WordsFrom(s, 0)
  }

  /** The words of `s[i..]`. */
  function WordsFrom(s: string, i: nat): (r: seq<string>)
    requires i <= |s|
    ensures forall k :: 0 <= k < |r| ==> |r[k]| > 0 && forall j :: 0 <= j < |r[k]| ==> !IsSpace(r[k][j])
    decreases |s| - i
  {
    var a := RunEnd(s, i, IsSpace);
    if a == |s| then []
    else
      var b := RunEnd(s, a, NotSpace);
      [s[a..b]] + WordsFrom(s, b)
  }

  /** An independent count of maximal non-whitespace runs in `s[i..]`: one for each
      character that is not whitespace and follows whitespace or the start
      (`inWord` says whether the character before position `i` is part of a run). */
  function RunCount(s: string, i: nat, inWord: bool): nat
    requires i <= |s|
    decreases |s| - i
  {
    if i == |s| then 0
    else if IsSpace(s[i]) then RunCount(s, i + 1, false)
    else (if inWord then 0 else 1) + RunCount(s, i + 1, true)
  }

  lemma {:induction false} RunCountSkipsSpace(s: string, i: nat, a: nat, inWord: bool)
    requires i <= a <= |s| && (forall k :: i <= k < a ==> IsSpace(s[k])) && (a > i || !inWord)
    ensures RunCount(s, i, inWord) == RunCount(s, a, false)
    decreases a - i
  {
    if i < a { RunCountSkipsSpace(s, i + 1, a, false); }
  }

  lemma {:induction false} RunCountSkipsWord(s: string, i: nat, b: nat)
    requires i <= b <= |s| && forall k :: i <= k < b ==> !IsSpace(s[k])
    ensures RunCount(s, i, true) == RunCount(s, b, true)
    decreases b - i
  {
    if i < b { RunCountSkipsWord(s, i + 1, b); }
  }

  /** `len(s.split())` is the number of maximal non-whitespace runs of `s`. */
  lemma WordCountIsRunCount(s: string)
    ensures |Words(s)| == RunCount(s, 0, false)
  {
    WordsFromCountsRuns(s, 0);
  }

  lemma {:induction false} WordsFromCountsRuns(s: string, i: nat)
    requires i <= |s|
    ensures |WordsFrom(s, i)| == RunCount(s, i, false)
    decreases |s| - i
  {
    var a := RunEnd(s, i, IsSpace);
    RunCountSkipsSpace(s, i, a, false);
    if a < |s| {
      var b := RunEnd(s, a, NotSpace);
      WordsFromStep(s, i, a, b);
      RunCountOfWord(s, a, b);
      WordsFromCountsRuns(s, b);
    }
  }

  lemma WordsFromStep(s: string, i: nat, a: nat, b: nat)
    requires i <= |s| && a == RunEnd(s, i, IsSpace) && a < |s| && b == RunEnd(s, a, NotSpace)
    ensures |WordsFrom(s, i)| == 1 + |WordsFrom(s, b)|
  {
  }

  /** A maximal run `s[a..b]` of non-whitespace counts one. */
  lemma RunCountOfWord(s: string, a: nat, b: nat)
    requires a < b <= |s| && (forall k :: a <= k < b ==> NotSpace(s[k])) && (b == |s| || !NotSpace(s[b]))
    ensures RunCount(s, a, false) == 1 + RunCount(s, b, false)
  {
    assert NotSpace(s[a]);
    RunCountSkipsWord(s, a + 1, b);
    if b < |s| {
      assert RunCount(s, b, true) == RunCount(s, b + 1, false);
    }
  }

  // ---------------------------------------------------------------- map

  /** `[f(x) for x in xs]`. */
  function Map<A, B>(xs: seq<A>, f: A -> B): (r: seq<B>)
    ensures |r| == |xs|
  {
    if xs == [] then [] else Map(xs[..|xs| - 1], f) + [f(xs[|xs| - 1])]
  }

  lemma {:induction false} MapIndex<A, B>(xs: seq<A>, f: A -> B)
    ensures forall k :: 0 <= k < |xs| ==> Map(xs, f)[k] == f(xs[k])
  {
    if xs != [] {
      MapIndex(xs[..|xs| - 1], f);
    }
  }

  lemma MapSnoc<A, B>(xs: seq<A>, x: A, f: A -> B)
    ensures Map(xs + [x], f) == Map(xs, f) + [f(x)]
  {
    assert (xs + [x])[..|xs|] == xs;
  }

  // ---------------------------------------------------------------- filter

  /** `[x for x in xs if keep(x)]`. */
  function Filter<A>(xs: seq<A>, keep: A -> bool): (r: seq<A>)
    ensures |r| <= |xs|
    ensures forall k :: 0 <= k < |r| ==> keep(r[k])
  {
    if xs == [] then [] else Filter(xs[..|xs| - 1], keep) + (if keep(xs[|xs| - 1]) then [xs[|xs| - 1]] else [])
  }

  /** One more element is appended when it is kept, and changes nothing otherwise. */
  lemma FilterStep<A>(xs: seq<A>, i: nat, keep: A -> bool)
    requires i < |xs|
    ensures keep(xs[i]) ==> Filter(xs[..i + 1], keep) == Filter(xs[..i], keep) + [xs[i]]
    ensures !keep(xs[i]) ==> Filter(xs[..i + 1], keep) == Filter(xs[..i], keep)
  {
    assert xs[..i + 1][..i] == xs[..i];
    assert Filter(xs[..i], keep) + [] == Filter(xs[..i], keep);
  }

  /** Nothing is dropped and nothing is invented. */
  lemma {:induction false} FilterExact<A>(xs: seq<A>, x: A, keep: A -> bool)
    ensures x in Filter(xs, keep) <==> x in xs && keep(x)
  {
    if xs != [] {
      FilterExact(xs[..|xs| - 1], x, keep);
      assert xs == xs[..|xs| - 1] + [xs[|xs| - 1]];
    }
  }

  /** Filtering a longer list extends what was kept from its prefix. */
  lemma FilterExtends<A>(xs: seq<A>, keep: A -> bool)
    requires xs != []
    ensures |Filter(xs[..|xs| - 1], keep)| <= |Filter(xs, keep)|
    ensures forall k :: 0 <= k < |Filter(xs[..|xs| - 1], keep)| ==>
      Filter(xs, keep)[k] == Filter(xs[..|xs| - 1], keep)[k]
    ensures keep(xs[|xs| - 1]) ==>
      |Filter(xs, keep)| == |Filter(xs[..|xs| - 1], keep)| + 1 &&
      Filter(xs, keep)[|Filter(xs[..|xs| - 1], keep)|] == xs[|xs| - 1]
  {
  }

  /** Where two kept elements `xs[i]` and `xs[j]`, `i < j`, end up: in the same order. */
  lemma {:induction false} FilterPositions<A>(xs: seq<A>, i: nat, j: nat, keep: A -> bool) returns (a: nat, b: nat)
    requires i < j < |xs| && keep(xs[i]) && keep(xs[j])
    ensures a < b < |Filter(xs, keep)| && Filter(xs, keep)[a] == xs[i] && Filter(xs, keep)[b] == xs[j]
  {
    var init := xs[..|xs| - 1];
    var r, q := Filter(xs, keep), Filter(init, keep);
    FilterExtends(xs, keep);
    assert init[i] == xs[i];
    if j < |xs| - 1 {
      assert init[j] == xs[j];
      a, b := FilterPositions(init, i, j, keep);
      assert r[a] == q[a];
      assert r[b] == q[b];
    } else {
      FilterExact(init, xs[i], keep);
      a :| a < |q| && q[a] == xs[i];
      b := |q|;
      assert r[a] == q[a];
    }
  }
}
