/** Regular-expression searching as Python's `re` module does it, over matchers
    written by hand. A matcher says whether its pattern matches at one position and,
    if so, where the match and its (first) capture group lie; `Search` is
    `re.search` (the leftmost match), `FindAll` is `re.findall` (successive
    non-overlapping leftmost matches) and `FirstCapture` tries a list of patterns in
    order, as the parser's first-match loops do. */
module Scan {
  import opened Text

  /** A match at some position: the span of its capture group and where it ends. */
  datatype Match = Match(groupStart: nat, groupEnd: nat, end: nat)

  type Matcher = (string, nat) -> Option<Match>

  /** Every match lies inside the text, consumes at least one character and holds its group. */
  ghost predicate WellFormed(at: Matcher) {
    forall s: string, p: nat {:trigger at(s, p)} :: at(s, p).Some? ==>
      p <= at(s, p).value.groupStart <= at(s, p).value.groupEnd <= at(s, p).value.end <= |s|
      && p < at(s, p).value.end
  }

  /** A matcher whose matches are well formed; the patterns of the parser all are. */
  type WfMatcher = at: Matcher | WellFormed(at) witness NoMatch

  function NoMatch(s: string, p: nat): Option<Match> { None }

  /** `re.search` from position `i`: the leftmost position where `at` matches. */
  function Search(s: string, i: nat, at: Matcher): (r: Option<(nat, Match)>)
    requires i <= |s|
    ensures r.Some? ==> i <= r.value.0 <= |s| && at(s, r.value.0) == Some(r.value.1)
    ensures forall q :: i <= q <= |s| && (r.None? || q < r.value.0) ==> at(s, q).None?
    decreases |s| - i
  {
    if at(s, i).Some? then Some((i, at(s, i).value))
    else if i == |s| then None
    else Search(s, i + 1, at)
  }

  /** The text of a match's group. */
  function Group(s: string, m: Match): string
    requires m.groupStart <= m.groupEnd <= |s|
  {
    s[m.groupStart..m.groupEnd]
  }

  /** `m.group(1)` of `re.search(pattern, s)`, when there is a match. */
  function Capture(s: string, at: WfMatcher): (r: Option<string>)
    ensures r.Some? <==> exists q :: 0 <= q <= |s| && at(s, q).Some?
    ensures r.Some? ==>
      exists q :: (0 <= q <= |s| && at(s, q).Some? &&
        (forall p :: 0 <= p < q ==> at(s, p).None?) && r.value == Group(s, at(s, q).value))
  {
    match Search(s, 0, at)
    case None => None
    case Some((q, m)) =>
      assert at(s, q).Some? && (forall p :: 0 <= p < q ==> at(s, p).None?) && Group(s, m) == Group(s, at(s, q).value);
      Some(Group(s, m))
  }

  /** A captured group is text of `s`. */
  lemma CaptureContained(s: string, at: WfMatcher)
    ensures Capture(s, at).Some? ==> Contains(s, Capture(s, at).value)
  {
    match Search(s, 0, at)
    case None =>
    case Some((_, m)) => SliceContained(s, m.groupStart, m.groupEnd);
  }

  /** `re.findall`: the groups of the successive non-overlapping matches from `i` on. */
  function FindAll(s: string, i: nat, at: WfMatcher): seq<string>
    requires i <= |s|
    decreases |s| - i
  {
    match Search(s, i, at)
    case None => []
    case Some((_, m)) => [Group(s, m)] + FindAll(s, m.end, at)
  }

  /** `findall` finds nothing exactly when the pattern matches nowhere. */
  lemma FindAllEmpty(s: string, i: nat, at: WfMatcher)
    requires i <= |s|
    ensures FindAll(s, i, at) == [] <==> forall q :: i <= q <= |s| ==> at(s, q).None?
  {
  }

  /** Each match consumes a character, so there are never more matches than characters. */
  lemma {:induction false} FindAllBound(s: string, i: nat, at: WfMatcher)
    requires i <= |s|
    ensures |FindAll(s, i, at)| <= |s| - i
    decreases |s| - i
  {
    match Search(s, i, at)
    case None =>
    case Some((_, m)) => FindAllBound(s, m.end, at);
  }

  /** A property that every group of `at` has holds of every string `findall` returns. */
  lemma {:induction false} FindAllGroups(s: string, i: nat, at: WfMatcher, prop: string -> bool)
    requires i <= |s|
    requires forall q | i <= q <= |s| && at(s, q).Some? :: prop(Group(s, at(s, q).value))
    ensures forall k :: 0 <= k < |FindAll(s, i, at)| ==> prop(FindAll(s, i, at)[k])
    decreases |s| - i
  {
    match Search(s, i, at)
    case None =>
    case Some((_, m)) =>
      FindAllGroups(s, m.end, at, prop);
  }

  /** The capture of the first pattern in `pats` that matches somewhere in `s`. */
  function FirstCapture(s: string, pats: seq<WfMatcher>): (r: Option<string>)
    ensures r.None? <==> forall k :: 0 <= k < |pats| ==> Capture(s, pats[k]).None?
    ensures r.Some? ==>
      exists k :: 0 <= k < |pats| && r == Capture(s, pats[k]) && forall j :: 0 <= j < k ==> Capture(s, pats[j]).None?
  {
    FirstCaptureFrom(s, pats, 0)
  }

  /** The capture of the first of `pats[i..]` that matches somewhere in `s`. */
  function FirstCaptureFrom(s: string, pats: seq<WfMatcher>, i: nat): (r: Option<string>)
    requires i <= |pats|
    ensures r.None? <==> forall k :: i <= k < |pats| ==> Capture(s, pats[k]).None?
    ensures r.Some? ==>
      exists k :: i <= k < |pats| && r == Capture(s, pats[k]) && forall j :: i <= j < k ==> Capture(s, pats[j]).None?
    decreases |pats| - i
  {
    if i == |pats| then None
    else
      match Capture(s, pats[i])
      case Some(g) => Some(g)
      case None =>
        var r := FirstCaptureFrom(s, pats, i + 1);
        FirstCaptureSkip(s, pats, i, r);
        r
  }

  /** When `pats[i]` matches nowhere, the answer for `pats[i + 1..]` is that for `pats[i..]`. */
  lemma FirstCaptureSkip(s: string, pats: seq<WfMatcher>, i: nat, r: Option<string>)
    requires i < |pats| && Capture(s, pats[i]).None?
    requires r.None? <==> forall k :: i + 1 <= k < |pats| ==> Capture(s, pats[k]).None?
    requires r.Some? ==>
      exists k :: i + 1 <= k < |pats| && r == Capture(s, pats[k]) && forall j :: i + 1 <= j < k ==> Capture(s, pats[j]).None?
    ensures r.None? <==> forall k :: i <= k < |pats| ==> Capture(s, pats[k]).None?
    ensures r.Some? ==>
      exists k :: i <= k < |pats| && r == Capture(s, pats[k]) && forall j :: i <= j < k ==> Capture(s, pats[j]).None?
  {
    if r.Some? {
      var k :| i + 1 <= k < |pats| && r == Capture(s, pats[k]) && forall j :: i + 1 <= j < k ==> Capture(s, pats[j]).None?;
      assert forall j :: i <= j < k ==> Capture(s, pats[j]).None?;
    }
  }

  /** Every group of `at` in `s` has property `prop`. */
  ghost predicate GroupsSatisfy(s: string, at: WfMatcher, prop: string -> bool)
  {
    forall q: nat :: q <= |s| && at(s, q).Some? ==> prop(Group(s, at(s, q).value))
  }

  /** The capture of a list of patterns is text of `s`. */
  lemma FirstCaptureContained(s: string, pats: seq<WfMatcher>)
    ensures FirstCapture(s, pats).Some? ==> Contains(s, FirstCapture(s, pats).value)
  {
    if FirstCapture(s, pats).Some? {
      var k :| 0 <= k < |pats| && FirstCapture(s, pats) == Capture(s, pats[k]);
      CaptureContained(s, pats[k]);
    }
  }

  /** A property that every group of every pattern has holds of the capture of the list. */
  lemma FirstCaptureGroups(s: string, pats: seq<WfMatcher>, prop: string -> bool)
    requires forall k :: 0 <= k < |pats| ==> GroupsSatisfy(s, pats[k], prop)
    ensures FirstCapture(s, pats).Some? ==> prop(FirstCapture(s, pats).value)
  {
    if FirstCapture(s, pats).Some? {
      var k :| 0 <= k < |pats| && FirstCapture(s, pats) == Capture(s, pats[k]);
      CaptureGroup(s, pats[k], prop);
    }
  }

  /** A property that every group of `at` has holds of its capture. */
  lemma CaptureGroup(s: string, at: WfMatcher, prop: string -> bool)
    requires GroupsSatisfy(s, at, prop)
    ensures Capture(s, at).Some? ==> prop(Capture(s, at).value)
  {
    match Search(s, 0, at)
    case Some((q, m)) =>
      assert at(s, q).Some?;
    case None =>
  }
}
