/**
 The timeline editor: validation before submission, the editing functions, and the
 undo/redo history (tool/src/components/timeline/segmentMath.ts, tool/src/hooks/useSegmentEditor.ts).
 */
module Editor {
  import opened Basics
  import opened Segments
  import Sorting
  import L = Lifecycle

  // ---------------------------------------------------------------- validation

  predicate HasLabel(s: Segment) {
    s.actionLabel.Some? && s.actionLabel.value != ""
  }

  predicate Fits(s: Segment, durationMs: real) {
    0.0 <= s.startMs && s.endMs <= durationMs && s.endMs - s.startMs >= MIN_SEGMENT_MS
  }

  datatype Problem = BadRange(id: string) | TooShort(id: string) | OutOfEpisode(id: string) | NoLabel(id: string)
                   | Overlapping(first: string, second: string)

  /** Every segment is labelled, long enough and inside the episode, and no two overlap. */
  ghost predicate Accepted(segments: seq<Segment>, durationMs: real) {
    (forall s :: s in segments ==> Fits(s, durationMs) && HasLabel(s)) && PairwiseDisjoint(segments)
  }

  /** What is wrong with one segment by itself. */
  function ProblemsOf(s: Segment, durationMs: real): seq<Problem> {
    (if s.endMs <= s.startMs then [BadRange(s.segmentId)] else [])
    + (if s.endMs - s.startMs < MIN_SEGMENT_MS then [TooShort(s.segmentId)] else [])
    + (if s.startMs < 0.0 || s.endMs > durationMs then [OutOfEpisode(s.segmentId)] else [])
    + (if !HasLabel(s) then [NoLabel(s.segmentId)] else [])
  }

  function AllProblems(segments: seq<Segment>, durationMs: real): seq<Problem> {
    if segments == [] then []
    else AllProblems(segments[..|segments| - 1], durationMs) + ProblemsOf(segments[|segments| - 1], durationMs)
  }

  function OverlapProblems(overlaps: seq<(Segment, Segment)>): (r: seq<Problem>)
    ensures |r| == |overlaps|
    ensures forall i :: 0 <= i < |r| ==> r[i] == Overlapping(overlaps[i].0.segmentId, overlaps[i].1.segmentId)
  {
    seq(|overlaps|, i requires 0 <= i < |overlaps| =>
      Overlapping(overlaps[i].0.segmentId, overlaps[i].1.segmentId))
  }

  lemma AllProblemsStep(segments: seq<Segment>, i: nat, durationMs: real)
    requires i < |segments|
    ensures AllProblems(segments[..i + 1], durationMs)
         == AllProblems(segments[..i], durationMs) + ProblemsOf(segments[i], durationMs)
    ensures AllProblems(segments[..0], durationMs) == []
  {
    assert segments[..i + 1][..i] == segments[..i];
  }

  lemma {:induction false} NamedBySomeone(segments: seq<Segment>, durationMs: real, p: Problem)
    ensures p in AllProblems(segments, durationMs) <==> exists s :: s in segments && p in ProblemsOf(s, durationMs)
  {
    hide ProblemsOf;
    if segments != [] {
      var init, last := segments[..|segments| - 1], segments[|segments| - 1];
      NamedBySomeone(init, durationMs, p);
      assert forall s :: s in segments <==> s in init || s == last;
    }
  }

  lemma ProblemsOfOne(s: Segment, durationMs: real, id: string)
    ensures var problems := ProblemsOf(s, durationMs);
            && (BadRange(id) in problems <==> s.segmentId == id && s.endMs <= s.startMs)
            && (TooShort(id) in problems <==> s.segmentId == id && s.endMs - s.startMs < 100.0)
            && (OutOfEpisode(id) in problems <==> s.segmentId == id && (s.startMs < 0.0 || s.endMs > durationMs))
            && (NoLabel(id) in problems <==>
                  s.segmentId == id && (s.actionLabel.None? || s.actionLabel.value == ""))
            && (problems == [] <==> Fits(s, durationMs) && HasLabel(s))
  {
  }

  lemma NoProblems(segments: seq<Segment>, durationMs: real)
    ensures AllProblems(segments, durationMs) == [] <==>
            forall s :: s in segments ==> Fits(s, durationMs) && HasLabel(s)
  {
    hide AllProblems, ProblemsOf, Fits, HasLabel;
    var all := AllProblems(segments, durationMs);
    forall s | s in segments
      ensures ProblemsOf(s, durationMs) == [] <==> Fits(s, durationMs) && HasLabel(s)
      ensures all == [] ==> ProblemsOf(s, durationMs) == []
    {
      ProblemsOfOne(s, durationMs, "");
      if ProblemsOf(s, durationMs) != [] {
        NamedBySomeone(segments, durationMs, ProblemsOf(s, durationMs)[0]);
      }
    }
    if all != [] {
      NamedBySomeone(segments, durationMs, all[0]);
    }
  }

  /** Which problems are named for an id: each kind exactly if a segment with the id has it. */
  lemma ProblemsAreExact(segments: seq<Segment>, durationMs: real, id: string)
    ensures var problems := AllProblems(segments, durationMs);
            && (BadRange(id) in problems <==> exists s :: s in segments && s.segmentId == id && s.endMs <= s.startMs)
            && (TooShort(id) in problems <==>
                  exists s :: s in segments && s.segmentId == id && s.endMs - s.startMs < 100.0)
            && (OutOfEpisode(id) in problems <==>
                  exists s :: s in segments && s.segmentId == id && (s.startMs < 0.0 || s.endMs > durationMs))
            && (NoLabel(id) in problems <==>
                  exists s :: s in segments && s.segmentId == id
                              && (s.actionLabel.None? || s.actionLabel.value == ""))
  {
    hide AllProblems, ProblemsOf;
    NamedBySomeone(segments, durationMs, BadRange(id));
    NamedBySomeone(segments, durationMs, TooShort(id));
    NamedBySomeone(segments, durationMs, OutOfEpisode(id));
    NamedBySomeone(segments, durationMs, NoLabel(id));
    forall s | s in segments {
      ProblemsOfOne(s, durationMs, id);
    }
  }

  lemma NothingToCheck(durationMs: real)
    ensures AllProblems([], durationMs) == []
  {
  }

  lemma WhenAccepted(segments: seq<Segment>, durationMs: real)
    ensures Accepted(segments, durationMs) <==>
            AllProblems(segments, durationMs) == [] && NeighbourOverlaps(SortByStart(segments), 1) == []
  {
    hide PairwiseDisjoint, SortByStart, NeighbourOverlaps, AllProblems;
    NoProblems(segments, durationMs);
    if AllProblems(segments, durationMs) == [] {
      NeighbourCheckIsExact(segments);
    }
  }

  /** `validateSegments`: no problem is reported exactly when every segment is labelled, long
      enough and inside the episode, and no two segments overlap. */
  method ValidateSegments(segments: seq<Segment>, durationMs: real) returns (valid: bool, problems: seq<Problem>)
    ensures valid <==> problems == []
    ensures valid <==> Accepted(segments, durationMs)
    ensures problems == AllProblems(segments, durationMs)
                        + OverlapProblems(NeighbourOverlaps(SortByStart(segments), 1))
  {
    hide PairwiseDisjoint, SortByStart, NeighbourOverlaps, AllProblems, HasLabel, Accepted;
    problems := [];
    assert AllProblems([], durationMs) == [] by { NothingToCheck(durationMs); }
    for i := 0 to |segments|
      invariant problems == AllProblems(segments[..i], durationMs)
    {
      var s := segments[i];
      ghost var before := problems;
      AllProblemsStep(segments, i, durationMs);
      if s.endMs <= s.startMs {
        problems := problems + [BadRange(s.segmentId)];
      }
      if s.endMs - s.startMs < MIN_SEGMENT_MS {
        problems := problems + [TooShort(s.segmentId)];
      }
      if s.startMs < 0.0 || s.endMs > durationMs {
        problems := problems + [OutOfEpisode(s.segmentId)];
      }
      if !HasLabel(s) {
        problems := problems + [NoLabel(s.segmentId)];
      }
      assert problems == before + ProblemsOf(s, durationMs);
    }
    assert segments[..|segments|] == segments;
    WhenAccepted(segments, durationMs);
    var overlaps := FindOverlaps(segments);
    ghost var single := problems;
    for i := 0 to |overlaps|
      invariant problems == single + OverlapProblems(overlaps)[..i]
    {
      problems := problems + [Overlapping(overlaps[i].0.segmentId, overlaps[i].1.segmentId)];
    }
    valid := problems == [];
  }

  /** What the contract checks and the front end does not. */
  predicate Sendable(s: Segment) {
    Whole(s.startMs) && Whole(s.endMs) && Short(StrippedOption(s.description)) && InUnit(s.confidence)
  }

  predicate AllSendable(segments: seq<Segment>) {
    forall s :: s in segments ==> Sendable(s)
  }

  lemma ParsedDisjoint(segments: seq<Segment>)
    requires PairwiseDisjoint(segments)
    ensures PairwiseDisjoint(AllParsed(segments))
  {
    forall i, j | 0 <= i < j < |segments| ensures !Overlap(Parsed(segments[i]), Parsed(segments[j])) {
      assert !Overlap(segments[i], segments[j]);
    }
  }

  /** The front end's check is not the server's. What it accepts, the server accepts if and only if
      every time is whole, every description short enough and every confidence between zero and one. */
  lemma AcceptedIsSubmittableIffSendable(segments: seq<Segment>, durationMs: real)
    requires Accepted(segments, durationMs)
    ensures L.Submittable(AllParsed(segments)) <==> AllSendable(segments)
  {
    hide PairwiseDisjoint, SortByStart, NeighbourOverlaps, Stripped;
    var parsed := AllParsed(segments);
    forall i | 0 <= i < |segments| ensures SegmentOk(parsed[i]) <==> Sendable(segments[i]) {
      assert Fits(segments[i], durationMs);
    }
    assert forall i :: 0 <= i < |segments| ==> parsed[i] in parsed && segments[i] in segments;
    if L.WellFormed(parsed) {
      ParsedDisjoint(segments);
      NeighbourCheckIsExact(parsed);
    }
  }

  function Letters(n: nat): string {
    seq(n, _ => 'x')
  }

  lemma LettersAreStripped(n: nat)
    ensures |Letters(n)| == n && Stripped(Letters(n)) == Letters(n)
  {
  }

  /** The bounds in numbers: a segment with a text of `n` letters, a confidence and an end passes the front end if it is
      long enough, and the server exactly within 2000 letters, zero to one, and at a whole millisecond. */
  lemma BoundsInNumbers(n: nat, confidence: real, endMs: real)
    requires endMs >= 100.0
    ensures var s := Segment("a", 0.0, endMs, Some("grasp"), Some(Letters(n)), None, Some(confidence));
            Accepted([s], endMs) &&
            (L.Submittable(AllParsed([s])) <==>
               n <= 2000 && 0.0 <= confidence <= 1.0 && exists k :: Milliseconds(k) == endMs)
  {
    hide Letters, Stripped, AllParsed, L.Submittable;
    var s := Segment("a", 0.0, endMs, Some("grasp"), Some(Letters(n)), None, Some(confidence));
    LettersAreStripped(n);
    AcceptedIsSubmittableIffSendable([s], endMs);
    assert AllSendable([s]) <==> Sendable(s) by {
      assert s in [s];
    }
    WholeIsAnInteger(endMs);
    WholeIsAnInteger(0.0);
  }

  function Milliseconds(k: int): real { k as real }

  lemma WholeIsAnInteger(x: real)
    ensures Whole(x) <==> exists k :: Milliseconds(k) == x
  {
    if Whole(x) {
      assert Milliseconds(x.Floor) == x;
    }
  }

  /** A description of 2001 characters passes the front end, which does not measure it, and not the server. */
  lemma LongDescriptionIsRefused()
    ensures var s := Segment("a", 0.0, 100.0, Some("grasp"), Some(Letters(2001)), None, None);
            Accepted([s], 100.0) && !L.Submittable(AllParsed([s]))
  {
    hide Letters, Stripped, AllParsed, L.Submittable;
    var s := Segment("a", 0.0, 100.0, Some("grasp"), Some(Letters(2001)), None, None);
    LettersAreStripped(2001);
    AcceptedIsSubmittableIffSendable([s], 100.0);
    assert !Sendable(s) && s in [s];
  }

  // ---------------------------------------------------------------- geometrically valid lists

  predicate Compatible(a: Segment, b: Segment) {
    a.segmentId != b.segmentId && !Overlap(a, b)
  }

  ghost predicate PairwiseCompatible(segments: seq<Segment>) {
    forall i, j :: 0 <= i < j < |segments| ==> Compatible(segments[i], segments[j])
  }

  /** Distinct ids, inside the episode, long enough, and nowhere overlapping. */
  ghost predicate Geometric(segments: seq<Segment>, durationMs: real) {
    (forall s :: s in segments ==> Fits(s, durationMs)) && PairwiseCompatible(segments)
  }

  lemma CompatiblePermutation(a: seq<Segment>, b: seq<Segment>)
    requires multiset(a) == multiset(b) && PairwiseCompatible(a)
    ensures PairwiseCompatible(b)
  {
    assert Sorting.Pairwise(a, Compatible);
    Sorting.PairwisePermutes(a, b, Compatible);
  }

  lemma SortedGeometric(segments: seq<Segment>, durationMs: real)
    requires Geometric(segments, durationMs)
    ensures Geometric(SortByStart(segments), durationMs)
  {
    hide SortByStart, PairwiseCompatible;
    var ordered := SortByStart(segments);
    CompatiblePermutation(segments, ordered);
    forall s | s in ordered ensures s in segments {
      assert s in multiset(ordered);
    }
  }

  /** The two lists hold the same segments, so one is geometrically valid if the other is. */
  lemma SortIsNeutral(segments: seq<Segment>, durationMs: real)
    ensures Geometric(SortByStart(segments), durationMs) <==> Geometric(segments, durationMs)
  {
    hide SortByStart, PairwiseCompatible;
    var ordered := SortByStart(segments);
    if Geometric(ordered, durationMs) {
      CompatiblePermutation(ordered, segments);
      forall s | s in segments ensures s in ordered {
        assert s in multiset(segments);
      }
    }
    if Geometric(segments, durationMs) {
      SortedGeometric(segments, durationMs);
    }
  }

  // ---------------------------------------------------------------- coverage

  function Length(s: Segment): real {
    s.endMs - s.startMs
  }

  function Total(segments: seq<Segment>): real {
    if segments == [] then 0.0 else Length(segments[0]) + Total(segments[1..])
  }

  lemma {:induction false} TotalInsert(s: Segment, sorted: seq<Segment>)
    ensures Total(Sorting.Insert(s, sorted, StartOf)) == Length(s) + Total(sorted)
  {
    if sorted != [] && StartOf(s) > StartOf(sorted[0]) {
      TotalInsert(s, sorted[1..]);
    }
  }

  lemma {:induction false} TotalSort(segments: seq<Segment>)
    ensures Total(SortByStart(segments)) == Total(segments)
  {
    if segments != [] {
      TotalSort(segments[1..]);
      TotalInsert(segments[0], SortByStart(segments[1..]));
    }
  }

  lemma {:induction false} TotalConcat(a: seq<Segment>, b: seq<Segment>)
    ensures Total(a + b) == Total(a) + Total(b)
  {
    if a == [] {
      assert a + b == b;
    } else {
      assert (a + b)[1..] == a[1..] + b;
      TotalConcat(a[1..], b);
    }
  }

  /** `coverageMs` does not depend on the order of the list. */
  method CoverageMs(segments: seq<Segment>) returns (total: real)
    ensures total == Total(segments)
  {
    var ordered := SortByStart(segments);
    TotalSort(segments);
    total := 0.0;
    for i := 0 to |ordered|
      invariant total + Total(ordered[i..]) == Total(ordered)
    {
      assert ordered[i..][1..] == ordered[i + 1..];
      total := total + (ordered[i].endMs - ordered[i].startMs);
    }
  }

  // ---------------------------------------------------------------- the editing functions

  /** The first segment with the id. */
  function Find(segments: seq<Segment>, id: string): (r: Option<Segment>)
    ensures r.Some? ==> r.value in segments && r.value.segmentId == id
    ensures r.None? ==> forall s :: s in segments ==> s.segmentId != id
  {
    if segments == [] then None
    else if segments[0].segmentId == id then Some(segments[0])
    else Find(segments[1..], id)
  }

  function ByHand(s: Segment): Segment {
    s.(source := None, confidence := None)
  }

  function Replace(segments: seq<Segment>, id: string, parts: seq<Segment>): seq<Segment> {
    if segments == [] then []
    else (if segments[0].segmentId == id then parts else [segments[0]]) + Replace(segments[1..], id, parts)
  }

  function SplitSegment(segments: seq<Segment>, id: string, atMs: real, newId: string): seq<Segment> {
    match Find(segments, id)
    case None => segments
    case Some(target) =>
      if atMs - target.startMs < MIN_SEGMENT_MS || target.endMs - atMs < MIN_SEGMENT_MS then segments
      else
        var left := target.(endMs := atMs);
        var right := ByHand(target.(segmentId := newId, startMs := atMs));
        SortByStart(Replace(segments, id, [left, right]))
  }

  function Without(segments: seq<Segment>, id: string): (r: seq<Segment>)
    ensures forall s :: s in r <==> s in segments && s.segmentId != id
  {
    if segments == [] then []
    else (if segments[0].segmentId == id then [] else [segments[0]]) + Without(segments[1..], id)
  }

  function Merged(first: Segment, second: Segment): Segment {
    if first.startMs <= second.startMs then ByHand(first.(endMs := second.endMs))
    else ByHand(second.(endMs := first.endMs))
  }

  function MergeSegments(segments: seq<Segment>, firstId: string, secondId: string): seq<Segment> {
    match (Find(segments, firstId), Find(segments, secondId))
    case (Some(first), Some(second)) =>
      SortByStart(Without(Without(segments, firstId), secondId) + [Merged(first, second)])
    case _ => segments
  }

  datatype Edge = StartEdge | EndEdge

  function IndexOf(segments: seq<Segment>, id: string): (r: Option<nat>)
    ensures r.Some? ==> r.value < |segments| && segments[r.value].segmentId == id
    ensures r.None? ==> forall s :: s in segments ==> s.segmentId != id
  {
    if segments == [] then None
    else if segments[0].segmentId == id then Some(0)
    else match IndexOf(segments[1..], id)
      case None => None
      case Some(i) => Some(i + 1)
  }

  function Min(a: real, b: real): real { if a <= b then a else b }

  function Max(a: real, b: real): real { if a >= b then a else b }

  function Resized(ordered: seq<Segment>, index: nat, edge: Edge, positionMs: real, durationMs: real): Segment
    requires index < |ordered|
  {
    var target := ordered[index];
    match edge
    case StartEdge =>
      var lowerBound := if index > 0 then ordered[index - 1].endMs else 0.0;
      target.(startMs := Min(Max(positionMs, lowerBound), target.endMs - MIN_SEGMENT_MS))
    case EndEdge =>
      var upperBound := if index + 1 < |ordered| then ordered[index + 1].startMs else durationMs;
      target.(endMs := Max(Min(positionMs, upperBound), target.startMs + MIN_SEGMENT_MS))
  }

  function ResizeSegment(segments: seq<Segment>, id: string, edge: Edge, positionMs: real,
                         durationMs: real): seq<Segment> {
    var ordered := SortByStart(segments);
    match IndexOf(ordered, id)
    case None => ordered
    case Some(index) => ordered[index := Resized(ordered, index, edge, positionMs, durationMs)]
  }

  function Relabel(segments: seq<Segment>, id: string, text: string, description: Option<string>): (r: seq<Segment>)
    ensures |r| == |segments|
    ensures forall i :: 0 <= i < |r| ==> && r[i].segmentId == segments[i].segmentId
                                         && r[i].startMs == segments[i].startMs && r[i].endMs == segments[i].endMs
    ensures forall i :: 0 <= i < |r| ==>
              if segments[i].segmentId == id then
                && r[i].actionLabel == Some(text) && r[i].source.None? && r[i].confidence.None?
                && r[i].description == if description.Some? then description else segments[i].description
              else r[i] == segments[i]
  {
    if segments == [] then []
    else
      var s := segments[0];
      var described := if description.Some? then description else s.description;
      var relabelled := ByHand(s.(actionLabel := Some(text), description := described));
      [if s.segmentId == id then relabelled else s] + Relabel(segments[1..], id, text, description)
  }

  // ---------------------------------------------------------------- splitting

  lemma {:induction false} ReplaceAbsent(segments: seq<Segment>, id: string, parts: seq<Segment>)
    requires forall s :: s in segments ==> s.segmentId != id
    ensures Replace(segments, id, parts) == segments
  {
    if segments != [] {
      ReplaceAbsent(segments[1..], id, parts);
    }
  }

  lemma HeadAndTail(segments: seq<Segment>)
    requires PairwiseCompatible(segments) && segments != []
    ensures PairwiseCompatible(segments[1..])
    ensures forall s :: s in segments[1..] ==> Compatible(segments[0], s)
  {
    forall i, j | 0 <= i < j < |segments[1..]| ensures Compatible(segments[1..][i], segments[1..][j]) {
      assert Compatible(segments[1 + i], segments[1 + j]);
    }
  }

  lemma {:induction false} ReplaceConcat(a: seq<Segment>, b: seq<Segment>, id: string, parts: seq<Segment>)
    ensures Replace(a + b, id, parts) == Replace(a, id, parts) + Replace(b, id, parts)
  {
    if a == [] {
      assert a + b == b;
    } else {
      assert (a + b)[1..] == a[1..] + b;
      ReplaceConcat(a[1..], b, id, parts);
    }
  }

  lemma {:induction false} WithoutIsReplace(segments: seq<Segment>, id: string)
    ensures Without(segments, id) == Replace(segments, id, [])
  {
    if segments != [] {
      WithoutIsReplace(segments[1..], id);
    }
  }

  /** A list with compatible segments is cut in two by the one segment with the id. */
  lemma {:induction false} CutAt(segments: seq<Segment>, id: string) returns (pre: seq<Segment>, post: seq<Segment>)
    requires PairwiseCompatible(segments) && Find(segments, id).Some?
    ensures segments == pre + [Find(segments, id).value] + post
    ensures forall s :: s in pre || s in post ==> s.segmentId != id
  {
    hide PairwiseCompatible;
    HeadAndTail(segments);
    if segments[0].segmentId == id {
      pre, post := [], segments[1..];
    } else {
      var tail;
      tail, post := CutAt(segments[1..], id);
      pre := [segments[0]] + tail;
    }
  }

  lemma Around(segments: seq<Segment>, id: string, parts: seq<Segment>) returns (pre: seq<Segment>, post: seq<Segment>)
    requires PairwiseCompatible(segments) && Find(segments, id).Some?
    ensures segments == pre + [Find(segments, id).value] + post
    ensures Replace(segments, id, parts) == pre + parts + post
  {
    hide PairwiseCompatible, Find;
    pre, post := CutAt(segments, id);
    var target := Find(segments, id).value;
    ReplaceAbsent(pre, id, parts);
    ReplaceAbsent(post, id, parts);
    ReplaceConcat(pre + [target], post, id, parts);
    ReplaceConcat(pre, [target], id, parts);
    assert Replace([target], id, parts) == parts;
  }

  lemma {:induction false} WithoutAbsent(segments: seq<Segment>, id: string)
    requires forall s :: s in segments ==> s.segmentId != id
    ensures Without(segments, id) == segments
  {
    if segments != [] {
      WithoutAbsent(segments[1..], id);
    }
  }

  /** Two compatible parts inside the old segment fit where it was. */
  lemma PartsFit(pre: seq<Segment>, target: Segment, post: seq<Segment>, left: Segment, right: Segment)
    requires PairwiseCompatible(pre + [target] + post) && Compatible(left, right)
    requires forall s :: s in pre + post && Compatible(s, target) ==> Compatible(s, left) && Compatible(s, right)
    ensures PairwiseCompatible(pre + [left, right] + post)
  {
    var was, now := pre + [target] + post, pre + [left, right] + post;
    var n := |pre|;
    forall k | 0 <= k < |now| && k != n && k != n + 1
      ensures now[k] in pre + post && Compatible(now[k], left) && Compatible(now[k], right)
    {
      if k < n {
        assert now[k] == was[k] && Compatible(was[k], was[n]);
        assert now[k] in pre;
      } else {
        assert now[k] == was[k - 1] && Compatible(was[n], was[k - 1]);
        assert now[k] == post[k - n - 2];
      }
    }
    forall i, j | 0 <= i < j < |now|
      ensures Compatible(now[i], now[j])
    {
      if i != n && i != n + 1 && j != n && j != n + 1 {
        assert now[i] == was[if i < n then i else i - 1] && now[j] == was[if j < n then j else j - 1];
      }
    }
  }

  /** Cutting a segment, with a fresh id for the right part, keeps the list valid and its coverage. */
  lemma SplitKeepsGeometryAndCoverage(segments: seq<Segment>, id: string, atMs: real, newId: string, durationMs: real)
    requires Geometric(segments, durationMs) && forall s :: s in segments ==> s.segmentId != newId
    ensures Geometric(SplitSegment(segments, id, atMs, newId), durationMs)
    ensures Total(SplitSegment(segments, id, atMs, newId)) == Total(segments)
  {
    hide SortByStart, PairwiseCompatible, Replace, Without;
    var found := Find(segments, id);
    if found.Some? && atMs - found.value.startMs >= MIN_SEGMENT_MS && found.value.endMs - atMs >= MIN_SEGMENT_MS {
      var target := found.value;
      var left := target.(endMs := atMs);
      var right := ByHand(target.(segmentId := newId, startMs := atMs));
      var parts := [left, right];
      var pre, post := Around(segments, id, parts);
      assert forall s :: s in pre + post ==> s in segments;
      PartsFit(pre, target, post, left, right);
      var replaced := pre + parts + post;
      SortedGeometric(replaced, durationMs);
      TotalSort(replaced);
      TotalOfThree(pre, parts, post);
      TotalOfThree(pre, [target], post);
    }
  }

  lemma MultisetOfThree(a: seq<Segment>, b: seq<Segment>, c: seq<Segment>)
    ensures multiset(a + b + c) == multiset(a) + multiset(b) + multiset(c)
  {
  }

  /** Splitting replaces exactly the one segment by its two parts, and refuses to cut off less than 100 ms. */
  lemma SplitCutsAtTheMark(segments: seq<Segment>, t: Segment, atMs: real, newId: string)
    requires PairwiseCompatible(segments) && t in segments
    ensures var r := SplitSegment(segments, t.segmentId, atMs, newId);
            if atMs < t.startMs + MIN_SEGMENT_MS || t.endMs < atMs + MIN_SEGMENT_MS then r == segments
            else
              && Ascending(r)
              && multiset(r) + multiset{t}
                 == multiset(segments) + multiset{t.(endMs := atMs), ByHand(t.(segmentId := newId, startMs := atMs))}
  {
    hide SortByStart, PairwiseCompatible, Replace, Find;
    FoundOnlyOnce(segments, segments, t);
    if atMs - t.startMs >= MIN_SEGMENT_MS && t.endMs - atMs >= MIN_SEGMENT_MS {
      var parts := [t.(endMs := atMs), ByHand(t.(segmentId := newId, startMs := atMs))];
      var pre, post := Around(segments, t.segmentId, parts);
      SortAscending(Replace(segments, t.segmentId, parts));
      MultisetOfThree(pre, parts, post);
      MultisetOfThree(pre, [t], post);
    }
  }

  lemma TotalOfThree(a: seq<Segment>, b: seq<Segment>, c: seq<Segment>)
    ensures Total(a + b + c) == Total(a) + Total(b) + Total(c)
    ensures |b| == 1 ==> Total(b) == Length(b[0])
    ensures |b| == 2 ==> Total(b) == Length(b[0]) + Length(b[1])
  {
    TotalConcat(a + b, c);
    TotalConcat(a, b);
    if |b| == 2 {
      assert Total(b[1..]) == Length(b[1]);
    }
  }

  // ---------------------------------------------------------------- merging

  /** A third segment that lies between the two. */
  predicate Between(s: Segment, first: Segment, second: Segment) {
    || (first.endMs <= s.startMs && s.endMs <= second.startMs)
    || (second.endMs <= s.startMs && s.endMs <= first.startMs)
  }

  ghost predicate Neighbours(segments: seq<Segment>, firstId: string, secondId: string) {
    match (Find(segments, firstId), Find(segments, secondId))
    case (Some(first), Some(second)) => forall s :: s in segments ==> !Between(s, first, second)
    case _ => true
  }

  lemma CompatiblePart(pre: seq<Segment>, x: Segment, post: seq<Segment>)
    requires PairwiseCompatible(pre + [x] + post)
    ensures PairwiseCompatible(pre + post)
    ensures forall s :: s in pre + post ==> Compatible(s, x)
  {
    var was, now := pre + [x] + post, pre + post;
    forall i, j | 0 <= i < j < |now|
      ensures Compatible(now[i], now[j])
    {
      assert now[i] == was[if i < |pre| then i else i + 1] && now[j] == was[if j < |pre| then j else j + 1];
    }
    forall s | s in now
      ensures Compatible(s, x)
    {
      var k :| 0 <= k < |now| && now[k] == s;
      assert was[|pre|] == x && s == was[if k < |pre| then k else k + 1];
    }
  }

  /** Taking out the one segment with the id. */
  lemma WithoutOne(segments: seq<Segment>, id: string)
    requires PairwiseCompatible(segments)
    ensures PairwiseCompatible(Without(segments, id))
    ensures Find(segments, id).Some? ==>
              && Total(segments) == Total(Without(segments, id)) + Length(Find(segments, id).value)
              && multiset(segments) == multiset(Without(segments, id)) + multiset{Find(segments, id).value}
              && forall s :: s in segments && s.segmentId != id ==> Compatible(s, Find(segments, id).value)
  {
    hide PairwiseCompatible, Without, Replace;
    if Find(segments, id).Some? {
      var pre, post := Around(segments, id, []);
      WithoutIsReplace(segments, id);
      assert pre + [] + post == pre + post;
      CompatiblePart(pre, Find(segments, id).value, post);
      TotalOfThree(pre, [Find(segments, id).value], post);
      TotalConcat(pre, post);
      MultisetOfThree(pre, [Find(segments, id).value], post);
    } else {
      WithoutAbsent(segments, id);
    }
  }

  lemma CompatibleSnoc(segments: seq<Segment>, x: Segment)
    requires PairwiseCompatible(segments)
    ensures PairwiseCompatible(segments + [x]) <==> forall s :: s in segments ==> Compatible(s, x)
  {
    var now := segments + [x];
    if PairwiseCompatible(now) {
      forall s | s in segments ensures Compatible(s, x) {
        var k :| 0 <= k < |segments| && segments[k] == s;
        assert now[k] == s && now[|segments|] == x;
      }
    }
  }

  /** Two segments of a valid list with different ids, and the one that merging them makes. */
  lemma MergedSpan(s: Segment, first: Segment, second: Segment, durationMs: real)
    requires Fits(s, durationMs) && Fits(first, durationMs) && Fits(second, durationMs)
    requires Compatible(s, first) && Compatible(s, second) && (first == second || Compatible(first, second))
    ensures Fits(Merged(first, second), durationMs)
    ensures Compatible(s, Merged(first, second)) <==> !Between(s, first, second)
  {
  }

  /** `mergeSegments` does not test whether the two are neighbours. On a valid list its result is
      valid exactly when they are, that is, when no third segment lies between the two. */
  lemma MergeIsValidIffNeighbours(segments: seq<Segment>, firstId: string, secondId: string, durationMs: real)
    requires Geometric(segments, durationMs)
    ensures Geometric(MergeSegments(segments, firstId, secondId), durationMs) <==>
              Neighbours(segments, firstId, secondId)
  {
    hide PairwiseCompatible, Without, SortByStart, Between, Merged, Compatible, Find, Fits;
    if Find(segments, firstId).Some? && Find(segments, secondId).Some? {
      var first, second := Find(segments, firstId).value, Find(segments, secondId).value;
      var others := Without(Without(segments, firstId), secondId);
      WithoutOne(segments, firstId);
      WithoutOne(segments, secondId);
      WithoutOne(Without(segments, firstId), secondId);
      FindIsUnique(segments, first, second);
      FitsMerged(first, second, durationMs);
      forall s | s in others
        ensures Compatible(s, Merged(first, second)) <==> !Between(s, first, second)
      {
        MergedSpan(s, first, second, durationMs);
      }
      forall s | s in segments && s !in others
        ensures !Between(s, first, second)
      {
        FindIsUnique(segments, s, first);
        FindIsUnique(segments, s, second);
        NotBetweenItself(first, second, durationMs);
      }
      CompatibleSnoc(others, Merged(first, second));
      SortIsNeutral(others + [Merged(first, second)], durationMs);
    }
  }

  lemma FindIsUnique(segments: seq<Segment>, a: Segment, b: Segment)
    requires PairwiseCompatible(segments) && a in segments && b in segments
    ensures a == b || Compatible(a, b)
    ensures a.segmentId == b.segmentId ==> a == b
  {
  }

  lemma FitsMerged(first: Segment, second: Segment, durationMs: real)
    requires Fits(first, durationMs) && Fits(second, durationMs) && (first == second || Compatible(first, second))
    ensures Fits(Merged(first, second), durationMs)
  {
  }

  lemma NotBetweenItself(first: Segment, second: Segment, durationMs: real)
    requires Fits(first, durationMs) && Fits(second, durationMs)
    ensures !Between(first, first, second) && !Between(second, first, second)
  {
  }

  /** Taking out the two segments. */
  lemma WithoutTwo(segments: seq<Segment>, first: Segment, second: Segment)
    requires PairwiseCompatible(segments) && first in segments && second in segments && first != second
    ensures Find(segments, first.segmentId) == Some(first) && Find(segments, second.segmentId) == Some(second)
    ensures var others := Without(Without(segments, first.segmentId), second.segmentId);
            && Total(segments) == Total(others) + Length(first) + Length(second)
            && multiset(segments) == multiset(others) + multiset{first, second}
  {
    hide PairwiseCompatible, Without, Find;
    FindIsUnique(segments, first, second);
    var rest := Without(segments, first.segmentId);
    FoundOnlyOnce(segments, segments, first);
    FoundOnlyOnce(segments, segments, second);
    FoundOnlyOnce(segments, rest, second);
    WithoutOne(segments, first.segmentId);
    WithoutOne(rest, second.segmentId);
  }

  lemma FoundOnlyOnce(segments: seq<Segment>, rest: seq<Segment>, s: Segment)
    requires PairwiseCompatible(segments) && s in rest && forall x :: x in rest ==> x in segments
    ensures Find(rest, s.segmentId) == Some(s)
  {
    FindIsUnique(segments, s, Find(rest, s.segmentId).value);
  }

  /** Merging replaces exactly the two segments by one from the earlier start to the later end. */
  lemma MergeReplacesTheTwo(segments: seq<Segment>, first: Segment, second: Segment, durationMs: real)
    requires Geometric(segments, durationMs) && first in segments && second in segments && first != second
    ensures var merged, r := Merged(first, second), MergeSegments(segments, first.segmentId, second.segmentId);
            && merged.startMs == Min(first.startMs, second.startMs) && merged.endMs == Max(first.endMs, second.endMs)
            && merged.source.None? && merged.confidence.None?
            && Ascending(r) && multiset(r) + multiset{first, second} == multiset(segments) + multiset{merged}
  {
    hide PairwiseCompatible, Without, SortByStart, Find;
    FindIsUnique(segments, first, second);
    WithoutTwo(segments, first, second);
    SortAscending(Without(Without(segments, first.segmentId), second.segmentId) + [Merged(first, second)]);
  }

  /** Merging two segments adds exactly the gap between them to the coverage. */
  lemma MergeAddsTheGap(segments: seq<Segment>, first: Segment, second: Segment, durationMs: real)
    requires Geometric(segments, durationMs) && first in segments && second in segments && first != second
    ensures var gap := Max(first.startMs, second.startMs) - Min(first.endMs, second.endMs);
            gap >= 0.0 && Total(MergeSegments(segments, first.segmentId, second.segmentId)) == Total(segments) + gap
  {
    hide PairwiseCompatible, Without, SortByStart, Find;
    FindIsUnique(segments, first, second);
    WithoutTwo(segments, first, second);
    var others := Without(Without(segments, first.segmentId), second.segmentId);
    TotalConcat(others, [Merged(first, second)]);
    TotalSort(others + [Merged(first, second)]);
  }

  /** Merging around a third segment makes an overlap, which the server then refuses. */
  lemma MergeAcrossAThirdOverlaps()
    ensures var a := Segment("a", 0.0, 100.0, None, None, None, None);
            var b := Segment("b", 100.0, 200.0, None, None, None, None);
            var c := Segment("c", 200.0, 300.0, None, None, None, None);
            Geometric([a, b, c], 300.0) && !Geometric(MergeSegments([a, b, c], "a", "c"), 300.0)
  {
    var a := Segment("a", 0.0, 100.0, None, None, None, None);
    var b := Segment("b", 100.0, 200.0, None, None, None, None);
    var c := Segment("c", 200.0, 300.0, None, None, None, None);
    var segments := [a, b, c];
    hide MergeSegments;
    assert segments[1..] == [b, c] && [b, c][1..] == [c];
    assert Find([b, c], "c") == Find([c], "c") == Some(c);
    assert Find(segments, "a") == Some(a) && Find(segments, "c") == Some(c);
    assert b in segments && Between(b, a, c);
    MergeIsValidIffNeighbours(segments, "a", "c", 300.0);
  }

  // ---------------------------------------------------------------- resizing

  /** The segment put at `index` stays apart from all others when it stays apart from its neighbours. */
  lemma ResizeKeepsGeometry(segments: seq<Segment>, id: string, edge: Edge, positionMs: real, durationMs: real)
    requires Geometric(segments, durationMs)
    ensures Geometric(ResizeSegment(segments, id, edge, positionMs, durationMs), durationMs)
  {
    hide SortByStart;
    var ordered := SortByStart(segments);
    SortedGeometric(segments, durationMs);
    SortAscending(segments);
    if IndexOf(ordered, id).Some? {
      ResizedFits(ordered, IndexOf(ordered, id).value, edge, positionMs, durationMs);
    }
  }

  lemma InOrder(ordered: seq<Segment>, i: nat, j: nat, durationMs: real)
    requires Geometric(ordered, durationMs) && Ascending(ordered) && i < j < |ordered|
    ensures ordered[i].endMs <= ordered[j].startMs
  {
    assert Compatible(ordered[i], ordered[j]);
    assert Fits(ordered[i], durationMs) && Fits(ordered[j], durationMs);
  }

  lemma ApartFromOthers(ordered: seq<Segment>, index: nat, edge: Edge, positionMs: real, durationMs: real, k: nat)
    requires Geometric(ordered, durationMs) && Ascending(ordered) && index < |ordered| && k < |ordered|
    ensures var x := Resized(ordered, index, edge, positionMs, durationMs);
            Fits(x, durationMs) && (k != index ==> Compatible(ordered[k], x))
  {
    hide Ascending, PairwiseCompatible;
    assert Fits(ordered[k], durationMs) && Fits(ordered[index], durationMs);
    if index > 0 {
      assert Fits(ordered[index - 1], durationMs);
      InOrder(ordered, index - 1, index, durationMs);
    }
    if index + 1 < |ordered| {
      assert Fits(ordered[index + 1], durationMs);
      InOrder(ordered, index, index + 1, durationMs);
    }
    if k < index {
      InOrder(ordered, k, index, durationMs);
      if k < index - 1 {
        InOrder(ordered, k, index - 1, durationMs);
      }
    } else if k > index {
      InOrder(ordered, index, k, durationMs);
      if k > index + 1 {
        InOrder(ordered, index + 1, k, durationMs);
      }
    }
    if k != index {
      DistinctIds(ordered, k, index);
    }
  }

  lemma DistinctIds(segments: seq<Segment>, i: nat, j: nat)
    requires PairwiseCompatible(segments) && i < |segments| && j < |segments| && i != j
    ensures segments[i].segmentId != segments[j].segmentId
  {
    assert Compatible(segments[if i < j then i else j], segments[if i < j then j else i]);
  }

  lemma ResizedFits(ordered: seq<Segment>, index: nat, edge: Edge, positionMs: real, durationMs: real)
    requires Geometric(ordered, durationMs) && Ascending(ordered) && index < |ordered|
    ensures Geometric(ordered[index := Resized(ordered, index, edge, positionMs, durationMs)], durationMs)
  {
    hide Resized, Ascending, Fits;
    var x := Resized(ordered, index, edge, positionMs, durationMs);
    forall k | 0 <= k < |ordered|
      ensures Fits(x, durationMs) && (k != index ==> Compatible(ordered[k], x))
    {
      ApartFromOthers(ordered, index, edge, positionMs, durationMs, k);
    }
    ApartFromOthers(ordered, index, edge, positionMs, durationMs, index);
  }

  /** The segment as the user asked for it. */
  function Dragged(target: Segment, edge: Edge, positionMs: real): Segment {
    match edge
    case StartEdge => target.(startMs := positionMs)
    case EndEdge => target.(endMs := positionMs)
  }

  /** Dragging puts exactly the named segment, in the ordered list, at its new place. */
  lemma ResizeMovesTheNamed(segments: seq<Segment>, t: Segment, edge: Edge, positionMs: real, durationMs: real)
    requires Geometric(segments, durationMs) && t in segments
    ensures var ordered := SortByStart(segments);
            exists i :: 0 <= i < |ordered| && ordered[i] == t
              && ResizeSegment(segments, t.segmentId, edge, positionMs, durationMs)
                 == ordered[i := Resized(ordered, i, edge, positionMs, durationMs)]
  {
    hide SortByStart, Resized;
    var ordered := SortByStart(segments);
    SortedGeometric(segments, durationMs);
    assert t in multiset(ordered);
    var i := IndexOf(ordered, t.segmentId).value;
    var j :| 0 <= j < |ordered| && ordered[j] == t;
    if i != j {
      DistinctIds(ordered, i, j);
    }
  }

  /** A drag to a position that keeps the list valid is obeyed exactly; only other drags are clamped. */
  lemma ResizeObeysValidDrags(ordered: seq<Segment>, index: nat, edge: Edge, positionMs: real, durationMs: real)
    requires Geometric(ordered, durationMs) && Ascending(ordered) && index < |ordered|
    ensures var asked := Dragged(ordered[index], edge, positionMs);
            Resized(ordered, index, edge, positionMs, durationMs) == asked <==>
              Fits(asked, durationMs) && forall k :: 0 <= k < |ordered| && k != index ==> Compatible(ordered[k], asked)
  {
    hide Ascending, PairwiseCompatible;
    var asked := Dragged(ordered[index], edge, positionMs);
    forall k | 0 <= k < |ordered|
      ensures var x := Resized(ordered, index, edge, positionMs, durationMs);
              Fits(ordered[k], durationMs) && Fits(x, durationMs) && (k != index ==> Compatible(ordered[k], x))
    {
      ApartFromOthers(ordered, index, edge, positionMs, durationMs, k);
    }
    assert Fits(ordered[index], durationMs);
    if Fits(asked, durationMs) && forall k :: 0 <= k < |ordered| && k != index ==> Compatible(ordered[k], asked) {
      if edge == StartEdge && index > 0 {
        InOrder(ordered, index - 1, index, durationMs);
        assert Fits(ordered[index - 1], durationMs) && Compatible(ordered[index - 1], asked);
      }
      if edge == EndEdge && index + 1 < |ordered| {
        InOrder(ordered, index, index + 1, durationMs);
        assert Fits(ordered[index + 1], durationMs) && Compatible(ordered[index + 1], asked);
      }
    }
  }

  function EdgeOf(s: Segment, edge: Edge): real {
    match edge
    case StartEdge => s.startMs
    case EndEdge => s.endMs
  }

  function Distance(a: real, b: real): real { if a <= b then b - a else a - b }

  /** A drag that would make the list invalid takes the edge to the nearest position that keeps it valid, and moves
      nothing but that edge. */
  lemma ResizedIsNearest(ordered: seq<Segment>, index: nat, edge: Edge, positionMs: real, durationMs: real,
                         other: real)
    requires Geometric(ordered, durationMs) && Ascending(ordered) && index < |ordered|
    requires var x := Dragged(ordered[index], edge, other);
             Fits(x, durationMs) && forall k :: 0 <= k < |ordered| && k != index ==> Compatible(ordered[k], x)
    ensures var resized := Resized(ordered, index, edge, positionMs, durationMs);
            && resized == Dragged(ordered[index], edge, EdgeOf(resized, edge))
            && Distance(EdgeOf(resized, edge), positionMs) <= Distance(other, positionMs)
  {
    hide Ascending, PairwiseCompatible;
    var x := Dragged(ordered[index], edge, other);
    assert Fits(ordered[index], durationMs);
    if edge == StartEdge && index > 0 {
      InOrder(ordered, index - 1, index, durationMs);
      assert Fits(ordered[index - 1], durationMs) && Compatible(ordered[index - 1], x);
    }
    if edge == EndEdge && index + 1 < |ordered| {
      InOrder(ordered, index, index + 1, durationMs);
      assert Fits(ordered[index + 1], durationMs) && Compatible(ordered[index + 1], x);
    }
  }

  // ---------------------------------------------------------------- the editor's history

  datatype Edit = Split(id: string, atMs: real, newId: string)
                | Merge(first: string, second: string)
                | Resize(id: string, edge: Edge, positionMs: real)
                | Rename(id: string, text: string, description: Option<string>)
                | Remove(id: string)
                | Undo
                | Redo

  datatype History = History(snapshots: seq<seq<Segment>>, cursor: nat) {
    ghost predicate InRange() { cursor < |snapshots| }

    function Current(): seq<Segment>
      requires InRange()
    {
      snapshots[cursor]
    }
  }

  function Edited(segments: seq<Segment>, edit: Edit, durationMs: real): seq<Segment> {
    match edit
    case Split(id, atMs, newId) => SplitSegment(segments, id, atMs, newId)
    case Merge(first, second) => MergeSegments(segments, first, second)
    case Resize(id, edge, positionMs) => ResizeSegment(segments, id, edge, positionMs, durationMs)
    case Rename(id, text, description) => Relabel(segments, id, text, description)
    case Remove(id) => Without(segments, id)
    case Undo => segments
    case Redo => segments
  }

  function Commit(h: History, next: seq<Segment>): (r: History)
    requires h.InRange()
    ensures r.InRange() && r.Current() == next
  {
    History(h.snapshots[..h.cursor + 1] + [next], h.cursor + 1)
  }

  function Do(h: History, edit: Edit, durationMs: real): (r: History)
    requires h.InRange()
    ensures r.InRange()
  {
    match edit
    case Undo => h.(cursor := if h.cursor == 0 then 0 else h.cursor - 1)
    case Redo => h.(cursor := if h.cursor + 1 < |h.snapshots| then h.cursor + 1 else |h.snapshots| - 1)
    case _ => Commit(h, Edited(h.Current(), edit, durationMs))
  }

  function DoAll(h: History, edits: seq<Edit>, durationMs: real): (r: History)
    requires h.InRange()
    ensures r.InRange()
    decreases |edits|
  {
    if edits == [] then h else DoAll(Do(h, edits[0], durationMs), edits[1..], durationMs)
  }

  /** A split brings a fresh id, a merge names two neighbours. */
  ghost predicate Careful(segments: seq<Segment>, edit: Edit) {
    match edit
    case Split(_, _, newId) => forall s :: s in segments ==> s.segmentId != newId
    case Merge(first, second) => Neighbours(segments, first, second)
    case _ => true
  }

  ghost predicate AllCareful(h: History, edits: seq<Edit>, durationMs: real)
    requires h.InRange()
    decreases |edits|
  {
    edits != [] ==> Careful(h.Current(), edits[0]) && AllCareful(Do(h, edits[0], durationMs), edits[1..], durationMs)
  }

  ghost predicate AllGeometric(h: History, durationMs: real) {
    h.InRange() && forall i :: 0 <= i < |h.snapshots| ==> Geometric(h.snapshots[i], durationMs)
  }

  lemma {:induction false} RemoveKeepsGeometry(segments: seq<Segment>, id: string, durationMs: real)
    requires Geometric(segments, durationMs)
    ensures Geometric(Without(segments, id), durationMs)
  {
    hide PairwiseCompatible, Without;
    WithoutOne(segments, id);
  }

  lemma RelabelKeepsGeometry(segments: seq<Segment>, id: string, text: string, description: Option<string>,
                             durationMs: real)
    requires Geometric(segments, durationMs)
    ensures Geometric(Relabel(segments, id, text, description), durationMs)
  {
    hide Relabel;
    var now := Relabel(segments, id, text, description);
    assert forall i :: 0 <= i < |segments| ==> segments[i] in segments;
    forall i, j | 0 <= i < j < |now| ensures Compatible(now[i], now[j]) {
      assert Compatible(segments[i], segments[j]);
    }
  }

  lemma EditKeepsGeometry(segments: seq<Segment>, edit: Edit, durationMs: real)
    requires Geometric(segments, durationMs) && Careful(segments, edit)
    ensures Geometric(Edited(segments, edit, durationMs), durationMs)
  {
    hide Geometric, SplitSegment, MergeSegments, ResizeSegment, Relabel, Without, Neighbours;
    match edit
    case Split(id, atMs, newId) => SplitKeepsGeometryAndCoverage(segments, id, atMs, newId, durationMs);
    case Merge(first, second) => MergeIsValidIffNeighbours(segments, first, second, durationMs);
    case Resize(id, edge, positionMs) => ResizeKeepsGeometry(segments, id, edge, positionMs, durationMs);
    case Rename(id, text, description) => RelabelKeepsGeometry(segments, id, text, description, durationMs);
    case Remove(id) => RemoveKeepsGeometry(segments, id, durationMs);
    case _ =>
  }

  /** Every state that careful editing reaches, undo and redo included, stays geometrically valid,
      and so does every snapshot kept for undo and redo. */
  lemma {:induction false} EditorStaysGeometric(h: History, edits: seq<Edit>, durationMs: real)
    requires AllGeometric(h, durationMs) && AllCareful(h, edits, durationMs)
    ensures AllGeometric(DoAll(h, edits, durationMs), durationMs)
    decreases |edits|
  {
    hide Geometric, Careful, Edited;
    if edits != [] {
      EditKeepsGeometry(h.Current(), edits[0], durationMs);
      EditorStaysGeometric(Do(h, edits[0], durationMs), edits[1..], durationMs);
    }
  }

  // ---------------------------------------------------------------- what the server makes of edits

  /** Every split at a fractional position that cuts at all passes the front end and not the server. */
  lemma FractionalSplitIsRefused(segments: seq<Segment>, t: Segment, atMs: real, newId: string, durationMs: real)
    requires Geometric(segments, durationMs) && t in segments && forall s :: s in segments ==> HasLabel(s)
    requires !Whole(atMs) && t.startMs + MIN_SEGMENT_MS <= atMs <= t.endMs - MIN_SEGMENT_MS
    requires forall s :: s in segments ==> s.segmentId != newId
    ensures var r := SplitSegment(segments, t.segmentId, atMs, newId);
            Accepted(r, durationMs) && !L.Submittable(AllParsed(r))
  {
    hide SplitSegment, PairwiseCompatible, Fits, AllParsed, Stripped;
    var r := SplitSegment(segments, t.segmentId, atMs, newId);
    SplitKeepsGeometryAndCoverage(segments, t.segmentId, atMs, newId, durationMs);
    SplitCutsAtTheMark(segments, t, atMs, newId);
    var left, right := t.(endMs := atMs), ByHand(t.(segmentId := newId, startMs := atMs));
    assert left in multiset(r) + multiset{t} && left != t;
    assert left in r;
    forall s | s in r ensures HasLabel(s) {
      assert s in multiset(r) + multiset{t};
      assert s in multiset(segments) || s == left || s == right;
    }
    CompatibleIsDisjoint(r);
    AcceptedIsSubmittableIffSendable(r, durationMs);
    assert !Sendable(left);
  }

  lemma CompatibleIsDisjoint(segments: seq<Segment>)
    requires PairwiseCompatible(segments)
    ensures PairwiseDisjoint(segments)
  {
    forall i, j | 0 <= i < j < |segments| ensures !Overlap(segments[i], segments[j]) {
      assert Compatible(segments[i], segments[j]);
    }
  }

  /** The playhead stands at a fractional position, and the segment under it is split there. */
  lemma FractionalSplit()
    ensures var s := Segment("a", 0.0, 300.0, Some("grasp"), None, None, None);
            var r := SplitSegment([s], "a", 150.5, "b");
            L.WellFormed([s]) && Accepted(r, 300.0) && !L.Submittable(AllParsed(r))
  {
    hide SplitSegment, AllParsed, L.Submittable, Accepted;
    var s := Segment("a", 0.0, 300.0, Some("grasp"), None, None, None);
    FractionalSplitIsRefused([s], s, 150.5, "b", 300.0);
  }

  /** Edits at whole positions and with descriptions that are short enough. */
  predicate SendableEdit(edit: Edit) {
    match edit
    case Split(_, atMs, _) => Whole(atMs)
    case Resize(_, _, positionMs) => Whole(positionMs)
    case Rename(_, _, description) => Short(StrippedOption(description))
    case _ => true
  }

  lemma SortKeepsSendable(segments: seq<Segment>)
    requires AllSendable(segments)
    ensures AllSendable(SortByStart(segments))
  {
    hide SortByStart, Sendable;
    forall s | s in SortByStart(segments) ensures Sendable(s) {
      assert s in multiset(SortByStart(segments));
    }
  }

  lemma {:induction false} ReplaceKeepsSendable(segments: seq<Segment>, id: string, parts: seq<Segment>)
    requires AllSendable(segments) && AllSendable(parts)
    ensures AllSendable(Replace(segments, id, parts))
  {
    hide Sendable;
    if segments != [] {
      ReplaceKeepsSendable(segments[1..], id, parts);
    }
  }

  lemma WholeMinusMinimum(x: real)
    requires Whole(x)
    ensures Whole(x - MIN_SEGMENT_MS) && Whole(x + MIN_SEGMENT_MS)
  {
    assert x - MIN_SEGMENT_MS == (x.Floor - 100) as real && x + MIN_SEGMENT_MS == (x.Floor + 100) as real;
  }

  lemma EditKeepsSendable(segments: seq<Segment>, edit: Edit, durationMs: real)
    requires AllSendable(segments) && SendableEdit(edit) && Whole(durationMs)
    ensures AllSendable(Edited(segments, edit, durationMs))
  {
    hide SortByStart, Replace, Without, Relabel, Whole, Short, StrippedOption, InUnit;
    match edit
    case Split(id, atMs, newId) =>
      if Find(segments, id).Some? {
        var target := Find(segments, id).value;
        var parts := [target.(endMs := atMs), ByHand(target.(segmentId := newId, startMs := atMs))];
        NoConfidenceIsFine();
        assert Sendable(target);
        ReplaceKeepsSendable(segments, id, parts);
        SortKeepsSendable(Replace(segments, id, parts));
      }
    case Merge(first, second) =>
      if Find(segments, first).Some? && Find(segments, second).Some? {
        NoConfidenceIsFine();
        SortKeepsSendable(Without(Without(segments, first), second)
          + [Merged(Find(segments, first).value, Find(segments, second).value)]);
      }
    case Resize(id, edge, positionMs) =>
      SortKeepsSendable(segments);
      var ordered := SortByStart(segments);
      if IndexOf(ordered, id).Some? {
        ResizedIsSendable(ordered, IndexOf(ordered, id).value, edge, positionMs, durationMs);
      }
    case Rename(id, text, description) => RelabelKeepsSendable(segments, id, text, description);
    case _ =>
  }

  lemma NoConfidenceIsFine()
    ensures InUnit(None)
  {
  }

  lemma ResizedIsSendable(ordered: seq<Segment>, index: nat, edge: Edge, positionMs: real, durationMs: real)
    requires AllSendable(ordered) && index < |ordered| && Whole(positionMs) && Whole(durationMs)
    ensures Sendable(Resized(ordered, index, edge, positionMs, durationMs))
  {
    hide Whole, Short, InUnit;
    assert Sendable(ordered[index]);
    WholeMinusMinimum(ordered[index].startMs);
    WholeMinusMinimum(ordered[index].endMs);
    if index > 0 {
      assert Sendable(ordered[index - 1]);
    } else {
      ZeroIsWhole();
    }
    if index + 1 < |ordered| {
      assert Sendable(ordered[index + 1]);
    }
  }

  lemma ZeroIsWhole()
    ensures Whole(0.0)
  {
  }

  lemma {:induction false} RelabelKeepsSendable(segments: seq<Segment>, id: string, text: string,
                                                description: Option<string>)
    requires AllSendable(segments) && Short(StrippedOption(description))
    ensures AllSendable(Relabel(segments, id, text, description))
  {
    hide Stripped, Whole;
    if segments != [] {
      RelabelKeepsSendable(segments[1..], id, text, description);
      assert Sendable(segments[0]);
    }
  }

  ghost predicate AllSnapshotsSendable(h: History) {
    h.InRange() && forall i :: 0 <= i < |h.snapshots| ==> AllSendable(h.snapshots[i])
  }

  lemma {:induction false} EditorStaysSendable(h: History, edits: seq<Edit>, durationMs: real)
    requires AllSnapshotsSendable(h) && (forall e :: e in edits ==> SendableEdit(e)) && Whole(durationMs)
    ensures AllSnapshotsSendable(DoAll(h, edits, durationMs))
    decreases |edits|
  {
    hide AllSendable, SendableEdit, Edited, Whole;
    if edits != [] {
      EditKeepsSendable(h.Current(), edits[0], durationMs);
      EditorStaysSendable(Do(h, edits[0], durationMs), edits[1..], durationMs);
    }
  }

  /** From a list that the server sent, edits at whole positions with short descriptions, undo and redo
      included, never lead to a list that the front end accepts and the server refuses. */
  lemma AcceptedEditsAreSubmittable(stored: seq<Segment>, edits: seq<Edit>, durationMs: real)
    requires L.WellFormed(stored) && (forall e :: e in edits ==> SendableEdit(e)) && Whole(durationMs)
    ensures var current := DoAll(History([stored], 0), edits, durationMs).Current();
            Accepted(current, durationMs) ==> L.Submittable(AllParsed(current))
  {
    hide Accepted, L.Submittable, DoAll, SendableEdit, Whole;
    var h := History([stored], 0);
    EditorStaysSendable(h, edits, durationMs);
    var after := DoAll(h, edits, durationMs);
    assert AllSendable(after.snapshots[after.cursor]);
    if Accepted(after.Current(), durationMs) {
      AcceptedIsSubmittableIffSendable(after.Current(), durationMs);
    }
  }

  // ---------------------------------------------------------------- undo and redo

  function Undos(k: nat): seq<Edit> {
    seq(k, _ => Undo)
  }

  predicate Commits(edits: seq<Edit>) {
    forall e :: e in edits ==> e != Undo && e != Redo
  }

  lemma {:induction false} DoAllConcat(h: History, a: seq<Edit>, b: seq<Edit>, durationMs: real)
    requires h.InRange()
    ensures DoAll(h, a + b, durationMs) == DoAll(DoAll(h, a, durationMs), b, durationMs)
    decreases |a|
  {
    if a == [] {
      assert a + b == b;
    } else {
      assert (a + b)[1..] == a[1..] + b;
      DoAllConcat(Do(h, a[0], durationMs), a[1..], b, durationMs);
    }
  }

  /** The snapshots up to the cursor are the states the edits went through. */
  lemma {:induction false} SnapshotsAreTheStates(h: History, edits: seq<Edit>, k: nat, durationMs: real)
    requires h.InRange() && Commits(edits) && k <= |edits|
    ensures var after := DoAll(h, edits, durationMs);
            && after.cursor == h.cursor + |edits|
            && h.snapshots[..h.cursor + 1] <= after.snapshots
            && after.snapshots[h.cursor + k] == DoAll(h, edits[..k], durationMs).Current()
    decreases |edits|
  {
    hide Edited;
    if edits != [] {
      assert edits[0] in edits;
      var next := Do(h, edits[0], durationMs);
      assert forall e :: e in edits[1..] ==> e in edits;
      SnapshotsAreTheStates(next, edits[1..], if k == 0 then 0 else k - 1, durationMs);
      assert h.snapshots[..h.cursor + 1] <= next.snapshots[..next.cursor + 1];
      if k == 0 {
        assert edits[..k] == [];
        assert h.snapshots[..h.cursor + 1][h.cursor] == h.Current();
      } else {
        assert edits[..k][1..] == edits[1..][..k - 1];
      }
    } else {
      assert edits[..k] == [];
    }
  }

  lemma {:induction false} UndosStepBack(h: History, k: nat, durationMs: real)
    requires h.InRange()
    ensures DoAll(h, Undos(k), durationMs) == h.(cursor := if k <= h.cursor then h.cursor - k else 0)
    decreases k
  {
    if k > 0 {
      assert Undos(k)[1..] == Undos(k - 1);
      UndosStepBack(Do(h, Undo, durationMs), k - 1, durationMs);
    }
  }

  /** After any edits, undoing `k` of them brings back exactly the list before the last `k`. */
  lemma UndoTakesBack(h: History, edits: seq<Edit>, k: nat, durationMs: real)
    requires h.InRange() && Commits(edits) && k <= |edits|
    ensures DoAll(h, edits + Undos(k), durationMs).Current() == DoAll(h, edits[..|edits| - k], durationMs).Current()
  {
    hide DoAll, Do, Undos, Commits;
    DoAllConcat(h, edits, Undos(k), durationMs);
    SnapshotsAreTheStates(h, edits, |edits| - k, durationMs);
    UndosStepBack(DoAll(h, edits, durationMs), k, durationMs);
  }

  /** Redo takes back an undo that undid something, and undo takes back a redo that redid something. */
  lemma RedoTakesBackUndo(h: History, durationMs: real)
    requires h.InRange()
    ensures h.cursor > 0 ==> Do(Do(h, Undo, durationMs), Redo, durationMs) == h
    ensures h.cursor + 1 < |h.snapshots| ==> Do(Do(h, Redo, durationMs), Undo, durationMs) == h
  {
  }

  /** After an edit there is nothing to redo: what had been undone is gone. */
  lemma CommitEndsRedo(h: History, next: seq<Segment>, durationMs: real)
    requires h.InRange()
    ensures Do(Commit(h, next), Redo, durationMs) == Commit(h, next)
    ensures Do(Commit(h, next), Undo, durationMs).Current() == h.Current()
  {
  }

  /** Committing keeps the snapshots up to the cursor: the history stays valid exactly when the new list is. */
  lemma CommitIsValidIff(h: History, next: seq<Segment>, durationMs: real)
    requires AllGeometric(h, durationMs)
    ensures AllGeometric(Commit(h, next), durationMs) <==> Geometric(next, durationMs)
  {
    hide Geometric;
    var now := Commit(h, next);
    assert now.snapshots[now.cursor] == next;
    forall i | 0 <= i < now.cursor ensures Geometric(now.snapshots[i], durationMs) {
      assert now.snapshots[i] == h.snapshots[i];
    }
  }

  // ---------------------------------------------------------------- the hook

  class SegmentEditor {
    const durationMs: real
    var history: seq<seq<Segment>>
    var cursor: nat

    ghost function State(): History
      reads this
    {
      History(history, cursor)
    }

    ghost predicate InRange()
      reads this
    {
      State().InRange()
    }

    /** Every snapshot is geometrically valid. */
    ghost predicate Valid()
      reads this
    {
      AllGeometric(State(), durationMs)
    }

    constructor (initial: seq<Segment>, durationMs: real)
      ensures InRange() && history == [initial] && cursor == 0 && this.durationMs == durationMs
      ensures Valid() <==> Geometric(initial, durationMs)
    {
      this.durationMs := durationMs;
      history := [initial];
      cursor := 0;
      new;
      hide Geometric;
      assert history[0] == initial;
    }

    method CommitNext(next: seq<Segment>)
      requires InRange()
      modifies this
      ensures InRange() && State() == Commit(old(State()), next)
      ensures old(Valid()) ==> (Valid() <==> Geometric(next, durationMs))
    {
      hide Geometric;
      if Valid() {
        CommitIsValidIff(State(), next, durationMs);
      }
      history := history[..cursor + 1] + [next];
      cursor := cursor + 1;
    }

    method DoSplit(segmentId: string, atMs: real, newId: string)
      requires InRange()
      modifies this
      ensures InRange() && State() == Do(old(State()), Split(segmentId, atMs, newId), durationMs)
      ensures old(Valid() && Careful(State().Current(), Split(segmentId, atMs, newId))) ==> Valid()
    {
      hide Geometric, Careful, SplitSegment;
      if Valid() && Careful(State().Current(), Split(segmentId, atMs, newId)) {
        EditKeepsGeometry(State().Current(), Split(segmentId, atMs, newId), durationMs);
      }
      CommitNext(SplitSegment(history[cursor], segmentId, atMs, newId));
    }

    /** Any two segments are merged; the history stays valid exactly when they are neighbours. */
    method DoMerge(firstId: string, secondId: string)
      requires InRange()
      modifies this
      ensures InRange() && State() == Do(old(State()), Merge(firstId, secondId), durationMs)
      ensures old(Valid()) ==> (Valid() <==> old(Neighbours(State().Current(), firstId, secondId)))
    {
      hide Geometric, Neighbours, MergeSegments;
      if Valid() {
        MergeIsValidIffNeighbours(State().Current(), firstId, secondId, durationMs);
      }
      CommitNext(MergeSegments(history[cursor], firstId, secondId));
    }

    method DoResize(segmentId: string, edge: Edge, positionMs: real)
      requires InRange()
      modifies this
      ensures InRange() && State() == Do(old(State()), Resize(segmentId, edge, positionMs), durationMs)
      ensures old(Valid()) ==> Valid()
    {
      hide Geometric;
      if Valid() {
        EditKeepsGeometry(State().Current(), Resize(segmentId, edge, positionMs), durationMs);
      }
      var ordered := SortByStart(history[cursor]);
      var found := IndexOf(ordered, segmentId);
      if found.Some? {
        ordered := ordered[found.value := Resized(ordered, found.value, edge, positionMs, durationMs)];
      }
      CommitNext(ordered);
    }

    method DoRelabel(segmentId: string, text: string, description: Option<string>)
      requires InRange()
      modifies this
      ensures InRange() && State() == Do(old(State()), Rename(segmentId, text, description), durationMs)
      ensures old(Valid()) ==> Valid()
    {
      hide Geometric, Relabel;
      if Valid() {
        EditKeepsGeometry(State().Current(), Rename(segmentId, text, description), durationMs);
      }
      CommitNext(Relabel(history[cursor], segmentId, text, description));
    }

    method DoRemove(segmentId: string)
      requires InRange()
      modifies this
      ensures InRange() && State() == Do(old(State()), Remove(segmentId), durationMs)
      ensures old(Valid()) ==> Valid()
    {
      hide Geometric, Without;
      if Valid() {
        EditKeepsGeometry(State().Current(), Remove(segmentId), durationMs);
      }
      CommitNext(Without(history[cursor], segmentId));
    }

    method DoUndo()
      requires InRange()
      modifies this`cursor
      ensures InRange() && State() == Do(old(State()), Undo, durationMs)
      ensures old(Valid()) ==> Valid()
    {
      hide Geometric;
      cursor := if cursor == 0 then 0 else cursor - 1;
    }

    method DoRedo()
      requires InRange()
      modifies this`cursor
      ensures InRange() && State() == Do(old(State()), Redo, durationMs)
      ensures old(Valid()) ==> Valid()
    {
      hide Geometric;
      cursor := if cursor + 1 < |history| then cursor + 1 else |history| - 1;
    }
  }
}
