/**
 Action segments: sorting, the adjacent-pair overlap check that the front end and the
 contract share, and the editing functions of the timeline
 (tool/src/components/timeline/segmentMath.ts, contract/src/rdh_contract/schemas/annotation.py).
 Times are milliseconds; the front end handles them as numbers that need not be whole.
 */
module Segments {
  import opened Basics
  import Sorting

  const MIN_SEGMENT_MS: real := 100.0

  /** The last one is `annotation_processing` of the source, which here would be taken for the status. */
  datatype AlgoOperator = PREANNOTATE | QUALITY | KEYFRAME | ANOMALY | ANNOTATION_PROCESSING_RUN

  datatype Segment = Segment(
    segmentId: string, startMs: real, endMs: real, actionLabel: Option<string>,
    description: Option<string>, source: Option<AlgoOperator>, confidence: Option<real>)

  // ---------------------------------------------------------------- the contract's segment

  const MAX_DESCRIPTION := 2000

  predicate Positive(s: Segment) {
    s.startMs < s.endMs
  }

  predicate Whole(x: real) {
    x == x.Floor as real
  }

  predicate InUnit(x: Option<real>) {
    x.Some? ==> 0.0 <= x.value <= 1.0
  }

  predicate Short(description: Option<string>) {
    description.Some? ==> |description.value| <= MAX_DESCRIPTION
  }

  /** What the contract accepts as a segment (contract/src/rdh_contract/schemas/episode.py:42-67). */
  predicate SegmentOk(s: Segment) {
    && Whole(s.startMs) && Whole(s.endMs) && 0.0 <= s.startMs && Positive(s)
    && Short(s.description) && InUnit(s.confidence)
  }

  /** The characters that Unicode calls white space. */
  predicate IsSpace(c: char) {
    || '\U{0009}' <= c <= '\U{000D}' || '\U{2000}' <= c <= '\U{200A}'
    || c in "\U{0020}\U{0085}\U{00A0}\U{1680}\U{2028}\U{2029}\U{202F}\U{205F}\U{3000}"
  }

  function Stripped(s: string): (r: string)
    ensures |r| <= |s| && (s != "" && !IsSpace(s[0]) && !IsSpace(s[|s| - 1]) ==> r == s)
    ensures r != "" ==> !IsSpace(r[0]) && !IsSpace(r[|r| - 1])
  {
    if s != "" && IsSpace(s[0]) then Stripped(s[1..])
    else if s != "" && IsSpace(s[|s| - 1]) then Stripped(s[..|s| - 1])
    else s
  }

  ghost predicate OnlySpaces(s: string) {
    forall c :: c in s ==> IsSpace(c)
  }

  lemma StrippedStep(s: string)
    ensures s != "" && IsSpace(s[0]) ==> Stripped(s) == Stripped(s[1..])
    ensures s != "" && !IsSpace(s[0]) && IsSpace(s[|s| - 1]) ==> Stripped(s) == Stripped(s[..|s| - 1])
    ensures s == "" || (!IsSpace(s[0]) && !IsSpace(s[|s| - 1])) ==> Stripped(s) == s
  {
  }

  lemma MoreSpaces(s: string, c: char)
    requires OnlySpaces(s) && IsSpace(c)
    ensures OnlySpaces([c] + s) && OnlySpaces(s + [c])
  {
  }

  lemma NoSpaces()
    ensures OnlySpaces("")
  {
  }

  /** Stripping drops white space at both ends, all of it, and nothing else. */
  lemma {:induction false} StrippedIsInner(s: string) returns (before: string, after: string)
    ensures s == before + Stripped(s) + after && OnlySpaces(before) && OnlySpaces(after)
  {
    hide IsSpace, Stripped, OnlySpaces;
    StrippedStep(s);
    NoSpaces();
    if s != "" && IsSpace(s[0]) {
      before, after := StrippedIsInner(s[1..]);
      MoreSpaces(before, s[0]);
      assert s == [s[0]] + s[1..];
      before := [s[0]] + before;
    } else if s != "" && IsSpace(s[|s| - 1]) {
      before, after := StrippedIsInner(s[..|s| - 1]);
      MoreSpaces(after, s[|s| - 1]);
      assert s == s[..|s| - 1] + [s[|s| - 1]];
      after := after + [s[|s| - 1]];
    } else {
      before, after := "", "";
    }
  }

  function StrippedOption(s: Option<string>): Option<string> {
    if s.Some? then Some(Stripped(s.value)) else None
  }

  /** The segment as the contract reads it: white space around its texts is dropped before they are checked. */
  function Parsed(s: Segment): Segment {
    s.(segmentId := Stripped(s.segmentId), actionLabel := StrippedOption(s.actionLabel),
       description := StrippedOption(s.description))
  }

  function AllParsed(segments: seq<Segment>): seq<Segment> {
    seq(|segments|, i requires 0 <= i < |segments| => Parsed(segments[i]))
  }

  // ---------------------------------------------------------------- sorting

  function StartOf(s: Segment): real { s.startMs }

  /** The stable sort by start time of `sortSegments` and of Python's `sorted`. */
  function SortByStart(segments: seq<Segment>): (r: seq<Segment>)
    ensures multiset(r) == multiset(segments) && |r| == |segments|
  {
    Sorting.SortPermutes(segments, StartOf);
    Sorting.Sort(segments, StartOf)
  }

  ghost predicate Ascending(s: seq<Segment>) {
    forall i, j :: 0 <= i < j < |s| ==> s[i].startMs <= s[j].startMs
  }

  lemma SortAscending(segments: seq<Segment>)
    ensures Ascending(SortByStart(segments))
  {
    Sorting.SortAscending(segments, StartOf);
  }

  // ---------------------------------------------------------------- overlap

  predicate Overlap(a: Segment, b: Segment) {
    a.startMs < b.endMs && b.startMs < a.endMs
  }

  /** No two segments anywhere in the list overlap. */
  ghost predicate PairwiseDisjoint(segments: seq<Segment>) {
    forall i, j :: 0 <= i < j < |segments| ==> !Overlap(segments[i], segments[j])
  }

  /** The neighbours in `ordered[from..]` that overlap by the code's test. */
  function NeighbourOverlaps(ordered: seq<Segment>, from: nat): seq<(Segment, Segment)>
    requires from >= 1
    decreases |ordered| - from
  {
    if from >= |ordered| then []
    else (if ordered[from].startMs < ordered[from - 1].endMs then [(ordered[from - 1], ordered[from])] else [])
         + NeighbourOverlaps(ordered, from + 1)
  }

  /** `findOverlaps`: sort a copy, then look at neighbours only. */
  method FindOverlaps(segments: seq<Segment>) returns (overlaps: seq<(Segment, Segment)>)
    ensures overlaps == NeighbourOverlaps(SortByStart(segments), 1)
  {
    hide SortByStart;
    var ordered := SortByStart(segments);
    overlaps := [];
    var i := 1;
    while i < |ordered|
      invariant i >= 1
      invariant overlaps + NeighbourOverlaps(ordered, i) == NeighbourOverlaps(ordered, 1)
    {
      var previous, current := ordered[i - 1], ordered[i];
      assert overlaps + [(previous, current)] + NeighbourOverlaps(ordered, i + 1)
          == overlaps + ([(previous, current)] + NeighbourOverlaps(ordered, i + 1));
      if current.startMs < previous.endMs {
        overlaps := overlaps + [(previous, current)];
      }
      i := i + 1;
    }
  }

  /** `AnnotationSubmit._check_no_overlap`: raises, here `false`, at the first bad neighbour. */
  method CheckNoOverlap(segments: seq<Segment>) returns (ok: bool)
    ensures ok <==> NeighbourOverlaps(SortByStart(segments), 1) == []
  {
    hide SortByStart;
    var ordered := SortByStart(segments);
    var i := 0;
    while i + 1 < |ordered|
      invariant 0 <= i
      invariant NeighbourOverlaps(ordered, 1) == NeighbourOverlaps(ordered, i + 1)
    {
      if ordered[i + 1].startMs < ordered[i].endMs {
        return false;
      }
      i := i + 1;
    }
    ok := true;
  }

  lemma {:induction false} NoNeighbours(ordered: seq<Segment>, from: nat)
    requires from >= 1
    ensures NeighbourOverlaps(ordered, from) == [] <==>
            forall i :: from <= i < |ordered| ==> ordered[i - 1].endMs <= ordered[i].startMs
    decreases |ordered| - from
  {
    if from < |ordered| {
      NoNeighbours(ordered, from + 1);
      assert from <= from < |ordered|;
    }
  }

  /** Disjointness does not depend on the order of the list. */
  lemma DisjointPermutation(a: seq<Segment>, b: seq<Segment>)
    requires multiset(a) == multiset(b) && PairwiseDisjoint(a)
    ensures PairwiseDisjoint(b)
  {
    var apart := (x: Segment, y: Segment) => !Overlap(x, y);
    assert Sorting.Pairwise(a, apart);
    Sorting.PairwisePermutes(a, b, apart);
    forall i, j | 0 <= i < j < |b| ensures !Overlap(b[i], b[j]) {
      assert apart(b[i], b[j]);
    }
  }

  /** In an ordered list of positive segments without overlapping neighbours, each segment ends
      before every later one starts. */
  lemma {:induction false} ChainSeparates(ordered: seq<Segment>, i: nat, j: nat)
    requires i < j < |ordered| && (forall s :: s in ordered ==> Positive(s))
    requires forall k :: 1 <= k < |ordered| ==> ordered[k - 1].endMs <= ordered[k].startMs
    ensures ordered[i].endMs <= ordered[j].startMs
    decreases j
  {
    if i + 1 < j {
      ChainSeparates(ordered, i, j - 1);
      assert ordered[j - 1] in ordered;
    }
  }

  /** Sorting and looking at neighbours finds an overlap exactly when some two segments,
      wherever they are in the list, overlap. */
  lemma NeighbourCheckIsExact(segments: seq<Segment>)
    requires forall s :: s in segments ==> Positive(s)
    ensures NeighbourOverlaps(SortByStart(segments), 1) == [] <==> PairwiseDisjoint(segments)
  {
    var ordered := SortByStart(segments);
    SortAscending(segments);
    NoNeighbours(ordered, 1);
    forall s | s in ordered ensures s in segments {
      assert s in multiset(ordered);
    }
    if NeighbourOverlaps(ordered, 1) == [] {
      forall i, j | 0 <= i < j < |ordered|
        ensures !Overlap(ordered[i], ordered[j])
      {
        ChainSeparates(ordered, i, j);
      }
      DisjointPermutation(ordered, segments);
    }
    if PairwiseDisjoint(segments) {
      DisjointPermutation(segments, ordered);
      forall i | 1 <= i < |ordered|
        ensures ordered[i - 1].endMs <= ordered[i].startMs
      {
        assert Positive(ordered[i]) && ordered[i] in ordered;
        assert !Overlap(ordered[i - 1], ordered[i]);
      }
    }
  }
}
