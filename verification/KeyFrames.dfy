/**
 The key-frame operator: greedy selection by score with a minimum gap
 (algo/operators/keyframe/main.py). Scores are exact reals.
 */
module KeyFrames {
  import Sorting
  import opened Recording

  const MAX_KEYFRAMES_PER_CAMERA := 5
  const MIN_GAP_MS := 300

  datatype Frame = Frame(timestampMs: int, score: real)

  predicate Apart(a: Frame, b: Frame) {
    a.timestampMs - b.timestampMs >= MIN_GAP_MS || b.timestampMs - a.timestampMs >= MIN_GAP_MS
  }

  predicate ApartFromAll(f: Frame, selected: seq<Frame>) {
    forall s :: s in selected ==> Apart(f, s)
  }

  function Scored(messages: seq<Message>): (r: seq<Frame>)
    ensures |r| == |messages| && forall i :: 0 <= i < |r| ==> r[i] == Frame(messages[i].timestampMs, messages[i].motion)
  {
    seq(|messages|, i requires 0 <= i < |messages| => Frame(messages[i].timestampMs, messages[i].motion))
  }

  function Descending(f: Frame): real { -f.score }

  function ByTime(f: Frame): real { f.timestampMs as real }

  // ---------------------------------------------------------------- the reference

  ghost predicate Spread(frames: seq<Frame>) {
    forall i, j :: 0 <= i < j < |frames| ==> Apart(frames[i], frames[j])
  }

  /** Closer together than the gap. */
  predicate Near(a: Frame, b: Frame) {
    -300 < a.timestampMs - b.timestampMs < 300
  }

  /** Why a frame that is not selected was rejected. */
  ghost predicate Rejected(f: Frame, selected: seq<Frame>) {
    || (exists s :: s in selected && Near(f, s) && s.score >= f.score)
    || (|selected| == MAX_KEYFRAMES_PER_CAMERA && forall s :: s in selected ==> s.score >= f.score)
  }

  /** At most five frames of the stream, pairwise far enough apart, and every other frame is
      rejected for a better or equal one nearby, or for five better or equal ones. */
  ghost predicate GreedyChoice(selected: seq<Frame>, all: seq<Frame>) {
    && |selected| <= MAX_KEYFRAMES_PER_CAMERA && Spread(selected)
    && (forall s :: s in selected ==> s in all)
    && (forall f :: f in all ==> f in selected || Rejected(f, selected))
  }

  /** After the first `n` ranked frames: none of the selected scores less than a frame still to come. */
  ghost predicate Progress(selected: seq<Frame>, ranked: seq<Frame>, n: nat)
    requires n <= |ranked|
  {
    && |selected| <= MAX_KEYFRAMES_PER_CAMERA && Spread(selected)
    && (forall s :: s in selected ==> s in ranked[..n])
    && (forall f :: f in ranked[..n] ==>
        f in selected || (exists s :: s in selected && !Apart(f, s) && s.score >= f.score))
  }

  lemma Earlier(ranked: seq<Frame>, n: nat, s: Frame)
    requires Sorting.AscendingBy(ranked, Descending) && n < |ranked| && s in ranked[..n]
    ensures s.score >= ranked[n].score
  {
    var i :| 0 <= i < n && ranked[i] == s;
    assert Descending(ranked[i]) <= Descending(ranked[n]);
  }

  lemma ProgressStep(selected: seq<Frame>, ranked: seq<Frame>, n: nat)
    requires n < |ranked| && Sorting.AscendingBy(ranked, Descending)
    requires Progress(selected, ranked, n) && |selected| < MAX_KEYFRAMES_PER_CAMERA
    ensures Progress(if ApartFromAll(ranked[n], selected) then selected + [ranked[n]] else selected, ranked, n + 1)
  {
    var f := ranked[n];
    assert ranked[..n + 1] == ranked[..n] + [f];
    if ApartFromAll(f, selected) {
      var more := selected + [f];
      forall x | x in ranked[..n + 1]
        ensures x in more || exists s :: s in more && !Apart(x, s) && s.score >= x.score
      {
        if x in ranked[..n] && x !in selected {
          var s :| s in selected && !Apart(x, s) && s.score >= x.score;
          assert s in more;
        }
      }
      forall i, j | 0 <= i < j < |more| ensures Apart(more[i], more[j]) {
        if j == |selected| {
          assert selected[i] in selected;
        }
      }
    } else {
      var s :| s in selected && !Apart(f, s);
      Earlier(ranked, n, s);
    }
  }

  /** Stopping with five frames, or at the end, gives a greedy choice of the whole ranking. */
  lemma ProgressDone(selected: seq<Frame>, ranked: seq<Frame>, n: nat)
    requires n <= |ranked| && Sorting.AscendingBy(ranked, Descending) && Progress(selected, ranked, n)
    requires n == |ranked| || |selected| == MAX_KEYFRAMES_PER_CAMERA
    ensures GreedyChoice(selected, ranked)
  {
    forall f | f in ranked
      ensures f in selected || Rejected(f, selected)
    {
      var k :| 0 <= k < |ranked| && ranked[k] == f;
      if k < n {
        assert f in ranked[..n];
      } else {
        forall s | s in selected ensures s.score >= f.score {
          var i :| 0 <= i < n && ranked[i] == s;
          assert Descending(ranked[i]) <= Descending(ranked[k]) || i == k;
        }
      }
    }
  }

  /** Being a greedy choice does not depend on the order of either list. */
  lemma ChoicePermutes(selected: seq<Frame>, sorted: seq<Frame>, ranked: seq<Frame>, all: seq<Frame>)
    requires GreedyChoice(selected, ranked) && multiset(sorted) == multiset(selected)
    requires multiset(ranked) == multiset(all)
    requires Spread(sorted)
    ensures GreedyChoice(sorted, all)
  {
    hide Spread, Apart;
    assert |multiset(sorted)| == |multiset(selected)|;
    forall f ensures f in sorted <==> f in selected {
      assert f in multiset(sorted) <==> f in multiset(selected);
    }
    forall f ensures f in ranked <==> f in all {
      assert f in multiset(ranked) <==> f in multiset(all);
    }
  }

  // ---------------------------------------------------------------- the operator

  /** The greedy loop of `_extract_for_topic`. */
  method Select(messages: seq<Message>) returns (selected: seq<Frame>)
    ensures GreedyChoice(selected, Scored(messages))
  {
    hide Progress, GreedyChoice, ApartFromAll;
    var all := Scored(messages);
    var ranked := Sorting.Sort(all, Descending);
    Sorting.SortAscending(all, Descending);
    Sorting.SortPermutes(all, Descending);
    selected := [];
    var i := 0;
    assert Progress([], ranked, 0) by { NothingYet(ranked); }
    while i < |ranked| && |selected| < MAX_KEYFRAMES_PER_CAMERA
      invariant i <= |ranked| && Progress(selected, ranked, i) && |selected| <= MAX_KEYFRAMES_PER_CAMERA
    {
      ProgressStep(selected, ranked, i);
      if ApartFromAll(ranked[i], selected) {
        selected := selected + [ranked[i]];
      }
      i := i + 1;
    }
    ProgressDone(selected, ranked, i);
    ChoiceOf(selected, ranked, all);
  }

  lemma NothingYet(ranked: seq<Frame>)
    ensures Progress([], ranked, 0)
  {
  }

  lemma ChoiceOf(selected: seq<Frame>, ranked: seq<Frame>, all: seq<Frame>)
    requires GreedyChoice(selected, ranked) && multiset(ranked) == multiset(all)
    ensures GreedyChoice(selected, all)
  {
    ChoicePermutes(selected, selected, ranked, all);
  }

  /** The nearest whole number, half to even. */
  function HalfToEven(x: real): (n: int)
    ensures -0.5 <= n as real - x <= 0.5
    ensures (n as real - x == 0.5 || n as real - x == -0.5) ==> n % 2 == 0
  {
    var below := x.Floor;
    if x - below as real < 0.5 || (x - below as real == 0.5 && below % 2 == 0) then below else below + 1
  }

  /** Python's `round(x, 4)` on exact numbers. */
  function Rounded(x: real): real { HalfToEven(x * 10000.0) as real / 10000.0 }

  function Capped(score: real): real { Rounded(if score <= 1.0 then score else 1.0) }

  lemma HalfToEvenIsMonotone(x: real, y: real)
    requires x <= y
    ensures HalfToEven(x) <= HalfToEven(y)
  {
    hide HalfToEven;
    assert HalfToEven(x) as real <= x + 0.5 && y - 0.5 <= HalfToEven(y) as real;
  }

  /** Rounding moves a score by at most half a ten-thousandth. */
  lemma RoundingIsNear(x: real)
    ensures -0.5 <= (Rounded(x) - x) * 10000.0 <= 0.5
  {
    hide HalfToEven;
    var n := HalfToEven(x * 10000.0) as real;
    assert n / 10000.0 * 10000.0 == n;
  }

  /** Rounding keeps the order of scores. */
  lemma RoundingIsMonotone(x: real, y: real)
    requires x <= y
    ensures Rounded(x) <= Rounded(y)
  {
    hide HalfToEven;
    HalfToEvenIsMonotone(x * 10000.0, y * 10000.0);
  }

  /** A score never exceeds one: from one on it is one, and below one only rounded. Capping keeps the order. */
  lemma CappingIsExact(x: real, y: real)
    ensures x >= 1.0 ==> Capped(x) == 1.0
    ensures x <= 1.0 ==> -0.5 <= (Capped(x) - x) * 10000.0 <= 0.5 && Capped(x) <= 1.0
    ensures 0.0 <= x ==> 0.0 <= Capped(x)
    ensures x <= y ==> Capped(x) <= Capped(y)
  {
    WholeIsKept(10000);
    WholeIsKept(0);
    var a, b := if x <= 1.0 then x else 1.0, if y <= 1.0 then y else 1.0;
    RoundingIsNear(a);
    RoundingIsMonotone(a, 1.0);
    if 0.0 <= x {
      RoundingIsMonotone(0.0, a);
    }
    if x <= y {
      RoundingIsMonotone(a, b);
    }
    hide HalfToEven;
  }

  lemma WholeIsKept(n: int)
    ensures HalfToEven(n as real) == n
  {
  }

  /** Frames by time, at least the gap apart. */
  ghost predicate Timeline(frames: seq<Frame>) {
    forall i, j :: 0 <= i < j < |frames| ==> frames[j].timestampMs - frames[i].timestampMs >= MIN_GAP_MS
  }

  lemma SortedTimeline(selected: seq<Frame>)
    requires Spread(selected)
    ensures Timeline(Sorting.Sort(selected, ByTime)) && Spread(Sorting.Sort(selected, ByTime))
  {
    var sorted := Sorting.Sort(selected, ByTime);
    Sorting.SortPermutes(selected, ByTime);
    Sorting.SortAscending(selected, ByTime);
    SpreadPermutes(selected, sorted);
    forall i, j | 0 <= i < j < |sorted|
      ensures sorted[j].timestampMs - sorted[i].timestampMs >= MIN_GAP_MS
    {
      assert ByTime(sorted[i]) <= ByTime(sorted[j]) && Apart(sorted[i], sorted[j]);
    }
  }

  lemma SpreadPermutes(a: seq<Frame>, b: seq<Frame>)
    requires Spread(a) && multiset(a) == multiset(b)
    ensures Spread(b)
  {
    assert Sorting.Pairwise(a, Apart);
    Sorting.PairwisePermutes(a, b, Apart);
  }

  lemma SameTimeline(a: seq<Frame>, b: seq<Frame>)
    requires Timeline(a) && |a| == |b| && forall i :: 0 <= i < |a| ==> a[i].timestampMs == b[i].timestampMs
    ensures Timeline(b)
  {
  }

  lemma SomethingSelected(selected: seq<Frame>, all: seq<Frame>)
    requires GreedyChoice(selected, all)
    ensures |selected| <= MAX_KEYFRAMES_PER_CAMERA && Spread(selected) && (all != [] ==> selected != [])
  {
    if all != [] {
      assert all[0] in all;
    }
  }

  /** `_extract_for_topic`: the selected frames by time, with scores capped at one and rounded. */
  method ExtractForTopic(mcap: McapFile, topic: string) returns (frames: seq<Frame>, ghost chosen: seq<Frame>)
    ensures GreedyChoice(chosen, Scored(MessagesFor(mcap, topic))) && Timeline(chosen)
    ensures |frames| == |chosen| <= MAX_KEYFRAMES_PER_CAMERA && Timeline(frames)
    ensures forall i :: 0 <= i < |frames| ==> frames[i] == Frame(chosen[i].timestampMs, Capped(chosen[i].score))
    ensures MessagesFor(mcap, topic) != [] ==> frames != []
  {
    hide GreedyChoice, Timeline, Spread, Capped, MessagesFor, Scored, Sorting.Sort;
    var messages := MessagesFor(mcap, topic);
    var selected := Select(messages);
    var sorted := Sorting.Sort(selected, ByTime);
    Sorting.SortPermutes(selected, ByTime);
    SomethingSelected(selected, Scored(messages));
    SortedTimeline(selected);
    ChoicePermutes(selected, sorted, Scored(messages), Scored(messages));
    chosen := sorted;
    frames := [];
    for i := 0 to |sorted|
      invariant |frames| == i
      invariant forall k :: 0 <= k < i ==> frames[k] == Frame(sorted[k].timestampMs, Capped(sorted[k].score))
    {
      frames := frames + [Frame(sorted[i].timestampMs, Capped(sorted[i].score))];
    }
    SameTimeline(chosen, frames);
    SomethingSelected(chosen, Scored(messages));
  }

  /** The highest-scoring frames are never lost: some frame with the best score is selected. */
  lemma BestIsSelected(selected: seq<Frame>, all: seq<Frame>, best: Frame)
    requires GreedyChoice(selected, all) && best in all && forall f :: f in all ==> f.score <= best.score
    ensures exists s :: s in selected && s.score == best.score
  {
    hide Apart, Spread;
    if best !in selected {
      if s :| s in selected && !Apart(best, s) && s.score >= best.score {
        assert s in all;
      } else {
        assert selected[0] in selected && selected[0] in all;
      }
    }
  }
}
