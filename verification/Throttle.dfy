/**
 Which upload progress reports are worth a database write
 (platform/app/services/progress_tracker.py). Times and percentages are exact reals.
 */
module Throttle {
  import opened Basics

  datatype LastWrite = LastWrite(at: real, percent: real)

  /** The frame's schema has a positive number of parts. */
  type Parts = n: nat | n > 0 witness 1

  datatype Frame = Frame(now: real, uploadedParts: nat, totalParts: Parts)

  datatype Thresholds = Thresholds(interval: real, delta: real)

  const DEFAULTS := Thresholds(2.0, 5.0)

  datatype Event = Report(id: string, frame: Frame) | Forget(id: string)

  function Percent(f: Frame): real {
    f.uploadedParts as real / f.totalParts as real * 100.0
  }

  predicate Final(f: Frame) { f.uploadedParts >= f.totalParts }

  function StateOf(last: map<string, LastWrite>, id: string): Option<LastWrite> {
    if id in last then Some(last[id]) else None
  }

  predicate Written(last: Option<LastWrite>, f: Frame, t: Thresholds) {
    Final(f) || last.None? || f.now - last.value.at >= t.interval || Percent(f) - last.value.percent >= t.delta
  }

  function Step(last: map<string, LastWrite>, e: Event, t: Thresholds): map<string, LastWrite> {
    match e
    case Report(id, f) => if Written(StateOf(last, id), f, t) then last[id := LastWrite(f.now, Percent(f))] else last
    case Forget(id) => last - {id}
  }

  class ProgressThrottle {
    const thresholds: Thresholds
    var last: map<string, LastWrite>

    constructor (thresholds: Thresholds := DEFAULTS)
      ensures last == map[] && this.thresholds == thresholds
    {
      this.thresholds := thresholds;
      last := map[];
    }

    method ShouldWrite(episodeId: string, uploadedParts: nat, totalParts: Parts, now: real) returns (write: bool)
      modifies this`last
      ensures write <==> Written(StateOf(old(last), episodeId), Frame(now, uploadedParts, totalParts), thresholds)
      ensures last == Step(old(last), Report(episodeId, Frame(now, uploadedParts, totalParts)), thresholds)
    {
      var percent := uploadedParts as real / totalParts as real * 100.0;
      if uploadedParts >= totalParts {
        last := last[episodeId := LastWrite(now, percent)];
        return true;
      }
      if episodeId !in last {
        last := last[episodeId := LastWrite(now, percent)];
        return true;
      }
      var previous := last[episodeId];
      if now - previous.at >= thresholds.interval || percent - previous.percent >= thresholds.delta {
        last := last[episodeId := LastWrite(now, percent)];
        return true;
      }
      write := false;
    }

    method ForgetEpisode(episodeId: string)
      modifies this`last
      ensures last == Step(old(last), Forget(episodeId), thresholds)
    {
      last := last - {episodeId};
    }
  }

  // ---------------------------------------------------------------- runs over many episodes

  /** Whether event number `k` of a run leads to a write. */
  predicate WritesAt(last: map<string, LastWrite>, events: seq<Event>, k: nat, t: Thresholds)
    requires k < |events|
    decreases k
  {
    if k > 0 then WritesAt(Step(last, events[0], t), events[1..], k - 1, t)
    else events[0].Report? && Written(StateOf(last, events[0].id), events[0].frame, t)
  }

  function CountWrites(last: map<string, LastWrite>, events: seq<Event>, id: string, t: Thresholds): nat
    decreases |events|
  {
    if events == [] then 0
    else
      (if events[0].id == id && WritesAt(last, events, 0, t) then 1 else 0)
      + CountWrites(Step(last, events[0], t), events[1..], id, t)
  }

  function CountFinals(events: seq<Event>, id: string): nat {
    if events == [] then 0
    else
      (if events[0].Report? && events[0].id == id && Final(events[0].frame) then 1 else 0)
      + CountFinals(events[1..], id)
  }

  function CountForgets(events: seq<Event>, id: string): nat {
    if events == [] then 0 else (if events[0] == Forget(id) then 1 else 0) + CountForgets(events[1..], id)
  }

  /** The reports of one episode come in time order from `now` to `end`, with progress that never
      falls below `percent`. */
  ghost predicate Orderly(events: seq<Event>, id: string, now: real, percent: real, end: real)
    decreases |events|
  {
    if events == [] then now <= end
    else if events[0].Report? && events[0].id == id then
      && now <= events[0].frame.now && percent <= Percent(events[0].frame)
      && Orderly(events[1..], id, events[0].frame.now, Percent(events[0].frame), end)
    else Orderly(events[1..], id, now, percent, end)
  }

  function Cap(percent: real): real { if percent <= 100.0 then percent else 100.0 }

  /** How many writes time and progress still allow after a write at `at` with `percent`. */
  function Allowance(at: real, percent: real, end: real): real {
    (end - at) / 2.0 + (100.0 - Cap(percent)) / 5.0
  }

  /** Waiting and progress use up the allowance, a threshold's worth of either at least one of it. */
  lemma AllowanceShrinks(at: real, percent: real, at': real, percent': real, end: real)
    requires at <= at' && percent <= percent'
    ensures Allowance(at', percent', end) <= Allowance(at, percent, end)
    ensures at' - at >= DEFAULTS.interval || (percent' - percent >= DEFAULTS.delta && percent' <= 100.0) ==>
              Allowance(at', percent', end) + 1.0 <= Allowance(at, percent, end)
  {
  }

  lemma AllowanceIsPositive(at: real, percent: real, end: real)
    requires at <= end
    ensures Allowance(at, percent, end) >= 0.0
  {
  }

  lemma PercentBelowHundred(f: Frame)
    ensures Percent(f) >= 0.0 && (!Final(f) ==> Percent(f) <= 100.0)
  {
    var q := f.uploadedParts as real / f.totalParts as real;
    assert q >= 0.0;
    assert !Final(f) ==> q <= 1.0;
  }

  lemma {:induction false} WritesWithinAllowance(last: map<string, LastWrite>, events: seq<Event>, id: string,
                                                 now: real, percent: real, end: real)
    requires Orderly(events, id, now, percent, end)
    requires id in last ==> last[id].at <= now && last[id].percent <= percent
    ensures CountWrites(last, events, id, DEFAULTS) as real
         <= (CountFinals(events, id) + CountForgets(events, id)) as real
            + (if id in last then Allowance(last[id].at, last[id].percent, end) else 1.0 + Allowance(now, percent, end))
    decreases |events|
  {
    hide Allowance, Percent;
    OrderlyEnds(events, id, now, percent, end);
    AllowanceIsPositive(now, percent, end);
    if id in last {
      AllowanceShrinks(last[id].at, last[id].percent, now, percent, end);
    }
    if events != [] {
      var e := events[0];
      var next := Step(last, e, DEFAULTS);
      if e.Report? && e.id == id {
        var f := e.frame;
        PercentBelowHundred(f);
        WritesWithinAllowance(next, events[1..], id, f.now, Percent(f), end);
        if id in last {
          AllowanceShrinks(last[id].at, last[id].percent, f.now, Percent(f), end);
        } else {
          AllowanceShrinks(now, percent, f.now, Percent(f), end);
        }
      } else {
        WritesWithinAllowance(next, events[1..], id, now, percent, end);
      }
    }
  }

  lemma {:induction false} OrderlyEnds(events: seq<Event>, id: string, now: real, percent: real, end: real)
    requires Orderly(events, id, now, percent, end)
    ensures now <= end
    decreases |events|
  {
    if events != [] {
      if events[0].Report? && events[0].id == id {
        OrderlyEnds(events[1..], id, events[0].frame.now, Percent(events[0].frame), end);
      } else {
        OrderlyEnds(events[1..], id, now, percent, end);
      }
    }
  }

  /** The amortised bound: whatever the other episodes report, T seconds of one episode's reports
      cause at most 1 + T/2 + 20 writes, one more for each final frame and each `forget`. */
  lemma WritesAreBounded(events: seq<Event>, id: string, start: real, end: real)
    requires Orderly(events, id, start, 0.0, end)
    ensures CountWrites(map[], events, id, DEFAULTS) as real
         <= 1.0 + (end - start) / 2.0 + 20.0 + (CountFinals(events, id) + CountForgets(events, id)) as real
  {
    hide CountWrites, Orderly;
    WritesWithinAllowance(map[], events, id, start, 0.0, end);
  }

  /** Report `k` was skipped because it is close to the last written report of its episode, number `j`. */
  ghost predicate CloseTo(last: map<string, LastWrite>, events: seq<Event>, j: nat, k: nat, t: Thresholds)
    requires k < |events| && events[k].Report?
  {
    && j < k && events[j].Report? && events[j].id == events[k].id && WritesAt(last, events, j, t)
    && events[k].frame.now - events[j].frame.now < t.interval
    && Percent(events[k].frame) - Percent(events[j].frame) < t.delta
    && NothingBetween(last, events, j + 1, k, events[k].id, t)
  }

  /** From event number `lo` on and before number `hi` the episode was neither written nor forgotten. */
  ghost predicate NothingBetween(last: map<string, LastWrite>, events: seq<Event>, lo: nat, hi: nat, id: string,
                                 t: Thresholds)
    requires hi < |events|
  {
    forall i :: lo <= i < hi && events[i].id == id ==> events[i].Report? && !WritesAt(last, events, i, t)
  }

  /** The same for a write before the run. */
  ghost predicate CloseToStart(last: map<string, LastWrite>, events: seq<Event>, k: nat, t: Thresholds)
    requires k < |events| && events[k].Report?
  {
    && events[k].id in last
    && events[k].frame.now - last[events[k].id].at < t.interval
    && Percent(events[k].frame) - last[events[k].id].percent < t.delta
    && NothingBetween(last, events, 0, k, events[k].id, t)
  }

  lemma {:induction false} SkippedSince(last: map<string, LastWrite>, events: seq<Event>, k: nat, t: Thresholds)
    requires k < |events| && events[k].Report? && !WritesAt(last, events, k, t)
    ensures !Final(events[k].frame)
    ensures CloseToStart(last, events, k, t) || exists j: nat :: CloseTo(last, events, j, k, t)
    decreases k
  {
    hide Percent;
    if k > 0 {
      var next, rest := Step(last, events[0], t), events[1..];
      assert rest[k - 1] == events[k];
      SkippedSince(next, rest, k - 1, t);
      if CloseToStart(next, rest, k - 1, t) {
        if events[0].id == events[k].id && WritesAt(last, events, 0, t) {
          BetweenShifts(last, events, 1, k, events[k].id, t);
          assert CloseTo(last, events, 0, k, t);
        } else {
          BetweenShifts(last, events, 1, k, events[k].id, t);
          assert CloseToStart(last, events, k, t);
        }
      } else {
        var before := k - 1;
        var j: nat :| CloseTo(next, rest, j, before, t);
        BetweenShifts(last, events, j + 2, k, events[k].id, t);
        assert events[j + 1] == rest[j];
        assert CloseTo(last, events, j + 1, k, t);
      }
    }
  }

  lemma BetweenShifts(last: map<string, LastWrite>, events: seq<Event>, lo: nat, hi: nat, id: string, t: Thresholds)
    requires 1 <= lo && 1 <= hi < |events|
    requires NothingBetween(Step(last, events[0], t), events[1..], lo - 1, hi - 1, id, t)
    ensures NothingBetween(last, events, lo, hi, id, t)
  {
    forall i | lo <= i < hi && events[i].id == id
      ensures events[i].Report? && !WritesAt(last, events, i, t)
    {
      assert events[1..][i - 1] == events[i];
    }
  }

  /** In an orderly list the later of two reports of the episode is no earlier in time and no less far. */
  lemma {:induction false} OrderlyIsMonotone(events: seq<Event>, id: string, now: real, percent: real, end: real,
                                             j: nat, k: nat)
    requires Orderly(events, id, now, percent, end) && j <= k < |events|
    requires events[j].Report? && events[j].id == id && events[k].Report? && events[k].id == id
    ensures now <= events[j].frame.now <= events[k].frame.now
    ensures percent <= Percent(events[j].frame) <= Percent(events[k].frame)
    decreases |events|
  {
    hide Percent;
    var mine := events[0].Report? && events[0].id == id;
    var now', percent' := if mine then events[0].frame.now else now, if mine then Percent(events[0].frame) else percent;
    if j > 0 {
      OrderlyIsMonotone(events[1..], id, now', percent', end, j - 1, k - 1);
    } else if k > 0 {
      OrderlyIsMonotone(events[1..], id, now', percent', end, k - 1, k - 1);
    }
  }

  /** The report is behind the other by less than two seconds and less than five points, and not ahead of it. */
  ghost predicate Within(written: Frame, skipped: Frame) {
    && 0.0 <= skipped.now - written.now < DEFAULTS.interval
    && 0.0 <= Percent(skipped) - Percent(written) < DEFAULTS.delta
  }

  /** Every report that is skipped is not a final one. The last report of its episode that was written is less
      than two seconds earlier and less than five points lower, and if the episode's reports are in order, it is
      neither later nor higher. */
  lemma SkippedReportsAreClose(events: seq<Event>, k: nat, start: real, end: real)
    requires k < |events| && events[k].Report? && !WritesAt(map[], events, k, DEFAULTS)
    ensures events[k].frame.uploadedParts < events[k].frame.totalParts
    ensures exists j: nat :: CloseTo(map[], events, j, k, DEFAULTS)
              && (Orderly(events, events[k].id, start, 0.0, end) ==> Within(events[j].frame, events[k].frame))
  {
    hide Percent, Orderly;
    SkippedSince(map[], events, k, DEFAULTS);
    var j: nat :| CloseTo(map[], events, j, k, DEFAULTS);
    if Orderly(events, events[k].id, start, 0.0, end) {
      OrderlyIsMonotone(events, events[k].id, start, 0.0, end, j, k);
    }
  }
}
