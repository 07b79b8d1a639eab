/**
 The pre-annotation operator: segments from the gripper's open/close flips, and the fallback
 by duration (algo/operators/preannotate/main.py).
 */
module Preannotate {
  import opened Recording

  const MIN_PIECE_MS: int := 200
  const GRIPPER_TOPIC := "/gripper/state"

  /** A proposed action; `closed` stands for the label "grasp", open for "move". */
  datatype Piece = Piece(startMs: int, endMs: int, closed: bool, confidence: real)

  predicate Flip(ms: seq<Message>, j: int) {
    0 < j < |ms| && ms[j].closed != ms[j - 1].closed
  }

  /** The first flip from message `k` on that is far enough from the start of the open segment. */
  function NextCut(ms: seq<Message>, k: nat, startMs: int): (j: nat)
    requires 1 <= k <= |ms|
    ensures k <= j <= |ms|
    ensures j < |ms| ==> Flip(ms, j) && ms[j].timestampMs - startMs >= MIN_PIECE_MS
    ensures forall i :: k <= i < j && Flip(ms, i) ==> ms[i].timestampMs - startMs < MIN_PIECE_MS
    decreases |ms| - k
  {
    if k == |ms| || (Flip(ms, k) && ms[k].timestampMs - startMs >= MIN_PIECE_MS) then k
        else NextCut(ms, k + 1, startMs)
  }

  /** The segments from `startMs` on: each ends at the next cut, the last at `endMs`. */
  function Pieces(ms: seq<Message>, k: nat, startMs: int, endMs: int): (r: seq<Piece>)
    requires 1 <= k <= |ms|
    ensures r != []
    decreases |ms| - k
  {
    var j := NextCut(ms, k, startMs);
    if j == |ms| then [Piece(startMs, endMs, ms[|ms| - 1].closed, 0.72)]
    else [Piece(startMs, ms[j].timestampMs, ms[j - 1].closed, 0.72)] + Pieces(ms, j + 1, ms[j].timestampMs, endMs)
  }

  function Max(a: int, b: int): int { if a >= b then a else b }

  function Min(a: int, b: int): int { if a <= b then a else b }

  function EndOf(ms: seq<Message>, durationMs: int): int
    requires ms != []
  {
    Max(durationMs, ms[|ms| - 1].timestampMs + MIN_PIECE_MS)
  }

  lemma NextCutStep(ms: seq<Message>, k: nat, startMs: int)
    requires 1 <= k < |ms|
    ensures NextCut(ms, k, startMs)
         == if Flip(ms, k) && ms[k].timestampMs - startMs >= MIN_PIECE_MS then k else NextCut(ms, k + 1, startMs)
  {
  }

  /** Reading one message further, without and with a cut. */
  lemma PiecesStep(ms: seq<Message>, k: nat, startMs: int, endMs: int)
    requires 1 <= k < |ms|
    ensures Pieces(ms, k, startMs, endMs)
         == if Flip(ms, k) && ms[k].timestampMs - startMs >= MIN_PIECE_MS
            then [Piece(startMs, ms[k].timestampMs, ms[k - 1].closed, 0.72)]
                + Pieces(ms, k + 1, ms[k].timestampMs, endMs)
            else Pieces(ms, k + 1, startMs, endMs)
  {
    hide Flip, NextCut;
    NextCutStep(ms, k, startMs);
  }

  lemma LastPiece(ms: seq<Message>, startMs: int, endMs: int)
    requires ms != []
    ensures Pieces(ms, |ms|, startMs, endMs) == [Piece(startMs, endMs, ms[|ms| - 1].closed, 0.72)]
  {
  }

  /** `_segment_by_gripper`. */
  method SegmentByGripper(mcap: McapFile) returns (segments: seq<Piece>)
    ensures var ms := MessagesFor(mcap, GRIPPER_TOPIC);
            segments == if ms == [] then [] else Pieces(ms, 1, ms[0].timestampMs, EndOf(ms, mcap.durationMs))
  {
    hide Pieces, MessagesFor;
    var ms := MessagesFor(mcap, GRIPPER_TOPIC);
    if ms == [] {
      return [];
    }
    segments := [];
    var currentClosed := ms[0].closed;
    var startMs := ms[0].timestampMs;
    ghost var endAt := EndOf(ms, mcap.durationMs);
    for k := 1 to |ms|
      invariant currentClosed == ms[k - 1].closed && startMs <= ms[k - 1].timestampMs
      invariant segments + Pieces(ms, k, startMs, endAt) == Pieces(ms, 1, ms[0].timestampMs, endAt)
    {
      var message := ms[k];
      PiecesStep(ms, k, startMs, endAt);
      if message.closed != currentClosed {
        if message.timestampMs - startMs >= MIN_PIECE_MS {
          var piece := Piece(startMs, message.timestampMs, currentClosed, 0.72);
          assert segments + ([piece] + Pieces(ms, k + 1, message.timestampMs, endAt))
              == segments + [piece] + Pieces(ms, k + 1, message.timestampMs, endAt);
          segments := segments + [piece];
          startMs := message.timestampMs;
        }
        currentClosed := message.closed;
      }
    }
    LastPiece(ms, startMs, endAt);
    var endMs := Max(mcap.durationMs, ms[|ms| - 1].timestampMs + MIN_PIECE_MS);
    if endMs - startMs >= MIN_PIECE_MS {
      segments := segments + [Piece(startMs, endMs, currentClosed, 0.72)];
    }
  }

  // ---------------------------------------------------------------- what the tiling promises

  /** Consecutive pieces without gap or overlap, from one time to another, none too short. */
  ghost predicate Tiles(pieces: seq<Piece>, fromMs: int, toMs: int) {
    && pieces != [] && pieces[0].startMs == fromMs && pieces[|pieces| - 1].endMs == toMs
    && (forall i :: 0 < i < |pieces| ==> pieces[i - 1].endMs == pieces[i].startMs)
    && (forall i :: 0 <= i < |pieces| ==> pieces[i].endMs - pieces[i].startMs >= MIN_PIECE_MS)
  }

  lemma TilesOne(piece: Piece)
    ensures piece.endMs - piece.startMs >= MIN_PIECE_MS ==> Tiles([piece], piece.startMs, piece.endMs)
  {
  }

  lemma TilesCons(piece: Piece, rest: seq<Piece>, toMs: int)
    requires Tiles(rest, piece.endMs, toMs) && piece.endMs - piece.startMs >= MIN_PIECE_MS
    ensures Tiles([piece] + rest, piece.startMs, toMs)
  {
  }

  lemma NotLaterThanLast(ms: seq<Message>, k: nat)
    requires 1 <= k <= |ms| && InTimeOrder(ms)
    ensures ms[k - 1].timestampMs <= ms[|ms| - 1].timestampMs
  {
  }

  lemma {:induction false} PiecesTile(ms: seq<Message>, k: nat, startMs: int, endMs: int)
    requires 1 <= k <= |ms| && InTimeOrder(ms)
    requires startMs <= ms[k - 1].timestampMs && endMs >= ms[|ms| - 1].timestampMs + MIN_PIECE_MS
    ensures Tiles(Pieces(ms, k, startMs, endMs), startMs, endMs)
    decreases |ms| - k
  {
    hide Tiles, InTimeOrder;
    var j := NextCut(ms, k, startMs);
    if j < |ms| {
      var piece := Piece(startMs, ms[j].timestampMs, ms[j - 1].closed, 0.72);
      var rest := Pieces(ms, j + 1, ms[j].timestampMs, endMs);
      PiecesTile(ms, j + 1, ms[j].timestampMs, endMs);
      TilesCons(piece, rest, endMs);
    } else {
      NotLaterThanLast(ms, k);
      TilesOne(Piece(startMs, endMs, ms[|ms| - 1].closed, 0.72));
    }
  }

  /** The segments tile exactly the time from the first message to the end of the episode, or to
      200 ms after the last message if that is later. */
  lemma GripperSegmentsTile(ms: seq<Message>, durationMs: int)
    requires ms != [] && InTimeOrder(ms)
    ensures Tiles(Pieces(ms, 1, ms[0].timestampMs, EndOf(ms, durationMs)), ms[0].timestampMs, EndOf(ms, durationMs))
    ensures var last := ms[|ms| - 1].timestampMs + MIN_PIECE_MS;
            EndOf(ms, durationMs) >= durationMs && EndOf(ms, durationMs) >= last
            && (EndOf(ms, durationMs) == durationMs || EndOf(ms, durationMs) == last)
  {
    PiecesTile(ms, 1, ms[0].timestampMs, EndOf(ms, durationMs));
  }

  /** In a tiling every moment belongs to exactly one piece. */
  lemma {:induction false} EveryMomentInOnePiece(pieces: seq<Piece>, fromMs: int, toMs: int, t: int)
    requires Tiles(pieces, fromMs, toMs) && fromMs <= t < toMs
    ensures exists i :: 0 <= i < |pieces| && pieces[i].startMs <= t < pieces[i].endMs
    ensures forall i, j :: 0 <= i < j < |pieces| ==>
              !(pieces[i].startMs <= t < pieces[i].endMs && pieces[j].startMs <= t < pieces[j].endMs)
  {
    if t < pieces[0].endMs {
      assert pieces[0].startMs <= t;
    } else {
      var rest := pieces[1..];
      assert |pieces| > 1 && pieces[0].endMs == pieces[1].startMs;
      EveryMomentInOnePiece(rest, pieces[1].startMs, toMs, t);
      var i :| 0 <= i < |rest| && rest[i].startMs <= t < rest[i].endMs;
      assert pieces[i + 1] == rest[i];
    }
    forall i, j | 0 <= i < j < |pieces|
      ensures pieces[i].endMs <= pieces[j].startMs
    {
      EndsBeforeLater(pieces, fromMs, toMs, i, j);
    }
  }

  lemma {:induction false} EndsBeforeLater(pieces: seq<Piece>, fromMs: int, toMs: int, i: nat, j: nat)
    requires Tiles(pieces, fromMs, toMs) && i < j < |pieces|
    ensures pieces[i].endMs <= pieces[j].startMs
    decreases j
  {
    if i + 1 < j {
      EndsBeforeLater(pieces, fromMs, toMs, i, j - 1);
    }
  }

  /** Message number `j - 1` is the last one before the piece ends, and the piece has its state:
      it ends at a flip, or with the recording. */
  ghost predicate EndsAfter(ms: seq<Message>, piece: Piece, endMs: int, j: int) {
    && 1 <= j <= |ms| && piece.closed == ms[j - 1].closed
    && (if j == |ms| then piece.endMs == endMs else ms[j].closed != ms[j - 1].closed && piece.endMs == ms[j].timestampMs)
  }

  /** Every segment is labelled with the gripper's state at the message just before its end. */
  lemma {:induction false} LabelsAreTheStatesAtTheEnd(ms: seq<Message>, k: nat, startMs: int, endMs: int, i: nat)
    requires 1 <= k <= |ms| && i < |Pieces(ms, k, startMs, endMs)|
    ensures exists j :: k <= j && EndsAfter(ms, Pieces(ms, k, startMs, endMs)[i], endMs, j)
    decreases |ms| - k
  {
    var cut := NextCut(ms, k, startMs);
    if i == 0 {
      assert EndsAfter(ms, Pieces(ms, k, startMs, endMs)[0], endMs, cut);
    } else {
      var from, startsAt := cut + 1, ms[cut].timestampMs;
      LabelsAreTheStatesAtTheEnd(ms, from, startsAt, endMs, i - 1);
      var j :| from <= j && EndsAfter(ms, Pieces(ms, from, startsAt, endMs)[i - 1], endMs, j);
      assert EndsAfter(ms, Pieces(ms, k, startMs, endMs)[i], endMs, j);
    }
  }

  lemma PiecesUnfold(ms: seq<Message>, k: nat, startMs: int, endMs: int)
    requires 1 <= k <= |ms|
    ensures var cut, pieces := NextCut(ms, k, startMs), Pieces(ms, k, startMs, endMs);
            && pieces[0].startMs == startMs
            && (cut < |ms| ==> pieces[1..] == Pieces(ms, cut + 1, ms[cut].timestampMs, endMs))
  {
  }

  lemma NotLater(ms: seq<Message>, i: nat, j: nat)
    requires InTimeOrder(ms) && i <= j < |ms|
    ensures ms[i].timestampMs <= ms[j].timestampMs
  {
  }

  /** A piece in whose first 200 ms the moment lies. */
  ghost predicate StartsWith(pieces: seq<Piece>, i: int, t: int) {
    0 <= i < |pieces| && pieces[i].startMs <= t < pieces[i].startMs + MIN_PIECE_MS
  }

  /** No flip is lost but to the debouncing: each one starts a segment, or falls within the first
      200 ms of one. */
  lemma {:induction false} FlipsAreBoundariesOrJitter(ms: seq<Message>, k: nat, startMs: int, endMs: int, j: nat)
    requires 1 <= k <= j < |ms| && ms[j].closed != ms[j - 1].closed && InTimeOrder(ms) && startMs <= ms[k - 1].timestampMs
    ensures exists i :: StartsWith(Pieces(ms, k, startMs, endMs), i, ms[j].timestampMs)
    decreases |ms| - k
  {
    hide Pieces, InTimeOrder;
    var pieces := Pieces(ms, k, startMs, endMs);
    var cut := NextCut(ms, k, startMs);
    PiecesUnfold(ms, k, startMs, endMs);
    if j < cut {
      NotLater(ms, k - 1, j);
      assert StartsWith(pieces, 0, ms[j].timestampMs);
    } else {
      var from, startsAt := cut + 1, ms[cut].timestampMs;
      var rest := Pieces(ms, from, startsAt, endMs);
      if j == cut {
        PiecesUnfold(ms, from, startsAt, endMs);
        assert StartsWith(pieces, 1, ms[j].timestampMs);
      } else {
        FlipsAreBoundariesOrJitter(ms, from, startsAt, endMs, j);
        var i :| StartsWith(rest, i, ms[j].timestampMs);
        assert StartsWith(pieces, i + 1, ms[j].timestampMs);
      }
    }
  }

  // ---------------------------------------------------------------- the fallback by duration

  function Chunk(durationMs: int): int { Max(durationMs / 3, MIN_PIECE_MS) }

  /** Piece number `i` of the fallback. */
  function ChunkAt(durationMs: int, i: nat): Piece {
    Piece(i * Chunk(durationMs), (i + 1) * Chunk(durationMs), false, 0.35)
  }

  function ChunkCount(durationMs: int): nat {
    if durationMs < MIN_PIECE_MS then 0 else Min(3, durationMs / MIN_PIECE_MS)
  }

  /** `_segment_by_duration`: exactly min(3, duration / 200) contiguous pieces; what they leave
      uncovered at the end is shorter than 200 ms. */
  method SegmentByDuration(durationMs: int) returns (segments: seq<Piece>)
    ensures |segments| == ChunkCount(durationMs)
    ensures forall i :: 0 <= i < |segments| ==> segments[i] == ChunkAt(durationMs, i)
    ensures segments != [] ==> Tiles(segments, 0, |segments| * Chunk(durationMs))
    ensures durationMs - MIN_PIECE_MS < |segments| * Chunk(durationMs)
    ensures segments != [] ==> |segments| * Chunk(durationMs) <= durationMs
    ensures forall s :: s in segments ==> !s.closed
  {
    segments := [];
    if durationMs < MIN_PIECE_MS {
      return;
    }
    var chunk := Chunk(durationMs);
    ChunksFit(durationMs);
    var start := 0;
    while start < durationMs
      invariant |segments| <= ChunkCount(durationMs)
      invariant forall i :: 0 <= i < |segments| ==> segments[i] == ChunkAt(durationMs, i)
      invariant start == |segments| * chunk || (start == durationMs && |segments| == ChunkCount(durationMs))
      decreases durationMs - start
    {
      var end := Min(start + chunk, durationMs);
      OneMoreChunk(durationMs, |segments|);
      if end - start >= MIN_PIECE_MS {
        segments := segments + [Piece(start, end, false, 0.35)];
      }
      start := end;
    }
  }

  lemma ChunksFit(durationMs: int)
    requires durationMs >= MIN_PIECE_MS
    ensures var n, chunk := ChunkCount(durationMs), Chunk(durationMs);
            1 <= n && n * chunk <= durationMs < n * chunk + MIN_PIECE_MS
  {
    var n := ChunkCount(durationMs);
    assert n == 1 || n == 2 || n == 3;
  }

  /** A further piece is whole while there are fewer than the count, and too short afterwards. */
  lemma OneMoreChunk(durationMs: int, i: nat)
    requires durationMs >= MIN_PIECE_MS && i <= ChunkCount(durationMs)
    ensures var chunk := Chunk(durationMs);
            if i < ChunkCount(durationMs) then (i + 1) * chunk <= durationMs
                else durationMs < i * chunk + MIN_PIECE_MS
  {
    ChunksFit(durationMs);
    assert i == 0 || i == 1 || i == 2 || i == 3;
  }

  /** `process`: the fallback is used exactly when there is no gripper signal. */
  method Process(mcap: McapFile) returns (segments: seq<Piece>)
    ensures var ms := MessagesFor(mcap, GRIPPER_TOPIC);
            if ms == [] then
              |segments| == ChunkCount(mcap.durationMs) && forall i :: 0 <= i < |segments| ==>
                  segments[i] == ChunkAt(mcap.durationMs, i)
            else segments == Pieces(ms, 1, ms[0].timestampMs, EndOf(ms, mcap.durationMs))
    ensures forall i :: 0 < i < |segments| ==> segments[i - 1].endMs == segments[i].startMs
    ensures forall i :: 0 <= i < |segments| ==> segments[i].endMs - segments[i].startMs >= MIN_PIECE_MS
  {
    hide Pieces;
    segments := SegmentByGripper(mcap);
    var ms := MessagesFor(mcap, GRIPPER_TOPIC);
    if segments == [] {
      segments := SegmentByDuration(mcap.durationMs);
    } else {
      GripperSegmentsTile(ms, mcap.durationMs);
    }
  }
}
