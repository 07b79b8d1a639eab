/**
 What the annotator gets to see: the pre-annotation operator's segments
 (algo/operators/preannotate/main.py) under the front end's own check
 (tool/src/components/timeline/segmentMath.ts), in particular for the recordings that the
 agent's recorder writes (agent/src/agent/recorder/mcap_writer.py).
 */
module Proposals {
  import opened Basics
  import opened Recording
  import opened Segments
  import opened Preannotate
  import Editor
  import L = Lifecycle

  /** `_make_segment`. */
  function AsSegment(piece: Piece, id: string): Segment {
    Segment(id, piece.startMs as real, piece.endMs as real, Some(if piece.closed then "grasp" else "move"),
            Some((if piece.closed then "夹爪闭合" else "夹爪张开") + "期间的动作（预标注，待确认）"),
            Some(PREANNOTATE), Some(piece.confidence))
  }

  function AsSegments(pieces: seq<Piece>, ids: seq<string>): seq<Segment>
    requires |ids| == |pieces|
  {
    seq(|pieces|, i requires 0 <= i < |pieces| => AsSegment(pieces[i], ids[i]))
  }

  /** The operator's output, as its method `process` computes it. */
  function Proposed(mcap: McapFile): seq<Piece> {
    var ms := MessagesFor(mcap, GRIPPER_TOPIC);
    if ms == [] then seq(ChunkCount(mcap.durationMs), i requires 0 <= i => ChunkAt(mcap.durationMs, i))
    else Pieces(ms, 1, ms[0].timestampMs, EndOf(ms, mcap.durationMs))
  }

  method Propose(mcap: McapFile) returns (pieces: seq<Piece>)
    ensures pieces == Proposed(mcap)
  {
    hide Pieces, ChunkAt;
    pieces := Process(mcap);
  }

  ghost predicate Confident(pieces: seq<Piece>) {
    forall p :: p in pieces ==> 0.0 <= p.confidence <= 1.0
  }

  lemma IntIsWhole(x: int)
    ensures Whole(x as real)
  {
  }

  lemma InsideTheTiling(pieces: seq<Piece>, fromMs: int, toMs: int, i: nat)
    requires Tiles(pieces, fromMs, toMs) && i < |pieces|
    ensures fromMs <= pieces[i].startMs && pieces[i].endMs <= toMs
    ensures forall j :: i < j < |pieces| ==> pieces[i].endMs <= pieces[j].startMs
  {
    if i > 0 {
      EndsBeforeLater(pieces, fromMs, toMs, 0, i);
    }
    forall j | i < j < |pieces| ensures pieces[i].endMs <= pieces[j].startMs {
      EndsBeforeLater(pieces, fromMs, toMs, i, j);
    }
    if i + 1 < |pieces| {
      EndsBeforeLater(pieces, fromMs, toMs, i, |pieces| - 1);
    }
  }

  lemma TiledIsDisjoint(pieces: seq<Piece>, ids: seq<string>, fromMs: int, toMs: int)
    requires Tiles(pieces, fromMs, toMs) && |ids| == |pieces|
    ensures PairwiseDisjoint(AsSegments(pieces, ids))
  {
    hide Tiles;
    forall i, j | 0 <= i < j < |pieces|
      ensures !Overlap(AsSegment(pieces[i], ids[i]), AsSegment(pieces[j], ids[j]))
    {
      InsideTheTiling(pieces, fromMs, toMs, i);
    }
  }

  /** Tiling segments pass the front end exactly when their span lies within the episode. */
  lemma TiledIsAcceptedIffInside(pieces: seq<Piece>, ids: seq<string>, fromMs: int, toMs: int, durationMs: int)
    requires Tiles(pieces, fromMs, toMs) && |ids| == |pieces|
    ensures Editor.Accepted(AsSegments(pieces, ids), durationMs as real) <==> 0 <= fromMs && toMs <= durationMs
  {
    hide PairwiseDisjoint;
    var segments := AsSegments(pieces, ids);
    TiledIsDisjoint(pieces, ids, fromMs, toMs);
    assert segments[0] in segments && segments[|segments| - 1] in segments;
    forall i | 0 <= i < |pieces|
      ensures Editor.HasLabel(segments[i])
      ensures 0 <= fromMs && toMs <= durationMs ==> Editor.Fits(segments[i], durationMs as real)
    {
      InsideTheTiling(pieces, fromMs, toMs, i);
    }
  }

  /** The server, which does not know the duration here, takes them exactly when they start at zero or later. */
  lemma TiledIsSubmittableIffNotNegative(pieces: seq<Piece>, ids: seq<string>, fromMs: int, toMs: int)
    requires Tiles(pieces, fromMs, toMs) && |ids| == |pieces| && Confident(pieces)
    ensures L.Submittable(AllParsed(AsSegments(pieces, ids))) <==> 0 <= fromMs
  {
    hide PairwiseDisjoint, Tiles, SortByStart, NeighbourOverlaps, Stripped;
    var parsed := AllParsed(AsSegments(pieces, ids));
    assert pieces[0].startMs == fromMs && |pieces| > 0 by { TilesFrom(pieces, fromMs, toMs); }
    TiledIsDisjoint(pieces, ids, fromMs, toMs);
    Editor.ParsedDisjoint(AsSegments(pieces, ids));
    assert parsed[0] in parsed;
    forall i | 0 <= i < |pieces|
      ensures Positive(parsed[i]) && (0 <= fromMs ==> SegmentOk(parsed[i]))
    {
      InsideTheTiling(pieces, fromMs, toMs, i);
      PieceIsOk(pieces, fromMs, toMs, ids[i], i);
    }
    if 0 <= fromMs {
      NeighbourCheckIsExact(parsed);
    }
  }

  lemma TilesFrom(pieces: seq<Piece>, fromMs: int, toMs: int)
    requires Tiles(pieces, fromMs, toMs)
    ensures |pieces| > 0 && pieces[0].startMs == fromMs
  {
  }

  lemma PieceIsOk(pieces: seq<Piece>, fromMs: int, toMs: int, id: string, i: nat)
    requires Tiles(pieces, fromMs, toMs) && i < |pieces| && Confident(pieces)
    ensures var s := Parsed(AsSegment(pieces[i], id)); Positive(s) && (0 <= pieces[i].startMs ==> SegmentOk(s))
  {
    hide Stripped;
    IntIsWhole(pieces[i].startMs);
    IntIsWhole(pieces[i].endMs);
  }

  lemma {:induction false} PiecesAreConfident(ms: seq<Message>, k: nat, startMs: int, endMs: int)
    requires 1 <= k <= |ms|
    ensures Confident(Pieces(ms, k, startMs, endMs))
    decreases |ms| - k
  {
    var j := NextCut(ms, k, startMs);
    if j < |ms| {
      PiecesAreConfident(ms, j + 1, ms[j].timestampMs, endMs);
    }
  }

  /** What the pieces of the fallback tile. */
  lemma FallbackTiles(mcap: McapFile)
    requires MessagesFor(mcap, GRIPPER_TOPIC) == [] && Proposed(mcap) != []
    ensures var n, chunk := |Proposed(mcap)|, Chunk(mcap.durationMs);
            Tiles(Proposed(mcap), 0, n * chunk) && n * chunk <= mcap.durationMs && Confident(Proposed(mcap))
  {
    hide MessagesFor;
    ChunksFit(mcap.durationMs);
    var n, chunk := |Proposed(mcap)|, Chunk(mcap.durationMs);
    assert n == 1 || n == 2 || n == 3;
  }

  /** The operator's segments, unedited, pass the front end if and only if the gripper is silent, or its
      messages begin at zero or later and the last one leaves 200 ms to the end of the recording. */
  lemma ProposalIsAcceptedIffTimeIsLeft(mcap: McapFile, ids: seq<string>)
    requires |ids| == |Proposed(mcap)|
    ensures var ms := MessagesFor(mcap, GRIPPER_TOPIC);
            Editor.Accepted(AsSegments(Proposed(mcap), ids), mcap.durationMs as real) <==>
              ms == [] || (0 <= ms[0].timestampMs && ms[|ms| - 1].timestampMs + MIN_PIECE_MS <= mcap.durationMs)
  {
    hide Tiles, Pieces, MessagesFor, Editor.Accepted, AsSegments, ChunkCount, ChunkAt;
    var ms := MessagesFor(mcap, GRIPPER_TOPIC);
    var pieces := Proposed(mcap);
    if ms != [] {
      GripperSegmentsTile(ms, mcap.durationMs);
      TiledIsAcceptedIffInside(pieces, ids, ms[0].timestampMs, EndOf(ms, mcap.durationMs), mcap.durationMs);
    } else if pieces != [] {
      FallbackTiles(mcap);
      TiledIsAcceptedIffInside(pieces, ids, 0, |pieces| * Chunk(mcap.durationMs), mcap.durationMs);
    } else {
      NothingIsAccepted(pieces, ids, mcap.durationMs as real);
    }
  }

  lemma NothingIsAccepted(pieces: seq<Piece>, ids: seq<string>, durationMs: real)
    requires |ids| == |pieces| == 0
    ensures Editor.Accepted(AsSegments(pieces, ids), durationMs) && L.Submittable(AllParsed(AsSegments(pieces, ids)))
  {
    assert AsSegments(pieces, ids) == [] && AllParsed([]) == [] && SortByStart([]) == [];
  }

  /** The server takes them unedited whenever the gripper's messages do not begin before zero. */
  lemma ProposalIsSubmittable(mcap: McapFile, ids: seq<string>)
    requires |ids| == |Proposed(mcap)|
    ensures var ms := MessagesFor(mcap, GRIPPER_TOPIC);
            L.Submittable(AllParsed(AsSegments(Proposed(mcap), ids))) <==> ms == [] || 0 <= ms[0].timestampMs
  {
    hide Tiles, Pieces, MessagesFor, L.Submittable, AsSegments, AllParsed, ChunkCount, ChunkAt, Confident;
    var ms := MessagesFor(mcap, GRIPPER_TOPIC);
    var pieces := Proposed(mcap);
    if ms != [] {
      GripperSegmentsTile(ms, mcap.durationMs);
      PiecesAreConfident(ms, 1, ms[0].timestampMs, EndOf(ms, mcap.durationMs));
      TiledIsSubmittableIffNotNegative(pieces, ids, ms[0].timestampMs, EndOf(ms, mcap.durationMs));
    } else if pieces != [] {
      FallbackTiles(mcap);
      TiledIsSubmittableIffNotNegative(pieces, ids, 0, |pieces| * Chunk(mcap.durationMs));
    } else {
      NothingIsAccepted(pieces, ids, mcap.durationMs as real);
    }
  }

  // ---------------------------------------------------------------- the agent's recorder

  /** What the recorder writes into a message of a topic at a time. */
  type Payload = (string, int) -> (bool, real)

  /** The messages of one topic, every `intervalMs` from `fromMs` on and before `untilMs`. */
  function Ticks(topic: string, fromMs: int, untilMs: int, intervalMs: int, payload: Payload): (r: seq<Message>)
    requires intervalMs > 0
    ensures forall m :: m in r ==> m.topic == topic && fromMs <= m.timestampMs < untilMs
    decreases untilMs - fromMs
  {
    if fromMs >= untilMs then []
    else
      var data := payload(topic, fromMs);
      [Message(topic, fromMs, data.0, data.1)] + Ticks(topic, fromMs + intervalMs, untilMs, intervalMs, payload)
  }

  function Latest(messages: seq<Message>): (r: int)
    ensures r >= 0 && forall m :: m in messages ==> m.timestampMs <= r
    ensures r == 0 || exists m :: m in messages && m.timestampMs == r
  {
    if messages == [] then 0 else Max(messages[0].timestampMs, Latest(messages[1..]))
  }

  /** `record_simulated_episode`: the topics one after the other, each at its frequency; the header
      gets the latest time stamp as the duration. */
  function Recorded(untilMs: int, payload: Payload): McapFile {
    var messages := Ticks("/camera/front/image_raw", 0, untilMs, 100, payload)
                    + Ticks("/camera/wrist/image_raw", 0, untilMs, 100, payload)
                    + Ticks("/joint_states", 0, untilMs, 20, payload)
                    + Ticks(GRIPPER_TOPIC, 0, untilMs, 50, payload)
                    + Ticks("/force_torque", 0, untilMs, 20, payload);
    McapFile(Latest(messages), messages)
  }

  /** The last message of a topic comes less than one interval before the end. */
  lemma {:induction false} LastTick(topic: string, fromMs: int, untilMs: int, intervalMs: int, payload: Payload)
    requires intervalMs > 0 && fromMs < untilMs
    ensures exists m :: m in Ticks(topic, fromMs, untilMs, intervalMs, payload)
                        && m.timestampMs >= untilMs - intervalMs
    decreases untilMs - fromMs
  {
    var ticks := Ticks(topic, fromMs, untilMs, intervalMs, payload);
    assert ticks[0] in ticks;
    if fromMs + intervalMs < untilMs {
      LastTick(topic, fromMs + intervalMs, untilMs, intervalMs, payload);
    }
  }

  /** No recording of the agent's recorder leaves 200 ms after its last gripper message: whenever it holds
      anything at all, the front end refuses the unedited pre-annotation, which the server would take. */
  lemma RecordedProposalIsRefused(untilMs: int, payload: Payload, ids: seq<string>)
    requires |ids| == |Proposed(Recorded(untilMs, payload))|
    ensures var mcap := Recorded(untilMs, payload);
            && (Editor.Accepted(AsSegments(Proposed(mcap), ids), mcap.durationMs as real) <==> untilMs <= 0)
            && L.Submittable(AllParsed(AsSegments(Proposed(mcap), ids)))
  {
    hide Editor.Accepted, L.Submittable, AsSegments, AllParsed, Proposed, MessagesFor, Ticks;
    var mcap := Recorded(untilMs, payload);
    var ms := MessagesFor(mcap, GRIPPER_TOPIC);
    ProposalIsAcceptedIffTimeIsLeft(mcap, ids);
    ProposalIsSubmittable(mcap, ids);
    GripperTicks(untilMs, payload);
  }

  lemma NothingRecorded(mcap: McapFile)
    requires mcap.messages == []
    ensures MessagesFor(mcap, GRIPPER_TOPIC) == []
  {
  }

  lemma NothingToRecord(untilMs: int, payload: Payload)
    requires untilMs <= 0
    ensures Recorded(untilMs, payload).messages == []
  {
  }

  lemma RecordedTimes(untilMs: int, payload: Payload)
    ensures var mcap := Recorded(untilMs, payload);
            && (forall m :: m in mcap.messages ==> 0 <= m.timestampMs < untilMs)
            && (untilMs > 0 ==> mcap.durationMs < untilMs)
  {
    hide Ticks;
  }

  lemma RecordedGripper(untilMs: int, payload: Payload) returns (m: Message)
    requires untilMs > 0
    ensures m in Recorded(untilMs, payload).messages && m.topic == GRIPPER_TOPIC && m.timestampMs >= untilMs - 50
  {
    hide Ticks, Latest;
    LastTick(GRIPPER_TOPIC, 0, untilMs, 50, payload);
    m :| m in Ticks(GRIPPER_TOPIC, 0, untilMs, 50, payload) && m.timestampMs >= untilMs - 50;
  }

  lemma GripperTicks(untilMs: int, payload: Payload)
    ensures var mcap := Recorded(untilMs, payload); var ms := MessagesFor(mcap, GRIPPER_TOPIC);
            if untilMs <= 0 then ms == []
            else ms != [] && 0 <= ms[0].timestampMs && mcap.durationMs < untilMs
                 && ms[|ms| - 1].timestampMs >= untilMs - 50
  {
    hide MessagesFor, Recorded;
    var mcap := Recorded(untilMs, payload);
    RecordedTimes(untilMs, payload);
    if untilMs > 0 {
      var m := RecordedGripper(untilMs, payload);
      var ms := MessagesFor(mcap, GRIPPER_TOPIC);
      assert m in ms && ms[0] in ms;
    } else {
      NothingToRecord(untilMs, payload);
      NothingRecorded(mcap);
    }
  }
}
