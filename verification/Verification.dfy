/**
 What the verification gate says: nothing is annotated, reviewed or published that the verifier
 did not approve, unless a status report takes the episode past the gate, and what the verifier
 rejects stays rejected (platform/app/services/review.py, platform/app/ws/handlers.py).
 */
module Verification {
  import opened Basics
  import opened StateMachine
  import opened Segments
  import opened Lifecycle
  import LifecycleTheorems
  import Agreement
  import Answers

  predicate BeyondTheGate(status: EpisodeStatus) {
    status in {ANNOTATION_PROCESSING, ANNOTATION_PENDING, ANNOTATION_REVIEW, PUBLISHED}
  }

  ghost predicate VerifiedIfBeyond(w: World, id: string)
    requires id in w.episodes
  {
    BeyondTheGate(w.episodes[id].status) ==> id in w.annotations && w.annotations[id].verified == Some(APPROVE)
  }

  ghost predicate AllVerified(w: World) {
    forall id :: id in w.episodes ==> VerifiedIfBeyond(w, id)
  }

  /** Every request but a status report that takes an episode past the gate. */
  predicate Proper(c: Command) {
    !(c.StatusReport? && c.target == ANNOTATION_PROCESSING)
  }

  ghost predicate AllProper(commands: seq<Command>) {
    forall c :: c in commands ==> Proper(c)
  }

  /** Only an approval leads past the gate. */
  lemma OnlyApprovalPasses(w: World, c: Command)
    requires Answers.AboutEpisode(c) && Proper(c) && c.id in w.episodes && c.id in Apply(w, c).episodes
    requires !BeyondTheGate(w.episodes[c.id].status) && BeyondTheGate(Apply(w, c).episodes[c.id].status)
    ensures c.Verify? && c.decision == APPROVE && Handle(w, c).Ok?
  {
    Answers.AnswersFollowTheTable(w, c);
    hide Handle;
  }

  /** A verifier decides only before the gate, and nobody else touches the decision. */
  ghost predicate KeepsVerdict(w: World, w': World, id: string) {
    id in w.annotations ==> id in w'.annotations && w'.annotations[id].verified == w.annotations[id].verified
  }

  lemma OthersKeepVerdicts(w: World, c: Command, id: string)
    requires !c.Verify?
    ensures KeepsVerdict(w, Apply(w, c), id)
  {
    hide SegmentsOf, KeyFramesOf, QualityOf, RunsOf, ResultOk, AllSucceeded, Submittable, CanTransition,
        HandleUploadComplete;
    if c.UploadComplete? {
      UploadKeepsVerdicts(w, c, id);
    }
  }

  lemma UploadKeepsVerdicts(w: World, c: Command, id: string)
    requires c.UploadComplete?
    ensures KeepsVerdict(w, Apply(w, c), id)
  {
  }

  lemma StepVerifies(w: World, c: Command, id: string)
    requires AllVerified(w) && Proper(c) && id in Apply(w, c).episodes
    ensures VerifiedIfBeyond(Apply(w, c), id)
  {
    hide Apply, Proper;
    if Answers.AboutEpisode(c) {
      if c.Verify? {
        VerifyVerifies(w, c, id);
      } else {
        OthersVerify(w, c, id);
      }
    } else {
      CreatingVerifies(w, c, id);
    }
  }

  lemma CreatingVerifies(w: World, c: Command, id: string)
    requires AllVerified(w) && !Answers.AboutEpisode(c) && id in Apply(w, c).episodes
    ensures VerifiedIfBeyond(Apply(w, c), id)
  {
    assert id in w.episodes ==> VerifiedIfBeyond(w, id);
  }

  lemma VerifyVerifies(w: World, c: Command, id: string)
    requires AllVerified(w) && c.Verify? && id in Apply(w, c).episodes
    ensures VerifiedIfBeyond(Apply(w, c), id)
  {
    Answers.AnswersFollowTheTable(w, c);
    if Handle(w, c).Ok? {
      Answers.VerdictIsStored(w, c);
    }
    hide Handle;
    assert id in w.episodes ==> VerifiedIfBeyond(w, id);
  }

  lemma OthersVerify(w: World, c: Command, id: string)
    requires AllVerified(w) && Answers.AboutEpisode(c) && !c.Verify? && Proper(c) && id in Apply(w, c).episodes
    ensures VerifiedIfBeyond(Apply(w, c), id)
  {
    OthersKeepVerdicts(w, c, id);
    Answers.AnswersFollowTheTable(w, c);
    hide Handle;
    assert id in w.episodes;
    assert VerifiedIfBeyond(w, id);
    if id == c.id && !BeyondTheGate(w.episodes[id].status) && BeyondTheGate(Apply(w, c).episodes[id].status) {
      OnlyApprovalPasses(w, c);
    }
  }

  lemma ApplyVerified(w: World, c: Command)
    requires AllVerified(w) && Proper(c)
    ensures AllVerified(Apply(w, c))
  {
    hide Apply, Proper;
    forall id | id in Apply(w, c).episodes ensures VerifiedIfBeyond(Apply(w, c), id) {
      StepVerifies(w, c, id);
    }
  }

  lemma {:induction false} RunVerified(w: World, commands: seq<Command>)
    requires AllVerified(w) && AllProper(commands)
    ensures AllVerified(Run(w, commands))
    decreases |commands|
  {
    hide AllVerified, Apply, Proper;
    if commands != [] {
      ApplyVerified(w, commands[0]);
      RunVerified(Apply(w, commands[0]), commands[1..]);
    }
  }

  // ---------------------------------------------------------------- the condition is exact

  /** A recorded and pre-annotated episode that waits for the verifier. */
  function Unverified(id: string): seq<Command> {
    Agreement.Ordinary(id)[..5]
  }

  lemma UnverifiedRun(id: string) returns (w: World)
    ensures w == Run(EMPTY, Unverified(id)) && AllProper(Unverified(id))
    ensures id in w.episodes && w.episodes[id].status == VERIFICATION_PENDING && w.annotations == map[]
  {
    hide Apply, Proper, Agreement.Ordinary, Agreement.Stage;
    var cs := Agreement.Ordinary(id);
    w := EMPTY;
    Agreement.StageStart(id);
    var i := 0;
    while i < 5
      invariant 0 <= i <= 5 && Agreement.Stage(w, id, i)
      invariant Run(EMPTY, cs[..5]) == Run(w, cs[i..5])
    {
      assert cs[i..5] == [cs[i]] + cs[i + 1..5];
      Agreement.RunCons(w, cs[i], cs[i + 1..5]);
      Agreement.StageStep(w, id, i);
      w := Apply(w, cs[i]);
      i := i + 1;
    }
    assert cs[5..5] == [];
    WaitingStage(w, id);
    OrdinaryIsProper(id);
  }

  lemma WaitingStage(w: World, id: string)
    requires Agreement.Stage(w, id, 5)
    ensures id in w.episodes && w.episodes[id].status == VERIFICATION_PENDING && w.annotations == map[]
  {
  }

  lemma OrdinaryIsProper(id: string)
    ensures AllProper(Unverified(id))
  {
  }

  lemma ReportPasses(w: World, c: Command)
    requires !Proper(c) && c.id in w.episodes && w.episodes[c.id].status == VERIFICATION_PENDING
    requires w.annotations == map[]
    ensures !AllVerified(Apply(w, c))
  {
    assert !VerifiedIfBeyond(Apply(w, c), c.id);
  }

  /** The condition is exact: a request leaves every episode beyond the gate verified, after every run of proper
      requests, if and only if it is proper itself. */
  lemma ProperIsExact(c: Command)
    ensures Proper(c) <==> forall commands :: AllProper(commands) ==> AllVerified(Apply(Run(EMPTY, commands), c))
  {
    hide Proper, AllVerified, Run, Apply;
    if Proper(c) {
      forall commands | AllProper(commands)
        ensures AllVerified(Apply(Run(EMPTY, commands), c))
      {
        EmptyVerified();
        RunVerified(EMPTY, commands);
        ApplyVerified(Run(EMPTY, commands), c);
      }
    } else {
      var w := UnverifiedRun(ReportedId(c));
      ReportPasses(w, c);
      assert AllProper(Unverified(ReportedId(c)));
    }
  }

  function ReportedId(c: Command): (id: string)
    ensures !Proper(c) ==> id == c.id
  {
    if c.StatusReport? then c.id else ""
  }

  lemma EmptyVerified()
    ensures AllVerified(EMPTY)
  {
  }

  // ---------------------------------------------------------------- rejection

  /** What the verifier rejects is rejected at once, on the verifier's record and with its event, and for good. */
  lemma RejectedForGood(w: World, c: Command, commands: seq<Command>)
    requires c.Verify? && c.decision == REJECT && Handle(w, c).Ok?
    ensures var now, later := Apply(w, c), Run(Apply(w, c), commands);
            && c.id in w.episodes && c.id in later.episodes && later.episodes[c.id].status == REJECTED
            && now.history == w.history + [TransitionRecord(c.id, VERIFICATION_PENDING, REJECTED, User(c.user))]
            && now.events == w.events + [EpisodeRejected(c.id, w.episodes[c.id].taskId, c.user)]
  {
    Answers.AnswersFollowTheTable(w, c);
    RejectionIsAnnounced(w, c);
    LifecycleTheorems.RunForward(Apply(w, c), commands, c.id);
    hide Run, Handle;
  }

  lemma RejectionIsAnnounced(w: World, c: Command)
    requires c.Verify? && c.decision == REJECT && Handle(w, c).Ok?
    ensures c.id in w.episodes
    ensures Apply(w, c).events == w.events + [EpisodeRejected(c.id, w.episodes[c.id].taskId, c.user)]
  {
  }
}
