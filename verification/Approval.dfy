/**
 What publishing says about the review: a reviewer approved, unless a status report published the
 episode by itself (platform/app/services/review.py, platform/app/ws/handlers.py).
 */
module Approval {
  import opened Basics
  import opened StateMachine
  import opened Lifecycle
  import Agreement
  import Answers

  /** A published episode has an annotation that a reviewer approved. */
  ghost predicate ApprovedIfPublished(w: World, id: string)
    requires id in w.episodes
  {
    w.episodes[id].status == PUBLISHED ==> id in w.annotations && w.annotations[id].reviewed == Some(APPROVE)
  }

  ghost predicate Approved(w: World) {
    forall id :: id in w.episodes ==> ApprovedIfPublished(w, id)
  }

  /** Every request but a status report that publishes. */
  predicate Gated(c: Command) {
    !(c.StatusReport? && c.target == PUBLISHED)
  }

  ghost predicate AllGated(commands: seq<Command>) {
    forall c :: c in commands ==> Gated(c)
  }

  /** A published episode and its annotation's review stay as they are. */
  ghost predicate Kept(w: World, w': World, id: string)
    requires id in w.episodes
  {
    w.episodes[id].status == PUBLISHED ==>
      && id in w'.episodes && w'.episodes[id].status == PUBLISHED
      && (id in w.annotations ==> id in w'.annotations && w'.annotations[id].reviewed == w.annotations[id].reviewed)
  }

  /** An episode that is published now was published before, or has just been approved. */
  ghost predicate Earned(w: World, w': World, id: string)
    requires id in w'.episodes
  {
    w'.episodes[id].status == PUBLISHED ==>
      || (id in w.episodes && w.episodes[id].status == PUBLISHED)
      || (id in w'.annotations && w'.annotations[id].reviewed == Some(APPROVE))
  }

  lemma ReviewGates(w: World, c: Command, id: string)
    requires c.Verify? || c.Annotate? || c.Review?
    ensures id in w.episodes ==> Kept(w, Apply(w, c), id)
    ensures id in Apply(w, c).episodes ==> Earned(w, Apply(w, c), id)
  {
    hide Handle, Answers.Refusal;
    Answers.AnswersFollowTheTable(w, c);
    if Handle(w, c).Ok? {
      match c {
        case Verify(_, _, _, _) => Answers.VerdictIsStored(w, c);
        case Annotate(_, _, _, _) => Answers.SubmissionIsStored(w, c);
        case Review(_, _, _) => Answers.ReviewIsStored(w, c);
      }
    }
  }

  lemma TransitionGates(w: World, x: string, target: EpisodeStatus, actor: Actor, id: string)
    requires target != PUBLISHED
    ensures var answer := Transition(w, x, target, actor);
            answer.Ok? ==>
              && (id in w.episodes ==> Kept(w, answer.value.world, id))
              && (id in answer.value.world.episodes ==> Earned(w, answer.value.world, id))
  {
  }

  lemma SystemGates(w: World, c: Command, id: string)
    requires Gated(c) && !c.Verify? && !c.Annotate? && !c.Review? && !c.AlgoResult?
    ensures id in w.episodes ==> Kept(w, Apply(w, c), id)
    ensures id in Apply(w, c).episodes ==> Earned(w, Apply(w, c), id)
  {
    hide SubmitVerification, SubmitAnnotation, SubmitReview, HandleAlgoResult;
    if c.StatusReport? {
      TransitionGates(w, c.id, c.target, AGENT_REPORT, id);
    }
    hide CanTransition;
  }

  lemma ResultGates(w: World, c: Command, id: string)
    requires c.AlgoResult?
    ensures id in w.episodes ==> Kept(w, Apply(w, c), id)
    ensures id in Apply(w, c).episodes ==> Earned(w, Apply(w, c), id)
  {
    hide SegmentsOf, KeyFramesOf, QualityOf, RunsOf, ResultOk, AllSucceeded, Transition;
    if c.id in w.episodes {
      TransitionGates(Attached(w, c.id, c.results), c.id,
                      if AllSucceeded(c.results) then VERIFICATION_PENDING else FAILED, SCHEDULER, id);
    }
  }

  lemma StepGates(w: World, c: Command, id: string)
    requires Gated(c)
    ensures id in w.episodes ==> Kept(w, Apply(w, c), id)
    ensures id in Apply(w, c).episodes ==> Earned(w, Apply(w, c), id)
  {
    hide Apply, Kept, Earned, Gated;
    if c.Verify? || c.Annotate? || c.Review? {
      ReviewGates(w, c, id);
    } else if c.AlgoResult? {
      ResultGates(w, c, id);
    } else {
      SystemGates(w, c, id);
    }
  }

  lemma ApplyApproved(w: World, c: Command)
    requires Approved(w) && Gated(c)
    ensures Approved(Apply(w, c))
  {
    hide Apply, Gated;
    forall id | id in Apply(w, c).episodes
      ensures ApprovedIfPublished(Apply(w, c), id)
    {
      StepGates(w, c, id);
      assert id in w.episodes ==> ApprovedIfPublished(w, id);
    }
  }

  lemma {:induction false} RunApproved(w: World, commands: seq<Command>)
    requires Approved(w) && AllGated(commands)
    ensures Approved(Run(w, commands))
    decreases |commands|
  {
    hide Approved, Apply, Gated;
    if commands != [] {
      ApplyApproved(w, commands[0]);
      RunApproved(Apply(w, commands[0]), commands[1..]);
    }
  }

  lemma OrdinaryIsGated(id: string)
    ensures AllGated(Agreement.Ordinary(id) + [Annotate(id, "a", [], "u")])
  {
  }

  lemma ReportPublishes(pending: World, id: string)
    requires id in pending.episodes && pending.episodes[id].status == ANNOTATION_PENDING
    requires id in pending.annotations && Agreement.FirstRevision(pending, id)
    ensures !Approved(Apply(Apply(pending, Annotate(id, "a", [], "u")), StatusReport(id, PUBLISHED)))
  {
    assert !ApprovedIfPublished(Apply(Apply(pending, Annotate(id, "a", [], "u")), StatusReport(id, PUBLISHED)), id);
  }

  /** A status report to PUBLISHED publishes an annotation under review that nobody approved. */
  lemma UngatedBreaks(c: Command) returns (commands: seq<Command>)
    requires !Gated(c)
    ensures AllGated(commands) && !Approved(Apply(Run(EMPTY, commands), c))
  {
    hide Approved, Apply, Run, AllGated;
    var annotate := Annotate(c.id, "a", [], "u");
    commands := Agreement.Ordinary(c.id) + [annotate];
    OrdinaryIsGated(c.id);
    var pending := Agreement.OrdinaryRun(c.id, [annotate]);
    Agreement.RunOne(pending, annotate);
    ReportPublishes(pending, c.id);
  }

  /** The condition is exact: a request leaves every published episode approved, after every run of
      gated requests, if and only if it is gated itself. */
  lemma GateIsExact(c: Command)
    ensures Gated(c) <==> forall commands :: AllGated(commands) ==> Approved(Apply(Run(EMPTY, commands), c))
  {
    hide Gated, Approved, Run, Apply;
    if Gated(c) {
      forall commands | AllGated(commands)
        ensures Approved(Apply(Run(EMPTY, commands), c))
      {
        EmptyApproved();
        RunApproved(EMPTY, commands);
        ApplyApproved(Run(EMPTY, commands), c);
      }
    } else {
      var commands := UngatedBreaks(c);
    }
  }

  lemma EmptyApproved()
    ensures Approved(EMPTY)
  {
  }
}
