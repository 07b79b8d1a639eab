/**
 An annotation's revision counts the returns that reviewers made. A system component can take an
 annotation back from review too, and such a return is not counted: this module says exactly when
 (platform/app/services/episode_lifecycle.py, platform/app/ws/handlers.py).
 */
module LateReturns {
  import opened Basics
  import opened StateMachine
  import opened Segments
  import opened Lifecycle
  import opened LifecycleRuns
  import Agreement
  import Answers

  /** Returns from review that no user made. */
  function SystemReturnsOf(h: seq<TransitionRecord>, id: string): nat {
    CountIf(h, (r: TransitionRecord) => Returns(id, r) && !r.actor.User?)
  }

  lemma {:induction false} ReturnsSplit(h: seq<TransitionRecord>, id: string)
    ensures ReturnsOf(h, id) == UserReturnsOf(h, id) + SystemReturnsOf(h, id)
  {
    if h != [] {
      ReturnsSplit(h[..|h| - 1], id);
    }
  }

  /** The request takes the annotation of `id` back from review behind the reviewer's back: a late
      success of the annotation processing, or a status report, that arrives during the review. */
  predicate Late(w: World, c: Command, id: string) {
    && id in w.episodes && w.episodes[id].status == ANNOTATION_REVIEW
    && (c == AnnotationProcessing(id, true) || c == StatusReport(id, ANNOTATION_PENDING))
  }

  lemma RecordCounts(h: seq<TransitionRecord>, r: TransitionRecord, id: string)
    ensures SystemReturnsOf(h + [r], id) == SystemReturnsOf(h, id) + (if Returns(id, r) && !r.actor.User? then 1 else 0)
  {
    assert (h + [r])[..|h|] == h;
  }

  lemma TransitionCounts(w: World, x: string, target: EpisodeStatus, actor: Actor, id: string)
    ensures var answer := Transition(w, x, target, actor);
            answer.Ok? ==>
              SystemReturnsOf(answer.value.world.history, id)
              == SystemReturnsOf(w.history, id)
                 + (if x == id && IsReturn(w.episodes[x].status, target) && !actor.User? then 1 else 0)
  {
    hide SystemReturnsOf;
    if x in w.episodes {
      RecordCounts(w.history, TransitionRecord(x, w.episodes[x].status, target, actor), id);
    }
  }

  lemma UploadCounts(w: World, c: Command, id: string)
    requires c.UploadComplete?
    ensures SystemReturnsOf(Apply(w, c).history, id) == SystemReturnsOf(w.history, id)
  {
    hide SystemReturnsOf;
    var first := TransitionRecord(c.id, UPLOADING, UPLOADED, UPLOAD_CALLBACK);
    RecordCounts(w.history, first, id);
    RecordCounts(w.history + [first], TransitionRecord(c.id, UPLOADED, PROCESSING, UPLOAD_CALLBACK), id);
  }

  lemma UserCounts(w: World, c: Command, id: string)
    requires c.Verify? || c.Annotate? || c.Review?
    ensures SystemReturnsOf(Apply(w, c).history, id) == SystemReturnsOf(w.history, id)
  {
    hide SystemReturnsOf, Handle, Answers.Refusal, Answers.Destination;
    Answers.AnswersFollowTheTable(w, c);
    if Handle(w, c).Ok? {
      var was, now := w.episodes[c.id].status, Apply(w, c).episodes[c.id].status;
      RecordCounts(w.history, TransitionRecord(c.id, was, now, User(c.user)), id);
      assert w.history + [] == w.history;
    }
  }

  /** Exactly the late requests add a return that the revision does not count. */
  lemma StepCounts(w: World, c: Command, id: string)
    ensures SystemReturnsOf(Apply(w, c).history, id)
              == SystemReturnsOf(w.history, id) + (if Late(w, c, id) then 1 else 0)
  {
    hide SystemReturnsOf, Transition, HandleUploadComplete, SubmitVerification, SubmitAnnotation, SubmitReview,
         SegmentsOf, KeyFramesOf, QualityOf, RunsOf, ResultOk, AllSucceeded;
    match c
    case CreateTask(_) =>
    case CreateEpisode(_, _) =>
    case StartUpload(x) => TransitionCounts(w, x, UPLOADING, AGENT_REPORT, id);
    case StatusReport(x, target) => ReportCounts(w, c, id);
    case UploadComplete(_, _, _) => UploadCounts(w, c, id);
    case AlgoResult(x, results, _) =>
      if x in w.episodes {
        var target := if AllSucceeded(results) then VERIFICATION_PENDING else FAILED;
        TransitionCounts(Attached(w, x, results), x, target, SCHEDULER, id);
      }
    case AnnotationProcessing(_, _) => ProcessingCounts(w, c, id);
    case Verify(_, _, _, _) => UserCounts(w, c, id);
    case Annotate(_, _, _, _) => UserCounts(w, c, id);
    case Review(_, _, _) => UserCounts(w, c, id);
  }

  lemma ReportCounts(w: World, c: Command, id: string)
    requires c.StatusReport?
    ensures SystemReturnsOf(Apply(w, c).history, id)
              == SystemReturnsOf(w.history, id) + (if Late(w, c, id) then 1 else 0)
  {
    hide SystemReturnsOf;
    TransitionCounts(w, c.id, c.target, AGENT_REPORT, id);
  }

  lemma ProcessingCounts(w: World, c: Command, id: string)
    requires c.AnnotationProcessing?
    ensures SystemReturnsOf(Apply(w, c).history, id)
              == SystemReturnsOf(w.history, id) + (if Late(w, c, id) then 1 else 0)
  {
    hide SystemReturnsOf;
    TransitionCounts(Log(w, [JobRun(c.id, ANNOTATION_PROCESSING_RUN, c.succeeded)]), c.id,
                     if c.succeeded then ANNOTATION_PENDING else FAILED, SCHEDULER, id);
  }

  /** How many requests of a run were late for an episode. */
  function CountLate(w: World, commands: seq<Command>, id: string): nat
    decreases |commands|
  {
    if commands == [] then 0
    else (if Late(w, commands[0], id) then 1 else 0) + CountLate(Apply(w, commands[0]), commands[1..], id)
  }

  lemma {:induction false} RunCounts(w: World, commands: seq<Command>, id: string)
    ensures SystemReturnsOf(Run(w, commands).history, id) == SystemReturnsOf(w.history, id) + CountLate(w, commands, id)
    decreases |commands|
  {
    hide SystemReturnsOf, Apply, Late;
    if commands != [] {
      StepCounts(w, commands[0], id);
      RunCounts(Apply(w, commands[0]), commands[1..], id);
    }
  }

  /** The revision is one more than the number of returns, as reviewers would read it. */
  predicate RevisionCountsReturns(w: World, id: string)
    requires id in w.annotations
  {
    w.annotations[id].revision == 1 + ReturnsOf(w.history, id)
  }

  /** Over every run the revision lags behind the returns by exactly the number of late requests;
      it counts all returns if and only if no request was late. */
  lemma RevisionLagsByLateRequests(commands: seq<Command>, id: string)
    ensures var w := Run(EMPTY, commands);
            id in w.annotations ==>
              && w.annotations[id].revision + CountLate(EMPTY, commands, id) == 1 + ReturnsOf(w.history, id)
              && (RevisionCountsReturns(w, id) <==> CountLate(EMPTY, commands, id) == 0)
  {
    EmptySound();
    RunSound(EMPTY, commands);
    RunCounts(EMPTY, commands, id);
    ReturnsSplit(Run(EMPTY, commands).history, id);
    hide Run, Traced, Announced, Counted, ReturnsOf, UserReturnsOf;
  }

  /** Whatever was before, a request makes a revision that counted all returns lag if and only if it is late. */
  lemma LateIsExact(w: World, c: Command, id: string)
    requires Sound(w) && id in w.annotations && RevisionCountsReturns(w, id)
    ensures id in Apply(w, c).annotations
    ensures RevisionCountsReturns(Apply(w, c), id) <==> !Late(w, c, id)
  {
    ApplySound(w, c);
    StepCounts(w, c, id);
    AnnotationStays(w, c, id);
    ReturnsSplit(w.history, id);
    ReturnsSplit(Apply(w, c).history, id);
    hide Apply, Traced, Announced, Counted, ReturnsOf, UserReturnsOf, SystemReturnsOf, Late;
  }

  lemma AnnotationStays(w: World, c: Command, id: string)
    requires id in w.annotations
    ensures id in Apply(w, c).annotations
  {
    hide SegmentsOf, KeyFramesOf, QualityOf, RunsOf, ResultOk, AllSucceeded, Submittable, CanTransition;
  }

  lemma {:induction false} NoReturns(h: seq<TransitionRecord>, id: string)
    requires forall r :: r in h ==> r.fromStatus != ANNOTATION_REVIEW
    ensures ReturnsOf(h, id) == 0
  {
    if h != [] {
      NoReturns(h[..|h| - 1], id);
    }
  }

  lemma OneReturn(h: seq<TransitionRecord>, r: TransitionRecord, id: string)
    requires Returns(id, r)
    ensures ReturnsOf(h + [r], id) == ReturnsOf(h, id) + 1
  {
    assert (h + [r])[..|h|] == h;
  }

  /** It does happen: an ordinary episode is annotated, the success of its processing comes again, and
      the annotation is pending once more with the revision it had. */
  lemma LateSuccess(id: string)
    ensures var annotate := Annotate(id, "a", [], "u");
            var w := Run(EMPTY, Agreement.Ordinary(id) + [annotate, AnnotationProcessing(id, true)]);
            && id in w.episodes && w.episodes[id].status == ANNOTATION_PENDING
            && id in w.annotations && w.annotations[id].revision == 1 && ReturnsOf(w.history, id) == 1
  {
    hide Run, Apply, ReturnsOf;
    var annotate, late := Annotate(id, "a", [], "u"), AnnotationProcessing(id, true);
    var pending := Agreement.OrdinaryRun(id, [annotate, late]);
    assert [annotate, late] == [annotate] + [late];
    Agreement.RunCons(pending, annotate, [late]);
    Agreement.RunOne(Apply(pending, annotate), late);
    LateAfterAnnotating(pending, id);
  }

  lemma LateAfterAnnotating(pending: World, id: string)
    requires id in pending.episodes && pending.episodes[id].status == ANNOTATION_PENDING
    requires id in pending.annotations && Agreement.FirstRevision(pending, id)
    ensures var w := Apply(Apply(pending, Annotate(id, "a", [], "u")), AnnotationProcessing(id, true));
            && id in w.episodes && w.episodes[id].status == ANNOTATION_PENDING
            && id in w.annotations && w.annotations[id].revision == 1 && ReturnsOf(w.history, id) == 1
  {
    hide ReturnsOf;
    var submitted := TransitionRecord(id, ANNOTATION_PENDING, ANNOTATION_REVIEW, User("u"));
    NoReturns(pending.history + [submitted], id);
    var returned := TransitionRecord(id, ANNOTATION_REVIEW, ANNOTATION_PENDING, SCHEDULER);
    OneReturn(pending.history + [submitted], returned, id);
  }
}
