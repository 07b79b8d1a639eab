/**
 While an annotation is under review or published, the episode holds exactly the segments
 that were annotated, they do not overlap, and the approval announced their number.
 The module also says exactly which requests can break this.
 */
module Agreement {
  import opened Basics
  import opened StateMachine
  import opened Segments
  import opened Lifecycle

  /** What the reviewer saw is what the episode holds, and it is a proper segmentation. */
  ghost predicate Agrees(w: World, id: string)
    requires id in w.episodes
  {
    w.episodes[id].status in {ANNOTATION_REVIEW, PUBLISHED} ==>
      && id in w.annotations && w.episodes[id].segments == w.annotations[id].segments
      && PairwiseDisjoint(w.episodes[id].segments) && WellFormed(w.episodes[id].segments)
  }

  /** An approval's segment count is, and stays, the number of the episode's segments. */
  ghost predicate ApprovalTrue(w: World, e: Event) {
    e.AnnotationApproved? ==>
      e.episodeId in w.episodes && w.episodes[e.episodeId].status == PUBLISHED
          && e.segmentCount == |w.episodes[e.episodeId].segments|
  }

  ghost predicate Agreed(w: World) {
    && (forall id :: id in w.episodes ==> Agrees(w, id))
    && (forall e :: e in w.events ==> ApprovalTrue(w, e))
  }

  /** The requests that never break the agreement. The others are a status report that moves
      an episode under review by itself, and a partial pipeline result that carries
      segments; the pipeline of this repository only sends complete results. */
  predicate Safe(c: Command) {
    match c
    case StatusReport(_, target) => target != ANNOTATION_REVIEW
    case AlgoResult(_, results, complete) =>
      complete || SegmentsOf(results).None? || exists r :: r in results && !ResultOk(r)
    case _ => true
  }

  /** A step that leaves episode `id` out of review, or touches neither its segments nor its
      annotation's, keeps the agreement; all other episodes are left alone. */
  lemma LocalStep(w: World, w': World, id: string)
    requires Agreed(w) && w.episodes.Keys <= w'.episodes.Keys
    requires forall x :: x in w'.episodes && x != id ==> x in w.episodes && w'.episodes[x] == w.episodes[x]
    requires forall x :: x in w.annotations && x != id ==>
               x in w'.annotations && w'.annotations[x].segments == w.annotations[x].segments
    requires id in w.episodes && w.episodes[id].status == PUBLISHED ==> w'.episodes[id] == w.episodes[id]
    requires id in w'.episodes ==> Agrees(w', id)
    requires forall e :: e in w'.events ==> e in w.events || ApprovalTrue(w', e)
    ensures Agreed(w')
  {
    hide PairwiseDisjoint, WellFormed;
    forall x | x in w'.episodes && x != id
      ensures Agrees(w', x)
    {
      assert Agrees(w, x);
    }
    forall e | e in w'.events
      ensures ApprovalTrue(w', e)
    {
      if e in w.events {
        assert ApprovalTrue(w, e);
      }
    }
  }

  /** A system transition outside the way into review, on top of a stored pipeline result. */
  lemma TransitionAgrees(w: World, attached: World, id: string, target: EpisodeStatus, actor: Actor)
    requires Agreed(w) && id in w.episodes && target != ANNOTATION_REVIEW
    requires id in attached.episodes && attached.episodes == w.episodes[id := attached.episodes[id]]
    requires attached.episodes[id].status == w.episodes[id].status
    requires attached.annotations == w.annotations && attached.events == w.events
    requires attached.episodes[id] == w.episodes[id] || target in {VERIFICATION_PENDING, FAILED}
    ensures var answer := Transition(attached, id, target, actor); answer.Ok? ==> Agreed(answer.value.world)
  {
    hide PairwiseDisjoint, WellFormed, Agreed, CanTransition;
    PublishedIsFinal(target);
    OneAgrees(w, id);
    var answer := Transition(attached, id, target, actor);
    if answer.Ok? {
      LocalStep(w, answer.value.world, id);
    }
  }

  lemma PublishedIsFinal(target: EpisodeStatus)
    ensures !CanTransition(PUBLISHED, target) && forall s :: CanTransition(s, PUBLISHED) ==> s == ANNOTATION_REVIEW
  {
  }

  lemma OneAgrees(w: World, id: string)
    requires Agreed(w) && id in w.episodes
    ensures Agrees(w, id)
  {
  }

  lemma SubmittableIsDisjoint(segments: seq<Segment>)
    requires Submittable(segments)
    ensures PairwiseDisjoint(segments) && WellFormed(segments)
  {
    NeighbourCheckIsExact(segments);
  }

  lemma UploadAgrees(w: World, c: Command)
    requires Agreed(w) && c.UploadComplete?
    ensures Agreed(Apply(w, c))
  {
    hide PairwiseDisjoint, WellFormed;
    LocalStep(w, Apply(w, c), c.id);
  }

  lemma VerifyAgrees(w: World, c: Command)
    requires Agreed(w) && c.Verify?
    ensures Agreed(Apply(w, c))
  {
    hide PairwiseDisjoint, WellFormed;
    if Handle(w, c).Ok? {
      LocalStep(w, Apply(w, c), c.id);
    }
  }

  lemma AnnotateAgrees(w: World, c: Command)
    requires Agreed(w) && c.Annotate?
    ensures Agreed(Apply(w, c))
  {
    hide PairwiseDisjoint, WellFormed, Submittable;
    if Handle(w, c).Ok? {
      SubmittableIsDisjoint(c.segments);
      LocalStep(w, Apply(w, c), c.id);
    }
  }

  lemma ReviewAgrees(w: World, c: Command)
    requires Agreed(w) && c.Review?
    ensures Agreed(Apply(w, c))
  {
    hide PairwiseDisjoint, WellFormed;
    if Handle(w, c).Ok? {
      assert Agrees(w, c.id);
      LocalStep(w, Apply(w, c), c.id);
    }
  }

  /** A safe request keeps the agreement, whatever state the platform is in. */
  lemma ApplyAgrees(w: World, c: Command)
    requires Agreed(w) && Safe(c)
    ensures Agreed(Apply(w, c))
  {
    hide Agreed, Transition, SegmentsOf, AllSucceeded, ResultOk, HandleUploadComplete, SubmitVerification,
        SubmitAnnotation, SubmitReview;
    match c
    case CreateTask(_) => CreateAgrees(w, c);
    case CreateEpisode(_, _) => CreateAgrees(w, c);
    case StartUpload(id) => SystemAgrees(w, id, UPLOADING, AGENT_REPORT);
    case StatusReport(id, target) => SystemAgrees(w, id, target, AGENT_REPORT);
    case UploadComplete(_, _, _) => UploadAgrees(w, c);
    case AlgoResult(id, results, complete) =>
      ResultAgrees(w, c);
    case AnnotationProcessing(id, succeeded) =>
      var runs := [JobRun(id, ANNOTATION_PROCESSING_RUN, succeeded)];
      LogAgrees(w, runs);
      SystemAgrees(Log(w, runs), id, if succeeded then ANNOTATION_PENDING else FAILED, SCHEDULER);
    case Verify(_, _, _, _) => VerifyAgrees(w, c);
    case Annotate(_, _, _, _) => AnnotateAgrees(w, c);
    case Review(_, _, _) => ReviewAgrees(w, c);
  }

  /** A complete result moves the episode on or out; a partial one without segments changes no segments. */
  lemma ResultAgrees(w: World, c: Command)
    requires Agreed(w) && c.AlgoResult? && Safe(c)
    ensures Agreed(Apply(w, c))
  {
    hide Agreed, SegmentsOf, KeyFramesOf, QualityOf, RunsOf, AllSucceeded, ResultOk, Transition;
    if Handle(w, c).Ok? {
      if c.pipelineComplete {
        TransitionAgrees(w, Attached(w, c.id, c.results), c.id,
                         if AllSucceeded(c.results) then VERIFICATION_PENDING else FAILED, SCHEDULER);
      } else {
        SameSegmentsAgree(w, Attached(w, c.id, c.results), c.id);
      }
    }
  }

  lemma SameSegmentsAgree(w: World, w': World, id: string)
    requires Agreed(w) && id in w.episodes && id in w'.episodes && w'.episodes == w.episodes[id := w'.episodes[id]]
    requires w'.episodes[id].status == w.episodes[id].status && w'.episodes[id].segments == w.episodes[id].segments
    requires w'.annotations == w.annotations && w'.events == w.events
    ensures Agreed(w')
  {
    hide PairwiseDisjoint, WellFormed;
    forall x | x in w'.episodes ensures Agrees(w', x) {
      assert Agrees(w, x);
    }
    forall e | e in w'.events ensures ApprovalTrue(w', e) {
      assert ApprovalTrue(w, e);
    }
  }

  lemma LogAgrees(w: World, runs: seq<JobRun>)
    requires Agreed(w)
    ensures Agreed(Log(w, runs))
  {
    forall x | x in w.episodes ensures Agrees(Log(w, runs), x) {
      assert Agrees(w, x);
    }
    forall e | e in w.events ensures ApprovalTrue(Log(w, runs), e) {
      assert ApprovalTrue(w, e);
    }
  }

  lemma CreateAgrees(w: World, c: Command)
    requires Agreed(w) && (c.CreateTask? || c.CreateEpisode?)
    ensures Agreed(Apply(w, c))
  {
    hide PairwiseDisjoint, WellFormed;
    LocalStep(w, Apply(w, c), if c.CreateEpisode? && c.id !in w.episodes then c.id else "");
  }

  lemma SystemAgrees(w: World, id: string, target: EpisodeStatus, actor: Actor)
    requires Agreed(w) && target != ANNOTATION_REVIEW
    ensures var answer := Transition(w, id, target, actor); answer.Ok? ==> Agreed(answer.value.world)
  {
    hide Agreed;
    if id in w.episodes {
      TransitionAgrees(w, w, id, target, actor);
    }
  }

  ghost predicate AllSafe(commands: seq<Command>) {
    forall c :: c in commands ==> Safe(c)
  }

  lemma {:induction false} RunAgrees(w: World, commands: seq<Command>)
    requires Agreed(w) && AllSafe(commands)
    ensures Agreed(Run(w, commands))
    decreases |commands|
  {
    hide Agreed, Apply, Safe;
    if commands != [] {
      ApplyAgrees(w, commands[0]);
      RunAgrees(Apply(w, commands[0]), commands[1..]);
    }
  }

  lemma EmptyAgrees()
    ensures Agreed(EMPTY)
  {
  }

  // ---------------------------------------------------------------- the condition is exact

  /** An ordinary episode, recorded and pre-annotated with one segment and approved by the verifier. */
  function Ordinary(id: string): (r: seq<Command>)
    ensures |r| == 7
  {
    var segment := Segment("s", 0.0, 200.0, None, None, None, None);
    [CreateTask("t"), CreateEpisode(id, "t"), StartUpload(id), UploadComplete(id, UploadMeta("k", 0, "c", 0), None),
     AlgoResult(id, [AlgoJobResult(PREANNOTATE, true, [segment], [], None)], true),
     Verify(id, "a", APPROVE, "u"), AnnotationProcessing(id, true)]
  }

  lemma RunCons(w: World, c: Command, rest: seq<Command>)
    ensures Run(w, [c] + rest) == Run(Apply(w, c), rest)
  {
    assert ([c] + rest)[1..] == rest;
  }

  lemma OneResult(r: AlgoJobResult)
    requires r.operator == PREANNOTATE && r.succeeded && r.segments != [] && ResultOk(r)
    ensures SegmentsOf([r]) == Some(r.segments) && AllSucceeded([r]) && !exists x :: x in [r] && !ResultOk(x)
  {
  }

  /** Nobody has annotated or reviewed the episode yet. */
  ghost predicate FirstRevision(w: World, id: string)
    requires id in w.annotations
  {
    && w.annotations[id].segments == [] && w.annotations[id].revision == 1 && w.annotations[id].reviewed == None
    && (forall r :: r in w.history ==> r.fromStatus != ANNOTATION_REVIEW)
  }

  /** Where the first `i` commands of `Ordinary(id)` lead. */
  ghost predicate Stage(w: World, id: string, i: nat) {
    && (i == 0 ==> w == EMPTY)
    && (i >= 1 ==> "t" in w.tasks)
    && (i == 1 ==> id !in w.episodes)
    && (i >= 2 ==> id in w.episodes && w.episodes[id].taskId == "t")
    && (2 <= i <= 7 ==> w.episodes[id].status == [RECORDING, UPLOADING, PROCESSING, VERIFICATION_PENDING,
                                                  ANNOTATION_PROCESSING, ANNOTATION_PENDING][i - 2])
    && (i <= 5 ==> w.annotations == map[])
    && (i >= 5 ==> |w.episodes[id].segments| == 1)
    && (i >= 6 ==> id in w.annotations && w.annotations[id].segments == [] && w.annotations[id].revision == 1)
    && (i >= 6 ==> w.annotations[id].reviewed == None)
    && (forall r :: r in w.history ==> r.fromStatus != ANNOTATION_REVIEW)
  }

  lemma StageStep(w: World, id: string, i: nat)
    requires i < |Ordinary(id)| && Stage(w, id, i)
    ensures Stage(Apply(w, Ordinary(id)[i]), id, i + 1) && Safe(Ordinary(id)[i])
  {
    hide Ordinary, Stage, Apply, Safe;
    if i < 3 {
      Registering(w, id, i);
    } else if i == 3 {
      Uploading(w, id);
    } else if i == 4 {
      Processing(w, id);
    } else {
      Verifying(w, id, i);
    }
  }

  lemma Registering(w: World, id: string, i: nat)
    requires i < 3 && Stage(w, id, i)
    ensures Stage(Apply(w, Ordinary(id)[i]), id, i + 1) && Safe(Ordinary(id)[i])
  {
  }

  lemma Uploading(w: World, id: string)
    requires Stage(w, id, 3)
    ensures Stage(Apply(w, Ordinary(id)[3]), id, 4) && Safe(Ordinary(id)[3])
  {
    hide CanTransition, SegmentsOf, SubmitVerification, SubmitAnnotation, SubmitReview, HandleAlgoResult,
        HandleAnnotationProcessing;
  }

  lemma Processing(w: World, id: string)
    requires Stage(w, id, 4)
    ensures Stage(Apply(w, Ordinary(id)[4]), id, 5) && Safe(Ordinary(id)[4])
  {
    hide SegmentsOf, KeyFramesOf, QualityOf, RunsOf, ResultOk, AllSucceeded;
    OneResult(Ordinary(id)[4].results[0]);
  }

  lemma Verifying(w: World, id: string, i: nat)
    requires 5 <= i < 7 && Stage(w, id, i)
    ensures Stage(Apply(w, Ordinary(id)[i]), id, i + 1) && Safe(Ordinary(id)[i])
  {
  }

  lemma StageStart(id: string)
    ensures Stage(EMPTY, id, 0)
  {
  }

  lemma StageEnd(w: World, id: string)
    requires Stage(w, id, 7)
    ensures id in w.episodes && w.episodes[id].status == ANNOTATION_PENDING && |w.episodes[id].segments| == 1
    ensures id in w.annotations && FirstRevision(w, id)
  {
  }

  lemma OrdinaryRun(id: string, more: seq<Command>) returns (w: World)
    ensures w == Run(EMPTY, Ordinary(id)) && Run(EMPTY, Ordinary(id) + more) == Run(w, more)
    ensures AllSafe(Ordinary(id))
    ensures id in w.episodes && w.episodes[id].status == ANNOTATION_PENDING && |w.episodes[id].segments| == 1
    ensures id in w.annotations && FirstRevision(w, id)
  {
    hide Apply, Safe, Ordinary, Stage, FirstRevision;
    var cs := Ordinary(id);
    w := EMPTY;
    StageStart(id);
    var i := 0;
    while i < |cs|
      invariant 0 <= i <= |cs| && Stage(w, id, i) && AllSafe(cs[..i])
      invariant Run(EMPTY, cs) == Run(w, cs[i..]) && Run(EMPTY, cs + more) == Run(w, cs[i..] + more)
    {
      assert cs[i..] == [cs[i]] + cs[i + 1..] && cs[i..] + more == [cs[i]] + (cs[i + 1..] + more);
      RunCons(w, cs[i], cs[i + 1..]);
      RunCons(w, cs[i], cs[i + 1..] + more);
      StageStep(w, id, i);
      assert cs[..i + 1] == cs[..i] + [cs[i]];
      w := Apply(w, cs[i]);
      i := i + 1;
    }
    assert cs[..i] == cs && cs[i..] == [] && cs[i..] + more == more;
    StageEnd(w, id);
  }

  lemma ReportBreaks(w: World, c: Command)
    requires c.StatusReport? && c.target == ANNOTATION_REVIEW
    requires c.id in w.episodes && w.episodes[c.id].status == ANNOTATION_PENDING && |w.episodes[c.id].segments| == 1
    requires c.id in w.annotations && w.annotations[c.id].segments == []
    ensures !Agreed(Apply(w, c))
  {
    assert !Agrees(Apply(w, c), c.id);
  }

  lemma PartialResultBreaks(w: World, c: Command)
    requires c.AlgoResult? && !Safe(c)
    requires c.id in w.episodes && w.episodes[c.id].status == ANNOTATION_PENDING
    requires c.id in w.annotations && w.annotations[c.id].segments == []
    ensures !Agreed(Apply(Apply(w, Annotate(c.id, "a", [], "u")), c))
  {
    hide SegmentsOf, KeyFramesOf, QualityOf, RunsOf;
    var w' := Apply(w, Annotate(c.id, "a", [], "u"));
    SegmentsNonEmpty(c.results);
    assert !Agrees(Apply(w', c), c.id);
  }

  /** An unsafe request has a run of safe requests after which it breaks the agreement. */
  lemma UnsafeBreaks(c: Command) returns (commands: seq<Command>)
    requires !Safe(c)
    ensures AllSafe(commands) && !Agreed(Apply(Run(EMPTY, commands), c))
  {
    hide Agreed, Apply, Run;
    var ordinary := Ordinary(c.id);
    if c.StatusReport? {
      commands := ordinary;
      var w := OrdinaryRun(c.id, []);
      ReportBreaks(w, c);
    } else {
      var annotate := Annotate(c.id, "a", [], "u");
      commands := ordinary + [annotate];
      var w := OrdinaryRun(c.id, [annotate]);
      RunOne(w, annotate);
      PartialResultBreaks(w, c);
    }
  }

  lemma RunOne(w: World, c: Command)
    ensures Run(w, [c]) == Apply(w, c)
  {
    RunCons(w, c, []);
    assert [c] + [] == [c];
  }

  lemma {:induction false} SegmentsNonEmpty(results: seq<AlgoJobResult>)
    ensures SegmentsOf(results).Some? ==> SegmentsOf(results).value != [] && results != []
  {
    if results != [] {
      SegmentsNonEmpty(results[..|results| - 1]);
    }
  }

  /** The condition is exact: a request keeps the agreement after every run of safe requests
      if and only if it is safe itself. */
  lemma SafeIsExact(c: Command)
    ensures Safe(c) <==> forall commands :: AllSafe(commands) ==> Agreed(Apply(Run(EMPTY, commands), c))
  {
    hide Safe, Agreed, Run, Apply;
    if Safe(c) {
      forall commands | AllSafe(commands)
        ensures Agreed(Apply(Run(EMPTY, commands), c))
      {
        EmptyAgrees();
        RunAgrees(EMPTY, commands);
        ApplyAgrees(Run(EMPTY, commands), c);
      }
    } else {
      var commands := UnsafeBreaks(c);
    }
  }
}
