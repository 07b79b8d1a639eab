/**
 What the platform answers to a request about an episode, as a table of the documented steps:
 when it refuses and why, which status the episode gets, who is on record for it, and what is
 stored (contract/src/rdh_contract/state_machine.py, platform/app/services/).
 */
module Answers {
  import opened Basics
  import opened StateMachine
  import opened Segments
  import opened Lifecycle
  import opened LifecycleTheorems

  // ---------------------------------------------------------------- statuses

  function ToFailed(status: EpisodeStatus): Option<EpisodeStatus> {
    if status in {RECORDING, UPLOADING, UPLOADED, PROCESSING, ANNOTATION_PROCESSING, FAILED} then Some(FAILED) else None
  }

  predicate MismatchedUpload(c: Command) {
    c.UploadComplete? && c.stored.Some? && c.stored.value != c.meta.checksum
  }

  /** The status that a request gives an episode, or none where the request is out of place. */
  function Destination(status: EpisodeStatus, c: Command): Option<EpisodeStatus> {
    match c
    case StartUpload(_) => if status in {RECORDING, UPLOADING} then Some(UPLOADING) else None
    case StatusReport(_, target) => if status == target || CanTransition(status, target) then Some(target) else None
    case UploadComplete(_, _, _) => Some(if status == UPLOADING then PROCESSING else status)
    case AlgoResult(_, results, complete) =>
      if !complete then Some(status)
      else if exists r :: r in results && !r.succeeded then ToFailed(status)
      else if status in {PROCESSING, VERIFICATION_PENDING} then Some(VERIFICATION_PENDING)
      else None
    case AnnotationProcessing(_, succeeded) =>
      if !succeeded then ToFailed(status)
      else if status in {ANNOTATION_PROCESSING, ANNOTATION_REVIEW, ANNOTATION_PENDING} then Some(ANNOTATION_PENDING)
      else None
    case Verify(_, _, decision, _) =>
      if status != VERIFICATION_PENDING then None
      else Some(if decision == APPROVE then ANNOTATION_PROCESSING else REJECTED)
    case Annotate(_, _, _, _) => if status == ANNOTATION_PENDING then Some(ANNOTATION_REVIEW) else None
    case Review(_, decision, _) =>
      if status != ANNOTATION_REVIEW then None
      else Some(if decision == APPROVE then PUBLISHED else ANNOTATION_PENDING)
    case _ => Some(status)
  }

  predicate AboutEpisode(c: Command) {
    !c.CreateTask? && !c.CreateEpisode?
  }

  /** A person acts on an episode only in the one status that waits for it. */
  predicate ByPerson(c: Command) {
    c.Verify? || c.Annotate? || c.Review?
  }

  /** What the request itself is refused for, whatever the database holds. */
  function Malformed(c: Command): Option<Failure> {
    if MismatchedUpload(c) then Some(ChecksumMismatch)
    else if c.AlgoResult? && (c.results == [] || exists r :: r in c.results && !ResultOk(r)) then Some(ValidationError)
    else if c.Annotate? && !Submittable(c.segments) then Some(ValidationError)
    else None
  }

  /** An upload or an approval that moves the episode is counted for its task. */
  predicate Counted(status: EpisodeStatus, c: Command) {
    (c.UploadComplete? && status == UPLOADING) || (c.Review? && c.decision == APPROVE)
  }

  /** Why a request is refused, if it is. */
  function Refusal(w: World, c: Command): Option<Failure>
    requires AboutEpisode(c)
  {
    if Malformed(c).Some? then Malformed(c)
    else if c.id !in w.episodes then Some(EpisodeNotFound)
    else
      var row := w.episodes[c.id];
      if Destination(row.status, c).None? then Some(if ByPerson(c) then UnexpectedStatus else InvalidTransition)
      else if c.Review? && c.id !in w.annotations then Some(AnnotationNotFound)
      else if Counted(row.status, c) && row.taskId !in w.tasks then Some(TaskNotFound)
      else None
  }

  /** Who is on record for the step. */
  function ActorOf(c: Command): Actor
    requires AboutEpisode(c)
  {
    match c
    case StartUpload(_) => System("agent_report")
    case StatusReport(_, _) => System("agent_report")
    case UploadComplete(_, _, _) => System("upload_callback")
    case AlgoResult(_, _, _) => System("scheduler")
    case AnnotationProcessing(_, _) => System("scheduler")
    case Verify(_, _, _, user) => User(user)
    case Annotate(_, _, _, user) => User(user)
    case Review(_, _, user) => User(user)
  }

  /** The steps on record: one for a change of status, and two for an upload, which passes UPLOADED. */
  function StepsOf(id: string, status: EpisodeStatus, target: EpisodeStatus, c: Command): seq<TransitionRecord>
    requires AboutEpisode(c)
  {
    if status == target then []
    else if c.UploadComplete? then
      [TransitionRecord(id, status, UPLOADED, ActorOf(c)), TransitionRecord(id, UPLOADED, target, ActorOf(c))]
    else [TransitionRecord(id, status, target, ActorOf(c))]
  }

  /** The answer is the table's. */
  ghost predicate Follows(w: World, c: Command)
    requires AboutEpisode(c)
  {
    match Handle(w, c)
    case Err(failure) => Refusal(w, c) == Some(failure)
    case Ok(outcome) =>
      && Refusal(w, c) == None
      && c.id in w.episodes && c.id in outcome.world.episodes
      && var was, now := w.episodes[c.id].status, outcome.world.episodes[c.id].status;
         && Destination(was, c) == Some(now)
         && (outcome.changed <==> was != now)
         && outcome.world.history == w.history + StepsOf(c.id, was, now, c)
         && outcome.world.episodes == w.episodes[c.id := outcome.world.episodes[c.id]]
  }

  lemma TransitionFollows(w: World, id: string, target: EpisodeStatus, actor: Actor)
    ensures match Transition(w, id, target, actor)
            case Err(failure) =>
              if id !in w.episodes then failure == EpisodeNotFound
              else failure == InvalidTransition && w.episodes[id].status != target
                   && !CanTransition(w.episodes[id].status, target)
            case Ok(outcome) =>
              && id in w.episodes && id in outcome.world.episodes
              && var was, now := w.episodes[id].status, outcome.world.episodes[id].status;
                 && now == target && (was == target || CanTransition(was, target)) && (outcome.changed <==> was != now)
                 && outcome.world.history
                    == w.history + (if was == now then [] else [TransitionRecord(id, was, now, actor)])
                 && outcome.world.episodes == w.episodes[id := outcome.world.episodes[id]]
  {
  }

  lemma ReportFollows(w: World, c: Command)
    requires c.StartUpload? || c.StatusReport?
    ensures Follows(w, c)
  {
    TransitionFollows(w, c.id, if c.StartUpload? then UPLOADING else c.target, AGENT_REPORT);
    hide Transition;
  }

  lemma UploadFollows(w: World, c: Command)
    requires c.UploadComplete?
    ensures Follows(w, c)
  {
  }

  lemma AttachedKeeps(w: World, id: string, results: seq<AlgoJobResult>)
    requires id in w.episodes
    ensures var attached := Attached(w, id, results);
            && attached.history == w.history && id in attached.episodes
            && attached.episodes == w.episodes[id := attached.episodes[id]]
            && attached.episodes[id].status == w.episodes[id].status
  {
    hide SegmentsOf, KeyFramesOf, QualityOf, RunsOf;
  }

  lemma ResultFollows(w: World, c: Command)
    requires c.AlgoResult?
    ensures Follows(w, c)
  {
    hide ResultOk, Transition, Attached;
    if c.id in w.episodes {
      AttachedKeeps(w, c.id, c.results);
      TransitionFollows(Attached(w, c.id, c.results), c.id,
                        if AllSucceeded(c.results) then VERIFICATION_PENDING else FAILED, SCHEDULER);
    }
  }

  lemma ProcessingFollows(w: World, c: Command)
    requires c.AnnotationProcessing?
    ensures Follows(w, c)
  {
    TransitionFollows(Log(w, [JobRun(c.id, ANNOTATION_PROCESSING_RUN, c.succeeded)]), c.id,
                      if c.succeeded then ANNOTATION_PENDING else FAILED, SCHEDULER);
    hide Transition;
  }

  lemma VerifyFollows(w: World, c: Command)
    requires c.Verify?
    ensures Follows(w, c)
  {
  }

  lemma AnnotateFollows(w: World, c: Command)
    requires c.Annotate?
    ensures Follows(w, c)
  {
    hide Submittable;
  }

  lemma ReviewFollows(w: World, c: Command)
    requires c.Review?
    ensures Follows(w, c)
  {
  }

  /** Every request in every state of the database is answered as the table says. */
  lemma AnswersFollowTheTable(w: World, c: Command)
    requires AboutEpisode(c)
    ensures Follows(w, c)
  {
    hide Follows;
    match c
    case StartUpload(_) => ReportFollows(w, c);
    case StatusReport(_, _) => ReportFollows(w, c);
    case UploadComplete(_, _, _) => UploadFollows(w, c);
    case AlgoResult(_, _, _) => ResultFollows(w, c);
    case AnnotationProcessing(_, _) => ProcessingFollows(w, c);
    case Verify(_, _, _, _) => VerifyFollows(w, c);
    case Annotate(_, _, _, _) => AnnotateFollows(w, c);
    case Review(_, _, _) => ReviewFollows(w, c);
  }

  // ---------------------------------------------------------------- the declared checksum

  /** A report whose checksum is not the stored object's changes nothing, whatever state the platform is in. */
  lemma MismatchIsRefused(w: World, c: Command)
    requires MismatchedUpload(c)
    ensures Handle(w, c) == Err(ChecksumMismatch) && Apply(w, c) == w
  {
    AnswersFollowTheTable(w, c);
  }

  /** The event comes from this request, and the platform found no other checksum than the announced one. */
  ghost predicate Announces(c: Command, e: Event) {
    && e.EpisodeUploaded? && c.UploadComplete? && c.id == e.episodeId
    && c.meta.objectKey == e.objectKey && c.meta.checksum == e.checksum
    && (c.stored.None? || c.stored.value == e.checksum)
  }

  lemma NewUploadIsChecked(w: World, c: Command, e: Event)
    requires e in Apply(w, c).events && e !in w.events && e.EpisodeUploaded?
    ensures Announces(c, e)
  {
    OnlyUploadsAnnounce(w, c, e);
    if MismatchedUpload(c) {
      MismatchIsRefused(w, c);
    }
    hide CanTransition;
  }

  /** In every run each upload event was asked for by a report with the event's key and checksum, and the object that
      was stored then had that checksum, unless there was none. */
  lemma {:induction false} AnnouncedUploadsWereChecked(w: World, commands: seq<Command>, e: Event)
    requires e in Run(w, commands).events && e !in w.events && e.EpisodeUploaded?
    ensures exists c :: c in commands && Announces(c, e)
    decreases |commands|
  {
    hide Apply, Announces;
    if commands != [] {
      var c := commands[0];
      if e in Apply(w, c).events {
        NewUploadIsChecked(w, c, e);
        assert c in commands;
      } else {
        AnnouncedUploadsWereChecked(Apply(w, c), commands[1..], e);
        var d :| d in commands[1..] && Announces(d, e);
        assert d in commands;
      }
    }
  }

  /** What the report said about the recording. */
  ghost predicate HoldsUpload(w: World, id: string, meta: UploadMeta) {
    && id in w.episodes && w.episodes[id].status !in {RECORDING, UPLOADING}
    && w.episodes[id].objectKey == Some(meta.objectKey) && w.episodes[id].sizeBytes == Some(meta.sizeBytes)
    && w.episodes[id].checksum == Some(meta.checksum) && w.episodes[id].durationMs == Some(meta.durationMs)
  }

  lemma UploadIsStored(w: World, c: Command)
    requires c.UploadComplete? && Handle(w, c).Ok? && Handle(w, c).value.changed
    ensures HoldsUpload(Apply(w, c), c.id, c.meta)
  {
  }

  /** The first report that is accepted decides for good what the database says about the recording. */
  lemma UploadIsStoredForGood(w: World, c: Command, commands: seq<Command>)
    requires c.UploadComplete? && Handle(w, c).Ok? && Handle(w, c).value.changed
    ensures HoldsUpload(Run(Apply(w, c), commands), c.id, c.meta)
  {
    hide Run, Apply, HoldsUpload;
    UploadIsStored(w, c);
    RunHoldsUpload(Apply(w, c), commands, c.id, c.meta);
  }

  lemma {:induction false} RunHoldsUpload(w: World, commands: seq<Command>, id: string, meta: UploadMeta)
    requires HoldsUpload(w, id, meta)
    ensures HoldsUpload(Run(w, commands), id, meta)
    decreases |commands|
  {
    hide Apply;
    if commands != [] {
      StepForward(w, commands[0], id);
      StepKeepsUpload(w, commands[0], id);
      LaterStages(w.episodes[id].status, Apply(w, commands[0]).episodes[id].status);
      RunHoldsUpload(Apply(w, commands[0]), commands[1..], id, meta);
    }
  }

  // ---------------------------------------------------------------- which product counts

  /** Result number `i` is the last one that brings segments. */
  ghost predicate LastSegments(results: seq<AlgoJobResult>, i: int) {
    && 0 <= i < |results| && results[i].operator == PREANNOTATE && results[i].segments != []
    && forall j :: i < j < |results| && results[j].operator == PREANNOTATE ==> results[j].segments == []
  }

  lemma {:induction false} SegmentsAreTheLast(results: seq<AlgoJobResult>)
    ensures SegmentsOf(results).None? <==>
            forall r :: r in results && r.operator == PREANNOTATE ==> r.segments == []
    ensures forall i :: LastSegments(results, i) ==> SegmentsOf(results) == Some(results[i].segments)
  {
    if results != [] {
      SegmentsAreTheLast(results[..|results| - 1]);
      assert results == results[..|results| - 1] + [results[|results| - 1]];
      forall i | LastSegments(results, i) ensures SegmentsOf(results) == Some(results[i].segments) {
        if i < |results| - 1 {
          assert LastSegments(results[..|results| - 1], i);
        }
      }
    }
  }

  ghost predicate LastKeyFrames(results: seq<AlgoJobResult>, i: int) {
    && 0 <= i < |results| && results[i].operator == KEYFRAME && results[i].keyFrames != []
    && forall j :: i < j < |results| && results[j].operator == KEYFRAME ==> results[j].keyFrames == []
  }

  lemma {:induction false} KeyFramesAreTheLast(results: seq<AlgoJobResult>)
    ensures KeyFramesOf(results).None? <==>
            forall r :: r in results && r.operator == KEYFRAME ==> r.keyFrames == []
    ensures forall i :: LastKeyFrames(results, i) ==> KeyFramesOf(results) == Some(results[i].keyFrames)
  {
    if results != [] {
      KeyFramesAreTheLast(results[..|results| - 1]);
      assert results == results[..|results| - 1] + [results[|results| - 1]];
      forall i | LastKeyFrames(results, i) ensures KeyFramesOf(results) == Some(results[i].keyFrames) {
        if i < |results| - 1 {
          assert LastKeyFrames(results[..|results| - 1], i);
        }
      }
    }
  }

  ghost predicate LastQuality(results: seq<AlgoJobResult>, i: int) {
    && 0 <= i < |results| && results[i].operator == QUALITY && results[i].quality.Some?
    && forall j :: i < j < |results| && results[j].operator == QUALITY ==> results[j].quality.None?
  }

  lemma {:induction false} QualityIsTheLast(results: seq<AlgoJobResult>)
    ensures QualityOf(results).None? <==> forall r :: r in results && r.operator == QUALITY ==> r.quality.None?
    ensures forall i :: LastQuality(results, i) ==> QualityOf(results) == results[i].quality
  {
    if results != [] {
      QualityIsTheLast(results[..|results| - 1]);
      assert results == results[..|results| - 1] + [results[|results| - 1]];
      forall i | LastQuality(results, i) ensures QualityOf(results) == results[i].quality {
        if i < |results| - 1 {
          assert LastQuality(results[..|results| - 1], i);
        }
      }
    }
  }

  lemma {:induction false} RunsAreLogged(id: string, results: seq<AlgoJobResult>)
    ensures |RunsOf(id, results)| == |results|
    ensures forall i :: 0 <= i < |results| ==>
              RunsOf(id, results)[i] == JobRun(id, results[i].operator, results[i].succeeded)
  {
    if results != [] {
      RunsAreLogged(id, results[..|results| - 1]);
    }
  }

  /** What a pipeline result leaves in the database: its last products, in place of the old ones where it has any, and
      one line of the log for each result, in their order. */
  lemma ResultIsStored(w: World, c: Command)
    requires c.AlgoResult? && Handle(w, c).Ok?
    ensures c.id in w.episodes && c.id in Apply(w, c).episodes
    ensures var was, now := w.episodes[c.id], Apply(w, c).episodes[c.id];
            && now.segments == (match SegmentsOf(c.results) case Some(s) => s case None => was.segments)
            && now.keyFrames == (match KeyFramesOf(c.results) case Some(k) => k case None => was.keyFrames)
            && now.quality == (if QualityOf(c.results).Some? then QualityOf(c.results) else was.quality)
            && Apply(w, c).jobRuns[|w.jobRuns|..] == RunsOf(c.id, c.results)
  {
    hide SegmentsOf, KeyFramesOf, QualityOf, RunsOf, ResultOk, AllSucceeded, CanTransition;
  }

  // ---------------------------------------------------------------- what people leave behind

  /** Only this episode's annotation may differ. */
  ghost predicate OnlyAnnotation(w: World, w': World, id: string) {
    id in w'.annotations && w'.annotations == w.annotations[id := w'.annotations[id]]
  }

  lemma VerdictIsStored(w: World, c: Command)
    requires c.Verify? && Handle(w, c).Ok?
    ensures OnlyAnnotation(w, Apply(w, c), c.id)
    ensures Apply(w, c).annotations[c.id]
         == if c.id in w.annotations then w.annotations[c.id].(verified := Some(c.decision))
            else Annotation(c.annotationId, [], None, Some(c.decision), None, 1)
  {
  }

  lemma SubmissionIsStored(w: World, c: Command)
    requires c.Annotate? && Handle(w, c).Ok?
    ensures OnlyAnnotation(w, Apply(w, c), c.id) && c.id in Apply(w, c).episodes
    ensures Apply(w, c).episodes[c.id].segments == c.segments
    ensures Apply(w, c).annotations[c.id]
         == if c.id in w.annotations then w.annotations[c.id].(segments := c.segments, annotatedBy := Some(c.user))
            else Annotation(c.annotationId, c.segments, Some(c.user), None, None, 1)
  {
    hide Submittable;
  }

  lemma ReviewIsStored(w: World, c: Command)
    requires c.Review? && Handle(w, c).Ok?
    ensures OnlyAnnotation(w, Apply(w, c), c.id) && c.id in w.annotations
    ensures var was, now := w.annotations[c.id], Apply(w, c).annotations[c.id];
            && now == was.(reviewed := Some(c.decision), revision := now.revision)
            && now.revision == was.revision + (if c.decision == REJECT then 1 else 0)
  {
  }

  // ---------------------------------------------------------------- what the contract refuses

  predicate Outside(x: Option<real>) {
    x.Some? && (x.value < 0.0 || x.value > 1.0)
  }

  /** Something of the result is out of the contract's bounds. */
  ghost predicate OutOfBounds(r: AlgoJobResult) {
    || (exists s :: s in r.segments && !SegmentOk(s))
    || (exists f :: f in r.keyFrames && Outside(f.score))
    || (r.quality.Some? && (Outside(r.quality.value.blurScore) || Outside(r.quality.value.occlusionScore)))
  }

  /** A pipeline result is refused as malformed if and only if it is empty or one of its products is out of bounds. */
  lemma MalformedResultsAreRefused(w: World, c: Command)
    requires c.AlgoResult?
    ensures Handle(w, c) == Err(ValidationError) <==> c.results == [] || exists r :: r in c.results && OutOfBounds(r)
  {
    AnswersFollowTheTable(w, c);
    forall r | r in c.results ensures OutOfBounds(r) <==> !ResultOk(r) {
    }
    hide Handle, Follows, ResultOk, OutOfBounds;
    TableOfResults(w, c);
  }

  lemma TableOfResults(w: World, c: Command)
    requires c.AlgoResult? && Follows(w, c)
    ensures Handle(w, c) == Err(ValidationError) <==> c.results == [] || exists r :: r in c.results && !ResultOk(r)
  {
    hide Handle, ResultOk;
  }

  /** Tasks and episodes are created once: a task with counters at zero, an episode in RECORDING with nothing else. */
  lemma CreationIsExact(w: World, c: Command)
    requires !AboutEpisode(c)
    ensures match c
            case CreateTask(task) =>
              if task in w.tasks then Handle(w, c) == Err(AlreadyExists)
              else Handle(w, c) == Ok(Outcome(w.(tasks := w.tasks[task := Task(0, 0)]), true))
            case CreateEpisode(id, task) =>
              if id in w.episodes then Handle(w, c) == Err(AlreadyExists)
              else
                var recording := Episode(task, RECORDING, None, None, None, None, [], [], None);
                Handle(w, c) == Ok(Outcome(w.(episodes := w.episodes[id := recording]), true))
            case _ => true
  {
  }
}
