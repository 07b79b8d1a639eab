/**
 The platform's transactional core as functions on its tables: repositories, lifecycle
 service, callback service and review service. A handler and its commit are one step; a
 handler that raises changes nothing.
 (platform/app/services/episode_lifecycle.py, callbacks.py, review.py, platform/app/repositories/)
 */
module Lifecycle {
  import opened Basics
  import opened StateMachine
  import opened Segments

  // ---------------------------------------------------------------- tables

  datatype Actor = System(component: string) | User(userId: string)

  datatype KeyFrame = KeyFrame(timestampMs: nat, topic: string, objectKey: string, score: Option<real>)

  datatype QualityReport = QualityReport(
    passed: bool, blurScore: Option<real>, occlusionScore: Option<real>, issues: seq<string>)

  datatype Episode = Episode(
    taskId: string, status: EpisodeStatus, objectKey: Option<string>, sizeBytes: Option<nat>,
    checksum: Option<string>, durationMs: Option<nat>,
    segments: seq<Segment>, keyFrames: seq<KeyFrame>, quality: Option<QualityReport>)

  datatype Decision = APPROVE | REJECT

  datatype Annotation = Annotation(
    annotationId: string, segments: seq<Segment>, annotatedBy: Option<string>,
    verified: Option<Decision>, reviewed: Option<Decision>, revision: nat)

  datatype Task = Task(collectedCount: nat, publishedCount: nat)

  datatype TransitionRecord = TransitionRecord(
    episodeId: string, fromStatus: EpisodeStatus, toStatus: EpisodeStatus, actor: Actor)

  /** One line of the log of what ran automatically. */
  datatype JobRun = JobRun(episodeId: string, operator: AlgoOperator, succeeded: bool)

  datatype Event =
    | EpisodeUploaded(episodeId: string, taskId: string, objectKey: string, checksum: string)
    | AnnotationProcessingRequested(episodeId: string, taskId: string, verifiedBy: string)
    | EpisodeRejected(episodeId: string, taskId: string, rejectedBy: string)
    | AnnotationApproved(episodeId: string, taskId: string, annotationId: string, segmentCount: nat, approvedBy: string)

  /** The database together with the sequence of events published so far. */
  datatype World = World(
    episodes: map<string, Episode>,
    annotations: map<string, Annotation>,
    tasks: map<string, Task>,
    history: seq<TransitionRecord>,
    events: seq<Event>,
    jobRuns: seq<JobRun>)

  datatype Failure =
    | EpisodeNotFound | TaskNotFound | AnnotationNotFound | AlreadyExists
    | InvalidTransition | UnexpectedStatus | ChecksumMismatch | ValidationError

  datatype Outcome = Outcome(world: World, changed: bool)

  type Answer = Result<Outcome, Failure>

  const UPLOAD_CALLBACK := System("upload_callback")
  const SCHEDULER := System("scheduler")
  const AGENT_REPORT := System("agent_report")

  // ---------------------------------------------------------------- repositories

  /** `apply_transition`, with its history record; it does not judge legality. */
  function ApplyTransition(w: World, id: string, target: EpisodeStatus, actor: Actor): World
    requires id in w.episodes
  {
    var row := w.episodes[id];
    if row.status == target then w
    else w.(episodes := w.episodes[id := row.(status := target)],
            history := w.history + [TransitionRecord(id, row.status, target, actor)])
  }

  function ReplaceSegments(w: World, id: string, segments: seq<Segment>): World
    requires id in w.episodes
  {
    w.(episodes := w.episodes[id := w.episodes[id].(segments := segments)])
  }

  /** `attach_processing_result`: what is not given keeps its value. */
  function AttachProcessingResult(w: World, id: string, segments: Option<seq<Segment>>,
                                  keyFrames: Option<seq<KeyFrame>>,
                                  quality: Option<QualityReport>): World
    requires id in w.episodes
  {
    if segments.None? && keyFrames.None? && quality.None? then w
    else
      var row := w.episodes[id];
      w.(episodes := w.episodes[id := row.(
          segments := if segments.Some? then segments.value else row.segments,
          keyFrames := if keyFrames.Some? then keyFrames.value else row.keyFrames,
          quality := if quality.Some? then quality else row.quality)])
  }

  /** The job-run log only grows, by one line per result and callback. */
  function Log(w: World, runs: seq<JobRun>): World {
    w.(jobRuns := w.jobRuns + runs)
  }

  function AttachUploadResult(w: World, id: string, meta: UploadMeta): World
    requires id in w.episodes
  {
    w.(episodes := w.episodes[id := w.episodes[id].(
        objectKey := Some(meta.objectKey), sizeBytes := Some(meta.sizeBytes),
        checksum := Some(meta.checksum), durationMs := Some(meta.durationMs))])
  }

  function UpsertVerifyResult(w: World, annotationId: string, id: string, decision: Decision): World {
    w.(annotations := w.annotations[id :=
        if id in w.annotations then w.annotations[id].(verified := Some(decision))
        else Annotation(annotationId, [], None, Some(decision), None, 1)])
  }

  function SaveSegments(w: World, annotationId: string, id: string, segments: seq<Segment>, user: string): World {
    w.(annotations := w.annotations[id :=
        if id in w.annotations then w.annotations[id].(segments := segments, annotatedBy := Some(user))
        else Annotation(annotationId, segments, Some(user), None, None, 1)])
  }

  /** `save_review_result`: a returned annotation gets the next revision number. */
  function SaveReviewResult(w: World, id: string, decision: Decision): World
    requires id in w.annotations
  {
    var row := w.annotations[id];
    w.(annotations := w.annotations[id := row.(reviewed := Some(decision),
                                               revision := row.revision + (if decision == REJECT then 1 else 0))])
  }

  function IncrementCounters(w: World, task: string, collected: nat, published: nat): Result<World, Failure> {
    if task !in w.tasks then Err(TaskNotFound)
    else
      var row := w.tasks[task];
      Ok(w.(tasks := w.tasks[task := Task(row.collectedCount + collected, row.publishedCount + published)]))
  }

  function Publish(w: World, event: Event): World {
    w.(events := w.events + [event])
  }

  // ---------------------------------------------------------------- lifecycle service

  /** The guarded transition; reaching the current status again is a replay, not an error. */
  function Transition(w: World, id: string, target: EpisodeStatus, actor: Actor): Answer {
    if id !in w.episodes then Err(EpisodeNotFound)
    else if w.episodes[id].status == target then Ok(Outcome(w, false))
    else if !CanTransition(w.episodes[id].status, target) then Err(InvalidTransition)
    else Ok(Outcome(ApplyTransition(w, id, target, actor), true))
  }

  datatype UploadMeta = UploadMeta(objectKey: string, sizeBytes: nat, checksum: string, durationMs: nat)

  /** `mark_uploaded`: into UPLOADED, publish, and on into PROCESSING. */
  function MarkUploaded(w: World, id: string, meta: UploadMeta): Answer {
    if id !in w.episodes then Err(EpisodeNotFound)
    else if w.episodes[id].status != UPLOADING then Ok(Outcome(w, false))
    else
      var uploaded := ApplyTransition(AttachUploadResult(w, id, meta), id, UPLOADED, UPLOAD_CALLBACK);
      var announced := Publish(uploaded, EpisodeUploaded(id, w.episodes[id].taskId, meta.objectKey, meta.checksum));
      Ok(Outcome(ApplyTransition(announced, id, PROCESSING, UPLOAD_CALLBACK), true))
  }

  function FinishProcessing(w: World, id: string, succeeded: bool): Answer {
    Transition(w, id, if succeeded then VERIFICATION_PENDING else FAILED, SCHEDULER)
  }

  function FinishAnnotationProcessing(w: World, id: string, succeeded: bool): Answer {
    Transition(w, id, if succeeded then ANNOTATION_PENDING else FAILED, SCHEDULER)
  }

  /** The event that a user's transition announces, once it has really happened. */
  function Announce(answer: Answer, event: World -> Event): Answer {
    if answer.Ok? && answer.value.changed then
      Ok(Outcome(Publish(answer.value.world, event(answer.value.world)), true))
    else answer
  }

  function TaskOf(w: World, id: string): string {
    if id in w.episodes then w.episodes[id].taskId else ""
  }

  function RequestAnnotationProcessing(w: World, id: string, user: string): Answer {
    Announce(Transition(w, id, ANNOTATION_PROCESSING, User(user)),
             (after: World) => AnnotationProcessingRequested(id, TaskOf(after, id), user))
  }

  function Reject(w: World, id: string, user: string): Answer {
    Announce(Transition(w, id, REJECTED, User(user)), (after: World) => EpisodeRejected(id, TaskOf(after, id), user))
  }

  function PublishEpisode(w: World, id: string, annotationId: string, segmentCount: nat, user: string): Answer {
    Announce(Transition(w, id, PUBLISHED, User(user)),
             (after: World) => AnnotationApproved(id, TaskOf(after, id), annotationId, segmentCount, user))
  }

  /** `assert_actionable`: the failure, if the episode is not where the operation expects it. */
  function Actionable(w: World, id: string, expected: EpisodeStatus): Option<Failure> {
    if id !in w.episodes then Some(EpisodeNotFound)
    else if w.episodes[id].status != expected then Some(UnexpectedStatus)
    else None
  }

  // ---------------------------------------------------------------- callback service

  datatype AlgoJobResult = AlgoJobResult(
    operator: AlgoOperator, succeeded: bool, segments: seq<Segment>, keyFrames: seq<KeyFrame>,
    quality: Option<QualityReport>)

  /** The pre-annotation to store: that of the last pre-annotation result that has any. */
  function SegmentsOf(results: seq<AlgoJobResult>): Option<seq<Segment>> {
    if results == [] then None
    else
      var last := results[|results| - 1];
      if last.operator == PREANNOTATE && last.segments != [] then Some(last.segments)
      else SegmentsOf(results[..|results| - 1])
  }

  function KeyFramesOf(results: seq<AlgoJobResult>): Option<seq<KeyFrame>> {
    if results == [] then None
    else
      var last := results[|results| - 1];
      if last.operator == KEYFRAME && last.keyFrames != [] then Some(last.keyFrames)
      else KeyFramesOf(results[..|results| - 1])
  }

  function QualityOf(results: seq<AlgoJobResult>): Option<QualityReport> {
    if results == [] then None
    else
      var last := results[|results| - 1];
      if last.operator == QUALITY && last.quality.Some? then last.quality
      else QualityOf(results[..|results| - 1])
  }

  function RunsOf(id: string, results: seq<AlgoJobResult>): seq<JobRun> {
    if results == [] then []
    else
      var last := results[|results| - 1];
      RunsOf(id, results[..|results| - 1]) + [JobRun(id, last.operator, last.succeeded)]
  }

  predicate AllSucceeded(results: seq<AlgoJobResult>) {
    forall r :: r in results ==> r.succeeded
  }

  predicate WellFormed(segments: seq<Segment>) {
    forall s :: s in segments ==> SegmentOk(s)
  }

  /** What the contract accepts as the products of one operator run. */
  predicate ResultOk(r: AlgoJobResult) {
    && WellFormed(r.segments)
    && (forall f :: f in r.keyFrames ==> InUnit(f.score))
    && (r.quality.Some? ==> InUnit(r.quality.value.blurScore) && InUnit(r.quality.value.occlusionScore))
  }

  /** The segments that the contract accepts as a submission: each well-formed, and no overlap found. */
  predicate Submittable(segments: seq<Segment>) {
    WellFormed(segments) && NeighbourOverlaps(SortByStart(segments), 1) == []
  }

  function Count(w: World, answer: Answer, id: string, collected: nat, published: nat): Answer {
    if answer.Ok? && answer.value.changed then
      match IncrementCounters(answer.value.world, TaskOf(w, id), collected, published)
      case Err(e) => Err(e)
      case Ok(counted) => Ok(Outcome(counted, true))
    else answer
  }

  /** `stored` is the platform's own checksum of the uploaded object, if it is there. */
  function HandleUploadComplete(w: World, id: string, meta: UploadMeta, stored: Option<string>): Answer {
    if stored.Some? && stored.value != meta.checksum then Err(ChecksumMismatch)
    else Count(w, MarkUploaded(w, id, meta), id, 1, 0)
  }

  /** The results logged and their products stored. */
  function Attached(w: World, id: string, results: seq<AlgoJobResult>): World
    requires id in w.episodes
  {
    AttachProcessingResult(Log(w, RunsOf(id, results)), id, SegmentsOf(results), KeyFramesOf(results),
        QualityOf(results))
  }

  function HandleAlgoResult(w: World, id: string, results: seq<AlgoJobResult>, pipelineComplete: bool): Answer {
    if results == [] || exists r :: r in results && !ResultOk(r) then Err(ValidationError)
    else if id !in w.episodes then Err(EpisodeNotFound)
    else
      var attached := Attached(w, id, results);
      if !pipelineComplete then Ok(Outcome(attached, false))
      else FinishProcessing(attached, id, AllSucceeded(results))
  }

  function HandleAnnotationProcessing(w: World, id: string, succeeded: bool): Answer {
    FinishAnnotationProcessing(Log(w, [JobRun(id, ANNOTATION_PROCESSING_RUN, succeeded)]), id, succeeded)
  }

  // ---------------------------------------------------------------- review service

  function SubmitVerification(w: World, id: string, annotationId: string, decision: Decision, user: string): Answer {
    var bad := Actionable(w, id, VERIFICATION_PENDING);
    if bad.Some? then Err(bad.value)
    else
      var noted := UpsertVerifyResult(w, annotationId, id, decision);
      if decision == REJECT then Reject(noted, id, user) else RequestAnnotationProcessing(noted, id, user)
  }

  function SubmitAnnotation(w: World, id: string, annotationId: string, segments: seq<Segment>, user: string): Answer {
    if !Submittable(segments) then Err(ValidationError)
    else
      var bad := Actionable(w, id, ANNOTATION_PENDING);
      if bad.Some? then Err(bad.value)
      else
        var saved := ReplaceSegments(SaveSegments(w, annotationId, id, segments, user), id, segments);
        Transition(saved, id, ANNOTATION_REVIEW, User(user))
  }

  function SubmitReview(w: World, id: string, decision: Decision, user: string): Answer {
    var bad := Actionable(w, id, ANNOTATION_REVIEW);
    if bad.Some? then Err(bad.value)
    else if id !in w.annotations then Err(AnnotationNotFound)
    else
      var saved := SaveReviewResult(w, id, decision);
      if decision == REJECT then Transition(saved, id, ANNOTATION_PENDING, User(user))
      else
        var row := saved.annotations[id];
        Count(w, PublishEpisode(saved, id, row.annotationId, |row.segments|, user), id, 0, 1)
  }

  // ---------------------------------------------------------------- runs

  datatype Command =
    | CreateTask(taskId: string)
    | CreateEpisode(id: string, taskId: string)
    | StartUpload(id: string)
    | StatusReport(id: string, target: EpisodeStatus)
    | UploadComplete(id: string, meta: UploadMeta, stored: Option<string>)
    | AlgoResult(id: string, results: seq<AlgoJobResult>, pipelineComplete: bool)
    | AnnotationProcessing(id: string, succeeded: bool)
    | Verify(id: string, annotationId: string, decision: Decision, user: string)
    | Annotate(id: string, annotationId: string, segments: seq<Segment>, user: string)
    | Review(id: string, decision: Decision, user: string)

  function NewEpisode(task: string): Episode {
    Episode(task, INITIAL_STATE, None, None, None, None, [], [], None)
  }

  function Handle(w: World, c: Command): Answer {
    match c
    case CreateTask(task) =>
      if task in w.tasks then Err(AlreadyExists) else Ok(Outcome(w.(tasks := w.tasks[task := Task(0, 0)]), true))
    case CreateEpisode(id, task) =>
      if id in w.episodes then Err(AlreadyExists)
      else Ok(Outcome(w.(episodes := w.episodes[id := NewEpisode(task)]), true))
    case StartUpload(id) => Transition(w, id, UPLOADING, AGENT_REPORT)
    case StatusReport(id, target) => Transition(w, id, target, AGENT_REPORT)
    case UploadComplete(id, meta, stored) => HandleUploadComplete(w, id, meta, stored)
    case AlgoResult(id, results, complete) => HandleAlgoResult(w, id, results, complete)
    case AnnotationProcessing(id, succeeded) => HandleAnnotationProcessing(w, id, succeeded)
    case Verify(id, annotationId, decision, user) => SubmitVerification(w, id, annotationId, decision, user)
    case Annotate(id, annotationId, segments, user) => SubmitAnnotation(w, id, annotationId, segments, user)
    case Review(id, decision, user) => SubmitReview(w, id, decision, user)
  }

  /** One committed step, or a rolled-back one. */
  function Apply(w: World, c: Command): World {
    match Handle(w, c)
    case Ok(outcome) => outcome.world
    case Err(_) => w
  }

  const EMPTY := World(map[], map[], map[], [], [], [])

  /** Any interleaving of commands for any number of episodes, replays included. */
  function Run(w: World, commands: seq<Command>): World
    decreases |commands|
  {
    if commands == [] then w else Run(Apply(w, commands[0]), commands[1..])
  }
}
