/**
 The platform's services as they run: they assign row fields, append records and events,
 and a request handler commits or rolls back. Each method is proved to be the function of
 the same name in `Lifecycle`, about which the theorems are.
 */
module PlatformServices {
  import opened Basics
  import opened StateMachine
  import opened Segments
  import L = Lifecycle

  /** One database session with its repositories, and the publisher's log. */
  class Session {
    var episodes: map<string, L.Episode>
    var annotations: map<string, L.Annotation>
    var tasks: map<string, L.Task>
    var history: seq<L.TransitionRecord>
    var events: seq<L.Event>
    var jobRuns: seq<L.JobRun>
    var committed: L.World

    constructor ()
      ensures State() == L.EMPTY && committed == L.EMPTY
    {
      episodes, annotations, tasks, history, events, jobRuns := map[], map[], map[], [], [], [];
      committed := L.EMPTY;
    }

    function State(): L.World
      reads this
    {
      L.World(episodes, annotations, tasks, history, events, jobRuns)
    }

    method Commit()
      modifies `committed
      ensures committed == State()
    {
      committed := State();
    }

    method Rollback()
      modifies this
      ensures State() == committed == old(committed)
    {
      episodes, annotations, tasks := committed.episodes, committed.annotations, committed.tasks;
      history, events, jobRuns := committed.history, committed.events, committed.jobRuns;
    }

    /** Assigns the status and records the step; reaching the status again records nothing. */
    method ApplyTransition(id: string, target: EpisodeStatus, actor: L.Actor) returns (changed: bool)
      requires id in episodes
      modifies `episodes, `history
      ensures State() == L.ApplyTransition(old(State()), id, target, actor)
      ensures changed <==> old(episodes)[id].status != target
    {
      var row := episodes[id];
      if row.status == target {
        return false;
      }
      episodes := episodes[id := row.(status := target)];
      history := history + [L.TransitionRecord(id, row.status, target, actor)];
      changed := true;
    }

    method AttachUploadResult(id: string, meta: L.UploadMeta)
      requires id in episodes
      modifies `episodes
      ensures State() == L.AttachUploadResult(old(State()), id, meta)
    {
      var row := episodes[id];
      row := row.(objectKey := Some(meta.objectKey), sizeBytes := Some(meta.sizeBytes));
      row := row.(checksum := Some(meta.checksum), durationMs := Some(meta.durationMs));
      episodes := episodes[id := row];
    }

    method AttachProcessingResult(id: string, segments: Option<seq<Segment>>, keyFrames: Option<seq<L.KeyFrame>>,
                                  quality: Option<L.QualityReport>)
      requires id in episodes
      modifies `episodes
      ensures State() == L.AttachProcessingResult(old(State()), id, segments, keyFrames, quality)
    {
      var row := episodes[id];
      if segments.Some? {
        row := row.(segments := segments.value);
      }
      if keyFrames.Some? {
        row := row.(keyFrames := keyFrames.value);
      }
      if quality.Some? {
        row := row.(quality := quality);
      }
      episodes := episodes[id := row];
    }

    method RecordJobRun(run: L.JobRun)
      modifies `jobRuns
      ensures State() == L.Log(old(State()), [run])
    {
      jobRuns := jobRuns + [run];
    }

    method ReplaceSegments(id: string, segments: seq<Segment>)
      requires id in episodes
      modifies `episodes
      ensures State() == L.ReplaceSegments(old(State()), id, segments)
    {
      episodes := episodes[id := episodes[id].(segments := segments)];
    }

    method UpsertVerifyResult(annotationId: string, id: string, decision: L.Decision)
      modifies `annotations
      ensures State() == L.UpsertVerifyResult(old(State()), annotationId, id, decision)
    {
      if id !in annotations {
        annotations := annotations[id := L.Annotation(annotationId, [], None, Some(decision), None, 1)];
      } else {
        annotations := annotations[id := annotations[id].(verified := Some(decision))];
      }
    }

    method SaveSegments(annotationId: string, id: string, segments: seq<Segment>, user: string)
      modifies `annotations
      ensures State() == L.SaveSegments(old(State()), annotationId, id, segments, user)
    {
      if id !in annotations {
        annotations := annotations[id := L.Annotation(annotationId, segments, Some(user), None, None, 1)];
      } else {
        annotations := annotations[id := annotations[id].(segments := segments, annotatedBy := Some(user))];
      }
    }

    method SaveReviewResult(id: string, decision: L.Decision) returns (found: bool)
      modifies `annotations
      ensures found <==> id in old(annotations)
      ensures State() == if found then L.SaveReviewResult(old(State()), id, decision) else old(State())
    {
      found := id in annotations;
      if found {
        var row := annotations[id].(reviewed := Some(decision));
        if decision == L.REJECT {
          row := row.(revision := row.revision + 1);
        }
        annotations := annotations[id := row];
      }
    }

    method IncrementCounters(task: string, collected: nat, published: nat) returns (found: bool)
      modifies `tasks
      ensures var r := L.IncrementCounters(old(State()), task, collected, published);
              if found then r == Result.Ok(State()) else r == Err(L.TaskNotFound) && State() == old(State())
    {
      found := task in tasks;
      if found {
        var row := tasks[task];
        row := row.(collectedCount := row.collectedCount + collected, publishedCount := row.publishedCount + published);
        tasks := tasks[task := row];
      }
    }

    method Publish(event: L.Event)
      modifies `events
      ensures State() == L.Publish(old(State()), event)
    {
      events := events + [event];
    }
  }

  /** What a service call reports: whether the status changed, or the exception. */
  type Reply = Result<bool, L.Failure>

  /** A reply and the state it leaves, as the function says. An exception's leftovers are
      the request handler's business: it rolls back. */
  ghost predicate Answers(answer: L.Answer, reply: Reply, after: L.World) {
    match answer
    case Ok(outcome) => reply == Result.Ok(outcome.changed) && after == outcome.world
    case Err(e) => reply == Err(e)
  }

  /** `services/episode_lifecycle.py`. */
  class EpisodeLifecycleService {
    const session: Session

    constructor (session: Session)
      ensures this.session == session
    {
      this.session := session;
    }

    method Transition(id: string, target: EpisodeStatus, actor: L.Actor) returns (reply: Reply)
      modifies session
      ensures session.committed == old(session.committed)
      ensures Answers(L.Transition(old(session.State()), id, target, actor), reply, session.State())
    {
      if id !in session.episodes {
        return Err(L.EpisodeNotFound);
      }
      var current := session.episodes[id];
      if current.status == target {
        return Result.Ok(false);
      }
      if !CanTransition(current.status, target) {
        return Err(L.InvalidTransition);
      }
      var changed := session.ApplyTransition(id, target, actor);
      reply := Result.Ok(changed);
    }

    method MarkUploaded(id: string, meta: L.UploadMeta) returns (reply: Reply)
      modifies session
      ensures session.committed == old(session.committed)
      ensures Answers(L.MarkUploaded(old(session.State()), id, meta), reply, session.State())
    {
      if id !in session.episodes {
        return Err(L.EpisodeNotFound);
      }
      if session.episodes[id].status != UPLOADING {
        return Result.Ok(false);
      }
      session.AttachUploadResult(id, meta);
      var _ := session.ApplyTransition(id, UPLOADED, L.UPLOAD_CALLBACK);
      session.Publish(L.EpisodeUploaded(id, session.episodes[id].taskId, meta.objectKey, meta.checksum));
      var _ := session.ApplyTransition(id, PROCESSING, L.UPLOAD_CALLBACK);
      reply := Result.Ok(true);
    }

    method RequestAnnotationProcessing(id: string, user: string) returns (reply: Reply)
      modifies session
      ensures session.committed == old(session.committed)
      ensures Answers(L.RequestAnnotationProcessing(old(session.State()), id, user), reply, session.State())
    {
      reply := Transition(id, ANNOTATION_PROCESSING, L.User(user));
      if reply == Result.Ok(true) {
        session.Publish(L.AnnotationProcessingRequested(id, session.episodes[id].taskId, user));
      }
    }

    method Reject(id: string, user: string) returns (reply: Reply)
      modifies session
      ensures session.committed == old(session.committed)
      ensures Answers(L.Reject(old(session.State()), id, user), reply, session.State())
    {
      reply := Transition(id, REJECTED, L.User(user));
      if reply == Result.Ok(true) {
        session.Publish(L.EpisodeRejected(id, session.episodes[id].taskId, user));
      }
    }

    method PublishEpisode(id: string, annotationId: string, segmentCount: nat, user: string) returns (reply: Reply)
      modifies session
      ensures session.committed == old(session.committed)
      ensures Answers(L.PublishEpisode(old(session.State()), id, annotationId, segmentCount, user), reply,
                session.State())
    {
      reply := Transition(id, PUBLISHED, L.User(user));
      if reply == Result.Ok(true) {
        session.Publish(L.AnnotationApproved(id, session.episodes[id].taskId, annotationId, segmentCount, user));
      }
    }

    method AssertActionable(id: string, expected: EpisodeStatus) returns (failure: Option<L.Failure>)
      ensures failure == L.Actionable(session.State(), id, expected)
    {
      if id !in session.episodes {
        return Some(L.EpisodeNotFound);
      }
      failure := if session.episodes[id].status != expected then Some(L.UnexpectedStatus) else None;
    }
  }

  /** `services/callbacks.py`. */
  class CallbackService {
    const lifecycle: EpisodeLifecycleService

    constructor (lifecycle: EpisodeLifecycleService)
      ensures this.lifecycle == lifecycle
    {
      this.lifecycle := lifecycle;
    }

    method HandleUploadComplete(id: string, meta: L.UploadMeta, stored: Option<string>) returns (reply: Reply)
      modifies lifecycle.session
      ensures lifecycle.session.committed == old(lifecycle.session.committed)
      ensures Answers(L.HandleUploadComplete(old(lifecycle.session.State()), id, meta, stored), reply,
                lifecycle.session.State())
    {
      if stored.Some? && stored.value != meta.checksum {
        return Err(L.ChecksumMismatch);
      }
      reply := lifecycle.MarkUploaded(id, meta);
      if reply == Result.Ok(true) {
        var found := lifecycle.session.IncrementCounters(lifecycle.session.episodes[id].taskId, 1, 0);
        if !found {
          reply := Err(L.TaskNotFound);
        }
      }
    }

    /** The results are logged and scanned in order; a later product replaces an earlier one. */
    method HandleAlgoResult(id: string, results: seq<L.AlgoJobResult>, pipelineComplete: bool) returns (reply: Reply)
      modifies lifecycle.session
      ensures lifecycle.session.committed == old(lifecycle.session.committed)
      ensures Answers(L.HandleAlgoResult(old(lifecycle.session.State()), id, results, pipelineComplete), reply,
                      lifecycle.session.State())
    {
      hide L.ResultOk, L.Transition;
      if results == [] || exists r :: r in results && !L.ResultOk(r) {
        return Err(L.ValidationError);
      }
      var segments: Option<seq<Segment>> := None;
      var keyFrames: Option<seq<L.KeyFrame>> := None;
      var quality: Option<L.QualityReport> := None;
      ghost var before := lifecycle.session.State();
      for i := 0 to |results|
        invariant lifecycle.session.State() == L.Log(before, L.RunsOf(id, results[..i]))
        invariant lifecycle.session.committed == old(lifecycle.session.committed)
        invariant segments == L.SegmentsOf(results[..i])
        invariant keyFrames == L.KeyFramesOf(results[..i])
        invariant quality == L.QualityOf(results[..i])
      {
        assert results[..i + 1][..i] == results[..i];
        var result := results[i];
        lifecycle.session.RecordJobRun(L.JobRun(id, result.operator, result.succeeded));
        if result.operator == PREANNOTATE && result.segments != [] {
          segments := Some(result.segments);
        } else if result.operator == KEYFRAME && result.keyFrames != [] {
          keyFrames := Some(result.keyFrames);
        } else if result.operator == QUALITY && result.quality.Some? {
          quality := result.quality;
        }
      }
      assert results[..|results|] == results;
      if id !in lifecycle.session.episodes {
        return Err(L.EpisodeNotFound);
      }
      if segments.Some? || keyFrames.Some? || quality.Some? {
        lifecycle.session.AttachProcessingResult(id, segments, keyFrames, quality);
      }
      if !pipelineComplete {
        return Result.Ok(false);
      }
      reply := lifecycle.Transition(id, if L.AllSucceeded(results) then VERIFICATION_PENDING else FAILED, L.SCHEDULER);
    }

    method HandleAnnotationProcessing(id: string, succeeded: bool) returns (reply: Reply)
      modifies lifecycle.session
      ensures lifecycle.session.committed == old(lifecycle.session.committed)
      ensures Answers(L.HandleAnnotationProcessing(old(lifecycle.session.State()), id, succeeded), reply,
                lifecycle.session.State())
    {
      lifecycle.session.RecordJobRun(L.JobRun(id, ANNOTATION_PROCESSING_RUN, succeeded));
      reply := lifecycle.Transition(id, if succeeded then ANNOTATION_PENDING else FAILED, L.SCHEDULER);
    }
  }

  /** `services/review.py`. */
  class ReviewService {
    const lifecycle: EpisodeLifecycleService

    constructor (lifecycle: EpisodeLifecycleService)
      ensures this.lifecycle == lifecycle
    {
      this.lifecycle := lifecycle;
    }

    method SubmitVerification(id: string, annotationId: string, decision: L.Decision,
                              user: string) returns (reply: Reply)
      modifies lifecycle.session
      ensures lifecycle.session.committed == old(lifecycle.session.committed)
      ensures Answers(L.SubmitVerification(old(lifecycle.session.State()), id, annotationId, decision, user), reply,
                lifecycle.session.State())
    {
      var bad := lifecycle.AssertActionable(id, VERIFICATION_PENDING);
      if bad.Some? {
        return Err(bad.value);
      }
      lifecycle.session.UpsertVerifyResult(annotationId, id, decision);
      hide L.Transition;
      if decision == L.REJECT {
        reply := lifecycle.Reject(id, user);
      } else {
        reply := lifecycle.RequestAnnotationProcessing(id, user);
      }
    }

    method SubmitAnnotation(id: string, annotationId: string, segments: seq<Segment>,
                            user: string) returns (reply: Reply)
      modifies lifecycle.session
      ensures lifecycle.session.committed == old(lifecycle.session.committed)
      ensures Answers(L.SubmitAnnotation(old(lifecycle.session.State()), id, annotationId, segments, user), reply,
                lifecycle.session.State())
    {
      var disjoint := CheckNoOverlap(segments);
      if !L.WellFormed(segments) || !disjoint {
        return Err(L.ValidationError);
      }
      var bad := lifecycle.AssertActionable(id, ANNOTATION_PENDING);
      if bad.Some? {
        return Err(bad.value);
      }
      lifecycle.session.SaveSegments(annotationId, id, segments, user);
      lifecycle.session.ReplaceSegments(id, segments);
      hide L.Transition;
      reply := lifecycle.Transition(id, ANNOTATION_REVIEW, L.User(user));
    }

    method SubmitReview(id: string, decision: L.Decision, user: string) returns (reply: Reply)
      modifies lifecycle.session
      ensures lifecycle.session.committed == old(lifecycle.session.committed)
      ensures Answers(L.SubmitReview(old(lifecycle.session.State()), id, decision, user), reply,
                lifecycle.session.State())
    {
      var bad := lifecycle.AssertActionable(id, ANNOTATION_REVIEW);
      if bad.Some? {
        return Err(bad.value);
      }
      var found := lifecycle.session.SaveReviewResult(id, decision);
      if !found {
        return Err(L.AnnotationNotFound);
      }
      if decision == L.REJECT {
        reply := lifecycle.Transition(id, ANNOTATION_PENDING, L.User(user));
        return;
      }
      var annotation := lifecycle.session.annotations[id];
      reply := lifecycle.PublishEpisode(id, annotation.annotationId, |annotation.segments|, user);
      if reply == Result.Ok(true) {
        var counted := lifecycle.session.IncrementCounters(lifecycle.session.episodes[id].taskId, 0, 1);
        if !counted {
          reply := Err(L.TaskNotFound);
        }
      }
    }
  }

  /** The routes: run the service, then commit, or roll back if it raised. */
  class Platform {
    const session: Session
    const lifecycle: EpisodeLifecycleService
    const callbacks: CallbackService
    const review: ReviewService

    ghost predicate Valid()
      reads session
    {
      && lifecycle.session == session && callbacks.lifecycle == lifecycle && review.lifecycle == lifecycle
      && session.committed == session.State()
    }

    constructor ()
      ensures Valid() && fresh(session) && session.State() == L.EMPTY
    {
      var s := new Session();
      var l := new EpisodeLifecycleService(s);
      session, lifecycle := s, l;
      callbacks := new CallbackService(l);
      review := new ReviewService(l);
    }

    /** One request: the state becomes what `Apply` says, and nothing of a failed request stays. */
    method Request(command: L.Command) returns (reply: Reply)
      requires Valid()
      modifies session
      ensures Valid()
      ensures Answers(L.Handle(old(session.State()), command), reply, session.State())
      ensures session.State() == L.Apply(old(session.State()), command)
    {
      hide L.Transition, L.HandleUploadComplete, L.HandleAlgoResult, L.HandleAnnotationProcessing,
           L.SubmitVerification, L.SubmitAnnotation, L.SubmitReview;
      match command {
        case CreateTask(task) =>
          if task in session.tasks {
            reply := Err(L.AlreadyExists);
          } else {
            session.tasks := session.tasks[task := L.Task(0, 0)];
            reply := Result.Ok(true);
          }
        case CreateEpisode(id, task) =>
          if id in session.episodes {
            reply := Err(L.AlreadyExists);
          } else {
            session.episodes := session.episodes[id := L.NewEpisode(task)];
            reply := Result.Ok(true);
          }
        case StartUpload(id) => reply := lifecycle.Transition(id, UPLOADING, L.AGENT_REPORT);
        case StatusReport(id, target) => reply := lifecycle.Transition(id, target, L.AGENT_REPORT);
        case UploadComplete(id, meta, stored) => reply := callbacks.HandleUploadComplete(id, meta, stored);
        case AlgoResult(id, results, complete) => reply := callbacks.HandleAlgoResult(id, results, complete);
        case AnnotationProcessing(id, succeeded) => reply := callbacks.HandleAnnotationProcessing(id, succeeded);
        case Verify(id, annotationId, decision, user) =>
          reply := review.SubmitVerification(id, annotationId, decision, user);
        case Annotate(id, annotationId, segments, user) =>
          reply := review.SubmitAnnotation(id, annotationId, segments, user);
        case Review(id, decision, user) => reply := review.SubmitReview(id, decision, user);
      }
      if reply.Ok? {
        session.Commit();
      } else {
        session.Rollback();
      }
    }
  }
}
