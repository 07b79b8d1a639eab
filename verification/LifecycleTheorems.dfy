/**
 The platform's promises over whole runs, read off the invariant of `LifecycleRuns`:
 histories, events, counters, revisions, replays and absorbing states.
 */
module LifecycleTheorems {
  import opened Basics
  import opened StateMachine
  import opened Segments
  import opened Lifecycle
  import opened LifecycleRuns

  // ---------------------------------------------------------------- one episode's history

  /** A path of legal edges from RECORDING to `status` along which nothing follows a terminal state. */
  ghost predicate PathTo(path: seq<TransitionRecord>, status: EpisodeStatus) {
    && (path == [] ==> status == INITIAL_STATE)
    && (path != [] ==> path[0].fromStatus == INITIAL_STATE && path[|path| - 1].toStatus == status)
    && (forall i :: 0 <= i < |path| ==> CanTransition(path[i].fromStatus, path[i].toStatus))
    && (forall i :: 0 < i < |path| ==> path[i].fromStatus == path[i - 1].toStatus)
    && (forall i :: 0 <= i < |path| - 1 ==> !IsTerminal(path[i].toStatus))
  }

  lemma {:induction false} HistoryIsPath(h: seq<TransitionRecord>, id: string)
    requires Legal(h)
    ensures PathTo(HistoryOf(h, id), StatusAfter(h, id))
  {
    if h != [] {
      var init, r := h[..|h| - 1], h[|h| - 1];
      HistoryIsPath(init, id);
      if r.episodeId == id {
        var path := HistoryOf(init, id);
        assert HistoryOf(h, id) == path + [r];
        EdgesClimb(r.fromStatus, r.toStatus);
      }
    }
  }

  /** A history is as long as the climb from RECORDING, plus two for every return. */
  lemma {:induction false} HistoryLength(h: seq<TransitionRecord>, id: string)
    requires Legal(h)
    ensures |HistoryOf(h, id)| <= Rank(StatusAfter(h, id)) + 2 * ReturnsOf(h, id) <= 8 + 2 * ReturnsOf(h, id)
  {
    if h != [] {
      var init, r := h[..|h| - 1], h[|h| - 1];
      HistoryLength(init, id);
      EdgesClimb(r.fromStatus, r.toStatus);
      assert ReturnsOf(h, id) == ReturnsOf(init, id) + (if Returns(id, r) then 1 else 0);
    }
  }

  predicate Enters(id: string, status: EpisodeStatus, r: TransitionRecord) {
    r.episodeId == id && r.toStatus == status
  }

  function Entries(h: seq<TransitionRecord>, id: string, status: EpisodeStatus): nat {
    CountIf(h, (r: TransitionRecord) => Enters(id, status, r))
  }

  /** An episode enters a state outside the review loop at most once, and never after it has passed it. */
  lemma {:induction false} EntersOnce(h: seq<TransitionRecord>, id: string, status: EpisodeStatus)
    requires Legal(h) && status !in {RECORDING, ANNOTATION_PENDING, ANNOTATION_REVIEW}
    ensures Entries(h, id, status) <= 1
    ensures Rank(StatusAfter(h, id)) < Rank(status) ==> Entries(h, id, status) == 0
  {
    if h != [] {
      var init, r := h[..|h| - 1], h[|h| - 1];
      EntersOnce(init, id, status);
      EdgesClimb(r.fromStatus, r.toStatus);
      assert Entries(h, id, status) == Entries(init, id, status) + (if Enters(id, status, r) then 1 else 0);
    }
  }

  /** Every episode of every run: a legal path, of bounded length, through UPLOADED and
      PUBLISHED at most once, with its revision counting the returns made by users. */
  lemma HistoryTheorem(commands: seq<Command>, id: string)
    ensures var w := Run(EMPTY, commands);
            id in w.episodes ==>
              && PathTo(HistoryOf(w.history, id), w.episodes[id].status)
              && |HistoryOf(w.history, id)| <= 8 + 2 * ReturnsOf(w.history, id)
              && Entries(w.history, id, UPLOADED) <= 1 && Entries(w.history, id, PUBLISHED) <= 1
              && (id in w.annotations ==> w.annotations[id].revision == 1 + UserReturnsOf(w.history, id))
  {
    EmptySound();
    RunSound(EMPTY, commands);
    hide Run;
    var h := Run(EMPTY, commands).history;
    HistoryIsPath(h, id);
    HistoryLength(h, id);
    EntersOnce(h, id, UPLOADED);
    EntersOnce(h, id, PUBLISHED);
    hide PathTo, HistoryOf, CountIf;
  }

  // ---------------------------------------------------------------- events and counters

  predicate Matches(tasks: map<string, string>, kind: EventKind, task: string, r: TransitionRecord) {
    KindOf(r) == Some(kind) && r.episodeId in tasks && tasks[r.episodeId] == task
  }

  lemma KeysConcat(keys: seq<Key>, more: seq<Key>, kind: EventKind, task: string)
    requires |more| <= 1
    ensures CountKeys(keys + more, kind, task)
         == CountKeys(keys, kind, task)
             + (if more != [] && more[0].kind == kind && more[0].taskId == task then 1 else 0)
  {
    if more == [] {
      assert keys + more == keys;
    } else {
      assert (keys + more)[..|keys|] == keys;
    }
  }

  lemma {:induction false} ProjectCounts(h: seq<TransitionRecord>, tasks: map<string, string>, kind: EventKind,
                                         task: string)
    ensures CountKeys(Project(h, tasks), kind, task)
              == CountIf(h, (r: TransitionRecord) => Matches(tasks, kind, task, r))
  {
    if h != [] {
      var init, r := h[..|h| - 1], h[|h| - 1];
      ProjectCounts(init, tasks, kind, task);
      KeysConcat(Project(init, tasks), KeyOfRecord(r, tasks), kind, task);
    }
  }

  /** Over every run the published events are the projection of the history, in its order,
      and each task's counters are the numbers of its records into UPLOADED by the upload
      callback and into PUBLISHED by a user. */
  lemma EventsTheorem(commands: seq<Command>)
    ensures var w := Run(EMPTY, commands);
            var tasks := TaskIds(w.episodes);
            && KeysOf(w.events) == Project(w.history, tasks)
            && forall t :: t in w.tasks ==>
                 w.tasks[t] == Task(CountIf(w.history, (r: TransitionRecord) => Matches(tasks, Uploaded, t, r)),
                                    CountIf(w.history, (r: TransitionRecord) => Matches(tasks, Approved, t, r)))
  {
    EmptySound();
    RunSound(EMPTY, commands);
    hide Run, Legal, StatusAfter;
    var w := Run(EMPTY, commands);
    forall t | t in w.tasks
      ensures w.tasks[t]
           == Task(CountIf(w.history, (r: TransitionRecord) => Matches(TaskIds(w.episodes), Uploaded, t, r)),
                   CountIf(w.history, (r: TransitionRecord) => Matches(TaskIds(w.episodes), Approved, t, r)))
    {
      ProjectCounts(w.history, TaskIds(w.episodes), Uploaded, t);
      ProjectCounts(w.history, TaskIds(w.episodes), Approved, t);
    }
  }

  // ---------------------------------------------------------------- what never changes back

  /** An episode keeps its task and moves forward: a terminal state stays, and the rank of a
      status only falls inside the review loop. */
  ghost predicate Forward(w: World, w': World, id: string)
    requires id in w.episodes
  {
    && id in w'.episodes && w'.episodes[id].taskId == w.episodes[id].taskId
    && (IsTerminal(w.episodes[id].status) ==> w'.episodes[id].status == w.episodes[id].status)
    && (w'.episodes[id].status == w.episodes[id].status
        || Rank(w'.episodes[id].status) > Rank(w.episodes[id].status)
        || w'.episodes[id].status == ANNOTATION_PENDING)
  }

  lemma TransitionForward(w: World, id: string, target: EpisodeStatus, actor: Actor, other: string)
    requires other in w.episodes
    ensures var answer := Transition(w, id, target, actor); answer.Ok? ==> Forward(w, answer.value.world, other)
  {
    if id in w.episodes && CanTransition(w.episodes[id].status, target) {
      EdgesClimb(w.episodes[id].status, target);
    }
  }

  lemma StepForward(w: World, c: Command, id: string)
    requires id in w.episodes
    ensures Forward(w, Apply(w, c), id)
  {
    hide Submittable, HandleAlgoResult, Transition, IsTerminal, Rank;
    match c
    case CreateTask(_) =>
    case CreateEpisode(_, _) =>
    case StartUpload(x) => TransitionForward(w, x, UPLOADING, AGENT_REPORT, id);
    case StatusReport(x, target) => TransitionForward(w, x, target, AGENT_REPORT, id);
    case UploadComplete(_, _, _) => UploadForward(w, c, id);
    case AlgoResult(_, _, _) => ResultForward(w, c, id);
    case AnnotationProcessing(x, succeeded) =>
      TransitionForward(Log(w, [JobRun(x, ANNOTATION_PROCESSING_RUN, succeeded)]), x,
                        if succeeded then ANNOTATION_PENDING else FAILED, SCHEDULER, id);
    case Verify(x, a, decision, user) =>
      var noted := UpsertVerifyResult(w, a, x, decision);
      TransitionForward(noted, x, if decision == REJECT then REJECTED else ANNOTATION_PROCESSING, User(user), id);
    case Annotate(x, a, segments, user) =>
      if x in w.episodes {
        var saved := ReplaceSegments(SaveSegments(w, a, x, segments, user), x, segments);
        TransitionForward(saved, x, ANNOTATION_REVIEW, User(user), id);
      }
    case Review(x, decision, user) =>
      if x in w.annotations {
        var target := if decision == REJECT then ANNOTATION_PENDING else PUBLISHED;
        TransitionForward(SaveReviewResult(w, x, decision), x, target, User(user), id);
      }
  }

  lemma ResultForward(w: World, c: Command, id: string)
    requires id in w.episodes && c.AlgoResult?
    ensures Forward(w, Apply(w, c), id)
  {
    hide SegmentsOf, KeyFramesOf, QualityOf, RunsOf, ResultOk, AllSucceeded, Transition, IsTerminal, Rank;
    if c.id in w.episodes {
      var target := if AllSucceeded(c.results) then VERIFICATION_PENDING else FAILED;
      TransitionForward(Attached(w, c.id, c.results), c.id, target, SCHEDULER, id);
    }
  }

  lemma UploadForward(w: World, c: Command, id: string)
    requires id in w.episodes && c.UploadComplete?
    ensures Forward(w, Apply(w, c), id)
  {
  }

  lemma {:induction false} RunForward(w: World, commands: seq<Command>, id: string)
    requires id in w.episodes
    ensures var w' := Run(w, commands);
            && id in w'.episodes && w'.episodes[id].taskId == w.episodes[id].taskId
            && (IsTerminal(w.episodes[id].status) ==> w'.episodes[id].status == w.episodes[id].status)
            && (Rank(w.episodes[id].status) >= 3 ==> Rank(w'.episodes[id].status) >= 3)
    decreases |commands|
  {
    hide Apply, IsTerminal;
    if commands != [] {
      StepForward(w, commands[0], id);
      RunForward(Apply(w, commands[0]), commands[1..], id);
    }
  }

  /** An upload event speaks of an uploaded episode, with the object and checksum the database holds. */
  ghost predicate UploadTrue(w: World, e: Event) {
    e.EpisodeUploaded? ==>
      && e.episodeId in w.episodes && w.episodes[e.episodeId].status !in {RECORDING, UPLOADING}
      && w.episodes[e.episodeId].taskId == e.taskId
      && w.episodes[e.episodeId].objectKey == Some(e.objectKey) && w.episodes[e.episodeId].checksum == Some(e.checksum)
  }

  ghost predicate UploadsTrue(w: World) {
    forall e :: e in w.events ==> UploadTrue(w, e)
  }

  /** What is known about an episode's recording never changes after the upload. */
  ghost predicate KeepsUpload(w: World, w': World, id: string)
    requires id in w.episodes
  {
    w.episodes[id].status !in {RECORDING, UPLOADING} ==>
      && id in w'.episodes && w'.episodes[id].objectKey == w.episodes[id].objectKey
      && w'.episodes[id].checksum == w.episodes[id].checksum
      && w'.episodes[id].sizeBytes == w.episodes[id].sizeBytes
      && w'.episodes[id].durationMs == w.episodes[id].durationMs
  }

  lemma StepKeepsUpload(w: World, c: Command, id: string)
    requires id in w.episodes
    ensures KeepsUpload(w, Apply(w, c), id)
  {
    hide Apply, KeepsUpload;
    if c.UploadComplete? {
      UploadKeepsUpload(w, c, id);
    } else {
      OtherKeepsUpload(w, c, id);
    }
  }

  lemma OtherKeepsUpload(w: World, c: Command, id: string)
    requires id in w.episodes && !c.UploadComplete?
    ensures KeepsUpload(w, Apply(w, c), id)
  {
    hide Apply, KeepsUpload;
    if c.Verify? || c.Annotate? || c.Review? {
      ReviewKeepsUpload(w, c, id);
    } else {
      SystemKeepsUpload(w, c, id);
    }
  }

  lemma ReviewKeepsUpload(w: World, c: Command, id: string)
    requires id in w.episodes && (c.Verify? || c.Annotate? || c.Review?)
    ensures KeepsUpload(w, Apply(w, c), id)
  {
    hide Submittable, CanTransition, HandleUploadComplete, HandleAlgoResult, HandleAnnotationProcessing;
  }

  lemma SystemKeepsUpload(w: World, c: Command, id: string)
    requires id in w.episodes && !c.UploadComplete? && !c.Verify? && !c.Annotate? && !c.Review?
    ensures KeepsUpload(w, Apply(w, c), id)
  {
    hide SegmentsOf, KeyFramesOf, QualityOf, RunsOf, ResultOk, AllSucceeded, CanTransition, HandleUploadComplete,
         SubmitVerification, SubmitAnnotation, SubmitReview;
  }

  lemma UploadKeepsUpload(w: World, c: Command, id: string)
    requires id in w.episodes && c.UploadComplete?
    ensures KeepsUpload(w, Apply(w, c), id)
  {
  }

  lemma NewEvents(w: World, c: Command, e: Event)
    requires e in Apply(w, c).events && e !in w.events && e.EpisodeUploaded?
    ensures UploadTrue(Apply(w, c), e)
  {
    OnlyUploadsAnnounce(w, c, e);
  }

  lemma OnlyUploadsAnnounce(w: World, c: Command, e: Event)
    requires e in Apply(w, c).events && e !in w.events && e.EpisodeUploaded?
    ensures c.UploadComplete?
  {
    hide Apply;
    if c.Verify? || c.Annotate? || c.Review? {
      PeopleAnnounceNoUpload(w, c, e);
    } else if !c.UploadComplete? {
      SystemAnnouncesNothing(w, c);
    }
  }

  lemma PeopleAnnounceNoUpload(w: World, c: Command, e: Event)
    requires (c.Verify? || c.Annotate? || c.Review?) && e.EpisodeUploaded?
    ensures e in Apply(w, c).events ==> e in w.events
  {
    hide Submittable, CanTransition, HandleUploadComplete, HandleAlgoResult;
  }

  lemma SystemAnnouncesNothing(w: World, c: Command)
    requires !c.Verify? && !c.Annotate? && !c.Review? && !c.UploadComplete?
    ensures Apply(w, c).events == w.events
  {
    hide SegmentsOf, KeyFramesOf, QualityOf, RunsOf, ResultOk, AllSucceeded, CanTransition, HandleUploadComplete,
        SubmitVerification, SubmitAnnotation, SubmitReview;
  }

  lemma StepUploadsTrue(w: World, c: Command)
    requires UploadsTrue(w)
    ensures UploadsTrue(Apply(w, c))
  {
    hide Apply, Rank;
    forall e | e in Apply(w, c).events
      ensures UploadTrue(Apply(w, c), e)
    {
      if e in w.events {
        assert UploadTrue(w, e);
        if e.EpisodeUploaded? {
          StepForward(w, c, e.episodeId);
          StepKeepsUpload(w, c, e.episodeId);
          LaterStages(w.episodes[e.episodeId].status, Apply(w, c).episodes[e.episodeId].status);
        }
      } else if e.EpisodeUploaded? {
        NewEvents(w, c, e);
      }
    }
  }

  lemma LaterStages(before: EpisodeStatus, after: EpisodeStatus)
    requires before !in {RECORDING, UPLOADING}
               && (after == before || Rank(after) > Rank(before) || after == ANNOTATION_PENDING)
    ensures after !in {RECORDING, UPLOADING}
  {
  }

  /** Whoever acts on an upload event, however late, finds the object key and the checksum of the
      event still in the database. */
  lemma {:induction false} UploadEventsStayTrue(w: World, commands: seq<Command>)
    requires UploadsTrue(w)
    ensures UploadsTrue(Run(w, commands))
    decreases |commands|
  {
    hide UploadsTrue, Apply;
    if commands != [] {
      StepUploadsTrue(w, commands[0]);
      UploadEventsStayTrue(Apply(w, commands[0]), commands[1..]);
    }
  }

  /** An upload callback that was processed can be sent again at any later time, after any
      other steps, and does nothing: recovery may resend it. */
  lemma UploadReplayIsHarmless(w: World, c: Command, commands: seq<Command>)
    requires c.UploadComplete? && Handle(w, c).Ok?
    requires Handle(w, c).value.changed
    ensures var later := Run(Apply(w, c), commands); Apply(later, c) == later
  {
    RunForward(Apply(w, c), commands, c.id);
    hide Run;
  }

  /** What a handled callback writes to the job-run log. */
  function LoggedBy(c: Command): seq<JobRun> {
    match c
    case AlgoResult(id, results, _) => RunsOf(id, results)
    case AnnotationProcessing(id, succeeded) => [JobRun(id, ANNOTATION_PROCESSING_RUN, succeeded)]
    case _ => []
  }

  /** Every callback and status report, repeated at once, changes nothing more; only the job-run
      log records that it came again. */
  lemma ReplayIsIdempotent(w: World, c: Command)
    requires c.StartUpload? || c.StatusReport? || c.UploadComplete? || c.AlgoResult? || c.AnnotationProcessing?
    ensures var once := Apply(w, c);
            Apply(once, c) == if Handle(w, c).Ok? then Log(once, LoggedBy(c)) else once
  {
    hide SegmentsOf, KeyFramesOf, QualityOf, RunsOf, ResultOk, AllSucceeded, HandleAlgoResult;
    if c.AlgoResult? {
      AlgoReplay(w, c);
    }
    assert Log(Apply(w, c), []) == Apply(w, c);
  }

  lemma AlgoReplay(w: World, c: Command)
    requires c.AlgoResult?
    ensures var once := Apply(w, c);
            Apply(once, c) == if Handle(w, c).Ok? then Log(once, LoggedBy(c)) else once
  {
    hide Attached, ResultOk, AllSucceeded;
    if Handle(w, c).Ok? {
      AttachedRows(w, c.id, c.results);
      AttachedAgain(w, c.id, c.results, Apply(w, c));
    }
  }

  lemma AttachedRows(w: World, id: string, results: seq<AlgoJobResult>)
    requires id in w.episodes
    ensures Attached(w, id, results).episodes.Keys == w.episodes.Keys
    ensures Attached(w, id, results).episodes[id].status == w.episodes[id].status
  {
    hide SegmentsOf, KeyFramesOf, QualityOf, RunsOf;
  }

  /** Storing the same products again changes nothing but the log. */
  lemma AttachedAgain(w: World, id: string, results: seq<AlgoJobResult>, later: World)
    requires id in w.episodes && id in later.episodes
    requires var attached := Attached(w, id, results);
             && later.episodes[id] == attached.episodes[id].(status := later.episodes[id].status)
             && later == attached.(episodes := later.episodes, history := later.history)
    ensures Attached(later, id, results) == Log(later, RunsOf(id, results))
  {
    hide SegmentsOf, KeyFramesOf, QualityOf, RunsOf;
    var row := later.episodes[id];
    assert later.episodes[id := row] == later.episodes;
  }

  /** The history, the events and the job-run log are append-only. */
  lemma {:induction false} LogsOnlyGrow(w: World, commands: seq<Command>)
    ensures Appends(w, Run(w, commands))
    decreases |commands|
  {
    hide Apply;
    if commands != [] {
      StepAppends(w, commands[0]);
      LogsOnlyGrow(Apply(w, commands[0]), commands[1..]);
    }
  }

  ghost predicate Appends(w: World, w': World) {
    w.history <= w'.history && w.events <= w'.events && w.jobRuns <= w'.jobRuns
  }

  lemma StepAppends(w: World, c: Command)
    ensures Appends(w, Apply(w, c))
  {
    hide Appends, Apply;
    if c.UploadComplete? || c.AlgoResult? || c.AnnotationProcessing? {
      CallbackAppends(w, c);
    } else if c.Verify? || c.Annotate? || c.Review? {
      ReviewAppends(w, c);
    } else {
      OtherAppends(w, c);
    }
  }

  lemma CallbackAppends(w: World, c: Command)
    requires c.UploadComplete? || c.AlgoResult? || c.AnnotationProcessing?
    ensures Appends(w, Apply(w, c))
  {
    hide SegmentsOf, KeyFramesOf, QualityOf, RunsOf, ResultOk, AllSucceeded, CanTransition,
         SubmitVerification, SubmitAnnotation, SubmitReview;
  }

  lemma ReviewAppends(w: World, c: Command)
    requires c.Verify? || c.Annotate? || c.Review?
    ensures Appends(w, Apply(w, c))
  {
    hide Submittable, CanTransition, HandleUploadComplete, HandleAlgoResult, HandleAnnotationProcessing;
  }

  lemma OtherAppends(w: World, c: Command)
    requires c.CreateTask? || c.CreateEpisode? || c.StartUpload? || c.StatusReport?
    ensures Appends(w, Apply(w, c))
  {
    hide CanTransition, SubmitVerification, SubmitAnnotation, SubmitReview,
         HandleUploadComplete, HandleAlgoResult, HandleAnnotationProcessing;
  }
}
