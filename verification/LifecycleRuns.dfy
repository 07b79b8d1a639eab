/**
 What every run of the platform keeps: the history is a legal path, the events and the
 task counters are projections of it, revisions count the returns, and terminal states stay.
 */
module LifecycleRuns {
  import opened Basics
  import opened StateMachine
  import opened Segments
  import opened Lifecycle

  // ---------------------------------------------------------------- reading a history

  /** Where a history leaves an episode. */
  function StatusAfter(h: seq<TransitionRecord>, id: string): EpisodeStatus {
    if h == [] then INITIAL_STATE
    else if h[|h| - 1].episodeId == id then h[|h| - 1].toStatus
    else StatusAfter(h[..|h| - 1], id)
  }

  /** Every record starts where the episode was and follows an edge of the state machine. */
  ghost predicate Legal(h: seq<TransitionRecord>) {
    h == [] ||
    (var init, r := h[..|h| - 1], h[|h| - 1];
     Legal(init) && r.fromStatus == StatusAfter(init, r.episodeId) && CanTransition(r.fromStatus, r.toStatus))
  }

  /** `get_history`: one episode's records in order. */
  function HistoryOf(h: seq<TransitionRecord>, id: string): seq<TransitionRecord> {
    if h == [] then []
    else HistoryOf(h[..|h| - 1], id) + (if h[|h| - 1].episodeId == id then [h[|h| - 1]] else [])
  }

  function CountIf(h: seq<TransitionRecord>, p: TransitionRecord -> bool): nat {
    if h == [] then 0 else CountIf(h[..|h| - 1], p) + (if p(h[|h| - 1]) then 1 else 0)
  }

  predicate Returns(id: string, r: TransitionRecord) {
    r.episodeId == id && IsReturn(r.fromStatus, r.toStatus)
  }

  /** Records that send an annotation back to its annotator, by anybody or by a user. */
  function ReturnsOf(h: seq<TransitionRecord>, id: string): nat {
    CountIf(h, (r: TransitionRecord) => Returns(id, r))
  }

  function UserReturnsOf(h: seq<TransitionRecord>, id: string): nat {
    CountIf(h, (r: TransitionRecord) => Returns(id, r) && r.actor.User?)
  }

  // ---------------------------------------------------------------- events as a projection

  datatype EventKind = Uploaded | ProcessingRequested | Rejected | Approved

  /** What an event says: what happened, to which episode of which task, and who did it. */
  datatype Key = Key(kind: EventKind, episodeId: string, taskId: string, actor: Actor)

  function KeyOfEvent(e: Event): Key {
    match e
    case EpisodeUploaded(id, task, _, _) => Key(Uploaded, id, task, UPLOAD_CALLBACK)
    case AnnotationProcessingRequested(id, task, verifiedBy) => Key(ProcessingRequested, id, task, User(verifiedBy))
    case EpisodeRejected(id, task, rejectedBy) => Key(Rejected, id, task, User(rejectedBy))
    case AnnotationApproved(id, task, _, _, approvedBy) => Key(Approved, id, task, User(approvedBy))
  }

  function KeysOf(events: seq<Event>): seq<Key> {
    if events == [] then [] else KeysOf(events[..|events| - 1]) + [KeyOfEvent(events[|events| - 1])]
  }

  /** The event a record stands for: an upload callback's step into UPLOADED, or a user's
      step into ANNOTATION_PROCESSING, REJECTED or PUBLISHED. */
  function KindOf(r: TransitionRecord): Option<EventKind> {
    if r.toStatus == UPLOADED && r.actor == UPLOAD_CALLBACK then Some(Uploaded)
    else if r.toStatus == ANNOTATION_PROCESSING && r.actor.User? then Some(ProcessingRequested)
    else if r.toStatus == REJECTED && r.actor.User? then Some(Rejected)
    else if r.toStatus == PUBLISHED && r.actor.User? then Some(Approved)
    else None
  }

  function KeyOfRecord(r: TransitionRecord, tasks: map<string, string>): seq<Key> {
    if KindOf(r).Some? && r.episodeId in tasks then [Key(KindOf(r).value, r.episodeId, tasks[r.episodeId], r.actor)]
    else []
  }

  function Project(h: seq<TransitionRecord>, tasks: map<string, string>): seq<Key> {
    if h == [] then [] else Project(h[..|h| - 1], tasks) + KeyOfRecord(h[|h| - 1], tasks)
  }

  function TaskIds(episodes: map<string, Episode>): map<string, string> {
    map id | id in episodes :: episodes[id].taskId
  }

  function CountKeys(keys: seq<Key>, kind: EventKind, task: string): nat {
    if keys == [] then 0
    else CountKeys(keys[..|keys| - 1], kind, task)
         + (if keys[|keys| - 1].kind == kind && keys[|keys| - 1].taskId == task then 1 else 0)
  }

  // ---------------------------------------------------------------- the invariant

  /** The episode rows are where the history says, and the history is legal. */
  ghost predicate Traced(w: World) {
    && Legal(w.history)
    && (forall r :: r in w.history ==> r.episodeId in w.episodes)
    && (forall id :: id in w.episodes ==> w.episodes[id].status == StatusAfter(w.history, id))
  }

  /** The published events are exactly the projection of the history, in its order. */
  ghost predicate Announced(w: World) {
    KeysOf(w.events) == Project(w.history, TaskIds(w.episodes))
  }

  /** Each task's counters are the numbers of matching records of its episodes. */
  ghost predicate Counted(w: World) {
    && (forall t :: t in w.tasks ==>
        w.tasks[t] == Task(CountKeys(KeysOf(w.events), Uploaded, t), CountKeys(KeysOf(w.events), Approved, t)))
    && (forall t :: t !in w.tasks ==>
        CountKeys(KeysOf(w.events), Uploaded, t) == 0 && CountKeys(KeysOf(w.events), Approved, t) == 0)
  }

  /** An annotation's revision is one more than the number of times a user returned it. */
  ghost predicate Revised(w: World) {
    && (forall id :: id in w.annotations ==> w.annotations[id].revision == 1 + UserReturnsOf(w.history, id))
    && (forall id :: id !in w.annotations ==> UserReturnsOf(w.history, id) == 0)
  }

  ghost predicate Sound(w: World) {
    Traced(w) && Announced(w) && Counted(w) && Revised(w)
  }

  // ---------------------------------------------------------------- one record, one event

  /** Everything a new record does to the readings of a history. */
  lemma Recorded(h: seq<TransitionRecord>, r: TransitionRecord, tasks: map<string, string>)
    ensures Legal(h + [r]) <==>
              Legal(h) && r.fromStatus == StatusAfter(h, r.episodeId) && CanTransition(r.fromStatus, r.toStatus)
    ensures forall id :: StatusAfter(h + [r], id) == if r.episodeId == id then r.toStatus else StatusAfter(h, id)
    ensures Project(h + [r], tasks) == Project(h, tasks) + KeyOfRecord(r, tasks)
    ensures forall id :: UserReturnsOf(h + [r], id)
              == UserReturnsOf(h, id) + (if Returns(id, r) && r.actor.User? then 1 else 0)
  {
    assert (h + [r])[..|h|] == h;
  }

  lemma Emitted(events: seq<Event>, e: Event)
    ensures KeysOf(events + [e]) == KeysOf(events) + [KeyOfEvent(e)]
    ensures forall kind, t :: CountKeys(KeysOf(events + [e]), kind, t)
                           == CountKeys(KeysOf(events), kind, t)
                               + (if KeyOfEvent(e).kind == kind && KeyOfEvent(e).taskId == t then 1 else 0)
  {
    assert (events + [e])[..|events|] == events;
    var keys := KeysOf(events);
    assert (keys + [KeyOfEvent(e)])[..|keys|] == keys;
  }

  /** The projection reads only the tasks of episodes that have records. */
  lemma {:induction false} ProjectSame(h: seq<TransitionRecord>, a: map<string, string>, b: map<string, string>)
    requires forall r :: r in h ==> r.episodeId in a && r.episodeId in b && a[r.episodeId] == b[r.episodeId]
    ensures Project(h, a) == Project(h, b)
  {
    if h != [] {
      ProjectSame(h[..|h| - 1], a, b);
    }
  }

  // ---------------------------------------------------------------- every step keeps it

  /** The same episodes with the same tasks, and the same status except perhaps for `id`. */
  ghost predicate SameEpisodes(before: map<string, Episode>, after: map<string, Episode>, except: string) {
    && before.Keys == after.Keys
    && forall id :: id in before ==>
         after[id].taskId == before[id].taskId && (id != except ==> after[id].status == before[id].status)
  }

  /** Revisions move only by `bump` of episode `id`; new annotations start at revision 1. */
  ghost predicate SameRevisions(before: map<string, Annotation>, after: map<string, Annotation>, id: string,
                                bump: nat) {
    && before.Keys <= after.Keys
    && (bump > 0 ==> id in before)
    && forall x :: x in after ==>
         after[x].revision == (if x in before then before[x].revision else 1) + (if x == id then bump else 0)
  }

  /** The counters after the event that `kind` names, for the episodes of `task`. */
  ghost predicate CountersAfter(before: map<string, Task>, after: map<string, Task>, kind: Option<EventKind>,
                                task: string) {
    if kind == Some(Uploaded) then
      task in before && after == before[task := before[task].(collectedCount := before[task].collectedCount + 1)]
    else if kind == Some(Approved) then
      task in before && after == before[task := before[task].(publishedCount := before[task].publishedCount + 1)]
    else after == before
  }

  lemma SameTaskIds(before: map<string, Episode>, after: map<string, Episode>, except: string)
    requires SameEpisodes(before, after, except)
    ensures TaskIds(before) == TaskIds(after)
  {
  }

  /** Rewriting data without moving any episode. */
  lemma Edited(w: World, w': World)
    requires Sound(w) && w'.history == w.history && w'.events == w.events && w'.tasks == w.tasks
    requires SameEpisodes(w.episodes, w'.episodes, "")
    requires forall id :: id in w.episodes ==> w'.episodes[id].status == w.episodes[id].status
    requires SameRevisions(w.annotations, w'.annotations, "", 0)
    ensures Sound(w')
  {
    hide Legal, StatusAfter, Project, KeysOf, UserReturnsOf, CountKeys, TaskIds;
    SameTaskIds(w.episodes, w'.episodes, "");
  }

  /** One event, or none, as the kind of the record says. */
  ghost predicate EventsAfter(before: seq<Event>, after: seq<Event>, r: TransitionRecord, task: string) {
    if KindOf(r).None? then after == before
    else
      && |after| == |before| + 1 && after[..|before|] == before
      && KeyOfEvent(after[|before|]) == Key(KindOf(r).value, r.episodeId, task, r.actor)
  }

  /** Moving one episode along one edge, with the event and the counter that belong to it. */
  ghost predicate Step(w: World, w': World, r: TransitionRecord) {
    && r.episodeId in w.episodes && r.fromStatus == w.episodes[r.episodeId].status
        && CanTransition(r.fromStatus, r.toStatus)
    && w'.history == w.history + [r]
    && SameEpisodes(w.episodes, w'.episodes, r.episodeId) && w'.episodes[r.episodeId].status == r.toStatus
    && EventsAfter(w.events, w'.events, r, w.episodes[r.episodeId].taskId)
    && CountersAfter(w.tasks, w'.tasks, KindOf(r), w.episodes[r.episodeId].taskId)
    && SameRevisions(w.annotations, w'.annotations, r.episodeId,
                     if Returns(r.episodeId, r) && r.actor.User? then 1 else 0)
  }

  lemma StepTraced(w: World, w': World, r: TransitionRecord)
    requires Traced(w) && Step(w, w', r)
    ensures Traced(w')
  {
    Recorded(w.history, r, map[]);
    hide Legal, StatusAfter, Project, KindOf, UserReturnsOf, CanTransition, EventsAfter, CountersAfter, SameRevisions;
  }

  lemma EventsSnoc(before: seq<Event>, after: seq<Event>, r: TransitionRecord, task: string)
    requires KindOf(r).Some? && EventsAfter(before, after, r, task)
    ensures KeysOf(after) == KeysOf(before) + [Key(KindOf(r).value, r.episodeId, task, r.actor)]
    ensures forall k, t :: CountKeys(KeysOf(after), k, t)
                        == CountKeys(KeysOf(before), k, t) + (if k == KindOf(r).value && t == task then 1 else 0)
  {
    assert after == before + [after[|before|]];
    Emitted(before, after[|before|]);
  }

  lemma StepAnnounced(w: World, w': World, r: TransitionRecord)
    requires Announced(w) && Step(w, w', r)
    ensures Announced(w')
  {
    SameTaskIds(w.episodes, w'.episodes, r.episodeId);
    Recorded(w.history, r, TaskIds(w.episodes));
    if KindOf(r).Some? {
      EventsSnoc(w.events, w'.events, r, w.episodes[r.episodeId].taskId);
    }
    hide Legal, StatusAfter, Project, KeysOf, UserReturnsOf, CountKeys, KindOf, CanTransition, CountersAfter,
        SameRevisions;
  }

  lemma StepCounted(w: World, w': World, r: TransitionRecord)
    requires Counted(w) && Step(w, w', r)
    ensures Counted(w')
  {
    hide KeysOf, CountKeys, KindOf, CanTransition, SameRevisions, SameEpisodes;
    var kind, task := KindOf(r), w.episodes[r.episodeId].taskId;
    if kind.Some? {
      EventsSnoc(w.events, w'.events, r, task);
      hide EventsAfter;
      forall t | t in w'.tasks
        ensures w'.tasks[t]
                  == Task(CountKeys(KeysOf(w'.events), Uploaded, t), CountKeys(KeysOf(w'.events), Approved, t))
      {
      }
    }
  }

  lemma StepRevised(w: World, w': World, r: TransitionRecord)
    requires Revised(w) && Step(w, w', r)
    ensures Revised(w')
  {
    Recorded(w.history, r, map[]);
    hide Legal, StatusAfter, Project, KindOf, UserReturnsOf, CanTransition, EventsAfter, CountersAfter, SameEpisodes;
  }

  lemma Stepped(w: World, w': World, r: TransitionRecord)
    requires Sound(w) && Step(w, w', r)
    ensures Sound(w')
  {
    hide Traced, Announced, Counted, Revised, Step;
    StepTraced(w, w', r);
    StepAnnounced(w, w', r);
    StepCounted(w, w', r);
    StepRevised(w, w', r);
  }

  /** A guarded transition by anyone, after harmless edits, with no event of its own. */
  lemma TransitionSound(w: World, edited: World, id: string, target: EpisodeStatus, actor: Actor)
    requires Sound(w) && id in w.episodes && edited.history == w.history && edited.events == w.events
    requires edited.tasks == w.tasks
    requires SameEpisodes(w.episodes, edited.episodes, "") && edited.episodes[id].status == w.episodes[id].status
    requires forall x :: x in w.episodes ==> edited.episodes[x].status == w.episodes[x].status
    requires KindOf(TransitionRecord(id, w.episodes[id].status, target, actor)) == None
    requires SameRevisions(w.annotations, edited.annotations, id,
                           if IsReturn(w.episodes[id].status, target) && actor.User? then 1 else 0)
    ensures var answer := Transition(edited, id, target, actor);
            answer.Ok? && (answer.value.changed || edited.annotations == w.annotations) ==> Sound(answer.value.world)
  {
    hide Sound;
    var answer := Transition(edited, id, target, actor);
    if answer.Ok? {
      if answer.value.changed {
        Stepped(w, answer.value.world, TransitionRecord(id, w.episodes[id].status, target, actor));
      } else if edited.annotations == w.annotations {
        Edited(w, edited);
      }
    }
  }

  lemma UploadCompleteShape(w: World, id: string, meta: UploadMeta, stored: Option<string>)
    requires var answer := HandleUploadComplete(w, id, meta, stored); answer.Ok? && answer.value.changed
    ensures id in w.episodes && w.episodes[id].status == UPLOADING
    ensures var task := w.episodes[id].taskId;
            var final := HandleUploadComplete(w, id, meta, stored).value.world;
            && id in final.episodes && final.episodes[id].status == PROCESSING && final.episodes[id].taskId == task
            && final.episodes == w.episodes[id := final.episodes[id]]
            && final.history == w.history + [TransitionRecord(id, UPLOADING, UPLOADED, UPLOAD_CALLBACK)]
                              + [TransitionRecord(id, UPLOADED, PROCESSING, UPLOAD_CALLBACK)]
            && final.events == w.events + [EpisodeUploaded(id, task, meta.objectKey, meta.checksum)]
            && task in w.tasks
                && final.tasks == w.tasks[task := w.tasks[task].(collectedCount := w.tasks[task].collectedCount + 1)]
            && final.annotations == w.annotations
  {
  }

  /** The upload callback's two steps, with the counter moved to the first of them. */
  lemma UploadCompleteSteps(w: World, id: string, meta: UploadMeta, stored: Option<string>) returns (middle: World)
    requires var answer := HandleUploadComplete(w, id, meta, stored); answer.Ok? && answer.value.changed
    ensures Step(w, middle, TransitionRecord(id, UPLOADING, UPLOADED, UPLOAD_CALLBACK))
    ensures Step(middle, HandleUploadComplete(w, id, meta, stored).value.world,
              TransitionRecord(id, UPLOADED, PROCESSING, UPLOAD_CALLBACK))
  {
    hide HandleUploadComplete;
    UploadCompleteShape(w, id, meta, stored);
    var first := TransitionRecord(id, UPLOADING, UPLOADED, UPLOAD_CALLBACK);
    var final := HandleUploadComplete(w, id, meta, stored).value.world;
    middle := final.(episodes := final.episodes[id := final.episodes[id].(status := UPLOADED)],
        history := w.history + [first]);
  }

  lemma UploadCompleteSound(w: World, id: string, meta: UploadMeta, stored: Option<string>)
    requires Sound(w)
    ensures var answer := HandleUploadComplete(w, id, meta, stored); answer.Ok? ==> Sound(answer.value.world)
  {
    hide Sound, Step;
    var answer := HandleUploadComplete(w, id, meta, stored);
    if answer.Ok? && answer.value.changed {
      var middle := UploadCompleteSteps(w, id, meta, stored);
      Stepped(w, middle, TransitionRecord(id, UPLOADING, UPLOADED, UPLOAD_CALLBACK));
      Stepped(middle, answer.value.world, TransitionRecord(id, UPLOADED, PROCESSING, UPLOAD_CALLBACK));
    }
  }

  lemma AttachedIsEdit(w: World, id: string, results: seq<AlgoJobResult>)
    requires id in w.episodes
    ensures var attached := Attached(w, id, results);
            && attached.history == w.history && attached.events == w.events && attached.tasks == w.tasks
            && attached.annotations == w.annotations && SameEpisodes(w.episodes, attached.episodes, "")
            && forall x :: x in w.episodes ==>
                 x in attached.episodes && attached.episodes[x].status == w.episodes[x].status
  {
    hide SegmentsOf, KeyFramesOf, QualityOf, RunsOf;
  }

  lemma AlgoResultSound(w: World, id: string, results: seq<AlgoJobResult>, complete: bool)
    requires Sound(w)
    ensures var answer := HandleAlgoResult(w, id, results, complete); answer.Ok? ==> Sound(answer.value.world)
  {
    hide Sound, Attached, ResultOk, AllSucceeded, SameEpisodes, Transition;
    var answer := HandleAlgoResult(w, id, results, complete);
    if answer.Ok? {
      var attached := Attached(w, id, results);
      AttachedIsEdit(w, id, results);
      if complete {
        TransitionSound(w, attached, id, if AllSucceeded(results) then VERIFICATION_PENDING else FAILED, SCHEDULER);
      } else {
        Edited(w, attached);
      }
    }
  }

  lemma VerifyShape(w: World, id: string, annotationId: string, decision: Decision, user: string)
    requires SubmitVerification(w, id, annotationId, decision, user).Ok?
    ensures id in w.episodes && w.episodes[id].status == VERIFICATION_PENDING
    ensures var target := if decision == REJECT then REJECTED else ANNOTATION_PROCESSING;
            var task := w.episodes[id].taskId;
            var event := if decision == REJECT then EpisodeRejected(id, task, user)
                         else AnnotationProcessingRequested(id, task, user);
            SubmitVerification(w, id, annotationId, decision, user).value.world
            == World(w.episodes[id := w.episodes[id].(status := target)],
                     UpsertVerifyResult(w, annotationId, id, decision).annotations, w.tasks,
                     w.history + [TransitionRecord(id, VERIFICATION_PENDING, target, User(user))],
                     w.events + [event], w.jobRuns)
  {
  }

  lemma VerifyStep(w: World, id: string, annotationId: string, decision: Decision, user: string)
    requires SubmitVerification(w, id, annotationId, decision, user).Ok?
    ensures Step(w, SubmitVerification(w, id, annotationId, decision, user).value.world,
              TransitionRecord(id, VERIFICATION_PENDING,
                               if decision == REJECT then REJECTED else ANNOTATION_PROCESSING, User(user)))
  {
    hide SubmitVerification;
    VerifyShape(w, id, annotationId, decision, user);
  }

  lemma VerifySound(w: World, id: string, annotationId: string, decision: Decision, user: string)
    requires Sound(w)
    ensures var answer := SubmitVerification(w, id, annotationId, decision, user); answer.Ok? ==>
              Sound(answer.value.world)
  {
    hide Sound, Step, SubmitVerification;
    var answer := SubmitVerification(w, id, annotationId, decision, user);
    if answer.Ok? {
      var target := if decision == REJECT then REJECTED else ANNOTATION_PROCESSING;
      VerifyStep(w, id, annotationId, decision, user);
      Stepped(w, answer.value.world, TransitionRecord(id, VERIFICATION_PENDING, target, User(user)));
    }
  }

  lemma AnnotateSound(w: World, id: string, annotationId: string, segments: seq<Segment>, user: string)
    requires Sound(w)
    ensures var answer := SubmitAnnotation(w, id, annotationId, segments, user); answer.Ok? ==>
              Sound(answer.value.world)
  {
    hide Sound, Submittable;
    var answer := SubmitAnnotation(w, id, annotationId, segments, user);
    if answer.Ok? {
      Stepped(w, answer.value.world, TransitionRecord(id, ANNOTATION_PENDING, ANNOTATION_REVIEW, User(user)));
    }
  }

  lemma ReturnStep(w: World, id: string, user: string)
    requires SubmitReview(w, id, REJECT, user).Ok?
    ensures Step(w, SubmitReview(w, id, REJECT, user).value.world,
              TransitionRecord(id, ANNOTATION_REVIEW, ANNOTATION_PENDING, User(user)))
  {
  }

  lemma ApprovalShape(w: World, id: string, user: string)
    requires SubmitReview(w, id, APPROVE, user).Ok?
    ensures id in w.episodes && w.episodes[id].status == ANNOTATION_REVIEW && id in w.annotations
    ensures w.episodes[id].taskId in w.tasks
    ensures var task, row := w.episodes[id].taskId, w.annotations[id];
            SubmitReview(w, id, APPROVE, user).value.world
            == World(w.episodes[id := w.episodes[id].(status := PUBLISHED)],
                     w.annotations[id := row.(reviewed := Some(APPROVE))],
                     w.tasks[task := w.tasks[task].(publishedCount := w.tasks[task].publishedCount + 1)],
                     w.history + [TransitionRecord(id, ANNOTATION_REVIEW, PUBLISHED, User(user))],
                     w.events + [AnnotationApproved(id, task, row.annotationId, |row.segments|, user)], w.jobRuns)
  {
  }

  lemma ApprovalStep(w: World, id: string, user: string)
    requires SubmitReview(w, id, APPROVE, user).Ok?
    ensures Step(w, SubmitReview(w, id, APPROVE, user).value.world,
              TransitionRecord(id, ANNOTATION_REVIEW, PUBLISHED, User(user)))
  {
    hide SubmitReview;
    ApprovalShape(w, id, user);
  }

  lemma ReviewSound(w: World, id: string, decision: Decision, user: string)
    requires Sound(w)
    ensures var answer := SubmitReview(w, id, decision, user); answer.Ok? ==> Sound(answer.value.world)
  {
    hide Sound, Step, SubmitReview;
    var answer := SubmitReview(w, id, decision, user);
    if answer.Ok? {
      var target := if decision == REJECT then ANNOTATION_PENDING else PUBLISHED;
      if decision == REJECT {
        ReturnStep(w, id, user);
      } else {
        ApprovalStep(w, id, user);
      }
      Stepped(w, answer.value.world, TransitionRecord(id, ANNOTATION_REVIEW, target, User(user)));
    }
  }

  /** A new episode has no records yet; a new task has no events yet. */
  lemma CreateSound(w: World, c: Command)
    requires Sound(w) && (c.CreateTask? || c.CreateEpisode?)
    ensures Sound(Apply(w, c))
  {
    hide Legal, Project, KeysOf, CountKeys, UserReturnsOf;
    if c.CreateEpisode? && c.id !in w.episodes {
      NoRecords(w.history, c.id);
      ProjectSame(w.history, TaskIds(w.episodes), TaskIds(Apply(w, c).episodes));
    }
  }

  lemma {:induction false} NoRecords(h: seq<TransitionRecord>, id: string)
    requires forall r :: r in h ==> r.episodeId != id
    ensures StatusAfter(h, id) == INITIAL_STATE
  {
    if h != [] {
      NoRecords(h[..|h| - 1], id);
    }
  }

  /** Every step of the platform, of whatever kind and for whichever episode. */
  lemma ApplySound(w: World, c: Command)
    requires Sound(w)
    ensures Sound(Apply(w, c))
  {
    hide Sound, Transition, HandleUploadComplete, HandleAlgoResult, SubmitVerification, SubmitAnnotation, SubmitReview;
    match c
    case CreateTask(_) => CreateSound(w, c);
    case CreateEpisode(_, _) => CreateSound(w, c);
    case StartUpload(id) => AnyTransitionSound(w, id, UPLOADING, AGENT_REPORT);
    case StatusReport(id, target) => AnyTransitionSound(w, id, target, AGENT_REPORT);
    case UploadComplete(id, meta, stored) => UploadCompleteSound(w, id, meta, stored);
    case AlgoResult(id, results, complete) => AlgoResultSound(w, id, results, complete);
    case AnnotationProcessing(id, succeeded) =>
      var runs := [JobRun(id, ANNOTATION_PROCESSING_RUN, succeeded)];
      LogSound(w, runs);
      AnyTransitionSound(Log(w, runs), id, if succeeded then ANNOTATION_PENDING else FAILED, SCHEDULER);
    case Verify(id, annotationId, decision, user) => VerifySound(w, id, annotationId, decision, user);
    case Annotate(id, annotationId, segments, user) => AnnotateSound(w, id, annotationId, segments, user);
    case Review(id, decision, user) => ReviewSound(w, id, decision, user);
  }

  lemma LogSound(w: World, runs: seq<JobRun>)
    requires Sound(w)
    ensures Sound(Log(w, runs))
  {
  }

  /** A system component's transition announces nothing, except by the upload callback. */
  lemma AnyTransitionSound(w: World, id: string, target: EpisodeStatus, actor: Actor)
    requires Sound(w) && actor.System? && actor != UPLOAD_CALLBACK
    ensures var answer := Transition(w, id, target, actor); answer.Ok? ==> Sound(answer.value.world)
  {
    hide Sound;
    if id in w.episodes {
      TransitionSound(w, w, id, target, actor);
    }
  }

  lemma EmptySound()
    ensures Sound(EMPTY)
  {
  }

  /** Over every run, with any number of episodes, replays and status reports. */
  lemma {:induction false} RunSound(w: World, commands: seq<Command>)
    requires Sound(w)
    ensures Sound(Run(w, commands))
    decreases |commands|
  {
    hide Sound, Apply;
    if commands != [] {
      ApplySound(w, commands[0]);
      RunSound(Apply(w, commands[0]), commands[1..]);
    }
  }
}
