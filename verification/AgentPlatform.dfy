/**
 Agent and platform together: what becomes of the platform's episode when the agent takes its
 row for finished (agent/src/agent/collector.py, agent/src/agent/recovery.py,
 platform/app/services/episode_lifecycle.py).
 */
module AgentPlatform {
  import opened Basics
  import opened ChunkedUpload
  import opened AgentStore
  import opened Uploader
  import opened Recovery
  import opened StateMachine
  import Segments
  import L = Lifecycle
  import LifecycleTheorems

  // ---------------------------------------------------------------- the platform's side

  /** How far the upload of an episode is: not begun, begun, or over. */
  datatype Phase = Waiting | Sending | Over

  function PhaseOf(status: EpisodeStatus): Phase {
    match status
    case RECORDING => Waiting
    case UPLOADING => Sending
    case _ => Over
  }

  predicate Concerns(c: L.Command, id: string) {
    c == L.StartUpload(id) || (c.UploadComplete? && c.id == id)
  }

  /** A status report, or a failure of another step, can take an episode out of its upload by itself. */
  predicate Interferes(c: L.Command, id: string) {
    || (c.StatusReport? && c.id == id)
    || (c.AlgoResult? && c.id == id && c.pipelineComplete && !L.AllSucceeded(c.results))
    || (c.AnnotationProcessing? && c.id == id && !c.succeeded)
  }

  function Next(phase: Phase, begins: bool): Phase {
    match phase
    case Waiting => if begins then Sending else Waiting
    case Sending => if begins then Sending else Over
    case Over => Over
  }

  /** The episode with its task, for which nothing but its own upload is going on. */
  ghost predicate Registered(w: L.World, id: string) {
    id in w.episodes && w.episodes[id].taskId in w.tasks
  }

  /** The platform finds the checksum that was declared, or no object at all. */
  predicate Matches(c: L.Command) {
    c.UploadComplete? ==> c.stored.None? || c.stored.value == c.meta.checksum
  }

  /** A report that does not match moves nothing. */
  function Moved(phase: Phase, c: L.Command): Phase {
    if Matches(c) then Next(phase, c.StartUpload?) else phase
  }

  lemma ConcernedStep(w: L.World, c: L.Command, id: string)
    requires Registered(w, id) && Concerns(c, id)
    ensures Registered(L.Apply(w, c), id)
    ensures PhaseOf(L.Apply(w, c).episodes[id].status) == Moved(PhaseOf(w.episodes[id].status), c)
  {
  }

  lemma KeepsTask(w: L.World, c: L.Command, id: string)
    requires Registered(w, id)
    ensures Registered(L.Apply(w, c), id)
  {
    hide L.Apply;
    LifecycleTheorems.StepForward(w, c, id);
    TasksStay(w, c, w.episodes[id].taskId);
  }

  lemma TasksStay(w: L.World, c: L.Command, task: string)
    requires task in w.tasks
    ensures task in L.Apply(w, c).tasks
  {
    hide L.SegmentsOf, L.KeyFramesOf, L.QualityOf, L.RunsOf, L.ResultOk, L.Submittable, L.AllSucceeded, CanTransition;
  }

  /** A transition to a status that is not the next one, nor a failure, does not leave the upload. */
  lemma TransitionWaits(w: L.World, x: string, target: EpisodeStatus, actor: L.Actor, id: string)
    requires id in w.episodes
    requires x == id ==> target !in {UPLOADING, UPLOADED, EpisodeStatus.FAILED}
    ensures var answer := L.Transition(w, x, target, actor);
            answer.Ok? ==>
              && id in answer.value.world.episodes
              && PhaseOf(answer.value.world.episodes[id].status) == PhaseOf(w.episodes[id].status)
  {
  }

  lemma OtherStep(w: L.World, c: L.Command, id: string)
    requires id in w.episodes && !Concerns(c, id) && !Interferes(c, id)
    ensures id in L.Apply(w, c).episodes
    ensures PhaseOf(L.Apply(w, c).episodes[id].status) == PhaseOf(w.episodes[id].status)
  {
    hide L.SegmentsOf, L.KeyFramesOf, L.QualityOf, L.RunsOf, L.ResultOk, L.Submittable, L.AllSucceeded, L.Transition;
    match c
    case CreateTask(_) =>
    case CreateEpisode(_, _) =>
    case StartUpload(x) => TransitionWaits(w, x, UPLOADING, L.AGENT_REPORT, id);
    case StatusReport(x, target) => TransitionWaits(w, x, target, L.AGENT_REPORT, id);
    case UploadComplete(_, _, _) =>
    case AlgoResult(x, results, complete) =>
      if x in w.episodes && complete {
        TransitionWaits(L.Attached(w, x, results), x,
                        if L.AllSucceeded(results) then VERIFICATION_PENDING else EpisodeStatus.FAILED,
                        L.SCHEDULER, id);
      }
    case AnnotationProcessing(x, succeeded) =>
      TransitionWaits(L.Log(w, [L.JobRun(x, Segments.ANNOTATION_PROCESSING_RUN, succeeded)]), x,
                      if succeeded then ANNOTATION_PENDING else EpisodeStatus.FAILED, L.SCHEDULER, id);
    case Verify(_, _, _, _) => VerifyWaits(w, c, id);
    case Annotate(_, _, _, _) => AnnotateWaits(w, c, id);
    case Review(_, _, _) => ReviewWaits(w, c, id);
  }

  lemma VerifyWaits(w: L.World, c: L.Command, id: string)
    requires c.Verify? && id in w.episodes
    ensures id in L.Apply(w, c).episodes
    ensures PhaseOf(L.Apply(w, c).episodes[id].status) == PhaseOf(w.episodes[id].status)
  {
  }

  lemma AnnotateWaits(w: L.World, c: L.Command, id: string)
    requires c.Annotate? && id in w.episodes
    ensures id in L.Apply(w, c).episodes
    ensures PhaseOf(L.Apply(w, c).episodes[id].status) == PhaseOf(w.episodes[id].status)
  {
    hide L.Submittable;
  }

  lemma ReviewWaits(w: L.World, c: L.Command, id: string)
    requires c.Review? && id in w.episodes
    ensures id in L.Apply(w, c).episodes
    ensures PhaseOf(L.Apply(w, c).episodes[id].status) == PhaseOf(w.episodes[id].status)
  {
  }

  /** The phase after the commands that concern the episode, one after the other. */
  function PhaseAfter(phase: Phase, commands: seq<L.Command>, id: string): Phase
    decreases |commands|
  {
    if commands == [] then phase
    else PhaseAfter(if Concerns(commands[0], id) then Moved(phase, commands[0]) else phase, commands[1..], id)
  }

  /** Among any commands about any episodes that do not interfere, the phase of an episode is decided
      by its own upload's requests; a report with another checksum than the stored object's is none. */
  lemma {:induction false} RunHasPhase(w: L.World, commands: seq<L.Command>, id: string)
    requires Registered(w, id)
    requires forall c :: c in commands ==> !Interferes(c, id)
    ensures var w' := L.Run(w, commands);
            Registered(w', id)
            && PhaseOf(w'.episodes[id].status) == PhaseAfter(PhaseOf(w.episodes[id].status), commands, id)
    decreases |commands|
  {
    hide L.Apply, PhaseOf, Moved, Interferes, Concerns;
    if commands != [] {
      var c := commands[0];
      KeepsTask(w, c, id);
      if Concerns(c, id) {
        ConcernedStep(w, c, id);
      } else {
        OtherStep(w, c, id);
      }
      RunHasPhase(L.Apply(w, c), commands[1..], id);
    }
  }

  // ---------------------------------------------------------------- the requests between them

  function EpisodeOf(r: Request): string {
    match r
    case Started(id) => id
    case Uploaded(report) => report.episodeId
  }

  function About(requests: seq<Request>, id: string): seq<Request> {
    if requests == [] then []
    else (if EpisodeOf(requests[0]) == id then [requests[0]] else []) + About(requests[1..], id)
  }

  /** The command that a request becomes. With a report the platform computes the checksum of the object that is stored
      then; a reported object is final, so that is the one stored now. */
  ghost predicate Carries(c: L.Command, r: Request, files: map<string, seq<byte>>, sha256: seq<byte> -> Checksum) {
    match r
    case Started(id) => c == L.StartUpload(id)
    case Uploaded(report) =>
      && c.UploadComplete? && c.id == report.episodeId
      && c.meta.objectKey == report.objectKey && c.meta.checksum == report.checksum
      && c.stored == if report.objectKey in files then Some(sha256(files[report.objectKey])) else None
  }

  /** Among the platform's commands, those that concern the episode's upload are the agent's requests about it, in
      their order. Anything else may come between them. */
  ghost predicate Delivered(commands: seq<L.Command>, requests: seq<Request>, id: string,
                            files: map<string, seq<byte>>, sha256: seq<byte> -> Checksum)
    decreases |commands|
  {
    if commands == [] then requests == []
    else if !Concerns(commands[0], id) then Delivered(commands[1..], requests, id, files, sha256)
    else
      && requests != [] && Carries(commands[0], requests[0], files, sha256)
      && Delivered(commands[1..], requests[1..], id, files, sha256)
  }

  function PhaseAfterRequests(phase: Phase, requests: seq<Request>): Phase
    decreases |requests|
  {
    if requests == [] then phase else PhaseAfterRequests(Next(phase, requests[0].Started?), requests[1..])
  }

  lemma {:induction false} SamePhase(phase: Phase, commands: seq<L.Command>, requests: seq<Request>, id: string,
                                     files: map<string, seq<byte>>, sha256: seq<byte> -> Checksum)
    requires Delivered(commands, requests, id, files, sha256)
    requires forall c :: c in commands && Concerns(c, id) ==> Matches(c)
    ensures PhaseAfter(phase, commands, id) == PhaseAfterRequests(phase, requests)
    decreases |commands|
  {
    if commands != [] {
      if Concerns(commands[0], id) {
        SamePhase(Next(phase, requests[0].Started?), commands[1..], requests[1..], id, files, sha256);
      } else {
        SamePhase(phase, commands[1..], requests, id, files, sha256);
      }
    }
  }

  predicate Reported(requests: seq<Request>, id: string) {
    exists r :: r in requests && r.Uploaded? && r.report.episodeId == id
  }

  /** Where an upload gets when it begins before it is reported: if it never begins, nowhere. */
  lemma {:induction false} PhaseIsDecided(phase: Phase, requests: seq<Request>, id: string)
    requires StartsFirst(requests)
    ensures PhaseAfterRequests(phase, About(requests, id))
         == match phase
            case Over => Over
            case Sending => if Reported(requests, id) then Over else Sending
            case Waiting =>
              if id !in Begun(requests) then Waiting else if Reported(requests, id) then Over else Sending
    decreases |requests|
  {
    hide Begun;
    if requests != [] {
      var r, rest := requests[0], requests[1..];
      StartsFirstTail(requests);
      assert requests == [r] + rest;
      PhaseIsDecided(if EpisodeOf(r) == id then Next(phase, r.Started?) else phase, rest, id);
      AboutCons(r, rest, id, phase);
      assert Reported(requests, id) <==> Reported(rest, id) || (r.Uploaded? && r.report.episodeId == id);
      assert Started(id) in requests <==> Started(id) in rest || r == Started(id);
    }
  }

  lemma StartsFirstTail(requests: seq<Request>)
    requires StartsFirst(requests) && requests != []
    ensures StartsFirst(requests[1..])
    ensures requests[0].Uploaded? ==> requests[0].report.episodeId !in Begun(requests[1..])
  {
    var rest := requests[1..];
    assert forall i :: 0 <= i < |rest| ==> rest[i] == requests[i + 1];
  }

  lemma AboutCons(r: Request, rest: seq<Request>, id: string, phase: Phase)
    ensures PhaseAfterRequests(phase, About([r] + rest, id))
         == PhaseAfterRequests(if EpisodeOf(r) == id then Next(phase, r.Started?) else phase, About(rest, id))
  {
    assert ([r] + rest)[1..] == rest;
    assert ([r] + About(rest, id))[1..] == About(rest, id);
    assert [] + About(rest, id) == About(rest, id);
  }

  // ---------------------------------------------------------------- what a finished row is worth

  lemma ReportsMatch(agent: Agent, commands: seq<L.Command>, requests: seq<Request>, id: string)
    requires agent.Valid() && forall r :: r in requests ==> r in agent.platform.requests
    requires Delivered(commands, requests, id, agent.uploader.objects.files, agent.uploader.sha256)
    ensures forall c :: c in commands && Concerns(c, id) ==> Matches(c)
    decreases |commands|
  {
    if commands != [] {
      if Concerns(commands[0], id) {
        var r := requests[0];
        assert r in agent.platform.requests;
        assert r.Uploaded? ==> Uploaded(r.report) in agent.platform.requests;
        ReportsMatch(agent, commands[1..], requests[1..], id);
      } else {
        ReportsMatch(agent, commands[1..], requests, id);
      }
    }
  }

  lemma AboutSome(requests: seq<Request>, id: string)
    ensures forall r :: r in About(requests, id) ==> r in requests
  {
  }

  /** Whatever the agent's first run and its recoveries went through: after the platform has handled the requests that
      arrived, among any other commands that do not interfere, the episode is where those requests take it. */
  lemma EpisodeFollowsRequests(agent: Agent, w: L.World, commands: seq<L.Command>, id: string)
    requires agent.Valid() && Registered(w, id) && w.episodes[id].status == RECORDING
    requires forall c :: c in commands ==> !Interferes(c, id)
    requires Delivered(commands, About(agent.platform.requests, id), id, agent.uploader.objects.files,
                       agent.uploader.sha256)
    ensures var w', requests := L.Run(w, commands), agent.platform.requests;
            && id in w'.episodes
            && PhaseOf(w'.episodes[id].status)
               == if id !in Begun(requests) then Waiting else if Reported(requests, id) then Over else Sending
  {
    hide Interferes, Delivered, Begun, Concerns, Matches, Next;
    var requests := agent.platform.requests;
    AboutSome(requests, id);
    ReportsMatch(agent, commands, About(requests, id), id);
    RunHasPhase(w, commands, id);
    SamePhase(Waiting, commands, About(requests, id), id, agent.uploader.objects.files, agent.uploader.sha256);
    PhaseIsDecided(Waiting, requests, id);
  }

  /** When the agent takes an episode for finished, the platform has its upload if and only if the platform was told
      that the upload begins. Otherwise the episode is, and stays, in RECORDING. */
  lemma FinishedIsUploadedIffBegun(agent: Agent, w: L.World, commands: seq<L.Command>, id: string)
    requires agent.Valid() && id in agent.store.rows && !agent.store.rows[id].Unfinished()
    requires Registered(w, id) && w.episodes[id].status == RECORDING
    requires forall c :: c in commands ==> !Interferes(c, id)
    requires Delivered(commands, About(agent.platform.requests, id), id, agent.uploader.objects.files,
                       agent.uploader.sha256)
    ensures var w' := L.Run(w, commands);
            && id in w'.episodes
            && (w'.episodes[id].status !in {RECORDING, UPLOADING} <==> id in Begun(agent.platform.requests))
            && (w'.episodes[id].status == RECORDING <==> id !in Begun(agent.platform.requests))
  {
    hide Interferes, Delivered, Begun, L.Run;
    EpisodeFollowsRequests(agent, w, commands, id);
    FinishedIsReported(agent, id);
  }

  lemma FinishedIsReported(agent: Agent, id: string)
    requires agent.Valid() && id in agent.store.rows && !agent.store.rows[id].Unfinished()
    ensures Reported(agent.platform.requests, id)
  {
    var r :| Uploaded(r) in agent.platform.requests && r.episodeId == id;
    assert Uploaded(r).report.episodeId == id;
  }

  /** Recovery without faults finishes a recoverable row. */
  lemma FinishedByRecovery(order: seq<string>, before: map<string, EpisodeRecord>, after: map<string, EpisodeRecord>,
                           present: set<string>, report: RecoveryReport, id: string)
    requires Accounts(order, before, after, report) && FailsOnlyUnrecoverable(order, before, present, report)
    requires id in order && id in before && id in after && before[id].Unfinished() && Recoverable(before[id], present)
    ensures !after[id].Unfinished()
  {
    assert id in UnfinishedIds(order, before);
  }

  lemma OrderHasRows(agent: Agent, id: string)
    requires agent.Valid() && id in agent.store.rows
    ensures id in agent.store.order
  {
  }

  /** The first run loses the request that begins the upload, and nothing fails afterwards. Recovery uploads the
      recording and finishes the row, and the platform was not told that its upload begins. */
  method LoseStart(agent: Agent, id: string, taskId: string, localPath: string)
    requires agent.Valid() && id !in agent.store.rows && localPath in agent.recordings
    requires agent.faults.script == [Fine, Fine, Fine, Error(0)]
    modifies agent.Repr, agent.disk
    ensures agent.Valid() && id in agent.store.rows && !agent.store.rows[id].Unfinished()
    ensures Begun(agent.platform.requests) == Begun(old(agent.platform.requests))
  {
    hide Agent.Valid, Accounts, FailsOnlyUnrecoverable, Recoverable, Begun, KeyOf;
    var outcome := agent.CollectOnce(id, taskId, localPath, 0, []);
    OrderHasRows(agent, id);
    ghost var before := agent.store.rows;
    var report := agent.Recover();
    FinishedByRecovery(agent.store.order, before, agent.store.rows, agent.disk.present, report.value, id);
  }

  /** There is such a run for every recording, with a new agent. */
  method LostStart(id: string, taskId: string, localPath: string, content: seq<byte>, chunkSize: nat, maxRetries: nat,
                   sha256: seq<byte> -> Checksum) returns (agent: Agent)
    requires chunkSize > 0
    ensures agent.Valid() && id in agent.store.rows && !agent.store.rows[id].Unfinished()
    ensures Begun(agent.platform.requests) == {}
  {
    hide Agent.Valid;
    var faults := new FaultScript([Fine, Fine, Fine, Error(0)]);
    var store := new StateStore(faults);
    var objects := new ObjectStore();
    var uploader := new LocalChunkUploader(objects, faults, chunkSize, maxRetries, sha256);
    var platform := new PlatformClient(faults);
    var disk := new RecordingDir(faults, {});
    agent := new Agent(store, uploader, platform, faults, map[localPath := content], disk);
    LoseStart(agent, id, taskId, localPath);
  }

  /** The platform's side of such a run. */
  lemma LostStartStaysRecording(id: string, taskId: string, meta: L.UploadMeta)
    ensures var w := L.Run(L.EMPTY, [L.CreateTask(taskId), L.CreateEpisode(id, taskId),
                                     L.UploadComplete(id, meta, Some(meta.checksum))]);
            id in w.episodes && w.episodes[id].status == RECORDING && w.events == []
            && L.Handle(w, L.UploadComplete(id, meta, Some(meta.checksum))).Ok?
  {
    var done := L.UploadComplete(id, meta, Some(meta.checksum));
    var w1 := L.Apply(L.EMPTY, L.CreateTask(taskId));
    var w2 := L.Apply(w1, L.CreateEpisode(id, taskId));
    var commands := [L.CreateTask(taskId), L.CreateEpisode(id, taskId), done];
    assert commands[1..] == [L.CreateEpisode(id, taskId), done] && commands[1..][1..] == [done] && [done][1..] == [];
    assert L.Run(w2, [done]) == L.Apply(w2, done);
    assert L.Run(w1, commands[1..]) == L.Run(w2, [done]);
  }
}
