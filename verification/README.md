# RobotDataHub: verified model

RobotDataHub collects robot recordings on acquisition PCs, uploads them in parts, processes
them through a queue, and moves each Episode through a guarded lifecycle with human
verification, annotation and review until it is published and listed in training sets. This
project models that logic in Dafny and proves what the parts promise each other.
`dafny verify dfyconfig.toml` checks everything.

## How it is built

- **Upload and recovery (agent).** `ChunkedUpload` is a step function: every action that touches
  durable state (creating the target, reading a chunk, writing it, persisting a part number,
  reading the target back) consumes one entry of a fault script, which says that it succeeds,
  fails after writing some of its bytes, or is the point where the process dies. Quantifying over
  all scripts is quantifying over a crash at every point. `AgentStore`, `Uploader` and `Recovery`
  are the mutable classes (database rows, object store, uploader, agent) proved against it, so
  the agent's invariant holds however its methods end. `AgentPlatform` puts the agent beside the
  platform's lifecycle and says where an episode gets that the agent takes for finished.
- **Episode lifecycle (platform).** `Lifecycle` gives each handler as a function on the tables; a
  handler and its commit are one step, and a handler that raises leaves nothing. `LifecycleRuns`
  proves the invariant of all runs of all commands over many episodes, `LifecycleTheorems` reads
  the promises off it, and `Answers` checks every handler against an independent table of answers.
  `Verification`, `Approval`, `Agreement` and `LateReturns` say what a verification and a review
  guarantee about publishing, about segments and about revisions, each with the exact requests that
  can break it, and `PlatformServices` holds the services and repositories as classes that carry
  out exactly those functions. `Datasets` rests on PUBLISHED being final.
- **File queue (scheduler).** `FileQueue` has the consumer and the drain loop as classes; the
  reference is a fold over the directory listing in name order.
- **Type export (contract).** `TsTypes` has the translator from JSON Schema nodes to TypeScript
  text, a reader of TypeScript type expressions, and the meaning of both languages over JSON values.
- **Segments.** `Sorting`, `Segments` and `Editor` hold the stable sort, the neighbour overlap check,
  the contract's bounds on a segment, the timeline editing functions and the undo/redo history;
  `Recording`, `Preannotate` and `KeyFrames` the two operators; `Proposals` what the front end
  makes of the pre-annotation.
- **`FileFlow`** moves recordings between stage folders; **`Throttle`** decides which progress
  reports are written.

## Where the code and what it says differ

- `mergeSegments` is documented to return non-adjacent segments unchanged
  (tool/src/components/timeline/segmentMath.ts:126), but there is no adjacency test.
  `Editor.MergeIsValidIffNeighbours` says exactly when its result is valid, and
  `Editor.MergeAcrossAThirdOverlaps` shows an input whose result is not.
- The front end's validation is meant to agree with the server's
  (tool/src/components/timeline/segmentMath.ts:4-5), but measures no description and takes
  fractional times. `Editor.AcceptedIsSubmittableIffSendable` says exactly which of the lists it
  accepts the server accepts; `Editor.LongDescriptionIsRefused` and `Editor.FractionalSplit` are
  two it refuses, the second after a split at the playhead. `Editor.AcceptedEditsAreSubmittable`
  says which edits never lead to such a list.
- The pre-annotation is meant as the annotator's starting point, but its last segment reaches to
  200 ms after the last gripper message, even beyond the recording.
  `Proposals.ProposalIsAcceptedIffTimeIsLeft` says exactly when the front end takes it unedited;
  for a recording of the agent's recorder that is not empty it never does
  (`Proposals.RecordedProposalIsRefused`).
- If the request that begins an upload is lost (agent/src/agent/collector.py:98), recovery uploads
  and reports without it, and the platform answers the report without doing anything
  (platform/app/services/episode_lifecycle.py:116-117). The agent takes the episode for finished,
  the platform keeps it in RECORDING: `AgentPlatform.FinishedIsUploadedIffBegun` says that this
  happens exactly then, `AgentPlatform.LostStart` is such a run.
- `ts_type` quotes every constant as it is. The result is right exactly for strings that need no
  escaping (`TsTypes.ConstIsExactIffCleanString`, `TsTypes.EnumIsExactIffCleanStrings`): a member
  that is no string does not belong to the type, the constant `"` gives no type expression, and
  `a" | "b` gives the type of two other strings (`TsTypes.QuotesBreakTheText`).
- A status report may request any legal edge, and a partial pipeline result stores its segments in
  any state. Both can make an episode under review differ from its annotation:
  `Agreement.SafeIsExact` says exactly which requests can.
- A status report to PUBLISHED publishes an annotation under review that nobody approved, with no
  event and no count: `Approval.UngatedBreaks`. Apart from such reports every published episode was
  approved by a reviewer: `Approval.GateIsExact`.
- A status report to ANNOTATION_PROCESSING takes an episode past the verifier, and it is the only
  request that does: `Verification.ProperIsExact`.
- `finish_annotation_processing` is for episodes in ANNOTATION_PROCESSING
  (platform/app/services/episode_lifecycle.py:182-187), but checks only the edge. A late success,
  like a status report, takes ANNOTATION_REVIEW back to ANNOTATION_PENDING as a system step, which
  the revision does not count: `LateReturns.LateSuccess` is such a run, `LateReturns.LateIsExact`
  says exactly when it happens.
- A repeated callback is meant to be recognised and to change nothing
  (platform/app/services/episode_lifecycle.py:10). So it is, but for the job-run log, which records
  a repeated pipeline callback once more: `LifecycleTheorems.ReplayIsIdempotent`.

## Assumptions

- The source file does not change, the chunk size is the same on every run, nobody else writes
  the target, and a flushed write is durable.
- SHA-256 is an arbitrary function of the bytes.
- Ids handed out by `uuid` are fresh where a property needs it (the right half of a split segment).
- Event ids are not empty, as the publisher guarantees (platform/app/services/event_publisher.py:61).
- The contract strips white space around every string it receives. Commands carry the stripped
  strings; `Segments.Parsed` does it for what the front end sends, for the characters that Unicode
  calls white space.
- A TypeScript string literal is that of ECMAScript 2019 and later, where only a line feed and a
  carriage return end a line.
- What a `$ref` accepts belongs to the exported type of that name (`TsTypes.Resolves`).

## Model

| member | source | states |
|---|---|---|
| ChunkedUpload.CeilingBounds | agent/src/agent/uploader/chunked.py:38-42 | `plan_parts` is the least number of chunks that covers the file, and one for the empty file |
| ChunkedUpload.PartsTileTheFile | agent/src/agent/uploader/chunked.py:95-100 | every byte of the file lies in exactly one part's byte range |
| ChunkedUpload.WritePartEffect | agent/src/agent/uploader/chunked.py:115-130 | however often a part write is torn and retried, the other parts stay correct, and a write that reports success has made its own part correct |
| ChunkedUpload.OnePartSafe | agent/src/agent/uploader/chunked.py:95-104 | reading, writing and persisting one part, with a fault anywhere, keeps every persisted part correct; only a completely written part is marked |
| ChunkedUpload.AllPartsCorrect | agent/src/agent/uploader/chunked.py:94-106 | a target all of whose parts are persisted equals the source byte for byte |
| ChunkedUpload.UploadSafe | agent/src/agent/uploader/chunked.py:61-113 | one call of `upload`, re-entered with the persisted parts under any faults: persisted parts stay correct and none is lost, at most one started write is not marked, and a call that returns has copied the file with parts exactly 1..total |
| ChunkedUpload.UploadWithoutFaults | agent/src/agent/uploader/chunked.py:61-113 | without faults `upload` returns, whatever state it starts from |
| ChunkedUpload.RetriesAreExact | agent/src/agent/uploader/chunked.py:115-130 | for every fault script: a part write is exhausted if and only if the first max_retries + 1 attempts fail, otherwise the first attempt that does not fail decides, and exactly the attempts made are used up |
| ChunkedUpload.UploadHasFate | agent/src/agent/uploader/chunked.py:61-113 | for every fault script, whether an upload returns, raises or dies is what counting the failures before each missing part's write says |
| ChunkedUpload.FewFailuresAreOvercome | agent/src/agent/uploader/chunked.py:121-130 | an upload whose only faults are at most max_retries failures of each part's write returns |
| ChunkedUpload.LiveSafe | agent/src/agent/recovery.py:88-112 | safety, completeness and write accounting carried through any number of re-entries from any correct state |
| ChunkedUpload.UploadSurvivesInterruptions | agent/src/agent/uploader/chunked.py:61-113 | from a first upload through any number of crashes and exhausted parts: no persisted part is ever wrong, a run that returns has copied the file, and at most total_parts + k part writes are started for k interruptions |
| Uploader.LocalChunkUploader.Preallocate | agent/src/agent/uploader/chunked.py:79-82 | the target file is created or replaced exactly when it is missing or has another length |
| Uploader.LocalChunkUploader.WritePart | agent/src/agent/uploader/chunked.py:115-130 | the retry loop changes only the target, as the step function with its exact number of attempts says; it is cut short only by a crash |
| Uploader.LocalChunkUploader.SendPart | agent/src/agent/uploader/chunked.py:98-104 | one turn of the loop leaves the file, the part numbers and the write count of the step function |
| Uploader.LocalChunkUploader.SendParts | agent/src/agent/uploader/chunked.py:94-104 | the part loop over the growing set `done` refines the recursive run |
| Uploader.LocalChunkUploader.Upload | agent/src/agent/uploader/chunked.py:61-113 | whatever faults come, the durable state and the outcome are those of `ChunkedUpload.Upload`, and only this episode's file and part numbers change; an `OSError` is told apart from the end of the process |
| AgentStore.StateStore.RecordEpisode | agent/src/agent/store/sqlite.py:96-107 | the row is created afresh as the newest one, or nothing happens |
| AgentStore.StateStore.FinishRecording | agent/src/agent/store/sqlite.py:109-135 | one autocommitted statement stores exactly what is known about the recording |
| AgentStore.StateStore.StartUpload | agent/src/agent/store/sqlite.py:137-153 | one autocommitted statement sets exactly the target, the number of parts and the status; persisted parts stay |
| AgentStore.StateStore.MarkPartUploaded | agent/src/agent/store/sqlite.py:155-171 | one part number is added and none lost; an unknown episode changes nothing |
| AgentStore.StateStore.CompleteUpload | agent/src/agent/store/sqlite.py:173-180 | one autocommitted statement changes exactly this row's status and clears its error |
| AgentStore.StateStore.FailUpload | agent/src/agent/store/sqlite.py:182-194 | one autocommitted statement changes exactly this row's status and error |
| AgentStore.StateStore.MarkCallbackDone | agent/src/agent/store/sqlite.py:196-202 | one autocommitted statement sets exactly this row's callback flag |
| AgentStore.StateStore.Unfinished | agent/src/agent/store/sqlite.py:212-227 | every row that still needs an upload or a callback, each once, oldest first |
| AgentStore.UnfinishedAgain | agent/src/agent/store/sqlite.py:212-227 | after some rows were finished and none was undone, a new scan is the old scan's list filtered |
| Recovery.RowAfterUpload | agent/src/agent/recovery.py:101-106 | a run of the uploader keeps the episode's row and its file in order, its persisted parts grow, and the reports already sent stay true |
| Recovery.EverythingAfterUpload | agent/src/agent/recovery.py:88-112 | the same for all episodes of the database at once: other rows and other reports are untouched |
| Recovery.CompletedReportOk | agent/src/agent/recovery.py:114-128 | for a completed row the stored object equals the recording, so the declared checksum is the one the platform recomputes |
| Recovery.Agent.UploadRecording | agent/src/agent/recovery.py:88-106 | re-entering the uploader with the persisted parts keeps the agent's invariant and touches only this row's part numbers; success means all parts and the full outcome |
| Recovery.Agent.Send | agent/src/agent/recovery.py:88-112 | upload and bookkeeping keep the invariant wherever they stop; success leaves the row COMPLETED; an exception to be handled comes out if and only if the upload raised, and the agent ends only by a crash or a failing database statement |
| Recovery.Agent.SendReport | agent/src/agent/collector.py:118-127 | report first, then the flag: a report whose answer is lost, or after which the agent dies, has arrived and is true, and the row still needs its callback |
| Recovery.Agent.ResendCallback | agent/src/agent/recovery.py:114-128 | without faults it succeeds exactly when the row has a target key and a checksum |
| Recovery.Agent.RecoverOrFail | agent/src/agent/recovery.py:63-79 | one turn: the row is finished, or marked FAILED and reported as such; resumed and resent are counted truly; the platform is told of no further upload; it ends the agent only by a crash or a failing database statement |
| Recovery.Agent.Recover | agent/src/agent/recovery.py:51-86 | it returns its report if and only if no process crash and no failing database statement comes, whatever uploads and requests fail; then the unfinished episodes are exactly the reported failures, in creation order and marked FAILED, all others are COMPLETED with the callback done, finished rows are untouched, no part number is lost, and the counts agree with the tables; it tells the platform of no further upload; without faults it fails on exactly the unrecoverable rows |
| Recovery.Agent.CollectOnce | agent/src/agent/collector.py:62-135 | row first, then the recording: however the first run ends, even before or within the recording, the invariant holds, so the agent can recover; if it succeeds the stored object is the recording and the platform was told, in this order, that the upload begins and its checksum; if the first of these requests is lost the row is recoverable and nothing arrived |
| Recovery.Agent.Register | agent/src/agent/collector.py:71-88 | a run that ends between the row and the recording leaves a row without checksum whose file may be missing or incomplete, and the invariant |
| AgentPlatform.RunHasPhase | platform/app/services/episode_lifecycle.py:100-156 | among any commands about any episodes, other than status reports and failures about this one, the episode waits, uploads or is uploaded as its own upload's requests say; a report whose checksum does not match is none |
| AgentPlatform.PhaseIsDecided | agent/src/agent/collector.py:97-126 | since no upload begins after its report, where the requests take an episode depends only on whether it began and whether it was reported |
| AgentPlatform.EpisodeFollowsRequests | agent/src/agent/recovery.py:88-128 | however the agent's runs ended, the platform's episode is in RECORDING, in UPLOADING or beyond, exactly as the requests that arrived say |
| AgentPlatform.FinishedIsUploadedIffBegun | agent/src/agent/recovery.py:114-128 | for a row that the agent takes for finished, the platform's episode has left the upload if and only if the platform was told that the upload begins; otherwise it is in RECORDING |
| AgentPlatform.LoseStart | agent/src/agent/collector.py:97-98 | from every state of the agent: the request that begins the upload is lost, then nothing fails, recovery finishes the row, and the platform was not told |
| AgentPlatform.LostStart | agent/src/agent/collector.py:97-98 | such a run exists for a new agent and every recording |
| AgentPlatform.LostStartStaysRecording | platform/app/services/episode_lifecycle.py:111-117 | the platform's side of it: the report is answered as a success, the episode stays in RECORDING and no event is published |
| StateMachine.EdgesClimb | contract/src/rdh_contract/state_machine.py:38-103 | every edge climbs in rank except the return from review to annotation, and terminal states have no edges |
| LifecycleRuns.TransitionSound | platform/app/services/episode_lifecycle.py:79-98 | a guarded transition after harmless edits keeps history, events, counters and revisions consistent |
| LifecycleRuns.UploadCompleteSound | platform/app/services/callbacks.py:52-77 | the upload callback's two recorded steps, one event and one counter keep them consistent |
| LifecycleRuns.AlgoResultSound | platform/app/services/callbacks.py:79-118 | so does a pipeline result, complete or partial |
| LifecycleRuns.VerifySound | platform/app/services/review.py:40-62 | so does a verification, with the one event that belongs to its decision |
| LifecycleRuns.AnnotateSound | platform/app/services/review.py:64-87 | so does a submitted annotation |
| LifecycleRuns.ReviewSound | platform/app/services/review.py:89-116 | so does a review: a return raises the revision, an approval announces and counts once |
| LifecycleRuns.RunSound | platform/app/services/episode_lifecycle.py:65-286 | every run from a consistent state stays consistent, whatever is replayed or interleaved |
| LifecycleTheorems.HistoryIsPath | platform/app/repositories/transition.py:69-80 | an episode's history is a contiguous path of legal edges from RECORDING to its status, and nothing follows a terminal state |
| LifecycleTheorems.HistoryLength | contract/src/rdh_contract/state_machine.py:38-103 | a history has at most 8 records plus two for every return from review |
| LifecycleTheorems.EntersOnce | platform/app/services/episode_lifecycle.py:100-156 | a state outside the review loop is entered at most once |
| LifecycleTheorems.HistoryTheorem | platform/app/repositories/episode.py:122-161 | in every run: path, length bound, UPLOADED and PUBLISHED at most once, revision = 1 + the user's returns |
| LifecycleTheorems.EventsTheorem | platform/app/services/episode_lifecycle.py:133-272 | in every run the published events are the projection of the transition history in its order, each with the episode, its task and the actor of the record, and each task's counters are the numbers of matching records |
| LifecycleTheorems.RunForward | contract/src/rdh_contract/state_machine.py:27-33 | over any further commands an episode keeps its task, and a terminal state stays |
| LifecycleTheorems.UploadEventsStayTrue | platform/app/services/episode_lifecycle.py:116-146 | in every run an upload event names the task, object key and checksum that the database has for the episode, then and ever after |
| LifecycleTheorems.UploadReplayIsHarmless | platform/app/services/episode_lifecycle.py:113-117 | a processed upload callback sent again after any other steps changes nothing, as recovery needs |
| LifecycleTheorems.ReplayIsIdempotent | platform/app/services/episode_lifecycle.py:88-92 | every callback and status report repeated at once changes nothing more but the job-run log, which records it again |
| LifecycleTheorems.LogsOnlyGrow | platform/app/repositories/algo_job_run.py:35-51 | over every run the history, the events and the job-run log are append-only |
| Answers.AnswersFollowTheTable | contract/src/rdh_contract/state_machine.py:38-103 | every request about an episode, in every state of the database, is answered as an independent table says: whether and why it is refused, the status it leads to, the records with their actor, and no other episode is touched |
| Answers.CreationIsExact | platform/app/api/routes/episodes.py:78-100 | a task and an episode are created once, the one with counters at zero, the other in RECORDING with nothing else |
| Answers.MalformedResultsAreRefused | contract/src/rdh_contract/schemas/episode.py:34-83 | a pipeline result is refused as malformed if and only if it is empty or a segment, a key-frame score or a quality score is out of bounds |
| Answers.MismatchIsRefused | platform/app/services/callbacks.py:60-65 | a report whose checksum is not the stored object's is refused and changes nothing |
| Answers.AnnouncedUploadsWereChecked | platform/app/services/callbacks.py:52-77 | in every run each upload event comes from a report with its key and checksum, for which the stored object was absent or had exactly that checksum |
| Answers.UploadIsStoredForGood | platform/app/repositories/episode.py:163-180 | what the accepted report says of the recording (key, size, checksum, duration) is what the database says in every later state |
| Answers.SegmentsAreTheLast | platform/app/services/callbacks.py:90-97 | of several pre-annotations the last non-empty one counts |
| Answers.KeyFramesAreTheLast | platform/app/services/callbacks.py:90-97 | of several key-frame results the last non-empty one counts |
| Answers.QualityIsTheLast | platform/app/services/callbacks.py:90-97 | of several quality reports the last one counts |
| Answers.ResultIsStored | platform/app/services/callbacks.py:90-106 | a pipeline result replaces the products it brings, keeps the others, and logs every operator run in order |
| Answers.RunsAreLogged | platform/app/services/callbacks.py:90-91 | one log line per operator result, with its operator and success |
| Answers.VerdictIsStored | platform/app/repositories/annotation.py:40-59 | the verifier's decision is on the episode's annotation, and no other annotation changes |
| Answers.SubmissionIsStored | platform/app/services/review.py:71-81 | the submitted segments are on the episode and its annotation, with the annotator, and no other annotation changes |
| Answers.ReviewIsStored | platform/app/repositories/annotation.py:94-102 | the reviewer's decision is on the annotation, and a return raises the revision by one |
| Verification.OnlyApprovalPasses | platform/app/services/review.py:48-62 | only the verifier's approval brings an episode past the gate, status reports to ANNOTATION_PROCESSING apart |
| Verification.RunVerified | platform/app/services/review.py:40-62 | in every run without such a report, whatever is annotated, reviewed or published was approved by the verifier |
| Verification.ProperIsExact | platform/app/ws/handlers.py:113-125 | a request leaves every episode beyond the gate verified, after every run of proper requests, if and only if it is no status report to ANNOTATION_PROCESSING |
| Verification.RejectedForGood | platform/app/services/review.py:54-59 | a rejected episode is REJECTED at once, with one record and one event of the verifier's, and in every later state |
| LateReturns.RevisionLagsByLateRequests | platform/app/services/episode_lifecycle.py:179-198 | in every run revision + late requests = 1 + all returns from review; the revision counts all returns if and only if no request was late |
| LateReturns.LateIsExact | platform/app/services/episode_lifecycle.py:179-198 | a request makes a revision lag if and only if it is a success of the annotation processing, or a report to ANNOTATION_PENDING, that arrives while the episode is in ANNOTATION_REVIEW |
| LateReturns.LateSuccess | platform/app/services/episode_lifecycle.py:188-192 | a concrete run after which the annotation is pending again with its first revision, after one return |
| Approval.RunApproved | platform/app/services/review.py:89-116 | in every run without a status report to PUBLISHED, a published episode has an annotation that a reviewer approved |
| Approval.GateIsExact | platform/app/ws/handlers.py:113-125 | a request leaves every published episode approved, after every run of gated requests, if and only if it is no status report to PUBLISHED |
| Approval.UngatedBreaks | platform/app/ws/handlers.py:113-125 | for each such report a run after which it publishes an annotation nobody approved |
| Agreement.ApplyAgrees | platform/app/services/review.py:64-116 | a safe request keeps the agreement: under review or published, an episode holds its annotation's segments, which the contract accepts and which do not overlap, and an approval announced their number |
| Agreement.RunAgrees | platform/app/services/review.py:64-116 | so does every run of safe requests |
| Agreement.SafeIsExact | platform/app/services/callbacks.py:99-111 | a request keeps the agreement after every run of safe requests if and only if it is neither a status report into review nor a partial result that the contract accepts and that carries segments |
| PlatformServices.Session.ApplyTransition | platform/app/repositories/episode.py:122-161 | the status changes together with its history record, or neither does |
| PlatformServices.Session.AttachUploadResult | platform/app/repositories/episode.py:163-180 | only this row's upload fields change |
| PlatformServices.Session.ReplaceSegments | platform/app/repositories/episode.py:205-211 | only this row's segments change, as a whole |
| PlatformServices.Session.AttachProcessingResult | platform/app/repositories/episode.py:182-203 | only this row's products change, and only those that are given |
| PlatformServices.Session.RecordJobRun | platform/app/repositories/algo_job_run.py:35-51 | appends one line to the job-run log |
| PlatformServices.Session.SaveReviewResult | platform/app/repositories/annotation.py:94-102 | a returned annotation gets the next revision; a missing one changes nothing |
| PlatformServices.Session.SaveSegments | platform/app/repositories/annotation.py:61-92 | segments are replaced as a whole, creating the row at revision 1 |
| PlatformServices.Session.UpsertVerifyResult | platform/app/repositories/annotation.py:40-59 | the decision is stored, creating the row without segments at revision 1 |
| PlatformServices.Session.IncrementCounters | platform/app/repositories/task.py:92-101 | both counters grow by the given amounts; a missing task changes nothing |
| PlatformServices.EpisodeLifecycleService.Transition | platform/app/services/episode_lifecycle.py:79-98 | refines the transition function on the session's state, including its errors |
| PlatformServices.EpisodeLifecycleService.MarkUploaded | platform/app/services/episode_lifecycle.py:100-156 | refines the function with both steps and the event between them |
| PlatformServices.EpisodeLifecycleService.RequestAnnotationProcessing | platform/app/services/episode_lifecycle.py:200-225 | announces only a transition that happened |
| PlatformServices.EpisodeLifecycleService.Reject | platform/app/services/episode_lifecycle.py:227-249 | announces only a transition that happened |
| PlatformServices.EpisodeLifecycleService.PublishEpisode | platform/app/services/episode_lifecycle.py:251-272 | announces only a transition that happened |
| PlatformServices.EpisodeLifecycleService.AssertActionable | platform/app/services/episode_lifecycle.py:274-282 | fails exactly on a missing episode or another status |
| PlatformServices.CallbackService.HandleUploadComplete | platform/app/services/callbacks.py:52-77 | refines the function of which `Answers.MismatchIsRefused` and `Answers.AnnouncedUploadsWereChecked` speak: a checksum that the stored object does not have changes nothing; otherwise one count for one change |
| PlatformServices.CallbackService.HandleAlgoResult | platform/app/services/callbacks.py:79-118 | what the contract refuses (segments, key-frame and quality scores out of bounds) changes nothing; every result is logged; the loop keeps the last segments, key frames and quality report; only a complete pipeline moves the status |
| PlatformServices.CallbackService.HandleAnnotationProcessing | platform/app/services/callbacks.py:120-145 | logs the run and refines the transition, errors included |
| PlatformServices.ReviewService.SubmitVerification | platform/app/services/review.py:40-62 | refines the function of which `Verification.RejectedForGood` and `Verification.OnlyApprovalPasses` speak, errors included |
| PlatformServices.ReviewService.SubmitAnnotation | platform/app/services/review.py:64-87 | refines the function; the contract's bounds on each segment and its overlap check come first |
| PlatformServices.ReviewService.SubmitReview | platform/app/services/review.py:89-116 | refines the function; a return does not publish, an approval counts once |
| PlatformServices.Platform.Request | platform/app/api/routes/callbacks.py:40-95 | a request commits the whole step or rolls everything back, so the database always holds what `Apply` says |
| Datasets.DatasetService.Accept | platform/app/api/routes/datasets.py:47-113 | accepted, stored and announced exactly when the format is supported and every listed episode is published; otherwise nothing changes and the answer lists the missing and the unpublished in request order |
| Datasets.DatasetService.WriteManifest | platform/app/services/dataset_builder.py:126-164 | succeeds exactly when all are published and the store takes the file; entries in request order as the database has them, with key frames and the artefacts that are really stored, counts equal to length and sum |
| Datasets.DatasetService.Build | platform/app/services/dataset_builder.py:98-124 | the row ends succeeded with its manifest, or failed, never running; a failure changes no manifest and no key, so after a failed first build there is none and after a failed rebuild the old ones are still there; a key always leads to the dataset's own manifest |
| Datasets.DatasetService.AcceptAndBuildLater | platform/app/services/dataset_builder.py:98-138 | once a request is accepted, after any further commands the build succeeds exactly when the store takes the file, with every listed episode |
| Datasets.AcceptedStaysBuildable | platform/app/services/dataset_builder.py:128-138 | what was published when a build request was accepted is still published after any further commands, so the build finds it |
| Datasets.ManifestHasReviewedSegments | platform/app/services/dataset_builder.py:126-153 | after any run of safe and gated requests a manifest lists, per episode, the segments of its annotation, which a reviewer approved, without overlap |
| Datasets.ManifestNamesTheUpload | platform/app/services/dataset_builder.py:126-153 | an entry says of the recording (key, checksum, size, duration) what the accepted upload report said, however much happened in between |
| Datasets.TotalCountsTheSegments | platform/app/services/dataset_builder.py:126-164 | a manifest's segment count is the number of segments in it |
| FileQueue.ProcessedIfHandledInTime | scheduler/src/scheduler/consumers/queue.py:113-141 | a message is processed exactly when one of its max_retries + 1 attempts handles it and all earlier ones raised |
| FileQueue.EveryFileIsArchivedOnce | scheduler/src/scheduler/consumers/queue.py:161-167 | every file of the listing ends, unchanged, in exactly one of the two archives |
| FileQueue.ProcessedIffDeserved | scheduler/src/scheduler/consumers/queue.py:56-89 | a file is planned as processed if and only if it is a copy of a settled event or an attempt within the limit handles it; what is not JSON always becomes a dead letter, and what is outside the contract if and only if its id was not settled before |
| FileQueue.DuplicatesAreProcessed | scheduler/src/scheduler/consumers/queue.py:69-72 | a later copy of a settled event goes to processed, whatever became of the first |
| FileQueue.BadMessagesDoNotInterfere | scheduler/src/scheduler/consumers/queue.py:56-89 | without the bad messages the good ones are settled in the same order with the same verdicts |
| FileQueue.FileQueueConsumer.Fetch | scheduler/src/scheduler/consumers/queue.py:56-89 | hands out the first fresh event of the listing with its attempt number, archiving what is before it as `FileQueue.ProcessedIffDeserved` says |
| FileQueue.FileQueueConsumer.Ack | scheduler/src/scheduler/consumers/queue.py:91-95 | the event is settled, its file moves to processed if moving works, and no event is called more than its limit + 1 times or acknowledged twice |
| FileQueue.FileQueueConsumer.DeadLetter | scheduler/src/scheduler/consumers/queue.py:97-111 | settled without an acknowledgement, to the dead letters |
| FileQueue.FileQueueConsumer.Reject | scheduler/src/scheduler/consumers/queue.py:113-141 | within the limit the file stays in its place with one more attempt; beyond it the event is dead-lettered |
| FileQueue.FileQueueConsumer.Move | scheduler/src/scheduler/consumers/queue.py:161-167 | a failing move is swallowed and leaves the file where it was |
| FileQueue.Worker.HandleOne | scheduler/src/scheduler/worker.py:119-131 | one turn settles the event or uses up one of its attempts, and acknowledges exactly what the handler handled; the moves made plus the moves planned stay the same |
| FileQueue.Worker.Drain | scheduler/src/scheduler/worker.py:113-132 | terminates for every behaviour of the handler, even if archiving fails; hands no event to the handler more than its limit + 1 times and acknowledges none twice; leaves nothing fresh; with working moves it empties the queue exactly as the name-ordered fold prescribes, and with fresh archive names a file is afterwards, unchanged, among the processed ones if it is a copy of a settled event or was handled in time, and otherwise among the dead letters |
| TsTypes.TextMeansPromise | contract/scripts/export_ts_types.py:138-179 | the emitted text, read back as a TypeScript type in any context, holds exactly the values that the schema's governing keywords promise, through nested unions, arrays of unions and removed duplicates |
| TsTypes.TranslationIsSound | contract/scripts/export_ts_types.py:138-179 | every JSON value valid under the schema inhabits the emitted type (JSON Schema Core draft 2020-12, sections 10.2.1.2, 10.2.1.3, 10.3.1.2, 10.3.2.3) |
| TsTypes.TranslationIsExact | contract/scripts/export_ts_types.py:138-179 | for plain schemas the emitted type holds exactly the valid values |
| TsTypes.ConstIsExactIffCleanString | contract/scripts/export_ts_types.py:150-151 | for every constant: the text of a `const` node is a type expression with exactly the valid values if and only if the constant is a string without quote, backslash or line end; any other kind of constant does not belong to its own type |
| TsTypes.EnumIsExactIffCleanStrings | contract/scripts/export_ts_types.py:153-154 | for every `enum` node the same, if and only if it has members and all are strings without quote, backslash or line end |
| TsTypes.QuotesBreakTheText | contract/scripts/export_ts_types.py:150-151 | two witnesses: the constant `"` gives no type expression, a longer constant with quotes the type of two other strings |
| TsTypes.OtherConstantsAreQuoted | contract/scripts/export_ts_types.py:150-151 | booleans and null appear in quotes, as Python writes them |
| TsTypes.ReferenceNames | contract/scripts/export_ts_types.py:140-142 | a `$ref` is translated to what stands after its last slash |
| TsTypes.AlternativesMean | contract/scripts/export_ts_types.py:144-148 | joining alternatives gives the union of their meanings |
| TsTypes.ArrayIsGood | contract/scripts/export_ts_types.py:158-162 | with the parentheses rule an array text is read as an array of its whole element type |
| TsTypes.RecordIsGood | contract/scripts/export_ts_types.py:164-168 | a record text is read as a record of its whole value type |
| Sorting.SortAscending | tool/src/components/timeline/segmentMath.ts:42-44 | the sort's result is in order |
| Sorting.SortStable | tool/src/components/timeline/segmentMath.ts:42-44 | elements with equal keys keep their order |
| Sorting.SortPermutes | tool/src/components/timeline/segmentMath.ts:42-44 | the sort's result is a permutation |
| Segments.FindOverlaps | tool/src/components/timeline/segmentMath.ts:47-60 | the overlapping neighbours of the sorted list, in order |
| Segments.CheckNoOverlap | contract/src/rdh_contract/schemas/annotation.py:55-65 | raises exactly when some neighbours overlap |
| Segments.NeighbourCheckIsExact | contract/src/rdh_contract/schemas/annotation.py:55-65 | for positive-length segments, looking at neighbours after sorting finds no overlap exactly when no two segments anywhere overlap |
| Segments.StrippedIsInner | contract/src/rdh_contract/schemas/base.py:14-20 | stripping drops the white space at both ends, all of it, and nothing else |
| Editor.ValidateSegments | tool/src/components/timeline/segmentMath.ts:63-89 | valid exactly when every segment is labelled, at least 100 ms and inside the episode, and no two overlap; the problems are those of the segments in the list's order and then the overlapping neighbours in time order |
| Editor.ProblemsAreExact | tool/src/components/timeline/segmentMath.ts:69-82 | each kind of problem is named for an id exactly if a segment with that id has it |
| Editor.AcceptedIsSubmittableIffSendable | contract/src/rdh_contract/schemas/episode.py:42-67 | of the lists that the front end accepts the server accepts exactly those with whole times, descriptions of at most 2000 characters (without white space around them) and confidences between zero and one |
| Editor.BoundsInNumbers | contract/src/rdh_contract/schemas/episode.py:50-57 | the same in numbers, for every text length, confidence and end of one segment: at most 2000 letters, from zero to one, a whole millisecond |
| Editor.LongDescriptionIsRefused | tool/src/pages/AnnotatePage.tsx:98-110 | a description of 2001 characters passes the front end and not the server |
| Editor.FractionalSplitIsRefused | tool/src/components/player/SyncController.ts:120 | every split at a fractional playhead that cuts at all gives a list that the front end accepts and the server refuses |
| Editor.FractionalSplit | tool/src/pages/AnnotatePage.tsx:135-139 | a concrete such split of a segment that the server had sent |
| Editor.CoverageMs | tool/src/components/timeline/segmentMath.ts:184-188 | the total length, independent of the order |
| Editor.SplitKeepsGeometryAndCoverage | tool/src/components/timeline/segmentMath.ts:97-124 | splitting keeps a valid list valid and its coverage unchanged |
| Editor.SplitCutsAtTheMark | tool/src/components/timeline/segmentMath.ts:97-124 | splitting replaces exactly the one segment by its parts before and after the mark, the second with the new id and without source; it refuses to cut off less than 100 ms |
| Editor.MergeIsValidIffNeighbours | tool/src/components/timeline/segmentMath.ts:127-150 | the merged list is valid if and only if no third segment lies between the two |
| Editor.MergeReplacesTheTwo | tool/src/components/timeline/segmentMath.ts:135-149 | merging replaces exactly the two by one segment from the earlier start to the later end, without source |
| Editor.MergeAddsTheGap | tool/src/components/timeline/segmentMath.ts:127-150 | merging adds exactly the gap between the two to the coverage |
| Editor.MergeAcrossAThirdOverlaps | tool/src/components/timeline/segmentMath.ts:126-150 | a concrete valid list that merging makes invalid |
| Editor.ResizeKeepsGeometry | tool/src/components/timeline/segmentMath.ts:153-181 | dragging an edge anywhere keeps a valid list valid |
| Editor.ResizeObeysValidDrags | tool/src/components/timeline/segmentMath.ts:169-179 | a drag is obeyed exactly when its result would be valid, otherwise clamped |
| Editor.ResizedIsNearest | tool/src/components/timeline/segmentMath.ts:169-179 | a drag takes the edge to the nearest of all positions that keep the list valid, and moves nothing else |
| Editor.ResizeMovesTheNamed | tool/src/components/timeline/segmentMath.ts:153-181 | exactly the named segment gets its new place in the ordered list |
| Editor.Relabel | tool/src/hooks/useSegmentEditor.ts:52-70 | relabelling changes no time and no id, and nothing but the named segment, which gets the label, keeps its description unless another is given, and loses its source |
| Editor.EditKeepsGeometry | tool/src/hooks/useSegmentEditor.ts:31-77 | every edit keeps a valid list valid, given a fresh id for a split and neighbours for a merge |
| Editor.EditorStaysGeometric | tool/src/hooks/useSegmentEditor.ts:17-100 | every reachable editor state, undo and redo included, and every kept snapshot is valid |
| Editor.EditKeepsSendable | tool/src/hooks/useSegmentEditor.ts:31-77 | every edit at a whole position and with a short description keeps what the server demands beyond the front end's check |
| Editor.EditorStaysSendable | tool/src/hooks/useSegmentEditor.ts:17-100 | so does every sequence of such edits, for every kept snapshot |
| Editor.AcceptedEditsAreSubmittable | tool/src/pages/AnnotatePage.tsx:42-60 | from a list that the server sent, such edits never lead to a list that the front end accepts and the server refuses |
| Editor.UndoTakesBack | tool/src/hooks/useSegmentEditor.ts:23-29 | after any edits, k undos bring back exactly the list before the last k edits |
| Editor.RedoTakesBackUndo | tool/src/hooks/useSegmentEditor.ts:79-83 | redo takes back an undo, and undo takes back a redo |
| Editor.CommitEndsRedo | tool/src/hooks/useSegmentEditor.ts:23-29 | after an edit there is nothing to redo, and one undo leads back |
| Editor.SegmentEditor.CommitNext | tool/src/hooks/useSegmentEditor.ts:23-29 | committing drops what was undone and appends the new list; a valid history stays valid if and only if that list is |
| Editor.SegmentEditor.DoSplit | tool/src/hooks/useSegmentEditor.ts:31-36 | commits the split list; with a fresh id a valid history stays valid |
| Editor.SegmentEditor.DoMerge | tool/src/hooks/useSegmentEditor.ts:38-43 | commits the merged list for any two segments; a valid history stays valid if and only if they are neighbours |
| Editor.SegmentEditor.DoResize | tool/src/hooks/useSegmentEditor.ts:45-50 | refines the edit on the history and keeps it valid |
| Editor.SegmentEditor.DoRelabel | tool/src/hooks/useSegmentEditor.ts:52-70 | refines the edit on the history and keeps it valid |
| Editor.SegmentEditor.DoRemove | tool/src/hooks/useSegmentEditor.ts:72-77 | refines the edit on the history and keeps it valid |
| Editor.SegmentEditor.DoUndo | tool/src/hooks/useSegmentEditor.ts:79 | moves only the cursor, not below the first list |
| Editor.SegmentEditor.DoRedo | tool/src/hooks/useSegmentEditor.ts:80-83 | moves only the cursor, not beyond the last list |
| Recording.MessagesFor | algo/src/algo_common/io.py:43-47 | exactly the messages of the topic, in time order |
| Recording.MessagesForKeepsAll | algo/src/algo_common/io.py:43-47 | no message is lost or doubled, and messages with one time stamp keep their order |
| Preannotate.SegmentByGripper | algo/operators/preannotate/main.py:44-68 | the loop computes the cuts at the first far enough flips |
| Preannotate.GripperSegmentsTile | algo/operators/preannotate/main.py:44-68 | the segments tile exactly the time from the first message to the least moment that is neither before the end of the recording nor before 200 ms after the last message, each at least 200 ms |
| Preannotate.EveryMomentInOnePiece | algo/operators/preannotate/main.py:44-68 | in such a tiling every moment lies in exactly one segment |
| Preannotate.LabelsAreTheStatesAtTheEnd | algo/operators/preannotate/main.py:55-67 | each segment has the gripper state of the message just before its end, and ends at a flip or with the recording |
| Preannotate.FlipsAreBoundariesOrJitter | algo/operators/preannotate/main.py:55-63 | every flip starts a segment or lies within the first 200 ms of one |
| Preannotate.SegmentByDuration | algo/operators/preannotate/main.py:70-86 | exactly min(3, duration / 200) contiguous pieces from zero, all with the open label, leaving less than 200 ms |
| Preannotate.Process | algo/operators/preannotate/main.py:36-42 | the fallback is used exactly when there is no gripper message; the result is contiguous and never shorter than 200 ms a piece |
| Proposals.TiledIsAcceptedIffInside | tool/src/components/timeline/segmentMath.ts:63-89 | segments that tile a span pass the front end if and only if the span lies within the episode |
| Proposals.ProposalIsAcceptedIffTimeIsLeft | algo/operators/preannotate/main.py:64-68 | the operator's segments, unedited, pass the front end if and only if the gripper is silent, or its messages begin at zero or later and the last one comes at least 200 ms before the end |
| Proposals.ProposalIsSubmittable | contract/src/rdh_contract/schemas/annotation.py:45-65 | the server takes them if and only if the gripper is silent or its messages do not begin before zero |
| Proposals.LastTick | agent/src/agent/recorder/mcap_writer.py:153-167 | the recorder's last message of a topic comes within one interval of the end |
| Proposals.RecordedProposalIsRefused | agent/src/agent/recorder/mcap_writer.py:128-181 | for every recording of the agent's recorder that is not empty, the front end refuses the unedited pre-annotation, which the server would take |
| KeyFrames.Select | algo/operators/keyframe/main.py:48-58 | at most five frames, pairwise 300 ms apart; every other frame is less than 300 ms from a selected one scoring no less, or five selected ones score no less |
| KeyFrames.ExtractForTopic | algo/operators/keyframe/main.py:40-80 | that choice by time, with scores capped at one and rounded to four places, and never empty for a stream with messages |
| KeyFrames.RoundingIsNear | algo/operators/keyframe/main.py:77 | rounding moves a score by at most half a ten-thousandth |
| KeyFrames.RoundingIsMonotone | algo/operators/keyframe/main.py:77 | rounding keeps the order of scores |
| KeyFrames.CappingIsExact | algo/operators/keyframe/main.py:77 | a score is one from one on, below that only rounded, never negative if the motion is not, and in the order of the motions |
| KeyFrames.BestIsSelected | algo/operators/keyframe/main.py:48-58 | a best-scoring frame is always among the selected |
| FileFlow.TakenIsBounded | agent/src/agent/file_flow.py:97-102 | pigeonhole: n taken numbered names need n files, so the counter loop ends |
| FileFlow.NumberedInjective | agent/src/agent/file_flow.py:99-101 | different counters give different names |
| FileFlow.TargetIsFirstFree | agent/src/agent/file_flow.py:93-101 | the target is the first free one of the plain name and the numbered names in turn |
| FileFlow.SuffixIsExact | agent/src/agent/file_flow.py:97 | a name has a suffix if and only if it is something, a dot and something without a dot, and then that is it |
| FileFlow.NumberedKeepsSuffix | agent/src/agent/file_flow.py:99-101 | a numbered name keeps the suffix and puts the counter before it |
| FileFlow.DecimalIsRead | agent/src/agent/file_flow.py:99-101 | the counter is written in decimal digits |
| FileFlow.TaskFolder.MoveToStage | agent/src/agent/file_flow.py:83-110 | terminates in any folder, takes the first free name, moves the content there and writes the explanation beside it; a missing source changes nothing |
| FileFlow.MoveKeepsRecordings | agent/src/agent/file_flow.py:96-108 | no recording is overwritten: the recordings are the same but for the moved one's new name |
| FileFlow.MoveIsExact | agent/src/agent/file_flow.py:93-108 | what a move does to every path: the content goes to the target, a non-empty explanation is written beside it, nothing else changes |
| FileFlow.MovesConserveRecordings | agent/src/agent/file_flow.py:83-110 | over any sequence of moves the multiset of recording contents stays the same |
| Throttle.ProgressThrottle.ShouldWrite | platform/app/services/progress_tracker.py:44-76 | writes and remembers exactly final frames, first frames, and frames past a threshold |
| Throttle.ProgressThrottle.ForgetEpisode | platform/app/services/progress_tracker.py:78-80 | drops exactly this episode's record |
| Throttle.WritesAreBounded | platform/app/services/progress_tracker.py:44-76 | among any other episodes' reports, T seconds of one episode cause at most 1 + T/2 + 20 writes, plus one for each final frame and each `forget` |
| Throttle.SkippedReportsAreClose | platform/app/services/progress_tracker.py:71-76 | every skipped report has parts missing; the last written report of its episode is less than two seconds earlier and less than five points lower, and, if the episode's reports come in order, neither later nor higher |

## Left out

- HTTP, WebSocket, asyncio, SQLAlchemy, sqlite3 and JSON text: storage is maps, sequences and byte strings, remote calls succeed, fail or end the process.
- The gap between publishing an event and committing (platform/README.md:74-79): a handler is atomic here.
- RabbitMQ, Celery, Kubernetes and subprocess execution, whose behaviour lies in other systems.
- The OSS uploader: whether a part is there depends on remote listings.
- The marks that `FileProcessor` posts from another thread, and an upload without a part callback.
- The check of object keys against the storage root in `target_path`.
- Reasons, notes, error texts, model versions and timestamps of rows; none of them influences a status, an event or a counter. A request that the contract refuses for them (a rejection or a failure without a reason, more than 2000 characters) is not a command of the model.
- Concurrent publishing while a queue is drained, queue messages whose JSON is not an object, and read errors that go away: a message is readable and decodable, or not.
- FileQueue.Worker.Drain: a handler may do anything, but its reaction is a function of the message and the attempt's number.
- AgentPlatform.FinishedIsUploadedIffBegun: status reports and failure callbacks about the same episode, which can end its upload by themselves, and an episode whose task does not exist, whose report is never accepted.
- Throttle.WritesAreBounded: custom thresholds; the bound is about the default two seconds and five points.
- Binary floating point: times in the editor, scores, percentages and confidences are exact reals.
- TsTypes.TranslationIsSound: constants that are not strings or need escapes, for which `TsTypes.ConstIsExactIffCleanString` and `TsTypes.EnumIsExactIffCleanStrings` say what happens; boolean subschemas, `properties` and `prefixItems`, and constants that are arrays or objects, which the schema model does not have.
- The rendering of whole models, enums and events around `ts_type`.
- React's batching of state updates: each editor operation sees the state the last one left.
- Overlapping `.error` notes: a note may replace an earlier note of the same name.
- Datasets.DatasetService.WriteManifest: the temporary file, because writing it and renaming it is one step that succeeds or does not; and the robot model, scene and recorder of an entry, which nothing else reads.
- FileQueue.FileQueueConsumer.Move: the archive directory exists. Creating it stands outside the `try` (scheduler/src/scheduler/consumers/queue.py:163), so that error would leave `drain`.
- Progress columns, queues and paging, login, users and agents: the rules proved here neither read nor write them.
