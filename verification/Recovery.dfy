/**
 First-run collection and start-up recovery of the agent
 (agent/src/agent/collector.py, agent/src/agent/recovery.py).
 */
module Recovery {
  import opened Basics
  import opened ChunkedUpload
  import opened AgentStore
  import opened Uploader

  /** Where an episode's recording goes in the object store. */
  function KeyOf(id: string): string {
    "episodes/" + id + "/raw.mcap"
  }

  lemma KeyInjective(a: string, b: string)
    requires KeyOf(a) == KeyOf(b)
    ensures a == b
  {
    var prefix, suffix := "episodes/", "/raw.mcap";
    assert |a| == |KeyOf(a)| - |prefix| - |suffix| == |b|;
    assert a == KeyOf(a)[|prefix|..|prefix| + |a|] == b;
  }

  /** The upload-complete report. */
  datatype Report = Report(episodeId: string, objectKey: string, checksum: Checksum)

  /** A request that arrived at the platform: an upload begins, or a report says that it is complete. */
  datatype Request = Started(episodeId: string) | Uploaded(report: Report)

  /** The episodes whose upload begins. */
  function Begun(requests: seq<Request>): (r: set<string>)
    ensures forall id :: id in r <==> Started(id) in requests
  {
    set r | r in requests && r.Started? :: r.episodeId
  }

  lemma BegunSnoc(requests: seq<Request>, r: Request)
    ensures Begun(requests + [r]) == Begun(requests) + if r.Started? then {r.episodeId} else {}
  {
    hide Begun;
    forall id ensures id in Begun(requests + [r]) <==> id in Begun(requests) || r == Started(id) {
      assert Started(id) in requests + [r] <==> Started(id) in requests || r == Started(id);
    }
  }

  /** No upload begins after a report of the same episode. */
  ghost predicate StartsFirst(requests: seq<Request>) {
    forall i, j :: 0 <= i < j < |requests| && requests[i].Uploaded? && requests[j].Started? ==>
        requests[i].report.episodeId != requests[j].episodeId
  }

  lemma StartsFirstSnoc(requests: seq<Request>, r: Request)
    requires StartsFirst(requests)
    requires r.Started? ==> forall x :: Uploaded(x) in requests ==> x.episodeId != r.episodeId
    ensures StartsFirst(requests + [r])
  {
    var now := requests + [r];
    forall i, j | 0 <= i < j < |now| && now[i].Uploaded? && now[j].Started?
      ensures now[i].report.episodeId != now[j].episodeId
    {
      if j == |requests| {
        assert Uploaded(now[i].report) in requests;
      }
    }
  }

  datatype RecoveryReport = RecoveryReport(scanned: nat, resumedUploads: nat, resentCallbacks: nat, failed: seq<string>)

  /** An exception `recover` handles, or the end of the process. */
  datatype Outcome = Done | Handled | Ended

  /** What the database and the object store say about one episode, checked against its recording. */
  ghost predicate RowOk(recordings: map<string, seq<byte>>, files: map<string, seq<byte>>, chunk: nat,
                        sha256: seq<byte> -> Checksum, id: string, row: EpisodeRecord)
    requires chunk > 0
  {
    && row.localPath in recordings
    && Correct(recordings[row.localPath], chunk, SlotOf(files, map[id := row], 0, KeyOf(id), id))
    && (row.objectKey.Some? ==> row.objectKey.value == KeyOf(id))
    && (row.checksum.Some? ==> row.checksum.value == sha256(recordings[row.localPath]))
    && (row.uploadStatus == COMPLETED ==> row.uploadedParts == PartNumbers(|recordings[row.localPath]|, chunk))
  }

  /** The platform's own check of a report: the stored object hashes to the declared checksum.
      The part numbers of a reported episode are complete, so the object is final. */
  ghost predicate ReportOk(recordings: map<string, seq<byte>>, rows: map<string, EpisodeRecord>,
                           files: map<string, seq<byte>>,
                           chunk: nat, sha256: seq<byte> -> Checksum, r: Report)
    requires chunk > 0
  {
    && r.episodeId in rows && rows[r.episodeId].localPath in recordings
    && r.objectKey == KeyOf(r.episodeId)
    && rows[r.episodeId].uploadedParts == PartNumbers(|recordings[rows[r.episodeId].localPath]|, chunk)
    && r.objectKey in files && files[r.objectKey] == recordings[rows[r.episodeId].localPath]
    && r.checksum == sha256(files[r.objectKey])
  }

  /** Uploading one episode leaves every other row and report as it was. */
  lemma OtherRowOk(recordings: map<string, seq<byte>>, files: map<string, seq<byte>>, chunk: nat,
                   sha256: seq<byte> -> Checksum,
                   id: string, target: Option<seq<byte>>, other: string, row: EpisodeRecord)
    requires chunk > 0 && other != id && RowOk(recordings, files, chunk, sha256, other, row)
    ensures RowOk(recordings, FilesWith(files, KeyOf(id), target), chunk, sha256, other, row)
  {
    if KeyOf(id) == KeyOf(other) {
      KeyInjective(id, other);
    }
    hide Correct;
  }

  lemma OtherReportOk(recordings: map<string, seq<byte>>, rows: map<string, EpisodeRecord>,
                      files: map<string, seq<byte>>,
                      chunk: nat, sha256: seq<byte> -> Checksum, id: string, row: EpisodeRecord,
                      target: Option<seq<byte>>, r: Report)
    requires chunk > 0 && r.episodeId != id && ReportOk(recordings, rows, files, chunk, sha256, r)
    ensures ReportOk(recordings, rows[id := row], FilesWith(files, KeyOf(id), target), chunk, sha256, r)
  {
    if KeyOf(id) == KeyOf(r.episodeId) {
      KeyInjective(id, r.episodeId);
    }
  }

  /** The durable state of an episode whose row is in order, with any write count. */
  lemma SlotCorrect(recordings: map<string, seq<byte>>, files: map<string, seq<byte>>,
                    rows: map<string, EpisodeRecord>, chunk: nat,
                    sha256: seq<byte> -> Checksum, id: string, writes: nat)
    requires chunk > 0 && id in rows && RowOk(recordings, files, chunk, sha256, id, rows[id])
    ensures Correct(recordings[rows[id].localPath], chunk, SlotOf(files, rows, writes, KeyOf(id), id))
  {
    hide PartCorrect;
  }

  /** A run of the uploader keeps the episode's row in order and its reports true. */
  lemma RowAfterUpload(recordings: map<string, seq<byte>>, files: map<string, seq<byte>>,
                       rows: map<string, EpisodeRecord>, chunk: nat,
                       retries: nat, sha256: seq<byte> -> Checksum, id: string, writes: nat, script: seq<Fault>)
    requires chunk > 0 && id in rows && RowOk(recordings, files, chunk, sha256, id, rows[id])
    ensures var source := recordings[rows[id].localPath];
            var run := ChunkedUpload.Upload(source, chunk, retries, SlotOf(files, rows, writes, KeyOf(id), id),
                rows[id].uploadedParts, script);
            var files' := FilesWith(files, KeyOf(id), run.slot.target);
            var row' := rows[id].(uploadedParts := run.slot.marks);
            && rows[id].uploadedParts <= run.slot.marks
            && RowOk(recordings, files', chunk, sha256, id, row')
            && (run.slot.marks == PartNumbers(|source|, chunk) ==> KeyOf(id) in files' && files'[KeyOf(id)] == source)
            && (run.end.Returned? ==>
                  run.slot.marks == PartNumbers(|source|, chunk)
                      && run.end.parts == Numbers(1, PlanParts(|source|, chunk)))
            && (forall r: Report :: r.episodeId == id && ReportOk(recordings, rows, files, chunk, sha256, r) ==>
                  ReportOk(recordings, rows[id := row'], files', chunk, sha256, r))
  {
    var source := recordings[rows[id].localPath];
    var slot := SlotOf(files, rows, writes, KeyOf(id), id);
    SlotCorrect(recordings, files, rows, chunk, sha256, id, writes);
    UploadSafe(source, chunk, retries, slot, script);
    var run := ChunkedUpload.Upload(source, chunk, retries, slot, slot.marks, script);
    MarksInRange(source, chunk, run.slot);
    if run.slot.marks == PartNumbers(|source|, chunk) {
      AllPartsCorrect(source, chunk, run.slot);
    }
    UploadKeepsTarget(source, chunk, retries, slot, slot.marks, script);
    hide ChunkedUpload.Upload, PartCorrect, PlanParts, Numbers;
  }

  /** Afterwards every row is in order and every report true. */
  lemma EverythingAfterUpload(recordings: map<string, seq<byte>>, files: map<string, seq<byte>>,
                              rows: map<string, EpisodeRecord>, chunk: nat,
                              retries: nat, sha256: seq<byte> -> Checksum, id: string, writes: nat,
                              script: seq<Fault>, requests: seq<Request>)
    requires chunk > 0 && id in rows && forall x :: x in rows ==> RowOk(recordings, files, chunk, sha256, x, rows[x])
    requires forall r :: Uploaded(r) in requests ==> ReportOk(recordings, rows, files, chunk, sha256, r)
    requires rows[id].localPath in recordings
    ensures var source := recordings[rows[id].localPath];
            var run := ChunkedUpload.Upload(source, chunk, retries, SlotOf(files, rows, writes, KeyOf(id), id),
                rows[id].uploadedParts, script);
            var files', rows' :=
                FilesWith(files, KeyOf(id), run.slot.target), rows[id := rows[id].(uploadedParts := run.slot.marks)];
            && rows[id].uploadedParts <= run.slot.marks
            && (forall x :: x in rows' ==> RowOk(recordings, files', chunk, sha256, x, rows'[x]))
            && (forall r :: Uploaded(r) in requests ==> ReportOk(recordings, rows', files', chunk, sha256, r))
            && (run.end.Returned? ==>
                  && KeyOf(id) in files' && files'[KeyOf(id)] == source
                  && run.slot.marks == PartNumbers(|source|, chunk)
                      && run.end.parts == Numbers(1, PlanParts(|source|, chunk)))
  {
    hide ChunkedUpload.Upload, RowOk, ReportOk, PartNumbers, PlanParts, Numbers, KeyOf, FilesWith;
    RowAfterUpload(recordings, files, rows, chunk, retries, sha256, id, writes, script);
    var source := recordings[rows[id].localPath];
    var run := ChunkedUpload.Upload(source, chunk, retries, SlotOf(files, rows, writes, KeyOf(id), id),
        rows[id].uploadedParts, script);
    var row' := rows[id].(uploadedParts := run.slot.marks);
    forall x | x in rows && x != id
      ensures RowOk(recordings, FilesWith(files, KeyOf(id), run.slot.target), chunk, sha256, x, rows[x])
    {
      OtherRowOk(recordings, files, chunk, sha256, id, run.slot.target, x, rows[x]);
    }
    forall r | Uploaded(r) in requests && r.episodeId != id
      ensures ReportOk(recordings, rows[id := row'], FilesWith(files, KeyOf(id), run.slot.target), chunk, sha256, r)
    {
      OtherReportOk(recordings, rows, files, chunk, sha256, id, row', run.slot.target, r);
    }
  }

  /** The target never disappears. */
  lemma UploadKeepsTarget(source: seq<byte>, chunk: nat, retries: nat, slot: Slot, already: set<nat>,
                          script: seq<Fault>)
    requires chunk > 0
    ensures slot.target.Some? ==> ChunkedUpload.Upload(source, chunk, retries, slot, already, script).slot.target.Some?
  {
    hide UploadParts;
  }

  /** A completed row with a target and a checksum makes a report the platform can verify. */
  lemma CompletedReportOk(recordings: map<string, seq<byte>>, files: map<string, seq<byte>>,
                          rows: map<string, EpisodeRecord>, chunk: nat,
                          sha256: seq<byte> -> Checksum, id: string)
    requires chunk > 0 && id in rows && RowOk(recordings, files, chunk, sha256, id, rows[id])
    requires rows[id].uploadStatus == COMPLETED
    ensures KeyOf(id) in files && files[KeyOf(id)] == recordings[rows[id].localPath]
    ensures ReportOk(recordings, rows, files, chunk, sha256,
              Report(id, KeyOf(id), sha256(recordings[rows[id].localPath])))
  {
    SlotCorrect(recordings, files, rows, chunk, sha256, id, 0);
    AllPartsCorrect(recordings[rows[id].localPath], chunk, SlotOf(files, rows, 0, KeyOf(id), id));
    hide Correct;
  }

  /** Whether recovery can finish a row when nothing fails: the recording must be on disk for
      an upload, and the report needs a target key and a checksum. */
  predicate Recoverable(row: EpisodeRecord, present: set<string>) {
    if row.NeedsUpload() then row.localPath in present && (row.callbackDone || row.checksum.Some?)
    else row.objectKey.Some? && row.checksum.Some?
  }

  /** How many of the listed rows need an upload, and how many of those are finished later. */
  function CountUploads(ids: seq<string>, before: map<string, EpisodeRecord>): nat {
    if ids == [] then 0
    else
      var last := ids[|ids| - 1];
      CountUploads(ids[..|ids| - 1], before) + (if last in before && before[last].NeedsUpload() then 1 else 0)
  }

  function CountFinished(ids: seq<string>, before: map<string, EpisodeRecord>, after: map<string, EpisodeRecord>): nat {
    if ids == [] then 0
    else
      var last := ids[|ids| - 1];
      CountFinished(ids[..|ids| - 1], before, after)
      + (if last in before && before[last].NeedsUpload() && last in after && !after[last].Unfinished() then 1 else 0)
  }

  function CountPresent(ids: seq<string>, before: map<string, EpisodeRecord>, present: set<string>): nat {
    if ids == [] then 0
    else
      var last := ids[|ids| - 1];
      CountPresent(ids[..|ids| - 1], before, present)
      + (if last in before && before[last].NeedsUpload() && before[last].localPath in present then 1 else 0)
  }

  lemma CountsSnoc(ids: seq<string>, id: string, before: map<string, EpisodeRecord>, now: map<string, EpisodeRecord>,
                   next: map<string, EpisodeRecord>, present: set<string>)
    requires id in before && id in next && forall x :: x in ids ==> x in now && x in next && now[x] == next[x]
    ensures CountUploads(ids + [id], before) == CountUploads(ids, before) + (if before[id].NeedsUpload() then 1 else 0)
    ensures CountFinished(ids + [id], before, next)
         == CountFinished(ids, before, now) + (if before[id].NeedsUpload() && !next[id].Unfinished() then 1 else 0)
    ensures CountPresent(ids + [id], before, present)
         == CountPresent(ids, before, present)
             + (if before[id].NeedsUpload() && before[id].localPath in present then 1 else 0)
  {
    assert (ids + [id])[..|ids|] == ids;
    SameFinished(ids, before, now, next);
  }

  lemma {:induction false} SameFinished(ids: seq<string>, before: map<string, EpisodeRecord>,
                                        now: map<string, EpisodeRecord>,
                                        next: map<string, EpisodeRecord>)
    requires forall x :: x in ids ==> x in now && x in next && now[x] == next[x]
    ensures CountFinished(ids, before, now) == CountFinished(ids, before, next)
  {
    if ids != [] {
      SameFinished(ids[..|ids| - 1], before, now, next);
    }
  }

  /** What a report says about the tables before and after: the unfinished episodes are exactly
      the reported failures, in creation order and marked as failed, and every other episode is
      done. Nothing that was finished is touched. */
  ghost predicate Accounts(order: seq<string>, before: map<string, EpisodeRecord>, after: map<string, EpisodeRecord>,
                           report: RecoveryReport) {
    && report.scanned == |UnfinishedIds(order, before)|
    && report.failed == UnfinishedIds(order, after)
    && (forall id :: id in report.failed ==> after[id].uploadStatus == FAILED)
    && (forall id :: id in after && id in order && id !in report.failed ==>
        after[id].uploadStatus == COMPLETED && after[id].callbackDone)
    && (forall id :: id in before && !before[id].Unfinished() ==> id in after && after[id] == before[id])
    && (NoneReported(before) ==> report.resentCallbacks + |report.failed| == report.scanned)
    && CountFinished(UnfinishedIds(order, before), before, after) <= report.resumedUploads
       <= CountUploads(UnfinishedIds(order, before), before)
  }

  /** Without faults recovery fails on exactly the rows nothing can be done about, and resumes
      every upload whose recording is still there. */
  ghost predicate FailsOnlyUnrecoverable(order: seq<string>, before: map<string, EpisodeRecord>, present: set<string>,
                                         report: RecoveryReport) {
    && (forall id :: id in UnfinishedIds(order, before) ==>
        (id in report.failed <==> !Recoverable(before[id], present)))
    && report.resumedUploads == CountPresent(UnfinishedIds(order, before), before, present)
  }

  /** Recovery part way: `done` is the part of the unfinished list already handled. */
  ghost predicate Progress(before: map<string, EpisodeRecord>, now: map<string, EpisodeRecord>, present: set<string>,
                           done: seq<string>,
                           failed: seq<string>, resumed: nat, resent: nat, faultless: bool) {
    && now.Keys == before.Keys
    && (forall id :: id in before && id !in done ==> now[id] == before[id])
    && failed == UnfinishedIds(done, now)
    && (forall id :: id in failed ==> now[id].uploadStatus == FAILED)
    && (NoneReported(before) ==> resent + |failed| == |done|)
    && CountFinished(done, before, now) <= resumed <= CountUploads(done, before)
    && (faultless ==>
          && resumed == CountPresent(done, before, present)
          && forall id :: id in done && id in before ==> (id in failed <==> !Recoverable(before[id], present)))
  }

  lemma ProgressStep(before: map<string, EpisodeRecord>, now: map<string, EpisodeRecord>, present: set<string>,
                     done: seq<string>,
                     failed: seq<string>, resumed: nat, resent: nat, faultless: bool, id: string,
                     next: map<string, EpisodeRecord>,
                     wasFailed: bool, wasResumed: bool, wasResent: bool)
    requires Progress(before, now, present, done, failed, resumed, resent, faultless)
    requires id in before && id !in done && before[id].Unfinished() && next.Keys == now.Keys
    requires forall x :: x in done ==> x in before
    requires forall other :: other in now && other != id ==> next[other] == now[other]
    requires wasFailed <==> next[id].Unfinished()
    requires wasFailed ==> next[id].uploadStatus == FAILED
    requires !wasFailed ==> wasResent || before[id].callbackDone
    requires wasResent ==> !wasFailed
    requires wasResumed ==> before[id].NeedsUpload()
    requires before[id].NeedsUpload() && !wasFailed ==> wasResumed
    requires faultless ==> (wasFailed <==> !Recoverable(before[id], present))
    requires faultless ==> (wasResumed <==> before[id].NeedsUpload() && before[id].localPath in present)
    ensures Progress(before, next, present, done + [id], failed + (if wasFailed then [id] else []),
                     resumed + (if wasResumed then 1 else 0), resent + (if wasResent then 1 else 0), faultless)
  {
    hide Recoverable, EpisodeRecord.Unfinished, EpisodeRecord.NeedsUpload, UnfinishedIds, CountFinished, CountUploads,
        CountPresent;
    CountsSnoc(done, id, before, now, next, present);
    UnfinishedSnoc(done, id, now, next);
  }

  lemma ProgressStart(before: map<string, EpisodeRecord>, present: set<string>, faultless: bool)
    ensures Progress(before, before, present, [], [], 0, 0, faultless)
  {
  }

  /** The next id on the list still has the row it had at the start. */
  lemma ProgressUntouched(before: map<string, EpisodeRecord>, now: map<string, EpisodeRecord>, present: set<string>,
                          unfinished: seq<string>,
                          i: nat, failed: seq<string>, resumed: nat, resent: nat, faultless: bool)
    requires i < |unfinished| && Distinct(unfinished) && unfinished[i] in before
    requires Progress(before, now, present, unfinished[..i], failed, resumed, resent, faultless)
    ensures unfinished[i] !in unfinished[..i] && unfinished[i] in now && now[unfinished[i]] == before[unfinished[i]]
  {
  }

  lemma ProgressDone(order: seq<string>, before: map<string, EpisodeRecord>, now: map<string, EpisodeRecord>,
                     present: set<string>,
                     report: RecoveryReport, faultless: bool)
    requires Progress(before, now, present, UnfinishedIds(order, before), report.failed, report.resumedUploads,
                      report.resentCallbacks, faultless)
    requires report.scanned == |UnfinishedIds(order, before)|
    requires forall id :: id in order <==> id in before
    ensures Accounts(order, before, now, report)
    ensures faultless ==> FailsOnlyUnrecoverable(order, before, present, report)
  {
    hide Recoverable;
    UnfinishedAgain(order, before, now);
  }

  /** No unfinished episode has had its report accepted before, as is so for every row the agent writes. */
  ghost predicate NoneReported(rows: map<string, EpisodeRecord>) {
    forall id :: id in rows && rows[id].Unfinished() ==> !rows[id].callbackDone
  }

  function OutcomeOf(fault: Fault): Outcome {
    match fault
    case Fine => Done
    case Error(_) => Handled
    case Crash(_) => Ended
  }

  /** Whether the action has its effect: a request whose answer is lost did arrive, a recording
      that broke off is on disk as far as it came. */
  predicate Arrives(fault: Fault) {
    match fault
    case Fine => true
    case Error(torn) => torn > 0
    case Crash(torn) => torn > 0
  }

  /** The next `n` actions succeed, and the script goes on after them. */
  predicate FineFor(script: seq<Fault>, n: nat) {
    n < |script| && forall i :: 0 <= i < n ==> script[i] == Fine
  }

  lemma ThreeFine(script: seq<Fault>)
    requires FineFor(script, 3)
    ensures Head(script).Fine? && Head(Tail(script)).Fine? && Head(Tail(Tail(script))).Fine?
    ensures Tail(Tail(Tail(script))) == script[3..]
  {
  }

  class PlatformClient {
    const faults: FaultScript
    var requests: seq<Request>

    constructor (faults: FaultScript)
      ensures this.faults == faults && requests == []
    {
      this.faults, requests := faults, [];
    }

    /** Moves the episode to the upload state on the platform; nothing local changes. */
    method StartUpload(id: string) returns (outcome: Outcome)
      modifies this, faults
      ensures faults.script == Tail(old(faults.script))
      ensures outcome == OutcomeOf(Head(old(faults.script)))
      ensures faults.fatal == (old(faults.fatal) || outcome.Ended?)
      ensures requests == old(requests) + if Arrives(Head(old(faults.script))) then [Started(id)] else []
    {
      outcome := Deliver(Started(id));
    }

    method ReportUploadComplete(report: Report) returns (outcome: Outcome)
      modifies this, faults
      ensures faults.script == Tail(old(faults.script))
      ensures outcome == OutcomeOf(Head(old(faults.script)))
      ensures faults.fatal == (old(faults.fatal) || outcome.Ended?)
      ensures requests == old(requests) + if Arrives(Head(old(faults.script))) then [Uploaded(report)] else []
    {
      outcome := Deliver(Uploaded(report));
    }

    method Deliver(request: Request) returns (outcome: Outcome)
      modifies this, faults
      ensures faults.script == Tail(old(faults.script))
      ensures outcome == OutcomeOf(Head(old(faults.script)))
      ensures faults.fatal == (old(faults.fatal) || outcome.Ended?)
      ensures requests == old(requests) + if Arrives(Head(old(faults.script))) then [request] else []
    {
      var fault := faults.Next();
      outcome := OutcomeOf(fault);
      if Arrives(fault) {
        requests := requests + [request];
      }
    }
  }

  /** The recordings on disk: `present` are the paths that hold a file. */
  class RecordingDir {
    const faults: FaultScript
    var present: set<string>

    constructor (faults: FaultScript, present: set<string>)
      ensures this.faults == faults && this.present == present
    {
      this.faults, this.present := faults, present;
    }

    /** Writes a recording. A fault may come before there is a file, or leave what was written so far. */
    method Record(localPath: string) returns (outcome: Outcome)
      modifies this, faults
      ensures faults.script == Tail(old(faults.script))
      ensures outcome == OutcomeOf(Head(old(faults.script)))
      ensures faults.fatal == (old(faults.fatal) || outcome.Ended?)
      ensures present == if Arrives(Head(old(faults.script))) then old(present) + {localPath} else old(present)
    {
      var fault := faults.Next();
      outcome := OutcomeOf(fault);
      if Arrives(fault) {
        present := present + {localPath};
      }
    }
  }

  /** The agent: its database, its uploader, the platform it reports to and the recordings on
      disk. `recordings` is what each recorded file holds once its recording has ended, in
      whatever way; from then on it does not change. */
  class Agent {
    const store: StateStore
    const uploader: LocalChunkUploader
    const platform: PlatformClient
    const faults: FaultScript
    const recordings: map<string, seq<byte>>
    const disk: RecordingDir

    ghost const Durable: set<object> := {this, store, uploader, uploader.objects, platform, disk}
    /** What uploads and recovery change: everything but the recordings. */
    ghost const Repr: set<object> := {this, store, uploader, uploader.objects, platform, faults}

    ghost predicate Valid()
      reads Durable
    {
      && store.faults == faults && uploader.faults == faults && platform.faults == faults && disk.faults == faults
      && uploader.Valid() && store.Valid()
      && disk.present <= recordings.Keys
      && (forall id :: id in store.rows ==> Row(id))
      && StartsFirst(platform.requests)
      && (forall r :: Uploaded(r) in platform.requests ==>
            ReportOk(recordings, store.rows, uploader.objects.files, uploader.chunkSize, uploader.sha256, r))
      && (forall id :: id in store.rows && store.rows[id].callbackDone ==>
          exists r :: Uploaded(r) in platform.requests && r.episodeId == id)
    }

    ghost predicate Row(id: string)
      requires id in store.rows && uploader.Valid()
      reads Durable
    {
      RowOk(recordings, uploader.objects.files, uploader.chunkSize, uploader.sha256, id, store.rows[id])
    }

    constructor (store: StateStore, uploader: LocalChunkUploader, platform: PlatformClient, faults: FaultScript,
                 recordings: map<string, seq<byte>>, disk: RecordingDir)
      requires store.faults == faults && uploader.faults == faults && platform.faults == faults && disk.faults == faults
      requires uploader.Valid() && store.Valid() && store.rows == map[] && platform.requests == []
      requires disk.present <= recordings.Keys
      ensures Valid() && this.store == store && this.uploader == uploader && this.platform == platform
      ensures this.faults == faults && this.recordings == recordings && this.disk == disk
    {
      this.store, this.uploader, this.platform, this.faults := store, uploader, platform, faults;
      this.recordings, this.disk := recordings, disk;
    }

    /** No row disappears and no persisted part number is lost. */
    twostate predicate KeepsParts()
      reads Repr
    {
      && store.order == old(store.order)
      && store.rows.Keys == old(store.rows).Keys
      && forall id :: id in old(store.rows) ==> old(store.rows)[id].uploadedParts <= store.rows[id].uploadedParts
    }

    /** Only the row of `id` may have changed. */
    twostate predicate OnlyRow(id: string)
      reads Repr
    {
      forall other :: other in old(store.rows) && other != id ==>
          other in store.rows && store.rows[other] == old(store.rows)[other]
    }

    /** The platform has been told of no further upload. */
    twostate predicate OnlyReports()
      reads Repr
    {
      Begun(platform.requests) == Begun(old(platform.requests))
    }

    /** How the upload of the episode ends in this state. */
    ghost function UploadEnd(id: string): Ending
      requires Valid() && id in store.rows && store.rows[id].localPath in recordings
      reads Durable, Repr
    {
      ChunkedUpload.Upload(recordings[store.rows[id].localPath], uploader.chunkSize, uploader.maxRetries,
                           SlotOf(uploader.objects.files, store.rows, uploader.writesStarted, KeyOf(id), id),
                           store.rows[id].uploadedParts, faults.script).end
    }

    /** The uploader's run: a refinement of the function `Upload`, seen by the invariant. */
    method UploadRecording(id: string) returns (outcome: Result<UploadOutcome, Failure>)
      requires Valid() && id in store.rows && store.rows[id].localPath in disk.present
      modifies Repr
      ensures Valid() && KeepsParts() && OnlyRow(id) && platform.requests == old(platform.requests)
      ensures store.rows[id] == old(store.rows)[id].(uploadedParts := store.rows[id].uploadedParts)
      ensures outcome.Ok? ==>
                store.rows[id].uploadedParts == PartNumbers(|recordings[store.rows[id].localPath]|, uploader.chunkSize)
      ensures outcome.Ok? ==>
                var source := recordings[store.rows[id].localPath];
                var total := PlanParts(|source|, uploader.chunkSize);
                && outcome.value.Complete()
                && outcome.value
                    == UploadOutcome(KeyOf(id), total, Numbers(1, total), |source|, uploader.sha256(source))
      ensures old(faults.script) == [] ==> outcome.Ok? && faults.script == []
      ensures outcome == Err(OsError) <==> old(UploadEnd(id)).Raised?
      ensures faults.fatal == (old(faults.fatal) || outcome == Err(ProcessEnded))
    {
      hide ChunkedUpload.Upload, PlanParts, Numbers, Distinct, RowOk, ReportOk, KeyOf;
      var row := store.rows[id];
      var source := recordings[row.localPath];
      ghost var files, rows, script := uploader.objects.files, store.rows, faults.script;
      assert Row(id);
      EverythingAfterUpload(recordings, files, rows, uploader.chunkSize, uploader.maxRetries, uploader.sha256, id,
                            uploader.writesStarted, script, platform.requests);
      UploadWithoutFaults(source, uploader.chunkSize, uploader.maxRetries,
                          SlotOf(files, rows, uploader.writesStarted, KeyOf(id), id), row.uploadedParts);
      outcome := uploader.Upload(source, KeyOf(id), row.uploadedParts, store, id);
    }

    /** Bookkeeping on one row: the part numbers, the checksum and the place of the recording stay, at most one
        report arrives, and the row's and the report's claims are true. */
    twostate predicate Bookkeeping(id: string)
      requires uploader.chunkSize > 0
      reads Durable
    {
      && id in old(store.rows) && store.Valid() && id in store.rows
      && store.order == old(store.order) && store.rows == old(store.rows)[id := store.rows[id]]
      && uploader.objects.files == old(uploader.objects.files) && disk.present == old(disk.present)
      && (platform.requests == old(platform.requests)
          || exists r :: platform.requests == old(platform.requests) + [Uploaded(r)]
                      && ReportOk(recordings, store.rows, uploader.objects.files, uploader.chunkSize,
                                  uploader.sha256, r))
      && var before, after := old(store.rows)[id], store.rows[id];
         && after.uploadedParts == before.uploadedParts && after.localPath == before.localPath
         && after.checksum == before.checksum
         && (after.objectKey == before.objectKey || after.objectKey == Some(KeyOf(id)))
         && (after.uploadStatus == COMPLETED ==>
               before.uploadStatus == COMPLETED
               || (after.localPath in recordings
                   && after.uploadedParts == PartNumbers(|recordings[after.localPath]|, uploader.chunkSize)))
         && (after.callbackDone ==>
               before.callbackDone || exists r :: Uploaded(r) in platform.requests && r.episodeId == id)
    }

    /** It keeps every row in order. */
    twostate lemma RowsAfterBookkeeping(id: string)
      requires old(Valid()) && uploader.Valid() && Bookkeeping(id)
      ensures forall other :: other in store.rows ==> Row(other)
    {
      hide PartCorrect, PlanParts, Range, Distinct, KeyOf, ReportOk, StartsFirst;
      assert old(Row(id));
      assert Row(id);
      forall other | other in store.rows && other != id
        ensures Row(other)
      {
        assert old(Row(other));
      }
    }

    /** It keeps every report true and every upload's begin before its report. */
    twostate lemma RequestsAfterBookkeeping(id: string)
      requires old(Valid()) && uploader.Valid() && Bookkeeping(id)
      ensures StartsFirst(platform.requests) && OnlyReports()
      ensures forall r :: Uploaded(r) in platform.requests ==>
                ReportOk(recordings, store.rows, uploader.objects.files, uploader.chunkSize, uploader.sha256, r)
    {
      hide PartCorrect, PlanParts, Range, Distinct, KeyOf, RowOk, StartsFirst;
      if platform.requests != old(platform.requests) {
        StartsFirstSnoc(old(platform.requests), platform.requests[|platform.requests| - 1]);
        BegunSnoc(old(platform.requests), platform.requests[|platform.requests| - 1]);
      }
    }

    /** It keeps the flags of finished callbacks true. */
    twostate lemma FlagsAfterBookkeeping(id: string)
      requires old(Valid()) && uploader.Valid() && Bookkeeping(id)
      ensures forall x :: x in store.rows && store.rows[x].callbackDone ==>
                exists r :: Uploaded(r) in platform.requests && r.episodeId == x
    {
      hide RowOk, ReportOk, Row, PartNumbers, Distinct, KeyOf, StartsFirst;
      forall x | x in store.rows && store.rows[x].callbackDone
        ensures exists r :: Uploaded(r) in platform.requests && r.episodeId == x
      {
        if x != id || old(store.rows)[x].callbackDone {
          var r :| Uploaded(r) in old(platform.requests) && r.episodeId == x;
          assert Uploaded(r) in platform.requests;
        }
      }
    }

    twostate lemma AfterBookkeeping(id: string)
      requires old(Valid()) && uploader.Valid() && Bookkeeping(id)
      ensures Valid() && KeepsParts() && OnlyRow(id) && OnlyReports()
    {
      hide RowOk, ReportOk, Row, PartNumbers, Distinct, KeyOf, StartsFirst;
      RowsAfterBookkeeping(id);
      RequestsAfterBookkeeping(id);
      FlagsAfterBookkeeping(id);
    }

    lemma Place(id: string)
      requires Valid() && id in store.rows
      ensures store.rows[id].localPath in recordings
    {
      assert Row(id);
    }

    /** Marks every part of the outcome once more; all of them are already persisted. */
    method MarkAll(id: string, parts: seq<nat>) returns (ok: bool)
      requires store.Valid() && store.faults == faults && id in store.rows
      requires forall p :: p in parts ==> p in store.rows[id].uploadedParts
      modifies store, faults
      ensures store.Valid() && store.order == old(store.order) && store.rows == old(store.rows)
      ensures old(faults.script) == [] ==> ok && faults.script == []
      ensures faults.fatal == (old(faults.fatal) || !ok)
    {
      hide Distinct;
      for i := 0 to |parts|
        invariant store.Valid() && store.order == old(store.order) && store.rows == old(store.rows)
        invariant (old(faults.script) == [] ==> faults.script == []) && faults.fatal == old(faults.fatal)
      {
        assert store.rows[id].uploadedParts + {parts[i]} == store.rows[id].uploadedParts;
        ok := store.MarkPartUploaded(id, parts[i]);
        if !ok {
          return;
        }
      }
      ok := true;
    }

    /** After the upload: record the target, mark the parts, mark the upload complete. */
    method MarkComplete(id: string, sent: UploadOutcome) returns (ok: bool)
      requires Valid() && id in store.rows && sent.objectKey == KeyOf(id)
      requires store.rows[id].uploadedParts == PartNumbers(|recordings[store.rows[id].localPath]|, uploader.chunkSize)
      requires forall p :: p in sent.uploadedParts ==> p in store.rows[id].uploadedParts
      modifies store, faults
      ensures Valid() && KeepsParts() && OnlyRow(id)
      ensures store.rows[id].callbackDone == old(store.rows)[id].callbackDone
      ensures store.rows[id].checksum == old(store.rows)[id].checksum
      ensures store.rows[id].localPath == old(store.rows)[id].localPath
      ensures ok ==> store.rows[id].uploadStatus == COMPLETED && store.rows[id].objectKey == Some(KeyOf(id))
      ensures old(faults.script) == [] ==> ok && faults.script == []
      ensures faults.fatal == (old(faults.fatal) || !ok)
    {
      hide RowOk, ReportOk, PartNumbers, Distinct, StartsFirst, KeyOf;
      Place(id);
      ok := store.StartUpload(id, sent.objectKey, sent.totalParts);
      if ok {
        ok := MarkAll(id, sent.uploadedParts);
      }
      if ok {
        ok := store.CompleteUpload(id);
      }
      AfterBookkeeping(id);
    }

    /** Upload, and then the bookkeeping that marks the upload complete. */
    method Send(id: string) returns (outcome: Outcome)
      requires Valid() && id in store.rows && store.rows[id].localPath in disk.present
      modifies Repr
      ensures Valid() && KeepsParts() && OnlyRow(id) && platform.requests == old(platform.requests)
      ensures store.rows[id].localPath == old(store.rows)[id].localPath
      ensures store.rows[id].callbackDone == old(store.rows)[id].callbackDone
      ensures store.rows[id].checksum == old(store.rows)[id].checksum
      ensures outcome.Done? ==> store.rows[id].uploadStatus == COMPLETED && store.rows[id].objectKey == Some(KeyOf(id))
      ensures old(faults.script) == [] ==> outcome.Done? && faults.script == []
      ensures outcome.Handled? <==> old(UploadEnd(id)).Raised?
      ensures faults.fatal == (old(faults.fatal) || outcome.Ended?)
    {
      hide RowOk, ReportOk, PlanParts, Range, Distinct, Row;
      var sent := UploadRecording(id);
      if sent.Err? {
        return if sent.error == OsError then Handled else Ended;
      }
      var ok := MarkComplete(id, sent.value);
      outcome := if ok then Done else Ended;
    }

    /** Sends the upload-complete report and records that the platform has it. The report may arrive
        although its answer, or the agent, is lost: it is true then, and will be sent again. */
    method SendReport(id: string, checksum: Checksum) returns (outcome: Outcome)
      requires Valid() && id in store.rows && store.rows[id].NeedsCallback()
      requires store.rows[id].objectKey == Some(KeyOf(id))
      requires checksum == uploader.sha256(recordings[store.rows[id].localPath])
      modifies store, platform, faults
      ensures Valid() && KeepsParts() && OnlyRow(id)
      ensures outcome.Done? ==> store.rows[id] == old(store.rows)[id].(callbackDone := true)
      ensures OnlyReports()
      ensures platform.requests == old(platform.requests)
           || platform.requests == old(platform.requests) + [Uploaded(Report(id, KeyOf(id), checksum))]
      ensures outcome.Done? ==>
                platform.requests == old(platform.requests) + [Uploaded(Report(id, KeyOf(id), checksum))]
      ensures old(faults.script) == [] ==> outcome.Done? && faults.script == []
      ensures faults.fatal == (old(faults.fatal) || outcome.Ended?)
    {
      hide RowOk, ReportOk, PlanParts, Range, Distinct;
      assert Row(id);
      CompletedReportOk(recordings, uploader.objects.files, store.rows, uploader.chunkSize, uploader.sha256, id);
      var report := Report(id, KeyOf(id), checksum);
      ghost var rows := store.rows;
      outcome := platform.ReportUploadComplete(report);
      assert store.rows == rows[id := store.rows[id]];
      label reported:
      AfterBookkeeping(id);
      if outcome.Done? {
        assert Uploaded(report) in platform.requests;
        var ok := store.MarkCallbackDone(id);
        AfterBookkeeping@reported(id);
        outcome := if ok then Done else Ended;
      }
    }

    /** `_resend_callback`: without a target key or a checksum there is nothing to report. */
    method ResendCallback(id: string) returns (outcome: Outcome)
      requires Valid() && id in store.rows && store.rows[id].NeedsCallback()
      modifies store, platform, faults
      ensures Valid() && KeepsParts() && OnlyRow(id) && OnlyReports()
      ensures outcome.Done? ==> !store.rows[id].Unfinished()
      ensures old(faults.script) == [] ==> !outcome.Ended? && faults.script == []
      ensures old(faults.script) == [] ==>
                (outcome.Done? <==> old(store.rows)[id].objectKey.Some? && old(store.rows)[id].checksum.Some?)
      ensures faults.fatal == (old(faults.fatal) || outcome.Ended?)
    {
      var row := store.rows[id];
      if row.objectKey.None? || row.checksum.None? {
        return Handled;
      }
      assert Row(id);
      hide RowOk, ReportOk, Valid, Distinct;
      outcome := SendReport(id, row.checksum.value);
    }

    /** The body of `recover`'s loop, inside its `try`. */
    method RecoverOne(id: string) returns (outcome: Outcome, resumed: bool, resent: bool)
      requires Valid() && id in store.rows && store.rows[id].Unfinished()
      modifies Repr
      ensures Valid() && KeepsParts() && OnlyRow(id) && OnlyReports()
      ensures outcome.Done? ==> !store.rows[id].Unfinished() && (resent || old(store.rows)[id].callbackDone)
      ensures resumed ==> old(store.rows)[id].NeedsUpload()
      ensures outcome.Done? && old(store.rows)[id].NeedsUpload() ==> resumed
      ensures resent ==> outcome.Done?
      ensures old(faults.script) == [] ==> !outcome.Ended? && faults.script == []
      ensures old(faults.script) == [] ==> (outcome.Done? <==> Recoverable(old(store.rows)[id], disk.present))
      ensures old(faults.script) == [] ==>
                (resumed <==> old(store.rows)[id].NeedsUpload() && old(store.rows)[id].localPath in disk.present)
      ensures faults.fatal == (old(faults.fatal) || outcome.Ended?)
    {
      hide RowOk, ReportOk, PlanParts, Range, Distinct, Row, UploadEnd, StartsFirst, KeyOf, Begun;
      var record := store.rows[id];
      resumed, resent := false, false;
      if record.NeedsUpload() {
        if record.localPath !in disk.present {
          return Handled, false, false;
        }
        outcome := Send(id);
        if !outcome.Done? {
          return;
        }
        resumed := true;
        if store.rows[id].NeedsCallback() {
          outcome := ResendCallback(id);
          resent := outcome.Done?;
        }
      } else {
        outcome := ResendCallback(id);
        resent := outcome.Done?;
      }
    }

    method MarkFailed(id: string) returns (ok: bool)
      requires Valid() && id in store.rows
      modifies Repr
      ensures Valid() && KeepsParts() && OnlyRow(id) && OnlyReports()
      ensures ok ==> store.rows[id].uploadStatus == FAILED
      ensures old(faults.script) == [] ==> ok && faults.script == []
      ensures faults.fatal == (old(faults.fatal) || !ok)
    {
      hide RowOk, ReportOk, PartNumbers, Distinct, StartsFirst, KeyOf;
      ok := store.FailUpload(id, "");
      AfterBookkeeping(id);
    }

    /** One turn of the loop: an exception that `recover` handles marks the row as failed. */
    method RecoverOrFail(id: string) returns (ended: bool, failed: bool, resumed: bool, resent: bool)
      requires Valid() && id in store.rows && store.rows[id].Unfinished()
      modifies Repr
      ensures Valid() && KeepsParts() && OnlyRow(id) && OnlyReports()
      ensures !ended ==> (failed <==> store.rows[id].Unfinished())
      ensures !ended && failed ==> store.rows[id].uploadStatus == FAILED
      ensures !ended && !failed ==> resent || old(store.rows)[id].callbackDone
      ensures resent ==> !failed
      ensures resumed ==> old(store.rows)[id].NeedsUpload()
      ensures old(store.rows)[id].NeedsUpload() && !ended && !failed ==> resumed
      ensures old(faults.script) == [] ==>
                && !ended && faults.script == [] && (failed <==> !Recoverable(old(store.rows)[id], disk.present))
                && (resumed <==> old(store.rows)[id].NeedsUpload() && old(store.rows)[id].localPath in disk.present)
      ensures faults.fatal == (old(faults.fatal) || ended)
    {
      hide Valid, Recoverable;
      var outcome;
      outcome, resumed, resent := RecoverOne(id);
      ended, failed := outcome.Ended?, outcome.Handled?;
      if failed {
        var ok := MarkFailed(id);
        ended := !ok;
      }
    }

    /** The unfinished episodes at start-up, oldest first. */
    method Scan() returns (ids: seq<string>)
      requires Valid()
      ensures ids == UnfinishedIds(store.order, store.rows) && Distinct(ids)
      ensures forall id :: id in ids ==> id in store.rows && store.rows[id].Unfinished()
      ensures forall id :: id in store.order <==> id in store.rows
    {
      ids := store.Unfinished();
    }

    /** Start-up recovery. If it returns at all, the unfinished episodes are exactly the
        reported failures; if nothing fails, those are exactly the unrecoverable ones. */
    method Recover() returns (report: Option<RecoveryReport>)
      requires Valid()
      modifies Repr
      ensures Valid() && KeepsParts() && OnlyReports()
      ensures report.Some? ==> Accounts(store.order, old(store.rows), store.rows, report.value)
      ensures old(faults.script) == [] ==>
                report.Some? && FailsOnlyUnrecoverable(store.order, old(store.rows), disk.present, report.value)
      ensures faults.fatal == (old(faults.fatal) || report.None?)
    {
      hide Begun, Valid, Progress, UnfinishedIds, Recoverable, Accounts, FailsOnlyUnrecoverable, Distinct, UploadEnd;
      var unfinished := Scan();
      var resumed, resent, failed := 0, 0, [];
      ghost var before, faultless := store.rows, faults.script == [];
      assert unfinished[..0] == [];
      ProgressStart(before, disk.present, faultless);
      for i := 0 to |unfinished|
        invariant Valid() && KeepsParts() && OnlyReports()
        invariant (faultless ==> faults.script == []) && faults.fatal == old(faults.fatal)
        invariant Progress(before, store.rows, disk.present, unfinished[..i], failed, resumed, resent, faultless)
      {
        var id := unfinished[i];
        assert unfinished[..i + 1] == unfinished[..i] + [id];
        ProgressUntouched(before, store.rows, disk.present, unfinished, i, failed, resumed, resent, faultless);
        ghost var now := store.rows;
        var ended, wasFailed, wasResumed, wasResent := RecoverOrFail(id);
        if ended {
          return None;
        }
        ProgressStep(before, now, disk.present, unfinished[..i], failed, resumed, resent, faultless, id, store.rows,
                     wasFailed, wasResumed, wasResent);
        resumed := resumed + if wasResumed then 1 else 0;
        resent := resent + if wasResent then 1 else 0;
        failed := failed + if wasFailed then [id] else [];
      }
      assert unfinished[..|unfinished|] == unfinished;
      report := Some(RecoveryReport(|unfinished|, resumed, resent, failed));
      ProgressDone(store.order, before, store.rows, disk.present, report.value, faultless);
    }

    /** A row without part numbers, of which no report has arrived, is in order, and says nothing about other
        episodes. */
    twostate lemma AfterRegistering(id: string)
      requires old(Valid()) && store.Valid() && id in store.rows
      requires forall r :: Uploaded(r) in platform.requests ==> r.episodeId != id
      requires uploader.objects.files == old(uploader.objects.files) && platform.requests == old(platform.requests)
      requires disk.present <= recordings.Keys
      requires store.rows == old(store.rows)[id := store.rows[id]]
      requires var row := store.rows[id];
               && row.localPath in recordings && row.uploadedParts == {} && row.objectKey == None
                   && row.uploadStatus == PENDING
               && !row.callbackDone
                   && (row.checksum.Some? ==> row.checksum.value == uploader.sha256(recordings[row.localPath]))
      ensures Valid()
    {
      hide PartCorrect, PlanParts, Range, Distinct, StartsFirst, KeyOf;
      assert Row(id);
      forall other | other in store.rows && other != id
        ensures Row(other)
      {
        assert old(Row(other));
      }
      hide RowOk;
    }

    lemma ReportsAreOfRows()
      requires Valid()
      ensures forall r :: Uploaded(r) in platform.requests ==> r.episodeId in store.rows
    {
    }

    /** The row comes first, with nothing but the task and the place of the recording. */
    method Enter(id: string, taskId: string, localPath: string) returns (ok: bool)
      requires Valid() && id !in store.rows && localPath in recordings
      modifies store, faults
      ensures Valid() && faults.script == Tail(old(faults.script)) && ok == Head(old(faults.script)).Fine?
      ensures store.rows == if ok then old(store.rows)[id := NewRecord(taskId, localPath)] else old(store.rows)
      ensures faults.fatal == (old(faults.fatal) || !ok)
    {
      hide RowOk, ReportOk, PlanParts, Distinct, KeyOf, StartsFirst;
      ReportsAreOfRows();
      ok := store.RecordEpisode(id, taskId, localPath);
      if ok {
        AfterRegistering(id);
      }
    }

    method Record(localPath: string) returns (outcome: Outcome)
      requires Valid() && localPath in recordings
      modifies faults, disk
      ensures Valid() && faults.script == Tail(old(faults.script)) && outcome == OutcomeOf(Head(old(faults.script)))
      ensures disk.present == old(disk.present) + if Arrives(Head(old(faults.script))) then {localPath} else {}
      ensures faults.fatal == (old(faults.fatal) || outcome.Ended?)
    {
      hide RowOk, ReportOk, PlanParts, Distinct, KeyOf, StartsFirst;
      outcome := disk.Record(localPath);
      forall other | other in store.rows
        ensures Row(other)
      {
        assert old(Row(other));
      }
    }

    /** What is known about the recording's file is added to its row. */
    method Describe(id: string, durationMs: nat, topics: seq<string>) returns (ok: bool)
      requires Valid() && id in store.rows && store.rows[id].localPath in recordings
      requires store.rows[id] == NewRecord(store.rows[id].taskId, store.rows[id].localPath)
      requires forall r :: Uploaded(r) in platform.requests ==> r.episodeId != id
      modifies store, faults
      ensures Valid() && faults.script == Tail(old(faults.script)) && ok == Head(old(faults.script)).Fine?
      ensures ok ==>
                var content := recordings[old(store.rows)[id].localPath];
                store.rows == old(store.rows)[id := old(store.rows)[id].(
                  durationMs := Some(durationMs), sizeBytes := Some(|content|),
                  checksum := Some(uploader.sha256(content)), recordedTopics := topics)]
      ensures faults.fatal == (old(faults.fatal) || !ok)
    {
      hide RowOk, ReportOk, PlanParts, Distinct, KeyOf, StartsFirst;
      var content := recordings[store.rows[id].localPath];
      ok := store.FinishRecording(id, durationMs, |content|, uploader.sha256(content), topics);
      AfterRegistering(id);
    }

    /** Registers an episode: first the row, then the recording, then what is known about its file. */
    method Register(id: string, taskId: string, localPath: string, durationMs: nat,
                    topics: seq<string>) returns (outcome: Outcome)
      requires Valid() && id !in store.rows && localPath in recordings
      modifies store, faults, disk
      ensures Valid()
      ensures disk.present == old(disk.present) || disk.present == old(disk.present) + {localPath}
      ensures outcome.Done? ==> localPath in disk.present
      ensures outcome.Done? ==>
                store.rows == old(store.rows)[id := EpisodeRecord(
                     taskId, localPath, None, Some(durationMs), Some(|recordings[localPath]|),
                     Some(uploader.sha256(recordings[localPath])), topics, PENDING, 0, {}, false, None)]
      ensures FineFor(old(faults.script), 3) ==> outcome.Done? && faults.script == old(faults.script)[3..]
      ensures old(faults.script) == [] ==> outcome.Done? && faults.script == []
      ensures faults.fatal == (old(faults.fatal) || outcome.Ended?)
    {
      hide Valid, FineFor;
      ReportsAreOfRows();
      if FineFor(faults.script, 3) {
        ThreeFine(faults.script);
      }
      var ok := Enter(id, taskId, localPath);
      if !ok {
        return Ended;
      }
      outcome := Record(localPath);
      if outcome.Done? {
        ok := Describe(id, durationMs, topics);
        outcome := if ok then Done else Ended;
      }
    }

    lemma StoredCopy(id: string)
      requires Valid() && id in store.rows && store.rows[id].uploadStatus == COMPLETED
      ensures KeyOf(id) in uploader.objects.files
      ensures uploader.objects.files[KeyOf(id)] == recordings[store.rows[id].localPath]
    {
      assert Row(id);
      CompletedReportOk(recordings, uploader.objects.files, store.rows, uploader.chunkSize, uploader.sha256, id);
    }

    lemma Wiring()
      requires Valid()
      ensures platform.faults == faults && disk.present <= recordings.Keys
    {
    }

    /** An upload may begin on the platform as long as no report of the episode has arrived there. */
    twostate lemma AfterStarting(id: string)
      requires old(Valid()) && (forall r :: Uploaded(r) in old(platform.requests) ==> r.episodeId != id)
      requires store.rows == old(store.rows) && store.order == old(store.order) && disk.present == old(disk.present)
      requires uploader.objects.files == old(uploader.objects.files)
      requires platform.requests == old(platform.requests)
            || platform.requests == old(platform.requests) + [Started(id)]
      ensures Valid()
    {
      hide RowOk, ReportOk, Range, Distinct, KeyOf, StartsFirst;
      StartsFirstSnoc(old(platform.requests), Started(id));
      forall other | other in store.rows
        ensures Row(other)
      {
        assert old(Row(other));
      }
    }

    /** Tells the platform that the upload of a newly registered episode begins. */
    method BeginUpload(id: string) returns (outcome: Outcome)
      requires Valid() && forall r :: Uploaded(r) in platform.requests ==> r.episodeId != id
      modifies platform, faults
      ensures Valid() && faults.script == Tail(old(faults.script)) && outcome == OutcomeOf(Head(old(faults.script)))
      ensures platform.requests
           == old(platform.requests) + if Arrives(Head(old(faults.script))) then [Started(id)] else []
      ensures Begun(platform.requests) <= Begun(old(platform.requests)) + {id}
      ensures faults.fatal == (old(faults.fatal) || outcome.Ended?)
    {
      hide Valid, Distinct, KeyOf, RowOk, ReportOk, StartsFirst, Begun;
      Wiring();
      outcome := platform.StartUpload(id);
      AfterStarting(id);
      BegunSnoc(old(platform.requests), Started(id));
    }

    /** The second half of `collect_once`: upload, then report. */
    method Transfer(id: string) returns (outcome: Outcome)
      requires Valid() && id in store.rows && !store.rows[id].callbackDone
      requires store.rows[id].localPath in disk.present && store.rows[id].localPath in recordings
      modifies Repr
      ensures Valid() && KeepsParts() && OnlyRow(id) && OnlyReports()
      ensures outcome.Done? ==>
                var content := recordings[old(store.rows)[id].localPath];
                && !store.rows[id].Unfinished()
                && KeyOf(id) in uploader.objects.files && uploader.objects.files[KeyOf(id)] == content
                && platform.requests
                   == old(platform.requests) + [Uploaded(Report(id, KeyOf(id), uploader.sha256(content)))]
      ensures old(faults.script) == [] ==> outcome.Done?
      ensures faults.fatal == (old(faults.fatal) || outcome.Ended?)
    {
      hide Valid, KeyOf, UploadEnd;
      var content := recordings[store.rows[id].localPath];
      outcome := Send(id);
      if !outcome.Done? {
        return;
      }
      outcome := SendReport(id, uploader.sha256(content));
      if outcome.Done? {
        StoredCopy(id);
      }
    }

    /** `collect_once`: register, record, enter the upload state, upload, report. However it ends,
        even before or in the middle of the recording, the agent stays valid, so recovery can take
        over; when it succeeds the platform has been sent a checksum that the stored copy of the
        recording has. */
    method CollectOnce(id: string, taskId: string, localPath: string, durationMs: nat,
                       topics: seq<string>) returns (outcome: Outcome)
      requires Valid() && id !in store.rows && localPath in recordings
      modifies Repr, disk
      ensures Valid()
      ensures outcome.Done? ==>
                && id in store.rows && !store.rows[id].Unfinished()
                && KeyOf(id) in uploader.objects.files && uploader.objects.files[KeyOf(id)] == recordings[localPath]
                && platform.requests
                    == old(platform.requests)
                       + [Started(id), Uploaded(Report(id, KeyOf(id), uploader.sha256(recordings[localPath])))]
      ensures Begun(platform.requests) <= Begun(old(platform.requests)) + {id}
      ensures FineFor(old(faults.script), 3) && !Arrives(old(faults.script)[3]) ==>
                && !outcome.Done? && faults.script == old(faults.script)[4..]
                && platform.requests == old(platform.requests)
                && id in store.rows && Recoverable(store.rows[id], disk.present)
                && store.rows[id].NeedsUpload() && store.rows[id].localPath == localPath
      ensures old(faults.script) == [] ==> outcome.Done?
      ensures faults.fatal == (old(faults.fatal) || outcome.Ended?)
    {
      hide Valid, Distinct, KeyOf, RowOk, ReportOk, StartsFirst, Begun, UploadEnd;
      ReportsAreOfRows();
      outcome := Register(id, taskId, localPath, durationMs, topics);
      if !outcome.Done? {
        return;
      }
      outcome := BeginUpload(id);
      if !outcome.Done? {
        return;
      }
      outcome := Transfer(id);
    }
  }
}
