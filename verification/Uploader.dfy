/**
 `LocalChunkUploader` (agent/src/agent/uploader/chunked.py) as it runs: it pre-allocates
 the target file, seeks, writes part after part in place and reports each one to the
 database before the next. `Upload` is proved to be the function `ChunkedUpload.Upload`.
 */
module Uploader {
  import opened Basics
  import opened ChunkedUpload
  import opened AgentStore

  datatype UploadOutcome = UploadOutcome(
    objectKey: string, totalParts: nat, uploadedParts: seq<nat>, sizeBytes: nat, checksum: Checksum)
  {
    predicate Complete() { |uploadedParts| == totalParts }
  }

  /** Why no outcome came back: an exception callers handle, or the end of the process. */
  datatype Failure = OsError | ProcessEnded

  /** The object store's files; the local stand-in for MinIO. */
  class ObjectStore {
    var files: map<string, seq<byte>>

    constructor ()
      ensures files == map[]
    {
      files := map[];
    }
  }

  /** The durable state of one episode's upload. */
  function SlotOf(files: map<string, seq<byte>>, rows: map<string, EpisodeRecord>, writes: nat, key: string,
                  id: string): Slot
    requires id in rows
  {
    Slot(if key in files then Some(files[key]) else None, rows[id].uploadedParts, writes)
  }

  /** The files after the target behind `key` has become `target`. */
  function FilesWith(files: map<string, seq<byte>>, key: string, target: Option<seq<byte>>): map<string, seq<byte>> {
    if target.Some? then files[key := target.value] else files
  }

  function FailureOf(end: Ending): Option<Failure> {
    match end
    case Returned(_) => None
    case Raised => Some(OsError)
    case Died => Some(ProcessEnded)
  }

  class LocalChunkUploader {
    const objects: ObjectStore
    const faults: FaultScript
    const chunkSize: nat
    const maxRetries: nat
    const sha256: seq<byte> -> Checksum
    var writesStarted: nat

    ghost predicate Valid()
    {
      chunkSize > 0
    }

    constructor (objects: ObjectStore, faults: FaultScript, chunkSize: nat, maxRetries: nat,
                 sha256: seq<byte> -> Checksum)
      requires chunkSize > 0
      ensures Valid() && this.objects == objects && this.faults == faults && this.chunkSize == chunkSize
      ensures this.maxRetries == maxRetries && this.sha256 == sha256 && writesStarted == 0
    {
      this.objects, this.faults, this.chunkSize, this.maxRetries, this.sha256 :=
          objects, faults, chunkSize, maxRetries, sha256;
      writesStarted := 0;
    }

    method Preallocate(objectKey: string, size: nat, ghost slot: Slot) returns (failure: Option<Failure>)
      requires slot.target == if objectKey in objects.files then Some(objects.files[objectKey]) else None
      modifies objects, faults
      ensures var run := ChunkedUpload.Preallocate(slot, size, old(faults.script));
              && objects.files == FilesWith(old(objects.files), objectKey, run.slot.target)
              && faults.script == run.script
              && failure == FailureOf(run.end)
      ensures faults.fatal == (old(faults.fatal) || failure == Some(ProcessEnded))
    {
      if objectKey in objects.files && |objects.files[objectKey]| == size {
        return None;
      }
      var opening := faults.Next();
      if !(opening.Error? && opening.torn == 0) && !(opening.Crash? && opening.torn == 0) {
        objects.files := objects.files[objectKey := []];
      }
      if !opening.Fine? {
        return Some(if opening.Error? then OsError else ProcessEnded);
      }
      var truncated := faults.Next();
      if !truncated.Fine? {
        return Some(if truncated.Error? then OsError else ProcessEnded);
      }
      objects.files := objects.files[objectKey := Zeros(size)];
      failure := None;
    }

    method WritePart(objectKey: string, offset: nat, data: seq<byte>) returns (end: WriteEnd)
      requires objectKey in objects.files
      modifies objects, faults
      ensures var w :=
                ChunkedUpload.WritePart(old(objects.files)[objectKey], offset, data, maxRetries, old(faults.script));
              && objects.files == old(objects.files)[objectKey := w.target]
              && faults.script == w.script && end == w.end
      ensures faults.fatal == (old(faults.fatal) || end.Killed?)
    {
      var attempt := 1;
      while attempt < maxRetries + 2
        invariant 1 <= attempt <= maxRetries + 1
        invariant objectKey in objects.files && faults.fatal == old(faults.fatal)
        invariant objects.files == old(objects.files)[objectKey := objects.files[objectKey]]
        invariant ChunkedUpload.WritePart(objects.files[objectKey], offset, data, maxRetries + 1 - attempt,
                    faults.script)
               == ChunkedUpload.WritePart(old(objects.files)[objectKey], offset, data, maxRetries, old(faults.script))
        decreases maxRetries + 2 - attempt
      {
        var fault := faults.Next();
        var put := match fault case Fine => data case Error(torn) => Prefix(data, torn) case Crash(torn) =>
            Prefix(data, torn);
        objects.files := objects.files[objectKey := WriteAt(objects.files[objectKey], offset, put)];
        if fault.Fine? {
          return Written;
        }
        if fault.Crash? {
          return Killed;
        }
        if attempt == maxRetries + 1 {
          return Exhausted;
        }
        attempt := attempt + 1;
      }
      assert false;
    }

    /** One turn of the part loop: read, write, and tell the database at once. */
    method SendPart(source: seq<byte>, objectKey: string, part: nat, store: StateStore, episodeId: string)
      returns (failure: Option<Failure>)
      requires Valid() && store.Valid() && store.faults == faults && episodeId in store.rows
      requires objectKey in objects.files && part > 0
      modifies this, objects, faults, store
      ensures store.Valid() && store.order == old(store.order)
      ensures var run := SendOne(source, chunkSize, maxRetries,
                           old(SlotOf(objects.files, store.rows, writesStarted, objectKey, episodeId)), part,
                               old(faults.script));
              && run.slot.target.Some?
              && objects.files == old(objects.files)[objectKey := run.slot.target.value]
              && store.rows
                  == old(store.rows)[episodeId := old(store.rows)[episodeId].(uploadedParts := run.slot.marks)]
              && writesStarted == run.slot.writes && faults.script == run.script
              && failure == FailureOf(run.end)
      ensures faults.fatal == (old(faults.fatal) || failure == Some(ProcessEnded))
    {
      hide Offset, ReadChunk, WriteAt, ChunkedUpload.WritePart, Distinct;
      var reading := faults.Next();
      if !reading.Fine? {
        return Some(if reading.Error? then OsError else ProcessEnded);
      }
      var data := ReadChunk(source, part, chunkSize);
      writesStarted := writesStarted + 1;
      var end := WritePart(objectKey, Offset(part, chunkSize), data);
      if end != Written {
        return Some(if end == Exhausted then OsError else ProcessEnded);
      }
      var ok := store.MarkPartUploaded(episodeId, part);
      failure := if ok then None else Some(ProcessEnded);
    }

    /** The part loop of `upload`. */
    method SendParts(source: seq<byte>, objectKey: string, already: set<nat>, store: StateStore, episodeId: string)
      returns (done: set<nat>, failure: Option<Failure>)
      requires Valid() && store.Valid() && store.faults == faults && episodeId in store.rows
      requires objectKey in objects.files
      modifies this, objects, faults, store
      ensures store.Valid() && store.order == old(store.order)
      ensures var run := UploadParts(source, chunkSize, maxRetries,
                           old(SlotOf(objects.files, store.rows, writesStarted, objectKey, episodeId)), already, 1,
                               old(faults.script));
              && run.slot.target.Some?
              && objects.files == old(objects.files)[objectKey := run.slot.target.value]
              && store.rows
                  == old(store.rows)[episodeId := old(store.rows)[episodeId].(uploadedParts := run.slot.marks)]
              && writesStarted == run.slot.writes && faults.script == run.script
              && failure == FailureOf(run.end)
              && (run.end.Returned? ==> run.end.parts == SortedSeq(done))
      ensures faults.fatal == (old(faults.fatal) || failure == Some(ProcessEnded))
    {
      hide PlanParts, SortedSeq, SendOne, Distinct;
      done := already;
      var total := PlanParts(|source|, chunkSize);
      var part := 1;
      ghost var first := SlotOf(objects.files, store.rows, writesStarted, objectKey, episodeId);
      while part < total + 1
        invariant 1 <= part <= total + 1 && store.Valid() && store.order == old(store.order)
        invariant objectKey in objects.files && episodeId in store.rows && faults.fatal == old(faults.fatal)
        invariant objects.files == old(objects.files)[objectKey := objects.files[objectKey]]
        invariant store.rows
                    == old(store.rows)[episodeId :=
                    old(store.rows)[episodeId].(uploadedParts := store.rows[episodeId].uploadedParts)]
        invariant UploadParts(source, chunkSize, maxRetries,
                    SlotOf(objects.files, store.rows, writesStarted, objectKey, episodeId), done, part, faults.script)
               == UploadParts(source, chunkSize, maxRetries, first, already, 1, old(faults.script))
        decreases total + 1 - part
      {
        if part !in done {
          failure := SendPart(source, objectKey, part, store, episodeId);
          if failure.Some? {
            return;
          }
          done := done + {part};
        }
        part := part + 1;
      }
      failure := None;
    }

    /** `upload`: whatever faults come, the durable state is the one `ChunkedUpload.Upload`
        computes, and nothing but this episode's file and part numbers changes. */
    method Upload(source: seq<byte>, objectKey: string, already: set<nat>, store: StateStore, episodeId: string)
      returns (outcome: Result<UploadOutcome, Failure>)
      requires Valid() && store.Valid() && store.faults == faults && episodeId in store.rows
      modifies this, objects, faults, store
      ensures store.Valid() && store.order == old(store.order)
      ensures var run := ChunkedUpload.Upload(source, chunkSize, maxRetries,
                           old(SlotOf(objects.files, store.rows, writesStarted, objectKey, episodeId)), already,
                               old(faults.script));
              && objects.files == FilesWith(old(objects.files), objectKey, run.slot.target)
              && store.rows
                  == old(store.rows)[episodeId := old(store.rows)[episodeId].(uploadedParts := run.slot.marks)]
              && writesStarted == run.slot.writes && faults.script == run.script
              && match run.end
                 case Returned(parts) =>
                   && objectKey in objects.files
                   && outcome == Ok(UploadOutcome(objectKey, PlanParts(|source|, chunkSize), parts, |source|,
                       sha256(objects.files[objectKey])))
                 case Raised => outcome == Err(OsError)
                 case Died => outcome == Err(ProcessEnded)
      ensures faults.fatal == (old(faults.fatal) || outcome == Err(ProcessEnded))
    {
      hide PlanParts, UploadParts, SortedSeq, ChunkedUpload.Preallocate, Distinct, Zeros;
      ghost var slot := SlotOf(objects.files, store.rows, writesStarted, objectKey, episodeId);
      var failed := Preallocate(objectKey, |source|, slot);
      if failed.Some? {
        return Err(failed.value);
      }
      var done, failure := SendParts(source, objectKey, already, store, episodeId);
      if failure.Some? {
        return Err(failure.value);
      }
      var reading := faults.Next();
      if !reading.Fine? {
        return Err(if reading.Error? then OsError else ProcessEnded);
      }
      outcome := Ok(UploadOutcome(objectKey, PlanParts(|source|, chunkSize), SortedSeq(done), |source|,
          sha256(objects.files[objectKey])));
    }
  }
}
