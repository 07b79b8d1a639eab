/**
 The agent's local database (agent/src/agent/store/sqlite.py) and the fault script that
 decides which primitive action fails or is the point where the process dies.
 */
module AgentStore {
  import opened Basics
  import opened ChunkedUpload

  type Checksum = string

  datatype UploadStatus = PENDING | IN_PROGRESS | COMPLETED | FAILED

  /** One row; `uploadedParts` is the set whose sorted list the database stores. */
  datatype EpisodeRecord = EpisodeRecord(
    taskId: string,
    localPath: string,
    objectKey: Option<string>,
    durationMs: Option<nat>,
    sizeBytes: Option<nat>,
    checksum: Option<Checksum>,
    recordedTopics: seq<string>,
    uploadStatus: UploadStatus,
    totalParts: nat,
    uploadedParts: set<nat>,
    callbackDone: bool,
    lastError: Option<string>)
  {
    predicate NeedsUpload() { uploadStatus != COMPLETED }

    predicate NeedsCallback() { uploadStatus == COMPLETED && !callbackDone }

    predicate Unfinished() { NeedsUpload() || NeedsCallback() }
  }

  /** The row of an episode of which nothing is known but its task and where it is recorded. */
  function NewRecord(taskId: string, localPath: string): EpisodeRecord {
    EpisodeRecord(taskId, localPath, None, None, None, None, [], PENDING, 0, {}, false, None)
  }

  /** The ids, in order, whose row is unfinished. */
  function UnfinishedIds(order: seq<string>, rows: map<string, EpisodeRecord>): (r: seq<string>)
    ensures forall id :: id in r <==> id in order && id in rows && rows[id].Unfinished()
  {
    if order == [] then []
    else if order[0] in rows && rows[order[0]].Unfinished() then [order[0]] + UnfinishedIds(order[1..], rows)
    else UnfinishedIds(order[1..], rows)
  }

  /** Ids in creation order, each once. */
  ghost predicate Distinct(s: seq<string>) {
    forall i, j :: 0 <= i < j < |s| ==> s[i] != s[j]
  }

  class FaultScript {
    var script: seq<Fault>
    /** Whether a fault has come that no handler of the agent catches: a crash, or a failing database statement. */
    ghost var fatal: bool

    constructor (script: seq<Fault>)
      ensures this.script == script && !fatal
    {
      this.script := script;
      fatal := false;
    }

    method Next() returns (fault: Fault)
      modifies this
      ensures fault == Head(old(script)) && script == Tail(old(script))
      ensures fatal == (old(fatal) || fault.Crash?)
    {
      if script == [] {
        fault := Fine;
      } else {
        fault, script := script[0], script[1..];
      }
      fatal := fatal || fault.Crash?;
    }

    /** The fault of a database statement. */
    method NextStatement() returns (fault: Fault)
      modifies this
      ensures fault == Head(old(script)) && script == Tail(old(script))
      ensures fatal == (old(fatal) || !fault.Fine?)
    {
      fault := Next();
      fatal := fatal || !fault.Fine?;
    }
  }

  /** Each write is one autocommitted statement: it either happens whole, or the fault
      that stops it ends the agent (`ok` is false). Rows are listed in creation order. */
  class StateStore {
    const faults: FaultScript
    var rows: map<string, EpisodeRecord>
    var order: seq<string>

    ghost predicate Valid()
      reads this
    {
      Distinct(order) && forall id :: id in order <==> id in rows
    }

    constructor (faults: FaultScript)
      ensures Valid() && this.faults == faults && rows == map[] && order == []
    {
      this.faults := faults;
      rows, order := map[], [];
    }

    /** INSERT OR REPLACE: the row is created afresh, as the newest one. */
    method RecordEpisode(id: string, taskId: string, localPath: string) returns (ok: bool)
      requires Valid()
      modifies this, faults
      ensures Valid() && faults.script == Tail(old(faults.script)) && ok == Head(old(faults.script)).Fine?
      ensures faults.fatal == (old(faults.fatal) || !ok)
      ensures !ok ==> rows == old(rows) && order == old(order)
      ensures ok ==>
                rows == old(rows)[id := NewRecord(taskId, localPath)]
      ensures ok ==> order == Without(old(order), id) + [id]
    {
      var fault := faults.NextStatement();
      ok := fault.Fine?;
      if ok {
        WithoutDistinct(order, id);
        rows := rows[id := NewRecord(taskId, localPath)];
        order := Without(order, id) + [id];
      }
    }

    /** UPDATE of one row; an unknown id updates nothing. */
    method Update(id: string, change: EpisodeRecord -> EpisodeRecord) returns (ok: bool)
      requires Valid()
      modifies this, faults
      ensures Valid() && faults.script == Tail(old(faults.script)) && ok == Head(old(faults.script)).Fine?
      ensures faults.fatal == (old(faults.fatal) || !ok)
      ensures order == old(order)
      ensures rows == if ok && id in old(rows) then old(rows)[id := change(old(rows)[id])] else old(rows)
    {
      var fault := faults.NextStatement();
      ok := fault.Fine?;
      if ok && id in rows {
        rows := rows[id := change(rows[id])];
      }
    }

    method FinishRecording(id: string, durationMs: nat, sizeBytes: nat, checksum: Checksum,
                           topics: seq<string>) returns (ok: bool)
      requires Valid()
      modifies this, faults
      ensures Valid() && faults.script == Tail(old(faults.script)) && ok == Head(old(faults.script)).Fine?
      ensures faults.fatal == (old(faults.fatal) || !ok)
      ensures order == old(order)
      ensures rows == if !ok || id !in old(rows) then old(rows)
                else old(rows)[id := old(rows)[id].(durationMs := Some(durationMs),
                        sizeBytes := Some(sizeBytes), checksum := Some(checksum), recordedTopics := topics)]
    {
      ok := Update(id, (row: EpisodeRecord) =>
        row.(durationMs := Some(durationMs), sizeBytes := Some(sizeBytes), checksum := Some(checksum),
             recordedTopics := topics));
    }

    method StartUpload(id: string, objectKey: string, totalParts: nat) returns (ok: bool)
      requires Valid()
      modifies this, faults
      ensures Valid() && faults.script == Tail(old(faults.script)) && ok == Head(old(faults.script)).Fine?
      ensures faults.fatal == (old(faults.fatal) || !ok)
      ensures order == old(order)
      ensures rows == if !ok || id !in old(rows) then old(rows)
                else old(rows)[id := old(rows)[id].(objectKey := Some(objectKey),
                        totalParts := totalParts, uploadStatus := IN_PROGRESS)]
    {
      ok := Update(id, (row: EpisodeRecord) =>
        row.(objectKey := Some(objectKey), totalParts := totalParts, uploadStatus := IN_PROGRESS));
    }

    /** Adds one part number to the persisted ones and loses none; an unregistered episode
        raises a `KeyError`, here a failure that changes nothing. */
    method MarkPartUploaded(id: string, part: nat) returns (ok: bool)
      requires Valid()
      modifies this, faults
      ensures Valid() && order == old(order)
      ensures faults.script == if id in old(rows) then Tail(old(faults.script)) else old(faults.script)
      ensures ok == (id in old(rows) && Head(old(faults.script)).Fine?)
      ensures faults.fatal == (old(faults.fatal) || (id in old(rows) && !ok))
      ensures rows == if !ok then old(rows)
                else old(rows)[id := old(rows)[id].(uploadedParts := old(rows)[id].uploadedParts + {part})]
    {
      if id !in rows {
        return false;
      }
      ok := Update(id, (row: EpisodeRecord) => row.(uploadedParts := row.uploadedParts + {part}));
    }

    method CompleteUpload(id: string) returns (ok: bool)
      requires Valid()
      modifies this, faults
      ensures Valid() && faults.script == Tail(old(faults.script)) && ok == Head(old(faults.script)).Fine?
      ensures faults.fatal == (old(faults.fatal) || !ok)
      ensures order == old(order)
      ensures rows == if !ok || id !in old(rows) then old(rows)
                else old(rows)[id := old(rows)[id].(uploadStatus := COMPLETED, lastError := None)]
    {
      ok := Update(id, (row: EpisodeRecord) => row.(uploadStatus := COMPLETED, lastError := None));
    }

    method FailUpload(id: string, error: string) returns (ok: bool)
      requires Valid()
      modifies this, faults
      ensures Valid() && faults.script == Tail(old(faults.script)) && ok == Head(old(faults.script)).Fine?
      ensures faults.fatal == (old(faults.fatal) || !ok)
      ensures order == old(order)
      ensures rows == if !ok || id !in old(rows) then old(rows)
                else old(rows)[id := old(rows)[id].(uploadStatus := FAILED, lastError := Some(error))]
    {
      ok := Update(id, (row: EpisodeRecord) => row.(uploadStatus := FAILED, lastError := Some(error)));
    }

    method MarkCallbackDone(id: string) returns (ok: bool)
      requires Valid()
      modifies this, faults
      ensures Valid() && faults.script == Tail(old(faults.script)) && ok == Head(old(faults.script)).Fine?
      ensures faults.fatal == (old(faults.fatal) || !ok)
      ensures order == old(order)
      ensures rows == if !ok || id !in old(rows) then old(rows)
                else old(rows)[id := old(rows)[id].(callbackDone := true)]
    {
      ok := Update(id, (row: EpisodeRecord) => row.(callbackDone := true));
    }

    /** Every row that still needs an upload or a callback, oldest first. */
    method Unfinished() returns (ids: seq<string>)
      requires Valid()
      ensures ids == UnfinishedIds(order, rows) && Distinct(ids)
    {
      ids := UnfinishedIds(order, rows);
      UnfinishedDistinct(order, rows);
    }
  }

  function Without(s: seq<string>, id: string): (r: seq<string>)
    ensures forall x :: x in r <==> x in s && x != id
  {
    if s == [] then [] else (if s[0] == id then [] else [s[0]]) + Without(s[1..], id)
  }

  lemma {:induction false} WithoutDistinct(s: seq<string>, id: string)
    requires Distinct(s)
    ensures Distinct(Without(s, id) + [id])
  {
    if s != [] {
      WithoutDistinct(s[1..], id);
      if s[0] != id {
        var rest := Without(s[1..], id) + [id];
        assert Without(s, id) + [id] == [s[0]] + rest;
        assert s[0] !in s[1..];
        assert forall x :: x in rest ==> x in s[1..] || x == id;
      } else {
        assert Without(s, id) == Without(s[1..], id);
      }
    }
  }

  lemma {:induction false} UnfinishedDistinct(order: seq<string>, rows: map<string, EpisodeRecord>)
    requires Distinct(order)
    ensures Distinct(UnfinishedIds(order, rows))
  {
    if order != [] {
      UnfinishedDistinct(order[1..], rows);
      assert order[0] !in order[1..];
    }
  }

  lemma {:induction false} UnfinishedConcat(a: seq<string>, b: seq<string>, rows: map<string, EpisodeRecord>)
    ensures UnfinishedIds(a + b, rows) == UnfinishedIds(a, rows) + UnfinishedIds(b, rows)
  {
    hide EpisodeRecord.Unfinished, UnfinishedIds;
    NoneUnfinished(rows);
    if a == [] {
      assert a + b == b;
    } else {
      UnfinishedConcat(a[1..], b, rows);
      UnfinishedCons(a, rows);
      UnfinishedCons(a + b, rows);
      assert (a + b)[1..] == a[1..] + b && (a + b)[0] == a[0];
    }
  }

  lemma NoneUnfinished(rows: map<string, EpisodeRecord>)
    ensures UnfinishedIds([], rows) == []
  {
  }

  lemma UnfinishedCons(order: seq<string>, rows: map<string, EpisodeRecord>)
    requires order != []
    ensures UnfinishedIds(order, rows)
         == (if order[0] in rows && rows[order[0]].Unfinished() then [order[0]] else []) + UnfinishedIds(order[1..], rows)
  {
  }

  lemma {:induction false} UnfinishedSame(ids: seq<string>, before: map<string, EpisodeRecord>,
                                          after: map<string, EpisodeRecord>)
    requires forall x :: x in ids ==> x in before && x in after && before[x] == after[x]
    ensures UnfinishedIds(ids, after) == UnfinishedIds(ids, before)
  {
    hide EpisodeRecord.Unfinished;
    if ids != [] {
      assert ids[0] in ids;
      UnfinishedSame(ids[1..], before, after);
    }
  }

  /** The listing goes row by row, and looks at nothing but the rows it lists. */
  lemma UnfinishedSnoc(ids: seq<string>, id: string, before: map<string, EpisodeRecord>,
                       after: map<string, EpisodeRecord>)
    requires forall x :: x in ids ==> x in before && x in after && before[x] == after[x]
    ensures UnfinishedIds(ids + [id], after)
         == UnfinishedIds(ids, before) + (if id in after && after[id].Unfinished() then [id] else [])
  {
    hide EpisodeRecord.Unfinished;
    UnfinishedConcat(ids, [id], after);
    UnfinishedSame(ids, before, after);
    assert UnfinishedIds([id][1..], after) == [];
  }

  /** Once every id outside `unfinished` is finished for good, listing the unfinished ids
      of the whole table is listing them among `unfinished`. */
  lemma {:induction false} UnfinishedAgain(order: seq<string>, before: map<string, EpisodeRecord>,
                                           after: map<string, EpisodeRecord>)
    requires forall id :: id in order && id in after && after[id].Unfinished() ==>
               id in before && before[id].Unfinished()
    ensures UnfinishedIds(order, after) == UnfinishedIds(UnfinishedIds(order, before), after)
  {
    if order != [] {
      UnfinishedAgain(order[1..], before, after);
      var rest := UnfinishedIds(order[1..], before);
      if order[0] in before && before[order[0]].Unfinished() {
        assert UnfinishedIds(order, before) == [order[0]] + rest;
      } else {
        assert UnfinishedIds(order, before) == rest;
      }
    }
  }
}
