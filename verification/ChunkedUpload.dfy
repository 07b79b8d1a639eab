/**
 Crash-resumable chunked upload (agent/src/agent/uploader/chunked.py).

 Everything that survives a crash is one `Slot`: the target file and the part numbers
 persisted in the local database. Every primitive action on that durable state asks a
 fault script whether it succeeds, fails, or is the point where the process dies, so a
 statement for all scripts is a statement about a crash at every point.
 */
module ChunkedUpload {
  import opened Basics

  newtype byte = x: int | 0 <= x < 256

  // ---------------------------------------------------------------- parts of a file

  /** Number of parts; an empty file still counts as one part. */
  function PlanParts(size: nat, chunk: nat): nat
    requires chunk > 0
  {
    if size <= 0 then 1 else (size + chunk - 1) / chunk
  }

  function Offset(part: nat, chunk: nat): nat
    requires part > 0
  {
    (part - 1) * chunk
  }

  /** Where a part ends: one chunk after its offset, or at the end of the file. */
  function PartEnd(part: nat, chunk: nat, size: nat): nat
    requires part > 0
  {
    if Offset(part, chunk) + chunk <= size then Offset(part, chunk) + chunk else size
  }

  /** The numbers lo..hi. */
  function Range(lo: nat, hi: nat): (r: set<nat>)
    ensures forall p :: p in r <==> lo <= p <= hi
    decreases hi + 1 - lo
  {
    if lo > hi then {} else {lo} + Range(lo + 1, hi)
  }

  /** The numbers lo..hi in ascending order. */
  function Numbers(lo: nat, hi: nat): (r: seq<nat>)
    ensures |r| == if lo <= hi then hi + 1 - lo else 0
    ensures forall i :: 0 <= i < |r| ==> r[i] == lo + i
    decreases hi + 1 - lo
  {
    if lo > hi then [] else [lo] + Numbers(lo + 1, hi)
  }

  /** The parts 1..total of a file of `size` bytes. */
  function PartNumbers(size: nat, chunk: nat): set<nat>
    requires chunk > 0
  {
    Range(1, PlanParts(size, chunk))
  }

  lemma OffsetStep(part: nat, chunk: nat)
    requires part > 0
    ensures Offset(part + 1, chunk) == Offset(part, chunk) + chunk
  {
  }

  lemma OffsetMonotone(p: nat, q: nat, chunk: nat)
    requires 0 < p < q
    ensures Offset(p, chunk) + chunk <= Offset(q, chunk)
    decreases q
  {
    if p + 1 < q {
      OffsetMonotone(p, q - 1, chunk);
    }
  }

  /** The number of parts is the ceiling of size / chunk, but one for the empty file: the parts
      cover the file, and unless there is only one the last of them is needed. */
  lemma CeilingBounds(size: nat, chunk: nat)
    requires chunk > 0
    ensures PlanParts(size, chunk) > 0
    ensures size <= Offset(PlanParts(size, chunk) + 1, chunk)
    ensures if size == 0 then PlanParts(size, chunk) == 1 else Offset(PlanParts(size, chunk), chunk) < size
  {
    if size > 0 {
      var q := size + chunk - 1;
      var t := q / chunk;
      assert q == t * chunk + q % chunk;
      assert Offset(t + 1, chunk) == t * chunk;
      OffsetStep(t, chunk);
    }
  }

  /** A part number is in range exactly when it is part 1 or starts before the end of the file. */
  lemma PartInRange(p: nat, chunk: nat, size: nat)
    requires chunk > 0 && p > 0
    ensures p <= PlanParts(size, chunk) <==> p == 1 || Offset(p, chunk) < size
  {
    if size > 0 {
      CeilingBounds(size, chunk);
      var t := PlanParts(size, chunk);
      if p < t {
        OffsetMonotone(p, t, chunk);
      } else if t + 1 < p {
        OffsetMonotone(t + 1, p, chunk);
      }
    } else if p > 1 {
      OffsetMonotone(1, p, chunk);
    }
  }

  /** Every byte of the file lies in exactly one of the parts 1..total. */
  lemma PartsTileTheFile(i: nat, chunk: nat, size: nat) returns (p: nat)
    requires chunk > 0 && i < size
    ensures 1 <= p <= PlanParts(size, chunk) && Offset(p, chunk) <= i < PartEnd(p, chunk, size)
    ensures forall q :: 1 <= q <= PlanParts(size, chunk) && Offset(q, chunk) <= i < PartEnd(q, chunk, size) ==> q == p
  {
    p := i / chunk + 1;
    assert i == chunk * (i / chunk) + i % chunk;
    assert Offset(p, chunk) == chunk * (i / chunk);
    PartInRange(p, chunk, size);
    forall q | 1 <= q <= PlanParts(size, chunk) && Offset(q, chunk) <= i < PartEnd(q, chunk, size)
      ensures q == p
    {
      if q < p {
        OffsetMonotone(q, p, chunk);
      } else if p < q {
        OffsetMonotone(p, q, chunk);
      }
    }
  }

  // ---------------------------------------------------------------- durable state

  /** What happens at a primitive action: it works, it raises after `torn` bytes reached
      the file or the peer, or the process dies after `torn` bytes reached it. */
  datatype Fault = Fine | Error(torn: nat) | Crash(torn: nat)

  /** The fault of the next action; an exhausted script means no further faults. */
  function Head(script: seq<Fault>): Fault {
    if script == [] then Fine else script[0]
  }

  function Tail(script: seq<Fault>): seq<Fault> {
    if script == [] then [] else script[1..]
  }

  /** Durable state of one upload; `writes` counts the part writes ever started. */
  datatype Slot = Slot(target: Option<seq<byte>>, marks: set<nat>, writes: nat)

  /** How a run ends: normally, with an `OSError`, or by a crash or database error
      that no handler of the agent catches. */
  datatype Ending = Returned(parts: seq<nat>) | Raised | Died

  datatype Run = Run(slot: Slot, end: Ending, script: seq<Fault>)

  // ---------------------------------------------------------------- file operations

  function Zeros(n: nat): (z: seq<byte>)
    ensures |z| == n
  {
    seq(n, _ => 0)
  }

  /** POSIX write at an offset: overwrites, and extends the file when it has to. */
  function WriteAt(file: seq<byte>, offset: nat, data: seq<byte>): (r: seq<byte>)
  {
    var padded := if |file| < offset then file + Zeros(offset - |file|) else file;
    if offset + |data| <= |padded| then padded[..offset] + data + padded[offset + |data|..]
    else padded[..offset] + data
  }

  function Prefix(data: seq<byte>, n: nat): (r: seq<byte>)
  {
    if n < |data| then data[..n] else data
  }

  /** `src.seek(offset); src.read(chunk)`: empty beyond the end of the file. */
  function ReadChunk(source: seq<byte>, part: nat, chunk: nat): seq<byte>
    requires part > 0
  {
    var offset := Offset(part, chunk);
    if |source| < offset then [] else source[offset..PartEnd(part, chunk, |source|)]
  }

  /** The ascending enumeration of a finite set, Python's `sorted(done)`. */
  function SortedSeq(s: set<nat>): (r: seq<nat>)
    ensures |r| == |s|
  {
    if s == {} then [] else
      MinExists(s);
      var m :| m in s && forall x :: x in s ==> m <= x;
      [m] + SortedSeq(s - {m})
  }

  lemma MinExists(s: set<nat>)
    requires s != {}
    ensures exists m :: m in s && forall x :: x in s ==> m <= x
  {
    var y :| y in s;
    if s != {y} {
      var rest := s - {y};
      MinExists(rest);
      var m :| m in rest && forall x :: x in rest ==> m <= x;
      var least := if y < m then y else m;
      assert forall x :: x in s ==> x == y || x in rest;
      assert least in s && forall x :: x in s ==> least <= x;
    } else {
      assert y in s && forall x :: x in s ==> y <= x;
    }
  }

  /** Sorting the parts lo..hi gives them in order. */
  lemma SortedRange(s: set<nat>, lo: nat, hi: nat)
    requires s == Range(lo, hi)
    ensures SortedSeq(s) == Numbers(lo, hi)
    decreases hi + 1 - lo
  {
    if lo <= hi {
      assert s - {lo} == Range(lo + 1, hi);
      SortedRange(s - {lo}, lo + 1, hi);
      MinExists(s);
    }
  }

  // ---------------------------------------------------------------- the upload, as a function of the faults

  datatype WriteEnd = Written | Exhausted | Killed

  datatype WriteRun = WriteRun(target: seq<byte>, end: WriteEnd, script: seq<Fault>)

  /** `_write_part`: try, and on an `OSError` try again, `retries` more times. */
  function WritePart(target: seq<byte>, offset: nat, data: seq<byte>, retries: nat, script: seq<Fault>): WriteRun
    decreases retries
  {
    match Head(script)
    case Fine => WriteRun(WriteAt(target, offset, data), Written, Tail(script))
    case Crash(torn) => WriteRun(WriteAt(target, offset, Prefix(data, torn)), Killed, Tail(script))
    case Error(torn) =>
      var after := WriteAt(target, offset, Prefix(data, torn));
      if retries == 0 then WriteRun(after, Exhausted, Tail(script))
      else WritePart(after, offset, data, retries - 1, Tail(script))
  }

  /** Pre-allocation of the target: skipped when the target already has the right size. */
  function Preallocate(slot: Slot, size: nat, script: seq<Fault>): (run: Run)
    ensures run.slot == slot.(target := run.slot.target)
    ensures run.end.Returned? ==> run.slot.target.Some? && |run.slot.target.value| == size
  {
    if slot.target.Some? && |slot.target.value| == size then Run(slot, Returned([]), script)
    else
      // open("wb") empties the file at once; truncate(size) then fills it with zeros
      match Head(script)
      case Error(torn) => Run(if torn == 0 then slot else slot.(target := Some([])), Raised, Tail(script))
      case Crash(torn) => Run(if torn == 0 then slot else slot.(target := Some([])), Died, Tail(script))
      case Fine =>
        match Head(Tail(script))
        case Fine => Run(slot.(target := Some(Zeros(size))), Returned([]), Tail(Tail(script)))
        case Error(_) => Run(slot.(target := Some([])), Raised, Tail(Tail(script)))
        case Crash(_) => Run(slot.(target := Some([])), Died, Tail(Tail(script)))
  }

  /** One part: read it, write it, and persist its number before the next is touched. */
  function SendOne(source: seq<byte>, chunk: nat, retries: nat, slot: Slot, part: nat, script: seq<Fault>): (run: Run)
    requires part > 0 && slot.target.Some?
    ensures run.slot.target.Some?
  {
    if Head(script).Error? then Run(slot, Raised, Tail(script))  // reading the source fails
    else if Head(script).Crash? then Run(slot, Died, Tail(script))
    else
      var w := WritePart(slot.target.value, Offset(part, chunk), ReadChunk(source, part, chunk), retries, Tail(script));
      var after := slot.(target := Some(w.target), writes := slot.writes + 1);
      match w.end
      case Exhausted => Run(after, Raised, w.script)
      case Killed => Run(after, Died, w.script)
      case Written =>
        if !Head(w.script).Fine? then Run(after, Died, Tail(w.script))
        else Run(after.(marks := after.marks + {part}), Returned([]), Tail(w.script))
  }

  /** The part loop from part number `part` on; `done` are the parts known to be complete. */
  function UploadParts(source: seq<byte>, chunk: nat, retries: nat, slot: Slot, done: set<nat>, part: nat,
                       script: seq<Fault>): (run: Run)
    requires chunk > 0 && part > 0 && slot.target.Some?
    ensures run.slot.target.Some?
    decreases PlanParts(|source|, chunk) + 1 - part
  {
    if part > PlanParts(|source|, chunk) then Run(slot, Returned(SortedSeq(done)), script)
    else if part in done then UploadParts(source, chunk, retries, slot, done, part + 1, script)
    else
      var sent := SendOne(source, chunk, retries, slot, part, script);
      if sent.end.Returned? then UploadParts(source, chunk, retries, sent.slot, done + {part}, part + 1, sent.script)
      else sent
  }

  /** A whole call of `upload`. */
  function Upload(source: seq<byte>, chunk: nat, retries: nat, slot: Slot, already: set<nat>, script: seq<Fault>): Run
    requires chunk > 0
  {
    var ready := Preallocate(slot, |source|, script);
    if !ready.end.Returned? then ready
    else
      var sent := UploadParts(source, chunk, retries, ready.slot, already, 1, ready.script);
      if !sent.end.Returned? then sent
      else
        // the target is read back for its checksum
        match Head(sent.script)
        case Fine => sent.(script := Tail(sent.script))
        case Error(_) => Run(sent.slot, Raised, Tail(sent.script))
        case Crash(_) => Run(sent.slot, Died, Tail(sent.script))
  }

  // ---------------------------------------------------------------- safety

  /** Part `p` of the target holds the bytes of the source. */
  ghost predicate PartCorrect(source: seq<byte>, target: seq<byte>, p: nat, chunk: nat)
    requires chunk > 0 && 1 <= p <= PlanParts(|source|, chunk)
  {
    && |target| == |source|
    && (PartInRange(p, chunk, |source|);
        target[Offset(p, chunk)..PartEnd(p, chunk, |source|)] == source[Offset(p, chunk)..PartEnd(p, chunk, |source|)])
  }

  /** The central invariant: every persisted part is already correct in a target of the
      source's length. It speaks only of durable state, so it is what a crash leaves. */
  ghost predicate Correct(source: seq<byte>, chunk: nat, slot: Slot)
    requires chunk > 0
  {
    && slot.marks <= PartNumbers(|source|, chunk)
    && (slot.marks != {} ==> slot.target.Some? && |slot.target.value| == |source|)
    && forall p :: p in slot.marks ==> PartCorrect(source, slot.target.value, p, chunk)
  }

  lemma WriteInside(file: seq<byte>, offset: nat, data: seq<byte>)
    requires offset + |data| <= |file|
    ensures var r := WriteAt(file, offset, data);
            |r| == |file| && forall i :: 0 <= i < |r| ==>
                r[i] == if offset <= i < offset + |data| then data[i - offset] else file[i]
  {
  }

  /** Bytes written inside part `q` leave every other part of the file alone. */
  lemma WriteLeavesOtherParts(source: seq<byte>, target: seq<byte>, chunk: nat, q: nat, data: seq<byte>, p: nat)
    requires chunk > 0 && 1 <= q <= PlanParts(|source|, chunk) && 1 <= p <= PlanParts(|source|, chunk) && p != q
    requires |target| == |source| && Offset(q, chunk) + |data| <= PartEnd(q, chunk, |source|)
    requires PartCorrect(source, target, p, chunk)
    ensures PartCorrect(source, WriteAt(target, Offset(q, chunk), data), p, chunk)
  {
    PartInRange(p, chunk, |source|);
    WriteInside(target, Offset(q, chunk), data);
    if p < q {
      OffsetMonotone(p, q, chunk);
    } else {
      OffsetMonotone(q, p, chunk);
    }
    var r := WriteAt(target, Offset(q, chunk), data);
    var a, b := Offset(p, chunk), PartEnd(p, chunk, |source|);
    forall i | 0 <= i < b - a
      ensures r[a..b][i] == target[a..b][i]
    {
    }
    assert r[a..b] == target[a..b];
  }

  /** However often a part write is torn and retried, the other parts stay as they were;
      when it reports success the part is correct. */
  lemma {:induction false} WritePartEffect(source: seq<byte>, target: seq<byte>, chunk: nat, retries: nat, q: nat,
                                           script: seq<Fault>, good: set<nat>)
    requires chunk > 0 && 1 <= q <= PlanParts(|source|, chunk) && |target| == |source|
    requires good <= PartNumbers(|source|, chunk) && q !in good
    requires forall p :: p in good ==> PartCorrect(source, target, p, chunk)
    ensures var w := WritePart(target, Offset(q, chunk), ReadChunk(source, q, chunk), retries, script);
            && |w.target| == |source|
            && (forall p :: p in good ==> PartCorrect(source, w.target, p, chunk))
            && (w.end.Written? ==> PartCorrect(source, w.target, q, chunk))
    decreases retries
  {
    PartInRange(q, chunk, |source|);
    var offset, data := Offset(q, chunk), ReadChunk(source, q, chunk);
    var put := match Head(script) case Fine => data case Error(t) => Prefix(data, t) case Crash(t) => Prefix(data, t);
    WriteInside(target, offset, put);
    var after := WriteAt(target, offset, put);
    forall p | p in good
      ensures PartCorrect(source, after, p, chunk)
    {
      WriteLeavesOtherParts(source, target, chunk, q, put, p);
    }
    match Head(script)
    case Fine =>
      assert after[offset..PartEnd(q, chunk, |source|)] == data;
    case Crash(_) =>
    case Error(_) =>
      if retries > 0 {
        WritePartEffect(source, after, chunk, retries - 1, q, Tail(script), good);
      }
  }

  /** What a run may do to the durable state: marks are never lost, and each started write
      is accounted for by a new mark, except for the one write of an interrupted run. */
  ghost predicate Advances(before: Slot, run: Run) {
    && before.marks <= run.slot.marks
    && before.writes <= run.slot.writes
    && run.slot.writes + |before.marks| <= before.writes + |run.slot.marks| + (if run.end.Returned? then 0 else 1)
  }

  /** Correct, and pre-allocated: what the part loop keeps. */
  ghost predicate Loaded(source: seq<byte>, chunk: nat, slot: Slot)
    requires chunk > 0
  {
    Correct(source, chunk, slot) && slot.target.Some? && |slot.target.value| == |source|
  }

  /** One part: whatever happens the slot stays loaded, and only a part that was written
      completely is marked. */
  lemma OnePartSafe(source: seq<byte>, chunk: nat, retries: nat, slot: Slot, part: nat, script: seq<Fault>)
    requires chunk > 0 && Loaded(source, chunk, slot)
    requires 1 <= part <= PlanParts(|source|, chunk) && part !in slot.marks
    ensures var run := SendOne(source, chunk, retries, slot, part, script);
            && Loaded(source, chunk, run.slot)
            && Advances(slot, run)
            && run.slot.marks == if run.end.Returned? then slot.marks + {part} else slot.marks
  {
    hide Offset, PlanParts, WritePart, ReadChunk;
    WritePartEffect(source, slot.target.value, chunk, retries, part, Tail(script), slot.marks);
    hide PartCorrect;
  }

  lemma {:induction false} UploadPartsSafe(source: seq<byte>, chunk: nat, retries: nat, slot: Slot, part: nat,
                                           script: seq<Fault>)
    requires chunk > 0 && part > 0 && Loaded(source, chunk, slot)
    requires part <= PlanParts(|source|, chunk) + 1 && Range(1, part - 1) <= slot.marks
    ensures var run := UploadParts(source, chunk, retries, slot, slot.marks, part, script);
            && Loaded(source, chunk, run.slot)
            && Advances(slot, run)
            && (run.end.Returned? ==>
                run.slot.marks == PartNumbers(|source|, chunk) && run.end.parts == SortedSeq(run.slot.marks))
    decreases PlanParts(|source|, chunk) + 1 - part
  {
    hide PlanParts, Correct, SendOne, SortedSeq, Range;
    MarksInRange(source, chunk, slot);
    if part <= PlanParts(|source|, chunk) {
      if part in slot.marks {
        UploadPartsSafe(source, chunk, retries, slot, part + 1, script);
      } else {
        OnePartSafe(source, chunk, retries, slot, part, script);
        var sent := SendOne(source, chunk, retries, slot, part, script);
        if sent.end.Returned? {
          UploadPartsSafe(source, chunk, retries, sent.slot, part + 1, sent.script);
        }
      }
    }
  }

  lemma MarksInRange(source: seq<byte>, chunk: nat, slot: Slot)
    requires chunk > 0 && Correct(source, chunk, slot)
    ensures slot.marks <= PartNumbers(|source|, chunk)
  {
  }

  /** A target all of whose parts are correct is the source. */
  lemma AllPartsCorrect(source: seq<byte>, chunk: nat, slot: Slot)
    requires chunk > 0 && Correct(source, chunk, slot) && slot.marks == PartNumbers(|source|, chunk)
    ensures slot.target == Some(source)
  {
    assert 1 in slot.marks by {
      PartInRange(1, chunk, |source|);
    }
    var target := slot.target.value;
    forall i | 0 <= i < |source|
      ensures target[i] == source[i]
    {
      ByteCorrect(source, target, chunk, i, slot.marks);
    }
    assert target == source;
  }

  lemma ByteCorrect(source: seq<byte>, target: seq<byte>, chunk: nat, i: nat, parts: set<nat>)
    requires chunk > 0 && i < |source| == |target| && parts == PartNumbers(|source|, chunk)
    requires forall p :: p in parts ==> PartCorrect(source, target, p, chunk)
    ensures target[i] == source[i]
  {
    var p := PartsTileTheFile(i, chunk, |source|);
    var a, b := Offset(p, chunk), PartEnd(p, chunk, |source|);
    assert b <= |source|;
    hide Offset, PlanParts, PartEnd;
    assert PartCorrect(source, target, p, chunk);
    assert target[a..b][i - a] == source[a..b][i - a];
  }

  /** One call of `upload`, re-entered with the persisted parts, under any faults. */
  lemma UploadSafe(source: seq<byte>, chunk: nat, retries: nat, slot: Slot, script: seq<Fault>)
    requires chunk > 0 && Correct(source, chunk, slot)
    ensures var run := Upload(source, chunk, retries, slot, slot.marks, script);
            && Correct(source, chunk, run.slot)
            && Advances(slot, run)
            && (run.end.Returned? ==>
                  && run.slot.target == Some(source)
                  && run.slot.marks == PartNumbers(|source|, chunk)
                  && run.end.parts == Numbers(1, PlanParts(|source|, chunk)))
  {
    hide PlanParts, PartCorrect, SortedSeq, UploadParts, Range, Numbers;
    var ready := Preallocate(slot, |source|, script);
    if ready.end.Returned? {
      UploadPartsSafe(source, chunk, retries, ready.slot, 1, ready.script);
      var run := UploadParts(source, chunk, retries, ready.slot, ready.slot.marks, 1, ready.script);
      if run.end.Returned? {
        AllPartsCorrect(source, chunk, run.slot);
        SortedRange(run.slot.marks, 1, PlanParts(|source|, chunk));
      }
    }
  }

  /** Without faults the part loop runs to its end. */
  lemma {:induction false} PartsWithoutFaults(source: seq<byte>, chunk: nat, retries: nat, slot: Slot, done: set<nat>,
                                              part: nat)
    requires chunk > 0 && part > 0 && slot.target.Some?
    ensures var run := UploadParts(source, chunk, retries, slot, done, part, []);
            run.end.Returned? && run.script == []
    decreases PlanParts(|source|, chunk) + 1 - part
  {
    hide PlanParts, Offset, ReadChunk, WriteAt;
    if part <= PlanParts(|source|, chunk) {
      if part in done {
        PartsWithoutFaults(source, chunk, retries, slot, done, part + 1);
      } else {
        PartsWithoutFaults(source, chunk, retries, SendOne(source, chunk, retries, slot, part, []).slot,
            done + {part}, part + 1);
      }
    }
  }

  lemma UploadWithoutFaults(source: seq<byte>, chunk: nat, retries: nat, slot: Slot, already: set<nat>)
    requires chunk > 0
    ensures var run := Upload(source, chunk, retries, slot, already, []);
            run.end.Returned? && run.script == []
  {
    PartsWithoutFaults(source, chunk, retries, Preallocate(slot, |source|, []).slot, already, 1);
  }

  // ---------------------------------------------------------------- when an upload returns

  /** How many actions in a row fail from here on. */
  function LeadingErrors(script: seq<Fault>): (n: nat)
    ensures n <= |script| && (forall i :: 0 <= i < n ==> script[i].Error?) && (n < |script| ==> !script[n].Error?)
  {
    if script != [] && script[0].Error? then 1 + LeadingErrors(script[1..]) else 0
  }

  function Drop(script: seq<Fault>, n: nat): seq<Fault> {
    if n <= |script| then script[n..] else []
  }

  lemma DropTail(script: seq<Fault>, n: nat)
    ensures Drop(Tail(script), n) == Drop(script, n + 1)
  {
  }

  lemma LeadingErrorsStep(script: seq<Fault>)
    ensures LeadingErrors(script) == if Head(script).Error? then 1 + LeadingErrors(Tail(script)) else 0
    ensures Drop(script, 0) == script && Drop(script, 1) == Tail(script)
  {
  }

  /** A part is tried `retries + 1` times: the write is exhausted exactly when that many attempts fail in a row, and
      otherwise the first attempt that does not fail decides. Exactly the attempts made are used up. */
  lemma {:induction false} RetriesAreExact(target: seq<byte>, offset: nat, data: seq<byte>, retries: nat,
                                           script: seq<Fault>)
    ensures var w, errors := WritePart(target, offset, data, retries, script), LeadingErrors(script);
            && (w.end.Exhausted? <==> errors > retries)
            && (w.end.Written? <==> errors <= retries && Head(Drop(script, errors)).Fine?)
            && (w.end.Killed? <==> errors <= retries && Head(Drop(script, errors)).Crash?)
            && w.script == Drop(script, if errors > retries then retries + 1 else errors + 1)
    decreases retries
  {
    hide WriteAt, Prefix, LeadingErrors, Drop, Head, Tail;
    LeadingErrorsStep(script);
    if Head(script).Error? && retries > 0 {
      var after := WriteAt(target, offset, Prefix(data, Head(script).torn));
      RetriesAreExact(after, offset, data, retries - 1, Tail(script));
      DropTail(script, LeadingErrors(Tail(script)));
      DropTail(script, LeadingErrors(Tail(script)) + 1);
      DropTail(script, retries);
    }
  }

  datatype Fate = Completes | Fails | Ends

  function FateOf(fault: Fault): Fate {
    match fault
    case Fine => Completes
    case Error(_) => Fails
    case Crash(_) => Ends
  }

  function KindOf(end: Ending): Fate {
    match end
    case Returned(_) => Completes
    case Raised => Fails
    case Died => Ends
  }

  /** What a fault script does to the upload of `missing` parts: each part is read once, may fail up to `retries` times
      while it is written, and its number is stored once; at the end the target is read once. */
  function FateOfParts(missing: nat, retries: nat, script: seq<Fault>): Fate {
    if missing == 0 || !Head(script).Fine? then FateOf(Head(script))
    else
      var errors := LeadingErrors(Tail(script));
      if errors > retries then Fails
      else if Head(Drop(script, errors + 1)).Crash? || !Head(Drop(script, errors + 2)).Fine? then Ends
      else FateOfParts(missing - 1, retries, Drop(script, errors + 3))
  }

  /** Creating the target takes two actions of its own. */
  function FateOfUpload(create: bool, missing: nat, retries: nat, script: seq<Fault>): Fate {
    if !create then FateOfParts(missing, retries, script)
    else if !Head(script).Fine? then FateOf(Head(script))
    else if !Head(Tail(script)).Fine? then FateOf(Head(Tail(script)))
    else FateOfParts(missing, retries, Tail(Tail(script)))
  }

  /** How many of the parts from `part` to `total` are not in `done`. */
  function Missing(done: set<nat>, part: nat, total: nat): nat
    decreases total + 1 - part
  {
    if part > total then 0 else (if part in done then 0 else 1) + Missing(done, part + 1, total)
  }

  lemma {:induction false} MissingLater(done: set<nat>, earlier: nat, part: nat, total: nat)
    requires earlier < part
    ensures Missing(done + {earlier}, part, total) == Missing(done, part, total)
    decreases total + 1 - part
  {
    if part <= total {
      MissingLater(done, earlier, part + 1, total);
    }
  }

  lemma OnePartHasFate(source: seq<byte>, chunk: nat, retries: nat, slot: Slot, part: nat, script: seq<Fault>,
                       missing: nat)
    requires part > 0 && slot.target.Some? && missing > 0
    ensures var run := SendOne(source, chunk, retries, slot, part, script);
            FateOfParts(missing, retries, script)
            == if run.end.Returned? then FateOfParts(missing - 1, retries, run.script) else KindOf(run.end)
  {
    hide WritePart, ReadChunk, Offset;
    RetriesAreExact(slot.target.value, Offset(part, chunk), ReadChunk(source, part, chunk), retries, Tail(script));
    var errors := LeadingErrors(Tail(script));
    DropTail(script, errors);
    DropTail(script, errors + 1);
    DropTail(script, errors + 2);
    assert Head(Drop(Tail(script), errors + 1)) == Head(Drop(script, errors + 2));
    assert Tail(Drop(Tail(script), errors + 1)) == Drop(Tail(script), errors + 2);
  }

  lemma NothingMissing(retries: nat, script: seq<Fault>)
    ensures FateOfParts(0, retries, script) == FateOf(Head(script))
  {
  }

  lemma {:induction false} PartsHaveFate(source: seq<byte>, chunk: nat, retries: nat, slot: Slot, done: set<nat>,
                                         part: nat, script: seq<Fault>)
    requires chunk > 0 && part > 0 && slot.target.Some?
    ensures var total := PlanParts(|source|, chunk);
            var run := UploadParts(source, chunk, retries, slot, done, part, script);
            FateOfParts(Missing(done, part, total), retries, script)
            == if run.end.Returned? then FateOf(Head(run.script)) else KindOf(run.end)
    decreases PlanParts(|source|, chunk) + 1 - part
  {
    hide PlanParts, SendOne, SortedSeq, LeadingErrors, Drop, Head, Tail;
    var total := PlanParts(|source|, chunk);
    NothingMissing(retries, script);
    if part <= total {
      if part in done {
        PartsHaveFate(source, chunk, retries, slot, done, part + 1, script);
      } else {
        OnePartHasFate(source, chunk, retries, slot, part, script, Missing(done, part, total));
        var sent := SendOne(source, chunk, retries, slot, part, script);
        if sent.end.Returned? {
          MissingLater(done, part, part + 1, total);
          PartsHaveFate(source, chunk, retries, sent.slot, done + {part}, part + 1, sent.script);
        }
      }
    }
  }

  /** For every fault script: how an upload ends depends only on whether the target must be created, on how many parts
      are missing, and on the script. */
  lemma UploadHasFate(source: seq<byte>, chunk: nat, retries: nat, slot: Slot, already: set<nat>, script: seq<Fault>)
    requires chunk > 0
    ensures var create := slot.target.None? || |slot.target.value| != |source|;
            KindOf(Upload(source, chunk, retries, slot, already, script).end)
            == FateOfUpload(create, Missing(already, 1, PlanParts(|source|, chunk)), retries, script)
  {
    hide PlanParts, UploadParts, Missing, FateOfParts, LeadingErrors;
    var ready := Preallocate(slot, |source|, script);
    if ready.end.Returned? {
      PartsHaveFate(source, chunk, retries, ready.slot, already, 1, ready.script);
    }
  }

  ghost predicate OnlyErrors(faults: seq<Fault>) {
    forall f :: f in faults ==> f.Error?
  }

  /** The script of an upload whose only faults are the given failures of each part's write. */
  function Troubled(failures: seq<seq<Fault>>): seq<Fault> {
    if failures == [] then [] else [Fine] + failures[0] + [Fine, Fine] + Troubled(failures[1..])
  }

  lemma {:induction false} LeadingErrorsOf(faults: seq<Fault>, rest: seq<Fault>)
    requires OnlyErrors(faults) && rest != [] && rest[0].Fine?
    ensures LeadingErrors(faults + rest) == |faults|
  {
    if faults == [] {
      assert faults + rest == rest;
    } else {
      assert (faults + rest)[1..] == faults[1..] + rest;
      LeadingErrorsOf(faults[1..], rest);
    }
  }

  lemma OneTrouble(first: seq<Fault>, later: seq<Fault>, missing: nat, retries: nat)
    requires OnlyErrors(first) && |first| <= retries
    ensures FateOfParts(missing + 1, retries, [Fine] + first + [Fine, Fine] + later)
         == FateOfParts(missing, retries, later)
  {
    hide LeadingErrors, OnlyErrors;
    var script, n := [Fine] + first + [Fine, Fine] + later, |first|;
    LeadingErrorsOf(first, [Fine, Fine] + later);
    assert Tail(script) == first + ([Fine, Fine] + later);
    assert script[n + 1] == Fine && script[n + 2] == Fine && script[n + 3..] == later;
    assert script[n + 1..][0] == script[n + 1] && script[n + 2..][0] == script[n + 2];
  }

  lemma TroubledCons(failures: seq<seq<Fault>>, rest: seq<Fault>)
    requires failures != []
    ensures Troubled(failures) + rest == [Fine] + failures[0] + [Fine, Fine] + (Troubled(failures[1..]) + rest)
  {
  }

  lemma {:induction false} TroubleIsOvercome(failures: seq<seq<Fault>>, retries: nat, rest: seq<Fault>)
    requires forall f :: f in failures ==> OnlyErrors(f) && |f| <= retries
    ensures FateOfParts(|failures|, retries, Troubled(failures) + rest) == FateOf(Head(rest))
  {
    hide OnlyErrors, LeadingErrors;
    if failures == [] {
      assert Troubled(failures) + rest == rest;
    } else {
      hide FateOfParts, Troubled;
      var first, later := failures[0], Troubled(failures[1..]);
      TroubledCons(failures, rest);
      OneTrouble(first, later + rest, |failures| - 1, retries);
      TroubleIsOvercome(failures[1..], retries, rest);
    }
  }

  /** An upload returns if its only faults are at most `retries` failures of each missing part's write. */
  lemma FewFailuresAreOvercome(source: seq<byte>, chunk: nat, retries: nat, slot: Slot, already: set<nat>,
                               failures: seq<seq<Fault>>)
    requires chunk > 0 && |failures| == Missing(already, 1, PlanParts(|source|, chunk))
    requires forall f :: f in failures ==> OnlyErrors(f) && |f| <= retries
    ensures var create := slot.target.None? || |slot.target.value| != |source|;
            Upload(source, chunk, retries, slot, already,
                   (if create then [Fine, Fine] else []) + Troubled(failures)).end.Returned?
  {
    hide Upload, PlanParts, Missing, FateOfParts, Troubled;
    var create := slot.target.None? || |slot.target.value| != |source|;
    var script := (if create then [Fine, Fine] else []) + Troubled(failures);
    UploadHasFate(source, chunk, retries, slot, already, script);
    TroubleIsOvercome(failures, retries, []);
    assert Troubled(failures) + [] == Troubled(failures);
    assert create ==> Tail(Tail(script)) == Troubled(failures);
    assert !create ==> script == Troubled(failures);
  }

  // ---------------------------------------------------------------- any number of interrupted runs

  /** The durable state, the number of interrupted runs, and how each run ended. */
  datatype Life = Life(slot: Slot, interruptions: nat, endings: seq<Ending>)

  /** First upload and then recovery after recovery, each with its own faults; every run
      starts from the parts that the database has. */
  function Live(source: seq<byte>, chunk: nat, retries: nat, slot: Slot, scripts: seq<seq<Fault>>): Life
    requires chunk > 0
    decreases |scripts|
  {
    if scripts == [] then Life(slot, 0, [])
    else
      var run := Upload(source, chunk, retries, slot, slot.marks, scripts[0]);
      var rest := Live(source, chunk, retries, run.slot, scripts[1..]);
      Life(rest.slot, rest.interruptions + (if run.end.Returned? then 0 else 1), [run.end] + rest.endings)
  }

  /** Safety, completeness and the retransmission bound, carried through every run. */
  lemma {:induction false} LiveSafe(source: seq<byte>, chunk: nat, retries: nat, slot: Slot, scripts: seq<seq<Fault>>)
    requires chunk > 0 && Correct(source, chunk, slot)
    ensures var life := Live(source, chunk, retries, slot, scripts);
            && Correct(source, chunk, life.slot)
            && slot.marks <= life.slot.marks
            && life.slot.writes + |slot.marks| <= slot.writes + |life.slot.marks| + life.interruptions
            && |life.endings| == |scripts|
            && ((exists e :: e in life.endings && e.Returned?) ==>
                  life.slot.target == Some(source) && life.slot.marks == PartNumbers(|source|, chunk))
            && (forall e :: e in life.endings && e.Returned? ==>
                  e.parts == Numbers(1, PlanParts(|source|, chunk)))
    decreases |scripts|
  {
    hide PlanParts, Correct, SortedSeq, Upload, Range, Numbers;
    if scripts != [] {
      UploadSafe(source, chunk, retries, slot, scripts[0]);
      var run := Upload(source, chunk, retries, slot, slot.marks, scripts[0]);
      LiveSafe(source, chunk, retries, run.slot, scripts[1..]);
      var life := Live(source, chunk, retries, slot, scripts);
      if run.end.Returned? {
        MarksInRange(source, chunk, life.slot);
        assert life.slot.marks == PartNumbers(|source|, chunk);
        AllPartsCorrect(source, chunk, life.slot);
      }
    }
  }

  lemma RangeSize(lo: nat, hi: nat)
    requires lo <= hi + 1
    ensures |Range(lo, hi)| == hi + 1 - lo
    decreases hi + 1 - lo
  {
    if lo <= hi {
      RangeSize(lo + 1, hi);
    }
  }

  /** A fresh upload with any number of crashes and exhausted parts: no persisted part is
      wrong, a run that returns has copied the file, and at most one part write per
      interruption is ever repeated. */
  lemma UploadSurvivesInterruptions(source: seq<byte>, chunk: nat, retries: nat, slot: Slot, scripts: seq<seq<Fault>>)
    requires chunk > 0 && slot.marks == {} && slot.writes == 0
    ensures var life := Live(source, chunk, retries, slot, scripts);
            && Correct(source, chunk, life.slot)
            && life.slot.writes <= PlanParts(|source|, chunk) + life.interruptions
            && ((exists e :: e in life.endings && e.Returned?) ==> life.slot.target == Some(source))
            && (forall e :: e in life.endings && e.Returned? ==>
                  e.parts == Numbers(1, PlanParts(|source|, chunk)))
  {
    LiveSafe(source, chunk, retries, slot, scripts);
    var life := Live(source, chunk, retries, slot, scripts);
    SubsetSize(life.slot.marks, PartNumbers(|source|, chunk));
    RangeSize(1, PlanParts(|source|, chunk));
  }

  lemma SubsetSize<T>(a: set<T>, b: set<T>)
    requires a <= b
    ensures |a| <= |b|
  {
    assert b == a + (b - a);
  }
}
