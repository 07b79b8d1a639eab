/**
 The scheduler's file queue: de-duplication, bounded retry in place, dead letters and
 archiving (scheduler/src/scheduler/consumers/queue.py, scheduler/src/scheduler/worker.py).
 */
module FileQueue {
  import opened Basics

  /** A queue file's content: not readable as JSON, or an envelope that does or does not
      satisfy the contract. `maxRetries` is the contract's limit for its routing key. */
  datatype Body = Unreadable | Envelope(eventId: string, decodable: bool, maxRetries: nat)

  datatype QueueFile = QueueFile(name: string, body: Body)

  /** What the handler does with an event: handles it, reports that nobody handles it, or raises. */
  datatype Reaction = Handled | Unhandled | Raises

  datatype Verdict = Processed | DeadLettered

  /** Where a file went, in the order of the moves. */
  datatype Settled = Settled(file: QueueFile, verdict: Verdict)

  type Handler = (QueueFile, nat) -> Reaction

  function AttemptsOf(attempts: map<string, nat>, id: string): nat {
    if id in attempts then attempts[id] else 0
  }

  /** An event the consumer hands out: readable, satisfying the contract, not settled before. */
  predicate Fresh(f: QueueFile, seen: set<string>) {
    f.body.Envelope? && f.body.decodable && f.body.eventId !in seen
  }

  // ---------------------------------------------------------------- the reference: a fold in name order

  /** The end of an event's attempts from number `attempt` on. */
  function FinalVerdict(h: Handler, f: QueueFile, attempt: nat): Verdict
    requires f.body.Envelope?
    decreases if attempt <= f.body.maxRetries then f.body.maxRetries + 1 - attempt else 0
  {
    match h(f, attempt)
    case Handled => Processed
    case Unhandled => DeadLettered
    case Raises => if attempt > f.body.maxRetries then DeadLettered else FinalVerdict(h, f, attempt + 1)
  }

  /** Number `k` is the attempt that handles the event: all earlier ones raised. */
  ghost predicate HandledAt(h: Handler, f: QueueFile, attempt: nat, k: nat) {
    attempt <= k && h(f, k).Handled? && forall j :: attempt <= j < k ==> h(f, j).Raises?
  }

  /** A message is processed exactly when one of its max_retries + 1 attempts handles it before any
      attempt reports it unhandled. */
  lemma {:induction false} ProcessedIfHandledInTime(h: Handler, f: QueueFile, attempt: nat)
    requires f.body.Envelope? && attempt <= f.body.maxRetries + 1
    ensures FinalVerdict(h, f, attempt) == Processed <==>
              exists k: nat :: k <= f.body.maxRetries + 1 && HandledAt(h, f, attempt, k)
    decreases f.body.maxRetries + 1 - attempt
  {
    if h(f, attempt).Handled? {
      assert HandledAt(h, f, attempt, attempt);
    } else {
      forall k: nat
        ensures HandledAt(h, f, attempt, k) <==> h(f, attempt).Raises? && HandledAt(h, f, attempt + 1, k)
      {
        assert HandledAt(h, f, attempt, k) ==> k != attempt;
      }
      if h(f, attempt).Raises? && attempt <= f.body.maxRetries {
        var next := attempt + 1;
        ProcessedIfHandledInTime(h, f, next);
        if k: nat :| k <= f.body.maxRetries + 1 && HandledAt(h, f, next, k) {
          assert HandledAt(h, f, attempt, k);
        }
      }
    }
  }

  /** Some attempt from number `attempt` on handles the event in time; one attempt is always made. */
  ghost predicate HandledInTime(h: Handler, f: QueueFile, attempt: nat)
    requires f.body.Envelope?
  {
    exists k: nat :: (k <= f.body.maxRetries + 1 || k == attempt) && HandledAt(h, f, attempt, k)
  }

  lemma ProcessedIffHandledInTime(h: Handler, f: QueueFile, attempt: nat)
    requires f.body.Envelope?
    ensures FinalVerdict(h, f, attempt) == Processed <==> HandledInTime(h, f, attempt)
  {
    if attempt <= f.body.maxRetries + 1 {
      ProcessedIfHandledInTime(h, f, attempt);
    } else if h(f, attempt).Handled? {
      assert HandledAt(h, f, attempt, attempt);
    }
  }

  function VerdictOf(h: Handler, f: QueueFile, seen: set<string>, attempts: map<string, nat>): Verdict {
    if f.body.Unreadable? then DeadLettered
    else if f.body.eventId in seen then Processed
    else if !f.body.decodable then DeadLettered
    else FinalVerdict(h, f, AttemptsOf(attempts, f.body.eventId) + 1)
  }

  function SeenAfter(f: QueueFile, seen: set<string>): set<string> {
    if Fresh(f, seen) then seen + {f.body.eventId} else seen
  }

  /** Every file of the listing with its verdict, in the order of the listing. */
  function Plan(h: Handler, files: seq<QueueFile>, seen: set<string>, attempts: map<string, nat>): (r: seq<Settled>)
    ensures |r| == |files| && forall i :: 0 <= i < |r| ==> r[i].file == files[i]
    decreases |files|
  {
    if files == [] then []
    else
      var first := Settled(files[0], VerdictOf(h, files[0], seen, attempts));
      [first] + Plan(h, files[1..], SeenAfter(files[0], seen), attempts)
  }

  /** The files with a given verdict, by name; a later file replaces an earlier namesake. */
  function Archive(settled: seq<Settled>, verdict: Verdict): map<string, Body> {
    if settled == [] then map[]
    else
      var last := settled[|settled| - 1];
      var rest := Archive(settled[..|settled| - 1], verdict);
      if last.verdict == verdict then rest[last.file.name := last.file.body] else rest
  }

  // ---------------------------------------------------------------- what the fold promises

  ghost predicate DistinctNames(files: seq<QueueFile>) {
    forall i, j :: 0 <= i < j < |files| ==> files[i].name != files[j].name
  }

  lemma {:induction false} ArchiveHolds(settled: seq<Settled>, verdict: Verdict)
    requires forall i, j :: 0 <= i < j < |settled| ==> settled[i].file.name != settled[j].file.name
    ensures forall i :: 0 <= i < |settled| && settled[i].verdict == verdict ==>
              settled[i].file.name in Archive(settled, verdict)
                  && Archive(settled, verdict)[settled[i].file.name] == settled[i].file.body
    ensures forall name :: name in Archive(settled, verdict) ==>
              exists i :: 0 <= i < |settled| && settled[i].verdict == verdict && settled[i].file.name == name
  {
    if settled != [] {
      var init, last := settled[..|settled| - 1], settled[|settled| - 1];
      ArchiveHolds(init, verdict);
      forall name | name in Archive(settled, verdict)
        ensures exists i :: 0 <= i < |settled| && settled[i].verdict == verdict && settled[i].file.name == name
      {
        if name in Archive(init, verdict) {
          var i :| 0 <= i < |init| && init[i].verdict == verdict && init[i].file.name == name;
          assert settled[i].verdict == verdict;
        } else {
          assert settled[|settled| - 1].verdict == verdict;
        }
      }
    }
  }

  /** Conservation: every file of the queue ends, unchanged, in exactly one of the two archives. */
  lemma EveryFileIsArchivedOnce(h: Handler, files: seq<QueueFile>, seen: set<string>, attempts: map<string, nat>)
    requires DistinctNames(files)
    ensures var plan := Plan(h, files, seen, attempts);
            var processed, dead := Archive(plan, Processed), Archive(plan, DeadLettered);
            && processed.Keys !! dead.Keys
            && forall i :: 0 <= i < |files| ==>
                 var archive := if plan[i].verdict == Processed then processed else dead;
                 files[i].name in archive && archive[files[i].name] == files[i].body
  {
    hide Plan, Archive;
    var plan := Plan(h, files, seen, attempts);
    assert forall i, j :: 0 <= i < j < |plan| ==> plan[i].file.name != plan[j].file.name;
    ArchiveHolds(plan, Processed);
    ArchiveHolds(plan, DeadLettered);
  }

  /** A later copy of an event goes to the processed archive, whatever became of the first. */
  lemma {:induction false} DuplicatesAreProcessed(h: Handler, files: seq<QueueFile>, seen: set<string>,
                                                  attempts: map<string, nat>, i: nat, j: nat)
    requires i < j < |files| && files[i].body.Envelope? && files[j].body.Envelope?
    requires files[i].body.eventId == files[j].body.eventId
    requires files[i].body.decodable || files[i].body.eventId in seen
    ensures Plan(h, files, seen, attempts)[j].verdict == Processed
    decreases j
  {
    if i == 0 {
      SettledStays(h, files[1..], SeenAfter(files[0], seen), attempts, j - 1);
    } else {
      DuplicatesAreProcessed(h, files[1..], SeenAfter(files[0], seen), attempts, i - 1, j - 1);
    }
  }

  lemma {:induction false} SettledStays(h: Handler, files: seq<QueueFile>, seen: set<string>,
                                        attempts: map<string, nat>, j: nat)
    requires j < |files| && files[j].body.Envelope? && files[j].body.eventId in seen
    ensures Plan(h, files, seen, attempts)[j].verdict == Processed
    decreases j
  {
    if j > 0 {
      SettledStays(h, files[1..], SeenAfter(files[0], seen), attempts, j - 1);
    }
  }

  // ---------------------------------------------------------------- which archive

  /** The event was settled before the scan, or by a file before number `i`. */
  ghost predicate SettledBefore(files: seq<QueueFile>, seen: set<string>, i: nat, id: string)
    requires i <= |files|
  {
    id in seen || exists j :: 0 <= j < i && files[j].body.Envelope? && files[j].body.decodable
                              && files[j].body.eventId == id
  }

  /** File number `i` is a copy of a settled event, or its event is handled in time. */
  ghost predicate Deserves(h: Handler, files: seq<QueueFile>, seen: set<string>, attempts: map<string, nat>, i: nat)
    requires i < |files|
  {
    var f := files[i];
    f.body.Envelope?
    && (SettledBefore(files, seen, i, f.body.eventId)
        || (f.body.decodable && HandledInTime(h, f, AttemptsOf(attempts, f.body.eventId) + 1)))
  }

  lemma SettledBeforeCons(files: seq<QueueFile>, seen: set<string>, i: nat, id: string)
    requires 0 < i <= |files|
    ensures SettledBefore(files, seen, i, id) <==> SettledBefore(files[1..], SeenAfter(files[0], seen), i - 1, id)
  {
    var rest, later := files[1..], SeenAfter(files[0], seen);
    if SettledBefore(files, seen, i, id) && id !in later {
      var j :| 0 <= j < i && files[j].body.Envelope? && files[j].body.decodable && files[j].body.eventId == id;
      assert rest[j - 1] == files[j];
    }
    if SettledBefore(rest, later, i - 1, id) && id !in seen {
      if id in later {
        assert files[0].body.eventId == id;
      } else {
        var j :| 0 <= j < i - 1 && rest[j].body.Envelope? && rest[j].body.decodable && rest[j].body.eventId == id;
        assert files[j + 1] == rest[j];
      }
    }
  }

  /** A file is planned as processed if and only if it is a copy of a settled event, or one of its attempts within the
      limit handles it. All others are dead letters: what is not JSON always, and what is outside the contract unless
      its event was settled before. */
  lemma {:induction false} ProcessedIffDeserved(h: Handler, files: seq<QueueFile>, seen: set<string>,
                                                attempts: map<string, nat>, i: nat)
    requires i < |files|
    ensures Plan(h, files, seen, attempts)[i].verdict == Processed <==> Deserves(h, files, seen, attempts, i)
    ensures files[i].body.Unreadable? ==> Plan(h, files, seen, attempts)[i].verdict == DeadLettered
    ensures files[i].body.Envelope? && !files[i].body.decodable ==>
              (Plan(h, files, seen, attempts)[i].verdict == DeadLettered <==>
                 !SettledBefore(files, seen, i, files[i].body.eventId))
    decreases i
  {
    hide HandledInTime, FinalVerdict, SettledBefore;
    if i == 0 {
      FirstIsSettledBefore(files, seen);
      if files[0].body.Envelope? {
        ProcessedIffHandledInTime(h, files[0], AttemptsOf(attempts, files[0].body.eventId) + 1);
      }
    } else {
      ProcessedIffDeserved(h, files[1..], SeenAfter(files[0], seen), attempts, i - 1);
      if files[i].body.Envelope? {
        SettledBeforeCons(files, seen, i, files[i].body.eventId);
      }
    }
  }

  lemma FirstIsSettledBefore(files: seq<QueueFile>, seen: set<string>)
    ensures forall id :: SettledBefore(files, seen, 0, id) <==> id in seen
  {
  }

  /** A message that can never be handled: not JSON, or outside the contract. */
  predicate Bad(f: QueueFile) {
    f.body.Unreadable? || !f.body.decodable
  }

  function WithoutBad(files: seq<QueueFile>): seq<QueueFile> {
    if files == [] then [] else (if Bad(files[0]) then [] else [files[0]]) + WithoutBad(files[1..])
  }

  function GoodOnes(settled: seq<Settled>): seq<Settled> {
    if settled == [] then [] else (if Bad(settled[0].file) then [] else [settled[0]]) + GoodOnes(settled[1..])
  }

  /** No bad message blocks or changes a good one: without the bad ones the queue settles the
      good ones in the same order with the same verdicts. */
  lemma {:induction false} BadMessagesDoNotInterfere(h: Handler, files: seq<QueueFile>, seen: set<string>,
                                                     attempts: map<string, nat>)
    ensures GoodOnes(Plan(h, files, seen, attempts)) == Plan(h, WithoutBad(files), seen, attempts)
    decreases |files|
  {
    if files != [] {
      var plan := Plan(h, files, seen, attempts);
      var rest := Plan(h, files[1..], SeenAfter(files[0], seen), attempts);
      assert plan[1..] == rest;
      BadMessagesDoNotInterfere(h, files[1..], SeenAfter(files[0], seen), attempts);
      if !Bad(files[0]) {
        assert WithoutBad(files) == [files[0]] + WithoutBad(files[1..]);
        assert WithoutBad(files)[1..] == WithoutBad(files[1..]);
      } else {
        assert WithoutBad(files) == WithoutBad(files[1..]);
      }
    }
  }

  // ---------------------------------------------------------------- counting what happened to an event

  function CountId(log: seq<string>, id: string): nat {
    if log == [] then 0 else CountId(log[..|log| - 1], id) + (if log[|log| - 1] == id then 1 else 0)
  }

  lemma CountSnoc(log: seq<string>, x: string)
    ensures forall id :: CountId(log + [x], id) == CountId(log, id) + (if x == id then 1 else 0)
  {
    assert (log + [x])[..|log|] == log;
  }

  /** How many handler calls the files can still cause: the measure that draining decreases. */
  function Budget(files: seq<QueueFile>, limit: nat, seen: set<string>, attempts: map<string, nat>): nat {
    if files == [] then 0
    else Share(files[0], limit, seen, attempts) + Budget(files[1..], limit, seen, attempts)
  }

  function Share(f: QueueFile, limit: nat, seen: set<string>, attempts: map<string, nat>): nat {
    if !Fresh(f, seen) then 0
    else if AttemptsOf(attempts, f.body.eventId) > limit then 1
    else limit + 2 - AttemptsOf(attempts, f.body.eventId)
  }

  /** What one turn does to an event: it is settled, or one more attempt within its limit is recorded. */
  ghost predicate Used(f: QueueFile, seen: set<string>, attempts: map<string, nat>, seen': set<string>,
                       attempts': map<string, nat>)
    requires f.body.Envelope?
  {
    var id := f.body.eventId;
    || (seen' == seen + {id} && forall x :: x != id ==> AttemptsOf(attempts', x) == AttemptsOf(attempts, x))
    || (seen' == seen && attempts' == attempts[id := AttemptsOf(attempts, id) + 1]
        && AttemptsOf(attempts, id) + 1 <= f.body.maxRetries)
  }

  /** A settled event, or one more failed attempt within the limit, uses up some of the budget. */
  lemma {:induction false} BudgetDecreases(files: seq<QueueFile>, limit: nat, seen: set<string>,
                                           attempts: map<string, nat>,
                                           f: QueueFile, seen': set<string>, attempts': map<string, nat>)
    requires f in files && Fresh(f, seen)
    requires f.body.maxRetries <= limit && Used(f, seen, attempts, seen', attempts')
    ensures Budget(files, limit, seen', attempts') < Budget(files, limit, seen, attempts)
  {
    if f in files[1..] {
      BudgetDecreases(files[1..], limit, seen, attempts, f, seen', attempts');
    } else {
      BudgetShrinks(files[1..], limit, seen, attempts, f, seen', attempts');
    }
  }

  lemma {:induction false} BudgetShrinks(files: seq<QueueFile>, limit: nat, seen: set<string>,
                                         attempts: map<string, nat>,
                                         f: QueueFile, seen': set<string>, attempts': map<string, nat>)
    requires Fresh(f, seen)
    requires f.body.maxRetries <= limit && Used(f, seen, attempts, seen', attempts')
    ensures Budget(files, limit, seen', attempts') <= Budget(files, limit, seen, attempts)
  {
    if files != [] {
      BudgetShrinks(files[1..], limit, seen, attempts, f, seen', attempts');
    }
  }

  // ---------------------------------------------------------------- the consumer

  datatype ConsumedEvent = ConsumedEvent(file: QueueFile, attempt: nat)

  /** The files whose name is not `name`. */
  function Without(files: seq<QueueFile>, name: string): (r: seq<QueueFile>)
    ensures forall f :: f in r <==> f in files && f.name != name
  {
    if files == [] then [] else (if files[0].name == name then [] else [files[0]]) + Without(files[1..], name)
  }

  lemma {:induction false} WithoutKeepsDistinct(files: seq<QueueFile>, name: string)
    requires DistinctNames(files)
    ensures DistinctNames(Without(files, name))
  {
    if files != [] {
      WithoutKeepsDistinct(files[1..], name);
      assert forall f :: f in files[1..] ==> f.name != files[0].name;
    }
  }

  lemma {:induction false} WithoutAbsent(files: seq<QueueFile>, name: string)
    requires forall f :: f in files ==> f.name != name
    ensures Without(files, name) == files
  {
    if files != [] {
      WithoutAbsent(files[1..], name);
    }
  }

  /** Removing the first file of a listing of distinct names leaves the rest. */
  lemma WithoutHead(files: seq<QueueFile>)
    requires files != [] && DistinctNames(files)
    ensures Without(files, files[0].name) == files[1..] && DistinctNames(files[1..])
  {
    DistinctTail(files);
    hide DistinctNames;
    WithoutAbsent(files[1..], files[0].name);
  }

  lemma DistinctTail(files: seq<QueueFile>)
    requires files != [] && DistinctNames(files)
    ensures DistinctNames(files[1..]) && forall f :: f in files[1..] ==> f.name != files[0].name
  {
    forall i, j | 0 <= i < j < |files[1..]| ensures files[1..][i].name != files[1..][j].name {
      assert files[i + 1].name != files[j + 1].name;
    }
  }

  /** What `fetch` does with a file that is not fresh. */
  function StaleVerdict(f: QueueFile, seen: set<string>): Verdict {
    if f.body.Envelope? && f.body.eventId in seen then Processed else DeadLettered
  }

  function Stale(files: seq<QueueFile>, seen: set<string>): seq<Settled> {
    if files == [] then []
    else
      var last := files[|files| - 1];
      Stale(files[..|files| - 1], seen) + [Settled(last, StaleVerdict(last, seen))]
  }

  lemma StaleStep(files: seq<QueueFile>, i: nat, seen: set<string>)
    requires i <= |files|
    ensures i < |files| ==>
              Stale(files[..i + 1], seen) == Stale(files[..i], seen) + [Settled(files[i], StaleVerdict(files[i], seen))]
    ensures Stale(files[..0], seen) == []
  {
    if i < |files| {
      assert files[..i + 1][..i] == files[..i];
    }
  }

  lemma Regroup<T>(a: seq<T>, x: T, b: seq<T>)
    ensures a + ([x] + b) == (a + [x]) + b
  {
  }

  lemma PlanStale(h: Handler, files: seq<QueueFile>, n: nat, seen: set<string>, attempts: map<string, nat>)
    requires n < |files| && !Fresh(files[n], seen)
    ensures Plan(h, files[n..], seen, attempts)
         == [Settled(files[n], StaleVerdict(files[n], seen))] + Plan(h, files[n + 1..], seen, attempts)
  {
    assert files[n..][1..] == files[n + 1..];
  }

  /** Skipping the stale files at the front is the beginning of the plan. */
  lemma {:induction false} PlanSkips(h: Handler, files: seq<QueueFile>, n: nat, seen: set<string>,
                                     attempts: map<string, nat>)
    requires n <= |files| && forall i :: 0 <= i < n ==> !Fresh(files[i], seen)
    ensures Plan(h, files, seen, attempts) == Stale(files[..n], seen) + Plan(h, files[n..], seen, attempts)
  {
    hide Plan, Stale, Fresh, StaleVerdict;
    StaleStep(files, 0, seen);
    if n > 0 {
      PlanSkips(h, files, n - 1, seen, attempts);
      PlanStale(h, files, n - 1, seen, attempts);
      StaleStep(files, n - 1, seen);
      Regroup(Stale(files[..n - 1], seen), Settled(files[n - 1], StaleVerdict(files[n - 1], seen)),
          Plan(h, files[n..], seen, attempts));
    } else {
      assert files[n..] == files;
    }
  }

  /** An attempt that fails within the limit changes nothing in the plan. */
  lemma PlanRetries(h: Handler, files: seq<QueueFile>, seen: set<string>, attempts: map<string, nat>)
    requires files != [] && Fresh(files[0], seen)
    requires var attempt := AttemptsOf(attempts, files[0].body.eventId) + 1;
             h(files[0], attempt) == Raises && attempt <= files[0].body.maxRetries
    ensures var attempt := AttemptsOf(attempts, files[0].body.eventId) + 1;
            Plan(h, files, seen, attempts[files[0].body.eventId := attempt]) == Plan(h, files, seen, attempts)
  {
    var id := files[0].body.eventId;
    PlanIgnoresSettled(h, files[1..], seen + {id}, attempts, attempts[id := AttemptsOf(attempts, id) + 1], id);
  }

  /** Once an event is settled its attempt count no longer matters. */
  lemma {:induction false} PlanIgnoresSettled(h: Handler, files: seq<QueueFile>, seen: set<string>,
                                              a: map<string, nat>, b: map<string, nat>, id: string)
    requires id in seen && forall x :: x != id ==> AttemptsOf(a, x) == AttemptsOf(b, x)
    ensures Plan(h, files, seen, a) == Plan(h, files, seen, b)
    decreases |files|
  {
    if files != [] {
      PlanIgnoresSettled(h, files[1..], SeenAfter(files[0], seen), a, b, id);
    }
  }

  /** The first file's verdict is the first step of the plan; the rest follows from the new state. */
  lemma PlanSettles(h: Handler, files: seq<QueueFile>, seen: set<string>, a: map<string, nat>, b: map<string, nat>)
    requires files != [] && Fresh(files[0], seen)
    requires forall id :: id != files[0].body.eventId ==> AttemptsOf(a, id) == AttemptsOf(b, id)
    ensures var verdict := FinalVerdict(h, files[0], AttemptsOf(a, files[0].body.eventId) + 1);
            Plan(h, files, seen, a)
                == [Settled(files[0], verdict)] + Plan(h, files[1..], seen + {files[0].body.eventId}, b)
  {
    PlanIgnoresSettled(h, files[1..], seen + {files[0].body.eventId}, a, b, files[0].body.eventId);
  }

  lemma ArchiveSnoc(settled: seq<Settled>, s: Settled, verdict: Verdict)
    ensures Archive(settled + [s], verdict)
         == if s.verdict == verdict then Archive(settled, verdict)[s.file.name := s.file.body]
             else Archive(settled, verdict)
  {
    assert (settled + [s])[..|settled|] == settled;
  }

  /** The moves made and the moves planned stay the same when the listing is scanned. */
  lemma PlanAfterFetch(h: Handler, files: seq<QueueFile>, n: nat, seen: set<string>, attempts: map<string, nat>,
                       moves: seq<Settled>)
    requires n <= |files| && forall i :: 0 <= i < n ==> !Fresh(files[i], seen)
    ensures (moves + Stale(files[..n], seen)) + Plan(h, files[n..], seen, attempts)
              == moves + Plan(h, files, seen, attempts)
  {
    PlanSkips(h, files, n, seen, attempts);
  }

  /** The same for one handled event at the front, settled or retried. */
  lemma PlanTurns(h: Handler, files: seq<QueueFile>, seen: set<string>, attempts: map<string, nat>,
                  seen': set<string>, attempts': map<string, nat>, moves: seq<Settled>)
    requires files != [] && DistinctNames(files) && Fresh(files[0], seen)
    requires Used(files[0], seen, attempts, seen', attempts')
    ensures var attempt := AttemptsOf(attempts, files[0].body.eventId) + 1;
            var reaction := h(files[0], attempt);
            if reaction.Raises? && attempt <= files[0].body.maxRetries then
              seen' == seen && attempts' == attempts[files[0].body.eventId := attempt] ==>
                moves + Plan(h, files, seen', attempts') == moves + Plan(h, files, seen, attempts)
            else
              seen' == seen + {files[0].body.eventId} ==>
                (moves + [Settled(files[0], if reaction.Handled? then Processed else DeadLettered)])
                + Plan(h, Without(files, files[0].name), seen', attempts') == moves + Plan(h, files, seen, attempts)
  {
    hide Plan, Without, DistinctNames, FinalVerdict, AttemptsOf;
    var attempt := AttemptsOf(attempts, files[0].body.eventId) + 1;
    WithoutHead(files);
    if h(files[0], attempt).Raises? && attempt <= files[0].body.maxRetries {
      PlanRetries(h, files, seen, attempts);
    } else if seen' == seen + {files[0].body.eventId} {
      LastAttempt(h, files[0], attempt);
      UsedOthers(files[0], seen, attempts, seen', attempts');
      PlanSettles(h, files, seen, attempts, attempts');
    }
  }

  lemma LastAttempt(h: Handler, f: QueueFile, attempt: nat)
    requires f.body.Envelope? && !(h(f, attempt).Raises? && attempt <= f.body.maxRetries)
    ensures FinalVerdict(h, f, attempt) == if h(f, attempt).Handled? then Processed else DeadLettered
  {
  }

  lemma UsedOthers(f: QueueFile, seen: set<string>, attempts: map<string, nat>, seen': set<string>,
                   attempts': map<string, nat>)
    requires f.body.Envelope? && Used(f, seen, attempts, seen', attempts')
    ensures forall x :: x != f.body.eventId ==> AttemptsOf(attempts', x) == AttemptsOf(attempts, x)
  {
  }

  /** An event that is not settled has been handed out once per recorded attempt, within its
      limit, and was never acknowledged; a settled one was handed out at most once more than
      its limit and acknowledged at most once. */
  ghost predicate CountsOk(limits: string -> nat, seen: set<string>, attempts: map<string, nat>, calls: seq<string>,
                           acked: seq<string>) {
    && (forall id :: id !in seen ==>
        CountId(calls, id) == AttemptsOf(attempts, id) <= limits(id) && CountId(acked, id) == 0)
    && (forall id :: CountId(calls, id) <= limits(id) + 1 && CountId(acked, id) <= 1)
  }

  lemma CountsSettle(limits: string -> nat, seen: set<string>, a: map<string, nat>, b: map<string, nat>,
                     calls: seq<string>, acked: seq<string>,
                     id: string, acknowledged: bool)
    requires CountsOk(limits, seen, a, calls, acked) && id !in seen
    requires forall x :: x != id ==> AttemptsOf(a, x) == AttemptsOf(b, x)
    ensures CountsOk(limits, seen + {id}, b, calls + [id], acked + (if acknowledged then [id] else []))
  {
    CountSnoc(calls, id);
    CountSnoc(acked, id);
    assert acked + [] == acked;
    hide CountId, AttemptsOf;
  }

  lemma CountsRetry(limits: string -> nat, seen: set<string>, attempts: map<string, nat>, calls: seq<string>,
                    acked: seq<string>, id: string)
    requires CountsOk(limits, seen, attempts, calls, acked) && id !in seen && AttemptsOf(attempts, id) + 1 <= limits(id)
    ensures CountsOk(limits, seen, attempts[id := AttemptsOf(attempts, id) + 1], calls + [id], acked)
  {
    CountSnoc(calls, id);
    hide CountId;
  }

  /** A scan of the listing `pending` has come to number `i`: what was passed is not fresh, and
      what is still to come is still in the queue. */
  ghost predicate Scanned(pending: seq<QueueFile>, queue: seq<QueueFile>, seen: set<string>, i: nat)
    requires i <= |pending|
  {
    && DistinctNames(pending) && (forall f :: f in queue ==> f in pending)
    && (forall k :: i <= k < |pending| ==> pending[k] in queue)
    && (forall k :: 0 <= k < i ==> !Fresh(pending[k], seen))
  }

  lemma ScanStarts(pending: seq<QueueFile>, seen: set<string>)
    requires DistinctNames(pending)
    ensures Scanned(pending, pending, seen, 0)
  {
  }

  lemma ScanHolds(pending: seq<QueueFile>, queue: seq<QueueFile>, seen: set<string>, i: nat)
    requires i <= |pending| && Scanned(pending, queue, seen, i)
    ensures (forall f :: f in queue ==> f in pending) && (forall k :: 0 <= k < i ==> !Fresh(pending[k], seen))
    ensures i < |pending| ==> pending[i] in queue
  {
  }

  lemma ScanMoves(pending: seq<QueueFile>, queue: seq<QueueFile>, queue': seq<QueueFile>, seen: set<string>, i: nat)
    requires i < |pending| && Scanned(pending, queue, seen, i) && !Fresh(pending[i], seen)
    requires queue' == queue || queue' == Without(queue, pending[i].name)
    ensures Scanned(pending, queue', seen, i + 1)
  {
    assert forall k :: i < k < |pending| ==> pending[k].name != pending[i].name;
  }

  lemma {:induction false} ArchiveConcat(a: seq<Settled>, b: seq<Settled>, verdict: Verdict)
    ensures Archive(a + b, verdict) == Archive(a, verdict) + Archive(b, verdict)
  {
    hide Archive;
    if b == [] {
      assert a + b == a;
      ArchiveOfNothing(verdict);
    } else {
      var init, last := b[..|b| - 1], b[|b| - 1];
      ArchiveConcat(a, init, verdict);
      ArchiveSnoc(a + init, last, verdict);
      ArchiveSnoc(init, last, verdict);
      assert init + [last] == b && (a + init) + [last] == a + b;
      UpdateOfSum(Archive(a, verdict), Archive(init, verdict), last.file.name, last.file.body);
    }
  }

  lemma ArchiveOfNothing(verdict: Verdict)
    ensures Archive([], verdict) == map[]
  {
  }

  lemma UpdateOfSum(a: map<string, Body>, b: map<string, Body>, key: string, value: Body)
    ensures (a + b)[key := value] == a + b[key := value]
  {
  }

  /** The file lies, unchanged, in exactly one of the two archives. */
  ghost predicate ArchivedOnce(f: QueueFile, deserves: bool, processed: map<string, Body>, dlq: map<string, Body>) {
    if deserves then f.name in processed && processed[f.name] == f.body && f.name !in dlq
    else f.name in dlq && dlq[f.name] == f.body && f.name !in processed
  }

  ghost predicate FreshNames(files: seq<QueueFile>, processed: map<string, Body>, dlq: map<string, Body>) {
    forall f :: f in files ==> f.name !in processed && f.name !in dlq
  }

  /** Two archives that grew by a plan hold every file of the plan once. */
  lemma PlanIsArchived(h: Handler, files: seq<QueueFile>, seen: set<string>, attempts: map<string, nat>,
                       processed: map<string, Body>, dlq: map<string, Body>, i: nat)
    requires DistinctNames(files) && FreshNames(files, processed, dlq) && i < |files|
    ensures var plan := Plan(h, files, seen, attempts);
            ArchivedOnce(files[i], Deserves(h, files, seen, attempts, i), processed + Archive(plan, Processed),
                         dlq + Archive(plan, DeadLettered))
  {
    hide Plan, Archive, DistinctNames, Deserves;
    EveryFileIsArchivedOnce(h, files, seen, attempts);
    ProcessedIffDeserved(h, files, seen, attempts, i);
    assert files[i] in files;
  }

  /** The archives before and after, when both come from the same beginnings. */
  lemma ArchivesGrew(before: map<string, Body>, moves: seq<Settled>, more: seq<Settled>, verdict: Verdict,
                     earlier: map<string, Body>, now: map<string, Body>)
    requires ArchivesOk(before, moves, verdict, earlier) && ArchivesOk(before, moves + more, verdict, now)
    ensures now == earlier + Archive(more, verdict)
  {
    ArchiveConcat(moves, more, verdict);
  }

  /** Every message's limit is within the bound for its event id. */
  ghost predicate WithinLimits(limits: string -> nat, files: seq<QueueFile>) {
    forall f :: f in files && f.body.Envelope? ==> f.body.maxRetries <= limits(f.body.eventId)
  }

  /** The archives hold what they held at first and what was moved since. */
  ghost predicate ArchivesOk(before: map<string, Body>, moves: seq<Settled>, verdict: Verdict, now: map<string, Body>) {
    now == before + Archive(moves, verdict)
  }

  lemma ArchivesMove(before: map<string, Body>, moves: seq<Settled>, verdict: Verdict, now: map<string, Body>,
                     s: Settled)
    requires ArchivesOk(before, moves, verdict, now)
    ensures ArchivesOk(before, moves + [s], verdict,
                       if s.verdict == verdict then now[s.file.name := s.file.body] else now)
  {
    ArchiveSnoc(moves, s, verdict);
  }

  /** `queue` is the directory listing in name order. `limits` bounds, per event id, the retry
      limit of every message with that id; `calls`, `acked` and `moves` record what happened. */
  class FileQueueConsumer {
    const movesWork: bool
    ghost const limits: string -> nat
    ghost const oldProcessed: map<string, Body>
    ghost const oldDlq: map<string, Body>
    var queue: seq<QueueFile>
    var processed: map<string, Body>
    var dlq: map<string, Body>
    var seen: set<string>
    var attempts: map<string, nat>
    ghost var calls: seq<string>
    ghost var acked: seq<string>
    ghost var moves: seq<Settled>

    ghost predicate Valid()
      reads this
    {
      && DistinctNames(queue) && WithinLimits(limits, queue)
      && ArchivesOk(oldProcessed, moves, Processed, processed) && ArchivesOk(oldDlq, moves, DeadLettered, dlq)
      && CountsOk(limits, seen, attempts, calls, acked)
    }

    /** The event that `fetch` handed out last. */
    ghost predicate Handed(event: ConsumedEvent)
      reads this
    {
      event.file in queue && Fresh(event.file, seen)
          && event.attempt == AttemptsOf(attempts, event.file.body.eventId) + 1
    }

    constructor (queue: seq<QueueFile>, processed: map<string, Body>, dlq: map<string, Body>, movesWork: bool,
                 ghost limits: string -> nat)
      requires DistinctNames(queue)
      requires WithinLimits(limits, queue)
      ensures Valid() && this.queue == queue && this.movesWork == movesWork && this.limits == limits
      ensures this.processed == processed && this.dlq == dlq
      ensures seen == {} && attempts == map[] && calls == [] && acked == [] && moves == []
    {
      this.queue, this.movesWork, this.limits := queue, movesWork, limits;
      this.processed, this.dlq, oldProcessed, oldDlq := processed, dlq, processed, dlq;
      seen, attempts := {}, map[];
      calls, acked, moves := [], [], [];
    }

    /** `_move`: an archiving error is swallowed, and then the file stays where it is. */
    method Move(file: QueueFile, verdict: Verdict)
      requires Valid() && file in queue
      modifies `queue, `processed, `dlq, `moves
      ensures Valid()
      ensures (queue == old(queue) && moves == old(moves))
           || (queue == Without(old(queue), file.name) && moves == old(moves) + [Settled(file, verdict)])
      ensures movesWork ==> queue == Without(old(queue), file.name) && moves == old(moves) + [Settled(file, verdict)]
    {
      hide CountsOk, ArchivesOk, DistinctNames, Without;
      var works := *;
      if movesWork || works {
        WithoutKeepsDistinct(queue, file.name);
        ArchivesMove(oldProcessed, moves, Processed, processed, Settled(file, verdict));
        ArchivesMove(oldDlq, moves, DeadLettered, dlq, Settled(file, verdict));
        queue := Without(queue, file.name);
        moves := moves + [Settled(file, verdict)];
        if verdict == Processed {
          processed := processed[file.name := file.body];
        } else {
          dlq := dlq[file.name := file.body];
        }
      }
    }

    lemma NamesAreDistinct()
      requires Valid()
      ensures DistinctNames(queue)
    {
    }

    /** No event reaches the handler more often than its retry limit allows, or is acknowledged twice. */
    lemma CallsAreBounded()
      requires Valid()
      ensures forall id :: CountId(calls, id) <= limits(id) + 1 && CountId(acked, id) <= 1
    {
    }

    /** `fetch`: goes through the listing, archives what is not fresh, and hands out the first
        fresh event. With working moves the `skipped` files before it are gone. */
    method Fetch() returns (event: Option<ConsumedEvent>, ghost skipped: nat)
      requires Valid()
      modifies `queue, `processed, `dlq, `moves
      ensures Valid() && skipped <= |old(queue)|
      ensures forall f :: f in queue ==> f in old(queue)
      ensures forall i :: 0 <= i < skipped ==> !Fresh(old(queue)[i], seen)
      ensures event.None? ==> skipped == |old(queue)|
      ensures event.Some? ==> skipped < |old(queue)| && event.value.file == old(queue)[skipped] && Handed(event.value)
      ensures movesWork ==> queue == old(queue)[skipped..] && moves == old(moves) + Stale(old(queue)[..skipped], seen)
    {
      hide Valid, Without, Stale, DistinctNames, Scanned;
      var pending := queue;
      NamesAreDistinct();
      ScanStarts(pending, seen);
      StaleStep(pending, 0, seen);
      for i := 0 to |pending|
        invariant Valid() && Scanned(pending, queue, seen, i)
        invariant movesWork ==> queue == pending[i..] && moves == old(moves) + Stale(pending[..i], seen)
      {
        var f := pending[i];
        ghost var listing := queue;
        StaleStep(pending, i, seen);
        NamesAreDistinct();
        ScanHolds(pending, queue, seen, i);
        if movesWork {
          assert pending[i..][1..] == pending[i + 1..];
          WithoutHead(queue);
        }
        if f.body.Unreadable? {
          Move(f, DeadLettered);
        } else if f.body.eventId in seen {
          Move(f, Processed);
        } else if !f.body.decodable {
          Move(f, DeadLettered);
        } else {
          return Some(ConsumedEvent(f, AttemptsOf(attempts, f.body.eventId) + 1)), i;
        }
        ScanMoves(pending, listing, queue, seen, i);
      }
      ScanHolds(pending, queue, seen, |pending|);
      event, skipped := None, |pending|;
    }

    /** Settling an event: it is remembered as seen, and moved. Its attempt count is dropped or kept. */
    method Settle(event: ConsumedEvent, verdict: Verdict, acknowledged: bool, forget: bool)
      requires Valid() && Handed(event)
      modifies this
      ensures Valid()
      ensures seen == old(seen) + {event.file.body.eventId}
      ensures forall id :: id != event.file.body.eventId ==> AttemptsOf(attempts, id) == AttemptsOf(old(attempts), id)
      ensures attempts == if forget then old(attempts) - {event.file.body.eventId}
                          else old(attempts)[event.file.body.eventId := event.attempt]
      ensures calls == old(calls) + [event.file.body.eventId]
      ensures acked == old(acked) + (if acknowledged then [event.file.body.eventId] else [])
      ensures forall f :: f in queue ==> f in old(queue)
      ensures movesWork ==>
                queue == Without(old(queue), event.file.name) && moves == old(moves) + [Settled(event.file, verdict)]
    {
      hide CountsOk, ArchivesOk, WithinLimits, Without, DistinctNames;
      var id := event.file.body.eventId;
      var counts := if forget then attempts - {id} else attempts[id := event.attempt];
      CountsSettle(limits, seen, attempts, counts, calls, acked, id, acknowledged);
      seen, attempts := seen + {id}, counts;
      calls := calls + [id];
      assert acked + [] == acked;
      if acknowledged {
        acked := acked + [id];
      }
      Move(event.file, verdict);
    }

    method Ack(event: ConsumedEvent)
      requires Valid() && Handed(event)
      modifies this
      ensures Valid()
      ensures seen == old(seen) + {event.file.body.eventId}
      ensures forall id :: id != event.file.body.eventId ==> AttemptsOf(attempts, id) == AttemptsOf(old(attempts), id)
      ensures attempts == old(attempts) - {event.file.body.eventId}
      ensures calls == old(calls) + [event.file.body.eventId] && acked == old(acked) + [event.file.body.eventId]
      ensures forall f :: f in queue ==> f in old(queue)
      ensures movesWork ==>
                queue == Without(old(queue), event.file.name) && moves == old(moves) + [Settled(event.file, Processed)]
    {
      Settle(event, Processed, true, true);
    }

    method DeadLetter(event: ConsumedEvent)
      requires Valid() && Handed(event)
      modifies this
      ensures Valid()
      ensures seen == old(seen) + {event.file.body.eventId}
      ensures forall id :: id != event.file.body.eventId ==> AttemptsOf(attempts, id) == AttemptsOf(old(attempts), id)
      ensures attempts == old(attempts) - {event.file.body.eventId}
      ensures calls == old(calls) + [event.file.body.eventId] && acked == old(acked)
      ensures forall f :: f in queue ==> f in old(queue)
      ensures movesWork ==>
                queue == Without(old(queue), event.file.name)
                    && moves == old(moves) + [Settled(event.file, DeadLettered)]
    {
      Settle(event, DeadLettered, false, true);
    }

    /** `reject`: the file stays at its place for another attempt, until the limit is exceeded. */
    method Reject(event: ConsumedEvent) returns (willRetry: bool)
      requires Valid() && Handed(event)
      modifies this
      ensures Valid()
      ensures willRetry <==> event.attempt <= event.file.body.maxRetries
      ensures calls == old(calls) + [event.file.body.eventId] && acked == old(acked)
      ensures forall id :: id != event.file.body.eventId ==> AttemptsOf(attempts, id) == AttemptsOf(old(attempts), id)
      ensures willRetry ==> queue == old(queue) && seen == old(seen) && moves == old(moves)
      ensures attempts == old(attempts)[event.file.body.eventId := event.attempt]
      ensures !willRetry ==> seen == old(seen) + {event.file.body.eventId}
      ensures forall f :: f in queue ==> f in old(queue)
      ensures !willRetry && movesWork ==>
                queue == Without(old(queue), event.file.name)
                    && moves == old(moves) + [Settled(event.file, DeadLettered)]
    {
      var id := event.file.body.eventId;
      if event.attempt > event.file.body.maxRetries {
        Settle(event, DeadLettered, false, false);
        return false;
      }
      hide CountsOk, ArchivesOk, DistinctNames;
      CountsRetry(limits, seen, attempts, calls, acked, id);
      attempts := attempts[id := event.attempt];
      calls := calls + [id];
      willRetry := true;
    }
  }

  // ---------------------------------------------------------------- the drain loop

  /** A bound on the retry limits of a list of messages. */
  ghost function LimitOf(files: seq<QueueFile>): (limit: nat)
    ensures forall f :: f in files && f.body.Envelope? ==> f.body.maxRetries <= limit
  {
    if files == [] then 0
    else
      var rest := LimitOf(files[1..]);
      if files[0].body.Envelope? && files[0].body.maxRetries > rest then files[0].body.maxRetries else rest
  }

  /** `handle` may react to each attempt at each message as it likes: every attempt at a
      message has its own number, so any behaviour is some function of the two. */
  class Worker {
    const consumer: FileQueueConsumer
    const handle: Handler

    constructor (consumer: FileQueueConsumer, handle: Handler)
      ensures this.consumer == consumer && this.handle == handle
    {
      this.consumer, this.handle := consumer, handle;
    }

    /** One turn of the loop: the handler reacts, and the event is acknowledged, dead-lettered
        or put back. Either it is settled now, or one more of its attempts is used up. */
    method HandleOne(event: ConsumedEvent) returns (acknowledged: bool)
      requires consumer.Valid() && consumer.Handed(event)
      modifies consumer
      ensures consumer.Valid() && (acknowledged <==> handle(event.file, event.attempt).Handled?)
      ensures consumer.acked == old(consumer.acked) + (if acknowledged then [event.file.body.eventId] else [])
      ensures consumer.calls == old(consumer.calls) + [event.file.body.eventId]
      ensures forall f :: f in consumer.queue ==> f in old(consumer.queue)
      ensures Used(event.file, old(consumer.seen), old(consumer.attempts), consumer.seen, consumer.attempts)
      ensures consumer.movesWork && old(consumer.queue) != [] && old(consumer.queue)[0] == event.file ==>
                consumer.moves + Plan(handle, consumer.queue, consumer.seen, consumer.attempts)
                == old(consumer.moves) + Plan(handle, old(consumer.queue), old(consumer.seen), old(consumer.attempts))
    {
      hide CountsOk, ArchivesOk, WithinLimits, Without, Plan, Stale, DistinctNames;
      acknowledged := false;
      var retried := false;
      ghost var files, seen, attempts, moves := consumer.queue, consumer.seen, consumer.attempts, consumer.moves;
      match handle(event.file, event.attempt) {
        case Raises => retried := consumer.Reject(event);
        case Unhandled => consumer.DeadLetter(event);
        case Handled =>
          consumer.Ack(event);
          acknowledged := true;
      }
      if consumer.movesWork && files != [] && files[0] == event.file {
        PlanTurns(handle, files, seen, attempts, consumer.seen, consumer.attempts, moves);
      }
    }

    /** When the moves since are the plan for the earlier queue, every file of it is archived. */
    twostate lemma EveryFileArchived()
      requires old(consumer.Valid()) && consumer.Valid()
      requires consumer.moves
            == old(consumer.moves) + Plan(handle, old(consumer.queue), old(consumer.seen), old(consumer.attempts))
      ensures FreshNames(old(consumer.queue), old(consumer.processed), old(consumer.dlq)) ==>
                forall i :: 0 <= i < |old(consumer.queue)| ==>
                  ArchivedOnce(old(consumer.queue)[i],
                               Deserves(handle, old(consumer.queue), old(consumer.seen), old(consumer.attempts), i),
                               consumer.processed, consumer.dlq)
    {
      hide Plan, ArchivesOk, CountsOk, WithinLimits, DistinctNames, FreshNames, ArchivedOnce, Deserves;
      var files, seen, attempts := old(consumer.queue), old(consumer.seen), old(consumer.attempts);
      var plan := Plan(handle, files, seen, attempts);
      ArchivesGrew(consumer.oldProcessed, old(consumer.moves), plan, Processed, old(consumer.processed),
          consumer.processed);
      ArchivesGrew(consumer.oldDlq, old(consumer.moves), plan, DeadLettered, old(consumer.dlq), consumer.dlq);
      if FreshNames(files, old(consumer.processed), old(consumer.dlq)) {
        forall i | 0 <= i < |files|
          ensures ArchivedOnce(files[i], Deserves(handle, files, seen, attempts, i), consumer.processed, consumer.dlq)
        {
          PlanIsArchived(handle, files, seen, attempts, old(consumer.processed), old(consumer.dlq), i);
        }
      }
    }

    /** `drain` terminates whatever the handler and the archiving do. With working moves it
        empties the queue and settles every file as the plan says, in name order. */
    method Drain() returns (handled: nat)
      requires consumer.Valid()
      modifies consumer
      ensures consumer.Valid()
      ensures |consumer.acked| == |old(consumer.acked)| + handled
      ensures forall id :: CountId(consumer.calls, id) <= consumer.limits(id) + 1 && CountId(consumer.acked, id) <= 1
      ensures forall f :: f in consumer.queue ==> f in old(consumer.queue) && !Fresh(f, consumer.seen)
      ensures consumer.movesWork ==>
                && consumer.queue == []
                && (FreshNames(old(consumer.queue), old(consumer.processed), old(consumer.dlq)) ==>
                      forall i :: 0 <= i < |old(consumer.queue)| ==>
                        ArchivedOnce(old(consumer.queue)[i],
                                     Deserves(handle, old(consumer.queue), old(consumer.seen),
                                              old(consumer.attempts), i),
                                     consumer.processed, consumer.dlq))
                && consumer.moves == old(consumer.moves)
                                     + Plan(handle, old(consumer.queue), old(consumer.seen), old(consumer.attempts))
    {
      hide CountsOk, ArchivesOk, Without, Plan, Budget, Stale, DistinctNames, Used, Deserves, ArchivedOnce;
      handled := 0;
      ghost var files := consumer.queue;
      ghost var limit := LimitOf(files);
      ghost var total := consumer.moves + Plan(handle, files, consumer.seen, consumer.attempts);
      while true
        invariant consumer.Valid()
        invariant |consumer.acked| == |old(consumer.acked)| + handled
        invariant forall f :: f in consumer.queue ==> f in files
        invariant consumer.movesWork ==>
                    consumer.moves + Plan(handle, consumer.queue, consumer.seen, consumer.attempts) == total
        decreases Budget(files, limit, consumer.seen, consumer.attempts)
      {
        ghost var listing, seen, attempts, moves := consumer.queue, consumer.seen, consumer.attempts, consumer.moves;
        var event, skipped := consumer.Fetch();
        PlanAfterFetch(handle, listing, skipped, seen, attempts, moves);
        if event.None? {
          break;
        }
        var acknowledged := HandleOne(event.value);
        if acknowledged {
          handled := handled + 1;
        }
        BudgetDecreases(files, limit, seen, attempts, event.value.file, consumer.seen, consumer.attempts);
      }
      consumer.CallsAreBounded();
      if consumer.movesWork {
        EveryFileArchived();
      }
    }
  }
}
