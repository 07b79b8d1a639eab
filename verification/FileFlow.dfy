/**
 Moving recordings between the stage folders of a task without overwriting any
 (agent/src/agent/file_flow.py).
 */
module FileFlow {
  import opened Basics

  datatype Path = Path(folder: string, name: string)

  type Files = map<Path, string>

  // ---------------------------------------------------------------- names

  /** The place of the last dot, or -1. */
  function LastDot(name: string): (r: int)
    ensures -1 <= r < |name|
    ensures r >= 0 ==> name[r] == '.'
    ensures forall i :: r < i < |name| ==> name[i] != '.'
  {
    if name == "" then -1
    else if name[|name| - 1] == '.' then |name| - 1
    else LastDot(name[..|name| - 1])
  }

  /** How long the part before the suffix is: a dot at either end of a name starts no suffix. */
  function StemLength(name: string): (r: nat)
    ensures r <= |name|
  {
    var dot := LastDot(name);
    if 0 < dot < |name| - 1 then dot else |name|
  }

  function Stem(name: string): string { name[..StemLength(name)] }

  function Suffix(name: string): string { name[StemLength(name)..] }

  function Digit(n: nat): char
    requires n < 10
  {
    "0123456789"[n]
  }

  function Decimal(n: nat): (r: string)
    ensures r != ""
  {
    if n < 10 then [Digit(n)] else Decimal(n / 10) + [Digit(n % 10)]
  }

  /** `{stem}.{counter}{suffix}`. */
  function Numbered(name: string, counter: nat): string {
    Stem(name) + "." + Decimal(counter) + Suffix(name)
  }

  lemma DigitInjective(a: nat, b: nat)
    requires a < 10 && b < 10 && Digit(a) == Digit(b)
    ensures a == b
  {
  }

  lemma {:induction false} DecimalInjective(a: nat, b: nat)
    requires Decimal(a) == Decimal(b)
    ensures a == b
  {
    var s, t := Decimal(a), Decimal(b);
    assert s[|s| - 1] == Digit(a % 10) && t[|t| - 1] == Digit(b % 10);
    DigitInjective(a % 10, b % 10);
    if a >= 10 && b >= 10 {
      assert s[..|s| - 1] == Decimal(a / 10) && t[..|t| - 1] == Decimal(b / 10);
      DecimalInjective(a / 10, b / 10);
    }
  }

  /** Different counters give different names. */
  lemma NumberedInjective(name: string, a: nat, b: nat)
    requires Numbered(name, a) == Numbered(name, b)
    ensures a == b
  {
    hide Decimal, StemLength;
    var pre, post := Stem(name) + ".", Suffix(name);
    var s, t := Numbered(name, a), Numbered(name, b);
    assert s == pre + Decimal(a) + post && t == pre + Decimal(b) + post;
    assert |Decimal(a)| == |Decimal(b)|;
    assert s[|pre|..|pre| + |Decimal(a)|] == Decimal(a) && t[|pre|..|pre| + |Decimal(b)|] == Decimal(b);
    DecimalInjective(a, b);
  }

  // ---------------------------------------------------------------- the first free name

  predicate Taken(files: Files, folder: string, name: string, counter: nat) {
    Path(folder, Numbered(name, counter)) in files
  }

  /** Pigeonhole: `n` numbered names are taken by `n` different files. */
  lemma {:induction false} TakenIsBounded(files: Files, folder: string, name: string, n: nat)
    requires forall k :: 1 <= k <= n ==> Taken(files, folder, name, k)
    ensures n <= |files|
    decreases n
  {
    hide Numbered;
    if n > 0 {
      var path := Path(folder, Numbered(name, n));
      assert Taken(files, folder, name, n);
      var fewer := files - {path};
      forall k | 1 <= k <= n - 1
        ensures Taken(fewer, folder, name, k)
      {
        assert Taken(files, folder, name, k);
        if Numbered(name, k) == Numbered(name, n) {
          NumberedInjective(name, k, n);
        }
      }
      TakenIsBounded(fewer, folder, name, n - 1);
      assert fewer.Keys == files.Keys - {path};
      assert |fewer.Keys| == |files.Keys| - 1;
    }
  }

  /** The first counter from `counter` on whose name is free. */
  function FirstFree(files: Files, folder: string, name: string, counter: nat): (r: nat)
    requires counter >= 1 && forall k :: 1 <= k < counter ==> Taken(files, folder, name, k)
    ensures r >= counter && !Taken(files, folder, name, r)
    ensures forall k :: 1 <= k < r ==> Taken(files, folder, name, k)
    decreases |files| + 1 - counter
  {
    TakenIsBounded(files, folder, name, counter - 1);
    if Taken(files, folder, name, counter) then
      TakenIsBounded(files, folder, name, counter);
      FirstFree(files, folder, name, counter + 1)
    else counter
  }

  function Target(files: Files, folder: string, name: string): (r: Path)
    ensures r.folder == folder && r !in files
  {
    var plain := Path(folder, name);
    if plain in files then Path(folder, Numbered(name, FirstFree(files, folder, name, 1))) else plain
  }

  /** The names that are tried in turn. */
  function Candidate(folder: string, name: string, k: nat): Path {
    Path(folder, if k == 0 then name else Numbered(name, k))
  }

  /** The target is the first of the names that is free: the plain one if it can be. */
  lemma TargetIsFirstFree(files: Files, folder: string, name: string)
    ensures exists k: nat :: Target(files, folder, name) == Candidate(folder, name, k)
              && forall j :: 0 <= j < k ==> Candidate(folder, name, j) in files
  {
    hide Numbered;
    if Path(folder, name) in files {
      var k := FirstFree(files, folder, name, 1);
      assert Target(files, folder, name) == Candidate(folder, name, k);
      forall j | 0 <= j < k ensures Candidate(folder, name, j) in files {
        assert j >= 1 ==> Taken(files, folder, name, j);
      }
    } else {
      assert Target(files, folder, name) == Candidate(folder, name, 0);
    }
  }

  function ValueOf(digits: string): int {
    if digits == "" then 0 else 10 * ValueOf(digits[..|digits| - 1]) + (digits[|digits| - 1] as int - '0' as int)
  }

  /** A counter is written as its decimal digits. */
  lemma {:induction false} DecimalIsRead(n: nat)
    ensures ValueOf(Decimal(n)) == n
  {
    if n >= 10 {
      DecimalIsRead(n / 10);
      assert Decimal(n)[..|Decimal(n)| - 1] == Decimal(n / 10);
    } else {
      assert Decimal(n)[..0] == "";
    }
  }

  lemma LastDotAt(s: string, dot: nat)
    requires dot < |s| && s[dot] == '.' && forall i :: dot < i < |s| ==> s[i] != '.'
    ensures LastDot(s) == dot
  {
  }

  ghost predicate NoDot(s: string) {
    forall c :: c in s ==> c != '.'
  }

  /** A name has a suffix exactly when it is something, a dot, and something without a dot; and then that is it. */
  lemma SuffixIsExact(name: string, stem: string, extension: string)
    requires NoDot(extension)
    ensures Stem(name) + Suffix(name) == name
    ensures stem != "" && extension != "" && name == stem + "." + extension ==>
              Stem(name) == stem && Suffix(name) == "." + extension
    ensures Suffix(name) != "" ==>
              Stem(name) != "" && Suffix(name)[0] == '.' && |Suffix(name)| > 1 && NoDot(Suffix(name)[1..])
  {
    if name == stem + "." + extension {
      assert forall i :: 0 <= i < |extension| ==> extension[i] in extension;
      assert forall i :: |stem| < i < |name| ==> name[i] == extension[i - |stem| - 1];
      LastDotAt(name, |stem|);
      assert name[..|stem|] == stem && name[|stem|..] == "." + extension;
    }
    if Suffix(name) != "" {
      SuffixShape(name);
    }
  }

  /** A numbered name keeps the suffix and only puts the counter before it. */
  lemma NumberedKeepsSuffix(name: string, counter: nat)
    requires Suffix(name) != ""
    ensures Suffix(Numbered(name, counter)) == Suffix(name)
    ensures Stem(Numbered(name, counter)) == Stem(name) + "." + Decimal(counter)
  {
    hide Decimal;
    var start, suffix := Stem(name) + "." + Decimal(counter), Suffix(name);
    var s := start + suffix;
    assert s == Numbered(name, counter);
    SuffixShape(name);
    assert forall i :: |start| <= i < |s| ==> s[i] == suffix[i - |start|];
    LastDotAt(s, |start|);
    assert |suffix| > 1;
    assert s[..|start|] == start && s[|start|..] == suffix;
  }

  // ---------------------------------------------------------------- moving

  datatype Move = Move(source: Path, folder: string, errorMessage: Option<string>)

  function NoteFor(target: Path): Path { target.(name := target.name + ".error") }

  /** The folders after one move; an error message is written beside the moved file. */
  function Moved(files: Files, move: Move): Files {
    if move.source !in files then files
    else
      var target := Target(files, move.folder, move.source.name);
      var moved := (files - {move.source})[target := files[move.source]];
      if move.errorMessage.Some? && move.errorMessage.value != "" then moved[NoteFor(target) := move.errorMessage.value]
      else moved
  }

  /** What a move does to every path: the content goes from the source to the target, a non-empty explanation is
      written beside the target, and nothing else changes. */
  lemma MoveIsExact(files: Files, move: Move, p: Path)
    requires move.source in files
    ensures var target, now := Target(files, move.folder, move.source.name), Moved(files, move);
            var explained := move.errorMessage.Some? && move.errorMessage.value != "";
            && (explained && p == NoteFor(target) ==> p in now && now[p] == move.errorMessage.value)
            && (!(explained && p == NoteFor(target)) && p == target ==> p in now && now[p] == files[move.source])
            && (!(explained && p == NoteFor(target)) && p != target && p == move.source ==> p !in now)
            && (!(explained && p == NoteFor(target)) && p != target && p != move.source ==>
                  (p in now <==> p in files) && (p in files ==> now[p] == files[p]))
            && NoteFor(target) == Path(move.folder, target.name + ".error")
  {
    hide Target;
  }

  function AllMoved(files: Files, moves: seq<Move>): Files
    decreases |moves|
  {
    if moves == [] then files else AllMoved(Moved(files, moves[0]), moves[1..])
  }

  datatype MoveError = SourceMissing

  class TaskFolder {
    var files: Files

    /** `move_to_stage`: terminates in any folder, and takes the first free name. */
    method MoveToStage(source: Path, folder: string, errorMessage: Option<string>) returns (r: Result<Path, MoveError>)
      modifies this
      ensures r.Ok? <==> source in old(files)
      ensures r.Ok? ==> r.value == Target(old(files), folder, source.name)
      ensures files == Moved(old(files), Move(source, folder, errorMessage))
    {
      if source !in files {
        return Err(SourceMissing);
      }
      var target := Path(folder, source.name);
      if target in files {
        var stem, suffix := Stem(source.name), Suffix(source.name);
        var counter := 1;
        while target in files
          invariant files == old(files) && counter >= 1 && (counter == 1 ==> target == Path(folder, source.name))
          invariant counter > 1 ==> target == Path(folder, Numbered(source.name, counter - 1))
          invariant forall k :: 1 <= k < counter - 1 ==> Taken(files, folder, source.name, k)
          decreases |files| + 2 - counter
        {
          if counter > 1 {
            TakenIsBounded(files, folder, source.name, counter - 1);
          }
          target := Path(folder, stem + "." + Decimal(counter) + suffix);
          counter := counter + 1;
        }
        assert Path(folder, source.name) in files;
        OnlyFirstFree(files, folder, source.name, counter - 1);
      }
      files := (files - {source})[target := files[source]];
      if errorMessage.Some? && errorMessage.value != "" {
        files := files[NoteFor(target) := errorMessage.value];
      }
      r := Ok(target);
    }
  }

  lemma OnlyFirstFree(files: Files, folder: string, name: string, n: nat)
    requires n >= 1 && !Taken(files, folder, name, n) && forall k :: 1 <= k < n ==> Taken(files, folder, name, k)
    ensures FirstFree(files, folder, name, 1) == n
  {
  }

  // ---------------------------------------------------------------- nothing is lost

  const NOTE := ".error"

  /** An explanation written beside a file; every other file is a recording. */
  predicate IsNote(path: Path) {
    |path.name| >= |NOTE| && path.name[|path.name| - |NOTE|..] == NOTE
  }

  function Recordings(files: Files): Files {
    map p | p in files && !IsNote(p) :: files[p]
  }

  lemma DigitsAreNoNote(folder: string, start: string, n: nat)
    ensures !IsNote(Path(folder, start + Decimal(n)))
  {
    var s := start + Decimal(n);
    assert '0' <= s[|s| - 1] <= '9';
  }

  lemma SuffixShape(name: string)
    requires Suffix(name) != ""
    ensures var s := Suffix(name); s[0] == '.' && forall i :: 1 <= i < |s| ==> s[i] != '.'
  {
  }

  /** A text whose last dot starts `suffix` is a note exactly when the suffix is ".error". */
  lemma LastDotSuffix(s: string, suffix: string)
    requires suffix != "" && suffix[0] == '.' && (forall i :: 1 <= i < |suffix| ==> suffix[i] != '.')
    requires |s| >= |suffix| && s[|s| - |suffix|..] == suffix
    ensures (|s| >= |NOTE| && s[|s| - |NOTE|..] == NOTE) <==> suffix == NOTE
  {
    var d := |s| - |suffix|;
    assert forall i :: 0 <= i < |suffix| ==> s[d + i] == suffix[i];
    if |s| >= |NOTE| && s[|s| - |NOTE|..] == NOTE {
      var e := |s| - |NOTE|;
      assert forall i :: 0 <= i < |NOTE| ==> s[e + i] == NOTE[i];
      assert s[d] == s[d + 0] == '.' && s[e] == s[e + 0] == '.';
      assert forall i :: d < i < |s| ==> s[i] == suffix[i - d] && s[i] != '.';
      assert forall i :: e < i < |s| ==> s[i] == NOTE[i - e] && s[i] != '.';
    }
  }

  lemma NumberedStaysRecording(folder: string, name: string, counter: nat)
    requires !IsNote(Path(folder, name))
    ensures !IsNote(Path(folder, Numbered(name, counter)))
  {
    hide Decimal, StemLength;
    var suffix := Suffix(name);
    var s := Numbered(name, counter);
    if suffix == "" {
      assert s == Stem(name) + "." + Decimal(counter);
      DigitsAreNoNote(folder, Stem(name) + ".", counter);
    } else {
      SuffixShape(name);
      assert s[|s| - |suffix|..] == suffix && name[|name| - |suffix|..] == suffix;
      if IsNote(Path(folder, s)) {
        LastDotSuffix(s, suffix);
        LastDotSuffix(name, suffix);
      }
    }
  }

  /** One move: the recordings are the same, but the source is now under the target's name, where
      no file was before. */
  lemma MoveKeepsRecordings(files: Files, move: Move)
    requires !IsNote(move.source)
    ensures var target := Target(files, move.folder, move.source.name);
            && target !in files && !IsNote(target)
            && Recordings(Moved(files, move))
               == if move.source in files then (Recordings(files) - {move.source})[target := files[move.source]]
                  else Recordings(files)
  {
    hide Numbered;
    var target := Target(files, move.folder, move.source.name);
    if Path(move.folder, move.source.name) in files {
      NumberedStaysRecording(move.folder, move.source.name, FirstFree(files, move.folder, move.source.name, 1));
    }
    var note := NoteFor(target);
    assert note.name[|note.name| - |NOTE|..] == NOTE;
  }

  /** The contents of all files, with multiplicity. */
  ghost function Bag(files: Files): multiset<string> {
    if files == map[] then multiset{}
    else
      var p :| p in files;
      multiset{files[p]} + Bag(files - {p})
  }

  lemma BagUnfold(files: Files) returns (q: Path)
    requires files != map[]
    ensures q in files && Bag(files) == multiset{files[q]} + Bag(files - {q})
  {
    q :| q in files && Bag(files) == multiset{files[q]} + Bag(files - {q});
  }

  lemma Fewer(files: Files, p: Path)
    requires p in files
    ensures |files - {p}| < |files|
  {
    assert (files - {p}).Keys == files.Keys - {p};
  }

  lemma {:induction false} BagRemove(files: Files, p: Path)
    requires p in files
    ensures Bag(files) == multiset{files[p]} + Bag(files - {p})
    decreases |files|
  {
    hide Bag;
    var q := BagUnfold(files);
    if p != q {
      Fewer(files, q);
      BagRemove(files - {q}, p);
      Fewer(files, p);
      BagRemove(files - {p}, q);
      assert files - {q} - {p} == files - {p} - {q};
    }
  }

  /** Over any sequence of moves of recordings, no recording is lost, duplicated or changed. */
  lemma {:induction false} MovesConserveRecordings(files: Files, moves: seq<Move>)
    requires forall m :: m in moves ==> !IsNote(m.source)
    ensures Bag(Recordings(AllMoved(files, moves))) == Bag(Recordings(files))
    decreases |moves|
  {
    hide Recordings, Moved, Target, IsNote;
    if moves != [] {
      var move := moves[0];
      var next := Moved(files, move);
      MovesConserveRecordings(next, moves[1..]);
      MoveKeepsRecordings(files, move);
      if move.source in files {
        OneMoveConserves(files, move.source, Target(files, move.folder, move.source.name));
      }
    }
  }

  lemma OneMoveConserves(files: Files, source: Path, target: Path)
    requires source in files && !IsNote(source) && target !in files
    ensures Bag((Recordings(files) - {source})[target := files[source]]) == Bag(Recordings(files))
  {
    hide Bag, IsNote;
    var was := Recordings(files);
    var now := (was - {source})[target := files[source]];
    BagRemove(was, source);
    BagRemove(now, target);
    assert now - {target} == was - {source};
  }
}
