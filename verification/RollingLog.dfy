/** The rolling log file: a current file and numbered backups, shifted up when the current one would grow too large. */
module RollingLog {
  type Byte = bv8

  /** Files by number: 0 is the log's path, and k > 0 its backup "<path>.k". */
  type Files<T> = map<nat, seq<T>>

  function Content<T>(fs: Files<T>, k: nat): seq<T> {
    if k in fs then fs[k] else []
  }

  /** The contents of files n down to 0: oldest backup first, current file last. */
  function Log<T>(fs: Files<T>, n: nat): seq<T> {
    if n == 0 then Content(fs, 0) else Content(fs, n) + Log(fs, n - 1)
  }

  /** The bytes of a file's writes. */
  function Flat(pieces: seq<seq<Byte>>): seq<Byte> {
    FlatBelow(pieces, |pieces|)
  }

  function FlatBelow(pieces: seq<seq<Byte>>, n: nat): seq<Byte>
    requires n <= |pieces|
  {
    if n == 0 then [] else FlatBelow(pieces, n - 1) + pieces[n - 1]
  }

  lemma {:induction false} SameFlat(a: seq<seq<Byte>>, b: seq<seq<Byte>>, n: nat)
    requires n <= |a| && n <= |b| && forall i :: 0 <= i < n ==> a[i] == b[i]
    ensures FlatBelow(a, n) == FlatBelow(b, n)
  {
    if n > 0 {
      SameFlat(a, b, n - 1);
    }
  }

  lemma {:induction false} FlatJoinBelow(a: seq<seq<Byte>>, b: seq<seq<Byte>>, n: nat)
    requires n <= |b|
    ensures FlatBelow(a + b, |a| + n) == Flat(a) + FlatBelow(b, n)
  {
    if n == 0 {
      SameFlat(a + b, a, |a|);
    } else {
      FlatJoinBelow(a, b, n - 1);
      assert Flat(a) + (FlatBelow(b, n - 1) + b[n - 1]) == Flat(a) + FlatBelow(b, n - 1) + b[n - 1];
    }
  }

  lemma FlatJoin(a: seq<seq<Byte>>, b: seq<seq<Byte>>)
    ensures Flat(a + b) == Flat(a) + Flat(b)
  {
    FlatJoinBelow(a, b, |b|);
  }

  lemma FlatOne(p: seq<Byte>)
    ensures Flat([p]) == p
  {
    assert FlatBelow([p], 0) + p == p;
  }

  /** What a rotation keeping m backups does to the files: m is dropped, the others move up, 0 is empty. */
  ghost predicate IsRotated<T>(was: Files<T>, now: Files<T>, m: nat) {
    && 0 in now && now[0] == []
    && (forall k :: 0 < k <= m ==> ((k in now) == (k - 1 in was)) && Content(now, k) == Content(was, k - 1))
    && (forall k :: k > m && k > 0 ==> ((k in now) == (k in was)) && Content(now, k) == Content(was, k))
  }

  /** The file numbers after a rotation. */
  ghost function ShiftedSet(s: set<nat>, m: nat): set<nat> {
    {0} + (set i | i in s && i < m :: i + 1) + (set i | i in s && i > m)
  }

  ghost function Shifted<T>(fs: Files<T>, m: nat): (now: Files<T>)
    ensures IsRotated(fs, now, m)
  {
    map k | k in ShiftedSet(fs.Keys, m) :: if k == 0 then [] else if k <= m then Content(fs, k - 1) else Content(fs, k)
  }

  function Renamed<T>(fs: Files<T>, i: nat, j: nat): Files<T>
    requires i != j
  {
    if i in fs then fs[j := fs[i]] - {i} else fs
  }

  /** A rotation midway: the backups above i + 1 are in place, i + 1 is free, and those up to i have not moved. */
  ghost predicate Midway<T>(was: Files<T>, now: Files<T>, i: nat, m: nat) {
    && i + 1 !in now
    && (forall k :: 0 <= k <= i || k > m ==> (k in now) == (k in was) && Content(now, k) == Content(was, k))
    && (forall k :: i + 1 < k <= m ==> (k in now) == (k - 1 in was) && Content(now, k) == Content(was, k - 1))
  }

  lemma MidwayNext<T>(was: Files<T>, now: Files<T>, i: nat, m: nat)
    requires Midway(was, now, i, m) && 1 <= i < m
    ensures Midway(was, Renamed(now, i, i + 1), i - 1, m)
  {
    assert (i in now) == (i in was) && Content(now, i) == Content(was, i);
  }

  lemma MidwayEnds<T>(was: Files<T>, now: Files<T>, m: nat)
    requires Midway(was, now, 0, m) && m > 0 && 0 in was
    ensures IsRotated(was, Renamed(now, 0, 1)[0 := []], m)
  {
    assert (0 in now) == (0 in was) && Content(now, 0) == Content(was, 0);
  }

  lemma {:induction false} RotatedLog<T>(was: Files<T>, now: Files<T>, m: nat, n: nat)
    requires IsRotated(was, now, m) && 0 < n <= m
    ensures Log(now, n) == Log(was, n - 1)
  {
    if n == 1 {
      assert Log(now, 0) == [];
      assert Log(now, 1) == Content(was, 0) + [];
    } else {
      RotatedLog(was, now, m, n - 1);
    }
  }

  /** A rotation forgets the oldest backup, or the current file when none are kept, and nothing else. */
  lemma RotationDropsOldest<T>(was: Files<T>, now: Files<T>, m: nat)
    requires IsRotated(was, now, m)
    ensures Log(was, m) == Content(was, m) + Log(now, m)
  {
    if m > 0 {
      RotatedLog(was, now, m, m);
    } else {
      assert Log(was, 0) == Content(was, 0) + [];
    }
  }

  lemma {:induction false} LogAppend<T>(fs: Files<T>, more: seq<T>, n: nat)
    ensures Log(fs[0 := Content(fs, 0) + more], n) == Log(fs, n) + more
  {
    if n > 0 {
      LogAppend(fs, more, n - 1);
      assert Content(fs, n) + (Log(fs, n - 1) + more) == (Content(fs, n) + Log(fs, n - 1)) + more;
    }
  }

  predicate IsSuffix<T(==)>(s: seq<T>, all: seq<T>) {
    |s| <= |all| && all[|all| - |s|..] == s
  }

  lemma SuffixShrinks<T>(head: seq<T>, s: seq<T>, all: seq<T>)
    requires IsSuffix(head + s, all)
    ensures IsSuffix(s, all)
  {
    assert all[|all| - |s|..] == (head + s)[|head|..];
  }

  lemma SuffixGrows<T>(s: seq<T>, all: seq<T>, more: seq<T>)
    requires IsSuffix(s, all)
    ensures IsSuffix(s + more, all + more)
  {
    assert (all + more)[|all + more| - |s + more|..] == all[|all| - |s|..] + more;
  }

  function Max(a: int, b: int): int {
    if a >= b then a else b
  }

  ghost predicate Holds(files: Files<Byte>, pieces: Files<seq<Byte>>) {
    files.Keys == pieces.Keys && forall k :: k in files ==> files[k] == Flat(pieces[k])
  }

  lemma RotatedHolds(files: Files<Byte>, pieces: Files<seq<Byte>>, files': Files<Byte>, pieces': Files<seq<Byte>>,
                     m: nat)
    requires Holds(files, pieces) && IsRotated(files, files', m) && IsRotated(pieces, pieces', m)
    ensures Holds(files', pieces')
  {
    forall k: nat ensures (k in files') == (k in pieces') && (k in files' ==> files'[k] == Flat(pieces'[k])) {
      if 0 < k <= m {
        assert Content(files', k) == Content(files, k - 1) && Content(pieces', k) == Content(pieces, k - 1);
      } else if k > m && k > 0 {
        assert Content(files', k) == Content(files, k) && Content(pieces', k) == Content(pieces, k);
      }
    }
  }

  lemma RotatedSmall(files: Files<Byte>, files': Files<Byte>, m: nat, begun: set<nat>, bound: int)
    requires IsRotated(files, files', m) && bound >= 0 && forall k :: k in begun && k in files ==> |files[k]| <= bound
    ensures forall k :: k in ShiftedSet(begun, m) && k in files' ==> |files'[k]| <= bound
  {
    forall k | k in ShiftedSet(begun, m) && k in files' ensures |files'[k]| <= bound {
      if 0 < k <= m {
        assert k - 1 in begun && Content(files', k) == Content(files, k - 1);
      } else if k > m && k > 0 {
        assert Content(files', k) == Content(files, k);
      }
    }
  }

  lemma AppendHolds(files: Files<Byte>, pieces: Files<seq<Byte>>, p: seq<Byte>)
    requires Holds(files, pieces) && 0 in files
    ensures Holds(files[0 := files[0] + p], pieces[0 := Content(pieces, 0) + [p]])
  {
    FlatJoin(pieces[0], [p]);
    FlatOne(p);
  }

  // ---------- What is known about the files ----------

  /** Each file as the writes it holds, everything ever in the log, the files begun by a rotation, the longest write. */
  datatype Past = Past(pieces: Files<seq<Byte>>, written: seq<seq<Byte>>, begun: set<nat>, longest: int)

  /** Backups and current file hold whole writes, the last ones ever written; files begun by a rotation stay small. */
  ghost predicate Good(files: Files<Byte>, size: int, past: Past, maxSize: int, m: nat) {
    && 0 in files && size == |files[0]| && past.longest >= 0
    && Holds(files, past.pieces)
    && IsSuffix(Log(past.pieces, m), past.written)
    && (forall k :: k in past.begun && k in files ==> |files[k]| <= Max(maxSize, past.longest))
  }

  ghost function AfterRotation(past: Past, m: nat): Past {
    past.(pieces := Shifted(past.pieces, m), begun := ShiftedSet(past.begun, m))
  }

  ghost function AfterWrite(past: Past, p: seq<Byte>): Past {
    past.(pieces := past.pieces[0 := Content(past.pieces, 0) + [p]],
          written := past.written + [p], longest := Max(past.longest, |p|))
  }

  /** A rotation loses the writes of the oldest file kept and no others. */
  lemma RotationKeeps(files: Files<Byte>, files': Files<Byte>, size: int, past: Past, maxSize: int, m: nat)
    requires Good(files, size, past, maxSize, m) && IsRotated(files, files', m)
    ensures Good(files', 0, AfterRotation(past, m), maxSize, m)
    ensures Log(past.pieces, m) == Content(past.pieces, m) + Log(AfterRotation(past, m).pieces, m)
  {
    var pieces := Shifted(past.pieces, m);
    RotationDropsOldest(past.pieces, pieces, m);
    SuffixShrinks(Content(past.pieces, m), Log(pieces, m), past.written);
    RotatedHolds(files, past.pieces, files', pieces, m);
    RotatedSmall(files, files', m, past.begun, Max(maxSize, past.longest));
  }

  lemma WriteKeeps(files: Files<Byte>, size: int, past: Past, maxSize: int, m: nat, p: seq<Byte>)
    requires Good(files, size, past, maxSize, m) && (size == 0 || size + |p| <= maxSize)
    ensures Good(files[0 := files[0] + p], size + |p|, AfterWrite(past, p), maxSize, m)
    ensures Log(AfterWrite(past, p).pieces, m) == Log(past.pieces, m) + [p]
  {
    AppendHolds(files, past.pieces, p);
    LogAppend(past.pieces, [p], m);
    SuffixGrows(Log(past.pieces, m), past.written, [p]);
  }

  /** Opening takes each existing file as one piece. */
  lemma OpeningIsGood(files: Files<Byte>, maxSize: int, m: nat)
    requires 0 in files
    ensures var pieces := map k | k in files :: [files[k]];
            Good(files, |files[0]|, Past(pieces, Log(pieces, m), {}, 0), maxSize, m)
  {
    forall k | k in files ensures Flat([files[k]]) == files[k] {
      FlatOne(files[k]);
    }
  }

  class RollingFile {
    const maxSize: int
    const maxBackups: int
    var files: Files<Byte>
    var size: int
    ghost var past: Past

    function Kept(): nat {
      if maxBackups > 0 then maxBackups else 0
    }

    ghost predicate Valid()
      reads this
    {
      Good(files, size, past, maxSize, Kept())
    }

    /** Opens the log over whatever files exist. */
    constructor (disk: Files<Byte>, maxSize: int, maxBackups: int)
      ensures Valid() && this.maxSize == maxSize && this.maxBackups == maxBackups
      ensures files == if 0 in disk then disk else disk[0 := []]
      ensures past.pieces == map k | k in files :: [files[k]]
      ensures past.written == Log(past.pieces, Kept()) && past.begun == {} && past.longest == 0
    {
      this.maxSize, this.maxBackups := maxSize, maxBackups;
      var start: Files<Byte> := if 0 in disk then disk else disk[0 := []];
      files, size := start, |start[0]|;
      new;
      OpeningIsGood(files, maxSize, Kept());
      var pieces := map k | k in files :: [files[k]];
      past := Past(pieces, Log(pieces, Kept()), {}, 0);
    }

    /** Renames file i; a file that does not exist is left at that. */
    method Rename(i: nat, j: nat)
      requires i != j
      modifies this`files
      ensures files == Renamed(old(files), i, j)
    {
      if i in files {
        files := files[j := files[i]] - {i};
      }
    }

    /** Shifts the backups up from the highest, moves the current file to 1, and begins an empty one. */
    method ShiftUp()
      requires 0 in files
      modifies this`files
      ensures IsRotated(old(files), files, Kept())
    {
      if maxBackups > 0 {
        ghost var was := files;
        files := files - {maxBackups};
        var i := maxBackups - 1;
        while i >= 1
          invariant 0 <= i < maxBackups && Midway(was, files, i, maxBackups)
        {
          MidwayNext(was, files, i, maxBackups);
          Rename(i, i + 1);
          i := i - 1;
        }
        MidwayEnds(was, files, maxBackups);
        Rename(0, 1);
      }
      files := files[0 := []];
    }

    method Rotate()
      requires Valid()
      modifies this
      ensures Valid() && IsRotated(old(files), files, Kept()) && size == 0 && past == AfterRotation(old(past), Kept())
    {
      ghost var was := files;
      ShiftUp();
      RotationKeeps(was, files, size, past, maxSize, Kept());
      size := 0;
      past := AfterRotation(past, Kept());
    }

    method Append(p: seq<Byte>)
      requires Valid() && (size == 0 || size + |p| <= maxSize)
      modifies this
      ensures Valid() && past == AfterWrite(old(past), p)
      ensures files == old(files)[0 := old(files)[0] + p]
    {
      WriteKeeps(files, size, past, maxSize, Kept(), p);
      files := files[0 := files[0] + p];
      size := size + |p|;
      past := AfterWrite(past, p);
    }

    /** Appends the bytes, after a rotation if the file is not empty and would pass the limit. */
    method Write(p: seq<Byte>) returns (n: nat)
      requires Valid()
      modifies this
      ensures Valid() && n == |p|
      ensures past == Then(old(past), old(size), maxSize, Kept(), p)
    {
      if size > 0 && size + |p| > maxSize {
        Rotate();
      }
      Append(p);
      n := |p|;
    }
  }

  ghost function Then(past: Past, size: int, maxSize: int, m: nat, p: seq<Byte>): Past {
    AfterWrite(if size > 0 && size + |p| > maxSize then AfterRotation(past, m) else past, p)
  }

  /** A write adds itself at the end of the log, and can lose only the oldest file kept. */
  lemma WriteLosesOnlyOldest(files: Files<Byte>, size: int, past: Past, maxSize: int, m: nat, p: seq<Byte>)
    requires Good(files, size, past, maxSize, m)
    ensures var rotates := size > 0 && size + |p| > maxSize;
            Log(past.pieces, m) + [p] ==
            (if rotates then Content(past.pieces, m) else []) + Log(Then(past, size, maxSize, m, p).pieces, m)
  {
    if size > 0 && size + |p| > maxSize {
      var next := AfterRotation(past, m);
      RotationDropsOldest(past.pieces, next.pieces, m);
      LogAppend(next.pieces, [p], m);
      assert Content(past.pieces, m) + (Log(next.pieces, m) + [p]) == Log(past.pieces, m) + [p];
    } else {
      LogAppend(past.pieces, [p], m);
    }
  }

  // ---------- In bytes ----------

  lemma {:induction false} LogInBytes(files: Files<Byte>, pieces: Files<seq<Byte>>, n: nat)
    requires Holds(files, pieces)
    ensures Log(files, n) == Flat(Log(pieces, n))
  {
    assert Content(files, n) == Flat(Content(pieces, n));
    if n > 0 {
      LogInBytes(files, pieces, n - 1);
      FlatJoin(Content(pieces, n), Log(pieces, n - 1));
    }
  }

  /** The bytes on disk, oldest backup first, are the last ever written; what precedes them is whole writes. */
  lemma DiskHoldsLastBytes(files: Files<Byte>, size: int, past: Past, maxSize: int, m: nat)
    requires Good(files, size, past, maxSize, m)
    ensures var lost := past.written[..|past.written| - |Log(past.pieces, m)|];
            Flat(past.written) == Flat(lost) + Log(files, m)
  {
    var kept := Log(past.pieces, m);
    var lost := past.written[..|past.written| - |kept|];
    LogInBytes(files, past.pieces, m);
    assert past.written == lost + kept;
    FlatJoin(lost, kept);
  }
}
