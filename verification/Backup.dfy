/** Bounded, resumable packing of loose objects (src/backup.py). */
module Backup {
  // `MaintainRun` packs an ordered work list chunk by chunk under a bound on objects and a bound on bytes, and
  // adapts both bounds to how the pass went. Git, the clock, memory and the disk are the answers of `Env`.

  import opened Seqs

  /** A loose object: its id and its size in bytes. */
  datatype Obj = Obj(oid: string, bytes: nat)

  datatype Kind = Blob | Tree | Tag | Commit

  function Total(work: seq<Obj>): nat {
    if work == [] then 0 else Total(work[..|work| - 1]) + work[|work| - 1].bytes
  }

  /** One object is always a chunk; more must respect both bounds. */
  predicate Legal(work: seq<Obj>, n: int, b: int) {
    |work| == 1 || (1 <= |work| <= n && Total(work) <= b)
  }

  /** The longest legal chunk the list begins with, no longer than `k`. */
  function LongestUpTo(work: seq<Obj>, n: int, b: int, k: nat): (l: nat)
    requires k <= |work|
    ensures l <= k
  {
    if k <= 1 || Legal(work[..k], n, b) then k else LongestUpTo(work, n, b, k - 1)
  }

  function Longest(work: seq<Obj>, n: int, b: int): (l: nat)
    ensures l <= |work|
  {
     LongestUpTo(work, n, b, |work|)
  }

  /** How many chunks empty the list, taking the longest each time. */
  function Chunks(work: seq<Obj>, n: int, b: int): nat
    decreases |work|
  {
    if work == [] then 0 else
    LongestIs(work, n, b);
    1 + Chunks(work[Longest(work, n, b)..], n, b)
  }

  lemma LongestUpToIs(work: seq<Obj>, n: int, b: int, k: nat)
    requires 1 <= k <= |work|
    ensures 1 <= LongestUpTo(work, n, b, k) <= k && Legal(work[..LongestUpTo(work, n, b, k)], n, b)
    ensures forall j | LongestUpTo(work, n, b, k) < j <= k :: !Legal(work[..j], n, b)
  {}

  lemma LongestIs(work: seq<Obj>, n: int, b: int)
    requires work != []
    ensures 1 <= Longest(work, n, b) <= |work| && Legal(work[..Longest(work, n, b)], n, b)
    ensures forall j | Longest(work, n, b) < j <= |work| :: !Legal(work[..j], n, b)
  {
    LongestUpToIs(work, n, b, |work|);
  }

  lemma TotalSplit(a: seq<Obj>, c: seq<Obj>)
    ensures Total(a + c) == Total(a) + Total(c)
  {
    if c == [] {
      assert a + c == a;
    } else {
      assert (a + c)[..|a + c| - 1] == a + c[..|c| - 1];
      TotalSplit(a, c[..|c| - 1]);
    }
  }

  /** Any nonempty contiguous part of a legal chunk is legal. */
  lemma LegalPart(work: seq<Obj>, i: nat, j: nat, n: int, b: int)
    requires i < j <= |work| && Legal(work, n, b)
    ensures Legal(work[i..j], n, b)
  {
    assert work == work[..i] + work[i..j] + work[j..];
    TotalSplit(work[..i], work[i..j]);
    TotalSplit(work[..i] + work[i..j], work[j..]);
  }

  lemma LegalPrefix(work: seq<Obj>, i: nat, j: nat, n: int, b: int)
    requires 1 <= i <= j <= |work| && Legal(work[..j], n, b)
    ensures Legal(work[..i], n, b)
  {
    LegalPart(work[..j], 0, i, n, b);
    assert work[..j][0..i] == work[..i];
  }

  /** A legal prefix that cannot take one object more is the longest. */
  lemma LongestUnique(work: seq<Obj>, n: int, b: int, k: nat)
    requires 1 <= k <= |work| && Legal(work[..k], n, b) && (k < |work| ==> !Legal(work[..k + 1], n, b))
    ensures Longest(work, n, b) == k
  {
    LongestIs(work, n, b);
    if k < Longest(work, n, b) { LegalPrefix(work, k + 1, Longest(work, n, b), n, b); }
  }

  // ---------------------------------------------------------------- greedy chunking is optimal

  /** The longest chunk of a later start reaches at least as far. */
  lemma LongestReaches(work: seq<Obj>, i: nat, n: int, b: int)
    requires i < Longest(work, n, b)
    ensures i + Longest(work[i..], n, b) >= Longest(work, n, b)
  {
    hide Longest, Legal;
    LongestIs(work, n, b);
    LongestIs(work[i..], n, b);
    var l := Longest(work, n, b);
    LegalPart(work[..l], i, l, n, b);
    SamePart(work, i, l);
  }

  lemma SamePart<T>(s: seq<T>, i: nat, l: nat)
    requires i <= l <= |s|
    ensures s[..l][i..l] == s[i..][..l - i]
  {}

  lemma ChunksStep(work: seq<Obj>, n: int, b: int)
    requires work != []
    ensures 1 <= Longest(work, n, b) <= |work|
    ensures Chunks(work, n, b) == 1 + Chunks(work[Longest(work, n, b)..], n, b)
  {
    LongestIs(work, n, b);
  }

  /** A list needs no more chunks than a list it is the end of. */
  lemma {:induction false} SuffixNeedsNoMore(work: seq<Obj>, i: nat, n: int, b: int)
    requires i <= |work|
    ensures Chunks(work[i..], n, b) <= Chunks(work, n, b)
    decreases |work|
  {
    hide Chunks, Longest;
    if i == 0 {
      assert work[0..] == work;
    } else if i == |work| {
      assert work[i..] == [];
      NoChunks(n, b);
    } else {
      var l, m := Longest(work, n, b), Longest(work[i..], n, b);
      ChunksStep(work, n, b);
      ChunksStep(work[i..], n, b);
      if i >= l {
        SuffixOf(work, l, i - l);
        SuffixNeedsNoMore(work[l..], i - l, n, b);
      } else {
        LongestReaches(work, i, n, b);
        SuffixOf(work, l, i + m - l);
        SuffixOf(work, i, m);
        SuffixNeedsNoMore(work[l..], i + m - l, n, b);
      }
    }
  }

  lemma SuffixOf<T>(s: seq<T>, l: nat, k: nat)
    requires l + k <= |s|
    ensures s[l..][k..] == s[l + k..]
  {}

  lemma NoChunks(n: int, b: int)
    ensures Chunks([], n, b) == 0
  {}

  function Flatten<T>(parts: seq<seq<T>>): seq<T> {
    if parts == [] then [] else parts[0] + Flatten(parts[1..])
  }

  /** No way of cutting the list into contiguous legal chunks has fewer. */
  lemma {:induction false} GreedyIsOptimal(work: seq<Obj>, parts: seq<seq<Obj>>, n: int, b: int)
    requires Flatten(parts) == work && forall p | p in parts :: Legal(p, n, b)
    ensures Chunks(work, n, b) <= |parts|
    decreases |parts|
  {
    if parts != [] {
      var p, rest := parts[0], Flatten(parts[1..]);
      assert p in parts;
      assert work == p + rest && work[..|p|] == p && work[|p|..] == rest;
      GreedyIsOptimal(rest, parts[1..], n, b);
      LongestIs(work, n, b);
      var l := Longest(work, n, b);
      assert |p| <= l;
      hide Legal, Longest, Flatten;
      assert rest[l - |p|..] == work[l..];
      SuffixNeedsNoMore(rest, l - |p|, n, b);
    }
  }

  // ---------------------------------------------------------------- the adaptive bounds

  const MIB: nat := 1024 * 1024

  function Min(x: int, y: int): int { if x < y then x else y }
  function Max(x: int, y: int): int { if x < y then y else x }

  /** A bound after a pass that had to be halved, and after a clean one. */
  function Halved(x: nat, floor: int): int { Max(Min(x, floor), x / 2) }
  function Doubled(x: nat, default: nat): nat { Min(default, x * 2) }

  datatype Bounds = Bounds(n: int, b: int)

  datatype Pass = Halve | Clean | Neither

  /** The bounds saved after one pass; the byte floor is fixed, the object floor comes from the environment. */
  function Adapt(x: Bounds, p: Pass, defaults: Bounds, floor: int): Bounds
    requires x.n > 0 && x.b > 0 && defaults.n > 0 && defaults.b > 0
  {
    match p
    case Halve => Bounds(Halved(x.n, floor), Halved(x.b, 64 * MIB))
    case Clean => Bounds(Doubled(x.n, defaults.n), Doubled(x.b, defaults.b))
    case Neither => x
  }

  ghost predicate Positive(x: Bounds) { x.n > 0 && x.b > 0 }

  /** The bounds stay positive, except that halving one object under a floor below one leaves none. */
  lemma AdaptPositive(x: Bounds, p: Pass, defaults: Bounds, floor: int)
    requires Positive(x) && Positive(defaults)
    ensures Positive(Adapt(x, p, defaults, floor)) <==> !(p == Halve && x.n == 1 && floor < 1)
  {
    assert x.n >= 2 ==> x.n / 2 >= 1;
    assert x.b >= 2 ==> x.b / 2 >= 1;
  }

  /** One object, halved under a floor of zero, leaves none. */
  lemma BoundReachesZero()
    ensures Adapt(Bounds(1, MIB), Halve, Bounds(20000, 1024 * MIB), 0).n == 0
  {}

  /** The bounds after a whole run of passes; bounds that are not positive are refused at the next start. */
  /** Halving never goes below the floor, nor below half, and leaves what is at or below the floor. */
  lemma HalvedIs(x: nat, floor: nat)
    ensures Halved(x, floor) == if x <= floor then x else if x / 2 <= floor then floor else x / 2
  {}

  /** A pass in figures: halved down to the object floor and to sixty-four mebibytes, doubled up to the defaults. */
  lemma AdaptIs(x: Bounds, p: Pass, defaults: Bounds, floor: nat)
    requires x.n > 0 && x.b > 0 && defaults.n > 0 && defaults.b > 0
    ensures var y := Adapt(x, p, defaults, floor);
      match p
      case Halve =>
        && y.n == (if x.n <= floor then x.n else if x.n / 2 <= floor then floor else x.n / 2)
        && y.b == (if x.b <= 67108864 then x.b else if x.b / 2 <= 67108864 then 67108864 else x.b / 2)
      case Clean =>
        && y.n == (if 2 * x.n <= defaults.n then 2 * x.n else defaults.n)
        && y.b == (if 2 * x.b <= defaults.b then 2 * x.b else defaults.b)
      case Neither => y == x
  {}

  function HalvedBy(x: nat, k: nat, floor: nat): nat {
    if k == 0 then x else Halved(HalvedBy(x, k - 1, floor), floor)
  }

  /** Half of half, `k` times. */
  function HalfOf(x: nat, k: nat): nat { if k == 0 then x else HalfOf(x, k - 1) / 2 }

  /** However often it is halved, a bound above the floor ends at that part of it, or at the floor. */
  lemma {:induction false} HalvingsReach(x: nat, k: nat, floor: nat)
    requires x >= floor
    ensures HalvedBy(x, k, floor) == if HalfOf(x, k) >= floor then HalfOf(x, k) else floor
  {
    if k > 0 {
      HalvingsReach(x, k - 1, floor);
      HalvedIs(HalvedBy(x, k - 1, floor), floor);
    }
  }

  function Saved(x: Bounds, passes: seq<Pass>, defaults: Bounds, floor: int): Bounds
    requires defaults.n > 0 && defaults.b > 0
    decreases passes
  {
    if passes == [] || x.n <= 0 || x.b <= 0 then x
    else Saved(Adapt(x, passes[0], defaults, floor), passes[1..], defaults, floor)
  }

  lemma {:induction false} BoundsStayPositive(x: Bounds, passes: seq<Pass>, defaults: Bounds, floor: int)
    requires Positive(x) && Positive(defaults) && floor >= 1
    ensures Positive(Saved(x, passes, defaults, floor))
    decreases passes
  {
    if passes != [] {
      AdaptPositive(x, passes[0], defaults, floor);
      BoundsStayPositive(Adapt(x, passes[0], defaults, floor), passes[1..], defaults, floor);
    }
  }

  function Pow2(k: nat): nat { if k == 0 then 1 else 2 * Pow2(k - 1) }

  function AfterClean(x: Bounds, k: nat, defaults: Bounds, floor: int): Bounds
    requires x.n > 0 && x.b > 0 && defaults.n > 0 && defaults.b > 0
    ensures AfterClean(x, k, defaults, floor).n > 0 && AfterClean(x, k, defaults, floor).b > 0
  {
    if k == 0 then x else Adapt(AfterClean(x, k - 1, defaults, floor), Clean, defaults, floor)
  }

  /** After `k` clean passes each bound is its default, or 2^k times what it was. */
  lemma {:induction false} CleanPassesDouble(x: Bounds, k: nat, defaults: Bounds, floor: int)
    requires Positive(x) && Positive(defaults) && k > 0
    ensures AfterClean(x, k, defaults, floor) == Bounds(Min(defaults.n, x.n * Pow2(k)), Min(defaults.b, x.b * Pow2(k)))
  {
    if k > 1 {
      CleanPassesDouble(x, k - 1, defaults, floor);
      Twice(x.n, k);
      Twice(x.b, k);
    } else {
      assert Pow2(0) == 1 && Pow2(1) == 2;
    }
  }

  lemma Twice(x: nat, k: nat)
    requires k > 0
    ensures x * Pow2(k) == x * Pow2(k - 1) * 2
  {}

  /** So clean passes restore the defaults once their number reaches the binary logarithm of the shortfall. */
  lemma DefaultsReturn(x: Bounds, k: nat, defaults: Bounds, floor: int)
    requires Positive(x) && Positive(defaults) && k > 0
    ensures AfterClean(x, k, defaults, floor) == defaults <==>
            defaults.n <= x.n * Pow2(k) && defaults.b <= x.b * Pow2(k)
  {
    CleanPassesDouble(x, k, defaults, floor);
  }

  // ---------------------------------------------------------------- the packing loop

  datatype Reason = NotStopped | Budget | Memory | Space | Rss | Killed | Prune | GitError

  /** What git made of one chunk: the pack files, or why it stopped and the files it left behind. */
  datatype PackResult = Packed(files: set<string>) | Stopped(reason: Reason, partial: set<string>, late: bool)

  /** One turn of the loop, as the surroundings answer it. */
  datatype Turn = Turn(budgetLeft: bool, memoryOk: bool, free: nat, pack: PackResult, prune: Reason)

  type Env = nat -> Turn

  const RESERVE: nat := 2 * 1024 * MIB

  /** What one pass leaves: the chunks packed, the list left, the pack directory, and why it stopped. */
  datatype Outcome = Outcome(packed: seq<seq<Obj>>, left: seq<Obj>, dir: set<string>, stopped: Reason, halve: bool)

  /** A memory overrun, or a kill after more than half the budget, halves the bounds. */
  predicate Halves(r: PackResult) { r.Stopped? && (r.reason == Rss || (r.reason == Killed && r.late)) }

  function PackFrom(o: Outcome, n: int, b: int, env: Env, turn: nat): Outcome
    decreases |o.left|
  {
    if o.left == [] then o else
    var t := env(turn);
    LongestIs(o.left, n, b);
    var k := Longest(o.left, n, b);
    var chunk := o.left[..k];
    if !t.budgetLeft then o.(stopped := Budget)
    else if !t.memoryOk then o.(stopped := Memory)
    else if t.free < Total(chunk) + RESERVE then o.(stopped := Space, halve := true)
    else if t.pack.Stopped? then o.(stopped := t.pack.reason, halve := Halves(t.pack))
    else
      var next := o.(packed := o.packed + [chunk], left := o.left[k..], dir := o.dir + t.pack.files);
      if t.prune != NotStopped then next.(stopped := t.prune) else PackFrom(next, n, b, env, turn + 1)
  }

  /** One turn of the loop. */
  lemma PackTurn(o: Outcome, n: int, b: int, env: Env, turn: nat)
    requires o.left != []
    ensures var t, k := env(turn), Longest(o.left, n, b);
      && 0 < k <= |o.left|
      && (var chunk := o.left[..k];
          var next := o.(packed := o.packed + [chunk], left := o.left[k..], dir := o.dir + (if t.pack.Packed? then t.pack.files else {}));
          PackFrom(o, n, b, env, turn) ==
            if !t.budgetLeft then o.(stopped := Budget)
            else if !t.memoryOk then o.(stopped := Memory)
            else if t.free < Total(chunk) + RESERVE then o.(stopped := Space, halve := true)
            else if t.pack.Stopped? then o.(stopped := t.pack.reason, halve := Halves(t.pack))
            else if t.prune != NotStopped then next.(stopped := t.prune)
            else PackFrom(next, n, b, env, turn + 1))
  {
    LongestIs(o.left, n, b);
    hide Longest, Legal, Total;
  }

  lemma NothingToPack(o: Outcome, n: int, b: int, env: Env, turn: nat)
    requires o.left == []
    ensures PackFrom(o, n, b, env, turn) == o
  {}

  function PackAll(work: seq<Obj>, dir: set<string>, n: int, b: int, env: Env): Outcome {
    PackFrom(Outcome([], work, dir, NotStopped, false), n, b, env, 0)
  }

  lemma FlattenAppend<T>(parts: seq<seq<T>>, p: seq<T>)
    ensures Flatten(parts + [p]) == Flatten(parts) + p
  {
    if parts == [] {
      assert parts + [p] == [p];
      assert Flatten([p]) == p + Flatten([p][1..]) == p;
    } else {
      assert (parts + [p])[1..] == parts[1..] + [p];
      FlattenAppend(parts[1..], p);
    }
  }

  /** Progress so far: the packed chunks and what is left make up the work, at the greedy count. */
  ghost predicate Progress(o: Outcome, work: seq<Obj>, n: int, b: int) {
    && Flatten(o.packed) + o.left == work
    && (forall p | p in o.packed :: Legal(p, n, b))
    && |o.packed| + Chunks(o.left, n, b) == Chunks(work, n, b)
  }

  lemma ProgressStep(o: Outcome, work: seq<Obj>, n: int, b: int, dir: set<string>)
    requires Progress(o, work, n, b) && o.left != []
    ensures var k := Longest(o.left, n, b);
            Progress(o.(packed := o.packed + [o.left[..k]], left := o.left[k..], dir := dir), work, n, b)
  {
    hide Longest, Flatten, Chunks, Legal;
    LongestIs(o.left, n, b);
    ChunksStep(o.left, n, b);
    var k := Longest(o.left, n, b);
    FlattenAppend(o.packed, o.left[..k]);
    assert o.left == o.left[..k] + o.left[k..];
  }

  lemma {:induction false} PackFromProgress(o: Outcome, work: seq<Obj>, n: int, b: int, env: Env, turn: nat)
    requires Progress(o, work, n, b)
    ensures Progress(PackFrom(o, n, b, env, turn), work, n, b)
    decreases |o.left|
  {
    if o.left != [] {
      LongestIs(o.left, n, b);
      var k, t := Longest(o.left, n, b), env(turn);
      if t.pack.Packed? {
        ProgressStep(o, work, n, b, o.dir + t.pack.files);
        var next := o.(packed := o.packed + [o.left[..k]], left := o.left[k..], dir := o.dir + t.pack.files);
        PackFromProgress(next, work, n, b, env, turn + 1);
      }
      hide Chunks, Flatten, Longest, Legal;
    }
  }

  /**
   Through every pass the packed chunks followed by what is left are the work list, every chunk is legal, and
   the chunks done and those still to do are together as few as they can be.
   */
  lemma PassConserves(work: seq<Obj>, dir: set<string>, n: int, b: int, env: Env)
    ensures Progress(PackAll(work, dir, n, b, env), work, n, b)
  {
    PackFromProgress(Outcome([], work, dir, NotStopped, false), work, n, b, env, 0);
  }

  function FilesOf(env: Env, turns: nat): set<string> {
    if turns == 0 then {}
    else FilesOf(env, turns - 1) + if env(turns - 1).pack.Packed? then env(turns - 1).pack.files else {}
  }

  lemma {:induction false} PackFromFiles(o: Outcome, n: int, b: int, env: Env, turn: nat, dir: set<string>)
    requires |o.packed| == turn && o.dir == dir + FilesOf(env, turn)
    ensures var r := PackFrom(o, n, b, env, turn); r.dir == dir + FilesOf(env, |r.packed|)
    decreases |o.left|
  {
    if o.left == [] { NothingToPack(o, n, b, env, turn); }
    else {
      PackTurn(o, n, b, env, turn);
      hide PackFrom, Longest, Total;
      var k, t := Longest(o.left, n, b), env(turn);
      if t.pack.Packed? {
        MoreFiles(env, turn, dir);
        PackFromFiles(o.(packed := o.packed + [o.left[..k]], left := o.left[k..], dir := o.dir + t.pack.files), n, b, env, turn + 1, dir);
      }
    }
  }

  lemma MoreFiles(env: Env, turn: nat, dir: set<string>)
    requires env(turn).pack.Packed?
    ensures dir + FilesOf(env, turn + 1) == dir + FilesOf(env, turn) + env(turn).pack.files
  {}

  /** A failed chunk leaves the pack directory, like the list, as it was before that chunk. */
  lemma FailedChunkLeavesNothing(work: seq<Obj>, dir: set<string>, n: int, b: int, env: Env)
    ensures var r := PackAll(work, dir, n, b, env); r.dir == dir + FilesOf(env, |r.packed|)
  {
    PackFromFiles(Outcome([], work, dir, NotStopped, false), n, b, env, 0, dir);
  }

  // ---------------------------------------------------------------- the order of the work

  /** The objects other than commits first, in the order listed, then the commits. */
  function Ordered(rows: seq<(string, Kind)>): seq<(string, Kind)> {
    Filter(rows, (r: (string, Kind)) => r.1 != Commit) + Filter(rows, (r: (string, Kind)) => r.1 == Commit)
  }

  lemma OrderedPermutes(rows: seq<(string, Kind)>)
    ensures multiset(Ordered(rows)) == multiset(rows)
  {
    if rows != [] {
      var init, last := rows[..|rows| - 1], rows[|rows| - 1];
      assert rows == init + [last];
      OrderedPermutes(init);
      FilterAppend(init, last, (r: (string, Kind)) => r.1 != Commit);
      FilterAppend(init, last, (r: (string, Kind)) => r.1 == Commit);
    }
  }

  /** No commit is packed before an object of another kind. */
  lemma CommitsLast(rows: seq<(string, Kind)>, i: nat, j: nat)
    requires i < j < |Ordered(rows)| && Ordered(rows)[i].1 == Commit
    ensures Ordered(rows)[j].1 == Commit
  {
    FilterIn(rows, (r: (string, Kind)) => r.1 != Commit);
    FilterIn(rows, (r: (string, Kind)) => r.1 == Commit);
    var others := Filter(rows, (r: (string, Kind)) => r.1 != Commit);
    var commits := Filter(rows, (r: (string, Kind)) => r.1 == Commit);
    assert forall x | 0 <= x < |others| :: others[x] in others && others[x].1 != Commit;
    assert commits[j - |others|] in commits;
  }

  // ---------------------------------------------------------------- counting without cutting

  /** The objects from `start` to before `i` form the chunk in hand, of `size` bytes, if it has begun. */
  ghost predicate InHand(left: seq<Obj>, start: nat, i: nat, size: nat, n: int, b: int) {
    && start <= i <= |left|
    && size == Total(left[start..i]) && (start < i ==> Legal(left[start..i], n, b))
  }

  lemma TakeOne(left: seq<Obj>, start: nat, i: nat, size: nat, n: int, b: int)
    requires InHand(left, start, i, size, n, b) && i < |left|
    requires start < i ==> i - start < n && size + left[i].bytes <= b
    ensures InHand(left, start, i + 1, size + left[i].bytes, n, b)
  {
    assert left[start..i + 1][..i - start] == left[start..i];
  }

  /** The chunk in hand cannot take object `i`: it is the longest, and the next begins there. */
  lemma ChunkEnds(left: seq<Obj>, start: nat, i: nat, size: nat, n: int, b: int)
    requires InHand(left, start, i, size, n, b) && start < i < |left|
    requires i - start >= n || size + left[i].bytes > b
    ensures Chunks(left[start..], n, b) == 1 + Chunks(left[i..], n, b)
    ensures InHand(left, i, i, 0, n, b)
  {
    var rest, count := left[start..], i - start;
    assert rest[..count] == left[start..i];
    assert rest[..count + 1][..count] == rest[..count];
    LongestUnique(rest, n, b, count);
    assert rest[count..] == left[i..];
    assert left[i..i] == [];
  }

  lemma LastChunk(left: seq<Obj>, start: nat, size: nat, n: int, b: int)
    requires InHand(left, start, |left|, size, n, b)
    ensures Chunks(left[start..], n, b) == if start < |left| then 1 else 0
  {
    var rest := left[start..];
    if rest != [] {
      assert rest[..|rest|] == left[start..|left|];
      LongestUnique(rest, n, b, |rest|);
      assert rest[|rest|..] == [];
    }
  }

  lemma NothingInHand(left: seq<Obj>, n: int, b: int)
    ensures InHand(left, 0, 0, 0, n, b) && left[0..] == left
  {
    assert left[0..0] == [];
  }

  // ---------------------------------------------------------------- the run itself

  class MaintainRun {
    const defaults: Bounds
    const floor: int
    var n: int
    var b: int
    var left: seq<Obj>
    var done: nat
    var chunksLeft: nat
    var stopped: Reason
    var halve: bool
    var dir: set<string>
    ghost var packed: seq<seq<Obj>>

    ghost predicate Valid()
      reads this`n, this`b
    {
      defaults.n > 0 && defaults.b > 0 && n > 0 && b > 0
    }

    constructor (n: int, b: int, defaults: Bounds, floor: int, dir: set<string>)
      requires n > 0 && b > 0 && defaults.n > 0 && defaults.b > 0
      ensures Valid() && this.n == n && this.b == b && this.defaults == defaults && this.floor == floor
      ensures left == [] && done == 0 && packed == [] && stopped == NotStopped && !halve && this.dir == dir
    {
      this.n, this.b, this.defaults, this.floor, this.dir := n, b, defaults, floor, dir;
      left, done, chunksLeft, stopped, halve, packed := [], 0, 0, NotStopped, false, [];
    }

    /** The next chunk: the longest legal prefix, and its size. */
    method Chunk(work: seq<Obj>) returns (chunk: seq<Obj>, size: nat)
      requires work != []
      ensures chunk == work[..Longest(work, n, b)] && size == Total(chunk)
    {
      var end := 0;
      size := 0;
      while end < |work|
        invariant 0 <= end <= |work| && size == Total(work[..end])
        invariant end > 0 ==> Legal(work[..end], n, b)
      {
        assert work[..end + 1][..end] == work[..end];
        var bytes := work[end].bytes;
        if end > 0 && (end >= n || size + bytes > b) {
          break;
        }
        end, size := end + 1, size + bytes;
      }
      chunk := work[..end];
      LongestUnique(work, n, b, end);
    }

    /** Counts the chunks still to do without cutting them. */
    method CountChunksLeft() returns (chunks: nat)
      ensures chunks == Chunks(left, n, b)
    {
      var count: nat, size: nat := 0, 0;
      chunks := 0;
      ghost var start := 0;
      NothingInHand(left, n, b);
      hide InHand, Chunks;
      for i := 0 to |left|
        invariant start <= i && count == i - start && InHand(left, start, i, size, n, b)
        invariant chunks + Chunks(left[start..], n, b) == Chunks(left, n, b)
      {
        var bytes := left[i].bytes;
        if count > 0 && (count >= n || size + bytes > b) {
          ChunkEnds(left, start, i, size, n, b);
          chunks := chunks + 1;
          count, size, start := 0, 0, i;
        }
        TakeOne(left, start, i, size, n, b);
        count, size := count + 1, size + bytes;
      }
      LastChunk(left, start, size, n, b);
      chunks := chunks + if count > 0 then 1 else 0;
    }

    /** One chunk's run of git: on any failure the files it created are removed again. */
    method PackChunk(t: Turn)
      requires stopped == NotStopped && !halve
      modifies this`dir, this`stopped, this`halve
      ensures t.pack.Packed? ==> dir == old(dir) + t.pack.files && stopped == NotStopped && !halve
      ensures t.pack.Stopped? ==> dir == old(dir) && stopped == t.pack.reason && halve == Halves(t.pack)
    {
      var existing := dir;
      match t.pack
      case Packed(files) =>
        dir := dir + files;
      case Stopped(reason, partial, late) =>
        dir := dir + partial;
        var created := dir - existing;
        dir := dir - created;
        assert dir == existing;
        halve := reason == Rss || (reason == Killed && late);
        stopped := reason;
    }

    /** The body of the packing loop; false when it leaves the loop. */
    method PackOne(env: Env) returns (more: bool)
      requires Valid() && done == |packed| && stopped == NotStopped && !halve && left != []
      modifies this`left, this`done, this`stopped, this`halve, this`dir, this`packed
      ensures Valid() && done == |packed| && n == old(n) && b == old(b)
      ensures more ==> stopped == NotStopped && !halve && |left| < |old(left)|
      ensures (if more then PackFrom(Outcome(packed, left, dir, NotStopped, false), n, b, env, done) else Outcome(packed, left, dir, stopped, halve))
           == old(PackFrom(Outcome(packed, left, dir, NotStopped, false), n, b, env, done))
    {
      var t := env(done);
      PackTurn(Outcome(packed, left, dir, NotStopped, false), n, b, env, done);
      hide *;
      if !t.budgetLeft {
        stopped := Budget;
        return false;
      }
      if !t.memoryOk {
        stopped := Memory;
        return false;
      }
      var chunk, size := Chunk(left);
      if t.free < size + RESERVE {
        halve := true;
        stopped := Space;
        return false;
      }
      PackChunk(t);
      if t.pack.Stopped? {
        return false;
      }
      more := Advance(chunk, t);
    }

    /** The chunk is done; a prune that fails still ends the loop. */
    method Advance(chunk: seq<Obj>, t: Turn) returns (more: bool)
      requires chunk <= left && stopped == NotStopped
      modifies this`left, this`done, this`stopped, this`packed
      ensures done == old(done) + 1 && packed == old(packed) + [chunk] && left == old(left)[|chunk|..]
      ensures stopped == t.prune && (more <==> t.prune == NotStopped)
    {
      done := done + 1;
      packed := packed + [chunk];
      left := left[|chunk|..];
      if t.prune != NotStopped { stopped := t.prune; }
      more := t.prune == NotStopped;
    }

    /** The packing loop of one pass over an ordered work list. */
    method PackLoop(work: seq<Obj>, env: Env)
      requires Valid() && done == 0 && packed == [] && stopped == NotStopped && !halve
      modifies this`left, this`done, this`stopped, this`halve, this`dir, this`packed
      ensures Valid() && done == |packed|
      ensures Outcome(packed, left, dir, stopped, halve) == PackAll(work, old(dir), n, b, env)
    {
      left := work;
      ghost var goal := PackAll(work, dir, n, b, env);
      hide PackFrom;
      while left != []
        invariant Valid() && done == |packed| && stopped == NotStopped && !halve
        invariant PackFrom(Outcome(packed, left, dir, NotStopped, false), n, b, env, done) == goal
        decreases |left|
      {
        var more := PackOne(env);
        if !more { return; }
      }
      NothingToPack(Outcome(packed, left, dir, NotStopped, false), n, b, env, done);
    }

    /** The end of a pass: counts what is left under the old bounds, then adapts them. */
    method Finish()
      requires Valid()
      modifies this`n, this`b, this`chunksLeft
      ensures chunksLeft == Chunks(left, old(n), old(b))
      ensures Bounds(n, b) == Adapt(Bounds(old(n), old(b)),
                if halve then Halve else if done > 0 && (stopped == NotStopped || stopped == Budget) then Clean else Neither,
                defaults, floor)
      ensures floor >= 1 ==> Valid()
    {
      chunksLeft := CountChunksLeft();
      if halve {
        n := Max(Min(n, floor), n / 2);
        b := Max(Min(b, 64 * MIB), b / 2);
      } else if done > 0 && (stopped == NotStopped || stopped == Budget) {
        n := Min(defaults.n, n * 2);
        b := Min(defaults.b, b * 2);
      }
      AdaptPositive(Bounds(old(n), old(b)), if halve then Halve else Neither, defaults, floor);
    }
  }

  // ---------------------------------------------------------------- what a chunk is

  function Sum(sizes: seq<nat>): nat { if sizes == [] then 0 else sizes[0] + Sum(sizes[1..]) }

  lemma {:induction false} SumPush(sizes: seq<nat>, x: nat)
    ensures Sum(sizes + [x]) == Sum(sizes) + x
  {
    if sizes != [] {
      assert (sizes + [x])[1..] == sizes[1..] + [x];
      SumPush(sizes[1..], x);
    }
  }

  function Sizes(work: seq<Obj>): seq<nat> { seq(|work|, i requires 0 <= i < |work| => work[i].bytes) }

  lemma {:induction false} TotalIs(work: seq<Obj>)
    ensures Total(work) == Sum(Sizes(work))
  {
    if work != [] {
      var init, last := work[..|work| - 1], work[|work| - 1];
      TotalIs(init);
      SumPush(Sizes(init), last.bytes);
      assert Sizes(work) == Sizes(init) + [last.bytes];
    }
  }

  /** A chunk is one object, or some that are within both bounds: `n` objects and `b` bytes in all. */
  lemma LegalIs(work: seq<Obj>, n: int, b: int)
    ensures Legal(work, n, b) <==> |work| == 1 || (|work| > 1 && |work| <= n && Sum(Sizes(work)) <= b)
  { TotalIs(work); }
}
