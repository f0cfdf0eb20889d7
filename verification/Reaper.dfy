/** Two-phase deletion of an inventoried tree (`_inventory`, `_remove`, src/disk_reaper.py). */
module Reaper {
  import opened Seqs

  // ---------------------------------------------------------------- the disk

  /** Names are compared for equality only; a path is its list of names, `[]` is `/`. */
  type Name = nat
  type Path = seq<Name>

  datatype Kind = Directory | Regular | Symlink | Special
  datatype Mode = Mode(kind: Kind, writable: bool)
  datatype Stat = Stat(dev: nat, ino: nat, mode: Mode, uid: nat, size: nat, mtime: nat, ctime: nat)

  /** `_identity`: everything the check compares; a link count or a change time is not in it. */
  datatype Ident = Ident(dev: nat, ino: nat, mode: Mode, uid: nat, size: nat, mtime: nat)

  function Identity(st: Stat): Ident { Ident(st.dev, st.ino, st.mode, st.uid, st.size, st.mtime) }

  /** What no deletion changes: the first four parts of the identity. */
  predicate SameOwner(a: Stat, b: Stat) { a.dev == b.dev && a.ino == b.ino && a.mode == b.mode && a.uid == b.uid }

  type Files = map<Path, Stat>

  function Parent(p: Path): Path
    requires p != []
  { p[..|p| - 1] }

  predicate IsDir(st: Stat) { st.mode.kind == Directory }

  /** Every entry stands in a directory. */
  predicate Tree(fs: Files) {
    && [] in fs
    && forall p | p in fs && p != [] :: Parent(p) in fs && IsDir(fs[Parent(p)])
  }

  /** Entries at or below `p`. */
  function Below(fs: Files, p: Path): Files { map q | q in fs && p <= q :: fs[q] }

  function Children(fs: Files, p: Path): set<Name> {
    set q | q in fs && |q| == |p| + 1 && p <= q :: q[|p|]
  }

  lemma {:induction false} Ancestor(fs: Files, p: Path, q: Path)
    requires Tree(fs) && q in fs && p <= q
    ensures p in fs
    ensures p != q ==> IsDir(fs[p]) && q[|p|] in Children(fs, p) && p + [q[|p|]] in fs && p + [q[|p|]] <= q
    decreases |q|
  {
    if p != q {
      Ancestor(fs, p, Parent(q));
      if |q| == |p| + 1 { assert p + [q[|p|]] == q; assert Parent(q) == p; }
    }
  }

  lemma StandsIn(fs: Files, q: Path)
    requires q in fs && q != []
    ensures q[|q| - 1] in Children(fs, Parent(q))
  { assert Parent(q) <= q; }

  /** Going down one name leaves strictly fewer entries below. */
  lemma Descend(fs: Files, p: Path, n: Name)
    requires p in fs
    ensures |Below(fs, p + [n]).Keys| < |Below(fs, p).Keys|
  {
    var inner, outer := Below(fs, p + [n]).Keys, Below(fs, p).Keys;
    assert p in outer && p !in inner;
    forall q | q in inner ensures q in outer { assert p <= p + [n] <= q; }
    Smaller(inner, outer - {p});
  }

  // ---------------------------------------------------------------- the inventory

  /** On the device of the parent, no mount point, and of the wanted user. */
  predicate Admissible(q: Path, st: Stat, device: nat, mounts: set<Path>, uid: nat) {
    st.dev == device && q !in mounts && st.uid == uid
  }

  predicate Fine(m: Files, device: nat, mounts: set<Path>, uid: nat) {
    forall q | q in m :: Admissible(q, m[q], device, mounts, uid)
  }

  /** `p` and what is below the names in `done`. */
  function Covered(fs: Files, p: Path, done: set<Name>): Files {
    map q | q in fs && p <= q && (p == q || q[|p|] in done) :: fs[q]
  }

  lemma CoveredNone(fs: Files, p: Path)
    requires p in fs
    ensures Covered(fs, p, {}) == map[p := fs[p]]
  {}

  lemma CoveredNext(fs: Files, p: Path, done: set<Name>, n: Name)
    ensures Covered(fs, p, done + {n}) == Covered(fs, p, done) + Below(fs, p + [n])
  {
    forall q | q in Below(fs, p + [n]) ensures q in Covered(fs, p, done + {n}) { assert p <= p + [n] <= q; }
    forall q | q in fs && p <= q && p != q && q[|p|] == n ensures p + [n] <= q {}
  }

  lemma CoveredAll(fs: Files, p: Path)
    requires Tree(fs) && p in fs
    ensures Covered(fs, p, Children(fs, p)) == Below(fs, p)
  {
    forall q | q in fs && p <= q && p != q ensures q[|p|] in Children(fs, p) { Ancestor(fs, p, q); }
  }

  lemma Leaf(fs: Files, p: Path)
    requires Tree(fs) && p in fs && !IsDir(fs[p])
    ensures Below(fs, p) == map[p := fs[p]]
  { forall q | q in fs && p <= q ensures p == q { Ancestor(fs, p, q); } }

  lemma ChildIn(fs: Files, p: Path, n: Name)
    requires n in Children(fs, p)
    ensures p + [n] in fs
  { var q :| q in fs && |q| == |p| + 1 && p <= q && q[|p|] == n; assert q == p + [n]; }

  lemma FineUnion(a: Files, b: Files, device: nat, mounts: set<Path>, uid: nat)
    ensures Fine(a, device, mounts, uid) && Fine(b, device, mounts, uid) ==> Fine(a + b, device, mounts, uid)
  {}

  lemma FineOne(fs: Files, p: Path, device: nat, mounts: set<Path>, uid: nat)
    requires p in fs && Admissible(p, fs[p], device, mounts, uid)
    ensures Fine(map[p := fs[p]], device, mounts, uid)
  {}

  lemma FineParts(fs: Files, p: Path, n: Name, device: nat, mounts: set<Path>, uid: nat)
    requires p in fs && Fine(Below(fs, p), device, mounts, uid)
    ensures Admissible(p, fs[p], device, mounts, uid) && Fine(Below(fs, p + [n]), device, mounts, uid)
  {
    assert p in Below(fs, p);
    forall q | q in Below(fs, p + [n]) ensures q in Below(fs, p) { assert p <= p + [n] <= q; }
  }

  /** The inner function `visit`: it succeeds exactly when every entry at or below `p` is admissible, and then
      has recorded exactly those entries. */
  method Visit(fs: Files, p: Path, device: nat, mounts: set<Path>, uid: nat) returns (ok: bool, records: Files)
    requires Tree(fs) && p in fs
    ensures ok <==> Fine(Below(fs, p), device, mounts, uid)
    ensures ok ==> records == Below(fs, p)
    decreases |Below(fs, p).Keys|, 2
  {
    records := map[p := fs[p]];
    ok := Admissible(p, fs[p], device, mounts, uid);
    if !ok {
      if Fine(Below(fs, p), device, mounts, uid) { FineParts(fs, p, 0, device, mounts, uid); }
      return;
    }
    if !IsDir(fs[p]) { Leaf(fs, p); return; }
    ok, records := VisitEntries(fs, p, device, mounts, uid);
  }

  /** One entry of the listing: its inventory is added to that of the entries before it. */
  method VisitOne(fs: Files, p: Path, n: Name, ghost done: set<Name>, records: Files, device: nat, mounts: set<Path>, uid: nat)
    returns (ok: bool, now: Files)
    requires Tree(fs) && p in fs && n in Children(fs, p)
    requires records == Covered(fs, p, done) && Fine(records, device, mounts, uid)
    ensures ok ==> now == Covered(fs, p, done + {n}) && Fine(now, device, mounts, uid)
    ensures !ok ==> !Fine(Below(fs, p), device, mounts, uid)
    decreases |Below(fs, p).Keys|, 0
  {
    Descend(fs, p, n);
    ChildIn(fs, p, n);
    hide *;
    var inner;
    ok, inner := Visit(fs, p + [n], device, mounts, uid);
    now := records + inner;
    if ok {
      CoveredNext(fs, p, done, n);
      FineUnion(records, inner, device, mounts, uid);
    } else if Fine(Below(fs, p), device, mounts, uid) {
      FineParts(fs, p, n, device, mounts, uid);
    }
  }

  /** The loop of `visit` over the listing of a directory, in any order. */
  method VisitEntries(fs: Files, p: Path, device: nat, mounts: set<Path>, uid: nat) returns (ok: bool, records: Files)
    requires Tree(fs) && p in fs && Admissible(p, fs[p], device, mounts, uid)
    ensures ok <==> Fine(Below(fs, p), device, mounts, uid)
    ensures ok ==> records == Below(fs, p)
    decreases |Below(fs, p).Keys|, 1
  {
    hide *;
    ok, records := true, map[p := fs[p]];
    FineOne(fs, p, device, mounts, uid);
    CoveredNone(fs, p);
    ghost var done: set<Name> := {};
    var left := Children(fs, p);
    while left != {}
      invariant ok && left + done == Children(fs, p)
      invariant records == Covered(fs, p, done) && Fine(records, device, mounts, uid)
      decreases left
    {
      var n :| n in left;
      ok, records := VisitOne(fs, p, n, done, records, device, mounts, uid);
      if !ok { return; }
      left, done := left - {n}, done + {n};
    }
    CoveredAll(fs, p);
  }

  // ---------------------------------------------------------------- what the check decides

  /** What an inventory of `root` is: `root` and, with every entry, the directory it stands in. */
  predicate Inventoried(records: Files, root: Path) {
    && root in records
    && forall q | q in records && q != root :: root < q && Parent(q) in records && IsDir(records[Parent(q)])
  }

  lemma InventoryIs(fs: Files, p: Path)
    requires Tree(fs) && p in fs
    ensures Inventoried(Below(fs, p), p)
  {}

  lemma {:induction false} RecordedAncestor(records: Files, root: Path, p: Path, q: Path)
    requires Inventoried(records, root) && root <= p <= q && q in records
    ensures p in records
    ensures p != q ==> IsDir(records[p]) && q[|p|] in Children(records, p) && p + [q[|p|]] in records && p + [q[|p|]] <= q
    decreases |q|
  {
    if p != q {
      RecordedAncestor(records, root, p, Parent(q));
      if |q| == |p| + 1 { assert p + [q[|p|]] == q; assert Parent(q) == p; }
    }
  }

  /** The tree below `p` is the recorded one: the same entries, each with the recorded identity. */
  predicate Match(fs: Files, records: Files, p: Path) {
    && (forall q | q in fs && p <= q :: q in records && Identity(fs[q]) == Identity(records[q]))
    && (forall q | q in records && p <= q :: q in fs)
  }

  /** Every entry at or below `p` stands in a directory the process may write. */
  predicate Removable(fs: Files, p: Path)
    requires Tree(fs)
  {
    forall q | q in fs && p <= q && q != [] :: fs[Parent(q)].mode.writable
  }

  lemma MatchDown(fs: Files, records: Files, p: Path, n: Name)
    requires Match(fs, records, p)
    ensures Match(fs, records, p + [n])
  {
    forall q | q in fs && p + [n] <= q ensures p <= q { assert p <= p + [n] <= q; }
    forall q | q in records && p + [n] <= q ensures p <= q { assert p <= p + [n] <= q; }
  }

  lemma MatchChildren(fs: Files, records: Files, p: Path)
    requires Match(fs, records, p)
    ensures Children(fs, p) == Children(records, p)
  {}

  lemma MatchUp(fs: Files, records: Files, root: Path, p: Path)
    requires Tree(fs) && Inventoried(records, root) && root <= p && p in fs && p in records
    requires Identity(fs[p]) == Identity(records[p])
    requires IsDir(fs[p]) ==> Children(fs, p) == Children(records, p)
    requires IsDir(fs[p]) ==> forall n | n in Children(fs, p) :: Match(fs, records, p + [n])
    ensures Match(fs, records, p)
  {
    forall q | q in fs && p <= q ensures q in records && Identity(fs[q]) == Identity(records[q]) {
      if p != q { Ancestor(fs, p, q); assert Match(fs, records, p + [q[|p|]]); }
    }
    forall q | q in records && p <= q ensures q in fs {
      if p != q { RecordedAncestor(records, root, p, q); assert Match(fs, records, p + [q[|p|]]); }
    }
  }

  // ---------------------------------------------------------------- what removal may change

  /** The whole effect removing at `p` can have, finished or not: only entries below `p` go, each of them
      recorded with the identity it had; outside, only the stamps of the parent change. */
  predicate Confined(was: Files, fs: Files, records: Files, p: Path)
    requires p != []
  {
    && Tree(fs)
    && fs.Keys <= was.Keys
    && (forall q | q in was && q !in fs :: p <= q && q in records && Identity(was[q]) == Identity(records[q]))
    && (forall q | q in fs :: SameOwner(was[q], fs[q]))
    && (forall q | q in fs && !(p <= q) && q != Parent(p) :: Identity(was[q]) == Identity(fs[q]))
  }

  /** Nothing at or below `p` is left. */
  predicate Gone(fs: Files, p: Path) { forall q | q in fs :: !(p <= q) }

  /** The children in `done` have been removed from the directory `p`, and nothing else has. */
  predicate Emptied(was: Files, fs: Files, p: Path, done: set<Name>) {
    && Tree(fs) && p in fs && p in was
    && fs.Keys <= was.Keys
    && (forall q | q in was && q !in fs :: p < q && q[|p|] in done)
    && (forall q | q in fs && p < q :: q[|p|] !in done)
    && SameOwner(was[p], fs[p])
    && (forall q | q in fs && q != p :: Identity(was[q]) == Identity(fs[q]))
  }

  lemma EmptiedMatch(was: Files, fs: Files, records: Files, p: Path, done: set<Name>, n: Name)
    requires Emptied(was, fs, p, done) && n !in done
    ensures Match(fs, records, p + [n]) <==> Match(was, records, p + [n])
  {
    forall q | p + [n] <= q && q in was ensures q in fs && Identity(fs[q]) == Identity(was[q]) {
      assert p < q && q[|p|] == n;
    }
  }

  lemma EmptiedRemovable(was: Files, fs: Files, p: Path, done: set<Name>, n: Name)
    requires Tree(was) && Emptied(was, fs, p, done) && n !in done
    ensures Removable(fs, p + [n]) <==> Removable(was, p + [n])
  {
    forall q | p + [n] <= q && q in was ensures q in fs && fs[Parent(q)].mode == was[Parent(q)].mode {
      assert p < q && q[|p|] == n;
    }
  }

  lemma EmptiedNext(was: Files, fs: Files, now: Files, records: Files, p: Path, done: set<Name>, n: Name)
    requires Emptied(was, fs, p, done) && n !in done
    requires Confined(fs, now, records, p + [n]) && Gone(now, p + [n])
    ensures Emptied(was, now, p, done + {n})
  {
    var child := p + [n];
    assert Parent(child) == p;
    assert p in now by { assert !(child <= p); }
    forall q | q in now && p < q ensures q[|p|] !in done + {n} { assert q[|p|] == n ==> child <= q; }
    forall q | q in was && q !in now ensures p < q && q[|p|] in done + {n} {
      if q in fs { assert child <= q; assert p < q; }
    }
  }

  /** Whatever has gone was recorded with the identity it had. */
  predicate Recorded(was: Files, fs: Files, records: Files) {
    forall q | q in was && q !in fs :: q in records && Identity(was[q]) == Identity(records[q])
  }

  lemma RecordedNext(was: Files, fs: Files, now: Files, records: Files, p: Path, done: set<Name>, n: Name)
    requires Emptied(was, fs, p, done) && Recorded(was, fs, records)
    requires Confined(fs, now, records, p + [n])
    ensures Recorded(was, now, records)
  {
    forall q | q in was && q !in now ensures q in records && Identity(was[q]) == Identity(records[q]) {
      if q in fs { assert p + [n] <= q; assert q != p; }
    }
  }

  lemma EmptiedNone(fs: Files, records: Files, p: Path)
    requires Tree(fs) && p in fs
    ensures Emptied(fs, fs, p, {}) && Recorded(fs, fs, records)
  {}

  /** A failure below one child is confined below the directory. */
  lemma ConfinedUp(was: Files, fs: Files, now: Files, records: Files, p: Path, done: set<Name>, n: Name)
    requires p != [] && Emptied(was, fs, p, done)
    requires Confined(fs, now, records, p + [n]) && Recorded(was, now, records)
    ensures Confined(was, now, records, p)
  {
    var child := p + [n];
    assert Parent(child) == p;
    forall q | q in was && q !in now ensures p <= q { if q in fs { assert child <= q; } }
    forall q | q in now && !(p <= q) && q != Parent(p) ensures Identity(was[q]) == Identity(now[q]) {
      assert child <= q ==> p <= q;
    }
  }

  lemma RemovableDown(fs: Files, p: Path, n: Name)
    requires Tree(fs) && p in fs && n in Children(fs, p) && Removable(fs, p)
    ensures Removable(fs, p + [n])
  { forall q | q in fs && p + [n] <= q ensures p <= q { assert p <= p + [n] <= q; } }

  lemma RemovableUp(fs: Files, p: Path)
    requires Tree(fs) && p in fs && p != []
    requires forall n | n in Children(fs, p) :: Removable(fs, p + [n])
    requires fs[Parent(p)].mode.writable
    ensures Removable(fs, p)
  {
    forall q | q in fs && p <= q && q != [] ensures fs[Parent(q)].mode.writable {
      if p != q { Ancestor(fs, p, q); }
    }
  }

  lemma EmptiedAll(was: Files, fs: Files, records: Files, p: Path)
    requires Emptied(was, fs, p, Children(was, p)) && Tree(was)
    ensures Children(fs, p) == {}
    ensures forall q | q in fs && p <= q :: q == p
    ensures p != [] ==> Parent(p) in was && Parent(p) in fs && fs[Parent(p)].mode == was[Parent(p)].mode
  {
    forall q | q in fs && p <= q ensures q == p { if p != q { Ancestor(was, p, q); } }
  }

  /** The one entry `p` goes; only the stamps of its parent and change times move. */
  predicate OneLess(fs: Files, now: Files, p: Path)
    requires p != []
  {
    && Tree(now) && p in fs && now.Keys == fs.Keys - {p}
    && (forall q | q in now :: SameOwner(fs[q], now[q]))
    && (forall q | q in now && q != Parent(p) :: Identity(fs[q]) == Identity(now[q]))
  }

  lemma Dropped(was: Files, fs: Files, now: Files, records: Files, p: Path)
    requires p != [] && Tree(was) && Emptied(was, fs, p, Children(was, p)) && Recorded(was, fs, records)
    requires OneLess(fs, now, p)
    requires p in records && p in was && Identity(was[p]) == Identity(records[p])
    ensures Confined(was, now, records, p) && Gone(now, p)
  { EmptiedAll(was, fs, records, p); }

  lemma LeafIs(fs: Files, records: Files, root: Path, p: Path)
    requires Tree(fs) && Inventoried(records, root) && root <= p && p != [] && p in records
    requires p in fs && Identity(fs[p]) == Identity(records[p]) && !IsDir(fs[p])
    ensures Parent(p) in fs && Children(fs, p) == {} && Match(fs, records, p)
    ensures Removable(fs, p) <==> fs[Parent(p)].mode.writable
  {
    Leaf(fs, p);
    forall q | q in fs && p <= q ensures q == p { assert q in Below(fs, p); }
    MatchUp(fs, records, root, p);
    hide Match;
    if fs[Parent(p)].mode.writable { RemovableUp(fs, p); }
  }

  lemma LeafDropped(was: Files, now: Files, records: Files, p: Path)
    requires p != [] && Tree(was) && p in was && Children(was, p) == {} && OneLess(was, now, p)
    requires p in records && Identity(was[p]) == Identity(records[p])
    ensures Confined(was, now, records, p) && Gone(now, p)
  { forall q | q in was && p <= q ensures q == p { if p != q { Ancestor(was, p, q); } } }

  lemma Undropped(was: Files, fs: Files, records: Files, p: Path)
    requires p != [] && Emptied(was, fs, p, Children(was, p)) && Recorded(was, fs, records)
    ensures Confined(was, fs, records, p)
  {}

  lemma ConfinedSame(fs: Files, records: Files, p: Path)
    requires Tree(fs) && p != []
    ensures Confined(fs, fs, records, p)
  {}

  function Restamp(st: Stat, parent: bool, sameInode: bool, clock: nat): Stat {
    if parent then st.(size := st.size / 2, mtime := clock, ctime := clock)
    else if sameInode then st.(ctime := clock) else st
  }

  function Without(fs: Files, p: Path, clock: nat): Files
    requires p in fs && p != []
  { map q | q in fs && q != p :: Restamp(fs[q], q == Parent(p), fs[q].ino == fs[p].ino, clock) }

  lemma WithoutIs(fs: Files, p: Path, clock: nat)
    requires Tree(fs) && p in fs && p != [] && Children(fs, p) == {}
    ensures OneLess(fs, Without(fs, p, clock), p)
  { forall q | q in fs && q != [] ensures Parent(q) != p { StandsIn(fs, q); } }

  // ---------------------------------------------------------------- field by field

  /** Nothing about the entry that a change to it leaves behind has changed. */
  predicate SameEntry(a: Stat, b: Stat) {
    && a.dev == b.dev && a.ino == b.ino && a.mode == b.mode && a.uid == b.uid
    && a.size == b.size && a.mtime == b.mtime
  }

  /** The same names at and below `p`, and the same entries under them. */
  ghost predicate AsRecorded(fs: Files, records: Files, p: Path) {
    && (forall q | p <= q :: q in fs <==> q in records)
    && (forall q | p <= q && q in fs && q in records :: SameEntry(fs[q], records[q]))
  }

  /** Every entry at or below `p` stands in a directory that may be written. */
  ghost predicate Erasable(fs: Files, p: Path) {
    forall q | q in fs && p <= q && |q| > 0 && q[..|q| - 1] in fs :: fs[q[..|q| - 1]].mode.writable
  }

  /** Every entry at or below `p` is on the device, no mount point, and the user's. */
  ghost predicate Owned(fs: Files, p: Path, device: nat, mounts: set<Path>, uid: nat) {
    forall q | q in fs && p <= q :: fs[q].dev == device && q !in mounts && fs[q].uid == uid
  }

  lemma MatchIs(fs: Files, records: Files, p: Path)
    ensures Match(fs, records, p) <==> AsRecorded(fs, records, p)
  {}

  lemma RemovableIs(fs: Files, p: Path)
    requires Tree(fs)
    ensures Removable(fs, p) <==> Erasable(fs, p)
  {}

  lemma FineIs(fs: Files, p: Path, device: nat, mounts: set<Path>, uid: nat)
    ensures Fine(Below(fs, p), device, mounts, uid) <==> Owned(fs, p, device, mounts, uid)
  {
    forall q ensures q in Below(fs, p) <==> q in fs && p <= q {}
  }

  lemma BelowIs(fs: Files, was: Files, p: Path)
    ensures AsRecorded(fs, Below(was, p), p) <==> AsRecorded(fs, was, p)
  { hide SameEntry; }

  /** What is confined, in those terms: only entries as recorded are deleted, and what stands elsewhere stays. */
  ghost predicate Spared(was: Files, now: Files, records: Files, p: Path)
    requires p != []
  {
    && now.Keys <= was.Keys
    && (forall q | q in was && q !in now :: p <= q && q in records && SameEntry(was[q], records[q]))
    && (forall q | q in now && !(p <= q) && q != Parent(p) :: SameEntry(was[q], now[q]))
  }

  lemma SparedBelow(was: Files, now: Files, records: Files, p: Path)
    requires p != [] && Spared(was, now, Below(records, p), p)
    ensures Spared(was, now, records, p)
  { hide SameEntry; }

  lemma IdentityIs(a: Stat, b: Stat)
    ensures Identity(a) == Identity(b) <==> SameEntry(a, b)
  {}

  lemma ConfinedIs(was: Files, now: Files, records: Files, p: Path)
    requires p != [] && Confined(was, now, records, p)
    ensures Spared(was, now, records, p)
  {}

  /** The loop over a directory's entries: those done match, and unless the pass is dry they are gone. */
  ghost predicate Progress(was: Files, now: Files, records: Files, p: Path, left: set<Name>, done: set<Name>, dry: bool)
    requires Tree(was)
  {
    && left + done == Children(was, p) && done !! left
    && (dry ==> now == was)
    && Emptied(was, now, p, if dry then {} else done) && Recorded(was, now, records)
    && (forall n | n in done :: Match(was, records, p + [n]) && (dry || Removable(was, p + [n])))
  }

  lemma ProgressStart(was: Files, records: Files, p: Path, dry: bool)
    requires Tree(was) && p in was
    ensures Progress(was, was, records, p, Children(was, p), {}, dry)
  {
    EmptiedNone(was, records, p);
    hide Emptied, Recorded, Match, Removable, Children;
  }

  lemma ProgressAt(was: Files, now: Files, records: Files, p: Path, left: set<Name>, done: set<Name>, n: Name, dry: bool)
    requires Tree(was) && Progress(was, now, records, p, left, done, dry) && n in left
    ensures n in Children(was, p) && n !in done && (dry ==> now == was)
    ensures Emptied(was, now, p, if dry then {} else done) && Recorded(was, now, records)
  { hide Emptied, Recorded, Match, Removable, Children; }

  lemma ProgressNext(was: Files, before: Files, now: Files, records: Files, p: Path,
                     left: set<Name>, done: set<Name>, n: Name, dry: bool)
    requires Tree(was) && Progress(was, before, records, p, left, done, dry) && n in left
    requires Match(was, records, p + [n]) && (dry || Removable(was, p + [n]))
    requires Recorded(was, now, records) && if dry then now == before else Emptied(was, now, p, done + {n})
    ensures Progress(was, now, records, p, left - {n}, done + {n}, dry)
  {
    hide Emptied, Recorded, Match, Removable, Children;
    assert left - {n} + (done + {n}) == left + done;
  }

  lemma ProgressEnd(was: Files, now: Files, records: Files, p: Path, done: set<Name>, dry: bool)
    requires Tree(was) && Progress(was, now, records, p, {}, done, dry)
    ensures (dry ==> now == was) && Recorded(was, now, records) && (!dry ==> Emptied(was, now, p, Children(was, p)))
    ensures forall n | n in Children(was, p) :: Match(was, records, p + [n]) && (dry || Removable(was, p + [n]))
  {
    hide Emptied, Recorded, Match, Removable, Children;
    assert {} + done == done;
  }

  class Disk {
    var at: Files
    var clock: nat

    /** `os.unlink` and `os.rmdir`: the parent must be writable and a directory empty. The parent's size and
        stamps change, and the change time of every other name of the same inode. */
    method Drop(p: Path) returns (ok: bool)
      requires Tree(at) && p in at && p != []
      modifies this
      ensures ok <==> old(at)[Parent(p)].mode.writable && Children(old(at), p) == {}
      ensures !ok ==> at == old(at)
      ensures ok ==> OneLess(old(at), at, p)
    {
      ok := at[Parent(p)].mode.writable && Children(at, p) == {};
      if ok {
        WithoutIs(at, p, clock);
        at := Without(at, p, clock);
        clock := clock + 1;
      }
    }

    /** The inner function `remove`. A dry pass changes nothing and succeeds exactly when the tree is the
        recorded one; a real pass succeeds exactly when, besides, every entry stands in a writable directory,
        and then nothing at or below `p` is left. Whatever the outcome, what changed is confined. */
    method Remove(p: Path, records: Files, root: Path, dry: bool) returns (ok: bool)
      requires Tree(at) && Inventoried(records, root) && root <= p && p != [] && p in records
      modifies this
      ensures dry ==> at == old(at)
      ensures ok <==> AsRecorded(old(at), records, p) && (dry || Erasable(old(at), p))
      ensures ok <==> Match(old(at), records, p) && (dry || Removable(old(at), p))
      ensures Confined(old(at), at, records, p)
      ensures ok && !dry ==> Gone(at, p)
      decreases |Below(records, p).Keys|, 2
    {
      MatchIs(at, records, p);
      RemovableIs(at, p);
      hide AsRecorded, Erasable;
      if p !in at { return false; }
      if Identity(at[p]) != Identity(records[p]) { return false; }
      if IsDir(at[p]) {
        if Children(at, p) != Children(records, p) {
          if Match(at, records, p) { MatchChildren(at, records, p); }
          return false;
        }
        ok := RemoveEntries(p, records, root, dry);
      } else {
        ok := RemoveLeaf(p, records, root, dry);
      }
    }

    method RemoveLeaf(p: Path, records: Files, root: Path, dry: bool) returns (ok: bool)
      requires Tree(at) && Inventoried(records, root) && root <= p && p != [] && p in records
      requires p in at && Identity(at[p]) == Identity(records[p]) && !IsDir(at[p])
      modifies this
      ensures dry ==> at == old(at)
      ensures ok <==> Match(old(at), records, p) && (dry || Removable(old(at), p))
      ensures Confined(old(at), at, records, p)
      ensures ok && !dry ==> Gone(at, p)
    {
      hide *;
      LeafIs(at, records, root, p);
      ok := true;
      ghost var was := at;
      ConfinedSame(was, records, p);
      if !dry {
        ok := Drop(p);
        if ok { LeafDropped(was, at, records, p); }
      }
    }

    /** The loop over a directory's entries, and the directory itself. */
    method RemoveEntries(p: Path, records: Files, root: Path, dry: bool) returns (ok: bool)
      requires Tree(at) && Inventoried(records, root) && root <= p && p != [] && p in records
      requires p in at && Identity(at[p]) == Identity(records[p]) && IsDir(at[p])
      requires Children(at, p) == Children(records, p)
      modifies this
      ensures dry ==> at == old(at)
      ensures ok <==> Match(old(at), records, p) && (dry || Removable(old(at), p))
      ensures Confined(old(at), at, records, p)
      ensures ok && !dry ==> Gone(at, p)
      decreases |Below(records, p).Keys|, 1
    {
      ghost var was := at;
      ghost var done: set<Name> := {};
      var left := Children(at, p);
      ProgressStart(was, records, p, dry);
      hide *;
      while left != {}
        invariant Progress(was, at, records, p, left, done, dry)
        decreases left
      {
        var n :| n in left;
        ghost var before := at;
        ProgressAt(was, at, records, p, left, done, n, dry);
        ok := RemoveOne(was, if dry then {} else done, p, n, records, root, dry);
        if !ok { return; }
        ProgressNext(was, before, at, records, p, left, done, n, dry);
        left, done := left - {n}, done + {n};
      }
      ProgressEnd(was, at, records, p, done, dry);
      MatchUp(was, records, root, p);
      ok := true;
      if dry { ConfinedSame(was, records, p); }
      else { ok := RemoveEmptied(was, p, records); }
    }

    method RemoveOne(ghost was: Files, ghost done: set<Name>, p: Path, n: Name, records: Files, root: Path, dry: bool)
      returns (ok: bool)
      requires Tree(was) && Inventoried(records, root) && root <= p && p != [] && p in records
      requires Emptied(was, at, p, done) && Recorded(was, at, records)
      requires n in Children(records, p) && n in Children(was, p) && n !in done
      modifies this
      ensures dry ==> at == old(at)
      ensures ok ==> Match(was, records, p + [n]) && (dry || Removable(was, p + [n]))
      ensures !ok ==> !(Match(was, records, p) && (dry || Removable(was, p)))
      ensures ok && !dry ==> Emptied(was, at, p, done + {n})
      ensures Recorded(was, at, records) && Confined(was, at, records, p)
      decreases |Below(records, p).Keys|, 0
    {
      assert Tree(at) && p in was;
      ghost var before := at;
      ChildIn(records, p, n);
      Descend(records, p, n);
      assert root <= p <= p + [n];
      hide *;
      EmptiedMatch(was, at, records, p, done, n);
      EmptiedRemovable(was, at, p, done, n);
      ok := Remove(p + [n], records, root, dry);
      RecordedNext(was, before, at, records, p, done, n);
      ConfinedUp(was, before, at, records, p, done, n);
      if ok {
        if !dry { EmptiedNext(was, before, at, records, p, done, n); }
      } else {
        if Match(was, records, p) { MatchDown(was, records, p, n); }
        if Removable(was, p) { RemovableDown(was, p, n); }
      }
    }

    method RemoveEmptied(ghost was: Files, p: Path, ghost records: Files) returns (ok: bool)
      requires Tree(was) && p != [] && p in records && p in was && Identity(was[p]) == Identity(records[p])
      requires Emptied(was, at, p, Children(was, p)) && Recorded(was, at, records)
      requires forall n | n in Children(was, p) :: Removable(was, p + [n])
      modifies this
      ensures ok <==> Removable(was, p)
      ensures Confined(was, at, records, p)
      ensures ok ==> Gone(at, p)
    {
      ghost var before := at;
      EmptiedAll(was, at, records, p);
      if Removable(was, p) { assert was[Parent(p)].mode.writable; }
      if was[Parent(p)].mode.writable { RemovableUp(was, p); }
      hide Removable, Recorded;
      ok := Drop(p);
      if ok { Dropped(was, before, at, records, p); }
      else { Undropped(was, at, records, p); }
    }

    /** The check-then-remove body of `reap_var_tmp` for one entry whose status was `st`. Others may have turned
        the disk into `meanwhile` since the inventory was taken, but not once the dry pass starts. The entry is
        removed exactly when the inventory was clean, the disk still matches it and every directory involved is
        writable; if the disk differs from the inventory anywhere below the entry, nothing is deleted. */
    method ReapEntry(p: Path, st: Stat, mounts: set<Path>, uid: nat, meanwhile: Files, dryRun: bool) returns (ok: bool)
      requires Tree(at) && Tree(meanwhile) && p != [] && p in at
      modifies this
      ensures Tree(at)
      ensures ok <==> Owned(old(at), p, old(at)[Parent(p)].dev, mounts, uid) && SameEntry(old(at)[p], st)
                      && AsRecorded(meanwhile, old(at), p) && (dryRun || Erasable(meanwhile, p))
      ensures dryRun || !AsRecorded(meanwhile, old(at), p) ==> at == meanwhile
      ensures Spared(meanwhile, at, old(at), p) && (ok && !dryRun ==> Gone(at, p))
    {
      ghost var was := at;
      var device := at[Parent(p)].dev;
      FineIs(at, p, device, mounts, uid);
      MatchIs(meanwhile, Below(at, p), p);
      BelowIs(meanwhile, at, p);
      RemovableIs(meanwhile, p);
      ok := Reap(p, st, mounts, uid, meanwhile, dryRun);
      hide Fine, Match, Removable, AsRecorded, Erasable, Owned, Below;
      ConfinedIs(meanwhile, at, Below(was, p), p);
      SparedBelow(meanwhile, at, was, p);
      IdentityIs(was[p], st);
    }

    /** The same, in the terms of the check. */
    method Reap(p: Path, st: Stat, mounts: set<Path>, uid: nat, meanwhile: Files, dryRun: bool) returns (ok: bool)
      requires Tree(at) && Tree(meanwhile) && p != [] && p in at
      modifies this
      ensures Tree(at)
      ensures var records := Below(old(at), p);
        && (ok <==> Fine(records, old(at)[Parent(p)].dev, mounts, uid) && Identity(old(at)[p]) == Identity(st)
                    && Match(meanwhile, records, p) && (dryRun || Removable(meanwhile, p)))
        && Confined(meanwhile, at, records, p)
        && (dryRun || !Match(meanwhile, records, p) ==> at == meanwhile)
        && (ok && !dryRun ==> Gone(at, p))
    {
      var records;
      ghost var was := at;
      var device := at[Parent(p)].dev;
      InventoryIs(at, p);
      assert p in Below(at, p) && Below(at, p)[p] == at[p];
      hide Match, Removable, Fine, Below;
      ok, records := Visit(at, p, device, mounts, uid);
      at := meanwhile;
      ConfinedSame(at, Below(was, p), p);
      hide Confined;
      if !ok { return; }
      if Identity(records[p]) != Identity(st) { return false; }
      ok := Remove(p, records, p, true);
      if !ok || dryRun { return; }
      ok := Remove(p, records, p, false);
    }
  }

  /** A clean dry pass does not foretell the real one: the identity check reads a directory's mode but does not
      ask whether it may be written. A directory closed to writing, with an entry, passes the first and fails
      the second. */
  lemma CleanButNotRemovable(owner: nat)
    ensures exists fs, p :: Tree(fs) && p != [] && p in fs && Inventoried(Below(fs, p), p)
              && Match(fs, Below(fs, p), p) && !Removable(fs, p)
  {
    hide Tree, Match, Removable, Inventoried, Below;
    var fs := Closed(owner);
    ClosedTree(owner);
    InventoryIs(fs, [1]);
    ClosedMatches(owner);
    ClosedStays(owner);
  }

  /** A directory closed to writing, with a file in it. */
  function Closed(owner: nat): Files {
    var open, shut, file := Mode(Directory, true), Mode(Directory, false), Mode(Regular, true);
    map[[] := Stat(1, 1, open, owner, 0, 0, 0), [1] := Stat(1, 2, shut, owner, 0, 0, 0),
        [1, 2] := Stat(1, 3, file, owner, 0, 0, 0)]
  }

  lemma ClosedTree(owner: nat)
    ensures Tree(Closed(owner)) && [1] in Closed(owner)
  { assert Parent([1]) == [] && Parent([1, 2]) == [1]; }

  lemma ClosedMatches(owner: nat)
    ensures Match(Closed(owner), Below(Closed(owner), [1]), [1])
  { hide Closed; }

  lemma ClosedStays(owner: nat)
    ensures Tree(Closed(owner)) && !Removable(Closed(owner), [1])
  {
    ClosedTree(owner);
    hide Tree;
    assert [1, 2] in Closed(owner) && [1] <= [1, 2] && Parent([1, 2]) == [1];
  }
}
