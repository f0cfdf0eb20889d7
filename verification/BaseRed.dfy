/** Which failing checks of the base are known (`_known_state`, `id_kind`, src/base_red.py). */
module BaseRed {
  import opened Seqs

  datatype Kind = Pytest | PgParity | Vitest | SuiteError

  /** A failing check: `id_kind` reads its kind off its name. */
  datatype Id = Id(kind: Kind, name: nat)

  /** `runs` says that a master-full-run row names its suite, its coverage, its commit and its runs as it must. */
  datatype Row =
    | Nightly(ts: int, complete: bool, ids: set<Id>)
    | MasterFull(ts: int, complete: bool, ids: set<Id>, runs: bool, green: bool)
    | Rerun(ts: int, complete: bool, ids: set<Id>)

  /** A complete row that says all there is to say about the checks of a kind. */
  predicate Covers(r: Row, k: Kind) {
    r.complete &&
    match r
    case Nightly(_, _, _) => true
    case MasterFull(_, _, ids, runs, green) =>
      runs && (green <==> ids == {}) && (forall i | i in ids :: i.kind == Pytest || i.kind == PgParity) && (k == Pytest || k == PgParity)
    case Rerun(_, _, _) => false
  }

  /** A positive observation that claims nothing about what it does not name. */
  predicate Observes(r: Row, i: Id) { r.Rerun? && !r.complete && i in r.ids }

  function Sorted(rows: seq<Row>): seq<Row> { Sort(rows, (a: Row, b: Row) => a.ts < b.ts) }

  // ---------------------------------------------------------------- what is known

  /** The newest row that covers a kind, of rows in order of time. */
  function Snapshot(rows: seq<Row>, k: Kind): Option<Row> {
    if rows == [] then None
    else if Covers(rows[|rows| - 1], k) then Some(rows[|rows| - 1]) else Snapshot(rows[..|rows| - 1], k)
  }

  /** Not older than the snapshot. */
  predicate Current(snapshot: Option<Row>, r: Row) { snapshot.Some? ==> r.ts >= snapshot.value.ts }

  predicate Known(rows: seq<Row>, i: Id) {
    var s := Snapshot(rows, i.kind);
    (s.Some? && i in s.value.ids) || exists r | r in rows :: Observes(r, i) && Current(s, r)
  }

  // ---------------------------------------------------------------- appending a row

  function Place(rows: seq<Row>, r: Row): seq<Row> { Insert(rows, r, (a: Row, b: Row) => a.ts < b.ts) }

  lemma SortedAppend(rows: seq<Row>, r: Row)
    ensures Sorted(rows + [r]) == Place(Sorted(rows), r)
  { SortAppend(rows, r, (a: Row, b: Row) => a.ts < b.ts); }

  predicate InTime(rows: seq<Row>) { forall i, j | 0 <= i < j < |rows| :: rows[i].ts <= rows[j].ts }

  lemma SortedInTime(rows: seq<Row>)
    ensures InTime(Sorted(rows)) && forall r :: r in Sorted(rows) <==> r in rows
  {
    var before := (a: Row, b: Row) => a.ts < b.ts;
    SortInOrder(rows, before);
    SortIn(rows, before);
    forall i, j | 0 <= i < j < |Sorted(rows)| ensures Sorted(rows)[i].ts <= Sorted(rows)[j].ts {
      assert !before(Sorted(rows)[j], Sorted(rows)[i]);
    }
  }

  lemma {:induction false} SnapshotIn(rows: seq<Row>, k: Kind)
    ensures Snapshot(rows, k).Some? ==> Snapshot(rows, k).value in rows && Covers(Snapshot(rows, k).value, k)
    ensures InTime(rows) && Snapshot(rows, k).Some? ==> forall r | r in rows && Covers(r, k) :: r.ts <= Snapshot(rows, k).value.ts
    ensures Snapshot(rows, k).None? ==> forall r | r in rows :: !Covers(r, k)
  {
    if rows != [] && !Covers(rows[|rows| - 1], k) {
      SnapshotIn(rows[..|rows| - 1], k);
      assert forall r | r in rows :: r in rows[..|rows| - 1] || r == rows[|rows| - 1];
    }
  }

  /** The row becomes the snapshot exactly when it covers the kind and no covering row is newer. */
  lemma {:induction false} SnapshotPlaced(rows: seq<Row>, r: Row, k: Kind)
    requires InTime(rows)
    ensures Snapshot(Place(rows, r), k) ==
      if Covers(r, k) && Current(Snapshot(rows, k), r) then Some(r) else Snapshot(rows, k)
  {
    SnapshotIn(rows, k);
    if rows == [] || r.ts >= rows[|rows| - 1].ts {
      assert Place(rows, r) == rows + [r] && (rows + [r])[..|rows|] == rows;
      if Snapshot(rows, k).Some? {
        var i :| 0 <= i < |rows| && rows[i] == Snapshot(rows, k).value;
        assert rows[i].ts <= rows[|rows| - 1].ts;
      }
    } else {
      var init, last := rows[..|rows| - 1], rows[|rows| - 1];
      assert Place(rows, r) == Place(init, r) + [last] && (Place(init, r) + [last])[..|Place(init, r)|] == Place(init, r);
      SnapshotPlaced(init, r, k);
    }
  }

  lemma PlacedIn(rows: seq<Row>, r: Row, x: Row)
    ensures x in Place(rows, r) <==> x in rows || x == r
  { InsertIn(rows, r, (a: Row, b: Row) => a.ts < b.ts); }

  /** A check stops being known exactly when the appended row covers its kind, is not older than the row that
      did so far, does not name it, and nothing observed since names it. */
  lemma ForgottenExactly(rows: seq<Row>, r: Row, i: Id)
    ensures Known(Sorted(rows), i) ==>
      (!Known(Sorted(rows + [r]), i) <==>
        (Covers(r, i.kind) && Current(Snapshot(Sorted(rows), i.kind), r) && i !in r.ids
         && forall o | o in rows && Observes(o, i) :: o.ts < r.ts))
  {
    SortedAppend(rows, r);
    SortedInTime(rows);
    var s := Sorted(rows);
    SnapshotPlaced(s, r, i.kind);
    var now := Place(s, r);
    assert forall x :: x in now <==> x in rows || x == r by { forall x ensures x in now <==> x in s || x == r { PlacedIn(s, r, x); } }
    hide Sorted, Place, Snapshot, Covers, InTime;
    var was := Snapshot(s, i.kind);
    if Covers(r, i.kind) && Current(was, r) {
      assert !Observes(r, i) by { CoversNotObserves(r, i); }
      if o :| o in rows && Observes(o, i) && o.ts >= r.ts { assert o in now && Current(Some(r), o); }
    } else if Known(s, i) && !(was.Some? && i in was.value.ids) {
      var o :| o in s && Observes(o, i) && Current(was, o);
      assert o in now;
    }
  }

  lemma CoversNotObserves(r: Row, i: Id)
    requires Covers(r, i.kind)
    ensures !Observes(r, i)
  {}

  /** So an incomplete row never takes anything away. */
  lemma IncompleteKeeps(rows: seq<Row>, r: Row, i: Id)
    requires Known(Sorted(rows), i) && !r.complete
    ensures Known(Sorted(rows + [r]), i)
  { ForgottenExactly(rows, r, i); }

  // ---------------------------------------------------------------- the code

  const KINDS: seq<Kind> := [Pytest, PgParity, Vitest, SuiteError]

  predicate SnapshotsAre(snapshots: map<Kind, Row>, rows: seq<Row>) {
    forall k :: Snapshot(rows, k) == if k in snapshots then Some(snapshots[k]) else None
  }

  lemma AllKinds(k: Kind)
    ensures k in KINDS
  { assert KINDS[0] == Pytest && KINDS[1] == PgParity && KINDS[2] == Vitest && KINDS[3] == SuiteError; }

  /** The loop that overwrites the snapshot of each kind a row covers. */
  method TakeSnapshots(rows: seq<Row>) returns (snapshots: map<Kind, Row>)
    ensures SnapshotsAre(snapshots, rows)
  {
    snapshots := map[];
    for i := 0 to |rows|
      invariant SnapshotsAre(snapshots, rows[..i])
    {
      assert rows[..i + 1][..i] == rows[..i];
      ghost var was := snapshots;
      for j := 0 to |KINDS|
        invariant forall k :: k in snapshots <==> k in was || (k in KINDS[..j] && Covers(rows[i], k))
        invariant forall k | k in snapshots :: snapshots[k] == if k in KINDS[..j] && Covers(rows[i], k) then rows[i] else was[k]
      {
        if Covers(rows[i], KINDS[j]) { snapshots := snapshots[KINDS[j] := rows[i]]; }
      }
      assert KINDS[..|KINDS|] == KINDS;
      forall k: Kind ensures k in KINDS { AllKinds(k); }
    }
    assert rows[..|rows|] == rows;
  }

  /** Known so far: by its snapshot or by one of `seen`. */
  predicate KnownBy(s: Option<Row>, seen: seq<Row>, i: Id) {
    (s.Some? && i in s.value.ids) || exists r | r in seen :: Observes(r, i) && Current(s, r)
  }

  /** `e` shows the check, and nothing seen shows it later. */
  predicate Newest(s: Option<Row>, seen: seq<Row>, i: Id, e: Row) {
    && i in e.ids && (s == Some(e) || e in seen)
    && (forall r | r in seen && Observes(r, i) && Current(s, r) :: r.ts <= e.ts)
    && Current(s, e)
  }

  /** The loop that adds the observations. */
  method AddReruns(rows: seq<Row>, snapshots: map<Kind, Row>, first: map<Id, Row>) returns (known: map<Id, Row>)
    requires InTime(rows) && SnapshotsAre(snapshots, rows)
    requires forall i :: i in first <==> i.kind in snapshots && i in snapshots[i.kind].ids
    requires forall i | i in first :: first[i] == snapshots[i.kind]
    ensures forall i :: i in known <==> Known(rows, i)
    ensures forall i | i in known :: Newest(Snapshot(rows, i.kind), rows, i, known[i])
  {
    known := first;
    hide Snapshot;
    for j := 0 to |rows|
      invariant KnownTo(known, rows, j)
    {
      var r := rows[j];
      ghost var was := known;
      if r.Rerun? && !r.complete {
        known := known + map i | i in r.ids && (i.kind in snapshots ==> r.ts >= snapshots[i.kind].ts) :: r;
      }
      forall i ensures i in known <==> i in was || Adds(rows, j, i) {}
      KnownNext(rows, j, was, known);
    }
    assert rows[..|rows|] == rows;
  }

  /** Known by the snapshots and the first `j` rows, each by the newest of them that shows it. */
  ghost predicate KnownTo(known: map<Id, Row>, rows: seq<Row>, j: nat)
    requires j <= |rows|
  {
    && (forall i :: i in known <==> KnownBy(Snapshot(rows, i.kind), rows[..j], i))
    && (forall i | i in known :: Newest(Snapshot(rows, i.kind), rows[..j], i, known[i]))
  }

  ghost predicate Adds(rows: seq<Row>, j: nat, i: Id)
    requires j < |rows|
  { Observes(rows[j], i) && Current(Snapshot(rows, i.kind), rows[j]) }

  lemma KnownNext(rows: seq<Row>, j: nat, was: map<Id, Row>, now: map<Id, Row>)
    requires j < |rows| && InTime(rows) && KnownTo(was, rows, j)
    requires forall i :: i in now <==> i in was || Adds(rows, j, i)
    requires forall i | i in now :: if Adds(rows, j, i) then now[i] == rows[j] else i in was && now[i] == was[i]
    ensures KnownTo(now, rows, j + 1)
  {
    hide Snapshot, KnownBy, Newest, InTime;
    forall i ensures i in now <==> KnownBy(Snapshot(rows, i.kind), rows[..j + 1], i) {
      KnownByNext(Snapshot(rows, i.kind), rows, j, i);
    }
    forall i | i in now ensures Newest(Snapshot(rows, i.kind), rows[..j + 1], i, now[i]) {
      NewestNext(Snapshot(rows, i.kind), rows, j, i, if i in was then Some(was[i]) else None, now[i]);
    }
  }

  lemma KnownByNext(s: Option<Row>, rows: seq<Row>, j: nat, i: Id)
    requires j < |rows|
    ensures KnownBy(s, rows[..j + 1], i) <==> KnownBy(s, rows[..j], i) || (Observes(rows[j], i) && Current(s, rows[j]))
  { assert rows[..j + 1] == rows[..j] + [rows[j]]; }

  lemma NewestNext(s: Option<Row>, rows: seq<Row>, j: nat, i: Id, was: Option<Row>, now: Row)
    requires j < |rows| && InTime(rows)
    requires if was.Some? then Newest(s, rows[..j], i, was.value) else !KnownBy(s, rows[..j], i)
    requires if Observes(rows[j], i) && Current(s, rows[j]) then now == rows[j] else was == Some(now)
    ensures Newest(s, rows[..j + 1], i, now)
  {
    assert rows[..j + 1] == rows[..j] + [rows[j]];
    forall r | r in rows[..j] ensures r.ts <= rows[j].ts { var k :| 0 <= k < j && rows[k] == r; }
  }

  /** `_known_state`: every known check with the newest row that shows it, and the snapshots. */
  method KnownState(rows: seq<Row>) returns (known: map<Id, Row>, snapshots: map<Kind, Row>)
    ensures forall i :: i in known <==> Known(Sorted(rows), i)
    ensures forall i | i in known :: Newest(Snapshot(Sorted(rows), i.kind), Sorted(rows), i, known[i])
    ensures SnapshotsAre(snapshots, Sorted(rows))
  {
    var s := Sorted(rows);
    SortedInTime(rows);
    hide Sorted, Snapshot;
    snapshots := TakeSnapshots(s);
    var red := set k, i | k in snapshots && i in snapshots[k].ids && i.kind == k :: i;
    known := AddReruns(s, snapshots, map i | i in red :: snapshots[i.kind]);
  }
}
