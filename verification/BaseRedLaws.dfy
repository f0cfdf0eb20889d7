/** What each kind of row does to the known failing checks, check by check (`_known_state`, src/base_red.py). */
module BaseRedLaws {
  import opened Seqs
  import opened BaseRed

  /** A full run of master speaks of two kinds, says rightly whether it is green, and names no check of another. */
  predicate WellFormed(r: Row)
    requires r.MasterFull?
  {
    r.runs && (r.green <==> r.ids == {}) && forall i | i in r.ids :: i.kind == Pytest || i.kind == PgParity
  }

  /** A complete row that settles the checks of a kind. */
  predicate Settles(r: Row, k: Kind) {
    r.complete &&
    match r
    case Nightly(_, _, _) => true
    case MasterFull(_, _, _, _, _) => WellFormed(r) && (k == Pytest || k == PgParity)
    case Rerun(_, _, _) => false
  }

  /** A row by which the check is red: one that settles its kind and names it, or an incomplete rerun that does. */
  predicate Shows(r: Row, i: Id) { i in r.ids && (Settles(r, i.kind) || (r.Rerun? && !r.complete)) }

  /** The row shows it, and none that settles its kind is newer. */
  ghost predicate Latest(rows: seq<Row>, r: Row, i: Id) {
    r in rows && Shows(r, i) && forall c | c in rows && Settles(c, i.kind) :: c.ts <= r.ts
  }

  lemma CoversIs(r: Row, k: Kind)
    ensures Covers(r, k) <==> Settles(r, k)
  {}

  lemma SnapshotIs(rows: seq<Row>, k: Kind)
    requires InTime(rows)
    ensures var s := Snapshot(rows, k);
      if s.Some? then s.value in rows && Settles(s.value, k) && forall c | c in rows && Settles(c, k) :: c.ts <= s.value.ts
      else forall c | c in rows :: !Settles(c, k)
  {
    SnapshotIn(rows, k);
    forall c ensures Covers(c, k) <==> Settles(c, k) { CoversIs(c, k); }
    hide Covers, Settles;
  }

  /** A check is known exactly when some row shows it after which none settled its kind anew; times apart. */
  lemma KnownExactly(rows: seq<Row>, i: Id)
    requires forall a, b | a in rows && b in rows && a != b :: a.ts != b.ts
    ensures Known(Sorted(rows), i) <==> exists r :: Latest(rows, r, i)
  {
    var all := Sorted(rows);
    SortedInTime(rows);
    SnapshotIs(all, i.kind);
    hide Covers, Settles, Sorted, InTime;
    var s := Snapshot(all, i.kind);
    if Known(all, i) {
      if s.Some? && i in s.value.ids { assert Latest(rows, s.value, i); }
      else {
        var r :| r in all && Observes(r, i) && Current(s, r);
        assert Latest(rows, r, i);
      }
    }
    if r :| Latest(rows, r, i) {
      if Settles(r, i.kind) { assert s == Some(r); } else { assert Observes(r, i) && Current(s, r); }
    }
  }

  /** So a full run of master never takes away a check that is neither of pytest nor of parity, nor does one that is
      not well formed take any. */
  lemma FullRunSpares(rows: seq<Row>, r: Row, i: Id)
    requires r.MasterFull? && (i.kind == Vitest || i.kind == SuiteError || !WellFormed(r)) && Known(Sorted(rows), i)
    ensures Known(Sorted(rows + [r]), i)
  { ForgottenExactly(rows, r, i); }
}
