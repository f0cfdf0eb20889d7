/** Refused launches that fail in earnest later: any number of them (`history`, src/attempts.py). */
module AttemptsRevived {
  import opened Seqs
  import opened Attempts
  import opened AttemptsBudget
  import opened AttemptsRun

  // ---------------------------------------------------------------- a ledger of refusals

  predicate StartedOrRefused(r: Row) { r.e.kind.SpawnStarted? || Refusal(r.e) }

  /** Every row is a start of the role or a refusal, and every start has its refusal. */
  ghost predicate AllRefused(rows: seq<Row>, role: Role) {
    && (forall r | r in rows :: IsAttempt(r, role) && StartedOrRefused(r))
    && (forall r | r in rows :: HasRefusal(rows, r.e.spawn))
  }

  ghost predicate HasRefusal(rows: seq<Row>, s: Spawn) { exists r | r in rows :: r.e.spawn == s && Refusal(r.e) }

  lemma RecentIn(rows: seq<Row>, role: Role, threshold: int, now: int, dead: set<Spawn>)
    ensures forall r | r in ViewOf(rows, Join(rows, role), threshold, role, now, dead).recent :: r in rows
  { FilterIn(rows, (r: Row) => r.ts >= threshold); }

  lemma RefusedRows(v: View, rows: seq<Row>, g: Group)
    requires AllRefused(rows, v.role) && Grounded(v) && g in v.groups && forall r | r in v.recent :: r in rows
    ensures forall r | r in g.rows :: StartedOrRefused(r)
    ensures g.rows != [] && g.key == BySpawn(g.rows[0].e.spawn) && HasRefusal(rows, g.rows[0].e.spawn)
  {
    hide HasRefusal, StartedOrRefused, Refusal;
    forall r | r in g.rows ensures r in rows && RowFiled(g, r, v.recent, v.role) {}
    var first := g.rows[0];
    assert first in g.rows && IsAttempt(first, v.role);
  }

  lemma NothingDead(v: View, rows: seq<Row>, key: Key)
    requires AllRefused(rows, v.role) && v.dead == {} && forall r | r in v.recent :: r in rows
    ensures !IsDead(v, key)
  { assert DeadIn(v.recent) == {}; }

  lemma RefusalUncounted(v: View, g: Group, r: Row)
    requires r in g.rows && Refusal(r.e) && !IsDead(v, g.key) && forall r | r in g.rows :: StartedOrRefused(r)
    ensures OutcomeOf(v, g).Uncounted?
  {
    GroupFacts(g);
    hide IsDead, HasOutput, Consumed;
  }

  lemma RefusedGroup(rows: seq<Row>, role: Role, threshold: int, now: int, g: Group)
    requires AllRefused(rows, role) && g in ViewOf(rows, Join(rows, role), threshold, role, now, {}).groups
    ensures OutcomeOf(ViewOf(rows, Join(rows, role), threshold, role, now, {}), g).Uncounted?
  {
    var v := ViewOf(rows, Join(rows, role), threshold, role, now, {});
    ViewGrounded(rows, threshold, role, now, {});
    RecentIn(rows, role, threshold, now, {});
    hide Join, OutcomeOf, Grounded;
    RefusedRows(v, rows, g);
    NothingDead(v, rows, g.key);
    hide IsDead, Refusal, StartedOrRefused;
    var r :| r in rows && r.e.spawn == g.rows[0].e.spawn && Refusal(r.e);
    GroupHolds(rows, role, threshold, now, {}, g, r);
    RefusalUncounted(v, g, r);
  }

  lemma {:induction false} NoFailures(v: View, groups: seq<Group>)
    requires forall g | g in groups :: OutcomeOf(v, g).Uncounted?
    ensures GroupFailures(v, groups) == []
  {
    hide OutcomeOf;
    if groups != [] { NoFailures(v, groups[..|groups| - 1]); }
  }

  lemma {:induction false} NoStrays(v: View, rows: seq<Row>)
    requires forall r | r in rows :: StartedOrRefused(r)
    ensures Strays(v, rows) == []
  {
    if rows != [] {
      NoStrays(v, rows[..|rows| - 1]);
      assert StartedOrRefused(rows[|rows| - 1]);
    }
  }

  lemma NotConsumed(v: View)
    requires forall r | r in v.recent :: StartedOrRefused(r)
    ensures !Consumed(v)
  {}

  /** A ledger of starts and refusals alone spends nothing. */
  lemma RefusedSpendsNothing(evs: seq<Event>, t: Trigger, now: int)
    requires Known(t.role) && t.subject != "" && AllRefused(SortRows(Own(evs, t.subject)), t.role)
    ensures MayLaunch(evs, t, now, {})
  {
    var rows := SortRows(Own(evs, t.subject));
    var v := ViewOf(rows, Join(rows, t.role), t.threshold, t.role, now, {});
    forall g | g in v.groups ensures OutcomeOf(v, g).Uncounted? { RefusedGroup(rows, t.role, t.threshold, now, g); }
    RecentIn(rows, t.role, t.threshold, now, {});
    NoFailures(v, v.groups);
    NoStrays(v, v.recent);
    NotConsumed(v);
    hide OutcomeOf, Join, Consumed, Strays, GroupFailures, ViewOf, BundleAwaited;
    assert Failures(v) == [];
  }

  // ---------------------------------------------------------------- a run of them

  const TRIGGER := Trigger("s", 0, Builder)

  function Of(n: nat, kind: Kind, reason: Text): Event {
    Event("s", 0, kind, Some(Builder), Numbered(Builder, n), None, reason, NoText, NoSpawn, NoSpawn, "", "")
  }

  function Started(n: nat): Event { Of(n, SpawnStarted, NoText) }
  function TurnedAway(n: nat): Event { Of(n, SpawnFailed, Text(WaveOrder, false, "wave-order")) }
  function Broken(n: nat): Event { Of(n, SpawnFailed, Text(Different, false, "failed")) }

  /** n launches, each turned away at once. */
  function Refusals(n: nat): seq<Step> {
    if n == 0 then [] else Refusals(n - 1) + [Launch(Started(n - 1), 0, {}), Happens(TurnedAway(n - 1))]
  }

  /** And then a failure in earnest for each. */
  function Revivals(n: nat): seq<Step> { Refusals(n) + seq(n, i requires 0 <= i < n => Happens(Broken(i))) }

  lemma {:induction false} RefusalAt(n: nat, j: nat)
    requires j < n
    ensures |Refusals(n)| == 2 * n
    ensures Refusals(n)[2 * j] == Launch(Started(j), 0, {}) && Refusals(n)[2 * j + 1] == Happens(TurnedAway(j))
    ensures Refusals(n)[..2 * j] == Refusals(j)
  {
    if j < n - 1 {
      RefusalAt(n - 1, j);
      assert Refusals(n)[..2 * j] == Refusals(n - 1)[..2 * j];
    } else {
      RefusalsLength(n - 1);
      assert Refusals(n)[..2 * j] == Refusals(j);
    }
  }

  lemma {:induction false} RefusalsLength(n: nat)
    ensures |Refusals(n)| == 2 * n
  { if n > 0 { RefusalsLength(n - 1); } }

  lemma RefusalsRow(n: nat, r: Row)
    requires r in SortRows(Own(Ledger(Refusals(n)), "s"))
    ensures IsAttempt(r, Builder) && StartedOrRefused(r)
    ensures r.e.spawn.Numbered? && r.e.spawn.role == Builder && r.e.spawn.n < n
  {
    RowIs(Ledger(Refusals(n)), "s", r);
    RefusalsLength(n);
    RefusalAt(n, r.idx / 2);
    hide SortRows, Own, Refusals;
    assert r.idx == 2 * (r.idx / 2) || r.idx == 2 * (r.idx / 2) + 1;
  }

  lemma RefusalsHold(n: nat, j: nat)
    requires j < n
    ensures HasRefusal(SortRows(Own(Ledger(Refusals(n)), "s")), Numbered(Builder, j))
  {
    hide Refusals, Own, SortRows, Refusal;
    var evs := Ledger(Refusals(n));
    RefusalAt(n, j);
    assert evs[2 * j + 1] == TurnedAway(j);
    RowIn(evs, "s", 2 * j + 1);
    TurnedAwayRefused(j);
    assert Row(0, 2 * j + 1, TurnedAway(j)).e.spawn == Numbered(Builder, j);
  }

  lemma RefusalsRefused(n: nat)
    ensures AllRefused(SortRows(Own(Ledger(Refusals(n)), "s")), Builder)
  {
    hide Refusals, Own, SortRows, IsAttempt, StartedOrRefused, HasRefusal;
    var rows := SortRows(Own(Ledger(Refusals(n)), "s"));
    forall r | r in rows ensures IsAttempt(r, Builder) && StartedOrRefused(r) && HasRefusal(rows, r.e.spawn) {
      RefusalsRow(n, r);
      RefusalsHold(n, r.e.spawn.n);
    }
  }

  lemma TurnedAwayRefused(j: nat)
    ensures Refusal(TurnedAway(j))
  {}

  lemma RevivalsPrefix(n: nat, i: nat) returns (j: nat)
    requires i < |Revivals(n)| && Revivals(n)[i].Launch?
    ensures j < n && i == 2 * j && Revivals(n)[i] == Launch(Started(j), 0, {}) && Revivals(n)[..i] == Refusals(j)
  {
    RefusalsLength(n);
    j := i / 2;
    RefusalAt(n, j);
    assert i == 2 * j || i == 2 * j + 1;
    assert Revivals(n)[..2 * j] == Refusals(n)[..2 * j];
  }

  lemma RevivalsDisciplined(n: nat)
    ensures Disciplined(Revivals(n), TRIGGER)
  {
    var run := Revivals(n);
    hide Revivals, MayLaunch, FreshStart, AllRefused;
    forall i | 0 <= i < |run| && run[i].Launch?
      ensures MayLaunch(Ledger(run[..i]), TRIGGER, run[i].now, run[i].dead) && FreshStart(run[i].e, TRIGGER, Ledger(run[..i]))
    {
      var j := RevivalsPrefix(n, i);
      RefusalsRefused(j);
      RefusedSpendsNothing(Ledger(Refusals(j)), TRIGGER, 0);
      RefusalsFresh(j);
    }
  }

  lemma RefusalsFresh(j: nat)
    ensures FreshStart(Started(j), TRIGGER, Ledger(Refusals(j)))
  {
    var ledger := Ledger(Refusals(j));
    RefusalsLength(j);
    hide Refusals;
    forall i | 0 <= i < |ledger| ensures ledger[i].spawn != Numbered(Builder, j) {
      RefusalAt(j, i / 2);
      assert i == 2 * (i / 2) || i == 2 * (i / 2) + 1;
    }
  }

  // ---------------------------------------------------------------- what it uses

  function Spawns(n: nat): (s: set<Spawn>)
    ensures |s| == n && forall x :: x in s <==> x.Numbered? && x.role == Builder && x.n < n
  { if n == 0 then {} else Spawns(n - 1) + {Numbered(Builder, n - 1)} }

  lemma RevivalsLaunched(n: nat)
    ensures Launched(Revivals(n)) == Spawns(n)
  {
    var run := Revivals(n);
    RefusalsLength(n);
    forall s | s in Spawns(n) ensures s in Launched(run) {
      RefusalAt(n, s.n);
      assert run[2 * s.n] == Refusals(n)[2 * s.n];
    }
    hide Revivals;
    forall s | s in Launched(run) ensures s in Spawns(n) {
      var i :| 0 <= i < |run| && run[i].Launch? && run[i].e.spawn == s;
      var j := RevivalsPrefix(n, i);
    }
  }

  lemma RevivalAt(n: nat, i: nat)
    requires i < |Revivals(n)|
    ensures Revivals(n)[i].e.subject == "s" && Revivals(n)[i].e.ts == 0
  {
    RefusalsLength(n);
    if i < 2 * n {
      RefusalAt(n, i / 2);
      assert i == 2 * (i / 2) || i == 2 * (i / 2) + 1;
    }
    hide Refusals;
  }

  lemma NothingOlder(n: nat)
    ensures ViewFrom(Ledger(Revivals(n)), "s", 0, Builder, 0, {}).older == {}
  {
    var evs := Ledger(Revivals(n));
    var rows := SortRows(Own(evs, "s"));
    JoinFiled(rows, Builder);
    hide Join;
    forall g | g in Join(rows, Builder).groups ensures !BegunBefore(g, 0) {
      if g.rows != [] {
        var r := g.rows[0];
        assert r in g.rows && RowFiled(g, r, rows, Builder);
        RowIs(evs, "s", r);
        RevivalAt(n, r.idx);
      }
    }
  }

  function BrokenRow(n: nat, j: nat): Row { Row(0, 2 * n + j, Broken(j)) }

  lemma BrokenIn(n: nat, j: nat)
    requires j < n
    ensures BrokenRow(n, j) in SortRows(Own(Ledger(Revivals(n)), "s"))
  {
    var evs := Ledger(Revivals(n));
    RefusalsLength(n);
    assert evs[2 * n + j] == Broken(j);
    RowIn(evs, "s", 2 * n + j);
  }

  lemma BrokenFails(n: nat, j: nat)
    ensures var r := BrokenRow(n, j); IsAttempt(r, Builder) && Fails(r.e.kind) && !Refusal(r.e)
  {}

  lemma BrokenCounts(n: nat, g: Group, j: nat)
    requires j < n && g.key == BySpawn(Numbered(Builder, j)) && g in ViewFrom(Ledger(Revivals(n)), "s", 0, Builder, 0, {}).groups
    ensures !OnlyRefused(ViewFrom(Ledger(Revivals(n)), "s", 0, Builder, 0, {}), g)
  {
    hide Revivals, Own, SortRows, Join, ViewOf, IsAttempt, Fails, Refusal;
    BrokenIn(n, j);
    BrokenFails(n, j);
    GroupHolds(SortRows(Own(Ledger(Revivals(n)), "s")), Builder, 0, 0, {}, g, BrokenRow(n, j));
  }

  /** Every launch that was only refused may count later: for any n, n disciplined launches that all do. */
  lemma RefusalsTakenBack(n: nat)
    ensures exists run ::
      Disciplined(run, TRIGGER) &&
      |BudgetUsed(run, ViewFrom(Ledger(run), TRIGGER.subject, TRIGGER.threshold, TRIGGER.role, 0, {}))| == n
  {
    var run := Revivals(n);
    var v := ViewFrom(Ledger(run), "s", 0, Builder, 0, {});
    RevivalsDisciplined(n);
    RevivalsLaunched(n);
    NothingOlder(n);
    hide ViewFrom, Revivals, OnlyRefused, Disciplined, Launched;
    forall s | s in Spawns(n) ensures !RefusedSpawn(v, s) {
      forall g | g in v.groups && g.key == BySpawn(s) ensures !OnlyRefused(v, g) { BrokenCounts(n, g, s.n); }
    }
    assert BudgetUsed(run, v) == Spawns(n);
  }
}
