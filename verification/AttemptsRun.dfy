/** What counts in a whole run, and which events make a refused launch count after all (`history`, src/attempts.py). */
module AttemptsRun {
  import opened Seqs
  import opened Attempts
  import opened AttemptsBudget

  // ---------------------------------------------------------------- what a spawn's group holds

  lemma AddKeeps(groups: seq<Group>, key: Key, row: Row, k: Key)
    requires HasKey(groups, k)
    ensures HasKey(Add(groups, key, row), k)
  {
    var i, added := IndexOf(groups, k), Add(groups, key, row);
    assert added[i].key == k;
  }

  lemma {:induction false} KeysStay(groups: seq<Group>, rows: seq<Row>, role: Role, k: Key)
    requires HasKey(groups, k)
    ensures HasKey(WithDispatchFailures(groups, rows, role), k)
  {
    hide Add, HasKey;
    if rows != [] {
      var init, row := rows[..|rows| - 1], rows[|rows| - 1];
      KeysStay(groups, init, role, k);
      AddKeeps(WithDispatchFailures(groups, init, role), BySpawn(row.e.spawn), row, k);
    }
  }

  /** A dispatch failure whose spawn has a group joins it. */
  lemma {:induction false} FailuresHeld(groups: seq<Group>, rows: seq<Row>, role: Role, r: Row)
    requires r in rows && r.e.kind.AutodispatchFailed? && OfRole(r, role) && HasKey(groups, BySpawn(r.e.spawn))
    ensures Holds(WithDispatchFailures(groups, rows, role), BySpawn(r.e.spawn), r)
  {
    hide Add, HasKey, Holds;
    var init, row := rows[..|rows| - 1], rows[|rows| - 1];
    var before := WithDispatchFailures(groups, init, role);
    assert rows == init + [row];
    AddHolds(before, BySpawn(row.e.spawn), row);
    if r in init { FailuresHeld(groups, init, role, r); }
    else { KeysStay(groups, init, role, BySpawn(r.e.spawn)); }
  }

  lemma HeldHasKey(groups: seq<Group>, key: Key, r: Row)
    requires Holds(groups, key, r)
    ensures HasKey(groups, key)
  {}

  lemma FailureHeld(rows: seq<Row>, role: Role, r: Row, a: Row)
    requires r in rows && r.e.kind.AutodispatchFailed? && OfRole(r, role)
    requires a in rows && IsAttempt(a, role) && a.e.spawn == r.e.spawn
    ensures Holds(Join(rows, role).groups, BySpawn(r.e.spawn), r)
  {
    hide Spawned, WithDispatchFailures, JoinMarkers, SortGroups, Holds, Filed, HasKey, IsAttempt;
    var spawned := Spawned(rows, role);
    SpawnedFiled(rows, rows, role);
    HeldHasKey(spawned, BySpawn(a.e.spawn), a);
    FailuresHeld(spawned, rows, role, r);
    DispatchFailuresFiled(spawned, rows, rows, role);
    var attempts := WithDispatchFailures(spawned, rows, role);
    JoinMarkersFiled(Joined(attempts, {}), rows, role, rows);
    SortGroupsFiled(JoinMarkers(Joined(attempts, {}), rows, role, rows).groups, rows, role);
  }

  /** A group holds every attempt event of its spawn. */
  lemma GroupHolds(rows: seq<Row>, role: Role, threshold: int, now: int, dead: set<Spawn>, g: Group, r: Row)
    requires g in ViewOf(rows, Join(rows, role), threshold, role, now, dead).groups
    requires r in rows && IsAttempt(r, role) && g.key == BySpawn(r.e.spawn)
    ensures r in g.rows
  {
    FilterIn(Join(rows, role).groups, g => !BegunBefore(g, threshold));
    JoinFiled(rows, role);
    hide Join, IsAttempt;
    assert Holds(Join(rows, role).groups, BySpawn(r.e.spawn), r);
  }

  // ---------------------------------------------------------------- the events behind a refusal

  /** An event of the role under that spawn id. */
  predicate Under(e: Event, t: Trigger, s: Spawn) { e.subject == t.subject && RoleOf(e) == Some(t.role) && e.spawn == s }

  /** What makes it count whatever else there is: a failure that is no refusal, or its end. */
  predicate Settles(e: Event) { (Fails(e.kind) && !Refusal(e)) || e.kind.SpawnDone? }

  /** Since the trigger, an event of the subject says that it is dead. */
  predicate Buries(e: Event, t: Trigger, s: Spawn) { e.subject == t.subject && e.ts >= t.threshold && NamesDead(Row(e.ts, 0, e)) == s }

  ghost predicate TurnedAway(evs: seq<Event>, t: Trigger, s: Spawn) { exists e | e in evs :: Under(e, t, s) && Fails(e.kind) }

  ghost predicate TakenBack(evs: seq<Event>, t: Trigger, dead: set<Spawn>, s: Spawn) {
    s in dead || exists e | e in evs :: (Under(e, t, s) && Settles(e)) || Buries(e, t, s)
  }

  lemma {:induction false} OwnOnly(evs: seq<Event>, subject: string, r: Row)
    requires r in Own(evs, subject)
    ensures r.idx < |evs| && r == Row(evs[r.idx].ts, r.idx, evs[r.idx]) && r.e.subject == subject
  { if r !in Own(evs[..|evs| - 1], subject) {} else { OwnOnly(evs[..|evs| - 1], subject, r); } }

  lemma RowIs(evs: seq<Event>, subject: string, r: Row)
    requires r in SortRows(Own(evs, subject))
    ensures r.idx < |evs| && r == Row(evs[r.idx].ts, r.idx, evs[r.idx]) && r.e.subject == subject
  {
    SortIn(Own(evs, subject), Before);
    OwnOnly(evs, subject, r);
  }

  lemma RowIn(evs: seq<Event>, subject: string, i: nat)
    requires i < |evs| && evs[i].subject == subject
    ensures Row(evs[i].ts, i, evs[i]) in SortRows(Own(evs, subject))
  {
    OwnIn(evs, subject, i);
    SortIn(Own(evs, subject), Before);
  }

  /** The rows of a subject are its events. */
  lemma RowsAre(evs: seq<Event>, subject: string)
    ensures forall r | r in SortRows(Own(evs, subject)) :: r.e in evs && r.e.subject == subject && r.ts == r.e.ts
    ensures forall e | e in evs && e.subject == subject :: exists r | r in SortRows(Own(evs, subject)) :: r.e == e
  {
    hide Own, SortRows;
    forall r | r in SortRows(Own(evs, subject)) ensures r.e in evs && r.e.subject == subject && r.ts == r.e.ts {
      RowIs(evs, subject, r);
    }
    forall e | e in evs && e.subject == subject ensures exists r | r in SortRows(Own(evs, subject)) :: r.e == e {
      var i :| 0 <= i < |evs| && evs[i] == e;
      RowIn(evs, subject, i);
      assert Row(evs[i].ts, i, evs[i]).e == e;
    }
  }

  /** The rows a group's fate hangs on. */
  predicate Ends(e: Event) { Fails(e.kind) || e.kind.SpawnDone? }

  /** A launched spawn's group holds every ending of the spawn and no other's. */
  lemma EndingsHeld(rows: seq<Row>, t: Trigger, now: int, dead: set<Spawn>, g: Group, s: Spawn, a: Row, r: Row)
    requires var v := ViewOf(rows, Join(rows, t.role), t.threshold, t.role, now, dead); g in v.groups && g.key == BySpawn(s)
    requires a in rows && IsAttempt(a, t.role) && a.e.spawn == s && Ends(r.e)
    ensures r in g.rows <==> r in rows && OfRole(r, t.role) && r.e.spawn == s
  {
    var groups := Join(rows, t.role).groups;
    JoinFiled(rows, t.role);
    FilterIn(groups, g => !BegunBefore(g, t.threshold));
    assert g in groups;
    hide Join, ViewOf;
    if r in g.rows { assert RowFiled(g, r, rows, t.role); }
    else if r in rows && OfRole(r, t.role) && r.e.spawn == s {
      if r.e.kind.AutodispatchFailed? { FailureHeld(rows, t.role, r, a); } else { assert IsAttempt(r, t.role); }
      assert Holds(groups, BySpawn(s), r);
      var h :| h in groups && h.key == BySpawn(s) && r in h.rows;
      SameKey(groups, g, h);
    }
  }

  lemma SameKey(groups: seq<Group>, g: Group, h: Group)
    requires DistinctKeys(groups) && g in groups && h in groups && g.key == h.key
    ensures g == h
  {}

  /** What the ledger says of a launched spawn, against the rows of its group. */
  lemma GroupTells(evs: seq<Event>, t: Trigger, now: int, dead: set<Spawn>, g: Group, s: Spawn, a: Row)
    requires var v := ViewFrom(evs, t.subject, t.threshold, t.role, now, dead); g in v.groups && g.key == BySpawn(s)
    requires a in SortRows(Own(evs, t.subject)) && IsAttempt(a, t.role) && a.e.spawn == s
    ensures forall r | r in g.rows && Ends(r.e) :: r.e in evs && Under(r.e, t, s)
    ensures forall e | e in evs && Under(e, t, s) && Ends(e) :: exists r | r in g.rows :: r.e == e
  {
    var rows := SortRows(Own(evs, t.subject));
    RowsAre(evs, t.subject);
    hide Own, SortRows, Join, ViewOf, IsAttempt, Fails;
    forall r | r in g.rows && Ends(r.e) ensures r.e in evs && Under(r.e, t, s) { EndingsHeld(rows, t, now, dead, g, s, a, r); }
    forall e | e in evs && Under(e, t, s) && Ends(e) ensures exists r | r in g.rows :: r.e == e {
      var r :| r in rows && r.e == e;
      EndingsHeld(rows, t, now, dead, g, s, a, r);
    }
  }

  lemma DeadIs(evs: seq<Event>, t: Trigger, now: int, dead: set<Spawn>, s: Spawn)
    requires !s.NoSpawn?
    ensures IsDead(ViewFrom(evs, t.subject, t.threshold, t.role, now, dead), BySpawn(s)) <==>
      s in dead || exists e | e in evs :: Buries(e, t, s)
  {
    var rows := SortRows(Own(evs, t.subject));
    RowsAre(evs, t.subject);
    FilterIn(rows, (r: Row) => r.ts >= t.threshold);
    hide Own, SortRows, Join, Filter;
    var v := ViewFrom(evs, t.subject, t.threshold, t.role, now, dead);
    if s in DeadIn(v.recent) {
      var r :| r in v.recent && NamesDead(r) == s;
      assert Buries(r.e, t, s);
    }
    if e :| e in evs && Buries(e, t, s) {
      var r :| r in rows && r.e == e;
      assert r in v.recent && NamesDead(r) == s;
    }
  }

  lemma OnlyRefusedIs(evs: seq<Event>, t: Trigger, dead: set<Spawn>, s: Spawn, v: View, g: Group)
    requires forall r | r in g.rows && Ends(r.e) :: r.e in evs && Under(r.e, t, s)
    requires forall e | e in evs && Under(e, t, s) && Ends(e) :: exists r | r in g.rows :: r.e == e
    requires IsDead(v, g.key) <==> s in dead || exists e | e in evs :: Buries(e, t, s)
    ensures OnlyRefused(v, g) <==> TurnedAway(evs, t, s) && !TakenBack(evs, t, dead, s)
  {
    hide IsDead, Buries, Under, Refusal, Fails;
    if TurnedAway(evs, t, s) {
      var e :| e in evs && Under(e, t, s) && Fails(e.kind);
      assert Ends(e);
      var r :| r in g.rows && r.e == e;
      assert Fails(r.e.kind);
    }
    if e :| e in evs && Under(e, t, s) && Settles(e) {
      assert Ends(e);
      var r :| r in g.rows && r.e == e;
      assert !OnlyRefused(v, g);
    }
    if r :| r in g.rows && Ends(r.e) && Settles(r.e) { assert TakenBack(evs, t, dead, s); }
    if r :| r in g.rows && Fails(r.e.kind) { assert Ends(r.e); assert TurnedAway(evs, t, s); }
  }

  /** A launched attempt, its group not begun before the trigger, is one that was only refused exactly when it was
      turned away and nothing has taken that back. */
  lemma RefusedExactly(run: seq<Step>, t: Trigger, now: int, dead: set<Spawn>, s: Spawn)
    requires Disciplined(run, t) && s in Launched(run)
    requires BySpawn(s) !in ViewFrom(Ledger(run), t.subject, t.threshold, t.role, now, dead).older
    ensures RefusedSpawn(ViewFrom(Ledger(run), t.subject, t.threshold, t.role, now, dead), s) <==>
      TurnedAway(Ledger(run), t, s) && !TakenBack(Ledger(run), t, dead, s)
  {
    var evs := Ledger(run);
    var v := ViewFrom(evs, t.subject, t.threshold, t.role, now, dead);
    var a := LaunchRow(run, t, s);
    LaunchedHasGroup(run, t, now, dead, s);
    var g :| g in v.groups && g.key == BySpawn(s);
    ViewGrounded(SortRows(Own(evs, t.subject)), t.threshold, t.role, now, dead);
    assert DistinctKeys(v.groups);
    hide Own, SortRows, Join, ViewOf, IsAttempt, OnlyRefused, Grounded, Ledger, Disciplined, Launched;
    GroupTells(evs, t, now, dead, g, s, a);
    DeadIs(evs, t, now, dead, s);
    OnlyRefusedIs(evs, t, dead, s, v, g);
    forall h | h in v.groups && h.key == BySpawn(s) ensures h == g { SameKey(v.groups, g, h); }
  }

  lemma LaunchRow(run: seq<Step>, t: Trigger, s: Spawn) returns (a: Row)
    requires Disciplined(run, t) && s in Launched(run)
    ensures a in SortRows(Own(Ledger(run), t.subject)) && IsAttempt(a, t.role) && a.e.spawn == s && !s.NoSpawn?
    ensures a.e.kind.SpawnStarted? || a.e.kind.BuildStarted?
  {
    var evs := Ledger(run);
    var i :| 0 <= i < |run| && run[i].Launch? && run[i].e.spawn == s;
    hide Own, SortRows;
    RowIn(evs, t.subject, i);
    a := Row(evs[i].ts, i, evs[i]);
  }

  // ---------------------------------------------------------------- launches begun before the trigger

  /** A marker of the role from before the trigger. */
  predicate OldMarker(e: Event, t: Trigger) {
    e.subject == t.subject && RoleOf(e) == Some(t.role) && e.kind.Autodispatched? && e.ts < t.threshold
  }

  lemma OlderHas(rows: seq<Row>, t: Trigger, now: int, dead: set<Spawn>, s: Spawn) returns (r: Row)
    requires !s.NoSpawn? && BySpawn(s) in ViewOf(rows, Join(rows, t.role), t.threshold, t.role, now, dead).older
    ensures r in rows && r.ts < t.threshold && OfRole(r, t.role)
    ensures r.e.kind.Autodispatched? || ((AttemptEvent(r.e.kind) || r.e.kind.AutodispatchFailed?) && r.e.spawn == s)
  {
    var groups := Join(rows, t.role).groups;
    JoinFiled(rows, t.role);
    var g :| g in groups && BegunBefore(g, t.threshold) && g.key == BySpawn(s);
    hide Join;
    r := g.rows[0];
    assert r in g.rows && RowFiled(g, r, rows, t.role);
  }

  lemma OwnMakesOlder(rows: seq<Row>, t: Trigger, now: int, dead: set<Spawn>, s: Spawn, a: Row, r: Row)
    requires a in rows && IsAttempt(a, t.role) && a.e.spawn == s
    requires r in rows && OfRole(r, t.role) && r.e.spawn == s && r.ts < t.threshold
    requires AttemptEvent(r.e.kind) || r.e.kind.AutodispatchFailed?
    ensures BySpawn(s) in ViewOf(rows, Join(rows, t.role), t.threshold, t.role, now, dead).older
  {
    JoinFiled(rows, t.role);
    if r.e.kind.AutodispatchFailed? { FailureHeld(rows, t.role, r, a); } else { assert IsAttempt(r, t.role); }
    assert Holds(Join(rows, t.role).groups, BySpawn(s), r);
    var g :| g in Join(rows, t.role).groups && g.key == BySpawn(s) && r in g.rows;
    SortGroupsOrdered(JoinMarkers(Joined(WithDispatchFailures(Spawned(rows, t.role), rows, t.role), {}), rows, t.role, rows).groups, g);
    hide Join;
    if !BegunBefore(g, t.threshold) { RecentRows(g, r, t.threshold); }
  }

  lemma LedgerGrows(run: seq<Step>, k: nat)
    requires k <= |run|
    ensures forall e | e in Ledger(run[..k]) :: e in Ledger(run)
  {
    forall e | e in Ledger(run[..k]) ensures e in Ledger(run) {
      var i :| 0 <= i < k && Ledger(run[..k])[i] == e;
      assert Ledger(run)[i] == e;
    }
  }

  /** A launch whose group began before the trigger stays one, unless a marker of that time had joined it. */
  lemma StaysOlder(run: seq<Step>, k: nat, t: Trigger, now: int, dead: set<Spawn>, at: int, deadThen: set<Spawn>, s: Spawn)
    requires Disciplined(run, t) && k <= |run| && s in Launched(run) && forall e | e in Ledger(run[..k]) :: !OldMarker(e, t)
    requires BySpawn(s) in ViewFrom(Ledger(run[..k]), t.subject, t.threshold, t.role, at, deadThen).older
    ensures BySpawn(s) in ViewFrom(Ledger(run), t.subject, t.threshold, t.role, now, dead).older
  {
    var a := LaunchRow(run, t, s);
    hide Own, SortRows, Join, ViewOf, IsAttempt, Disciplined, Launched, Ledger;
    var r := OlderHas(SortRows(Own(Ledger(run[..k]), t.subject)), t, at, deadThen, s);
    RowsAre(Ledger(run[..k]), t.subject);
    assert r.e in Ledger(run[..k]) && !OldMarker(r.e, t);
    LedgerGrows(run, k);
    RowsAre(Ledger(run), t.subject);
    var q :| q in SortRows(Own(Ledger(run), t.subject)) && q.e == r.e;
    OwnMakesOlder(SortRows(Own(Ledger(run), t.subject)), t, now, dead, s, a, q);
  }

  // ---------------------------------------------------------------- a whole run

  lemma LaunchedTo(run: seq<Step>, k: nat)
    requires k < |run| && run[k].Launch? && forall i | k < i < |run| :: !run[i].Launch?
    ensures Launched(run) == Launched(run[..k]) + {run[k].e.spawn}
  {
    forall i | 0 <= i < k ensures run[..k][i] == run[i] {}
    forall s | s in Launched(run) ensures s in Launched(run[..k]) + {run[k].e.spawn} {
      var i :| 0 <= i < |run| && run[i].Launch? && run[i].e.spawn == s;
      if i < k { assert run[..k][i].e.spawn == s; }
    }
    forall s | s in Launched(run[..k]) ensures s in Launched(run) {
      var i :| 0 <= i < k && run[..k][i].Launch? && run[..k][i].e.spawn == s;
      assert run[i].e.spawn == s;
    }
  }

  lemma LaunchedBefore(run: seq<Step>, k: nat, s: Spawn)
    requires k <= |run| && s in Launched(run[..k])
    ensures s in Launched(run)
  {
    var i :| 0 <= i < k && run[..k][i].Launch? && run[..k][i].e.spawn == s;
    assert run[i].e.spawn == s;
  }

  lemma DisciplinedUpTo(run: seq<Step>, t: Trigger, k: nat)
    requires Disciplined(run, t) && k <= |run|
    ensures Disciplined(run[..k], t)
  {
    forall i | 0 <= i < k && run[..k][i].Launch?
      ensures MayLaunch(Ledger(run[..k][..i]), t, run[i].now, run[i].dead) && FreshStart(run[i].e, t, Ledger(run[..k][..i]))
    { assert run[..k][..i] == run[..i]; }
  }

  /** The launches before `k` that did not count when `k` was launched, and count in the later view. */
  ghost function Revived(run: seq<Step>, k: nat, before: View, v: View): set<Spawn>
    requires k < |run|
  {
    set s | s in BudgetUsed(run, v) && s in Launched(run[..k]) && s !in BudgetUsed(run[..k], before)
  }

  /** At `k` it had only been turned away, and by the end of the run that has been taken back. */
  ghost predicate Reopens(run: seq<Step>, k: nat, t: Trigger, dead: set<Spawn>, s: Spawn)
    requires k < |run| && run[k].Launch?
  {
    && TurnedAway(Ledger(run[..k]), t, s) && !TakenBack(Ledger(run[..k]), t, run[k].dead, s)
    && TakenBack(Ledger(run), t, dead, s)
  }

  ghost function Reopened(run: seq<Step>, k: nat, t: Trigger, dead: set<Spawn>): set<Spawn>
    requires k < |run| && run[k].Launch?
  { set s | s in Launched(run[..k]) && Reopens(run, k, t, dead, s) }

  /** The launches whose group began before the trigger in the first view only. */
  ghost function Rejoined(run: seq<Step>, k: nat, before: View, v: View): set<Spawn>
    requires k < |run|
  { set s | s in Launched(run[..k]) && BySpawn(s) in before.older && BySpawn(s) !in v.older }

  lemma AwayGrows(run: seq<Step>, k: nat, t: Trigger, s: Spawn)
    requires k <= |run| && TurnedAway(Ledger(run[..k]), t, s)
    ensures TurnedAway(Ledger(run), t, s)
  { LedgerGrows(run, k); }

  /** Whose group began before the trigger in neither view: the events say whether it counts again. */
  lemma RevivedExactly(run: seq<Step>, t: Trigger, k: nat, now: int, dead: set<Spawn>, s: Spawn)
    requires Disciplined(run, t) && k < |run| && run[k].Launch? && s in Launched(run[..k])
    requires BySpawn(s) !in ViewFrom(Ledger(run), t.subject, t.threshold, t.role, now, dead).older
    requires BySpawn(s) !in ViewFrom(Ledger(run[..k]), t.subject, t.threshold, t.role, run[k].now, run[k].dead).older
    ensures var v := ViewFrom(Ledger(run), t.subject, t.threshold, t.role, now, dead);
            var before := ViewFrom(Ledger(run[..k]), t.subject, t.threshold, t.role, run[k].now, run[k].dead);
            s in Revived(run, k, before, v) <==> Reopens(run, k, t, dead, s)
  {
    DisciplinedUpTo(run, t, k);
    LaunchedBefore(run, k, s);
    hide ViewFrom, RefusedSpawn, Disciplined, Launched, Ledger, TurnedAway, TakenBack;
    RefusedExactly(run, t, now, dead, s);
    RefusedExactly(run[..k], t, run[k].now, run[k].dead, s);
    if TurnedAway(Ledger(run[..k]), t, s) { AwayGrows(run, k, t, s); }
  }

  lemma NotOlder(run: seq<Step>, v: View, s: Spawn)
    requires s in BudgetUsed(run, v)
    ensures BySpawn(s) !in v.older
  {}

  lemma RevivedSplit(run: seq<Step>, t: Trigger, k: nat, now: int, dead: set<Spawn>)
    requires Disciplined(run, t) && k < |run| && run[k].Launch?
    ensures var v := ViewFrom(Ledger(run), t.subject, t.threshold, t.role, now, dead);
            var before := ViewFrom(Ledger(run[..k]), t.subject, t.threshold, t.role, run[k].now, run[k].dead);
            Revived(run, k, before, v) <= Reopened(run, k, t, dead) + Rejoined(run, k, before, v)
  {
    var v := ViewFrom(Ledger(run), t.subject, t.threshold, t.role, now, dead);
    var before := ViewFrom(Ledger(run[..k]), t.subject, t.threshold, t.role, run[k].now, run[k].dead);
    hide ViewFrom, BudgetUsed, Disciplined, Launched, Ledger, Reopens;
    forall s | s in Revived(run, k, before, v) ensures s in Reopened(run, k, t, dead) + Rejoined(run, k, before, v) {
      NotOlder(run, v, s);
      if BySpawn(s) !in before.older { RevivedExactly(run, t, k, now, dead, s); }
    }
  }

  lemma BudgetAt(run: seq<Step>, t: Trigger, k: nat)
    requires Disciplined(run, t) && k < |run| && run[k].Launch?
    ensures |BudgetUsed(run[..k], ViewFrom(Ledger(run[..k]), t.subject, t.threshold, t.role, run[k].now, run[k].dead))| < MAX_ATTEMPTS
  {
    hide ViewFrom, BudgetUsed, Disciplined, Ledger;
    assert run[..k + 1] == run[..k] + [run[k]];
    DisciplinedUpTo(run, t, k + 1);
    LaunchBudget(run[..k], t, run[k]);
  }

  lemma UsedSplit(run: seq<Step>, k: nat, before: View, v: View)
    requires k < |run| && run[k].Launch? && forall i | k < i < |run| :: !run[i].Launch?
    ensures BudgetUsed(run, v) <= BudgetUsed(run[..k], before) + Revived(run, k, before, v) + {run[k].e.spawn}
  {
    LaunchedTo(run, k);
    hide Launched, RefusedSpawn;
  }

  lemma SizeOfSum<T>(a: set<T>, b: set<T>, c: set<T>, d: set<T>, x: T)
    requires a <= b + c + d + {x}
    ensures |a| <= |b| + |c| + |d| + 1
  { Smaller(a, b + c + d + {x}); }

  /**
   A whole disciplined run, the last launch at `k`, seen at any later time: at most MAX_ATTEMPTS of its launches
   count, and beside them those that had been turned away at `k` with nothing to take it back, and have something
   since; and those whose group began before the trigger and no longer does.
   */
  lemma RunBudget(run: seq<Step>, t: Trigger, k: nat, now: int, dead: set<Spawn>)
    requires Disciplined(run, t) && k < |run| && run[k].Launch? && forall i | k < i < |run| :: !run[i].Launch?
    ensures var v := ViewFrom(Ledger(run), t.subject, t.threshold, t.role, now, dead);
            var before := ViewFrom(Ledger(run[..k]), t.subject, t.threshold, t.role, run[k].now, run[k].dead);
            |BudgetUsed(run, v)| <= MAX_ATTEMPTS + |Reopened(run, k, t, dead)| + |Rejoined(run, k, before, v)|
  {
    var v := ViewFrom(Ledger(run), t.subject, t.threshold, t.role, now, dead);
    var before := ViewFrom(Ledger(run[..k]), t.subject, t.threshold, t.role, run[k].now, run[k].dead);
    hide ViewFrom, BudgetUsed, Disciplined, Launched, Ledger, Revived, Reopened, Rejoined;
    BudgetAt(run, t, k);
    UsedSplit(run, k, before, v);
    RevivedSplit(run, t, k, now, dead);
    SizeOfSum(BudgetUsed(run, v), BudgetUsed(run[..k], before), Reopened(run, k, t, dead), Rejoined(run, k, before, v), run[k].e.spawn);
  }

  /** So the limit holds of a run in which nothing is taken back after the last launch and no marker of the role is
      older than the trigger. */
  lemma RunWithinBudget(run: seq<Step>, t: Trigger, k: nat, now: int, dead: set<Spawn>)
    requires Disciplined(run, t) && k < |run| && run[k].Launch? && forall i | k < i < |run| :: !run[i].Launch?
    requires forall s | s in Launched(run[..k]) :: !Reopens(run, k, t, dead, s)
    requires forall e | e in Ledger(run[..k]) :: !OldMarker(e, t)
    ensures |BudgetUsed(run, ViewFrom(Ledger(run), t.subject, t.threshold, t.role, now, dead))| <= MAX_ATTEMPTS
  {
    var v := ViewFrom(Ledger(run), t.subject, t.threshold, t.role, now, dead);
    var before := ViewFrom(Ledger(run[..k]), t.subject, t.threshold, t.role, run[k].now, run[k].dead);
    RunBudget(run, t, k, now, dead);
    hide ViewFrom, BudgetUsed, Disciplined, Launched, Ledger, Reopens, OldMarker;
    forall s | s in Launched(run[..k]) && BySpawn(s) in before.older ensures BySpawn(s) in v.older {
      LaunchedBefore(run, k, s);
      StaysOlder(run, k, t, now, dead, run[k].now, run[k].dead, s);
    }
    assert Reopened(run, k, t, dead) == {} && Rejoined(run, k, before, v) == {};
  }
}
