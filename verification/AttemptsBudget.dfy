/** The launch budget: a launcher that asks `history` first is bounded (src/attempts.py). */
module AttemptsBudget {
  // Once `history` says neither consumed nor live, every attempt begun since the trigger has been counted or was
  // only refused, so at each launch fewer than three of those before it count.

  import opened Seqs
  import opened Attempts

  // ---------------------------------------------------------------- how rows are filed

  ghost predicate RowFiled(g: Group, r: Row, rows: seq<Row>, role: Role) {
    && r in rows && OfRole(r, role)
    && (AttemptEvent(r.e.kind) || r.e.kind.AutodispatchFailed? || r.e.kind.Autodispatched?)
    && (AttemptEvent(r.e.kind) ==> !r.e.spawn.NoSpawn? && g.key == BySpawn(r.e.spawn))
    && (r.e.kind.AutodispatchFailed? ==> g.key == ReceiptKey(r))
  }

  ghost predicate DistinctKeys(groups: seq<Group>) {
    forall i, j | 0 <= i < j < |groups| :: groups[i].key != groups[j].key
  }

  ghost predicate RowsFiled(groups: seq<Group>, rows: seq<Row>, role: Role) {
    forall g, r | g in groups && r in g.rows :: RowFiled(g, r, rows, role)
  }

  ghost predicate Filed(groups: seq<Group>, rows: seq<Row>, role: Role) {
    DistinctKeys(groups) && NoneNameless(groups) && RowsFiled(groups, rows, role)
  }

  /** No group is filed under the absence of a spawn id. */
  ghost predicate NoneNameless(groups: seq<Group>) { forall g | g in groups :: g.key != BySpawn(NoSpawn) }

  ghost predicate Holds(groups: seq<Group>, key: Key, r: Row) {
    exists g | g in groups :: g.key == key && r in g.rows
  }

  ghost predicate AllHeld(groups: seq<Group>, rows: seq<Row>, role: Role) {
    forall r | r in rows && IsAttempt(r, role) :: Holds(groups, BySpawn(r.e.spawn), r)
  }

  lemma AddDistinct(groups: seq<Group>, key: Key, row: Row)
    requires DistinctKeys(groups)
    ensures DistinctKeys(Add(groups, key, row))
  {}

  lemma AddNamed(groups: seq<Group>, key: Key, row: Row)
    requires NoneNameless(groups) && key != BySpawn(NoSpawn)
    ensures NoneNameless(Add(groups, key, row))
  {}

  lemma AddFiled(groups: seq<Group>, key: Key, row: Row, rows: seq<Row>, role: Role)
    requires Filed(groups, rows, role) && RowFiled(Group(key, []), row, rows, role) && key != BySpawn(NoSpawn)
    ensures Filed(Add(groups, key, row), rows, role)
  {
    AddDistinct(groups, key, row);
    AddNamed(groups, key, row);
    var added := Add(groups, key, row);
    forall g, r | g in added && r in g.rows ensures RowFiled(g, r, rows, role) {
      var i := IndexOf(groups, key);
      if i < |groups| {
        if g in groups {} else { assert g == Group(key, groups[i].rows + [row]) && groups[i] in groups; }
      }
    }
  }

  lemma AddHolds(groups: seq<Group>, key: Key, row: Row)
    ensures Holds(Add(groups, key, row), key, row)
    ensures forall k, r | Holds(groups, k, r) :: Holds(Add(groups, key, row), k, r)
  {
    var i, added := IndexOf(groups, key), Add(groups, key, row);
    assert if i < |groups| then added[i] == Group(key, groups[i].rows + [row]) else added[i] == Group(key, [row]);
    assert added[i] in added;
    forall k, r | Holds(groups, k, r) ensures Holds(added, k, r) {
      var g :| g in groups && g.key == k && r in g.rows;
      var j :| 0 <= j < |groups| && groups[j] == g;
      assert added[j] in added && added[j].key == k && r in added[j].rows;
    }
  }

  /** Both invariants of the joining passes. */
  ghost predicate Kept(before: seq<Group>, groups: seq<Group>, rows: seq<Row>, role: Role) {
    && Filed(groups, rows, role)
    && forall k, r | Holds(before, k, r) :: Holds(groups, k, r)
  }

  lemma SpawnedFiled(rows: seq<Row>, all: seq<Row>, role: Role)
    requires forall r | r in rows :: r in all
    ensures Filed(Spawned(rows, role), all, role) && AllHeld(Spawned(rows, role), rows, role)
  {
    if rows != [] {
      var init, row := rows[..|rows| - 1], rows[|rows| - 1];
      assert forall r :: r in rows <==> r in init || r == row;
      SpawnedFiled(init, all, role);
      if IsAttempt(row, role) {
        AddFiled(Spawned(init, role), BySpawn(row.e.spawn), row, all, role);
        AddHolds(Spawned(init, role), BySpawn(row.e.spawn), row);
      }
      hide Add, Holds, RowFiled;
    }
  }

  lemma DispatchFailuresFiled(groups: seq<Group>, rows: seq<Row>, all: seq<Row>, role: Role)
    requires forall r | r in rows :: r in all
    requires Filed(groups, all, role)
    ensures Kept(groups, WithDispatchFailures(groups, rows, role), all, role)
  {
    if rows != [] {
      var init, row := rows[..|rows| - 1], rows[|rows| - 1];
      assert forall r :: r in rows <==> r in init || r == row;
      DispatchFailuresFiled(groups, init, all, role);
      var g := WithDispatchFailures(groups, init, role);
      if JoinsGroup(row, role, g) {
        AddFiled(g, BySpawn(row.e.spawn), row, all, role);
        AddHolds(g, BySpawn(row.e.spawn), row);
      }
      hide Add, Holds;
    }
  }

  lemma FollowingFiled(rows: seq<Row>, marker: Row, role: Role)
    ensures var receipt := FirstFollowing(rows, marker, role);
            receipt.Some? ==> receipt.value in rows && OfRole(receipt.value, role)
  {
    FirstIs(rows, r => Follows(r, marker, role));
  }

  lemma JoinMarkerFiled(j: Joined, rows: seq<Row>, role: Role, marker: Row)
    requires Filed(j.groups, rows, role) && marker in rows && IsMarker(marker, role)
    ensures Kept(j.groups, JoinMarker(j, rows, role, marker).groups, rows, role)
  {
    var found, receipt := FirstMatch(marker, j.groups), FirstFollowing(rows, marker, role);
    FollowingFiled(rows, marker, role);
    if found.Some? { FirstIs(j.groups, g => Matches(marker, g)); }
    var groups := if found.None? && TakesReceipt(receipt, j.associated) && receipt.value.e.kind.AutodispatchFailed?
                  then Add(j.groups, ReceiptKey(receipt.value), receipt.value) else j.groups;
    if groups != j.groups {
      AddFiled(j.groups, ReceiptKey(receipt.value), receipt.value, rows, role);
      AddHolds(j.groups, ReceiptKey(receipt.value), receipt.value);
    }
    var key := if found.Some? then found.value.key
               else if TakesReceipt(receipt, j.associated) then ReceiptKey(receipt.value)
               else BySpawn(marker.e.spawn);
    AddFiled(groups, key, marker, rows, role);
    AddHolds(groups, key, marker);
    hide Add, Holds, Filed;
  }

  lemma JoinMarkersFiled(j: Joined, rows: seq<Row>, role: Role, markers: seq<Row>)
    requires forall r | r in markers :: r in rows
    requires Filed(j.groups, rows, role)
    ensures Kept(j.groups, JoinMarkers(j, rows, role, markers).groups, rows, role)
  {
    if markers != [] {
      var init, marker := markers[..|markers| - 1], markers[|markers| - 1];
      assert forall r :: r in markers <==> r in init || r == marker;
      JoinMarkersFiled(j, rows, role, init);
      if IsMarker(marker, role) { JoinMarkerFiled(JoinMarkers(j, rows, role, init), rows, role, marker); }
      hide JoinMarker, Filed, Holds;
    }
  }

  lemma SortGroupsFiled(groups: seq<Group>, rows: seq<Row>, role: Role)
    requires Filed(groups, rows, role)
    ensures Kept(groups, SortGroups(groups), rows, role)
  {
    var sorted := SortGroups(groups);
    forall i | 0 <= i < |groups| ensures sorted[i].key == groups[i].key && forall r :: r in sorted[i].rows <==> r in groups[i].rows {
      SortIn(groups[i].rows, Before);
    }
    forall g, r | g in sorted && r in g.rows ensures RowFiled(g, r, rows, role) {
      var i :| 0 <= i < |sorted| && sorted[i] == g;
      assert groups[i] in groups && r in groups[i].rows;
      assert RowFiled(groups[i], r, rows, role);
    }
    forall k, r | Holds(groups, k, r) ensures Holds(sorted, k, r) {
      var g :| g in groups && g.key == k && r in g.rows;
      var i :| 0 <= i < |groups| && groups[i] == g;
      assert sorted[i] in sorted;
    }
  }

  /**
   Every attempt event of the role is filed under its own spawn, nothing else is, and no two groups share a
   key.
   */
  lemma JoinFiled(rows: seq<Row>, role: Role)
    ensures Filed(Join(rows, role).groups, rows, role)
    ensures AllHeld(Join(rows, role).groups, rows, role)
  {
    SpawnedFiled(rows, rows, role);
    DispatchFailuresFiled(Spawned(rows, role), rows, rows, role);
    var attempts := WithDispatchFailures(Spawned(rows, role), rows, role);
    JoinMarkersFiled(Joined(attempts, {}), rows, role, rows);
    SortGroupsFiled(JoinMarkers(Joined(attempts, {}), rows, role, rows).groups, rows, role);
    hide Spawned, WithDispatchFailures, JoinMarkers, SortGroups, Holds, Filed;
  }

  // ---------------------------------------------------------------- the groups since the trigger

  /** The view `history` takes of an event list. */
  function ViewFrom(evs: seq<Event>, subject: string, threshold: int, role: Role, now: int, dead: set<Spawn>): View {
    var rows := SortRows(Own(evs, subject));
    ViewOf(rows, Join(rows, role), threshold, role, now, dead)
  }

  lemma RowsInOrder(rows: seq<Row>)
    ensures InOrder(SortRows(rows), Before)
  {
    SortInOrder(rows, Before);
  }

  /** What the classification relies on: groups are sorted, nonempty, distinct and of recent rows only. */
  ghost predicate Grounded(v: View) {
    && DistinctKeys(v.groups)
    && (forall g | g in v.groups :: g.rows != [] && g.key !in v.older)
    && RowsFiled(v.groups, v.recent, v.role)
  }

  lemma FilterDistinct(groups: seq<Group>, p: Group -> bool)
    requires DistinctKeys(groups)
    ensures DistinctKeys(Filter(groups, p))
  {
    if groups != [] {
      FilterDistinct(groups[..|groups| - 1], p);
      FilterIn(groups[..|groups| - 1], p);
      forall g | g in Filter(groups[..|groups| - 1], p) ensures g.key != groups[|groups| - 1].key {
        var i :| 0 <= i < |groups| - 1 && groups[i] == g;
      }
    }
  }

  lemma SortGroupsOrdered(groups: seq<Group>, g: Group)
    requires g in SortGroups(groups)
    ensures InOrder(g.rows, Before)
  {
    var i :| 0 <= i < |groups| && SortGroups(groups)[i] == g;
    RowsInOrder(groups[i].rows);
  }

  lemma RecentRows(g: Group, r: Row, threshold: int)
    requires InOrder(g.rows, Before) && r in g.rows && !BegunBefore(g, threshold)
    ensures r.ts >= threshold
  {
    var i :| 0 <= i < |g.rows| && g.rows[i] == r;
    if i > 0 { assert !Before(g.rows[i], g.rows[0]); }
  }

  lemma ViewGrounded(rows: seq<Row>, threshold: int, role: Role, now: int, dead: set<Spawn>)
    ensures Grounded(ViewOf(rows, Join(rows, role), threshold, role, now, dead))
  {
    var j := Join(rows, role);
    var v := ViewOf(rows, j, threshold, role, now, dead);
    JoinFiled(rows, role);
    GroupsNonempty(rows, role);
    FilterDistinct(j.groups, g => !BegunBefore(g, threshold));
    FilterIn(j.groups, g => !BegunBefore(g, threshold));
    FilterIn(rows, (r: Row) => r.ts >= threshold);
    forall g | g in v.groups ensures g.rows != [] && g.key !in v.older {
      var i :| 0 <= i < |j.groups| && j.groups[i] == g;
    }
    forall g, r | g in v.groups && r in g.rows ensures RowFiled(g, r, v.recent, role) {
      assert RowFiled(g, r, rows, role);
      SortGroupsOrdered(JoinMarkers(Joined(WithDispatchFailures(Spawned(rows, role), rows, role), {}), rows, role, rows).groups, g);
      RecentRows(g, r, threshold);
    }
    hide Join;
  }

  // ---------------------------------------------------------------- every group is counted or refused

  /** A group that failed, but only by being turned away. */
  ghost predicate OnlyRefused(v: View, g: Group) {
    && (exists r | r in g.rows :: Fails(r.e.kind))
    && (forall r | r in g.rows && Fails(r.e.kind) :: Refusal(r.e))
    && !IsDead(v, g.key) && (forall r | r in g.rows :: !r.e.kind.SpawnDone?)
  }

  lemma GroupFacts(g: Group)
    ensures StartOf(g).Some? <==> exists r | r in g.rows :: Starts(r.e.kind)
    ensures FailureOf(g).Some? <==> exists r | r in g.rows :: Fails(r.e.kind)
    ensures RealFailureOf(g).Some? <==> exists r | r in g.rows :: Fails(r.e.kind) && !Refusal(r.e)
    ensures MarkerOf(g).Some? <==> exists r | r in g.rows :: r.e.kind.Autodispatched?
    ensures DoneOf(g).Some? <==> exists r | r in g.rows :: r.e.kind.SpawnDone?
  {
    FirstIs(g.rows, (r: Row) => Starts(r.e.kind));
    FirstIs(g.rows, (r: Row) => Fails(r.e.kind));
    FirstIs(g.rows, (r: Row) => Fails(r.e.kind) && !Refusal(r.e));
    FirstIs(g.rows, (r: Row) => r.e.kind.Autodispatched?);
    FirstIs(g.rows, (r: Row) => r.e.kind.SpawnDone?);
  }

  lemma DoneConsumes(v: View, g: Group, r: Row)
    requires Grounded(v) && g in v.groups && v.role.SpecAuditor? && r in g.rows && r.e.kind.SpawnDone?
    ensures Consumed(v)
  {
    assert RowFiled(g, r, v.recent, v.role);
    assert TerminalRow(v, r);
  }

  /** An output of the role among the recent rows consumes the trigger. */
  lemma OutputConsumes(v: View, g: Group)
    requires Grounded(v) && g in v.groups
    ensures HasOutput(v, g.key) ==> Consumed(v)
    ensures v.role.SpecAuditor? && DoneOf(g).Some? ==> Consumed(v)
  {
    GroupFacts(g);
    if v.role.SpecAuditor? && DoneOf(g).Some? {
      var r :| r in g.rows && r.e.kind.SpawnDone?;
      DoneConsumes(v, g, r);
    }
  }

  lemma StaleIsDead(v: View, g: Group, r: Row)
    requires Grounded(v) && g in v.groups && r in g.rows && r.e.kind.SpawnStale?
    ensures IsDead(v, g.key)
  {
    assert RowFiled(g, r, v.recent, v.role);
    assert NamesDead(r) in DeadIn(v.recent);
  }

  /** With nothing consumed and nothing live, a group has failed, or was only refused; never both. */
  lemma CountedOrRefused(v: View, g: Group)
    requires Grounded(v) && g in v.groups && !Consumed(v) && !AnyRunning(v)
    ensures OutcomeOf(v, g).Failed? || OutcomeOf(v, g).Uncounted?
    ensures OutcomeOf(v, g).Uncounted? <==> OnlyRefused(v, g)
  {
    assert !OutcomeOf(v, g).Running?;
    OutputConsumes(v, g);
    GroupFacts(g);
    assert g.rows != [];
    if FailureOf(g).None? && StartOf(g).None? && MarkerOf(g).None? && DoneOf(g).None? {
      var r := g.rows[0];
      assert RowFiled(g, r, v.recent, v.role);
      StaleIsDead(v, g, r);
    }
    hide HasOutput, Consumed, IsDead;
  }

  /** The failures of the groups are those with a failed outcome, one each. */
  lemma GroupFailuresCount(v: View, groups: seq<Group>)
    ensures |GroupFailures(v, groups)| == |Filter(groups, g => OutcomeOf(v, g).Failed?)|
  {}

  /** The keys of the groups that count against the budget. */
  ghost function Counting(v: View): set<Key> {
    set g | g in v.groups && !OnlyRefused(v, g) :: g.key
  }

  lemma KeysOf(groups: seq<Group>)
    ensures |set g | g in groups :: g.key| <= |groups|
  {
    if groups != [] {
      var init, last := groups[..|groups| - 1], groups[|groups| - 1];
      KeysOf(init);
      assert groups == init + [last];
      assert (set g | g in groups :: g.key) == (set g | g in init :: g.key) + {last.key};
    }
  }

  /**
   Whenever `history` says neither consumed nor live, every attempt group since the trigger is either counted
   or was only refused, the count has exactly one failure for each counted group, beside the dispatch failures
   that belong to no group, and no counted group is missing from it.
   */
  lemma EveryAttemptCounted(
    evs: seq<Event>, subject: string, threshold: int, role: Role, now: int, dead: set<Spawn>, a: Standing)
    requires HistoryOf(evs, subject, threshold, role, now, dead) == Some(a) && !a.consumed && !a.live
    ensures var v := ViewFrom(evs, subject, threshold, role, now, dead);
            && (forall g | g in v.groups :: OutcomeOf(v, g).Failed? != OnlyRefused(v, g))
            && a.nFailed == |Strays(v, v.recent)| + |Filter(v.groups, g => OutcomeOf(v, g).Failed?)|
            && |Counting(v)| <= a.nFailed
  {
    var v := ViewFrom(evs, subject, threshold, role, now, dead);
    assert a == Classify(v) && v == ViewOf(SortRows(Own(evs, subject)), Join(SortRows(Own(evs, subject)), role), threshold, role, now, dead);
    hide OutcomeOf, OnlyRefused, Grounded, Consumed, AnyRunning, ViewOf, Join, ViewFrom, HistoryOf, Counting;
    ViewGrounded(SortRows(Own(evs, subject)), threshold, role, now, dead);
    FailuresCount(v);
    GroupsCounted(v);
  }

  lemma FailuresCount(v: View)
    ensures |Failures(v)| == |Strays(v, v.recent)| + |GroupFailures(v, v.groups)|
    ensures |GroupFailures(v, v.groups)| == |Filter(v.groups, g => OutcomeOf(v, g).Failed?)|
  {
    SortContents(Strays(v, v.recent) + GroupFailures(v, v.groups), Sooner);
    GroupFailuresCount(v, v.groups);
    hide OutcomeOf, Strays, GroupFailures;
  }

  lemma GroupsCounted(v: View)
    requires Grounded(v) && !Consumed(v) && !AnyRunning(v)
    ensures forall g | g in v.groups :: OutcomeOf(v, g).Failed? != OnlyRefused(v, g)
    ensures |Counting(v)| <= |Filter(v.groups, g => OutcomeOf(v, g).Failed?)|
  {
    hide OutcomeOf, OnlyRefused, Grounded, Consumed, AnyRunning;
    forall g | g in v.groups ensures OutcomeOf(v, g).Failed? != OnlyRefused(v, g) { CountedOrRefused(v, g); }
    var failed := Filter(v.groups, g => OutcomeOf(v, g).Failed?);
    FilterIn(v.groups, g => OutcomeOf(v, g).Failed?);
    KeysOf(failed);
    assert Counting(v) == set g | g in failed :: g.key;
  }

  // ---------------------------------------------------------------- the budget over whole runs

  datatype Trigger = Trigger(subject: string, threshold: int, role: Role)

  /** A run of the ledger: the launcher's own starts, and whatever else is appended. */
  datatype Step = Launch(e: Event, now: int, dead: set<Spawn>) | Happens(e: Event)

  function Ledger(run: seq<Step>): seq<Event> {
    seq(|run|, i requires 0 <= i < |run| => run[i].e)
  }

  /** The launcher starts an attempt only on this answer. */
  ghost predicate MayLaunch(ledger: seq<Event>, t: Trigger, now: int, dead: set<Spawn>) {
    var a := HistoryOf(ledger, t.subject, t.threshold, t.role, now, dead);
    a.Some? && !a.value.consumed && !a.value.live && !a.value.exhausted
  }

  /** What it then appends: a start of the role, under an id nobody has used. */
  ghost predicate FreshStart(e: Event, t: Trigger, ledger: seq<Event>) {
    && e.subject == t.subject && e.ts >= t.threshold && Starts(e.kind) && RoleOf(e) == Some(t.role)
    && !e.spawn.NoSpawn? && forall i | 0 <= i < |ledger| :: ledger[i].spawn != e.spawn
  }

  /** Every launch of the run asked first; the other events are arbitrary. */
  ghost predicate Disciplined(run: seq<Step>, t: Trigger) {
    forall i | 0 <= i < |run| && run[i].Launch? ::
      && MayLaunch(Ledger(run[..i]), t, run[i].now, run[i].dead)
      && FreshStart(run[i].e, t, Ledger(run[..i]))
  }

  function Launched(run: seq<Step>): set<Spawn> {
    set i | 0 <= i < |run| && run[i].Launch? :: run[i].e.spawn
  }

  /** Each launch is an attempt of its own. */
  lemma LaunchesDistinct(run: seq<Step>, t: Trigger, i: nat, j: nat)
    requires Disciplined(run, t) && i < j < |run| && run[i].Launch? && run[j].Launch?
    ensures run[i].e.spawn != run[j].e.spawn
  {
    assert Ledger(run[..j])[i] == run[i].e;
  }

  lemma OwnIn(evs: seq<Event>, subject: string, i: nat)
    requires i < |evs| && evs[i].subject == subject
    ensures Row(evs[i].ts, i, evs[i]) in Own(evs, subject)
  {
    if i < |evs| - 1 { OwnIn(evs[..|evs| - 1], subject, i); }
  }

  /** A launched attempt has a group: begun before the trigger, or among those `history` classifies. */
  lemma LaunchedHasGroup(run: seq<Step>, t: Trigger, now: int, dead: set<Spawn>, s: Spawn)
    requires Disciplined(run, t) && s in Launched(run)
    ensures var v := ViewFrom(Ledger(run), t.subject, t.threshold, t.role, now, dead);
            BySpawn(s) in v.older || exists g | g in v.groups :: g.key == BySpawn(s)
  {
    var evs := Ledger(run);
    var i :| 0 <= i < |run| && run[i].Launch? && run[i].e.spawn == s;
    OwnIn(evs, t.subject, i);
    SortIn(Own(evs, t.subject), Before);
    var rows := SortRows(Own(evs, t.subject));
    var r := Row(evs[i].ts, i, evs[i]);
    assert r in rows && IsAttempt(r, t.role);
    JoinFiled(rows, t.role);
    assert Holds(Join(rows, t.role).groups, BySpawn(s), r);
    FilterIn(Join(rows, t.role).groups, g => !BegunBefore(g, t.threshold));
    hide Join;
  }

  ghost predicate RefusedSpawn(v: View, s: Spawn) {
    exists g | g in v.groups :: g.key == BySpawn(s) && OnlyRefused(v, g)
  }

  /** The run's launches that use up the budget at this point of it. */
  ghost function BudgetUsed(run: seq<Step>, v: View): set<Spawn> {
    set s | s in Launched(run) && BySpawn(s) !in v.older && !RefusedSpawn(v, s)
  }

  lemma SpawnsOfKeys(spawns: set<Spawn>, keys: set<Key>)
    requires forall s | s in spawns :: BySpawn(s) in keys
    ensures |spawns| <= |keys|
  {
    if spawns != {} {
      var s :| s in spawns;
      SpawnsOfKeys(spawns - {s}, keys - {BySpawn(s)});
    }
  }

  /**
   In every disciplined run, at every launch fewer than MAX_ATTEMPTS of the launches before it count against
   the budget: with it, at most three. What does not count was turned away before it began, or belongs to a
   group begun before the trigger.
   */
  lemma LaunchBudget(run: seq<Step>, t: Trigger, launch: Step)
    requires launch.Launch? && Disciplined(run + [launch], t)
    ensures |BudgetUsed(run, ViewFrom(Ledger(run), t.subject, t.threshold, t.role, launch.now, launch.dead))| < MAX_ATTEMPTS
  {
    var all := run + [launch];
    assert all[..|run|] == run && all[|run|] == launch;
    assert MayLaunch(Ledger(run), t, launch.now, launch.dead);
    forall i | 0 <= i < |run| && run[i].Launch?
      ensures MayLaunch(Ledger(run[..i]), t, run[i].now, run[i].dead) && FreshStart(run[i].e, t, Ledger(run[..i]))
    {
      assert all[i] == run[i] && all[..i] == run[..i];
    }
    var a := HistoryOf(Ledger(run), t.subject, t.threshold, t.role, launch.now, launch.dead).value;
    var v := ViewFrom(Ledger(run), t.subject, t.threshold, t.role, launch.now, launch.dead);
    EveryAttemptCounted(Ledger(run), t.subject, t.threshold, t.role, launch.now, launch.dead, a);
    assert a.nFailed < MAX_ATTEMPTS;
    hide HistoryOf, OnlyRefused, OutcomeOf, Strays, ViewFrom;
    forall s | s in BudgetUsed(run, v) ensures BySpawn(s) in Counting(v) {
      LaunchedHasGroup(run, t, launch.now, launch.dead, s);
      var g :| g in v.groups && g.key == BySpawn(s);
    }
    SpawnsOfKeys(BudgetUsed(run, v), Counting(v));
  }
}
