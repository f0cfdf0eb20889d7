/** What becomes of each attempt: markers that nothing follows, deaths, answers and bundles awaited (`history`, src/attempts.py). */
module AttemptsFate {
  import opened Seqs
  import opened Attempts
  import opened AttemptsBudget
  import opened AttemptsRun
  import opened AttemptsRetry

  // ---------------------------------------------------------------- markers

  function Cap(role: Role): int {
    if role == Builder then 5400 else if role == SpecAuditor then 900 else 1800
  }

  /** A marker that nothing follows is live for its role's cap, to the second, and a failure from then on: ninety
      minutes for a builder, fifteen for an auditor, thirty for the others. */
  lemma MarkerExpires(v: View, g: Group)
    requires g.rows != [] && !Consumed(v) && !IsDead(v, g.key) && forall r | r in g.rows :: r.e.kind.Autodispatched?
    ensures var first := g.rows[0];
      if v.now < first.ts + Cap(v.role) then OutcomeOf(v, g).Running?
      else OutcomeOf(v, g).Failed? && OutcomeOf(v, g).failure.at == first.ts + Cap(v.role)
  {
    GroupFacts(g);
    FirstFirst(g.rows, (r: Row) => r.e.kind.Autodispatched?, 0);
    hide IsDead, Consumed, HasOutput;
  }

  // ---------------------------------------------------------------- answered, or dead

  /** A spawn that has produced what its role produces, with nothing worse than refusals and no word of its death, is
      neither a failure nor live, whether or not its end is recorded. */
  lemma AnsweredIsNoFailure(evs: seq<Event>, t: Trigger, now: int, dead: set<Spawn>, g: Group, s: Spawn)
    requires g in ViewFrom(evs, t.subject, t.threshold, t.role, now, dead).groups && g.key == BySpawn(s) && s != NoSpawn
    requires exists e | e in evs :: e.subject == t.subject && e.ts >= t.threshold && e.spawn == s && Produces(t.role, e)
    requires forall r | r in g.rows && (r.e.kind == SpawnFailed || r.e.kind == AutodispatchFailed) :: Refusal(r.e)
    requires s !in dead && forall e | e in evs :: !Buries(e, t, s)
    ensures OutcomeOf(ViewFrom(evs, t.subject, t.threshold, t.role, now, dead), g) == Uncounted
  {
    hide ViewFrom, Refusal, Buries, RoleOf, OutcomeOf, IsDead;
    var v := ViewFrom(evs, t.subject, t.threshold, t.role, now, dead);
    RecentIs(evs, t, now, dead);
    DeadIs(evs, t, now, dead, s);
    NotOlderGroup(evs, t, now, dead, g);
    var e :| e in evs && e.subject == t.subject && e.ts >= t.threshold && e.spawn == s && Produces(t.role, e);
    var r :| r in v.recent && r.e == e;
    assert TerminalRow(v, r);
    HasAnswered(v, g, r);
  }

  lemma NotOlderGroup(evs: seq<Event>, t: Trigger, now: int, dead: set<Spawn>, g: Group)
    requires g in ViewFrom(evs, t.subject, t.threshold, t.role, now, dead).groups
    ensures g.key !in ViewFrom(evs, t.subject, t.threshold, t.role, now, dead).older
  {
    hide Own, SortRows, Join, ViewOf;
    ViewGrounded(SortRows(Own(evs, t.subject)), t.threshold, t.role, now, dead);
  }

  lemma HasAnswered(v: View, g: Group, r: Row)
    requires r in v.recent && TerminalRow(v, r) && g.key == BySpawn(r.e.spawn) && !IsDead(v, g.key)
    requires forall x | x in g.rows && Fails(x.e.kind) :: Refusal(x.e)
    ensures OutcomeOf(v, g) == Uncounted
  {
    GroupFacts(g);
    assert r.e.spawn in OutputSpawns(v);
    assert Consumed(v);
    hide Refusal, IsDead, TerminalRow, OutputSpawns, Consumed;
  }


  lemma DeadFails(v: View, g: Group)
    requires g.rows != [] && IsDead(v, g.key)
    ensures OutcomeOf(v, g).Failed?
  { hide IsDead, HasOutput, Consumed; }

  /** Word that a spawn went stale is an attempt that failed, even when nothing else is known of the spawn. */
  lemma StaleCounts(evs: seq<Event>, t: Trigger, now: int, dead: set<Spawn>, e: Event)
    requires e in evs && Under(e, t, e.spawn) && e.kind.SpawnStale? && !e.spawn.NoSpawn?
    ensures var v := ViewFrom(evs, t.subject, t.threshold, t.role, now, dead);
      BySpawn(e.spawn) in v.older || exists g | g in v.groups :: g.key == BySpawn(e.spawn) && OutcomeOf(v, g).Failed?
  {
    var rows := SortRows(Own(evs, t.subject));
    var v := ViewFrom(evs, t.subject, t.threshold, t.role, now, dead);
    RowsAre(evs, t.subject);
    var r :| r in rows && r.e == e;
    JoinFiled(rows, t.role);
    assert Holds(Join(rows, t.role).groups, BySpawn(e.spawn), r);
    FilterIn(Join(rows, t.role).groups, g => !BegunBefore(g, t.threshold));
    ViewGrounded(rows, t.threshold, t.role, now, dead);
    hide Own, SortRows, Join, OutcomeOf, RoleOf;
    if BySpawn(e.spawn) !in v.older {
      var g :| g in v.groups && g.key == BySpawn(e.spawn) && r in g.rows;
      StaleIsDead(v, g, r);
      DeadFails(v, g);
    }
  }

  lemma FirstEarliest(rows: seq<Row>, p: Row -> bool, x: Row)
    requires InOrder(rows, Before) && x in rows && p(x)
    ensures First(rows, p).Some? && First(rows, p).value.ts <= x.ts
  {
    var i :| 0 <= i < |rows| && rows[i] == x;
    FirstFirst(rows, p, i);
    var k :| 0 <= k <= i && First(rows, p) == Some(rows[k]);
    assert k < i ==> !Before(rows[i], rows[k]);
  }

  predicate Stale(e: Event, t: Trigger, s: Spawn) { e.subject == t.subject && e.ts >= t.threshold && e.kind == SpawnStale && e.spawn == s }

  predicate BeginsIn(g: Group, r: Row) { r in g.rows && (r.e.kind == SpawnStarted || r.e.kind == BuildStarted) }

  /** The time of a death: the first word of it, or the first start, or the first row at all. */
  ghost predicate DiedAt(evs: seq<Event>, t: Trigger, g: Group, s: Spawn, at: int) {
    if exists e | e in evs :: Stale(e, t, s) then
      (exists e | e in evs :: Stale(e, t, s) && e.ts == at) && forall e | e in evs && Stale(e, t, s) :: at <= e.ts
    else if exists r :: BeginsIn(g, r) then
      (exists r :: BeginsIn(g, r) && r.ts == at) && forall r | BeginsIn(g, r) :: at <= r.ts
    else (exists r | r in g.rows :: r.ts == at) && forall r | r in g.rows :: at <= r.ts
  }

  lemma GroupOrdered(evs: seq<Event>, t: Trigger, now: int, dead: set<Spawn>, g: Group)
    requires g in ViewFrom(evs, t.subject, t.threshold, t.role, now, dead).groups
    ensures InOrder(g.rows, Before) && g.rows != []
  {
    var rows := SortRows(Own(evs, t.subject));
    ViewGrounded(rows, t.threshold, t.role, now, dead);
    hide Own, SortRows, JoinMarkers, WithDispatchFailures, Spawned;
    FilterIn(Join(rows, t.role).groups, g => !BegunBefore(g, t.threshold));
    SortGroupsOrdered(JoinMarkers(Joined(WithDispatchFailures(Spawned(rows, t.role), rows, t.role), {}), rows, t.role, rows).groups, g);
  }

  lemma StaleDated(evs: seq<Event>, t: Trigger, now: int, dead: set<Spawn>, s: Spawn)
    requires s != NoSpawn
    ensures var stale := StaleRow(ViewFrom(evs, t.subject, t.threshold, t.role, now, dead).recent, s);
      && (stale.None? <==> forall e | e in evs :: !Stale(e, t, s))
      && (stale.Some? ==> stale.value.e in evs && Stale(stale.value.e, t, s) && stale.value.ts == stale.value.e.ts)
      && (stale.Some? ==> forall e | e in evs && Stale(e, t, s) :: stale.value.ts <= e.ts)
  {
    hide ViewFrom;
    var recent := ViewFrom(evs, t.subject, t.threshold, t.role, now, dead).recent;
    RecentIs(evs, t, now, dead);
    RecentInOrder(evs, t, now, dead);
    FirstIs(recent, r => StaleOf(r, s));
    assert StaleRow(recent, s).Some? ==> StaleRow(recent, s).value in recent && Stale(StaleRow(recent, s).value.e, t, s);
    forall e | e in evs && Stale(e, t, s) ensures StaleRow(recent, s).Some? && StaleRow(recent, s).value.ts <= e.ts {
      var r :| r in recent && r.e == e;
      FirstEarliest(recent, r => StaleOf(r, s), r);
    }
  }

  lemma StartDated(g: Group)
    requires InOrder(g.rows, Before)
    ensures StartOf(g).None? <==> forall r :: !BeginsIn(g, r)
    ensures StartOf(g).Some? ==> BeginsIn(g, StartOf(g).value) && forall r | BeginsIn(g, r) :: StartOf(g).value.ts <= r.ts
  {
    var p := (r: Row) => Starts(r.e.kind);
    FirstIs(g.rows, p);
    assert StartOf(g).Some? ==> BeginsIn(g, StartOf(g).value);
    forall r | BeginsIn(g, r) ensures StartOf(g).Some? && StartOf(g).value.ts <= r.ts { FirstEarliest(g.rows, p, r); }
  }

  /** A spawn declared dead, with nothing worse than refusals, is a failure of the time it died. */
  lemma DeathDated(evs: seq<Event>, t: Trigger, now: int, dead: set<Spawn>, g: Group, s: Spawn) returns (f: Failure)
    requires g in ViewFrom(evs, t.subject, t.threshold, t.role, now, dead).groups && g.key == BySpawn(s) && s != NoSpawn
    requires forall r | r in g.rows && (r.e.kind == SpawnFailed || r.e.kind == AutodispatchFailed) :: Refusal(r.e)
    requires s in dead || exists e | e in evs :: Buries(e, t, s)
    ensures OutcomeOf(ViewFrom(evs, t.subject, t.threshold, t.role, now, dead), g) == Failed(f)
    ensures f.why == Dead(s) && DiedAt(evs, t, g, s, f.at)
  {
    hide ViewFrom, Buries, IsDead, Refusal, OutcomeOf, StartOf, StaleRow, Stale, BeginsIn, DiedAt;
    var v := ViewFrom(evs, t.subject, t.threshold, t.role, now, dead);
    DeadIs(evs, t, now, dead, s);
    GroupOrdered(evs, t, now, dead, g);
    OutcomeDead(v, g);
    StaleDated(evs, t, now, dead, s);
    DeathIs(evs, t, v, g, s);
    f := OutcomeOf(v, g).failure;
  }

  lemma OutcomeDead(v: View, g: Group)
    requires g.key.BySpawn? && g.rows != [] && IsDead(v, g.key)
    requires forall r | r in g.rows && (r.e.kind == SpawnFailed || r.e.kind == AutodispatchFailed) :: Refusal(r.e)
    ensures DeathOf(v, g).Some? && OutcomeOf(v, g) == FailedAt(DeathOf(v, g).value, Dead(g.key.spawn))
  {
    GroupFacts(g);
    hide IsDead, Refusal, HasOutput, Consumed, StaleRow, StartOf;
  }

  lemma DeathIs(evs: seq<Event>, t: Trigger, v: View, g: Group, s: Spawn)
    requires InOrder(g.rows, Before) && g.rows != [] && g.key == BySpawn(s)
    requires var stale := StaleRow(v.recent, s);
      && (stale.None? <==> forall e | e in evs :: !Stale(e, t, s))
      && (stale.Some? ==> stale.value.e in evs && Stale(stale.value.e, t, s) && stale.value.ts == stale.value.e.ts)
      && (stale.Some? ==> forall e | e in evs && Stale(e, t, s) :: stale.value.ts <= e.ts)
    ensures DeathOf(v, g).Some? && DiedAt(evs, t, g, s, DeathOf(v, g).value.ts)
  {
    StartDated(g);
    hide StaleRow, StartOf, Stale, BeginsIn;
    forall r | r in g.rows ensures g.rows[0].ts <= r.ts {
      var i :| 0 <= i < |g.rows| && g.rows[i] == r;
      assert i > 0 ==> !Before(g.rows[i], g.rows[0]);
    }
  }

  // ---------------------------------------------------------------- waiting for a bundle

  /** Since the trigger the role was turned away for want of an evidence bundle. */
  predicate Wants(e: Event, t: Trigger, older: set<Key>) {
    && e.subject == t.subject && e.ts >= t.threshold && RoleOf(e) == Some(t.role) && BySpawn(e.spawn) !in older
    && e.kind.SpawnFailed? && ReasonOf(e).Recorded? && ReasonOf(e).text.Text? && ReasonOf(e).text.form == BundlePending
  }

  /** What has answered that: a bundle, or word that it failed; or the role has started after all. */
  predicate Answers(e: Event, t: Trigger, older: set<Key>) {
    && e.subject == t.subject && e.ts >= t.threshold
    && (|| e.kind.EvidenceBundle? || e.kind.EvidenceBundleFailed?
        || ((e.kind.SpawnStarted? || e.kind.BuildStarted?) && RoleOf(e) == Some(t.role) && BySpawn(e.spawn) !in older))
  }

  /** It was turned away so at some event after which nothing has answered. */
  ghost predicate Unanswered(evs: seq<Event>, t: Trigger, older: set<Key>) {
    exists e | e in evs :: Wants(e, t, older) && forall f | f in evs && Answers(f, t, older) :: f.ts <= e.ts
  }

  /** The recent rows are the subject's events since the trigger. */
  lemma RecentIs(evs: seq<Event>, t: Trigger, now: int, dead: set<Spawn>)
    ensures var v := ViewFrom(evs, t.subject, t.threshold, t.role, now, dead);
      && v.role == t.role
      && (forall r | r in v.recent :: r.e in evs && r.e.subject == t.subject && r.ts == r.e.ts && r.ts >= t.threshold)
      && (forall e | e in evs && e.subject == t.subject && e.ts >= t.threshold :: exists r | r in v.recent :: r.e == e)
  {
    var rows := SortRows(Own(evs, t.subject));
    RowsAre(evs, t.subject);
    FilterIn(rows, (r: Row) => r.ts >= t.threshold);
    hide Own, SortRows, Join, Filter;
    forall e | e in evs && e.subject == t.subject && e.ts >= t.threshold
      ensures exists r | r in ViewFrom(evs, t.subject, t.threshold, t.role, now, dead).recent :: r.e == e
    { var r :| r in rows && r.e == e; }
  }

  lemma ClearedIs(evs: seq<Event>, t: Trigger, now: int, dead: set<Spawn>, at: int)
    ensures var v := ViewFrom(evs, t.subject, t.threshold, t.role, now, dead);
      BundleSince(v, at) || StartSince(v, at) <==> exists f | f in evs :: Answers(f, t, v.older) && f.ts > at
  {
    var v := ViewFrom(evs, t.subject, t.threshold, t.role, now, dead);
    RecentIs(evs, t, now, dead);
    hide ViewFrom, RoleOf;
    if BundleSince(v, at) {
      var r :| r in v.recent && r.ts > at && (r.e.kind.EvidenceBundle? || r.e.kind.EvidenceBundleFailed?);
      assert Answers(r.e, t, v.older);
    }
    if StartSince(v, at) {
      var r :| r in v.recent && r.ts > at && Eligible(v, r) && Starts(r.e.kind);
      assert Answers(r.e, t, v.older);
    }
    if f :| f in evs && Answers(f, t, v.older) && f.ts > at {
      var r :| r in v.recent && r.e == f;
      assert r.ts == f.ts;
    }
  }

  lemma WantsIs(evs: seq<Event>, t: Trigger, now: int, dead: set<Spawn>, r: Row)
    requires r in ViewFrom(evs, t.subject, t.threshold, t.role, now, dead).recent
    ensures var v := ViewFrom(evs, t.subject, t.threshold, t.role, now, dead); Refuses(v, r) <==> Wants(r.e, t, v.older)
  {
    RecentIs(evs, t, now, dead);
    hide ViewFrom, RoleOf, ReasonOf;
  }

  /** The refusals in the order of the rows; the last is the latest. */
  lemma RefusalsAre(evs: seq<Event>, t: Trigger, now: int, dead: set<Spawn>)
    ensures var v := ViewFrom(evs, t.subject, t.threshold, t.role, now, dead);
      var refusals := Filter(v.recent, row => Refuses(v, row));
      && (forall r | r in refusals :: r in v.recent && Refuses(v, r) && r.ts <= refusals[|refusals| - 1].ts)
      && (forall r | r in v.recent && Refuses(v, r) :: r in refusals)
  {
    var v := ViewFrom(evs, t.subject, t.threshold, t.role, now, dead);
    RecentInOrder(evs, t, now, dead);
    hide ViewFrom, Filter, Refuses;
    FilterRises(v.recent, row => Refuses(v, row));
    FilterIn(v.recent, row => Refuses(v, row));
    var refusals := Filter(v.recent, row => Refuses(v, row));
    forall r | r in refusals ensures r.ts <= refusals[|refusals| - 1].ts {
      var i :| 0 <= i < |refusals| && refusals[i] == r;
      if i < |refusals| - 1 { assert !Before(refusals[|refusals| - 1], refusals[i]); }
    }
  }

  lemma {:induction false} FilterRises(rows: seq<Row>, p: Row -> bool)
    requires InOrder(rows, Before)
    ensures InOrder(Filter(rows, p), Before)
  {
    if rows != [] {
      var init, last := rows[..|rows| - 1], rows[|rows| - 1];
      FilterRises(init, p);
      FilterIn(init, p);
      var f := Filter(init, p);
      forall i | 0 <= i < |f| ensures !Before(last, f[i]) {
        assert f[i] in init;
        var k :| 0 <= k < |init| && init[k] == f[i];
        assert rows[k] == f[i];
      }
    }
  }

  /** Beside the bundle a build may already have, the role awaits one exactly when a refusal for want of one is
      unanswered. */
  lemma AwaitsExactly(evs: seq<Event>, t: Trigger, now: int, dead: set<Spawn>)
    ensures var v := ViewFrom(evs, t.subject, t.threshold, t.role, now, dead);
      BundleAwaited(v) <==> Unanswered(evs, t, v.older) && !BuildBundled(v)
  {
    var v := ViewFrom(evs, t.subject, t.threshold, t.role, now, dead);
    var refusals := Filter(v.recent, row => Refuses(v, row));
    RefusalsAre(evs, t, now, dead);
    RecentIs(evs, t, now, dead);
    hide ViewFrom, Wants, Answers, Refuses, BuildBundled, Filter;
    forall r | r in v.recent ensures Refuses(v, r) <==> Wants(r.e, t, v.older) { WantsIs(evs, t, now, dead, r); }
    if refusals != [] {
      var last := refusals[|refusals| - 1];
      assert last in refusals && Wants(last.e, t, v.older) && last.ts == last.e.ts;
      ClearedIs(evs, t, now, dead, last.ts);
      hide BundleSince, StartSince;
      if !(BundleSince(v, last.ts) || StartSince(v, last.ts)) { assert Unanswered(evs, t, v.older); }
    }
    if Unanswered(evs, t, v.older) {
      var e :| e in evs && Wants(e, t, v.older) && forall f | f in evs && Answers(f, t, v.older) :: f.ts <= e.ts;
      WantsAt(e, t, v.older);
      var r :| r in v.recent && r.e == e;
      assert r in refusals && r.ts == e.ts;
    }
  }

  lemma WantsAt(e: Event, t: Trigger, older: set<Key>)
    requires Wants(e, t, older)
    ensures e.subject == t.subject && e.ts >= t.threshold
  {}

  predicate BuiltSince(e: Event, t: Trigger) { e.subject == t.subject && e.ts >= t.threshold && e.kind.BuildDone? }

  /** The bundle is later than the build, and one commit id abbreviates the other. */
  predicate Fits(bundle: Event, build: Event) {
    && bundle.kind.EvidenceBundle? && bundle.ts > build.ts
    && (build.readySha <= bundle.sha || (bundle.sha != "" && bundle.sha <= build.readySha)
        || (bundle.sha == "" && "x" <= build.readySha))
  }

  /** The newest build since the trigger, under at least seven digits of its commit, has its bundle. */
  ghost predicate HasBundle(evs: seq<Event>, t: Trigger) {
    exists b, e | b in evs && e in evs ::
      && BuiltSince(b, t) && (forall c | c in evs && BuiltSince(c, t) :: c.ts <= b.ts)
      && |b.readySha| >= 7 && e.subject == t.subject && e.ts >= t.threshold && Fits(e, b)
  }

  lemma NewestBuildIs(rows: seq<Row>)
    requires InOrder(rows, Before)
    ensures var b := NewestBuild(rows);
      if b.None? then forall r | r in rows :: !r.e.kind.BuildDone?
      else b.value in rows && b.value.e.kind.BuildDone? && forall r | r in rows && r.e.kind.BuildDone? :: r.ts <= b.value.ts
  {
    FilterIn(rows, (r: Row) => r.e.kind.BuildDone?);
    FilterRises(rows, (r: Row) => r.e.kind.BuildDone?);
    var builds := Filter(rows, (r: Row) => r.e.kind.BuildDone?);
    hide Filter;
    if builds != [] {
      assert builds[|builds| - 1] in builds;
      forall r | r in builds ensures r.ts <= builds[|builds| - 1].ts {
        var i :| 0 <= i < |builds| && builds[i] == r;
        if i < |builds| - 1 { assert !Before(builds[|builds| - 1], builds[i]); }
      }
    }
  }

  lemma RecentInOrder(evs: seq<Event>, t: Trigger, now: int, dead: set<Spawn>)
    ensures InOrder(ViewFrom(evs, t.subject, t.threshold, t.role, now, dead).recent, Before)
  {
    RowsInOrder(Own(evs, t.subject));
    FilterRises(SortRows(Own(evs, t.subject)), (r: Row) => r.ts >= t.threshold);
    hide Own, SortRows, Join, Filter;
  }

  lemma FitsIs(bundle: Row, build: Row)
    requires bundle.ts == bundle.e.ts && build.ts == build.e.ts
    ensures BundlesBuild(bundle, build) <==> Fits(bundle.e, build.e)
  {}

  lemma BundledHas(evs: seq<Event>, t: Trigger, now: int, dead: set<Spawn>)
    ensures BuildBundled(ViewFrom(evs, t.subject, t.threshold, t.role, now, dead)) ==> HasBundle(evs, t)
  {
    var v := ViewFrom(evs, t.subject, t.threshold, t.role, now, dead);
    RecentIs(evs, t, now, dead);
    RecentInOrder(evs, t, now, dead);
    NewestBuildIs(v.recent);
    hide ViewFrom, NewestBuild, BundlesBuild, Fits;
    if BuildBundled(v) {
      var b := NewestBuild(v.recent).value;
      var r :| r in v.recent && BundlesBuild(r, b);
      FitsIs(r, b);
      forall c | c in evs && BuiltSince(c, t) ensures c.ts <= b.e.ts { var q :| q in v.recent && q.e == c; }
      assert BuiltSince(b.e, t);
    }
  }

  lemma NewestIs(evs: seq<Event>, t: Trigger, now: int, dead: set<Spawn>, b: Event)
    requires forall b, c | b in evs && c in evs && BuiltSince(b, t) && BuiltSince(c, t) && b != c :: b.ts != c.ts
    requires b in evs && BuiltSince(b, t) && forall c | c in evs && BuiltSince(c, t) :: c.ts <= b.ts
    ensures var v := ViewFrom(evs, t.subject, t.threshold, t.role, now, dead);
      var n := NewestBuild(v.recent); n.Some? && n.value in v.recent && n.value.e == b
  {
    var v := ViewFrom(evs, t.subject, t.threshold, t.role, now, dead);
    RecentIs(evs, t, now, dead);
    RecentInOrder(evs, t, now, dead);
    NewestBuildIs(v.recent);
    hide ViewFrom, NewestBuild;
    var q :| q in v.recent && q.e == b;
    assert BuiltSince(NewestBuild(v.recent).value.e, t);
  }

  /** A bundle the build already has clears the refusal too; when no two builds are of one instant. */
  lemma BundledExactly(evs: seq<Event>, t: Trigger, now: int, dead: set<Spawn>)
    requires forall b, c | b in evs && c in evs && BuiltSince(b, t) && BuiltSince(c, t) && b != c :: b.ts != c.ts
    ensures BuildBundled(ViewFrom(evs, t.subject, t.threshold, t.role, now, dead)) <==> HasBundle(evs, t)
  {
    var v := ViewFrom(evs, t.subject, t.threshold, t.role, now, dead);
    BundledHas(evs, t, now, dead);
    if HasBundle(evs, t) {
      var b, e :| b in evs && e in evs && BuiltSince(b, t) && (forall c | c in evs && BuiltSince(c, t) :: c.ts <= b.ts)
        && |b.readySha| >= 7 && e.subject == t.subject && e.ts >= t.threshold && Fits(e, b);
      NewestIs(evs, t, now, dead, b);
      RecentIs(evs, t, now, dead);
      hide ViewFrom, NewestBuild, BundlesBuild, Fits, BuiltSince;
      var r :| r in v.recent && r.e == e;
      FitsIs(r, NewestBuild(v.recent).value);
    }
  }
}
