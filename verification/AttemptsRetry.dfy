/** When the next attempt may start, and what must have ended before it (`history`, src/attempts.py). */
module AttemptsRetry {
  import opened Seqs
  import opened Attempts
  import opened AttemptsBudget
  import opened AttemptsRun

  // ---------------------------------------------------------------- the retry instant

  /** A failure that counts: a dispatch failure of no group, or a group's. */
  ghost predicate Counts(v: View, f: Failure) {
    f in Strays(v, v.recent) || exists g | g in v.groups :: OutcomeOf(v, g) == Failed(f)
  }

  function Total(v: View): nat { |Strays(v, v.recent)| + |Filter(v.groups, g => OutcomeOf(v, g).Failed?)| }

  /** Five minutes after the only failure, fifteen after each of two. */
  ghost predicate Rested(v: View, now: int) {
    && (Total(v) == 1 ==> forall f | Counts(v, f) :: now >= f.at + 300)
    && (Total(v) == 2 ==> forall f | Counts(v, f) :: now >= f.at + 900)
  }

  /** The launcher's question, the retry instant included. */
  ghost predicate MayRetry(evs: seq<Event>, t: Trigger, now: int, dead: set<Spawn>) {
    && MayLaunch(evs, t, now, dead)
    && var next := HistoryOf(evs, t.subject, t.threshold, t.role, now, dead).value.nextRetryAt; next.None? || next.value <= now
  }

  lemma GroupFailureIn(v: View, groups: seq<Group>, f: Failure)
    ensures f in GroupFailures(v, groups) <==> exists g | g in groups :: OutcomeOf(v, g) == Failed(f)
  {
    hide OutcomeOf;
    if groups != [] {
      var init, last := groups[..|groups| - 1], groups[|groups| - 1];
      GroupFailureIn(v, init, f);
      assert groups == init + [last];
    }
  }

  lemma FailureIn(v: View, f: Failure)
    ensures f in Failures(v) <==> Counts(v, f)
  {
    hide OutcomeOf, Strays, GroupFailures;
    SortIn(Strays(v, v.recent) + GroupFailures(v, v.groups), Sooner);
    GroupFailureIn(v, v.groups, f);
  }

  /** The last of the failures in order is the latest. */
  lemma LatestLast(v: View, f: Failure)
    requires Counts(v, f)
    ensures var all := Failures(v); all != [] && f.at <= all[|all| - 1].at && Counts(v, all[|all| - 1])
  {
    var all := Failures(v);
    SortInOrder(Strays(v, v.recent) + GroupFailures(v, v.groups), Sooner);
    hide Counts, Failures;
    FailureIn(v, f);
    var i :| 0 <= i < |all| && all[i] == f;
    assert i < |all| - 1 ==> !Sooner(all[|all| - 1], all[i]);
    FailureIn(v, all[|all| - 1]);
  }

  lemma TotalIs(v: View)
    ensures |Failures(v)| == Total(v)
  { FailuresCount(v); }

  lemma LatestRests(v: View, now: int, wait: int)
    requires Total(v) > 0
    ensures |Failures(v)| == Total(v)
    ensures Failures(v)[|Failures(v)| - 1].at + wait <= now <==> forall f | Counts(v, f) :: now >= f.at + wait
  {
    TotalIs(v);
    var all := Failures(v);
    hide Counts, Failures, Total;
    FailureIn(v, all[|all| - 1]);
    forall f | Counts(v, f) ensures f.at <= all[|all| - 1].at { LatestLast(v, f); }
  }

  /** When the next attempt may start: nothing consumed or live, two failures at most, and five minutes since the
      only one or fifteen since both. */
  lemma RetryExactly(evs: seq<Event>, t: Trigger, now: int, dead: set<Spawn>)
    requires Known(t.role) && t.subject != ""
    ensures var v := ViewFrom(evs, t.subject, t.threshold, t.role, now, dead);
      MayRetry(evs, t, now, dead) <==> !Consumed(v) && !AnyRunning(v) && Total(v) <= 2 && Rested(v, now)
  {
    var v := ViewFrom(evs, t.subject, t.threshold, t.role, now, dead);
    hide Consumed, AnyRunning, Total, Counts, BundleAwaited, Failures, ViewOf, Join, Own, SortRows, Why;
    TotalIs(v);
    if Total(v) == 1 { LatestRests(v, now, 300); }
    if Total(v) == 2 { LatestRests(v, now, 900); }
  }

  /** The whole answer: once consumed or live it says nothing else; otherwise it is exhausted from three failures on,
      gives a time for one or two, and tells whether a bundle is awaited. */
  lemma AnswerIs(evs: seq<Event>, t: Trigger, now: int, dead: set<Spawn>)
    requires Known(t.role) && t.subject != ""
    ensures var v := ViewFrom(evs, t.subject, t.threshold, t.role, now, dead);
      var a := HistoryOf(evs, t.subject, t.threshold, t.role, now, dead).value;
      && a.consumed == Consumed(v) && (a.live <==> AnyRunning(v) && !a.consumed) && a.nFailed == Total(v)
      && (a.consumed || a.live ==> a.nextRetryAt == None && !a.exhausted && !a.bundlePending)
      && (!a.consumed && !a.live ==>
            (a.exhausted <==> Total(v) >= 3) && (a.nextRetryAt.Some? <==> 1 <= Total(v) <= 2) && (a.bundlePending <==> BundleAwaited(v)))
  {
    var v := ViewFrom(evs, t.subject, t.threshold, t.role, now, dead);
    hide Consumed, AnyRunning, Total, BundleAwaited, Failures, ViewOf, Join, Own, SortRows, Why;
    TotalIs(v);
  }

  // ---------------------------------------------------------------- whole runs

  /** Every launch asked first, and waited for the retry instant. */
  ghost predicate Patient(run: seq<Step>, t: Trigger) {
    forall i | 0 <= i < |run| && run[i].Launch? ::
      && MayRetry(Ledger(run[..i]), t, run[i].now, run[i].dead)
      && FreshStart(run[i].e, t, Ledger(run[..i]))
  }

  lemma PatientDisciplined(run: seq<Step>, t: Trigger)
    requires Patient(run, t)
    ensures Disciplined(run, t)
  { hide HistoryOf, FreshStart, Ledger; }

  predicate FailsInEarnest(e: Event, t: Trigger, s: Spawn) {
    Under(e, t, s) && (e.kind.SpawnFailed? || e.kind.AutodispatchFailed?) && !Refusal(e)
  }

  /** The first event by which the spawn failed in earnest. */
  ghost predicate FirstFailure(evs: seq<Event>, t: Trigger, s: Spawn, e: Event) {
    e in evs && FailsInEarnest(e, t, s) && forall f | f in evs && FailsInEarnest(f, t, s) :: e.ts <= f.ts
  }

  lemma RowTime(evs: seq<Event>, t: Trigger, now: int, dead: set<Spawn>, g: Group, r: Row)
    requires g in ViewFrom(evs, t.subject, t.threshold, t.role, now, dead).groups && r in g.rows
    ensures r.ts == r.e.ts && r.e in evs && r.e.subject == t.subject && r.ts >= t.threshold && OfRole(r, t.role)
  {
    var rows := SortRows(Own(evs, t.subject));
    ViewGrounded(rows, t.threshold, t.role, now, dead);
    var v := ViewFrom(evs, t.subject, t.threshold, t.role, now, dead);
    assert RowFiled(g, r, v.recent, t.role);
    FilterIn(rows, (r: Row) => r.ts >= t.threshold);
    RowsAre(evs, t.subject);
    hide Own, SortRows, Join, Filter;
  }

  /** A launched spawn that failed in earnest counts, from no earlier than its first such failure. */
  lemma FailureCounts(run: seq<Step>, t: Trigger, now: int, dead: set<Spawn>, s: Spawn, e: Event) returns (g: Group, f: Failure)
    requires Disciplined(run, t) && s in Launched(run) && FirstFailure(Ledger(run), t, s, e)
    requires BySpawn(s) !in ViewFrom(Ledger(run), t.subject, t.threshold, t.role, now, dead).older
    ensures var v := ViewFrom(Ledger(run), t.subject, t.threshold, t.role, now, dead);
      g in v.groups && g.key == BySpawn(s) && OutcomeOf(v, g) == Failed(f) && f.at >= e.ts
  {
    var evs := Ledger(run);
    var v := ViewFrom(evs, t.subject, t.threshold, t.role, now, dead);
    var a := LaunchRow(run, t, s);
    LaunchedHasGroup(run, t, now, dead, s);
    g :| g in v.groups && g.key == BySpawn(s);
    hide Own, SortRows, Join, ViewOf, IsAttempt, Disciplined, Launched, Ledger, ViewFrom;
    GroupTells(evs, t, now, dead, g, s, a);
    assert Ends(e);
    var r :| r in g.rows && r.e == e;
    FirstIs(g.rows, (r: Row) => Fails(r.e.kind) && !Refusal(r.e));
    var first := RealFailureOf(g).value;
    assert Ends(first.e) && FailsInEarnest(first.e, t, s);
    RowTime(evs, t, now, dead, g, first);
    f := Failure(first.ts, first.idx, ReasonOf(first.e));
  }

  lemma TotalHas(v: View, g: Group)
    requires g in v.groups && OutcomeOf(v, g).Failed?
    ensures Total(v) >= 1 && forall h | h in v.groups && OutcomeOf(v, h).Failed? && h != g :: Total(v) >= 2
  {
    hide OutcomeOf, Strays;
    var failed := Filter(v.groups, g => OutcomeOf(v, g).Failed?);
    FilterIn(v.groups, g => OutcomeOf(v, g).Failed?);
    var i :| 0 <= i < |failed| && failed[i] == g;
    forall h | h in v.groups && OutcomeOf(v, h).Failed? && h != g ensures |failed| >= 2 {
      var j :| 0 <= j < |failed| && failed[j] == h;
    }
  }

  /** What a patient launch found. */
  lemma LaunchFinds(run: seq<Step>, t: Trigger, k: nat)
    requires Patient(run, t) && k < |run| && run[k].Launch?
    ensures var v := ViewFrom(Ledger(run[..k]), t.subject, t.threshold, t.role, run[k].now, run[k].dead);
      !Consumed(v) && !AnyRunning(v) && Total(v) <= 2 && Rested(v, run[k].now)
    ensures Disciplined(run[..k], t)
  {
    PatientDisciplined(run, t);
    DisciplinedUpTo(run, t, k);
    hide ViewFrom, Consumed, AnyRunning, Total, Rested, Ledger;
    assert MayRetry(Ledger(run[..k]), t, run[k].now, run[k].dead);
    RetryExactly(Ledger(run[..k]), t, run[k].now, run[k].dead);
  }

  /** Launched before `k`, its group not begun before the trigger. */
  ghost predicate Earlier(run: seq<Step>, t: Trigger, k: nat, s: Spawn)
    requires k < |run| && run[k].Launch?
  {
    && s in Launched(run[..k])
    && BySpawn(s) !in ViewFrom(Ledger(run[..k]), t.subject, t.threshold, t.role, run[k].now, run[k].dead).older
  }

  /** A patient launcher starts nothing within five minutes of a launched attempt's failure in earnest. */
  lemma FailureRests(run: seq<Step>, t: Trigger, k: nat, s: Spawn, e: Event)
    requires Patient(run, t) && k < |run| && run[k].Launch? && Earlier(run, t, k, s) && FirstFailure(Ledger(run[..k]), t, s, e)
    ensures run[k].now >= e.ts + 300
  {
    var v := ViewFrom(Ledger(run[..k]), t.subject, t.threshold, t.role, run[k].now, run[k].dead);
    LaunchFinds(run, t, k);
    var g, f := FailureCounts(run[..k], t, run[k].now, run[k].dead, s, e);
    hide Patient, Disciplined, Earlier, FirstFailure, ViewFrom, OutcomeOf, Total, Ledger;
    TotalHas(v, g);
    assert Counts(v, f);
  }

  /** Nor within fifteen minutes of either when two have failed. */
  lemma TwoFailuresRest(run: seq<Step>, t: Trigger, k: nat, s: Spawn, e: Event, s': Spawn, e': Event)
    requires Patient(run, t) && k < |run| && run[k].Launch? && s != s'
    requires Earlier(run, t, k, s) && FirstFailure(Ledger(run[..k]), t, s, e)
    requires Earlier(run, t, k, s') && FirstFailure(Ledger(run[..k]), t, s', e')
    ensures run[k].now >= e.ts + 900 && run[k].now >= e'.ts + 900
  {
    var v := ViewFrom(Ledger(run[..k]), t.subject, t.threshold, t.role, run[k].now, run[k].dead);
    LaunchFinds(run, t, k);
    var g, f := FailureCounts(run[..k], t, run[k].now, run[k].dead, s, e);
    var g', f' := FailureCounts(run[..k], t, run[k].now, run[k].dead, s', e');
    hide Patient, Disciplined, Earlier, FirstFailure, ViewFrom, OutcomeOf, Total, Ledger;
    TotalHas(v, g);
    assert Counts(v, f) && Counts(v, f');
  }

  // ---------------------------------------------------------------- one attempt at a time

  /** Something has ended the attempt: a failure or a refusal, its end, or its death. */
  ghost predicate Over(evs: seq<Event>, t: Trigger, dead: set<Spawn>, s: Spawn) {
    s in dead
    || exists e | e in evs :: Buries(e, t, s)
         || (Under(e, t, s) && (e.kind.SpawnFailed? || e.kind.AutodispatchFailed? || e.kind.SpawnDone?))
  }

  lemma Runs(v: View, g: Group, a: Row)
    requires a in g.rows && (a.e.kind.SpawnStarted? || a.e.kind.BuildStarted?) && !IsDead(v, g.key) && !HasOutput(v, g.key)
    requires forall r | r in g.rows :: !r.e.kind.SpawnFailed? && !r.e.kind.AutodispatchFailed? && !r.e.kind.SpawnDone?
    ensures OutcomeOf(v, g).Running?
  {
    GroupFacts(g);
    hide IsDead, HasOutput, Refusal, DeathOf;
  }

  lemma IdleView(evs: seq<Event>, t: Trigger, now: int, dead: set<Spawn>)
    requires MayLaunch(evs, t, now, dead)
    ensures var v := ViewFrom(evs, t.subject, t.threshold, t.role, now, dead); !Consumed(v) && !AnyRunning(v)
  { hide Consumed, AnyRunning, BundleAwaited, Failures, ViewOf, Join, Own, SortRows; }

  lemma IdleOver(evs: seq<Event>, t: Trigger, now: int, dead: set<Spawn>, g: Group, s: Spawn, a: Row)
    requires MayLaunch(evs, t, now, dead) && !s.NoSpawn?
    requires g in ViewFrom(evs, t.subject, t.threshold, t.role, now, dead).groups && g.key == BySpawn(s)
    requires a in SortRows(Own(evs, t.subject)) && IsAttempt(a, t.role) && a.e.spawn == s
    requires a.e.kind.SpawnStarted? || a.e.kind.BuildStarted?
    ensures Over(evs, t, dead, s)
  {
    var rows := SortRows(Own(evs, t.subject));
    var v := ViewFrom(evs, t.subject, t.threshold, t.role, now, dead);
    ViewGrounded(rows, t.threshold, t.role, now, dead);
    GroupHolds(rows, t.role, t.threshold, now, dead, g, a);
    hide MayLaunch, Own, SortRows, Join, ViewOf, IsAttempt, OutcomeOf, HasOutput, IsDead, Consumed, Grounded, Buries;
    IdleView(evs, t, now, dead);
    OutputConsumes(v, g);
    GroupTells(evs, t, now, dead, g, s, a);
    DeadIs(evs, t, now, dead, s);
    if !Over(evs, t, dead, s) {
      forall r | r in g.rows ensures !Ends(r.e) {}
      Runs(v, g, a);
    }
  }

  /** Whether or not it waits, a launcher that asks first starts an attempt only when every one it started before is
      over. */
  lemma LaunchesAlone(run: seq<Step>, t: Trigger, k: nat, s: Spawn)
    requires Disciplined(run, t) && k < |run| && run[k].Launch? && Earlier(run, t, k, s)
    ensures Over(Ledger(run[..k]), t, run[k].dead, s)
  {
    var evs := Ledger(run[..k]);
    DisciplinedUpTo(run, t, k);
    assert MayLaunch(evs, t, run[k].now, run[k].dead);
    hide MayLaunch, Own, SortRows, Join, ViewFrom, IsAttempt, Disciplined, Launched, Ledger;
    var a := LaunchRow(run[..k], t, s);
    LaunchedHasGroup(run[..k], t, run[k].now, run[k].dead, s);
    var g :| g in ViewFrom(evs, t.subject, t.threshold, t.role, run[k].now, run[k].dead).groups && g.key == BySpawn(s);
    IdleOver(evs, t, run[k].now, run[k].dead, g, s, a);
  }

  // ---------------------------------------------------------------- nothing after the end

  /** What the role is there to produce. */
  predicate Produces(role: Role, e: Event) {
    match role
    case Grader => e.kind.Verdict? || e.kind.CannotAssess?
    case Reviewer => e.kind.Review?
    case Builder => e.kind.BuildDone? || e.kind.BuildBlocked?
    case SpecAuditor => e.kind.SpawnDone? && RoleOf(e) == Some(SpecAuditor)
    case OtherRole(_) => false
  }

  /** The subject has left the hands of every role. */
  predicate Leaves(e: Event) {
    e.kind.Shipped? || e.kind.SpecKilled? || e.kind.SpecClosed? || e.kind.QueueAdd? || e.kind.MergeGateClean?
  }

  /** Since the trigger the subject has left, or a spawn whose group is not older has produced. */
  ghost predicate Answered(evs: seq<Event>, t: Trigger, older: set<Key>) {
    exists e | e in evs :: e.subject == t.subject && e.ts >= t.threshold &&
      (Leaves(e) || (Produces(t.role, e) && BySpawn(e.spawn) !in older))
  }

  lemma ConsumedExactly(evs: seq<Event>, t: Trigger, now: int, dead: set<Spawn>)
    ensures var v := ViewFrom(evs, t.subject, t.threshold, t.role, now, dead); Consumed(v) <==> Answered(evs, t, v.older)
  {
    var rows := SortRows(Own(evs, t.subject));
    var v := ViewFrom(evs, t.subject, t.threshold, t.role, now, dead);
    RowsAre(evs, t.subject);
    FilterIn(rows, (r: Row) => r.ts >= t.threshold);
    hide Own, SortRows, Join, Filter;
    if Consumed(v) {
      var r :| r in v.recent && (TerminalRow(v, r) || Terminal(r.e.kind));
      assert r.e in evs;
    }
    if Answered(evs, t, v.older) {
      var e :| e in evs && e.subject == t.subject && e.ts >= t.threshold
        && (Leaves(e) || (Produces(t.role, e) && BySpawn(e.spawn) !in v.older));
      var r :| r in rows && r.e == e;
      assert r in v.recent;
    }
  }

  /** No launch follows an answer to the trigger. */
  lemma NoLaunchAnswered(run: seq<Step>, t: Trigger, k: nat)
    requires Disciplined(run, t) && k < |run| && run[k].Launch?
    ensures !Answered(Ledger(run[..k]), t, ViewFrom(Ledger(run[..k]), t.subject, t.threshold, t.role, run[k].now, run[k].dead).older)
  {
    assert MayLaunch(Ledger(run[..k]), t, run[k].now, run[k].dead);
    hide MayLaunch, Disciplined, Ledger, ViewFrom, Answered, Consumed;
    IdleView(Ledger(run[..k]), t, run[k].now, run[k].dead);
    ConsumedExactly(Ledger(run[..k]), t, run[k].now, run[k].dead);
  }
}
