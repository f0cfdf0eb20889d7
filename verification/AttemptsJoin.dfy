/** Where a dispatch marker ends up (`_marker_groups`, src/attempts.py). */
module AttemptsJoin {
  // A launcher marks its dispatch under its own pid. The marker belongs to the child that waited for that pid; with
  // no such child, to the failure that comes next, before any other dispatch or start; and else to nobody.

  import opened Seqs
  import opened Attempts
  import opened AttemptsBudget
  import opened AttemptsRelabel
  import AttemptsOrder

  predicate Dispatches(m: Row, role: Role) { OfRole(m, role) && m.e.kind == Autodispatched && m.e.spawn != NoSpawn }

  /** No other row of the role is under the marker's spawn id. */
  predicate Unshared(rows: seq<Row>, role: Role, m: Row) {
    forall r | r in rows && OfRole(r, role) && r != m :: r.e.spawn != m.e.spawn
  }

  /** The start of a child that waited for the pid the marker is under. */
  predicate ChildOf(rows: seq<Row>, role: Role, m: Row, s: Row) {
    && s in rows && OfRole(s, role) && s.e.spawn != NoSpawn && (s.e.kind == SpawnStarted || s.e.kind == BuildStarted)
    && m.e.spawn.Pid? && s.e.waiterPid == Some(m.e.spawn.pid)
  }

  ghost predicate Childless(rows: seq<Row>, role: Role, m: Row) { forall s :: !ChildOf(rows, role, m, s) }

  predicate FailsOf(r: Row, role: Role) { OfRole(r, role) && (r.e.kind == SpawnFailed || r.e.kind == AutodispatchFailed) }

  /** A start, a dispatch or a failure of the role. */
  predicate Turns(r: Row, role: Role) {
    FailsOf(r, role) || (OfRole(r, role) && (r.e.kind == SpawnStarted || r.e.kind == BuildStarted || r.e.kind == Autodispatched))
  }

  /** The next of these after the marker. */
  ghost predicate Next(rows: seq<Row>, role: Role, m: Row, r: Row) {
    && r in rows && Turns(r, role) && Before(m, r)
    && forall x | x in rows && Turns(x, role) && Before(m, x) :: x == r || Before(r, x)
  }

  /** The failure that answers the marker: the next of these is a failure, and this is it. */
  ghost predicate Answers(rows: seq<Row>, role: Role, m: Row, r: Row) { Next(rows, role, m, r) && FailsOf(r, role) }

  /** No failure is. */
  ghost predicate Unanswered(rows: seq<Row>, role: Role, m: Row) { forall r :: !Answers(rows, role, m, r) }

  /** The rows in order, each once. */
  ghost predicate Ordered(rows: seq<Row>) { Strict(rows) && DistinctIdx(rows) }

  // ---------------------------------------------------------------- the first that follows

  lemma TurnsFollows(rows: seq<Row>, role: Role, m: Row, r: Row)
    ensures Follows(r, m, role) <==> Before(m, r) && Turns(r, role)
  {}

  lemma FollowingIs(rows: seq<Row>, role: Role, m: Row)
    requires Ordered(rows)
    ensures var r := FirstFollowing(rows, m, role);
      && (r.None? <==> forall x | x in rows && Turns(x, role) :: !Before(m, x))
      && (r.Some? ==> Next(rows, role, m, r.value))
  {
    var p := (r: Row) => Follows(r, m, role);
    FirstIs(rows, p);
    hide OfRole, Turns, Follows;
    forall x ensures p(x) <==> Before(m, x) && Turns(x, role) { TurnsFollows(rows, role, m, x); }
    assert FirstFollowing(rows, m, role) == First(rows, p);
    if First(rows, p).Some? {
      forall x | x in rows && Turns(x, role) && Before(m, x) ensures x == First(rows, p).value || Before(First(rows, p).value, x) {
        var i :| 0 <= i < |rows| && rows[i] == x;
        FirstFirst(rows, p, i);
      }
    }
  }

  lemma NextOnly(rows: seq<Row>, role: Role, m: Row, r: Row)
    requires Ordered(rows) && Next(rows, role, m, r)
    ensures FirstFollowing(rows, m, role) == Some(r)
  {
    FollowingIs(rows, role, m);
    hide FirstFollowing, Turns;
    var f := FirstFollowing(rows, m, role);
    assert f.Some? && (f.value == r || Before(f.value, r));
  }

  /** No row is the next turn of two markers. */
  lemma NextOfOne(rows: seq<Row>, role: Role, m: Row, n: Row, r: Row)
    requires m in rows && n in rows && Dispatches(m, role) && Dispatches(n, role) && Before(m, n)
    requires Next(rows, role, m, r)
    ensures !Next(rows, role, n, r)
  { assert Turns(n, role); }

  // ---------------------------------------------------------------- the groups met by a marker

  lemma AddKey(groups: seq<Group>, key: Key, row: Row, k: Key)
    requires !HasKey(groups, k) && key != k
    ensures !HasKey(Add(groups, key, row), k)
  {
    var added := Add(groups, key, row);
    forall i | 0 <= i < |added| ensures added[i].key != k { assert i < |groups| ==> added[i].key == groups[i].key; }
  }

  lemma {:induction false} SpawnedKey(rows: seq<Row>, role: Role, k: Key)
    requires forall r | r in rows && IsAttempt(r, role) :: k != BySpawn(r.e.spawn)
    ensures !HasKey(Spawned(rows, role), k)
  {
    hide Add, HasKey, IsAttempt;
    if rows != [] {
      var init, row := rows[..|rows| - 1], rows[|rows| - 1];
      assert forall r :: r in rows <==> r in init || r == row;
      SpawnedKey(init, role, k);
      if IsAttempt(row, role) { AddKey(Spawned(init, role), BySpawn(row.e.spawn), row, k); }
    } else { NoKey(k); }
  }

  lemma NoKey(k: Key)
    ensures !HasKey([], k)
  {}

  lemma {:induction false} FailuresKey(groups: seq<Group>, rows: seq<Row>, role: Role, k: Key)
    requires !HasKey(groups, k)
    ensures !HasKey(WithDispatchFailures(groups, rows, role), k)
  {
    hide Add, HasKey;
    if rows != [] {
      var init, row := rows[..|rows| - 1], rows[|rows| - 1];
      FailuresKey(groups, init, role, k);
      var g := WithDispatchFailures(groups, init, role);
      if JoinsGroup(row, role, g) { AddKey(g, BySpawn(row.e.spawn), row, k); }
    }
  }

  lemma MarkerKey(j: Joined, rows: seq<Row>, role: Role, n: Row, s: Spawn)
    requires !HasKey(j.groups, BySpawn(s)) && n.e.spawn != s
    requires forall r | r in rows && FailsOf(r, role) :: r.e.spawn != s
    ensures !HasKey(JoinMarker(j, rows, role, n).groups, BySpawn(s))
  {
    var found, receipt := FirstMatch(n, j.groups), FirstFollowing(rows, n, role);
    FirstIs(j.groups, g => Matches(n, g));
    FirstIs(rows, r => Follows(r, n, role));
    if found.Some? { FoundKey(j.groups, found.value); AddKey(j.groups, found.value.key, n, BySpawn(s)); }
    else if TakesReceipt(receipt, j.associated) {
      var key := ReceiptKey(receipt.value);
      assert key != BySpawn(s);
      AddKey(j.groups, key, receipt.value, BySpawn(s));
      AddKey(if receipt.value.e.kind.AutodispatchFailed? then Add(j.groups, key, receipt.value) else j.groups, key, n, BySpawn(s));
    } else { AddKey(j.groups, BySpawn(n.e.spawn), n, BySpawn(s)); }
    hide Add, HasKey;
  }

  lemma FoundKey(groups: seq<Group>, g: Group)
    requires g in groups
    ensures HasKey(groups, g.key)
  {}

  lemma {:induction false} MarkersKey(j: Joined, rows: seq<Row>, role: Role, markers: seq<Row>, s: Spawn)
    requires !HasKey(j.groups, BySpawn(s))
    requires forall n | n in markers && OfRole(n, role) :: n.e.spawn != s
    requires forall r | r in rows && FailsOf(r, role) :: r.e.spawn != s
    ensures !HasKey(JoinMarkers(j, rows, role, markers).groups, BySpawn(s))
  {
    hide JoinMarker, HasKey, OfRole, FailsOf;
    if markers != [] {
      var init, n := markers[..|markers| - 1], markers[|markers| - 1];
      assert forall r :: r in markers <==> r in init || r == n;
      MarkersKey(j, rows, role, init, s);
      if IsMarker(n, role) { MarkerKey(JoinMarkers(j, rows, role, init), rows, role, n, s); }
    }
  }

  function Attempted(rows: seq<Row>, role: Role): Joined { Joined(WithDispatchFailures(Spawned(rows, role), rows, role), {}) }

  /** The groups that the marker at `i` meets: those of the attempts and of the markers before it. */
  function Met(rows: seq<Row>, role: Role, i: nat): Joined
    requires i <= |rows|
  { JoinMarkers(Attempted(rows, role), rows, role, rows[..i]) }

  lemma MetNoKey(rows: seq<Row>, role: Role, i: nat)
    requires Ordered(rows) && i < |rows| && Dispatches(rows[i], role) && Unshared(rows, role, rows[i])
    ensures !HasKey(Met(rows, role, i).groups, BySpawn(rows[i].e.spawn))
  {
    var m := rows[i];
    hide HasKey, JoinMarkers, Spawned, WithDispatchFailures;
    forall n | n in rows[..i] ensures n in rows && n != m { var k :| 0 <= k < i && rows[k] == n; }
    SpawnedKey(rows, role, BySpawn(m.e.spawn));
    FailuresKey(Spawned(rows, role), rows, role, BySpawn(m.e.spawn));
    MarkersKey(Attempted(rows, role), rows, role, rows[..i], m.e.spawn);
  }

  // ---------------------------------------------------------------- one marker

  lemma MetFiled(rows: seq<Row>, role: Role, i: nat)
    requires i <= |rows|
    ensures Filed(Met(rows, role, i).groups, rows, role) && AllHeld(Met(rows, role, i).groups, rows, role)
  {
    SpawnedFiled(rows, rows, role);
    DispatchFailuresFiled(Spawned(rows, role), rows, rows, role);
    JoinMarkersFiled(Attempted(rows, role), rows, role, rows[..i]);
    hide Spawned, WithDispatchFailures, JoinMarkers, Filed, Holds;
  }

  lemma ChildMatches(groups: seq<Group>, rows: seq<Row>, role: Role, m: Row, s: Row)
    requires AllHeld(groups, rows, role) && ChildOf(rows, role, m, s)
    ensures exists g :: g in groups && Matches(m, g)
  {
    assert IsAttempt(s, role);
    var g :| g in groups && g.key == BySpawn(s.e.spawn) && s in g.rows;
    assert Matches(m, g);
  }

  lemma MatchHasChild(groups: seq<Group>, rows: seq<Row>, role: Role, m: Row, g: Group)
    requires RowsFiled(groups, rows, role) && g in groups && Matches(m, g) && g.key != BySpawn(m.e.spawn)
    ensures exists s :: ChildOf(rows, role, m, s) && g.key == BySpawn(s.e.spawn)
  {
    var s :| s in g.rows && Starts(s.e.kind) && s.e.waiterPid == Some(m.e.spawn.pid);
    assert RowFiled(g, s, rows, role);
    assert ChildOf(rows, role, m, s);
  }

  /** The marker meets a match exactly when it has a child, whose group that is. */
  lemma MatchIsChild(rows: seq<Row>, role: Role, i: nat)
    requires Ordered(rows) && i < |rows| && Dispatches(rows[i], role) && Unshared(rows, role, rows[i])
    ensures var m, found := rows[i], FirstMatch(rows[i], Met(rows, role, i).groups);
      && (found.None? <==> Childless(rows, role, m))
      && (found.Some? ==> exists s :: ChildOf(rows, role, m, s) && found.value.key == BySpawn(s.e.spawn))
  {
    hide Met, DistinctKeys, HasKey, RowsFiled, AllHeld, NoneNameless, Matches, ChildOf, Ordered, Unshared, Dispatches;
    var m, groups := rows[i], Met(rows, role, i).groups;
    MetNoKey(rows, role, i);
    MetFiled(rows, role, i);
    FirstIs(groups, g => Matches(m, g));
    if s :| ChildOf(rows, role, m, s) { ChildMatches(groups, rows, role, m, s); }
    var found := FirstMatch(m, groups);
    if found.Some? {
      FoundKey(groups, found.value);
      MatchHasChild(groups, rows, role, m, found.value);
    }
  }

  /** A receipt taken is the next turn of a marker joined before. */
  ghost predicate TakenBy(rows: seq<Row>, role: Role, markers: seq<Row>, idx: nat) {
    exists n, r | n in markers && r in rows :: Dispatches(n, role) && Next(rows, role, n, r) && r.idx == idx
  }

  lemma TakenMore(rows: seq<Row>, role: Role, markers: seq<Row>, n: Row, idx: nat)
    requires TakenBy(rows, role, markers, idx)
    ensures TakenBy(rows, role, markers + [n], idx)
  {
    hide Next;
    var k, r :| k in markers && r in rows && Dispatches(k, role) && Next(rows, role, k, r) && r.idx == idx;
    assert k in markers + [n];
  }

  lemma {:induction false} AssociatedTaken(j: Joined, rows: seq<Row>, role: Role, markers: seq<Row>)
    requires Ordered(rows) && j.associated == {}
    ensures forall idx | idx in JoinMarkers(j, rows, role, markers).associated :: TakenBy(rows, role, markers, idx)
  {
    hide Add, Next, Ordered, TakenBy, Follows;
    if markers != [] {
      var init, n := markers[..|markers| - 1], markers[|markers| - 1];
      assert markers == init + [n];
      AssociatedTaken(j, rows, role, init);
      var before := JoinMarkers(j, rows, role, init);
      FollowingIs(rows, role, n);
      forall idx | idx in JoinMarkers(j, rows, role, markers).associated ensures TakenBy(rows, role, markers, idx) {
        if idx in before.associated { TakenMore(rows, role, init, n, idx); }
        else { NewlyTaken(rows, role, init, n, FirstFollowing(rows, n, role).value); }
      }
    }
  }

  lemma NewlyTaken(rows: seq<Row>, role: Role, markers: seq<Row>, n: Row, r: Row)
    requires Dispatches(n, role) && Next(rows, role, n, r)
    ensures TakenBy(rows, role, markers + [n], r.idx)
  { assert n in markers + [n]; }

  lemma NotBoth(rows: seq<Row>, role: Role, i: nat, n: Row, x: Row, r: Row)
    requires Ordered(rows) && i < |rows| && Dispatches(rows[i], role) && Next(rows, role, rows[i], r)
    requires n in rows[..i] && Dispatches(n, role) && Next(rows, role, n, x)
    ensures x.idx != r.idx
  {
    var k :| 0 <= k < i && rows[k] == n;
    NextOfOne(rows, role, n, rows[i], x);
    hide Dispatches;
  }

  lemma NotTaken(rows: seq<Row>, role: Role, i: nat, r: Row)
    requires Ordered(rows) && i < |rows| && Dispatches(rows[i], role) && Answers(rows, role, rows[i], r)
    ensures r.idx !in Met(rows, role, i).associated
  {
    AssociatedTaken(Attempted(rows, role), rows, role, rows[..i]);
    hide JoinMarkers, Attempted, Dispatches, Next;
    forall n, x | n in rows[..i] && Dispatches(n, role) && Next(rows, role, n, x) ensures x.idx != r.idx {
      NotBoth(rows, role, i, n, x, r);
    }
  }

  /** What the step makes of a marker with a child, of one with an answer, and of one with neither. */
  lemma ChildStep(rows: seq<Row>, role: Role, i: nat)
    requires Ordered(rows) && i < |rows| && Dispatches(rows[i], role) && Unshared(rows, role, rows[i])
    requires !Childless(rows, role, rows[i])
    ensures exists s :: ChildOf(rows, role, rows[i], s) && Holds(Met(rows, role, i + 1).groups, BySpawn(s.e.spawn), rows[i])
  {
    MatchIsChild(rows, role, i);
    MetNext(rows, role, i);
    hide Met, Childless, ChildOf, Holds, HasKey, Unshared;
    var found := FirstMatch(rows[i], Met(rows, role, i).groups);
    AddHolds(Met(rows, role, i).groups, found.value.key, rows[i]);
  }

  lemma MetNext(rows: seq<Row>, role: Role, i: nat)
    requires i < |rows| && Dispatches(rows[i], role)
    ensures Met(rows, role, i + 1) == JoinMarker(Met(rows, role, i), rows, role, rows[i])
  { MarkersNext(Attempted(rows, role), rows, role, i); hide JoinMarkers, JoinMarker, Attempted; }

  /** What a failure is filed under: its spawn, or itself when it names none. */
  function KeyOf(r: Row): Key { if r.e.spawn == NoSpawn then Receipt(r.idx) else BySpawn(r.e.spawn) }

  lemma AnswerStep(rows: seq<Row>, role: Role, i: nat, r: Row)
    requires Ordered(rows) && i < |rows| && Dispatches(rows[i], role) && Unshared(rows, role, rows[i])
    requires Childless(rows, role, rows[i]) && Answers(rows, role, rows[i], r)
    ensures Holds(Met(rows, role, i + 1).groups, KeyOf(r), rows[i])
    ensures r.e.kind == AutodispatchFailed ==> Holds(Met(rows, role, i + 1).groups, KeyOf(r), r)
  {
    MatchIsChild(rows, role, i);
    MetNext(rows, role, i);
    NotTaken(rows, role, i, r);
    NextOnly(rows, role, rows[i], r);
    var j := Met(rows, role, i);
    hide Met, Childless, Holds, HasKey, Unshared, Next, Ordered, Add;
    assert TakesReceipt(Some(r), j.associated);
    AddHolds(j.groups, KeyOf(r), r);
    AddHolds(if r.e.kind == AutodispatchFailed then Add(j.groups, KeyOf(r), r) else j.groups, KeyOf(r), rows[i]);
  }

  lemma AloneStep(rows: seq<Row>, role: Role, i: nat)
    requires Ordered(rows) && i < |rows| && Dispatches(rows[i], role) && Unshared(rows, role, rows[i])
    requires Childless(rows, role, rows[i]) && Unanswered(rows, role, rows[i])
    ensures Group(BySpawn(rows[i].e.spawn), [rows[i]]) in Met(rows, role, i + 1).groups
  {
    MatchIsChild(rows, role, i);
    MetNext(rows, role, i);
    MetNoKey(rows, role, i);
    FollowingIs(rows, role, rows[i]);
    var j, receipt := Met(rows, role, i), FirstFollowing(rows, rows[i], role);
    hide Met, Childless, Unshared, Next, Ordered, FirstFollowing, FirstMatch;
    if receipt.Some? { assert !Answers(rows, role, rows[i], receipt.value); }
  }

  // ---------------------------------------------------------------- what the later markers leave

  lemma HeldNext(rows: seq<Row>, role: Role, k: nat, key: Key, r: Row)
    requires k < |rows| && Holds(Met(rows, role, k).groups, key, r)
    ensures Holds(Met(rows, role, k + 1).groups, key, r)
  {
    hide JoinMarkers, JoinMarker, Attempted, Filed, Holds, AllHeld;
    MarkersNext(Attempted(rows, role), rows, role, k);
    MetFiled(rows, role, k);
    if IsMarker(rows[k], role) { JoinMarkerFiled(Met(rows, role, k), rows, role, rows[k]); }
  }

  lemma {:induction false} HeldOn(rows: seq<Row>, role: Role, i: nat, n: nat, key: Key, r: Row)
    requires i <= n <= |rows| && Holds(Met(rows, role, i).groups, key, r)
    ensures Holds(Met(rows, role, n).groups, key, r)
    decreases n
  {
    hide Met, Holds;
    if i < n {
      HeldOn(rows, role, i, n - 1, key, r);
      HeldNext(rows, role, n - 1, key, r);
    }
  }

  lemma AddElsewhere(groups: seq<Group>, key: Key, row: Row, g: Group)
    requires g in groups && g.key != key
    ensures g in Add(groups, key, row)
  {
    var i :| 0 <= i < |groups| && groups[i] == g;
    assert Add(groups, key, row)[i] == g;
  }

  /** A later marker leaves a lone one alone. */
  lemma LoneStep(j: Joined, rows: seq<Row>, role: Role, n: Row, m: Row)
    requires DistinctKeys(j.groups) && Group(BySpawn(m.e.spawn), [m]) in j.groups && !Starts(m.e.kind) && n.e.spawn != m.e.spawn
    requires forall r | r in rows && FailsOf(r, role) :: r.e.spawn != m.e.spawn
    ensures Group(BySpawn(m.e.spawn), [m]) in JoinMarker(j, rows, role, n).groups
  {
    var g := Group(BySpawn(m.e.spawn), [m]);
    var found, receipt := FirstMatch(n, j.groups), FirstFollowing(rows, n, role);
    FirstIs(j.groups, g => Matches(n, g));
    FirstIs(rows, r => Follows(r, n, role));
    if found.Some? {
      assert !Matches(n, g);
      AddElsewhere(j.groups, found.value.key, n, g);
    } else if TakesReceipt(receipt, j.associated) {
      var key := ReceiptKey(receipt.value);
      AddElsewhere(j.groups, key, receipt.value, g);
      AddElsewhere(if receipt.value.e.kind.AutodispatchFailed? then Add(j.groups, key, receipt.value) else j.groups, key, n, g);
    } else { AddElsewhere(j.groups, BySpawn(n.e.spawn), n, g); }
    hide Add;
  }

  lemma OthersApart(rows: seq<Row>, role: Role, i: nat, k: nat)
    requires i < k < |rows| && Ordered(rows) && Dispatches(rows[i], role) && Unshared(rows, role, rows[i])
    ensures !Starts(rows[i].e.kind) && (IsMarker(rows[k], role) ==> rows[k].e.spawn != rows[i].e.spawn)
    ensures forall r | r in rows && FailsOf(r, role) :: r.e.spawn != rows[i].e.spawn
  {}

  lemma LoneNext(rows: seq<Row>, role: Role, i: nat, k: nat)
    requires i < k < |rows| && Ordered(rows) && Dispatches(rows[i], role) && Unshared(rows, role, rows[i])
    requires Group(BySpawn(rows[i].e.spawn), [rows[i]]) in Met(rows, role, k).groups
    ensures Group(BySpawn(rows[i].e.spawn), [rows[i]]) in Met(rows, role, k + 1).groups
  {
    hide JoinMarkers, JoinMarker, Attempted, Holds, Ordered, Unshared, RowFiled, FailsOf, Dispatches, IsMarker;
    MarkersNext(Attempted(rows, role), rows, role, k);
    MetFiled(rows, role, k);
    OthersApart(rows, role, i, k);
    if IsMarker(rows[k], role) { LoneStep(Met(rows, role, k), rows, role, rows[k], rows[i]); }
  }

  lemma {:induction false} LoneOn(rows: seq<Row>, role: Role, i: nat, n: nat)
    requires i < n <= |rows| && Ordered(rows) && Dispatches(rows[i], role) && Unshared(rows, role, rows[i])
    requires Group(BySpawn(rows[i].e.spawn), [rows[i]]) in Met(rows, role, i + 1).groups
    ensures Group(BySpawn(rows[i].e.spawn), [rows[i]]) in Met(rows, role, n).groups
    decreases n
  {
    hide Met, Ordered, Dispatches, Unshared;
    if i + 1 < n {
      LoneOn(rows, role, i, n - 1);
      LoneNext(rows, role, i, n - 1);
    }
  }

  lemma JoinIs(rows: seq<Row>, role: Role)
    ensures Join(rows, role).groups == SortGroups(Met(rows, role, |rows|).groups)
  { assert rows[..|rows|] == rows; }

  lemma HeldAtLast(rows: seq<Row>, role: Role, i: nat, key: Key, r: Row)
    requires i < |rows| && Holds(Met(rows, role, i + 1).groups, key, r)
    ensures Holds(Join(rows, role).groups, key, r)
  {
    HeldOn(rows, role, i + 1, |rows|, key, r);
    MetFiled(rows, role, |rows|);
    JoinIs(rows, role);
    hide Met, Join, Filed, Holds, SortGroups;
    SortGroupsFiled(Met(rows, role, |rows|).groups, rows, role);
  }

  /** A marker under the id of a spawn the role has attempted is filed with that spawn, whatever fails next. */
  lemma JoinsItsOwn(rows: seq<Row>, role: Role, m: Row, a: Row)
    requires m in rows && Dispatches(m, role) && !m.e.spawn.Pid? && a in rows && IsAttempt(a, role) && a.e.spawn == m.e.spawn
    ensures Holds(Join(rows, role).groups, BySpawn(m.e.spawn), m)
  {
    var i :| 0 <= i < |rows| && rows[i] == m;
    var j := Met(rows, role, i);
    MetFiled(rows, role, i);
    MetNext(rows, role, i);
    FirstIs(j.groups, g => Matches(m, g));
    var g :| g in j.groups && g.key == BySpawn(m.e.spawn) && a in g.rows;
    assert Matches(m, g);
    AddHolds(j.groups, BySpawn(m.e.spawn), m);
    hide Met, Join, Holds, Add;
    HeldAtLast(rows, role, i, BySpawn(m.e.spawn), m);
  }

  /** A marker under a spawn id of its own is filed with a child that waited for its pid, when there is one. */
  lemma JoinsItsChild(rows: seq<Row>, role: Role, m: Row)
    requires Ordered(rows) && m in rows && Dispatches(m, role) && Unshared(rows, role, m) && !Childless(rows, role, m)
    ensures exists s :: ChildOf(rows, role, m, s) && Holds(Join(rows, role).groups, BySpawn(s.e.spawn), m)
  {
    var i :| 0 <= i < |rows| && rows[i] == m;
    ChildStep(rows, role, i);
    hide Met, Join, Holds, ChildOf, Childless;
    var s :| ChildOf(rows, role, m, s) && Holds(Met(rows, role, i + 1).groups, BySpawn(s.e.spawn), m);
    HeldAtLast(rows, role, i, BySpawn(s.e.spawn), m);
  }

  /** With no child, it is filed with the failure that comes next, before any other dispatch or start. */
  lemma JoinsItsFailure(rows: seq<Row>, role: Role, m: Row, r: Row)
    requires Ordered(rows) && m in rows && Dispatches(m, role) && Unshared(rows, role, m) && Childless(rows, role, m)
    requires Answers(rows, role, m, r)
    ensures Holds(Join(rows, role).groups, KeyOf(r), m)
    ensures r.e.kind == AutodispatchFailed ==> Holds(Join(rows, role).groups, KeyOf(r), r)
  {
    var i :| 0 <= i < |rows| && rows[i] == m;
    AnswerStep(rows, role, i, r);
    hide Met, Join, Holds, Childless, Answers;
    HeldAtLast(rows, role, i, KeyOf(r), m);
    if r.e.kind == AutodispatchFailed { HeldAtLast(rows, role, i, KeyOf(r), r); }
  }

  /** With neither, it is a group by itself. */
  lemma StaysAlone(rows: seq<Row>, role: Role, m: Row)
    requires Ordered(rows) && m in rows && Dispatches(m, role) && Unshared(rows, role, m) && Childless(rows, role, m)
    requires Unanswered(rows, role, m)
    ensures Group(BySpawn(m.e.spawn), [m]) in Join(rows, role).groups
  {
    var i :| 0 <= i < |rows| && rows[i] == m;
    AloneStep(rows, role, i);
    LoneOn(rows, role, i, |rows|);
    JoinIs(rows, role);
    var met, g := Met(rows, role, |rows|).groups, Group(BySpawn(m.e.spawn), [m]);
    SortOne(m);
    hide Met, Join, Childless, Unanswered, Unshared;
    var k :| 0 <= k < |met| && met[k] == g;
    assert SortGroups(met)[k] == g;
  }

  lemma SortOne(m: Row)
    ensures SortRows([m]) == [m]
  { assert [m][..0] == [] && Sort([], Before) == [] && Insert([], m, Before) == [m]; }

  // ---------------------------------------------------------------- failures of no group

  /** The receipts taken so far: a dispatch failure among them is filed, and one without a spawn is filed only so. */
  ghost predicate Receipts(groups: seq<Group>, associated: set<nat>, rows: seq<Row>) {
    && (forall r | r in rows && r.e.kind == AutodispatchFailed && r.idx in associated :: Holds(groups, ReceiptKey(r), r))
    && (forall g, r | g in groups && r in g.rows && r.e.kind == AutodispatchFailed && r.e.spawn == NoSpawn :: r.idx in associated)
  }

  lemma AddRow(groups: seq<Group>, key: Key, row: Row, g: Group, r: Row)
    requires g in Add(groups, key, row) && r in g.rows
    ensures r == row || exists h :: h in groups && r in h.rows
  {
    var i := IndexOf(groups, key);
    if i < |groups| && g == Group(key, groups[i].rows + [row]) { assert groups[i] in groups; }
  }

  lemma ReceiptsAdd(groups: seq<Group>, associated: set<nat>, rows: seq<Row>, key: Key, row: Row)
    requires Receipts(groups, associated, rows)
    requires row.e.kind == AutodispatchFailed && row.e.spawn == NoSpawn ==> row.idx in associated
    ensures Receipts(Add(groups, key, row), associated, rows)
  {
    AddHolds(groups, key, row);
    hide Add, Holds;
    forall g, r | g in Add(groups, key, row) && r in g.rows && r.e.kind == AutodispatchFailed && r.e.spawn == NoSpawn
      ensures r.idx in associated
    { AddRow(groups, key, row, g, r); }
  }

  lemma ReceiptsTake(groups: seq<Group>, associated: set<nat>, rows: seq<Row>, row: Row)
    requires DistinctIdx(rows) && Receipts(groups, associated, rows) && row in rows
    ensures var now := if row.e.kind == AutodispatchFailed then Add(groups, ReceiptKey(row), row) else groups;
      Receipts(now, associated + {row.idx}, rows)
  {
    var now := if row.e.kind == AutodispatchFailed then Add(groups, ReceiptKey(row), row) else groups;
    AddHolds(groups, ReceiptKey(row), row);
    hide Add, Holds;
    forall r | r in rows && r.e.kind == AutodispatchFailed && r.idx in associated + {row.idx} ensures Holds(now, ReceiptKey(r), r) {
      if r.idx !in associated { assert r == row; }
    }
    forall g, r | g in now && r in g.rows && r.e.kind == AutodispatchFailed && r.e.spawn == NoSpawn
      ensures r.idx in associated + {row.idx}
    { if now != groups { AddRow(groups, ReceiptKey(row), row, g, r); } }
  }

  lemma ReceiptsStep(j: Joined, rows: seq<Row>, role: Role, n: Row)
    requires DistinctIdx(rows) && Receipts(j.groups, j.associated, rows) && n.e.kind == Autodispatched
    ensures var now := JoinMarker(j, rows, role, n); Receipts(now.groups, now.associated, rows)
  {
    var found, receipt := FirstMatch(n, j.groups), FirstFollowing(rows, n, role);
    FirstIs(rows, r => Follows(r, n, role));
    hide Add, Receipts, Follows, DistinctIdx;
    if found.Some? { ReceiptsAdd(j.groups, j.associated, rows, found.value.key, n); }
    else if TakesReceipt(receipt, j.associated) {
      var r := receipt.value;
      ReceiptsTake(j.groups, j.associated, rows, r);
      ReceiptsAdd(if r.e.kind.AutodispatchFailed? then Add(j.groups, ReceiptKey(r), r) else j.groups,
                  j.associated + {r.idx}, rows, ReceiptKey(r), n);
    } else { ReceiptsAdd(j.groups, j.associated, rows, BySpawn(n.e.spawn), n); }
  }

  lemma {:induction false} ReceiptsMet(rows: seq<Row>, role: Role, i: nat)
    requires DistinctIdx(rows) && i <= |rows|
    ensures Receipts(Met(rows, role, i).groups, Met(rows, role, i).associated, rows)
  {
    if i == 0 {
      assert rows[..0] == [];
      NoReceipts(rows, role);
    } else {
      hide Receipts, DistinctIdx, Attempted, JoinMarkers, JoinMarker;
      ReceiptsMet(rows, role, i - 1);
      MarkersNext(Attempted(rows, role), rows, role, i - 1);
      if IsMarker(rows[i - 1], role) { ReceiptsStep(Met(rows, role, i - 1), rows, role, rows[i - 1]); }
    }
  }

  lemma NoReceipts(rows: seq<Row>, role: Role)
    ensures forall g, r | g in Attempted(rows, role).groups && r in g.rows && r.e.kind == AutodispatchFailed :: r.e.spawn != NoSpawn
  {
    var groups := Attempted(rows, role).groups;
    SpawnedFiled(rows, rows, role);
    DispatchFailuresFiled(Spawned(rows, role), rows, rows, role);
    hide Spawned, WithDispatchFailures, HasKey, Holds, IsAttempt;
    forall g, r | g in groups && r in g.rows && r.e.kind == AutodispatchFailed ensures r.e.spawn != NoSpawn {
      SpawnedKey(rows, role, Receipt(r.idx));
      FailuresKey(Spawned(rows, role), rows, role, Receipt(r.idx));
      FoundKey(groups, g);
      assert RowFiled(g, r, rows, role);
    }
  }

  /** Both for the groups of the whole join. */
  lemma ReceiptsJoin(rows: seq<Row>, role: Role)
    requires DistinctIdx(rows)
    ensures Receipts(Join(rows, role).groups, Join(rows, role).associated, rows)
  {
    ReceiptsMet(rows, role, |rows|);
    JoinIs(rows, role);
    var met := Met(rows, role, |rows|);
    MetFiled(rows, role, |rows|);
    SortGroupsFiled(met.groups, rows, role);
    hide Filed, Holds, AllHeld, Met, DistinctIdx;
    forall g, r | g in SortGroups(met.groups) && r in g.rows ensures exists h :: h in met.groups && r in h.rows {
      var k :| 0 <= k < |met.groups| && SortGroups(met.groups)[k] == g;
      SortIn(met.groups[k].rows, Before);
      assert met.groups[k] in met.groups;
    }
    assert Join(rows, role).associated == met.associated by { AssociatedIs(rows, role); }
  }

  lemma AssociatedIs(rows: seq<Row>, role: Role)
    ensures Join(rows, role).associated == Met(rows, role, |rows|).associated
  { assert rows[..|rows|] == rows; }

  /** A spawn's key: among the older ones, among the others, or in no group. */
  lemma KeyedGroups(v: View, j: Joined, s: Spawn, threshold: int)
    requires v.older == (set g | g in j.groups && BegunBefore(g, threshold) :: g.key)
    requires forall g :: g in v.groups <==> g in j.groups && !BegunBefore(g, threshold)
    ensures (BySpawn(s) in v.older || HasKey(v.groups, BySpawn(s))) <==> exists g :: g in j.groups && g.key == BySpawn(s)
  {
    hide BegunBefore;
    if HasKey(v.groups, BySpawn(s)) { assert v.groups[IndexOf(v.groups, BySpawn(s))] in v.groups; }
    if g :| g in j.groups && g.key == BySpawn(s) {
      if g in v.groups { FoundKey(v.groups, g); }
    }
  }

  lemma ViewIs(rows: seq<Row>, j: Joined, threshold: int, role: Role, now: int, dead: set<Spawn>)
    ensures var v := ViewOf(rows, j, threshold, role, now, dead);
      && v.role == role && v.associated == j.associated && (forall r | r in v.recent :: r in rows)
      && v.older == (set g | g in j.groups && BegunBefore(g, threshold) :: g.key)
      && (forall g :: g in v.groups <==> g in j.groups && !BegunBefore(g, threshold))
  {
    FilterIn(rows, (r: Row) => r.ts >= threshold);
    FilterIn(j.groups, g => !BegunBefore(g, threshold));
    hide BegunBefore;
  }

  lemma StrayRow(j: Joined, rows: seq<Row>, role: Role, r: Row)
    requires Filed(j.groups, rows, role) && Receipts(j.groups, j.associated, rows)
    requires r in rows && r.e.kind == AutodispatchFailed
    ensures r.idx !in j.associated && (forall g | g in j.groups :: g.key != BySpawn(r.e.spawn)) <==>
      forall g | g in j.groups :: r !in g.rows && g.key != BySpawn(r.e.spawn)
  {
    if r.idx in j.associated { var g :| g in j.groups && g.key == ReceiptKey(r) && r in g.rows; }
    forall g | g in j.groups && r in g.rows ensures r.idx in j.associated || g.key == BySpawn(r.e.spawn) {
      assert RowFiled(g, r, rows, role);
    }
  }

  /** A dispatch failure is a stray, counted by itself, exactly when no group of the join holds it and none is filed
      under its spawn. */
  lemma StrayExactly(evs: seq<Event>, t: Trigger, now: int, dead: set<Spawn>, r: Row)
    requires r in ViewFrom(evs, t.subject, t.threshold, t.role, now, dead).recent
    ensures var rows := SortRows(Own(evs, t.subject));
      Stray(ViewFrom(evs, t.subject, t.threshold, t.role, now, dead), r) <==>
        && RoleOf(r.e) == Some(t.role) && r.e.kind == AutodispatchFailed
        && forall g | g in Join(rows, t.role).groups :: r !in g.rows && g.key != BySpawn(r.e.spawn)
  {
    hide Join, Own, SortRows, ViewOf, Filed, AllHeld, Receipts, BegunBefore, HasKey, Strict, DistinctIdx;
    var rows := SortRows(Own(evs, t.subject));
    var v, j := ViewOf(rows, Join(rows, t.role), t.threshold, t.role, now, dead), Join(rows, t.role);
    AttemptsOrder.SortedOwn(evs, t.subject);
    JoinFiled(rows, t.role);
    ReceiptsJoin(rows, t.role);
    ViewIs(rows, j, t.threshold, t.role, now, dead);
    KeyedGroups(v, j, r.e.spawn, t.threshold);
    if r.e.kind == AutodispatchFailed { StrayRow(j, rows, t.role, r); }
  }

  /** The rows of a ledger are in order. */
  lemma LedgerOrdered(evs: seq<Event>, subject: string)
    ensures Ordered(SortRows(Own(evs, subject)))
  { AttemptsOrder.SortedOwn(evs, subject); }
}
