/**
 Relabelling rows (src/attempts.py).

 The place of an event in the input is only a label for its row, used to break ties in time. Relabelling the
 rows in a way that keeps their order relabels the groups of the join; relabelling them in any way leaves the
 answer of the classification alone, but for the order of the reasons given for one instant. Primed functions
 relabel; a primed lemma says that the step of that name commutes with relabelling.
 */
module AttemptsRelabel {
  import opened Seqs
  import opened Attempts
  import opened AttemptsBudget

  type Relabel = nat -> nat

  ghost predicate Injective(f: Relabel) {
    forall i, j :: f(i) == f(j) ==> i == j
  }

  function RelabelRow(f: Relabel, r: Row): Row { Row(r.ts, f(r.idx), r.e) }

  function RelabelRows(f: Relabel, rows: seq<Row>): seq<Row> {
    seq(|rows|, i requires 0 <= i < |rows| => RelabelRow(f, rows[i]))
  }

  function RelabelKey(f: Relabel, k: Key): Key { if k.Receipt? then Receipt(f(k.idx)) else k }

  function RelabelGroup(f: Relabel, g: Group): Group { Group(RelabelKey(f, g.key), RelabelRows(f, g.rows)) }

  function RelabelGroups(f: Relabel, groups: seq<Group>): seq<Group> {
    seq(|groups|, i requires 0 <= i < |groups| => RelabelGroup(f, groups[i]))
  }

  function RelabelJoined(f: Relabel, j: Joined): Joined {
    Joined(RelabelGroups(f, j.groups), set i | i in j.associated :: f(i))
  }

  function RelabelView(f: Relabel, v: View): View {
    v.(recent := RelabelRows(f, v.recent), older := set k | k in v.older :: RelabelKey(f, k),
       groups := RelabelGroups(f, v.groups), associated := set i | i in v.associated :: f(i))
  }

  function RelabelFailure(f: Relabel, x: Failure): Failure { Failure(x.at, f(x.idx), x.why) }

  function RelabelFailures(f: Relabel, xs: seq<Failure>): seq<Failure> {
    seq(|xs|, i requires 0 <= i < |xs| => RelabelFailure(f, xs[i]))
  }

  // ---------------------------------------------------------------- generic steps

  function Map<T, U>(f: T -> U, xs: seq<T>): seq<U> {
    seq(|xs|, i requires 0 <= i < |xs| => f(xs[i]))
  }

  lemma FilterMap<T, U>(f: T -> U, xs: seq<T>, p: T -> bool, q: U -> bool)
    requires forall x | x in xs :: q(f(x)) == p(x)
    ensures Filter(Map(f, xs), q) == Map(f, Filter(xs, p))
  {
    if xs != [] {
      var init := xs[..|xs| - 1];
      assert Map(f, xs)[..|xs| - 1] == Map(f, init);
      FilterMap(f, init, p, q);
    }
  }

  lemma FirstMap<T, U>(f: T -> U, xs: seq<T>, p: T -> bool, q: U -> bool)
    requires forall x | x in xs :: q(f(x)) == p(x)
    ensures First(Map(f, xs), q) == if First(xs, p).Some? then Some(f(First(xs, p).value)) else None
  {
    if xs != [] {
      var init := xs[..|xs| - 1];
      assert Map(f, xs)[..|xs| - 1] == Map(f, init);
      FirstMap(f, init, p, q);
    }
  }

  ghost predicate Preserves<T, U>(f: T -> U, xs: seq<T>, p: (T, T) -> bool, q: (U, U) -> bool) {
    forall x, y | x in xs && y in xs :: q(f(x), f(y)) == p(x, y)
  }

  lemma InsertMap<T, U>(f: T -> U, sorted: seq<T>, x: T, p: (T, T) -> bool, q: (U, U) -> bool)
    requires Preserves(f, sorted + [x], p, q)
    ensures Insert(Map(f, sorted), f(x), q) == Map(f, Insert(sorted, x, p))
  {
    if sorted != [] {
      var init, last := sorted[..|sorted| - 1], sorted[|sorted| - 1];
      assert Map(f, sorted)[..|sorted| - 1] == Map(f, init);
      assert x in sorted + [x] && last in sorted + [x];
      if p(x, last) {
        assert forall y | y in init + [x] :: y in sorted + [x];
        InsertMap(f, init, x, p, q);
      }
    }
  }

  lemma SortedInitIn<T>(xs: seq<T>, p: (T, T) -> bool)
    requires xs != []
    ensures forall y | y in Sort(xs[..|xs| - 1], p) + [xs[|xs| - 1]] :: y in xs
  {
    var init := xs[..|xs| - 1];
    forall y | y in Sort(init, p) ensures y in xs {
      SortedElement(init, p, y);
      var i :| 0 <= i < |init| && init[i] == y;
      assert xs[i] == y;
    }
  }

  lemma SortMap<T, U>(f: T -> U, xs: seq<T>, p: (T, T) -> bool, q: (U, U) -> bool)
    requires Preserves(f, xs, p, q)
    ensures Sort(Map(f, xs), q) == Map(f, Sort(xs, p))
  {
    if xs != [] {
      var init, last := xs[..|xs| - 1], xs[|xs| - 1];
      assert Map(f, xs)[..|xs| - 1] == Map(f, init);
      assert Sort(Map(f, xs), q) == Insert(Sort(Map(f, init), q), f(last), q);
      SortMap(f, init, p, q);
      SortedInitIn(xs, p);
      hide Sort;
      InsertMap(f, Sort(init, p), last, p, q);
    }
  }

  // ---------------------------------------------------------------- relabelling the joining passes

  lemma IndexOfRelabelled(f: Relabel, groups: seq<Group>, key: Key)
    requires Injective(f)
    ensures IndexOf(RelabelGroups(f, groups), RelabelKey(f, key)) == IndexOf(groups, key)
  {
    hide RelabelRows, RelabelKey, Injective;
    if groups != [] {
      assert RelabelGroups(f, groups)[1..] == RelabelGroups(f, groups[1..]);
      KeysApart(f, groups[0].key, key);
      IndexOfRelabelled(f, groups[1..], key);
    }
  }

  lemma KeysApart(f: Relabel, k: Key, l: Key)
    requires Injective(f)
    ensures RelabelKey(f, k) == RelabelKey(f, l) <==> k == l
  {}

  lemma AddRelabelled(f: Relabel, groups: seq<Group>, key: Key, row: Row)
    requires Injective(f)
    ensures Add(RelabelGroups(f, groups), RelabelKey(f, key), RelabelRow(f, row)) ==
      RelabelGroups(f, Add(groups, key, row))
  {
    IndexOfRelabelled(f, groups, key);
    var i := IndexOf(groups, key);
    if i < |groups| {
      assert RelabelRows(f, groups[i].rows + [row]) == RelabelRows(f, groups[i].rows) + [RelabelRow(f, row)];
    } else {
      assert RelabelRows(f, [row]) == [RelabelRow(f, row)];
    }
    hide IndexOf;
    assert Add(RelabelGroups(f, groups), RelabelKey(f, key), RelabelRow(f, row)) ==
      RelabelGroups(f, Add(groups, key, row));
  }

  lemma SpawnedRelabelled(f: Relabel, rows: seq<Row>, role: Role)
    requires Injective(f)
    ensures Spawned(RelabelRows(f, rows), role) == RelabelGroups(f, Spawned(rows, role))
  {
    if rows != [] {
      var init, row := rows[..|rows| - 1], rows[|rows| - 1];
      assert RelabelRows(f, rows)[..|rows| - 1] == RelabelRows(f, init);
      SpawnedRelabelled(f, init, role);
      AddRelabelled(f, Spawned(init, role), BySpawn(row.e.spawn), row);
      hide Add;
    }
  }

  lemma DispatchFailuresRelabelled(f: Relabel, groups: seq<Group>, rows: seq<Row>, role: Role)
    requires Injective(f)
    ensures WithDispatchFailures(RelabelGroups(f, groups), RelabelRows(f, rows), role) ==
      RelabelGroups(f, WithDispatchFailures(groups, rows, role))
  {
    if rows != [] {
      var init, row := rows[..|rows| - 1], rows[|rows| - 1];
      assert RelabelRows(f, rows)[..|rows| - 1] == RelabelRows(f, init);
      DispatchFailuresRelabelled(f, groups, init, role);
      var g := WithDispatchFailures(groups, init, role);
      AddRelabelled(f, g, BySpawn(row.e.spawn), row);
      IndexOfRelabelled(f, g, BySpawn(row.e.spawn));
      hide Add, IndexOf;
    }
  }

  /** The relabelling keeps the rows in their order. */
  ghost predicate KeepsOrder(f: Relabel, rows: seq<Row>) {
    Injective(f) && forall a, b | a in rows && b in rows :: Before(RelabelRow(f, a), RelabelRow(f, b)) == Before(a, b)
  }

  lemma WaitedForRelabelled(f: Relabel, rows: seq<Row>, pid: nat)
    ensures WaitedFor(RelabelRows(f, rows), pid) == WaitedFor(rows, pid)
  {
    if WaitedFor(rows, pid) {
      var i :| 0 <= i < |rows| && Starts(rows[i].e.kind) && rows[i].e.waiterPid == Some(pid);
      assert RelabelRows(f, rows)[i] in RelabelRows(f, rows);
    }
  }

  lemma MatchRelabelled(f: Relabel, marker: Row, groups: seq<Group>)
    ensures FirstMatch(RelabelRow(f, marker), RelabelGroups(f, groups)) ==
            if FirstMatch(marker, groups).Some? then Some(RelabelGroup(f, FirstMatch(marker, groups).value)) else None
  {
    forall g ensures Matches(RelabelRow(f, marker), RelabelGroup(f, g)) == Matches(marker, g) {
      if marker.e.spawn.Pid? { WaitedForRelabelled(f, g.rows, marker.e.spawn.pid); }
    }
    assert RelabelGroups(f, groups) == Map(g => RelabelGroup(f, g), groups);
    FirstMap(g => RelabelGroup(f, g), groups, g => Matches(marker, g), g => Matches(RelabelRow(f, marker), g));
  }

  lemma FollowingRelabelled(f: Relabel, rows: seq<Row>, marker: Row, role: Role)
    requires KeepsOrder(f, rows) && marker in rows
    ensures FirstFollowing(RelabelRows(f, rows), RelabelRow(f, marker), role) ==
            if FirstFollowing(rows, marker, role).Some? then Some(RelabelRow(f, FirstFollowing(rows, marker, role).value)) else None
  {
    assert RelabelRows(f, rows) == Map(r => RelabelRow(f, r), rows);
    FirstMap(r => RelabelRow(f, r), rows, r => Follows(r, marker, role), r => Follows(r, RelabelRow(f, marker), role));
  }

  lemma JoinFoundRelabelled(f: Relabel, j: Joined, rows: seq<Row>, role: Role, marker: Row)
    requires KeepsOrder(f, rows) && marker in rows && FirstMatch(marker, j.groups).Some?
    ensures JoinMarker(RelabelJoined(f, j), RelabelRows(f, rows), role, RelabelRow(f, marker)) ==
      RelabelJoined(f, JoinMarker(j, rows, role, marker))
  {
    MatchRelabelled(f, marker, j.groups);
    AddRelabelled(f, j.groups, FirstMatch(marker, j.groups).value.key, marker);
    hide Add, FirstMatch, FirstFollowing, RelabelGroups, RelabelRows, RelabelKey, RelabelRow;
  }

  lemma TookRelabelled(f: Relabel, j: Joined, receipt: Option<Row>)
    requires Injective(f) && receipt.Some?
    ensures TakesReceipt(Some(RelabelRow(f, receipt.value)), RelabelJoined(f, j).associated) <==>
      TakesReceipt(receipt, j.associated)
    ensures (set i | i in j.associated + {receipt.value.idx} :: f(i)) ==
      RelabelJoined(f, j).associated + {f(receipt.value.idx)}
    ensures ReceiptKey(RelabelRow(f, receipt.value)) == RelabelKey(f, ReceiptKey(receipt.value))
  {
    hide RelabelGroups;
    assert f(receipt.value.idx) in RelabelJoined(f, j).associated <==> receipt.value.idx in j.associated;
  }

  /** The groups once a receipt is taken. */
  lemma ReceiptedRelabelled(f: Relabel, groups: seq<Group>, receipt: Row, marker: Row)
    requires Injective(f)
    ensures var key := ReceiptKey(receipt);
      && Add(RelabelGroups(f, groups), RelabelKey(f, key), RelabelRow(f, marker)) ==
        RelabelGroups(f, Add(groups, key, marker))
      && Add(Add(RelabelGroups(f, groups), RelabelKey(f, key), RelabelRow(f, receipt)), RelabelKey(f, key), RelabelRow(f, marker))
         == RelabelGroups(f, Add(Add(groups, key, receipt), key, marker))
  {
    var key := ReceiptKey(receipt);
    AddRelabelled(f, groups, key, receipt);
    AddRelabelled(f, groups, key, marker);
    AddRelabelled(f, Add(groups, key, receipt), key, marker);
    hide Add, RelabelGroups, RelabelKey, RelabelRow;
  }

  lemma JoinMarkerRelabelled(f: Relabel, j: Joined, rows: seq<Row>, role: Role, marker: Row)
    requires KeepsOrder(f, rows) && marker in rows
    ensures JoinMarker(RelabelJoined(f, j), RelabelRows(f, rows), role, RelabelRow(f, marker)) ==
      RelabelJoined(f, JoinMarker(j, rows, role, marker))
  {
    hide Add, FirstMatch, FirstFollowing, RelabelGroups, RelabelRows, TakesReceipt, ReceiptKey;
    if FirstMatch(marker, j.groups).Some? { JoinFoundRelabelled(f, j, rows, role, marker); }
    else {
      MatchRelabelled(f, marker, j.groups);
      FollowingRelabelled(f, rows, marker, role);
      var receipt := FirstFollowing(rows, marker, role);
      AddRelabelled(f, j.groups, BySpawn(marker.e.spawn), marker);
      if receipt.Some? {
        TookRelabelled(f, j, receipt);
        ReceiptedRelabelled(f, j.groups, receipt.value, marker);
      } else { NothingTaken(j.associated); NothingTaken(RelabelJoined(f, j).associated); }
    }
  }

  lemma NothingTaken(associated: set<nat>)
    ensures !TakesReceipt(None, associated)
  {}

  lemma JoinMarkersRelabelled(f: Relabel, j: Joined, rows: seq<Row>, role: Role, markers: seq<Row>)
    requires KeepsOrder(f, rows) && forall m | m in markers :: m in rows
    ensures JoinMarkers(RelabelJoined(f, j), RelabelRows(f, rows), role, RelabelRows(f, markers)) ==
      RelabelJoined(f, JoinMarkers(j, rows, role, markers))
  {
    if markers != [] {
      var init, marker := markers[..|markers| - 1], markers[|markers| - 1];
      assert RelabelRows(f, markers)[..|markers| - 1] == RelabelRows(f, init);
      JoinMarkersRelabelled(f, j, rows, role, init);
      JoinMarkerRelabelled(f, JoinMarkers(j, rows, role, init), rows, role, marker);
      hide JoinMarker, RelabelJoined;
    }
  }

  lemma SortRowsRelabelled(f: Relabel, rows: seq<Row>, some: seq<Row>)
    requires KeepsOrder(f, rows) && forall r | r in some :: r in rows
    ensures SortRows(RelabelRows(f, some)) == RelabelRows(f, SortRows(some))
  {
    assert RelabelRows(f, some) == Map(r => RelabelRow(f, r), some);
    SortMap(r => RelabelRow(f, r), some, Before, Before);
  }

  lemma SortGroupsRelabelled(f: Relabel, rows: seq<Row>, groups: seq<Group>, role: Role)
    requires KeepsOrder(f, rows) && Filed(groups, rows, role)
    ensures SortGroups(RelabelGroups(f, groups)) == RelabelGroups(f, SortGroups(groups))
  {
    forall i | 0 <= i < |groups|
      ensures SortRows(RelabelRows(f, groups[i].rows)) == RelabelRows(f, SortRows(groups[i].rows))
    {
      assert groups[i] in groups;
      forall r | r in groups[i].rows ensures r in rows { assert RowFiled(groups[i], r, rows, role); }
      SortRowsRelabelled(f, rows, groups[i].rows);
    }
  }

  lemma JoinRelabelled(f: Relabel, rows: seq<Row>, role: Role)
    requires KeepsOrder(f, rows)
    ensures Join(RelabelRows(f, rows), role) == RelabelJoined(f, Join(rows, role))
  {
    var attempts := WithDispatchFailures(Spawned(rows, role), rows, role);
    SpawnedRelabelled(f, rows, role);
    DispatchFailuresRelabelled(f, Spawned(rows, role), rows, role);
    assert RelabelJoined(f, Joined(attempts, {})) == Joined(RelabelGroups(f, attempts), {});
    JoinMarkersRelabelled(f, Joined(attempts, {}), rows, role, rows);
    var j := JoinMarkers(Joined(attempts, {}), rows, role, rows);
    SpawnedFiled(rows, rows, role);
    DispatchFailuresFiled(Spawned(rows, role), rows, rows, role);
    JoinMarkersFiled(Joined(attempts, {}), rows, role, rows);
    SortGroupsRelabelled(f, rows, j.groups, role);
    hide Spawned, WithDispatchFailures, JoinMarkers, SortGroups, Filed, RelabelGroups, RelabelRows;
  }

  // ---------------------------------------------------------------- relabelling the classification

  lemma ViewOfRelabelled(f: Relabel, rows: seq<Row>, j: Joined, threshold: int, role: Role, now: int, dead: set<Spawn>)
    requires Injective(f)
    ensures ViewOf(RelabelRows(f, rows), RelabelJoined(f, j), threshold, role, now, dead) ==
      RelabelView(f, ViewOf(rows, j, threshold, role, now, dead))
  {
    var v := ViewOf(rows, j, threshold, role, now, dead);
    var w := ViewOf(RelabelRows(f, rows), RelabelJoined(f, j), threshold, role, now, dead);
    assert RelabelRows(f, rows) == Map(r => RelabelRow(f, r), rows);
    FilterMap(r => RelabelRow(f, r), rows, (r: Row) => r.ts >= threshold, (r: Row) => r.ts >= threshold);
    assert RelabelGroups(f, j.groups) == Map(g => RelabelGroup(f, g), j.groups);
    FilterMap(g => RelabelGroup(f, g), j.groups, g => !BegunBefore(g, threshold), g => !BegunBefore(g, threshold));
    assert w.recent == RelabelRows(f, v.recent);
    assert w.groups == RelabelGroups(f, v.groups);
    hide RelabelKey, Filter;
    forall k ensures k in w.older <==> k in RelabelView(f, v).older {
      if k in RelabelView(f, v).older {
        var g :| g in j.groups && BegunBefore(g, threshold) && RelabelKey(f, g.key) == k;
        var i :| 0 <= i < |j.groups| && j.groups[i] == g;
        assert RelabelGroups(f, j.groups)[i] == RelabelGroup(f, g);
      }
    }
    assert w.older == RelabelView(f, v).older;
  }

  lemma OlderRelabelled(f: Relabel, v: View, row: Row)
    requires Injective(f)
    ensures FromOlder(RelabelView(f, v), RelabelRow(f, row)) == FromOlder(v, row)
  {
    assert RelabelKey(f, BySpawn(row.e.spawn)) == BySpawn(row.e.spawn);
  }

  lemma RecentInRelabelled(f: Relabel, rows: seq<Row>, r: Row)
    ensures r in rows ==> RelabelRow(f, r) in RelabelRows(f, rows)
    ensures r in RelabelRows(f, rows) ==> exists q | q in rows :: r == RelabelRow(f, q)
  {
    if r in rows {
      var i :| 0 <= i < |rows| && rows[i] == r;
      assert RelabelRows(f, rows)[i] == RelabelRow(f, r);
    }
    if r in RelabelRows(f, rows) {
      var i :| 0 <= i < |rows| && RelabelRows(f, rows)[i] == r;
      assert rows[i] in rows;
    }
  }

  lemma ExistsRelabelled(f: Relabel, rows: seq<Row>, p: Row -> bool, q: Row -> bool)
    requires forall r | r in rows :: q(RelabelRow(f, r)) == p(r)
    ensures (exists r | r in RelabelRows(f, rows) :: q(r)) <==> (exists r | r in rows :: p(r))
  {
    if exists r | r in rows :: p(r) {
      var r :| r in rows && p(r);
      RecentInRelabelled(f, rows, r);
      assert q(RelabelRow(f, r));
    }
    if exists r | r in RelabelRows(f, rows) :: q(r) {
      var r :| r in RelabelRows(f, rows) && q(r);
      RecentInRelabelled(f, rows, r);
    }
  }

  lemma TerminalRowRelabelled(f: Relabel, v: View, r: Row)
    requires Injective(f)
    ensures TerminalRow(RelabelView(f, v), RelabelRow(f, r)) == TerminalRow(v, r)
  {
    OlderRelabelled(f, v, r);
  }

  lemma ConsumedRelabelled(f: Relabel, v: View)
    requires Injective(f)
    ensures Consumed(RelabelView(f, v)) == Consumed(v)
  {
    var w := RelabelView(f, v);
    forall r ensures TerminalRow(w, RelabelRow(f, r)) == TerminalRow(v, r) { TerminalRowRelabelled(f, v, r); }
    hide TerminalRow;
    ExistsRelabelled(f, v.recent, r => TerminalRow(v, r) || Terminal(r.e.kind), r => TerminalRow(w, r) || Terminal(r.e.kind));
  }

  lemma OutputSpawnsRelabelled(f: Relabel, v: View)
    requires Injective(f)
    ensures OutputSpawns(RelabelView(f, v)) == OutputSpawns(v)
  {
    var w := RelabelView(f, v);
    forall r ensures TerminalRow(w, RelabelRow(f, r)) == TerminalRow(v, r) { TerminalRowRelabelled(f, v, r); }
    hide TerminalRow;
    forall s ensures s in OutputSpawns(w) <==> s in OutputSpawns(v) {
      ExistsRelabelled(f, v.recent, r => TerminalRow(v, r) && r.e.spawn == s, r => TerminalRow(w, r) && r.e.spawn == s);
    }
    assert OutputSpawns(w) == OutputSpawns(v);
  }

  lemma DeadInRelabelled(f: Relabel, rows: seq<Row>)
    ensures DeadIn(RelabelRows(f, rows)) == DeadIn(rows)
  {
    forall s ensures s in DeadIn(RelabelRows(f, rows)) <==> s in DeadIn(rows) {
      ExistsRelabelled(f, rows, r => NamesDead(r) == s && !s.NoSpawn?, r => NamesDead(r) == s && !s.NoSpawn?);
    }
    assert DeadIn(RelabelRows(f, rows)) == DeadIn(rows);
  }

  function RelabelMaybe(f: Relabel, r: Option<Row>): Option<Row> {
    if r.Some? then Some(RelabelRow(f, r.value)) else None
  }

  lemma FirstRelabelled(f: Relabel, rows: seq<Row>, p: Row -> bool)
    requires forall r | r in rows :: p(RelabelRow(f, r)) == p(r)
    ensures First(RelabelRows(f, rows), p) == RelabelMaybe(f, First(rows, p))
  {
    assert RelabelRows(f, rows) == Map(r => RelabelRow(f, r), rows);
    FirstMap(r => RelabelRow(f, r), rows, p, p);
  }

  lemma GroupRowsRelabelled(f: Relabel, g: Group)
    ensures StartOf(RelabelGroup(f, g)) == RelabelMaybe(f, StartOf(g))
    ensures FailureOf(RelabelGroup(f, g)) == RelabelMaybe(f, FailureOf(g))
    ensures RealFailureOf(RelabelGroup(f, g)) == RelabelMaybe(f, RealFailureOf(g))
    ensures MarkerOf(RelabelGroup(f, g)) == RelabelMaybe(f, MarkerOf(g))
    ensures DoneOf(RelabelGroup(f, g)) == RelabelMaybe(f, DoneOf(g))
  {
    FirstRelabelled(f, g.rows, (r: Row) => Starts(r.e.kind));
    FirstRelabelled(f, g.rows, (r: Row) => Fails(r.e.kind));
    FirstRelabelled(f, g.rows, (r: Row) => Fails(r.e.kind) && !Refusal(r.e));
    FirstRelabelled(f, g.rows, (r: Row) => r.e.kind.Autodispatched?);
    FirstRelabelled(f, g.rows, (r: Row) => r.e.kind.SpawnDone?);
  }

  lemma DeathOfRelabelled(f: Relabel, v: View, g: Group)
    requires Injective(f)
    ensures DeathOf(RelabelView(f, v), RelabelGroup(f, g)) == RelabelMaybe(f, DeathOf(v, g))
  {
    GroupRowsRelabelled(f, g);
    if g.key.BySpawn? {
      FirstRelabelled(f, v.recent, r => StaleOf(r, g.key.spawn));
    }
    hide StartOf;
  }

  function RelabelOutcome(f: Relabel, o: Outcome): Outcome {
    if o.Failed? then Failed(RelabelFailure(f, o.failure)) else o
  }

  lemma OutcomeRelabelled(f: Relabel, v: View, g: Group)
    requires Injective(f)
    ensures OutcomeOf(RelabelView(f, v), RelabelGroup(f, g)) == RelabelOutcome(f, OutcomeOf(v, g))
  {
    GroupRowsRelabelled(f, g);
    DeathOfRelabelled(f, v, g);
    ConsumedRelabelled(f, v);
    OutputSpawnsRelabelled(f, v);
    DeadInRelabelled(f, v.recent);
    hide StartOf, FailureOf, RealFailureOf, MarkerOf, DoneOf, DeathOf, Consumed, OutputSpawns, DeadIn, RelabelRows;
  }

  lemma StrayRelabelled(f: Relabel, v: View, row: Row)
    requires Injective(f)
    ensures Stray(RelabelView(f, v), RelabelRow(f, row)) == Stray(v, row)
  {
    OlderRelabelled(f, v, row);
    IndexOfRelabelled(f, v.groups, BySpawn(row.e.spawn));
    assert f(row.idx) in RelabelView(f, v).associated <==> row.idx in v.associated;
  }

  lemma StraysRelabelled(f: Relabel, v: View, rows: seq<Row>)
    requires Injective(f)
    ensures Strays(RelabelView(f, v), RelabelRows(f, rows)) == RelabelFailures(f, Strays(v, rows))
  {
    if rows != [] {
      var init, row := rows[..|rows| - 1], rows[|rows| - 1];
      assert RelabelRows(f, rows)[..|rows| - 1] == RelabelRows(f, init);
      StraysRelabelled(f, v, init);
      StrayRelabelled(f, v, row);
      hide Stray, RelabelView;
    }
  }

  lemma GroupFailuresRelabelled(f: Relabel, v: View, groups: seq<Group>)
    requires Injective(f)
    ensures GroupFailures(RelabelView(f, v), RelabelGroups(f, groups)) == RelabelFailures(f, GroupFailures(v, groups))
  {
    if groups != [] {
      var init, g := groups[..|groups| - 1], groups[|groups| - 1];
      assert RelabelGroups(f, groups)[..|groups| - 1] == RelabelGroups(f, init);
      GroupFailuresRelabelled(f, v, init);
      OutcomeRelabelled(f, v, g);
      hide OutcomeOf, RelabelView;
    }
  }

  lemma RunningRelabelled(f: Relabel, v: View)
    requires Injective(f)
    ensures AnyRunning(RelabelView(f, v)) == AnyRunning(v)
  {
    var w := RelabelView(f, v);
    forall i | 0 <= i < |v.groups| ensures OutcomeOf(w, w.groups[i]) == RelabelOutcome(f, OutcomeOf(v, v.groups[i])) {
      OutcomeRelabelled(f, v, v.groups[i]);
    }
    hide OutcomeOf;
    if AnyRunning(v) {
      var i :| 0 <= i < |v.groups| && OutcomeOf(v, v.groups[i]).Running?;
      assert w.groups[i] in w.groups;
    }
    if AnyRunning(w) {
      var i :| 0 <= i < |w.groups| && OutcomeOf(w, w.groups[i]).Running?;
      assert v.groups[i] in v.groups;
    }
  }

  lemma EligibleRelabelled(f: Relabel, v: View, row: Row)
    requires Injective(f)
    ensures Eligible(RelabelView(f, v), RelabelRow(f, row)) == Eligible(v, row)
    ensures Refuses(RelabelView(f, v), RelabelRow(f, row)) == Refuses(v, row)
  {
    OlderRelabelled(f, v, row);
  }

  lemma NewestBuildRelabelled(f: Relabel, rows: seq<Row>)
    ensures NewestBuild(RelabelRows(f, rows)) == RelabelMaybe(f, NewestBuild(rows))
  {
    assert RelabelRows(f, rows) == Map(r => RelabelRow(f, r), rows);
    FilterMap(r => RelabelRow(f, r), rows, (r: Row) => r.e.kind.BuildDone?, (r: Row) => r.e.kind.BuildDone?);
  }

  lemma BundleSinceRelabelled(f: Relabel, v: View, refusedAt: int)
    ensures BundleSince(RelabelView(f, v), refusedAt) == BundleSince(v, refusedAt)
  {
    ExistsRelabelled(f, v.recent,
            (r: Row) => r.ts > refusedAt && (r.e.kind.EvidenceBundle? || r.e.kind.EvidenceBundleFailed?),
            (r: Row) => r.ts > refusedAt && (r.e.kind.EvidenceBundle? || r.e.kind.EvidenceBundleFailed?));
  }

  lemma StartSinceRelabelled(f: Relabel, v: View, refusedAt: int)
    requires Injective(f)
    ensures StartSince(RelabelView(f, v), refusedAt) == StartSince(v, refusedAt)
  {
    var w := RelabelView(f, v);
    forall r ensures Eligible(w, RelabelRow(f, r)) == Eligible(v, r) { EligibleRelabelled(f, v, r); }
    hide Eligible;
    ExistsRelabelled(f, v.recent,
            (r: Row) => r.ts > refusedAt && Eligible(v, r) && Starts(r.e.kind),
            (r: Row) => r.ts > refusedAt && Eligible(w, r) && Starts(r.e.kind));
  }

  lemma BuildBundledRelabelled(f: Relabel, v: View)
    ensures BuildBundled(RelabelView(f, v)) == BuildBundled(v)
  {
    NewestBuildRelabelled(f, v.recent);
    var build := NewestBuild(v.recent);
    hide NewestBuild;
    if build.Some? {
      ExistsRelabelled(f, v.recent, r => BundlesBuild(r, build.value), r => BundlesBuild(r, RelabelRow(f, build.value)));
    }
  }

  lemma ClearedRelabelled(f: Relabel, v: View, refusedAt: int)
    requires Injective(f)
    ensures Cleared(RelabelView(f, v), refusedAt) == Cleared(v, refusedAt)
  {
    BundleSinceRelabelled(f, v, refusedAt);
    StartSinceRelabelled(f, v, refusedAt);
    BuildBundledRelabelled(f, v);
    hide BundleSince, StartSince, BuildBundled;
  }

  lemma BundleAwaitedRelabelled(f: Relabel, v: View)
    requires Injective(f)
    ensures BundleAwaited(RelabelView(f, v)) == BundleAwaited(v)
  {
    var w := RelabelView(f, v);
    forall r ensures Refuses(w, RelabelRow(f, r)) == Refuses(v, r) { EligibleRelabelled(f, v, r); }
    assert w.recent == Map(r => RelabelRow(f, r), v.recent);
    hide Refuses, Cleared;
    FilterMap(r => RelabelRow(f, r), v.recent, r => Refuses(v, r), r => Refuses(w, r));
    var refusals := Filter(v.recent, r => Refuses(v, r));
    if refusals != [] { ClearedRelabelled(f, v, refusals[|refusals| - 1].ts); }
  }

  // ---------------------------------------------------------------- relabelling the answer

  lemma SoonerWeak()
    ensures WeakOrder(Sooner)
  {}

  lemma LastIsLatest(xs: seq<Failure>, x: Failure)
    requires x in xs
    ensures var s := Sort(xs, Sooner); s != [] && x.at <= s[|s| - 1].at
  {
    SortIn(xs, Sooner);
    SoonerWeak();
    SortInOrder(xs, Sooner);
    var s := Sort(xs, Sooner);
    var i :| 0 <= i < |s| && s[i] == x;
    if i < |s| - 1 { assert !Sooner(s[|s| - 1], s[i]); }
  }

  lemma InFailuresRelabelled(f: Relabel, xs: seq<Failure>, x: Failure)
    ensures x in xs ==> RelabelFailure(f, x) in RelabelFailures(f, xs)
    ensures x in RelabelFailures(f, xs) ==> exists y | y in xs :: x == RelabelFailure(f, y)
  {
    if x in xs {
      var i :| 0 <= i < |xs| && xs[i] == x;
      assert RelabelFailures(f, xs)[i] == RelabelFailure(f, x);
    }
    if x in RelabelFailures(f, xs) {
      var i :| 0 <= i < |xs| && RelabelFailures(f, xs)[i] == x;
      assert xs[i] in xs;
    }
  }

  /** The latest failure is as late after relabelling, whatever happens to ties. */
  lemma LatestFailureRelabelled(f: Relabel, xs: seq<Failure>)
    requires xs != []
    ensures var s, t := Sort(xs, Sooner), Sort(RelabelFailures(f, xs), Sooner);
            |s| == |t| == |xs| && s[|s| - 1].at == t[|t| - 1].at
  {
    var ys := RelabelFailures(f, xs);
    var s, t := Sort(xs, Sooner), Sort(ys, Sooner);
    SortContents(xs, Sooner);
    SortContents(ys, Sooner);
    SortIn(xs, Sooner);
    SortIn(ys, Sooner);
    assert s[|s| - 1] in s && t[|t| - 1] in t;
    InFailuresRelabelled(f, xs, s[|s| - 1]);
    LastIsLatest(ys, RelabelFailure(f, s[|s| - 1]));
    InFailuresRelabelled(f, xs, t[|t| - 1]);
    var y :| y in xs && t[|t| - 1] == RelabelFailure(f, y);
    LastIsLatest(xs, y);
  }

  lemma WhyAppend(xs: seq<Failure>, x: Failure)
    ensures Why(xs + [x]) == Why(xs) + [x.why]
  {}

  lemma InsertWhy(sorted: seq<Failure>, x: Failure)
    ensures multiset(Why(Insert(sorted, x, Sooner))) == multiset(Why(sorted)) + multiset{x.why}
  {
    WhyAppend(sorted, x);
    if sorted != [] {
      var init, last := sorted[..|sorted| - 1], sorted[|sorted| - 1];
      assert sorted == init + [last];
      InsertWhy(init, x);
      WhyAppend(init, last);
      WhyAppend(Insert(init, x, Sooner), last);
    }
  }

  /** Sorting keeps the reasons, with their multiplicities. */
  lemma SortWhy(xs: seq<Failure>)
    ensures multiset(Why(Sort(xs, Sooner))) == multiset(Why(xs))
  {
    if xs != [] {
      var init, last := xs[..|xs| - 1], xs[|xs| - 1];
      assert xs == init + [last];
      SortWhy(init);
      WhyAppend(init, last);
      InsertWhy(Sort(init, Sooner), last);
    }
  }

  lemma UnsortedRelabelled(f: Relabel, v: View)
    requires Injective(f)
    ensures var w := RelabelView(f, v);
            Strays(w, w.recent) + GroupFailures(w, w.groups) ==
            RelabelFailures(f, Strays(v, v.recent) + GroupFailures(v, v.groups))
  {
    StraysRelabelled(f, v, v.recent);
    GroupFailuresRelabelled(f, v, v.groups);
    FailuresJoinRelabelled(f, Strays(v, v.recent), GroupFailures(v, v.groups));
    hide Strays, GroupFailures, RelabelFailures, RelabelGroups, RelabelRows, RelabelKey;
  }

  lemma FailuresJoinRelabelled(f: Relabel, xs: seq<Failure>, ys: seq<Failure>)
    ensures RelabelFailures(f, xs + ys) == RelabelFailures(f, xs) + RelabelFailures(f, ys)
  {}

  /** Two answers that differ in the order of the reasons at most. */
  ghost predicate SameButOrder(a: Standing, b: Standing) {
    a.(reasons := []) == b.(reasons := []) && multiset(a.reasons) == multiset(b.reasons)
  }

  lemma AssembleAlike(consumed: bool, running: bool, awaited: bool, xs: seq<Failure>, ys: seq<Failure>)
    requires |xs| == |ys| && multiset(Why(xs)) == multiset(Why(ys))
    requires xs != [] ==> xs[|xs| - 1].at == ys[|ys| - 1].at
    ensures SameButOrder(Assemble(consumed, running, awaited, xs), Assemble(consumed, running, awaited, ys))
  {}

  lemma FailuresRelabelled(f: Relabel, v: View)
    requires Injective(f)
    ensures var xs, ys := Failures(v), Failures(RelabelView(f, v));
            && |xs| == |ys| && multiset(Why(xs)) == multiset(Why(ys))
            && (xs != [] ==> xs[|xs| - 1].at == ys[|ys| - 1].at)
  {
    UnsortedRelabelled(f, v);
    var xs := Strays(v, v.recent) + GroupFailures(v, v.groups);
    var ys := RelabelFailures(f, xs);
    hide Strays, GroupFailures, RelabelView;
    assert Why(xs) == Why(ys);
    SortWhy(xs);
    SortWhy(ys);
    SortContents(xs, Sooner);
    SortContents(ys, Sooner);
    if xs != [] { LatestFailureRelabelled(f, xs); }
    hide Sort, Why;
  }

  lemma ClassifyRelabelled(f: Relabel, v: View)
    requires Injective(f)
    ensures SameButOrder(Classify(v), Classify(RelabelView(f, v)))
  {
    ConsumedRelabelled(f, v);
    RunningRelabelled(f, v);
    BundleAwaitedRelabelled(f, v);
    FailuresRelabelled(f, v);
    hide Consumed, AnyRunning, BundleAwaited, Failures, RelabelView, Why;
    AssembleAlike(Consumed(v), AnyRunning(v), BundleAwaited(v), Failures(v), Failures(RelabelView(f, v)));
    hide Assemble, SameButOrder;
  }

  lemma FailuresSame(f: Relabel, v: View)
    requires Injective(f)
    requires Preserves(x => RelabelFailure(f, x), Strays(v, v.recent) + GroupFailures(v, v.groups), Sooner, Sooner)
    ensures Failures(RelabelView(f, v)) == RelabelFailures(f, Failures(v))
  {
    UnsortedRelabelled(f, v);
    var xs := Strays(v, v.recent) + GroupFailures(v, v.groups);
    hide Strays, GroupFailures, RelabelView;
    assert RelabelFailures(f, xs) == Map(x => RelabelFailure(f, x), xs);
    SortMap(x => RelabelFailure(f, x), xs, Sooner, Sooner);
    assert RelabelFailures(f, Sort(xs, Sooner)) == Map(x => RelabelFailure(f, x), Sort(xs, Sooner));
  }

  lemma AssembleSame(f: Relabel, consumed: bool, running: bool, awaited: bool, xs: seq<Failure>)
    ensures Assemble(consumed, running, awaited, xs) == Assemble(consumed, running, awaited, RelabelFailures(f, xs))
  {
    assert Why(xs) == Why(RelabelFailures(f, xs));
  }

  /** Where the labels of the failures keep their order too, the answer is the very same. */
  lemma ClassifySame(f: Relabel, v: View)
    requires Injective(f)
    requires Preserves(x => RelabelFailure(f, x), Strays(v, v.recent) + GroupFailures(v, v.groups), Sooner, Sooner)
    ensures Classify(v) == Classify(RelabelView(f, v))
  {
    ConsumedRelabelled(f, v);
    RunningRelabelled(f, v);
    BundleAwaitedRelabelled(f, v);
    FailuresSame(f, v);
    AssembleSame(f, Consumed(v), AnyRunning(v), BundleAwaited(v), Failures(v));
    hide Consumed, AnyRunning, BundleAwaited, Failures, RelabelView, Assemble, Strays, GroupFailures, Preserves;
  }

  // ---------------------------------------------------------------- building a relabelling

  ghost predicate DistinctIdx(rows: seq<Row>) {
    forall i, j | 0 <= i < j < |rows| :: rows[i].idx != rows[j].idx
  }

  /** The same events at the same times, under other labels. */
  ghost predicate SameEvents(a: seq<Row>, b: seq<Row>) {
    |a| == |b| && forall i | 0 <= i < |a| :: a[i].ts == b[i].ts && a[i].e == b[i].e
  }

  function Labels(a: seq<Row>, b: seq<Row>): map<nat, nat>
    requires |a| == |b|
  {
    if a == [] then map[] else Labels(a[..|a| - 1], b[..|b| - 1])[a[|a| - 1].idx := b[|b| - 1].idx]
  }

  lemma LabelsLast(a: seq<Row>, b: seq<Row>)
    requires |a| == |b| && a != []
    ensures Labels(a, b) == Labels(a[..|a| - 1], b[..|b| - 1])[a[|a| - 1].idx := b[|b| - 1].idx]
  {}

  lemma {:induction false} LabelsAre(a: seq<Row>, b: seq<Row>)
    requires |a| == |b| && DistinctIdx(a)
    ensures forall k | k in Labels(a, b) :: exists i | 0 <= i < |a| :: a[i].idx == k
    ensures forall i | 0 <= i < |a| :: a[i].idx in Labels(a, b) && Labels(a, b)[a[i].idx] == b[i].idx
  {
    if a != [] {
      hide Labels;
      var n := |a| - 1;
      LabelsLast(a, b);
      LabelsAre(a[..n], b[..n]);
      assert forall i | 0 <= i < n :: a[..n][i] == a[i] && b[..n][i] == b[i];
      LabelsPush(a, b, Labels(a[..n], b[..n]), Labels(a, b));
    }
  }

  lemma LabelsPush(a: seq<Row>, b: seq<Row>, before: map<nat, nat>, now: map<nat, nat>)
    requires |a| == |b| && a != [] && DistinctIdx(a)
    requires now == before[a[|a| - 1].idx := b[|b| - 1].idx]
    requires forall k | k in before :: exists i | 0 <= i < |a| - 1 :: a[i].idx == k
    requires forall i | 0 <= i < |a| - 1 :: a[i].idx in before && before[a[i].idx] == b[i].idx
    ensures forall k | k in now :: exists i | 0 <= i < |a| :: a[i].idx == k
    ensures forall i | 0 <= i < |a| :: a[i].idx in now && now[a[i].idx] == b[i].idx
  {
    var n := |a| - 1;
    forall k | k in now ensures exists i | 0 <= i < |a| :: a[i].idx == k {
      if k in before { var i :| 0 <= i < n && a[i].idx == k; } else { assert a[n].idx == k; }
    }
  }

  function Above(rows: seq<Row>): (n: nat)
    ensures forall r | r in rows :: r.idx < n
  {
    if rows == [] then 0
    else
      assert rows == rows[..|rows| - 1] + [rows[|rows| - 1]];
      var n := Above(rows[..|rows| - 1]);
      if rows[|rows| - 1].idx < n then n else rows[|rows| - 1].idx + 1
  }

  ghost function Between(a: seq<Row>, b: seq<Row>): Relabel
    requires |a| == |b|
  {
    var labels, above := Labels(a, b), Above(b);
    (i: nat) => if i in labels then labels[i] else i + above
  }

  lemma LabelsBelow(a: seq<Row>, b: seq<Row>)
    requires |a| == |b|
    ensures forall k | k in Labels(a, b) :: Labels(a, b)[k] < Above(b)
  {
    if a != [] { LabelsBelow(a[..|a| - 1], b[..|b| - 1]); }
  }

  lemma LabelsInjective(a: seq<Row>, b: seq<Row>, i: nat, j: nat)
    requires |a| == |b| && DistinctIdx(a) && DistinctIdx(b)
    requires i in Labels(a, b) && j in Labels(a, b) && Labels(a, b)[i] == Labels(a, b)[j]
    ensures i == j
  {
    LabelsAre(a, b);
    hide Labels;
    var p :| 0 <= p < |a| && a[p].idx == i;
    var q :| 0 <= q < |a| && a[q].idx == j;
    assert b[p].idx == b[q].idx;
  }

  lemma BetweenInjective(a: seq<Row>, b: seq<Row>)
    requires SameEvents(a, b) && DistinctIdx(a) && DistinctIdx(b)
    ensures Injective(Between(a, b))
  {
    assert |a| == |b|;
    LabelsBelow(a, b);
    var f := Between(a, b);
    hide Labels, Above, SameEvents, DistinctIdx;
    forall i: nat, j: nat | f(i) == f(j) ensures i == j {
      if i in Labels(a, b) && j in Labels(a, b) { LabelsInjective(a, b, i, j); }
    }
  }

  lemma BetweenAt(a: seq<Row>, b: seq<Row>, i: nat)
    requires SameEvents(a, b) && DistinctIdx(a) && i < |a|
    ensures RelabelRow(Between(a, b), a[i]) == b[i]
  {
    LabelsAre(a, b);
  }

  lemma BetweenRelabels(a: seq<Row>, b: seq<Row>)
    requires SameEvents(a, b) && DistinctIdx(a) && DistinctIdx(b)
    ensures Injective(Between(a, b)) && b == RelabelRows(Between(a, b), a)
  {
    BetweenInjective(a, b);
    forall i | 0 <= i < |a| ensures RelabelRow(Between(a, b), a[i]) == b[i] { BetweenAt(a, b, i); }
    hide Between, RelabelRow;
  }

  /** Strictly in the order of time and place. */
  ghost predicate Strict(rows: seq<Row>) {
    forall i, j | 0 <= i < j < |rows| :: Before(rows[i], rows[j])
  }

  lemma BetweenKeepsOrder(a: seq<Row>, b: seq<Row>)
    requires SameEvents(a, b) && DistinctIdx(a) && DistinctIdx(b) && Strict(a) && Strict(b)
    ensures KeepsOrder(Between(a, b), a)
  {
    BetweenInjective(a, b);
    var f := Between(a, b);
    forall r, s | r in a && s in a ensures Before(RelabelRow(f, r), RelabelRow(f, s)) == Before(r, s) {
      var i :| 0 <= i < |a| && a[i] == r;
      var j :| 0 <= j < |a| && a[j] == s;
      BetweenAt(a, b, i);
      BetweenAt(a, b, j);
      hide Between, RelabelRow;
    }
    hide Between, RelabelRow;
  }
}
