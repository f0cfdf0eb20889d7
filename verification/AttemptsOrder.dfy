/** Independence of other subjects' events and of the order of the input (`history`, src/attempts.py). */
module AttemptsOrder {
  import opened Seqs
  import opened Attempts
  import opened AttemptsBudget
  import opened AttemptsRelabel

  // ---------------------------------------------------------------- rows of an event list

  predicate About(e: Event, subject: string) { e.subject == subject }

  function OwnEvents(evs: seq<Event>, subject: string): seq<Event> { Filter(evs, e => About(e, subject)) }

  function EventsOf(rows: seq<Row>): seq<Event> { seq(|rows|, i requires 0 <= i < |rows| => rows[i].e) }

  lemma OwnFacts(evs: seq<Event>, subject: string)
    ensures EventsOf(Own(evs, subject)) == OwnEvents(evs, subject)
    ensures forall i | 0 <= i < |Own(evs, subject)| ::
              Own(evs, subject)[i].ts == Own(evs, subject)[i].e.ts && Own(evs, subject)[i].idx < |evs|
    ensures forall i, j | 0 <= i < j < |Own(evs, subject)| :: Own(evs, subject)[i].idx < Own(evs, subject)[j].idx
  {
    if evs != [] { OwnFacts(evs[..|evs| - 1], subject); }
  }

  lemma InsertDistinct(sorted: seq<Row>, x: Row)
    requires DistinctIdx(sorted) && forall r | r in sorted :: r.idx != x.idx
    ensures DistinctIdx(Insert(sorted, x, Before))
  {
    if sorted != [] && Before(x, sorted[|sorted| - 1]) {
      var init := sorted[..|sorted| - 1];
      InsertDistinct(init, x);
      InsertIn(init, x, Before);
      forall r | r in Insert(init, x, Before) ensures r.idx != sorted[|sorted| - 1].idx {
        if r in init { var i :| 0 <= i < |init| && init[i] == r; }
      }
    }
  }

  lemma SortDistinct(rows: seq<Row>)
    requires DistinctIdx(rows)
    ensures DistinctIdx(SortRows(rows))
  {
    if rows != [] {
      var init := rows[..|rows| - 1];
      SortDistinct(init);
      forall r | r in SortRows(init) ensures r.idx != rows[|rows| - 1].idx {
        SortedElement(init, Before, r);
        var i :| 0 <= i < |init| && init[i] == r;
      }
      InsertDistinct(SortRows(init), rows[|rows| - 1]);
    }
  }

  lemma SortStrict(rows: seq<Row>)
    requires DistinctIdx(rows)
    ensures DistinctIdx(SortRows(rows)) && Strict(SortRows(rows))
  {
    SortDistinct(rows);
    RowsInOrder(rows);
  }

  // ---------------------------------------------------------------- other subjects' events

  lemma OutcomeLabel(v: View, g: Group)
    requires Grounded(v) && g in v.groups
    ensures var o := OutcomeOf(v, g); o.Failed? ==> exists r | r in v.recent :: r.idx == o.failure.idx
  {
    FirstIs(g.rows, (r: Row) => Fails(r.e.kind) && !Refusal(r.e));
    FirstIs(g.rows, (r: Row) => Starts(r.e.kind));
    FirstIs(g.rows, (r: Row) => r.e.kind.Autodispatched?);
    FirstIs(g.rows, (r: Row) => r.e.kind.SpawnDone?);
    if g.key.BySpawn? { FirstIs(v.recent, r => StaleOf(r, g.key.spawn)); }
    forall r | r in g.rows ensures r in v.recent { assert RowFiled(g, r, v.recent, v.role); }
    assert g.rows[0] in g.rows;
    hide First, Grounded, IsDead, HasOutput, Consumed;
  }

  ghost predicate Labelled(xs: seq<Failure>, rows: seq<Row>) {
    forall x | x in xs :: exists r | r in rows :: r.idx == x.idx
  }

  lemma StraysLabelled(v: View, rows: seq<Row>)
    ensures Labelled(Strays(v, rows), rows)
  {
    if rows != [] {
      var init := rows[..|rows| - 1];
      assert rows == init + [rows[|rows| - 1]];
      StraysLabelled(v, init);
    }
  }

  lemma GroupFailuresLabelled(v: View, groups: seq<Group>)
    requires Grounded(v) && forall g | g in groups :: g in v.groups
    ensures Labelled(GroupFailures(v, groups), v.recent)
  {
    if groups != [] {
      var init, g := groups[..|groups| - 1], groups[|groups| - 1];
      assert groups == init + [g];
      GroupFailuresLabelled(v, init);
      OutcomeLabel(v, g);
      hide OutcomeOf, Grounded;
    }
  }

  lemma MonotonePreserves(f: Relabel, xs: seq<Failure>, rows: seq<Row>)
    requires Labelled(xs, rows)
    requires forall r, s | r in rows && s in rows :: f(r.idx) < f(s.idx) <==> r.idx < s.idx
    ensures Preserves(x => RelabelFailure(f, x), xs, Sooner, Sooner)
  {
    forall x, y | x in xs && y in xs ensures Sooner(RelabelFailure(f, x), RelabelFailure(f, y)) == Sooner(x, y) {
      var r :| r in rows && r.idx == x.idx;
      var s :| s in rows && s.idx == y.idx;
    }
  }

  ghost predicate Monotone(f: Relabel, rows: seq<Row>) {
    forall r, s | r in rows && s in rows :: f(r.idx) < f(s.idx) <==> r.idx < s.idx
  }

  ghost predicate RisingIdx(rows: seq<Row>) {
    forall i, j | 0 <= i < j < |rows| :: rows[i].idx < rows[j].idx
  }

  lemma RisingIff(rows: seq<Row>, i: nat, j: nat)
    requires RisingIdx(rows) && i < |rows| && j < |rows|
    ensures rows[i].idx < rows[j].idx <==> i < j
  {}

  lemma MonotoneAt(f: Relabel, a: seq<Row>, b: seq<Row>, i: nat, j: nat)
    requires i < |a| && j < |a| && |a| == |b| && RisingIdx(a) && RisingIdx(b)
    requires RelabelRow(f, a[i]) == b[i] && RelabelRow(f, a[j]) == b[j]
    ensures f(a[i].idx) < f(a[j].idx) <==> a[i].idx < a[j].idx
    ensures Before(RelabelRow(f, a[i]), RelabelRow(f, a[j])) == Before(a[i], a[j])
  {
    RisingIff(a, i, j);
    RisingIff(b, i, j);
    hide RisingIdx;
  }

  lemma BetweenMonotone(a: seq<Row>, b: seq<Row>)
    requires SameEvents(a, b) && RisingIdx(a) && RisingIdx(b)
    ensures Monotone(Between(a, b), a) && KeepsOrder(Between(a, b), a)
  {
    assert DistinctIdx(a) && DistinctIdx(b) && |a| == |b|;
    hide Between, RisingIdx, RelabelRow, SameEvents, Before, Injective, DistinctIdx;
    BetweenInjective(a, b);
    var f := Between(a, b);
    forall r, s | r in a && s in a
      ensures f(r.idx) < f(s.idx) <==> r.idx < s.idx
      ensures Before(RelabelRow(f, r), RelabelRow(f, s)) == Before(r, s)
    {
      var i :| 0 <= i < |a| && a[i] == r;
      var j :| 0 <= j < |a| && a[j] == s;
      BetweenAt(a, b, i);
      BetweenAt(a, b, j);
      MonotoneAt(f, a, b, i, j);
    }
  }

  lemma FailuresLabelled(v: View)
    requires Grounded(v)
    ensures Labelled(Strays(v, v.recent) + GroupFailures(v, v.groups), v.recent)
  {
    StraysLabelled(v, v.recent);
    GroupFailuresLabelled(v, v.groups);
    hide Strays, GroupFailures, Grounded;
  }

  lemma ViewSame(f: Relabel, rows: seq<Row>, v: View)
    requires Grounded(v) && Injective(f) && Monotone(f, rows) && forall r | r in v.recent :: r in rows
    ensures Classify(v) == Classify(RelabelView(f, v))
  {
    FailuresLabelled(v);
    hide Classify, Strays, GroupFailures, Grounded, RelabelView, RelabelFailure, Injective;
    MonotonePreserves(f, Strays(v, v.recent) + GroupFailures(v, v.groups), v.recent);
    ClassifySame(f, v);
  }

  lemma RelabelledSame(f: Relabel, own: seq<Row>, threshold: int, role: Role, now: int, dead: set<Spawn>)
    requires KeepsOrder(f, own) && Monotone(f, own)
    ensures var rows, rows' := SortRows(own), SortRows(RelabelRows(f, own));
            Classify(ViewOf(rows, Join(rows, role), threshold, role, now, dead)) ==
            Classify(ViewOf(rows', Join(rows', role), threshold, role, now, dead))
  {
    var rows := SortRows(own);
    SortRowsRelabelled(f, own, own);
    SortIn(own, Before);
    hide SortRows;
    JoinRelabelled(f, rows, role);
    ViewOfRelabelled(f, rows, Join(rows, role), threshold, role, now, dead);
    ViewGrounded(rows, threshold, role, now, dead);
    FilterIn(rows, (r: Row) => r.ts >= threshold);
    hide Join, Classify, Grounded, RelabelView;
    ViewSame(f, own, ViewOf(rows, Join(rows, role), threshold, role, now, dead));
  }

  /** Adding or removing other subjects' events, anywhere in the input, never changes the answer. */
  lemma OthersIrrelevant(
    evs: seq<Event>, evs': seq<Event>, subject: string, threshold: int, role: Role, now: int, dead: set<Spawn>)
    requires OwnEvents(evs, subject) == OwnEvents(evs', subject)
    ensures HistoryOf(evs, subject, threshold, role, now, dead) == HistoryOf(evs', subject, threshold, role, now, dead)
  {
    var a, b := Own(evs, subject), Own(evs', subject);
    OwnFacts(evs, subject);
    OwnFacts(evs', subject);
    assert EventsOf(a) == EventsOf(b);
    forall i | 0 <= i < |a| ensures a[i].ts == b[i].ts && a[i].e == b[i].e {
      assert EventsOf(a)[i] == EventsOf(b)[i];
    }
    BetweenMonotone(a, b);
    BetweenRelabels(a, b);
    RelabelledSame(Between(a, b), a, threshold, role, now, dead);
    hide Classify, Join, ViewOf, SortRows;
  }

  // ---------------------------------------------------------------- permutations

  lemma FilterCount<T>(xs: seq<T>, p: T -> bool, x: T)
    ensures multiset(Filter(xs, p))[x] == if p(x) then multiset(xs)[x] else 0
  {
    if xs != [] {
      var init := xs[..|xs| - 1];
      assert xs == init + [xs[|xs| - 1]];
      FilterCount(init, p, x);
    }
  }

  lemma EventsAppend(rows: seq<Row>, r: Row)
    ensures EventsOf(rows + [r]) == EventsOf(rows) + [r.e]
  {}

  lemma InsertEvents(sorted: seq<Row>, x: Row)
    ensures multiset(EventsOf(Insert(sorted, x, Before))) == multiset(EventsOf(sorted)) + multiset{x.e}
  {
    EventsAppend(sorted, x);
    if sorted != [] {
      var init, last := sorted[..|sorted| - 1], sorted[|sorted| - 1];
      assert sorted == init + [last];
      InsertEvents(init, x);
      EventsAppend(init, last);
      EventsAppend(Insert(init, x, Before), last);
    }
  }

  lemma SortEvents(rows: seq<Row>)
    ensures multiset(EventsOf(SortRows(rows))) == multiset(EventsOf(rows))
  {
    if rows != [] {
      var init, last := rows[..|rows| - 1], rows[|rows| - 1];
      assert rows == init + [last];
      SortEvents(init);
      EventsAppend(init, last);
      InsertEvents(SortRows(init), last);
    }
  }

  ghost predicate Rising(evs: seq<Event>) { forall i, j | 0 <= i < j < |evs| :: evs[i].ts < evs[j].ts }
  ghost predicate Nondecreasing(evs: seq<Event>) { forall i, j | 0 <= i < j < |evs| :: evs[i].ts <= evs[j].ts }

  lemma SameLast(xs: seq<Event>, ys: seq<Event>)
    requires xs != [] && multiset(xs) == multiset(ys) && Rising(xs) && Nondecreasing(ys)
    ensures ys != [] && xs[|xs| - 1] == ys[|ys| - 1]
  {
    var x := xs[|xs| - 1];
    assert x in multiset(ys);
    var i :| 0 <= i < |ys| && ys[i] == x;
    var y := ys[|ys| - 1];
    assert y in multiset(xs);
    var j :| 0 <= j < |xs| && xs[j] == y;
  }

  lemma WithoutLast(xs: seq<Event>)
    requires xs != []
    ensures multiset(xs[..|xs| - 1]) == multiset(xs) - multiset{xs[|xs| - 1]}
  {
    assert xs == xs[..|xs| - 1] + [xs[|xs| - 1]];
  }

  /** There is one way to put events with distinct times in order. */
  lemma {:induction false} OneOrder(xs: seq<Event>, ys: seq<Event>)
    requires multiset(xs) == multiset(ys) && Rising(xs) && Nondecreasing(ys)
    ensures xs == ys
  {
    assert |xs| == |multiset(xs)| == |multiset(ys)| == |ys|;
    if xs != [] {
      SameLast(xs, ys);
      WithoutLast(xs);
      WithoutLast(ys);
      OneOrder(xs[..|xs| - 1], ys[..|ys| - 1]);
      assert xs == xs[..|xs| - 1] + [xs[|xs| - 1]];
      assert ys == ys[..|ys| - 1] + [ys[|ys| - 1]];
    }
  }

  /** The subject's events carry pairwise distinct times. */
  ghost predicate DistinctTimes(evs: seq<Event>, subject: string) {
    forall i, j | 0 <= i < j < |evs| && evs[i].subject == subject && evs[j].subject == subject :: evs[i].ts != evs[j].ts
  }

  lemma OwnDistinctTimes(evs: seq<Event>, subject: string)
    requires DistinctTimes(evs, subject)
    ensures forall i, j | 0 <= i < j < |Own(evs, subject)| :: Own(evs, subject)[i].ts != Own(evs, subject)[j].ts
  {
    var own := Own(evs, subject);
    OwnIs(evs, subject);
    OwnFacts(evs, subject);
    forall i, j | 0 <= i < j < |own| ensures own[i].ts != own[j].ts {
      assert evs[own[i].idx] == own[i].e && evs[own[j].idx] == own[j].e;
    }
  }

  lemma OwnIs(evs: seq<Event>, subject: string)
    ensures forall r | r in Own(evs, subject) :: r.idx < |evs| && evs[r.idx] == r.e && r.e.subject == subject && r.ts == r.e.ts
  {
    if evs != [] { OwnIs(evs[..|evs| - 1], subject); }
  }

  /** The sorted rows of the subject: strictly ordered, each row at its own event's time. */
  lemma SortedOwn(evs: seq<Event>, subject: string)
    ensures var rows := SortRows(Own(evs, subject));
            && Strict(rows) && DistinctIdx(rows) && (forall r | r in rows :: r.ts == r.e.ts)
            && Nondecreasing(EventsOf(rows))
  {
    var own := Own(evs, subject);
    OwnFacts(evs, subject);
    OwnIs(evs, subject);
    SortStrict(own);
    forall r | r in SortRows(own) ensures r.ts == r.e.ts { SortedElement(own, Before, r); }
  }

  lemma SortedRising(evs: seq<Event>, subject: string)
    requires DistinctTimes(evs, subject)
    ensures Rising(EventsOf(SortRows(Own(evs, subject))))
  {
    var own := Own(evs, subject);
    var rows := SortRows(own);
    SortedOwn(evs, subject);
    OwnDistinctTimes(evs, subject);
    forall i, j | 0 <= i < j < |rows| ensures rows[i].e.ts < rows[j].e.ts {
      assert rows[i] in rows && rows[j] in rows && rows[i].idx != rows[j].idx;
      SortedElement(own, Before, rows[i]);
      SortedElement(own, Before, rows[j]);
      var p :| 0 <= p < |own| && own[p] == rows[i];
      var q :| 0 <= q < |own| && own[q] == rows[j];
    }
  }

  lemma RelabelledAlike(f: Relabel, rows: seq<Row>, threshold: int, role: Role, now: int, dead: set<Spawn>)
    requires KeepsOrder(f, rows)
    ensures var rows' := RelabelRows(f, rows);
            SameButOrder(Classify(ViewOf(rows, Join(rows, role), threshold, role, now, dead)),
                         Classify(ViewOf(rows', Join(rows', role), threshold, role, now, dead)))
  {
    JoinRelabelled(f, rows, role);
    ViewOfRelabelled(f, rows, Join(rows, role), threshold, role, now, dead);
    ClassifyRelabelled(f, ViewOf(rows, Join(rows, role), threshold, role, now, dead));
    hide Classify, Join, RelabelView, SameButOrder;
  }

  lemma OwnEventsPermuted(evs: seq<Event>, evs': seq<Event>, subject: string)
    requires multiset(evs) == multiset(evs')
    ensures multiset(EventsOf(SortRows(Own(evs, subject)))) == multiset(EventsOf(SortRows(Own(evs', subject))))
  {
    OwnFacts(evs, subject);
    OwnFacts(evs', subject);
    SortEvents(Own(evs, subject));
    SortEvents(Own(evs', subject));
    hide SortRows;
    forall e ensures multiset(OwnEvents(evs, subject))[e] == multiset(OwnEvents(evs', subject))[e] {
      FilterCount(evs, e => About(e, subject), e);
      FilterCount(evs', e => About(e, subject), e);
    }
    assert multiset(OwnEvents(evs, subject)) == multiset(OwnEvents(evs', subject));
  }

  lemma EventByEvent(a: seq<Row>, b: seq<Row>)
    requires EventsOf(a) == EventsOf(b)
    requires (forall r | r in a :: r.ts == r.e.ts) && forall r | r in b :: r.ts == r.e.ts
    ensures |a| == |b| && forall i | 0 <= i < |a| :: a[i].ts == b[i].ts && a[i].e == b[i].e
  {
    forall i | 0 <= i < |a| ensures a[i].ts == b[i].ts && a[i].e == b[i].e {
      assert EventsOf(a)[i] == EventsOf(b)[i];
      assert a[i] in a && b[i] in b;
    }
  }

  /** The sorted rows of a permutation are the same ones, relabelled in order. */
  lemma PermutedRows(evs: seq<Event>, evs': seq<Event>, subject: string)
    requires multiset(evs) == multiset(evs') && DistinctTimes(evs, subject)
    ensures var a, b := SortRows(Own(evs, subject)), SortRows(Own(evs', subject));
      |a| == |b| && KeepsOrder(Between(a, b), a) && RelabelRows(Between(a, b), a) == b
  {
    hide SortRows, Own, DistinctTimes;
    var a, b := SortRows(Own(evs, subject)), SortRows(Own(evs', subject));
    SortedOwn(evs, subject);
    SortedOwn(evs', subject);
    SortedRising(evs, subject);
    OwnEventsPermuted(evs, evs', subject);
    OneOrder(EventsOf(a), EventsOf(b));
    EventByEvent(a, b);
    BetweenRelabels(a, b);
    BetweenKeepsOrder(a, b);
  }

  lemma HistoryIs(evs: seq<Event>, subject: string, threshold: int, role: Role, now: int, dead: set<Spawn>)
    ensures HistoryOf(evs, subject, threshold, role, now, dead) ==
      if !Known(role) || subject == "" then None
      else var rows := SortRows(Own(evs, subject)); Some(Classify(ViewOf(rows, Join(rows, role), threshold, role, now, dead)))
  { hide Classify, Join, ViewOf, SortRows, Own; }

  /**
   When the subject's events carry pairwise distinct times, any permutation of the input gives the same
   answer; only reasons of failures at the same instant may change places.
   */
  lemma PermutationIrrelevant(
    evs: seq<Event>, evs': seq<Event>, subject: string, threshold: int, role: Role, now: int, dead: set<Spawn>)
    requires multiset(evs) == multiset(evs') && DistinctTimes(evs, subject)
    ensures var a, b := HistoryOf(evs, subject, threshold, role, now, dead), HistoryOf(evs', subject, threshold, role, now, dead);
            if a.Some? then b.Some? && SameButOrder(a.value, b.value) else b.None?
  {
    hide HistoryOf, Classify, Join, ViewOf, SortRows, Own, SameButOrder, DistinctTimes, KeepsOrder, Between;
    var a, b := SortRows(Own(evs, subject)), SortRows(Own(evs', subject));
    HistoryIs(evs, subject, threshold, role, now, dead);
    HistoryIs(evs', subject, threshold, role, now, dead);
    PermutedRows(evs, evs', subject);
    RelabelledAlike(Between(a, b), a, threshold, role, now, dead);
  }
}
