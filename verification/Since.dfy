/** Wave order: is a spec held behind an unsettled sibling of an earlier wave (`wave_blocker`, src/dispatch.py). */
module Since {
  // The fold's verdict on a spec and the charter's plan file are parameters.

  import opened Seqs
  import opened Overlap

  datatype Subject = NoSubject | Spec(id: string) | OtherSubject(text: string)

  datatype Kind = SpecWritten | BuildDone | Shipped | Decision | Unblocked | OtherKind(name: string)

  /** `charter` is the normalised charter id; an empty footprint counts as none. */
  datatype Event = Event(
    subject: Subject, ts: int, kind: Kind, charter: Option<string>, footprint: seq<string>, waive: Option<bool>)

  /** A unit of a charter's plan: its footprint and its wave. */
  datatype Unit = Unit(footprint: set<string>, wave: nat)

  /** What is read from outside: a charter's plan, and whether a spec's events fold to a settled state. */
  datatype World = World(plan: string -> seq<Unit>, settled: seq<Event> -> bool)

  // ---------------------------------------------------------------- the wave of a footprint

  /** What the loop over the units returns, from unit `i` on, with the best unit before it. */
  function BestFrom(units: seq<Unit>, fp: set<string>, i: nat, wave: Option<nat>, best: Score): Option<nat>
    requires i <= |units|
    decreases |units| - i
  {
    if i == |units| then (if AtLeast(best, 1, 2) then wave else None)
    else if units[i].footprint == fp then Some(units[i].wave)
    else if Better(Jaccard(units[i].footprint, fp), best) then
      BestFrom(units, fp, i + 1, Some(units[i].wave), Jaccard(units[i].footprint, fp))
    else BestFrom(units, fp, i + 1, wave, best)
  }

  function WaveOf(units: seq<Unit>, fp: set<string>): Option<nat> { BestFrom(units, fp, 0, None, ZERO) }

  /** `spec_wave`: the loop over the plan's units, with its early return. */
  method SpecWave(units: seq<Unit>, fp: set<string>) returns (wave: Option<nat>)
    ensures wave == WaveOf(units, fp)
  {
    var best := ZERO;
    wave := None;
    for i := 0 to |units|
      invariant WaveOf(units, fp) == BestFrom(units, fp, i, wave, best)
    {
      if units[i].footprint == fp {
        return Some(units[i].wave);
      }
      var score := Jaccard(units[i].footprint, fp);
      if Better(score, best) {
        wave, best := Some(units[i].wave), score;
      }
    }
    if !AtLeast(best, 1, 2) {
      wave := None;
    }
  }

  function ScoreOf(units: seq<Unit>, fp: set<string>, i: nat): Score
    requires i < |units|
  {
    Jaccard(units[i].footprint, fp)
  }

  /** Unit `b` is the earliest of the greatest overlap among the first `n`. */
  ghost predicate Leads(units: seq<Unit>, fp: set<string>, n: nat, b: nat) {
    && b < n <= |units|
    && (forall j | 0 <= j < n :: !Better(ScoreOf(units, fp, j), ScoreOf(units, fp, b)))
    && (forall j | 0 <= j < b :: Better(ScoreOf(units, fp, b), ScoreOf(units, fp, j)))
  }

  ghost predicate SomeExact(units: seq<Unit>, fp: set<string>) { exists u | u in units :: u.footprint == fp }

  /** The loop's state: no overlap yet, or the leading unit `b`. */
  ghost predicate Tracks(units: seq<Unit>, fp: set<string>, n: nat, b: Option<nat>, wave: Option<nat>, best: Score) {
    n <= |units| &&
    match b
    case None => wave == None && best == ZERO && forall j | 0 <= j < n :: !Better(ScoreOf(units, fp, j), ZERO)
    case Some(i) => Leads(units, fp, n, i) && wave == Some(units[i].wave) && best == ScoreOf(units, fp, i)
  }

  lemma TracksStep(units: seq<Unit>, fp: set<string>, n: nat, b: Option<nat>, wave: Option<nat>, best: Score)
    requires Tracks(units, fp, n, b, wave, best) && n < |units|
    ensures Better(ScoreOf(units, fp, n), best) ==>
              Tracks(units, fp, n + 1, Some(n), Some(units[n].wave), ScoreOf(units, fp, n))
    ensures !Better(ScoreOf(units, fp, n), best) ==> Tracks(units, fp, n + 1, b, wave, best)
  {
    if Better(ScoreOf(units, fp, n), best) {
      forall j | 0 <= j < n ensures Better(ScoreOf(units, fp, n), ScoreOf(units, fp, j)) {
        BetterThrough(ScoreOf(units, fp, n), best, ScoreOf(units, fp, j));
      }
      forall j | 0 <= j < n ensures !Better(ScoreOf(units, fp, j), ScoreOf(units, fp, n)) {
        assert Better(ScoreOf(units, fp, n), ScoreOf(units, fp, j));
      }
    }
  }

  ghost predicate LeadsWith(units: seq<Unit>, fp: set<string>, i: nat, wave: nat) {
    Leads(units, fp, |units|, i) && AtLeast(ScoreOf(units, fp, i), 1, 2) && wave == units[i].wave
  }

  /** The wave of the earliest unit of greatest overlap, if at least half is shared; none if no unit shares half. */
  ghost predicate IsBestWave(units: seq<Unit>, fp: set<string>, wave: Option<nat>) {
    match wave
    case Some(w) => exists i :: LeadsWith(units, fp, i, w)
    case None => forall i | 0 <= i < |units| :: !AtLeast(ScoreOf(units, fp, i), 1, 2)
  }

  /**
   Without a unit of exactly this footprint, the wave is that of the earliest unit of greatest overlap,
   provided at least half is shared, and undetermined when no unit shares half.
   */
  lemma {:induction false} BestUnit(units: seq<Unit>, fp: set<string>, n: nat, b: Option<nat>, wave: Option<nat>, best: Score)
    requires Tracks(units, fp, n, b, wave, best) && !SomeExact(units, fp)
    ensures IsBestWave(units, fp, BestFrom(units, fp, n, wave, best))
    decreases |units| - n
  {
    if n == |units| {
      if !AtLeast(best, 1, 2) {
        forall i | 0 <= i < |units| ensures !AtLeast(ScoreOf(units, fp, i), 1, 2) {
          BarHolds(ScoreOf(units, fp, i), best, 1, 2);
        }
      } else if b.Some? {
        assert LeadsWith(units, fp, b.value, wave.value);
      }
    } else {
      assert units[n] in units;
      TracksStep(units, fp, n, b, wave, best);
      hide Tracks, IsBestWave;
      if Better(ScoreOf(units, fp, n), best) {
        BestUnit(units, fp, n + 1, Some(n), Some(units[n].wave), ScoreOf(units, fp, n));
      } else {
        BestUnit(units, fp, n + 1, b, wave, best);
      }
    }
  }

  lemma {:induction false} ExactUnit(units: seq<Unit>, fp: set<string>, n: nat, i: nat, wave: Option<nat>, best: Score)
    requires n <= i < |units| && units[i].footprint == fp && forall j | n <= j < i :: units[j].footprint != fp
    ensures BestFrom(units, fp, n, wave, best) == Some(units[i].wave)
    decreases |units| - n
  {
    if n < i {
      if Better(Jaccard(units[n].footprint, fp), best) {
        ExactUnit(units, fp, n + 1, i, Some(units[n].wave), Jaccard(units[n].footprint, fp));
      } else {
        ExactUnit(units, fp, n + 1, i, wave, best);
      }
    }
  }

  /** The promise of `spec_wave`, both ways. */
  lemma WaveOfSpec(units: seq<Unit>, fp: set<string>)
    ensures forall i: nat | i < |units| && units[i].footprint == fp && (forall j | 0 <= j < i :: units[j].footprint != fp) ::
              WaveOf(units, fp) == Some(units[i].wave)
    ensures !SomeExact(units, fp) ==>
              IsBestWave(units, fp, WaveOf(units, fp))
  {
    forall i: nat | i < |units| && units[i].footprint == fp && (forall j | 0 <= j < i :: units[j].footprint != fp)
      ensures WaveOf(units, fp) == Some(units[i].wave)
    {
      ExactUnit(units, fp, 0, i, None, ZERO);
    }
    if !SomeExact(units, fp) { BestUnit(units, fp, 0, None, None, ZERO); }
  }

  // ---------------------------------------------------------------- one sibling

  function SiblingEvents(evs: seq<Event>, s: Subject): seq<Event> { Filter(evs, (e: Event) => e.subject == s) }

  /** `next((... for e in reversed(evs) if ...), None)` */
  function Last<T>(xs: seq<T>, p: T -> bool): Option<T> {
    if xs == [] then None else if p(xs[|xs| - 1]) then Some(xs[|xs| - 1]) else Last(xs[..|xs| - 1], p)
  }

  function Charter(evs: seq<Event>): Option<string> {
    var e := Last(evs, (e: Event) => e.charter.Some?);
    if e.Some? then e.value.charter else None
  }

  function Written(evs: seq<Event>): Option<Event> {
    Last(evs, (e: Event) => e.kind.SpecWritten? && e.footprint != [])
  }

  function Paths(footprint: seq<string>): set<string> { set p | p in footprint }

  /** Does a sibling with these events stand in the way of a spec of wave `wave`? */
  predicate SiblingBlocks(w: World, evs: seq<Event>, charter: string, wave: nat) {
    && Charter(evs) == Some(charter)
    && Written(evs).Some?
    && (var sibWave := WaveOf(w.plan(charter), Paths(Written(evs).value.footprint));
        sibWave.Some? && sibWave.value < wave)
    && !w.settled(evs)
  }

  // ---------------------------------------------------------------- the simple form

  predicate Sibling(s: Subject, subject: Subject) { s.Spec? && s != subject }

  ghost predicate Blocked(w: World, evs: seq<Event>, charter: string, subject: Subject, wave: nat) {
    exists s :: Blocks(w, evs, s, charter, subject, wave)
  }

  predicate Built(evs: seq<Event>, subject: Subject) {
    exists e | e in evs :: e.subject == subject && (e.kind.BuildDone? || e.kind.Shipped?)
  }

  predicate Waives(e: Event, subject: Subject) { e.subject == subject && e.kind.Decision? && e.waive.Some? }

  /** `max(waives, key=ts)`: the first of the newest. */
  function NewestWaiver(evs: seq<Event>, subject: Subject): Option<Event> {
    if evs == [] then None
    else
      var newest, e := NewestWaiver(evs[..|evs| - 1], subject), evs[|evs| - 1];
      if Waives(e, subject) && (newest.None? || newest.value.ts < e.ts) then Some(e) else newest
  }

  predicate Waived(evs: seq<Event>, subject: Subject) {
    var newest := NewestWaiver(evs, subject);
    newest.Some? && newest.value.waive == Some(true)
  }

  /** `wave_blocker` returns a sibling, rather than none. */
  ghost predicate Held(w: World, evs: seq<Event>, charter: string, subject: Subject, wave: Option<nat>) {
    wave.Some? && !Built(evs, subject) && !Waived(evs, subject) && Blocked(w, evs, charter, subject, wave.value)
  }

  /** The subjects in order of first appearance. */
  function Order(evs: seq<Event>): seq<Subject> {
    if evs == [] then []
    else
      var order, s := Order(evs[..|evs| - 1]), evs[|evs| - 1].subject;
      if s.NoSubject? || s in order then order else order + [s]
  }

  predicate Blocks(w: World, evs: seq<Event>, s: Subject, charter: string, subject: Subject, wave: nat) {
    Sibling(s, subject) && SiblingBlocks(w, SiblingEvents(evs, s), charter, wave)
  }

  lemma SiblingEventsAppend(evs: seq<Event>, e: Event, s: Subject)
    ensures SiblingEvents(evs + [e], s) == if e.subject == s then SiblingEvents(evs, s) + [e] else SiblingEvents(evs, s)
  {
    FilterAppend(evs, e, (e: Event) => e.subject == s);
  }

  lemma OrderIn(evs: seq<Event>, s: Subject)
    ensures s in Order(evs) <==> !s.NoSubject? && SiblingEvents(evs, s) != []
  {}

  /** Every subject's events, in the order the subjects first appear. */
  predicate Filed(bySubject: map<Subject, seq<Event>>, order: seq<Subject>, evs: seq<Event>) {
    && order == Order(evs)
    && (forall s | s in bySubject :: s in order && bySubject[s] == SiblingEvents(evs, s))
    && (forall s | s in order :: s in bySubject)
  }

  lemma FiledNext(bySubject: map<Subject, seq<Event>>, order: seq<Subject>, evs: seq<Event>, e: Event)
    requires Filed(bySubject, order, evs)
    ensures var s := e.subject;
      if s.NoSubject? then Filed(bySubject, order, evs + [e])
      else if s in bySubject then Filed(bySubject[s := bySubject[s] + [e]], order, evs + [e])
      else Filed(bySubject[s := [e]], order + [s], evs + [e])
  {
    FilingFacts(evs, e);
    hide SiblingEvents, Order;
    assert [] + [e] == [e];
  }

  lemma FilingFacts(evs: seq<Event>, e: Event)
    ensures forall s :: SiblingEvents(evs + [e], s) == (if e.subject == s then SiblingEvents(evs, s) + [e] else SiblingEvents(evs, s))
    ensures forall s :: s in Order(evs) <==> !s.NoSubject? && SiblingEvents(evs, s) != []
    ensures Order(evs + [e]) == if e.subject.NoSubject? || e.subject in Order(evs) then Order(evs) else Order(evs) + [e.subject]
  {
    assert (evs + [e])[..|evs|] == evs;
    forall s ensures SiblingEvents(evs + [e], s) == if e.subject == s then SiblingEvents(evs, s) + [e] else SiblingEvents(evs, s) {
      SiblingEventsAppend(evs, e, s);
    }
    forall s ensures s in Order(evs) <==> !s.NoSubject? && SiblingEvents(evs, s) != [] { OrderIn(evs, s); }
  }

  /** The loop that files the events under their subjects. */
  method GroupBySubject(evs: seq<Event>) returns (bySubject: map<Subject, seq<Event>>, order: seq<Subject>)
    ensures Filed(bySubject, order, evs)
  {
    bySubject, order := map[], [];
    assert Filed(bySubject, order, []);
    hide Filed;
    for i := 0 to |evs|
      invariant Filed(bySubject, order, evs[..i])
    {
      var e := evs[i];
      assert evs[..i + 1] == evs[..i] + [e];
      FiledNext(bySubject, order, evs[..i], e);
      if !e.subject.NoSubject? {
        if e.subject in bySubject {
          bySubject := bySubject[e.subject := bySubject[e.subject] + [e]];
        } else {
          order := order + [e.subject];
          bySubject := bySubject[e.subject := [e]];
        }
      }
    }
    assert evs[..|evs|] == evs;
  }

  /** A filed sibling blocks. */
  predicate BlocksIn(w: World, bySubject: map<Subject, seq<Event>>, s: Subject, charter: string, subject: Subject, wave: nat) {
    s in bySubject && Sibling(s, subject) && SiblingBlocks(w, bySubject[s], charter, wave)
  }

  /** The loop over the siblings, with its early return. */
  method ScanSiblings(w: World, bySubject: map<Subject, seq<Event>>, order: seq<Subject>, charter: string, subject: Subject, wave: nat)
    returns (blocker: Option<Subject>, ghost at: nat)
    requires forall s | s in order :: s in bySubject
    ensures if blocker.None? then at == |order| else (at < |order| && order[at] == blocker.value
      && BlocksIn(w, bySubject, order[at], charter, subject, wave))
    ensures forall j | 0 <= j < at :: !BlocksIn(w, bySubject, order[j], charter, subject, wave)
  {
    hide SiblingBlocks;
    for i := 0 to |order|
      invariant forall j | 0 <= j < i :: !BlocksIn(w, bySubject, order[j], charter, subject, wave)
    {
      var sid := order[i];
      if Sibling(sid, subject) && SiblingBlocks(w, bySubject[sid], charter, wave) {
        return Some(sid), i;
      }
    }
    return None, |order|;
  }

  /** `wave_blocker`: exemptions first, then the first sibling, in order of appearance, that blocks. */
  method WaveBlocker(w: World, evs: seq<Event>, charter: string, subject: Subject, wave: Option<nat>)
    returns (blocker: Option<Subject>)
    ensures blocker.Some? <==> Held(w, evs, charter, subject, wave)
    ensures blocker.Some? ==> FirstBlocker(w, evs, charter, subject, wave.value, blocker.value)
  {
    if wave.None? || Built(evs, subject) || Waived(evs, subject) {
      return None;
    }
    var bySubject, order := GroupBySubject(evs);
    ghost var at;
    FiledBlocks(w, evs, bySubject, order, charter, subject, wave.value);
    blocker, at := ScanSiblings(w, bySubject, order, charter, subject, wave.value);
    hide Blocks, BlocksIn, SiblingBlocks, Order;
    if blocker.None? { NobodyBlocks(w, evs, order, charter, subject, wave.value); }
    else { assert Blocks(w, evs, order[at], charter, subject, wave.value); }
  }

  lemma FiledBlocks(w: World, evs: seq<Event>, bySubject: map<Subject, seq<Event>>, order: seq<Subject>,
                    charter: string, subject: Subject, wave: nat)
    requires Filed(bySubject, order, evs)
    ensures order == Order(evs) && forall s | s in order :: s in bySubject
    ensures forall s | s in order :: BlocksIn(w, bySubject, s, charter, subject, wave) <==> Blocks(w, evs, s, charter, subject, wave)
    ensures forall s :: Blocks(w, evs, s, charter, subject, wave) ==> s in order
  {
    forall s ensures Blocks(w, evs, s, charter, subject, wave) ==> s in order { OrderIn(evs, s); NoEventsNoBlock(w, charter, wave); }
    hide SiblingBlocks, SiblingEvents;
  }

  lemma NoEventsNoBlock(w: World, charter: string, wave: nat)
    ensures !SiblingBlocks(w, [], charter, wave)
  {}

  lemma NobodyBlocks(w: World, evs: seq<Event>, order: seq<Subject>, charter: string, subject: Subject, wave: nat)
    requires forall s :: Blocks(w, evs, s, charter, subject, wave) ==> s in order
    requires forall j | 0 <= j < |order| :: !Blocks(w, evs, order[j], charter, subject, wave)
    ensures !Blocked(w, evs, charter, subject, wave)
  { hide Blocks; }

  /** `s` blocks, and no subject that appeared earlier does. */
  ghost predicate FirstBlocker(w: World, evs: seq<Event>, charter: string, subject: Subject, wave: nat, s: Subject) {
    exists i :: 0 <= i < |Order(evs)| && Order(evs)[i] == s && Blocks(w, evs, s, charter, subject, wave)
                && forall j | 0 <= j < i :: !Blocks(w, evs, Order(evs)[j], charter, subject, wave)
  }

  function Newest(evs: seq<Event>, p: Event -> bool): Option<int> {
    if evs == [] then None
    else
      var newest, e := Newest(evs[..|evs| - 1], p), evs[|evs| - 1];
      if p(e) && (newest.None? || newest.value < e.ts) then Some(e.ts) else newest
  }

  predicate IsMarker(e: Event) { e.kind.SpecWritten? || e.kind.Decision? || e.kind.Unblocked? }

  function NewestMarker(evs: seq<Event>): Option<int> { Newest(evs, IsMarker) }

  predicate Earlier(a: Event, b: Event) { a.ts < b.ts }

  /** The ledger in order of time, ties in order of filing. */
  function History(events: seq<Event>): seq<Event> { Sort(events, Earlier) }

  /** The instant of the last step of the history at which a blocked spec stopped being blocked. */
  ghost function LastRelease(w: World, history: seq<Event>, charter: string, subject: Subject, wave: nat): Option<int> {
    if history == [] then None
    else
      var before := history[..|history| - 1];
      if Blocked(w, before, charter, subject, wave) && !Blocked(w, history, charter, subject, wave)
      then Some(history[|history| - 1].ts)
      else LastRelease(w, before, charter, subject, wave)
  }

  /** The same, of `wave_blocker` itself, with the subject's own exemptions. */
  ghost function LastUnheld(w: World, history: seq<Event>, charter: string, subject: Subject, wave: nat): Option<int> {
    if history == [] then None
    else
      var before := history[..|history| - 1];
      if Held(w, before, charter, subject, Some(wave)) && !Held(w, history, charter, subject, Some(wave))
      then Some(history[|history| - 1].ts)
      else LastUnheld(w, before, charter, subject, wave)
  }

  function Later(a: Option<int>, b: Option<int>): Option<int> {
    if a.None? then b else if b.None? then a else if a.value < b.value then b else a
  }
}
