/** The incremental replay of `_since` (src/autodispatch.py) against re-scanning every prefix of the ledger. */
module SinceReplay {
  // The replay re-tests at each event the one sibling it is about; the simple form runs `wave_blocker`'s sibling
  // scan again on the whole prefix.

  import opened Seqs
  import opened Since

  // ---------------------------------------------------------------- what one event can change

  lemma BlocksOthers(w: World, evs: seq<Event>, e: Event, s: Subject, charter: string, subject: Subject, wave: nat)
    requires s != e.subject
    ensures Blocks(w, evs + [e], s, charter, subject, wave) == Blocks(w, evs, s, charter, subject, wave)
  {
    SiblingEventsAppend(evs, e, s);
  }

  lemma NobodyBlocksYet(w: World, s: Subject, charter: string, subject: Subject, wave: nat)
    ensures !Blocks(w, [], s, charter, subject, wave)
  {}

  // ---------------------------------------------------------------- the replay

  type Cache = map<multiset<string>, Option<nat>>

  /** The memo of waves by sorted footprint holds what the plan says. */
  ghost predicate Agrees(waves: Cache, w: World, charter: string) {
    forall k | k in waves :: waves[k] == WaveOf(w.plan(charter), set p | p in k)
  }

  /** `_sibling_blocks`, with its memo of waves. */
  method TestSibling(w: World, evs: seq<Event>, charter: string, wave: nat, memo: Cache) returns (blocks: bool, waves: Cache)
    requires Agrees(memo, w, charter)
    ensures Agrees(waves, w, charter)
    ensures blocks == SiblingBlocks(w, evs, charter, wave)
  {
    waves := memo;
    if Charter(evs) != Some(charter) {
      return false, waves;
    }
    var written := Written(evs);
    if written.None? {
      return false, waves;
    }
    var footprint := written.value.footprint;
    var key := multiset(footprint);
    assert (set p | p in key) == Paths(footprint);
    if key !in waves {
      var found := SpecWave(w.plan(charter), Paths(footprint));
      waves := waves[key := found];
    }
    var sibWave := waves[key];
    if sibWave.None? || sibWave.value >= wave {
      return false, waves;
    }
    blocks := !w.settled(evs);
  }

  predicate InCharter(e: Event, charter: string) { e.subject.Spec? && e.charter == Some(charter) }

  function Members(events: seq<Event>, charter: string): set<Subject> {
    set e | e in events && InCharter(e, charter) :: e.subject
  }

  function Kept(evs: seq<Event>, subjects: set<Subject>): seq<Event> {
    Filter(evs, (e: Event) => e.subject in subjects)
  }

  /** The members' events in order of time. */
  function MemberHistory(events: seq<Event>, charter: string): seq<Event> {
    Sort(Kept(events, Members(events, charter)), Earlier)
  }

  method CollectMembers(events: seq<Event>, charter: string) returns (members: set<Subject>)
    ensures members == Members(events, charter)
  {
    members := {};
    for i := 0 to |events|
      invariant members == Members(events[..i], charter)
    {
      assert events[..i + 1] == events[..i] + [events[i]];
      if InCharter(events[i], charter) {
        members := members + {events[i].subject};
      }
    }
    assert events[..|events|] == events;
  }

  /** The siblings' events filed so far. */
  ghost predicate SeenIs(seen: map<Subject, seq<Event>>, sid: Subject, evs: seq<Event>) {
    forall s | s != sid :: (if s in seen then seen[s] else []) == SiblingEvents(evs, s)
  }

  /** The siblings that block, and no others. */
  ghost predicate BlockingIs(blocking: set<Subject>, w: World, evs: seq<Event>, charter: string, sid: Subject, wave: nat) {
    forall s :: s in blocking <==> Blocks(w, evs, s, charter, sid, wave)
  }

  lemma SeenNext(seen: map<Subject, seq<Event>>, sid: Subject, evs: seq<Event>, e: Event)
    requires SeenIs(seen, sid, evs)
    ensures SeenIs(seen[e.subject := (if e.subject in seen then seen[e.subject] else []) + [e]], sid, evs + [e])
  {
    forall s ensures SiblingEvents(evs + [e], s) == if e.subject == s then SiblingEvents(evs, s) + [e] else SiblingEvents(evs, s) {
      SiblingEventsAppend(evs, e, s);
    }
    hide SiblingEvents;
  }

  lemma BlockingNext(blocking: set<Subject>, w: World, evs: seq<Event>, e: Event, charter: string, sid: Subject, wave: nat)
    requires BlockingIs(blocking, w, evs, charter, sid, wave)
    ensures BlockingIs(if Blocks(w, evs + [e], e.subject, charter, sid, wave) then blocking + {e.subject} else blocking - {e.subject},
                       w, evs + [e], charter, sid, wave)
  {
    forall s | s != e.subject ensures Blocks(w, evs + [e], s, charter, sid, wave) == Blocks(w, evs, s, charter, sid, wave) {
      BlocksOthers(w, evs, e, s, charter, sid, wave);
    }
    hide Blocks;
  }

  /** One step of the replay: files the event and re-tests the sibling it is about, and no other. */
  method Step(w: World, e: Event, charter: string, sid: Subject, wave: nat, seen: map<Subject, seq<Event>>,
              blocking: set<Subject>, memo: Cache, ghost before: seq<Event>)
    returns (seen': map<Subject, seq<Event>>, blocking': set<Subject>, waves: Cache)
    requires Agrees(memo, w, charter) && e.subject != sid && e.subject.Spec?
    requires SeenIs(seen, sid, before) && BlockingIs(blocking, w, before, charter, sid, wave)
    ensures Agrees(waves, w, charter)
    ensures SeenIs(seen', sid, before + [e]) && BlockingIs(blocking', w, before + [e], charter, sid, wave)
  {
    SeenNext(seen, sid, before, e);
    BlockingNext(blocking, w, before, e, charter, sid, wave);
    seen' := seen[e.subject := (if e.subject in seen then seen[e.subject] else []) + [e]];
    assert seen'[e.subject] == SiblingEvents(before + [e], e.subject);
    hide SiblingEvents, SiblingBlocks, SeenIs, BlockingIs, Agrees;
    var blocks;
    blocks, waves := TestSibling(w, seen'[e.subject], charter, wave, memo);
    blocking' := if blocks then blocking + {e.subject} else blocking - {e.subject};
  }

  /** The replay over the members' history: the last instant the set of blocking siblings emptied. */
  method Replay(w: World, ordered: seq<Event>, charter: string, sid: Subject, wave: nat) returns (settle: Option<int>)
    requires forall e | e in ordered :: e.subject.Spec?
    ensures settle == LastRelease(w, ordered, charter, sid, wave)
  {
    var wasBlocked, seen, blocking: set<Subject>, waves: Cache := false, map[], {}, map[];
    settle := None;
    NothingSeen(w, charter, sid, wave);
    hide SeenIs, BlockingIs, Blocked, Agrees;
    assert Agrees(waves, w, charter) by { NoWaves(w, charter); }
    for i := 0 to |ordered|
      invariant Agrees(waves, w, charter)
      invariant SeenIs(seen, sid, ordered[..i]) && BlockingIs(blocking, w, ordered[..i], charter, sid, wave)
      invariant wasBlocked == Blocked(w, ordered[..i], charter, sid, wave)
      invariant settle == LastRelease(w, ordered[..i], charter, sid, wave)
    {
      var e := ordered[i];
      assert ordered[..i + 1] == ordered[..i] + [e];
      ReleaseStep(w, ordered[..i], e, charter, sid, wave);
      hide LastRelease;
      if e.subject == sid {
        OwnEventChangesNothing(w, ordered[..i], e, charter, sid, wave);
        OwnKeeps(seen, blocking, w, ordered[..i], e, charter, sid, wave);
        continue;
      }
      seen, blocking, waves := Step(w, e, charter, sid, wave, seen, blocking, waves, ordered[..i]);
      BlockedIff(blocking, w, ordered[..i] + [e], charter, sid, wave);
      var nowBlocked := blocking != {};
      if wasBlocked && !nowBlocked {
        settle := Some(e.ts);
      }
      wasBlocked := nowBlocked;
    }
    assert ordered[..|ordered|] == ordered;
  }

  lemma NoWaves(w: World, charter: string)
    ensures Agrees(map[], w, charter)
  {}

  lemma NothingSeen(w: World, charter: string, sid: Subject, wave: nat)
    ensures SeenIs(map[], sid, []) && BlockingIs({}, w, [], charter, sid, wave) && !Blocked(w, [], charter, sid, wave)
  { forall s ensures !Blocks(w, [], s, charter, sid, wave) { NobodyBlocksYet(w, s, charter, sid, wave); } }

  lemma ReleaseStep(w: World, before: seq<Event>, e: Event, charter: string, sid: Subject, wave: nat)
    ensures LastRelease(w, before + [e], charter, sid, wave) ==
      if Blocked(w, before, charter, sid, wave) && !Blocked(w, before + [e], charter, sid, wave) then Some(e.ts)
      else LastRelease(w, before, charter, sid, wave)
  {
    hide Blocked;
    assert (before + [e])[..|before|] == before;
  }

  lemma BlockedIff(blocking: set<Subject>, w: World, evs: seq<Event>, charter: string, sid: Subject, wave: nat)
    requires BlockingIs(blocking, w, evs, charter, sid, wave)
    ensures Blocked(w, evs, charter, sid, wave) <==> blocking != {}
  { hide Blocks; }

  lemma OwnKeeps(seen: map<Subject, seq<Event>>, blocking: set<Subject>, w: World, before: seq<Event>, e: Event,
                 charter: string, sid: Subject, wave: nat)
    requires e.subject == sid && SeenIs(seen, sid, before) && BlockingIs(blocking, w, before, charter, sid, wave)
    ensures SeenIs(seen, sid, before + [e]) && BlockingIs(blocking, w, before + [e], charter, sid, wave)
  {
    OwnEventChangesNothing(w, before, e, charter, sid, wave);
    hide Blocks, SiblingEvents;
  }

  lemma OwnEventChangesNothing(w: World, before: seq<Event>, e: Event, charter: string, sid: Subject, wave: nat)
    requires e.subject == sid
    ensures forall s :: Blocks(w, before + [e], s, charter, sid, wave) <==> Blocks(w, before, s, charter, sid, wave)
    ensures forall s | s != sid :: SiblingEvents(before + [e], s) == SiblingEvents(before, s)
    ensures Blocked(w, before + [e], charter, sid, wave) == Blocked(w, before, charter, sid, wave)
    ensures LastRelease(w, before + [e], charter, sid, wave) == LastRelease(w, before, charter, sid, wave)
  {
    assert (before + [e])[..|before|] == before;
    forall s
      ensures Blocks(w, before + [e], s, charter, sid, wave) <==> Blocks(w, before, s, charter, sid, wave)
      ensures s != sid ==> SiblingEvents(before + [e], s) == SiblingEvents(before, s)
    {
      if s != sid { BlocksOthers(w, before, e, s, charter, sid, wave); SiblingEventsAppend(before, e, s); }
    }
    hide Blocks;
  }

  /** `_since`: the newest marker of the spec itself, or the instant the replay finds, whichever is later. */
  method SinceOf(w: World, events: seq<Event>, sid: Subject, evs: seq<Event>, charter: Option<string>, wave: Option<nat>)
    returns (since: Option<int>)
    ensures since ==
            if wave.None? || charter.None? then NewestMarker(evs)
            else Later(NewestMarker(evs), LastRelease(w, MemberHistory(events, charter.value), charter.value, sid, wave.value))
  {
    var marker := NewestMarker(evs);
    if wave.None? || charter.None? {
      return marker;
    }
    var members := CollectMembers(events, charter.value);
    var own := Kept(events, members);
    var ordered := Sort(own, Earlier);
    FilterIn(events, (e: Event) => e.subject in members);
    forall e | e in ordered ensures e.subject.Spec? { SortedElement(own, Earlier, e); }
    var settle := Replay(w, ordered, charter.value, sid, wave.value);
    hide LastRelease, Sort;
    if settle.None? {
      return marker;
    }
    since := if marker.Some? && settle.value <= marker.value then marker else settle;
  }

  // ---------------------------------------------------------------- the replay refines the simple form

  lemma LastIn<T>(xs: seq<T>, p: T -> bool)
    ensures Last(xs, p).Some? ==> Last(xs, p).value in xs && p(Last(xs, p).value)
  {}

  lemma FilterTwice<T>(xs: seq<T>, p: T -> bool, q: T -> bool)
    requires forall x | x in xs && q(x) :: p(x)
    ensures Filter(Filter(xs, p), q) == Filter(xs, q)
  {
    if xs != [] {
      var init, last := xs[..|xs| - 1], xs[|xs| - 1];
      FilterTwice(init, p, q);
      assert xs == init + [last];
      FilterAppend(init, last, p);
      FilterAppend(init, last, q);
      FilterAppend(Filter(init, p), last, q);
      hide Filter;
    }
  }

  /** Only a subject that ever named the charter can block; dropping the others changes nothing. */
  lemma MembersDecide(w: World, xs: seq<Event>, m: set<Subject>, s: Subject, charter: string, subject: Subject, wave: nat)
    requires forall e | e in xs && InCharter(e, charter) :: e.subject in m
    ensures Blocks(w, Kept(xs, m), s, charter, subject, wave) == Blocks(w, xs, s, charter, subject, wave)
  {
    var kept := Kept(xs, m);
    if s in m {
      FilterTwice(xs, (e: Event) => e.subject in m, (e: Event) => e.subject == s);
    } else {
      FilterIn(xs, (e: Event) => e.subject in m);
      FilterIn(xs, (e: Event) => e.subject == s);
      FilterNone(kept, (e: Event) => e.subject == s);
      LastIn(SiblingEvents(xs, s), (e: Event) => e.charter.Some?);
    }
  }

  lemma MembersBlocked(w: World, xs: seq<Event>, m: set<Subject>, charter: string, subject: Subject, wave: nat)
    requires forall e | e in xs && InCharter(e, charter) :: e.subject in m
    ensures Blocked(w, Kept(xs, m), charter, subject, wave) == Blocked(w, xs, charter, subject, wave)
  {
    forall s
      ensures Blocks(w, Kept(xs, m), s, charter, subject, wave) == Blocks(w, xs, s, charter, subject, wave)
    {
      MembersDecide(w, xs, m, s, charter, subject, wave);
    }
    hide Blocks;
  }

  lemma {:induction false} MembersRelease(w: World, xs: seq<Event>, m: set<Subject>, charter: string, subject: Subject, wave: nat)
    requires forall e | e in xs && InCharter(e, charter) :: e.subject in m
    ensures LastRelease(w, Kept(xs, m), charter, subject, wave) == LastRelease(w, xs, charter, subject, wave)
  {
    if xs != [] {
      var init, last := xs[..|xs| - 1], xs[|xs| - 1];
      assert xs == init + [last];
      MembersRelease(w, init, m, charter, subject, wave);
      MembersBlocked(w, xs, m, charter, subject, wave);
      MembersBlocked(w, init, m, charter, subject, wave);
      FilterAppend(init, last, (e: Event) => e.subject in m);
      var kept := Kept(init, m);
      assert (kept + [last])[..|kept|] == kept;
      hide Blocked;
    }
  }

  lemma EarlierWeak()
    ensures WeakOrder(Earlier)
  {}

  /**
   The incremental replay of the members' events gives the instant that re-scanning every prefix of the whole
   ledger gives.
   */
  lemma ReplayRefinesScan(w: World, events: seq<Event>, charter: string, subject: Subject, wave: nat)
    ensures LastRelease(w, MemberHistory(events, charter), charter, subject, wave) ==
            LastRelease(w, History(events), charter, subject, wave)
  {
    var m := Members(events, charter);
    EarlierWeak();
    FilterSort(events, Earlier, (e: Event) => e.subject in m);
    forall e | e in History(events) && InCharter(e, charter) ensures e.subject in m { SortedElement(events, Earlier, e); }
    hide LastRelease, Sort;
    MembersRelease(w, History(events), m, charter, subject, wave);
  }

  // ---------------------------------------------------------------- the spec's own exemptions

  ghost predicate InTime(xs: seq<Event>) { forall i, j | 0 <= i < j < |xs| :: xs[i].ts <= xs[j].ts }

  ghost predicate Unbuilt(xs: seq<Event>, subject: Subject) { !Built(xs, subject) }

  /** What the last event of a history can change: the sibling scan, or the waiver, never both. */
  lemma OneStep(w: World, before: seq<Event>, e: Event, charter: string, subject: Subject, wave: nat)
    ensures e.subject == subject ==> Blocked(w, before + [e], charter, subject, wave) == Blocked(w, before, charter, subject, wave)
    ensures !Waives(e, subject) ==> Waived(before + [e], subject) == Waived(before, subject)
  {
    assert (before + [e])[..|before|] == before;
    if e.subject == subject { OwnEventChangesNothing(w, before, e, charter, subject, wave); }
  }

  ghost predicate WaivedBy(xs: seq<Event>, subject: Subject, f: int) {
    exists d | d in xs :: Waives(d, subject) && f <= d.ts
  }

  lemma WaivedByPrefix(before: seq<Event>, e: Event, subject: Subject, f: int)
    requires WaivedBy(before, subject, f)
    ensures WaivedBy(before + [e], subject, f)
  {
    var d :| d in before && Waives(d, subject) && f <= d.ts;
    assert d in before + [e];
  }

  lemma UnheldIsEvent(w: World, xs: seq<Event>, charter: string, subject: Subject, wave: nat)
    requires LastUnheld(w, xs, charter, subject, wave).Some?
    ensures exists e | e in xs :: e.ts == LastUnheld(w, xs, charter, subject, wave).value
  {
    var before, e := xs[..|xs| - 1], xs[|xs| - 1];
    assert xs == before + [e];
    if !(Held(w, before, charter, subject, Some(wave)) && !Held(w, xs, charter, subject, Some(wave))) {
      UnheldIsEvent(w, before, charter, subject, wave);
    }
    hide Held;
  }

  /** While a waiver stands, the last instant `wave_blocker` let go is no later than some waiver. */
  lemma {:induction false} WaivedUnheld(w: World, xs: seq<Event>, charter: string, subject: Subject, wave: nat)
    requires InTime(xs) && Waived(xs, subject)
    ensures var f := LastUnheld(w, xs, charter, subject, wave); f.Some? ==> WaivedBy(xs, subject, f.value)
  {
    var before, e := xs[..|xs| - 1], xs[|xs| - 1];
    assert xs == before + [e];
    if LastUnheld(w, xs, charter, subject, wave).Some? {
      if Waives(e, subject) {
        UnheldIsEvent(w, xs, charter, subject, wave);
        assert e in xs;
      } else {
        OneStep(w, before, e, charter, subject, wave);
        WaivedUnheld(w, before, charter, subject, wave);
        WaivedByPrefix(before, e, subject, LastUnheld(w, before, charter, subject, wave).value);
      }
    }
    hide Blocked;
  }

  lemma BuiltStays(before: seq<Event>, e: Event, subject: Subject)
    requires Built(before, subject)
    ensures Built(before + [e], subject)
  {
    var x :| x in before && x.subject == subject && (x.kind.BuildDone? || x.kind.Shipped?);
    assert x in before + [e];
  }

  lemma BuiltPrefix(before: seq<Event>, e: Event, subject: Subject)
    requires Unbuilt(before + [e], subject)
    ensures Unbuilt(before, subject)
  {
    if Built(before, subject) { BuiltStays(before, e, subject); }
  }

  lemma ReleaseIsEvent(w: World, xs: seq<Event>, charter: string, subject: Subject, wave: nat)
    requires LastRelease(w, xs, charter, subject, wave).Some?
    ensures exists e | e in xs :: e.ts == LastRelease(w, xs, charter, subject, wave).value
  {
    var before, e := xs[..|xs| - 1], xs[|xs| - 1];
    assert xs == before + [e];
    if !(Blocked(w, before, charter, subject, wave) && !Blocked(w, xs, charter, subject, wave)) {
      ReleaseIsEvent(w, before, charter, subject, wave);
    }
    hide Blocked;
  }

  /** `wave_blocker` lets go at a waiver, or no later than the sibling scan last did. */
  lemma {:induction false} UnheldBound(w: World, xs: seq<Event>, charter: string, subject: Subject, wave: nat)
    requires InTime(xs) && Unbuilt(xs, subject)
    ensures var f, r := LastUnheld(w, xs, charter, subject, wave), LastRelease(w, xs, charter, subject, wave);
            f.Some? ==> WaivedBy(xs, subject, f.value) || (r.Some? && f.value <= r.value)
  {
    hide Blocked, Waives;
    if xs != [] {
      var before, e := xs[..|xs| - 1], xs[|xs| - 1];
      assert xs == before + [e];
      OneStep(w, before, e, charter, subject, wave);
      BuiltPrefix(before, e, subject);
      UnheldBound(w, before, charter, subject, wave);
      var f0 := LastUnheld(w, before, charter, subject, wave);
      if f0.Some? {
        if WaivedBy(before, subject, f0.value) { WaivedByPrefix(before, e, subject, f0.value); }
        UnheldIsEvent(w, before, charter, subject, wave);
      }
      assert e in xs;
      hide Waived;
    }
  }

  /** No waiver since: `wave_blocker` lets go with the sibling scan. */
  lemma {:induction false} UnwaivedUnheld(w: World, xs: seq<Event>, charter: string, subject: Subject, wave: nat, r: int)
    requires InTime(xs) && Unbuilt(xs, subject) && !Waived(xs, subject)
    requires LastRelease(w, xs, charter, subject, wave) == Some(r)
    requires forall e | e in xs && Waives(e, subject) :: e.ts < r
    ensures LastUnheld(w, xs, charter, subject, wave) == Some(r)
  {
    hide Blocked, Waives;
    var before, e := xs[..|xs| - 1], xs[|xs| - 1];
    assert xs == before + [e];
    OneStep(w, before, e, charter, subject, wave);
    BuiltPrefix(before, e, subject);
    assert e in xs;
    if !(Blocked(w, before, charter, subject, wave) && !Blocked(w, xs, charter, subject, wave)) {
      ReleaseIsEvent(w, before, charter, subject, wave);
      UnwaivedUnheld(w, before, charter, subject, wave, r);
    }
    hide Waived;
  }

  lemma NewestIs(evs: seq<Event>, p: Event -> bool)
    ensures forall e | e in evs && p(e) :: Newest(evs, p).Some? && e.ts <= Newest(evs, p).value
    ensures Newest(evs, p).Some? ==> exists e | e in evs :: p(e) && e.ts == Newest(evs, p).value
  {
    if evs != [] {
      assert evs == evs[..|evs| - 1] + [evs[|evs| - 1]];
      NewestIs(evs[..|evs| - 1], p);
    }
  }

  predicate StartsOver(e: Event) { e.kind == SpecWritten || e.kind == Decision || e.kind == Unblocked }

  /** A spec's own marker is its newest writing, decision or unblocking. */
  lemma MarkerIs(evs: seq<Event>)
    ensures NewestMarker(evs).None? <==> forall e | e in evs :: !StartsOver(e)
    ensures forall t :: NewestMarker(evs) == Some(t) <==>
              (exists e | e in evs :: StartsOver(e) && e.ts == t) && forall e | e in evs && StartsOver(e) :: e.ts <= t
  {
    NewestIs(evs, IsMarker);
    assert forall e :: StartsOver(e) <==> IsMarker(e);
  }

  lemma HistoryInTime(events: seq<Event>)
    ensures InTime(History(events))
    ensures forall e :: e in History(events) <==> e in events
  {
    EarlierWeak();
    SortInOrder(events, Earlier);
    SortIn(events, Earlier);
  }

  /** A waiver is one of the spec's own decisions, so the newest marker is no older. */
  lemma WaiverIsMarker(events: seq<Event>, subject: Subject)
    ensures forall d | d in events && Waives(d, subject) ::
              NewestMarker(SiblingEvents(events, subject)).Some? && d.ts <= NewestMarker(SiblingEvents(events, subject)).value
  {
    var own := SiblingEvents(events, subject);
    FilterIn(events, (e: Event) => e.subject == subject);
    NewestIs(own, IsMarker);
  }
}
