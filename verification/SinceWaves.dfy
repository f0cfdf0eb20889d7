/** Wave order in terms of the waves alone (`wave_blocker`, src/dispatch.py). */
module SinceWaves {
  import opened Seqs
  import opened Since

  // ---------------------------------------------------------------- what the ledger says of a spec

  predicate Writes(e: Event, s: Subject) { e.subject == s && e.kind == SpecWritten && |e.footprint| > 0 }

  /** The event at `i` is the newest of the spec's to name a charter. */
  ghost predicate CharterAt(evs: seq<Event>, s: Subject, charter: string, i: nat) {
    && i < |evs| && evs[i].subject == s && evs[i].charter == Some(charter)
    && forall j | i < j < |evs| && evs[j].subject == s :: evs[j].charter.None?
  }

  /** The event at `i` is the newest to write it with a footprint, of that wave in the charter's plan. */
  ghost predicate WaveAt(w: World, evs: seq<Event>, s: Subject, charter: string, wave: nat, i: nat) {
    && i < |evs| && Writes(evs[i], s)
    && WaveOf(w.plan(charter), set p | p in evs[i].footprint) == Some(wave)
    && forall j | i < j < |evs| :: !Writes(evs[j], s)
  }

  ghost predicate OfCharter(evs: seq<Event>, s: Subject, charter: string) { exists i: nat :: CharterAt(evs, s, charter, i) }

  ghost predicate OfWave(w: World, evs: seq<Event>, s: Subject, charter: string, wave: nat) {
    exists i: nat :: WaveAt(w, evs, s, charter, wave, i)
  }

  /** A spec of the charter, unsettled, of the given wave. */
  ghost predicate Pending(w: World, evs: seq<Event>, s: Subject, charter: string, wave: nat) {
    s.Spec? && OfCharter(evs, s, charter) && OfWave(w, evs, s, charter, wave) && !w.settled(SiblingEvents(evs, s))
  }

  lemma CharterPush(own: seq<Event>, e: Event)
    ensures Charter(own + [e]) == if e.charter.Some? then e.charter else Charter(own)
  { assert (own + [e])[..|own|] == own; }

  lemma WrittenPush(own: seq<Event>, e: Event)
    ensures Written(own + [e]) == if e.kind.SpecWritten? && e.footprint != [] then Some(e) else Written(own)
  { assert (own + [e])[..|own|] == own; }

  lemma CharterAtPush(before: seq<Event>, e: Event, s: Subject, charter: string, i: nat)
    ensures CharterAt(before + [e], s, charter, i) <==>
      if e.subject == s && e.charter.Some? then i == |before| && e.charter == Some(charter) else CharterAt(before, s, charter, i)
  {
    var now := before + [e];
    assert now[|before|] == e && forall j | 0 <= j < |before| :: now[j] == before[j];
  }

  lemma WaveAtPush(w: World, before: seq<Event>, e: Event, s: Subject, charter: string, wave: nat, i: nat)
    ensures WaveAt(w, before + [e], s, charter, wave, i) <==>
      if Writes(e, s) then i == |before| && WaveOf(w.plan(charter), set p | p in e.footprint) == Some(wave)
      else WaveAt(w, before, s, charter, wave, i)
  {
    var now := before + [e];
    hide Writes, WaveOf;
    assert now[|before|] == e && forall j | 0 <= j < |before| :: now[j] == before[j];
  }

  lemma {:induction false} CharterIs(evs: seq<Event>, s: Subject, charter: string)
    ensures Charter(SiblingEvents(evs, s)) == Some(charter) <==> exists i: nat :: CharterAt(evs, s, charter, i)
  {
    if evs != [] {
      var before, e := evs[..|evs| - 1], evs[|evs| - 1];
      CharterIs(before, s, charter);
      assert evs == before + [e];
      SiblingEventsAppend(before, e, s);
      CharterPush(SiblingEvents(before, s), e);
      hide Charter, SiblingEvents, CharterAt;
      forall i: nat ensures CharterAt(evs, s, charter, i) <==>
        if e.subject == s && e.charter.Some? then i == |before| && e.charter == Some(charter) else CharterAt(before, s, charter, i)
      { CharterAtPush(before, e, s, charter, i); }
      assert CharterAt(evs, s, charter, |before|) || !CharterAt(evs, s, charter, |before|);
    }
  }

  lemma {:induction false} WaveIs(w: World, evs: seq<Event>, s: Subject, charter: string, wave: nat)
    ensures var l := Written(SiblingEvents(evs, s));
      (l.Some? && WaveOf(w.plan(charter), Paths(l.value.footprint)) == Some(wave)) <==> exists i: nat :: WaveAt(w, evs, s, charter, wave, i)
  {
    if evs != [] {
      var before, e := evs[..|evs| - 1], evs[|evs| - 1];
      WaveIs(w, before, s, charter, wave);
      assert evs == before + [e];
      SiblingEventsAppend(before, e, s);
      WrittenPush(SiblingEvents(before, s), e);
      hide Written, SiblingEvents, WaveAt, WaveOf;
      forall i: nat ensures WaveAt(w, evs, s, charter, wave, i) <==>
        if Writes(e, s) then i == |before| && WaveOf(w.plan(charter), set p | p in e.footprint) == Some(wave)
        else WaveAt(w, before, s, charter, wave, i)
      { WaveAtPush(w, before, e, s, charter, wave, i); }
      assert WaveAt(w, evs, s, charter, wave, |before|) || !WaveAt(w, evs, s, charter, wave, |before|);
    }
  }

  /** One sibling holds a spec of `wave` exactly when it is pending in the charter with a smaller wave. */
  lemma BlocksExactly(w: World, evs: seq<Event>, s: Subject, charter: string, subject: Subject, wave: nat)
    ensures Blocks(w, evs, s, charter, subject, wave) <==>
      s != subject && exists n: nat | n < wave :: Pending(w, evs, s, charter, n)
  {
    var l := Written(SiblingEvents(evs, s));
    CharterIs(evs, s, charter);
    forall n: nat ensures l.Some? && WaveOf(w.plan(charter), Paths(l.value.footprint)) == Some(n) <==> OfWave(w, evs, s, charter, n) {
      WaveIs(w, evs, s, charter, n);
    }
    hide Charter, Written, WaveOf, SiblingEvents, CharterAt, OfWave;
    if Blocks(w, evs, s, charter, subject, wave) {
      assert Pending(w, evs, s, charter, WaveOf(w.plan(charter), Paths(l.value.footprint)).value);
    }
  }

  lemma WaveUnique(w: World, evs: seq<Event>, s: Subject, charter: string, m: nat, n: nat)
    requires OfWave(w, evs, s, charter, m) && OfWave(w, evs, s, charter, n)
    ensures m == n
  {
    hide WaveOf;
    var i: nat :| WaveAt(w, evs, s, charter, m, i);
    var j: nat :| WaveAt(w, evs, s, charter, n, j);
  }

  // ---------------------------------------------------------------- the laws of wave order

  /** No build of its own, and its newest waiver, the first of them at one instant, is not a yes. */
  ghost predicate Bound(evs: seq<Event>, s: Subject) {
    && (forall e | e in evs && e.subject == s :: !e.kind.BuildDone? && !e.kind.Shipped?)
    && !exists i | 0 <= i < |evs| :: NewestWaive(evs, s, i) && evs[i].waive == Some(true)
  }

  ghost predicate NewestWaive(evs: seq<Event>, s: Subject, i: nat)
    requires i < |evs|
  {
    && evs[i].subject == s && evs[i].kind.Decision? && evs[i].waive.Some?
    && forall j | 0 <= j < |evs| && evs[j].subject == s && evs[j].kind.Decision? && evs[j].waive.Some? ::
         evs[j].ts < evs[i].ts || (evs[j].ts == evs[i].ts && i <= j)
  }

  lemma {:induction false} WaiverAt(evs: seq<Event>, s: Subject) returns (i: nat)
    requires NewestWaiver(evs, s).Some?
    ensures i < |evs| && NewestWaive(evs, s, i) && evs[i] == NewestWaiver(evs, s).value
  {
    var before, e := evs[..|evs| - 1], evs[|evs| - 1];
    var n := NewestWaiver(before, s);
    assert evs == before + [e];
    if n.Some? {
      i := WaiverAt(before, s);
      assert forall j | 0 <= j < |before| :: evs[j] == before[j];
      if Waives(e, s) && n.value.ts < e.ts { i := |before|; }
    } else {
      NoWaiver(before, s);
      i := |before|;
      assert forall j | 0 <= j < |before| :: evs[j] in before;
    }
  }

  lemma {:induction false} NoWaiver(evs: seq<Event>, s: Subject)
    ensures NewestWaiver(evs, s).None? <==> forall e | e in evs :: !Waives(e, s)
  {
    if evs != [] {
      NoWaiver(evs[..|evs| - 1], s);
      assert evs == evs[..|evs| - 1] + [evs[|evs| - 1]];
    }
  }

  lemma WaivedExactly(evs: seq<Event>, s: Subject)
    ensures Waived(evs, s) <==> exists i | 0 <= i < |evs| :: NewestWaive(evs, s, i) && evs[i].waive == Some(true)
  {
    NoWaiver(evs, s);
    if NewestWaiver(evs, s).Some? { var i := WaiverAt(evs, s); }
    else { assert forall i | 0 <= i < |evs| :: evs[i] in evs; }
  }

  /** A spec of a given wave is held exactly when it is bound and some other spec of the charter of a smaller wave is
      pending. */
  lemma HeldExactly(w: World, evs: seq<Event>, charter: string, subject: Subject, wave: nat)
    ensures Held(w, evs, charter, subject, Some(wave)) <==>
      Bound(evs, subject) && exists s, n: nat | s != subject && n < wave :: Pending(w, evs, s, charter, n)
  {
    WaivedExactly(evs, subject);
    BlockedExactly(w, evs, charter, subject, wave);
    hide Blocked, Pending, Waived, NewestWaive;
  }

  lemma BlockedExactly(w: World, evs: seq<Event>, charter: string, subject: Subject, wave: nat)
    ensures Blocked(w, evs, charter, subject, wave) <==>
      exists s, n: nat | s != subject && n < wave :: Pending(w, evs, s, charter, n)
  {
    hide Blocks, Pending;
    if Blocked(w, evs, charter, subject, wave) {
      var s :| Blocks(w, evs, s, charter, subject, wave);
      BlocksExactly(w, evs, s, charter, subject, wave);
    }
    if s, n: nat :| s != subject && n < wave && Pending(w, evs, s, charter, n) {
      BlocksExactly(w, evs, s, charter, subject, wave);
    }
  }

  /** With each its own wave, no two specs of a charter hold each other. */
  lemma NoMutualHold(w: World, evs: seq<Event>, charter: string, a: Subject, b: Subject, m: nat, n: nat)
    requires OfWave(w, evs, a, charter, m) && OfWave(w, evs, b, charter, n)
    ensures !(Blocks(w, evs, a, charter, b, n) && Blocks(w, evs, b, charter, a, m))
  {
    BlocksExactly(w, evs, a, charter, b, n);
    BlocksExactly(w, evs, b, charter, a, m);
    hide Blocks, OfWave;
    if k: nat, l: nat :| Pending(w, evs, a, charter, k) && k < n && Pending(w, evs, b, charter, l) && l < m {
      WaveUnique(w, evs, a, charter, m, k);
      WaveUnique(w, evs, b, charter, n, l);
    }
  }

  /** Each spec of the chain is held by the one before it, at its own wave. */
  ghost predicate Chain(w: World, evs: seq<Event>, charter: string, specs: seq<Subject>, waves: seq<nat>) {
    && |waves| == |specs|
    && (forall i | 0 <= i < |specs| :: OfWave(w, evs, specs[i], charter, waves[i]))
    && (forall i | 0 < i < |specs| :: Blocks(w, evs, specs[i - 1], charter, specs[i], waves[i]))
  }

  lemma ChainStep(w: World, evs: seq<Event>, charter: string, specs: seq<Subject>, waves: seq<nat>, i: nat)
    requires Chain(w, evs, charter, specs, waves) && 0 < i < |specs|
    ensures waves[i - 1] < waves[i]
  {
    BlocksExactly(w, evs, specs[i - 1], charter, specs[i], waves[i]);
    hide Blocks, OfWave;
    var k: nat :| k < waves[i] && Pending(w, evs, specs[i - 1], charter, k);
    WaveUnique(w, evs, specs[i - 1], charter, waves[i - 1], k);
  }

  /** No chain of holds closes. */
  lemma {:induction false} NoCycle(w: World, evs: seq<Event>, charter: string, specs: seq<Subject>, waves: seq<nat>)
    requires Chain(w, evs, charter, specs, waves) && |specs| > 1
    ensures waves[0] < waves[|waves| - 1] && specs[0] != specs[|specs| - 1]
  {
    var n := |specs| - 1;
    hide Blocks, OfWave;
    ChainStep(w, evs, charter, specs, waves, n);
    if n > 1 { NoCycle(w, evs, charter, specs[..n], waves[..n]); }
    if specs[0] == specs[n] { WaveUnique(w, evs, specs[0], charter, waves[0], waves[n]); }
  }
}
