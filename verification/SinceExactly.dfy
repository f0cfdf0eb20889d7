/** Exactly when `_since` (src/autodispatch.py) gives what re-running `wave_blocker` on every prefix would. */
module SinceExactly {
  import opened Seqs
  import opened Since
  import opened SinceReplay
  import opened Overlap

  // ---------------------------------------------------------------- when the sibling scan lets go

  /** At the `k`-th event the sibling scan lets go. */
  ghost predicate LetsGo(w: World, h: seq<Event>, charter: string, subject: Subject, wave: nat, k: nat)
    requires k < |h|
  { Blocked(w, h[..k], charter, subject, wave) && !Blocked(w, h[..k + 1], charter, subject, wave) }

  predicate After(marker: Option<int>, t: int) { marker.None? || marker.value < t }

  /** It lets go at some event after the marker. */
  ghost predicate LetsGoAfter(w: World, h: seq<Event>, charter: string, subject: Subject, wave: nat, marker: Option<int>) {
    exists k | 0 <= k < |h| :: LetsGo(w, h, charter, subject, wave, k) && After(marker, h[k].ts)
  }

  lemma LetsGoPrefix(w: World, h: seq<Event>, n: nat, charter: string, subject: Subject, wave: nat, k: nat)
    requires k < n <= |h|
    ensures LetsGo(w, h[..n], charter, subject, wave, k) == LetsGo(w, h, charter, subject, wave, k) && h[..n][k] == h[k]
  { assert h[..n][..k] == h[..k] && h[..n][..k + 1] == h[..k + 1]; }

  lemma LetsGoInit(w: World, h: seq<Event>, charter: string, subject: Subject, wave: nat, marker: Option<int>)
    requires h != []
    ensures LetsGoAfter(w, h, charter, subject, wave, marker) <==>
      LetsGoAfter(w, h[..|h| - 1], charter, subject, wave, marker)
      || (LetsGo(w, h, charter, subject, wave, |h| - 1) && After(marker, h[|h| - 1].ts))
  {
    hide LetsGo, After;
    var n := |h| - 1;
    forall k | 0 <= k < n ensures LetsGo(w, h[..n], charter, subject, wave, k) == LetsGo(w, h, charter, subject, wave, k) && h[..n][k] == h[k] {
      LetsGoPrefix(w, h, n, charter, subject, wave, k);
    }
    if LetsGoAfter(w, h[..n], charter, subject, wave, marker) {
      var k :| 0 <= k < n && LetsGo(w, h[..n], charter, subject, wave, k) && After(marker, h[..n][k].ts);
      assert LetsGo(w, h, charter, subject, wave, k) && After(marker, h[k].ts);
    }
    if LetsGoAfter(w, h, charter, subject, wave, marker) {
      var k :| 0 <= k < |h| && LetsGo(w, h, charter, subject, wave, k) && After(marker, h[k].ts);
      if k < n { assert LetsGo(w, h[..n], charter, subject, wave, k) && After(marker, h[..n][k].ts); }
    }
  }

  lemma ReleaseInTime(w: World, h: seq<Event>, charter: string, subject: Subject, wave: nat)
    requires InTime(h) && h != []
    ensures var r := LastRelease(w, h[..|h| - 1], charter, subject, wave); r.Some? ==> r.value <= h[|h| - 1].ts
  {
    var before := h[..|h| - 1];
    if LastRelease(w, before, charter, subject, wave).Some? {
      ReleaseIsEvent(w, before, charter, subject, wave);
      hide LastRelease;
      var e :| e in before && e.ts == LastRelease(w, before, charter, subject, wave).value;
      var i :| 0 <= i < |before| && before[i] == e;
      assert h[i] == e;
    }
  }

  /** The last letting go is after the marker exactly when any is. */
  lemma {:induction false} LastReleaseIs(w: World, h: seq<Event>, charter: string, subject: Subject, wave: nat, marker: Option<int>)
    requires InTime(h)
    ensures var r := LastRelease(w, h, charter, subject, wave);
      LetsGoAfter(w, h, charter, subject, wave, marker) <==> r.Some? && After(marker, r.value)
  {
    if h != [] {
      var n := |h| - 1;
      LastReleaseIs(w, h[..n], charter, subject, wave, marker);
      LetsGoInit(w, h, charter, subject, wave, marker);
      ReleaseInTime(w, h, charter, subject, wave);
      assert h[..n + 1] == h;
      hide Blocked, LetsGoAfter;
    }
  }

  lemma NewestWaiverIn(xs: seq<Event>, subject: Subject)
    ensures var n := NewestWaiver(xs, subject); n.Some? ==> n.value in xs && Waives(n.value, subject)
  {
    if xs != [] {
      assert xs == xs[..|xs| - 1] + [xs[|xs| - 1]];
      NewestWaiverIn(xs[..|xs| - 1], subject);
    }
  }

  // ---------------------------------------------------------------- what re-running says, in terms of the scan

  /** The marker is no older than any waiver. */
  ghost predicate Past(xs: seq<Event>, subject: Subject, marker: Option<int>) {
    forall d | d in xs && Waives(d, subject) :: marker.Some? && d.ts <= marker.value
  }

  /** While a waiver stands, re-running dates the spec from its newest marker. */
  lemma WaivedLater(w: World, xs: seq<Event>, charter: string, subject: Subject, wave: nat, marker: Option<int>)
    requires InTime(xs) && Waived(xs, subject) && Past(xs, subject, marker)
    ensures Later(marker, LastUnheld(w, xs, charter, subject, wave)) == marker
  {
    hide LastUnheld, InTime;
    WaivedUnheld(w, xs, charter, subject, wave);
    NewestWaiverIn(xs, subject);
  }

  /** With none, and before any build, from the scan's last letting go if that is later. */
  lemma UnbuiltLater(w: World, xs: seq<Event>, charter: string, subject: Subject, wave: nat, marker: Option<int>)
    requires InTime(xs) && Unbuilt(xs, subject) && !Waived(xs, subject) && Past(xs, subject, marker)
    ensures Later(marker, LastUnheld(w, xs, charter, subject, wave)) == Later(marker, LastRelease(w, xs, charter, subject, wave))
  {
    hide LastUnheld, LastRelease, InTime, Unbuilt, Waived;
    var r := LastRelease(w, xs, charter, subject, wave);
    if r.Some? && After(marker, r.value) { UnwaivedUnheld(w, xs, charter, subject, wave, r.value); }
    else { UnheldBound(w, xs, charter, subject, wave); }
  }

  /** The place of the spec's first build; the length of the history if there is none. */
  function FirstBuild(h: seq<Event>, subject: Subject): (n: nat)
    ensures n <= |h| && (n < |h| <==> Built(h, subject))
    ensures Unbuilt(h[..n], subject) && (n < |h| ==> Built(h[..n + 1], subject))
  {
    if !Built(h, subject) then assert h[..|h|] == h; |h|
    else if Built(h[..|h| - 1], subject) then
      var n := FirstBuild(h[..|h| - 1], subject);
      assert h[..|h| - 1][..n] == h[..n] && h[..|h| - 1][..n + 1] == h[..n + 1];
      n
    else assert h[..|h| - 1 + 1] == h; |h| - 1
  }

  /** Nothing is held once the spec is built. */
  lemma {:induction false} BuiltUnheld(w: World, h: seq<Event>, n: nat, charter: string, subject: Subject, wave: nat)
    requires n < |h| && Built(h[..n + 1], subject)
    ensures Built(h, subject) && LastUnheld(w, h, charter, subject, wave) == LastUnheld(w, h[..n + 1], charter, subject, wave)
  {
    hide Blocked, Built, Waived;
    if n + 1 == |h| { assert h[..n + 1] == h; }
    else {
      var before := h[..|h| - 1];
      assert before[..n + 1] == h[..n + 1] && before + [h[|h| - 1]] == h;
      BuiltUnheld(w, before, n, charter, subject, wave);
      BuiltStays(before, h[|h| - 1], subject);
    }
  }

  /** The scan's last letting go up to the build, the build itself being one if the scan still blocks. */
  ghost function UpToBuild(w: World, h: seq<Event>, n: nat, charter: string, subject: Subject, wave: nat): Option<int>
    requires n < |h|
  { if Blocked(w, h[..n], charter, subject, wave) then Some(h[n].ts) else LastRelease(w, h[..n], charter, subject, wave) }

  lemma UnheldAtBuild(w: World, h: seq<Event>, charter: string, subject: Subject, wave: nat)
    requires Built(h, subject)
    ensures var n := FirstBuild(h, subject);
      LastUnheld(w, h, charter, subject, wave) ==
      if Held(w, h[..n], charter, subject, Some(wave)) then Some(h[n].ts) else LastUnheld(w, h[..n], charter, subject, wave)
  {
    var n := FirstBuild(h, subject);
    BuiltUnheld(w, h, n, charter, subject, wave);
    assert h[..n + 1][..n] == h[..n] && h[..n + 1][n] == h[n];
    hide Blocked, Built, Waived;
  }

  /** A waiver is given or taken away only by a decision. */
  lemma {:induction false} WaiverChanges(h: seq<Event>, n: nat, subject: Subject) returns (j: nat)
    requires n <= |h| && Waived(h[..n], subject) != Waived(h, subject)
    ensures n <= j < |h| && Waives(h[j], subject)
  {
    hide Waives;
    assert h[..|h|] == h;
    if n < |h| {
      if Waives(h[|h| - 1], subject) { j := |h| - 1; }
      else {
        assert h[..|h| - 1][..n] == h[..n];
        j := WaiverChanges(h[..|h| - 1], n, subject);
      }
    }
  }

  lemma EventsBefore(w: World, h: seq<Event>, n: nat, charter: string, subject: Subject, wave: nat)
    requires InTime(h) && n < |h|
    ensures var f := LastUnheld(w, h[..n], charter, subject, wave); f.Some? ==> f.value <= h[n].ts
    ensures var r := LastRelease(w, h[..n], charter, subject, wave); r.Some? ==> r.value <= h[n].ts
  {
    hide LastUnheld, LastRelease;
    var x := h[..n];
    if LastUnheld(w, x, charter, subject, wave).Some? {
      UnheldIsEvent(w, x, charter, subject, wave);
      var e :| e in x && e.ts == LastUnheld(w, x, charter, subject, wave).value;
      var i :| 0 <= i < n && h[i] == e;
    }
    if LastRelease(w, x, charter, subject, wave).Some? {
      ReleaseIsEvent(w, x, charter, subject, wave);
      var e :| e in x && e.ts == LastRelease(w, x, charter, subject, wave).value;
      var i :| 0 <= i < n && h[i] == e;
    }
  }

  lemma InTimePrefix(h: seq<Event>, n: nat, subject: Subject, marker: Option<int>)
    requires n <= |h| && InTime(h) && Past(h, subject, marker)
    ensures InTime(h[..n]) && Past(h[..n], subject, marker)
  { hide Waives; }

  lemma PastAt(h: seq<Event>, j: nat, subject: Subject, marker: Option<int>)
    requires Past(h, subject, marker) && j < |h| && Waives(h[j], subject)
    ensures marker.Some? && h[j].ts <= marker.value
  { assert h[j] in h; }

  /** Of a built spec with no waiver standing re-running says what the scan does up to the build. */
  lemma BuiltLater(w: World, h: seq<Event>, charter: string, subject: Subject, wave: nat, marker: Option<int>)
    requires InTime(h) && Built(h, subject) && !Waived(h, subject) && Past(h, subject, marker)
    ensures Later(marker, LastUnheld(w, h, charter, subject, wave)) ==
      Later(marker, UpToBuild(w, h, FirstBuild(h, subject), charter, subject, wave))
  {
    hide LastUnheld, LastRelease, FirstBuild, Blocked, Waived, Built, Past;
    var n := FirstBuild(h, subject);
    UnheldAtBuild(w, h, charter, subject, wave);
    EventsBefore(w, h, n, charter, subject, wave);
    InTimePrefix(h, n, subject, marker);
    if Waived(h[..n], subject) {
      var j := WaiverChanges(h, n, subject);
      PastAt(h, j, subject, marker);
    } else if !Blocked(w, h[..n], charter, subject, wave) {
      UnbuiltLater(w, h[..n], charter, subject, wave, marker);
    }
  }

  // ---------------------------------------------------------------- exactly when the two agree

  /** From the build on it lets go at an event after the marker, later than it ever did before the build. */
  ghost predicate LetsGoSince(w: World, h: seq<Event>, n: nat, charter: string, subject: Subject, wave: nat, marker: Option<int>)
    requires n <= |h|
  {
    exists k | n <= k < |h| ::
      LetsGo(w, h, charter, subject, wave, k) && After(marker, h[k].ts)
      && forall j | 0 <= j < n && LetsGo(w, h, charter, subject, wave, j) :: h[j].ts < h[k].ts
  }

  /** The replay dates the spec otherwise than re-running `wave_blocker` on every prefix would. */
  ghost predicate Misdated(w: World, h: seq<Event>, charter: string, subject: Subject, wave: nat, marker: Option<int>) {
    var n := FirstBuild(h, subject);
    if Waived(h, subject) then LetsGoAfter(w, h, charter, subject, wave, marker)
    else if n == |h| then false
    else if Blocked(w, h[..n], charter, subject, wave) && After(marker, h[n].ts) then
      !LetsGoAfter(w, h, charter, subject, wave, Some(h[n].ts - 1)) || LetsGoAfter(w, h, charter, subject, wave, Some(h[n].ts))
    else LetsGoSince(w, h, n, charter, subject, wave, marker)
  }

  lemma LetsGoUpTo(w: World, h: seq<Event>, n: nat, charter: string, subject: Subject, wave: nat, t: int)
    requires n <= |h|
    ensures LetsGoAfter(w, h[..n], charter, subject, wave, Some(t)) <==>
      exists j | 0 <= j < n :: LetsGo(w, h, charter, subject, wave, j) && h[j].ts > t
  {
    hide LetsGo;
    forall k | 0 <= k < n ensures LetsGo(w, h[..n], charter, subject, wave, k) == LetsGo(w, h, charter, subject, wave, k) && h[..n][k] == h[k] {
      LetsGoPrefix(w, h, n, charter, subject, wave, k);
    }
    if j :| 0 <= j < n && LetsGo(w, h, charter, subject, wave, j) && h[j].ts > t {
      assert LetsGo(w, h[..n], charter, subject, wave, j) && After(Some(t), h[..n][j].ts);
    }
    if LetsGoAfter(w, h[..n], charter, subject, wave, Some(t)) {
      var k :| 0 <= k < n && LetsGo(w, h[..n], charter, subject, wave, k) && After(Some(t), h[..n][k].ts);
      assert LetsGo(w, h, charter, subject, wave, k) && h[k].ts > t;
    }
  }

  /** The last letting go before the build, against an instant. */
  lemma ReleasedBefore(w: World, h: seq<Event>, n: nat, charter: string, subject: Subject, wave: nat, t: int)
    requires InTime(h) && n <= |h|
    ensures var r := LastRelease(w, h[..n], charter, subject, wave);
      (r.Some? && r.value >= t) <==> exists j | 0 <= j < n :: LetsGo(w, h, charter, subject, wave, j) && h[j].ts >= t
  {
    hide LastRelease, LetsGo, LetsGoAfter;
    LastReleaseIs(w, h[..n], charter, subject, wave, Some(t - 1));
    LetsGoUpTo(w, h, n, charter, subject, wave, t - 1);
  }

  lemma LaterLetsGo(w: World, h: seq<Event>, n: nat, charter: string, subject: Subject, wave: nat, marker: Option<int>)
    requires InTime(h) && n <= |h|
    ensures LetsGoSince(w, h, n, charter, subject, wave, marker) <==>
      LetsGoAfter(w, h, charter, subject, wave, Later(marker, LastRelease(w, h[..n], charter, subject, wave)))
  {
    hide LastRelease, LetsGo, InTime;
    var m := Later(marker, LastRelease(w, h[..n], charter, subject, wave));
    if LetsGoSince(w, h, n, charter, subject, wave, marker) {
      var k :| n <= k < |h| && LetsGo(w, h, charter, subject, wave, k) && After(marker, h[k].ts)
        && forall j | 0 <= j < n && LetsGo(w, h, charter, subject, wave, j) :: h[j].ts < h[k].ts;
      ReleasedBefore(w, h, n, charter, subject, wave, h[k].ts);
      assert After(m, h[k].ts);
    }
    if LetsGoAfter(w, h, charter, subject, wave, m) {
      var k :| 0 <= k < |h| && LetsGo(w, h, charter, subject, wave, k) && After(m, h[k].ts);
      ReleasedBefore(w, h, n, charter, subject, wave, h[k].ts);
      assert After(marker, h[k].ts);
      assert forall j | 0 <= j < n && LetsGo(w, h, charter, subject, wave, j) :: h[j].ts < h[k].ts;
      assert k >= n;
    }
  }

  lemma ReleaseGrows(w: World, h: seq<Event>, n: nat, charter: string, subject: Subject, wave: nat)
    requires InTime(h) && n <= |h|
    ensures var x, r := LastRelease(w, h[..n], charter, subject, wave), LastRelease(w, h, charter, subject, wave);
      x.Some? ==> r.Some? && x.value <= r.value
  {
    hide LastRelease, LetsGo;
    var x := LastRelease(w, h[..n], charter, subject, wave);
    if x.Some? {
      assert h[..|h|] == h;
      ReleasedBefore(w, h, n, charter, subject, wave, x.value);
      ReleasedBefore(w, h, |h|, charter, subject, wave, x.value);
    }
  }

  lemma BuiltExact(w: World, h: seq<Event>, charter: string, subject: Subject, wave: nat, marker: Option<int>)
    requires InTime(h) && Built(h, subject) && !Waived(h, subject)
    ensures var built := UpToBuild(w, h, FirstBuild(h, subject), charter, subject, wave);
      Later(marker, LastRelease(w, h, charter, subject, wave)) == Later(marker, built) <==>
      !Misdated(w, h, charter, subject, wave, marker)
  {
    var n := FirstBuild(h, subject);
    hide LastRelease, LetsGoAfter, LetsGoSince, FirstBuild, Blocked, Waived, Built, InTime;
    if Blocked(w, h[..n], charter, subject, wave) && After(marker, h[n].ts) {
      LastReleaseIs(w, h, charter, subject, wave, Some(h[n].ts - 1));
      LastReleaseIs(w, h, charter, subject, wave, Some(h[n].ts));
    } else {
      EventsBefore(w, h, n, charter, subject, wave);
      ReleaseGrows(w, h, n, charter, subject, wave);
      LaterLetsGo(w, h, n, charter, subject, wave, marker);
      LastReleaseIs(w, h, charter, subject, wave, Later(marker, LastRelease(w, h[..n], charter, subject, wave)));
    }
  }

  /** Exactly when the replay agrees with re-running `wave_blocker` itself, for every spec. It does not when a waiver
      stands and the sibling scan lets go after the spec's newest own marker: the waiver had freed the spec already.
      Nor when the spec is built while the scan blocks it, unless the scan's last letting go is at that instant; nor
      when the scan lets go only after the build: the build had freed it already. */
  lemma SinceExact(w: World, events: seq<Event>, charter: string, subject: Subject, wave: nat)
    ensures var h := History(events);
            var marker := NewestMarker(SiblingEvents(events, subject));
            Later(marker, LastRelease(w, h, charter, subject, wave)) == Later(marker, LastUnheld(w, h, charter, subject, wave)) <==>
            !Misdated(w, h, charter, subject, wave, marker)
  {
    var h := History(events);
    var marker := NewestMarker(SiblingEvents(events, subject));
    HistoryInTime(events);
    WaiverIsMarker(events, subject);
    assert Past(h, subject, marker);
    hide LastRelease, LastUnheld, NewestMarker, SiblingEvents, History, LetsGoAfter, LetsGoSince, Waived, Built, Blocked, InTime, Past;
    if Waived(h, subject) {
      WaivedLater(w, h, charter, subject, wave, marker);
      LastReleaseIs(w, h, charter, subject, wave, marker);
    } else if !Built(h, subject) {
      UnbuiltLater(w, h, charter, subject, wave, marker);
    } else {
      BuiltLater(w, h, charter, subject, wave, marker);
      BuiltExact(w, h, charter, subject, wave, marker);
    }
  }

  // ---------------------------------------------------------------- ledgers on which they differ

  const SIBLING := Spec("1")
  const OWN := Spec("2")
  const WRITTEN := Event(SIBLING, 1, SpecWritten, Some("c"), ["a"], None)
  const SHIPPED := Event(SIBLING, 5, Shipped, None, [], None)
  const PLAN: seq<Unit> := [Unit({"a"}, 1)]
  const WORLD := World(c => PLAN, evs => |evs| >= 2)

  const WAIVER := Event(OWN, 2, Decision, None, [], Some(true))
  const BUILT := Event(OWN, 2, BuildDone, None, [], None)

  /** A sibling of an earlier wave is written at 1 and ships at 5; at 2 comes an event of the spec. */
  function Around(own: Event): seq<Event> { [WRITTEN] + [own] + [SHIPPED] }

  lemma LedgerSorted(own: Event)
    requires own.ts == 2
    ensures History(Around(own)) == Around(own)
  {
    var one := [WRITTEN];
    assert [] + one == one;
    SortAppend([], WRITTEN, Earlier);
    SortAppend(one, own, Earlier);
    SortAppend(one + [own], SHIPPED, Earlier);
  }

  lemma LedgerSiblings(own: Event)
    requires own.subject == OWN
    ensures SiblingEvents([WRITTEN], SIBLING) == [WRITTEN]
    ensures SiblingEvents([WRITTEN] + [own], SIBLING) == [WRITTEN]
    ensures SiblingEvents(Around(own), SIBLING) == [WRITTEN] + [SHIPPED]
    ensures SiblingEvents(Around(own), OWN) == [own]
    ensures forall s | s != SIBLING && s != OWN :: SiblingEvents(Around(own), s) == []
  {
    forall s
      ensures SiblingEvents([WRITTEN], s) == if s == SIBLING then [WRITTEN] else []
      ensures SiblingEvents([WRITTEN] + [own], s) ==
              if s == OWN then SiblingEvents([WRITTEN], s) + [own] else SiblingEvents([WRITTEN], s)
      ensures SiblingEvents(Around(own), s) ==
              if s == SIBLING then SiblingEvents([WRITTEN] + [own], s) + [SHIPPED] else SiblingEvents([WRITTEN] + [own], s)
    {
      assert [] + [WRITTEN] == [WRITTEN];
      SiblingEventsAppend([], WRITTEN, s);
      SiblingEventsAppend([WRITTEN], own, s);
      SiblingEventsAppend([WRITTEN] + [own], SHIPPED, s);
    }
  }

  lemma LedgerBlocks(own: Event)
    requires own.subject == OWN
    ensures Blocked(WORLD, [WRITTEN], "c", OWN, 2) && Blocked(WORLD, [WRITTEN] + [own], "c", OWN, 2)
    ensures !Blocked(WORLD, Around(own), "c", OWN, 2)
  {
    LedgerSiblings(own);
    assert Paths(["a"]) == {"a"};
    assert WaveOf(PLAN, {"a"}) == Some(1) by { ExactUnit(PLAN, {"a"}, 0, 0, None, ZERO); }
    assert Charter([WRITTEN]) == Some("c") && Written([WRITTEN]) == Some(WRITTEN);
    assert Blocks(WORLD, [WRITTEN], SIBLING, "c", OWN, 2);
    assert Blocks(WORLD, [WRITTEN] + [own], SIBLING, "c", OWN, 2);
    forall s ensures !Blocks(WORLD, Around(own), s, "c", OWN, 2) {
      if s != SIBLING && s != OWN { assert SiblingEvents(Around(own), s) == []; }
    }
  }

  /** The scan lets go at 5. */
  lemma LedgerReleases(own: Event)
    requires own.subject == OWN && own.ts == 2
    ensures InTime(Around(own)) && LetsGoAfter(WORLD, Around(own), "c", OWN, 2, Some(2)) && LetsGoAfter(WORLD, Around(own), "c", OWN, 2, None)
  {
    LedgerBlocks(own);
    var h := Around(own);
    assert h[..2] == [WRITTEN] + [own] && h[..2 + 1] == h;
    assert LetsGo(WORLD, h, "c", OWN, 2, 2);
  }

  lemma LedgerWaived()
    ensures Waived(Around(WAIVER), OWN) && NewestMarker([WAIVER]) == Some(2)
  {
    assert Around(WAIVER)[..2] == [WRITTEN] + [WAIVER];
    var two := [WRITTEN] + [WAIVER];
    assert two[..1] == [WRITTEN] && [WRITTEN][..0] == [];
    assert NewestWaiver([WRITTEN], OWN) == None;
    assert NewestWaiver(two, OWN) == Some(WAIVER);
    assert [WAIVER][..0] == [];
    assert IsMarker(WAIVER) && Newest([], IsMarker) == None;
    assert Newest([WAIVER], IsMarker) == Some(2);
  }

  ghost predicate Differ(events: seq<Event>) {
    var marker := NewestMarker(SiblingEvents(events, OWN));
    Later(marker, LastRelease(WORLD, History(events), "c", OWN, 2)) != Later(marker, LastUnheld(WORLD, History(events), "c", OWN, 2))
  }

  /** Waived at 2: the replay dates the spec from 5, `wave_blocker` let it go at 2. */
  lemma WaiverMisdated()
    ensures Differ(Around(WAIVER))
  {
    LedgerSorted(WAIVER);
    LedgerSiblings(WAIVER);
    LedgerReleases(WAIVER);
    LedgerWaived();
    hide LastRelease, LastUnheld, NewestMarker, SiblingEvents, History, LetsGoAfter, LetsGoSince, Waived, Blocked, Around, FirstBuild;
    SinceExact(WORLD, Around(WAIVER), "c", OWN, 2);
  }

  lemma LedgerBuilt()
    ensures !Waived(Around(BUILT), OWN) && NewestMarker([BUILT]) == None
    ensures FirstBuild(Around(BUILT), OWN) == 1 && Around(BUILT)[..1] == [WRITTEN] && Around(BUILT)[1] == BUILT
  {
    var h := Around(BUILT);
    assert h[..2] == [WRITTEN] + [BUILT] && h[..1] == [WRITTEN];
    assert forall e | e in h :: !Waives(e, OWN);
    NewestWaiverIn(h, OWN);
    assert [BUILT][..0] == [] && !IsMarker(BUILT);
    assert Newest([BUILT], IsMarker) == None;
    assert BUILT in h && BUILT in h[..2];
    assert !Built(h[..1], OWN) && Built(h[..2], OWN);
    var n := FirstBuild(h, OWN);
    assert n == 0 || n == 1 || n == 2 || n == 3;
  }

  /** Built at 2: the same. */
  lemma BuildMisdated()
    ensures Differ(Around(BUILT))
  {
    LedgerSorted(BUILT);
    LedgerSiblings(BUILT);
    LedgerBlocks(BUILT);
    LedgerReleases(BUILT);
    LedgerBuilt();
    hide LastRelease, LastUnheld, NewestMarker, SiblingEvents, History, LetsGoAfter, LetsGoSince, Waived, Blocked, Around, FirstBuild;
    SinceExact(WORLD, Around(BUILT), "c", OWN, 2);
  }
}
