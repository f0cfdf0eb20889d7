/** Shadow runs of hosted checks, one bounded pass at a time (`run_pass` and below, src/ci_shadow.py). */
module CiShadow {
  import opened Seqs

  // ---------------------------------------------------------------- state files and ledger

  /** A commit: its first twelve hexadecimal digits, which name its state file, and the rest. */
  datatype Sha = Sha(prefix: nat, rest: nat)

  datatype Kind = Ci | Pg

  datatype Row =
    | Shadow(sha: Sha, kind: Kind, ts: int, identical: Option<bool>)
    | Passed(kind: Kind, ts: int, to: int, shas: seq<Sha>)

  datatype State = State(sha: Sha, pg: bool, paths: nat, dispatched: nat)

  /** A hosted run worth comparing: `blocked` when it already carries a reason not to, `runner` when each of its
      `paths` workflows takes a runner. */
  datatype Candidate = Candidate(sha: Sha, blocked: bool, runner: bool, pg: bool, paths: nat)

  type Ledger = seq<Row>
  type Files = map<nat, State>

  const MAX_INFLIGHT := 3
  const SPAN := 86400
  const ENOUGH := 5

  predicate IsShadow(r: Row, sha: Sha, kind: Kind) { r.Shadow? && r.sha == sha && r.kind == kind }

  predicate Recorded(ledger: Ledger, sha: Sha, kind: Kind) {
    exists i | 0 <= i < |ledger| :: IsShadow(ledger[i], sha, kind)
  }

  predicate Seen(ledger: Ledger, sha: Sha) { exists i | 0 <= i < |ledger| :: ledger[i].Shadow? && ledger[i].sha == sha }

  predicate Finished(ledger: Ledger, sha: Sha, pg: bool) { Recorded(ledger, sha, Ci) && (pg ==> Recorded(ledger, sha, Pg)) }

  /** The records still to write. */
  function Missing(ledger: Ledger, sha: Sha, kind: Kind): nat { if Recorded(ledger, sha, kind) then 0 else 1 }

  predicate HasFile(files: Files, sha: Sha) { sha.prefix in files && files[sha.prefix].sha == sha }

  // ---------------------------------------------------------------- what holds at every moment

  predicate OneRecordEach(ledger: Ledger) {
    forall i, j | 0 <= i < j < |ledger| && ledger[i].Shadow? && ledger[j].Shadow? ::
      ledger[i].sha != ledger[j].sha || ledger[i].kind != ledger[j].kind
  }

  predicate PassesApart(ledger: Ledger) {
    forall i, j | 0 <= i < j < |ledger| && ledger[i].Passed? && ledger[j].Passed? ::
      ledger[i].kind != ledger[j].kind || ledger[i].to != ledger[j].to
  }

  predicate Bounded(files: Files) { |files| <= MAX_INFLIGHT && forall p | p in files :: files[p].sha.prefix == p }

  /** `started` maps every commit ever started to whether it has a Postgres side; `lost` are those whose file
      another commit has overwritten. Every other one has its file or all its records. */
  predicate Tracked(ledger: Ledger, files: Files, started: map<Sha, bool>, lost: set<Sha>) {
    && (forall s | s in started ::
          s in lost || (HasFile(files, s) && files[s.prefix].pg == started[s]) || Finished(ledger, s, started[s]))
    && (forall p | p in files :: files[p].sha in started && started[files[p].sha] == files[p].pg)
  }

  predicate Safe(ledger: Ledger, files: Files, started: map<Sha, bool>, lost: set<Sha>) {
    OneRecordEach(ledger) && PassesApart(ledger) && Bounded(files) && Tracked(ledger, files, started, lost)
  }

  /** A branch pushed for a commit has a state file that says so. */
  predicate Owned(files: Files, pushed: set<Sha>, lost: set<Sha>) {
    forall s | s in pushed :: s in lost || HasFile(files, s)
  }

  /** No workflow was started for a commit whose branch is not there, unless its records are. */
  predicate Behind(ledger: Ledger, files: Files, pushed: set<Sha>) {
    forall p | p in files && files[p].dispatched > 0 ::
      files[p].sha in pushed || Finished(ledger, files[p].sha, files[p].pg)
  }

  lemma OwnedStore(files: Files, pushed: set<Sha>, lost: set<Sha>, st: State)
    requires Owned(files, pushed, lost)
    ensures Owned(files[st.sha.prefix := st], pushed, lost + Overwritten(files, st.sha) - {st.sha})
  {}

  lemma RecordedGrows(ledger: Ledger, more: Ledger, sha: Sha, kind: Kind)
    requires Recorded(ledger, sha, kind) && ledger <= more
    ensures Recorded(more, sha, kind)
  { var i :| 0 <= i < |ledger| && IsShadow(ledger[i], sha, kind); assert IsShadow(more[i], sha, kind); }

  lemma TrackedGrows(ledger: Ledger, more: Ledger, files: Files, started: map<Sha, bool>, lost: set<Sha>)
    requires Tracked(ledger, files, started, lost) && ledger <= more
    ensures Tracked(more, files, started, lost)
  {
    forall s | s in started && Finished(ledger, s, started[s]) ensures Finished(more, s, started[s]) {
      RecordedGrows(ledger, more, s, Ci);
      if started[s] { RecordedGrows(ledger, more, s, Pg); }
    }
  }

  lemma AppendShadow(ledger: Ledger, files: Files, started: map<Sha, bool>, lost: set<Sha>, r: Row)
    requires Safe(ledger, files, started, lost) && r.Shadow? && !Recorded(ledger, r.sha, r.kind)
    ensures Safe(ledger + [r], files, started, lost) && Recorded(ledger + [r], r.sha, r.kind)
  {
    TrackedGrows(ledger, ledger + [r], files, started, lost);
    forall i | 0 <= i < |ledger| && ledger[i].Shadow? ensures ledger[i].sha != r.sha || ledger[i].kind != r.kind {
      assert !IsShadow(ledger[i], r.sha, r.kind);
    }
    assert IsShadow((ledger + [r])[|ledger|], r.sha, r.kind);
  }

  lemma AppendPassed(ledger: Ledger, files: Files, started: map<Sha, bool>, lost: set<Sha>, r: Row)
    requires Safe(ledger, files, started, lost) && r.Passed?
    requires forall i | 0 <= i < |ledger| && ledger[i].Passed? :: ledger[i].kind != r.kind || ledger[i].to != r.to
    ensures Safe(ledger + [r], files, started, lost)
  { TrackedGrows(ledger, ledger + [r], files, started, lost); }

  /** Whom a new state file for `sha` overwrites. */
  function Overwritten(files: Files, sha: Sha): set<Sha> {
    if sha.prefix in files && files[sha.prefix].sha != sha then {files[sha.prefix].sha} else {}
  }

  lemma BoundedStore(files: Files, st: State)
    requires Bounded(files) && (|files| < MAX_INFLIGHT || st.sha.prefix in files)
    ensures Bounded(files[st.sha.prefix := st])
  {
    var now := files[st.sha.prefix := st];
    assert now.Keys == files.Keys + {st.sha.prefix};
    assert |now| == |now.Keys| && |files| == |files.Keys|;
    if st.sha.prefix in files { assert now.Keys == files.Keys; }
  }

  lemma TrackedStore(ledger: Ledger, files: Files, started: map<Sha, bool>, lost: set<Sha>, st: State)
    requires Tracked(ledger, files, started, lost) && forall p | p in files :: files[p].sha.prefix == p
    ensures Tracked(ledger, files[st.sha.prefix := st], started[st.sha := st.pg], lost + Overwritten(files, st.sha) - {st.sha})
  {
    hide Finished;
    var now := files[st.sha.prefix := st];
    forall s | s in started && s != st.sha && s !in lost && s !in Overwritten(files, st.sha)
      ensures (HasFile(now, s) && now[s.prefix].pg == started[s]) || Finished(ledger, s, started[s])
    {
      if HasFile(files, s) { assert s.prefix != st.sha.prefix; }
    }
  }

  lemma StoreNew(ledger: Ledger, files: Files, started: map<Sha, bool>, lost: set<Sha>, st: State)
    requires Safe(ledger, files, started, lost) && |files| < MAX_INFLIGHT
    ensures Safe(ledger, files[st.sha.prefix := st], started[st.sha := st.pg], lost + Overwritten(files, st.sha) - {st.sha})
  {
    BoundedStore(files, st);
    TrackedStore(ledger, files, started, lost, st);
  }

  lemma StoreAgain(ledger: Ledger, files: Files, started: map<Sha, bool>, lost: set<Sha>, st: State)
    requires Safe(ledger, files, started, lost) && HasFile(files, st.sha) && files[st.sha.prefix].pg == st.pg
    ensures Safe(ledger, files[st.sha.prefix := st], started, lost)
  { assert files[st.sha.prefix := st].Keys == files.Keys; }

  lemma Removed(ledger: Ledger, files: Files, started: map<Sha, bool>, lost: set<Sha>, p: nat)
    requires Safe(ledger, files, started, lost) && p in files && Finished(ledger, files[p].sha, files[p].pg)
    ensures Safe(ledger, files - {p}, started, lost)
  { assert (files - {p}).Keys == files.Keys - {p}; }

  // ---------------------------------------------------------------- candidates

  /** The candidates a pass may start: commits not yet in the ledger, none with a state file of its name. */
  predicate Fresh(cs: seq<Candidate>, ledger: Ledger, files: Files) {
    && (forall i, j | 0 <= i < j < |cs| :: cs[i].sha != cs[j].sha)
    && (forall i | 0 <= i < |cs| :: !Seen(ledger, cs[i].sha) && cs[i].sha.prefix !in files)
  }

  /** What `candidates` offers: found, not in the ledger, without a state file of the name; each commit once. */
  ghost predicate Chosen(cs: seq<Candidate>, found: seq<Candidate>, ledger: Ledger, files: Files) {
    && Fresh(cs, ledger, files)
    && (forall c | c in cs :: c in found)
    && (forall c | c in found :: Seen(ledger, c.sha) || c.sha.prefix in files || exists d :: d in cs && d.sha == c.sha)
  }

  method Candidates(found: seq<Candidate>, ledger: Ledger, files: Files) returns (cs: seq<Candidate>)
    ensures Chosen(cs, found, ledger, files)
  {
    cs := [];
    for i := 0 to |found|
      invariant Fresh(cs, ledger, files)
      invariant forall c | c in cs :: c in found
      invariant forall k | 0 <= k < i :: Seen(ledger, found[k].sha) || found[k].sha.prefix in files
                  || exists d :: d in cs && d.sha == found[k].sha
    {
      var c := found[i];
      if Seen(ledger, c.sha) || c.sha.prefix in files || (exists d | d in cs :: d.sha == c.sha) { continue; }
      assert forall d | d in cs :: d in cs + [c];
      cs := cs + [c];
      assert c in cs;
    }
  }

  // ---------------------------------------------------------------- the daily verdict

  predicate Compared(r: Row, kind: Kind, now: int) { r.Shadow? && r.kind == kind && r.ts <= now }

  function Comparisons(ledger: Ledger, kind: Kind, now: int): seq<Row> {
    Filter(ledger, (r: Row) => Compared(r, kind, now))
  }

  /** The comparisons of the 24 hours up to and including `end`. */
  function Window(ledger: Ledger, kind: Kind, now: int, end: int): seq<Row> {
    Filter(Comparisons(ledger, kind, now), (r: Row) => end - SPAN <= r.ts <= end)
  }

  predicate Emitted(ledger: Ledger, kind: Kind, to: int) {
    exists i | 0 <= i < |ledger| :: ledger[i].Passed? && ledger[i].kind == kind && ledger[i].to == to
  }

  /** A day of at least five comparisons, every one identical, that ends at a comparison not passed before. */
  predicate CleanDay(ledger: Ledger, kind: Kind, now: int, end: int) {
    && !Emitted(ledger, kind, end)
    && |Window(ledger, kind, now, end)| >= ENOUGH
    && AllIdentical(Window(ledger, kind, now, end))
  }

  predicate Ends(ledger: Ledger, kind: Kind, now: int, end: int) {
    exists i | 0 <= i < |ledger| :: Compared(ledger[i], kind, now) && ledger[i].ts == end
  }

  function Shas(rows: seq<Row>): seq<Sha> {
    if rows == [] then [] else
    Shas(rows[..|rows| - 1]) + if rows[|rows| - 1].Shadow? then [rows[|rows| - 1].sha] else []
  }

  function Ordered(rows: seq<Row>): seq<Row> { Sort(rows, (a: Row, b: Row) => a.ts < b.ts) }

  lemma OrderedIs(rows: seq<Row>)
    ensures forall i, j | 0 <= i < j < |Ordered(rows)| :: Ordered(rows)[i].ts <= Ordered(rows)[j].ts
    ensures forall r :: r in Ordered(rows) <==> r in rows
    ensures |Ordered(rows)| == |rows|
  {
    var before := (a: Row, b: Row) => a.ts < b.ts;
    SortInOrder(rows, before);
    SortIn(rows, before);
    SortContents(rows, before);
    forall i, j | 0 <= i < j < |Ordered(rows)| ensures Ordered(rows)[i].ts <= Ordered(rows)[j].ts {
      assert !before(Ordered(rows)[j], Ordered(rows)[i]);
    }
  }

  lemma SpanIs(ledger: Ledger, kind: Kind, now: int, end: int)
    ensures Filter(Ordered(Comparisons(ledger, kind, now)), (r: Row) => end - SPAN <= r.ts <= end)
         == Ordered(Window(ledger, kind, now, end))
  {
    FilterSort(Comparisons(ledger, kind, now), (a: Row, b: Row) => a.ts < b.ts, (r: Row) => end - SPAN <= r.ts <= end);
  }

  lemma EndsIs(ledger: Ledger, kind: Kind, now: int, end: int)
    ensures Ends(ledger, kind, now, end) <==> exists r :: r in Comparisons(ledger, kind, now) && r.ts == end
  {
    FilterIn(ledger, (r: Row) => Compared(r, kind, now));
    if Ends(ledger, kind, now, end) {
      var i :| 0 <= i < |ledger| && Compared(ledger[i], kind, now) && ledger[i].ts == end;
      assert ledger[i] in Comparisons(ledger, kind, now);
    }
  }

  predicate AllIdentical(rows: seq<Row>) { forall r | r in rows :: r.Shadow? && r.identical == Some(true) }

  method TryEnd(comparisons: seq<Row>, ledger: Ledger, kind: Kind, now: int, end: int) returns (r: Option<Row>)
    requires comparisons == Ordered(Comparisons(ledger, kind, now))
    ensures r.Some? <==> CleanDay(ledger, kind, now, end)
    ensures r.Some? ==> r.value == Passed(kind, now, end, Shas(Ordered(Window(ledger, kind, now, end))))
  {
    var span := Filter(comparisons, (r: Row) => end - SPAN <= r.ts <= end);
    SpanIs(ledger, kind, now, end);
    OrderedIs(Window(ledger, kind, now, end));
    hide Ordered, Comparisons, Window, Shas, Emitted;
    r := if !Emitted(ledger, kind, end) && |span| >= ENOUGH && AllIdentical(span)
         then Some(Passed(kind, now, end, Shas(span))) else None;
  }

  lemma EndsAt(ledger: Ledger, kind: Kind, now: int)
    ensures var cs := Ordered(Comparisons(ledger, kind, now));
      forall t :: Ends(ledger, kind, now, t) <==> exists i :: 0 <= i < |cs| && cs[i].ts == t
  {
    var cs := Ordered(Comparisons(ledger, kind, now));
    OrderedIs(Comparisons(ledger, kind, now));
    forall t ensures Ends(ledger, kind, now, t) <==> exists i :: 0 <= i < |cs| && cs[i].ts == t {
      EndsIs(ledger, kind, now, t);
      if Ends(ledger, kind, now, t) { var r :| r in cs && r.ts == t; var i :| 0 <= i < |cs| && cs[i] == r; }
      if i :| 0 <= i < |cs| && cs[i].ts == t { assert cs[i] in cs; }
    }
  }

  /** `day`: a clean day exactly when there is one, and then the latest. */
  method Day(ledger: Ledger, kind: Kind, now: int) returns (r: Option<Row>)
    ensures r.None? <==> forall t | Ends(ledger, kind, now, t) :: !CleanDay(ledger, kind, now, t)
    ensures r.Some? ==> (r.value.Passed? && r.value.kind == kind && r.value.ts == now
      && Ends(ledger, kind, now, r.value.to) && CleanDay(ledger, kind, now, r.value.to)
      && (forall t | t > r.value.to && Ends(ledger, kind, now, t) :: !CleanDay(ledger, kind, now, t))
      && r.value.shas == Shas(Ordered(Window(ledger, kind, now, r.value.to))))
  {
    var comparisons := Ordered(Comparisons(ledger, kind, now));
    OrderedIs(Comparisons(ledger, kind, now));
    EndsAt(ledger, kind, now);
    hide *;
    var i := |comparisons|;
    while i > 0
      invariant 0 <= i <= |comparisons|
      invariant forall j | i <= j < |comparisons| :: !CleanDay(ledger, kind, now, comparisons[j].ts)
    {
      i := i - 1;
      r := TryEnd(comparisons, ledger, kind, now, comparisons[i].ts);
      if r.Some? { return; }
    }
    r := None;
  }

  // ---------------------------------------------------------------- passes, with a crash between any two effects

  /** What a pass meets: how many effects it survives, which states are young enough to retry, which shadows have
      finished or timed out, the hosted runs found, and the clock. */
  datatype Input = Input(fuel: nat, young: set<nat>, finished: map<nat, Verdicts>, found: seq<Candidate>, now: int)

  /** The comparison of the two sides, or none when it could not be made. */
  datatype Verdicts = Verdicts(ci: Option<bool>, pg: Option<bool>)

  /** No two commits of one pass share their first twelve digits. */
  predicate Apart(cs: seq<Candidate>) {
    forall i, j | 0 <= i < |cs| && 0 <= j < |cs| && cs[i].sha.prefix == cs[j].sha.prefix :: cs[i].sha == cs[j].sha
  }

  // ---------------------------------------------------------------- which starts are overwritten

  function Names(files: Files): map<nat, Sha> { map p | p in files :: files[p].sha }

  lemma NamesPut(files: Files, st: State)
    ensures Names(files[st.sha.prefix := st]) == Names(files)[st.sha.prefix := st.sha]
  {}

  lemma OwnedAgain(files: Files, pushed: set<Sha>, lost: set<Sha>, st: State)
    requires Owned(files, pushed, lost) && HasFile(files, st.sha)
    ensures Owned(files[st.sha.prefix := st], pushed, lost)
  {}

  lemma NamesSize(files: Files)
    ensures |Names(files)| == |files|
  { assert Names(files).Keys == files.Keys; assert |files| == |files.Keys| && |Names(files)| == |Names(files).Keys|; }

  /** The commits of a pass that take a shadow run. */
  function Ready(cs: seq<Candidate>): seq<Sha> {
    if cs == [] then [] else
    Ready(cs[..|cs| - 1]) + if !cs[|cs| - 1].blocked && cs[|cs| - 1].runner then [cs[|cs| - 1].sha] else []
  }

  function StartNames(names: map<nat, Sha>, rs: seq<Sha>): map<nat, Sha> {
    if rs == [] then names else
    var before, r := StartNames(names, rs[..|rs| - 1]), rs[|rs| - 1];
    if |before| < MAX_INFLIGHT then before[r.prefix := r] else before
  }

  /** The commits started. */
  function Begun(names: map<nat, Sha>, rs: seq<Sha>): set<Sha> {
    if rs == [] then {} else
    var before, r := rs[..|rs| - 1], rs[|rs| - 1];
    Begun(names, before) + if |StartNames(names, before)| < MAX_INFLIGHT then {r} else {}
  }

  lemma ReadyNext(cs: seq<Candidate>, i: nat)
    requires i < |cs|
    ensures Ready(cs[..i + 1]) == Ready(cs[..i]) + if !cs[i].blocked && cs[i].runner then [cs[i].sha] else []
  { assert cs[..i + 1][..i] == cs[..i]; }

  lemma StartNext(names: map<nat, Sha>, rs: seq<Sha>, r: Sha)
    ensures StartNames(names, rs + [r]) ==
      if |StartNames(names, rs)| < MAX_INFLIGHT then StartNames(names, rs)[r.prefix := r] else StartNames(names, rs)
  { assert (rs + [r])[..|rs|] == rs; }

  predicate Named(names: map<nat, Sha>, s: Sha) { s.prefix in names && names[s.prefix] == s }

  predicate DistinctShas(rs: seq<Sha>) { forall i, j | 0 <= i < j < |rs| :: rs[i] != rs[j] }

  /** No two of the first `n` share their first twelve digits. */
  predicate ApartUpTo(rs: seq<Sha>, n: int) {
    forall i, j | 0 <= i < j < |rs| && j < n :: rs[i].prefix != rs[j].prefix
  }

  predicate Count(names: map<nat, Sha>, rs: seq<Sha>, n: int) {
    |StartNames(names, rs)| == |names| + if |rs| <= n then |rs| else n
  }

  predicate FirstBegun(names: map<nat, Sha>, rs: seq<Sha>, n: int) {
    forall i | 0 <= i < |rs| && i < n :: rs[i] in Begun(names, rs)
  }

  predicate AllKept(names: map<nat, Sha>, rs: seq<Sha>) {
    forall s | s in Begun(names, rs) :: Named(StartNames(names, rs), s)
  }

  /** The first `n` are started, each under its own name, and nothing else is. */
  predicate Filled(names: map<nat, Sha>, rs: seq<Sha>, n: int) {
    Count(names, rs, n) && FirstBegun(names, rs, n) && AllKept(names, rs)
  }

  lemma BegunNext(names: map<nat, Sha>, rs: seq<Sha>, r: Sha)
    ensures Begun(names, rs + [r]) == Begun(names, rs) + if |StartNames(names, rs)| < MAX_INFLIGHT then {r} else {}
  { assert (rs + [r])[..|rs|] == rs; }

  lemma FirstBegunNext(names: map<nat, Sha>, rs: seq<Sha>, r: Sha, n: int)
    requires FirstBegun(names, rs, n) && (|rs| < n ==> |StartNames(names, rs)| < MAX_INFLIGHT)
    ensures FirstBegun(names, rs + [r], n)
  {
    BegunNext(names, rs, r);
    hide StartNames, Begun;
    forall i | 0 <= i < |rs| + 1 && i < n ensures (rs + [r])[i] in Begun(names, rs + [r]) {
      if i < |rs| { assert rs[i] in Begun(names, rs); }
    }
  }

  lemma AllKeptNext(names: map<nat, Sha>, rs: seq<Sha>, r: Sha)
    requires AllKept(names, rs)
    requires |StartNames(names, rs)| < MAX_INFLIGHT ==> r.prefix !in StartNames(names, rs)
    ensures AllKept(names, rs + [r])
  {
    BegunNext(names, rs, r);
    StartNext(names, rs, r);
    hide StartNames, Begun;
  }

  lemma FilledNext(names: map<nat, Sha>, rs: seq<Sha>, r: Sha, n: int)
    requires n == MAX_INFLIGHT - |names| >= 0 && Filled(names, rs, n)
    requires |rs| < n ==> r.prefix !in StartNames(names, rs)
    ensures Filled(names, rs + [r], n)
  {
    FirstBegunNext(names, rs, r, n);
    AllKeptNext(names, rs, r);
    StartNext(names, rs, r);
    Put(StartNames(names, rs), r.prefix, r);
    hide StartNames, FirstBegun, AllKept;
  }

  lemma Put<K, V>(m: map<K, V>, k: K, v: V)
    ensures |m[k := v]| == |m| + if k in m then 0 else 1
  {
    assert m[k := v].Keys == m.Keys + {k};
    assert |m| == |m.Keys| && |m[k := v]| == |m[k := v].Keys|;
    if k in m { assert m.Keys + {k} == m.Keys; }
  }

  lemma {:induction false} NamesFrom(names: map<nat, Sha>, rs: seq<Sha>, p: nat)
    requires p in StartNames(names, rs) && p !in names
    ensures exists i :: 0 <= i < |rs| && rs[i].prefix == p
  {
    var k := |rs| - 1;
    if p in StartNames(names, rs[..k]) { NamesFrom(names, rs[..k], p); }
    else { assert rs[k].prefix == p; }
  }

  lemma ApartInit(names: map<nat, Sha>, rs: seq<Sha>, n: int)
    requires rs != [] && ApartUpTo(rs, n) && rs[|rs| - 1].prefix !in names
    ensures ApartUpTo(rs[..|rs| - 1], n)
    ensures |rs| <= n ==> rs[|rs| - 1].prefix !in StartNames(names, rs[..|rs| - 1])
  {
    var before, p := rs[..|rs| - 1], rs[|rs| - 1].prefix;
    hide StartNames;
    if |rs| <= n && p in StartNames(names, before) { NamesFrom(names, before, p); }
  }

  lemma FilledNone(names: map<nat, Sha>)
    requires |names| <= MAX_INFLIGHT
    ensures Filled(names, [], MAX_INFLIGHT - |names|)
  {}

  lemma {:induction false} AllNamed(names: map<nat, Sha>, rs: seq<Sha>)
    requires |names| <= MAX_INFLIGHT && ApartUpTo(rs, MAX_INFLIGHT - |names|)
    requires forall r | r in rs :: r.prefix !in names
    ensures Filled(names, rs, MAX_INFLIGHT - |names|)
  {
    hide Filled, StartNames, ApartUpTo;
    if rs == [] { FilledNone(names); }
    else {
      var k, n := |rs| - 1, MAX_INFLIGHT - |names|;
      assert rs == rs[..k] + [rs[k]];
      ApartInit(names, rs, n);
      AllNamed(names, rs[..k]);
      FilledNext(names, rs[..k], rs[k], n);
    }
  }

  /** A started commit whose name now belongs to another. */
  predicate Displaced(names: map<nat, Sha>, rs: seq<Sha>, s: Sha) {
    s in Begun(names, rs) && !Named(StartNames(names, rs), s)
  }

  lemma DisplacedStays(names: map<nat, Sha>, rs: seq<Sha>, r: Sha, s: Sha)
    requires Displaced(names, rs, s) && r != s
    ensures Displaced(names, rs + [r], s)
  { assert (rs + [r])[..|rs|] == rs; }

  lemma DisplacedNow(names: map<nat, Sha>, rs: seq<Sha>, r: Sha, s: Sha)
    requires s in Begun(names, rs) && |StartNames(names, rs)| < MAX_INFLIGHT && r != s && r.prefix == s.prefix
    ensures Displaced(names, rs + [r], s)
  { assert (rs + [r])[..|rs|] == rs; }

  lemma {:induction false} SomeDisplaced(names: map<nat, Sha>, rs: seq<Sha>) returns (s: Sha)
    requires |names| <= MAX_INFLIGHT && DistinctShas(rs) && !ApartUpTo(rs, MAX_INFLIGHT - |names|)
    requires forall r | r in rs :: r.prefix !in names
    ensures Displaced(names, rs, s)
  {
    var k := |rs| - 1;
    var before := rs[..k];
    assert rs == before + [rs[k]];
    hide StartNames, Begun;
    if !ApartUpTo(before, MAX_INFLIGHT - |names|) {
      s := SomeDisplaced(names, before);
      BegunIn(names, before, s);
      DisplacedStays(names, before, rs[k], s);
    } else {
      AllNamed(names, before);
      var i :| 0 <= i < k && k < MAX_INFLIGHT - |names| && rs[i].prefix == rs[k].prefix;
      assert before[i] == rs[i] && before[i] in Begun(names, before);
      s := rs[i];
      DisplacedNow(names, before, rs[k], s);
    }
  }

  lemma {:induction false} BegunIn(names: map<nat, Sha>, rs: seq<Sha>, s: Sha)
    requires s in Begun(names, rs)
    ensures s in rs
  { if s != rs[|rs| - 1] { BegunIn(names, rs[..|rs| - 1], s); } }

  /** The started commits of a pass all keep their state files exactly when no two of those that fit in the free
      places share their first twelve digits. */
  lemma OverwrittenExactly(names: map<nat, Sha>, cs: seq<Candidate>)
    requires |names| <= MAX_INFLIGHT && DistinctShas(Ready(cs))
    requires forall r | r in Ready(cs) :: r.prefix !in names
    ensures (forall s | s in Begun(names, Ready(cs)) :: Named(StartNames(names, Ready(cs)), s))
        <==> ApartUpTo(Ready(cs), MAX_INFLIGHT - |names|)
  {
    hide Ready, StartNames, Begun, ApartUpTo, DistinctShas;
    if ApartUpTo(Ready(cs), MAX_INFLIGHT - |names|) { AllNamed(names, Ready(cs)); }
    else {
      var s := SomeDisplaced(names, Ready(cs));
      assert s in Begun(names, Ready(cs)) && !Named(StartNames(names, Ready(cs)), s);
    }
  }

  /** Two commits that share their first twelve digits, started by one pass: one loses its state file. */
  lemma TwinsLoseOne(a: Sha, b: Sha)
    requires a.prefix == b.prefix && a != b
    ensures exists s :: s in Begun(map[], [a, b]) && !Named(StartNames(map[], [a, b]), s)
  {
    assert [a, b][0].prefix == [a, b][1].prefix;
    var s := SomeDisplaced(map[], [a, b]);
    hide StartNames, Begun, Named;
    assert Displaced(map[], [a, b], s);
  }

  /** A commit is done with when its comparison is in the ledger, and the one of its Postgres side if it has one. */
  lemma FinishedIs(ledger: Ledger, sha: Sha, pg: bool)
    ensures Finished(ledger, sha, pg) <==>
      && (exists r | r in ledger :: r.Shadow? && r.sha == sha && r.kind == Ci)
      && (pg ==> exists r | r in ledger :: r.Shadow? && r.sha == sha && r.kind == Pg)
  {
    forall kind: Kind ensures Recorded(ledger, sha, kind) <==> exists r | r in ledger :: r.Shadow? && r.sha == sha && r.kind == kind {
      if r :| r in ledger && r.Shadow? && r.sha == sha && r.kind == kind {
        var i :| 0 <= i < |ledger| && ledger[i] == r;
        assert IsShadow(ledger[i], sha, kind);
      }
    }
    hide Recorded;
  }

  /** A comparison of the day that ends at `end`, not later than `now`. */
  predicate OfDay(r: Row, kind: Kind, now: int, end: int) {
    r.Shadow? && r.kind == kind && r.ts <= now && end - 86400 <= r.ts && r.ts <= end
  }

  lemma {:induction false} WindowIs(ledger: Ledger, kind: Kind, now: int, end: int)
    ensures Window(ledger, kind, now, end) == Filter(ledger, (r: Row) => OfDay(r, kind, now, end))
  {
    if ledger != [] {
      var init, last := ledger[..|ledger| - 1], ledger[|ledger| - 1];
      WindowIs(init, kind, now, end);
      assert ledger == init + [last];
      FilterAppend(init, last, (r: Row) => Compared(r, kind, now));
      if Compared(last, kind, now) {
        FilterAppend(Comparisons(init, kind, now), last, (r: Row) => end - SPAN <= r.ts <= end);
      }
    }
  }

  /** A day is clean exactly when no pass ends there, five comparisons or more do not lie further back than a day, and
      each of them found the two sides identical. */
  lemma CleanDayIs(ledger: Ledger, kind: Kind, now: int, end: int)
    ensures CleanDay(ledger, kind, now, end) <==>
      && (forall r | r in ledger && r.Passed? && r.kind == kind :: r.to != end)
      && |Filter(ledger, (r: Row) => OfDay(r, kind, now, end))| >= 5
      && (forall r | r in ledger && OfDay(r, kind, now, end) :: r.identical == Some(true))
  {
    WindowIs(ledger, kind, now, end);
    FilterIn(ledger, (r: Row) => OfDay(r, kind, now, end));
    if r :| r in ledger && r.Passed? && r.kind == kind && r.to == end {
      var i :| 0 <= i < |ledger| && ledger[i] == r;
      assert Emitted(ledger, kind, end);
    }
    hide Window;
  }
}
