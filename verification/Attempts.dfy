/** The bounded retry classifier: what one role has already attempted for one trigger (src/attempts.py). */
module Attempts {
  // `MarkerGroups` joins the parent's dispatch markers to the spawns they started; `History` decides whether the
  // trigger is consumed, whether an attempt is live, how many have failed and when to retry. Times are whole
  // seconds. A spawn id, a reason and an event type are read only in the ways the data types below show.

  import opened Seqs

  datatype Role = Grader | Reviewer | Builder | SpecAuditor | OtherRole(name: string)

  datatype Kind =
    | SpawnStarted | BuildStarted | SpawnFailed | SpawnDone | SpawnStale
    | Autodispatched | AutodispatchFailed | EscalationBlocking
    | Verdict | CannotAssess | Review | BuildDone | BuildBlocked
    | Shipped | SpecKilled | SpecClosed | QueueAdd | MergeGateClean
    | EvidenceBundle | EvidenceBundleFailed | OtherKind(name: string)

  /** A spawn id: none, `L-<role>-<number>`, the decimal pid a launcher marks with, or any other text. */
  datatype Spawn = NoSpawn | Numbered(role: Role, n: nat) | Pid(pid: nat) | OtherSpawn(text: string)

  /** How a reason text begins, as far as the refusal test looks at it. */
  datatype Form =
    | BundlePending | DuplicateDispatch | WaveOrder            // prefixes
    | DispatchInProgress | BranchRefreshed                     // whole texts
    | StaleBase | BranchNotDescendant | PinnedBaseMismatch     // branch_refresh.REFUSALS
    | Different

  datatype Text = NoText | Text(form: Form, mentionsLock: bool, text: string)

  datatype Event = Event(
    subject: string, ts: int, kind: Kind, role: Option<Role>, spawn: Spawn, waiterPid: Option<nat>,
    reason: Text, why: Text, replaced: Spawn, deadSpawn: Spawn, readySha: string, sha: string)

  /** Why an attempt counts as failed. */
  datatype Reason =
    | Recorded(text: Text)
    | NotRecorded(kind: Kind)
    | Dead(spawn: Spawn)
    | DoneWithoutOutput(role: Role)

  datatype Standing = Standing(
    consumed: bool, live: bool, nFailed: nat, reasons: seq<Reason>,
    nextRetryAt: Option<int>, exhausted: bool, bundlePending: bool)

  const MINUTE := 60
  const BACKOFF_MIN: seq<int> := [5, 15, 45]
  const MAX_ATTEMPTS: nat := 3

  /** An event of the subject with its time and its place in the input. */
  datatype Row = Row(ts: int, idx: nat, e: Event)

  /** What a group is filed under: a spawn id, or the receipt of a launch that never got one. */
  datatype Key = BySpawn(spawn: Spawn) | Receipt(idx: nat)

  datatype Group = Group(key: Key, rows: seq<Row>)

  datatype Failure = Failure(at: int, idx: nat, why: Reason)

  // ---------------------------------------------------------------- reading one event

  predicate Starts(k: Kind) { k.SpawnStarted? || k.BuildStarted? }

  predicate Fails(k: Kind) { k.SpawnFailed? || k.AutodispatchFailed? }

  predicate AttemptEvent(k: Kind) { Starts(k) || k.SpawnFailed? || k.SpawnDone? || k.SpawnStale? }

  predicate Terminal(k: Kind) { k.Shipped? || k.SpecKilled? || k.SpecClosed? || k.QueueAdd? || k.MergeGateClean? }

  predicate Known(role: Role) { !role.OtherRole? }

  predicate Output(role: Role, k: Kind) {
    match role
    case Grader => k.Verdict? || k.CannotAssess?
    case Reviewer => k.Review?
    case Builder => k.BuildDone? || k.BuildBlocked?
    case SpecAuditor => k.SpawnDone?
    case OtherRole(_) => false
  }

  function MarkerCap(role: Role): int {
    match role
    case Builder => 90
    case SpecAuditor => 15
    case _ => 30
  }

  function RoleOf(e: Event): Option<Role> {
    if e.role.Some? then e.role
    else if e.spawn.Numbered? then Some(e.spawn.role)
    else if e.kind.BuildStarted? then Some(Builder)
    else None
  }

  function ReasonOf(e: Event): Reason {
    if !e.reason.NoText? then Recorded(e.reason)
    else if !e.why.NoText? then Recorded(e.why)
    else NotRecorded(e.kind)
  }

  predicate HasForm(r: Reason, form: Form) { r.Recorded? && r.text.Text? && r.text.form == form }

  /** A dispatch that was turned away before it began: it uses up no attempt. */
  predicate Refusal(e: Event) {
    var r := ReasonOf(e);
    e.kind.SpawnFailed? &&
    (|| HasForm(r, BundlePending) || HasForm(r, DuplicateDispatch) || HasForm(r, WaveOrder)
     || (HasForm(r, DispatchInProgress) && (RoleOf(e) != Some(Grader) || (e.why.Text? && e.why.mentionsLock)))
     || HasForm(r, BranchRefreshed)
     || HasForm(r, StaleBase) || HasForm(r, BranchNotDescendant) || HasForm(r, PinnedBaseMismatch))
  }

  // ---------------------------------------------------------------- rows in time order

  predicate Before(a: Row, b: Row) { a.ts < b.ts || (a.ts == b.ts && a.idx < b.idx) }

  function SortRows(rows: seq<Row>): seq<Row> { Sort(rows, Before) }

  /** The subject's events with their places. */
  function Own(evs: seq<Event>, subject: string): seq<Row> {
    if evs == [] then []
    else
      var n := |evs| - 1;
      Own(evs[..n], subject) + if evs[n].subject == subject then [Row(evs[n].ts, n, evs[n])] else []
  }

  // ---------------------------------------------------------------- joining markers to spawns

  function IndexOf(groups: seq<Group>, key: Key): (i: nat)
    ensures i <= |groups|
    ensures i < |groups| ==> groups[i].key == key
    ensures forall j | 0 <= j < i :: groups[j].key != key
  {
    if groups == [] then 0 else if groups[0].key == key then 0 else 1 + IndexOf(groups[1..], key)
  }

  predicate HasKey(groups: seq<Group>, key: Key) { IndexOf(groups, key) < |groups| }

  /** `groups.setdefault(key, []).append(row)`: a new key goes last. */
  function Add(groups: seq<Group>, key: Key, row: Row): seq<Group> {
    var i := IndexOf(groups, key);
    if i < |groups| then groups[i := Group(key, groups[i].rows + [row])] else groups + [Group(key, [row])]
  }

  predicate OfRole(row: Row, role: Role) { RoleOf(row.e) == Some(role) }

  predicate IsAttempt(row: Row, role: Role) {
    OfRole(row, role) && !row.e.spawn.NoSpawn? && AttemptEvent(row.e.kind)
  }

  function Spawned(rows: seq<Row>, role: Role): seq<Group> {
    if rows == [] then []
    else
      var groups, row := Spawned(rows[..|rows| - 1], role), rows[|rows| - 1];
      if IsAttempt(row, role) then Add(groups, BySpawn(row.e.spawn), row) else groups
  }

  predicate JoinsGroup(row: Row, role: Role, groups: seq<Group>) {
    row.e.kind.AutodispatchFailed? && OfRole(row, role) && HasKey(groups, BySpawn(row.e.spawn))
  }

  function WithDispatchFailures(groups: seq<Group>, rows: seq<Row>, role: Role): seq<Group> {
    if rows == [] then groups
    else
      var g, row := WithDispatchFailures(groups, rows[..|rows| - 1], role), rows[|rows| - 1];
      if JoinsGroup(row, role, g) then Add(g, BySpawn(row.e.spawn), row) else g
  }

  predicate IsMarker(row: Row, role: Role) {
    row.e.kind.Autodispatched? && OfRole(row, role) && !row.e.spawn.NoSpawn?
  }

  predicate WaitedFor(rows: seq<Row>, pid: nat) {
    exists r | r in rows :: Starts(r.e.kind) && r.e.waiterPid == Some(pid)
  }

  /** The group of the spawn a marker names, or whose start was waited for by the pid it names. */
  predicate Matches(marker: Row, g: Group) {
    g.key == BySpawn(marker.e.spawn) || (marker.e.spawn.Pid? && WaitedFor(g.rows, marker.e.spawn.pid))
  }

  function FirstMatch(marker: Row, groups: seq<Group>): Option<Group> {
    First(groups, g => Matches(marker, g))
  }

  /** An event that ends the search for a marker's receipt. */
  predicate Follows(row: Row, marker: Row, role: Role) {
    && Before(marker, row) && OfRole(row, role)
    && (Starts(row.e.kind) || row.e.kind.Autodispatched? || Fails(row.e.kind))
  }

  function FirstFollowing(rows: seq<Row>, marker: Row, role: Role): Option<Row> {
    First(rows, r => Follows(r, marker, role))
  }

  datatype Joined = Joined(groups: seq<Group>, associated: set<nat>)

  predicate TakesReceipt(receipt: Option<Row>, associated: set<nat>) {
    receipt.Some? && Fails(receipt.value.e.kind) && receipt.value.idx !in associated
  }

  function ReceiptKey(receipt: Row): Key {
    if receipt.e.spawn.NoSpawn? then Receipt(receipt.idx) else BySpawn(receipt.e.spawn)
  }

  function JoinMarker(j: Joined, rows: seq<Row>, role: Role, marker: Row): Joined {
    var found := FirstMatch(marker, j.groups);
    if found.Some? then Joined(Add(j.groups, found.value.key, marker), j.associated)
    else
      var receipt := FirstFollowing(rows, marker, role);
      if TakesReceipt(receipt, j.associated) then
        var key := ReceiptKey(receipt.value);
        var groups := if receipt.value.e.kind.AutodispatchFailed? then Add(j.groups, key, receipt.value) else j.groups;
        Joined(Add(groups, key, marker), j.associated + {receipt.value.idx})
      else Joined(Add(j.groups, BySpawn(marker.e.spawn), marker), j.associated)
  }

  /** Joins the markers among `markers` in turn; receipts are looked for in all of `rows`. */
  function JoinMarkers(j: Joined, rows: seq<Row>, role: Role, markers: seq<Row>): Joined {
    if markers == [] then j
    else
      var k, marker := JoinMarkers(j, rows, role, markers[..|markers| - 1]), markers[|markers| - 1];
      if IsMarker(marker, role) then JoinMarker(k, rows, role, marker) else k
  }

  function SortGroups(groups: seq<Group>): seq<Group> {
    seq(|groups|, i requires 0 <= i < |groups| => Group(groups[i].key, SortRows(groups[i].rows)))
  }

  function Join(rows: seq<Row>, role: Role): Joined {
    var attempts := WithDispatchFailures(Spawned(rows, role), rows, role);
    var j := JoinMarkers(Joined(attempts, {}), rows, role, rows);
    Joined(SortGroups(j.groups), j.associated)
  }

  /** The body of the last loop of `_marker_groups`. */
  method JoinOne(before: Joined, rows: seq<Row>, role: Role, marker: Row)
    returns (groups: seq<Group>, associated: set<nat>)
    ensures Joined(groups, associated) == JoinMarker(before, rows, role, marker)
  {
    groups, associated := before.groups, before.associated;
    var found := FirstMatch(marker, groups);
    var match_ := if found.Some? then Some(found.value.key) else None;
    if match_.None? {
      var receipt := FirstFollowing(rows, marker, role);
      if TakesReceipt(receipt, associated) {
        associated := associated + {receipt.value.idx};
        match_ := Some(ReceiptKey(receipt.value));
        if receipt.value.e.kind.AutodispatchFailed? {
          groups := Add(groups, match_.value, receipt.value);
        }
      }
    }
    if match_.None? {
      match_ := Some(BySpawn(marker.e.spawn));
    }
    groups := Add(groups, match_.value, marker);
  }

  lemma SpawnedStart(rows: seq<Row>, role: Role)
    ensures Spawned(rows[..0], role) == []
  {}

  lemma SpawnedNext(rows: seq<Row>, i: nat, role: Role)
    requires i < |rows|
    ensures var groups := Spawned(rows[..i], role);
      Spawned(rows[..i + 1], role) == if IsAttempt(rows[i], role) then Add(groups, BySpawn(rows[i].e.spawn), rows[i]) else groups
  { assert rows[..i + 1][..i] == rows[..i]; }

  lemma FailuresStart(groups: seq<Group>, rows: seq<Row>, role: Role)
    ensures WithDispatchFailures(groups, rows[..0], role) == groups
  {}

  lemma FailuresNext(groups: seq<Group>, rows: seq<Row>, i: nat, role: Role)
    requires i < |rows|
    ensures var g := WithDispatchFailures(groups, rows[..i], role);
      WithDispatchFailures(groups, rows[..i + 1], role) ==
      if JoinsGroup(rows[i], role, g) then Add(g, BySpawn(rows[i].e.spawn), rows[i]) else g
  { assert rows[..i + 1][..i] == rows[..i]; }

  lemma MarkersStart(j: Joined, rows: seq<Row>, role: Role)
    ensures JoinMarkers(j, rows, role, rows[..0]) == j
  {}

  lemma MarkersNext(j: Joined, rows: seq<Row>, role: Role, i: nat)
    requires i < |rows|
    ensures var k := JoinMarkers(j, rows, role, rows[..i]);
      JoinMarkers(j, rows, role, rows[..i + 1]) == if IsMarker(rows[i], role) then JoinMarker(k, rows, role, rows[i]) else k
  { assert rows[..i + 1][..i] == rows[..i]; }

  /** `_marker_groups`: three passes over the rows, filling the groups in place. */
  method MarkerGroups(rows: seq<Row>, role: Role) returns (groups: seq<Group>, associated: set<nat>)
    ensures Joined(groups, associated) == Join(rows, role)
  {
    groups := [];
    hide Add, IsAttempt, JoinsGroup, IsMarker, JoinMarker, SortGroups, Spawned, WithDispatchFailures, JoinMarkers;
    SpawnedStart(rows, role);
    for i := 0 to |rows|
      invariant groups == Spawned(rows[..i], role)
    {
      SpawnedNext(rows, i, role);
      if IsAttempt(rows[i], role) {
        groups := Add(groups, BySpawn(rows[i].e.spawn), rows[i]);
      }
    }
    assert rows[..|rows|] == rows;
    ghost var spawned := groups;
    FailuresStart(spawned, rows, role);
    for i := 0 to |rows|
      invariant groups == WithDispatchFailures(spawned, rows[..i], role)
    {
      FailuresNext(spawned, rows, i, role);
      if JoinsGroup(rows[i], role, groups) {
        groups := Add(groups, BySpawn(rows[i].e.spawn), rows[i]);
      }
    }
    ghost var attempts := groups;
    associated := {};
    MarkersStart(Joined(attempts, {}), rows, role);
    for i := 0 to |rows|
      invariant Joined(groups, associated) == JoinMarkers(Joined(attempts, {}), rows, role, rows[..i])
    {
      MarkersNext(Joined(attempts, {}), rows, role, i);
      if IsMarker(rows[i], role) {
        groups, associated := JoinOne(Joined(groups, associated), rows, role, rows[i]);
      }
    }
    groups := SortGroups(groups);
  }

  // ---------------------------------------------------------------- the classification

  /** What `history` decides from: the subject's rows since the trigger, and the groups not begun before it. */
  datatype View = View(
    role: Role, now: int, dead: set<Spawn>,
    recent: seq<Row>, older: set<Key>, groups: seq<Group>, associated: set<nat>)

  predicate BegunBefore(g: Group, threshold: int) { g.rows != [] && g.rows[0].ts < threshold }

  function ViewOf(rows: seq<Row>, j: Joined, threshold: int, role: Role, now: int, dead: set<Spawn>): View {
    View(role, now, dead,
         Filter(rows, (r: Row) => r.ts >= threshold),
         set g | g in j.groups && BegunBefore(g, threshold) :: g.key,
         Filter(j.groups, g => !BegunBefore(g, threshold)),
         j.associated)
  }

  predicate FromOlder(v: View, row: Row) { BySpawn(row.e.spawn) in v.older }

  predicate TerminalRow(v: View, row: Row) {
    Output(v.role, row.e.kind) && !FromOlder(v, row) && (v.role.SpecAuditor? ==> OfRole(row, v.role))
  }

  predicate Consumed(v: View) {
    exists row | row in v.recent :: TerminalRow(v, row) || Terminal(row.e.kind)
  }

  function OutputSpawns(v: View): set<Spawn> {
    set row | row in v.recent && TerminalRow(v, row) :: row.e.spawn
  }

  /** The spawn an event declares dead, if it does. */
  function NamesDead(row: Row): Spawn {
    match row.e.kind
    case SpawnStale => row.e.spawn
    case Autodispatched => row.e.replaced
    case EscalationBlocking => row.e.deadSpawn
    case _ => NoSpawn
  }

  function DeadIn(rows: seq<Row>): set<Spawn> {
    set row | row in rows && !NamesDead(row).NoSpawn? :: NamesDead(row)
  }

  predicate IsDead(v: View, key: Key) { key.BySpawn? && (key.spawn in v.dead || key.spawn in DeadIn(v.recent)) }

  predicate StaleOf(row: Row, spawn: Spawn) {
    row.e.kind.SpawnStale? && !row.e.spawn.NoSpawn? && row.e.spawn == spawn
  }

  function StaleRow(rows: seq<Row>, spawn: Spawn): Option<Row> { First(rows, r => StaleOf(r, spawn)) }

  predicate Eligible(v: View, row: Row) { OfRole(row, v.role) && !FromOlder(v, row) }

  predicate Stray(v: View, row: Row) {
    && Eligible(v, row) && row.e.kind.AutodispatchFailed?
    && row.idx !in v.associated && !HasKey(v.groups, BySpawn(row.e.spawn))
  }

  /** Dispatch failures that belong to no attempt group. */
  function Strays(v: View, rows: seq<Row>): seq<Failure> {
    if rows == [] then []
    else
      var row := rows[|rows| - 1];
      Strays(v, rows[..|rows| - 1]) + if Stray(v, row) then [Failure(row.ts, row.idx, ReasonOf(row.e))] else []
  }

  datatype Outcome = Failed(failure: Failure) | Running | Uncounted

  predicate HasOutput(v: View, key: Key) { key.BySpawn? && key.spawn in OutputSpawns(v) }

  function StartOf(g: Group): Option<Row> { First(g.rows, (r: Row) => Starts(r.e.kind)) }
  function FailureOf(g: Group): Option<Row> { First(g.rows, (r: Row) => Fails(r.e.kind)) }
  function RealFailureOf(g: Group): Option<Row> { First(g.rows, (r: Row) => Fails(r.e.kind) && !Refusal(r.e)) }
  function MarkerOf(g: Group): Option<Row> { First(g.rows, (r: Row) => r.e.kind.Autodispatched?) }
  function DoneOf(g: Group): Option<Row> { First(g.rows, (r: Row) => r.e.kind.SpawnDone?) }

  function DeathOf(v: View, g: Group): Option<Row> {
    var stale := if g.key.BySpawn? then StaleRow(v.recent, g.key.spawn) else None;
    if stale.Some? then stale
    else if StartOf(g).Some? then StartOf(g)
    else if g.rows != [] then Some(g.rows[0])
    else None
  }

  function FailedAt(row: Row, why: Reason): Outcome { Failed(Failure(row.ts, row.idx, why)) }

  function OutcomeOf(v: View, g: Group): Outcome {
    if RealFailureOf(g).Some? then FailedAt(RealFailureOf(g).value, ReasonOf(RealFailureOf(g).value.e))
    else if IsDead(v, g.key) && DeathOf(v, g).Some? then FailedAt(DeathOf(v, g).value, Dead(g.key.spawn))
    else if DoneOf(g).Some? && !HasOutput(v, g.key) && !v.role.SpecAuditor? then
      FailedAt(DoneOf(g).value, DoneWithoutOutput(v.role))
    else if StartOf(g).Some? && !HasOutput(v, g.key) && FailureOf(g).None? && DoneOf(g).None? then Running
    else if MarkerOf(g).Some? && StartOf(g).None? && FailureOf(g).None? && DoneOf(g).None? && !Consumed(v) then
      var marker := MarkerOf(g).value;
      var deadline := marker.ts + MarkerCap(v.role) * MINUTE;
      if v.now < deadline then Running else Failed(Failure(deadline, marker.idx, Dead(marker.e.spawn)))
    else Uncounted
  }

  function GroupFailures(v: View, groups: seq<Group>): seq<Failure> {
    if groups == [] then []
    else
      var o := OutcomeOf(v, groups[|groups| - 1]);
      GroupFailures(v, groups[..|groups| - 1]) + if o.Failed? then [o.failure] else []
  }

  predicate AnyRunning(v: View) { exists g | g in v.groups :: OutcomeOf(v, g).Running? }

  predicate Sooner(a: Failure, b: Failure) { a.at < b.at || (a.at == b.at && a.idx < b.idx) }

  function Failures(v: View): seq<Failure> {
    Sort(Strays(v, v.recent) + GroupFailures(v, v.groups), Sooner)
  }

  predicate Refuses(v: View, row: Row) {
    Eligible(v, row) && row.e.kind.SpawnFailed? && HasForm(ReasonOf(row.e), BundlePending)
  }

  /** An existing bundle of the current build: its `sha` and the build's abbreviate the same commit. */
  predicate BundlesBuild(bundle: Row, build: Row) {
    && bundle.e.kind.EvidenceBundle? && bundle.ts > build.ts
    && (build.e.readySha <= bundle.e.sha || (if bundle.e.sha == "" then "x" else bundle.e.sha) <= build.e.readySha)
  }

  function NewestBuild(rows: seq<Row>): Option<Row> {
    var builds := Filter(rows, (r: Row) => r.e.kind.BuildDone?);
    if builds == [] then None else Some(builds[|builds| - 1])
  }

  predicate BundleSince(v: View, refusedAt: int) {
    exists row | row in v.recent ::
      row.ts > refusedAt && (row.e.kind.EvidenceBundle? || row.e.kind.EvidenceBundleFailed?)
  }

  predicate StartSince(v: View, refusedAt: int) {
    exists row | row in v.recent :: row.ts > refusedAt && Eligible(v, row) && Starts(row.e.kind)
  }

  predicate BuildBundled(v: View) {
    var build := NewestBuild(v.recent);
    build.Some? && |build.value.e.readySha| >= 7 && exists row | row in v.recent :: BundlesBuild(row, build.value)
  }

  predicate Cleared(v: View, refusedAt: int) {
    BundleSince(v, refusedAt) || StartSince(v, refusedAt) || BuildBundled(v)
  }

  predicate BundleAwaited(v: View) {
    var refusals := Filter(v.recent, row => Refuses(v, row));
    refusals != [] && !Cleared(v, refusals[|refusals| - 1].ts)
  }

  function Why(failures: seq<Failure>): seq<Reason> {
    seq(|failures|, i requires 0 <= i < |failures| => failures[i].why)
  }

  /** The answer, from the failures in order of time. */
  function Assemble(consumed: bool, running: bool, awaited: bool, failures: seq<Failure>): Standing {
    var n := |failures|;
    var live := running && !consumed;
    var idle := !consumed && !live;
    Standing(consumed, live, n, Why(failures),
             if idle && 0 < n < MAX_ATTEMPTS then Some(failures[n - 1].at + BACKOFF_MIN[n - 1] * MINUTE) else None,
             idle && n >= MAX_ATTEMPTS,
             idle && awaited)
  }

  function Classify(v: View): Standing {
    Assemble(Consumed(v), AnyRunning(v), BundleAwaited(v), Failures(v))
  }

  /** The answer of `history`, or none where it raises for the role or the subject. */
  function HistoryOf(evs: seq<Event>, subject: string, threshold: int, role: Role, now: int, dead: set<Spawn>)
    : Option<Standing>
  {
    if !Known(role) || subject == "" then None
    else
      var rows := SortRows(Own(evs, subject));
      Some(Classify(ViewOf(rows, Join(rows, role), threshold, role, now, dead)))
  }

  /** The loop that gathers what the recent rows say is dead, first staleness first. */
  method GatherDead(recent: seq<Row>, dead: set<Spawn>) returns (deadIds: set<Spawn>, stale: map<Spawn, Row>)
    ensures deadIds == dead + DeadIn(recent)
    ensures forall s :: s in stale <==> StaleRow(recent, s).Some?
    ensures forall s | s in stale :: StaleRow(recent, s) == Some(stale[s])
  {
    deadIds, stale := dead, map[];
    for i := 0 to |recent|
      invariant deadIds == dead + DeadIn(recent[..i])
      invariant forall s :: s in stale <==> StaleRow(recent[..i], s).Some?
      invariant forall s | s in stale :: StaleRow(recent[..i], s) == Some(stale[s])
    {
      var row := recent[i];
      assert recent[..i + 1][..i] == recent[..i];
      DeadInAppend(recent[..i], row);
      assert recent[..i + 1] == recent[..i] + [row];
      if row.e.kind.SpawnStale? && !row.e.spawn.NoSpawn? {
        deadIds := deadIds + {row.e.spawn};
        if row.e.spawn !in stale {
          stale := stale[row.e.spawn := row];
        }
      } else if row.e.kind.Autodispatched? && !row.e.replaced.NoSpawn? {
        deadIds := deadIds + {row.e.replaced};
      } else if row.e.kind.EscalationBlocking? && !row.e.deadSpawn.NoSpawn? {
        deadIds := deadIds + {row.e.deadSpawn};
      }
    }
    assert recent[..|recent|] == recent;
  }

  lemma DeadInAppend(rows: seq<Row>, row: Row)
    ensures DeadIn(rows + [row]) == DeadIn(rows) + if NamesDead(row).NoSpawn? then {} else {NamesDead(row)}
  {
    assert forall r :: r in rows + [row] <==> r in rows || r == row;
  }

  /** The loop over the recent rows: stray failures, starts and refusals. */
  method GatherRows(v: View) returns (failures: seq<Failure>, starts: seq<Row>, refusals: seq<Row>)
    ensures failures == Strays(v, v.recent)
    ensures starts == Filter(v.recent, row => Eligible(v, row) && Starts(row.e.kind))
    ensures refusals == Filter(v.recent, row => Refuses(v, row))
  {
    failures, starts, refusals := [], [], [];
    for i := 0 to |v.recent|
      invariant failures == Strays(v, v.recent[..i])
      invariant starts == Filter(v.recent[..i], row => Eligible(v, row) && Starts(row.e.kind))
      invariant refusals == Filter(v.recent[..i], row => Refuses(v, row))
    {
      var row := v.recent[i];
      assert v.recent[..i + 1][..i] == v.recent[..i];
      if OfRole(row, v.role) && !FromOlder(v, row) {
        if row.e.kind.AutodispatchFailed? && row.idx !in v.associated && !HasKey(v.groups, BySpawn(row.e.spawn)) {
          failures := failures + [Failure(row.ts, row.idx, ReasonOf(row.e))];
        }
        if Starts(row.e.kind) {
          starts := starts + [row];
        }
        if row.e.kind.SpawnFailed? && HasForm(ReasonOf(row.e), BundlePending) {
          refusals := refusals + [row];
        }
      }
    }
    assert v.recent[..|v.recent|] == v.recent;
  }

  /** The loop over the groups: one failure, a live attempt, or neither. */
  method ClassifyGroups(v: View, deadIds: set<Spawn>, stale: map<Spawn, Row>, strays: seq<Failure>) returns (failures: seq<Failure>, live: bool)
    requires deadIds == v.dead + DeadIn(v.recent)
    requires forall s :: s in stale <==> StaleRow(v.recent, s).Some?
    requires forall s | s in stale :: StaleRow(v.recent, s) == Some(stale[s])
    requires forall g | g in v.groups :: g.rows != []
    ensures failures == strays + GroupFailures(v, v.groups)
    ensures live == AnyRunning(v)
  {
    failures, live := strays, false;
    hide OutcomeOf, StaleRow, DeadIn;
    for i := 0 to |v.groups|
      invariant failures == strays + GroupFailures(v, v.groups[..i])
      invariant live <==> exists g | g in v.groups[..i] :: OutcomeOf(v, g).Running?
    {
      var g := v.groups[i];
      NextGroup(v, i);
      var failure, running := ClassifyGroup(v, deadIds, stale, g);
      if failure.Some? {
        failures := failures + [failure.value];
      }
      if running {
        live := true;
      }
    }
    assert v.groups[..|v.groups|] == v.groups;
  }

  lemma NextGroup(v: View, i: nat)
    requires i < |v.groups|
    ensures GroupFailures(v, v.groups[..i + 1]) == GroupFailures(v, v.groups[..i])
      + if OutcomeOf(v, v.groups[i]).Failed? then [OutcomeOf(v, v.groups[i]).failure] else []
    ensures forall g :: g in v.groups[..i + 1] <==> g in v.groups[..i] || g == v.groups[i]
  {
    assert v.groups[..i + 1][..i] == v.groups[..i];
    assert v.groups[..i + 1] == v.groups[..i] + [v.groups[i]];
  }

  /** The body of that loop. */
  method ClassifyGroup(v: View, deadIds: set<Spawn>, stale: map<Spawn, Row>, g: Group) returns (failure: Option<Failure>, running: bool)
    requires deadIds == v.dead + DeadIn(v.recent)
    requires forall s :: s in stale <==> StaleRow(v.recent, s).Some?
    requires forall s | s in stale :: StaleRow(v.recent, s) == Some(stale[s])
    requires g.rows != []
    ensures failure == if OutcomeOf(v, g).Failed? then Some(OutcomeOf(v, g).failure) else None
    ensures running == OutcomeOf(v, g).Running?
  {
    failure, running := None, false;
    var spawned, failed, realFailed := StartOf(g), FailureOf(g), RealFailureOf(g);
    var marker, done := MarkerOf(g), DoneOf(g);
    if realFailed.Some? {
      var f := realFailed.value;
      failure := Some(Failure(f.ts, f.idx, ReasonOf(f.e)));
    } else if g.key.BySpawn? && g.key.spawn in deadIds {
      var f := if g.key.spawn in stale then stale[g.key.spawn] else if spawned.Some? then spawned.value else g.rows[0];
      failure := Some(Failure(f.ts, f.idx, Dead(g.key.spawn)));
    } else if done.Some? && !HasOutput(v, g.key) && v.role != SpecAuditor {
      failure := Some(Failure(done.value.ts, done.value.idx, DoneWithoutOutput(v.role)));
    } else if spawned.Some? && !HasOutput(v, g.key) && failed.None? && done.None? {
      running := true;
    } else if marker.Some? && spawned.None? && failed.None? && done.None? && !Consumed(v) {
      var deadline := marker.value.ts + MarkerCap(v.role) * MINUTE;
      if v.now < deadline {
        running := true;
      } else {
        failure := Some(Failure(deadline, marker.value.idx, Dead(marker.value.e.spawn)));
      }
    }
  }

  /** The second half of `history`: from the joined rows to the answer. */
  method Decide(v: View) returns (answer: Standing)
    requires forall g | g in v.groups :: g.rows != []
    ensures answer == Classify(v)
  {
    hide GroupFailures, Strays, AnyRunning, Cleared, Consumed, DeadIn, StaleRow;
    var consumed := Consumed(v);
    var deadIds, stale := GatherDead(v.recent, v.dead);
    var strays, starts, refusals := GatherRows(v);
    var failures, live := ClassifyGroups(v, deadIds, stale, strays);
    failures := Sort(failures, Sooner);
    var n := |failures|;
    live := live && !consumed;
    var exhausted := !consumed && !live && n >= MAX_ATTEMPTS;
    var nextRetryAt := None;
    if !consumed && !live && 0 < n < MAX_ATTEMPTS {
      nextRetryAt := Some(failures[n - 1].at + BACKOFF_MIN[n - 1] * MINUTE);
    }
    var bundlePending := false;
    if !consumed && !live && refusals != [] {
      bundlePending := !Cleared(v, refusals[|refusals| - 1].ts);
    }
    answer := Standing(consumed, live, n, Why(failures), nextRetryAt, exhausted, bundlePending);
  }

  /** `history`: refuses a bad role or subject, then joins and decides. */
  method History(evs: seq<Event>, subject: string, threshold: int, role: Role, now: int, dead: set<Spawn>)
    returns (answer: Option<Standing>)
    ensures answer == HistoryOf(evs, subject, threshold, role, now, dead)
  {
    if role.OtherRole? || subject == "" {
      return None;
    }
    var rows := [];
    for i := 0 to |evs|
      invariant rows == Own(evs[..i], subject)
    {
      assert evs[..i + 1][..i] == evs[..i];
      if evs[i].subject == subject {
        rows := rows + [Row(evs[i].ts, i, evs[i])];
      }
    }
    assert evs[..|evs|] == evs;
    rows := SortRows(rows);
    var groups, associated := MarkerGroups(rows, role);
    GroupsNonempty(rows, role);
    FilterIn(groups, g => !BegunBefore(g, threshold));
    hide Classify;
    var decided := Decide(ViewOf(rows, Joined(groups, associated), threshold, role, now, dead));
    answer := Some(decided);
  }

  ghost predicate Nonempty(groups: seq<Group>) { forall g | g in groups :: g.rows != [] }

  lemma AddNonempty(groups: seq<Group>, key: Key, row: Row)
    requires Nonempty(groups)
    ensures Nonempty(Add(groups, key, row))
  {}

  lemma JoinMarkerNonempty(j: Joined, rows: seq<Row>, role: Role, marker: Row)
    requires Nonempty(j.groups)
    ensures Nonempty(JoinMarker(j, rows, role, marker).groups)
  {
    hide Nonempty;
    var found, receipt := FirstMatch(marker, j.groups), FirstFollowing(rows, marker, role);
    if found.Some? {
      AddNonempty(j.groups, found.value.key, marker);
    } else {
      AddNonempty(j.groups, BySpawn(marker.e.spawn), marker);
      if TakesReceipt(receipt, j.associated) {
        var key := ReceiptKey(receipt.value);
        AddNonempty(j.groups, key, marker);
        AddNonempty(j.groups, key, receipt.value);
        AddNonempty(Add(j.groups, key, receipt.value), key, marker);
      }
    }
  }

  lemma PassesNonempty(rows: seq<Row>, role: Role, groups: seq<Group>, j: Joined, all: seq<Row>)
    requires Nonempty(groups) && Nonempty(j.groups)
    ensures Nonempty(Spawned(rows, role))
    ensures Nonempty(WithDispatchFailures(groups, rows, role))
    ensures Nonempty(JoinMarkers(j, all, role, rows).groups)
  {
    if rows != [] {
      var init, row := rows[..|rows| - 1], rows[|rows| - 1];
      PassesNonempty(init, role, groups, j, all);
      AddNonempty(Spawned(init, role), BySpawn(row.e.spawn), row);
      AddNonempty(WithDispatchFailures(groups, init, role), BySpawn(row.e.spawn), row);
      JoinMarkerNonempty(JoinMarkers(j, all, role, init), all, role, row);
    }
    hide Add, JoinMarker;
  }

  /** A group is born with a row. */
  lemma GroupsNonempty(rows: seq<Row>, role: Role)
    ensures Nonempty(Join(rows, role).groups)
  {
    var attempts := WithDispatchFailures(Spawned(rows, role), rows, role);
    PassesNonempty(rows, role, [], Joined([], {}), rows);
    PassesNonempty(rows, role, Spawned(rows, role), Joined([], {}), rows);
    PassesNonempty(rows, role, [], Joined(attempts, {}), rows);
    var groups := JoinMarkers(Joined(attempts, {}), rows, role, rows).groups;
    forall i | 0 <= i < |groups| ensures SortGroups(groups)[i].rows != [] {
      SortContents(groups[i].rows, Before);
    }
  }
}
