/** The retry ladder for machine failures (`infra_gate` and `machine_failure`, src/dispatch.py). */
module InfraGate {
  import opened Seqs

  // ---------------------------------------------------------------- the ledger

  datatype Reason = FailureUnknown | InfraExhausted | OtherReason

  datatype Kind = SpawnDone | InfraFailure | Decision | Unblocked | Escalation(reason: Reason) | OtherEvent

  /** `ts` is the instant in seconds, or none when it cannot be read or carries no zone; `admitted` is what
      `fold.admits` answers for its actor. */
  datatype Event = Event(subject: nat, role: nat, kind: Kind, ts: Option<int>, admitted: bool)

  datatype Key = Key(subject: nat, role: nat)

  datatype Gate = Run | Wait | Hold

  /** RETRY_MINUTES, in seconds. */
  const DELAYS: seq<int> := [300, 900, 2700, 7200]

  predicate Mine(k: Key, e: Event) { e.subject == k.subject && e.role == k.role }

  predicate Success(k: Key, e: Event) { Mine(k, e) && e.kind == SpawnDone }

  predicate Failure(k: Key, e: Event) { Mine(k, e) && e.kind == InfraFailure && e.admitted }

  predicate Holding(k: Key, e: Event) {
    Mine(k, e) && e.kind.Escalation? && e.kind.reason != OtherReason
  }

  /** What lifts a hold: a decision or an unblock on the subject, whatever its role, or the role's success. */
  predicate Lifting(k: Key, e: Event) {
    (e.subject == k.subject && (e.kind == Decision || e.kind == Unblocked)) || Success(k, e)
  }

  // ---------------------------------------------------------------- the folds

  function RetryEvents(k: Key, es: seq<Event>): seq<Event> {
    if es == [] then [] else
    var rows, e := RetryEvents(k, es[..|es| - 1]), es[|es| - 1];
    if Success(k, e) then [] else if Failure(k, e) then rows + [e] else rows
  }

  function MachineHold(k: Key, es: seq<Event>): Option<Event> {
    if es == [] then None else
    var hold, e := MachineHold(k, es[..|es| - 1]), es[|es| - 1];
    if Lifting(k, e) then None else if Holding(k, e) then Some(e) else hold
  }

  function RetryAt(k: Key, es: seq<Event>): Option<int> {
    var rows := RetryEvents(k, es);
    if rows == [] || |rows| > |DELAYS| || rows[|rows| - 1].ts.None? then None
    else Some(rows[|rows| - 1].ts.value + DELAYS[|rows| - 1])
  }

  function GateAt(k: Key, es: seq<Event>, now: int): Gate {
    if MachineHold(k, es).Some? then Hold
    else if RetryEvents(k, es) == [] then Run
    else match RetryAt(k, es)
      case None => Hold
      case Some(at) => if now < at then Wait else Run
  }

  /** The rows are the admitted failures after the last success, in order. */
  lemma {:induction false} RetryEventsAre(k: Key, es: seq<Event>)
    ensures exists from: nat :: SinceSuccess(k, es, from) && RetryEvents(k, es) == Filter(es[from..], (e: Event) => Failure(k, e))
  {
    if es == [] {
      assert SinceSuccess(k, es, 0) && es[0..] == [];
    } else {
      var n := |es| - 1;
      RetryEventsAre(k, es[..n]);
      var from: nat :| SinceSuccess(k, es[..n], from)
        && RetryEvents(k, es[..n]) == Filter(es[..n][from..], (e: Event) => Failure(k, e));
      SinceNext(k, es, from);
      hide SinceSuccess;
      if Success(k, es[n]) { assert es[n + 1..] == []; }
      else { assert es[from..][..n - from] == es[..n][from..] && es[from..][n - from] == es[n]; }
    }
  }

  lemma SinceNext(k: Key, es: seq<Event>, from: nat)
    requires es != [] && SinceSuccess(k, es[..|es| - 1], from)
    ensures from < |es| && SinceSuccess(k, es, if Success(k, es[|es| - 1]) then |es| else from)
  {
    hide Success;
    forall i | 0 <= i < |es| - 1 ensures es[..|es| - 1][i] == es[i] {}
  }

  /** `from` is just after the last success, or the beginning when there is none. */
  predicate SinceSuccess(k: Key, es: seq<Event>, from: nat) {
    && from <= |es|
    && (from > 0 ==> Success(k, es[from - 1]))
    && forall i | from <= i < |es| :: !Success(k, es[i])
  }

  /** There is a hold exactly when something held the role and nothing has lifted it since. */
  lemma {:induction false} MachineHoldIs(k: Key, es: seq<Event>)
    ensures MachineHold(k, es).Some? <==>
      exists i | 0 <= i < |es| :: Holding(k, es[i]) && forall j | i < j < |es| :: !Lifting(k, es[j])
  {
    if es != [] {
      var n := |es| - 1;
      MachineHoldIs(k, es[..n]);
      if i :| 0 <= i < |es| && Holding(k, es[i]) && forall j | i < j < |es| :: !Lifting(k, es[j]) {
        if i < n {
          assert !Lifting(k, es[n]);
          assert Holding(k, es[..n][i]) && forall j | i < j < n :: !Lifting(k, es[..n][j]);
        }
      }
      if MachineHold(k, es).Some? && MachineHold(k, es[..n]).Some? {
        var i :| 0 <= i < n && Holding(k, es[..n][i]) && forall j | i < j < n :: !Lifting(k, es[..n][j]);
        assert Holding(k, es[i]);
      }
    }
  }

  // ---------------------------------------------------------------- runs

  datatype Outcome = Done | Work | Unknown | Infra

  /** An attempt asks the gate at `now` and, if let through, ends at `ts`; anything else is a note. */
  datatype Action = Attempt(now: int, end: Outcome, ts: int) | Note(e: Event)

  /** A failure is recorded after its attempt was let through; the rows of the ladder are the dispatcher's own. */
  predicate Legal(k: Key, a: Action) {
    match a
    case Attempt(now, _, ts) => now <= ts
    case Note(e) => !Failure(k, e) && !(Mine(k, e) && e.kind == Escalation(InfraExhausted))
  }

  function Written(k: Key, es: seq<Event>, end: Outcome, ts: int): Event {
    var kind := match end
      case Done => SpawnDone
      case Work => OtherEvent
      case Unknown => Escalation(FailureUnknown)
      case Infra => if |RetryEvents(k, es)| < |DELAYS| then InfraFailure else Escalation(InfraExhausted);
    Event(k.subject, k.role, kind, Some(ts), true)
  }

  function Step(k: Key, es: seq<Event>, a: Action): seq<Event> {
    match a
    case Note(e) => es + [e]
    case Attempt(now, end, ts) => if GateAt(k, es, now) == Run then es + [Written(k, es, end, ts)] else es
  }

  function Ledger(k: Key, run: seq<Action>): seq<Event> {
    if run == [] then [] else Step(k, Ledger(k, run[..|run| - 1]), run[|run| - 1])
  }

  predicate LegalRun(k: Key, run: seq<Action>) { forall i | 0 <= i < |run| :: Legal(k, run[i]) }

  /** Infra failures, with or without a place on the ladder, since the last success, decision or unblock. */
  function Spent(k: Key, es: seq<Event>): nat {
    if es == [] then 0 else
    var e := es[|es| - 1];
    if Lifting(k, e) then 0
    else Spent(k, es[..|es| - 1]) + if Failure(k, e) || (Mine(k, e) && e.kind == Escalation(InfraExhausted)) then 1 else 0
  }

  /** Each failure comes at least its predecessor's delay after it. */
  predicate Spaced(rows: seq<Event>) {
    && (forall i | 0 <= i < |rows| :: rows[i].ts.Some?)
    && forall i | 0 <= i < |rows| - 1 && i < |DELAYS| :: rows[i + 1].ts.value >= rows[i].ts.value + DELAYS[i]
  }

  predicate OnLadder(k: Key, es: seq<Event>) {
    && |RetryEvents(k, es)| <= |DELAYS|
    && Spaced(RetryEvents(k, es))
    && Spent(k, es) <= |RetryEvents(k, es)| + if MachineHold(k, es).Some? then 1 else 0
  }

  lemma Push(k: Key, es: seq<Event>, e: Event)
    ensures RetryEvents(k, es + [e]) == if Success(k, e) then [] else if Failure(k, e) then RetryEvents(k, es) + [e] else RetryEvents(k, es)
    ensures MachineHold(k, es + [e]) == if Lifting(k, e) then None else if Holding(k, e) then Some(e) else MachineHold(k, es)
    ensures Spent(k, es + [e]) == if Lifting(k, e) then 0 else
      Spent(k, es) + if Failure(k, e) || (Mine(k, e) && e.kind == Escalation(InfraExhausted)) then 1 else 0
  { assert (es + [e])[..|es|] == es; }

  lemma StepKeeps(k: Key, es: seq<Event>, a: Action)
    requires OnLadder(k, es) && Legal(k, a)
    ensures OnLadder(k, Step(k, es, a))
  {
    hide RetryEvents, MachineHold, Spent;
    match a
    case Note(e) => Push(k, es, e);
    case Attempt(now, end, ts) => Push(k, es, Written(k, es, end, ts));
  }

  lemma {:induction false} RunKeeps(k: Key, run: seq<Action>)
    requires LegalRun(k, run)
    ensures OnLadder(k, Ledger(k, run))
  {
    if run != [] {
      RunKeeps(k, run[..|run| - 1]);
      StepKeeps(k, Ledger(k, run[..|run| - 1]), run[|run| - 1]);
    }
  }

  /** In every sequential run at most four failures of the ladder stand since the last success, each at least
      its predecessor's delay after it, and at most five attempts have failed on the machine since the last
      success, decision or unblock. */
  lemma BoundedRetries(k: Key, run: seq<Action>)
    requires LegalRun(k, run)
    ensures var es := Ledger(k, run);
      |RetryEvents(k, es)| <= 4 && Spaced(RetryEvents(k, es)) && Spent(k, es) <= 5
  { RunKeeps(k, run); }

  /** Whatever comes of it, an attempt let through in a sequential run comes at least the m-th delay after the m-th
      of the failures that stand, for every m. */
  lemma AttemptsWait(k: Key, run: seq<Action>, i: nat, m: nat)
    requires LegalRun(k, run) && i < |run| && run[i].Attempt?
    requires var es := Ledger(k, run[..i]); GateAt(k, es, run[i].now) == Run && m < |RetryEvents(k, es)|
    ensures var rows := RetryEvents(k, Ledger(k, run[..i]));
      |rows| <= |DELAYS| && rows[m].ts.Some? && run[i].now >= rows[m].ts.value + DELAYS[m]
  {
    RunKeeps(k, run[..i]);
    var rows := RetryEvents(k, Ledger(k, run[..i]));
    hide RetryEvents, Ledger;
    LaterRows(rows, m, |rows| - 1);
  }

  lemma {:induction false} LaterRows(rows: seq<Event>, m: nat, n: nat)
    requires Spaced(rows) && m <= n < |rows| <= |DELAYS|
    ensures m < n ==> rows[n].ts.value >= rows[m].ts.value + DELAYS[m]
    decreases n
  {
    if m < n - 1 {
      LaterRows(rows, m, n - 1);
      assert rows[n - 1 + 1].ts.value >= rows[n - 1].ts.value + DELAYS[n - 1];
    }
    else if m < n { assert rows[m + 1].ts.value >= rows[m].ts.value + DELAYS[m]; }
  }

  /** A fifth failure writes no fifth row: it holds, and nothing but a decision, an unblock or a success ever
      lets the role through again. */
  lemma FifthFailureHolds(k: Key, es: seq<Event>, now: int, ts: int, later: seq<Event>, asked: int)
    requires |RetryEvents(k, es)| >= 4 && GateAt(k, es, now) == Run
    requires forall i | 0 <= i < |later| :: !Lifting(k, later[i])
    ensures var held := Step(k, es, Attempt(now, Infra, ts));
      GateAt(k, held + later, asked) == Hold && |RetryEvents(k, held)| == |RetryEvents(k, es)|
  {
    var e := Written(k, es, Infra, ts);
    Push(k, es, e);
    Held(k, es + [e], later);
  }

  lemma {:induction false} Held(k: Key, es: seq<Event>, later: seq<Event>)
    requires MachineHold(k, es).Some? && forall i | 0 <= i < |later| :: !Lifting(k, later[i])
    ensures MachineHold(k, es + later).Some?
  {
    if later == [] { assert es + later == es; }
    else {
      var n := |later| - 1;
      Held(k, es, later[..n]);
      Push(k, es + later[..n], later[n]);
      assert es + later[..n] + [later[n]] == es + later;
    }
  }

  /** The hold's text says that a decision or an unblock lifts it. That is so exactly when the ladder itself can
      still be read: not after a fifth row, nor when the last row's time cannot be read. */
  lemma DecisionReleases(k: Key, es: seq<Event>, e: Event)
    requires e.subject == k.subject && (e.kind == Decision || e.kind == Unblocked)
    ensures (exists now :: GateAt(k, es + [e], now) == Run) <==>
      (var rows := RetryEvents(k, es); rows == [] || (|rows| <= 4 && rows[|rows| - 1].ts.Some?))
  {
    Push(k, es, e);
    var rows := RetryEvents(k, es);
    if rows == [] { assert GateAt(k, es + [e], 0) == Run; }
    else if |rows| <= 4 && rows[|rows| - 1].ts.Some? {
      assert GateAt(k, es + [e], RetryAt(k, es + [e]).value) == Run;
    }
  }

  /** One failure whose time cannot be read: no decision ever lets the role through. */
  lemma UnreadableStaysHeld(k: Key, e: Event, now: int)
    requires e.subject == k.subject && e.kind == Decision
    ensures GateAt(k, [Event(k.subject, k.role, InfraFailure, None, true), e], now) != Run
  {
    var f := Event(k.subject, k.role, InfraFailure, None, true);
    Push(k, [], f);
    assert [] + [f] == [f] && [f] + [e] == [f, e];
    DecisionReleases(k, [f], e);
  }

  /** In a sequential run the dispatcher leaves the ladder readable, so a decision always ends a hold in time. */
  lemma HoldsEnd(k: Key, run: seq<Action>, e: Event)
    requires LegalRun(k, run) && e.subject == k.subject && (e.kind == Decision || e.kind == Unblocked)
    ensures exists now :: GateAt(k, Ledger(k, run) + [e], now) == Run
  {
    RunKeeps(k, run);
    var rows := RetryEvents(k, Ledger(k, run));
    assert rows != [] ==> rows[|rows| - 1].ts.Some?;
    DecisionReleases(k, Ledger(k, run), e);
  }

  // ---------------------------------------------------------------- the code

  method RetryRows(k: Key, es: seq<Event>) returns (rows: seq<Event>)
    ensures rows == RetryEvents(k, es)
  {
    rows := [];
    for i := 0 to |es|
      invariant rows == RetryEvents(k, es[..i])
    {
      assert es[..i + 1][..i] == es[..i];
      var e := es[i];
      if e.subject == k.subject && e.role == k.role {
        if e.kind == SpawnDone { rows := []; }
        else if e.kind == InfraFailure && e.admitted { rows := rows + [e]; }
      }
    }
    assert es[..|es|] == es;
  }

  method HoldOf(k: Key, es: seq<Event>) returns (hold: Option<Event>)
    ensures hold == MachineHold(k, es)
  {
    hold := None;
    for i := 0 to |es|
      invariant hold == MachineHold(k, es[..i])
    {
      assert es[..i + 1][..i] == es[..i];
      var e := es[i];
      if e.subject == k.subject {
        if e.kind == Decision || e.kind == Unblocked || (e.kind == SpawnDone && e.role == k.role) { hold := None; }
        else if e.kind.Escalation? && e.role == k.role && e.kind.reason != OtherReason { hold := Some(e); }
      }
    }
    assert es[..|es|] == es;
  }

  method AskGate(k: Key, es: seq<Event>, now: int) returns (g: Gate)
    ensures g == GateAt(k, es, now)
  {
    var hold := HoldOf(k, es);
    if hold.Some? { return Hold; }
    var rows := RetryRows(k, es);
    if rows == [] { return Run; }
    if |rows| > |DELAYS| || rows[|rows| - 1].ts.None? { return Hold; }
    var allowed := rows[|rows| - 1].ts.value + DELAYS[|rows| - 1];
    g := if now < allowed then Wait else Run;
  }

  class Dispatcher {
    const key: Key
    var events: seq<Event>

    constructor (key: Key)
      ensures this.key == key && events == []
    { this.key, this.events := key, []; }

    method Emit(kind: Kind, ts: int)
      modifies this
      ensures events == old(events) + [Event(key.subject, key.role, kind, Some(ts), true)]
    { events := events + [Event(key.subject, key.role, kind, Some(ts), true)]; }

    /** The inner function `machine_failure`: false when the failure is the work's own. */
    method MachineFailure(end: Outcome, ts: int) returns (held: bool)
      requires end != Done
      modifies this
      ensures held <==> end != Work
      ensures events == if held then old(events) + [Written(key, old(events), end, ts)] else old(events)
    {
      if end == Work { return false; }
      if end == Infra {
        var rows := RetryRows(key, events);
        if |rows| < |DELAYS| { Emit(InfraFailure, ts); } else { Emit(Escalation(InfraExhausted), ts); }
      } else {
        Emit(Escalation(FailureUnknown), ts);
      }
      held := true;
    }

    /** One dispatch: the gate first, then the spawn and what becomes of it. */
    method Dispatch(now: int, end: Outcome, ts: int)
      modifies this
      ensures events == Step(key, old(events), Attempt(now, end, ts))
    {
      var g := AskGate(key, events, now);
      if g != Run { return; }
      if end == Done { Emit(SpawnDone, ts); return; }
      var held := MachineFailure(end, ts);
      if !held { Emit(OtherEvent, ts); }
    }
  }
}
