/** Which events the machine-failure gate heeds, and how long it holds and waits (`infra_gate`, src/dispatch.py). */
module InfraLaws {
  import opened Seqs
  import opened InfraGate

  // ---------------------------------------------------------------- what it heeds

  /** A decision or an unblock on the subject; and of the role's own events its success, an admitted machine failure,
      and an escalation that a failure is unknown or the ladder exhausted. */
  predicate Heeded(k: Key, e: Event) {
    e.subject == k.subject &&
    (|| e.kind == Decision || e.kind == Unblocked
     || (e.role == k.role &&
         (|| e.kind == SpawnDone || (e.kind == InfraFailure && e.admitted)
          || e.kind == Escalation(FailureUnknown) || e.kind == Escalation(InfraExhausted))))
  }

  lemma {:induction false} FoldsIgnore(k: Key, es: seq<Event>, e: Event, later: seq<Event>)
    requires !Heeded(k, e)
    ensures RetryEvents(k, es + [e] + later) == RetryEvents(k, es + later)
    ensures MachineHold(k, es + [e] + later) == MachineHold(k, es + later)
  {
    if later == [] {
      assert es + [e] + later == es + [e] && es + later == es;
      Push(k, es, e);
    } else {
      var init, l := later[..|later| - 1], later[|later| - 1];
      assert es + [e] + later == es + [e] + init + [l] && es + later == es + init + [l];
      FoldsIgnore(k, es, e, init);
      Push(k, es + [e] + init, l);
      Push(k, es + init, l);
    }
    hide RetryEvents, MachineHold;
  }

  /** Any other event, wherever it stands in the ledger, is without effect on the gate. */
  lemma GateIgnores(k: Key, es: seq<Event>, e: Event, later: seq<Event>, now: int)
    requires !Heeded(k, e)
    ensures GateAt(k, es + [e] + later, now) == GateAt(k, es + later, now)
  {
    FoldsIgnore(k, es, e, later);
    hide RetryEvents, MachineHold;
  }

  // ---------------------------------------------------------------- how long it holds

  predicate Frees(k: Key, e: Event) {
    e.subject == k.subject && (e.kind == Decision || e.kind == Unblocked || (e.role == k.role && e.kind == SpawnDone))
  }

  predicate Stops(k: Key, e: Event) {
    e.subject == k.subject && e.role == k.role && (e.kind == Escalation(FailureUnknown) || e.kind == Escalation(InfraExhausted))
  }

  lemma {:induction false} HeldThrough(k: Key, es: seq<Event>, e: Event, later: seq<Event>)
    requires Stops(k, e) && forall i | 0 <= i < |later| :: !Frees(k, later[i])
    ensures MachineHold(k, es + [e] + later).Some?
  {
    if later == [] {
      assert es + [e] + later == es + [e];
      Push(k, es, e);
    } else {
      var init, l := later[..|later| - 1], later[|later| - 1];
      assert es + [e] + later == es + [e] + init + [l];
      HeldThrough(k, es, e, init);
      Push(k, es + [e] + init, l);
    }
  }

  /** An unknown failure, or an exhausted ladder, holds the role until a decision or an unblock on the subject or a
      success of the role. */
  lemma StopHolds(k: Key, es: seq<Event>, e: Event, later: seq<Event>, now: int)
    requires Stops(k, e) && forall i | 0 <= i < |later| :: !Frees(k, later[i])
    ensures GateAt(k, es + [e] + later, now) == Hold
  { HeldThrough(k, es, e, later); }

  lemma {:induction false} LedgerExtends(k: Key, run: seq<Action>, i: nat)
    requires i <= |run|
    ensures Ledger(k, run[..i]) <= Ledger(k, run)
  {
    if i == |run| { assert run[..i] == run; }
    else {
      assert run[..|run| - 1][..i] == run[..i];
      LedgerExtends(k, run[..|run| - 1], i);
    }
  }

  /** No attempt is let through after one that failed for an unknown reason, until something frees the role. */
  lemma NoAttemptWhileUnknown(k: Key, run: seq<Action>, i: nat, j: nat)
    requires i < j < |run| && run[i].Attempt? && run[i].end == Unknown && GateAt(k, Ledger(k, run[..i]), run[i].now) == InfraGate.Run
    requires run[j].Attempt? && GateAt(k, Ledger(k, run[..j]), run[j].now) == InfraGate.Run
    ensures exists n | |Ledger(k, run[..i])| < n < |Ledger(k, run[..j])| :: Frees(k, Ledger(k, run[..j])[n])
  {
    var es, all := Ledger(k, run[..i]), Ledger(k, run[..j]);
    var e := Written(k, es, Unknown, run[i].ts);
    assert run[..i + 1][..i] == run[..i];
    assert Ledger(k, run[..i + 1]) == es + [e];
    assert run[..j][..i + 1] == run[..i + 1];
    LedgerExtends(k, run[..j], i + 1);
    var later := all[|es| + 1..];
    assert all == es + [e] + later;
    hide Ledger, GateAt, Written;
    if forall n | 0 <= n < |later| :: !Frees(k, later[n]) { StopHolds(k, es, e, later, run[j].now); }
    else {
      var n :| 0 <= n < |later| && Frees(k, later[n]);
      assert later[n] == all[|es| + 1 + n];
    }
  }

  // ---------------------------------------------------------------- how long it waits

  /** With no hold: five minutes after the only failure, fifteen after the second, forty-five after the third, two
      hours after the fourth, to the second; never after a fifth, nor after one whose time cannot be read. */
  lemma WaitsExactly(k: Key, es: seq<Event>, now: int)
    requires MachineHold(k, es).None?
    ensures var rows := RetryEvents(k, es); var n := |rows|;
      GateAt(k, es, now) == InfraGate.Run <==>
        n == 0 || (n <= 4 && rows[n - 1].ts.Some? && var t := rows[n - 1].ts.value;
                   now >= t + (if n == 1 then 300 else if n == 2 then 900 else if n == 3 then 2700 else 7200))
  {}

  /** What an attempt that was let through leaves behind: a success frees the way; a failure of the work changes
      nothing; an unknown one holds; a machine failure counts from its end, and a fifth in a row holds. */
  lemma AttemptLeaves(k: Key, es: seq<Event>, now: int, end: Outcome, ts: int, asked: int)
    requires GateAt(k, es, now) == InfraGate.Run
    ensures var n, gate := |RetryEvents(k, es)|, GateAt(k, Step(k, es, Attempt(now, end, ts)), asked);
      match end
      case Done => gate == InfraGate.Run
      case Work => gate == GateAt(k, es, asked)
      case Unknown => gate == Hold
      case Infra =>
        if n >= 4 then gate == Hold
        else gate == InfraGate.Run <==> asked >= ts + if n == 0 then 300 else if n == 1 then 900 else if n == 2 then 2700 else 7200
  {
    Push(k, es, Written(k, es, end, ts));
    hide RetryEvents, MachineHold;
  }
}
