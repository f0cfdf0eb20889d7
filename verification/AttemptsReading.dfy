/** What an attempt's events are read to say (`_role`, `_reason`, `_refusal`, src/attempts.py). */
module AttemptsReading {
  import opened Seqs
  import opened Attempts

  /** The role an event names, or its spawn id does when the event names none. */
  predicate SaysRole(e: Event, role: Role) {
    e.role == Some(role) || (e.role.None? && e.spawn.Numbered? && e.spawn.role == role)
  }

  /** An event is of a role when it says so, and a build's start is of the builder when nothing says otherwise. */
  lemma RoleExactly(e: Event, role: Role)
    ensures RoleOf(e) == Some(role) <==>
      SaysRole(e, role) || (role == Builder && e.kind == BuildStarted && forall other :: !SaysRole(e, other))
  {
    assert e.role.Some? ==> SaysRole(e, e.role.value);
    assert e.role.None? && e.spawn.Numbered? ==> SaysRole(e, e.spawn.role);
  }

  /** The text that gives the reason: `reason`, or `why` when that is missing. */
  predicate Gives(e: Event, text: Text) {
    text != NoText && (e.reason == text || (e.reason == NoText && e.why == text))
  }

  /** Such a text turns an attempt away. The lock is no excuse for a grader, unless `why` says that another dispatch
      holds it. */
  predicate TurnsAway(form: Form, grader: bool, locked: bool) {
    match form
    case BundlePending => true
    case DuplicateDispatch => true
    case WaveOrder => true
    case DispatchInProgress => grader ==> locked
    case BranchRefreshed => true
    case StaleBase => true
    case BranchNotDescendant => true
    case PinnedBaseMismatch => true
    case Different => false
  }

  /** A failed spawn is a refusal, and uses no attempt, exactly when its reason turns it away. */
  lemma RefusalExactly(e: Event)
    ensures Refusal(e) <==>
      && e.kind == SpawnFailed
      && exists text :: Gives(e, text) && TurnsAway(text.form, SaysRole(e, Grader), e.why != NoText && e.why.mentionsLock)
  {
    RoleExactly(e, Grader);
    hide RoleOf;
    if e.kind == SpawnFailed {
      if e.reason != NoText { assert Gives(e, e.reason); } else if e.why != NoText { assert Gives(e, e.why); }
    }
  }
}
