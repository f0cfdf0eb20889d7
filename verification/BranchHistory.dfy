/** Where the tips a process moves between, and the commits that tags name, come from (src/branch_refresh.py). */
module BranchHistory {
  import opened Seqs
  import opened BranchMoves

  // ---------------------------------------------------------------- what can have happened

  /** What a step of a process's own establishes. */
  datatype Happening =
    | DidRead(before: Oid, base: Oid)                     // the branch and main were there, the lock its own
    | DidBuild(after: Oid)                                // its commit exists
    | DidRecheck(phase: Phase, before: Oid, base: Oid)    // they still were there
    | GateSaid(failed: bool)                              // the gate's answer
    | DidSettle(before: Oid, after: Oid)                  // its commit was still the branch's, nothing in the way

  /** Under the lock the process finds the branch and main at these. */
  predicate Finds(w: World, pid: Pid, before: Oid, base: Oid) { w.lock == Some(pid) && w.branch == before && w.main == base }

  predicate Happens(limit: nat, w: World, a: Action, pid: Pid, h: Happening) {
    match h
    case DidRead(before, base) =>
      a == Read(pid, true) && At(w, pid, Entered) && Finds(w, pid, before, base) && Count(w.attempts, w.procs[pid].day) < limit
    case DidBuild(after) => a == Build(pid, true, after) && At(w, pid, Working)
    case DidRecheck(ph, before, base) => a == Recheck(pid, true) && At(w, pid, ph) && Finds(w, pid, before, base)
    case GateSaid(failed) => a == Gate(pid, failed) && (At(w, pid, Gating) || (failed && At(w, pid, Adopted)))
    case DidSettle(before, after) =>
      a == Settle(pid, true) && At(w, pid, Back(true)) && w.lock == Some(pid) && w.branch == after && w.procs[pid].before == before
  }

  ghost predicate HappenedIn(limit: nat, start: World, run: seq<Action>, pid: Pid, h: Happening) {
    exists k | 0 <= k < |run| :: Happens(limit, Run(limit, start, run[..k]), run[k], pid, h)
  }

  predicate HasRead(ph: Phase) { !ph.Outside? && !ph.Entered? && !ph.Finished? }

  predicate HasBuilt(ph: Phase) { HasRead(ph) && !ph.Counted? && !ph.Working? }

  predicate HasChecked(ph: Phase) { HasBuilt(ph) && !ph.Built? }

  predicate HasRechecked(ph: Phase) { HasChecked(ph) && !ph.Checked? && !ph.Tagged? }

  predicate Failed(ph: Phase) { (ph.Relocking? || ph.Back?) && ph.failed }

  predicate Passed(ph: Phase) { (ph.Relocking? || ph.Back?) && !ph.failed }

  /** What must have happened for the process to be where it is, or for the branch to have been moved by it. */
  predicate Owes(w: World, pid: Pid, h: Happening) {
    pid in w.procs &&
    var p := w.procs[pid];
    match h
    case DidRead(before, base) => (HasRead(p.phase) || Advanced(w.moves, pid)) && before == p.before && base == p.base
    case DidBuild(after) => (HasBuilt(p.phase) || Advanced(w.moves, pid)) && after == p.after
    case DidRecheck(ph, before, base) =>
      && before == p.before && base == p.base
      && (if ph == Built then HasChecked(p.phase) || Advanced(w.moves, pid)
          else ph == Tagged && p.kind == Recut && (HasRechecked(p.phase) || Advanced(w.moves, pid)))
    case GateSaid(failed) => if failed then Failed(p.phase) || Reverted(w.moves, pid) else Passed(p.phase)
    case DidSettle(before, after) => Reverted(w.moves, pid) && before == p.before && after == p.after
  }

  // ---------------------------------------------------------------- one step

  predicate Adopts(w: World, a: Action, pid: Pid) {
    a == Adopt(pid) && pid in w.procs &&
    (w.procs[pid].phase == Ready || (w.procs[pid].phase == Checked && w.procs[pid].kind == Refresh))
  }

  predicate Settles(w: World, a: Action, pid: Pid) {
    a == Settle(pid, true) && At(w, pid, Back(true)) && w.branch == w.procs[pid].after
  }

  /** Only `AdoptStep` moves a branch forward, and only `SettleStep`, after a failed gate, back. */
  lemma StepMoves(limit: nat, w: World, a: Action, pid: Pid)
    ensures var now := Next(limit, w, a);
      now.moves == w.moves || exists m ::
        now.moves == w.moves + [m] && (By(m, pid, true) ==> Adopts(w, a, pid)) && (By(m, pid, false) ==> Settles(w, a, pid))
  {
    hide Named, Count;
    var now := Next(limit, w, a);
    if now.moves != w.moves {
      assert now.moves == w.moves + [now.moves[|w.moves|]];
    }
  }

  lemma StepAdvances(limit: nat, w: World, a: Action, pid: Pid)
    ensures Advanced(Next(limit, w, a).moves, pid) && !Advanced(w.moves, pid) ==> Adopts(w, a, pid)
    ensures Reverted(Next(limit, w, a).moves, pid) && !Reverted(w.moves, pid) ==> Settles(w, a, pid)
  {
    StepMoves(limit, w, a, pid);
    hide Next, Adopts, Settles;
    var now := Next(limit, w, a);
    if Advanced(now.moves, pid) && !Advanced(w.moves, pid) {
      var i :| 0 <= i < |now.moves| && By(now.moves[i], pid, true);
      assert i == |w.moves|;
    }
    if Reverted(now.moves, pid) && !Reverted(w.moves, pid) {
      var i :| 0 <= i < |now.moves| && By(now.moves[i], pid, false);
      assert i == |w.moves|;
    }
  }

  predicate Locked(w: World, pid: Pid) { pid in w.procs && Holds(w.procs[pid].phase) ==> w.lock == Some(pid) }

  lemma StepRead(limit: nat, w: World, a: Action, pid: Pid)
    requires pid in Next(limit, w, a).procs && Locked(w, pid)
    ensures var p := Next(limit, w, a).procs[pid];
      || (pid in w.procs && p.before == w.procs[pid].before && p.base == w.procs[pid].base
          && (HasRead(p.phase) ==> HasRead(w.procs[pid].phase)))
      || (pid in w.procs && w.procs[pid].phase == Entered && Happens(limit, w, a, pid, DidRead(p.before, p.base)))
      || (pid !in w.procs && p.phase == Outside)
  { hide Named, Count; }

  lemma StepBuilt(limit: nat, w: World, a: Action, pid: Pid)
    requires pid in Next(limit, w, a).procs
    ensures var p := Next(limit, w, a).procs[pid];
      || (pid in w.procs && p.after == w.procs[pid].after && (HasBuilt(p.phase) ==> HasBuilt(w.procs[pid].phase)))
      || (pid in w.procs && w.procs[pid].phase == Working && Happens(limit, w, a, pid, DidBuild(p.after)))
      || (pid !in w.procs && p.phase == Outside)
  { hide Count, Named; }

  lemma StepChecked(limit: nat, w: World, a: Action, pid: Pid)
    requires pid in Next(limit, w, a).procs && HasChecked(Next(limit, w, a).procs[pid].phase) && Locked(w, pid)
    ensures var p := Next(limit, w, a).procs[pid];
      pid in w.procs && (HasChecked(w.procs[pid].phase) || Happens(limit, w, a, pid, DidRecheck(Built, p.before, p.base)))
  { hide Count, Named; }

  lemma StepRechecked(limit: nat, w: World, a: Action, pid: Pid)
    requires pid in Next(limit, w, a).procs && Locked(w, pid)
    requires var p := Next(limit, w, a).procs[pid]; HasRechecked(p.phase) && p.kind == Recut
    ensures var p := Next(limit, w, a).procs[pid];
      pid in w.procs && (HasRechecked(w.procs[pid].phase) || Happens(limit, w, a, pid, DidRecheck(Tagged, p.before, p.base)))
  { hide Count, Named; }

  lemma StepKind(limit: nat, w: World, a: Action, pid: Pid)
    ensures pid in w.procs ==> pid in Next(limit, w, a).procs && Next(limit, w, a).procs[pid].kind == w.procs[pid].kind
  { hide Count, Named; }

  lemma StepGated(limit: nat, w: World, a: Action, pid: Pid)
    requires pid in Next(limit, w, a).procs
    ensures var p := Next(limit, w, a).procs[pid];
      && (Failed(p.phase) ==> (pid in w.procs && Failed(w.procs[pid].phase)) || Happens(limit, w, a, pid, GateSaid(true)))
      && (Passed(p.phase) ==> (pid in w.procs && Passed(w.procs[pid].phase)) || Happens(limit, w, a, pid, GateSaid(false)))
  { hide Count, Named; }

  // ---------------------------------------------------------------- whole runs

  lemma HappenedPush(limit: nat, start: World, run: seq<Action>, a: Action, pid: Pid, h: Happening)
    requires HappenedIn(limit, start, run, pid, h) || Happens(limit, Run(limit, start, run), a, pid, h)
    ensures HappenedIn(limit, start, run + [a], pid, h)
  {
    hide Run, Happens;
    if HappenedIn(limit, start, run, pid, h) {
      var k :| 0 <= k < |run| && Happens(limit, Run(limit, start, run[..k]), run[k], pid, h);
      assert (run + [a])[..k] == run[..k] && (run + [a])[k] == run[k];
    } else {
      assert (run + [a])[..|run|] == run && (run + [a])[|run|] == a;
    }
  }

  lemma AdvancedIs(limit: nat, branch: Oid, w: World, pid: Pid)
    requires Sound(limit, branch, w)
    ensures Advanced(w.moves, pid) || Reverted(w.moves, pid) ==> pid in w.procs && !Unmoved(w.procs[pid].phase)
    ensures Locked(w, pid)
  {
    if i :| 0 <= i < |w.moves| && (By(w.moves[i], pid, true) || By(w.moves[i], pid, false)) { assert MoveOk(w, w.moves[i]); }
    if pid in w.procs { LocalOf(limit, branch, w, pid); }
    hide MoveOk, Named, HasAttempt, Count;
  }

  lemma OwesRead(limit: nat, branch: Oid, w: World, a: Action, pid: Pid, h: Happening)
    requires Sound(limit, branch, w) && Sound(limit, branch, Next(limit, w, a)) && Owes(Next(limit, w, a), pid, h) && h.DidRead?
    ensures Owes(w, pid, h) || Happens(limit, w, a, pid, h)
  {
    hide Sound, Next, Advanced, Reverted;
    AdvancedIs(limit, branch, w, pid);
    AdvancedIs(limit, branch, Next(limit, w, a), pid);
    StepAdvances(limit, w, a, pid);
    StepRead(limit, w, a, pid);
  }

  lemma OwesBuild(limit: nat, branch: Oid, w: World, a: Action, pid: Pid, h: Happening)
    requires Sound(limit, branch, w) && Sound(limit, branch, Next(limit, w, a)) && Owes(Next(limit, w, a), pid, h) && h.DidBuild?
    ensures Owes(w, pid, h) || Happens(limit, w, a, pid, h)
  {
    hide Sound, Next, Advanced, Reverted;
    AdvancedIs(limit, branch, w, pid);
    AdvancedIs(limit, branch, Next(limit, w, a), pid);
    StepAdvances(limit, w, a, pid);
    StepBuilt(limit, w, a, pid);
  }

  lemma OwesRecheck(limit: nat, branch: Oid, w: World, a: Action, pid: Pid, h: Happening)
    requires Sound(limit, branch, w) && Sound(limit, branch, Next(limit, w, a)) && Owes(Next(limit, w, a), pid, h) && h.DidRecheck?
    ensures Owes(w, pid, h) || Happens(limit, w, a, pid, h)
  {
    hide Sound, Next, Advanced, Reverted;
    AdvancedIs(limit, branch, w, pid);
    AdvancedIs(limit, branch, Next(limit, w, a), pid);
    StepAdvances(limit, w, a, pid);
    StepRead(limit, w, a, pid);
    StepKind(limit, w, a, pid);
    var now := Next(limit, w, a).procs[pid];
    if HasChecked(now.phase) { StepChecked(limit, w, a, pid); }
    if HasRechecked(now.phase) && now.kind == Recut { StepRechecked(limit, w, a, pid); }
  }

  lemma OwesGate(limit: nat, branch: Oid, w: World, a: Action, pid: Pid, h: Happening)
    requires Sound(limit, branch, w) && Sound(limit, branch, Next(limit, w, a)) && Owes(Next(limit, w, a), pid, h) && h.GateSaid?
    ensures Owes(w, pid, h) || Happens(limit, w, a, pid, h)
  {
    hide Sound, Next, Advanced, Reverted;
    AdvancedIs(limit, branch, w, pid);
    AdvancedIs(limit, branch, Next(limit, w, a), pid);
    StepAdvances(limit, w, a, pid);
    StepGated(limit, w, a, pid);
  }

  lemma OwesSettle(limit: nat, branch: Oid, w: World, a: Action, pid: Pid, h: Happening)
    requires Sound(limit, branch, w) && Sound(limit, branch, Next(limit, w, a)) && Owes(Next(limit, w, a), pid, h) && h.DidSettle?
    ensures Owes(w, pid, h) || Happens(limit, w, a, pid, h)
  {
    hide Sound, Next, Advanced, Reverted;
    AdvancedIs(limit, branch, w, pid);
    AdvancedIs(limit, branch, Next(limit, w, a), pid);
    StepAdvances(limit, w, a, pid);
    StepRead(limit, w, a, pid);
    StepBuilt(limit, w, a, pid);
  }

  /** What a step makes the process owe it has just done. */
  lemma StepOwes(limit: nat, branch: Oid, w: World, a: Action, pid: Pid, h: Happening)
    requires Sound(limit, branch, w) && Sound(limit, branch, Next(limit, w, a)) && Owes(Next(limit, w, a), pid, h)
    ensures Owes(w, pid, h) || Happens(limit, w, a, pid, h)
  {
    hide Sound, Next, Owes, Happens;
    match h
    case DidRead(_, _) => OwesRead(limit, branch, w, a, pid, h);
    case DidBuild(_) => OwesBuild(limit, branch, w, a, pid, h);
    case DidRecheck(_, _, _) => OwesRecheck(limit, branch, w, a, pid, h);
    case GateSaid(_) => OwesGate(limit, branch, w, a, pid, h);
    case DidSettle(_, _) => OwesSettle(limit, branch, w, a, pid, h);
  }

  /** Everything that a process owes has happened: it read the tip and main under the lock, built its commit, found
      both unchanged when it checked, once or, a recut, twice; and moved back only over a failed gate. */
  lemma {:induction false} RunAccounted(
    limit: nat, branch: Oid, main: Oid, tags: map<nat, Oid>, run: seq<Action>, pid: Pid, h: Happening)
    requires Owes(Run(limit, Initial(branch, main, tags), run), pid, h)
    ensures HappenedIn(limit, Initial(branch, main, tags), run, pid, h)
  {
    if run != [] {
      var start, n := Initial(branch, main, tags), |run| - 1;
      var w := Run(limit, start, run[..n]);
      RunKeeps(limit, branch, main, tags, run[..n]);
      RunKeeps(limit, branch, main, tags, run);
      assert run[..n] + [run[n]] == run;
      assert Run(limit, start, run) == Next(limit, w, run[n]);
      hide Sound, Next, Run, Owes, Happens;
      StepOwes(limit, branch, w, run[n], pid, h);
      if Owes(w, pid, h) { RunAccounted(limit, branch, main, tags, run[..n], pid, h); }
      HappenedPush(limit, start, run[..n], run[n], pid, h);
    }
  }

  // ---------------------------------------------------------------- a passed gate

  /** The gate has answered and the branch has not been moved back. */
  predicate Stands(w: World, pid: Pid) {
    pid in w.procs && (Passed(w.procs[pid].phase) || w.procs[pid].phase == Finished) && !Reverted(w.moves, pid)
  }

  lemma StepStands(limit: nat, w: World, a: Action, pid: Pid)
    requires Stands(w, pid)
    ensures Stands(Next(limit, w, a), pid)
  {
    StepAdvances(limit, w, a, pid);
    hide Reverted, Advanced, Count, Named;
  }

  lemma PassStands(limit: nat, branch: Oid, w: World, a: Action, pid: Pid)
    requires Sound(limit, branch, w) && Happens(limit, w, a, pid, GateSaid(false))
    ensures Stands(Next(limit, w, a), pid)
  {
    LocalOf(limit, branch, w, pid);
    StepAdvances(limit, w, a, pid);
    hide Reverted, Advanced, Count, Named, Sound, HasAttempt;
  }

  /** A process whose gate has passed never moves the branch back. */
  lemma {:induction false} PassedStands(limit: nat, branch: Oid, main: Oid, tags: map<nat, Oid>, run: seq<Action>, pid: Pid)
    requires HappenedIn(limit, Initial(branch, main, tags), run, pid, GateSaid(false))
    ensures Stands(Run(limit, Initial(branch, main, tags), run), pid)
  {
    var start, n := Initial(branch, main, tags), |run| - 1;
    var k :| 0 <= k < |run| && Happens(limit, Run(limit, start, run[..k]), run[k], pid, GateSaid(false));
    RunKeeps(limit, branch, main, tags, run[..n]);
    hide Sound, Next, Happens, Stands;
    if k == n { PassStands(limit, branch, Run(limit, start, run[..n]), run[n], pid); }
    else {
      assert run[..n][..k] == run[..k] && run[..n][k] == run[k];
      PassedStands(limit, branch, main, tags, run[..n], pid);
      StepStands(limit, Run(limit, start, run[..n]), run[n], pid);
    }
  }

  // ---------------------------------------------------------------- names

  /** In this step someone gives the commit a name: anyone, or a recut its tag to the tip it read. */
  predicate Names(w: World, a: Action, oid: Oid) {
    match a
    case AddTag(name, named) => name !in w.tags && named == oid
    case Tag(pid, name) => At(w, pid, Checked) && w.procs[pid].kind == Recut && name !in w.tags && w.procs[pid].before == oid
    case _ => false
  }

  ghost predicate NamedIn(limit: nat, start: World, run: seq<Action>, oid: Oid) {
    exists k | 0 <= k < |run| :: Names(Run(limit, start, run[..k]), run[k], oid)
  }

  lemma AddedName(tags: map<nat, Oid>, name: nat, value: Oid, oid: Oid)
    requires name !in tags
    ensures Named(tags[name := value], oid) <==> Named(tags, oid) || value == oid
  {
    var now := tags[name := value];
    if Named(tags, oid) { var k :| k in tags && tags[k] == oid; assert now[k] == oid; }
    if value == oid { assert now[name] == oid; }
  }

  lemma TagsKept(limit: nat, w: World, a: Action)
    requires !a.AddTag? && !a.Tag?
    ensures Next(limit, w, a).tags == w.tags
  { hide Count; }

  lemma StepNames(limit: nat, w: World, a: Action, oid: Oid)
    ensures Named(Next(limit, w, a).tags, oid) <==> Named(w.tags, oid) || Names(w, a, oid)
  {
    hide Named, Count;
    match a
    case AddTag(name, named) => if name !in w.tags { AddedName(w.tags, name, named, oid); }
    case Tag(pid, name) => if At(w, pid, Checked) && name !in w.tags { AddedName(w.tags, name, w.procs[pid].before, oid); }
    case _ => TagsKept(limit, w, a); hide Next;
  }

  lemma NamedPush(limit: nat, start: World, run: seq<Action>, a: Action, oid: Oid)
    ensures NamedIn(limit, start, run + [a], oid) <==> NamedIn(limit, start, run, oid) || Names(Run(limit, start, run), a, oid)
  {
    hide Run, Names;
    var now := run + [a];
    forall k | 0 <= k < |run| ensures now[..k] == run[..k] && now[k] == run[k] {}
    assert now[..|run|] == run && now[|run|] == a;
    if NamedIn(limit, start, run, oid) {
      var k :| 0 <= k < |run| && Names(Run(limit, start, run[..k]), run[k], oid);
      assert Names(Run(limit, start, now[..k]), now[k], oid);
    }
    if NamedIn(limit, start, now, oid) {
      var k :| 0 <= k < |now| && Names(Run(limit, start, now[..k]), now[k], oid);
      assert k < |run| ==> Names(Run(limit, start, run[..k]), run[k], oid);
    }
  }

  /** A commit has a tag exactly when it had one, or a step of the run gave it one. */
  lemma {:induction false} TagsAccounted(limit: nat, start: World, run: seq<Action>, oid: Oid)
    ensures Named(Run(limit, start, run).tags, oid) <==> Named(start.tags, oid) || NamedIn(limit, start, run, oid)
  {
    hide Named, Names, Next;
    if run != [] {
      var n := |run| - 1;
      TagsAccounted(limit, start, run[..n], oid);
      StepNames(limit, Run(limit, start, run[..n]), run[n], oid);
      NamedPush(limit, start, run[..n], run[n], oid);
      assert run[..n] + [run[n]] == run;
    }
  }

  // ---------------------------------------------------------------- what a process has read stays

  predicate Fixed(w: World, pid: Pid) {
    pid in w.procs && !w.procs[pid].phase.Outside? && !w.procs[pid].phase.Entered?
  }

  lemma StepFixed(limit: nat, w: World, a: Action, pid: Pid)
    requires Fixed(w, pid)
    ensures var now := Next(limit, w, a); Fixed(now, pid) && now.procs[pid].before == w.procs[pid].before
  { hide Count, Named; }

  lemma {:induction false} RunFixed(limit: nat, start: World, run: seq<Action>, k: nat, pid: Pid)
    requires k <= |run| && Fixed(Run(limit, start, run[..k]), pid)
    ensures var w := Run(limit, start, run); Fixed(w, pid) && w.procs[pid].before == Run(limit, start, run[..k]).procs[pid].before
  {
    hide Fixed, Next;
    if k == |run| { assert run[..k] == run; }
    else {
      var n := |run| - 1;
      assert run[..n][..k] == run[..k];
      RunFixed(limit, start, run[..n], k, pid);
      StepFixed(limit, Run(limit, start, run[..n]), run[n], pid);
    }
  }

  /** A recut's own tag names the tip it read. */
  lemma OwnTag(limit: nat, start: World, run: seq<Action>, k: nat, oid: Oid)
    requires k < |run| && run[k].Tag? && Names(Run(limit, start, run[..k]), run[k], oid)
    ensures var w := Run(limit, start, run); run[k].pid in w.procs && w.procs[run[k].pid].before == oid
  { RunFixed(limit, start, run, k, run[k].pid); }
}
