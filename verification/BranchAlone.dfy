/** What a refresh or a recut comes to when nobody disturbs it (`refresh`, `recut`, src/branch_refresh.py). */
module BranchAlone {
  // The laws over all runs say what no step may do; these say that the steps do get there, from any world.

  import opened Seqs
  import opened BranchMoves

  /** The world with the process as far as `p`, holding the lock where its phase does. */
  function Solo(w: World, pid: Pid, p: Proc): World {
    w.(procs := w.procs[pid := p], lock := if Holds(p.phase) then Some(pid) else None)
  }

  function Reserved(w: World, pid: Pid, day: Day): World { w.(attempts := w.attempts + [Attempt(day, pid)]) }

  function Forward(w: World, pid: Pid, after: Oid): World {
    w.(branch := after, moves := w.moves + [Moved(pid, true, w.branch, w.branch, after)])
  }

  function Backward(w: World, pid: Pid, before: Oid): World {
    w.(branch := before, moves := w.moves + [Moved(pid, false, w.branch, w.branch, before)])
  }

  lemma Enters(limit: nat, w: World, pid: Pid, kind: Kind, day: Day)
    requires pid !in w.procs && w.lock.None?
    ensures Next(limit, w, Arrive(pid, kind, day)) == Solo(w, pid, Proc(kind, day, Outside, 0, 0, 0))
    ensures Next(limit, Solo(w, pid, Proc(kind, day, Outside, 0, 0, 0)), Take(pid)) == Solo(w, pid, Proc(kind, day, Entered, 0, 0, 0))
  {}

  lemma Reads(limit: nat, w: World, pid: Pid, kind: Kind, day: Day)
    requires Count(w.attempts, day) < limit
    ensures Next(limit, Solo(w, pid, Proc(kind, day, Entered, 0, 0, 0)), Read(pid, true))
         == Solo(w, pid, Proc(kind, day, Counted, w.branch, w.main, 0))
    ensures Next(limit, Solo(w, pid, Proc(kind, day, Counted, w.branch, w.main, 0)), Reserve(pid))
         == Solo(Reserved(w, pid, day), pid, Proc(kind, day, Working, w.branch, w.main, 0))
  {}

  lemma Builds(limit: nat, w: World, pid: Pid, kind: Kind, day: Day, after: Oid)
    ensures Next(limit, Solo(w, pid, Proc(kind, day, Working, w.branch, w.main, 0)), Build(pid, true, after))
         == Solo(w, pid, Proc(kind, day, Built, w.branch, w.main, after))
    ensures Next(limit, Solo(w, pid, Proc(kind, day, Built, w.branch, w.main, after)), Recheck(pid, true))
         == Solo(w, pid, Proc(kind, day, Checked, w.branch, w.main, after))
  {}

  lemma Adopts(limit: nat, w: World, pid: Pid, p: Proc)
    requires p.before == w.branch && (p.phase == Ready || (p.phase == Checked && p.kind == Refresh))
    ensures Next(limit, Solo(w, pid, p), Adopt(pid)) == Solo(Forward(w, pid, p.after), pid, p.(phase := Adopted))
    ensures Next(limit, Solo(Forward(w, pid, p.after), pid, p.(phase := Adopted)), Release(pid))
         == Solo(Forward(w, pid, p.after), pid, p.(phase := Gating))
  {}

  lemma Tags(limit: nat, w: World, pid: Pid, p: Proc, name: nat)
    requires p.phase == Checked && p.kind == Recut && p.before == w.branch && p.base == w.main && name !in w.tags
    ensures Next(limit, Solo(w, pid, p), Tag(pid, name))
         == Solo(w.(tags := w.tags[name := w.branch]), pid, p.(phase := Tagged))
    ensures Next(limit, Solo(w.(tags := w.tags[name := w.branch]), pid, p.(phase := Tagged)), Recheck(pid, true))
         == Solo(w.(tags := w.tags[name := w.branch]), pid, p.(phase := Ready))
  {}

  lemma Gates(limit: nat, w: World, pid: Pid, p: Proc, failed: bool)
    requires p.phase == Gating
    ensures Next(limit, Solo(w, pid, p), Gate(pid, failed))
         == Solo(w, pid, p.(phase := if p.kind == Refresh then Finished else Relocking(failed)))
  {}

  lemma Retakes(limit: nat, w: World, pid: Pid, p: Proc, failed: bool)
    requires p.phase == Relocking(failed)
    ensures Next(limit, Solo(w, pid, p), Retake(pid)) == Solo(w, pid, p.(phase := Back(failed)))
  {}

  lemma Settling(limit: nat, w: World, pid: Pid, p: Proc)
    requires p.phase.Back? && p.after == w.branch
    ensures Next(limit, Solo(w, pid, p), Settle(pid, true))
         == Solo(if p.phase.failed then Backward(w, pid, p.before) else w, pid, p.(phase := Finished))
  {}

  lemma RunPush(limit: nat, w: World, run: seq<Action>, a: Action)
    ensures Run(limit, w, run + [a]) == Next(limit, Run(limit, w, run), a)
  { hide Next; assert (run + [a])[..|run|] == run; }

  lemma TwoMore(limit: nat, w: World, run: seq<Action>, a: Action, b: Action)
    ensures Run(limit, w, run + [a, b]) == Next(limit, Next(limit, Run(limit, w, run), a), b)
  {
    hide Next, Run;
    RunPush(limit, w, run, a);
    RunPush(limit, w, run + [a], b);
    assert run + [a, b] == run + [a] + [b];
  }

  /** From its arrival to its checked build. */
  lemma ToChecked(limit: nat, w: World, pid: Pid, kind: Kind, day: Day, after: Oid) returns (run: seq<Action>)
    requires pid !in w.procs && w.lock.None? && Count(w.attempts, day) < limit
    ensures run == [Arrive(pid, kind, day), Take(pid), Read(pid, true), Reserve(pid), Build(pid, true, after), Recheck(pid, true)]
    ensures Run(limit, w, run) == Solo(Reserved(w, pid, day), pid, Proc(kind, day, Checked, w.branch, w.main, after))
  {
    assert Run(limit, w, []) == w;
    hide Next, Solo, Run;
    Enters(limit, w, pid, kind, day);
    Reads(limit, w, pid, kind, day);
    Builds(limit, Reserved(w, pid, day), pid, kind, day, after);
    TwoMore(limit, w, [], Arrive(pid, kind, day), Take(pid));
    run := [Arrive(pid, kind, day), Take(pid)];
    assert [] + run == run;
    TwoMore(limit, w, run, Read(pid, true), Reserve(pid));
    run := run + [Read(pid, true), Reserve(pid)];
    TwoMore(limit, w, run, Build(pid, true, after), Recheck(pid, true));
    run := run + [Build(pid, true, after), Recheck(pid, true)];
  }

  /** From there to its end, a refresh. */
  lemma RefreshEnds(limit: nat, start: World, run: seq<Action>, w: World, pid: Pid, p: Proc, failed: bool)
    requires Run(limit, start, run) == Solo(w, pid, p) && p.phase == Checked && p.kind == Refresh && p.before == w.branch
    ensures Run(limit, start, run + [Adopt(pid), Release(pid)] + [Gate(pid, failed)])
         == Solo(Forward(w, pid, p.after), pid, p.(phase := Finished))
  {
    hide Next, Run, Solo, Forward;
    Adopts(limit, w, pid, p);
    Gates(limit, Forward(w, pid, p.after), pid, p.(phase := Gating), failed);
    TwoMore(limit, start, run, Adopt(pid), Release(pid));
    RunPush(limit, start, run + [Adopt(pid), Release(pid)], Gate(pid, failed));
  }

  /** An undisturbed refresh leaves the branch at its commit, on one attempt, and nothing else changed. */
  lemma RefreshGetsThere(limit: nat, w: World, pid: Pid, day: Day, after: Oid, failed: bool)
    requires pid !in w.procs && w.lock.None? && Count(w.attempts, day) < limit
    ensures Run(limit, w, [Arrive(pid, Refresh, day), Take(pid), Read(pid, true), Reserve(pid), Build(pid, true, after),
                           Recheck(pid, true), Adopt(pid), Release(pid), Gate(pid, failed)])
         == w.(branch := after, attempts := w.attempts + [Attempt(day, pid)],
               procs := w.procs[pid := Proc(Refresh, day, Finished, w.branch, w.main, after)],
               moves := w.moves + [Moved(pid, true, w.branch, w.branch, after)])
  {
    hide Next, Run;
    var run := ToChecked(limit, w, pid, Refresh, day, after);
    RefreshEnds(limit, w, run, Reserved(w, pid, day), pid, Proc(Refresh, day, Checked, w.branch, w.main, after), failed);
    assert run + [Adopt(pid), Release(pid)] + [Gate(pid, failed)] ==
      [Arrive(pid, Refresh, day), Take(pid), Read(pid, true), Reserve(pid), Build(pid, true, after),
       Recheck(pid, true), Adopt(pid), Release(pid), Gate(pid, failed)];
  }

  /** From its checked build to the movement, a recut. */
  lemma RecutMoves(limit: nat, start: World, run: seq<Action>, w: World, pid: Pid, p: Proc, name: nat) returns (more: seq<Action>)
    requires Run(limit, start, run) == Solo(w, pid, p) && p.phase == Checked && p.kind == Recut
    requires p.before == w.branch && p.base == w.main && name !in w.tags
    ensures more == run + [Tag(pid, name), Recheck(pid, true)] + [Adopt(pid), Release(pid)]
    ensures Run(limit, start, more)
         == Solo(Forward(w.(tags := w.tags[name := w.branch]), pid, p.after), pid, p.(phase := Gating))
  {
    hide Next, Run, Solo, Forward;
    Tags(limit, w, pid, p, name);
    Adopts(limit, w.(tags := w.tags[name := w.branch]), pid, p.(phase := Ready));
    TwoMore(limit, start, run, Tag(pid, name), Recheck(pid, true));
    more := run + [Tag(pid, name), Recheck(pid, true)];
    TwoMore(limit, start, more, Adopt(pid), Release(pid));
    more := more + [Adopt(pid), Release(pid)];
  }

  /** And from there to its end. */
  lemma RecutEnds(limit: nat, start: World, run: seq<Action>, w: World, pid: Pid, p: Proc, failed: bool)
    requires Run(limit, start, run) == Solo(w, pid, p) && p.phase == Gating && p.kind == Recut && p.after == w.branch
    ensures Run(limit, start, run + [Gate(pid, failed), Retake(pid)] + [Settle(pid, true)])
         == Solo(if failed then Backward(w, pid, p.before) else w, pid, p.(phase := Finished))
  {
    hide Next, Run, Solo, Backward;
    Gates(limit, w, pid, p, failed);
    Retakes(limit, w, pid, p.(phase := Relocking(failed)), failed);
    Settling(limit, w, pid, p.(phase := Back(failed)));
    TwoMore(limit, start, run, Gate(pid, failed), Retake(pid));
    RunPush(limit, start, run + [Gate(pid, failed), Retake(pid)], Settle(pid, true));
  }

  /** An undisturbed recut tags the old tip and leaves the branch at its commit if the gate passed, and where it was
      if the gate failed; on one attempt, and nothing else changed. */
  lemma RecutGetsThere(limit: nat, w: World, pid: Pid, day: Day, after: Oid, name: nat, failed: bool)
    requires pid !in w.procs && w.lock.None? && Count(w.attempts, day) < limit && name !in w.tags
    ensures Run(limit, w, [Arrive(pid, Recut, day), Take(pid), Read(pid, true), Reserve(pid), Build(pid, true, after),
                           Recheck(pid, true), Tag(pid, name), Recheck(pid, true), Adopt(pid), Release(pid),
                           Gate(pid, failed), Retake(pid), Settle(pid, true)])
         == w.(branch := if failed then w.branch else after, attempts := w.attempts + [Attempt(day, pid)],
               tags := w.tags[name := w.branch],
               procs := w.procs[pid := Proc(Recut, day, Finished, w.branch, w.main, after)],
               moves := w.moves + [Moved(pid, true, w.branch, w.branch, after)]
                        + if failed then [Moved(pid, false, after, after, w.branch)] else [])
  {
    hide Next, Run;
    var run := ToChecked(limit, w, pid, Recut, day, after);
    var p, r := Proc(Recut, day, Checked, w.branch, w.main, after), Reserved(w, pid, day);
    run := RecutMoves(limit, w, run, r, pid, p, name);
    RecutEnds(limit, w, run, Forward(r.(tags := r.tags[name := r.branch]), pid, after), pid, p.(phase := Gating), failed);
    assert run + [Gate(pid, failed), Retake(pid)] + [Settle(pid, true)] ==
      [Arrive(pid, Recut, day), Take(pid), Read(pid, true), Reserve(pid), Build(pid, true, after),
       Recheck(pid, true), Tag(pid, name), Recheck(pid, true), Adopt(pid), Release(pid),
       Gate(pid, failed), Retake(pid), Settle(pid, true)];
  }

  /** What the tag does not cover: when the gate fails, the recut's own commit is replaced in its turn, and
      nothing need name that one. */
  lemma RolledBackTipUntagged(limit: nat)
    requires limit > 0
    ensures exists run :: var w := Run(limit, Initial(1, 5, map[]), run);
      w.moves != [] && w.moves[|w.moves| - 1] == Moved(0, false, 3, 3, 1) && !Named(w.tags, 3)
  {
    var start := Initial(1, 5, map[]);
    RecutGetsThere(limit, start, 0, 0, 3, 2, true);
    var run := [Arrive(0, Recut, 0), Take(0), Read(0, true), Reserve(0), Build(0, true, 3), Recheck(0, true), Tag(0, 2),
                Recheck(0, true), Adopt(0), Release(0), Gate(0, true), Retake(0), Settle(0, true)];
    var w := Run(limit, start, run);
    hide Run;
    assert w.moves[1] == Moved(0, false, 3, 3, 1);
  }
}
