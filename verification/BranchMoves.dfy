/**
 Refreshes and recuts of one branch, interleaved with each other and with everyone else (`refresh`, `recut`,
 `attempt_count`, src/branch_refresh.py).

 A state machine over their steps: any number of processes, a crash at any step, and anyone moving the branch,
 main and the tags in between. The invariant `Sound` is kept by every step.
 */
module BranchMoves {
  import opened Seqs

  type Oid = nat
  type Pid = nat
  type Day = int

  // ---------------------------------------------------------------- the shared state

  datatype Kind = Refresh | Recut

  /** How far a process has come. The phases from Entered to Adopted, and Back, hold the lock. */
  datatype Phase =
    | Outside                  // waiting for the lock
    | Entered                  // nothing read yet
    | Counted                  // tip, base and ledger read, the day's limit not reached
    | Working                  // attempt recorded
    | Built                    // the new commit exists and its checks passed
    | Checked                  // the tip, the base and the rest are as they were read
    | Tagged                   // recut: the old tip has a tag
    | Ready                    // recut: checked again
    | Adopted                  // the branch has been moved
    | Gating                   // the lock is given up for the merge gate
    | Relocking(failed: bool)  // recut: the gate has answered, the lock is wanted again
    | Back(failed: bool)       // recut: the lock is held again
    | Finished

  datatype Proc = Proc(kind: Kind, day: Day, phase: Phase, before: Oid, base: Oid, after: Oid)

  /** A committed `attempt-started` row: the day it is labelled with, and whose it is. */
  datatype Attempt = Attempt(day: Day, pid: Pid)

  /** A movement of the branch: by a process, forward or back, with the tip it expected; or by anyone else. */
  datatype Move =
    | Moved(pid: Pid, forward: bool, expected: Oid, from: Oid, to: Oid)
    | Foreign(from: Oid, to: Oid)

  datatype World = World(branch: Oid, main: Oid, tags: map<nat, Oid>, attempts: seq<Attempt>,
                         lock: Option<Pid>, procs: map<Pid, Proc>, moves: seq<Move>)

  function Count(attempts: seq<Attempt>, day: Day): nat {
    if attempts == [] then 0
    else Count(attempts[..|attempts| - 1], day) + if attempts[|attempts| - 1].day == day then 1 else 0
  }

  // ---------------------------------------------------------------- steps

  /** What can happen next. `ok` carries the answers the steps do not themselves decide: no other refusal
      applies, the build and its checks pass, the other preconditions still stand. */
  datatype Action =
    | Arrive(pid: Pid, kind: Kind, day: Day)
    | Take(pid: Pid)
    | Read(pid: Pid, ok: bool)
    | Reserve(pid: Pid)
    | Build(pid: Pid, ok: bool, after: Oid)
    | Recheck(pid: Pid, ok: bool)
    | Tag(pid: Pid, name: nat)
    | Adopt(pid: Pid)
    | Release(pid: Pid)
    | Gate(pid: Pid, failed: bool)
    | Retake(pid: Pid)
    | Settle(pid: Pid, ok: bool)
    | Crash(pid: Pid)
    | MoveBranch(to: Oid)
    | MoveMain(to: Oid)
    | AddTag(name: nat, oid: Oid)

  predicate Holds(ph: Phase) {
    ph.Entered? || ph.Counted? || ph.Working? || ph.Built? || ph.Checked? || ph.Tagged? || ph.Ready? || ph.Adopted? || ph.Back?
  }

  /** The attempt has not been recorded. */
  predicate Unreserved(ph: Phase) { ph.Outside? || ph.Entered? || ph.Counted? }

  /** The branch has not been moved. */
  predicate Unmoved(ph: Phase) {
    Unreserved(ph) || ph.Working? || ph.Built? || ph.Checked? || ph.Tagged? || ph.Ready?
  }

  /** The branch has been moved forward, and not back. */
  predicate Replaced(ph: Phase) { ph.Adopted? || ph.Gating? || ph.Relocking? || ph.Back? }

  /** A recut past its tag. */
  predicate PastTag(p: Proc) {
    p.kind == Recut && (p.phase.Tagged? || p.phase.Ready? || Replaced(p.phase))
  }

  function Goto(w: World, pid: Pid, ph: Phase): World
    requires pid in w.procs
  { w.(procs := w.procs[pid := w.procs[pid].(phase := ph)]) }

  /** The process ends, by a refusal, an error or a crash; its lock goes with it. */
  function End(w: World, pid: Pid): World
    requires pid in w.procs
  { Goto(w, pid, Finished).(lock := if w.lock == Some(pid) then None else w.lock) }

  /** `update-ref` with the old value: nothing moves unless the branch is at `expected`. */
  function Cas(w: World, pid: Pid, forward: bool, expected: Oid, to: Oid): World {
    if w.branch != expected then w
    else w.(branch := to, moves := w.moves + [Moved(pid, forward, expected, w.branch, to)])
  }

  function ReadStep(limit: nat, w: World, pid: Pid, ok: bool): World
    requires pid in w.procs
  {
    var p := w.procs[pid];
    if ok && Count(w.attempts, p.day) < limit
    then w.(procs := w.procs[pid := p.(phase := Counted, before := w.branch, base := w.main)])
    else End(w, pid)
  }

  function RecheckStep(w: World, pid: Pid, ok: bool): World
    requires pid in w.procs
  {
    var p := w.procs[pid];
    if !(ok && w.branch == p.before && w.main == p.base) then End(w, pid)
    else if p.phase == Built then Goto(w, pid, Checked) else Goto(w, pid, Ready)
  }

  function AdoptStep(w: World, pid: Pid): World
    requires pid in w.procs
  {
    var p := w.procs[pid];
    if w.branch == p.before then Goto(Cas(w, pid, true, p.before, p.after), pid, Adopted) else End(w, pid)
  }

  /** After a failed gate the branch goes back, unless someone has moved it on. */
  function SettleStep(w: World, pid: Pid, ok: bool): World
    requires pid in w.procs && w.procs[pid].phase.Back?
  {
    var p := w.procs[pid];
    End(if p.phase.failed && ok then Cas(w, pid, false, p.after, p.before) else w, pid)
  }

  predicate At(w: World, pid: Pid, ph: Phase) { pid in w.procs && w.procs[pid].phase == ph }

  /** One step; an action that is not enabled changes nothing. */
  function Next(limit: nat, w: World, a: Action): World {
    match a
    case Arrive(pid, kind, day) =>
      if pid in w.procs then w else w.(procs := w.procs[pid := Proc(kind, day, Outside, 0, 0, 0)])
    case Take(pid) =>
      if At(w, pid, Outside) && w.lock.None? then Goto(w, pid, Entered).(lock := Some(pid)) else w
    case Read(pid, ok) => if At(w, pid, Entered) then ReadStep(limit, w, pid, ok) else w
    case Reserve(pid) =>
      if At(w, pid, Counted) then Goto(w, pid, Working).(attempts := w.attempts + [Attempt(w.procs[pid].day, pid)]) else w
    case Build(pid, ok, after) =>
      if !At(w, pid, Working) then w
      else if ok then w.(procs := w.procs[pid := w.procs[pid].(phase := Built, after := after)]) else End(w, pid)
    case Recheck(pid, ok) =>
      if At(w, pid, Built) || At(w, pid, Tagged) then RecheckStep(w, pid, ok) else w
    case Tag(pid, name) =>
      if At(w, pid, Checked) && w.procs[pid].kind == Recut && name !in w.tags
      then Goto(w, pid, Tagged).(tags := w.tags[name := w.procs[pid].before]) else w
    case Adopt(pid) =>
      if At(w, pid, Ready) || (At(w, pid, Checked) && w.procs[pid].kind == Refresh) then AdoptStep(w, pid) else w
    case Release(pid) => if At(w, pid, Adopted) then Goto(w, pid, Gating).(lock := None) else w
    case Gate(pid, failed) =>
      if At(w, pid, Adopted) && w.procs[pid].kind == Recut && failed then Goto(w, pid, Back(true))
      else if !At(w, pid, Gating) then w
      else if w.procs[pid].kind == Refresh then End(w, pid) else Goto(w, pid, Relocking(failed))
    case Retake(pid) =>
      if pid in w.procs && w.procs[pid].phase.Relocking? && w.lock.None?
      then Goto(w, pid, Back(w.procs[pid].phase.failed)).(lock := Some(pid)) else w
    case Settle(pid, ok) => if pid in w.procs && w.procs[pid].phase.Back? then SettleStep(w, pid, ok) else w
    case Crash(pid) => if pid in w.procs then End(w, pid) else w
    case MoveBranch(to) => w.(branch := to, moves := w.moves + [Foreign(w.branch, to)])
    case MoveMain(to) => w.(main := to)
    case AddTag(name, oid) => if name in w.tags then w else w.(tags := w.tags[name := oid])
  }

  function Initial(branch: Oid, main: Oid, tags: map<nat, Oid>): World {
    World(branch, main, tags, [], None, map[], [])
  }

  function Run(limit: nat, w: World, run: seq<Action>): World {
    if run == [] then w else Next(limit, Run(limit, w, run[..|run| - 1]), run[|run| - 1])
  }

  // ---------------------------------------------------------------- what holds throughout

  predicate Named(tags: map<nat, Oid>, oid: Oid) { exists k | k in tags :: tags[k] == oid }

  predicate HasAttempt(attempts: seq<Attempt>, pid: Pid) { exists i | 0 <= i < |attempts| :: attempts[i].pid == pid }

  predicate By(m: Move, pid: Pid, forward: bool) { m.Moved? && m.forward == forward && m.pid == pid }

  predicate Advanced(moves: seq<Move>, pid: Pid) { exists i | 0 <= i < |moves| :: By(moves[i], pid, true) }

  predicate Reverted(moves: seq<Move>, pid: Pid) { exists i | 0 <= i < |moves| :: By(moves[i], pid, false) }

  predicate Local(limit: nat, w: World, pid: Pid, p: Proc) {
    && (Holds(p.phase) <==> w.lock == Some(pid))
    && (p.phase.Counted? ==> Count(w.attempts, p.day) < limit)
    && (Unreserved(p.phase) ==> !HasAttempt(w.attempts, pid))
    && (!Unreserved(p.phase) && !p.phase.Finished? ==> Attempt(p.day, pid) in w.attempts)
    && (Unmoved(p.phase) ==> !Advanced(w.moves, pid) && !Reverted(w.moves, pid))
    && (Replaced(p.phase) ==> Advanced(w.moves, pid) && !Reverted(w.moves, pid))
    && (p.phase.Relocking? || p.phase.Back? ==> p.kind == Recut)
    && (PastTag(p) ==> Named(w.tags, p.before))
  }

  /** Every process has one attempt at most, and no day more than the limit. */
  ghost predicate AttemptsOk(limit: nat, w: World) {
    && (forall day :: Count(w.attempts, day) <= limit)
    && (forall i | 0 <= i < |w.attempts| :: w.attempts[i].pid in w.procs && w.attempts[i].day == w.procs[w.attempts[i].pid].day)
    && (forall i, j | 0 <= i < j < |w.attempts| :: w.attempts[i].pid != w.attempts[j].pid)
  }

  /** A process moves the branch from the tip it read to the commit it built, on its own attempt, or, a recut,
      from that commit back to that tip; a recut forward only from a tip that has a tag. */
  predicate MoveOk(w: World, m: Move) {
    m.Moved? ==>
      && m.from == m.expected
      && m.pid in w.procs
      && (if m.forward then m.expected == w.procs[m.pid].before && m.to == w.procs[m.pid].after
          else m.expected == w.procs[m.pid].after && m.to == w.procs[m.pid].before)
      && (if m.forward then Attempt(w.procs[m.pid].day, m.pid) in w.attempts else w.procs[m.pid].kind == Recut)
      && (m.forward && w.procs[m.pid].kind == Recut ==> Named(w.tags, m.from))
  }

  /** No process moves the branch twice in one direction, nor back before it has moved it forward. */
  ghost predicate Orderly(moves: seq<Move>) {
    && (forall i, j, pid, way | 0 <= i < j < |moves| && By(moves[i], pid, way) :: !By(moves[j], pid, way))
    && (forall i, pid | 0 <= i < |moves| && By(moves[i], pid, false) :: Advanced(moves[..i], pid))
  }

  ghost predicate MovesOk(w: World) {
    && (forall i | 0 <= i < |w.moves| :: MoveOk(w, w.moves[i]))
    && Orderly(w.moves)
  }

  predicate Chained(start: Oid, w: World) {
    && (forall i | 0 <= i < |w.moves| - 1 :: w.moves[i].to == w.moves[i + 1].from)
    && (if w.moves == [] then w.branch == start else w.moves[0].from == start && w.moves[|w.moves| - 1].to == w.branch)
  }

  ghost predicate Sound(limit: nat, start: Oid, w: World) {
    && AttemptsOk(limit, w) && MovesOk(w) && Chained(start, w)
    && (w.lock.Some? ==> w.lock.value in w.procs)
    && (forall pid | pid in w.procs :: Local(limit, w, pid, w.procs[pid]))
  }

  // ---------------------------------------------------------------- each step keeps it

  /** What one step of `actor` leaves of everyone else's. */
  ghost predicate Others(w: World, now: World, actor: Pid) {
    && w.attempts <= now.attempts
    && (forall i | |w.attempts| <= i < |now.attempts| :: now.attempts[i].pid == actor)
    && (w.attempts != now.attempts ==> w.lock == Some(actor))
    && w.moves <= now.moves
    && (forall i | |w.moves| <= i < |now.moves| && now.moves[i].Moved? :: now.moves[i].pid == actor)
    && (forall k | k in w.tags :: k in now.tags && now.tags[k] == w.tags[k])
    && (forall q | q != actor :: w.lock == Some(q) <==> now.lock == Some(q))
    && (forall q | q in now.procs && q != actor :: q in w.procs && now.procs[q] == w.procs[q])
    && (forall q | q in w.procs :: q in now.procs && now.procs[q].kind == w.procs[q].kind && now.procs[q].day == w.procs[q].day)
    && (forall q | q in w.procs && (Advanced(w.moves, q) || Reverted(w.moves, q)) ::
          now.procs[q].before == w.procs[q].before && now.procs[q].after == w.procs[q].after)
  }

  lemma NamedGrows(tags: map<nat, Oid>, now: map<nat, Oid>, oid: Oid)
    requires Named(tags, oid) && forall k | k in tags :: k in now && now[k] == tags[k]
    ensures Named(now, oid)
  { var k :| k in tags && tags[k] == oid; assert now[k] == oid; }

  lemma OthersLocal(limit: nat, w: World, now: World, actor: Pid, q: Pid)
    requires Others(w, now, actor) && q != actor && q in w.procs && q in now.procs
    requires Local(limit, w, q, w.procs[q])
    ensures Local(limit, now, q, now.procs[q])
  {
    var p := w.procs[q];
    if PastTag(p) { NamedGrows(w.tags, now.tags, p.before); }
    if HasAttempt(now.attempts, q) {
      var i :| 0 <= i < |now.attempts| && now.attempts[i].pid == q;
      assert w.attempts[i].pid == q;
    }
    SameMoves(w, now, actor, q);
    hide Count;
  }

  lemma SameMoves(w: World, now: World, actor: Pid, q: Pid)
    requires Others(w, now, actor) && q != actor
    ensures Advanced(now.moves, q) == Advanced(w.moves, q)
    ensures Reverted(now.moves, q) == Reverted(w.moves, q)
  {
    hide Named;
    forall i, way | 0 <= i < |now.moves| && By(now.moves[i], q, way) ensures i < |w.moves| && By(w.moves[i], q, way) {}
    forall i | 0 <= i < |w.moves| ensures now.moves[i] == w.moves[i] {}
  }

  lemma OthersMoves(w: World, now: World, actor: Pid, i: nat)
    requires Others(w, now, actor) && i < |w.moves| && MoveOk(w, w.moves[i])
    ensures MoveOk(now, now.moves[i])
  {
    var m := w.moves[i];
    assert now.moves[i] == m;
    assert m.Moved? ==> By(w.moves[i], m.pid, m.forward);
    if m.Moved? && Named(w.tags, m.from) { NamedGrows(w.tags, now.tags, m.from); }
  }

  /** A step without a movement. */
  lemma StillMoves(w: World, now: World, actor: Pid)
    requires Others(w, now, actor) && MovesOk(w) && now.moves == w.moves
    ensures MovesOk(now)
  { forall i | 0 <= i < |now.moves| ensures MoveOk(now, now.moves[i]) { OthersMoves(w, now, actor, i); } }

  lemma StillAttempts(limit: nat, w: World, now: World, actor: Pid)
    requires Others(w, now, actor) && AttemptsOk(limit, w) && now.attempts == w.attempts
    ensures AttemptsOk(limit, now)
  {}

  /** A step that moves nothing and records nothing keeps everything, if the actor's own account is in order. */
  lemma Quiet(limit: nat, start: Oid, w: World, now: World, actor: Pid)
    requires Sound(limit, start, w) && Others(w, now, actor)
    requires now.attempts == w.attempts && now.moves == w.moves && now.branch == w.branch
    requires now.lock.Some? ==> now.lock.value in now.procs
    requires actor in now.procs ==> Local(limit, now, actor, now.procs[actor])
    ensures Sound(limit, start, now)
  {
    StillMoves(w, now, actor);
    StillAttempts(limit, w, now, actor);
    forall q | q in now.procs ensures Local(limit, now, q, now.procs[q]) {
      if q != actor { OthersLocal(limit, w, now, actor, q); }
    }
  }

  lemma EndKeeps(limit: nat, start: Oid, w: World, pid: Pid)
    requires Sound(limit, start, w) && pid in w.procs
    ensures Sound(limit, start, End(w, pid))
  {
    hide HasAttempt, Count, Advanced, Reverted, Named, AttemptsOk, MovesOk;
    Quiet(limit, start, w, End(w, pid), pid);
  }

  lemma ArriveKeeps(limit: nat, start: Oid, w: World, pid: Pid, kind: Kind, day: Day)
    requires Sound(limit, start, w)
    ensures Sound(limit, start, Next(limit, w, Arrive(pid, kind, day)))
  {
    if pid !in w.procs {
      var now := Next(limit, w, Arrive(pid, kind, day));
      assert !HasAttempt(w.attempts, pid) && !Advanced(w.moves, pid) && !Reverted(w.moves, pid);
      hide Count;
      Quiet(limit, start, w, now, pid);
    }
  }

  /** Taking or giving up the lock, and going from phase to phase under it. */
  lemma PhaseKeeps(limit: nat, start: Oid, w: World, pid: Pid, p: Proc, lock: Option<Pid>, tags: map<nat, Oid>)
    requires Sound(limit, start, w) && pid in w.procs
    requires p.kind == w.procs[pid].kind && p.day == w.procs[pid].day
    requires Unmoved(w.procs[pid].phase) || (p.before == w.procs[pid].before && p.after == w.procs[pid].after)
    requires lock == w.lock || (w.lock == None && lock == Some(pid)) || (w.lock == Some(pid) && lock == None)
    requires forall k | k in w.tags :: k in tags && tags[k] == w.tags[k]
    requires Local(limit, w.(procs := w.procs[pid := p], lock := lock, tags := tags), pid, p)
    ensures Sound(limit, start, w.(procs := w.procs[pid := p], lock := lock, tags := tags))
  {
    LocalOf(limit, start, w, pid);
    if Unmoved(w.procs[pid].phase) { UnmovedYet(limit, w, pid); }
    hide HasAttempt, Count, Advanced, Reverted, Named, AttemptsOk, MovesOk, Local;
    Quiet(limit, start, w, w.(procs := w.procs[pid := p], lock := lock, tags := tags), pid);
  }

  lemma UnmovedYet(limit: nat, w: World, pid: Pid)
    requires pid in w.procs && Local(limit, w, pid, w.procs[pid]) && Unmoved(w.procs[pid].phase)
    ensures !Advanced(w.moves, pid) && !Reverted(w.moves, pid)
  {}

  lemma LocalOf(limit: nat, start: Oid, w: World, pid: Pid)
    requires Sound(limit, start, w) && pid in w.procs
    ensures Local(limit, w, pid, w.procs[pid])
  {}

  lemma TakeKeeps(limit: nat, start: Oid, w: World, pid: Pid)
    requires Sound(limit, start, w)
    ensures Sound(limit, start, Next(limit, w, Take(pid)))
  {
    hide Sound, HasAttempt, Advanced, Reverted, Count;
    if At(w, pid, Outside) && w.lock.None? {
      LocalOf(limit, start, w, pid);
      PhaseKeeps(limit, start, w, pid, w.procs[pid].(phase := Entered), Some(pid), w.tags);
    }
  }

  lemma ReadKeeps(limit: nat, start: Oid, w: World, pid: Pid, ok: bool)
    requires Sound(limit, start, w)
    ensures Sound(limit, start, Next(limit, w, Read(pid, ok)))
  {
    hide Sound, HasAttempt, Advanced, Reverted, Count;
    if At(w, pid, Entered) {
      var p := w.procs[pid];
      LocalOf(limit, start, w, pid);
      if ok && Count(w.attempts, p.day) < limit {
        PhaseKeeps(limit, start, w, pid, p.(phase := Counted, before := w.branch, base := w.main), w.lock, w.tags);
      } else { EndKeeps(limit, start, w, pid); }
    }
  }

  lemma BuildKeeps(limit: nat, start: Oid, w: World, pid: Pid, ok: bool, after: Oid)
    requires Sound(limit, start, w)
    ensures Sound(limit, start, Next(limit, w, Build(pid, ok, after)))
  {
    hide Sound, HasAttempt, Advanced, Reverted, Count;
    if At(w, pid, Working) {
      var p := w.procs[pid];
      LocalOf(limit, start, w, pid);
      if ok { PhaseKeeps(limit, start, w, pid, p.(phase := Built, after := after), w.lock, w.tags); }
      else { EndKeeps(limit, start, w, pid); }
    }
  }

  lemma RecheckKeeps(limit: nat, start: Oid, w: World, pid: Pid, ok: bool)
    requires Sound(limit, start, w)
    ensures Sound(limit, start, Next(limit, w, Recheck(pid, ok)))
  {
    hide Sound, HasAttempt, Advanced, Reverted, Count;
    if At(w, pid, Built) || At(w, pid, Tagged) {
      var p := w.procs[pid];
      LocalOf(limit, start, w, pid);
      if !(ok && w.branch == p.before && w.main == p.base) { EndKeeps(limit, start, w, pid); }
      else if p.phase == Built { PhaseKeeps(limit, start, w, pid, p.(phase := Checked), w.lock, w.tags); }
      else { PhaseKeeps(limit, start, w, pid, p.(phase := Ready), w.lock, w.tags); }
    }
  }

  lemma TagKeeps(limit: nat, start: Oid, w: World, pid: Pid, name: nat)
    requires Sound(limit, start, w)
    ensures Sound(limit, start, Next(limit, w, Tag(pid, name)))
  {
    hide Sound, HasAttempt, Advanced, Reverted, Count;
    if At(w, pid, Checked) && w.procs[pid].kind == Recut && name !in w.tags {
      var p := w.procs[pid];
      var tags := w.tags[name := p.before];
      assert tags[name] == p.before;
      assert Named(tags, p.before);
      hide Named;
      LocalOf(limit, start, w, pid);
      PhaseKeeps(limit, start, w, pid, p.(phase := Tagged), w.lock, tags);
    }
  }

  lemma ReleaseKeeps(limit: nat, start: Oid, w: World, pid: Pid)
    requires Sound(limit, start, w)
    ensures Sound(limit, start, Next(limit, w, Release(pid)))
  {
    hide Sound, HasAttempt, Advanced, Reverted, Count, Named;
    if At(w, pid, Adopted) {
      LocalOf(limit, start, w, pid);
      PhaseKeeps(limit, start, w, pid, w.procs[pid].(phase := Gating), None, w.tags);
    }
  }

  lemma GateKeeps(limit: nat, start: Oid, w: World, pid: Pid, failed: bool)
    requires Sound(limit, start, w)
    ensures Sound(limit, start, Next(limit, w, Gate(pid, failed)))
  {
    hide Sound, HasAttempt, Advanced, Reverted, Count, Named;
    if pid in w.procs {
      var p := w.procs[pid];
      LocalOf(limit, start, w, pid);
      if p.phase == Adopted && p.kind == Recut && failed {
        PhaseKeeps(limit, start, w, pid, p.(phase := Back(true)), w.lock, w.tags);
      } else if p.phase == Gating && p.kind == Refresh { EndKeeps(limit, start, w, pid); }
      else if p.phase == Gating { PhaseKeeps(limit, start, w, pid, p.(phase := Relocking(failed)), w.lock, w.tags); }
    }
  }

  lemma RetakeKeeps(limit: nat, start: Oid, w: World, pid: Pid)
    requires Sound(limit, start, w)
    ensures Sound(limit, start, Next(limit, w, Retake(pid)))
  {
    hide Sound, HasAttempt, Advanced, Reverted, Count;
    if pid in w.procs && w.procs[pid].phase.Relocking? && w.lock.None? {
      var p := w.procs[pid];
      LocalOf(limit, start, w, pid);
      PhaseKeeps(limit, start, w, pid, p.(phase := Back(p.phase.failed)), Some(pid), w.tags);
    }
  }

  lemma CountPush(attempts: seq<Attempt>, a: Attempt, day: Day)
    ensures Count(attempts + [a], day) == Count(attempts, day) + if a.day == day then 1 else 0
  { assert (attempts + [a])[..|attempts|] == attempts; }

  lemma AttemptPush(limit: nat, w: World, now: World, pid: Pid, a: Attempt)
    requires AttemptsOk(limit, w) && now.attempts == w.attempts + [a] && Others(w, now, pid)
    requires a.pid == pid && pid in w.procs && a.day == w.procs[pid].day
    requires Count(w.attempts, a.day) < limit && !HasAttempt(w.attempts, pid)
    ensures AttemptsOk(limit, now)
  {
    forall day ensures Count(now.attempts, day) <= limit { CountPush(w.attempts, a, day); }
    hide Count;
    forall i | 0 <= i < |w.attempts| ensures w.attempts[i].pid != pid {}
  }

  lemma WorkingLocal(limit: nat, w: World, now: World, pid: Pid, p: Proc)
    requires Local(limit, w, pid, p.(phase := Counted)) && p.phase == Working
    requires now.attempts == w.attempts + [Attempt(p.day, pid)] && now.lock == w.lock && now.moves == w.moves
    ensures Local(limit, now, pid, p)
  { assert now.attempts[|w.attempts|] == Attempt(p.day, pid); }

  /** Recording the attempt: the lock makes the count taken before it still true. */
  lemma ReserveKeeps(limit: nat, start: Oid, w: World, pid: Pid)
    requires Sound(limit, start, w)
    ensures Sound(limit, start, Next(limit, w, Reserve(pid)))
  {
    if At(w, pid, Counted) {
      var p := w.procs[pid];
      var now := Next(limit, w, Reserve(pid));
      assert Local(limit, w, pid, p) && p == p.(phase := Working).(phase := Counted);
      WorkingLocal(limit, w, now, pid, p.(phase := Working));
      assert Count(w.attempts, p.day) < limit && !HasAttempt(w.attempts, pid);
      assert Others(w, now, pid);
      RecordedKeeps(limit, start, w, now, pid);
    }
  }

  lemma RecordedKeeps(limit: nat, start: Oid, w: World, now: World, pid: Pid)
    requires Sound(limit, start, w) && Others(w, now, pid) && pid in w.procs
    requires now.attempts == w.attempts + [Attempt(w.procs[pid].day, pid)] && now.moves == w.moves
    requires now.branch == w.branch && now.lock == w.lock && pid in now.procs
    requires Count(w.attempts, w.procs[pid].day) < limit && !HasAttempt(w.attempts, pid)
    requires Local(limit, now, pid, now.procs[pid])
    ensures Sound(limit, start, now)
  {
    hide Count, AttemptsOk, MovesOk, HasAttempt, Advanced, Reverted, Named, Local;
    AttemptPush(limit, w, now, pid, Attempt(w.procs[pid].day, pid));
    StillMoves(w, now, pid);
    forall q | q in now.procs && q != pid ensures Local(limit, now, q, now.procs[q]) { OthersLocal(limit, w, now, pid, q); }
  }

  // ---------------------------------------------------------------- movements

  predicate MayMove(moves: seq<Move>, pid: Pid, forward: bool) {
    !Reverted(moves, pid) && (forward <==> !Advanced(moves, pid))
  }

  /** One more movement, and perhaps the end of a phase. */
  lemma MovedKeeps(limit: nat, start: Oid, w: World, now: World, actor: Pid, m: Move)
    requires Sound(limit, start, w) && Others(w, now, actor)
    requires now.attempts == w.attempts && now.moves == w.moves + [m]
    requires m.from == w.branch && m.to == now.branch && MoveOk(now, m)
    requires m.Moved? ==> MayMove(w.moves, m.pid, m.forward)
    requires now.lock.Some? ==> now.lock.value in now.procs
    requires actor in now.procs ==> Local(limit, now, actor, now.procs[actor])
    ensures Sound(limit, start, now)
  {
    StillAttempts(limit, w, now, actor);
    forall i | 0 <= i < |now.moves| ensures MoveOk(now, now.moves[i]) {
      if i < |w.moves| { OthersMoves(w, now, actor, i); }
    }
    MovesPush(w, now, m);
    ChainPush(start, w, now, m);
    hide MovesOk, AttemptsOk, Chained;
    forall q | q in now.procs && q != actor ensures Local(limit, now, q, now.procs[q]) { OthersLocal(limit, w, now, actor, q); }
  }

  lemma MovesPush(w: World, now: World, m: Move)
    requires MovesOk(w) && now.moves == w.moves + [m] && forall i | 0 <= i < |now.moves| :: MoveOk(now, now.moves[i])
    requires m.Moved? ==> MayMove(w.moves, m.pid, m.forward)
    ensures MovesOk(now)
  { OrderlyPush(w.moves, m); }

  lemma OrderlyPush(moves: seq<Move>, m: Move)
    requires Orderly(moves) && (m.Moved? ==> MayMove(moves, m.pid, m.forward))
    ensures Orderly(moves + [m])
  {
    var now := moves + [m];
    forall i, pid | 0 <= i < |now| && By(now[i], pid, false) ensures Advanced(now[..i], pid) {
      if i < |moves| { assert now[..i] == moves[..i]; } else { assert now[..i] == moves; }
    }
  }

  lemma ChainPush(start: Oid, w: World, now: World, m: Move)
    requires Chained(start, w) && now.moves == w.moves + [m] && m.from == w.branch && m.to == now.branch
    ensures Chained(start, now)
  {}

  lemma AdoptedLocal(limit: nat, w: World, now: World, pid: Pid, p: Proc)
    requires Local(limit, w, pid, p) && (p.phase == Ready || (p.phase == Checked && p.kind == Refresh))
    requires now.attempts == w.attempts && now.lock == w.lock && now.tags == w.tags
    requires now.moves == w.moves + [Moved(pid, true, p.before, w.branch, p.after)]
    ensures Local(limit, now, pid, p.(phase := Adopted))
    ensures Attempt(p.day, pid) in w.attempts && MayMove(w.moves, pid, true) && w.lock == Some(pid)
  {
    hide Count, HasAttempt, Named;
    assert By(now.moves[|w.moves|], pid, true);
  }

  /** A recut in `Ready` has its tag. */
  lemma ReadyTagged(limit: nat, start: Oid, w: World, pid: Pid)
    requires Sound(limit, start, w) && pid in w.procs && w.procs[pid].kind == Recut && w.procs[pid].phase == Ready
    ensures Named(w.tags, w.procs[pid].before)
  { LocalOf(limit, start, w, pid); }

  lemma AdoptKeeps(limit: nat, start: Oid, w: World, pid: Pid)
    requires Sound(limit, start, w)
    ensures Sound(limit, start, Next(limit, w, Adopt(pid)))
  {
    hide Sound, Local;
    if At(w, pid, Ready) || (At(w, pid, Checked) && w.procs[pid].kind == Refresh) {
      var p := w.procs[pid];
      LocalOf(limit, start, w, pid);
      if p.kind == Recut { ReadyTagged(limit, start, w, pid); }
      if w.branch == p.before {
        var m := Moved(pid, true, p.before, w.branch, p.after);
        AdoptedLocal(limit, w, AdoptStep(w, pid), pid, p);
        assert AdoptStep(w, pid).procs[pid] == p.(phase := Adopted);
        hide Advanced, Reverted, HasAttempt, Named;
        MovedKeeps(limit, start, w, AdoptStep(w, pid), pid, m);
      } else { EndKeeps(limit, start, w, pid); }
    }
  }

  lemma EndedLocal(limit: nat, w: World, now: World, pid: Pid, p: Proc)
    requires p.phase == Finished && now.lock != Some(pid)
    ensures Local(limit, now, pid, p)
  {}

  lemma SettleKeeps(limit: nat, start: Oid, w: World, pid: Pid, ok: bool)
    requires Sound(limit, start, w)
    ensures Sound(limit, start, Next(limit, w, Settle(pid, ok)))
  {
    if pid in w.procs && w.procs[pid].phase.Back? {
      var p := w.procs[pid];
      assert w.lock == Some(pid) && MayMove(w.moves, pid, false) && p.kind == Recut by { LocalOf(limit, start, w, pid); }
      hide Sound, Local, Advanced, Reverted, MayMove, HasAttempt, Named;
      if p.phase.failed && ok && w.branch == p.after {
        var now := SettleStep(w, pid, ok);
        EndedLocal(limit, w, now, pid, now.procs[pid]);
        MovedKeeps(limit, start, w, now, pid, Moved(pid, false, p.after, w.branch, p.before));
      } else { EndKeeps(limit, start, w, pid); }
    }
  }

  /** What others do to the branch, to main and to the tags. */
  lemma ForeignKeeps(limit: nat, start: Oid, w: World, a: Action)
    requires Sound(limit, start, w) && (a.MoveBranch? || a.MoveMain? || a.AddTag?)
    ensures Sound(limit, start, Next(limit, w, a))
  {
    var nobody := Above(w.procs.Keys);
    var now := Next(limit, w, a);
    hide MovesOk, HasAttempt, Count, Named, Advanced;
    if a.MoveBranch? { MovedKeeps(limit, start, w, now, nobody, Foreign(w.branch, a.to)); }
    else { Quiet(limit, start, w, now, nobody); }
  }

  lemma {:induction false} Above(s: set<nat>) returns (n: nat)
    ensures forall q | q in s :: q < n
  {
    n := 0;
    if s != {} {
      var x :| x in s;
      var m := Above(s - {x});
      n := if x < m then m else x + 1;
      forall q | q in s ensures q < n { assert q == x || q in s - {x}; }
    }
  }

  lemma NextKeeps(limit: nat, start: Oid, w: World, a: Action)
    requires Sound(limit, start, w)
    ensures Sound(limit, start, Next(limit, w, a))
  {
    hide Sound, Next;
    match a
    case Arrive(pid, kind, day) => ArriveKeeps(limit, start, w, pid, kind, day);
    case Take(pid) => TakeKeeps(limit, start, w, pid);
    case Read(pid, ok) => ReadKeeps(limit, start, w, pid, ok);
    case Reserve(pid) => ReserveKeeps(limit, start, w, pid);
    case Build(pid, ok, after) => BuildKeeps(limit, start, w, pid, ok, after);
    case Recheck(pid, ok) => RecheckKeeps(limit, start, w, pid, ok);
    case Tag(pid, name) => TagKeeps(limit, start, w, pid, name);
    case Adopt(pid) => AdoptKeeps(limit, start, w, pid);
    case Release(pid) => ReleaseKeeps(limit, start, w, pid);
    case Gate(pid, failed) => GateKeeps(limit, start, w, pid, failed);
    case Retake(pid) => RetakeKeeps(limit, start, w, pid);
    case Settle(pid, ok) => SettleKeeps(limit, start, w, pid, ok);
    case Crash(pid) => CrashKeeps(limit, start, w, pid);
    case MoveBranch(_) => ForeignKeeps(limit, start, w, a);
    case MoveMain(_) => ForeignKeeps(limit, start, w, a);
    case AddTag(_, _) => ForeignKeeps(limit, start, w, a);
  }

  lemma CrashKeeps(limit: nat, start: Oid, w: World, pid: Pid)
    requires Sound(limit, start, w)
    ensures Sound(limit, start, Next(limit, w, Crash(pid)))
  { hide Sound, End; if pid in w.procs { EndKeeps(limit, start, w, pid); } }

  lemma {:induction false} RunKeeps(limit: nat, branch: Oid, main: Oid, tags: map<nat, Oid>, run: seq<Action>)
    ensures Sound(limit, branch, Run(limit, Initial(branch, main, tags), run))
  {
    if run != [] {
      RunKeeps(limit, branch, main, tags, run[..|run| - 1]);
      NextKeeps(limit, branch, Run(limit, Initial(branch, main, tags), run[..|run| - 1]), run[|run| - 1]);
    }
  }
}
