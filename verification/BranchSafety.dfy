/** What every interleaving of refreshes and recuts of one branch shows (src/branch_refresh.py). */
module BranchSafety {
  import opened Seqs
  import opened BranchMoves
  import opened BranchHistory

  /** Attempts labelled with one day never exceed the limit, nor do the branch's forward movements on them. */
  lemma DailyLimit(limit: nat, branch: Oid, main: Oid, tags: map<nat, Oid>, run: seq<Action>, day: Day)
    ensures var w := Run(limit, Initial(branch, main, tags), run);
      && Count(w.attempts, day) <= limit
      && Forward(w.procs, w.moves, day) <= Count(w.attempts, day)
  {
    RunKeeps(limit, branch, main, tags, run);
    var w := Run(limit, Initial(branch, main, tags), run);
    ForwardSet(w.procs, w.moves, day);
    CountSet(w.attempts, day);
    forall pid | pid in Movers(w.procs, w.moves, day) ensures pid in Claimants(w.attempts, day) {
      var i :| 0 <= i < |w.moves| && Forwards(w.procs, w.moves[i], day) && w.moves[i].pid == pid;
      assert MoveOk(w, w.moves[i]);
    }
    Smaller(Movers(w.procs, w.moves, day), Claimants(w.attempts, day));
  }

  predicate Forwards(procs: map<Pid, Proc>, m: Move, day: Day) {
    m.Moved? && m.forward && m.pid in procs && procs[m.pid].day == day
  }

  /** The forward movements of processes labelled with that day. */
  function Forward(procs: map<Pid, Proc>, moves: seq<Move>, day: Day): nat {
    if moves == [] then 0
    else Forward(procs, moves[..|moves| - 1], day) + if Forwards(procs, moves[|moves| - 1], day) then 1 else 0
  }

  function Movers(procs: map<Pid, Proc>, moves: seq<Move>, day: Day): set<Pid> {
    set m | m in moves && Forwards(procs, m, day) :: m.pid
  }

  function Claimants(attempts: seq<Attempt>, day: Day): set<Pid> { set a | a in attempts && a.day == day :: a.pid }

  lemma {:induction false} ForwardSet(procs: map<Pid, Proc>, moves: seq<Move>, day: Day)
    requires forall i, j, pid | 0 <= i < j < |moves| && By(moves[i], pid, true) :: !By(moves[j], pid, true)
    ensures Forward(procs, moves, day) == |Movers(procs, moves, day)|
  {
    if moves != [] {
      var before, m := moves[..|moves| - 1], moves[|moves| - 1];
      ForwardSet(procs, before, day);
      assert moves == before + [m];
      if Forwards(procs, m, day) {
        assert Movers(procs, moves, day) == Movers(procs, before, day) + {m.pid};
        forall i | 0 <= i < |before| ensures before[i] == moves[i] {}
        assert By(moves[|before|], m.pid, true);
        assert m.pid !in Movers(procs, before, day);
      } else {
        assert Movers(procs, moves, day) == Movers(procs, before, day);
      }
    }
  }

  lemma {:induction false} CountSet(attempts: seq<Attempt>, day: Day)
    ensures |Claimants(attempts, day)| <= Count(attempts, day)
  {
    if attempts != [] {
      var before, a := attempts[..|attempts| - 1], attempts[|attempts| - 1];
      CountSet(before, day);
      assert attempts == before + [a];
      if a.day == day { assert Claimants(attempts, day) == Claimants(before, day) + {a.pid}; }
      else { assert Claimants(attempts, day) == Claimants(before, day); }
    }
  }

  /** A process's movement. Forward: from the tip it read under the lock, to the commit it built on the main it read
      with it, both found again when it checked, by a recut twice. Back: once, over its own forward movement, after
      the gate has failed it, under the lock. */
  ghost predicate Honest(limit: nat, start: World, run: seq<Action>, w: World, i: nat)
    requires i < |w.moves| && w.moves[i].Moved?
  {
    var m := w.moves[i];
    && m.from == m.expected && m.pid in w.procs
    && (if m.forward then exists base :: FoundAll(limit, start, run, m, base, w.procs[m.pid].kind)
        else FailedOver(limit, start, run, w.moves, i))
    && (forall j | 0 <= j < i :: !By(w.moves[j], m.pid, m.forward))
  }

  ghost predicate FailedOver(limit: nat, start: World, run: seq<Action>, moves: seq<Move>, i: nat)
    requires i < |moves| && moves[i].Moved?
  {
    var m := moves[i];
    && HappenedIn(limit, start, run, m.pid, GateSaid(true)) && HappenedIn(limit, start, run, m.pid, DidSettle(m.to, m.from))
    && exists j | 0 <= j < i :: By(moves[j], m.pid, true) && moves[j].from == m.to && moves[j].to == m.from
  }

  ghost predicate FoundAll(limit: nat, start: World, run: seq<Action>, m: Move, base: Oid, kind: Kind)
    requires m.Moved?
  {
    && HappenedIn(limit, start, run, m.pid, DidRead(m.from, base)) && HappenedIn(limit, start, run, m.pid, DidBuild(m.to))
    && HappenedIn(limit, start, run, m.pid, DidRecheck(Built, m.from, base))
    && (kind == Recut ==> HappenedIn(limit, start, run, m.pid, DidRecheck(Tagged, m.from, base)))
  }

  /** No update of the branch is lost: the movements, everyone's, form one chain from the first tip to the present
      one, and each of a process's is honest. */
  lemma NoLostUpdate(limit: nat, branch: Oid, main: Oid, tags: map<nat, Oid>, run: seq<Action>)
    ensures var start := Initial(branch, main, tags); var w := Run(limit, start, run);
      Chained(branch, w) && forall i | 0 <= i < |w.moves| && w.moves[i].Moved? :: Honest(limit, start, run, w, i)
  {
    RunKeeps(limit, branch, main, tags, run);
    var w := Run(limit, Initial(branch, main, tags), run);
    hide Run, Honest;
    forall i | 0 <= i < |w.moves| && w.moves[i].Moved? ensures Honest(limit, Initial(branch, main, tags), run, w, i) {
      if w.moves[i].forward { ForwardHonest(limit, branch, main, tags, run, w, i); }
      else { BackHonest(limit, branch, main, tags, run, w, i); }
    }
  }

  /** What the invariant says of one movement. */
  lemma MoveIs(w: World, i: nat)
    requires MovesOk(w) && i < |w.moves| && w.moves[i].Moved?
    ensures var m := w.moves[i];
      && MoveOk(w, m) && (if m.forward then Advanced(w.moves, m.pid) else Reverted(w.moves, m.pid))
      && forall j | 0 <= j < i :: !By(w.moves[j], m.pid, m.forward)
  {
    hide MoveOk;
    var m := w.moves[i];
    assert By(m, m.pid, m.forward);
  }

  lemma ForwardHonest(limit: nat, branch: Oid, main: Oid, tags: map<nat, Oid>, run: seq<Action>, w: World, i: nat)
    requires w == Run(limit, Initial(branch, main, tags), run) && MovesOk(w)
    requires i < |w.moves| && w.moves[i].Moved? && w.moves[i].forward
    ensures Honest(limit, Initial(branch, main, tags), run, w, i)
  {
    hide Run, HappenedIn, MovesOk, Advanced, Reverted, Named;
    var m := w.moves[i];
    MoveIs(w, i);
    var base := w.procs[m.pid].base;
    RunAccounted(limit, branch, main, tags, run, m.pid, DidRead(m.from, base));
    RunAccounted(limit, branch, main, tags, run, m.pid, DidBuild(m.to));
    RunAccounted(limit, branch, main, tags, run, m.pid, DidRecheck(Built, m.from, base));
    if w.procs[m.pid].kind == Recut { RunAccounted(limit, branch, main, tags, run, m.pid, DidRecheck(Tagged, m.from, base)); }
    assert FoundAll(limit, Initial(branch, main, tags), run, m, base, w.procs[m.pid].kind);
  }

  lemma BackOver(w: World, i: nat) returns (j: nat)
    requires MovesOk(w) && i < |w.moves| && w.moves[i].Moved? && !w.moves[i].forward
    ensures j < i && By(w.moves[j], w.moves[i].pid, true) && w.moves[j].from == w.moves[i].to && w.moves[j].to == w.moves[i].from
  {
    var m := w.moves[i];
    assert MoveOk(w, m) && By(m, m.pid, false);
    assert Advanced(w.moves[..i], m.pid);
    j :| 0 <= j < i && By(w.moves[..i][j], m.pid, true);
    assert MoveOk(w, w.moves[j]);
  }

  lemma BackHonest(limit: nat, branch: Oid, main: Oid, tags: map<nat, Oid>, run: seq<Action>, w: World, i: nat)
    requires w == Run(limit, Initial(branch, main, tags), run) && MovesOk(w)
    requires i < |w.moves| && w.moves[i].Moved? && !w.moves[i].forward
    ensures Honest(limit, Initial(branch, main, tags), run, w, i)
  {
    var j := BackOver(w, i);
    MoveIs(w, i);
    hide Run, HappenedIn, MovesOk, Advanced, Reverted, Named;
    var m := w.moves[i];
    BackHappened(limit, branch, main, tags, run, w, i);
    assert FailedOver(limit, Initial(branch, main, tags), run, w.moves, i);
    hide FailedOver, By;
  }

  lemma BackHappened(limit: nat, branch: Oid, main: Oid, tags: map<nat, Oid>, run: seq<Action>, w: World, i: nat)
    requires w == Run(limit, Initial(branch, main, tags), run) && MovesOk(w)
    requires i < |w.moves| && w.moves[i].Moved? && !w.moves[i].forward
    ensures var m := w.moves[i]; var start := Initial(branch, main, tags);
      HappenedIn(limit, start, run, m.pid, GateSaid(true)) && HappenedIn(limit, start, run, m.pid, DidSettle(m.to, m.from))
  {
    hide Run, HappenedIn, MovesOk, Advanced, Reverted, Named;
    MoveIs(w, i);
    var m := w.moves[i];
    RunAccounted(limit, branch, main, tags, run, m.pid, GateSaid(true));
    RunAccounted(limit, branch, main, tags, run, m.pid, DidSettle(m.to, m.from));
  }

  /** A recut whose gate has passed is never taken back: unless somebody else moves the branch after it, the branch
      stays at its commit. */
  lemma PassedStays(limit: nat, branch: Oid, main: Oid, tags: map<nat, Oid>, run: seq<Action>, pid: Pid, i: nat)
    requires HappenedIn(limit, Initial(branch, main, tags), run, pid, GateSaid(false))
    requires var w := Run(limit, Initial(branch, main, tags), run); i < |w.moves| && By(w.moves[i], pid, true)
    ensures var w := Run(limit, Initial(branch, main, tags), run);
      && (forall j | 0 <= j < |w.moves| :: !By(w.moves[j], pid, false))
      && ((forall j | i < j < |w.moves| :: w.moves[j].Moved? && w.moves[j].pid == pid) ==> w.branch == w.moves[i].to)
  {
    var w := Run(limit, Initial(branch, main, tags), run);
    PassedStands(limit, branch, main, tags, run, pid);
    RunKeeps(limit, branch, main, tags, run);
    hide Run, HappenedIn;
    LastStays(branch, w, pid, i);
  }

  lemma LastStays(branch: Oid, w: World, pid: Pid, i: nat)
    requires MovesOk(w) && Chained(branch, w) && Stands(w, pid) && i < |w.moves| && By(w.moves[i], pid, true)
    ensures forall j | 0 <= j < |w.moves| :: !By(w.moves[j], pid, false)
    ensures (forall j | i < j < |w.moves| :: w.moves[j].Moved? && w.moves[j].pid == pid) ==> w.branch == w.moves[i].to
  {
    hide MoveOk, Passed;
    if i < |w.moves| - 1 { assert !By(w.moves[i + 1], pid, true) && !By(w.moves[i + 1], pid, false); }
  }

  /** A tip that a recut has replaced by its own commit has a tag, for good. */
  lemma ReplacedTipsTagged(limit: nat, branch: Oid, main: Oid, tags: map<nat, Oid>, run: seq<Action>, i: nat)
    requires var w := Run(limit, Initial(branch, main, tags), run);
      i < |w.moves| && w.moves[i].Moved? && w.moves[i].forward && w.moves[i].pid in w.procs
      && w.procs[w.moves[i].pid].kind == Recut
    ensures var w := Run(limit, Initial(branch, main, tags), run); Named(w.tags, w.moves[i].from)
  {
    RunKeeps(limit, branch, main, tags, run);
    var w := Run(limit, Initial(branch, main, tags), run);
    assert MoveOk(w, w.moves[i]);
  }

  /** Somebody other than the process has given the commit a name during the run. */
  ghost predicate NamedByOther(limit: nat, start: World, run: seq<Action>, oid: Oid, pid: Pid) {
    exists k | 0 <= k < |run| :: Names(Run(limit, start, run[..k]), run[k], oid) && !(run[k].Tag? && run[k].pid == pid)
  }

  /** A recut's own commit that a failed gate takes back has a tag exactly when it had one from the first, somebody
      else has named it, or it is the very tip that was replaced. */
  lemma RolledBackNamed(limit: nat, branch: Oid, main: Oid, tags: map<nat, Oid>, run: seq<Action>, i: nat)
    requires var w := Run(limit, Initial(branch, main, tags), run); i < |w.moves| && w.moves[i].Moved? && !w.moves[i].forward
    ensures var start := Initial(branch, main, tags); var w := Run(limit, start, run); var m := w.moves[i];
      Named(w.tags, m.from) <==> m.from == m.to || Named(tags, m.from) || NamedByOther(limit, start, run, m.from, m.pid)
  {
    var start := Initial(branch, main, tags);
    var w := Run(limit, start, run);
    var m := w.moves[i];
    RunKeeps(limit, branch, main, tags, run);
    TagsAccounted(limit, start, run, m.from);
    TipNamed(w, i);
    assert MoveOk(w, m);
    hide Run, Named, Sound, Names;
    if NamedIn(limit, start, run, m.from) {
      var k :| 0 <= k < |run| && Names(Run(limit, start, run[..k]), run[k], m.from);
      if run[k].Tag? && run[k].pid == m.pid { OwnTag(limit, start, run, k, m.from); }
    }
  }

  /** What the movement back restores has a tag. */
  lemma TipNamed(w: World, i: nat)
    requires MovesOk(w) && i < |w.moves| && w.moves[i].Moved? && !w.moves[i].forward
    ensures Named(w.tags, w.moves[i].to)
  {
    var j := BackOver(w, i);
    hide Named;
    assert MoveOk(w, w.moves[i]) && MoveOk(w, w.moves[j]);
  }

  /** Two processes are never both under the lock, and one that adopts has recorded its attempt. */
  lemma OneAtATime(limit: nat, branch: Oid, main: Oid, tags: map<nat, Oid>, run: seq<Action>, p: Pid, q: Pid)
    requires var w := Run(limit, Initial(branch, main, tags), run);
      p in w.procs && q in w.procs && Holds(w.procs[p].phase) && Holds(w.procs[q].phase)
    ensures p == q
  {
    RunKeeps(limit, branch, main, tags, run);
    var w := Run(limit, Initial(branch, main, tags), run);
    assert Local(limit, w, p, w.procs[p]) && Local(limit, w, q, w.procs[q]);
  }
}
