/** The code of a pass, effect by effect, crashing where it may (`run_pass` and below, src/ci_shadow.py). */
module CiRunner {
  import opened Seqs
  import opened CiShadow
  import opened CiPass

  // ---------------------------------------------------------------- the code, effect by effect

  function ToRecord(ledger: Ledger, st: State): nat {
    Missing(ledger, st.sha, Ci) + if st.pg then Missing(ledger, st.sha, Pg) else 0
  }

  /** The effects of a collection: the records not yet written, the branch and the file. */
  function ToCollect(ledger: Ledger, st: State): nat { ToRecord(ledger, st) + 2 }

  lemma OwnedRemove(files: Files, pushed: set<Sha>, lost: set<Sha>, p: nat)
    requires Owned(files, pushed, lost) && p in files && files[p].sha !in pushed
    ensures Owned(files - {p}, pushed, lost)
  {}

  lemma OtherKind(ledger: Ledger, r: Row, sha: Sha)
    requires r.Shadow? && r.kind == Ci
    ensures Missing(ledger + [r], sha, Pg) == Missing(ledger, sha, Pg)
  {
    if Recorded(ledger, sha, Pg) { RecordedGrows(ledger, ledger + [r], sha, Pg); }
    if Recorded(ledger + [r], sha, Pg) {
      var i :| 0 <= i <= |ledger| && IsShadow((ledger + [r])[i], sha, Pg);
      assert IsShadow(ledger[i], sha, Pg);
    }
  }

  /** The workflows not yet noted as started. */
  function ToStart(st: State): nat { if st.dispatched < st.paths then st.paths - st.dispatched else 0 }

  /** With `n` more of them noted, if there are so many. */
  function Advanced(st: State, n: nat): State {
    st.(dispatched := st.dispatched + if n < ToStart(st) then n else ToStart(st))
  }

  lemma PutTwice<K, V>(m: map<K, V>, k: K, v: V, w: V)
    ensures m[k := v][k := w] == m[k := w] && m[k := w].Keys == m.Keys + {k}
  {}

  lemma OwnName(ledger: Ledger, files: Files, started: map<Sha, bool>, lost: set<Sha>, p: nat)
    requires Safe(ledger, files, started, lost) && p in files
    ensures files[p].sha.prefix == p
  {}

  lemma BehindGrows(ledger: Ledger, more: Ledger, files: Files, pushed: set<Sha>)
    requires Behind(ledger, files, pushed) && ledger <= more
    ensures Behind(more, files, pushed)
  {
    forall p | p in files && Finished(ledger, files[p].sha, files[p].pg) ensures Finished(more, files[p].sha, files[p].pg) {
      RecordedGrows(ledger, more, files[p].sha, Ci);
      if files[p].pg { RecordedGrows(ledger, more, files[p].sha, Pg); }
    }
  }

  lemma BehindStore(ledger: Ledger, files: Files, pushed: set<Sha>, st: State)
    requires Behind(ledger, files, pushed) && (st.dispatched == 0 || st.sha in pushed)
    ensures Behind(ledger, files[st.sha.prefix := st], pushed)
  { hide Finished; }

  lemma BehindDelete(ledger: Ledger, files: Files, pushed: set<Sha>, sha: Sha)
    requires Behind(ledger, files, pushed) && forall p | p in files && files[p].sha == sha :: Finished(ledger, sha, files[p].pg)
    ensures Behind(ledger, files, pushed - {sha})
  { hide Finished; }

  /** One of the first `n` candidates is that commit, with nothing against running it. */
  ghost predicate FromCandidate(cs: seq<Candidate>, n: int, s: Sha) {
    exists k | 0 <= k < |cs| && k < n :: cs[k].sha == s && !cs[k].blocked && cs[k].runner
  }

  /** No comparison of the commit is in the ledger, of either kind. */
  ghost predicate Unseen(ledger: Ledger, s: Sha) { forall r | r in ledger && r.Shadow? :: r.sha != s }

  lemma CandidateNext(cs: seq<Candidate>, i: nat, first: set<Sha>, before: set<Sha>, now: set<Sha>)
    requires i < |cs| && forall s | s in before && s !in first :: FromCandidate(cs, i, s)
    requires now <= before + if !cs[i].blocked && cs[i].runner then {cs[i].sha} else {}
    ensures forall s | s in now && s !in first :: FromCandidate(cs, i + 1, s) && FromCandidate(cs, |cs|, s)
  {
    forall s | s in now && s !in first ensures FromCandidate(cs, i + 1, s) && FromCandidate(cs, |cs|, s) {
      if s in before {
        var k :| 0 <= k < |cs| && k < i && cs[k].sha == s && !cs[k].blocked && cs[k].runner;
      }
    }
  }

  lemma FreshIs(cs: seq<Candidate>, ledger: Ledger, files: Files)
    requires Fresh(cs, ledger, files)
    ensures forall s | FromCandidate(cs, |cs|, s) :: Unseen(ledger, s) && s.prefix !in files
  {
    forall s | FromCandidate(cs, |cs|, s) ensures Unseen(ledger, s) && s.prefix !in files {
      var k :| 0 <= k < |cs| && cs[k].sha == s && !cs[k].blocked && cs[k].runner;
      assert !Seen(ledger, cs[k].sha);
    }
  }

  /** No commit from `i` on has a state file of its name. */
  predicate Clear(cs: seq<Candidate>, i: nat, files: Files) {
    forall k | i <= k < |cs| :: cs[k].sha.prefix !in files
  }

  lemma ClearNext(cs: seq<Candidate>, i: nat, files: Files, now: Files)
    requires i < |cs| && Clear(cs, i, files) && Apart(cs) && now.Keys <= files.Keys + {cs[i].sha.prefix}
    requires forall k | i < k < |cs| :: cs[k].sha != cs[i].sha
    ensures Clear(cs, i + 1, now) && Overwritten(files, cs[i].sha) == {}
  {}

  lemma BothFinish(ledger: Ledger, st: State, v: Verdicts, now: int)
    ensures Finished(Both(ledger, st, v, now), st.sha, st.pg)
  {
    var one := Noted(ledger, st.sha, Ci, v.ci, now);
    if one != ledger { assert IsShadow(one[|ledger|], st.sha, Ci); }
    var two := Both(ledger, st, v, now);
    if two != one { assert IsShadow(two[|one|], st.sha, Pg); }
    RecordedGrows(one, two, st.sha, Ci);
  }

  lemma OnlyFile(ledger: Ledger, files: Files, started: map<Sha, bool>, lost: set<Sha>, p: nat)
    requires Safe(ledger, files, started, lost) && p in files
    ensures forall q | q in files && files[q].sha == files[p].sha :: q == p
  { hide Tracked; }

  lemma BehindRemove(ledger: Ledger, files: Files, pushed: set<Sha>, p: nat)
    requires Behind(ledger, files, pushed)
    ensures Behind(ledger, files - {p}, pushed)
  { hide Finished; }

  lemma NamesOwn(ledger: Ledger, files: Files, started: map<Sha, bool>, lost: set<Sha>)
    requires Safe(ledger, files, started, lost)
    ensures OwnNames(files)
  {}

  lemma ReadyNone(cs: seq<Candidate>)
    ensures Ready(cs[..0]) == []
  {}

  lemma AlongOne(m: Moment, now_: Moment, cs: seq<Candidate>, n: nat, now: int, keys: set<Sha>, before: set<Sha>, after: set<Sha>)
    requires n < |cs| && Along(Names(m.files), keys, Ready(cs[..n]), Names(now_.files), before)
    requires after == before + if !cs[n].blocked && cs[n].runner && |now_.files| < MAX_INFLIGHT then {cs[n].sha} else {}
    ensures Along(Names(m.files), keys, Ready(cs[..n + 1]), Names(Offered(now_, cs[n], now).files), after)
  {
    NamesSize(now_.files);
    NamesPut(now_.files, Begins(cs[n]));
    AlongNext(Names(m.files), keys, cs, n, Names(now_.files), before, Names(Offered(now_, cs[n], now).files), after);
    hide Names, Along, Ready, StartNames, Noted;
  }

  class Runner {
    var ledger: Ledger
    var files: Files
    var fuel: nat
    ghost var started: map<Sha, bool>
    ghost var lost: set<Sha>
    ghost var pushed: set<Sha>

    ghost predicate Ok()
      reads this
    { Safe(ledger, files, started, lost) && Owned(files, pushed, lost) && Behind(ledger, files, pushed) }

    ghost function Now(): Moment
      reads this
    { Moment(ledger, files, pushed) }

    constructor ()
      ensures Ok() && ledger == [] && files == map[] && started == map[] && lost == {} && pushed == {}
    { ledger, files, fuel, started, lost, pushed := [], map[], 0, map[], {}, {}; }

    /** One effect outside the model, or the crash before it. */
    method Effect() returns (alive: bool)
      modifies this`fuel
      ensures alive <==> old(fuel) > 0
      ensures fuel == if alive then old(fuel) - 1 else 0
    {
      alive := fuel > 0;
      if alive { fuel := fuel - 1; }
    }

    /** `git push` of a commit's branch. */
    method PushBranch(sha: Sha) returns (alive: bool)
      requires Ok() && HasFile(files, sha)
      modifies this`pushed, this`fuel
      ensures Ok() && pushed == old(pushed) + if alive then {sha} else {}
      ensures alive <==> old(fuel) > 0
      ensures fuel == if alive then old(fuel) - 1 else 0
    {
      hide Safe, Finished;
      alive := Effect();
      if alive { pushed := pushed + {sha}; }
    }

    /** `git push` of its deletion. */
    method DeleteBranch(sha: Sha) returns (alive: bool)
      requires Ok() && forall p | p in files && files[p].sha == sha :: Finished(ledger, sha, files[p].pg)
      modifies this`pushed, this`fuel
      ensures Ok() && pushed == old(pushed) - if alive then {sha} else {}
      ensures alive <==> old(fuel) > 0
      ensures fuel == if alive then old(fuel) - 1 else 0
    {
      hide Safe, Finished;
      alive := Effect();
      if alive {
        BehindDelete(ledger, files, pushed, sha);
        pushed := pushed - {sha};
      }
    }

    /** `_record`: a comparison already in the ledger is not written again. */
    method Record(sha: Sha, kind: Kind, identical: Option<bool>, ts: int) returns (alive: bool)
      requires Ok()
      modifies this`ledger, this`fuel
      ensures Ok() && ledger == if alive then Noted(old(ledger), sha, kind, identical, ts) else old(ledger)
      ensures old(ledger) <= ledger
      ensures fuel == if alive then old(fuel) - Missing(old(ledger), sha, kind) else 0
      ensures alive <==> old(fuel) >= Missing(old(ledger), sha, kind)
    {
      if Recorded(ledger, sha, kind) { return true; }
      alive := Effect();
      if alive {
        AppendShadow(ledger, files, started, lost, Shadow(sha, kind, ts, identical));
        BehindGrows(ledger, ledger + [Shadow(sha, kind, ts, identical)], files, pushed);
        ledger := ledger + [Shadow(sha, kind, ts, identical)];
      }
    }

    /** `_dispatch`: each workflow is started, then the state file says so. It notes as many as it survives. */
    method Dispatch(st: State) returns (alive: bool)
      requires Ok() && st.sha.prefix in files && files[st.sha.prefix] == st && st.sha in pushed
      modifies this`files, this`fuel
      ensures Ok() && files == old(files)[st.sha.prefix := Advanced(st, old(fuel) / 2)]
      ensures alive <==> old(fuel) >= 2 * ToStart(st)
      ensures fuel == if alive then old(fuel) - 2 * ToStart(st) else 0
    {
      hide Safe, Owned, Behind;
      var state := st;
      alive := true;
      ghost var n: nat := 0;
      assert files[st.sha.prefix := st] == files;
      while state.dispatched < state.paths
        invariant alive && Ok() && n <= ToStart(st) && state == st.(dispatched := st.dispatched + n)
        invariant fuel == old(fuel) - 2 * n
        invariant files == old(files)[st.sha.prefix := state]
        decreases state.paths - state.dispatched
      {
        alive := Effect();
        if !alive { return; }
        state := state.(dispatched := state.dispatched + 1);
        alive := Effect();
        if !alive { return; }
        StoreAgain(ledger, files, started, lost, state);
        OwnedAgain(files, pushed, lost, state);
        BehindStore(ledger, files, pushed, state);
        files := files[state.sha.prefix := state];
        n := n + 1;
      }
    }

    /** The comparisons of a shadow run: one record, or two with a Postgres side. */
    method RecordBoth(st: State, verdicts: Verdicts, now: int) returns (alive: bool)
      requires Ok()
      modifies this`ledger, this`fuel
      ensures Ok() && old(ledger) <= ledger <= Both(old(ledger), st, verdicts, now)
      ensures alive ==> ledger == Both(old(ledger), st, verdicts, now)
      ensures fuel == if alive then old(fuel) - ToRecord(old(ledger), st) else 0
      ensures alive <==> old(fuel) >= ToRecord(old(ledger), st)
    {
      hide Safe, Owned, Behind, Recorded;
      alive := Record(st.sha, Ci, verdicts.ci, now);
      if !alive { return; }
      if st.pg {
        if ledger != old(ledger) { OtherKind(old(ledger), ledger[|ledger| - 1], st.sha); }
        alive := Record(st.sha, Pg, verdicts.pg, now);
      }
    }

    /** `collect`: every record first, the remote branch next, the state file last. */
    method Collect(p: nat, verdicts: Option<Verdicts>, now: int) returns (alive: bool)
      requires Ok() && p in files
      modifies this`ledger, this`files, this`fuel, this`pushed
      ensures Ok() && old(ledger) <= ledger
      ensures verdicts.None? ==> alive && Now() == old(Now()) && fuel == old(fuel)
      ensures verdicts.Some? ==>
        var st := old(files)[p];
        && (if alive then Now() == Moment(Both(old(ledger), st, verdicts.value, now), old(files) - {p}, old(pushed) - {st.sha})
            else files == old(files) && (pushed == old(pushed) || ledger == Both(old(ledger), st, verdicts.value, now)))
        && fuel == (if alive then old(fuel) - ToCollect(old(ledger), st) else 0)
        && (alive <==> old(fuel) >= ToCollect(old(ledger), st))
    {
      hide Safe, Owned, Behind, Finished, Missing, Both;
      if verdicts.None? { return true; }
      var st := files[p];
      alive := RecordBoth(st, verdicts.value, now);
      if !alive { return; }
      BothFinish(old(ledger), st, verdicts.value, now);
      OnlyFile(ledger, files, started, lost, p);
      alive := DeleteBranch(st.sha);
      if !alive { return; }
      alive := Effect();
      if alive {
        Removed(ledger, files, started, lost, p);
        OwnedRemove(files, pushed, lost, p);
        BehindRemove(ledger, files, pushed, p);
        files := files - {p};
      }
    }

    /** The first `_store` of a run. */
    method StoreState(st: State) returns (alive: bool)
      requires Ok() && |files| < MAX_INFLIGHT && st.dispatched == 0
      modifies this`files, this`fuel, this`started, this`lost
      ensures Ok() && (!alive ==> files == old(files) && started == old(started) && lost == old(lost))
      ensures alive ==> files == old(files)[st.sha.prefix := st] && started == old(started)[st.sha := st.pg]
      ensures alive ==> lost == old(lost) + Overwritten(old(files), st.sha) - {st.sha}
      ensures alive <==> old(fuel) > 0
      ensures fuel == if alive then old(fuel) - 1 else 0
    {
      hide Safe, Owned, Behind, Overwritten;
      alive := Effect();
      if !alive { return; }
      OwnedStore(files, pushed, lost, st);
      StoreNew(ledger, files, started, lost, st);
      BehindStore(ledger, files, pushed, st);
      lost := lost + Overwritten(files, st.sha) - {st.sha};
      started := started[st.sha := st.pg];
      files := files[st.sha.prefix := st];
    }

    /** `start`: the state file first, then the branch, then the workflows. */
    method Start(c: Candidate, now: int) returns (alive: bool)
      requires Ok() && |files| < MAX_INFLIGHT
      modifies this
      ensures Ok() && old(ledger) <= ledger && files.Keys <= old(files).Keys + {c.sha.prefix}
      ensures lost <= old(lost) + Overwritten(old(files), c.sha)
      ensures forall s | s in old(started) :: s in started
      ensures started.Keys <= old(started.Keys) + if c.runner then {c.sha} else {}
      ensures alive ==> started.Keys == old(started.Keys) + if c.runner then {c.sha} else {}
      ensures alive && !c.runner ==> Now() == old(Now()).(ledger := Noted(old(ledger), c.sha, Ci, None, now))
      ensures alive && c.runner ==> Now() == Moment(old(ledger), old(files)[c.sha.prefix := Begins(c)], old(pushed) + {c.sha})
      ensures fuel <= old(fuel) && (!alive ==> fuel == 0)
    {
      hide Safe, Owned, Behind, Overwritten, Missing, Noted;
      if !c.runner {
        alive := Record(c.sha, Ci, None, now);
        return;
      }
      var st := State(c.sha, c.pg, c.paths, 0);
      alive := StoreState(st);
      if !alive { return; }
      alive := PushBranch(c.sha);
      if !alive { return; }
      PutTwice(old(files), c.sha.prefix, st, Advanced(st, fuel / 2));
      alive := Dispatch(st);
    }

    /** The retry of a young state file, and its collection if it has finished. */
    method Sweep(p: nat, input: Input) returns (alive: bool)
      requires Ok() && p in files
      modifies this`ledger, this`files, this`fuel, this`pushed
      ensures Ok() && old(ledger) <= ledger && files.Keys <= old(files).Keys
      ensures alive ==> Now() == Collected(Retry(old(Now()), p, input), p, input)
      ensures fuel <= old(fuel) && (!alive ==> fuel == 0)
    {
      hide Safe, Owned, Behind, Missing, Both;
      var st := files[p];
      if p in input.young && st.dispatched < st.paths {
        OwnName(ledger, files, started, lost, p);
        alive := PushBranch(st.sha);
        if !alive { return; }
        alive := Dispatch(st);
        if !alive { return; }
      }
      alive := Collect(p, if p in input.finished then Some(input.finished[p]) else None, input.now);
    }

    /** The loop over the state files: a young one whose workflows are not all started is retried, a finished
        one collected. */
    method CollectAll(input: Input) returns (alive: bool)
      requires Ok()
      modifies this`ledger, this`files, this`fuel, this`pushed
      ensures Ok() && old(ledger) <= ledger && files.Keys <= old(files).Keys
      ensures alive ==> Swept(old(Now()), Now(), input, old(files).Keys)
      ensures fuel <= old(fuel) && (!alive ==> fuel == 0)
    {
      hide Safe, Owned, Behind, Swept, Collected, Retry;
      var left := files.Keys;
      alive := true;
      SweptNone(Now(), input);
      NamesOwn(ledger, files, started, lost);
      assert old(files).Keys - left == {};
      while left != {}
        invariant alive && fuel <= old(fuel) && Ok() && old(ledger) <= ledger && files.Keys <= old(files).Keys && left <= old(files).Keys
        invariant Swept(old(Now()), Now(), input, old(files).Keys - left)
        decreases left
      {
        var p :| p in left;
        SweptNext(old(Now()), Now(), input, old(files).Keys - left, p);
        assert old(files).Keys - (left - {p}) == old(files).Keys - left + {p};
        left := left - {p};
        alive := Sweep(p, input);
        if !alive { return; }
      }
      assert old(files).Keys - left == old(files).Keys;
    }

    method StartOne(c: Candidate, now: int) returns (alive: bool)
      requires Ok()
      modifies this
      ensures Ok() && old(ledger) <= ledger && files.Keys <= old(files).Keys + {c.sha.prefix}
      ensures lost <= old(lost) + Overwritten(old(files), c.sha)
      ensures forall s | s in old(started) :: s in started
      ensures started.Keys <= old(started.Keys) + if !c.blocked && c.runner then {c.sha} else {}
      ensures alive ==>
        started.Keys == old(started.Keys) + if !c.blocked && c.runner && |old(files)| < MAX_INFLIGHT then {c.sha} else {}
      ensures alive ==> Now() == Offered(old(Now()), c, now)
      ensures fuel <= old(fuel) && (!alive ==> fuel == 0)
    {
      hide Safe, Owned, Behind, Overwritten, Missing, Noted, Begins;
      alive := true;
      if c.blocked {
        alive := Record(c.sha, Ci, None, now);
      } else if |files| < MAX_INFLIGHT {
        alive := Start(c, now);
      }
    }

    /** The loop over the candidates. */
    method StartAll(cs: seq<Candidate>, now: int) returns (alive: bool)
      requires Ok() && Fresh(cs, ledger, files)
      modifies this
      ensures Ok() && old(ledger) <= ledger
      ensures Apart(cs) ==> lost <= old(lost)
      ensures forall s | s in old(started) :: s in started
      ensures alive ==> started.Keys == old(started.Keys) + Begun(Names(old(files)), Ready(cs))
      ensures alive ==> StartedTo(old(Now()), Now(), cs, |cs|, now)
      ensures forall s | s in started && s !in old(started) ::
                FromCandidate(cs, |cs|, s) && Unseen(old(ledger), s) && s.prefix !in old(files)
      ensures fuel <= old(fuel) && (!alive ==> fuel == 0)
    {
      alive := true;
      hide Names, Safe, Owned, Behind, Apart, Along, Ready, StartNames, Begun, StartedTo, Noted;
      AlongNone(Names(files), started.Keys);
      StartedNone(Now(), cs, now);
      FreshIs(cs, ledger, files);
      assert cs[..0] == [];
      assert Ready(cs[..0]) == [] by { ReadyNone(cs); }
      for i := 0 to |cs|
        invariant alive && fuel <= old(fuel) && Ok() && old(ledger) <= ledger
        invariant Apart(cs) ==> lost <= old(lost) && Clear(cs, i, files)
        invariant forall s | s in old(started) :: s in started
        invariant StartedTo(old(Now()), Now(), cs, i, now)
        invariant Along(Names(old(files)), old(started.Keys), Ready(cs[..i]), Names(files), started.Keys)
        invariant forall s | s in started && s !in old(started) :: FromCandidate(cs, i, s)
      {
        ghost var before, keys := Now(), started.Keys;
        alive := StartOne(cs[i], now);
        CandidateNext(cs, i, old(started.Keys), keys, started.Keys);
        if Apart(cs) { ClearNext(cs, i, before.files, files); }
        if !alive { return; }
        StartedNext(old(Now()), before, cs, i, now);
        AlongOne(old(Now()), before, cs, i, now, old(started.Keys), keys, started.Keys);
      }
      assert cs[..|cs|] == cs;
      AlongIs(Names(old(files)), old(started.Keys), Ready(cs), Names(files), started.Keys);
    }

    method PassDay(kind: Kind, now: int) returns (alive: bool)
      requires Ok()
      modifies this`ledger, this`fuel
      ensures Ok() && old(ledger) <= ledger
      ensures if alive then DayPassed(old(ledger), ledger, kind, now) else ledger == old(ledger) && fuel == 0
      ensures fuel <= old(fuel)
    {
      hide Safe, Owned, CleanDay, Ends, Window, Ordered, Shas;
      var passed := Day(ledger, kind, now);
      if passed.None? { return true; }
      alive := Effect();
      if alive {
        NotEmitted(ledger, kind, now, passed.value.to);
        AppendPassed(ledger, files, started, lost, passed.value);
        BehindGrows(ledger, ledger + [passed.value], files, pushed);
        ledger := ledger + [passed.value];
        assert Ends(old(ledger), kind, now, passed.value.to);
      }
    }

    /** The two daily verdicts. */
    method PassDays(now: int) returns (alive: bool, ghost between: Ledger)
      requires Ok()
      modifies this`ledger, this`fuel
      ensures Ok() && old(ledger) <= ledger
      ensures alive ==> DayPassed(old(ledger), between, Ci, now) && DayPassed(between, ledger, Pg, now)
      ensures fuel <= old(fuel) && (!alive ==> fuel == 0)
    {
      hide Safe, Owned, Behind, DayPassed;
      alive := PassDay(Ci, now);
      between := ledger;
      if alive { alive := PassDay(Pg, now); }
    }

    /** `run_pass` under its lock: it goes through unless a crash ends it. */
    method Pass(input: Input) returns (completed: bool)
      requires Ok()
      modifies this
      ensures Ok() && old(ledger) <= ledger
      ensures Apart(input.found) ==> lost <= old(lost)
      ensures forall s | s in old(started) :: s in started
      ensures forall s | s in started && s !in old(started) :: FromCandidate(input.found, |input.found|, s) && Unseen(old(ledger), s)
      ensures completed ==> exists c :: Ran(old(Now()), Now(), input, c)
      ensures fuel <= input.fuel && (!completed ==> fuel == 0)
    {
      hide Swept, StartedTo, DayPassed, Safe, Owned, Behind, FromCandidate, Unseen, Apart, Fresh, Chosen, Names, Ready, Begun;
      fuel := input.fuel;
      completed := CollectAll(input);
      if !completed { return; }
      var cs := Candidates(input.found, ledger, files);
      ApartSome(input.found, cs, ledger, files);
      FromFound(input.found, cs, ledger, files);
      FreshOnes(input.found, cs, ledger, files);
      ghost var swept := Now();
      completed := StartAll(cs, input.now);
      UnseenBefore(old(ledger), swept.ledger);
      if !completed { return; }
      ghost var begun, between := Now(), ledger;
      completed, between := PassDays(input.now);
      assert completed ==> Ran(old(Now()), Now(), input, Course(swept, cs, begun, between));
    }

    /** Any sequence of passes, each crashing where it may: at most one record for each commit and kind, at most
        three state files, no two passes of a kind for the same instant, and no workflow started for a commit whose
        branch is not there, unless its records are. Unless two commits of one pass share their first twelve
        digits, no started commit loses its state file before all its records are written, and no branch stays
        behind without a state file. */
    method Passes(inputs: seq<Input>)
      requires Ok()
      modifies this
      ensures OneRecordEach(ledger) && PassesApart(ledger) && |files| <= MAX_INFLIGHT
      ensures forall p | p in files && files[p].dispatched > 0 ::
                files[p].sha in pushed || Finished(ledger, files[p].sha, files[p].pg)
      ensures forall s | s in old(started) :: s in started
      ensures old(lost) == {} && (forall i | 0 <= i < |inputs| :: Apart(inputs[i].found)) ==>
        (forall s | s in started :: HasFile(files, s) || Finished(ledger, s, started[s])) && forall s | s in pushed :: HasFile(files, s)
    {
      for i := 0 to |inputs|
        invariant Ok()
        invariant forall s | s in old(started) :: s in started
        invariant old(lost) == {} && (forall k | 0 <= k < i :: Apart(inputs[k].found)) ==> lost == {}
      {
        var _ := Pass(inputs[i]);
      }
    }
  }

  lemma NotEmitted(ledger: Ledger, kind: Kind, now: int, to: int)
    requires CleanDay(ledger, kind, now, to)
    ensures forall i | 0 <= i < |ledger| && ledger[i].Passed? :: ledger[i].kind != kind || ledger[i].to != to
  {}

  lemma FromFound(found: seq<Candidate>, cs: seq<Candidate>, ledger: Ledger, files: Files)
    requires Chosen(cs, found, ledger, files)
    ensures forall s | FromCandidate(cs, |cs|, s) :: FromCandidate(found, |found|, s)
  {
    forall s | FromCandidate(cs, |cs|, s) ensures FromCandidate(found, |found|, s) {
      var k :| 0 <= k < |cs| && cs[k].sha == s && !cs[k].blocked && cs[k].runner;
      assert cs[k] in found;
      var n :| 0 <= n < |found| && found[n] == cs[k];
    }
  }

  lemma UnseenBefore(ledger: Ledger, more: Ledger)
    requires ledger <= more
    ensures forall s | Unseen(more, s) :: Unseen(ledger, s)
  { forall r | r in ledger ensures r in more { var i :| 0 <= i < |ledger| && ledger[i] == r; assert more[i] == r; } }

  lemma FreshOnes(found: seq<Candidate>, cs: seq<Candidate>, ledger: Ledger, files: Files)
    requires Chosen(cs, found, ledger, files)
    ensures Fresh(cs, ledger, files)
  {}

  lemma ApartSome(found: seq<Candidate>, cs: seq<Candidate>, ledger: Ledger, files: Files)
    requires Chosen(cs, found, ledger, files)
    ensures Apart(found) ==> Apart(cs)
  {
    if Apart(found) {
      forall i, j | 0 <= i < |cs| && 0 <= j < |cs| && cs[i].sha.prefix == cs[j].sha.prefix ensures cs[i].sha == cs[j].sha {
        assert cs[i] in found && cs[j] in found;
      }
    }
  }
}
