/** What a pass over the shadow runs does when nothing cuts it short (`run_pass`, src/ci_shadow.py). */
module CiPass {
  import opened Seqs
  import opened CiShadow

  // ---------------------------------------------------------------- records

  /** `_record`: a comparison already in the ledger is not written again. */
  function Noted(ledger: Ledger, sha: Sha, kind: Kind, identical: Option<bool>, ts: int): Ledger {
    if Recorded(ledger, sha, kind) then ledger else ledger + [Shadow(sha, kind, ts, identical)]
  }

  /** The comparisons of a shadow run: one record, or two with a Postgres side. */
  function Both(ledger: Ledger, st: State, v: Verdicts, now: int): Ledger {
    var one := Noted(ledger, st.sha, Ci, v.ci, now);
    if st.pg then Noted(one, st.sha, Pg, v.pg, now) else one
  }

  /** From `l0` to `l1` the rows were added that the ledger had no comparison for, and no others. */
  ghost predicate NotedRows(l0: Ledger, l1: Ledger, rows: set<Row>) {
    && l0 <= l1
    && (forall r | r in rows :: r.Shadow? && (r in l1 || Recorded(l0, r.sha, r.kind)))
    && (forall r | r in l1 :: r in l0 || r in rows)
  }

  lemma RecordedBefore(l0: Ledger, l1: Ledger, rows: set<Row>, sha: Sha, kind: Kind)
    requires NotedRows(l0, l1, rows) && forall x | x in rows :: x.Shadow? && (x.sha != sha || x.kind != kind)
    ensures Recorded(l1, sha, kind) <==> Recorded(l0, sha, kind)
  {
    if Recorded(l0, sha, kind) { RecordedGrows(l0, l1, sha, kind); }
    if Recorded(l1, sha, kind) {
      var i :| 0 <= i < |l1| && IsShadow(l1[i], sha, kind);
      assert l1[i] in l0;
      var j :| 0 <= j < |l0| && l0[j] == l1[i];
      assert IsShadow(l0[j], sha, kind);
    }
  }

  lemma RowsNext(l0: Ledger, l1: Ledger, rows: set<Row>, r: Row)
    requires NotedRows(l0, l1, rows) && r.Shadow?
    requires forall x | x in rows :: x.Shadow? && (x.sha != r.sha || x.kind != r.kind)
    ensures NotedRows(l0, Noted(l1, r.sha, r.kind, r.identical, r.ts), rows + {r})
  {
    RecordedBefore(l0, l1, rows, r.sha, r.kind);
    hide Recorded;
    var next := Noted(l1, r.sha, r.kind, r.identical, r.ts);
    forall x | x in rows + {r} ensures x.Shadow? && (x in next || Recorded(l0, x.sha, x.kind)) {
      if next != l1 { assert next[|l1|] == r; }
    }
  }

  // ---------------------------------------------------------------- the sweep over the state files

  predicate Lacks(st: State) { st.dispatched < st.paths }

  function Settled(st: State): State { if Lacks(st) then st.(dispatched := st.paths) else st }

  /** The state files when those named in `done` were dealt with: a finished one is gone, a young one has every
      workflow started. */
  function FilesTo(before: Files, young: set<nat>, finished: map<nat, Verdicts>, done: set<nat>): Files {
    map p | p in before && !(p in done && p in finished) ::
      if p in done && p in young then Settled(before[p]) else before[p]
  }

  function Retried(before: Files, young: set<nat>, done: set<nat>): set<Sha> {
    set p | p in done && p in before && p in young && Lacks(before[p]) :: before[p].sha
  }

  function Deleted(before: Files, finished: map<nat, Verdicts>, done: set<nat>): set<Sha> {
    set p | p in done && p in before && p in finished :: before[p].sha
  }

  function AnswersOf(st: State, v: Verdicts, now: int): set<Row> {
    {Shadow(st.sha, Ci, now, v.ci)} + if st.pg then {Shadow(st.sha, Pg, now, v.pg)} else {}
  }

  function Answers(before: Files, finished: map<nat, Verdicts>, done: set<nat>, now: int): set<Row> {
    set p, r | p in done && p in before && p in finished && r in AnswersOf(before[p], finished[p], now) :: r
  }

  /** Ledger, state files and pushed branches at one moment. */
  datatype Moment = Moment(ledger: Ledger, files: Files, pushed: set<Sha>)

  ghost predicate Swept(m: Moment, now_: Moment, input: Input, done: set<nat>) {
    && now_.files == FilesTo(m.files, input.young, input.finished, done)
    && now_.pushed == m.pushed + Retried(m.files, input.young, done) - Deleted(m.files, input.finished, done)
    && NotedRows(m.ledger, now_.ledger, Answers(m.files, input.finished, done, input.now))
  }

  /** One state file dealt with. */
  function Retry(m: Moment, p: nat, input: Input): Moment
    requires p in m.files
  {
    if p in input.young && Lacks(m.files[p]) then
      Moment(m.ledger, m.files[p := Settled(m.files[p])], m.pushed + {m.files[p].sha})
    else m
  }

  function Collected(m: Moment, p: nat, input: Input): Moment
    requires p in m.files
  {
    if p in input.finished then
      Moment(Both(m.ledger, m.files[p], input.finished[p], input.now), m.files - {p}, m.pushed - {m.files[p].sha})
    else m
  }

  predicate OwnNames(files: Files) { forall p | p in files :: files[p].sha.prefix == p }

  lemma SweptNone(m: Moment, input: Input)
    ensures Swept(m, m, input, {})
  {}

  lemma AnswersNext(before: Files, finished: map<nat, Verdicts>, done: set<nat>, p: nat, now: int)
    ensures Answers(before, finished, done + {p}, now) == Answers(before, finished, done, now)
      + if p in before && p in finished then AnswersOf(before[p], finished[p], now) else {}
  { hide AnswersOf; }

  lemma AnswersApart(before: Files, finished: map<nat, Verdicts>, done: set<nat>, p: nat, now: int)
    requires OwnNames(before) && p in before && p !in done
    ensures forall x | x in Answers(before, finished, done, now) :: x.Shadow? && x.sha != before[p].sha
  {}

  lemma BothNoted(l0: Ledger, l1: Ledger, rows: set<Row>, st: State, v: Verdicts, now: int)
    requires NotedRows(l0, l1, rows) && forall x | x in rows :: x.Shadow? && x.sha != st.sha
    ensures NotedRows(l0, Both(l1, st, v, now), rows + AnswersOf(st, v, now))
  {
    var ci, pg := Shadow(st.sha, Ci, now, v.ci), Shadow(st.sha, Pg, now, v.pg);
    RowsNext(l0, l1, rows, ci);
    if st.pg { RowsNext(l0, Noted(l1, st.sha, Ci, v.ci, now), rows + {ci}, pg); }
    hide NotedRows, Noted;
    assert rows + {ci} + {pg} == rows + ({ci} + {pg});
    assert st.pg ==> AnswersOf(st, v, now) == {ci} + {pg};
    assert !st.pg ==> AnswersOf(st, v, now) == {ci};
  }

  lemma FilesNext(before: Files, now: Files, young: set<nat>, finished: map<nat, Verdicts>, done: set<nat>, p: nat)
    requires p in before && p !in done && now == FilesTo(before, young, finished, done)
    ensures p in now && now[p] == before[p]
    ensures var retried := if p in young && Lacks(before[p]) then now[p := Settled(before[p])] else now;
      FilesTo(before, young, finished, done + {p}) == if p in finished then retried - {p} else retried
  {}

  lemma BranchesNext(before: Files, pushed: set<Sha>, young: set<nat>, finished: map<nat, Verdicts>, done: set<nat>, p: nat)
    requires OwnNames(before) && p in before && p !in done
    ensures var now := pushed + Retried(before, young, done) - Deleted(before, finished, done);
      var retried := if p in young && Lacks(before[p]) then now + {before[p].sha} else now;
      pushed + Retried(before, young, done + {p}) - Deleted(before, finished, done + {p}) ==
      if p in finished then retried - {before[p].sha} else retried
  {
    assert before[p].sha !in Deleted(before, finished, done);
    var one, gone := if p in young && Lacks(before[p]) then {before[p].sha} else {}, if p in finished then {before[p].sha} else {};
    assert Retried(before, young, done + {p}) == Retried(before, young, done) + one;
    assert Deleted(before, finished, done + {p}) == Deleted(before, finished, done) + gone;
    hide Retried, Deleted, Lacks;
  }

  lemma SweptNext(m: Moment, now: Moment, input: Input, done: set<nat>, p: nat)
    requires OwnNames(m.files) && Swept(m, now, input, done) && p in m.files && p !in done
    ensures p in now.files && now.files[p] == m.files[p]
    ensures Swept(m, Collected(Retry(now, p, input), p, input), input, done + {p})
  {
    FilesNext(m.files, now.files, input.young, input.finished, done, p);
    BranchesNext(m.files, m.pushed, input.young, input.finished, done, p);
    AnswersNext(m.files, input.finished, done, p, input.now);
    AnswersApart(m.files, input.finished, done, p, input.now);
    if p in input.finished {
      BothNoted(m.ledger, now.ledger, Answers(m.files, input.finished, done, input.now), m.files[p], input.finished[p], input.now);
    }
    hide FilesTo, Retried, Deleted, Answers, NotedRows, Noted, AnswersOf, OwnNames;
  }

  // ---------------------------------------------------------------- the loop over the candidates

  /** After the commits `rs`: whose names the state files bear, and which commits were started. */
  predicate Along(names: map<nat, Sha>, keys: set<Sha>, rs: seq<Sha>, names': map<nat, Sha>, keys': set<Sha>) {
    names' == StartNames(names, rs) && keys' == keys + Begun(names, rs)
  }

  lemma AlongNone(names: map<nat, Sha>, keys: set<Sha>)
    ensures Along(names, keys, [], names, keys)
  {}

  lemma AlongIs(names: map<nat, Sha>, keys: set<Sha>, rs: seq<Sha>, names': map<nat, Sha>, keys': set<Sha>)
    requires Along(names, keys, rs, names', keys')
    ensures names' == StartNames(names, rs) && keys' == keys + Begun(names, rs)
  {}

  predicate Takes(c: Candidate, names: map<nat, Sha>) { !c.blocked && c.runner && |names| < MAX_INFLIGHT }

  lemma AlongNext(names: map<nat, Sha>, keys: set<Sha>, cs: seq<Candidate>, i: nat,
                  before: map<nat, Sha>, keysBefore: set<Sha>, now: map<nat, Sha>, keysNow: set<Sha>)
    requires i < |cs| && Along(names, keys, Ready(cs[..i]), before, keysBefore)
    requires now == if Takes(cs[i], before) then before[cs[i].sha.prefix := cs[i].sha] else before
    requires keysNow == keysBefore + if Takes(cs[i], before) then {cs[i].sha} else {}
    ensures Along(names, keys, Ready(cs[..i + 1]), now, keysNow)
  {
    hide Ready, StartNames, Begun;
    ReadyNext(cs, i);
    StartNext(names, Ready(cs[..i]), cs[i].sha);
    BegunNext(names, Ready(cs[..i]), cs[i].sha);
    assert Ready(cs[..i]) + [] == Ready(cs[..i]);
  }

  /** Turned away: blocked from the first, or without a runner when a place was free. */
  predicate Turned(names: map<nat, Sha>, cs: seq<Candidate>, i: nat)
    requires i < |cs|
  { cs[i].blocked || (!cs[i].runner && |StartNames(names, Ready(cs[..i]))| < MAX_INFLIGHT) }

  function TurnedRows(names: map<nat, Sha>, cs: seq<Candidate>, n: nat, now: int): set<Row>
    requires n <= |cs|
  { set i | 0 <= i < n && Turned(names, cs, i) :: Shadow(cs[i].sha, Ci, now, None) }

  function Begins(c: Candidate): State { State(c.sha, c.pg, c.paths, c.paths) }

  /** Every state file was there before or is that of one of the first `n`. */
  ghost predicate Known(before: Files, now: Files, cs: seq<Candidate>, n: nat)
    requires n <= |cs|
  {
    forall p | p in now :: (p in before && now[p] == before[p]) || exists i | 0 <= i < n :: now[p] == Begins(cs[i])
  }

  /** After the first `n` candidates. */
  ghost predicate StartedTo(m: Moment, now_: Moment, cs: seq<Candidate>, n: nat, now: int)
    requires n <= |cs|
  {
    && Along(Names(m.files), m.pushed, Ready(cs[..n]), Names(now_.files), now_.pushed)
    && NotedRows(m.ledger, now_.ledger, TurnedRows(Names(m.files), cs, n, now))
    && Known(m.files, now_.files, cs, n)
  }

  /** What the body of the loop makes of one candidate. */
  function Offered(m: Moment, c: Candidate, now: int): Moment {
    if c.blocked || (!c.runner && |m.files| < MAX_INFLIGHT) then m.(ledger := Noted(m.ledger, c.sha, Ci, None, now))
    else if |m.files| < MAX_INFLIGHT then
      Moment(m.ledger, m.files[c.sha.prefix := Begins(c)], m.pushed + {c.sha})
    else m
  }

  lemma StartedNone(m: Moment, cs: seq<Candidate>, now: int)
    ensures StartedTo(m, m, cs, 0, now)
  { assert cs[..0] == []; }

  lemma TurnedNext(names: map<nat, Sha>, cs: seq<Candidate>, n: nat, now: int)
    requires n < |cs|
    ensures TurnedRows(names, cs, n + 1, now) ==
      TurnedRows(names, cs, n, now) + if Turned(names, cs, n) then {Shadow(cs[n].sha, Ci, now, None)} else {}
  { hide Turned; }

  lemma TurnedNoted(names: map<nat, Sha>, cs: seq<Candidate>, n: nat, now: int, l0: Ledger, l1: Ledger)
    requires n < |cs| && NotedRows(l0, l1, TurnedRows(names, cs, n, now)) && forall k | 0 <= k < n :: cs[k].sha != cs[n].sha
    ensures NotedRows(l0, if Turned(names, cs, n) then Noted(l1, cs[n].sha, Ci, None, now) else l1, TurnedRows(names, cs, n + 1, now))
  {
    TurnedNext(names, cs, n, now);
    if Turned(names, cs, n) { RowsNext(l0, l1, TurnedRows(names, cs, n, now), Shadow(cs[n].sha, Ci, now, None)); }
    hide Turned, NotedRows, Noted;
  }

  lemma KnownNext(before: Files, now: Files, cs: seq<Candidate>, n: nat)
    requires n < |cs| && Known(before, now, cs, n)
    ensures Known(before, now, cs, n + 1) && Known(before, now[cs[n].sha.prefix := Begins(cs[n])], cs, n + 1)
  {
    hide Begins;
    forall p | p in now
      ensures (p in before && now[p] == before[p]) || exists i | 0 <= i < n + 1 :: now[p] == Begins(cs[i])
    {
      if !(p in before && now[p] == before[p]) { var i :| 0 <= i < n && now[p] == Begins(cs[i]); }
    }
    var next := now[cs[n].sha.prefix := Begins(cs[n])];
    forall p | p in next
      ensures (p in before && next[p] == before[p]) || exists i | 0 <= i < n + 1 :: next[p] == Begins(cs[i])
    {
      if p != cs[n].sha.prefix { assert p in now && next[p] == now[p]; } else { assert next[p] == Begins(cs[n]); }
    }
  }

  lemma AlongOffered(m: Moment, now_: Moment, cs: seq<Candidate>, n: nat, now: int)
    requires n < |cs| && Along(Names(m.files), m.pushed, Ready(cs[..n]), Names(now_.files), now_.pushed)
    ensures var next := Offered(now_, cs[n], now);
      Along(Names(m.files), m.pushed, Ready(cs[..n + 1]), Names(next.files), next.pushed)
    ensures |now_.files| == |StartNames(Names(m.files), Ready(cs[..n]))|
  {
    var next := Offered(now_, cs[n], now);
    NamesSize(now_.files);
    NamesPut(now_.files, Begins(cs[n]));
    AlongIs(Names(m.files), m.pushed, Ready(cs[..n]), Names(now_.files), now_.pushed);
    AlongNext(Names(m.files), m.pushed, cs, n, Names(now_.files), now_.pushed, Names(next.files), next.pushed);
    hide Names, Along, Ready, StartNames, Noted;
  }

  lemma StartedNext(m: Moment, now_: Moment, cs: seq<Candidate>, n: nat, now: int)
    requires n < |cs| && StartedTo(m, now_, cs, n, now) && forall k | 0 <= k < n :: cs[k].sha != cs[n].sha
    ensures StartedTo(m, Offered(now_, cs[n], now), cs, n + 1, now)
  {
    AlongOffered(m, now_, cs, n, now);
    TurnedNoted(Names(m.files), cs, n, now, m.ledger, now_.ledger);
    KnownNext(m.files, now_.files, cs, n);
    hide Names, Along, Ready, StartNames, NotedRows, TurnedRows, Noted, Known, Begins;
  }

  // ---------------------------------------------------------------- the daily verdicts

  /** The latest clean day is passed, if there is one. */
  ghost predicate DayPassed(l0: Ledger, l1: Ledger, kind: Kind, now: int) {
    || (l1 == l0 && forall t | Ends(l0, kind, now, t) :: !CleanDay(l0, kind, now, t))
    || exists to | Ends(l0, kind, now, to) ::
         && CleanDay(l0, kind, now, to) && (forall t | t > to && Ends(l0, kind, now, t) :: !CleanDay(l0, kind, now, t))
         && l1 == l0 + [Passed(kind, now, to, Shas(Ordered(Window(l0, kind, now, to))))]
  }

  // ---------------------------------------------------------------- a whole pass

  /** The way of a pass: after the sweep, the candidates, after them, and after the first verdict. */
  datatype Course = Course(swept: Moment, cs: seq<Candidate>, begun: Moment, passed: Ledger)

  ghost predicate Ran(m: Moment, end: Moment, input: Input, c: Course) {
    && Swept(m, c.swept, input, m.files.Keys)
    && Chosen(c.cs, input.found, c.swept.ledger, c.swept.files)
    && StartedTo(c.swept, c.begun, c.cs, |c.cs|, input.now)
    && DayPassed(c.begun.ledger, c.passed, Ci, input.now) && DayPassed(c.passed, end.ledger, Pg, input.now)
    && end.files == c.begun.files && end.pushed == c.begun.pushed
  }

  // ---------------------------------------------------------------- what a pass leaves behind

  lemma {:induction false} NamesGrow(names: map<nat, Sha>, cs: seq<Candidate>, i: nat, n: nat)
    requires i <= n <= |cs|
    ensures StartNames(names, Ready(cs[..i])).Keys <= StartNames(names, Ready(cs[..n])).Keys
    ensures |StartNames(names, Ready(cs[..i]))| <= |StartNames(names, Ready(cs[..n]))|
    decreases n
  {
    hide Ready, StartNames;
    if i < n {
      NamesGrow(names, cs, i, n - 1);
      ReadyNext(cs, n - 1);
      var before := Ready(cs[..n - 1]);
      assert before + [] == before;
      StartNext(names, before, cs[n - 1].sha);
      Put(StartNames(names, before), cs[n - 1].sha.prefix, cs[n - 1].sha);
    }
  }

  lemma {:induction false} NamesOf(names: map<nat, Sha>, rs: seq<Sha>)
    ensures names.Keys <= StartNames(names, rs).Keys
    ensures forall p | p in StartNames(names, rs) ::
              (p in names && StartNames(names, rs)[p] == names[p]) || (StartNames(names, rs)[p].prefix == p && StartNames(names, rs)[p] in rs)
  { if rs != [] { NamesOf(names, rs[..|rs| - 1]); } }

  lemma {:induction false} ReadyOf(cs: seq<Candidate>, s: Sha)
    requires s in Ready(cs)
    ensures exists i | 0 <= i < |cs| :: cs[i].sha == s && !cs[i].blocked && cs[i].runner
  {
    var k := |cs| - 1;
    if s in Ready(cs[..k]) {
      ReadyOf(cs[..k], s);
      var i :| 0 <= i < k && cs[..k][i].sha == s && !cs[..k][i].blocked && cs[..k][i].runner;
      assert cs[i].sha == s;
    } else { assert cs[k].sha == s; }
  }

  lemma StartedOf(m: Moment, end: Moment, cs: seq<Candidate>, now: int, s: Sha)
    requires StartedTo(m, end, cs, |cs|, now) && s in end.pushed && s !in m.pushed
    ensures exists i | 0 <= i < |cs| :: cs[i].sha == s
  {
    assert cs[..|cs|] == cs;
    AlongIs(Names(m.files), m.pushed, Ready(cs), Names(end.files), end.pushed);
    BegunIn(Names(m.files), Ready(cs), s);
    ReadyOf(cs, s);
  }

  lemma SeenGrows(ledger: Ledger, more: Ledger, sha: Sha)
    requires Seen(ledger, sha) && ledger <= more
    ensures Seen(more, sha)
  { var i :| 0 <= i < |ledger| && ledger[i].Shadow? && ledger[i].sha == sha; assert more[i].Shadow?; }

  lemma RecordedSeen(ledger: Ledger, r: Row)
    requires r.Shadow? && (r in ledger || Recorded(ledger, r.sha, r.kind))
    ensures Seen(ledger, r.sha) && Recorded(ledger, r.sha, r.kind)
  {
    if r in ledger {
      var i :| 0 <= i < |ledger| && ledger[i] == r;
      assert IsShadow(ledger[i], r.sha, r.kind);
    }
    var k :| 0 <= k < |ledger| && IsShadow(ledger[k], r.sha, r.kind);
  }

  lemma RowThere(l0: Ledger, l1: Ledger, rows: set<Row>, r: Row)
    requires NotedRows(l0, l1, rows) && r in rows
    ensures r.Shadow? && Recorded(l1, r.sha, r.kind) && Seen(l1, r.sha)
  {
    if Recorded(l0, r.sha, r.kind) { RecordedGrows(l0, l1, r.sha, r.kind); }
    RecordedSeen(l1, r);
  }

  lemma LedgersGrow(m: Moment, end: Moment, input: Input, c: Course)
    requires Ran(m, end, input, c)
    ensures m.ledger <= c.swept.ledger <= c.begun.ledger <= c.passed <= end.ledger
  { hide Fresh, Known, Along, FilesTo, Retried, Deleted, Answers, TurnedRows, CleanDay, Ends, Window, Ordered, Shas; }

  lemma AnsweredFinishes(m: Moment, now_: Moment, input: Input, p: nat)
    requires Swept(m, now_, input, m.files.Keys) && p in m.files && p in input.finished
    ensures var st := m.files[p]; Finished(now_.ledger, st.sha, st.pg) && Seen(now_.ledger, st.sha)
  {
    var st, v := m.files[p], input.finished[p];
    var rows := Answers(m.files, input.finished, m.files.Keys, input.now);
    assert Shadow(st.sha, Ci, input.now, v.ci) in AnswersOf(st, v, input.now);
    RowThere(m.ledger, now_.ledger, rows, Shadow(st.sha, Ci, input.now, v.ci));
    if st.pg {
      assert Shadow(st.sha, Pg, input.now, v.pg) in AnswersOf(st, v, input.now);
      RowThere(m.ledger, now_.ledger, rows, Shadow(st.sha, Pg, input.now, v.pg));
    }
  }

  lemma BranchGone(m: Moment, end: Moment, input: Input, c: Course, p: nat)
    requires Ran(m, end, input, c) && p in m.files && p in input.finished && Seen(c.swept.ledger, m.files[p].sha)
    ensures m.files[p].sha !in end.pushed
  {
    var s := m.files[p].sha;
    hide NotedRows, DayPassed, Seen, Along, Known, Retried, FilesTo;
    assert s !in c.swept.pushed;
    if s in end.pushed { StartedOf(c.swept, c.begun, c.cs, input.now, s); }
  }

  lemma NameIs(m: Moment, end: Moment, cs: seq<Candidate>, now: int, p: nat)
    requires StartedTo(m, end, cs, |cs|, now) && p in end.files
    ensures (p in m.files && end.files[p].sha == m.files[p].sha) || end.files[p].sha.prefix == p
  {
    assert cs[..|cs|] == cs;
    var names := Names(m.files);
    AlongIs(names, m.pushed, Ready(cs), Names(end.files), end.pushed);
    NamesOf(names, Ready(cs));
    hide NotedRows, StartNames, Ready, Begun, Along, Known;
    assert Names(end.files)[p] == end.files[p].sha;
    assert p in names ==> names[p] == m.files[p].sha;
  }

  /** A state file at the end of a pass is that of before, or that of a candidate. */
  lemma FileIs(m: Moment, end: Moment, cs: seq<Candidate>, now: int, p: nat)
    requires StartedTo(m, end, cs, |cs|, now) && p in end.files
    requires forall i | 0 <= i < |cs| :: cs[i].sha.prefix !in m.files
    ensures p in m.files && end.files[p] != m.files[p] ==> exists i | 0 <= i < |cs| :: cs[i].sha == m.files[p].sha
    ensures p !in m.files ==> exists i | 0 <= i < |cs| :: end.files[p] == Begins(cs[i])
  {
    NameIs(m, end, cs, now, p);
    hide NotedRows, StartNames, Ready, Begun, Along, Names, TurnedRows;
    if p in m.files && end.files[p] != m.files[p] {
      var i :| 0 <= i < |cs| && end.files[p] == Begins(cs[i]);
      assert cs[i].sha == m.files[p].sha;
    }
  }

  lemma FilesStay(m: Moment, end: Moment, input: Input, c: Course)
    requires Ran(m, end, input, c)
    ensures c.swept.files.Keys <= end.files.Keys
  {
    assert c.cs[..|c.cs|] == c.cs;
    var names := Names(c.swept.files);
    AlongIs(names, c.swept.pushed, Ready(c.cs), Names(c.begun.files), c.begun.pushed);
    NamesOf(names, Ready(c.cs));
    hide NotedRows, DayPassed, StartNames, Ready, Begun, Along, Swept, Known, Chosen;
    assert names.Keys <= Names(end.files).Keys;
  }

  /** A pass that goes through has dealt with every shadow run that has finished: all its records are in the ledger,
      and neither its branch nor its state file is left. */
  lemma FinishedGone(m: Moment, end: Moment, input: Input, c: Course, p: nat)
    requires Ran(m, end, input, c) && OwnNames(m.files) && p in m.files && p in input.finished
    ensures var st := m.files[p];
      Finished(end.ledger, st.sha, st.pg) && st.sha !in end.pushed && !HasFile(end.files, st.sha)
  {
    var st := m.files[p];
    LedgersGrow(m, end, input, c);
    AnsweredFinishes(m, c.swept, input, p);
    RecordedGrows(c.swept.ledger, end.ledger, st.sha, Ci);
    if st.pg { RecordedGrows(c.swept.ledger, end.ledger, st.sha, Pg); }
    BranchGone(m, end, input, c, p);
    if p in end.files { FileIs(c.swept, c.begun, c.cs, input.now, p); }
    hide NotedRows, DayPassed, StartedTo, Seen, Recorded, Retried, Deleted;
  }

  /** One that has not finished keeps its state file, with every workflow started if it is young. */
  lemma OthersWait(m: Moment, end: Moment, input: Input, c: Course, p: nat)
    requires Ran(m, end, input, c) && OwnNames(m.files) && p in m.files && p !in input.finished
    ensures p in end.files
    ensures var was, st := m.files[p], end.files[p];
      st == if p in input.young && was.dispatched < was.paths then was.(dispatched := was.paths) else was
  {
    FilesStay(m, end, input, c);
    assert p in c.swept.files && c.swept.files[p].sha.prefix == p;
    assert forall i | 0 <= i < |c.cs| :: c.cs[i].sha.prefix !in c.swept.files;
    FileIs(c.swept, c.begun, c.cs, input.now, p);
    hide NotedRows, DayPassed, StartedTo, Chosen, Retried, Deleted;
  }

  /** A pass that goes through and leaves a place free has left nothing lying: every hosted run it found is in the
      ledger, or its name has a state file. */
  lemma NoRunWaits(m: Moment, end: Moment, input: Input, c: Course, d: Candidate)
    requires Ran(m, end, input, c) && |end.files| < 3 && d in input.found
    ensures (exists r | r in end.ledger :: r.Shadow? && r.sha == d.sha) || d.sha.prefix in end.files
  {
    SeenIs(end.ledger, d.sha);
    LedgersGrow(m, end, input, c);
    FilesStay(m, end, input, c);
    hide Swept, DayPassed, Chosen, StartedTo, Seen;
    if Seen(c.swept.ledger, d.sha) { SeenGrows(c.swept.ledger, end.ledger, d.sha); }
    else if d.sha.prefix !in c.swept.files {
      var i := Place(c.cs, input.found, c.swept.ledger, c.swept.files, d);
      CandidateServed(c.swept, c.begun, c.cs, input.now, i);
      if Seen(c.begun.ledger, d.sha) { SeenGrows(c.begun.ledger, end.ledger, d.sha); }
    }
  }

  lemma SeenIs(ledger: Ledger, s: Sha)
    ensures Seen(ledger, s) <==> exists r | r in ledger :: r.Shadow? && r.sha == s
  { if r :| r in ledger && r.Shadow? && r.sha == s { var i :| 0 <= i < |ledger| && ledger[i] == r; } }

  lemma Place(cs: seq<Candidate>, found: seq<Candidate>, ledger: Ledger, files: Files, d: Candidate) returns (i: nat)
    requires Chosen(cs, found, ledger, files) && d in found && !Seen(ledger, d.sha) && d.sha.prefix !in files
    ensures i < |cs| && cs[i].sha == d.sha
  {
    hide Fresh;
    var e :| e in cs && e.sha == d.sha;
    i :| 0 <= i < |cs| && cs[i] == e;
  }

  lemma CandidateServed(m: Moment, end: Moment, cs: seq<Candidate>, now: int, i: nat)
    requires StartedTo(m, end, cs, |cs|, now) && |end.files| < MAX_INFLIGHT && i < |cs|
    ensures Seen(end.ledger, cs[i].sha) || cs[i].sha.prefix in end.files
  {
    var names, rs := Names(m.files), Ready(cs[..i]);
    assert cs[..|cs|] == cs;
    AlongIs(names, m.pushed, Ready(cs), Names(end.files), end.pushed);
    NamesSize(end.files);
    NamesGrow(names, cs, i, |cs|);
    NamesGrow(names, cs, i + 1, |cs|);
    ReadyNext(cs, i);
    StartNext(names, rs, cs[i].sha);
    hide NotedRows, StartNames, Ready, Begun, Along, Known, Seen, TurnedRows;
    if Turned(names, cs, i) {
      var r := Shadow(cs[i].sha, Ci, now, None);
      TurnedIn(names, cs, i, now);
      RowThere(m.ledger, end.ledger, TurnedRows(names, cs, |cs|, now), r);
    } else {
      assert cs[i].sha.prefix in Names(end.files);
    }
  }

  lemma TurnedIn(names: map<nat, Sha>, cs: seq<Candidate>, i: nat, now: int)
    requires i < |cs| && Turned(names, cs, i)
    ensures Shadow(cs[i].sha, Ci, now, None) in TurnedRows(names, cs, |cs|, now)
  {}

  /** Nothing else gets into the ledger: a comparison comes of a shadow run that has finished, with its verdict, or
      says nothing because the run could not be shadowed. */
  lemma NothingElse(m: Moment, end: Moment, input: Input, c: Course, r: Row)
    requires Ran(m, end, input, c) && r in end.ledger && r !in m.ledger && r.Shadow?
    ensures r.ts == input.now
    ensures (exists p | p in m.files && p in input.finished ::
               m.files[p].sha == r.sha && if r.kind == Ci then r.identical == input.finished[p].ci
                                          else m.files[p].pg && r.identical == input.finished[p].pg)
         || (r.kind == Ci && r.identical == None && exists d | d in input.found :: d.sha == r.sha && (d.blocked || !d.runner))
  {
    hide Known, Along, FilesTo, Retried, Deleted, CleanDay, Ends, Window, Ordered, Shas, Fresh, Seen;
    assert r in c.begun.ledger;
    if r in c.swept.ledger {
      assert r in Answers(m.files, input.finished, m.files.Keys, input.now);
    } else {
      assert r in TurnedRows(Names(c.swept.files), c.cs, |c.cs|, input.now);
      var i :| 0 <= i < |c.cs| && Turned(Names(c.swept.files), c.cs, i) && r == Shadow(c.cs[i].sha, Ci, input.now, None);
      assert c.cs[i] in input.found;
    }
  }
}
