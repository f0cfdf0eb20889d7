/** The kill and timeout loop of a bounded cron run (`_poll_command`, src/cron_run.py). */
module CronKill {
  import opened Seqs

  // ---------------------------------------------------------------- what the loop sees

  datatype Signal = Probe | Term | Kill
  datatype Answer = Delivered | NoGroup | Refused
  datatype Read = Quiet | Data | Eof

  /** One call of `_killpg`: the signal, the `now` of its iteration, the clock after it, the answer. */
  datatype Call = Call(sig: Signal, now: int, at: int, answer: Answer)

  /** What one iteration meets: the command's return code, the clock, the wrapper's own first signal,
      the answers it would get to each kind of call, the clock after TERM and KILL, the read. */
  datatype Obs = Obs(code: Option<int>, now: int, received: Option<int>,
                     term: Answer, termAt: int, probe: Answer, kill: Answer, killAt: int, read: Read)

  datatype Config = Config(deadline: int, grace: int)

  datatype State = State(code: Option<int>, eof: bool, sequence: Option<int>, lastSignal: Option<int>,
                         gone: bool, error: bool, wrapper: Option<int>, signals: seq<Signal>,
                         calls: seq<Call>, ended: bool)

  /** The configuration check admits a grace of one second or more. */
  predicate Configured(c: Config) { c.grace >= 1 }

  /** A monotonic clock, read in the order of the code. */
  predicate Timed(o: Obs) { o.now <= o.termAt <= o.killAt }

  predicate Clock(obs: seq<Obs>) {
    && (forall i | 0 <= i < |obs| :: Timed(obs[i]))
    && (forall i, j | 0 <= i < j < |obs| :: obs[i].killAt <= obs[j].now)
  }

  // ---------------------------------------------------------------- one iteration as a function

  const START: State := State(None, false, None, None, false, false, None, [], [], false)

  function Contact(s: State, sig: Signal, now: int, at: int, answer: Answer): State {
    if s.gone then s else
    var t := s.(calls := s.calls + [Call(sig, now, at, answer)]);
    match answer
    case NoGroup => t.(gone := true)
    case Refused => t.(error := true)
    case Delivered => if sig == Probe then t else t.(signals := t.signals + [sig], lastSignal := Some(at))
  }

  function Begin(c: Config, s: State, o: Obs): State {
    if s.sequence.None? && (o.received.Some? || o.now >= c.deadline)
    then Contact(s.(wrapper := o.received, sequence := Some(if o.received.Some? then o.now else c.deadline)),
                 Term, o.now, o.termAt, o.term)
    else s
  }

  function Probed(s: State, o: Obs): State { if s.gone then s else Contact(s, Probe, o.now, o.now, o.probe) }

  predicate KillDue(c: Config, s: State, o: Obs) {
    !s.gone && s.sequence.Some? && o.now >= s.sequence.value + c.grace && Kill !in s.signals
  }

  function Killed(c: Config, s: State, o: Obs): State {
    if KillDue(c, s, o) then Contact(s, Kill, o.now, o.killAt, o.kill) else s
  }

  predicate Done(c: Config, s: State, o: Obs) {
    || ((s.gone || Kill in s.signals) && s.code.Some? && s.eof)
    || (!s.error && s.lastSignal.Some? && o.now >= s.lastSignal.value + c.grace)
  }

  function Press(c: Config, s: State, o: Obs): State {
    if s.sequence.None? || s.error then s else
    var p := Probed(s, o);
    if p.error then p else
    if p.gone && p.signals == [] then p.(ended := true) else
    var k := Killed(c, p, o);
    if Done(c, k, o) then k.(ended := true) else k
  }

  function Listen(s: State, o: Obs): State {
    if s.ended then s
    else if s.eof then (if s.error && s.code.Some? then s.(ended := true) else s)
    else s.(eof := o.read.Eof?)
  }

  function Reap(s: State, o: Obs): State { if s.code.Some? then s else s.(code := o.code) }

  function Iter(c: Config, s: State, o: Obs): State {
    var s1 := Reap(s, o);
    if s1.sequence.None? && s1.code.Some? && s1.eof then s1.(ended := true)
    else Listen(Press(c, Begin(c, s1, o), o), o)
  }

  /** The state after the loop has met `obs`; nothing happens once it has ended. */
  function Run(c: Config, obs: seq<Obs>): State {
    if obs == [] then START else
    var s := Run(c, obs[..|obs| - 1]);
    if s.ended then s else Iter(c, s, obs[|obs| - 1])
  }

  // ---------------------------------------------------------------- the invariant

  /** The signals that reached the group, in order. */
  function Reached(calls: seq<Call>): seq<Signal> {
    if calls == [] then [] else
    var c := calls[|calls| - 1];
    Reached(calls[..|calls| - 1]) + (if c.answer.Delivered? && c.sig != Probe then [c.sig] else [])
  }

  /** Only the last call may have been answered with anything but delivery. */
  predicate NothingAfterRefusal(calls: seq<Call>) {
    forall i | 0 <= i < |calls| - 1 :: calls[i].answer.Delivered?
  }

  /** TERM first and once, KILL at most once, probes otherwise. */
  predicate InOrder(calls: seq<Call>) {
    && (forall i | 0 <= i < |calls| :: calls[i].sig == Term <==> i == 0)
    && (forall i, j | 0 <= i < j < |calls| :: !(calls[i].sig == Kill && calls[j].sig == Kill))
  }

  predicate KillsWait(due: int, calls: seq<Call>) {
    forall i | 0 <= i < |calls| && calls[i].sig == Kill :: calls[i].now >= due
  }

  predicate NoKill(calls: seq<Call>) { forall i | 0 <= i < |calls| :: calls[i].sig != Kill }

  predicate Trace(due: int, calls: seq<Call>) {
    NothingAfterRefusal(calls) && InOrder(calls) && KillsWait(due, calls)
  }

  predicate Open(calls: seq<Call>) { calls == [] || calls[|calls| - 1].answer.Delivered? }

  /** What the last answer left behind. */
  predicate Answered(s: State) {
    && (s.gone <==> s.calls != [] && s.calls[|s.calls| - 1].answer.NoGroup?)
    && (s.error <==> s.calls != [] && s.calls[|s.calls| - 1].answer.Refused?)
  }

  predicate Ladder(signals: seq<Signal>) { signals == [] || signals == [Term] || signals == [Term, Kill] }

  predicate Marked(s: State) {
    && (s.lastSignal.Some? <==> s.signals != [])
    && (s.lastSignal.Some? ==> s.sequence.Some? && s.lastSignal.value >= s.sequence.value)
  }

  predicate Kept(c: Config, s: State) {
    && (s.sequence.None? <==> s.calls == [])
    && (s.sequence.Some? ==> Trace(s.sequence.value + c.grace, s.calls))
    && Answered(s)
    && s.signals == Reached(s.calls) && Ladder(s.signals) && Marked(s)
    && (s.wrapper.Some? ==> s.sequence.Some?)
    && (s.signals == [] && s.calls != [] ==> s.gone || s.error)
    && (NoKill(s.calls) || Kill in s.signals || s.gone || s.error)
  }

  /** Ended without an error and short of KILL: the group was seen gone, unless nothing was ever sent. */
  predicate Finished(s: State) {
    s.ended && !s.error && s.signals != [] ==> s.gone || Kill in s.signals
  }

  lemma ReachedPush(calls: seq<Call>, c: Call)
    ensures Reached(calls + [c]) == Reached(calls) + (if c.answer.Delivered? && c.sig != Probe then [c.sig] else [])
  { assert (calls + [c])[..|calls|] == calls; }

  lemma TracePush(due: int, calls: seq<Call>, c: Call)
    requires Trace(due, calls) && Open(calls)
    requires c.sig == Term <==> calls == []
    requires c.sig == Kill ==> NoKill(calls) && c.now >= due
    ensures Trace(due, calls + [c])
    ensures c.sig != Kill && NoKill(calls) ==> NoKill(calls + [c])
  {}

  lemma BegunKept(c: Config, s: State, due: int, wrapper: Option<int>, call: Call)
    requires Kept(c, s) && s.sequence.None? && call.sig == Term && call.at >= due
    ensures Kept(c, Contact(s.(wrapper := wrapper, sequence := Some(due)), Term, call.now, call.at, call.answer))
  {
    hide Trace, NoKill, Reached;
    ReachedPush(s.calls, call);
    assert s.calls == [] && !s.gone;
    TracePush(due + c.grace, [], call) by { NothingCalled(due + c.grace); }
    assert s.signals == [] by { NothingCalled(0); }
  }

  lemma NothingCalled(due: int)
    ensures Trace(due, []) && NoKill([]) && Reached([]) == []
  {}

  lemma NotBegun(c: Config, s: State)
    requires Kept(c, s) && s.sequence.None?
    ensures s.calls == [] && s.signals == [] && !s.gone && !s.error && s.lastSignal.None?
  {
    hide Trace, NoKill;
    NothingCalled(0);
  }

  lemma BeginKeeps(c: Config, s: State, o: Obs)
    requires Kept(c, s) && Timed(o)
    ensures Kept(c, Begin(c, s, o))
  {
    hide Trace, NoKill, Reached, Kept;
    if s.sequence.None? && (o.received.Some? || o.now >= c.deadline) {
      BegunKept(c, s, if o.received.Some? then o.now else c.deadline, o.received, Call(Term, o.now, o.termAt, o.term));
    }
  }

  lemma ProbedKeeps(c: Config, s: State, o: Obs)
    requires Kept(c, s) && s.sequence.Some? && !s.error
    ensures Kept(c, Probed(s, o))
    ensures Probed(s, o) == s.(gone := Probed(s, o).gone, error := Probed(s, o).error, calls := Probed(s, o).calls)
  {
    hide Trace, NoKill, Reached;
    if !s.gone {
      var call := Call(Probe, o.now, o.now, o.probe);
      ReachedPush(s.calls, call);
      TracePush(s.sequence.value + c.grace, s.calls, call);
    }
  }

  lemma KilledKeeps(c: Config, s: State, o: Obs)
    requires Kept(c, s) && s.sequence.Some? && !s.error && Timed(o) && Configured(c)
    ensures Kept(c, Killed(c, s, o))
    ensures KillDue(c, s, o) || Killed(c, s, o) == s
    ensures Killed(c, s, o).sequence == s.sequence && Killed(c, s, o).ended == s.ended
    ensures Killed(c, s, o).code == s.code && Killed(c, s, o).eof == s.eof
    ensures !s.gone && o.now >= s.sequence.value + c.grace && !Killed(c, s, o).gone && !Killed(c, s, o).error
            ==> Kill in Killed(c, s, o).signals
  {
    hide Trace, NoKill, Reached;
    if KillDue(c, s, o) {
      var call := Call(Kill, o.now, o.killAt, o.kill);
      ReachedPush(s.calls, call);
      TracePush(s.sequence.value + c.grace, s.calls, call);
      assert s.signals == [Term];
    }
  }

  lemma PressKeeps(c: Config, s: State, o: Obs)
    requires Kept(c, s) && !s.ended && Timed(o) && Configured(c)
    ensures Kept(c, Press(c, s, o)) && Finished(Press(c, s, o))
  {
    hide Trace, NoKill, Reached, Probed, Killed;
    if s.sequence.Some? && !s.error {
      ProbedKeeps(c, s, o);
      var p := Probed(s, o);
      if !p.error && !(p.gone && p.signals == []) { KilledKeeps(c, p, o); }
    }
  }

  lemma IterKeeps(c: Config, s: State, o: Obs)
    requires Kept(c, s) && !s.ended && Timed(o) && Configured(c)
    ensures Kept(c, Iter(c, s, o)) && Finished(Iter(c, s, o))
  {
    hide Trace, NoKill, Reached, Press;
    var s1 := Reap(s, o);
    assert Kept(c, s1);
    BeginKeeps(c, s1, o);
    PressKeeps(c, Begin(c, s1, o), o);
  }

  lemma {:induction false} RunKeeps(c: Config, obs: seq<Obs>)
    requires Configured(c) && forall i | 0 <= i < |obs| :: Timed(obs[i])
    ensures Kept(c, Run(c, obs)) && Finished(Run(c, obs))
  {
    if obs != [] {
      RunKeeps(c, obs[..|obs| - 1]);
      if !Run(c, obs[..|obs| - 1]).ended { IterKeeps(c, Run(c, obs[..|obs| - 1]), obs[|obs| - 1]); }
    }
  }

  // ---------------------------------------------------------------- what a run shows

  /** TERM only first, KILL once and only a full grace into the sequence, nothing after an answer other than
      delivery, and the recorded signals are those that reached the group: none, TERM, or TERM then KILL. */
  lemma OrderlySignals(c: Config, obs: seq<Obs>)
    requires Configured(c) && Clock(obs)
    ensures var s := Run(c, obs);
      && NothingAfterRefusal(s.calls) && InOrder(s.calls)
      && s.signals == Reached(s.calls) && Ladder(s.signals)
      && forall i | 0 <= i < |s.calls| && s.calls[i].sig == Kill ::
           s.sequence.Some? && s.calls[i].now >= s.sequence.value + c.grace
  { RunKeeps(c, obs); }

  /** A run that killed and stopped short of KILL stopped because the group answered that it is gone. */
  lemma NoSurvivorAfterTermOnly(c: Config, obs: seq<Obs>)
    requires Configured(c) && Clock(obs)
    requires var s := Run(c, obs); s.ended && !s.error && s.signals == [Term]
    ensures var s := Run(c, obs); s.calls != [] && s.calls[|s.calls| - 1].answer.NoGroup?
  {
    hide Run, Trace, NoKill, Reached;
    RunKeeps(c, obs);
  }

  /** A run that meets neither the deadline nor a signal of its own calls nobody, and is over once the command is
      reaped and its pipe closed. */
  lemma {:induction false} LeftAlone(c: Config, obs: seq<Obs>)
    requires forall i | 0 <= i < |obs| :: obs[i].received.None? && obs[i].now < c.deadline
    ensures var s := Run(c, obs); s.calls == [] && s.sequence.None? && s.signals == [] && !s.error
    ensures obs != [] && Run(c, obs[..|obs| - 1]).eof && (Run(c, obs[..|obs| - 1]).code.Some? || obs[|obs| - 1].code.Some?)
            ==> Run(c, obs).ended
  { if obs != [] { LeftAlone(c, obs[..|obs| - 1]); } }

  // ---------------------------------------------------------------- how long a run can last

  lemma PrefixStep(c: Config, obs: seq<Obs>, i: nat)
    requires i < |obs|
    ensures obs[..i + 1] != [] && obs[..i + 1][..i] == obs[..i] && obs[..i + 1][i] == obs[i]
    ensures !Run(c, obs[..i]).ended ==> Run(c, obs[..i + 1]) == Iter(c, Run(c, obs[..i]), obs[i])
    ensures Run(c, obs[..i]).ended ==> Run(c, obs[..i + 1]) == Run(c, obs[..i])
  { assert obs[..i + 1][..i] == obs[..i]; }

  predicate Over(s: State) { s.ended || s.error }

  /** The sequence has begun no later than `now`. */
  predicate Begun(s: State, now: int) { Over(s) || (s.sequence.Some? && s.sequence.value <= now) }

  /** Nothing more will be sent, and the last signal went out by `at`. */
  predicate Spent(s: State, at: int) {
    Over(s) || (s.sequence.Some? && s.lastSignal.Some? && s.lastSignal.value <= at && (s.gone || Kill in s.signals))
  }

  /** Every instant the state remembers is past. */
  predicate Past(s: State, now: int) {
    && (s.sequence.Some? ==> s.sequence.value <= now)
    && (s.lastSignal.Some? ==> s.lastSignal.value <= now)
  }

  lemma PressIs(c: Config, s: State, o: Obs)
    requires Kept(c, s) && !s.ended && Timed(o) && Configured(c) && Past(s, o.killAt)
    ensures var t := Press(c, s, o);
      && t.sequence == s.sequence && Past(t, o.killAt) && (s.error ==> t.error)
      && (Spent(s, o.killAt) && s.sequence.Some? && s.sequence.value + c.grace <= o.now ==> Spent(t, o.killAt))
      && (s.sequence.Some? && s.sequence.value + c.grace <= o.now ==> Spent(t, o.killAt))
  {
    hide Trace, NoKill, Reached, Ladder;
    if s.sequence.Some? && !s.error {
      ProbedKeeps(c, s, o);
      var p := Probed(s, o);
      if !p.error && !(p.gone && p.signals == []) {
        KilledKeeps(c, p, o);
        assert Past(Killed(c, p, o), o.killAt);
        hide Killed;
      }
    }
  }

  lemma BeginIs(c: Config, s: State, o: Obs)
    requires Timed(o) && Past(s, o.now)
    ensures var t := Begin(c, s, o);
      && Past(t, o.killAt) && (s.error ==> t.error) && t.ended == s.ended
      && (s.sequence.Some? ==> t == s)
      && (o.received.Some? || o.now >= c.deadline ==> t.sequence.Some? && t.sequence.value <= o.now)
  {}

  lemma IterIs(c: Config, s: State, o: Obs)
    requires Kept(c, s) && !s.ended && Timed(o) && Configured(c) && Past(s, o.now)
    ensures var t := Iter(c, s, o);
      && Past(t, o.killAt)
      && (s.error ==> t.error) && (s.sequence.Some? ==> t.sequence == s.sequence)
      && (o.received.Some? || o.now >= c.deadline ==> Begun(t, o.now))
      && (s.sequence.Some? && s.sequence.value + c.grace <= o.now ==> Spent(t, o.killAt))
  {
    hide Trace, NoKill, Reached, Ladder, Press, Begin;
    var s1 := Reap(s, o);
    assert Kept(c, s1);
    hide Kept;
    BeginKeeps(c, s1, o);
    BeginIs(c, s1, o);
    PressIs(c, Begin(c, s1, o), o);
  }

  /** Once everything has been sent, later iterations send nothing but probes, and one grace later the loop is over. */
  lemma SpentIter(c: Config, s: State, o: Obs, at: int)
    requires Kept(c, s) && !s.ended && Spent(s, at)
    ensures Spent(Iter(c, s, o), at)
    ensures o.now >= at + c.grace ==> Over(Iter(c, s, o))
  {
    hide Trace, NoKill, Reached, Ladder;
    if !s.error {
      var s1 := Reap(s, o);
      assert Begin(c, s1, o) == s1;
      ProbedKeeps(c, s1, o);
      assert Killed(c, Probed(s1, o), o) == Probed(s1, o);
      hide Probed, Killed, Kept;
    }
  }

  lemma {:induction false} RunPast(c: Config, obs: seq<Obs>)
    requires Configured(c) && Clock(obs)
    ensures obs != [] ==> Past(Run(c, obs), obs[|obs| - 1].killAt)
    ensures obs == [] ==> forall now :: Past(Run(c, obs), now)
  {
    if obs != [] {
      var before := obs[..|obs| - 1];
      RunPast(c, before);
      if !Run(c, before).ended { RunKeeps(c, before); IterIs(c, Run(c, before), obs[|obs| - 1]); }
    }
  }

  /** Before the last iteration everything is in order. */
  lemma BeforeLast(c: Config, obs: seq<Obs>)
    requires Configured(c) && Clock(obs) && obs != []
    ensures var before, o := obs[..|obs| - 1], obs[|obs| - 1];
      Clock(before) && Timed(o) && Kept(c, Run(c, before)) && Past(Run(c, before), o.now)
      && Run(c, obs) == if Run(c, before).ended then Run(c, before) else Iter(c, Run(c, before), o)
  {
    hide Kept, Iter;
    RunKeeps(c, obs[..|obs| - 1]);
    RunPast(c, obs[..|obs| - 1]);
  }

  lemma {:induction false} BegunOn(c: Config, obs: seq<Obs>, h: nat)
    requires Configured(c) && Clock(obs) && h < |obs| && (obs[h].received.Some? || obs[h].now >= c.deadline)
    ensures Begun(Run(c, obs), obs[h].now)
    decreases |obs|
  {
    hide Kept, Iter, Past, Clock, Run;
    var before, o := obs[..|obs| - 1], obs[|obs| - 1];
    BeforeLast(c, obs);
    if h < |obs| - 1 { BegunOn(c, before, h); }
    if !Run(c, before).ended { IterIs(c, Run(c, before), o); }
  }

  lemma {:induction false} SpentOn(c: Config, obs: seq<Obs>, h: nat, i: nat)
    requires Configured(c) && Clock(obs) && h < i < |obs|
    requires (obs[h].received.Some? || obs[h].now >= c.deadline) && obs[i].now >= obs[h].now + c.grace
    ensures Spent(Run(c, obs), obs[i].killAt)
    decreases |obs|
  {
    hide Kept, Iter, Past, Clock, Run;
    var before, o := obs[..|obs| - 1], obs[|obs| - 1];
    BeforeLast(c, obs);
    BegunOn(c, before, h);
    if i < |obs| - 1 { SpentOn(c, before, h, i); }
    if !Run(c, before).ended {
      if i < |obs| - 1 { SpentIter(c, Run(c, before), o, obs[i].killAt); }
      else { IterIs(c, Run(c, before), o); }
    }
  }

  /** One poll at the deadline or at a signal of the wrapper's own, one a grace later and one a grace after that:
      unless a call was refused, a run does not outlast them. */
  lemma EndsInTime(c: Config, obs: seq<Obs>, h: nat, i: nat, j: nat)
    requires Configured(c) && Clock(obs) && h < i < j < |obs|
    requires obs[h].received.Some? || obs[h].now >= c.deadline
    requires obs[i].now >= obs[h].now + c.grace
    requires obs[j].now >= obs[i].killAt + c.grace
    ensures var s := Run(c, obs);
      s.ended || (s.calls != [] && s.calls[|s.calls| - 1].answer.Refused?)
  {
    ClockPrefix(obs, j);
    hide Kept, Iter, Run, Clock, Over;
    RunKeeps(c, obs);
    RunKeeps(c, obs[..j]);
    SpentOn(c, obs[..j], h, i);
    PrefixStep(c, obs, j);
    if !Run(c, obs[..j]).ended { SpentIter(c, Run(c, obs[..j]), obs[j], obs[i].killAt); }
    else { EndedOver(Run(c, obs[..j])); }
    OverOn(c, obs, j + 1);
    OverMeans(c, Run(c, obs));
  }

  lemma ClockPrefix(obs: seq<Obs>, j: nat)
    requires Clock(obs) && j < |obs|
    ensures Clock(obs[..j]) && forall i | 0 <= i < |obs| :: Timed(obs[i])
  {}

  lemma EndedOver(s: State)
    requires s.ended
    ensures Over(s)
  {}

  lemma OverMeans(c: Config, s: State)
    requires Kept(c, s) && Over(s)
    ensures s.ended || (s.calls != [] && s.calls[|s.calls| - 1].answer.Refused?)
  {}

  lemma {:induction false} OverOn(c: Config, obs: seq<Obs>, i: nat)
    requires Configured(c) && Clock(obs) && i <= |obs| && Over(Run(c, obs[..i]))
    ensures Over(Run(c, obs))
    decreases |obs|
  {
    if i == |obs| { assert obs[..i] == obs; }
    else {
      hide Kept, Iter, Past, Clock, Run;
      var before := obs[..|obs| - 1];
      assert before[..i] == obs[..i];
      BeforeLast(c, obs);
      OverOn(c, before, i);
      if !Run(c, before).ended { IterIs(c, Run(c, before), obs[|obs| - 1]); }
    }
  }

  // ---------------------------------------------------------------- the exit code

  function CommandCode(code: Option<int>): Option<int> {
    if code.Some? && code.value < 0 then Some(128 - code.value) else code
  }

  /** `rc` as the code after the loop assigns it; `code` is the return code after the last poll. */
  function ExitCode(s: State, code: Option<int>): Option<int> {
    if !s.error && s.sequence.Some? && s.signals != []
    then Some(if s.wrapper.Some? then 128 + s.wrapper.value else if Kill in s.signals then 137 else 124)
    else CommandCode(code)
  }

  predicate WasDelivered(calls: seq<Call>, sig: Signal) {
    exists i | 0 <= i < |calls| :: calls[i].sig == sig && calls[i].answer.Delivered?
  }

  lemma {:induction false} ReachedHas(calls: seq<Call>, sig: Signal)
    requires sig != Probe
    ensures sig in Reached(calls) <==> WasDelivered(calls, sig)
  {
    if calls != [] {
      var before := calls[..|calls| - 1];
      ReachedHas(before, sig);
      assert forall i | 0 <= i < |before| :: before[i] == calls[i];
    }
  }

  lemma ExitOf(c: Config, s: State, code: Option<int>)
    requires Kept(c, s) && Finished(s) && s.ended
    ensures var rc := ExitCode(s, code);
      if s.calls == [] || !WasDelivered(s.calls, Term) || s.calls[|s.calls| - 1].answer.Refused?
      then rc == CommandCode(code)
      else if s.wrapper.Some? then rc == Some(128 + s.wrapper.value)
      else if WasDelivered(s.calls, Kill) then rc == Some(137)
      else rc == Some(124) && s.calls[|s.calls| - 1].answer.NoGroup?
  {
    assert s.calls == [] ==> s.signals == [];
    hide Trace, NoKill, WasDelivered, Reached;
    ReachedHas(s.calls, Term);
    ReachedHas(s.calls, Kill);
  }

  /** The command's own code: as it is, or `128 + n` when signal `n` ended the command; none when it is not reaped. */
  predicate Own(rc: Option<int>, code: Option<int>) {
    match code
    case None => rc == None
    case Some(n) => rc == Some(if n >= 0 then n else 128 + (0 - n))
  }

  /** The exit code read off the answers to the calls: a refusal, or a TERM that reached nobody, leaves the
      command's own code; otherwise `128 + n` for a wrapper signal, 137 exactly when a KILL was delivered, and
      124 only when the group then answered that it is gone. */
  lemma ExitMeaning(c: Config, obs: seq<Obs>, code: Option<int>)
    requires Configured(c) && Clock(obs) && Run(c, obs).ended
    ensures var s, rc := Run(c, obs), ExitCode(Run(c, obs), code);
      if s.calls == [] || !WasDelivered(s.calls, Term) || s.calls[|s.calls| - 1].answer.Refused?
      then Own(rc, code)
      else if s.wrapper.Some? then rc == Some(128 + s.wrapper.value)
      else if WasDelivered(s.calls, Kill) then rc == Some(137)
      else rc == Some(124) && s.calls[|s.calls| - 1].answer.NoGroup?
  {
    hide Run, Kept, Finished, WasDelivered, ExitCode;
    RunKeeps(c, obs);
    assert Own(CommandCode(code), code);
    ExitOf(c, Run(c, obs), code);
  }

  lemma BeginOnly(c: Config, s: State, o: Obs)
    requires s.calls == [] && s.signals == [] && !s.gone && !s.error && s.lastSignal.None? && s.sequence.None? && !s.ended
    ensures var t := Begin(c, s, o);
      && t.sequence == (if o.received.Some? then Some(o.now) else if o.now >= c.deadline then Some(c.deadline) else None)
      && (t.signals == [Term] <==> t.sequence.Some? && o.term.Delivered?)
      && (t.signals != [Term] ==> t.signals == [])
      && (t.sequence.Some? ==> t.gone == o.term.NoGroup? && t.error == o.term.Refused?) && !t.ended
  {}

  lemma PressAfterTerm(c: Config, s: State, o: Obs)
    requires s.sequence.Some? && !s.ended && (s.signals == [Term] || s.signals == [])
    requires s.signals == [Term] ==> !s.gone && !s.error
    requires s.signals == [] ==> s.gone || s.error
    ensures Press(c, s, o).signals == [Term, Kill] <==>
      s.signals == [Term] && o.now >= s.sequence.value + c.grace && o.probe.Delivered? && o.kill.Delivered?
  {}

  /** TERM and KILL leave in one iteration exactly when it comes a full grace after the deadline. */
  lemma TermAndKillTogether(c: Config, s: State, o: Obs)
    requires Configured(c) && Timed(o) && Kept(c, s) && !s.ended && s.sequence.None?
    requires !(Reap(s, o).code.Some? && s.eof)
    ensures (Iter(c, s, o).signals == [Term, Kill]) <==>
      (o.received.None? && o.now >= c.deadline + c.grace &&
       o.term.Delivered? && o.probe.Delivered? && o.kill.Delivered?)
  {
    hide Kept, Begin, Press;
    NotBegun(c, s);
    var s1 := Reap(s, o);
    BeginOnly(c, s1, o);
    var t := Begin(c, s1, o);
    if t.sequence.Some? { PressAfterTerm(c, t, o); } else { PressIdle(c, t, o); }
  }

  lemma PressIdle(c: Config, s: State, o: Obs)
    requires s.sequence.None?
    ensures Press(c, s, o) == s
  {}

  // ---------------------------------------------------------------- the loop as the code runs it

  class Poller {
    var code: Option<int>
    var eof: bool
    var sequence: Option<int>
    var lastSignal: Option<int>
    var groupGone: bool
    var killError: bool
    var wrapper: Option<int>
    var signals: seq<Signal>
    ghost var calls: seq<Call>
    var broke: bool

    ghost function Now(): State
      reads this
    { State(code, eof, sequence, lastSignal, groupGone, killError, wrapper, signals, calls, broke) }

    constructor ()
      ensures Now() == START
    {
      code, eof, sequence, lastSignal := None, false, None, None;
      groupGone, killError, wrapper, signals, calls, broke := false, false, None, [], [], false;
    }

    /** The inner function `contact`. */
    method Reach(sig: Signal, now: int, at: int, answer: Answer)
      modifies this
      ensures Now() == Contact(old(Now()), sig, now, at, answer)
    {
      if groupGone { return; }
      calls := calls + [Call(sig, now, at, answer)];
      match answer
      case NoGroup => groupGone := true;
      case Refused => killError := true;
      case Delivered =>
        if sig != Probe {
          signals := signals + [sig];
          lastSignal := Some(at);
        }
    }

    /** The checks made once the sequence has begun; `broke` says that the loop is left. */
    method PressOn(c: Config, o: Obs)
      requires !broke
      modifies this
      ensures Now() == Press(c, old(Now()), o)
    {
      if sequence.None? || killError { return; }
      if !groupGone { Reach(Probe, o.now, o.now, o.probe); }
      if killError { return; }
      if groupGone && signals == [] { broke := true; return; }
      if !groupGone && o.now >= sequence.value + c.grace && Kill !in signals {
        Reach(Kill, o.now, o.killAt, o.kill);
      }
      if groupGone && code.Some? && eof { broke := true; return; }
      if Kill in signals && code.Some? && eof { broke := true; return; }
      if !killError && lastSignal.Some? && o.now >= lastSignal.value + c.grace { broke := true; }
    }

    method StartSequence(c: Config, o: Obs)
      requires sequence.None?
      modifies this
      ensures Now() == Begin(c, old(Now()), o) && broke == old(broke)
    {
      if o.received.Some? || o.now >= c.deadline {
        wrapper := o.received;
        sequence := Some(if o.received.Some? then o.now else c.deadline);
        Reach(Term, o.now, o.termAt, o.term);
      }
    }

    method Iterate(c: Config, o: Obs)
      requires !broke
      modifies this
      ensures Now() == Iter(c, old(Now()), o)
    {
      hide Press, Contact;
      if code.None? { code := o.code; }
      if sequence.None? {
        if code.Some? && eof { broke := true; return; }
        StartSequence(c, o);
      }
      PressOn(c, o);
      if broke { return; }
      if eof {
        if killError && code.Some? { broke := true; }
      } else if o.read.Eof? {
        eof := true;
      }
    }

    /** The loop: it stops at the first iteration that breaks, or when what it meets runs out. */
    method Poll(c: Config, obs: seq<Obs>)
      requires Now() == START
      modifies this
      ensures Now() == Run(c, obs)
    {
      for i := 0 to |obs|
        invariant Now() == Run(c, obs[..i])
      {
        PrefixStep(c, obs, i);
        if !broke { Iterate(c, obs[i]); }
      }
      assert obs[..|obs|] == obs;
    }
  }
}
