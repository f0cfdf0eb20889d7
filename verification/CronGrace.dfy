/** How long SIGTERM and SIGKILL are apart, and how long a run lasts after its last signal (src/cron_run.py). */
module CronGrace {
  import opened Seqs
  import opened CronKill

  // ---------------------------------------------------------------- one grace after the last signal

  /** The clock after the last signal that reached the group. */
  function LastDelivered(calls: seq<Call>): Option<int> {
    if calls == [] then None else
    var c := calls[|calls| - 1];
    if c.answer.Delivered? && c.sig != Probe then Some(c.at) else LastDelivered(calls[..|calls| - 1])
  }

  predicate LastIs(s: State) { s.lastSignal == LastDelivered(s.calls) }

  lemma ContactLast(s: State, sig: Signal, now: int, at: int, answer: Answer)
    requires LastIs(s)
    ensures LastIs(Contact(s, sig, now, at, answer))
  { assert (s.calls + [Call(sig, now, at, answer)])[..|s.calls|] == s.calls; }

  lemma PressLast(c: Config, s: State, o: Obs)
    requires LastIs(s)
    ensures LastIs(Press(c, s, o))
  {
    ContactLast(s, Probe, o.now, o.now, o.probe);
    ContactLast(Probed(s, o), Kill, o.now, o.killAt, o.kill);
    hide LastDelivered, Contact;
  }

  lemma IterLast(c: Config, s: State, o: Obs)
    requires LastIs(s)
    ensures LastIs(Iter(c, s, o))
  {
    var s1 := Reap(s, o);
    ContactLast(s1.(wrapper := o.received, sequence := Some(if o.received.Some? then o.now else c.deadline)),
                Term, o.now, o.termAt, o.term);
    PressLast(c, Begin(c, s1, o), o);
    hide LastDelivered, Contact, Press;
  }

  lemma {:induction false} RunLast(c: Config, obs: seq<Obs>)
    ensures LastIs(Run(c, obs))
  {
    if obs != [] {
      RunLast(c, obs[..|obs| - 1]);
      IterLast(c, Run(c, obs[..|obs| - 1]), obs[|obs| - 1]);
      hide LastIs, Iter;
    }
  }

  /** An iteration a grace after the last signal does not leave the loop running, errors apart. */
  lemma PressWithin(c: Config, s: State, o: Obs)
    requires !s.error && s.sequence.Some? && !s.ended
    ensures var t := Press(c, s, o);
      t.ended || t.error || t.lastSignal.None? || o.now < t.lastSignal.value + c.grace
  {}

  lemma ReapKeeps(c: Config, s: State, o: Obs)
    requires Kept(c, s)
    ensures Kept(c, Reap(s, o))
  { hide Trace, NoKill, Reached; }

  lemma BeginRuns(c: Config, s: State, o: Obs)
    ensures Begin(c, s, o).ended == s.ended
  {}

  lemma PressError(c: Config, s: State, o: Obs)
    requires s.error
    ensures Press(c, s, o) == s
  {}

  lemma IterWithin(c: Config, s: State, o: Obs)
    requires Kept(c, s) && !s.ended && Timed(o)
    ensures var t := Iter(c, s, o);
      t.ended || t.error || t.lastSignal.None? || o.now < t.lastSignal.value + c.grace
  {
    hide Kept, Begin, Press;
    var s1 := Reap(s, o);
    ReapKeeps(c, s, o);
    BeginKeeps(c, s1, o);
    var b := Begin(c, s1, o);
    if b.sequence.None? { NotBegun(c, b); PressIdle(c, b, o); }
    BeginRuns(c, s1, o);
    if b.error { PressError(c, b, o); }
    if b.sequence.Some? && !b.error { PressWithin(c, b, o); }
  }

  /** The loop does not run on a full grace after the last signal that reached the group, unless a call was
      refused. */
  lemma EndsAfterLastSignal(c: Config, obs: seq<Obs>)
    requires Configured(c) && Clock(obs) && obs != []
    ensures var s := Run(c, obs);
      LastDelivered(s.calls).Some? && obs[|obs| - 1].now >= LastDelivered(s.calls).value + c.grace ==>
        s.ended || (s.calls != [] && s.calls[|s.calls| - 1].answer.Refused?)
  {
    hide Kept, Iter, Run, Clock, LastDelivered;
    BeforeLast(c, obs);
    var before := Run(c, obs[..|obs| - 1]);
    if !before.ended {
      IterWithin(c, before, obs[|obs| - 1]);
      RunLast(c, obs);
      IterKeeps(c, before, obs[|obs| - 1]);
      if Over(Run(c, obs)) { OverMeans(c, Run(c, obs)); }
    }
  }

  // ---------------------------------------------------------------- what the observations tell

  predicate Quiet(c: Config, o: Obs) { o.received.None? && o.now < c.deadline }

  predicate AnyEof(obs: seq<Obs>) { exists k | 0 <= k < |obs| :: obs[k].read.Eof? }

  predicate AnyCode(obs: seq<Obs>) { exists k | 0 <= k < |obs| :: obs[k].code.Some? }

  /** The command is reaped and its pipe closed when iteration `k` looks. */
  predicate OverBy(obs: seq<Obs>, k: nat)
    requires k < |obs|
  { AnyEof(obs[..k]) && AnyCode(obs[..k + 1]) }

  /** Iteration `h` is the one that sends TERM. */
  predicate Begins(c: Config, obs: seq<Obs>, h: nat) {
    && h < |obs| && !Quiet(c, obs[h]) && !OverBy(obs, h)
    && forall k | 0 <= k < h :: Quiet(c, obs[k])
  }

  function SequenceAt(c: Config, o: Obs): int { if o.received.Some? then o.now else c.deadline }

  predicate ProbesDelivered(obs: seq<Obs>, h: nat, n: nat) { forall k | h <= k < n && k < |obs| :: obs[k].probe.Delivered? }

  /** No iteration from `h` up to `n` comes a grace into the sequence. */
  predicate Early(c: Config, obs: seq<Obs>, h: nat, n: nat)
    requires h < |obs|
  { forall k | h <= k < n && k < |obs| :: obs[k].now < SequenceAt(c, obs[h]) + c.grace }

  /** TERM at `h`, every probe up to `i`, and KILL at `i`, the first iteration a grace into the sequence, are
      delivered. */
  predicate Sent(c: Config, obs: seq<Obs>, h: nat, i: nat) {
    && h <= i < |obs| && obs[h].term.Delivered? && obs[i].kill.Delivered?
    && Early(c, obs, h, i) && obs[i].now >= SequenceAt(c, obs[h]) + c.grace
    && ProbesDelivered(obs, h, i + 1)
  }

  /** A call was not delivered before KILL was. */
  predicate Failed(c: Config, obs: seq<Obs>, h: nat, k: nat) {
    && h < |obs|
    && (!obs[h].term.Delivered?
        || (h <= k < |obs| && Early(c, obs, h, k)
            && (!obs[k].probe.Delivered? || (obs[k].now >= SequenceAt(c, obs[h]) + c.grace && !obs[k].kill.Delivered?))))
  }

  predicate KillsAt(calls: seq<Call>, now: int) { forall j | 0 <= j < |calls| && calls[j].sig == Kill :: calls[j].now == now }

  predicate Waiting(c: Config, obs: seq<Obs>, s: State) {
    && (forall k | 0 <= k < |obs| :: Quiet(c, obs[k]))
    && s.eof == AnyEof(obs) && s.code.Some? == AnyCode(obs)
  }

  predicate EndedQuietly(c: Config, obs: seq<Obs>, k: nat) {
    k < |obs| && OverBy(obs, k) && forall j | 0 <= j < k :: Quiet(c, obs[j])
  }

  predicate Going(c: Config, obs: seq<Obs>, h: nat)
    requires h < |obs|
  { obs[h].term.Delivered? && ProbesDelivered(obs, h, |obs|) && Early(c, obs, h, |obs|) }

  /** What the observations say of the state they lead to. */
  predicate Story(c: Config, obs: seq<Obs>, s: State, h: nat, k: nat) {
    if s.sequence.None? then (if s.ended then EndedQuietly(c, obs, k) else Waiting(c, obs, s))
    else
      && Begins(c, obs, h) && s.sequence == Some(SequenceAt(c, obs[h]))
      && s.calls != [] && s.calls[0].now == obs[h].now
      && (if Kill in s.signals then Sent(c, obs, h, k) && KillsAt(s.calls, obs[k].now)
          else if !s.ended && !s.error && !s.gone then Going(c, obs, h)
          else Failed(c, obs, h, k))
  }

  // ---------------------------------------------------------------- one more iteration

  lemma OverByGrows(obs: seq<Obs>, o: Obs, k: nat)
    requires k < |obs|
    ensures OverBy(obs + [o], k) <==> OverBy(obs, k)
  { assert (obs + [o])[..k] == obs[..k] && (obs + [o])[..k + 1] == obs[..k + 1]; }

  lemma BeginsGrows(c: Config, obs: seq<Obs>, o: Obs, h: nat)
    requires Begins(c, obs, h)
    ensures Begins(c, obs + [o], h) && h < |obs|
  { OverByGrows(obs, o, h); }

  lemma SentGrows(c: Config, obs: seq<Obs>, o: Obs, h: nat, k: nat)
    requires h < |obs|
    ensures Sent(c, obs, h, k) ==> Sent(c, obs + [o], h, k) && k < |obs| && (obs + [o])[k] == obs[k]
    ensures Failed(c, obs, h, k) ==> Failed(c, obs + [o], h, k)
  {}

  /** A state that has ended adds nothing to its story. */
  lemma StoryStays(c: Config, obs: seq<Obs>, o: Obs, s: State, h: nat, k: nat)
    requires s.ended && Story(c, obs, s, h, k)
    ensures Story(c, obs + [o], s, h, k)
  {
    if s.sequence.None? { OverByGrows(obs, o, k); }
    else {
      BeginsGrows(c, obs, o, h);
      SentGrows(c, obs, o, h, k);
    }
    hide Begins, Sent, Failed, OverBy;
  }

  lemma AnyGrows(obs: seq<Obs>, o: Obs)
    ensures AnyEof(obs + [o]) <==> AnyEof(obs) || o.read.Eof?
    ensures AnyCode(obs + [o]) <==> AnyCode(obs) || o.code.Some?
    ensures (obs + [o])[..|obs|] == obs && (obs + [o])[..|obs| + 1] == obs + [o]
  {
    assert (obs + [o])[|obs|] == o;
    assert forall k | 0 <= k < |obs| :: (obs + [o])[k] == obs[k];
  }

  lemma ProbeStory(s: State, o: Obs)
    requires !s.error && !s.gone
    ensures var p := Probed(s, o);
      p == s.(calls := s.calls + [Call(Probe, o.now, o.now, o.probe)], gone := o.probe.NoGroup?, error := o.probe.Refused?)
  {}

  /** KILL, when it is due. */
  lemma KillStory(c: Config, p: State, o: Obs)
    requires p.sequence.Some? && !p.error && p.signals == [Term]
    ensures var k, due := Killed(c, p, o), p.sequence.value + c.grace;
      if p.gone || o.now < due then k == p
      else && k.calls == p.calls + [Call(Kill, o.now, o.killAt, o.kill)]
           && k.sequence == p.sequence && k.ended == p.ended && k.gone == o.kill.NoGroup? && k.error == o.kill.Refused?
           && (Kill in k.signals <==> o.kill.Delivered?)
  {}

  lemma DoneStory(c: Config, k: State, o: Obs)
    requires k.sequence.Some? && k.lastSignal.Some? && k.lastSignal.value >= k.sequence.value && o.now < k.sequence.value + c.grace
    ensures !k.gone && Kill !in k.signals ==> !Done(c, k, o)
  {}

  lemma PressSteps(c: Config, s: State, o: Obs)
    requires s.sequence.Some? && !s.error && s.signals == [Term]
    ensures var p := Probed(s, o); p.signals == [Term] ==>
      var k := Killed(c, p, o);
      Press(c, s, o) == if p.error then p else if Done(c, k, o) then k.(ended := true) else k
  { hide Probed, Killed, Done; }

  /** What the checks after the first do, probe by probe. */
  lemma PressStory(c: Config, s: State, o: Obs)
    requires s.sequence.Some? && !s.error && !s.gone && !s.ended && s.signals == [Term]
    requires s.lastSignal.Some? && s.lastSignal.value >= s.sequence.value && NoKill(s.calls)
    ensures var t, due := Press(c, s, o), s.sequence.value + c.grace;
      && t.sequence == s.sequence && s.calls <= t.calls && KillsAt(t.calls, o.now)
      && (Kill in t.signals <==> o.probe.Delivered? && o.now >= due && o.kill.Delivered?)
      && (Kill !in t.signals && !t.ended && !t.error && !t.gone <==> o.probe.Delivered? && o.now < due)
  {
    hide Probed, Killed, Done, Press;
    var p := Probed(s, o);
    ProbeStory(s, o);
    PressSteps(c, s, o);
    if !p.error {
      KillStory(c, p, o);
      if o.now < s.sequence.value + c.grace { DoneStory(c, p, o); }
    }
  }

  /** Nothing more is sent once KILL is, or once an answer was not delivery. */
  lemma PressSpent(c: Config, s: State, o: Obs)
    requires s.sequence.Some? && !s.ended && (Kill in s.signals || s.error || s.gone)
    ensures var t := Press(c, s, o);
      && t.sequence == s.sequence && s.calls <= t.calls && t.signals == s.signals
      && (s.error ==> t.error) && (s.gone ==> t.gone)
      && forall j | |s.calls| <= j < |t.calls| :: t.calls[j].sig == Probe
  { hide Reached; }

  lemma ListenStory(s: State, o: Obs)
    ensures var t := Listen(s, o);
      && t.sequence == s.sequence && t.calls == s.calls && t.signals == s.signals && t.error == s.error && t.gone == s.gone
      && (s.ended ==> t == s) && (!s.error ==> t.ended == s.ended)
      && (!s.ended && !s.eof ==> t.eof == o.read.Eof?) && (s.eof ==> t.eof) && t.code == s.code
  {}

  /** Until the deadline or a signal: still waiting, or over because the command is. */
  lemma WaitNext(c: Config, obs: seq<Obs>, s: State, o: Obs)
    requires Kept(c, s) && !s.ended && s.sequence.None? && Waiting(c, obs, s) && Quiet(c, o)
    ensures Story(c, obs + [o], Iter(c, s, o), 0, |obs|)
  {
    NotBegun(c, s);
    AnyGrows(obs, o);
    hide Kept, AnyEof, AnyCode;
    assert OverBy(obs + [o], |obs|) <==> s.eof && Reap(s, o).code.Some?;
  }

  /** The state just after TERM, its checks still to come. */
  lemma PressBegun(c: Config, obs: seq<Obs>, b: State, o: Obs)
    requires Begins(c, obs + [o], |obs|) && b.sequence == Some(SequenceAt(c, o)) && !b.ended && NoKill(b.calls)
    requires b.calls != [] && b.calls[0].now == o.now
    requires b.gone == o.term.NoGroup? && b.error == o.term.Refused?
    requires b.signals == if o.term.Delivered? then [Term] else []
    requires o.term.Delivered? ==> b.lastSignal.Some? && b.lastSignal.value >= b.sequence.value
    ensures Story(c, obs + [o], Listen(Press(c, b, o), o), |obs|, |obs|)
  {
    var p := Press(c, b, o);
    ListenStory(p, o);
    assert (obs + [o])[|obs|] == o;
    if o.term.Delivered? { PressStory(c, b, o); } else { PressSpent(c, b, o); }
    hide Press, Listen, Begins, NoKill;
  }

  lemma BeginNext(c: Config, obs: seq<Obs>, s: State, o: Obs)
    requires Kept(c, s) && !s.ended && s.sequence.None? && Waiting(c, obs, s) && !Quiet(c, o) && Timed(o)
    ensures Story(c, obs + [o], Iter(c, s, o), |obs|, |obs|)
  {
    NotBegun(c, s);
    AnyGrows(obs, o);
    var s1 := Reap(s, o);
    hide Kept, AnyEof, AnyCode, Press, Listen;
    assert OverBy(obs + [o], |obs|) <==> s.eof && s1.code.Some?;
    assert (obs + [o])[|obs|] == o;
    if !(s1.code.Some? && s1.eof) {
      var b := Begin(c, s1, o);
      assert b.calls == [Call(Term, o.now, o.termAt, o.term)];
      hide Begin;
      PressBegun(c, obs, b, o);
    }
  }

  lemma GoingGrows(c: Config, obs: seq<Obs>, o: Obs, h: nat)
    requires h < |obs| && Going(c, obs, h)
    ensures var now, due := obs + [o], SequenceAt(c, obs[h]) + c.grace;
      if !o.probe.Delivered? then Failed(c, now, h, |obs|)
      else if o.now < due then Going(c, now, h)
      else if o.kill.Delivered? then Sent(c, now, h, |obs|)
      else Failed(c, now, h, |obs|)
  {
    var now := obs + [o];
    assert now[|obs|] == o && forall k | 0 <= k < |obs| :: now[k] == obs[k];
    hide SequenceAt;
  }

  lemma IterBegun(c: Config, s: State, o: Obs)
    requires s.sequence.Some?
    ensures Iter(c, s, o) == Listen(Press(c, Reap(s, o), o), o)
  { hide Listen, Press; }

  lemma GoNext(c: Config, obs: seq<Obs>, s: State, o: Obs, h: nat)
    requires Kept(c, s) && !s.ended && s.sequence.Some? && Kill !in s.signals && !s.error && !s.gone && Story(c, obs, s, h, 0)
    ensures Story(c, obs + [o], Iter(c, s, o), h, |obs|)
  {
    hide Kept, Iter, Press, Listen, Begins, Sent, Failed, Going, NoKill, KillsAt, SequenceAt;
    SignalsSo(c, s);
    IterBegun(c, s, o);
    PressStory(c, Reap(s, o), o);
    ListenStory(Press(c, Reap(s, o), o), o);
    BeginsGrows(c, obs, o, h);
    GoingGrows(c, obs, o, h);
    assert (obs + [o])[|obs|] == o && (obs + [o])[h] == obs[h];
  }

  lemma SignalsSo(c: Config, s: State)
    requires Kept(c, s) && s.sequence.Some? && Kill !in s.signals && !s.error && !s.gone
    ensures s.signals == [Term] && NoKill(s.calls) && s.lastSignal.Some? && s.lastSignal.value >= s.sequence.value
  { hide Trace, Reached; }

  lemma SpentNext(c: Config, obs: seq<Obs>, s: State, o: Obs, h: nat, k: nat)
    requires !s.ended && s.sequence.Some? && (Kill in s.signals || s.error || s.gone) && Story(c, obs, s, h, k)
    ensures Story(c, obs + [o], Iter(c, s, o), h, k)
  {
    hide Press, Listen, Begins, Iter, Sent, Failed;
    IterBegun(c, s, o);
    PressSpent(c, Reap(s, o), o);
    ListenStory(Press(c, Reap(s, o), o), o);
    BeginsGrows(c, obs, o, h);
    SentGrows(c, obs, o, h, k);
    assert (obs + [o])[h] == obs[h];
  }

  lemma StoryNext(c: Config, obs: seq<Obs>, s: State, o: Obs, h: nat, k: nat) returns (h': nat, k': nat)
    requires Kept(c, s) && Timed(o) && !s.ended && Story(c, obs, s, h, k)
    ensures Story(c, obs + [o], Iter(c, s, o), h', k')
  {
    hide Kept, Iter, Story;
    h', k' := h, k;
    if s.sequence.None? {
      WaitingSo(c, obs, s, h, k);
      if Quiet(c, o) { WaitNext(c, obs, s, o); h', k' := 0, |obs|; }
      else { BeginNext(c, obs, s, o); h', k' := |obs|, |obs|; }
    }
    else if Kill in s.signals || s.error || s.gone { SpentNext(c, obs, s, o, h, k); }
    else {
      GoingSo(c, obs, s, h, k);
      GoNext(c, obs, s, o, h);
      k' := |obs|;
    }
  }

  /** Every run has its story. */
  lemma {:induction false} RunStory(c: Config, obs: seq<Obs>) returns (h: nat, k: nat)
    requires Configured(c) && Clock(obs)
    ensures Story(c, obs, Run(c, obs), h, k)
  {
    hide Kept, Iter, Story, Clock, Run;
    h, k := 0, 0;
    if obs == [] { NoStory(c); }
    else {
      var before, o := obs[..|obs| - 1], obs[|obs| - 1];
      BeforeLast(c, obs);
      h, k := RunStory(c, before);
      assert obs == before + [o];
      if Run(c, before).ended { StoryStays(c, before, o, Run(c, before), h, k); }
      else { h, k := StoryNext(c, before, Run(c, before), o, h, k); }
    }
  }

  lemma NoStory(c: Config)
    ensures Story(c, [], Run(c, []), 0, 0)
  {}

  lemma WaitingSo(c: Config, obs: seq<Obs>, s: State, h: nat, k: nat)
    requires Story(c, obs, s, h, k) && !s.ended && s.sequence.None?
    ensures Waiting(c, obs, s)
  {}

  lemma GoingSo(c: Config, obs: seq<Obs>, s: State, h: nat, k: nat)
    requires Story(c, obs, s, h, k) && !s.ended && s.sequence.Some? && Kill !in s.signals && !s.error && !s.gone
    ensures Story(c, obs, s, h, 0)
  {}

  // ---------------------------------------------------------------- KILL before the grace is over

  /** SIGKILL reached the group less than a grace after the iteration that sent SIGTERM. */
  predicate Hasty(c: Config, calls: seq<Call>) {
    exists j | 0 <= j < |calls| :: calls[j].sig == Kill && calls[j].answer.Delivered? && calls[j].now < calls[0].now + c.grace
  }

  /** TERM is sent at `h`, because of the deadline, and KILL is due at `i`, less than a grace later. */
  predicate LateTerm(c: Config, obs: seq<Obs>, h: nat, i: nat) {
    && Begins(c, obs, h) && Sent(c, obs, h, i)
    && obs[h].received.None? && obs[i].now < obs[h].now + c.grace
  }

  lemma HastyIs(c: Config, obs: seq<Obs>, s: State, h: nat, i: nat)
    requires Kept(c, s) && Story(c, obs, s, h, i) && Hasty(c, s.calls)
    ensures LateTerm(c, obs, h, i)
  {
    var j :| 0 <= j < |s.calls| && s.calls[j].sig == Kill && s.calls[j].answer.Delivered? && s.calls[j].now < s.calls[0].now + c.grace;
    assert WasDelivered(s.calls, Kill);
    ReachedHas(s.calls, Kill);
    hide Trace, NoKill, Reached, WasDelivered, Begins;
  }

  lemma {:induction false} CallsGrow(c: Config, obs: seq<Obs>, i: nat)
    requires i <= |obs|
    ensures Run(c, obs[..i]).calls <= Run(c, obs).calls
    decreases |obs|
  {
    if i == |obs| { assert obs[..i] == obs; }
    else {
      var before := obs[..|obs| - 1];
      assert before[..i] == obs[..i];
      CallsGrow(c, before, i);
      if !Run(c, before).ended { IterCalls(c, Run(c, before), obs[|obs| - 1]); }
      hide Iter;
    }
  }

  lemma ContactCalls(s: State, sig: Signal, now: int, at: int, answer: Answer)
    ensures s.calls <= Contact(s, sig, now, at, answer).calls
  {}

  lemma PressCalls(c: Config, s: State, o: Obs)
    ensures s.calls <= Press(c, s, o).calls
  {
    hide Contact, Done;
    ContactCalls(s, Probe, o.now, o.now, o.probe);
    ContactCalls(Probed(s, o), Kill, o.now, o.killAt, o.kill);
  }

  lemma IterCalls(c: Config, s: State, o: Obs)
    ensures s.calls <= Iter(c, s, o).calls
  {
    hide Press, Begin, Listen;
    var b := Begin(c, Reap(s, o), o);
    PressCalls(c, b, o);
    BeginCalls(c, Reap(s, o), o);
    ListenStory(Press(c, b, o), o);
  }

  lemma BeginCalls(c: Config, s: State, o: Obs)
    ensures s.calls <= Begin(c, s, o).calls
  {}

  /** A story whose observations send KILL is one of a state that has sent it. */
  lemma SentSo(c: Config, obs: seq<Obs>, s: State, h: nat, i: nat, h': nat, k: nat)
    requires Story(c, obs, s, h', k) && Begins(c, obs, h) && Sent(c, obs, h, i) && i == |obs| - 1
    ensures s.sequence.Some? && h' == h && Kill in s.signals && k == i
  {
    if s.sequence.None? && k < |obs| { OverByLater(obs, k, h); }
    hide OverBy;
  }

  lemma OverByLater(obs: seq<Obs>, k: nat, h: nat)
    requires k < |obs| && h < |obs|
    ensures k <= h && OverBy(obs, k) ==> OverBy(obs, h)
  {}

  /** When the promise that KILL waits out a grace after TERM fails, over every run: TERM was sent because of the
      deadline by a poll that came after it, the first poll a grace past the deadline came less than a grace after
      that one, and TERM, every probe in between and KILL were delivered. */
  lemma KillTooSoonExactly(c: Config, obs: seq<Obs>)
    requires Configured(c) && Clock(obs)
    ensures Hasty(c, Run(c, obs).calls) <==> exists h: nat, i: nat :: LateTerm(c, obs, h, i)
  {
    if Hasty(c, Run(c, obs).calls) {
      var h, i := RunStory(c, obs);
      RunKeeps(c, obs);
      HastyIs(c, obs, Run(c, obs), h, i);
    }
    if h: nat, i: nat :| LateTerm(c, obs, h, i) { LateTermIs(c, obs, h, i); }
  }

  lemma LateTermIs(c: Config, obs: seq<Obs>, h: nat, i: nat)
    requires Configured(c) && Clock(obs) && LateTerm(c, obs, h, i)
    ensures Hasty(c, Run(c, obs).calls)
  {
    hide Clock, Run, LateTerm, Hasty;
    LateTermIn(c, obs, h, i);
    CutShort(c, obs, h, i);
    LateTermNow(c, obs[..i + 1], h, i);
    CallsGrow(c, obs, i + 1);
    HastyGrows(c, Run(c, obs[..i + 1]).calls, Run(c, obs).calls);
  }

  lemma LateTermIn(c: Config, obs: seq<Obs>, h: nat, i: nat)
    requires LateTerm(c, obs, h, i)
    ensures Begins(c, obs, h) && Sent(c, obs, h, i) && i < |obs|
  { hide Begins, Early, ProbesDelivered; }

  lemma AllTimed(obs: seq<Obs>)
    requires Clock(obs)
    ensures forall k | 0 <= k < |obs| :: Timed(obs[k])
  { hide Timed; }

  /** Of the run up to the poll that sends KILL. */
  lemma LateTermNow(c: Config, obs: seq<Obs>, h: nat, i: nat)
    requires Configured(c) && Clock(obs) && LateTerm(c, obs, h, i) && i == |obs| - 1
    ensures Hasty(c, Run(c, obs).calls)
  {
    hide Clock, Timed, Run, Kept, Story, LateTerm, Begins, Sent, Hasty;
    LateTermIn(c, obs, h, i);
    AllTimed(obs);
    var h', k := RunStory(c, obs);
    RunKeeps(c, obs);
    SentSo(c, obs, Run(c, obs), h, i, h', k);
    HastyNow(c, obs, Run(c, obs), h, i);
  }

  lemma CutShort(c: Config, obs: seq<Obs>, h: nat, i: nat)
    requires Clock(obs) && LateTerm(c, obs, h, i)
    ensures Clock(obs[..i + 1]) && LateTerm(c, obs[..i + 1], h, i)
  {
    var upto := obs[..i + 1];
    assert upto[..h] == obs[..h] && upto[..h + 1] == obs[..h + 1];
  }

  lemma HastyNow(c: Config, obs: seq<Obs>, s: State, h: nat, i: nat)
    requires Kept(c, s) && Story(c, obs, s, h, i) && LateTerm(c, obs, h, i) && s.sequence.Some? && Kill in s.signals
    ensures Hasty(c, s.calls)
  {
    ReachedHas(s.calls, Kill);
    hide Trace, NoKill, Reached, Begins, Sent;
    var j :| 0 <= j < |s.calls| && s.calls[j].sig == Kill && s.calls[j].answer.Delivered?;
    assert s.calls[j].now == obs[i].now;
  }

  lemma HastyGrows(c: Config, calls: seq<Call>, more: seq<Call>)
    requires Hasty(c, calls) && calls <= more
    ensures Hasty(c, more)
  {
    var j :| 0 <= j < |calls| && calls[j].sig == Kill && calls[j].answer.Delivered? && calls[j].now < calls[0].now + c.grace;
    assert more[j] == calls[j];
  }

  /** So a TERM sent because of a signal of the wrapper's own leaves the group its full grace. */
  lemma WrapperSignalWaits(c: Config, obs: seq<Obs>, h: nat)
    requires Configured(c) && Clock(obs) && Begins(c, obs, h) && obs[h].received.Some?
    ensures !Hasty(c, Run(c, obs).calls)
  {
    hide Run, Hasty, LateTerm, Begins, Clock;
    KillTooSoonExactly(c, obs);
    if h': nat, i: nat :| LateTerm(c, obs, h', i) { OneTerm(c, obs, h, h', i); }
  }

  lemma OneTerm(c: Config, obs: seq<Obs>, h: nat, h': nat, i: nat)
    requires Begins(c, obs, h) && LateTerm(c, obs, h', i)
    ensures h == h' && obs[h].received.None?
  { hide Sent, OverBy; }

  /** A deadline at 10 with a grace of 10, polled at 19 and at 20: KILL one second after TERM. */
  lemma KillAfterOneSecond()
    ensures var c := Config(10, 10);
      var o := Obs(None, 19, None, Delivered, 19, Delivered, Delivered, 19, Read.Quiet);
      Hasty(c, Run(c, [o, o.(now := 20, termAt := 20, killAt := 20)]).calls)
  {
    var c := Config(10, 10);
    var o := Obs(None, 19, None, Delivered, 19, Delivered, Delivered, 19, Read.Quiet);
    var obs := [o, o.(now := 20, termAt := 20, killAt := 20)];
    assert obs[..0] == [] && LateTerm(c, obs, 0, 1);
    hide Run, Hasty;
    KillTooSoonExactly(c, obs);
  }
}
