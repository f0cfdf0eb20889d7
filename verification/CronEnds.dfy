/** Exactly when the kill loop of a bounded cron run ends (`_poll_command`, src/cron_run.py). */
module CronEnds {
  import opened Seqs
  import opened CronKill
  import opened CronGrace

  predicate LastWas(calls: seq<Call>, a: Answer) { calls != [] && calls[|calls| - 1].answer == a }

  predicate KillReached(calls: seq<Call>) { exists i | 0 <= i < |calls| :: calls[i].sig == Kill && calls[i].answer == Delivered }

  /** From the calls made by now, and whether the command is reaped and its pipe closed. */
  predicate EndsNow(c: Config, calls: seq<Call>, now: int, done: bool) {
    if calls == [] || LastWas(calls, Refused) then done
    else
      || (LastWas(calls, NoGroup) && LastDelivered(calls).None?)
      || (done && (LastWas(calls, NoGroup) || KillReached(calls)))
      || (LastDelivered(calls).Some? && now >= LastDelivered(calls).value + c.grace)
  }

  /** The same of the state's own fields. */
  predicate EndsBy(c: Config, s: State, now: int, done: bool) {
    if s.sequence.None? || s.error then done
    else (s.gone && s.signals == []) || (done && (s.gone || Kill in s.signals))
         || (s.lastSignal.Some? && now >= s.lastSignal.value + c.grace)
  }

  lemma ByFields(c: Config, s: State, now: int, done: bool)
    requires Kept(c, s) && LastIs(s)
    ensures EndsBy(c, s, now, done) <==> EndsNow(c, s.calls, now, done)
  {
    if Kill in s.signals { ReachedHas(s.calls, Kill); }
    ReachedNone(s.calls);
    ReachedKill(s.calls);
    hide Trace, LastDelivered;
  }

  lemma {:induction false} ReachedNone(calls: seq<Call>)
    ensures LastDelivered(calls).None? <==> Reached(calls) == []
  { if calls != [] { ReachedNone(calls[..|calls| - 1]); } }

  lemma {:induction false} ReachedKill(calls: seq<Call>)
    ensures KillReached(calls) <==> Kill in Reached(calls)
  {
    if calls != [] {
      var init, l := calls[..|calls| - 1], calls[|calls| - 1];
      ReachedKill(init);
      hide LastDelivered;
      if KillReached(init) {
        var i :| 0 <= i < |init| && init[i].sig == Kill && init[i].answer == Delivered;
        assert calls[i] == init[i];
      }
      if KillReached(calls) {
        var i :| 0 <= i < |calls| && calls[i].sig == Kill && calls[i].answer == Delivered;
        if i < |init| { assert init[i] == calls[i]; }
      }
      if l.sig == Kill && l.answer == Delivered { assert calls[|calls| - 1] == l; }
    }
  }

  lemma PressEnds(c: Config, b: State, o: Obs)
    requires Kept(c, b) && b.sequence.Some? && !b.error && !b.ended
    ensures var t := Press(c, b, o);
      && t.code == b.code && t.eof == b.eof && t.sequence == b.sequence
      && (t.ended <==> !t.error && EndsBy(c, t, o.now, t.code.Some? && t.eof))
  { hide Trace, Reached, NoKill, Ladder; }

  lemma IterEnds(c: Config, s: State, o: Obs)
    requires Kept(c, s) && !s.ended && Timed(o)
    ensures var t := Iter(c, s, o); t.ended <==> EndsBy(c, t, o.now, t.code.Some? && s.eof)
  {
    var s1 := Reap(s, o);
    ReapKeeps(c, s, o);
    BeginKeeps(c, s1, o);
    var b := Begin(c, s1, o);
    BeginRuns(c, s1, o);
    assert b.code == s1.code && b.eof == s1.eof;
    hide Kept, Begin, Press;
    if b.sequence.Some? && !b.error { PressEnds(c, b, o); }
  }

  lemma PressFrame(c: Config, b: State, o: Obs)
    ensures var t := Press(c, b, o); t.code == b.code && t.eof == b.eof
  {}

  lemma IterSees(c: Config, s: State, o: Obs)
    ensures var t := Iter(c, s, o);
      && (t.code.Some? <==> s.code.Some? || o.code.Some?)
      && (!t.ended ==> (t.eof <==> s.eof || o.read.Eof?))
  {
    PressFrame(c, Begin(c, Reap(s, o), o), o);
    hide Press;
  }

  /** What a loop that runs on has seen of the command and its pipe. */
  lemma {:induction false} Sees(c: Config, obs: seq<Obs>)
    requires !Run(c, obs).ended
    ensures var s := Run(c, obs); (s.code.Some? <==> AnyCode(obs)) && (s.eof <==> AnyEof(obs))
  {
    if obs != [] {
      var n := |obs| - 1;
      Sees(c, obs[..n]);
      IterSees(c, Run(c, obs[..n]), obs[n]);
      AnyGrows(obs[..n], obs[n]);
      assert obs[..n] + [obs[n]] == obs;
      hide Iter, AnyCode, AnyEof;
    }
  }

  /** A loop that has run so far ends in the iteration it is in exactly when: it has called nobody, or was refused,
      and the command is reaped and its pipe closed; the group is gone and no signal ever reached it; the group is
      gone or has had SIGKILL, the command is reaped and its pipe closed; or a grace has passed since the last signal
      that reached the group. The pipe counts as closed from the iteration after the one that reads its end. */
  lemma EndsExactly(c: Config, obs: seq<Obs>)
    requires Configured(c) && Clock(obs) && obs != [] && !Run(c, obs[..|obs| - 1]).ended
    ensures Run(c, obs).ended <==>
      EndsNow(c, Run(c, obs).calls, obs[|obs| - 1].now, AnyCode(obs) && AnyEof(obs[..|obs| - 1]))
  {
    var n := |obs| - 1;
    var s := Run(c, obs[..n]);
    BeforeLast(c, obs);
    IterEnds(c, s, obs[n]);
    IterKeeps(c, s, obs[n]);
    RunLast(c, obs);
    Sees(c, obs[..n]);
    IterSees(c, s, obs[n]);
    AnyGrows(obs[..n], obs[n]);
    assert obs[..n] + [obs[n]] == obs;
    hide Kept, Iter, LastIs, AnyCode, AnyEof, EndsBy, EndsNow, Clock;
    ByFields(c, Run(c, obs), obs[n].now, Run(c, obs).code.Some? && s.eof);
  }

  /** The wrapper's signal in the exit code is the one that was received when the sequence began. */
  lemma {:induction false} WrapperIs(c: Config, obs: seq<Obs>)
    requires Run(c, obs).sequence.Some?
    ensures exists h | 0 <= h < |obs| ::
      Run(c, obs[..h]).sequence.None? && Run(c, obs[..h + 1]).sequence.Some? && Run(c, obs).wrapper == obs[h].received
  {
    var n := |obs| - 1;
    var s := Run(c, obs[..n]);
    assert obs[..n + 1] == obs;
    WrapperKept(c, s, obs[n]);
    hide Iter;
    if s.sequence.Some? {
      WrapperIs(c, obs[..n]);
      var h :| 0 <= h < n && Run(c, obs[..n][..h]).sequence.None? && Run(c, obs[..n][..h + 1]).sequence.Some?
        && s.wrapper == obs[..n][h].received;
      assert obs[..n][..h] == obs[..h] && obs[..n][..h + 1] == obs[..h + 1] && obs[..n][h] == obs[h];
    }
  }

  lemma WrapperKept(c: Config, s: State, o: Obs)
    ensures var t := Iter(c, s, o);
      if s.sequence.Some? then t.sequence == s.sequence && t.wrapper == s.wrapper
      else t.sequence.Some? ==> t.wrapper == o.received
  {
    hide Press, Listen, Contact;
    var b := Begin(c, Reap(s, o), o);
    PressWrapper(c, b, o);
    ListenWrapper(Press(c, b, o), o);
    BeginWrapper(c, Reap(s, o), o);
    hide Begin;
  }

  lemma BeginWrapper(c: Config, s: State, o: Obs)
    ensures var t := Begin(c, s, o);
      if s.sequence.Some? then t == s else t.sequence.Some? ==> t.wrapper == o.received
  {}

  lemma ListenWrapper(s: State, o: Obs)
    ensures Listen(s, o).sequence == s.sequence && Listen(s, o).wrapper == s.wrapper
  {}

  lemma PressWrapper(c: Config, b: State, o: Obs)
    ensures Press(c, b, o).sequence == b.sequence && Press(c, b, o).wrapper == b.wrapper
  {}
}
