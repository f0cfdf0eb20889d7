/** The line loop of `rewrite` (src/balance.py), proved against the edit of the parsed document. */
module BalanceRewrite {
  import opened Seqs
  import opened TomlDoc
  import opened Balance
  import opened BalanceMeaning
  import opened BalanceKept

  // ---------------------------------------------------------------- the output so far

  function LastRole(d: Doc): Option<Role> {
    if d.sections == [] then None else ManagedRole(d.sections[|d.sections| - 1])
  }

  function LastKeys(d: Doc): set<Key> {
    if d.sections == [] then {} else KeysIn(d.sections[|d.sections| - 1].body)
  }

  function Opened(state: State, s: Section): Section {
    if ManagedRole(s).Some? then s.(body := EditBody(Target(state, ManagedRole(s).value), s.body)) else s
  }

  /** Every section edited but the last, whose missing keys are still to come. */
  function Part(state: State, d: Doc): seq<Line> {
    if d.sections == [] then d.head
    else
      var n := |d.sections| - 1;
      Flat(Doc(d.head, EditAll(state, d.sections[..n]) + [Opened(state, d.sections[n])]))
  }

  function Whole(state: State, d: Doc): Doc { d.(sections := EditAll(state, d.sections)) }

  function Finished(out: seq<Line>, extra: seq<Line>): seq<Line> {
    if extra == [] then out else EndLast(out) + extra
  }

  function Lacking(state: State, d: Doc): seq<Line> {
    if LastRole(d).Some? then Missing(Target(state, LastRole(d).value), LastKeys(d), KEYS) else []
  }

  lemma EndLastJoin(a: seq<Line>, b: seq<Line>)
    requires b != []
    ensures EndLast(a + b) == a + EndLast(b)
  { assert (a + b)[..|a + b| - 1] == a + b[..|b| - 1]; }

  lemma FlatEnd(d: Doc)
    ensures EndLast(Flat(d)) == Flat(EndDoc(d))
  {
    if d.sections != [] {
      var n := |d.sections| - 1;
      var init, s := Doc(d.head, d.sections[..n]), d.sections[n];
      FlatAdd(init, s);
      FlatAdd(init, EndSection(s));
      assert d.sections == d.sections[..n] + [s];
      EndLastJoin(Flat(init), [s.header] + s.body);
      assert Flat(init) + ([s.header] + s.body) == Flat(init) + [s.header] + s.body;
      if s.body != [] { EndLastJoin([s.header], s.body); }
      assert EndLast([s.header]) == [Ended(s.header)];
      hide Flat, EndLast;
      if s.body == [] { assert [s.header] + s.body == [s.header]; }
    }
  }

  /** Closing a section in place is closing it in the output. */
  lemma FlatClose(d: Doc, s: Section, extra: seq<Line>)
    ensures Flat(Doc(d.head, d.sections + [Close(s, extra)])) == Finished(Flat(Doc(d.head, d.sections + [s])), extra)
  {
    if extra != [] {
      var now := Doc(d.head, d.sections + [s]);
      FlatEnd(now);
      assert now.sections[..|d.sections|] == d.sections;
      assert EndDoc(now).sections == d.sections + [EndSection(s)];
      FlatAdd(d, EndSection(s));
      FlatAdd(d, Close(s, extra));
      hide Flat, EndLast, EndDoc;
    }
  }

  lemma FinishPart(state: State, d: Doc)
    ensures Flat(Whole(state, d)) == Finished(Part(state, d), Lacking(state, d))
  {
    if d.sections == [] { assert FlatSections([]) == []; assert EditAll(state, []) == []; }
    else {
      var n := |d.sections| - 1;
      var s := d.sections[n];
      var init := Doc(d.head, EditAll(state, d.sections[..n]));
      FlatClose(init, Opened(state, s), Lacking(state, d));
      hide Flat, Finished, Missing, KeysIn, EditBody, Target;
      assert EditSection(state, s) == Close(Opened(state, s), Lacking(state, d));
    }
  }

  lemma PartHeader(state: State, d: Doc, l: Line)
    requires l.Header?
    ensures Part(state, Push(d, l)) == Flat(Whole(state, d)) + [l]
  {
    var s := Section(l, []);
    assert Push(d, l).sections[..|d.sections|] == d.sections;
    assert Opened(state, s) == s by { hide Target; }
    FlatAdd(Whole(state, d), s);
    hide Flat, EditAll, Opened;
  }

  lemma PartLine(state: State, d: Doc, l: Line)
    requires !l.Header?
    ensures Part(state, Push(d, l)) ==
      Part(state, d) + if LastRole(d).Some? then EditLine(Target(state, LastRole(d).value), l) else [l]
  {
    hide Flat, EditAll, EditLine, Target, Opened, ManagedRole;
    if d.sections != [] {
      var n := |d.sections| - 1;
      var s := d.sections[n];
      var now := s.(body := s.body + [l]);
      assert Push(d, l).sections[..n] == d.sections[..n] && Push(d, l).sections[n] == now;
      OpenedFlat(state, Doc(d.head, EditAll(state, d.sections[..n])), s, l);
    }
  }

  lemma OpenedFlat(state: State, d: Doc, s: Section, l: Line)
    ensures Flat(Doc(d.head, d.sections + [Opened(state, s.(body := s.body + [l]))])) == Flat(Doc(d.head, d.sections + [Opened(state, s)]))
      + if ManagedRole(s).Some? then EditLine(Target(state, ManagedRole(s).value), l) else [l]
  {
    var more := if ManagedRole(s).Some? then EditLine(Target(state, ManagedRole(s).value), l) else [l];
    FlatAdd(d, Opened(state, s));
    FlatAdd(d, Opened(state, s.(body := s.body + [l])));
    OpenedLine(state, s, l);
    hide Flat, EditLine, Target, Opened, ManagedRole;
    Assoc(Flat(d) + [Opened(state, s).header], Opened(state, s).body, more);
  }

  lemma OpenedLine(state: State, s: Section, l: Line)
    ensures Opened(state, s.(body := s.body + [l])) == Opened(state, s).(body := Opened(state, s).body
      + if ManagedRole(s).Some? then EditLine(Target(state, ManagedRole(s).value), l) else [l])
  {
    hide EditLine, Target;
    assert (s.body + [l])[..|s.body|] == s.body;
  }

  lemma FlatAppend(state: State, d: Doc, r: Role)
    ensures Flat(AppendRole(state, d, r)) == EndLast(Flat(d)) + [BLANK, HeaderOf(r)] + Missing(Target(state, r), {}, KEYS)
  {
    FlatEnd(d);
    var open := Extend(EndDoc(d), [BLANK]);
    FlatExtend(EndDoc(d), BLANK);
    FlatAdd(open, NewSection(state, r));
    hide Flat, EndLast, EndDoc, Extend, Missing;
    assert Flat(EndDoc(d)) + [BLANK] + [HeaderOf(r)] == Flat(EndDoc(d)) + [BLANK, HeaderOf(r)];
  }

  lemma FlatExtend(d: Doc, l: Line)
    requires !l.Header?
    ensures Flat(Extend(d, [l])) == Flat(d) + [l]
  {
    assert Extend(d, [l]) == Push(d, l);
    FlatPush(d, l);
  }

  // ---------------------------------------------------------------- the code

  lemma FinishedPush(out: seq<Line>, extra: seq<Line>, l: Line)
    requires forall i | 0 <= i < |extra| :: extra[i].eol != NoEol
    ensures EndLast(Finished(out, extra)) + [l] == Finished(out, extra + [l])
  {
    if extra == [] { assert extra + [l] == [l]; }
    else {
      EndLastJoin(EndLast(out), extra);
      EndedAlready(extra);
      hide EndLast;
      Assoc(EndLast(out), extra, [l]);
    }
  }

  lemma EndedAlready(ls: seq<Line>)
    requires forall i | 0 <= i < |ls| :: ls[i].eol != NoEol
    ensures EndLast(ls) == ls
  { if ls != [] { assert ls == ls[..|ls| - 1] + [ls[|ls| - 1]]; } }

  /** The inner function `finish`: the missing keys of the section that ends. */
  method Finish(out: seq<Line>, current: Option<Role>, keys: set<Key>, state: State) returns (now: seq<Line>)
    ensures now == Finished(out, if current.Some? then Missing(Target(state, current.value), keys, KEYS) else [])
  {
    now := out;
    if current.None? { return; }
    var t := Target(state, current.value);
    FinishedStart(out, t, keys);
    hide Target, Missing, Finished, EndLast;
    for i := 0 to |KEYS|
      invariant now == Finished(out, Missing(t, keys, KEYS[..i]))
    {
      var k := KEYS[i];
      FinishedNext(out, t, keys, i);
      if k in t && k !in keys {
        now := EndLast(now) + [Entry(k, t[k], "", Lf)];
      }
    }
    assert KEYS[..|KEYS|] == KEYS;
  }

  lemma FinishedStart(out: seq<Line>, t: Settings, keys: set<Key>)
    ensures Finished(out, Missing(t, keys, KEYS[..0])) == out
  {}

  lemma FinishedNext(out: seq<Line>, t: Settings, keys: set<Key>, i: nat)
    requires i < |KEYS|
    ensures var before, k := Finished(out, Missing(t, keys, KEYS[..i])), KEYS[i];
      Finished(out, Missing(t, keys, KEYS[..i + 1])) ==
      if k in t && k !in keys then EndLast(before) + [Entry(k, t[k], "", Lf)] else before
  {
    var extra, k := Missing(t, keys, KEYS[..i]), KEYS[i];
    MissingNext(t, keys, i);
    hide Missing, Finished, EndLast;
    if k in t && k !in keys {
      MissingIs(t, keys, KEYS[..i]);
      FinishedPush(out, extra, Entry(k, t[k], "", Lf));
    }
  }

  lemma MissingNext(t: Settings, keys: set<Key>, i: nat)
    requires i < |KEYS|
    ensures var before, k := Missing(t, keys, KEYS[..i]), KEYS[i];
      Missing(t, keys, KEYS[..i + 1]) == if k in t && k !in keys then before + [Entry(k, t[k], "", Lf)] else before
  {
    assert KEYS[..i + 1][..i] == KEYS[..i];
    assert Missing(t, keys, KEYS[..i]) + [] == Missing(t, keys, KEYS[..i]);
  }

  /** The managed roles seen so far. */
  ghost predicate SeenIs(seen: set<Role>, d: Doc) { forall r :: r in seen <==> HasRole(d.sections, r) }

  lemma SeenPush(seen: set<Role>, d: Doc, l: Line)
    requires SeenIs(seen, d)
    ensures var m := if l.Header? then ManagedRole(Section(l, [])) else None;
      SeenIs(seen + (if m.Some? then {m.value} else {}), Push(d, l))
  {
    var n := |d.sections|;
    var now := Push(d, l).sections;
    if l.Header? {
      assert now[n] == Section(l, []) && forall i | 0 <= i < n :: now[i] == d.sections[i];
    } else {
      assert |now| == n && forall i | 0 <= i < n :: ManagedRole(now[i]) == ManagedRole(d.sections[i]);
    }
    forall r ensures HasRole(now, r) <==> HasRole(d.sections, r) || (l.Header? && ManagedRole(Section(l, [])) == Some(r)) {
      if HasRole(d.sections, r) {
        var i :| 0 <= i < n && ManagedRole(d.sections[i]) == Some(r);
        assert ManagedRole(now[i]) == Some(r);
      }
    }
  }

  lemma LastPush(d: Doc, l: Line)
    ensures LastRole(Push(d, l)) == if l.Header? then ManagedRole(Section(l, [])) else LastRole(d)
    ensures LastRole(d).Some? && !l.Header? ==>
      LastKeys(Push(d, l)) == LastKeys(d) + if l.Entry? then {l.key} else {}
    ensures l.Header? ==> LastKeys(Push(d, l)) == {}
  {
    if d.sections != [] { KeysInPush(d.sections[|d.sections| - 1].body, l); }
    hide KeysIn;
    assert KeysIn([]) == {} by { NoKeys(); }
  }

  /** The loop over the lines, and the end of the last section. */
  method EditLines(lines: seq<Line>, state: State) returns (out: seq<Line>, seen: set<Role>)
    ensures out == Flat(Whole(state, Parse(lines))) && SeenIs(seen, Parse(lines))
  {
    out, seen := [], {};
    var keys: set<Key> := {};
    var current: Option<Role> := None;
    assert Parse(lines[..0]) == Doc([], []);
    hide Push, EditAll, Flat, HasRole, KeysIn, Target, Missing, Finished;
    for i := 0 to |lines|
      invariant out == Part(state, Parse(lines[..i])) && SeenIs(seen, Parse(lines[..i]))
      invariant current == LastRole(Parse(lines[..i]))
      invariant current.Some? ==> keys == LastKeys(Parse(lines[..i]))
    {
      ghost var d := Parse(lines[..i]);
      assert lines[..i + 1][..i] == lines[..i];
      assert Parse(lines[..i + 1]) == Push(d, lines[i]);
      SeenPush(seen, d, lines[i]);
      LastPush(d, lines[i]);
      out, seen, keys, current := EditOne(d, out, seen, keys, current, lines[i], state);
    }
    assert lines[..|lines|] == lines;
    FinishPart(state, Parse(lines));
    out := Finish(out, current, keys, state);
  }

  method EditOne(ghost d: Doc, out: seq<Line>, seen: set<Role>, keys: set<Key>, current: Option<Role>, l: Line, state: State)
    returns (now: seq<Line>, seen': set<Role>, keys': set<Key>, current': Option<Role>)
    requires out == Part(state, d) && current == LastRole(d) && (current.Some? ==> keys == LastKeys(d))
    ensures now == Part(state, Push(d, l))
    ensures current' == if l.Header? then ManagedRole(Section(l, [])) else current
    ensures keys' == if l.Header? then {} else if current.Some? && l.Entry? then keys + {l.key} else keys
    ensures seen' == seen + if l.Header? && current'.Some? then {current'.value} else {}
  {
    now, seen', keys', current' := out, seen, keys, current;
    hide Part, Whole, Flat, Push, Missing, EditLine, Target, LastKeys;
    if l.Header? {
      FinishPart(state, d);
      PartHeader(state, d, l);
      now := Finish(now, current, keys, state);
      current' := if l.table.Contract? && l.table.role in MANAGED then Some(l.table.role) else None;
      keys' := {};
      if current'.Some? { seen' := seen' + {current'.value}; }
      now := now + [l];
    } else {
      PartLine(state, d, l);
      if current.Some? && l.Entry? {
        keys' := keys' + {l.key};
        now := now + EditLine(Target(state, current.value), l);
      } else {
        if current.Some? { assert EditLine(Target(state, current.value), l) == [l] by { PlainLine(Target(state, current.value), l); } }
        now := now + [l];
      }
    }
  }

  lemma PlainLine(t: Settings, l: Line)
    requires !l.Entry?
    ensures EditLine(t, l) == [l]
  {}

  /** The loop over the managed roles without a table. */
  method AppendMissing(ghost d: Doc, out: seq<Line>, seen: set<Role>, state: State) returns (now: seq<Line>)
    requires out == Flat(Whole(state, d)) && SeenIs(seen, d)
    ensures now == Flat(EditDoc(state, d))
  {
    now := out;
    ghost var whole := Whole(state, d);
    hide Flat, EditAll, AppendRole, HasRole, Missing, Target, EndLast;
    for i := 0 to |MANAGED|
      invariant now == Flat(AppendRoles(state, whole, MANAGED[..i], d.sections))
    {
      assert MANAGED[..i + 1][..i] == MANAGED[..i];
      var r := MANAGED[i];
      if r !in seen {
        FlatAppend(state, AppendRoles(state, whole, MANAGED[..i], d.sections), r);
        now := EndLast(now) + [BLANK, HeaderOf(r)] + Missing(Target(state, r), {}, KEYS);
      }
    }
    assert MANAGED[..|MANAGED|] == MANAGED;
  }

  /** `rewrite`: it refuses exactly the documents that do not load or that set a judge it does not manage on
      codex, and otherwise returns the edited document; the two checks it ends with never fail. */
  method Rewrite(lines: seq<Line>, state: State) returns (r: Option<seq<Line>>)
    ensures r.Some? <==> Loads(Parse(lines)) && !Refused(Parse(lines).sections)
    ensures r.Some? ==> r.value == Flat(EditDoc(state, Parse(lines)))
  {
    hide *;
    var original := Parse(lines);
    if !Loads(original) || Refused(original.sections) { return None; }
    var out, seen := EditLines(lines, state);
    out := AppendMissing(original, out, seen, state);
    FlatParse(lines);
    EditFormed(state, original);
    ParseFlat(EditDoc(state, original));
    LoadsKept(state, original);
    JudgesKept(state, original);
    var written := Parse(out);
    if !Loads(written) || JudgeOnCodex(written.sections) { assert false; return None; }
    r := Some(out);
  }

  // ---------------------------------------------------------------- the document written

  lemma FormedEditAll(state: State, d: Doc)
    requires Formed(d)
    ensures Formed(Whole(state, d))
  {
    EditAllIs(state, d.sections);
    hide EditAll, AllSettled, Bare, EditSection;
    forall i | 0 <= i < |d.sections| ensures EditAll(state, d.sections)[i].header.Header? && Bare(EditAll(state, d.sections)[i].body) {
      EditSettles(state, d.sections[i]);
    }
  }

  lemma BareEndLast(ls: seq<Line>, l: Line)
    requires Bare(ls) && !l.Header?
    ensures Bare(EndLast(ls) + [l])
  { EndLastKeys(ls); }

  lemma FormedOpen(d: Doc)
    requires Formed(d)
    ensures Formed(Extend(EndDoc(d), [BLANK]))
  {
    var n := |d.sections|;
    if n == 0 { BareEndLast(d.head, BLANK); }
    else {
      var s := d.sections[n - 1];
      BareEndLast(s.body, BLANK);
      assert EndDoc(d).sections[..n - 1] == d.sections[..n - 1];
      if s.body == [] { assert EndLast(s.body) + [BLANK] == s.body + [BLANK]; }
      hide Bare, EndLast;
    }
  }

  lemma FormedAppend(state: State, d: Doc, r: Role)
    requires Formed(d) && r in MANAGED
    ensures Formed(AppendRole(state, d, r))
  {
    hide Bare, EndDoc, Extend, NewSection, SettledSection, ManagedRole;
    FormedOpen(d);
    NewSettled(state, r);
    NewHeader(state, r);
  }

  lemma NewHeader(state: State, r: Role)
    ensures NewSection(state, r).header == HeaderOf(r)
  {}

  lemma {:induction false} FormedAppends(state: State, d: Doc, rs: seq<Role>, had: seq<Section>)
    requires Formed(d) && forall r | r in rs :: r in MANAGED
    ensures Formed(AppendRoles(state, d, rs, had))
  {
    if rs != [] {
      FormedAppends(state, d, rs[..|rs| - 1], had);
      FormedAppend(state, AppendRoles(state, d, rs[..|rs| - 1], had), rs[|rs| - 1]);
      hide Formed, AppendRole, HasRole;
    }
  }

  lemma EditFormed(state: State, d: Doc)
    requires Formed(d)
    ensures Formed(EditDoc(state, d))
  {
    hide Formed, AppendRoles, EditAll;
    FormedEditAll(state, d);
    FormedAppends(state, Whole(state, d), MANAGED, d.sections);
  }

  /** Rewriting what was written, for the same state, is accepted and returns it unchanged. */
  lemma RewriteTwice(state: State, lines: seq<Line>)
    requires Loads(Parse(lines)) && !Refused(Parse(lines).sections)
    ensures var out := Flat(EditDoc(state, Parse(lines)));
      Loads(Parse(out)) && !Refused(Parse(out).sections) && Flat(EditDoc(state, Parse(out))) == out
  {
    hide *;
    var d := Parse(lines);
    FlatParse(lines);
    EditFormed(state, d);
    ParseFlat(EditDoc(state, d));
    LoadsKept(state, d);
    StillNotRefused(state, d);
    EditTwice(state, d);
  }

  lemma StillNotRefused(state: State, d: Doc)
    requires !Refused(d.sections)
    ensures !Refused(EditDoc(state, d).sections)
  {
    var now := EditDoc(state, d).sections;
    hide Meaning, EditDoc;
    ReadBack(state, d, Defaults);
    forall r | r in JUDGES && r !in MANAGED ensures BackendOf(now, r) != Codex { ReadBack(state, d, Contract(r)); }
  }
}
