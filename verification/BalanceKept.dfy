/** What a rewrite leaves alone: unmanaged lines, and every comment (`rewrite`, src/balance.py). */
module BalanceKept {
  import opened TomlDoc
  import opened Balance

  // ---------------------------------------------------------------- lines and comments

  /** What must survive of a line: of a managed key line its comment, of any other line the line. */
  function KeepLine(managed: bool, l: Line): seq<Line> {
    if !(managed && l.Entry?) then [Ended(l)]
    else if l.comment != "" then [Plain(l.comment, Ended(l).eol)] else []
  }

  function KeepBody(managed: bool, body: seq<Line>): seq<Line> {
    if body == [] then [] else KeepBody(managed, body[..|body| - 1]) + KeepLine(managed, body[|body| - 1])
  }

  function KeepSections(ss: seq<Section>): seq<Line> {
    if ss == [] then [] else
    var s := ss[|ss| - 1];
    KeepSections(ss[..|ss| - 1]) + [Ended(s.header)] + KeepBody(ManagedRole(s).Some?, s.body)
  }

  function Keep(d: Doc): seq<Line> { KeepBody(false, d.head) + KeepSections(d.sections) }

  /** A blank line and a header for every managed role that had no table. */
  function Added(rs: seq<Role>, had: seq<Section>): seq<Line> {
    if rs == [] then [] else
    Added(rs[..|rs| - 1], had) + if HasRole(had, rs[|rs| - 1]) then [] else [BLANK, HeaderOf(rs[|rs| - 1])]
  }

  lemma Assoc<T>(a: seq<T>, b: seq<T>, c: seq<T>)
    ensures a + b + c == a + (b + c)
  {}

  lemma {:induction false} KeepJoin(managed: bool, a: seq<Line>, b: seq<Line>)
    ensures KeepBody(managed, a + b) == KeepBody(managed, a) + KeepBody(managed, b)
  {
    hide KeepBody, KeepLine;
    if b == [] {
      assert a + b == a;
      KeepNone(managed);
    } else {
      var init, l := b[..|b| - 1], b[|b| - 1];
      KeepJoin(managed, a, init);
      assert b == init + [l];
      Assoc(a, init, [l]);
      KeepLast(managed, a + init, l); KeepLast(managed, init, l);
      Assoc(KeepBody(managed, a), KeepBody(managed, init), KeepLine(managed, l));
    }
  }

  lemma KeepNone(managed: bool)
    ensures KeepBody(managed, []) == []
  {}

  lemma KeepLast(managed: bool, a: seq<Line>, l: Line)
    ensures KeepBody(managed, a + [l]) == KeepBody(managed, a) + KeepLine(managed, l)
  { assert (a + [l])[..|a|] == a; }

  lemma KeepEndLast(managed: bool, body: seq<Line>)
    ensures KeepBody(managed, EndLast(body)) == KeepBody(managed, body)
  {
    if body != [] {
      var init, l := body[..|body| - 1], body[|body| - 1];
      KeepLast(managed, init, l); KeepLast(managed, init, Ended(l));
      hide KeepBody;
      assert body == init + [l];
    }
  }

  lemma KeepEditedLine(t: Settings, a: seq<Line>, l: Line)
    ensures KeepBody(true, a + EditLine(t, l)) == KeepBody(true, a) + KeepLine(true, l)
  {
    var more := EditLine(t, l);
    if more != [] { assert more == [more[0]]; KeepLast(true, a, more[0]); }
    hide KeepBody;
    if more == [] { assert a + more == a; }
  }

  lemma {:induction false} KeepEdited(t: Settings, body: seq<Line>)
    ensures KeepBody(true, EditBody(t, body)) == KeepBody(true, body)
  {
    if body != [] {
      var init, l := body[..|body| - 1], body[|body| - 1];
      KeepEdited(t, init);
      KeepEditedLine(t, EditBody(t, init), l);
    }
  }

  lemma {:induction false} KeepMissing(t: Settings, keys: set<Key>, among: seq<Key>)
    ensures KeepBody(true, Missing(t, keys, among)) == []
  {
    if among != [] {
      var init, k := among[..|among| - 1], among[|among| - 1];
      KeepMissing(t, keys, init);
      var before := Missing(t, keys, init);
      if k in t && k !in keys { KeepLast(true, before, Entry(k, t[k], "", Lf)); }
      else { assert before + [] == before; }
    }
  }

  /** A section's share. */
  function KeepSection(s: Section): seq<Line> { [Ended(s.header)] + KeepBody(ManagedRole(s).Some?, s.body) }

  lemma KeepEditSection(state: State, s: Section)
    ensures KeepSection(EditSection(state, s)) == KeepSection(s)
  {
    EditSettles(state, s);
    if ManagedRole(s).Some? {
      var t := Target(state, ManagedRole(s).value);
      var edited, extra := EditBody(t, s.body), Missing(t, KeysIn(s.body), KEYS);
      KeepEdited(t, s.body);
      KeepMissing(t, KeysIn(s.body), KEYS);
      KeepEndLast(true, edited);
      KeepJoin(true, EndLast(edited), extra);
      KeepJoin(true, [], extra);
      hide EditBody, Missing, KeysIn, KeepBody, EndLast, Target, SettledSection;
      assert [] + extra == extra;
      KeepClose(s.(body := edited), extra);
    }
  }

  lemma KeepClose(s: Section, extra: seq<Line>)
    requires ManagedRole(s).Some? && KeepBody(true, extra) == []
    ensures KeepSection(Close(s, extra)) == KeepSection(s)
  {
    KeepEndLast(true, s.body);
    KeepJoin(true, EndLast(s.body), extra);
    assert s.body == [] ==> KeepBody(true, s.body) == [];
    hide KeepBody, EndLast;
    assert KeepBody(true, s.body) + [] == KeepBody(true, s.body);
    assert ManagedRole(Close(s, extra)) == ManagedRole(s);
  }

  lemma {:induction false} KeepEditAll(state: State, ss: seq<Section>)
    ensures KeepSections(EditAll(state, ss)) == KeepSections(ss)
  {
    hide EditSection, KeepSection, KeepSections;
    if ss != [] {
      KeepEditAll(state, ss[..|ss| - 1]);
      KeepEditSection(state, ss[|ss| - 1]);
      KeepPush(EditAll(state, ss[..|ss| - 1]), EditSection(state, ss[|ss| - 1]));
      KeepPush(ss[..|ss| - 1], ss[|ss| - 1]);
      assert ss == ss[..|ss| - 1] + [ss[|ss| - 1]];
    }
  }

  lemma KeepPush(ss: seq<Section>, s: Section)
    ensures KeepSections(ss + [s]) == KeepSections(ss) + KeepSection(s)
  { assert (ss + [s])[..|ss|] == ss; }

  /** The line break and the blank line add only the blank line. */
  lemma KeepOpen(d: Doc)
    ensures Keep(Extend(EndDoc(d), [BLANK])) == Keep(d) + [BLANK]
  {
    hide Keep, EndDoc, Extend;
    if d.sections == [] { KeepOpenHead(d); }
    else {
      var n := |d.sections| - 1;
      KeepOpenLast(Doc(d.head, d.sections[..n]), d.sections[n]);
      assert d.sections == d.sections[..n] + [d.sections[n]];
      assert d == Doc(d.head, d.sections[..n] + [d.sections[n]]);
    }
  }

  lemma KeepOpenHead(d: Doc)
    requires d.sections == []
    ensures Keep(Extend(EndDoc(d), [BLANK])) == Keep(d) + [BLANK]
  {
    KeepEndLast(false, d.head);
    KeepLast(false, EndLast(d.head), BLANK);
    assert KeepSections([]) == [];
    hide KeepBody, EndLast, KeepSections;
    assert Extend(EndDoc(d), [BLANK]) == Doc(EndLast(d.head) + [BLANK], []);
    assert KeepBody(false, d.head) + [] == KeepBody(false, d.head);
  }

  lemma KeepOpenLast(d: Doc, s: Section)
    ensures var now := Doc(d.head, d.sections + [s]);
      Keep(Extend(EndDoc(now), [BLANK])) == Keep(now) + [BLANK]
  {
    var now := Doc(d.head, d.sections + [s]);
    var open := EndSection(s).(body := EndSection(s).body + [BLANK]);
    KeepOpenSection(s);
    KeepDocPush(d, s);
    KeepDocPush(d, open);
    assert Extend(EndDoc(now), [BLANK]).sections == d.sections + [open] by {
      hide EndSection;
      assert now.sections[..|d.sections|] == d.sections;
      assert EndDoc(now).sections == d.sections + [EndSection(s)];
      assert EndDoc(now).sections[..|d.sections|] == d.sections;
    }
    assert Extend(EndDoc(now), [BLANK]) == d.(sections := d.sections + [open]) && now == d.(sections := d.sections + [s]);
    hide Keep, KeepSection, EndDoc, Extend, EndSection;
    Assoc(Keep(d), KeepSection(s), [BLANK]);
  }

  lemma KeepOpenSection(s: Section)
    ensures KeepSection(EndSection(s).(body := EndSection(s).body + [BLANK])) == KeepSection(s) + [BLANK]
  {
    var m := ManagedRole(s).Some?;
    KeepEndLast(m, s.body);
    KeepLast(m, EndSection(s).body, BLANK);
    hide KeepBody, EndLast;
    assert ManagedRole(EndSection(s)) == ManagedRole(s);
  }

  lemma KeepAppend(state: State, d: Doc, r: Role)
    requires r in MANAGED
    ensures Keep(AppendRole(state, d, r)) == Keep(d) + [BLANK, HeaderOf(r)]
  {
    hide Keep, KeepSection, NewSection, EndDoc, Extend;
    var open := Extend(EndDoc(d), [BLANK]);
    KeepOpen(d);
    KeepDocPush(open, NewSection(state, r));
    KeepNew(state, r);
    assert Keep(d) + [BLANK] + [HeaderOf(r)] == Keep(d) + [BLANK, HeaderOf(r)];
  }

  lemma KeepDocPush(d: Doc, s: Section)
    ensures Keep(d.(sections := d.sections + [s])) == Keep(d) + KeepSection(s)
  {
    KeepPush(d.sections, s);
    hide KeepSection, KeepSections, KeepBody;
  }

  lemma KeepNew(state: State, r: Role)
    requires r in MANAGED
    ensures KeepSection(NewSection(state, r)) == [HeaderOf(r)]
  {
    NewSettled(state, r);
    KeepMissing(Target(state, r), {}, KEYS);
    hide KeepBody, Missing, Target, SettledSection;
  }

  lemma {:induction false} KeepAppends(state: State, d: Doc, rs: seq<Role>, had: seq<Section>)
    requires forall r | r in rs :: r in MANAGED
    ensures Keep(AppendRoles(state, d, rs, had)) == Keep(d) + Added(rs, had)
  {
    hide Keep, AppendRole, HasRole;
    if rs == [] { assert Keep(d) + [] == Keep(d); }
    else {
      var init, r := rs[..|rs| - 1], rs[|rs| - 1];
      KeepAppends(state, d, init, had);
      KeepAppend(state, AppendRoles(state, d, init, had), r);
      Assoc(Keep(d), Added(init, had), [BLANK, HeaderOf(r)]);
      if HasRole(had, r) { assert Added(init, had) + [] == Added(init, had); }
    }
  }

  /** Every line outside the managed keys, and every comment on a managed key, is kept, in order and as it was;
      all that is added besides key lines is a blank line and a header for each role without one. */
  lemma Kept(state: State, d: Doc)
    ensures Keep(EditDoc(state, d)) == Keep(d) + Added(MANAGED, d.sections)
  {
    KeepEditAll(state, d.sections);
    KeepAppends(state, d.(sections := EditAll(state, d.sections)), MANAGED, d.sections);
    hide AppendRoles, EditAll, KeepSections, KeepBody;
  }
}
