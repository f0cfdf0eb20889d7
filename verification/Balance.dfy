/** Moving the managed model roles (`choose`, `TARGETS`, `rewrite`, src/balance.py). */
module Balance {
  import opened Seqs
  import opened TomlDoc

  // ---------------------------------------------------------------- targets

  datatype State = Default | ClaudePressed | CodexPressed

  const MANAGED: seq<Role> := [Builder, SpecWriter, Probe, Research, ReuseScout, CharterReviewer]
  const JUDGES: seq<Role> := [Grader, Reviewer, SpecAuditor, PlanAuditor, CharterReviewer]

  type Settings = map<Key, Value>

  function OnSeat(model: Value): Settings { map[Backend := Seat, Model := model] }

  function OnCodex(role: Role): Settings {
    map[Backend := Codex, Model := Gpt, Effort := if role == Builder then High else Medium,
        Fallback := SeatOn(if role == Research then Haiku else Sonnet)]
  }

  function Target(state: State, role: Role): Settings {
    match state
    case Default =>
      if role == CharterReviewer then OnSeat(Opus) else if role == ReuseScout then OnSeat(Sonnet) else OnCodex(role)
    case ClaudePressed => if role == CharterReviewer then OnSeat(Sonnet) else OnCodex(role)
    case CodexPressed =>
      OnSeat(if role == CharterReviewer then Opus else if role == Research then Haiku else Sonnet)
  }

  /** Percentages in tenths; none when the reading is missing or malformed. */
  function Choose(codex: Option<nat>, claude: Option<nat>, current: State): State {
    if claude.Some? && claude.value >= 700 then ClaudePressed
    else if current == CodexPressed && (codex.None? || codex.value >= 500) then current
    else if current == ClaudePressed && (claude.None? || claude.value >= 600) then current
    else if current == CodexPressed && claude.None? then Default
    else if claude.None? || (claude.value < 500 && codex.None?) then current
    else if claude.value < 500 && codex.value >= 700 then CodexPressed else Default
  }

  /** On unchanging readings the state changes at most once. */
  lemma ChooseSettles(codex: Option<nat>, claude: Option<nat>, current: State)
    ensures var next := Choose(codex, claude, current); Choose(codex, claude, next) == next
  {}

  // ---------------------------------------------------------------- one section

  function Ended(l: Line): Line { if l.eol == NoEol then l.(eol := Lf) else l }

  function EndLast(ls: seq<Line>): seq<Line> {
    if ls == [] then [] else ls[..|ls| - 1] + [Ended(ls[|ls| - 1])]
  }

  /** A key line of a managed section: the target's value, or only the comment when the target has no such key. */
  function EditLine(t: Settings, l: Line): seq<Line> {
    if !l.Entry? then [l]
    else if l.key in t then [l.(value := t[l.key])]
    else if l.comment != "" then [Plain(l.comment, l.eol)] else []
  }

  function EditBody(t: Settings, body: seq<Line>): seq<Line> {
    if body == [] then [] else EditBody(t, body[..|body| - 1]) + EditLine(t, body[|body| - 1])
  }

  function KeysIn(body: seq<Line>): set<Key> { set l | l in body && l.Entry? :: l.key }

  function Missing(t: Settings, keys: set<Key>, among: seq<Key>): seq<Line> {
    if among == [] then [] else
    var k := among[|among| - 1];
    Missing(t, keys, among[..|among| - 1]) + if k in t && k !in keys then [Entry(k, t[k], "", Lf)] else []
  }

  function Close(s: Section, extra: seq<Line>): Section {
    if extra == [] then s
    else if s.body == [] then Section(Ended(s.header), extra)
    else s.(body := EndLast(s.body) + extra)
  }

  function ManagedRole(s: Section): Option<Role> {
    if s.header.Header? && s.header.table.Contract? && s.header.table.role in MANAGED then Some(s.header.table.role) else None
  }

  function EditSection(state: State, s: Section): Section {
    match ManagedRole(s)
    case None => s
    case Some(r) =>
      var t := Target(state, r);
      Close(s.(body := EditBody(t, s.body)), Missing(t, KeysIn(s.body), KEYS))
  }

  /** What reading the section back gives for the four keys. */
  function Read(body: seq<Line>): Settings {
    if body == [] then map[] else
    var l := body[|body| - 1];
    if l.Entry? then Read(body[..|body| - 1])[l.key := l.value] else Read(body[..|body| - 1])
  }

  /** The section says what the target says: its keys, all of them, with its values. */
  predicate Settled(t: Settings, body: seq<Line>) {
    && (forall i | 0 <= i < |body| && body[i].Entry? :: body[i].key in t && body[i].value == t[body[i].key])
    && t.Keys <= KeysIn(body)
  }

  lemma KeysInPush(body: seq<Line>, l: Line)
    ensures KeysIn(body + [l]) == KeysIn(body) + if l.Entry? then {l.key} else {}
  {
    forall m | m in body + [l] ensures m in body || m == l {}
    forall m | m in body ensures m in body + [l] {}
    assert l in body + [l];
  }

  lemma KeysInJoin(a: seq<Line>, b: seq<Line>)
    ensures KeysIn(a + b) == KeysIn(a) + KeysIn(b)
  { forall m ensures m in a + b <==> m in a || m in b {} }

  lemma EndLastKeys(ls: seq<Line>)
    ensures KeysIn(EndLast(ls)) == KeysIn(ls) && |EndLast(ls)| == |ls|
    ensures forall i | 0 <= i < |ls| :: EndLast(ls)[i] == ls[i] || EndLast(ls)[i] == Ended(ls[i])
  {
    if ls != [] {
      KeysInPush(ls[..|ls| - 1], ls[|ls| - 1]);
      KeysInPush(ls[..|ls| - 1], Ended(ls[|ls| - 1]));
      assert ls == ls[..|ls| - 1] + [ls[|ls| - 1]];
    }
  }

  lemma {:induction false} EditBodyIs(t: Settings, body: seq<Line>)
    ensures var r := EditBody(t, body);
      && (forall i | 0 <= i < |r| && r[i].Entry? :: r[i].key in t && r[i].value == t[r[i].key])
      && KeysIn(r) == KeysIn(body) * t.Keys
      && (Bare(body) ==> Bare(r))
  {
    hide KeysIn;
    if body == [] { NoKeys(); }
    else {
      var init, l := body[..|body| - 1], body[|body| - 1];
      EditBodyIs(t, init);
      assert body == init + [l];
      EditBodyKeys(t, init, l);
    }
  }

  lemma EditBodyKeys(t: Settings, init: seq<Line>, l: Line)
    requires KeysIn(EditBody(t, init)) == KeysIn(init) * t.Keys
    ensures KeysIn(EditBody(t, init) + EditLine(t, l)) == KeysIn(init + [l]) * t.Keys
  {
    hide KeysIn, EditBody;
    KeysInPush(init, l);
    var r, more := EditBody(t, init), EditLine(t, l);
    if more == [] { assert r + more == r; }
    else { assert more == [more[0]]; KeysInPush(r, more[0]); }
  }

  lemma {:induction false} MissingIs(t: Settings, keys: set<Key>, among: seq<Key>)
    ensures var r := Missing(t, keys, among);
      && (forall i | 0 <= i < |r| :: r[i].Entry? && r[i].key in t && r[i].value == t[r[i].key] && r[i].comment == "" && r[i].eol == Lf)
      && KeysIn(r) == (set k | k in among && k in t && k !in keys)
  {
    if among != [] {
      var init, k := among[..|among| - 1], among[|among| - 1];
      MissingIs(t, keys, init);
      assert among == init + [k];
      var r := Missing(t, keys, init);
      if k in t && k !in keys { KeysInPush(r, Entry(k, t[k], "", Lf)); } else { assert r + [] == r; }
      forall j ensures j in among <==> j in init || j == k {}
    } else { assert KeysIn([]) == {}; }
  }

  lemma AllKeys(k: Key)
    ensures k in KEYS
  { assert KEYS[0] == Backend && KEYS[1] == Model && KEYS[2] == Effort && KEYS[3] == Fallback; }

  lemma MissingAll(t: Settings, keys: set<Key>)
    ensures KeysIn(Missing(t, keys, KEYS)) == t.Keys - keys
  {
    MissingIs(t, keys, KEYS);
    forall k ensures k in KEYS { AllKeys(k); }
  }

  lemma EndLastSettled(t: Settings, body: seq<Line>)
    ensures Settled(t, EndLast(body)) <==> Settled(t, body)
  {
    EndLastKeys(body);
    hide KeysIn, EndLast;
    forall i | 0 <= i < |body| ensures EndLast(body)[i].Entry? == body[i].Entry?
      && (body[i].Entry? ==> EndLast(body)[i].key == body[i].key && EndLast(body)[i].value == body[i].value)
    { assert EndLast(body)[i] == body[i] || EndLast(body)[i] == Ended(body[i]); }
  }

  lemma SettledJoin(t: Settings, a: seq<Line>, b: seq<Line>)
    requires forall i | 0 <= i < |a| && a[i].Entry? :: a[i].key in t && a[i].value == t[a[i].key]
    requires forall i | 0 <= i < |b| && b[i].Entry? :: b[i].key in t && b[i].value == t[b[i].key]
    requires t.Keys <= KeysIn(a) + KeysIn(b)
    ensures Settled(t, a + b)
  {
    KeysInJoin(a, b);
    hide KeysIn;
  }

  lemma CloseSettled(t: Settings, s: Section)
    ensures var now := Close(s.(body := EditBody(t, s.body)), Missing(t, KeysIn(s.body), KEYS));
      Settled(t, now.body) && (Bare(s.body) ==> Bare(now.body))
  {
    var edited, extra := EditBody(t, s.body), Missing(t, KeysIn(s.body), KEYS);
    EditBodyIs(t, s.body);
    MissingAll(t, KeysIn(s.body));
    MissingIs(t, KeysIn(s.body), KEYS);
    EndLastKeys(edited);
    hide EditBody, Missing, KeysIn;
    assert KeysIn(s.body) * t.Keys + (t.Keys - KeysIn(s.body)) == t.Keys;
    if extra == [] {
      assert KeysIn([]) == {} by { NoKeys(); }
      assert edited + [] == edited;
      SettledJoin(t, edited, []);
    } else if edited == [] {
      assert KeysIn([]) == {} by { NoKeys(); }
      assert [] + extra == extra;
      SettledJoin(t, [], extra);
    } else {
      EndLastEntries(t, edited);
      SettledJoin(t, EndLast(edited), extra);
    }
  }

  lemma NoKeys()
    ensures KeysIn([]) == {}
  {}

  lemma EndLastEntries(t: Settings, ls: seq<Line>)
    requires forall i | 0 <= i < |ls| && ls[i].Entry? :: ls[i].key in t && ls[i].value == t[ls[i].key]
    ensures forall i | 0 <= i < |EndLast(ls)| && EndLast(ls)[i].Entry? :: EndLast(ls)[i].key in t && EndLast(ls)[i].value == t[EndLast(ls)[i].key]
    ensures Bare(ls) ==> Bare(EndLast(ls))
  { EndLastKeys(ls); }

  /** A settled body is left alone. */
  lemma {:induction false} EditBodySame(t: Settings, body: seq<Line>)
    requires forall i | 0 <= i < |body| && body[i].Entry? :: body[i].key in t && body[i].value == t[body[i].key]
    ensures EditBody(t, body) == body
  {
    if body != [] {
      EditBodySame(t, body[..|body| - 1]);
      assert EditLine(t, body[|body| - 1]) == [body[|body| - 1]];
      assert body == body[..|body| - 1] + [body[|body| - 1]];
    }
  }

  lemma {:induction false} MissingNone(t: Settings, keys: set<Key>, among: seq<Key>)
    requires t.Keys <= keys
    ensures Missing(t, keys, among) == []
  { if among != [] { MissingNone(t, keys, among[..|among| - 1]); } }

  predicate SettledSection(state: State, s: Section) {
    ManagedRole(s).Some? ==> Settled(Target(state, ManagedRole(s).value), s.body)
  }

  lemma SettledStays(state: State, s: Section)
    requires SettledSection(state, s)
    ensures EditSection(state, s) == s
  {
    if ManagedRole(s).Some? {
      var t := Target(state, ManagedRole(s).value);
      hide KeysIn, ManagedRole, Target;
      EditBodySame(t, s.body);
      MissingNone(t, KeysIn(s.body), KEYS);
    }
  }

  lemma EditSettles(state: State, s: Section)
    ensures var now := EditSection(state, s);
      && SettledSection(state, now) && ManagedRole(now) == ManagedRole(s) && now.header == s.header.(eol := now.header.eol)
      && (s.header.Header? && Bare(s.body) ==> now.header.Header? && Bare(now.body))
  {
    hide Target, Missing, EditBody, KeysIn, Settled, Bare, EndLast;
    if ManagedRole(s).Some? { CloseSettled(Target(state, ManagedRole(s).value), s); }
  }

  /** Reading a settled section back gives exactly the target. */
  lemma {:induction false} ReadKeys(body: seq<Line>)
    ensures Read(body).Keys == KeysIn(body)
    ensures forall k | k in Read(body) :: exists i :: 0 <= i < |body| && body[i].Entry? && body[i].key == k && body[i].value == Read(body)[k]
  {
    if body != [] {
      var init, l := body[..|body| - 1], body[|body| - 1];
      ReadKeys(init);
      assert body == init + [l];
      KeysInPush(init, l);
      hide KeysIn;
      forall k | k in Read(body) ensures exists i :: 0 <= i < |body| && body[i].Entry? && body[i].key == k && body[i].value == Read(body)[k] {
        if l.Entry? && l.key == k { assert body[|body| - 1] == l; }
        else {
          var i :| 0 <= i < |init| && init[i].Entry? && init[i].key == k && init[i].value == Read(init)[k];
          assert body[i] == init[i];
        }
      }
    }
  }

  lemma ReadSettled(t: Settings, body: seq<Line>)
    requires Settled(t, body)
    ensures Read(body) == t
  {
    ReadKeys(body);
    forall k | k in KeysIn(body) ensures k in t {
      var l :| l in body && l.Entry? && l.key == k;
      var i :| 0 <= i < |body| && body[i] == l;
    }
    assert Read(body).Keys == t.Keys;
  }

  // ---------------------------------------------------------------- the document

  function EditAll(state: State, ss: seq<Section>): seq<Section> {
    if ss == [] then [] else EditAll(state, ss[..|ss| - 1]) + [EditSection(state, ss[|ss| - 1])]
  }

  predicate HasRole(ss: seq<Section>, r: Role) { exists i | 0 <= i < |ss| :: ManagedRole(ss[i]) == Some(r) }

  function EndSection(s: Section): Section {
    if s.body == [] then s.(header := Ended(s.header)) else s.(body := EndLast(s.body))
  }

  /** A line break after the last line, if there is a line. */
  function EndDoc(d: Doc): Doc {
    if d.sections == [] then d.(head := EndLast(d.head))
    else var n := |d.sections| - 1; d.(sections := d.sections[..n] + [EndSection(d.sections[n])])
  }

  const BLANK := Plain("", Lf)

  function HeaderOf(r: Role): Line { Header(Contract(r), "", Lf) }

  function NewSection(state: State, r: Role): Section { Section(HeaderOf(r), Missing(Target(state, r), {}, KEYS)) }

  function AppendRole(state: State, d: Doc, r: Role): Doc {
    var open := Extend(EndDoc(d), [BLANK]);
    open.(sections := open.sections + [NewSection(state, r)])
  }

  function AppendRoles(state: State, d: Doc, rs: seq<Role>, had: seq<Section>): Doc {
    if rs == [] then d else
    var before, r := AppendRoles(state, d, rs[..|rs| - 1], had), rs[|rs| - 1];
    if HasRole(had, r) then before else AppendRole(state, before, r)
  }

  function EditDoc(state: State, d: Doc): Doc {
    AppendRoles(state, d.(sections := EditAll(state, d.sections)), MANAGED, d.sections)
  }

  // ---------------------------------------------------------------- editing twice is editing once

  predicate AllSettled(state: State, ss: seq<Section>) { forall i | 0 <= i < |ss| :: SettledSection(state, ss[i]) }

  lemma {:induction false} EditAllIs(state: State, ss: seq<Section>)
    ensures var now := EditAll(state, ss);
      && |now| == |ss| && AllSettled(state, now)
      && (forall i | 0 <= i < |ss| :: now[i] == EditSection(state, ss[i]) && ManagedRole(now[i]) == ManagedRole(ss[i]))
  {
    hide EditSection, SettledSection, ManagedRole;
    if ss != [] {
      EditAllIs(state, ss[..|ss| - 1]);
      EditSettles(state, ss[|ss| - 1]);
    }
  }

  lemma {:induction false} EditAllSame(state: State, ss: seq<Section>)
    requires AllSettled(state, ss)
    ensures EditAll(state, ss) == ss
  {
    if ss != [] {
      EditAllSame(state, ss[..|ss| - 1]);
      SettledStays(state, ss[|ss| - 1]);
      hide EditSection, SettledSection;
      assert ss == ss[..|ss| - 1] + [ss[|ss| - 1]];
    }
  }

  lemma EndSectionSettled(state: State, s: Section)
    ensures ManagedRole(EndSection(s)) == ManagedRole(s)
    ensures SettledSection(state, EndSection(s)) <==> SettledSection(state, s)
  {
    if ManagedRole(s).Some? { EndLastSettled(Target(state, ManagedRole(s).value), s.body); }
    hide Target, Settled, EndLast;
  }

  lemma PushSettled(t: Settings, body: seq<Line>, l: Line)
    requires Settled(t, body) && !l.Entry?
    ensures Settled(t, body + [l])
  { KeysInPush(body, l); hide KeysIn; }

  lemma NewSettled(state: State, r: Role)
    requires r in MANAGED
    ensures SettledSection(state, NewSection(state, r)) && ManagedRole(NewSection(state, r)) == Some(r)
    ensures Bare(NewSection(state, r).body)
  {
    var t := Target(state, r);
    MissingAll(t, {});
    MissingIs(t, {}, KEYS);
    hide Target, Missing, KeysIn;
    assert t.Keys - {} == t.Keys;
  }

  /** The last section, with its line break and the blank line before a new header. */
  lemma OpenSettled(state: State, s: Section)
    requires SettledSection(state, s)
    ensures var now := EndSection(s).(body := EndSection(s).body + [BLANK]);
      SettledSection(state, now) && ManagedRole(now) == ManagedRole(s)
  {
    EndSectionSettled(state, s);
    var e := EndSection(s);
    if ManagedRole(s).Some? { PushSettled(Target(state, ManagedRole(s).value), e.body, BLANK); }
    hide EndSection, Target, Settled;
  }

  lemma OpenAllSettled(state: State, d: Doc)
    requires AllSettled(state, d.sections)
    ensures var open := Extend(EndDoc(d), [BLANK]).sections;
      && |open| == |d.sections| && AllSettled(state, open)
      && forall i | 0 <= i < |open| :: ManagedRole(open[i]) == ManagedRole(d.sections[i])
  {
    hide SettledSection, ManagedRole, EndSection;
    var n := |d.sections|;
    if n > 0 {
      OpenSettled(state, d.sections[n - 1]);
      assert EndDoc(d).sections[..n - 1] == d.sections[..n - 1];
    }
  }

  lemma AppendSettled(state: State, d: Doc, r: Role)
    requires AllSettled(state, d.sections) && r in MANAGED
    ensures AllSettled(state, AppendRole(state, d, r).sections)
    ensures forall q :: HasRole(AppendRole(state, d, r).sections, q) <==> HasRole(d.sections, q) || q == r
  {
    hide SettledSection, ManagedRole, NewSection, EndDoc, Extend;
    var now := AppendRole(state, d, r).sections;
    var n := |d.sections|;
    NewSettled(state, r);
    OpenAllSettled(state, d);
    assert |now| == n + 1 && now[n] == NewSection(state, r);
    forall q ensures HasRole(now, q) <==> HasRole(d.sections, q) || q == r {
      if HasRole(d.sections, q) {
        var i :| 0 <= i < n && ManagedRole(d.sections[i]) == Some(q);
        assert ManagedRole(now[i]) == Some(q);
      }
    }
  }

  lemma {:induction false} AppendAllSettled(state: State, d: Doc, rs: seq<Role>, had: seq<Section>)
    requires AllSettled(state, d.sections) && forall r | r in rs :: r in MANAGED
    ensures var now := AppendRoles(state, d, rs, had).sections;
      AllSettled(state, now) && forall q :: HasRole(now, q) <==> HasRole(d.sections, q) || (q in rs && !HasRole(had, q))
  {
    if rs != [] {
      var init, r := rs[..|rs| - 1], rs[|rs| - 1];
      AppendAllSettled(state, d, init, had);
      var before := AppendRoles(state, d, init, had);
      AppendSettled(state, before, r);
      hide AppendRole, AllSettled, HasRole;
      forall q ensures q in rs <==> q in init || q == r {}
    }
  }

  lemma {:induction false} AppendNothing(state: State, d: Doc, rs: seq<Role>, had: seq<Section>)
    requires forall r | r in rs :: HasRole(had, r)
    ensures AppendRoles(state, d, rs, had) == d
  { if rs != [] { AppendNothing(state, d, rs[..|rs| - 1], had); } }

  lemma HasRoleEdited(state: State, ss: seq<Section>, r: Role)
    ensures HasRole(EditAll(state, ss), r) <==> HasRole(ss, r)
  {
    EditAllIs(state, ss);
    hide EditAll, ManagedRole, EditSection, AllSettled;
    if HasRole(ss, r) { var i :| 0 <= i < |ss| && ManagedRole(ss[i]) == Some(r); assert ManagedRole(EditAll(state, ss)[i]) == Some(r); }
  }

  lemma EditDocSettled(state: State, d: Doc)
    ensures AllSettled(state, EditDoc(state, d).sections)
    ensures forall r | r in MANAGED :: HasRole(EditDoc(state, d).sections, r)
  {
    EditAllIs(state, d.sections);
    AppendAllSettled(state, d.(sections := EditAll(state, d.sections)), MANAGED, d.sections);
    hide AllSettled, AppendRoles, EditAll, HasRole;
    forall r | r in MANAGED ensures HasRole(EditDoc(state, d).sections, r) { HasRoleEdited(state, d.sections, r); }
  }

  /** Editing a second time changes nothing. */
  lemma EditTwice(state: State, d: Doc)
    ensures EditDoc(state, EditDoc(state, d)) == EditDoc(state, d)
  {
    var now := EditDoc(state, d);
    EditDocSettled(state, d);
    EditAllSame(state, now.sections);
    AppendNothing(state, now, MANAGED, now.sections);
    hide AllSettled, AppendRoles, EditAll, HasRole;
  }
}
