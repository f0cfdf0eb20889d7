/** What a rewritten configuration says when it is read back (`rewrite`, `_check_judges`, src/balance.py). */
module BalanceMeaning {
  import opened Seqs
  import opened TomlDoc
  import opened Balance

  // ---------------------------------------------------------------- reading a document

  function TableOf(s: Section): Option<Table> { if s.header.Header? then Some(s.header.table) else None }

  /** The settings under a table's header; none when there is no such header. */
  function Meaning(ss: seq<Section>, table: Table): Option<Settings> {
    if ss == [] then None else
    var earlier := Meaning(ss[..|ss| - 1], table);
    if earlier.Some? then earlier
    else if TableOf(ss[|ss| - 1]) == Some(table) then Some(Read(ss[|ss| - 1].body)) else None
  }

  predicate IsManaged(table: Table) { table.Contract? && table.role in MANAGED }

  /** `now` differs from `ss` in nothing that reading `table` can see. */
  predicate Alike(ss: seq<Section>, now: seq<Section>, table: Table) {
    && |now| == |ss|
    && forall i | 0 <= i < |ss| ::
         TableOf(now[i]) == TableOf(ss[i]) && (TableOf(ss[i]) == Some(table) ==> Read(now[i].body) == Read(ss[i].body))
  }

  lemma {:induction false} MeaningAlike(ss: seq<Section>, now: seq<Section>, table: Table)
    requires Alike(ss, now, table)
    ensures Meaning(now, table) == Meaning(ss, table)
  {
    if ss != [] {
      var n := |ss| - 1;
      assert TableOf(now[n]) == TableOf(ss[n]);
      forall i | 0 <= i < n ensures TableOf(now[..n][i]) == TableOf(ss[..n][i])
        && (TableOf(ss[..n][i]) == Some(table) ==> Read(now[..n][i].body) == Read(ss[..n][i].body)) {}
      MeaningAlike(ss[..n], now[..n], table);
    }
  }

  lemma ReadPush(body: seq<Line>, l: Line)
    ensures Read(body + [l]) == if l.Entry? then Read(body)[l.key := l.value] else Read(body)
  { assert (body + [l])[..|body|] == body; }

  lemma ReadEndLast(body: seq<Line>)
    ensures Read(EndLast(body)) == Read(body)
  {
    if body != [] {
      var init, l := body[..|body| - 1], body[|body| - 1];
      ReadPush(init, Ended(l));
      assert body == init + [l];
      ReadPush(init, l);
    }
  }

  lemma EditAlike(state: State, ss: seq<Section>, table: Table)
    requires !IsManaged(table)
    ensures Alike(ss, EditAll(state, ss), table)
  {
    EditAllIs(state, ss);
    hide AllSettled, EditAll, Read, EditBody, Missing;
    forall i | 0 <= i < |ss| ensures TableOf(EditAll(state, ss)[i]) == TableOf(ss[i])
      && (TableOf(ss[i]) == Some(table) ==> EditAll(state, ss)[i] == ss[i]) { EditSettles(state, ss[i]); }
  }

  /** The line break and the blank line before a new header are not read. */
  lemma OpenAlike(d: Doc, table: Table)
    ensures Alike(d.sections, Extend(EndDoc(d), [BLANK]).sections, table)
  {
    var n := |d.sections|;
    if n > 0 {
      var s := d.sections[n - 1];
      ReadEndLast(s.body);
      ReadPush(EndSection(s).body, BLANK);
      hide Read, EndLast;
      assert EndDoc(d).sections[..n - 1] == d.sections[..n - 1];
    }
  }

  lemma MeaningPush(ss: seq<Section>, s: Section, table: Table)
    ensures Meaning(ss + [s], table) == if Meaning(ss, table).Some? then Meaning(ss, table)
                                        else if TableOf(s) == Some(table) then Some(Read(s.body)) else None
  { assert (ss + [s])[..|ss|] == ss; }

  lemma AppendMeaning(state: State, d: Doc, r: Role, table: Table)
    requires !IsManaged(table) && r in MANAGED
    ensures Meaning(AppendRole(state, d, r).sections, table) == Meaning(d.sections, table)
  {
    OpenAlike(d, table);
    MeaningAlike(d.sections, Extend(EndDoc(d), [BLANK]).sections, table);
    MeaningPush(Extend(EndDoc(d), [BLANK]).sections, NewSection(state, r), table);
    hide Meaning, Extend, EndDoc, Missing, Read, Alike;
  }

  lemma {:induction false} AppendsMeaning(state: State, d: Doc, rs: seq<Role>, had: seq<Section>, table: Table)
    requires !IsManaged(table) && forall r | r in rs :: r in MANAGED
    ensures Meaning(AppendRoles(state, d, rs, had).sections, table) == Meaning(d.sections, table)
  {
    if rs != [] {
      AppendsMeaning(state, d, rs[..|rs| - 1], had, table);
      AppendMeaning(state, AppendRoles(state, d, rs[..|rs| - 1], had), rs[|rs| - 1], table);
      hide AppendRole, Meaning;
    }
  }

  lemma {:induction false} MeaningSettled(state: State, ss: seq<Section>, r: Role)
    requires AllSettled(state, ss) && HasRole(ss, r) && r in MANAGED
    ensures Meaning(ss, Contract(r)) == Some(Target(state, r))
  {
    hide Target, Read;
    var n := |ss| - 1;
    if ManagedRole(ss[n]) == Some(r) { assert SettledSection(state, ss[n]); ReadSettled(Target(state, r), ss[n].body); }
    if HasRole(ss[..n], r) { MeaningSettled(state, ss[..n], r); }
    else { MeaningAbsent(ss[..n], r); }
  }

  lemma {:induction false} MeaningAbsent(ss: seq<Section>, r: Role)
    requires !HasRole(ss, r) && r in MANAGED
    ensures Meaning(ss, Contract(r)) == None
  {
    if ss != [] {
      var n := |ss| - 1;
      assert ManagedRole(ss[n]) != Some(r);
      assert forall i | 0 <= i < n :: ss[..n][i] == ss[i];
      MeaningAbsent(ss[..n], r);
    }
  }

  /** Read back, each managed role has exactly its target's settings, and every other table what it had. */
  lemma ReadBack(state: State, d: Doc, table: Table)
    ensures Meaning(EditDoc(state, d).sections, table) ==
      if IsManaged(table) then Some(Target(state, table.role)) else Meaning(d.sections, table)
  {
    hide Meaning, Target, AppendRoles, EditAll, AllSettled, HasRole, Alike;
    if IsManaged(table) {
      EditDocSettled(state, d);
      MeaningSettled(state, EditDoc(state, d).sections, table.role);
    } else {
      EditAlike(state, d.sections, table);
      MeaningAlike(d.sections, EditAll(state, d.sections), table);
      AppendsMeaning(state, d.(sections := EditAll(state, d.sections)), MANAGED, d.sections, table);
    }
  }

  // ---------------------------------------------------------------- the judges

  /** The backend a role gets: its own, or the default table's, or `claude-p`. */
  function DefaultBackend(ss: seq<Section>): Value {
    var m := Meaning(ss, Defaults);
    if m.Some? && Backend in m.value then m.value[Backend] else Foreign("claude-p")
  }

  function BackendOf(ss: seq<Section>, r: Role): Value {
    var m := Meaning(ss, Contract(r));
    if m.Some? && Backend in m.value then m.value[Backend] else DefaultBackend(ss)
  }

  /** `_check_judges` on the document read, for the judges that `rewrite` may not repair. */
  predicate Refused(ss: seq<Section>) {
    exists r | r in JUDGES :: r !in MANAGED && BackendOf(ss, r) == Codex
  }

  /** `_check_judges` on the document written: the judges that have a table. */
  predicate JudgeOnCodex(ss: seq<Section>) {
    exists r | r in JUDGES :: Meaning(ss, Contract(r)).Some? && BackendOf(ss, r) == Codex
  }

  /** The last check never fails: a document that was not refused is rewritten with no judge on codex. */
  lemma JudgesKept(state: State, d: Doc)
    requires !Refused(d.sections)
    ensures !JudgeOnCodex(EditDoc(state, d).sections)
  {
    var now := EditDoc(state, d).sections;
    hide Meaning, EditDoc;
    ReadBack(state, d, Defaults);
    forall r | r in JUDGES ensures !(Meaning(now, Contract(r)).Some? && BackendOf(now, r) == Codex) {
      ReadBack(state, d, Contract(r));
      if r in MANAGED { assert r == CharterReviewer; }
    }
  }

  // ---------------------------------------------------------------- loading

  /** No key twice in a table. */
  predicate KeysOnce(body: seq<Line>) {
    body == [] || (KeysOnce(body[..|body| - 1]) && (body[|body| - 1].Entry? ==> body[|body| - 1].key !in KeysIn(body[..|body| - 1])))
  }

  /** No header of these tables twice. */
  predicate TablesOnce(ss: seq<Section>) {
    ss == [] ||
      (var s := ss[|ss| - 1];
       TablesOnce(ss[..|ss| - 1]) &&
       (TableOf(s).Some? && !TableOf(s).value.OtherTable? ==> Meaning(ss[..|ss| - 1], TableOf(s).value).None?))
  }

  /** What the parser demands of the lines the model tells apart. */
  predicate Loads(d: Doc) {
    KeysOnce(d.head) && TablesOnce(d.sections) && forall i | 0 <= i < |d.sections| :: KeysOnce(d.sections[i].body)
  }

  lemma OncePush(body: seq<Line>, l: Line)
    ensures KeysOnce(body + [l]) <==> KeysOnce(body) && (l.Entry? ==> l.key !in KeysIn(body))
  { assert (body + [l])[..|body|] == body; }

  lemma {:induction false} OnceJoin(a: seq<Line>, b: seq<Line>)
    requires KeysOnce(a) && KeysOnce(b) && KeysIn(a) !! KeysIn(b)
    ensures KeysOnce(a + b)
  {
    hide KeysIn, KeysOnce;
    if b == [] { assert a + b == a; }
    else {
      var init, l := b[..|b| - 1], b[|b| - 1];
      KeysInPush(init, l);
      assert b == init + [l];
      KeysInJoin(a, init);
      OncePush(init, l);
      OnceJoin(a, init);
      OncePush(a + init, l);
      assert a + b == a + init + [l];
    }
  }

  lemma OnceEditLine(t: Settings, r: seq<Line>, l: Line)
    requires KeysOnce(r) && (l.Entry? ==> l.key !in KeysIn(r))
    ensures KeysOnce(r + EditLine(t, l))
  {
    var more := EditLine(t, l);
    if more == [] { assert r + more == r; }
    else { assert more == [more[0]]; OncePush(r, more[0]); }
  }

  lemma {:induction false} OnceEdited(t: Settings, body: seq<Line>)
    requires KeysOnce(body)
    ensures KeysOnce(EditBody(t, body))
  {
    if body != [] {
      var init, l := body[..|body| - 1], body[|body| - 1];
      assert KeysOnce(init) && (l.Entry? ==> l.key !in KeysIn(init));
      hide KeysIn, KeysOnce;
      OnceEdited(t, init);
      EditBodyIs(t, init);
      OnceEditLine(t, EditBody(t, init), l);
    }
  }

  lemma {:induction false} OnceMissing(t: Settings, keys: set<Key>, among: seq<Key>)
    requires forall i, j | 0 <= i < j < |among| :: among[i] != among[j]
    ensures KeysOnce(Missing(t, keys, among))
  {
    if among != [] {
      var init, k := among[..|among| - 1], among[|among| - 1];
      OnceMissing(t, keys, init);
      MissingIs(t, keys, init);
      assert k !in init;
      if k in t && k !in keys { OncePush(Missing(t, keys, init), Entry(k, t[k], "", Lf)); }
      else { assert Missing(t, keys, init) + [] == Missing(t, keys, init); }
    }
  }

  lemma OnceEndLast(body: seq<Line>)
    requires KeysOnce(body)
    ensures KeysOnce(EndLast(body))
  { if body != [] { OncePush(body[..|body| - 1], Ended(body[|body| - 1])); } }

  lemma OnceClose(s: Section, extra: seq<Line>)
    requires KeysOnce(s.body) && KeysOnce(extra) && KeysIn(s.body) !! KeysIn(extra)
    ensures KeysOnce(Close(s, extra).body)
  {
    OnceEndLast(s.body);
    EndLastKeys(s.body);
    hide KeysIn, KeysOnce, EndLast;
    if extra != [] && s.body != [] { OnceJoin(EndLast(s.body), extra); }
  }

  lemma OnceEditSection(state: State, s: Section)
    requires KeysOnce(s.body)
    ensures KeysOnce(EditSection(state, s).body)
  {
    hide KeysIn, KeysOnce, EditBody, Missing, Target, EndLast, Close;
    if ManagedRole(s).Some? {
      var t := Target(state, ManagedRole(s).value);
      OnceEdited(t, s.body);
      EditBodyIs(t, s.body);
      OnceMissing(t, KeysIn(s.body), KEYS);
      MissingAll(t, KeysIn(s.body));
      OnceClose(s.(body := EditBody(t, s.body)), Missing(t, KeysIn(s.body), KEYS));
    }
  }

  predicate SameTables(ss: seq<Section>, now: seq<Section>) {
    |now| == |ss| && forall i | 0 <= i < |ss| :: TableOf(now[i]) == TableOf(ss[i])
  }

  lemma {:induction false} SameAbsent(ss: seq<Section>, now: seq<Section>, table: Table)
    requires SameTables(ss, now)
    ensures Meaning(now, table).None? <==> Meaning(ss, table).None?
  {
    if ss != [] {
      assert TableOf(now[|ss| - 1]) == TableOf(ss[|ss| - 1]);
      SameInit(ss, now);
      SameAbsent(ss[..|ss| - 1], now[..|ss| - 1], table);
    }
  }

  lemma SameInit(ss: seq<Section>, now: seq<Section>)
    requires SameTables(ss, now) && ss != []
    ensures SameTables(ss[..|ss| - 1], now[..|ss| - 1])
  {}

  lemma {:induction false} OnceSame(ss: seq<Section>, now: seq<Section>)
    requires SameTables(ss, now) && TablesOnce(ss)
    ensures TablesOnce(now)
  {
    if ss != [] {
      var n := |ss| - 1;
      assert TableOf(now[n]) == TableOf(ss[n]);
      SameInit(ss, now);
      OnceSame(ss[..n], now[..n]);
      if TableOf(ss[n]).Some? { SameAbsent(ss[..n], now[..n], TableOf(ss[n]).value); }
      hide Meaning;
    }
  }

  lemma EditLoads(state: State, d: Doc)
    requires Loads(d)
    ensures Loads(d.(sections := EditAll(state, d.sections)))
  {
    EditAllIs(state, d.sections);
    hide KeysOnce, TablesOnce, EditAll, AllSettled;
    forall i | 0 <= i < |d.sections| ensures TableOf(EditAll(state, d.sections)[i]) == TableOf(d.sections[i])
      && KeysOnce(EditAll(state, d.sections)[i].body)
    {
      EditSettles(state, d.sections[i]);
      OnceEditSection(state, d.sections[i]);
    }
    OnceSame(d.sections, EditAll(state, d.sections));
  }

  lemma OpenLoads(d: Doc)
    requires Loads(d)
    ensures Loads(Extend(EndDoc(d), [BLANK]))
  {
    if d.sections == [] {
      OnceEndLast(d.head);
      OncePush(EndLast(d.head), BLANK);
      hide KeysOnce;
    } else {
      var n := |d.sections| - 1;
      var s := d.sections[n];
      var open := Extend(EndDoc(d), [BLANK]).sections;
      OnceEndLast(s.body);
      OncePush(EndSection(s).body, BLANK);
      assert EndDoc(d).sections[..n] == d.sections[..n];
      assert KeysOnce(d.sections[n].body) && KeysOnce([]);
      hide KeysOnce, EndLast;
      assert SameTables(d.sections, open);
      OnceSame(d.sections, open);
    }
  }

  lemma AlikeTables(ss: seq<Section>, now: seq<Section>, table: Table)
    requires Alike(ss, now, table)
    ensures SameTables(ss, now)
  {}

  lemma AppendLoads(state: State, d: Doc, r: Role)
    requires Loads(d) && r in MANAGED && !HasRole(d.sections, r)
    ensures Loads(AppendRole(state, d, r))
  {
    hide KeysOnce, Extend, EndDoc, Missing, Target, Meaning, HasRole, Alike;
    var open := Extend(EndDoc(d), [BLANK]);
    OpenLoads(d);
    OnceMissing(Target(state, r), {}, KEYS);
    OpenAlike(d, Contract(r));
    MeaningAbsent(d.sections, r);
    AlikeTables(d.sections, open.sections, Contract(r));
    SameAbsent(d.sections, open.sections, Contract(r));
    assert (open.sections + [NewSection(state, r)])[..|open.sections|] == open.sections;
  }

  lemma {:induction false} AppendsLoad(state: State, d: Doc, rs: seq<Role>, had: seq<Section>)
    requires Loads(d) && AllSettled(state, d.sections) && forall r | r in rs :: r in MANAGED
    requires forall q :: HasRole(d.sections, q) <==> HasRole(had, q)
    requires forall i, j | 0 <= i < j < |rs| :: rs[i] != rs[j]
    ensures Loads(AppendRoles(state, d, rs, had))
  {
    if rs != [] {
      var init, r := rs[..|rs| - 1], rs[|rs| - 1];
      AppendsLoad(state, d, init, had);
      AppendAllSettled(state, d, init, had);
      assert r !in init;
      hide Loads, AppendRole, HasRole, AllSettled;
      if !HasRole(had, r) { AppendLoads(state, AppendRoles(state, d, init, had), r); }
    }
  }

  /** A document that loads is rewritten into one that loads. */
  lemma LoadsKept(state: State, d: Doc)
    requires Loads(d)
    ensures Loads(EditDoc(state, d))
  {
    hide Loads, HasRole, AllSettled, EditAll, AppendRoles;
    var edited := d.(sections := EditAll(state, d.sections));
    EditLoads(state, d);
    EditAllIs(state, d.sections);
    forall q ensures HasRole(edited.sections, q) <==> HasRole(d.sections, q) { HasRoleEdited(state, d.sections, q); }
    AppendsLoad(state, edited, MANAGED, d.sections);
  }
}
