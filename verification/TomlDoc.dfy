/** Configuration documents as lines and as tables, for the line editor of src/balance.py: reading lines into
    tables and writing tables as lines are inverse. */
module TomlDoc {

  datatype Role =
    | Builder | SpecWriter | Probe | Research | ReuseScout | CharterReviewer
    | Grader | Reviewer | SpecAuditor | PlanAuditor | OtherRole(name: string)

  datatype Key = Backend | Model | Effort | Fallback

  const KEYS: seq<Key> := [Backend, Model, Effort, Fallback]

  datatype Value = Codex | Seat | Gpt | Opus | Sonnet | Haiku | High | Medium | SeatOn(model: Value) | Foreign(text: string)

  datatype Eol = NoEol | Lf | CrLf

  datatype Table = Contract(role: Role) | Defaults | OtherTable(name: string)

  /** A line: a table header; one of the four keys with its value and trailing comment; anything else. */
  datatype Line =
    | Header(table: Table, text: string, eol: Eol)
    | Entry(key: Key, value: Value, comment: string, eol: Eol)
    | Plain(text: string, eol: Eol)

  datatype Section = Section(header: Line, body: seq<Line>)

  datatype Doc = Doc(head: seq<Line>, sections: seq<Section>)

  function Push(d: Doc, l: Line): Doc {
    if l.Header? then d.(sections := d.sections + [Section(l, [])])
    else if d.sections == [] then d.(head := d.head + [l])
    else
      var n := |d.sections| - 1;
      d.(sections := d.sections[..n] + [d.sections[n].(body := d.sections[n].body + [l])])
  }

  function Parse(lines: seq<Line>): Doc {
    if lines == [] then Doc([], []) else Push(Parse(lines[..|lines| - 1]), lines[|lines| - 1])
  }

  function FlatSections(ss: seq<Section>): seq<Line> {
    if ss == [] then [] else
    FlatSections(ss[..|ss| - 1]) + [ss[|ss| - 1].header] + ss[|ss| - 1].body
  }

  function Flat(d: Doc): seq<Line> { d.head + FlatSections(d.sections) }

  predicate Bare(ls: seq<Line>) { forall i | 0 <= i < |ls| :: !ls[i].Header? }

  predicate Formed(d: Doc) {
    && Bare(d.head)
    && forall i | 0 <= i < |d.sections| :: d.sections[i].header.Header? && Bare(d.sections[i].body)
  }

  lemma FlatPush(d: Doc, l: Line)
    ensures Flat(Push(d, l)) == Flat(d) + [l]
  {
    if !l.Header? && d.sections != [] {
      var n := |d.sections| - 1;
      assert Push(d, l).sections[..n] == d.sections[..n];
    } else if l.Header? {
      assert Push(d, l).sections[..|d.sections|] == d.sections;
    }
  }

  lemma FormedPush(d: Doc, l: Line)
    requires Formed(d)
    ensures Formed(Push(d, l))
  {}

  lemma {:induction false} FlatParse(lines: seq<Line>)
    ensures Flat(Parse(lines)) == lines && Formed(Parse(lines))
  {
    if lines != [] {
      var init := lines[..|lines| - 1];
      FlatParse(init);
      FlatPush(Parse(init), lines[|lines| - 1]);
      FormedPush(Parse(init), lines[|lines| - 1]);
      hide Flat, Push, Formed;
      assert lines == init + [lines[|lines| - 1]];
    } else {
      assert Flat(Parse(lines)) == [];
    }
  }

  /** Lines without a header go to the end of what is last. */
  function Extend(d: Doc, more: seq<Line>): Doc {
    if d.sections == [] then d.(head := d.head + more)
    else
      var n := |d.sections| - 1;
      d.(sections := d.sections[..n] + [d.sections[n].(body := d.sections[n].body + more)])
  }

  lemma ExtendNone(d: Doc)
    ensures Extend(d, []) == d
  {
    if d.sections == [] { assert d.head + [] == d.head; }
    else {
      var n := |d.sections| - 1;
      assert d.sections[n].body + [] == d.sections[n].body;
      assert d.sections == d.sections[..n] + [d.sections[n]];
    }
  }

  lemma ExtendPush(d: Doc, more: seq<Line>, l: Line)
    requires !l.Header?
    ensures Push(Extend(d, more), l) == Extend(d, more + [l])
  {
    if d.sections == [] { assert d.head + more + [l] == d.head + (more + [l]); }
    else {
      var n := |d.sections| - 1;
      assert d.sections[n].body + more + [l] == d.sections[n].body + (more + [l]);
      assert Extend(d, more).sections[..n] == d.sections[..n];
    }
  }

  lemma {:induction false} ParseBare(lines: seq<Line>, more: seq<Line>)
    requires Bare(more)
    ensures Parse(lines + more) == Extend(Parse(lines), more)
  {
    hide Extend, Push, Parse;
    if more == [] {
      assert lines + more == lines;
      ExtendNone(Parse(lines));
    } else {
      var init, l := more[..|more| - 1], more[|more| - 1];
      ParseBare(lines, init);
      assert more == init + [l] && lines + more == lines + init + [l];
      ParseLine(lines + init, l);
      ExtendPush(Parse(lines), init, l);
    }
  }

  lemma ParseLine(lines: seq<Line>, l: Line)
    ensures Parse(lines + [l]) == Push(Parse(lines), l)
  { assert (lines + [l])[..|lines|] == lines; }

  lemma {:induction false} ParseFlat(d: Doc)
    requires Formed(d)
    ensures Parse(Flat(d)) == d
    decreases |d.sections|
  {
    hide Formed, Bare, Parse, Flat;
    if d.sections == [] { ParseHead(d); }
    else {
      var n := |d.sections| - 1;
      var before, last := Doc(d.head, d.sections[..n]), d.sections[n];
      FormedInit(d);
      ParseFlat(before);
      ParseNext(before, last);
      assert d.sections == before.sections + [last];
      assert d == Doc(d.head, before.sections + [last]);
    }
  }

  lemma ParseHead(d: Doc)
    requires Formed(d) && d.sections == []
    ensures Parse(Flat(d)) == d
  {
    ParseBare([], d.head);
    assert [] + d.head == d.head && Flat(d) == d.head;
  }

  lemma FormedInit(d: Doc)
    requires Formed(d) && d.sections != []
    ensures var n := |d.sections| - 1;
      Formed(Doc(d.head, d.sections[..n])) && d.sections[n].header.Header? && Bare(d.sections[n].body)
  {}

  lemma ParseNext(d: Doc, s: Section)
    requires s.header.Header? && Bare(s.body) && Parse(Flat(d)) == d
    ensures Parse(Flat(Doc(d.head, d.sections + [s]))) == Doc(d.head, d.sections + [s])
  {
    var now := Doc(d.head, d.sections + [s]);
    var withHeader := Flat(d) + [s.header];
    assert Parse(withHeader) == Push(d, s.header) by { assert withHeader[..|Flat(d)|] == Flat(d); }
    ParseBare(withHeader, s.body);
    FlatAdd(d, s);
    hide Parse, Flat, Bare;
    PushExtend(d, s);
  }

  lemma FlatAdd(d: Doc, s: Section)
    ensures Flat(Doc(d.head, d.sections + [s])) == Flat(d) + [s.header] + s.body
  { assert (d.sections + [s])[..|d.sections|] == d.sections; }

  lemma PushExtend(d: Doc, s: Section)
    requires s.header.Header?
    ensures Extend(Push(d, s.header), s.body) == Doc(d.head, d.sections + [s])
  {
    var d1 := Push(d, s.header);
    assert d1.sections == d.sections + [Section(s.header, [])];
    assert d1.sections[..|d.sections|] == d.sections;
    assert [] + s.body == s.body;
  }
}
