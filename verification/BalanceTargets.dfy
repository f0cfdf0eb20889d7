/** Which roles the states move where, and when the state changes, in the roles' and the readings' own terms
    (`TARGETS`, `choose`, src/balance.py). */
module BalanceTargets {
  import opened Seqs
  import opened TomlDoc
  import opened Balance
  import opened BalanceMeaning

  // ---------------------------------------------------------------- where the roles are

  predicate Moved(r: Role) {
    r == Builder || r == SpecWriter || r == Probe || r == Research || r == ReuseScout || r == CharterReviewer
  }

  /** Claude pressed: only the charter reviewer keeps a seat. Codex pressed: nobody is on codex. Neither: the four
      writing and searching roles are. */
  predicate OnCodexIn(state: State, r: Role) {
    match state
    case Default => r == Builder || r == SpecWriter || r == Probe || r == Research
    case ClaudePressed => Moved(r) && r != CharterReviewer
    case CodexPressed => false
  }

  /** The charter reviewer has the strongest seat unless Claude is pressed, research the lightest. */
  function SeatIn(state: State, r: Role): Value {
    if r == CharterReviewer && state != ClaudePressed then Opus else if r == Research then Haiku else Sonnet
  }

  /** Read back, each moved role is on codex or on a seat as its state has it. */
  lemma RolesMoved(state: State, d: Doc, r: Role)
    requires Moved(r)
    ensures Meaning(EditDoc(state, d).sections, Contract(r)) == Some(
      if OnCodexIn(state, r)
      then map[Backend := Codex, Model := Gpt, Effort := if r == Builder then High else Medium,
               Fallback := SeatOn(if r == Research then Haiku else Sonnet)]
      else map[Backend := Seat, Model := SeatIn(state, r)])
  {
    ReadBack(state, d, Contract(r));
    InManaged(r);
    hide Meaning, EditDoc;
  }

  lemma InManaged(r: Role)
    ensures r in MANAGED <==> Moved(r)
  {
    assert MANAGED[0] == Builder && MANAGED[1] == SpecWriter && MANAGED[2] == Probe && MANAGED[3] == Research
      && MANAGED[4] == ReuseScout && MANAGED[5] == CharterReviewer;
  }

  /** No other table reads differently. */
  lemma OthersStay(state: State, d: Doc, table: Table)
    requires !(table.Contract? && Moved(table.role))
    ensures Meaning(EditDoc(state, d).sections, table) == Meaning(d.sections, table)
  {
    ReadBack(state, d, table);
    if table.Contract? { InManaged(table.role); }
    hide Meaning, EditDoc;
  }

  predicate Judges(r: Role) { r == Grader || r == Reviewer || r == SpecAuditor || r == PlanAuditor || r == CharterReviewer }

  lemma InJudges(r: Role)
    ensures r in JUDGES <==> Judges(r)
  {
    assert JUDGES[0] == Grader && JUDGES[1] == Reviewer && JUDGES[2] == SpecAuditor && JUDGES[3] == PlanAuditor
      && JUDGES[4] == CharterReviewer;
  }

  /** A document is refused exactly when a judge that is not moved would run on codex, by its own table or by
      default; otherwise no judge's table is on codex afterwards. */
  lemma JudgesSafe(state: State, d: Doc)
    ensures Refused(d.sections) <==> exists r | Judges(r) && !Moved(r) :: BackendOf(d.sections, r) == Codex
    ensures !Refused(d.sections) ==>
      forall r | Judges(r) && Meaning(EditDoc(state, d).sections, Contract(r)).Some? :: BackendOf(EditDoc(state, d).sections, r) != Codex
  {
    forall r ensures (r in JUDGES <==> Judges(r)) && (r in MANAGED <==> Moved(r)) { InJudges(r); InManaged(r); }
    if !Refused(d.sections) { JudgesKept(state, d); }
    hide Meaning, EditDoc, BackendOf;
  }

  // ---------------------------------------------------------------- when the state changes

  predicate AtLeastReads(reading: Option<nat>, bar: nat) { reading.Some? && reading.value >= bar }

  predicate BelowReads(reading: Option<nat>, bar: nat) { reading.Some? && reading.value < bar }

  /** Readings in tenths of a percent. Claude is pressed from 70 on, until it reads below 60, and below 50 only with
      codex read too; codex from 70 on with Claude below 50, until it reads below 50 or Claude is pressed. */
  lemma ChooseBands(codex: Option<nat>, claude: Option<nat>, current: State)
    ensures var next := Choose(codex, claude, current);
      && (next == ClaudePressed <==>
            AtLeastReads(claude, 700) || (current == ClaudePressed && (!BelowReads(claude, 600) || (BelowReads(claude, 500) && codex.None?))))
      && (next == CodexPressed <==>
            || (BelowReads(claude, 500) && AtLeastReads(codex, 700))
            || (current == CodexPressed && !BelowReads(codex, 500) && !AtLeastReads(claude, 700)))
  {}

  /** Between the bands nothing changes, however long the readings stay there: with Claude from 60 up to 70 and codex
      from 50 on, every state stays. */
  lemma {:induction false} BandsHold(readings: seq<(Option<nat>, Option<nat>)>, current: State)
    requires forall i | 0 <= i < |readings| ::
      AtLeastReads(readings[i].1, 600) && BelowReads(readings[i].1, 700) && AtLeastReads(readings[i].0, 500)
    ensures After(readings, current) == current
  { if readings != [] { BandsHold(readings[..|readings| - 1], current); } }

  function After(readings: seq<(Option<nat>, Option<nat>)>, current: State): State {
    if readings == [] then current
    else
      var last := readings[|readings| - 1];
      Choose(last.0, last.1, After(readings[..|readings| - 1], current))
  }
}
