/** Grouping of historic lessons into problems (`build_groups`, scripts/problem_backfill.py). */
module Backfill {
  import opened Seqs
  import opened Overlap
  import Slugs

  // ---------------------------------------------------------------- lessons and groups

  /** `problem` and `fix` are "" when absent; `words` are the statement's ordered normalised tokens. */
  datatype Lesson = Lesson(src: nat, problem: string, fix: string, words: seq<string>)

  /** The value of a group: `members` lists the lessons it holds. */
  datatype View = View(slug: string, founding: set<string>, fix: Option<string>, members: seq<nat>)

  const BAR_NUM := 7
  const BAR_DEN := 20

  function Tokens(e: Lesson): set<string> { set w | w in e.words }

  predicate Assigned(e: Lesson) { e.problem != "" && Slugs.Matches(e.problem) }

  predicate Shared(e: Lesson) { e.fix != "" && e.fix != "open" }

  function SlugSet(gs: seq<View>): set<string> { set g | g in gs :: g.slug }

  // ---------------------------------------------------------------- where a lesson goes

  function WithSlug(gs: seq<View>, slug: string): Option<nat> {
    if gs == [] then None else
    var earlier := WithSlug(gs[..|gs| - 1], slug);
    if earlier.Some? then earlier else if gs[|gs| - 1].slug == slug then Some(|gs| - 1) else None
  }

  function WithFix(gs: seq<View>, fix: string): Option<nat> {
    if gs == [] then None else
    var earlier := WithFix(gs[..|gs| - 1], fix);
    if earlier.Some? then earlier else if gs[|gs| - 1].fix == Some(fix) then Some(|gs| - 1) else None
  }

  function ScoreOf(gs: seq<View>, tokens: set<string>, i: nat): (s: Score)
    requires i < |gs|
    ensures s.den > 0
  { Jaccard(tokens, gs[i].founding) }

  /** The loop over all groups, keeping the first best. */
  function Best(gs: seq<View>, tokens: set<string>): (b: Option<nat>)
    ensures b.Some? <==> gs != []
    ensures b.Some? ==> b.value < |gs|
  {
    if gs == [] then None else
    var i := |gs| - 1;
    var before := Best(gs[..i], tokens);
    if before.None? || Better(ScoreOf(gs, tokens, i), ScoreOf(gs, tokens, before.value)) then Some(i) else before
  }

  function Home(gs: seq<View>, e: Lesson): (h: Option<nat>) {
    if Assigned(e) then WithSlug(gs, e.problem)
    else if Shared(e) then WithFix(gs, e.fix)
    else
      var best := Best(gs, Tokens(e));
      if best.Some? && AtLeast(ScoreOf(gs, Tokens(e), best.value), BAR_NUM, BAR_DEN) then best else None
  }

  ghost function Founded(gs: seq<View>, e: Lesson): View {
    View(if Assigned(e) then e.problem else Slugs.NewSlug(e.words, SlugSet(gs), |gs| + 1),
         Tokens(e), if !Assigned(e) && Shared(e) then Some(e.fix) else None, [e.src])
  }

  function Join(g: View, src: nat): View { g.(members := g.members + [src]) }

  lemma {:induction false} WithSlugIs(gs: seq<View>, slug: string)
    ensures var r := WithSlug(gs, slug);
      if r.Some? then r.value < |gs| && gs[r.value].slug == slug && forall i | 0 <= i < r.value :: gs[i].slug != slug
      else forall i | 0 <= i < |gs| :: gs[i].slug != slug
  { if gs != [] { WithSlugIs(gs[..|gs| - 1], slug); } }

  lemma {:induction false} WithFixIs(gs: seq<View>, fix: string)
    ensures var r := WithFix(gs, fix);
      if r.Some? then r.value < |gs| && gs[r.value].fix == Some(fix) && forall i | 0 <= i < r.value :: gs[i].fix != Some(fix)
      else forall i | 0 <= i < |gs| :: gs[i].fix != Some(fix)
  { if gs != [] { WithFixIs(gs[..|gs| - 1], fix); } }

  /** The earliest of the groups whose founding words overlap most. */
  predicate EarliestBest(gs: seq<View>, tokens: set<string>, b: nat) {
    && b < |gs|
    && (forall i | 0 <= i < |gs| :: !Better(ScoreOf(gs, tokens, i), ScoreOf(gs, tokens, b)))
    && (forall i | 0 <= i < b :: Better(ScoreOf(gs, tokens, b), ScoreOf(gs, tokens, i)))
  }

  lemma {:induction false} BestIs(gs: seq<View>, tokens: set<string>)
    requires gs != []
    ensures EarliestBest(gs, tokens, Best(gs, tokens).value)
  {
    var i := |gs| - 1;
    if i > 0 {
      var init := gs[..i];
      BestIs(init, tokens);
      var b := Best(init, tokens).value;
      var top := ScoreOf(gs, tokens, i);
      assert forall j | 0 <= j < i :: ScoreOf(init, tokens, j) == ScoreOf(gs, tokens, j);
      if Better(top, ScoreOf(gs, tokens, b)) {
        forall j | 0 <= j < i ensures Better(top, ScoreOf(gs, tokens, j)) {
          BetterThrough(top, ScoreOf(gs, tokens, b), ScoreOf(gs, tokens, j));
        }
      }
    }
  }

  ghost function Seat(gs: seq<View>, e: Lesson): (h: nat)
    ensures h <= |gs|
  {
    WithSlugIs(gs, e.problem); WithFixIs(gs, e.fix);
    if Home(gs, e).Some? then Home(gs, e).value else |gs|
  }

  ghost function Add(gs: seq<View>, e: Lesson): (r: seq<View>) {
    var h := Seat(gs, e);
    if h < |gs| then gs[h := Join(gs[h], e.src)] else gs + [Founded(gs, e)]
  }

  /** The groups after the lessons in `es`, in the order of their founding. */
  ghost function Grouping(es: seq<Lesson>): seq<View> {
    if es == [] then [] else Add(Grouping(es[..|es| - 1]), es[|es| - 1])
  }

  // ---------------------------------------------------------------- every lesson in one group

  function Members(gs: seq<View>): seq<nat> {
    if gs == [] then [] else Members(gs[..|gs| - 1]) + gs[|gs| - 1].members
  }

  function Sources(es: seq<Lesson>): seq<nat> {
    if es == [] then [] else Sources(es[..|es| - 1]) + [es[|es| - 1].src]
  }

  lemma {:induction false} MembersJoin(gs: seq<View>, h: nat, src: nat)
    requires h < |gs|
    ensures multiset(Members(gs[h := Join(gs[h], src)])) == multiset(Members(gs)) + multiset{src}
  {
    hide Members, Join;
    var init, g, last := gs[..|gs| - 1], gs[|gs| - 1], |gs| - 1;
    assert gs == init + [g];
    MembersPush(init, g);
    if h < last {
      assert gs[h := Join(gs[h], src)] == init[h := Join(init[h], src)] + [g];
      MembersPush(init[h := Join(init[h], src)], g);
      MembersJoin(init, h, src);
    } else {
      assert gs[h := Join(gs[h], src)] == init + [Join(g, src)];
      MembersPush(init, Join(g, src));
      JoinMembers(g, src);
    }
  }

  lemma MembersPush(gs: seq<View>, g: View)
    ensures multiset(Members(gs + [g])) == multiset(Members(gs)) + multiset(g.members)
  { assert (gs + [g])[..|gs|] == gs; }

  lemma JoinMembers(g: View, src: nat)
    ensures multiset(Join(g, src).members) == multiset(g.members) + multiset{src}
  {}

  /** Every lesson is a member of the groups once, and nothing else is. */
  lemma {:induction false} EachLessonOnce(es: seq<Lesson>)
    ensures multiset(Members(Grouping(es))) == multiset(Sources(es))
  {
    if es != [] {
      var before, e := es[..|es| - 1], es[|es| - 1];
      EachLessonOnce(before);
      var gs := Grouping(before);
      var h := Seat(gs, e);
      if h < |gs| { MembersJoin(gs, h, e.src); }
      else { assert (gs + [Founded(gs, e)])[..|gs|] == gs; }
    }
  }

  // ---------------------------------------------------------------- groups stay what they are

  predicate Grown(g: View, now: View) {
    now.slug == g.slug && now.founding == g.founding && now.fix == g.fix && g.members <= now.members
  }

  predicate Extends(gs: seq<View>, now: seq<View>) {
    |gs| <= |now| && forall i | 0 <= i < |gs| :: Grown(gs[i], now[i])
  }

  /** Later lessons add groups and members; no group is moved, renamed or emptied. */
  lemma {:induction false} GroupsStay(es: seq<Lesson>, k: nat)
    requires k <= |es|
    ensures Extends(Grouping(es[..k]), Grouping(es))
    decreases |es|
  {
    if k == |es| { assert es[..k] == es; }
    else {
      var before := es[..|es| - 1];
      GroupsStay(before, k);
      assert before[..k] == es[..k];
    }
  }

  /** The group of the lesson at `k`. */
  ghost function GroupOf(es: seq<Lesson>, k: nat): nat
    requires k < |es|
  { Seat(Grouping(es[..k]), es[k]) }

  lemma Placed(es: seq<Lesson>, k: nat)
    requires k < |es|
    ensures var gs := Grouping(es[..k + 1]); GroupOf(es, k) < |gs| && es[k].src in gs[GroupOf(es, k)].members
  {
    assert es[..k + 1][..k] == es[..k] && es[..k + 1][k] == es[k];
    var h := GroupOf(es, k);
    var m := Grouping(es[..k + 1])[h].members;
    assert m[|m| - 1] == es[k].src;
  }

  /** Every lesson ends up in its group. */
  lemma InItsGroup(es: seq<Lesson>, k: nat)
    requires k < |es|
    ensures var gs := Grouping(es); GroupOf(es, k) < |gs| && es[k].src in gs[GroupOf(es, k)].members
  { Placed(es, k); GroupsStay(es, k + 1); }

  // ---------------------------------------------------------------- names are distinct

  predicate Distinct(gs: seq<View>) {
    && (forall i, j | 0 <= i < j < |gs| :: gs[i].slug != gs[j].slug)
    && (forall i, j | 0 <= i < j < |gs| :: gs[i].fix.Some? ==> gs[i].fix != gs[j].fix)
  }

  lemma AddDistinct(gs: seq<View>, e: Lesson)
    requires Distinct(gs)
    ensures Distinct(Add(gs, e))
  {
    WithSlugIs(gs, e.problem); WithFixIs(gs, e.fix);
    var g := Founded(gs, e);
    if Home(gs, e).None? {
      forall i | 0 <= i < |gs| ensures gs[i].slug != g.slug && (gs[i].fix.Some? ==> gs[i].fix != g.fix) {
        if !Assigned(e) { assert gs[i].slug in SlugSet(gs); }
      }
    }
  }

  /** No two groups share a slug, or the fix they were founded for. */
  lemma {:induction false} NamesDistinct(es: seq<Lesson>)
    ensures Distinct(Grouping(es))
  { if es != [] { NamesDistinct(es[..|es| - 1]); AddDistinct(Grouping(es[..|es| - 1]), es[|es| - 1]); } }

  /** A lesson has a slug when it names one that fits the pattern; else it has a fix when it names one that is not
      still open. */
  ghost predicate HasSlug(e: Lesson) { Slugs.Fits(e.problem) }

  ghost predicate HasFix(e: Lesson) { !HasSlug(e) && e.fix != [] && e.fix != "open" }

  /** Where a lesson with a slug, or with a fix, ends up. */
  lemma Keyed(es: seq<Lesson>, k: nat)
    requires k < |es|
    ensures GroupOf(es, k) < |Grouping(es)|
    ensures HasSlug(es[k]) ==> Grouping(es)[GroupOf(es, k)].slug == es[k].problem
    ensures HasFix(es[k]) ==> Grouping(es)[GroupOf(es, k)].fix == Some(es[k].fix)
  {
    hide Add, Seat, Slugs.Fits;
    AddKeyed(Grouping(es[..k]), es[k]);
    OwnStep(es, k);
    GroupsStay(es, k + 1);
    hide Grouping;
  }

  lemma AddKeyed(gs: seq<View>, e: Lesson)
    ensures var now, h := Add(gs, e), Seat(gs, e);
      h < |now| && (HasSlug(e) ==> now[h].slug == e.problem) && (HasFix(e) ==> now[h].fix == Some(e.fix))
  {
    hide Slugs.Fits, Slugs.Matches, Slugs.NewSlug;
    Slugs.PatternIs(e.problem);
    WithSlugIs(gs, e.problem);
    WithFixIs(gs, e.fix);
  }

  lemma OwnStep(es: seq<Lesson>, k: nat)
    requires k < |es|
    ensures Grouping(es[..k + 1]) == Add(Grouping(es[..k]), es[k])
  { assert es[..k + 1][..k] == es[..k] && es[..k + 1][k] == es[k]; }

  /** Two lessons with the same slug, or without one and with the same fix, share a group. */
  lemma SameKeySameGroup(es: seq<Lesson>, j: nat, k: nat)
    requires j < |es| && k < |es|
    requires (HasSlug(es[j]) && HasSlug(es[k]) && es[j].problem == es[k].problem)
          || (HasFix(es[j]) && HasFix(es[k]) && es[j].fix == es[k].fix)
    ensures var gs, h := Grouping(es), GroupOf(es, j);
      GroupOf(es, k) == h && h < |gs| && es[j].src in gs[h].members && es[k].src in gs[h].members
  {
    InItsGroup(es, j); InItsGroup(es, k);
    Keyed(es, j); Keyed(es, k); NamesDistinct(es);
    var a, b := GroupOf(es, j), GroupOf(es, k);
    assert Grouping(es)[a].slug == Grouping(es)[b].slug || Grouping(es)[a].fix == Grouping(es)[b].fix;
  }

  /** A lesson with neither goes to the earliest group of greatest overlap among those founded before it, if
      that overlap is 7/20 or more, and founds a group exactly when every earlier group is below that. */
  lemma ClusteredWhere(es: seq<Lesson>, k: nat)
    requires k < |es| && !HasSlug(es[k]) && !HasFix(es[k])
    ensures var gs, tokens, h := Grouping(es[..k]), Tokens(es[k]), GroupOf(es, k);
      && (h < |gs| ==> EarliestBest(gs, tokens, h) && AtLeast(ScoreOf(gs, tokens, h), 7, 20))
      && (h == |gs| <==> forall i | 0 <= i < |gs| :: !AtLeast(ScoreOf(gs, tokens, i), 7, 20))
  {
    Slugs.PatternIs(es[k].problem);
    var gs, tokens := Grouping(es[..k]), Tokens(es[k]);
    if gs != [] {
      BestIs(gs, tokens);
      var b := Best(gs, tokens).value;
      if !AtLeast(ScoreOf(gs, tokens, b), BAR_NUM, BAR_DEN) {
        forall i | 0 <= i < |gs| ensures !AtLeast(ScoreOf(gs, tokens, i), BAR_NUM, BAR_DEN) {
          BarHolds(ScoreOf(gs, tokens, i), ScoreOf(gs, tokens, b), BAR_NUM, BAR_DEN);
        }
      }
    }
  }

  /** What a lesson founds when it founds a group: its own words are the founding ones for good, and the slug is its
      own or made from the words, the slugs so far and the number of the group. */
  lemma FoundsAs(es: seq<Lesson>, k: nat)
    requires k < |es| && GroupOf(es, k) == |Grouping(es[..k])|
    ensures var e, before, h := es[k], Grouping(es[..k]), GroupOf(es, k);
      && h < |Grouping(es)|
      && var g := Grouping(es)[h];
      && g.founding == (set w | w in e.words)
      && g.fix == (if HasFix(e) then Some(e.fix) else None)
      && g.slug == (if HasSlug(e) then e.problem else Slugs.NewSlug(e.words, (set f | f in before :: f.slug), h + 1))
  {
    hide Slugs.Fits, Slugs.Matches, Slugs.NewSlug, Home, Grouping;
    Slugs.PatternIs(es[k].problem);
    OwnStep(es, k);
    GroupsStay(es, k + 1);
  }

  // ---------------------------------------------------------------- the loop as the code runs it

  class Group {
    const slug: string
    const founding: set<string>
    const fix: Option<string>
    var members: seq<nat>

    ghost function Look(): View
      reads this
    { View(slug, founding, fix, members) }

    constructor (slug: string, founding: set<string>, fix: Option<string>, src: nat)
      ensures Look() == View(slug, founding, fix, [src])
    { this.slug, this.founding, this.fix, this.members := slug, founding, fix, [src]; }

    method Append(src: nat)
      modifies this
      ensures Look() == Join(old(Look()), src)
    { members := members + [src]; }
  }

  /** The group objects hold the groups `gs`, each in an object of its own. */
  ghost predicate Holds(groups: seq<Group>, gs: seq<View>)
    reads groups
  {
    && |groups| == |gs|
    && (forall i | 0 <= i < |gs| :: groups[i].Look() == gs[i])
    && (forall i, j | 0 <= i < j < |gs| :: groups[i] != groups[j])
  }

  /** The two dictionaries lead to the objects with that slug, and with that fix. */
  ghost predicate Indexed(groups: seq<Group>, gs: seq<View>, bySlug: map<string, Group>, byFix: map<string, Group>) {
    && bySlug.Keys == SlugSet(gs)
    && (forall s | s in bySlug :: bySlug[s] in groups && bySlug[s].slug == s)
    && (forall f | f in byFix :: byFix[f] in groups && byFix[f].fix == Some(f))
    && (forall i | 0 <= i < |gs| && gs[i].fix.Some? :: gs[i].fix.value in byFix)
  }

  lemma BySlug(groups: seq<Group>, gs: seq<View>, bySlug: map<string, Group>, byFix: map<string, Group>, slug: string)
    requires Holds(groups, gs) && Indexed(groups, gs, bySlug, byFix) && Distinct(gs)
    ensures slug in bySlug <==> WithSlug(gs, slug).Some?
    ensures slug in bySlug ==> WithSlug(gs, slug).value < |gs| && groups[WithSlug(gs, slug).value] == bySlug[slug]
  {
    WithSlugIs(gs, slug);
    if WithSlug(gs, slug).Some? { assert gs[WithSlug(gs, slug).value].slug in SlugSet(gs); }
    if slug in bySlug {
      var i :| 0 <= i < |groups| && groups[i] == bySlug[slug];
      assert groups[i].Look() == gs[i];
    }
  }

  lemma ByFix(groups: seq<Group>, gs: seq<View>, bySlug: map<string, Group>, byFix: map<string, Group>, fix: string)
    requires Holds(groups, gs) && Indexed(groups, gs, bySlug, byFix) && Distinct(gs)
    ensures fix in byFix <==> WithFix(gs, fix).Some?
    ensures fix in byFix ==> WithFix(gs, fix).value < |gs| && groups[WithFix(gs, fix).value] == byFix[fix]
  {
    WithFixIs(gs, fix);
    if fix in byFix {
      var i :| 0 <= i < |groups| && groups[i] == byFix[fix];
      assert groups[i].Look() == gs[i];
    }
  }

  /** The loop that keeps the first best group. */
  method FindBest(groups: seq<Group>, ghost gs: seq<View>, tokens: set<string>) returns (best: Option<nat>)
    requires Holds(groups, gs)
    ensures best == Best(gs, tokens)
  {
    hide Jaccard, Better;
    best := None;
    for i := 0 to |groups|
      invariant best == Best(gs[..i], tokens)
      invariant i > 0 ==> best.Some?
    {
      assert gs[..i + 1][..i] == gs[..i];
      assert groups[i].Look() == gs[i];
      if best.Some? { assert groups[best.value].Look() == gs[best.value]; }
      if best.None? || Better(Jaccard(tokens, groups[i].founding), Jaccard(tokens, groups[best.value].founding)) {
        best := Some(i);
      }
    }
    assert gs[..|gs|] == gs;
  }

  /** Where the lesson goes, found through the dictionaries and the loop. */
  method FindHome(groups: seq<Group>, ghost gs: seq<View>, bySlug: map<string, Group>, byFix: map<string, Group>, e: Lesson)
    returns (g: Option<Group>)
    requires Holds(groups, gs) && Indexed(groups, gs, bySlug, byFix) && Distinct(gs)
    ensures g.Some? <==> Home(gs, e).Some?
    ensures g.Some? ==> Home(gs, e).value < |gs| && groups[Home(gs, e).value] == g.value
  {
    if Assigned(e) {
      BySlug(groups, gs, bySlug, byFix, e.problem);
      return if e.problem in bySlug then Some(bySlug[e.problem]) else None;
    }
    if Shared(e) {
      ByFix(groups, gs, bySlug, byFix, e.fix);
      return if e.fix in byFix then Some(byFix[e.fix]) else None;
    }
    var tokens := Tokens(e);
    var best := FindBest(groups, gs, tokens);
    if best.Some? {
      assert groups[best.value].Look() == gs[best.value];
      if AtLeast(Jaccard(tokens, groups[best.value].founding), BAR_NUM, BAR_DEN) { return Some(groups[best.value]); }
    }
    return None;
  }

  lemma HoldsAppend(groups: seq<Group>, gs: seq<View>, g: Group, v: View)
    requires Holds(groups, gs) && g !in groups && g.Look() == v
    ensures Holds(groups + [g], gs + [v])
  { forall i | 0 <= i < |gs| ensures groups[i] != g { assert groups[i] in groups; } }

  lemma IndexedAppend(groups: seq<Group>, gs: seq<View>, bySlug: map<string, Group>, byFix: map<string, Group>,
                      g: Group, v: View)
    requires Indexed(groups, gs, bySlug, byFix) && v.slug == g.slug && v.fix == g.fix
    ensures Indexed(groups + [g], gs + [v], bySlug[v.slug := g], if v.fix.Some? then byFix[v.fix.value := g] else byFix)
  {
    assert (gs + [v])[|gs|] == v;
    forall s ensures s in SlugSet(gs + [v]) <==> s in SlugSet(gs) || s == v.slug {
      if s in SlugSet(gs) { var w :| w in gs && w.slug == s; assert w in gs + [v]; }
    }
  }

  lemma IndexedJoin(groups: seq<Group>, gs: seq<View>, bySlug: map<string, Group>, byFix: map<string, Group>,
                    h: nat, src: nat)
    requires Indexed(groups, gs, bySlug, byFix) && h < |gs|
    ensures Indexed(groups, gs[h := Join(gs[h], src)], bySlug, byFix)
  {
    var now := gs[h := Join(gs[h], src)];
    forall s ensures s in SlugSet(now) <==> s in SlugSet(gs) {
      if s in SlugSet(gs) {
        var i :| 0 <= i < |gs| && gs[i].slug == s;
        assert now[i] in now && now[i].slug == s;
      }
    }
  }

  method Enlist(groups: seq<Group>, ghost gs: seq<View>, g: Group, ghost h: nat, src: nat)
    requires Holds(groups, gs) && h < |gs| && groups[h] == g
    modifies g
    ensures Holds(groups, gs[h := Join(gs[h], src)])
  { g.Append(src); }

  method Found(groups: seq<Group>, ghost gs: seq<View>, bySlug: map<string, Group>, e: Lesson) returns (g: Group)
    requires |groups| == |gs| && bySlug.Keys == SlugSet(gs)
    ensures fresh(g) && g.Look() == Founded(gs, e)
  {
    var slug := e.problem;
    if !Assigned(e) { slug := Slugs.MakeSlug(e.words, bySlug.Keys, |groups| + 1); }
    g := new Group(slug, Tokens(e), if !Assigned(e) && Shared(e) then Some(e.fix) else None, e.src);
  }

  /** `build_groups`: the objects it makes hold the grouping of the lessons. */
  method BuildGroups(es: seq<Lesson>) returns (groups: seq<Group>)
    ensures Holds(groups, Grouping(es))
    ensures forall g | g in groups :: fresh(g)
  {
    groups := [];
    assert Distinct([]) && SlugSet([]) == {};
    hide Founded, Home, SlugSet, Tokens, Distinct;
    var bySlug: map<string, Group> := map[];
    var byFix: map<string, Group> := map[];
    ghost var gs: seq<View> := [];
    for i := 0 to |es|
      invariant gs == Grouping(es[..i]) && Distinct(gs)
      invariant Holds(groups, gs) && Indexed(groups, gs, bySlug, byFix)
      invariant forall g | g in groups :: fresh(g)
    {
      assert es[..i + 1][..i] == es[..i];
      var e := es[i];
      AddDistinct(gs, e);
      var home := FindHome(groups, gs, bySlug, byFix, e);
      if home.Some? {
        IndexedJoin(groups, gs, bySlug, byFix, Home(gs, e).value, e.src);
        assert home.value in groups;
        Enlist(groups, gs, home.value, Home(gs, e).value, e.src);
      } else {
        var g := Found(groups, gs, bySlug, e);
        HoldsAppend(groups, gs, g, Founded(gs, e));
        IndexedAppend(groups, gs, bySlug, byFix, g, Founded(gs, e));
        groups := groups + [g];
        bySlug := bySlug[g.slug := g];
        if g.fix.Some? { byFix := byFix[g.fix.value := g]; }
      }
      gs := Add(gs, e);
    }
    assert es[..|es|] == es;
  }
}
