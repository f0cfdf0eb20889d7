/** A strict answer, decoded, is an answer the original contract accepts (src/dispatch.py). */
module StrictSound {
  import opened Json
  import opened StrictSchema
  import opened StrictShape

  lemma NullableFrame(p: Json, k: Word)
    requires p.Obj?
    ensures Nullable(p).Obj? && (k in Nullable(p).m <==> k in p.m)
    ensures k in p.m && !k.AnyOf? && !k.Type? && !k.Enum? ==> Nullable(p).m[k] == p.m[k]
    ensures PropsOf(Nullable(p).m) == PropsOf(p.m)
  {}

  /** Making a schema nullable adds null to what it accepts, and nothing else. */
  lemma NullableAssertion(p: Json, k: Word, v: Json, leaf: Meaning)
    requires p.Obj? && k in p.m && v != Null
    requires AssertionOk(k, Nullable(p).m[k], v, leaf)
    ensures AssertionOk(k, p.m[k], v, leaf)
  {}

  lemma OnlyNull(v: Json, leaf: Meaning)
    ensures Valid(NULL_SCHEMA, v, leaf) <==> v == Null
  {
    if Valid(NULL_SCHEMA, v, leaf) { assert AssertionOk(Type, NULL_SCHEMA.m[Type], v, leaf); }
  }

  lemma NullableAnyOf(p: Json, v: Json, leaf: Meaning)
    requires p.Obj? && v != Null && AnyOfOk(Nullable(p), v, leaf)
    ensures AnyOfOk(p, v, leaf)
  {
    if AnyOf in p.m && p.m[AnyOf].Arr? {
      var q := Nullable(p);
      assert q.m[AnyOf].xs == p.m[AnyOf].xs + [NULL_SCHEMA];
      var b :| b in q.m[AnyOf].xs && Valid(b, v, leaf);
      OnlyNull(v, leaf);
      assert b in p.m[AnyOf].xs;
    }
  }

  lemma NullableStrips(p: Json, v: Json, leaf: Meaning)
    requires v != Null && Valid(Nullable(p), v, leaf)
    ensures Valid(p, v, leaf)
  {
    if p.Obj? {
      var q := Nullable(p);
      forall k | k in p.m ensures AssertionOk(k, p.m[k], v, leaf) {
        NullableFrame(p, k);
        assert AssertionOk(k, q.m[k], v, leaf);
        NullableAssertion(p, k, v, leaf);
      }
      NullableFrame(p, Items);
      NullableFrame(p, Properties);
      NullableFrame(p, AdditionalProperties);
      NullableAnyOf(p, v, leaf);
      hide Nullable, AssertionOk, AnyOfOk;
    }
  }

  lemma ScalarBranchKeeps(b: Json, k: Word)
    requires ScalarSchema(b)
    ensures k in StrictFields(b) <==> k in b.m && !Dropped(k)
    ensures k in b.m && !Dropped(k) && !Annotation(k) ==> StrictFields(b)[k] == b.m[k]
  {
    if k in b.m && !Annotation(k) && !Dropped(k) { StrictPlain(b.m[k]); }
    hide Strict;
  }

  lemma ScalarBranchFields(b: Json)
    requires ScalarSchema(b)
    ensures Strict(b) == Obj(StrictFields(b))
  {
    StrictIs(b);
    ScalarBranchKeeps(b, Type);
    ScalarBranchKeeps(b, AnyOf);
    ScalarBranchKeeps(b, OneOf);
    ScalarBranchKeeps(b, Properties);
    CloseNothing(StrictFields(b), RequiredOf(b.m));
    hide Strict, StrictFields;
  }

  lemma DroppedOk(k: Word, arg: Json, v: Json, leaf: Meaning)
    requires Dropped(k) || Annotation(k) || Applicator(k)
    ensures AssertionOk(k, arg, v, leaf)
  {}

  lemma ScalarBranchAssertions(b: Json, v: Json, leaf: Meaning)
    requires ScalarSchema(b)
    ensures AssertionsOk(Obj(StrictFields(b)), v, leaf) <==> AssertionsOk(b, v, leaf)
  {
    var fields := StrictFields(b);
    forall k | k in b.m
      ensures AssertionOk(k, b.m[k], v, leaf) <==> (k in fields ==> AssertionOk(k, fields[k], v, leaf))
    {
      ScalarBranchKeeps(b, k);
      if Dropped(k) || Annotation(k) {
        DroppedOk(k, b.m[k], v, leaf);
        if k in fields { DroppedOk(k, fields[k], v, leaf); }
      }
    }
    hide AssertionOk, StrictFields;
    forall k | k in fields ensures k in b.m { ScalarBranchKeeps(b, k); }
    if AssertionsOk(b, v, leaf) {
      forall k | k in fields ensures AssertionOk(k, fields[k], v, leaf) { assert k in b.m; }
    }
    if AssertionsOk(Obj(fields), v, leaf) {
      forall k | k in b.m ensures AssertionOk(k, b.m[k], v, leaf) {
        if k in fields { assert AssertionOk(k, Obj(fields).m[k], v, leaf); }
      }
    }
  }

  /** A schema without applicators is its assertions. */
  lemma NoApplicators(s: Json, v: Json, leaf: Meaning)
    requires s.Obj? && forall k | k in s.m :: !Applicator(k)
    ensures Valid(s, v, leaf) <==> AssertionsOk(s, v, leaf)
  {}

  lemma ScalarBranchScalar(b: Json, v: Json, leaf: Meaning)
    requires ScalarSchema(b) && AssertionsOk(b, v, leaf)
    ensures v.Scalar()
  {
    if Type in b.m { assert AssertionOk(Type, b.m[Type], v, leaf); }
    if Enum in b.m { assert AssertionOk(Enum, b.m[Enum], v, leaf); }
    if Const in b.m { assert AssertionOk(Const, b.m[Const], v, leaf); }
  }

  lemma ScalarBranchApplicators(b: Json)
    requires ScalarSchema(b)
    ensures b.Obj? && (forall k | k in b.m :: !Applicator(k)) && forall k | k in StrictFields(b) :: !Applicator(k)
  {
    forall k | k in StrictFields(b) ensures k in b.m { ScalarBranchKeeps(b, k); }
    hide StrictFields;
  }

  /** Only scalars satisfy a scalar branch, and compiling it changes nothing they can see. */
  lemma ScalarBranch(b: Json, v: Json, leaf: Meaning)
    requires ScalarSchema(b)
    ensures Valid(Strict(b), v, leaf) <==> Valid(b, v, leaf)
    ensures Valid(b, v, leaf) ==> v.Scalar()
  {
    ScalarBranchApplicators(b);
    hide Strict, StrictFields, Valid, ScalarSchema;
    ScalarBranchFields(b);
    ScalarBranchAssertions(b, v, leaf);
    NoApplicators(b, v, leaf);
    NoApplicators(Obj(StrictFields(b)), v, leaf);
    if AssertionsOk(b, v, leaf) { ScalarBranchScalar(b, v, leaf); }
  }

  lemma UnnullKeys(v: Json, s: Json, k: Word)
    requires s.Obj? && v.Obj?
    ensures Unnull(v, s).Obj?
    ensures k in Unnull(v, s).m <==> k in v.m && !(v.m[k] == Null && k !in RequiredOf(s.m))
    ensures k in Unnull(v, s).m ==> Unnull(v, s).m[k] == Unnull(v.m[k], PropSchema(s.m, k))
  {}

  lemma UnnullArray(v: Json, s: Json)
    requires s.Obj? && v.Arr?
    ensures Unnull(v, s).Arr? && |Unnull(v, s).xs| == |v.xs|
    ensures forall i | 0 <= i < |v.xs| :: Unnull(v, s).xs[i] == Unnull(v.xs[i], ItemSchema(s.m))
  {}

  lemma UnnullKind(v: Json, s: Json)
    ensures v.Scalar() ==> Unnull(v, s) == v
    ensures v.Arr? <==> Unnull(v, s).Arr?
    ensures v.Obj? <==> Unnull(v, s).Obj?
    ensures v.Arr? ==> |Unnull(v, s).xs| == |v.xs|
  {}

  /** The argument of a keyword that applies no subschema survives compilation, `required` excepted. */
  lemma StrictArgument(s: Json, k: Word)
    requires Shaped(s) && k in s.m && !k.Required?
    requires k.Leaf? || Assertion(k)
    ensures k in Strict(s).m && Strict(s).m[k] == s.m[k]
  {
    StrictKeeps(s, k);
    StrictPlain(s.m[k]);
    hide Strict;
  }

  lemma ListedPresent(arg: Json, names: set<Word>, v: Json, x: Word, leaf: Meaning)
    requires Lists(arg, names) && x in names && v.Obj? && AssertionOk(Required, arg, v, leaf)
    ensures x in v.m
  {
    assert Str(x) in arg.xs;
  }

  lemma StrictObject(s: Json)
    requires Shaped(s)
    ensures s.Obj? && Strict(s).Obj?
  {}

  lemma ClosedHasRequired(s: Json, v: Json, x: Word, leaf: Meaning)
    requires Shaped(s) && AssertionsOk(Strict(s), v, leaf) && v.Obj? && Closes(s.m) && x in PropsOf(s.m)
    ensures x in v.m
  {
    hide Strict, Shaped, Lists, AssertionOk, RequiredOf, Closes;
    StrictObject(s);
    var t := Strict(s);
    StrictCloses(s);
    StrictRequired(s);
    StrictProps(s);
    assert AssertionOk(Required, t.m[Required], v, leaf);
    ListedPresent(t.m[Required], PropsOf(t.m).Keys, v, x, leaf);
  }

  lemma OpenHasRequired(s: Json, v: Json, x: Word, leaf: Meaning)
    requires Shaped(s) && AssertionsOk(Strict(s), v, leaf) && v.Obj? && !Closes(s.m) && x in RequiredOf(s.m)
    ensures x in v.m
  {
    hide Strict, Shaped, Closes;
    StrictObject(s);
    StrictOpen(s, Required);
    assert AssertionOk(Required, Strict(s).m[Required], v, leaf);
  }

  /** A required name of the original is present in every strictly valid object. */
  lemma StrictHasRequired(s: Json, v: Json, x: Word, leaf: Meaning)
    requires Shaped(s) && AssertionsOk(Strict(s), v, leaf) && v.Obj?
    requires if Closes(s.m) then x in PropsOf(s.m) else x in RequiredOf(s.m)
    ensures x in v.m
  {
    hide Strict, Shaped, AssertionsOk, RequiredOf, PropsOf;
    StrictObject(s);
    if Closes(s.m) { ClosedHasRequired(s, v, x, leaf); } else { OpenHasRequired(s, v, x, leaf); }
  }

  lemma SoundRequired(s: Json, v: Json, leaf: Meaning)
    requires Shaped(s) && DeclaresOwn(s.m) && AssertionsOk(Strict(s), v, leaf) && v.Obj? && Required in s.m
    ensures AssertionOk(Required, s.m[Required], Unnull(v, s), leaf)
  {
    forall x | x in s.m[Required].xs && x.Str? ensures x.w in Unnull(v, s).m {
      assert x.w in RequiredOf(s.m);
      StrictHasRequired(s, v, x.w, leaf);
      UnnullKeys(v, s, x.w);
    }
  }

  lemma SoundAssertion(s: Json, v: Json, k: Word, leaf: Meaning)
    requires Shaped(s) && AssertionsOk(Strict(s), v, leaf) && k in s.m && !k.Required?
    requires v.Obj? <==> Unnull(v, s).Obj?
    requires v.Arr? ==> Unnull(v, s).Arr? && |Unnull(v, s).xs| == |v.xs|
    requires v.Scalar() ==> Unnull(v, s) == v
    ensures AssertionOk(k, s.m[k], Unnull(v, s), leaf)
  {
    hide Strict, Unnull;
    if k.Leaf? || Assertion(k) {
      StrictObject(s);
      StrictArgument(s, k);
      assert AssertionOk(k, Strict(s).m[k], v, leaf);
      if k.Enum? || k.Const? { PlainScalars(s); }
    } else { DroppedOk(k, s.m[k], Unnull(v, s), leaf); }
  }

  lemma PlainScalars(s: Json)
    requires Shaped(s)
    ensures Enum in s.m ==> Scalars(s.m[Enum])
    ensures Const in s.m ==> s.m[Const].Scalar()
  {}

  lemma SoundAssertions(s: Json, v: Json, leaf: Meaning)
    requires Shaped(s) && (v.Obj? ==> DeclaresOwn(s.m)) && AssertionsOk(Strict(s), v, leaf)
    ensures AssertionsOk(s, Unnull(v, s), leaf)
  {
    UnnullKind(v, s);
    hide Strict, Unnull, AssertionOk;
    forall k | k in s.m ensures AssertionOk(k, s.m[k], Unnull(v, s), leaf) {
      if !k.Required? { SoundAssertion(s, v, k, leaf); }
      else if v.Obj? { SoundRequired(s, v, leaf); }
      else { NotRequired(s.m[k], Unnull(v, s), leaf); }
    }
  }

  lemma NotRequired(arg: Json, u: Json, leaf: Meaning)
    requires !u.Obj?
    ensures AssertionOk(Required, arg, u, leaf)
  {}

  lemma SoundAnyOf(s: Json, v: Json, leaf: Meaning)
    requires Shaped(s) && AnyOfOk(Strict(s), v, leaf)
    ensures AnyOfOk(s, Unnull(v, s), leaf)
  {
    if AnyOf in s.m {
      StrictAnyOf(s);
      var bs, ts := s.m[AnyOf].xs, Strict(s).m[AnyOf].xs;
      var b :| b in ts && Valid(b, v, leaf);
      var i :| 0 <= i < |ts| && ts[i] == b;
      assert b == Strict(bs[i]) && bs[i] in bs;
      ScalarBranch(bs[i], v, leaf);
      UnnullKind(v, s);
      hide Strict, Unnull;
    }
  }

  /** An object valid under a closed schema has declared keys only. */
  lemma StrictDeclared(s: Json, v: Json, k: Word, leaf: Meaning)
    requires Shaped(s) && Closes(s.m) && v.Obj? && AdditionalOk(Strict(s), v, leaf) && k in v.m
    ensures k in PropsOf(s.m)
  {
    StrictCloses(s);
    StrictRequired(s);
    StrictProps(s);
    hide Strict, Shaped;
  }

  lemma SoundAdditional(s: Json, v: Json, leaf: Meaning)
    requires Shaped(s) && AdditionalOk(Strict(s), v, leaf)
    ensures AdditionalOk(s, Unnull(v, s), leaf)
  {
    UnnullKind(v, s);
    if AdditionalProperties in s.m && v.Obj? {
      StrictCloses(s);
      forall k | k in Unnull(v, s).m && k !in PropsOf(s.m)
        ensures Valid(s.m[AdditionalProperties], Unnull(v, s).m[k], leaf)
      {
        UnnullKeys(v, s, k);
        if Closes(s.m) {
          StrictDeclared(s, v, k, leaf);
        } else {
          StrictOpen(s, AdditionalProperties);
          StrictProps(s);
          assert Valid(Strict(s).m[AdditionalProperties], v.m[k], leaf);
        }
      }
    }
  }

  /** What the compiled schema says of a declared key that the decoder keeps. */
  lemma StrictProperty(s: Json, v: Json, k: Word, leaf: Meaning)
    requires Shaped(s) && v.Obj? && PropertiesOk(Strict(s), v, leaf)
    requires k in PropsOf(s.m) && k in v.m && !(v.m[k] == Null && k !in RequiredOf(s.m))
    ensures Valid(Strict(PropsOf(s.m)[k]), v.m[k], leaf)
  {
    var p := Strict(PropsOf(s.m)[k]);
    StrictProps(s);
    StrictCloses(s);
    StrictRequired(s);
    hide Strict, Shaped;
    assert Valid(PropsOf(Strict(s).m)[k], v.m[k], leaf);
    if k !in RequiredOf(s.m) { NullableStrips(p, v.m[k], leaf); }
  }

  /** Where every object of the answer meets a schema that declares what it requires, the decoded answer satisfies
      the original. */
  lemma {:induction false} SoundWhereDeclared(s: Json, v: Json, leaf: Meaning)
    requires Shaped(s) && DeclaresFor(s, v) && Valid(Strict(s), v, leaf)
    ensures Valid(s, Unnull(v, s), leaf)
    decreases s
  {
    var u := Unnull(v, s);
    UnnullKind(v, s);
    SoundAssertions(s, v, leaf);
    SoundAnyOf(s, v, leaf);
    SoundAdditional(s, v, leaf);
    if Items in s.m && v.Arr? {
      StrictKeeps(s, Items);
      UnnullArray(v, s);
      forall i | 0 <= i < |v.xs| ensures Valid(s.m[Items], u.xs[i], leaf) {
        assert Valid(Strict(s).m[Items], v.xs[i], leaf);
        hide Strict, Unnull;
        SoundWhereDeclared(s.m[Items], v.xs[i], leaf);
        DecodesAlike(v.xs[i], s.m);
      }
    }
    if v.Obj? {
      forall k | k in PropsOf(s.m) && k in u.m ensures Valid(PropsOf(s.m)[k], u.m[k], leaf) {
        UnnullKeys(v, s, k);
        StrictProperty(s, v, k, leaf);
        hide Strict, Unnull;
        SoundWhereDeclared(PropsOf(s.m)[k], v.m[k], leaf);
      }
    }
  }

  lemma {:induction false} DeclaresAll(s: Json, v: Json)
    requires Shaped(s) && Declares(s)
    ensures DeclaresFor(s, v)
    decreases v
  {
    if v.Obj? {
      forall k | k in v.m && k in PropsOf(s.m) ensures DeclaresFor(PropsOf(s.m)[k], v.m[k]) { DeclaresAll(PropsOf(s.m)[k], v.m[k]); }
    }
    if v.Arr? && Items in s.m {
      forall i | 0 <= i < |v.xs| ensures DeclaresFor(s.m[Items], v.xs[i]) { DeclaresAll(s.m[Items], v.xs[i]); }
    }
  }

  /**
   Whatever the model answers under the strict schema, the decoded answer satisfies the original contract,
   constraints of dropped keywords excepted.
   */
  lemma Sound(s: Json, v: Json, leaf: Meaning)
    requires InFragment(s) && Valid(Strict(s), v, leaf)
    ensures Valid(s, Unnull(v, s), leaf)
  {
    hide Shaped, Declares, Valid, Strict, Unnull, DeclaresFor;
    DeclaresAll(s, v);
    SoundWhereDeclared(s, v, leaf);
  }

  /** An empty `items` schema counts as absent, which decodes the items the same way. */
  lemma DecodesAlike(v: Json, m: map<Word, Json>)
    requires Items in m && m[Items].Obj?
    ensures Unnull(v, ItemSchema(m)) == Unnull(v, m[Items])
  {}

  // ---------------------------------------------------------------- required names that are not declared

  /** An undeclared required name is in no answer. */
  lemma UndeclaredAbsent(s: Json, v: Json, w: Word, leaf: Meaning)
    requires Shaped(s) && Closes(s.m) && w !in PropsOf(s.m) && v.Obj? && AdditionalOk(Strict(s), v, leaf)
    ensures w !in v.m
  {
    hide Strict, Shaped;
    StrictObject(s);
    StrictCloses(s);
    StrictRequired(s);
    StrictProps(s);
  }

  lemma RequiredRefuses(s: Json, u: Json, w: Word, leaf: Meaning)
    requires s.Obj? && w in RequiredOf(s.m) && u.Obj? && w !in u.m
    ensures !Valid(s, u, leaf)
  { assert !AssertionOk(Required, s.m[Required], u, leaf); }

  lemma UndeclaredRefused(s: Json, v: Json, w: Word, leaf: Meaning)
    requires Shaped(s) && Closes(s.m) && w in RequiredOf(s.m) && w !in PropsOf(s.m)
    requires v.Obj? && Valid(Strict(s), v, leaf)
    ensures !Valid(s, Unnull(v, s), leaf)
  {
    hide Strict, Unnull, Shaped;
    StrictObject(s);
    UndeclaredAbsent(s, v, w, leaf);
    UnnullKeys(v, s, w);
    RequiredRefuses(s, Unnull(v, s), w, leaf);
  }

  lemma OwnDeclared(s: Json, v: Json, leaf: Meaning)
    requires Shaped(s) && v.Obj? && Valid(Strict(s), v, leaf) && Valid(s, Unnull(v, s), leaf)
    ensures DeclaresOwn(s.m)
  {
    hide Strict, Unnull, Valid;
    if !DeclaresOwn(s.m) {
      var w :| w in RequiredOf(s.m) && w !in PropsOf(s.m);
      UndeclaredRefused(s, v, w, leaf);
    }
  }

  lemma PropertyMet(s: Json, v: Json, k: Word, leaf: Meaning)
    requires Shaped(s) && v.Obj? && Valid(Strict(s), v, leaf) && Valid(s, Unnull(v, s), leaf)
    requires k in PropsOf(s.m) && k in v.m && v.m[k] != Null
    ensures Shaped(PropsOf(s.m)[k])
    ensures Valid(Strict(PropsOf(s.m)[k]), v.m[k], leaf) && Valid(PropsOf(s.m)[k], Unnull(v.m[k], PropsOf(s.m)[k]), leaf)
  {
    hide Strict, Unnull;
    StrictObject(s);
    StrictProperty(s, v, k, leaf);
    UnnullKeys(v, s, k);
  }

  lemma ItemMet(s: Json, v: Json, i: nat, leaf: Meaning)
    requires Shaped(s) && v.Arr? && Items in s.m && i < |v.xs| && Valid(Strict(s), v, leaf) && Valid(s, Unnull(v, s), leaf)
    ensures Shaped(s.m[Items])
    ensures Valid(Strict(s.m[Items]), v.xs[i], leaf) && Valid(s.m[Items], Unnull(v.xs[i], s.m[Items]), leaf)
  {
    hide Strict, Unnull;
    StrictObject(s);
    StrictKeeps(s, Items);
    UnnullArray(v, s);
    DecodesAlike(v.xs[i], s.m);
  }

  lemma {:induction false} DeclaredWhereSound(s: Json, v: Json, leaf: Meaning)
    requires Shaped(s) && Valid(Strict(s), v, leaf) && Valid(s, Unnull(v, s), leaf)
    ensures DeclaresFor(s, v)
    decreases v
  {
    hide Strict, Unnull, Valid, Shaped, DeclaresOwn;
    StrictObject(s);
    if v.Obj? {
      OwnDeclared(s, v, leaf);
      forall k | k in v.m && k in PropsOf(s.m) ensures DeclaresFor(PropsOf(s.m)[k], v.m[k]) {
        if v.m[k] != Null {
          PropertyMet(s, v, k, leaf);
          DeclaredWhereSound(PropsOf(s.m)[k], v.m[k], leaf);
        }
      }
    }
    if v.Arr? && Items in s.m {
      forall i | 0 <= i < |v.xs| ensures DeclaresFor(s.m[Items], v.xs[i]) {
        ItemMet(s, v, i, leaf);
        DeclaredWhereSound(s.m[Items], v.xs[i], leaf);
      }
    }
  }

  /** Why a closed object must declare what it requires, and that nothing else is in the way: the decoded answer
      satisfies the original contract exactly when every object in it, however deep, meets a schema that declares
      every name required there. */
  lemma SoundExactly(s: Json, v: Json, leaf: Meaning)
    requires Shaped(s) && Valid(Strict(s), v, leaf)
    ensures Valid(s, Unnull(v, s), leaf) <==> DeclaresFor(s, v)
  {
    hide Strict, Unnull, Valid, Shaped, DeclaresFor;
    if DeclaresFor(s, v) { SoundWhereDeclared(s, v, leaf); }
    if Valid(s, Unnull(v, s), leaf) { DeclaredWhereSound(s, v, leaf); }
  }

  /** What an object schema that declares nothing and requires names compiles to. */
  lemma BareObject(m: map<Word, Json>, w: Word)
    requires m == map[Type := Str(Named(TObject)), Required := Arr([Str(w)])]
    ensures Strict(Obj(m)) == Obj(m[Properties := Obj(map[])][Required := NameList({})][AdditionalProperties := Bool(false)])
  {
    StrictPlain(m[Type]);
    StrictPlain(m[Required]);
    assert StrictFields(Obj(m)) == m;
    assert MergeAlternatives(m) == m;
    assert NullableProps(PropsOf(m), RequiredOf(m)) == map[] && PropsOf(m).Keys == {};
    StrictIs(Obj(m));
    hide Strict, StrictFields, NameList, MergeAlternatives;
  }

  lemma NothingRequired(v: Json, leaf: Meaning)
    ensures NameList({}).Arr? && AssertionOk(Required, NameList({}), v, leaf)
  {
    ListingExists({});
    assert Lists(NameList({}), {});
  }

  lemma EmptyAccepted(t: map<Word, Json>, v: Json, leaf: Meaning)
    requires t.Keys == {Type, Required, Properties, AdditionalProperties} && v == Obj(map[])
    requires t[Type] == Str(Named(TObject)) && AssertionOk(Required, t[Required], v, leaf)
    ensures Valid(Obj(t), v, leaf)
  {
    forall k | k in t ensures AssertionOk(k, t[k], v, leaf) {
      assert k == Type || k == Required || k == Properties || k == AdditionalProperties;
    }
    hide AssertionOk;
  }

  lemma EmptyRefused(m: map<Word, Json>, w: Word, v: Json, leaf: Meaning)
    requires Required in m && m[Required] == Arr([Str(w)]) && v == Obj(map[])
    ensures !Valid(Obj(m), v, leaf)
  {
    assert Str(w) in m[Required].xs;
    assert !AssertionOk(Required, m[Required], v, leaf);
    hide AssertionOk;
  }

  /** Such an answer: the compiler lists only declared names, so the empty object passes the strict schema. */
  lemma UndeclaredRequired(w: Word, leaf: Meaning)
    ensures var s, v := Obj(map[Type := Str(Named(TObject)), Required := Arr([Str(w)])]), Obj(map[]);
      Valid(Strict(s), v, leaf) && !Valid(s, Unnull(v, s), leaf)
  {
    var m := map[Type := Str(Named(TObject)), Required := Arr([Str(w)])];
    var s, v := Obj(m), Obj(map[]);
    assert Unnull(v, s) == v;
    BareObject(m, w);
    hide Strict, Unnull, NameList, AssertionOk, Valid;
    NothingRequired(v, leaf);
    EmptyAccepted(m[Properties := Obj(map[])][Required := NameList({})][AdditionalProperties := Bool(false)], v, leaf);
    EmptyRefused(m, w, v, leaf);
  }
}
