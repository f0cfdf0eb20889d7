/** The strict schema loses no tidy answer, and which properties can be null (src/dispatch.py). */
module StrictComplete {
  import opened Json
  import opened StrictSchema
  import opened StrictShape
  import opened StrictSound

  /** The answer with a null for every optional key it leaves out. */
  function Fill(v: Json, schema: Json): Json
    decreases v
  {
    if !schema.Obj? then v else
    match v
    case Obj(m) =>
      var absent := if Closes(schema.m) then PropsOf(schema.m).Keys - m.Keys else {};
      Obj(map k | k in m.Keys + absent :: if k in m then Fill(m[k], PropSchema(schema.m, k)) else Null)
    case Arr(xs) => Arr(seq(|xs|, i requires 0 <= i < |xs| => Fill(xs[i], ItemSchema(schema.m))))
    case _ => v
  }

  /** Only declared keys in closed objects, and no optional key explicitly null. */
  predicate Tidy(v: Json, schema: Json)
    decreases v
  {
    if !schema.Obj? then true else
    match v
    case Obj(m) =>
      && (forall k | k in m :: m[k] == Null ==> k in RequiredOf(schema.m))
      && (forall k | k in m :: Tidy(m[k], PropSchema(schema.m, k)))
      && (Closes(schema.m) ==> m.Keys <= PropsOf(schema.m).Keys)
    case Arr(xs) => forall i | 0 <= i < |xs| :: Tidy(xs[i], ItemSchema(schema.m))
    case _ => true
  }

  /** A property schema the compiler's rules make accept null. */
  predicate CanNull(p: Json) {
    p.Obj? &&
    (Const in p.m ==> p.m[Const] == Null) &&
    (AnyOf in p.m && Type in p.m ==> TypeOk(p.m[Type], Null))
  }

  /** Every optional property, at every depth, can be null. */
  predicate AllNullable(s: Json)
    requires InFragment(s)
    decreases s
  {
    && (Closes(s.m) ==> forall k | k in PropsOf(s.m) && k !in RequiredOf(s.m) :: CanNull(PropsOf(s.m)[k]))
    && (forall k | k in PropsOf(s.m) :: AllNullable(s.m[Properties].m[k]))
    && (Items in s.m ==> AllNullable(s.m[Items]))
  }

  /** Compilation leaves the arguments of all plain keywords in place. */
  lemma StrictView(s: Json)
    requires InFragment(s)
    ensures forall k: Word | k.Leaf? || (Assertion(k) && !k.Required?) ::
              (k in Strict(s).m <==> k in s.m) && (k in s.m ==> Strict(s).m[k] == s.m[k])
    ensures AnyOf in Strict(s).m <==> AnyOf in s.m
    ensures AnyOf in s.m ==> Strict(s).m[AnyOf].Arr?
  {
    forall k: Word | k.Leaf? || (Assertion(k) && !k.Required?)
      ensures (k in Strict(s).m <==> k in s.m) && (k in s.m ==> Strict(s).m[k] == s.m[k])
    {
      StrictKeeps(s, k);
      if k in s.m { StrictArgument(s, k); }
      hide Strict, InFragment;
    }
    StrictAnyOf(s);
    hide Strict;
  }

  lemma NullableNullAssertion(t: Json, k: Word, leaf: Meaning)
    requires t.Obj? && k in t.m && (Const in t.m ==> t.m[Const] == Null)
    requires Type in t.m ==> t.m[Type].Str? || Strings(t.m[Type])
    requires AnyOf in t.m && Type in t.m ==> TypeOk(t.m[Type], Null)
    requires Enum in t.m ==> t.m[Enum].Arr?
    ensures AssertionOk(k, Nullable(t).m[k], Null, leaf)
  {
    if k.Type? && AnyOf !in t.m && t.m[Type].Arr? {
      assert Str(Named(TNull)) in Nullable(t).m[Type].xs;
    }
  }

  /** What a schema that can be made nullable looks like compiled. */
  lemma CanNullView(p: Json)
    requires InFragment(p) && CanNull(p)
    ensures var t := Strict(p);
      && t.Obj? && (Const in t.m ==> t.m[Const] == Null)
      && (Type in t.m ==> t.m[Type].Str? || Strings(t.m[Type]))
      && (AnyOf in t.m && Type in t.m ==> TypeOk(t.m[Type], Null))
      && (Enum in t.m ==> t.m[Enum].Arr?) && (AnyOf in t.m ==> t.m[AnyOf].Arr?)
  {
    StrictView(p);
    assert PlainArguments(p.m);
    hide Strict, InFragment;
  }

  /** Making a schema nullable leaves nothing that refuses null, once its assertions do not. */
  lemma NullAccepted(t: Json, leaf: Meaning)
    requires t.Obj? && (AnyOf in t.m ==> t.m[AnyOf].Arr?)
    requires AssertionsOk(Nullable(t), Null, leaf)
    ensures Valid(Nullable(t), Null, leaf)
  {
    OnlyNull(Null, leaf);
    if AnyOf in t.m { assert NULL_SCHEMA in Nullable(t).m[AnyOf].xs; }
    hide AssertionOk;
  }

  lemma NullableAcceptsNull(p: Json, leaf: Meaning)
    requires InFragment(p) && CanNull(p)
    ensures Valid(Nullable(Strict(p)), Null, leaf)
  {
    hide Strict, InFragment, Nullable, AssertionOk, CanNull, Valid;
    var t := Strict(p);
    CanNullView(p);
    NullableFrame(t, Type);
    forall k | k in Nullable(t).m ensures AssertionOk(k, Nullable(t).m[k], Null, leaf) {
      NullableFrame(t, k);
      NullableNullAssertion(t, k, leaf);
    }
    NullAccepted(t, leaf);
  }

  lemma ConstRefuses(t: Json, leaf: Meaning)
    requires t.Obj? && Const in t.m && t.m[Const] != Null
    ensures !Valid(Nullable(t), Null, leaf)
  {
    NullableFrame(t, Const);
    hide Nullable, Valid;
    Violated(Nullable(t), Const, Null, leaf);
  }

  /** Beside `anyOf` the rules leave `type` alone. */
  lemma TypeRefuses(t: Json, leaf: Meaning)
    requires t.Obj? && AnyOf in t.m && Type in t.m && !TypeOk(t.m[Type], Null)
    ensures !Valid(Nullable(t), Null, leaf)
  {
    hide Valid, TypeOk;
    assert Nullable(t).m[Type] == t.m[Type];
    Violated(Nullable(t), Type, Null, leaf);
  }

  lemma NullRefused(p: Json, leaf: Meaning)
    requires InFragment(p) && !CanNull(p)
    ensures !Valid(Nullable(Strict(p)), Null, leaf)
  {
    hide Strict, Nullable, Valid, TypeOk, Declares;
    StrictObject(p);
    StrictView(p);
    if Const in p.m && p.m[Const] != Null { ConstRefuses(Strict(p), leaf); } else { TypeRefuses(Strict(p), leaf); }
  }

  lemma Violated(q: Json, k: Word, v: Json, leaf: Meaning)
    requires q.Obj? && k in q.m && !AssertionOk(k, q.m[k], v, leaf)
    ensures !Valid(q, v, leaf)
  { hide AssertionOk; }

  /** The rules make a property accept null exactly when `CanNull` says so. */
  lemma CanNullExact(p: Json, leaf: Meaning)
    requires InFragment(p)
    ensures CanNull(p) <==> Valid(Nullable(Strict(p)), Null, leaf)
  {
    if CanNull(p) { NullableAcceptsNull(p, leaf); } else { NullRefused(p, leaf); }
  }

  lemma FillKeys(v: Json, s: Json, k: Word)
    requires s.Obj? && v.Obj?
    ensures Fill(v, s).Obj?
    ensures k in Fill(v, s).m <==> k in v.m || (Closes(s.m) && k in PropsOf(s.m))
    ensures k in v.m ==> Fill(v, s).m[k] == Fill(v.m[k], PropSchema(s.m, k))
    ensures k in Fill(v, s).m && k !in v.m ==> Fill(v, s).m[k] == Null
  {}

  lemma FillArray(v: Json, s: Json)
    requires s.Obj? && v.Arr?
    ensures Fill(v, s).Arr? && |Fill(v, s).xs| == |v.xs|
    ensures forall i | 0 <= i < |v.xs| :: Fill(v, s).xs[i] == Fill(v.xs[i], ItemSchema(s.m))
  {}

  lemma FillKind(v: Json, s: Json)
    ensures v.Scalar() ==> Fill(v, s) == v
    ensures v.Arr? <==> Fill(v, s).Arr?
    ensures v.Obj? <==> Fill(v, s).Obj?
    ensures v.Arr? ==> |Fill(v, s).xs| == |v.xs|
  {}

  lemma NullableKeeps(t: Json, v: Json, leaf: Meaning)
    requires t.Obj? && Valid(t, v, leaf)
    requires AnyOf in t.m ==> t.m[AnyOf].Arr?
    requires Enum in t.m ==> t.m[Enum].Arr?
    ensures Valid(Nullable(t), v, leaf)
  {
    hide Nullable, AssertionOk;
    var q := Nullable(t);
    NullableFrame(t, Items);
    NullableFrame(t, AnyOf);
    NullableFrame(t, Properties);
    NullableFrame(t, AdditionalProperties);
    forall k | k in q.m ensures AssertionOk(k, q.m[k], v, leaf) {
      NullableFrame(t, k);
      assert AssertionOk(k, t.m[k], v, leaf);
      NullableKeepsAssertion(t, k, v, leaf);
    }
    if AnyOf in t.m {
      var b :| b in t.m[AnyOf].xs && Valid(b, v, leaf);
      NullableBranch(t, b);
    }
  }

  lemma NullableBranch(t: Json, b: Json)
    requires t.Obj? && AnyOf in t.m && t.m[AnyOf].Arr? && b in t.m[AnyOf].xs
    ensures AnyOf in Nullable(t).m && Nullable(t).m[AnyOf].Arr? && b in Nullable(t).m[AnyOf].xs
  {}

  lemma NullableKeepsAssertion(t: Json, k: Word, v: Json, leaf: Meaning)
    requires t.Obj? && k in t.m && AssertionOk(k, t.m[k], v, leaf)
    requires Enum in t.m ==> t.m[Enum].Arr?
    ensures AssertionOk(k, Nullable(t).m[k], v, leaf)
  {
    var q := Nullable(t);
    if k.Type? && AnyOf !in t.m {
      if t.m[Type].Str? {
        assert t.m[Type] in q.m[Type].xs;
      } else if t.m[Type].Arr? {
        var x :| x in t.m[Type].xs && x.Str? && HasType(x.w, v);
        assert x in q.m[Type].xs;
      }
    }
  }

  /** Filling changes nothing an assertion other than `required` can see. */
  lemma FilledAssertion(k: Word, arg: Json, v: Json, s: Json, leaf: Meaning)
    requires AssertionOk(k, arg, v, leaf) && !k.Required?
    requires k == Enum && arg.Arr? ==> forall x | x in arg.xs :: x.Scalar()
    requires k == Const ==> arg.Scalar()
    ensures AssertionOk(k, arg, Fill(v, s), leaf)
  {
    FillKind(v, s);
    hide Fill;
  }

  lemma StrictViewKey(s: Json, k: Word)
    requires InFragment(s) && (k.Leaf? || Assertion(k)) && !k.Required?
    ensures (k in Strict(s).m <==> k in s.m) && (k in s.m ==> Strict(s).m[k] == s.m[k])
  { StrictView(s); hide Strict, InFragment; }

  lemma PlainArgument(s: Json, k: Word)
    requires InFragment(s) && k in s.m
    ensures k == Enum ==> Scalars(s.m[k])
    ensures k == Const ==> s.m[k].Scalar()
  { assert PlainArguments(s.m); }

  lemma CompleteAssertion(s: Json, v: Json, k: Word, leaf: Meaning)
    requires InFragment(s) && AssertionsOk(s, v, leaf) && k in Strict(s).m
    ensures AssertionOk(k, Strict(s).m[k], Fill(v, s), leaf)
  {
    assert s.Obj?;
    hide InFragment, Strict, Fill, AssertionOk;
    if k.Required? {
      FillKind(v, s);
      if v.Obj? { CompleteRequired(s, v, leaf); } else { NotObjectOk(Strict(s).m[k], Fill(v, s), leaf); }
    } else if k.Leaf? || Assertion(k) {
      StrictViewKey(s, k);
      PlainArgument(s, k);
      assert AssertionOk(k, s.m[k], v, leaf);
      FilledAssertion(k, s.m[k], v, s, leaf);
    } else {
      OtherOk(k, Strict(s).m[k], Fill(v, s), leaf);
    }
  }

  lemma NotObjectOk(arg: Json, v: Json, leaf: Meaning)
    requires !v.Obj?
    ensures AssertionOk(Required, arg, v, leaf)
  {}

  lemma OtherOk(k: Word, arg: Json, v: Json, leaf: Meaning)
    requires !k.Leaf? && !Assertion(k)
    ensures AssertionOk(k, arg, v, leaf)
  {}

  lemma CompleteAssertions(s: Json, v: Json, leaf: Meaning)
    requires InFragment(s) && AssertionsOk(s, v, leaf)
    ensures AssertionsOk(Strict(s), Fill(v, s), leaf)
  {
    var t, f := Strict(s), Fill(v, s);
    StrictView(s);
    forall k | k in t.m ensures AssertionOk(k, t.m[k], f, leaf) { CompleteAssertion(s, v, k, leaf); }
    hide Strict, Fill, AssertionOk;
  }

  /** Every name the compiled schema requires is there once the value is filled. */
  lemma FilledName(s: Json, v: Json, x: Word, leaf: Meaning)
    requires InFragment(s) && AssertionsOk(s, v, leaf) && v.Obj?
    requires if Closes(s.m) then x in PropsOf(s.m) else x in RequiredOf(s.m)
    ensures Fill(v, s).Obj? && x in Fill(v, s).m
  {
    assert s.Obj?;
    hide InFragment, AssertionOk, Fill;
    FillKind(v, s);
    FillKeys(v, s, x);
    if !Closes(s.m) { RequiredPresent(s, v, x, leaf); }
  }

  lemma CompleteRequired(s: Json, v: Json, leaf: Meaning)
    requires InFragment(s) && AssertionsOk(s, v, leaf) && v.Obj? && Required in Strict(s).m
    ensures AssertionOk(Required, Strict(s).m[Required], Fill(v, s), leaf)
  {
    hide Strict, Shaped, Declares, Fill, AssertionsOk;
    StrictObject(s);
    if Strict(s).m[Required].Arr? {
      forall x | x in Strict(s).m[Required].xs && x.Str? ensures Fill(v, s).Obj? && x.w in Fill(v, s).m {
        RequiredName(s, x.w);
        FilledName(s, v, x.w, leaf);
      }
    }
  }

  /** The compiled schema requires the declared names, or those the original does. */
  lemma RequiredName(s: Json, x: Word)
    requires Shaped(s) && Required in Strict(s).m && Strict(s).m[Required].Arr? && Str(x) in Strict(s).m[Required].xs
    ensures if Closes(s.m) then x in PropsOf(s.m) else x in RequiredOf(s.m)
  {
    hide Strict, Shaped;
    StrictObject(s);
    StrictCloses(s);
    if Closes(s.m) { StrictRequired(s); StrictProps(s); } else { StrictOpen(s, Required); }
  }

  lemma CompleteAnyOf(s: Json, v: Json, leaf: Meaning)
    requires InFragment(s) && AnyOfOk(s, v, leaf)
    ensures AnyOfOk(Strict(s), Fill(v, s), leaf)
  {
    StrictAnyOf(s);
    if AnyOf in s.m {
      var bs, ts := s.m[AnyOf].xs, Strict(s).m[AnyOf].xs;
      var b :| b in bs && Valid(b, v, leaf);
      var i :| 0 <= i < |bs| && bs[i] == b;
      assert ts[i] == Strict(b);
      ScalarBranch(b, v, leaf);
      FillKind(v, s);
      hide Strict, Fill;
    }
  }

  lemma CompleteAdditional(s: Json, v: Json, leaf: Meaning)
    requires InFragment(s) && AdditionalOk(s, v, leaf) && Tidy(v, s)
    ensures AdditionalOk(Strict(s), Fill(v, s), leaf)
  {
    var t, f := Strict(s), Fill(v, s);
    FillKind(v, s);
    StrictCloses(s);
    StrictProps(s);
    if AdditionalProperties in t.m && v.Obj? {
      if !Closes(s.m) { StrictOpen(s, AdditionalProperties); }
      hide Strict, InFragment;
      forall k | k in f.m && k !in PropsOf(t.m) ensures Valid(t.m[AdditionalProperties], f.m[k], leaf) {
        FillKeys(v, s, k);
        hide Fill;
        assert Valid(s.m[AdditionalProperties], v.m[k], leaf);
      }
    }
  }

  lemma CompleteProperty(p: Json, required: bool, f: Json, leaf: Meaning)
    requires InFragment(p)
    requires Valid(Strict(p), f, leaf) || (!required && f == Null && CanNull(p))
    ensures Valid(if required then Strict(p) else Nullable(Strict(p)), f, leaf)
  {
    StrictView(p);
    assert PlainArguments(p.m);
    CanNullExact(p, leaf);
    hide Strict, InFragment;
    if !required && Valid(Strict(p), f, leaf) { NullableKeeps(Strict(p), f, leaf); }
  }

  lemma HasRequired(s: Json, v: Json, k: Word, leaf: Meaning)
    requires s.Obj? && v.Obj? && AssertionsOk(s, v, leaf) && k in RequiredOf(s.m)
    ensures k in v.m
  {
    assert AssertionOk(Required, s.m[Required], v, leaf);
  }

  lemma FilledProperty(s: Json, v: Json, k: Word, leaf: Meaning)
    requires InFragment(s) && AllNullable(s) && v.Obj? && AssertionsOk(s, v, leaf) && k in PropsOf(s.m)
    requires k in v.m ==> Valid(Strict(PropsOf(s.m)[k]), Fill(v.m[k], PropsOf(s.m)[k]), leaf)
    ensures Fill(v, s).Obj? && k in Fill(v, s).m
    ensures var p := PropsOf(s.m)[k];
            Valid(if k in RequiredOf(s.m) then Strict(p) else Nullable(Strict(p)), Fill(v, s).m[k], leaf)
  {
    FillKeys(v, s, k);
    if k in RequiredOf(s.m) { HasRequired(s, v, k, leaf); }
    assert InFragment(PropsOf(s.m)[k]) && (k !in RequiredOf(s.m) ==> CanNull(PropsOf(s.m)[k]));
    hide Strict, InFragment, Fill, AllNullable, Valid, Nullable;
    CompleteProperty(PropsOf(s.m)[k], k in RequiredOf(s.m), Fill(v, s).m[k], leaf);
  }

  lemma CompleteProperties(s: Json, v: Json, leaf: Meaning)
    requires InFragment(s) && AllNullable(s) && v.Obj? && AssertionsOk(s, v, leaf)
    requires forall k | k in v.m :: Valid(Strict(PropSchema(s.m, k)), Fill(v.m[k], PropSchema(s.m, k)), leaf)
    ensures PropertiesOk(Strict(s), Fill(v, s), leaf)
  {
    StrictProps(s);
    FillKind(v, s);
    hide Strict, Fill, Valid, Nullable, InFragment, AllNullable;
    forall k | k in PropsOf(s.m) ensures k in Fill(v, s).m && Valid(PropsOf(Strict(s).m)[k], Fill(v, s).m[k], leaf) {
      assert k in v.m ==> PropSchema(s.m, k) == PropsOf(s.m)[k];
      FilledProperty(s, v, k, leaf);
    }
  }

  lemma TidyKey(v: Json, s: Json, k: Word)
    requires s.Obj? && v.Obj? && Tidy(v, s) && k in v.m
    ensures Tidy(v.m[k], PropSchema(s.m, k))
    ensures v.m[k] == Null ==> k in RequiredOf(s.m)
    ensures Closes(s.m) ==> k in PropsOf(s.m)
  {}

  lemma PropSchemaInFragment(s: Json, k: Word, v: Json, leaf: Meaning)
    requires InFragment(s) && AllNullable(s) && v.Obj? && k in v.m && PropertiesOk(s, v, leaf)
    ensures var p := PropSchema(s.m, k); InFragment(p) && AllNullable(p) && Valid(p, v.m[k], leaf)
  {}

  lemma ItemSchemaInFragment(s: Json, v: Json, i: nat, leaf: Meaning)
    requires InFragment(s) && AllNullable(s) && v.Arr? && i < |v.xs| && ItemsOk(s, v, leaf)
    ensures var p := ItemSchema(s.m); InFragment(p) && AllNullable(p) && Valid(p, v.xs[i], leaf)
  {}

  lemma UnnullFillKey(v: Json, s: Json, k: Word, leaf: Meaning)
    requires InFragment(s) && v.Obj? && Tidy(v, s) && AssertionsOk(s, v, leaf)
    ensures Fill(v, s).Obj? && Unnull(Fill(v, s), s).Obj?
    ensures k in Unnull(Fill(v, s), s).m <==> k in v.m
    ensures k in v.m ==> Unnull(Fill(v, s), s).m[k] == Unnull(Fill(v.m[k], PropSchema(s.m, k)), PropSchema(s.m, k))
  {
    assert s.Obj?;
    hide Fill, Unnull, Tidy, InFragment, AssertionOk;
    FillKind(v, s);
    FillKeys(v, s, k);
    UnnullKeys(Fill(v, s), s, k);
    if k in v.m {
      TidyKey(v, s, k);
      FillNull(v.m[k], PropSchema(s.m, k));
    } else if k in RequiredOf(s.m) {
      RequiredPresent(s, v, k, leaf);
    }
  }

  lemma RequiredPresent(s: Json, v: Json, k: Word, leaf: Meaning)
    requires s.Obj? && v.Obj? && AssertionsOk(s, v, leaf) && k in RequiredOf(s.m)
    ensures k in v.m
  { assert AssertionOk(Required, s.m[Required], v, leaf); }

  lemma UnnullFillKeys(v: Json, s: Json, leaf: Meaning)
    requires InFragment(s) && v.Obj? && Tidy(v, s) && AssertionsOk(s, v, leaf)
    requires forall k | k in v.m :: Unnull(Fill(v.m[k], PropSchema(s.m, k)), PropSchema(s.m, k)) == v.m[k]
    ensures Unnull(Fill(v, s), s) == v
  {
    FillKind(v, s);
    UnnullKind(Fill(v, s), s);
    var u := Unnull(Fill(v, s), s);
    forall k ensures (k in u.m <==> k in v.m) && (k in v.m ==> u.m[k] == v.m[k]) {
      UnnullFillKey(v, s, k, leaf);
      hide Fill, Unnull, Tidy, InFragment;
    }
    hide Fill, Unnull, Tidy, InFragment;
    assert u.m == v.m;
  }

  lemma FillNull(v: Json, s: Json)
    ensures Fill(v, s) == Null <==> v == Null
  {}

  /**
   The strict schema loses no answer: every tidy answer the original accepts has a null-filled form that
   the strict schema accepts and that decodes to exactly it.
   */
  lemma {:induction false} Complete(s: Json, v: Json, leaf: Meaning)
    requires InFragment(s) && AllNullable(s) && Valid(s, v, leaf) && Tidy(v, s)
    ensures Valid(Strict(s), Fill(v, s), leaf)
    ensures Unnull(Fill(v, s), s) == v
    decreases v, 2
  {
    var t, f := Strict(s), Fill(v, s);
    FillKind(v, s);
    CompleteAssertions(s, v, leaf);
    CompleteAnyOf(s, v, leaf);
    CompleteAdditional(s, v, leaf);
    if v.Arr? {
      CompleteArray(s, v, leaf);
    } else if v.Obj? {
      forall k | k in v.m
        ensures Valid(Strict(PropSchema(s.m, k)), Fill(v.m[k], PropSchema(s.m, k)), leaf)
        ensures Unnull(Fill(v.m[k], PropSchema(s.m, k)), PropSchema(s.m, k)) == v.m[k]
      {
        TidyKey(v, s, k);
        PropSchemaInFragment(s, k, v, leaf);
        hide Strict, Fill, Unnull, InFragment, Tidy;
        Complete(PropSchema(s.m, k), v.m[k], leaf);
      }
      UnnullFillKeys(v, s, leaf);
      CompleteProperties(s, v, leaf);
      hide Strict, Fill, Unnull, InFragment, Tidy, AllNullable;
    }
  }

  lemma TidyItem(s: Json, v: Json, i: nat)
    requires s.Obj? && v.Arr? && i < |v.xs| && Tidy(v, s)
    ensures Tidy(v.xs[i], ItemSchema(s.m))
  {}

  lemma {:induction false} CompleteItem(s: Json, v: Json, i: nat, leaf: Meaning)
    requires InFragment(s) && AllNullable(s) && ItemsOk(s, v, leaf) && Tidy(v, s) && v.Arr? && i < |v.xs|
    ensures var item := ItemSchema(s.m);
      Valid(Strict(item), Fill(v.xs[i], item), leaf) && Unnull(Fill(v.xs[i], item), item) == v.xs[i]
    decreases v, 0
  {
    ItemSchemaInFragment(s, v, i, leaf);
    TidyItem(s, v, i);
    hide Strict, Fill, Unnull, InFragment, Tidy, AllNullable, Valid;
    Complete(ItemSchema(s.m), v.xs[i], leaf);
  }

  lemma ItemsFilled(s: Json, f: Json, leaf: Meaning)
    requires Shaped(s) && f.Arr? && forall i | 0 <= i < |f.xs| :: Valid(Strict(ItemSchema(s.m)), f.xs[i], leaf)
    ensures ItemsOk(Strict(s), f, leaf)
  {
    StrictKeeps(s, Items);
    assert Items in s.m ==> ItemSchema(s.m) == s.m[Items];
    hide Strict;
  }

  lemma {:induction false} CompleteArray(s: Json, v: Json, leaf: Meaning)
    requires InFragment(s) && AllNullable(s) && ItemsOk(s, v, leaf) && Tidy(v, s) && v.Arr?
    ensures ItemsOk(Strict(s), Fill(v, s), leaf)
    ensures Unnull(Fill(v, s), s) == v
    decreases v, 1
  {
    var f, item := Fill(v, s), ItemSchema(s.m);
    FillArray(v, s);
    UnnullArray(f, s);
    forall i | 0 <= i < |v.xs| ensures Valid(Strict(item), f.xs[i], leaf) && Unnull(f.xs[i], item) == v.xs[i] {
      CompleteItem(s, v, i, leaf);
    }
    hide Strict, Fill, Unnull, Shaped, Tidy, AllNullable;
    ItemsFilled(s, f, leaf);
    assert Unnull(f, s).xs == v.xs;
  }

  /**
   Where the rules cannot make an optional property nullable, an answer cannot leave it out: every answer
   the strict schema accepts still carries the key once decoded.
   */
  lemma OptionalKept(s: Json, k: Word, w: Json, leaf: Meaning)
    requires InFragment(s) && k in PropsOf(s.m) && k !in RequiredOf(s.m) && !CanNull(PropsOf(s.m)[k])
    requires w.Obj? && Valid(Strict(s), w, leaf)
    ensures k in Unnull(w, s).m
  {
    assert s.Obj? && Closes(s.m) && InFragment(PropsOf(s.m)[k]);
    hide Strict, InFragment, Unnull, CanNull, Valid;
    StrictHasRequired(s, w, k, leaf);
    OptionalHeld(s, k, w, leaf);
    CanNullExact(PropsOf(s.m)[k], leaf);
    UnnullKeys(w, s, k);
  }

  /** The compiled schema holds an optional property to its nullable form. */
  lemma OptionalHeld(s: Json, k: Word, w: Json, leaf: Meaning)
    requires InFragment(s) && k in PropsOf(s.m) && k !in RequiredOf(s.m) && Closes(s.m)
    requires w.Obj? && Valid(Strict(s), w, leaf) && k in w.m
    ensures Valid(Nullable(Strict(PropsOf(s.m)[k])), w.m[k], leaf)
  {
    StrictCloses(s);
    StrictProps(s);
    hide Strict, InFragment, Nullable;
    assert Valid(PropsOf(Strict(s).m)[k], w.m[k], leaf);
  }
}
