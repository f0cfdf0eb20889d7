/** Compiling twice, and decoding twice, is doing it once (src/dispatch.py). */
module StrictTwice {
  import opened Json
  import opened StrictSchema
  import opened StrictShape
  import opened StrictSound

  lemma {:induction false} UnnullIdempotent(v: Json, s: Json)
    ensures Unnull(Unnull(v, s), s) == Unnull(v, s)
    decreases v
  {
    var u := Unnull(v, s);
    UnnullKind(v, s);
    UnnullKind(u, s);
    if s.Obj? && v.Obj? {
      forall k
        ensures k in Unnull(u, s).m <==> k in u.m
        ensures k in u.m ==> Unnull(u, s).m[k] == u.m[k]
      {
        UnnullKeys(v, s, k);
        UnnullKeys(u, s, k);
        if k in u.m {
          UnnullKind(v.m[k], PropSchema(s.m, k));
          UnnullIdempotent(v.m[k], PropSchema(s.m, k));
        }
        hide Unnull;
      }
      assert Unnull(u, s).m == u.m;
    } else if s.Obj? && v.Arr? {
      UnnullArray(v, s);
      UnnullArray(u, s);
      hide Unnull;
      forall i | 0 <= i < |v.xs| ensures Unnull(u, s).xs[i] == u.xs[i] { UnnullIdempotent(v.xs[i], ItemSchema(s.m)); }
      assert Unnull(u, s).xs == u.xs;
    }
  }

  /** Compiling leaves every part of such a dict as it is. */
  ghost predicate Settled(m: map<Word, Json>) {
    && (forall k | k in m :: !Dropped(k) && !k.OneOf?)
    && (forall k | k in m && !(NameMap(k) && m[k].Obj?) :: Strict(m[k]) == m[k])
    && (forall k | k in m && NameMap(k) && m[k].Obj? :: forall n | n in m[k].m :: Strict(m[k].m[n]) == m[k].m[n])
    && SettledShape(m)
  }

  ghost predicate SettledShape(m: map<Word, Json>) {
    && (AnyOf in m ==> m[AnyOf].Arr?)
    && (Closes(m) ==>
          && Properties in m && m[Properties].Obj?
          && Required in m && m[Required] == NameList(PropsOf(m).Keys)
          && AdditionalProperties in m && m[AdditionalProperties] == Bool(false))
  }

  lemma SettledFields(m: map<Word, Json>)
    requires Settled(m)
    ensures StrictFields(Obj(m)) == m
  {
    forall k | k in m ensures StrictFields(Obj(m))[k] == m[k] {
      if NameMap(k) && m[k].Obj? {
        assert StrictFields(Obj(m))[k].m == m[k].m;
      }
    }
  }

  lemma NameListRequired(names: set<Word>, m: map<Word, Json>)
    requires Required in m && m[Required] == NameList(names)
    ensures RequiredOf(m) == names
  {
    ListingExists(names);
    assert Lists(m[Required], names);
  }

  lemma SettledClose(m: map<Word, Json>)
    requires Settled(m)
    ensures Close(MergeAlternatives(m), RequiredOf(m)) == m
  {
    hide Strict, NameList, MergeAlternatives, NullableProps, PropsOf, RequiredOf;
    MergeNothing(m);
    if Closes(m) {
      SettledParts(m);
      NameListRequired(PropsOf(m).Keys, m);
      NullableNone(PropsOf(m));
    }
  }

  lemma SettledParts(m: map<Word, Json>)
    requires Settled(m) && Closes(m)
    ensures Properties in m && m[Properties] == Obj(PropsOf(m))
    ensures Required in m && m[Required] == NameList(PropsOf(m).Keys)
    ensures AdditionalProperties in m && m[AdditionalProperties] == Bool(false)
  { hide Strict, NameList; }

  lemma NullableNone(props: map<Word, Json>)
    ensures NullableProps(props, props.Keys) == props
  { hide Nullable; }

  lemma MergeNothing(m: map<Word, Json>)
    requires Settled(m)
    ensures MergeAlternatives(m) == m
  {
    assert OneOf !in m && (AnyOf in m ==> m[AnyOf].Arr?);
    hide Strict, NameList;
    assert ItemsOf(m, AnyOf) + [] == ItemsOf(m, AnyOf);
  }

  lemma SettledStrict(m: map<Word, Json>)
    requires Settled(m)
    ensures Strict(Obj(m)) == Obj(m)
  {
    SettledFields(m);
    SettledClose(m);
    StrictIs(Obj(m));
    hide Strict, StrictFields, Close, MergeAlternatives;
  }

  lemma StrictItems(xs: seq<Json>)
    requires forall x | x in xs :: Strict(x) == x
    ensures Strict(Arr(xs)) == Arr(xs)
  {
    assert Strict(Arr(xs)).xs == xs;
  }

  lemma StrictItemsEach(xs: seq<Json>)
    requires Strict(Arr(xs)) == Arr(xs)
    ensures forall x | x in xs :: Strict(x) == x
  {
    forall i | 0 <= i < |xs| ensures Strict(xs[i]) == xs[i] { assert Strict(Arr(xs)).xs[i] == Strict(xs[i]); }
  }

  lemma NullSchemaSettled()
    ensures Strict(NULL_SCHEMA) == NULL_SCHEMA
  {
    SettledStrict(NULL_SCHEMA.m);
  }

  lemma NullableSettledAnyOf(m: map<Word, Json>)
    requires Settled(m) && AnyOf in m
    ensures var q := Nullable(Obj(m)).m; AnyOf in q && Strict(q[AnyOf]) == q[AnyOf]
  {
    var q := Nullable(Obj(m)).m;
    StrictItemsEach(m[AnyOf].xs);
    NullSchemaSettled();
    hide Strict;
    StrictItems(q[AnyOf].xs);
  }

  lemma NullableSettledKey(m: map<Word, Json>, k: Word)
    requires Settled(m) && k in m && !NameMap(k)
    ensures var q := Nullable(Obj(m)).m; k in q && Strict(q[k]) == q[k]
  {
    var q := Nullable(Obj(m)).m;
    if k.AnyOf? {
      NullableSettledAnyOf(m);
    } else if k.Type? && m[Type].Arr? {
      StrictItemsEach(m[Type].xs);
      StrictItems(q[Type].xs);
    } else if k.Type? && q[Type].Arr? {
      StrictItems(q[Type].xs);
    } else if k.Enum? {
      if m[Enum].Arr? { StrictItemsEach(m[Enum].xs); }
      if q[Enum].Arr? { StrictItems(q[Enum].xs); }
    }
    hide Strict;
  }

  lemma NullableSettled(m: map<Word, Json>)
    requires Settled(m)
    ensures Settled(Nullable(Obj(m)).m)
  {
    var q := Nullable(Obj(m)).m;
    forall k
      ensures k in q <==> k in m
      ensures k in q && NameMap(k) ==> q[k] == m[k]
      ensures k in q && !NameMap(k) ==> Strict(q[k]) == q[k]
    {
      NullableFrame(Obj(m), k);
      if k in q && !NameMap(k) { NullableSettledKey(m, k); }
      hide Strict, Nullable;
    }
    NullableFrame(Obj(m), Required);
    NullableFrame(Obj(m), AdditionalProperties);
    NullableFrame(Obj(m), Properties);
    assert AnyOf in q ==> q[AnyOf].Arr?;
    assert Closes(q) ==> Closes(m);
    hide Strict, Nullable, NameList;
  }

  /** What closing an object does to properties that are each settled already. */
  lemma NullablePropsSettled(props: map<Word, Json>, req: set<Word>)
    requires forall k | k in props :: Strict(props[k]) == props[k] && (props[k].Obj? ==> Settled(props[k].m))
    ensures forall k | k in NullableProps(props, req) :: Strict(NullableProps(props, req)[k]) == NullableProps(props, req)[k]
  {
    forall k | k in props
      ensures Strict(Nullable(props[k])) == Nullable(props[k])
    {
      if props[k].Obj? {
        NullableFrame(props[k], k);
        NullableSettled(props[k].m);
        SettledStrict(Nullable(props[k]).m);
        hide Nullable, Strict, Settled;
      }
    }
    hide Nullable, Strict, Settled;
  }

  /** The rewritten keywords of a schema, before its alternatives are merged and it is closed. */
  ghost predicate FieldsSettled(o: map<Word, Json>) {
    && (forall k | k in o :: !Dropped(k))
    && (forall k | k in o && !(NameMap(k) && o[k].Obj?) :: Strict(o[k]) == o[k])
    && (forall k | k in o && NameMap(k) && o[k].Obj? :: forall n | n in o[k].m ::
          Strict(o[k].m[n]) == o[k].m[n] && (o[k].m[n].Obj? ==> Settled(o[k].m[n].m)))
  }

  lemma MergeSettled(o: map<Word, Json>)
    requires FieldsSettled(o)
    ensures FieldsSettled(MergeAlternatives(o))
    ensures OneOf !in MergeAlternatives(o)
    ensures AnyOf in MergeAlternatives(o) ==> MergeAlternatives(o)[AnyOf].Arr?
  {
    var c := MergeAlternatives(o);
    if AnyOf in c {
      if AnyOf in o && o[AnyOf].Arr? { StrictItemsEach(o[AnyOf].xs); }
      if OneOf in o && o[OneOf].Arr? { StrictItemsEach(o[OneOf].xs); }
      StrictItems(c[AnyOf].xs);
    }
    hide Strict, Settled;
  }

  lemma NameListSettled(names: set<Word>)
    ensures Strict(NameList(names)) == NameList(names)
  {
    ListingExists(names);
    assert Lists(NameList(names), names);
    hide NameList;
    StrictPlain(NameList(names));
  }

  lemma CloseSettledKey(o: map<Word, Json>, req: set<Word>, k: Word)
    requires FieldsSettled(o) && k in Close(o, req)
    ensures var c := Close(o, req);
            if NameMap(k) && c[k].Obj? then forall n | n in c[k].m :: Strict(c[k].m[n]) == c[k].m[n]
            else Strict(c[k]) == c[k]
  {
    NameListSettled(PropsOf(o).Keys);
    StrictPlain(Bool(false));
    NullablePropsSettled(PropsOf(o), req);
    hide Strict, NameList, Nullable, NullableProps;
  }

  lemma CloseShape(o: map<Word, Json>, req: set<Word>)
    requires AnyOf in o ==> o[AnyOf].Arr?
    ensures SettledShape(Close(o, req))
    ensures forall k | k in Close(o, req) :: k in o || (!Dropped(k) && !k.OneOf?)
  {
    assert Closes(o) ==> PropsOf(Close(o, req)).Keys == PropsOf(o).Keys;
    hide NameList, Nullable;
  }

  lemma NoneDropped(o: map<Word, Json>)
    requires FieldsSettled(o)
    ensures forall k | k in o :: !Dropped(k)
  {}

  lemma CloseSettled(o: map<Word, Json>, req: set<Word>)
    requires FieldsSettled(o) && OneOf !in o && (AnyOf in o ==> o[AnyOf].Arr?)
    ensures Settled(Close(o, req))
  {
    hide Strict, Close, FieldsSettled, SettledShape;
    NoneDropped(o);
    CloseShape(o, req);
    var c := Close(o, req);
    forall k | k in c
      ensures if NameMap(k) && c[k].Obj? then forall n | n in c[k].m :: Strict(c[k].m[n]) == c[k].m[n]
              else Strict(c[k]) == c[k]
    {
      CloseSettledKey(o, req, k);
    }
  }

  lemma StrictKind(s: Json)
    ensures Strict(s).Obj? <==> s.Obj?
  {}

  lemma {:induction false} FieldsOfStrict(s: Json)
    requires s.Obj?
    ensures FieldsSettled(StrictFields(s))
    decreases s, 0
  {
    var o := StrictFields(s);
    forall k | k in o && !(NameMap(k) && o[k].Obj?) ensures Strict(o[k]) == o[k] {
      assert o[k] == Strict(s.m[k]);
      hide Strict;
      StrictSettled(s.m[k]);
    }
    forall k, n | k in o && NameMap(k) && o[k].Obj? && n in o[k].m
      ensures Strict(o[k].m[n]) == o[k].m[n] && (o[k].m[n].Obj? ==> Settled(o[k].m[n].m))
    {
      StrictKind(s.m[k]);
      assert s.m[k].Obj? && o[k].m[n] == Strict(s.m[k].m[n]);
      hide Strict;
      StrictSettled(s.m[k].m[n]);
    }
  }

  lemma {:induction false} StrictSettled(s: Json)
    ensures Strict(Strict(s)) == Strict(s)
    ensures Strict(s).Obj? ==> s.Obj? && Settled(Strict(s).m)
    decreases s, 1
  {
    if s.Obj? {
      FieldsOfStrict(s);
      MergeSettled(StrictFields(s));
      CloseSettled(MergeAlternatives(StrictFields(s)), RequiredOf(s.m));
      StrictIs(s);
      hide Strict, StrictFields, Settled, Close, MergeAlternatives;
      SettledStrict(Strict(s).m);
    } else if s.Arr? {
      forall x | x in Strict(s).xs ensures Strict(x) == x {
        var i :| 0 <= i < |s.xs| && Strict(s).xs[i] == x;
        assert x == Strict(s.xs[i]);
        hide Strict;
        StrictSettled(s.xs[i]);
      }
      StrictItems(Strict(s).xs);
    }
  }

  /** Compiling a schema twice is compiling it once; no `requires` here: this holds of any JSON value. */
  lemma StrictIdempotent(s: Json)
    ensures Strict(Strict(s)) == Strict(s)
  {
    StrictSettled(s);
  }

  /** Every property name survives, even one spelt like a refused keyword, and nothing else is declared. */
  lemma PropertyNamesSurvive(s: Json)
    requires s.Obj? && Properties in s.m && s.m[Properties].Obj?
    ensures Properties in Strict(s).m && Strict(s).m[Properties].Obj?
    ensures Strict(s).m[Properties].m.Keys == s.m[Properties].m.Keys
  {
    StrictProps(s);
    StrictIs(s);
    CloseRequired(StrictFields(s), RequiredOf(s.m));
    CloseProps(StrictFields(s), RequiredOf(s.m));
    assert Closes(StrictFields(s));
    hide Strict, StrictFields, Close, MergeAlternatives;
  }
}
