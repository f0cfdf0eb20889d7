/**
 What the compiled schema looks like, keyword by keyword (`strict_schema`, src/dispatch.py): which keywords
 survive, and what closing an object does to each of them.
 */
module StrictShape {
  import opened Json
  import opened StrictSchema

  lemma StrictPlain(arg: Json)
    requires arg.Scalar() || Scalars(arg)
    ensures Strict(arg) == arg
  {
    if arg.Arr? { assert Strict(arg).xs == arg.xs; }
  }

  /** Merging and closing leave every keyword but the object ones and the alternatives alone. */
  lemma CloseFrame(fields: map<Word, Json>, req: set<Word>, k: Word)
    requires !k.AnyOf? && !k.OneOf? && !k.Properties? && !k.Required? && !k.AdditionalProperties?
    ensures k in Close(MergeAlternatives(fields), req) <==> k in fields
    ensures k in fields ==> Close(MergeAlternatives(fields), req)[k] == fields[k]
  {}

  lemma CloseProps(fields: map<Word, Json>, req: set<Word>)
    ensures Closes(Close(MergeAlternatives(fields), req)) <==> Closes(fields)
    ensures PropsOf(Close(MergeAlternatives(fields), req)) == NullableProps(PropsOf(fields), req)
  {}

  lemma StrictIs(s: Json)
    requires s.Obj?
    ensures Strict(s) == Obj(Close(MergeAlternatives(StrictFields(s)), RequiredOf(s.m)))
  {}

  lemma StrictFieldPlain(s: Json, k: Word)
    requires s.Obj? && !NameMap(k)
    ensures k in StrictFields(s) <==> k in s.m && !Dropped(k)
    ensures k in StrictFields(s) ==> StrictFields(s)[k] == Strict(s.m[k])
  {}

  /** Every keyword but the object ones and the alternatives survives, rewritten in itself, and none is added. */
  lemma StrictKeeps(s: Json, k: Word)
    requires s.Obj? && !NameMap(k) && !k.AnyOf? && !k.OneOf? && !k.Required? && !k.AdditionalProperties?
    ensures k in Strict(s).m <==> k in s.m && !Dropped(k)
    ensures k in Strict(s).m ==> Strict(s).m[k] == Strict(s.m[k])
  {
    StrictIs(s);
    StrictFieldPlain(s, k);
    CloseFrame(StrictFields(s), RequiredOf(s.m), k);
  }

  lemma StrictCloses(s: Json)
    requires Shaped(s)
    ensures Closes(s.m) <==> Closes(Strict(s).m)
  {
    StrictIs(s);
    CloseProps(StrictFields(s), RequiredOf(s.m));
    StrictFieldPlain(s, Type);
    if Type in s.m { StrictPlain(s.m[Type]); }
  }

  lemma StrictProps(s: Json)
    requires s.Obj?
    ensures PropsOf(Strict(s).m) ==
            map k | k in PropsOf(s.m) ::
              if k in RequiredOf(s.m) then Strict(PropsOf(s.m)[k]) else Nullable(Strict(PropsOf(s.m)[k]))
  {
    StrictIs(s);
    CloseProps(StrictFields(s), RequiredOf(s.m));
  }

  lemma CloseRequired(fields: map<Word, Json>, req: set<Word>)
    ensures var c := Close(MergeAlternatives(fields), req);
            Closes(c) ==>
              && Properties in c && c[Properties].Obj?
              && Required in c && Lists(c[Required], PropsOf(c).Keys)
              && AdditionalProperties in c && c[AdditionalProperties] == Bool(false)
  {
    var o := MergeAlternatives(fields);
    CloseProps(fields, req);
    if Closes(o) {
      assert PropsOf(o).Keys == NullableProps(PropsOf(o), req).Keys;
      ListingExists(PropsOf(o).Keys);
    }
  }

  lemma StrictRequired(s: Json)
    requires s.Obj?
    ensures Closes(Strict(s).m) ==>
              && Properties in Strict(s).m && Strict(s).m[Properties].Obj?
              && Required in Strict(s).m && Lists(Strict(s).m[Required], PropsOf(Strict(s).m).Keys)
              && AdditionalProperties in Strict(s).m && Strict(s).m[AdditionalProperties] == Bool(false)
  {
    hide Lists, NullableProps;
    StrictIs(s);
    CloseRequired(StrictFields(s), RequiredOf(s.m));
    hide Strict, StrictFields, Close;
  }

  lemma CloseOpen(fields: map<Word, Json>, req: set<Word>, k: Word)
    requires !Closes(fields) && !k.AnyOf? && !k.OneOf?
    ensures var c := Close(MergeAlternatives(fields), req);
            (k in c <==> k in fields) && (k in c ==> c[k] == fields[k])
  {}

  lemma CloseNothing(fields: map<Word, Json>, req: set<Word>)
    requires !Closes(fields) && AnyOf !in fields && OneOf !in fields
    ensures Close(MergeAlternatives(fields), req) == fields
  {}

  lemma StrictOpen(s: Json, k: Word)
    requires Shaped(s) && !Closes(s.m) && (k.Required? || k.AdditionalProperties?)
    ensures k in Strict(s).m <==> k in s.m
    ensures k in s.m ==> Strict(s).m[k] == s.m[k]
  {
    StrictIs(s);
    StrictCloses(s);
    CloseProps(StrictFields(s), RequiredOf(s.m));
    StrictFieldPlain(s, k);
    CloseOpen(StrictFields(s), RequiredOf(s.m), k);
    if k in s.m { StrictPlain(s.m[k]); }
    hide Strict, StrictFields, Close, MergeAlternatives;
  }

  lemma CloseAnyOf(fields: map<Word, Json>, req: set<Word>)
    requires OneOf !in fields && (AnyOf in fields ==> fields[AnyOf].Arr?)
    ensures var c := Close(MergeAlternatives(fields), req);
            (AnyOf in c <==> AnyOf in fields) && (AnyOf in c ==> c[AnyOf] == fields[AnyOf])
  {
    assert ItemsOf(fields, AnyOf) + [] == ItemsOf(fields, AnyOf);
  }

  lemma StrictAnyOf(s: Json)
    requires Shaped(s)
    ensures AnyOf in Strict(s).m <==> AnyOf in s.m
    ensures AnyOf in s.m ==> Strict(s).m[AnyOf] == Strict(s.m[AnyOf])
  {
    StrictIs(s);
    StrictFieldPlain(s, AnyOf);
    StrictFieldPlain(s, OneOf);
    CloseAnyOf(StrictFields(s), RequiredOf(s.m));
    hide StrictFields, Close, MergeAlternatives;
  }
}
