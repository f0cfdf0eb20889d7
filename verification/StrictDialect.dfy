/** What every compiled schema is, and what it keeps of the original (`strict_schema`, src/dispatch.py). */
module StrictDialect {
  // Both are said of any JSON value, at every depth, in the words of the provider's dialect and not of the compiler.

  import opened Json
  import opened StrictSchema
  import opened StrictShape

  /** An object schema, before or after compilation. */
  predicate ObjectSchema(m: map<Word, Json>) {
    (Properties in m && m[Properties].Obj?) || (Type in m && m[Type] == Str(Named(TObject)))
  }

  /** `required` lists the properties, each once, and no others are allowed. */
  ghost predicate ClosedOver(m: map<Word, Json>) {
    && Properties in m && m[Properties].Obj?
    && Required in m && m[Required].Arr? && |m[Required].xs| == |m[Properties].m|
    && (forall w :: w in m[Properties].m <==> Str(w) in m[Required].xs)
    && AdditionalProperties in m && m[AdditionalProperties] == Bool(false)
  }

  predicate MapsNames(k: Word) { k == Properties || k == Defs || k == Definitions }

  /** A schema of the strict dialect: at every depth no refused keyword and no `oneOf`, names of properties and
      definitions apart, and every object schema closed. */
  ghost predicate Dialect(s: Json)
    decreases s
  {
    match s
    case Arr(xs) => forall i | 0 <= i < |xs| :: Dialect(xs[i])
    case Obj(m) =>
      && (forall k | k in m :: !k.Refused? && k != OneOf)
      && (ObjectSchema(m) ==> ClosedOver(m))
      && (forall k | k in m && !(MapsNames(k) && m[k].Obj?) :: Dialect(m[k]))
      && (forall k | k in m && MapsNames(k) && m[k].Obj? :: forall n | n in m[k].m :: Dialect(m[k].m[n]))
    case _ => true
  }

  // ---------------------------------------------------------------- compiled schemas are of the dialect

  lemma PlainDialect(arg: Json)
    requires arg.Scalar() || Scalars(arg)
    ensures Dialect(arg)
  {}

  lemma DialectPush(xs: seq<Json>, x: Json)
    requires Dialect(Arr(xs)) && Dialect(x)
    ensures Dialect(Arr(xs + [x]))
  {
    forall i | 0 <= i < |xs| + 1 ensures Dialect((xs + [x])[i]) { if i < |xs| { assert Dialect(Arr(xs).xs[i]); } }
  }

  lemma DialectJoin(xs: seq<Json>, ys: seq<Json>)
    requires Dialect(Arr(xs)) && Dialect(Arr(ys))
    ensures Dialect(Arr(xs + ys))
  {
    forall i | 0 <= i < |xs| + |ys| ensures Dialect((xs + ys)[i]) {
      if i < |xs| { assert Dialect(Arr(xs).xs[i]); } else { assert Dialect(Arr(ys).xs[i - |xs|]); }
    }
  }

  lemma NullDialect()
    ensures Dialect(NULL_SCHEMA)
  { assert NULL_SCHEMA.m.Keys == {Type}; }

  /** What making a schema nullable may do to its `type`. */
  predicate NullType(x: Json, y: Json) {
    || y == x
    || (x.Str? && y == Arr([x, Str(Named(TNull))]))
    || (x.Arr? && Str(Named(TNull)) !in x.xs && y == Arr(x.xs + [Str(Named(TNull))]))
  }

  lemma NullableFields(m: map<Word, Json>, k: Word)
    ensures Nullable(Obj(m)).Obj?
    ensures var q := Nullable(Obj(m)).m;
      && (k in q <==> k in m) && (k in m && k != Type && k != AnyOf && k != Enum ==> q[k] == m[k])
      && (Type in m ==> NullType(m[Type], q[Type]))
      && (Type in m && AnyOf in m ==> q[Type] == m[Type])
      && (AnyOf in m ==> q[AnyOf] == Arr(ItemsOf(m, AnyOf) + [NULL_SCHEMA]))
      && (Enum in m ==> q[Enum] == m[Enum] || (Null !in ItemsOf(m, Enum) && q[Enum] == Arr(ItemsOf(m, Enum) + [Null])))
  {}

  lemma ItemsDialect(m: map<Word, Json>, k: Word)
    requires k in m ==> Dialect(m[k])
    ensures Dialect(Arr(ItemsOf(m, k)))
  {}

  lemma NullableDialectKey(m: map<Word, Json>, k: Word)
    requires Dialect(Obj(m)) && k in m && !MapsNames(k)
    ensures Dialect(Nullable(Obj(m)).m[k])
  {
    hide Nullable;
    NullableFields(m, k);
    assert Dialect(m[k]);
    ItemsDialect(m, k);
    NullDialect();
    PlainDialect(Str(Named(TNull))); PlainDialect(Null);
    if k == AnyOf { DialectPush(ItemsOf(m, AnyOf), NULL_SCHEMA); }
    else if k == Enum { DialectPush(ItemsOf(m, Enum), Null); }
    else if k == Type {
      if m[Type].Arr? { DialectPush(m[Type].xs, Str(Named(TNull))); }
      DialectPair(m[Type], Str(Named(TNull)));
    }
  }

  lemma DialectPair(x: Json, y: Json)
    requires Dialect(x) && Dialect(y)
    ensures Dialect(Arr([x, y]))
  {}

  /** The values of such a schema's keywords. */
  ghost predicate ValuesDialect(m: map<Word, Json>) {
    && (forall k | k in m && !(MapsNames(k) && m[k].Obj?) :: Dialect(m[k]))
    && (forall k | k in m && MapsNames(k) && m[k].Obj? :: forall n | n in m[k].m :: Dialect(m[k].m[n]))
  }

  lemma DialectIs(m: map<Word, Json>)
    ensures Dialect(Obj(m)) <==>
      (forall k | k in m :: !k.Refused? && k != OneOf) && (ObjectSchema(m) ==> ClosedOver(m)) && ValuesDialect(m)
  { hide ObjectSchema, ClosedOver; }

  lemma NullableCloses(m: map<Word, Json>)
    requires ObjectSchema(m) ==> ClosedOver(m)
    ensures var q := Nullable(Obj(m)).m; ObjectSchema(q) ==> ClosedOver(q)
  {
    hide Nullable;
    NullableFields(m, Properties); NullableFields(m, Required); NullableFields(m, AdditionalProperties);
    NullableFields(m, Type);
  }

  lemma NullableDialect(p: Json)
    requires Dialect(p)
    ensures Dialect(Nullable(p))
  {
    hide Nullable, Dialect;
    if p.Obj? {
      NullableIsObject(p);
      assert p == Obj(p.m) && Nullable(p) == Obj(Nullable(p).m);
      DialectIs(p.m);
      NullableCloses(p.m);
      NullableValues(p.m);
      hide ObjectSchema, ClosedOver, ValuesDialect;
      DialectIs(Nullable(p).m);
    } else { NullableScalar(p); }
  }

  lemma NullableValues(m: map<Word, Json>)
    requires Dialect(Obj(m)) && ValuesDialect(m)
    ensures var q := Nullable(Obj(m)).m; q.Keys == m.Keys && ValuesDialect(q)
  {
    hide Nullable, Dialect;
    NullableIsObject(Obj(m));
    var q := Nullable(Obj(m)).m;
    forall k ensures (k in q <==> k in m) && (k in q && MapsNames(k) ==> q[k] == m[k]) && (k in q && !MapsNames(k) ==> Dialect(q[k])) {
      NullableFields(m, k);
      if k in m && !MapsNames(k) { NullableDialectKey(m, k); }
    }
    hide MapsNames;
  }

  lemma NullableIsObject(p: Json)
    requires p.Obj?
    ensures Nullable(p).Obj?
  {}

  lemma NullableScalar(p: Json)
    requires !p.Obj?
    ensures Nullable(p) == p
  {}

  lemma MergeDialect(o: map<Word, Json>)
    requires ValuesDialect(o) && forall k | k in o :: !k.Refused?
    ensures var c := MergeAlternatives(o); ValuesDialect(c) && forall k | k in c :: !k.Refused? && k != OneOf
  {
    ItemsDialect(o, AnyOf);
    ItemsDialect(o, OneOf);
    DialectJoin(ItemsOf(o, AnyOf), ItemsOf(o, OneOf));
    hide Dialect;
  }

  lemma NamesDialect(l: Json, names: set<Word>)
    requires Lists(l, names)
    ensures Dialect(l)
  { PlainDialect(l); }

  lemma CloseKeys(o: map<Word, Json>, req: set<Word>, k: Word)
    ensures var c := Close(o, req);
      if Closes(o) && (k == Properties || k == Required || k == AdditionalProperties) then
        k in c && c[k] == if k == Properties then Obj(NullableProps(PropsOf(o), req))
                          else if k == Required then NameList(PropsOf(o).Keys) else Bool(false)
      else (k in c <==> k in o) && (k in c ==> c[k] == o[k])
  { hide NullableProps, NameList; }

  lemma PropsDialect(o: map<Word, Json>, req: set<Word>)
    requires ValuesDialect(o)
    ensures forall n | n in NullableProps(PropsOf(o), req) :: Dialect(NullableProps(PropsOf(o), req)[n])
  {
    hide Nullable, Dialect;
    forall n | n in PropsOf(o) ensures Dialect(NullableProps(PropsOf(o), req)[n]) { NullableDialect(PropsOf(o)[n]); }
  }

  lemma CloseValues(o: map<Word, Json>, req: set<Word>)
    requires ValuesDialect(o)
    ensures ValuesDialect(Close(o, req))
  {
    var c := Close(o, req);
    PropsDialect(o, req);
    ListingExists(PropsOf(o).Keys);
    NamesDialect(NameList(PropsOf(o).Keys), PropsOf(o).Keys);
    PlainDialect(Bool(false));
    hide Close, NullableProps, NameList, Dialect, Lists, PropsOf, Closes;
    forall k | k in c && !(MapsNames(k) && c[k].Obj?) ensures Dialect(c[k]) { CloseKeys(o, req, k); }
    forall k, n | k in c && MapsNames(k) && c[k].Obj? && n in c[k].m ensures Dialect(c[k].m[n]) { CloseKeys(o, req, k); }
  }

  lemma CloseDialect(o: map<Word, Json>, req: set<Word>)
    requires ValuesDialect(o) && forall k | k in o :: !k.Refused? && k != OneOf
    ensures Dialect(Obj(Close(o, req)))
  {
    hide Close, ValuesDialect, Dialect, ClosedOver;
    var c := Close(o, req);
    CloseValues(o, req);
    forall k | k in c ensures !k.Refused? && k != OneOf { CloseKeys(o, req, k); }
    if Closes(o) { ClosesOver(o, req); }
    else { CloseKeys(o, req, Type); CloseKeys(o, req, Properties); }
    DialectIs(c);
  }

  lemma ClosesOver(o: map<Word, Json>, req: set<Word>)
    requires Closes(o)
    ensures ClosedOver(Close(o, req))
  {
    var props := PropsOf(o);
    ListingExists(props.Keys);
    assert NullableProps(props, req).Keys == props.Keys;
    assert |NullableProps(props, req)| == |NullableProps(props, req).Keys|;
    hide Nullable;
  }

  lemma StrictKinds(s: Json)
    ensures (Strict(s).Obj? <==> s.Obj?) && (Strict(s).Arr? <==> s.Arr?) && (s.Scalar() ==> Strict(s) == s)
    ensures s.Arr? ==> |Strict(s).xs| == |s.xs| && forall i | 0 <= i < |s.xs| :: Strict(s).xs[i] == Strict(s.xs[i])
  {}

  lemma {:induction false} FieldsDialect(s: Json)
    requires s.Obj?
    ensures ValuesDialect(StrictFields(s)) && forall k | k in StrictFields(s) :: !k.Refused?
    decreases s, 0
  {
    var m, o := s.m, StrictFields(s);
    forall k | k in o ensures k in m && !k.Refused? {}
    forall k | k in o && o[k].Obj? ensures m[k].Obj? { StrictKinds(m[k]); }
    hide Dialect;
    forall k | k in o && !(MapsNames(k) && o[k].Obj?) ensures Dialect(o[k]) { InDialect(m[k]); }
    forall k, n | k in o && MapsNames(k) && o[k].Obj? && n in o[k].m ensures Dialect(o[k].m[n]) { InDialect(m[k].m[n]); }
  }

  /** Whatever is compiled, the result is a schema of the strict dialect. */
  lemma {:induction false} InDialect(s: Json)
    ensures Dialect(Strict(s))
    decreases s, 1
  {
    match s
    case Arr(xs) => forall i | 0 <= i < |xs| ensures Dialect(Strict(xs[i])) { InDialect(xs[i]); }
    case Obj(m) =>
      hide Dialect, ValuesDialect, StrictFields, Close, MergeAlternatives;
      StrictIs(s);
      FieldsDialect(s);
      MergeDialect(StrictFields(s));
      CloseDialect(MergeAlternatives(StrictFields(s)), RequiredOf(m));
    case _ =>
  }

  // ---------------------------------------------------------------- nothing else is lost

  /** Where the alternatives under `k` stand among those compiled. */
  function Offset(m: map<Word, Json>, k: Word): nat { if k == OneOf then |ItemsOf(m, AnyOf)| else 0 }

  /** `t` has every keyword of `s` that is not refused, at every depth, with what stands under it, and no other but
      those that close an object: alternatives all under `anyOf`; null added at most, to a `type` or an `enum` that
      does not list it yet and to alternatives; `required` and `additionalProperties` rewritten where an object is closed. */
  ghost predicate Keeps(s: Json, t: Json)
    decreases s, 1
  {
    match s
    case Arr(xs) => t.Arr? && |xs| == |t.xs| && forall i | 0 <= i < |xs| :: Keeps(xs[i], t.xs[i])
    case Obj(_) => t.Obj? && KeepsKeys(s.m, t.m) && KeepsAlternatives(s, t.m) && KeepsNames(s, t.m) && KeepsArguments(s, t.m)
    case _ => t == s
  }

  predicate KeepsKeys(m: map<Word, Json>, t: map<Word, Json>) {
    && (forall k | k in m && !k.Refused? && k != OneOf :: k in t)
    && (forall k | k in t :: MayHave(m, k))
    && (AnyOf in m || OneOf in m ==> AnyOf in t && t[AnyOf].Arr?)
  }

  ghost predicate KeepsAlternatives(s: Json, t: map<Word, Json>)
    requires s.Obj? && KeepsKeys(s.m, t)
    decreases s, 0
  {
    && (forall k | k in s.m && (k == AnyOf || k == OneOf) && s.m[k].Arr? ::
          && Offset(s.m, k) + |s.m[k].xs| <= |t[AnyOf].xs|
          && forall i | 0 <= i < |s.m[k].xs| :: Keeps(s.m[k].xs[i], t[AnyOf].xs[Offset(s.m, k) + i]))
    && (AnyOf in s.m || OneOf in s.m ==> NullsFrom(|ItemsOf(s.m, AnyOf)| + |ItemsOf(s.m, OneOf)|, t[AnyOf].xs))
  }

  /** From the `n`th on, only null is an alternative. */
  predicate NullsFrom(n: nat, xs: seq<Json>) {
    n <= |xs| && forall i | n <= i < |xs| :: xs[i] == Obj(map[Type := Str(Named(TNull))])
  }

  ghost predicate KeepsNames(s: Json, t: map<Word, Json>)
    requires s.Obj? && KeepsKeys(s.m, t)
    decreases s, 0
  {
    forall k | k in s.m && MapsNames(k) && s.m[k].Obj? ::
      t[k].Obj? && t[k].m.Keys == s.m[k].m.Keys && forall n | n in s.m[k].m :: Keeps(s.m[k].m[n], t[k].m[n])
  }

  ghost predicate KeepsArguments(s: Json, t: map<Word, Json>)
    requires s.Obj? && KeepsKeys(s.m, t)
    decreases s, 0
  {
    && (Type in s.m ==> TypeKept(s.m[Type], t[Type]))
    && (Enum in s.m && s.m[Enum].Arr? ==> ListKept(s.m[Enum], t[Enum], Null))
    && (forall k | k in s.m && Verbatim(s.m, k) :: Keeps(s.m[k], t[k]))
  }

  /** The list stays, or null is added to it when it has none. */
  ghost predicate ListKept(x: Json, y: Json, nil: Json)
    requires x.Arr?
    decreases x, 0
  {
    && y.Arr? && |x.xs| <= |y.xs| && (forall i | 0 <= i < |x.xs| :: Keeps(x.xs[i], y.xs[i]))
    && (|y.xs| == |x.xs| || (nil !in x.xs && |y.xs| == |x.xs| + 1 && y.xs[|x.xs|] == nil))
  }

  /** A `type` stays, or null is added to the one, or to the list, it names. */
  ghost predicate TypeKept(x: Json, y: Json)
    decreases x, 2
  {
    if x.Arr? then ListKept(x, y, Str(Named(TNull))) else Keeps(x, y) || (x.Str? && y == Arr([x, Str(Named(TNull))]))
  }

  predicate MayHave(m: map<Word, Json>, k: Word) {
    k in m || (k == AnyOf && OneOf in m) ||
    (ObjectSchema(m) && (k == Properties || k == Required || k == AdditionalProperties))
  }

  /** Keywords whose argument is only compiled in itself. */
  predicate Verbatim(m: map<Word, Json>, k: Word) {
    && !k.Refused? && k != AnyOf && k != OneOf && k != Type && k != Enum && k != Properties
    && !(MapsNames(k) && k in m && m[k].Obj?)
    && !(ObjectSchema(m) && (k == Required || k == AdditionalProperties))
  }

  // ---------------------------------------------------------------- compiling keeps it all

  lemma CompiledKey(o: map<Word, Json>, req: set<Word>, k: Word)
    ensures var c := Close(MergeAlternatives(o), req);
      if k == AnyOf then
        (k in c <==> AnyOf in o || OneOf in o) && (k in c ==> c[k] == Arr(ItemsOf(o, AnyOf) + ItemsOf(o, OneOf)))
      else if k == OneOf then k !in c
      else if Closes(o) && (k == Properties || k == Required || k == AdditionalProperties) then
        k in c && (k == Properties ==> c[k] == Obj(NullableProps(PropsOf(o), req)))
      else (k in c <==> k in o) && (k in c ==> c[k] == o[k])
  {
    hide NullableProps, NameList;
    var a := MergeAlternatives(o);
    CloseKeys(a, req, k);
    assert PropsOf(a) == PropsOf(o) && (Closes(a) <==> Closes(o));
  }

  lemma FieldsAt(s: Json, k: Word)
    requires s.Obj?
    ensures var o := StrictFields(s);
      && (k in o <==> k in s.m && !k.Refused?)
      && (k in o && !(MapsNames(k) && s.m[k].Obj?) ==> o[k] == Strict(s.m[k]))
      && (k in o && MapsNames(k) && s.m[k].Obj? ==>
            o[k].Obj? && o[k].m.Keys == s.m[k].m.Keys && forall n | n in o[k].m :: o[k].m[n] == Strict(s.m[k].m[n]))
  {}

  lemma FieldsObject(s: Json)
    requires s.Obj?
    ensures Closes(StrictFields(s)) <==> ObjectSchema(s.m)
  {
    FieldsAt(s, Type); FieldsAt(s, Properties);
    if Type in s.m { StrictKinds(s.m[Type]); }
    if Properties in s.m { StrictKinds(s.m[Properties]); }
    hide Strict, StrictFields;
  }

  /** The compiled argument of each keyword, in terms of the original's. */
  lemma ArgumentOf(s: Json, k: Word)
    requires s.Obj?
    ensures Strict(s).Obj?
    ensures k in s.m && !k.Refused? && k != OneOf ==> k in Strict(s).m
    ensures k in Strict(s).m ==> MayHave(s.m, k)
    ensures k in s.m && (Verbatim(s.m, k) || k == Type || k == Enum) ==> Strict(s).m[k] == Strict(s.m[k])
  {
    hide Strict, StrictFields, Close, MergeAlternatives, NullableProps;
    StrictIs(s);
    FieldsObject(s);
    FieldsAt(s, k); FieldsAt(s, AnyOf); FieldsAt(s, OneOf);
    CompiledKey(StrictFields(s), RequiredOf(s.m), k);
  }

  lemma KeepsKind(x: Json, y: Json)
    requires Keeps(x, y)
    ensures y.Arr? <==> x.Arr?
    ensures y.Str? || x.Scalar() ==> x == y
  {}

  lemma ListPush(x: Json, ys: seq<Json>, nil: Json)
    requires x.Arr? && ListKept(x, Arr(ys), nil) && nil !in ys && nil.Scalar()
    ensures ListKept(x, Arr(ys + [nil]), nil)
  {
    hide Keeps;
    assert |ys| == |x.xs|;
    if i :| 0 <= i < |x.xs| && x.xs[i] == nil { KeepsKind(x.xs[i], ys[i]); }
    forall i | 0 <= i < |x.xs| ensures Keeps(x.xs[i], (ys + [nil])[i]) { assert (ys + [nil])[i] == Arr(ys).xs[i]; }
  }

  lemma NullableType(x: Json, m: map<Word, Json>)
    requires Type in m && TypeKept(x, m[Type])
    ensures var q := Nullable(Obj(m)).m; Type in q && TypeKept(x, q[Type])
  {
    hide Nullable, Keeps, ListKept;
    NullableFields(m, Type);
    var q := Nullable(Obj(m)).m;
    if q[Type] != m[Type] {
      ListIsList(x, m[Type], Str(Named(TNull)));
      if x.Arr? { ListPush(x, m[Type].xs, Str(Named(TNull))); }
      else if Keeps(x, m[Type]) { KeepsKind(x, m[Type]); }
    }
  }

  lemma ListIsList(x: Json, y: Json, nil: Json)
    ensures x.Arr? && ListKept(x, y, nil) ==> y.Arr?
  {}

  lemma NullableEnum(x: Json, m: map<Word, Json>)
    requires Enum in m && x.Arr? && ListKept(x, m[Enum], Null)
    ensures ListKept(x, Nullable(Obj(m)).m[Enum], Null)
  {
    hide Nullable, Keeps;
    NullableFields(m, Enum);
    if Nullable(Obj(m)).m[Enum] != m[Enum] { ListPush(x, m[Enum].xs, Null); }
  }

  lemma KeepsList(x: Json, y: Json, nil: Json)
    requires x.Arr? && Keeps(x, y)
    ensures ListKept(x, y, nil)
  {}

  lemma NullableKeys(m: map<Word, Json>, t: map<Word, Json>)
    requires KeepsKeys(m, t)
    ensures KeepsKeys(m, Nullable(Obj(t)).m)
  {
    forall k ensures k in Nullable(Obj(t)).m <==> k in t { NullableFields(t, k); }
    NullableFields(t, AnyOf);
    hide Nullable, MayHave;
  }

  lemma NullableAlternatives(s: Json, t: map<Word, Json>)
    requires s.Obj? && KeepsKeys(s.m, t) && KeepsAlternatives(s, t)
    ensures KeepsKeys(s.m, Nullable(Obj(t)).m) && KeepsAlternatives(s, Nullable(Obj(t)).m)
  {
    NullableKeys(s.m, t);
    NullableFields(t, AnyOf);
    if AnyOf in s.m || OneOf in s.m { NullableAnyOf(t); }
    hide Nullable, Keeps, MayHave;
    var q := Nullable(Obj(t)).m;
    forall k, i | k in s.m && (k == AnyOf || k == OneOf) && s.m[k].Arr? && 0 <= i < |s.m[k].xs|
      ensures Keeps(s.m[k].xs[i], q[AnyOf].xs[Offset(s.m, k) + i])
    { assert q[AnyOf].xs[Offset(s.m, k) + i] == t[AnyOf].xs[Offset(s.m, k) + i]; }
  }

  lemma NullableAnyOf(t: map<Word, Json>)
    requires AnyOf in t && t[AnyOf].Arr?
    ensures Nullable(Obj(t)).m[AnyOf].Arr?
    ensures forall n: nat | NullsFrom(n, t[AnyOf].xs) :: NullsFrom(n, Nullable(Obj(t)).m[AnyOf].xs)
  {
    NullableFields(t, AnyOf);
    hide Nullable;
  }

  lemma NullableNames(s: Json, t: map<Word, Json>)
    requires s.Obj? && KeepsKeys(s.m, t) && KeepsNames(s, t)
    ensures KeepsKeys(s.m, Nullable(Obj(t)).m) && KeepsNames(s, Nullable(Obj(t)).m)
  {
    NullableKeys(s.m, t);
    forall k | k in t && MapsNames(k) ensures Nullable(Obj(t)).m[k] == t[k] { NullableFields(t, k); }
    hide Nullable, Keeps, MayHave;
  }

  lemma NullableArguments(s: Json, t: map<Word, Json>)
    requires s.Obj? && KeepsKeys(s.m, t) && KeepsArguments(s, t)
    ensures KeepsKeys(s.m, Nullable(Obj(t)).m) && KeepsArguments(s, Nullable(Obj(t)).m)
  {
    NullableKeys(s.m, t);
    hide Nullable, Keeps, MayHave, TypeKept;
    if Type in s.m { NullableType(s.m[Type], t); }
    if Enum in s.m && s.m[Enum].Arr? { NullableEnum(s.m[Enum], t); }
    forall k | k in s.m && Verbatim(s.m, k) ensures Nullable(Obj(t)).m[k] == t[k] { NullableFields(t, k); }
  }

  lemma NullableKeeps(s: Json, t: Json)
    requires Keeps(s, t)
    ensures Keeps(s, Nullable(t))
  {
    if t.Obj? {
      hide Nullable, KeepsKeys, KeepsAlternatives, KeepsNames, KeepsArguments;
      NullableIsObject(t);
      assert s.Obj? && t == Obj(t.m);
      NullableAlternatives(s, t.m);
      NullableNames(s, t.m);
      NullableArguments(s, t.m);
    } else { NullableScalar(t); }
  }

  lemma CompiledKeys(s: Json)
    requires s.Obj?
    ensures Strict(s).Obj? && KeepsKeys(s.m, Strict(s).m)
  {
    hide Strict, MayHave;
    ArgumentOf(s, AnyOf);
    forall k ensures (k in s.m && !k.Refused? && k != OneOf ==> k in Strict(s).m) && (k in Strict(s).m ==> MayHave(s.m, k)) {
      ArgumentOf(s, k);
    }
    CompiledAnyOf(s);
  }

  lemma CompiledAnyOf(s: Json)
    requires s.Obj?
    ensures Strict(s).Obj?
    ensures AnyOf in s.m || OneOf in s.m ==>
      AnyOf in Strict(s).m && Strict(s).m[AnyOf] == Arr(ItemsOf(StrictFields(s), AnyOf) + ItemsOf(StrictFields(s), OneOf))
  {
    hide Strict, StrictFields, Close, MergeAlternatives, ItemsOf;
    StrictIs(s);
    FieldsAt(s, AnyOf); FieldsAt(s, OneOf);
    CompiledKey(StrictFields(s), RequiredOf(s.m), AnyOf);
  }

  lemma CompiledItems(s: Json, k: Word)
    requires s.Obj? && (k == AnyOf || k == OneOf)
    ensures var xs := ItemsOf(StrictFields(s), k);
      |xs| == |ItemsOf(s.m, k)| && forall i | 0 <= i < |xs| :: xs[i] == Strict(ItemsOf(s.m, k)[i])
  {
    hide Strict, StrictFields;
    FieldsAt(s, k);
    if k in s.m { StrictKinds(s.m[k]); }
  }

  lemma JoinedAt<T>(xs: seq<T>, ys: seq<T>, i: nat)
    ensures i < |xs| ==> (xs + ys)[i] == xs[i]
    ensures i < |ys| ==> (xs + ys)[|xs| + i] == ys[i]
  {}

  lemma CompiledAlternative(s: Json, k: Word, i: nat)
    requires s.Obj? && k in s.m && (k == AnyOf || k == OneOf) && s.m[k].Arr?
    ensures Strict(s).Obj? && AnyOf in Strict(s).m && Strict(s).m[AnyOf].Arr?
    ensures Offset(s.m, k) + |s.m[k].xs| <= |Strict(s).m[AnyOf].xs|
    ensures i < |s.m[k].xs| ==> Strict(s).m[AnyOf].xs[Offset(s.m, k) + i] == Strict(s.m[k].xs[i])
  {
    hide Strict, StrictFields;
    CompiledAnyOf(s);
    CompiledItems(s, AnyOf);
    CompiledItems(s, OneOf);
    JoinedAt(ItemsOf(StrictFields(s), AnyOf), ItemsOf(StrictFields(s), OneOf), i);
  }

  lemma CompiledCount(s: Json)
    requires s.Obj?
    ensures Strict(s).Obj?
    ensures AnyOf in s.m || OneOf in s.m ==>
      && AnyOf in Strict(s).m && Strict(s).m[AnyOf].Arr?
      && NullsFrom(|ItemsOf(s.m, AnyOf)| + |ItemsOf(s.m, OneOf)|, Strict(s).m[AnyOf].xs)
  {
    hide Strict, StrictFields, ItemsOf;
    CompiledAnyOf(s);
    CompiledItems(s, AnyOf);
    CompiledItems(s, OneOf);
  }

  lemma CompiledNames(s: Json, k: Word)
    requires s.Obj? && k in s.m && MapsNames(k) && s.m[k].Obj?
    ensures Strict(s).Obj? && k in Strict(s).m && Strict(s).m[k].Obj? && Strict(s).m[k].m.Keys == s.m[k].m.Keys
    ensures forall n | n in s.m[k].m :: Strict(s).m[k].m[n] == Strict(s.m[k].m[n]) || Strict(s).m[k].m[n] == Nullable(Strict(s.m[k].m[n]))
  {
    var o := StrictFields(s);
    StrictIs(s);
    FieldsAt(s, k);
    FieldsObject(s);
    CompiledKey(o, RequiredOf(s.m), k);
    hide Strict, StrictFields, Close, MergeAlternatives, Nullable;
  }

  lemma {:induction false} AlternativesKept(s: Json)
    requires s.Obj?
    ensures Strict(s).Obj? && KeepsKeys(s.m, Strict(s).m) && KeepsAlternatives(s, Strict(s).m)
    decreases s, 0
  {
    hide Strict, KeepsKeys, Keeps;
    CompiledKeys(s);
    CompiledCount(s);
    forall k | k in s.m && (k == AnyOf || k == OneOf) && s.m[k].Arr?
      ensures AnyOf in Strict(s).m && Strict(s).m[AnyOf].Arr? && Offset(s.m, k) + |s.m[k].xs| <= |Strict(s).m[AnyOf].xs|
      ensures forall i | 0 <= i < |s.m[k].xs| :: Keeps(s.m[k].xs[i], Strict(s).m[AnyOf].xs[Offset(s.m, k) + i])
    {
      CompiledAlternative(s, k, 0);
      forall i | 0 <= i < |s.m[k].xs| ensures Keeps(s.m[k].xs[i], Strict(s).m[AnyOf].xs[Offset(s.m, k) + i]) {
        CompiledAlternative(s, k, i);
        KeepsAll(s.m[k].xs[i]);
      }
    }
  }

  lemma {:induction false} NamesKept(s: Json)
    requires s.Obj?
    ensures Strict(s).Obj? && KeepsKeys(s.m, Strict(s).m) && KeepsNames(s, Strict(s).m)
    decreases s, 0
  {
    hide Strict, KeepsKeys, Keeps, Nullable;
    CompiledKeys(s);
    forall k | k in s.m && MapsNames(k) && s.m[k].Obj?
      ensures k in Strict(s).m && Strict(s).m[k].Obj? && Strict(s).m[k].m.Keys == s.m[k].m.Keys
      ensures forall n | n in s.m[k].m :: Keeps(s.m[k].m[n], Strict(s).m[k].m[n])
    {
      CompiledNames(s, k);
      forall n | n in s.m[k].m ensures Keeps(s.m[k].m[n], Strict(s).m[k].m[n]) {
        KeepsAll(s.m[k].m[n]);
        NullableKeeps(s.m[k].m[n], Strict(s.m[k].m[n]));
      }
    }
  }

  lemma {:induction false} ArgumentsKept(s: Json)
    requires s.Obj?
    ensures Strict(s).Obj? && KeepsKeys(s.m, Strict(s).m) && KeepsArguments(s, Strict(s).m)
    decreases s, 0
  {
    CompiledKeys(s);
    hide Strict, Keeps;
    if Type in s.m {
      ArgumentOf(s, Type);
      KeepsAll(s.m[Type]);
      if s.m[Type].Arr? { KeepsList(s.m[Type], Strict(s).m[Type], Str(Named(TNull))); }
    }
    if Enum in s.m && s.m[Enum].Arr? {
      ArgumentOf(s, Enum);
      KeepsAll(s.m[Enum]);
      KeepsList(s.m[Enum], Strict(s).m[Enum], Null);
    }
    forall k | k in s.m && Verbatim(s.m, k) ensures Keeps(s.m[k], Strict(s).m[k]) {
      ArgumentOf(s, k);
      KeepsAll(s.m[k]);
    }
  }

  /** Compiling keeps everything that is not refused, whatever is compiled. */
  lemma {:induction false} KeepsAll(s: Json)
    ensures Keeps(s, Strict(s))
    decreases s, 1
  {
    StrictKinds(s);
    hide Strict, KeepsKeys, KeepsAlternatives, KeepsNames, KeepsArguments;
    match s
    case Arr(xs) => forall i | 0 <= i < |xs| ensures Keeps(xs[i], Strict(s).xs[i]) { KeepsAll(xs[i]); }
    case Obj(_) => AlternativesKept(s); NamesKept(s); ArgumentsKept(s);
    case _ =>
  }
}
