/** The schema compiler and its decoder (`strict_schema` and `unnull`, src/dispatch.py). */
module StrictSchema {
  // `Strict` rewrites a contract schema into the stricter dialect of the model provider; `Unnull` maps an answer
  // given under the strict schema back to one the original contract validates. A schema is a raw JSON value here,
  // as it is in the source, so property names and keywords live in the same kind of dict.

  import opened Json

  // ---------------------------------------------------------------- the compiler

  predicate Dropped(k: Word) { k.Refused? }

  /** Keywords whose value maps names, not keywords, to schemas. */
  predicate NameMap(k: Word) { k.Properties? || k.Defs? || k.Definitions? }

  const NULL_SCHEMA: Json := Obj(map[Type := Str(Named(TNull))])

  function RequiredOf(m: map<Word, Json>): set<Word> {
    set x | x in ItemsOf(m, Required) && x.Str? :: x.w
  }

  function PropsOf(m: map<Word, Json>): map<Word, Json> {
    if Properties in m && m[Properties].Obj? then m[Properties].m else map[]
  }

  /** An object schema: the compiler closes exactly these. */
  predicate Closes(m: map<Word, Json>) {
    (Properties in m && m[Properties].Obj?) || (Type in m && m[Type] == Str(Named(TObject)))
  }

  /** One optional property's schema, extended so that it also accepts null. */
  function Nullable(v: Json): Json {
    if !v.Obj? then v else
    var m := v.m;
    var m1 :=
      if AnyOf in m then m[AnyOf := Arr(ItemsOf(m, AnyOf) + [NULL_SCHEMA])]
      else if Type in m && m[Type].Str? then m[Type := Arr([m[Type], Str(Named(TNull))])]
      else if Type in m && m[Type].Arr? && Str(Named(TNull)) !in m[Type].xs then m[Type := Arr(m[Type].xs + [Str(Named(TNull))])]
      else m;
    Obj(if Enum in m1 && Null !in ItemsOf(m1, Enum) then m1[Enum := Arr(ItemsOf(m1, Enum) + [Null])] else m1)
  }

  function NullableProps(props: map<Word, Json>, req: set<Word>): map<Word, Json> {
    map k | k in props :: if k in req then props[k] else Nullable(props[k])
  }

  function MergeAlternatives(o: map<Word, Json>): map<Word, Json> {
    if AnyOf in o || OneOf in o
    then (o - {AnyOf, OneOf})[AnyOf := Arr(ItemsOf(o, AnyOf) + ItemsOf(o, OneOf))]
    else o
  }

  /** `l` lists the names of the set, each once. */
  ghost predicate Lists(l: Json, names: set<Word>) {
    && l.Arr?
    && |l.xs| == |names|
    && (forall k :: k in names <==> Str(k) in l.xs)
    && (forall x | x in l.xs :: x.Str?)
  }

  lemma ListingExists(names: set<Word>)
    ensures exists l :: Lists(l, names)
  {
    if names == {} {
      assert Lists(Arr([]), names);
    } else {
      var k :| k in names;
      ListingExists(names - {k});
      var l :| Lists(l, names - {k});
      assert Lists(Arr(l.xs + [Str(k)]), names);
    }
  }

  /** `list(props)`: some listing of the names, the same one each time. */
  ghost function NameList(names: set<Word>): Json {
    ListingExists(names);
    var l :| Lists(l, names);
    l
  }

  /** What the compiler makes of one object's rewritten keywords; `req` is the original's `required`. */
  ghost function Close(o: map<Word, Json>, req: set<Word>): map<Word, Json> {
    if Closes(o) then
      o[Properties := Obj(NullableProps(PropsOf(o), req))]
       [Required := NameList(PropsOf(o).Keys)]
       [AdditionalProperties := Bool(false)]
    else o
  }

  ghost function Strict(s: Json): Json
    decreases s, 1
  {
    match s
    case Arr(xs) => Arr(seq(|xs|, i requires 0 <= i < |xs| => Strict(xs[i])))
    case Obj(m) => Obj(Close(MergeAlternatives(StrictFields(s)), RequiredOf(m)))
    case _ => s
  }

  /** The kept keywords, each rewritten; a name map is rewritten name by name, so its names survive. */
  ghost function StrictFields(s: Json): map<Word, Json>
    requires s.Obj?
    decreases s, 0
  {
    map k | k in s.m && !Dropped(k) ::
      if NameMap(k) && s.m[k].Obj? then Obj(map n | n in s.m[k].m :: Strict(s.m[k].m[n])) else Strict(s.m[k])
  }

  lemma ListsAppend(xs: seq<Json>, names: set<Word>, k: Word)
    requires Lists(Arr(xs), names) && k !in names
    ensures Lists(Arr(xs + [Str(k)]), names + {k})
  {}

  /** The loop that makes each optional property nullable, in place. */
  method NullProps(before: map<Word, Json>, req: set<Word>) returns (props: map<Word, Json>)
    ensures props == NullableProps(before, req)
  {
    props := before;
    var todo := before.Keys;
    while todo != {}
      invariant todo <= props.Keys == before.Keys
      invariant forall k | k in before :: props[k] == if k in todo || k in req then before[k] else Nullable(before[k])
      decreases todo
    {
      var k :| k in todo;
      if k !in req && props[k].Obj? {
        props := props[k := Nullable(props[k])];
      }
      todo := todo - {k};
    }
  }

  /** `list(props)`, in the order the names come. */
  method ListNames(names: set<Word>) returns (l: Json)
    ensures Lists(l, names)
  {
    var listed, todo := [], names;
    ghost var done := {};
    while todo != {}
      invariant done !! todo && done + todo == names
      invariant Lists(Arr(listed), done)
      decreases todo
    {
      var k :| k in todo;
      ListsAppend(listed, done, k);
      listed, todo, done := listed + [Str(k)], todo - {k}, done + {k};
    }
    l := Arr(listed);
  }

  /**
   The in-place tail of the compiler: merges the alternatives, then closes an object. The order of
   `required` is the order of the loop, so only the names it lists are promised.
   */
  method CloseInPlace(fields: map<Word, Json>, req: set<Word>) returns (o: map<Word, Json>)
    ensures !Closes(MergeAlternatives(fields)) ==> o == MergeAlternatives(fields)
    ensures Closes(MergeAlternatives(fields)) ==>
              && Required in o && Lists(o[Required], PropsOf(MergeAlternatives(fields)).Keys)
              && o == Close(MergeAlternatives(fields), req)[Required := o[Required]]
  {
    o := fields;
    if AnyOf in o || OneOf in o {
      var alternatives := ItemsOf(o, AnyOf) + ItemsOf(o, OneOf);
      o := o - {AnyOf, OneOf};
      o := o[AnyOf := Arr(alternatives)];
    }
    if Closes(o) {
      var props := NullProps(PropsOf(o), req);
      var required := ListNames(props.Keys);
      assert props.Keys == PropsOf(o).Keys;
      o := o[Properties := Obj(props)][Required := required][AdditionalProperties := Bool(false)];
    }
  }

  // ---------------------------------------------------------------- the decoder

  function PropSchema(m: map<Word, Json>, k: Word): Json {
    if k in PropsOf(m) then PropsOf(m)[k] else EMPTY
  }

  predicate Falsy(v: Json) {
    v == Null || v == Bool(false) || v == Num(0.0) || v == Str(Other("")) || v == Arr([]) || v == EMPTY
  }

  function ItemSchema(m: map<Word, Json>): Json {
    if Items in m && !Falsy(m[Items]) then m[Items] else EMPTY
  }

  /** Drops the nulls the strict schema forced onto originally optional keys. */
  function Unnull(v: Json, schema: Json): Json
    decreases v
  {
    if !schema.Obj? then v else
    match v
    case Obj(m) =>
      Obj(map k | k in m && !(m[k] == Null && k !in RequiredOf(schema.m)) :: Unnull(m[k], PropSchema(schema.m, k)))
    case Arr(xs) => Arr(seq(|xs|, i requires 0 <= i < |xs| => Unnull(xs[i], ItemSchema(schema.m))))
    case _ => v
  }

  // ---------------------------------------------------------------- validity

  /** Meaning of the keywords that only look at a string or a number: pattern, format, the bounds. */
  type Meaning = (Bound, Json, Json) -> bool

  /** Keywords that constrain nothing: titles, descriptions, the definitions a `$ref` would name. */
  predicate Annotation(k: Word) { k.Defs? || k.Definitions? || k.Other? }

  predicate Applicator(k: Word) { k.Properties? || k.AdditionalProperties? || k.Items? || k.AnyOf? }

  predicate Assertion(k: Word) { k.Type? || k.Enum? || k.Const? || k.Required? || k.MinItems? || k.MaxItems? }

  predicate HasType(t: Word, v: Json) {
    match v
    case Null => t == Named(TNull)
    case Bool(_) => t == Named(TBoolean)
    case Num(n) => t == Named(TNumber) || (t == Named(TInteger) && n == n.Floor as real)
    case Str(_) => t == Named(TString)
    case Arr(_) => t == Named(TArray)
    case Obj(_) => t == Named(TObject)
  }

  predicate TypeOk(arg: Json, v: Json) {
    match arg
    case Str(t) => HasType(t, v)
    case Arr(ts) => exists t | t in ts :: t.Str? && HasType(t.w, v)
    case _ => true
  }

  /** JSON Schema Validation, draft 2020-12, section 6: the keywords that do not apply subschemas. */
  predicate AssertionOk(k: Word, arg: Json, v: Json, leaf: Meaning) {
    if k == Type then TypeOk(arg, v)
    else if k == Enum then arg.Arr? ==> v in arg.xs
    else if k == Const then v == arg
    else if k == Required then v.Obj? && arg.Arr? ==> forall x | x in arg.xs && x.Str? :: x.w in v.m
    else if k == MinItems then v.Arr? && arg.Num? ==> |v.xs| as real >= arg.n
    else if k == MaxItems then v.Arr? && arg.Num? ==> |v.xs| as real <= arg.n
    else if k.Leaf? then v.Str? || v.Num? ==> leaf(k.bound, arg, v)
    else true
  }

  ghost predicate AnyOfOk(s: Json, v: Json, leaf: Meaning)
    requires s.Obj?
    decreases s, 0
  {
    AnyOf in s.m && s.m[AnyOf].Arr? ==> exists b | b in s.m[AnyOf].xs :: Valid(b, v, leaf)
  }

  ghost predicate ItemsOk(s: Json, v: Json, leaf: Meaning)
    requires s.Obj?
    decreases s, 0
  {
    Items in s.m && v.Arr? ==> forall i | 0 <= i < |v.xs| :: Valid(s.m[Items], v.xs[i], leaf)
  }

  ghost predicate PropertiesOk(s: Json, v: Json, leaf: Meaning)
    requires s.Obj?
    decreases s, 0
  {
    Properties in s.m && s.m[Properties].Obj? && v.Obj? ==>
      forall k | k in s.m[Properties].m && k in v.m :: Valid(s.m[Properties].m[k], v.m[k], leaf)
  }

  ghost predicate AdditionalOk(s: Json, v: Json, leaf: Meaning)
    requires s.Obj?
    decreases s, 0
  {
    AdditionalProperties in s.m && v.Obj? ==>
      forall k | k in v.m && k !in PropsOf(s.m) :: Valid(s.m[AdditionalProperties], v.m[k], leaf)
  }

  ghost predicate AssertionsOk(s: Json, v: Json, leaf: Meaning)
    requires s.Obj?
  {
    forall k | k in s.m :: AssertionOk(k, s.m[k], v, leaf)
  }

  /**
   Validity of `v` under schema `s`, of every keyword the strict dialect keeps (draft 2020-12: Core
   sections 10.2.1.2, 10.3.1.2, 10.3.2.1, 10.3.2.3 and Validation section 6). A dropped keyword constrains
   nothing here, so on a schema without one this is validity itself.
   */
  ghost predicate Valid(s: Json, v: Json, leaf: Meaning)
    decreases s, 1
  {
    match s
    case Bool(b) => b
    case Obj(_) =>
      && AssertionsOk(s, v, leaf) && AnyOfOk(s, v, leaf) && ItemsOk(s, v, leaf)
      && PropertiesOk(s, v, leaf) && AdditionalOk(s, v, leaf)
    case _ => true
  }

  // ---------------------------------------------------------------- the fragment

  predicate ScalarType(t: Json) {
    t.Str? && t.w.Named? && !t.w.typeName.TArray? && !t.w.typeName.TObject?
  }

  predicate Strings(arg: Json) {
    arg.Arr? && forall t | t in arg.xs :: t.Str?
  }

  predicate Scalars(arg: Json) {
    arg.Arr? && forall x | x in arg.xs :: x.Scalar()
  }

  /** The keywords of one schema object that take plain arguments take well-formed ones. */
  predicate PlainArguments(m: map<Word, Json>) {
    && (Type in m ==> m[Type].Str? || Strings(m[Type]))
    && (Enum in m ==> Scalars(m[Enum]))
    && (forall k | k in m && (k.Leaf? || k.Const? || k.MinItems? || k.MaxItems?) :: m[k].Scalar())
  }

  /** A branch that only scalars can satisfy. */
  predicate ScalarSchema(b: Json) {
    && b.Obj?
    && (forall k | k in b.m :: k.Leaf? || Annotation(k) || Dropped(k) || k.Type? || k.Enum? || k.Const?)
    && PlainArguments(b.m)
    && (Type in b.m ==> ScalarType(b.m[Type]) ||
                        (b.m[Type].Arr? && forall t | t in b.m[Type].xs :: ScalarType(t)))
    && (Type in b.m || Enum in b.m || Const in b.m)
  }

  /** Schemas the decoder can follow: `anyOf` offers scalars only, and there is no `$ref` and no `oneOf`. */
  predicate Shaped(s: Json)
    decreases s
  {
    && s.Obj?
    && (forall k | k in s.m :: k.Leaf? || Annotation(k) || Dropped(k) || Applicator(k) || Assertion(k))
    && PlainArguments(s.m)
    && (Required in s.m ==> Strings(s.m[Required]))
    && (Properties in s.m ==> s.m[Properties].Obj?)
    && (forall k | k in PropsOf(s.m) :: Shaped(s.m[Properties].m[k]))
    && (Items in s.m ==> Shaped(s.m[Items]))
    && (AnyOf in s.m ==> s.m[AnyOf].Arr? && forall b | b in s.m[AnyOf].xs :: ScalarSchema(b))
    && (AdditionalProperties in s.m ==> s.m[AdditionalProperties].Bool? || Closes(s.m))
  }

  /** A closed object declares what it requires. */
  predicate DeclaresOwn(m: map<Word, Json>) { Closes(m) ==> RequiredOf(m) <= PropsOf(m).Keys }

  /** So does every one in the schema. */
  predicate Declares(s: Json)
    decreases s
  {
    s.Obj? ==>
      && DeclaresOwn(s.m)
      && (forall k | k in PropsOf(s.m) :: Declares(s.m[Properties].m[k]))
      && (Items in s.m ==> Declares(s.m[Items]))
  }

  /** Every one that an object in the value meets. */
  predicate DeclaresFor(s: Json, v: Json)
    decreases v
  {
    s.Obj? ==>
      && (v.Obj? ==> DeclaresOwn(s.m) && forall k | k in v.m && k in PropsOf(s.m) :: DeclaresFor(PropsOf(s.m)[k], v.m[k]))
      && (v.Arr? && Items in s.m ==> forall i | 0 <= i < |v.xs| :: DeclaresFor(s.m[Items], v.xs[i]))
  }

  /** Schemas the decoder can follow in which every closed object declares what it requires. */
  predicate InFragment(s: Json) { Shaped(s) && Declares(s) }
}
