/**
 JSON values, as Python's `json` module hands them to the dispatcher. An object is a `map`, because two
 dicts are equal whatever the order of their keys.

 A string is either one of the words JSON Schema gives a meaning to, or any other text. Keys and string
 values share this one type, so a property may well be named like a keyword.
 */
module Json {

  /** Keywords the strict dialect refuses. */
  datatype Refusal =
    | If | Then | Else | Not | AllOf | DependentRequired | DependentSchemas | Dependencies
    | PatternProperties | Default | Comment | Examples | UnevaluatedProperties | PropertyNames
    | Contains | MinContains | MaxContains | UniqueItems | MinProperties | MaxProperties | UnevaluatedItems

  /** Keywords that look at a string or a number only. */
  datatype Bound =
    | Pattern | Format | MinLength | MaxLength | Minimum | Maximum
    | ExclusiveMinimum | ExclusiveMaximum | MultipleOf

  datatype TypeName = TNull | TBoolean | TNumber | TInteger | TString | TArray | TObject

  datatype Word =
    | Type | Enum | Const | Required | MinItems | MaxItems
    | Properties | AdditionalProperties | Items | AnyOf | OneOf | Ref | Defs | Definitions
    | Leaf(bound: Bound)
    | Refused(refusal: Refusal)
    | Named(typeName: TypeName)
    | Other(text: string)  // titles and descriptions among them

  datatype Json =
    | Null
    | Bool(b: bool)
    | Num(n: real)
    | Str(w: Word)
    | Arr(xs: seq<Json>)
    | Obj(m: map<Word, Json>)
  {
    predicate Scalar() { !Arr? && !Obj? }
  }

  const EMPTY: Json := Obj(map[])

  /** The items of an array-valued key; anything else contributes none. */
  function ItemsOf(m: map<Word, Json>, k: Word): seq<Json> {
    if k in m && m[k].Arr? then m[k].xs else []
  }
}
