/** Tool parameters: schema-driven casting and validation of JSON values. */
module SchemaTool {
  import opened Prelude
  import opened Text

  datatype Pair = Pair(key: string, value: Json)

  /** A JSON value as Python holds it; an object is a dict in insertion order. Floats are taken
      as reals. */
  datatype Json =
    | JNull | JBool(b: bool) | JInt(n: int) | JFloat(r: real) | JStr(s: string)
    | JArr(items: seq<Json>) | JObj(pairs: seq<Pair>)

  datatype Prop = Prop(key: string, schema: Schema)

  /** The keywords that the code reads; None where one is absent. */
  datatype Schema = Schema(
    ty: Option<string>, choices: Option<seq<Json>>, minimum: Option<real>, maximum: Option<real>,
    minLength: Option<int>, maxLength: Option<int>, required: seq<string>, props: seq<Prop>,
    items: Option<Schema>)

  /** Python's `int`, `float`, `str` and `lower`, partial where they raise. */
  datatype Prims = Prims(parseInt: string -> Option<int>, parseFloat: string -> Option<real>,
                         show: Json -> string, lower: string -> string)

  datatype Error =
    | WrongType(path: string, expected: string) | NotAChoice(path: string)
    | BelowMinimum(path: string) | AboveMaximum(path: string)
    | TooShort(path: string) | TooLong(path: string) | Missing(path: string)

  // ---------------------------------------------------------------- Python's view of values

  /** The number a value counts as in a comparison; a bool counts as 0 or 1. */
  function NumberOf(v: Json): Option<real> {
    match v
    case JBool(b) => Some(if b then 1.0 else 0.0)
    case JInt(n) => Some(n as real)
    case JFloat(r) => Some(r)
    case _ => None
  }

  /** `==` of Python values: numbers by value, lists by position, dicts by key. */
  predicate PyEq(a: Json, b: Json)
    decreases a
  {
    if NumberOf(a).Some? then NumberOf(a) == NumberOf(b)
    else
      match (a, b)
      case (JNull, JNull) => true
      case (JStr(s), JStr(t)) => s == t
      case (JArr(xs), JArr(ys)) => |xs| == |ys| && forall i :: 0 <= i < |xs| ==> PyEq(xs[i], ys[i])
      case (JObj(ps), JObj(qs)) =>
        |ps| == |qs| && forall i :: 0 <= i < |ps| ==>
          exists k :: 0 <= k < |qs| && qs[k].key == ps[i].key && PyEq(ps[i].value, qs[k].value)
      case _ => false
  }

  predicate HasKey(pairs: seq<Pair>, key: string) {
    exists i :: 0 <= i < |pairs| && pairs[i].key == key
  }

  function PropOf(props: seq<Prop>, key: string): Option<Schema> {
    if props == [] then None
    else if props[0].key == key then Some(props[0].schema)
    else PropOf(props[1..], key)
  }

  predicate KnownType(t: Option<string>) {
    t == Some("string") || t == Some("integer") || t == Some("number")
    || t == Some("boolean") || t == Some("array") || t == Some("object")
  }

  /** The type test of validation: bools are not numbers, and 1.0 is not an integer. */
  predicate HasType(v: Json, t: string) {
    (t == "string" && v.JStr?) || (t == "integer" && v.JInt?) || (t == "number" && (v.JInt? || v.JFloat?))
    || (t == "boolean" && v.JBool?) || (t == "array" && v.JArr?) || (t == "object" && v.JObj?)
  }

  // ---------------------------------------------------------------- validation

  function Member(path: string, key: string): string {
    if path == "" then key else path + "." + key
  }

  function Index(path: string, i: nat): string {
    path + "[" + Decimal(i) + "]"
  }

  function When(condition: bool, e: Error): seq<Error> {
    if condition then [e] else []
  }

  function MissingErrors(required: seq<string>, pairs: seq<Pair>, path: string): seq<Error> {
    if required == [] then []
    else
      var n := |required| - 1;
      MissingErrors(required[..n], pairs, path) + When(!HasKey(pairs, required[n]), Missing(Member(path, required[n])))
  }

  /** The checks that look at no member of the value. */
  function OwnErrors(v: Json, s: Schema, path: string): seq<Error> {
    var numeric := s.ty == Some("integer") || s.ty == Some("number");
    var x := NumberOf(v);
    When(s.choices.Some? && !(exists i :: 0 <= i < |s.choices.value| && PyEq(v, s.choices.value[i])), NotAChoice(path))
      + When(numeric && x.Some? && s.minimum.Some? && x.value < s.minimum.value, BelowMinimum(path))
      + When(numeric && x.Some? && s.maximum.Some? && x.value > s.maximum.value, AboveMaximum(path))
      + When(s.ty == Some("string") && v.JStr? && s.minLength.Some? && |v.s| < s.minLength.value, TooShort(path))
      + When(s.ty == Some("string") && v.JStr? && s.maxLength.Some? && |v.s| > s.maxLength.value, TooLong(path))
  }

  function Errors(v: Json, s: Schema, path: string): seq<Error>
    decreases v, 1
  {
    if KnownType(s.ty) && !HasType(v, s.ty.value) then [WrongType(path, s.ty.value)]
    else
      OwnErrors(v, s, path)
        + (if s.ty == Some("object") && v.JObj? then
             MissingErrors(s.required, v.pairs, path) + PairErrors(v.pairs, s.props, path)
           else [])
        + (if s.ty == Some("array") && s.items.Some? && v.JArr? then ItemErrors(v.items, s.items.value, path) else [])
  }

  function PairErrors(pairs: seq<Pair>, props: seq<Prop>, path: string): seq<Error>
    decreases pairs, 0
  {
    if pairs == [] then []
    else
      var n := |pairs| - 1;
      var prop := PropOf(props, pairs[n].key);
      PairErrors(pairs[..n], props, path)
        + if prop.Some? then Errors(pairs[n].value, prop.value, Member(path, pairs[n].key)) else []
  }

  function ItemErrors(items: seq<Json>, s: Schema, path: string): seq<Error>
    decreases items, 0
  {
    if items == [] then []
    else
      var n := |items| - 1;
      ItemErrors(items[..n], s, path) + Errors(items[n], s, Index(path, n))
  }

  /** What it means for a value to conform: the type, enum, minimum, maximum, minLength,
      maxLength and required keywords, and recursively the properties and items. */
  ghost predicate Conforms(v: Json, s: Schema)
    decreases v
  {
    && (KnownType(s.ty) ==> HasType(v, s.ty.value))
    && (s.choices.Some? ==> exists i :: 0 <= i < |s.choices.value| && PyEq(v, s.choices.value[i]))
    && (s.ty == Some("integer") || s.ty == Some("number") ==>
          && (s.minimum.Some? ==> s.minimum.value <= NumberOf(v).value)
          && (s.maximum.Some? ==> NumberOf(v).value <= s.maximum.value))
    && (s.ty == Some("string") ==>
          && (s.minLength.Some? ==> s.minLength.value <= |v.s|)
          && (s.maxLength.Some? ==> |v.s| <= s.maxLength.value))
    && (s.ty == Some("object") ==>
          && (forall k :: k in s.required ==> HasKey(v.pairs, k))
          && (forall i :: 0 <= i < |v.pairs| && PropOf(s.props, v.pairs[i].key).Some? ==>
                Conforms(v.pairs[i].value, PropOf(s.props, v.pairs[i].key).value)))
    && (s.ty == Some("array") && s.items.Some? ==>
          forall i :: 0 <= i < |v.items| ==> Conforms(v.items[i], s.items.value))
  }

  lemma {:induction false} MissingErrorsIff(required: seq<string>, pairs: seq<Pair>, path: string)
    ensures MissingErrors(required, pairs, path) == [] <==> forall k :: k in required ==> HasKey(pairs, k)
  {
    if required != [] {
      var n := |required| - 1;
      MissingErrorsIff(required[..n], pairs, path);
      assert forall k :: k in required <==> k in required[..n] || k == required[n];
    }
  }

  /** For every value, schema and path: no errors if and only if the value conforms. */
  lemma {:induction false} NoErrorsIffConforms(v: Json, s: Schema, path: string)
    ensures Errors(v, s, path) == [] <==> Conforms(v, s)
    decreases v, 1
  {
    if !KnownType(s.ty) || HasType(v, s.ty.value) {
      if s.ty == Some("object") {
        MissingErrorsIff(s.required, v.pairs, path);
        PairErrorsIff(v.pairs, s.props, path);
      }
      if s.ty == Some("array") && s.items.Some? { ItemErrorsIff(v.items, s.items.value, path); }
    }
  }

  lemma {:induction false} PairErrorsIff(pairs: seq<Pair>, props: seq<Prop>, path: string)
    ensures PairErrors(pairs, props, path) == [] <==>
            forall i :: 0 <= i < |pairs| && PropOf(props, pairs[i].key).Some? ==>
              Conforms(pairs[i].value, PropOf(props, pairs[i].key).value)
    decreases pairs, 0
  {
    if pairs != [] {
      var n := |pairs| - 1;
      PairErrorsIff(pairs[..n], props, path);
      assert forall i :: 0 <= i < n ==> pairs[..n][i] == pairs[i];
      var prop := PropOf(props, pairs[n].key);
      if prop.Some? { NoErrorsIffConforms(pairs[n].value, prop.value, Member(path, pairs[n].key)); }
    }
  }

  lemma {:induction false} ItemErrorsIff(items: seq<Json>, s: Schema, path: string)
    ensures ItemErrors(items, s, path) == [] <==> forall i :: 0 <= i < |items| ==> Conforms(items[i], s)
    decreases items, 0
  {
    if items != [] {
      var n := |items| - 1;
      ItemErrorsIff(items[..n], s, path);
      NoErrorsIffConforms(items[n], s, Index(path, n));
      AllButLast(items, s);
    }
  }

  lemma AllButLast(items: seq<Json>, s: Schema)
    requires items != []
    ensures var n := |items| - 1;
      (forall i :: 0 <= i < |items| ==> Conforms(items[i], s))
      <==> (forall i :: 0 <= i < n ==> Conforms(items[..n][i], s)) && Conforms(items[n], s)
  {
    var n := |items| - 1;
    assert forall i :: 0 <= i < n ==> items[..n][i] == items[i];
  }

  // ---------------------------------------------------------------- casting

  function CastText(prims: Prims, v: Json, t: Option<string>): Json
    requires v.JStr?
  {
    if t == Some("integer") then
      var n := prims.parseInt(v.s);
      if n.Some? then JInt(n.value) else v
    else if t == Some("number") then
      var r := prims.parseFloat(v.s);
      if r.Some? then JFloat(r.value) else v
    else if t == Some("boolean") then
      var l := prims.lower(v.s);
      if l == "true" || l == "1" || l == "yes" then JBool(true)
      else if l == "false" || l == "0" || l == "no" then JBool(false)
      else v
    else v
  }

  function Cast(prims: Prims, v: Json, s: Schema): (r: Json)
    decreases v, 1
  {
    match v
    case JStr(_) => CastText(prims, v, s.ty)
    case JArr(items) =>
      if s.ty == Some("string") then JStr(prims.show(v))
      else if s.ty == Some("array") && s.items.Some? then JArr(CastItems(prims, items, s.items.value))
      else v
    case JObj(pairs) =>
      if s.ty == Some("string") then JStr(prims.show(v))
      else if s.ty == Some("object") then JObj(CastPairs(prims, pairs, s.props))
      else v
    case JNull => v
    case _ => if s.ty == Some("string") then JStr(prims.show(v)) else v
  }

  function CastPairs(prims: Prims, pairs: seq<Pair>, props: seq<Prop>): (r: seq<Pair>)
    ensures |r| == |pairs|
    ensures forall i :: 0 <= i < |pairs| ==> r[i].key == pairs[i].key
    decreases pairs, 0
  {
    if pairs == [] then []
    else
      var n := |pairs| - 1;
      var prop := PropOf(props, pairs[n].key);
      CastPairs(prims, pairs[..n], props)
        + [if prop.Some? then Pair(pairs[n].key, Cast(prims, pairs[n].value, prop.value)) else pairs[n]]
  }

  function CastItems(prims: Prims, items: seq<Json>, s: Schema): (r: seq<Json>)
    ensures |r| == |items|
    decreases items, 0
  {
    if items == [] then []
    else
      var n := |items| - 1;
      CastItems(prims, items[..n], s) + [Cast(prims, items[n], s)]
  }

  /** A conforming value is unchanged by casting. */
  lemma {:induction false} CastKeepsConforming(prims: Prims, v: Json, s: Schema)
    requires Conforms(v, s)
    ensures Cast(prims, v, s) == v
    decreases v, 1
  {
    if v.JObj? && s.ty == Some("object") { CastPairsKeep(prims, v.pairs, s.props); }
    if v.JArr? && s.ty == Some("array") && s.items.Some? { CastItemsKeep(prims, v.items, s.items.value); }
  }

  lemma {:induction false} CastPairsKeep(prims: Prims, pairs: seq<Pair>, props: seq<Prop>)
    requires forall i :: 0 <= i < |pairs| && PropOf(props, pairs[i].key).Some? ==>
               Conforms(pairs[i].value, PropOf(props, pairs[i].key).value)
    ensures CastPairs(prims, pairs, props) == pairs
    decreases pairs, 0
  {
    if pairs != [] {
      var n := |pairs| - 1;
      assert CastPairs(prims, pairs[..n], props) == pairs[..n] by {
        assert forall i :: 0 <= i < n ==> pairs[..n][i] == pairs[i];
        CastPairsKeep(prims, pairs[..n], props);
      }
      var prop := PropOf(props, pairs[n].key);
      if prop.Some? { CastKeepsConforming(prims, pairs[n].value, prop.value); }
    }
  }

  lemma {:induction false} CastItemsKeep(prims: Prims, items: seq<Json>, s: Schema)
    requires forall i :: 0 <= i < |items| ==> Conforms(items[i], s)
    ensures CastItems(prims, items, s) == items
    decreases items, 0
  {
    if items != [] {
      var n := |items| - 1;
      CastItemsKeep(prims, items[..n], s);
      CastKeepsConforming(prims, items[n], s);
    }
  }

  /** Casting twice is casting once. */
  lemma {:induction false} CastIsIdempotent(prims: Prims, v: Json, s: Schema)
    ensures Cast(prims, Cast(prims, v, s), s) == Cast(prims, v, s)
    decreases v, 1
  {
    if v.JObj? && s.ty == Some("object") {
      CastPairsIdempotent(prims, v.pairs, s.props);
    } else if v.JArr? && s.ty == Some("array") && s.items.Some? {
      CastItemsIdempotent(prims, v.items, s.items.value);
    } else if v.JStr? {
      CastTextIsFinal(prims, v, s);
    }
  }

  /** A cast text is a text that stays, or a number or boolean, which no cast to its type touches. */
  lemma CastTextIsFinal(prims: Prims, v: Json, s: Schema)
    requires v.JStr?
    ensures Cast(prims, CastText(prims, v, s.ty), s) == CastText(prims, v, s.ty)
  {
  }

  lemma {:induction false} CastPairsIdempotent(prims: Prims, pairs: seq<Pair>, props: seq<Prop>)
    ensures CastPairs(prims, CastPairs(prims, pairs, props), props) == CastPairs(prims, pairs, props)
    decreases pairs, 0
  {
    if pairs != [] {
      var n := |pairs| - 1;
      CastPairsIdempotent(prims, pairs[..n], props);
      var once := CastPairs(prims, pairs, props);
      assert once[..n] == CastPairs(prims, pairs[..n], props);
      var prop := PropOf(props, pairs[n].key);
      if prop.Some? { CastIsIdempotent(prims, pairs[n].value, prop.value); }
    }
  }

  lemma {:induction false} CastItemsIdempotent(prims: Prims, items: seq<Json>, s: Schema)
    ensures CastItems(prims, CastItems(prims, items, s), s) == CastItems(prims, items, s)
    decreases items, 0
  {
    if items != [] {
      var n := |items| - 1;
      CastItemsIdempotent(prims, items[..n], s);
      var once := CastItems(prims, items, s);
      assert once[..n] == CastItems(prims, items[..n], s);
      CastIsIdempotent(prims, items[n], s);
    }
  }

  // ---------------------------------------------------------------- the loops

  method ValidateValue(v: Json, s: Schema, path: string) returns (errors: seq<Error>)
    ensures errors == Errors(v, s, path)
    decreases v, 1
  {
    if KnownType(s.ty) && !HasType(v, s.ty.value) { return [WrongType(path, s.ty.value)]; }
    errors := OwnErrors(v, s, path);
    if s.ty == Some("object") {
      var missing := MissingKeys(s.required, v.pairs, path);
      var nested := ValidatePairs(v.pairs, s.props, path);
      errors := errors + (missing + nested);
    }
    if s.ty == Some("array") && s.items.Some? {
      var nested := ValidateItems(v.items, s.items.value, path);
      errors := errors + nested;
    }
  }

  method MissingKeys(required: seq<string>, pairs: seq<Pair>, path: string) returns (errors: seq<Error>)
    ensures errors == MissingErrors(required, pairs, path)
  {
    errors := [];
    for i := 0 to |required|
      invariant errors == MissingErrors(required[..i], pairs, path)
    {
      assert required[..i + 1][..i] == required[..i];
      if !HasKey(pairs, required[i]) { errors := errors + [Missing(Member(path, required[i]))]; }
    }
    assert required[..|required|] == required;
  }

  method ValidatePairs(pairs: seq<Pair>, props: seq<Prop>, path: string) returns (errors: seq<Error>)
    ensures errors == PairErrors(pairs, props, path)
    decreases pairs, 0
  {
    errors := [];
    for i := 0 to |pairs|
      invariant errors == PairErrors(pairs[..i], props, path)
    {
      assert pairs[..i + 1][..i] == pairs[..i];
      var prop := PropOf(props, pairs[i].key);
      if prop.Some? {
        var nested := ValidateValue(pairs[i].value, prop.value, Member(path, pairs[i].key));
        errors := errors + nested;
      }
    }
    assert pairs[..|pairs|] == pairs;
  }

  method ValidateItems(items: seq<Json>, s: Schema, path: string) returns (errors: seq<Error>)
    ensures errors == ItemErrors(items, s, path)
    decreases items, 0
  {
    errors := [];
    for i := 0 to |items|
      invariant errors == ItemErrors(items[..i], s, path)
    {
      assert items[..i + 1][..i] == items[..i];
      var nested := ValidateValue(items[i], s, Index(path, i));
      errors := errors + nested;
    }
    assert items[..|items|] == items;
  }

  /** `_cast_object`: only members with a property schema are cast. */
  method CastObject(prims: Prims, pairs: seq<Pair>, props: seq<Prop>) returns (result: seq<Pair>)
    ensures result == CastPairs(prims, pairs, props)
  {
    result := [];
    for i := 0 to |pairs|
      invariant result == CastPairs(prims, pairs[..i], props)
    {
      assert pairs[..i + 1][..i] == pairs[..i];
      var Pair(key, value) := pairs[i];
      var prop := PropOf(props, key);
      result := result + [Pair(key, if prop.Some? then Cast(prims, value, prop.value) else value)];
    }
    assert pairs[..|pairs|] == pairs;
  }

  datatype Outcome = Checked(errors: seq<Error>) | SchemaIsNotAnObject

  function WithObjectType(s: Schema): Schema {
    s.(ty := Some("object"))
  }

  /** `cast_params`; a schema of another type, or parameters that are not a dict, pass through. */
  method CastParams(prims: Prims, parameters: Schema, params: Json) returns (r: Json)
    ensures r == if parameters.ty == None || parameters.ty == Some("object")
                 then Cast(prims, params, WithObjectType(parameters)) else params
  {
    if parameters.ty.Some? && parameters.ty.value != "object" { return params; }
    if !params.JObj? {
      r := params;
      assert params.JStr? ==> CastText(prims, params, Some("object")) == params;
      return;
    }
    var pairs := CastObject(prims, params.pairs, parameters.props);
    r := JObj(pairs);
  }

  /** `validate_params`: no errors exactly for a dict that conforms to the schema as an object
      schema; a schema of another type raises. */
  method ValidateParams(parameters: Schema, params: Json) returns (r: Outcome)
    ensures !params.JObj? ==> r == Checked([WrongType("", "object")])
    ensures params.JObj? ==> (r.SchemaIsNotAnObject? <==> parameters.ty.Some? && parameters.ty.value != "object")
    ensures r.Checked? ==>
      (r.errors == [] <==> params.JObj? && Conforms(params, WithObjectType(parameters)))
  {
    if !params.JObj? { return Checked([WrongType("", "object")]); }
    if parameters.ty.Some? && parameters.ty.value != "object" { return SchemaIsNotAnObject; }
    var errors := ValidateValue(params, WithObjectType(parameters), "");
    NoErrorsIffConforms(params, WithObjectType(parameters), "");
    r := Checked(errors);
  }
}
