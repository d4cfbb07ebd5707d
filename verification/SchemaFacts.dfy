/** What the keywords of a schema mean for a single value, which errors are reported where, and what
    casting makes of a value. */
module SchemaFacts {
  import opened Prelude
  import opened Text
  import opened SchemaTool

  // ---------------------------------------------------------------- keywords

  /** A schema with nothing but a type. */
  function OnlyType(t: string): Schema {
    Schema(Some(t), None, None, None, None, None, [], [], None)
  }

  lemma NothingMissing(v: Json, t: string, path: string)
    ensures Errors(v, OnlyType(t), path) ==
            if KnownType(Some(t)) && !HasType(v, t) then [WrongType(path, t)] else []
  {
    if v.JObj? { NoPropertyNoError(v.pairs, path); }
  }

  lemma {:induction false} NoPropertyNoError(pairs: seq<Pair>, path: string)
    ensures PairErrors(pairs, [], path) == []
  {
    if pairs != [] { NoPropertyNoError(pairs[..|pairs| - 1], path); }
  }

  /** The six types, by the kind of value that each admits; a type that is not one of them admits
      every value. */
  lemma TypesAdmit(v: Json, t: string, path: string)
    ensures var errors := Errors(v, OnlyType(t), path);
      && (t == "string" ==> (errors == [] <==> v.JStr?))
      && (t == "integer" ==> (errors == [] <==> v.JInt?))
      && (t == "number" ==> (errors == [] <==> v.JInt? || v.JFloat?))
      && (t == "boolean" ==> (errors == [] <==> v.JBool?))
      && (t == "array" ==> (errors == [] <==> v.JArr?))
      && (t == "object" ==> (errors == [] <==> v.JObj?))
      && (t !in {"string", "integer", "number", "boolean", "array", "object"} ==> errors == [])
      && (errors != [] ==> errors == [WrongType(path, t)])
  {
    NothingMissing(v, t, path);
  }

  /** The bounds of a number, and the lengths of a text, are inclusive. */
  lemma BoundsAreInclusive(v: Json, s: Schema, path: string)
    requires s.choices.None? && (v.JInt? || v.JFloat? ==> s.ty == Some("number")) && (v.JStr? ==> s.ty == Some("string"))
    requires v.JInt? || v.JFloat? || v.JStr?
    ensures v.JStr? ==>
              Errors(v, s, path) ==
              (if s.minLength.Some? && |v.s| < s.minLength.value then [TooShort(path)] else []) +
              (if s.maxLength.Some? && |v.s| > s.maxLength.value then [TooLong(path)] else [])
    ensures !v.JStr? ==>
              var x := if v.JInt? then v.n as real else v.r;
              Errors(v, s, path) ==
              (if s.minimum.Some? && x < s.minimum.value then [BelowMinimum(path)] else []) +
              (if s.maximum.Some? && x > s.maximum.value then [AboveMaximum(path)] else [])
  {
  }

  /** A value outside an enumeration is reported, unless its type already is. */
  lemma ChoicesAreChecked(v: Json, s: Schema, path: string)
    requires s.ty.None? && s.choices.Some?
    ensures Errors(v, s, path) ==
            if exists c :: c in s.choices.value && PyEq(v, c) then [] else [NotAChoice(path)]
  {
    if exists c :: c in s.choices.value && PyEq(v, c) {
      var c :| c in s.choices.value && PyEq(v, c);
      var i :| 0 <= i < |s.choices.value| && s.choices.value[i] == c;
    }
  }

  /** Equality of the enumeration: numbers and booleans by value, texts by text, and no text equals a
      number. */
  lemma EqualityOfScalars(n: int, r: real, a: string, b: string)
    ensures PyEq(JInt(n), JFloat(r)) <==> n as real == r
    ensures PyEq(JBool(true), JInt(n)) <==> n == 1
    ensures PyEq(JBool(false), JInt(n)) <==> n == 0
    ensures PyEq(JStr(a), JStr(b)) <==> a == b
    ensures !PyEq(JStr(a), JInt(n)) && !PyEq(JInt(n), JStr(a)) && PyEq(JNull, JNull) && !PyEq(JNull, JInt(n)) && !PyEq(JInt(n), JNull)
  {
  }

  /** Lists are equal item by item. */
  lemma EqualityOfLists(x: Json, y: Json)
    ensures PyEq(JArr([x]), JArr([y])) <==> PyEq(x, y)
    ensures !PyEq(JArr([]), JArr([y])) && !PyEq(JArr([x]), JArr([])) && !PyEq(JArr([x]), JNull)
  {
    assert JArr([x]).items[0] == x && JArr([y]).items[0] == y;
  }

  /** Objects are equal key by key, in whatever order. */
  lemma ObjectsOfOne(a: string, b: string, x: Json, y: Json)
    ensures PyEq(JObj([Pair(a, x)]), JObj([Pair(b, y)])) <==> a == b && PyEq(x, y)
  {
    var ps, qs := [Pair(a, x)], [Pair(b, y)];
    assert ps[0] == Pair(a, x) && qs[0] == Pair(b, y);
  }

  lemma SwappedKeys(a: string, b: string, x: Json, y: Json)
    requires PyEq(x, x) && PyEq(y, y)
    ensures PyEq(JObj([Pair(a, x), Pair(b, y)]), JObj([Pair(b, y), Pair(a, x)]))
  {
    var ps, qs := [Pair(a, x), Pair(b, y)], [Pair(b, y), Pair(a, x)];
    assert ps[0] == qs[1] && ps[1] == qs[0];
  }

  // ---------------------------------------------------------------- where errors are reported

  /** The path of a member and of an item. */
  lemma PathsRead(key: string)
    ensures Member("", key) == key && Member("a.b", key) == "a.b." + key && Index("xs", 7) == "xs[7]"
  {
  }

  /** The schema that a member of an object has: that of the first property with its key. */
  ghost predicate HasSchema(props: seq<Prop>, key: string, s: Schema) {
    exists i :: 0 <= i < |props| && props[i].key == key && props[i].schema == s && forall k :: 0 <= k < i ==> props[k].key != key
  }

  lemma {:induction false} PropIsTheFirst(props: seq<Prop>, key: string)
    ensures forall s :: PropOf(props, key) == Some(s) <==> HasSchema(props, key, s)
  {
    if props != [] {
      PropIsTheFirst(props[1..], key);
      forall s ensures PropOf(props, key) == Some(s) <==> HasSchema(props, key, s) {
        if HasSchema(props[1..], key, s) && props[0].key != key {
          var i :| 0 <= i < |props[1..]| && props[1..][i].key == key && props[1..][i].schema == s
                   && forall k :: 0 <= k < i ==> props[1..][k].key != key;
          assert props[i + 1] == props[1..][i];
          assert forall k :: 0 < k < i + 1 ==> props[k] == props[1..][k - 1];
          assert HasSchema(props, key, s);
        }
        if HasSchema(props, key, s) && props[0].key != key {
          var i :| 0 <= i < |props| && props[i].key == key && props[i].schema == s && forall k :: 0 <= k < i ==> props[k].key != key;
          assert props[1..][i - 1] == props[i];
          assert forall k :: 0 <= k < i - 1 ==> props[1..][k] == props[k + 1];
          assert HasSchema(props[1..], key, s);
        }
      }
    }
  }

  /** The errors of an object: one at the key of each required member that it lacks, then those of the
      members that have a schema, each at its key, in order. */
  lemma ObjectErrorsAreReported(pairs: seq<Pair>, s: Schema, path: string)
    requires s.ty == Some("object") && s.choices.None?
    ensures Errors(JObj(pairs), s, path) == MissingErrors(s.required, pairs, path) + PairErrors(pairs, s.props, path)
  {
  }

  lemma MissingIsReported(required: seq<string>, key: string, pairs: seq<Pair>, path: string)
    ensures MissingErrors([], pairs, path) == []
    ensures MissingErrors(required + [key], pairs, path) ==
            MissingErrors(required, pairs, path)
              + if exists i :: 0 <= i < |pairs| && pairs[i].key == key then [] else [Missing(Member(path, key))]
  {
    assert (required + [key])[..|required|] == required;
  }

  lemma MemberIsReported(pairs: seq<Pair>, p: Pair, props: seq<Prop>, path: string)
    ensures PairErrors([], props, path) == []
    ensures (forall s :: !HasSchema(props, p.key, s)) ==> PairErrors(pairs + [p], props, path) == PairErrors(pairs, props, path)
    ensures forall s :: HasSchema(props, p.key, s) ==>
              PairErrors(pairs + [p], props, path) == PairErrors(pairs, props, path) + Errors(p.value, s, Member(path, p.key))
  {
    assert (pairs + [p])[..|pairs|] == pairs;
    PropIsTheFirst(props, p.key);
    if PropOf(props, p.key).Some? { assert HasSchema(props, p.key, PropOf(props, p.key).value); }
  }

  /** The errors of an array are those of its items, each at its index, in order. */
  lemma ItemIsReported(items: seq<Json>, v: Json, s: Schema, path: string)
    ensures ItemErrors([], s, path) == []
    ensures ItemErrors(items + [v], s, path) == ItemErrors(items, s, path) + Errors(v, s, Index(path, |items|))
  {
    assert (items + [v])[..|items|] == items;
  }

  // ---------------------------------------------------------------- casting

  /** A text becomes the number or the boolean that its schema asks for if it reads as one. */
  lemma TextIsCast(prims: Prims, text: string, s: Schema)
    ensures var r := Cast(prims, JStr(text), s);
      && (s.ty == Some("integer") ==> r == match prims.parseInt(text) case Some(n) => JInt(n) case None => JStr(text))
      && (s.ty == Some("number") ==> r == match prims.parseFloat(text) case Some(x) => JFloat(x) case None => JStr(text))
      && (s.ty == Some("boolean") ==>
            r == if prims.lower(text) in {"true", "1", "yes"} then JBool(true)
                 else if prims.lower(text) in {"false", "0", "no"} then JBool(false) else JStr(text))
      && (s.ty.None? || s.ty.value !in {"integer", "number", "boolean"} ==> r == JStr(text))
  {
  }

  /** Where a text is asked for every other value but null becomes one; otherwise only the members and
      items with a schema of their own are cast, where an object or an array is asked for. */
  lemma OthersAreCast(prims: Prims, v: Json, s: Schema)
    requires !v.JStr?
    ensures var r := Cast(prims, v, s);
      if v == JNull then r == JNull
      else if s.ty == Some("string") then r == JStr(prims.show(v))
      else if v.JObj? && s.ty == Some("object") then r.JObj? && MembersCast(prims, v.pairs, s.props, r.pairs)
      else if v.JArr? && s.ty == Some("array") && s.items.Some? then
        r.JArr? && |r.items| == |v.items| && forall i :: 0 <= i < |v.items| ==> r.items[i] == Cast(prims, v.items[i], s.items.value)
      else r == v
  {
    if v.JObj? { PairsAreCast(prims, v.pairs, s.props); }
    if v.JArr? && s.items.Some? { ItemsAreCast(prims, v.items, s.items.value); }
  }

  ghost predicate MembersCast(prims: Prims, pairs: seq<Pair>, props: seq<Prop>, r: seq<Pair>) {
    && |r| == |pairs|
    && forall i :: 0 <= i < |pairs| ==>
         && r[i].key == pairs[i].key
         && ((forall s :: !HasSchema(props, pairs[i].key, s)) ==> r[i].value == pairs[i].value)
         && (forall s :: HasSchema(props, pairs[i].key, s) ==> r[i].value == Cast(prims, pairs[i].value, s))
  }

  lemma {:induction false} PairsAreCast(prims: Prims, pairs: seq<Pair>, props: seq<Prop>)
    ensures MembersCast(prims, pairs, props, CastPairs(prims, pairs, props))
  {
    if pairs != [] {
      var n := |pairs| - 1;
      PairsAreCast(prims, pairs[..n], props);
      PropIsTheFirst(props, pairs[n].key);
      var prop := PropOf(props, pairs[n].key);
      if prop.Some? { assert HasSchema(props, pairs[n].key, prop.value); }
    }
  }

  lemma {:induction false} ItemsAreCast(prims: Prims, items: seq<Json>, s: Schema)
    ensures forall i :: 0 <= i < |items| ==> CastItems(prims, items, s)[i] == Cast(prims, items[i], s)
  {
    if items != [] { ItemsAreCast(prims, items[..|items| - 1], s); }
  }
}
