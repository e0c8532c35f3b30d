/**
 * The tool-parameter schema sanitiser: JSON Schema (with the `type` array form of section
 * 6.1.1 of JSON Schema Validation 2020-12) rewritten into the OpenAPI 3.0 Schema Object
 * dialect the Gemini API accepts: upper-case type tags, `nullable` instead of a `'null'`
 * type, `anyOf` instead of a type array, and the keywords the dialect lacks removed.
 *
 * The walk goes through `items`, `anyOf` and `properties`; every other key is copied or
 * dropped. The JavaScript code throws a TypeError on a few malformed inputs (a null schema,
 * a non-string type name, an `anyOf` that cannot be iterated); those are `Err` here.
 */
module Schema {
  import opened Wire

  const TypeTags: seq<string> :=
    ["TYPE_UNSPECIFIED", "STRING", "NUMBER", "INTEGER", "BOOLEAN", "ARRAY", "OBJECT", "NULL"]

  /** Keywords the target dialect does not support; they are removed. */
  const Unsupported: seq<string> :=
    ["default", "minItems", "maxItems", "uniqueItems", "pattern", "minLength", "maxLength",
     "title", "examples", "$schema", "$id"]

  predicate Dropped(k: string) {
    k == "additionalProperties" || k in Unsupported
  }

  /** Keys whose values are schemas themselves (or lists / maps of schemas). */
  predicate Walked(k: string) {
    k == "items" || k == "anyOf" || k == "properties"
  }

  /** The upper-cased name when it is one of the eight tags, `TYPE_UNSPECIFIED` otherwise. */
  function TypeTag(name: string): (r: string)
    ensures r in TypeTags
    ensures r == AsciiUpper(name) || r == "TYPE_UNSPECIFIED"
    ensures AsciiUpper(name) in TypeTags ==> r == AsciiUpper(name)
  {
    var u := AsciiUpper(name);
    if u in TypeTags then u else "TYPE_UNSPECIFIED"
  }

  // ---------------------------------------------------------------- sizes for termination

  /** Scalars (strings included) weigh one; containers weigh one more than their contents. */
  function Size(j: Json): nat {
    match j
    case JArr(items) => 1 + SizeItems(items)
    case JObj(fs) => 1 + SizeFields(fs)
    case _ => 1
  }

  function SizeItems(items: seq<Json>): nat {
    if items == [] then 0 else Size(items[0]) + SizeItems(items[1..])
  }

  function SizeFields(fs: seq<Field>): nat {
    if fs == [] then 0 else Size(fs[0].value) + SizeFields(fs[1..])
  }

  lemma {:induction false} ItemWeight(items: seq<Json>, i: nat)
    requires i < |items|
    ensures Size(items[i]) <= SizeItems(items)
  {
    if i > 0 { ItemWeight(items[1..], i - 1); }
  }

  lemma {:induction false} FieldWeight(fs: seq<Field>, i: nat)
    requires i < |fs|
    ensures Size(fs[i].value) <= SizeFields(fs)
  {
    if i > 0 { FieldWeight(fs[1..], i - 1); }
  }

  lemma {:induction false} LookupWeight(fs: seq<Field>, k: string)
    requires Lookup(fs, k).Some?
    ensures Size(Lookup(fs, k).value) <= SizeFields(fs)
  {
    if fs[0].key != k { LookupWeight(fs[1..], k); }
  }

  /** An entry or an iterated element never outweighs the value it comes from. */
  lemma EntryWeight(j: Json, i: nat)
    requires i < |Entries(j)|
    ensures Size(Entries(j)[i].value) <= Size(j)
    ensures j.JObj? ==> Size(Entries(j)[i].value) < Size(j)
    ensures !j.JObj? ==> !Walked(Entries(j)[i].key)
  {
    match j
    case JObj(fs) => FieldWeight(fs, i);
    case JArr(items) => ItemWeight(items, i); DigitsNotWalked(NatToString(i));
    case JStr(s) => DigitsNotWalked(NatToString(i));
  }

  lemma DigitsNotWalked(d: string)
    requires |d| > 0 && forall i :: 0 <= i < |d| ==> '0' <= d[i] <= '9'
    ensures !Walked(d)
  {
    assert d[0] != 'i' && d[0] != 'a' && d[0] != 'p';
  }

  lemma EntriesWeight(j: Json)
    ensures forall i :: 0 <= i < |Entries(j)| && Walked(Entries(j)[i].key) ==>
      Size(Entries(j)[i].value) < Size(j)
  {
    forall i | 0 <= i < |Entries(j)| { EntryWeight(j, i); }
  }

  lemma EntryWeights(j: Json)
    ensures forall i :: 0 <= i < |Entries(j)| ==> Size(Entries(j)[i].value) <= Size(j)
  {
    forall i | 0 <= i < |Entries(j)| { EntryWeight(j, i); }
  }

  lemma IterateWeights(j: Json)
    requires Iterate(j).Ok?
    ensures forall i :: 0 <= i < |Iterate(j).value| ==> Size(Iterate(j).value[i]) <= Size(j)
  {
    forall i | 0 <= i < |Iterate(j).value| { IterateWeight(j, i); }
  }

  lemma IterateWeight(j: Json, i: nat)
    requires Iterate(j).Ok? && i < |Iterate(j).value|
    ensures Size(Iterate(j).value[i]) <= Size(j)
  {
    if j.JArr? { ItemWeight(j.items, i); }
  }

  // ---------------------------------------------------------------- the walk

  /** `_jsonSchema['type'] && _jsonSchema['anyOf']` */
  predicate TruthyKey(j: Json, k: string) {
    Get(j, k).Some? && Truthy(Get(j, k).value)
  }

  function RemoveKey(j: Json, k: string): Json {
    if j.JObj? then JObj(Remove(j.fields, k)) else j
  }

  /** The type names of a `type` array other than `'null'`, in order. */
  function NonNullNames(list: seq<Json>): (r: seq<Json>)
    ensures forall x :: x in r <==> x in list && x != JStr("null")
    ensures |r| <= |list|
    ensures |list| == 1 ==> r == (if list[0] == JStr("null") then [] else list)
  {
    if list == [] then []
    else if list[0] == JStr("null") then NonNullNames(list[1..])
    else [list[0]] + NonNullNames(list[1..])
  }

  /** The filter distributes over concatenation, so it keeps order and multiplicity. */
  lemma {:induction false} NonNullNamesAppend(a: seq<Json>, b: seq<Json>)
    ensures NonNullNames(a + b) == NonNullNames(a) + NonNullNames(b)
    decreases |a|
  {
    if a != [] {
      assert (a + b)[1..] == a[1..] + b;
      NonNullNamesAppend(a[1..], b);
    } else {
      assert a + b == b;
    }
  }

  /** One `{type: TAG}` schema per surviving type name. */
  function SingleTypeSchemas(names: seq<Json>): (r: Result<seq<Json>>)
    ensures r.Ok? ==> |r.value| == |names|
    ensures r.Ok? ==> forall i :: 0 <= i < |names| ==>
      names[i].JStr? && r.value[i] == JObj([Field("type", JStr(TypeTag(names[i].s)))])
    ensures r.Ok? ==> forall i :: 0 <= i < |names| ==> r.value[i].JObj? && Clean(r.value[i])
    ensures r.Ok? <==> forall i :: 0 <= i < |names| ==> names[i].JStr?
  {
    if names == [] then Ok([])
    else if !names[0].JStr? then Err("TypeError: type name is not a string")
    else match SingleTypeSchemas(names[1..])
      case Err(e) => Err(e)
      case Ok(rest) =>
        TagSchemaClean(TypeTag(names[0].s));
        Ok([JObj([Field("type", JStr(TypeTag(names[0].s)))])] + rest)
  }

  /** `flattenTypeArrayToAnyOf` writing into the output fields `out`. */
  function FlattenTypeArray(list: seq<Json>, out: seq<Field>): (r: Result<seq<Field>>)
    requires CleanFields(out)
    ensures r.Ok? ==> CleanFields(r.value)
    ensures r.Ok? <==> forall i :: 0 <= i < |NonNullNames(list)| ==> NonNullNames(list)[i].JStr?
    ensures r.Ok? && JStr("null") in list ==> Lookup(r.value, "nullable") == Some(JBool(true))
    ensures r.Ok? && JStr("null") !in list ==> Lookup(r.value, "nullable") == Lookup(out, "nullable")
    ensures r.Ok? && |NonNullNames(list)| == 1 ==>
      Lookup(r.value, "type") == Some(JStr(TypeTag(NonNullNames(list)[0].s))) &&
      Lookup(r.value, "anyOf") == Lookup(out, "anyOf")
    ensures var names := NonNullNames(list);
      r.Ok? && |names| != 1 ==>
        Lookup(r.value, "type") == Lookup(out, "type") &&
        Lookup(r.value, "anyOf").Some? && Lookup(r.value, "anyOf").value.JArr? &&
        |Lookup(r.value, "anyOf").value.items| == |names| &&
        forall i :: 0 <= i < |names| ==>
          Lookup(r.value, "anyOf").value.items[i] == JObj([Field("type", JStr(TypeTag(names[i].s)))])
    ensures r.Ok? ==> forall k :: k != "nullable" && k != "type" && k != "anyOf" ==> Lookup(r.value, k) == Lookup(out, k)
  {
    var out1 := NullableIfListed(list, out);
    var names := NonNullNames(list);
    if |names| == 1 then
      assert (forall i :: 0 <= i < |names| ==> names[i].JStr?) <==> names[0].JStr?;
      assert ScalarType(names[0], out1).Ok? <==> names[0].JStr?;
      assert names == NonNullNames(list);
      ScalarType(names[0], out1)
    else TypeAlternatives(names, out1)
  }

  /** A `'null'` in the type array sets `nullable: true`. */
  function NullableIfListed(list: seq<Json>, out: seq<Field>): (r: seq<Field>)
    requires CleanFields(out)
    ensures CleanFields(r)
    ensures JStr("null") in list ==> Lookup(r, "nullable") == Some(JBool(true))
    ensures JStr("null") !in list ==> r == out
    ensures forall k :: k != "nullable" ==> Lookup(r, k) == Lookup(out, k)
  {
    PutClean(out, "nullable", JBool(true));
    if JStr("null") in list then Put(out, "nullable", JBool(true)) else out
  }

  /** A single remaining type name becomes the scalar `type` tag. */
  function ScalarType(name: Json, out: seq<Field>): (r: Result<seq<Field>>)
    requires CleanFields(out)
    ensures r.Ok? ==> CleanFields(r.value)
    ensures r.Ok? <==> name.JStr?
    ensures r.Ok? ==> Lookup(r.value, "type") == Some(JStr(TypeTag(name.s)))
    ensures r.Ok? ==> forall k :: k != "type" ==> Lookup(r.value, k) == Lookup(out, k)
  {
    if name.JStr? then
      TypeClean(TypeTag(name.s));
      PutClean(out, "type", JStr(TypeTag(name.s)));
      Ok(Put(out, "type", JStr(TypeTag(name.s))))
    else Err("TypeError: type name is not a string")
  }

  /** Several (or no) remaining type names become an `anyOf` of one-type schemas. */
  function TypeAlternatives(names: seq<Json>, out: seq<Field>): (r: Result<seq<Field>>)
    requires CleanFields(out)
    ensures r.Ok? ==> CleanFields(r.value)
    ensures r.Ok? <==> forall i :: 0 <= i < |names| ==> names[i].JStr?
    ensures r.Ok? ==> Lookup(r.value, "anyOf") == Some(JArr(SingleTypeSchemas(names).value))
    ensures r.Ok? ==> forall k :: k != "anyOf" ==> Lookup(r.value, k) == Lookup(out, k)
  {
    match SingleTypeSchemas(names)
    case Err(e) => Err(e)
    case Ok(branches) =>
      AnyOfClean(branches);
      PutClean(out, "anyOf", JArr(branches));
      Ok(Put(out, "anyOf", JArr(branches)))
  }

  /** The value of `type` when it is an array. */
  function TypeArray(j: Json): Option<seq<Json>> {
    var t := Get(j, "type");
    if t.Some? && t.value.JArr? then Some(t.value.items) else None
  }

  /** The output fields before the entries loop: `type` arrays are flattened first. */
  function StartFields(target: Json, out0: seq<Field>): (r: Result<seq<Field>>)
    requires CleanFields(out0)
    ensures r.Ok? ==> CleanFields(r.value)
  {
    var t := TypeArray(target);
    if t.Some? then FlattenTypeArray(t.value, out0) else Ok(out0)
  }

  /**
   * The result of collapsing a two-branch `anyOf` whose one branch has type `'null'`:
   * whether `nullable` is set, and the schema the walk continues on.
   */
  function NullBranchCollapse(j: Json): (bool, Json) {
    match Get(j, "anyOf")
    case Some(JArr(items)) =>
      if |items| == 2 && Truthy(items[0]) && IsNullTypeName(items[0], "type") then (true, items[1])
      else if |items| == 2 && Truthy(items[1]) && IsNullTypeName(items[1], "type") then (true, items[0])
      else (false, j)
    case _ => (false, j)
  }

  lemma CollapseWeight(j: Json)
    ensures Size(NullBranchCollapse(j).1) <= Size(j)
  {
    match Get(j, "anyOf")
    case Some(JArr(items)) =>
      if |items| == 2 {
        LookupWeight(j.fields, "anyOf");
        ItemWeight(items, 0);
        ItemWeight(items, 1);
      }
    case _ =>
  }

  /**
   * The first two steps of `processRecursively`: `type` is deleted when `anyOf` is also
   * present, then a two-branch `anyOf` with a `'null'` branch collapses to the other branch.
   */
  function Prepare(j: Json): (r: (bool, Json))
    ensures Size(r.1) <= Size(j)
  {
    var j1 := if TruthyKey(j, "type") && TruthyKey(j, "anyOf") then RemoveKey(j, "type") else j;
    RemoveWeight(j, "type");
    CollapseWeight(j1);
    NullBranchCollapse(j1)
  }

  function NullableStart(nullable: bool): (r: seq<Field>)
    ensures CleanFields(r)
  {
    if nullable then [Field("nullable", JBool(true))] else []
  }

  /** `processRecursively`: the sanitised copy of one schema. */
  function Process(j: Json): (r: Result<Json>)
    ensures r.Ok? ==> r.value.JObj? && Clean(r.value)
    decreases Size(j), 3, 0
  {
    if j == JNull then Err("TypeError: cannot read properties of null")
    else
      var (nullable, target) := Prepare(j);
      if target == JNull then Err("TypeError: cannot read properties of null")
      else match StartFields(target, NullableStart(nullable))
        case Err(e) => Err(e)
        case Ok(out) =>
          EntriesWeight(target);
          match ProcessFields(Entries(target), out, Size(target))
          case Err(e) => Err(e)
          case Ok(fs) => Ok(JObj(fs))
  }

  /** The loop over `Object.entries(_jsonSchema)`, adding to the output fields `out`. */
  function ProcessFields(es: seq<Field>, out: seq<Field>, bound: nat): (r: Result<seq<Field>>)
    requires forall i :: 0 <= i < |es| && Walked(es[i].key) ==> Size(es[i].value) < bound
    requires CleanFields(out)
    ensures r.Ok? ==> CleanFields(r.value)
    decreases bound, 2, |es|
  {
    if es == [] then Ok(out)
    else match FieldStep(es[0].key, es[0].value, out, bound)
      case Err(e) => Err(e)
      case Ok(out') => ProcessFields(es[1..], out', bound)
  }

  /** One iteration of the entries loop, for the key `k` with the (non-undefined) value `v`. */
  function FieldStep(k: string, v: Json, out: seq<Field>, bound: nat): (r: Result<seq<Field>>)
    requires Walked(k) ==> Size(v) < bound
    requires CleanFields(out)
    ensures r.Ok? ==> CleanFields(r.value)
    ensures k == "items" && v != JNull ==>
              && (r.Ok? <==> Process(v).Ok?)
              && (r.Ok? ==> Lookup(r.value, "items") == Some(Process(v).value))
              && (r.Ok? ==> forall k' :: k' != "items" ==> Lookup(r.value, k') == Lookup(out, k'))
    decreases bound, 1, 1
  {
    if v == JNull then Ok(out)
    else if k == "type" then TypeField(v, out)
    else if k == "items" then
      match Process(v)
      case Err(e) => Err(e)
      case Ok(s) =>
        PutClean(out, "items", s);
        Ok(Put(out, "items", s))
    else if k == "anyOf" then AnyOfField(v, out, bound)
    else if k == "properties" then PropertiesField(v, out, bound)
    else if Dropped(k) then Ok(out)
    else
      PutClean(out, k, v);
      Ok(Put(out, k, v))
  }

  /** A `type` entry: `'null'` and arrays are skipped, other names become tags. */
  function TypeField(v: Json, out: seq<Field>): (r: Result<seq<Field>>)
    requires CleanFields(out)
    ensures r.Ok? ==> CleanFields(r.value)
    ensures r.Ok? <==> v.JStr? || v.JArr?
    ensures v.JStr? && v.s != "null" ==> r.Ok? && Lookup(r.value, "type") == Some(JStr(TypeTag(v.s)))
    ensures v == JStr("null") || v.JArr? ==> r == Ok(out)
    ensures r.Ok? ==> forall k :: k != "type" ==> Lookup(r.value, k) == Lookup(out, k)
  {
    match v
    case JStr(s) =>
      if s == "null" then Ok(out)
      else
        PutClean(out, "type", JStr(TypeTag(s)));
        Ok(Put(out, "type", JStr(TypeTag(s))))
    case JArr(_) => Ok(out)
    case _ => Err("TypeError: type is not a string")
  }

  function AnyOfField(v: Json, out: seq<Field>, bound: nat): (r: Result<seq<Field>>)
    requires Size(v) < bound
    requires CleanFields(out)
    ensures r.Ok? ==> CleanFields(r.value)
    decreases bound, 1, 0
  {
    match Iterate(v)
    case Err(e) => Err(e)
    case Ok(items) =>
      IterateWeights(v);
      var pl := ProcessList(items, out, bound);
      if pl.Err? then Err(pl.error)
      else
        PutClean(pl.value.0, "anyOf", JArr(pl.value.1));
        Ok(Put(pl.value.0, "anyOf", JArr(pl.value.1)))
  }

  function PropertiesField(v: Json, out: seq<Field>, bound: nat): (r: Result<seq<Field>>)
    requires Size(v) < bound
    requires CleanFields(out)
    ensures r.Ok? ==> CleanFields(r.value)
    decreases bound, 1, 0
  {
    EntryWeights(v);
    var d := ProcessDict(Entries(v), [], bound);
    if d.Err? then Err(d.error)
    else
      PutClean(out, "properties", JObj(d.value));
      Ok(Put(out, "properties", JObj(d.value)))
  }

  /**
   * The loop over an `anyOf` list: a branch of type `'null'` sets `nullable` on the
   * enclosing output instead of becoming a branch; the others are sanitised in order.
   */
  function ProcessList(items: seq<Json>, out: seq<Field>, bound: nat)
    : (r: Result<(seq<Field>, seq<Json>)>)
    requires forall i :: 0 <= i < |items| ==> Size(items[i]) < bound
    requires CleanFields(out)
    ensures r.Ok? ==> CleanFields(r.value.0) && forall x :: x in r.value.1 ==> x.JObj? && Clean(x)
    ensures r.Ok? ==> |r.value.1| == |NonNullBranches(items)|
    ensures r.Ok? ==> forall k :: k != "nullable" ==> Lookup(r.value.0, k) == Lookup(out, k)
    ensures r.Ok? ==>
      Lookup(r.value.0, "nullable") ==
      (if HasNullBranch(items) then Some(JBool(true)) else Lookup(out, "nullable"))
    decreases bound, 0, |items|
  {
    if items == [] then Ok((out, []))
    else if items[0] == JNull then Err("TypeError: cannot read properties of null")
    else if IsNullTypeName(items[0], "type") then
      PutClean(out, "nullable", JBool(true));
      assert HasNullBranch(items) by { assert IsNullTypeName(items[0], "type"); }
      assert NonNullBranches(items) == NonNullBranches(items[1..]);
      ProcessList(items[1..], Put(out, "nullable", JBool(true)), bound)
    else match Process(items[0])
      case Err(e) => Err(e)
      case Ok(s) =>
        NullBranchTail(items);
        var rest := ProcessList(items[1..], out, bound);
        assert NonNullBranches(items) == [items[0]] + NonNullBranches(items[1..]);
        if rest.Err? then Err(rest.error)
        else Ok((rest.value.0, [s] + rest.value.1))
  }

  /**
   * Reference definition: every schema of `xs` sanitised, in order, or the first
   * error. The `anyOf` loop is this on the non-null branches.
   */
  function ProcessEach(xs: seq<Json>): (r: Result<seq<Json>>)
    ensures r.Ok? <==> forall i :: 0 <= i < |xs| ==> Process(xs[i]).Ok?
    ensures r.Ok? ==> |r.value| == |xs| && forall i :: 0 <= i < |xs| ==> Process(xs[i]) == Ok(r.value[i])
  {
    if xs == [] then Ok([])
    else match Process(xs[0])
      case Err(e) => Err(e)
      case Ok(s) =>
        match ProcessEach(xs[1..])
        case Err(e) => Err(e)
        case Ok(bs) =>
          assert forall i :: 0 < i < |xs| ==> xs[i] == xs[1..][i - 1];
          Ok([s] + bs)
  }

  /** The `anyOf` loop yields `ProcessEach` of the non-null branches, error included. */
  lemma {:induction false} ProcessListBranches(items: seq<Json>, out: seq<Field>, bound: nat)
    requires forall i :: 0 <= i < |items| ==> Size(items[i]) < bound
    requires CleanFields(out)
    ensures var r := ProcessList(items, out, bound);
            match ProcessEach(NonNullBranches(items))
            case Ok(bs) => r.Ok? && r.value.1 == bs
            case Err(e) => r == Err(e)
    decreases |items|
  {
    if items == [] {
    } else if items[0] == JNull {
      assert NonNullBranches(items) == [JNull] + NonNullBranches(items[1..]);
    } else if IsNullTypeName(items[0], "type") {
      PutClean(out, "nullable", JBool(true));
      ProcessListBranches(items[1..], Put(out, "nullable", JBool(true)), bound);
      NullStep(items, out, bound);
    } else {
      ProcessListBranches(items[1..], out, bound);
      BranchStep(items, out, bound);
    }
  }

  /** A leading `'null'` branch: the loop only sets `nullable` and goes on. */
  lemma NullStep(items: seq<Json>, out: seq<Field>, bound: nat)
    requires forall i :: 0 <= i < |items| ==> Size(items[i]) < bound
    requires CleanFields(out)
    requires items != [] && IsNullTypeName(items[0], "type")
    ensures CleanFields(Put(out, "nullable", JBool(true)))
    ensures ProcessList(items, out, bound) == ProcessList(items[1..], Put(out, "nullable", JBool(true)), bound)
    ensures NonNullBranches(items) == NonNullBranches(items[1..])
  {
    PutClean(out, "nullable", JBool(true));
  }

  /** One non-null leading branch: both sides sanitise it first, then the rest. */
  lemma BranchStep(items: seq<Json>, out: seq<Field>, bound: nat)
    requires forall i :: 0 <= i < |items| ==> Size(items[i]) < bound
    requires CleanFields(out)
    requires items != [] && items[0] != JNull && !IsNullTypeName(items[0], "type")
    requires var r := ProcessList(items[1..], out, bound);
             match ProcessEach(NonNullBranches(items[1..]))
             case Ok(bs) => r.Ok? && r.value.1 == bs
             case Err(e) => r == Err(e)
    ensures var r := ProcessList(items, out, bound);
            match ProcessEach(NonNullBranches(items))
            case Ok(bs) => r.Ok? && r.value.1 == bs
            case Err(e) => r == Err(e)
  {
    var nn := NonNullBranches(items);
    assert nn == [items[0]] + NonNullBranches(items[1..]);
    assert nn[1..] == NonNullBranches(items[1..]);
  }

  /** A leading branch that is not of type `'null'` does not decide `HasNullBranch`. */
  lemma NullBranchTail(items: seq<Json>)
    requires items != [] && !IsNullTypeName(items[0], "type")
    ensures HasNullBranch(items) <==> HasNullBranch(items[1..])
  {
    if HasNullBranch(items) {
      var i :| 0 <= i < |items| && IsNullTypeName(items[i], "type");
      assert items[1..][i - 1] == items[i];
    }
    if HasNullBranch(items[1..]) {
      var i :| 0 <= i < |items[1..]| && IsNullTypeName(items[1..][i], "type");
      assert items[i + 1] == items[1..][i];
    }
  }

  /** Some branch of an `anyOf` list has type `'null'`. */
  predicate HasNullBranch(items: seq<Json>) {
    exists i :: 0 <= i < |items| && IsNullTypeName(items[i], "type")
  }

  /** The branches of an `anyOf` list that do not have type `'null'`, in order. */
  function NonNullBranches(items: seq<Json>): (r: seq<Json>)
    ensures forall x :: x in r <==> x in items && !IsNullTypeName(x, "type")
    ensures forall i :: 0 <= i < |r| ==> r[i] in items
    ensures |items| == 1 ==> r == (if IsNullTypeName(items[0], "type") then [] else items)
  {
    if items == [] then []
    else (if IsNullTypeName(items[0], "type") then [] else [items[0]]) + NonNullBranches(items[1..])
  }

  /** The filter distributes over concatenation, so it keeps order and multiplicity. */
  lemma {:induction false} NonNullBranchesAppend(a: seq<Json>, b: seq<Json>)
    ensures NonNullBranches(a + b) == NonNullBranches(a) + NonNullBranches(b)
    decreases |a|
  {
    if a != [] {
      assert (a + b)[1..] == a[1..] + b;
      NonNullBranchesAppend(a[1..], b);
    } else {
      assert a + b == b;
    }
  }

  /** The loop over the entries of `properties`: every property schema is sanitised. */
  function ProcessDict(ps: seq<Field>, acc: seq<Field>, bound: nat): (r: Result<seq<Field>>)
    requires forall i :: 0 <= i < |ps| ==> Size(ps[i].value) < bound
    requires forall i :: 0 <= i < |acc| ==> acc[i].value.JObj? && Clean(acc[i].value)
    ensures r.Ok? ==> forall i :: 0 <= i < |r.value| ==> r.value[i].value.JObj? && Clean(r.value[i].value)
    decreases bound, 0, |ps|
  {
    if ps == [] then Ok(acc)
    else match Process(ps[0].value)
      case Err(e) => Err(e)
      case Ok(s) =>
        PutPreserves(acc, ps[0].key, s);
        ProcessDict(ps[1..], Put(acc, ps[0].key, s), bound)
  }

  /**
   * The sanitised dictionary has, for each key of the input, the sanitised value of the
   * last entry with that key; the keys it does not list are as in `acc`.
   */
  lemma {:induction false} ProcessDictEntries(ps: seq<Field>, acc: seq<Field>, bound: nat)
    requires forall i :: 0 <= i < |ps| ==> Size(ps[i].value) < bound
    requires forall i :: 0 <= i < |acc| ==> acc[i].value.JObj? && Clean(acc[i].value)
    requires ProcessDict(ps, acc, bound).Ok?
    ensures var d := ProcessDict(ps, acc, bound).value;
            forall k :: k !in Keys(ps) ==> Lookup(d, k) == Lookup(acc, k)
    ensures var d := ProcessDict(ps, acc, bound).value;
            forall i :: 0 <= i < |ps| && LastKey(ps, i) ==>
              Lookup(d, ps[i].key).Some? && Process(ps[i].value) == Ok(Lookup(d, ps[i].key).value)
    decreases |ps|
  {
    if ps != [] {
      var s := Process(ps[0].value).value;
      PutPreserves(acc, ps[0].key, s);
      ProcessDictEntries(ps[1..], Put(acc, ps[0].key, s), bound);
      KeysTail(ps);
      var d := ProcessDict(ps, acc, bound).value;
      assert d == ProcessDict(ps[1..], Put(acc, ps[0].key, s), bound).value;
      forall i | 0 < i < |ps| && LastKey(ps, i)
        ensures Lookup(d, ps[i].key).Some? && Process(ps[i].value) == Ok(Lookup(d, ps[i].key).value)
      {
        assert ps[1..][i - 1] == ps[i];
      }
    }
  }

  /** The dictionary loop fails exactly when sanitising one of the values fails. */
  lemma {:induction false} ProcessDictOk(ps: seq<Field>, acc: seq<Field>, bound: nat)
    requires forall i :: 0 <= i < |ps| ==> Size(ps[i].value) < bound
    requires forall i :: 0 <= i < |acc| ==> acc[i].value.JObj? && Clean(acc[i].value)
    ensures ProcessDict(ps, acc, bound).Ok? <==> forall i :: 0 <= i < |ps| ==> Process(ps[i].value).Ok?
    decreases |ps|
  {
    if ps != [] && Process(ps[0].value).Ok? {
      var s := Process(ps[0].value).value;
      PutPreserves(acc, ps[0].key, s);
      ProcessDictOk(ps[1..], Put(acc, ps[0].key, s), bound);
      assert forall i :: 0 < i < |ps| ==> ps[i] == ps[1..][i - 1];
    }
  }

  /** Entry `i` is the last one with its key, so its value is the one an object keeps. */
  predicate LastKey(ps: seq<Field>, i: nat)
    requires i < |ps|
  {
    forall j :: i < j < |ps| ==> ps[j].key != ps[i].key
  }

  /** The keys of all entries but the first, and how `LastKey` shifts with them. */
  lemma KeysTail(ps: seq<Field>)
    requires ps != []
    ensures forall k :: k in Keys(ps) <==> k == ps[0].key || k in Keys(ps[1..])
    ensures LastKey(ps, 0) <==> ps[0].key !in Keys(ps[1..])
    ensures forall i :: 0 < i < |ps| ==> (LastKey(ps, i) <==> LastKey(ps[1..], i - 1))
  {
    assert Keys(ps) == [ps[0].key] + Keys(ps[1..]);
    LastKeyFirst(ps);
    forall i | 0 < i < |ps| ensures LastKey(ps, i) <==> LastKey(ps[1..], i - 1) {
      LastKeyShift(ps, i);
    }
  }

  lemma LastKeyFirst(ps: seq<Field>)
    requires ps != []
    ensures LastKey(ps, 0) <==> ps[0].key !in Keys(ps[1..])
  {
    var ks := Keys(ps[1..]);
    if ps[0].key in ks {
      var j :| 0 <= j < |ks| && ks[j] == ps[0].key;
      assert ps[1..][j] == ps[j + 1];
    }
    if !LastKey(ps, 0) {
      var j :| 0 < j < |ps| && ps[j].key == ps[0].key;
      assert ks[j - 1] == ps[j].key;
    }
  }

  lemma LastKeyShift(ps: seq<Field>, i: nat)
    requires 0 < i < |ps|
    ensures LastKey(ps, i) <==> LastKey(ps[1..], i - 1)
  {
    if LastKey(ps[1..], i - 1) {
      forall j | i < j < |ps| ensures ps[j].key != ps[i].key {
        assert ps[1..][j - 1] == ps[j];
      }
    }
  }

  /** `_processJsonSchema`: a falsy schema yields no parameters at all. */
  function ProcessJsonSchema(schema: Json): (r: Result<Option<Json>>)
    ensures !Truthy(schema) ==> r == Ok(None)
    ensures Truthy(schema) ==> r.Ok? == Process(schema).Ok?
    ensures Truthy(schema) && r.Ok? ==> r.value == Some(Process(schema).value)
    ensures r.Ok? && r.value.Some? ==> r.value.value.JObj? && Clean(r.value.value)
  {
    if !Truthy(schema) then Ok(None)
    else match Process(schema)
      case Err(e) => Err(e)
      case Ok(s) => Ok(Some(s))
  }

  // ---------------------------------------------------------------- what a clean schema is

  /**
   * A sanitised schema object: every `type` is one of the eight tags, no dropped keyword is
   * left, and the same holds of every schema reached through `items`, `anyOf` and the
   * values of `properties`.
   */
  ghost predicate Clean(j: Json)
    decreases j, 1
  {
    j.JObj? ==> CleanFields(j.fields)
  }

  ghost predicate CleanFields(fs: seq<Field>)
    decreases fs, 0
  {
    forall i :: 0 <= i < |fs| ==> CleanField(fs[i])
  }

  ghost predicate CleanField(f: Field)
    decreases f
  {
    && !Dropped(f.key)
    && (f.key == "type" ==> f.value.JStr? && f.value.s in TypeTags)
    && (f.key == "items" ==> f.value.JObj? && Clean(f.value))
    && (f.key == "anyOf" ==>
          f.value.JArr? &&
          forall m :: 0 <= m < |f.value.items| ==> f.value.items[m].JObj? && Clean(f.value.items[m]))
    && (f.key == "properties" ==>
          f.value.JObj? &&
          forall m :: 0 <= m < |f.value.fields| ==>
            f.value.fields[m].value.JObj? && Clean(f.value.fields[m].value))
  }

  lemma {:induction false} PutClean(fs: seq<Field>, k: string, v: Json)
    requires CleanFields(fs) && CleanField(Field(k, v))
    ensures CleanFields(Put(fs, k, v))
  {
    if fs != [] && fs[0].key != k {
      PutClean(fs[1..], k, v);
      assert Put(fs, k, v) == [fs[0]] + Put(fs[1..], k, v);
    }
  }

  lemma {:induction false} PutPreserves(acc: seq<Field>, k: string, s: Json)
    requires forall i :: 0 <= i < |acc| ==> acc[i].value.JObj? && Clean(acc[i].value)
    requires s.JObj? && Clean(s)
    ensures forall i :: 0 <= i < |Put(acc, k, s)| ==>
      Put(acc, k, s)[i].value.JObj? && Clean(Put(acc, k, s)[i].value)
  {
    if acc != [] && acc[0].key != k {
      PutPreserves(acc[1..], k, s);
      assert Put(acc, k, s) == [acc[0]] + Put(acc[1..], k, s);
    }
  }

  lemma RemoveWeight(j: Json, k: string)
    ensures Size(RemoveKey(j, k)) <= Size(j)
  {
    if j.JObj? { RemoveFieldsWeight(j.fields, k); }
  }

  lemma {:induction false} RemoveFieldsWeight(fs: seq<Field>, k: string)
    ensures SizeFields(Remove(fs, k)) <= SizeFields(fs)
  {
    if fs != [] {
      RemoveFieldsWeight(fs[1..], k);
      if fs[0].key != k { assert Remove(fs, k) == [fs[0]] + Remove(fs[1..], k); }
    }
  }

  lemma TypeClean(tag: string)
    requires tag in TypeTags
    ensures CleanField(Field("type", JStr(tag)))
  {
  }

  lemma AnyOfClean(bs: seq<Json>)
    requires forall i :: 0 <= i < |bs| ==> bs[i].JObj? && Clean(bs[i])
    ensures CleanField(Field("anyOf", JArr(bs)))
  {
  }

  lemma TagSchemaClean(tag: string)
    requires tag in TypeTags
    ensures Clean(JObj([Field("type", JStr(tag))]))
  {
    assert CleanField(Field("type", JStr(tag)));
  }

  // ---------------------------------------------------------------- what the walk does to keys

  /** Parsed JSON objects have each key once. */
  predicate UniqueKeys(fs: seq<Field>) {
    forall i, j :: 0 <= i < j < |fs| ==> fs[i].key != fs[j].key
  }

  /** Processing the entry `f` leaves the output key `k` as it was. */
  predicate Untouched(f: Field, k: string) {
    || f.value == JNull
    || (f.key == "type" && f.value.JArr?)
    || (f.key != k && !(k == "nullable" && f.key == "anyOf"))
  }

  lemma FieldStepFrame(k0: string, v: Json, out: seq<Field>, bound: nat, k: string)
    requires Walked(k0) ==> Size(v) < bound
    requires CleanFields(out)
    requires FieldStep(k0, v, out, bound).Ok?
    requires Untouched(Field(k0, v), k)
    ensures Lookup(FieldStep(k0, v, out, bound).value, k) == Lookup(out, k)
  {
  }

  lemma {:induction false} FieldsFrame(es: seq<Field>, out: seq<Field>, bound: nat, k: string)
    requires forall i :: 0 <= i < |es| && Walked(es[i].key) ==> Size(es[i].value) < bound
    requires CleanFields(out)
    requires ProcessFields(es, out, bound).Ok?
    requires forall i :: 0 <= i < |es| ==> Untouched(es[i], k)
    ensures Lookup(ProcessFields(es, out, bound).value, k) == Lookup(out, k)
  {
    if es != [] {
      var o := FieldStep(es[0].key, es[0].value, out, bound).value;
      FieldStepFrame(es[0].key, es[0].value, out, bound, k);
      assert Untouched(es[0], k);
      FieldsFrame(es[1..], o, bound, k);
    }
  }

  /**
   * When no entry after position `i` touches `k`, the final value of `k` is the one the
   * step at `i` leaves.
   */
  lemma {:induction false} FieldsAt(es: seq<Field>, out: seq<Field>, bound: nat, i: nat, k: string)
    requires forall i :: 0 <= i < |es| && Walked(es[i].key) ==> Size(es[i].value) < bound
    requires CleanFields(out)
    requires ProcessFields(es, out, bound).Ok?
    requires i < |es|
    requires forall j :: i < j < |es| ==> Untouched(es[j], k)
    ensures ProcessFields(es[..i], out, bound).Ok?
    ensures FieldStep(es[i].key, es[i].value, ProcessFields(es[..i], out, bound).value, bound).Ok?
    ensures Lookup(ProcessFields(es, out, bound).value, k) ==
            Lookup(FieldStep(es[i].key, es[i].value, ProcessFields(es[..i], out, bound).value, bound).value, k)
  {
    var o := FieldStep(es[0].key, es[0].value, out, bound).value;
    if i == 0 {
      assert es[..0] == [];
      FieldsFrame(es[1..], o, bound, k);
    } else {
      FieldsAt(es[1..], o, bound, i - 1, k);
      assert es[1..][..i - 1] == es[..i][1..];
      assert es[1..][i - 1] == es[i];
    }
  }

  lemma LookupUnique(fs: seq<Field>, k: string, v: Json, i: nat)
    requires UniqueKeys(fs) && Lookup(fs, k) == Some(v) && i < |fs| && fs[i].key == k
    ensures fs[i].value == v
  {
    if fs[0].key != k {
      assert forall j :: 0 <= j < |fs[1..]| ==> fs[1..][j] == fs[j + 1];
      LookupUnique(fs[1..], k, v, i - 1);
    }
  }

  lemma LookupAbsent(fs: seq<Field>, k: string, i: nat)
    requires Lookup(fs, k).None? && i < |fs|
    ensures fs[i].key != k
  {
    assert Keys(fs)[i] == fs[i].key;
  }

  /**
   * A keyword outside the walked, typed and dropped ones is copied unchanged; this is how
   * `description`, `enum`, `required` and the like reach the output.
   */
  lemma PassThrough(fs: seq<Field>, i: nat)
    requires UniqueKeys(fs) && i < |fs|
    requires var k := fs[i].key;
      !Dropped(k) && !Walked(k) && k != "type" && k != "nullable" && fs[i].value != JNull
    requires !(TruthyKey(JObj(fs), "type") && TruthyKey(JObj(fs), "anyOf"))
    requires !NullBranchCollapse(JObj(fs)).0
    requires Process(JObj(fs)).Ok?
    ensures Get(Process(JObj(fs)).value, fs[i].key) == Some(fs[i].value)
  {
    var j := JObj(fs);
    var k := fs[i].key;
    assert Prepare(j) == (false, j);
    var out := StartFields(j, []).value;
    EntriesWeight(j);
    forall m | i < m < |fs| ensures Untouched(fs[m], k) { }
    FieldsAt(fs, out, Size(j), i, k);
  }

  /**
   * A `type` array of `'null'` and one other name becomes `nullable: true` with that
   * name as the scalar type tag.
   */
  lemma TypeArrayWithNull(fs: seq<Field>, list: seq<Json>, t: string)
    requires UniqueKeys(fs)
    requires Lookup(fs, "type") == Some(JArr(list))
    requires JStr("null") in list && NonNullNames(list) == [JStr(t)]
    requires "nullable" !in Keys(fs) && Lookup(fs, "anyOf").None?
    requires Process(JObj(fs)).Ok?
    ensures Get(Process(JObj(fs)).value, "nullable") == Some(JBool(true))
    ensures Get(Process(JObj(fs)).value, "type") == Some(JStr(TypeTag(t)))
  {
    var j := JObj(fs);
    assert Prepare(j) == (false, j);
    var out := StartFields(j, []).value;
    assert Lookup(out, "nullable") == Some(JBool(true));
    assert Lookup(out, "type") == Some(JStr(TypeTag(t)));
    EntriesWeight(j);
    forall m | 0 <= m < |fs| ensures Untouched(fs[m], "nullable") && Untouched(fs[m], "type") {
      LookupAbsent(fs, "nullable", m);
      LookupAbsent(fs, "anyOf", m);
      if fs[m].key == "type" { LookupUnique(fs, "type", JArr(list), m); }
    }
    FieldsFrame(fs, out, Size(j), "nullable");
    FieldsFrame(fs, out, Size(j), "type");
  }

  /**
   * Two output records that agree on every key but `nullable`, the first of which has
   * `nullable: true`: the state of the walk of a collapsed `anyOf` against that of the
   * branch walked on its own.
   */
  ghost predicate NullableAhead(o1: seq<Field>, o2: seq<Field>) {
    && Lookup(o1, "nullable") == Some(JBool(true))
    && forall k :: k != "nullable" ==> Lookup(o1, k) == Lookup(o2, k)
  }

  lemma StartAhead(b: Json, o1: seq<Field>, o2: seq<Field>)
    requires CleanFields(o1) && CleanFields(o2) && NullableAhead(o1, o2)
    ensures StartFields(b, o1).Ok? <==> StartFields(b, o2).Ok?
    ensures StartFields(b, o1).Ok? ==> NullableAhead(StartFields(b, o1).value, StartFields(b, o2).value)
  {
    var t := TypeArray(b);
    if t.Some? && StartFields(b, o1).Ok? {
      forall k | k != "nullable"
        ensures Lookup(FlattenTypeArray(t.value, o1).value, k) == Lookup(FlattenTypeArray(t.value, o2).value, k)
      {
        FlattenKey(t.value, o1, o2, k);
      }
    }
  }

  lemma FlattenKey(list: seq<Json>, o1: seq<Field>, o2: seq<Field>, k: string)
    requires CleanFields(o1) && CleanFields(o2) && NullableAhead(o1, o2)
    requires FlattenTypeArray(list, o1).Ok? && k != "nullable"
    ensures FlattenTypeArray(list, o2).Ok?
    ensures Lookup(FlattenTypeArray(list, o1).value, k) == Lookup(FlattenTypeArray(list, o2).value, k)
  {
    var names := NonNullNames(list);
    if k == "anyOf" && |names| != 1 {
      var a1 := Lookup(FlattenTypeArray(list, o1).value, "anyOf").value.items;
      var a2 := Lookup(FlattenTypeArray(list, o2).value, "anyOf").value.items;
      assert |a1| == |a2|;
      forall i | 0 <= i < |a1| ensures a1[i] == a2[i] { }
      assert a1 == a2;
    }
  }

  lemma StepAhead(k: string, v: Json, o1: seq<Field>, o2: seq<Field>, bound: nat)
    requires Walked(k) ==> Size(v) < bound
    requires CleanFields(o1) && CleanFields(o2) && NullableAhead(o1, o2)
    requires k != "nullable"
    ensures FieldStep(k, v, o1, bound).Ok? <==> FieldStep(k, v, o2, bound).Ok?
    ensures FieldStep(k, v, o1, bound).Ok? ==>
      NullableAhead(FieldStep(k, v, o1, bound).value, FieldStep(k, v, o2, bound).value)
  {
    if v == JNull {
    } else if k == "anyOf" {
      assert FieldStep(k, v, o1, bound) == AnyOfField(v, o1, bound);
      assert FieldStep(k, v, o2, bound) == AnyOfField(v, o2, bound);
      AnyOfAhead(v, o1, o2, bound);
    } else if k == "properties" {
      PropertiesAhead(v, o1, o2, bound);
    } else if k == "type" {
      TypeAhead(v, o1, o2);
    } else if k == "items" {
      ItemsAhead(v, o1, o2, bound);
    } else {
      OtherAhead(k, v, o1, o2, bound);
    }
  }

  lemma OtherAhead(k: string, v: Json, o1: seq<Field>, o2: seq<Field>, bound: nat)
    requires CleanFields(o1) && CleanFields(o2) && NullableAhead(o1, o2)
    requires v != JNull && !Walked(k) && k != "type" && k != "nullable"
    ensures FieldStep(k, v, o1, bound).Ok? && FieldStep(k, v, o2, bound).Ok?
    ensures NullableAhead(FieldStep(k, v, o1, bound).value, FieldStep(k, v, o2, bound).value)
  {
    if Dropped(k) {
      assert FieldStep(k, v, o1, bound) == Ok(o1) && FieldStep(k, v, o2, bound) == Ok(o2);
    } else {
      assert FieldStep(k, v, o1, bound) == Ok(Put(o1, k, v)) && FieldStep(k, v, o2, bound) == Ok(Put(o2, k, v));
    }
  }

  lemma AnyOfAhead(v: Json, o1: seq<Field>, o2: seq<Field>, bound: nat)
    requires Size(v) < bound
    requires CleanFields(o1) && CleanFields(o2) && NullableAhead(o1, o2)
    ensures AnyOfField(v, o1, bound).Ok? <==> AnyOfField(v, o2, bound).Ok?
    ensures AnyOfField(v, o1, bound).Ok? ==> NullableAhead(AnyOfField(v, o1, bound).value, AnyOfField(v, o2, bound).value)
  {
    AnyOfFieldBranches(v, o1, bound);
    AnyOfFieldBranches(v, o2, bound);
  }

  lemma PropertiesAhead(v: Json, o1: seq<Field>, o2: seq<Field>, bound: nat)
    requires Size(v) < bound && v != JNull
    requires CleanFields(o1) && CleanFields(o2) && NullableAhead(o1, o2)
    ensures FieldStep("properties", v, o1, bound).Ok? <==> FieldStep("properties", v, o2, bound).Ok?
    ensures FieldStep("properties", v, o1, bound).Ok? ==>
      NullableAhead(FieldStep("properties", v, o1, bound).value, FieldStep("properties", v, o2, bound).value)
  {
    EntryWeights(v);
    var d := ProcessDict(Entries(v), [], bound);
    assert FieldStep("properties", v, o1, bound) == (if d.Err? then Err(d.error) else Ok(Put(o1, "properties", JObj(d.value))));
    assert FieldStep("properties", v, o2, bound) == (if d.Err? then Err(d.error) else Ok(Put(o2, "properties", JObj(d.value))));
  }

  lemma TypeAhead(v: Json, o1: seq<Field>, o2: seq<Field>)
    requires CleanFields(o1) && CleanFields(o2) && NullableAhead(o1, o2)
    ensures TypeField(v, o1).Ok? <==> TypeField(v, o2).Ok?
    ensures TypeField(v, o1).Ok? ==> NullableAhead(TypeField(v, o1).value, TypeField(v, o2).value)
  {
  }

  lemma ItemsAhead(v: Json, o1: seq<Field>, o2: seq<Field>, bound: nat)
    requires Size(v) < bound && v != JNull
    requires CleanFields(o1) && CleanFields(o2) && NullableAhead(o1, o2)
    ensures FieldStep("items", v, o1, bound).Ok? <==> FieldStep("items", v, o2, bound).Ok?
    ensures FieldStep("items", v, o1, bound).Ok? ==>
      NullableAhead(FieldStep("items", v, o1, bound).value, FieldStep("items", v, o2, bound).value)
  {
  }

  lemma {:induction false} FieldsAhead(es: seq<Field>, o1: seq<Field>, o2: seq<Field>, bound: nat)
    requires forall i :: 0 <= i < |es| && Walked(es[i].key) ==> Size(es[i].value) < bound
    requires forall i :: 0 <= i < |es| ==> es[i].key != "nullable"
    requires CleanFields(o1) && CleanFields(o2) && NullableAhead(o1, o2)
    ensures ProcessFields(es, o1, bound).Ok? <==> ProcessFields(es, o2, bound).Ok?
    ensures ProcessFields(es, o1, bound).Ok? ==>
      NullableAhead(ProcessFields(es, o1, bound).value, ProcessFields(es, o2, bound).value)
    decreases |es|
  {
    if es != [] {
      StepAhead(es[0].key, es[0].value, o1, o2, bound);
      if FieldStep(es[0].key, es[0].value, o1, bound).Ok? {
        FieldsAhead(es[1..], FieldStep(es[0].key, es[0].value, o1, bound).value,
                    FieldStep(es[0].key, es[0].value, o2, bound).value, bound);
      }
    }
  }

  /** The walk of `Process` once `Prepare` has chosen the schema and the starting fields. */
  function WalkFrom(target: Json, out0: seq<Field>): Result<Json>
    requires CleanFields(out0)
  {
    match StartFields(target, out0)
    case Err(e) => Err(e)
    case Ok(out) =>
      EntriesWeight(target);
      match ProcessFields(Entries(target), out, Size(target))
      case Err(e) => Err(e)
      case Ok(fs) => Ok(JObj(fs))
  }

  lemma ProcessWalks(j: Json)
    requires j != JNull && Prepare(j).1 != JNull
    ensures Process(j) == WalkFrom(Prepare(j).1, NullableStart(Prepare(j).0))
  {
  }

  lemma {:induction false} WalkAhead(target: Json)
    requires "nullable" !in Keys(Entries(target))
    ensures WalkFrom(target, [Field("nullable", JBool(true))]).Ok? <==> WalkFrom(target, []).Ok?
    ensures var w1 := WalkFrom(target, [Field("nullable", JBool(true))]);
      w1.Ok? ==>
        && Get(w1.value, "nullable") == Some(JBool(true))
        && forall k :: k != "nullable" ==> Get(w1.value, k) == Get(WalkFrom(target, []).value, k)
  {
    var o1 := [Field("nullable", JBool(true))];
    assert NullableAhead(o1, []);
    StartAhead(target, o1, []);
    if StartFields(target, o1).Ok? {
      EntriesWeight(target);
      forall i | 0 <= i < |Entries(target)| ensures Entries(target)[i].key != "nullable" {
        assert Keys(Entries(target))[i] == Entries(target)[i].key;
      }
      FieldsAhead(Entries(target), StartFields(target, o1).value, StartFields(target, []).value, Size(target));
    }
  }

  /**
   * A two-branch `anyOf` with a `{type: 'null'}` branch collapses: the output is the
   * sanitised other branch with `nullable: true` added, and it fails exactly when that
   * branch does.
   */
  lemma NullableCollapse(fs: seq<Field>, items: seq<Json>)
    requires Lookup(fs, "anyOf") == Some(JArr(items)) && |items| == 2
    requires IsNullTypeName(items[0], "type") || IsNullTypeName(items[1], "type")
    requires var other := if IsNullTypeName(items[0], "type") then items[1] else items[0];
      "nullable" !in Keys(Entries(other)) && Prepare(other) == (false, other)
    ensures var other := if IsNullTypeName(items[0], "type") then items[1] else items[0];
      Process(JObj(fs)).Ok? <==> Process(other).Ok?
    ensures var other := if IsNullTypeName(items[0], "type") then items[1] else items[0];
      Process(JObj(fs)).Ok? ==>
        && Get(Process(JObj(fs)).value, "nullable") == Some(JBool(true))
        && forall k :: k != "nullable" ==> Get(Process(JObj(fs)).value, k) == Get(Process(other).value, k)
  {
    var j := JObj(fs);
    var other := if IsNullTypeName(items[0], "type") then items[1] else items[0];
    PrepareCollapses(fs, items);
    if other != JNull {
      ProcessWalks(j);
      ProcessWalks(other);
      WalkAhead(other);
    }
  }

  lemma PrepareCollapses(fs: seq<Field>, items: seq<Json>)
    requires Lookup(fs, "anyOf") == Some(JArr(items)) && |items| == 2
    requires IsNullTypeName(items[0], "type") || IsNullTypeName(items[1], "type")
    ensures Prepare(JObj(fs)) == (true, if IsNullTypeName(items[0], "type") then items[1] else items[0])
  {
    var j := JObj(fs);
    var other := if IsNullTypeName(items[0], "type") then items[1] else items[0];
    var j1 := if TruthyKey(j, "type") && TruthyKey(j, "anyOf") then RemoveKey(j, "type") else j;
    assert Get(j1, "anyOf") == Some(JArr(items)) by {
      if j1 != j { assert Lookup(Remove(fs, "type"), "anyOf") == Lookup(fs, "anyOf"); }
    }
    CollapseOnto(j1, items);
  }

  lemma CollapseOnto(j: Json, items: seq<Json>)
    requires Get(j, "anyOf") == Some(JArr(items)) && |items| == 2
    requires IsNullTypeName(items[0], "type") || IsNullTypeName(items[1], "type")
    ensures NullBranchCollapse(j) == (true, if IsNullTypeName(items[0], "type") then items[1] else items[0])
  {
  }

  /**
   * A scalar `type` other than `'null'` becomes its upper-case tag, or `TYPE_UNSPECIFIED`
   * for a name Gemini does not know.
   */
  lemma ScalarTypeTag(fs: seq<Field>, t: string)
    requires UniqueKeys(fs)
    requires Lookup(fs, "type") == Some(JStr(t)) && t != "null"
    requires Lookup(fs, "anyOf").None?
    requires Process(JObj(fs)).Ok?
    ensures Get(Process(JObj(fs)).value, "type") == Some(JStr(TypeTag(t)))
  {
    var j := JObj(fs);
    Unprepared(fs);
    assert StartFields(j, []) == Ok([]);
    EntriesWeight(j);
    var i :| 0 <= i < |fs| && fs[i] == Field("type", JStr(t));
    forall m | i < m < |fs| ensures Untouched(fs[m], "type") { }
    FieldsAt(fs, [], Size(j), i, "type");
  }

  /** Without an `anyOf`, `Prepare` neither deletes `type` nor collapses anything. */
  lemma Unprepared(fs: seq<Field>)
    requires Lookup(fs, "anyOf").None?
    ensures Prepare(JObj(fs)) == (false, JObj(fs))
  {
  }

  /**
   * Beside a truthy `anyOf`, a truthy `type` is deleted before the walk, so it never
   * reaches the output (unless the `anyOf` collapses onto a branch that has its own).
   */
  lemma TypeBesideAnyOfDropped(fs: seq<Field>)
    requires TruthyKey(JObj(fs), "type") && TruthyKey(JObj(fs), "anyOf")
    requires !NullBranchCollapse(JObj(Remove(fs, "type"))).0
    requires Process(JObj(fs)).Ok?
    ensures Get(Process(JObj(fs)).value, "type").None?
  {
    var t := JObj(Remove(fs, "type"));
    assert Prepare(JObj(fs)) == (false, t);
    assert Lookup(t.fields, "type").None?;
    assert StartFields(t, []) == Ok([]);
    EntriesWeight(t);
    forall m | 0 <= m < |t.fields| ensures Untouched(t.fields[m], "type") {
      LookupAbsent(t.fields, "type", m);
    }
    FieldsFrame(t.fields, [], Size(t), "type");
  }

  /**
   * A `type` array left with zero or several names besides `'null'` becomes an `anyOf` of
   * one `{type: TAG}` schema per name, in order, and `nullable: true` exactly when `'null'`
   * was listed.
   */
  lemma TypeArrayAlternatives(fs: seq<Field>, list: seq<Json>)
    requires UniqueKeys(fs)
    requires Lookup(fs, "type") == Some(JArr(list))
    requires |NonNullNames(list)| != 1
    requires "nullable" !in Keys(fs) && Lookup(fs, "anyOf").None?
    requires Process(JObj(fs)).Ok?
    ensures Get(Process(JObj(fs)).value, "nullable") == (if JStr("null") in list then Some(JBool(true)) else None)
    ensures var a := Get(Process(JObj(fs)).value, "anyOf"); var names := NonNullNames(list);
      a.Some? && a.value.JArr? && |a.value.items| == |names| &&
      forall i :: 0 <= i < |names| ==> a.value.items[i] == JObj([Field("type", JStr(TypeTag(names[i].s)))])
  {
    var j := JObj(fs);
    assert Prepare(j) == (false, j);
    var out := StartFields(j, []).value;
    EntriesWeight(j);
    forall m | 0 <= m < |fs| ensures Untouched(fs[m], "nullable") && Untouched(fs[m], "anyOf") {
      LookupAbsent(fs, "nullable", m);
      LookupAbsent(fs, "anyOf", m);
    }
    FieldsFrame(fs, out, Size(j), "nullable");
    FieldsFrame(fs, out, Size(j), "anyOf");
  }

  /**
   * An `anyOf` value: the output's `anyOf` is `ProcessEach` of the non-null branches,
   * `nullable` is set when a `'null'` branch occurs, and nothing else changes.
   */
  lemma AnyOfFieldBranches(v: Json, out: seq<Field>, bound: nat)
    requires Size(v) < bound && CleanFields(out)
    ensures var r := AnyOfField(v, out, bound);
            match Iterate(v)
            case Err(e) => r == Err(e)
            case Ok(items) =>
              match ProcessEach(NonNullBranches(items))
              case Err(e) => r == Err(e)
              case Ok(bs) =>
                && r.Ok?
                && Lookup(r.value, "anyOf") == Some(JArr(bs))
                && Lookup(r.value, "nullable") ==
                   (if HasNullBranch(items) then Some(JBool(true)) else Lookup(out, "nullable"))
                && forall k :: k != "anyOf" && k != "nullable" ==> Lookup(r.value, k) == Lookup(out, k)
  {
    if Iterate(v).Ok? {
      IterateWeights(v);
      ProcessListBranches(Iterate(v).value, out, bound);
    }
  }

  /**
   * A `properties` value: the output's `properties` object has exactly the keys of the
   * input, each holding the sanitised value of its last entry; nothing else changes.
   */
  lemma PropertiesFieldEntries(v: Json, out: seq<Field>, bound: nat)
    requires Size(v) < bound && CleanFields(out)
    ensures var r := PropertiesField(v, out, bound);
            r.Ok? <==> forall i :: 0 <= i < |Entries(v)| ==> Process(Entries(v)[i].value).Ok?
    ensures var r := PropertiesField(v, out, bound);
            r.Ok? ==> forall k :: k != "properties" ==> Lookup(r.value, k) == Lookup(out, k)
    ensures var r := PropertiesField(v, out, bound);
            r.Ok? ==>
              var p := Lookup(r.value, "properties");
              && p.Some? && p.value.JObj?
              && (forall k :: k !in Keys(Entries(v)) ==> Lookup(p.value.fields, k).None?)
              && forall i :: 0 <= i < |Entries(v)| && LastKey(Entries(v), i) ==>
                   Lookup(p.value.fields, Entries(v)[i].key).Some? &&
                   Process(Entries(v)[i].value) == Ok(Lookup(p.value.fields, Entries(v)[i].key).value)
  {
    EntryWeights(v);
    ProcessDictOk(Entries(v), [], bound);
    if PropertiesField(v, out, bound).Ok? {
      ProcessDictEntries(Entries(v), [], bound);
    }
  }

  /** One `anyOf` entry of the entries loop. */
  lemma AnyOfStep(items: seq<Json>, out: seq<Field>, bound: nat)
    requires Size(JArr(items)) < bound && CleanFields(out)
    requires FieldStep("anyOf", JArr(items), out, bound).Ok?
    ensures var o := FieldStep("anyOf", JArr(items), out, bound).value;
            && Lookup(o, "nullable") == (if HasNullBranch(items) then Some(JBool(true)) else Lookup(out, "nullable"))
            && ProcessEach(NonNullBranches(items)).Ok?
            && Lookup(o, "anyOf") == Some(JArr(ProcessEach(NonNullBranches(items)).value))
  {
    assert FieldStep("anyOf", JArr(items), out, bound) == AnyOfField(JArr(items), out, bound);
    AnyOfFieldBranches(JArr(items), out, bound);
  }

  /**
   * In an `anyOf` that is not collapsed, `'null'` branches turn into `nullable: true`
   * and the output list is the other branches, each sanitised, in order.
   */
  lemma AnyOfNullBranches(fs: seq<Field>, items: seq<Json>)
    requires UniqueKeys(fs)
    requires Lookup(fs, "anyOf") == Some(JArr(items))
    requires "nullable" !in Keys(fs) && !TruthyKey(JObj(fs), "type")
    requires !NullBranchCollapse(JObj(fs)).0
    requires Process(JObj(fs)).Ok?
    ensures Get(Process(JObj(fs)).value, "nullable") ==
            (if HasNullBranch(items) then Some(JBool(true)) else None)
    ensures var a := Get(Process(JObj(fs)).value, "anyOf");
            ProcessEach(NonNullBranches(items)).Ok? && a == Some(JArr(ProcessEach(NonNullBranches(items)).value))
  {
    Unrewritten(fs);
    assert StartFields(JObj(fs), []).value == [];
    FieldsAnyOf(fs, items, Size(JObj(fs)));
  }

  lemma FieldsAnyOf(fs: seq<Field>, items: seq<Json>, bound: nat)
    requires UniqueKeys(fs)
    requires Lookup(fs, "anyOf") == Some(JArr(items))
    requires "nullable" !in Keys(fs)
    requires forall i :: 0 <= i < |fs| && Walked(fs[i].key) ==> Size(fs[i].value) < bound
    requires ProcessFields(fs, [], bound).Ok?
    ensures Lookup(ProcessFields(fs, [], bound).value, "nullable") ==
            (if HasNullBranch(items) then Some(JBool(true)) else None)
    ensures var a := Lookup(ProcessFields(fs, [], bound).value, "anyOf");
            ProcessEach(NonNullBranches(items)).Ok? && a == Some(JArr(ProcessEach(NonNullBranches(items)).value))
  {
    var i := AnyOfPosition(fs, items);
    AnyOfNullable(fs, items, bound, i);
    AnyOfList(fs, items, bound, i);
  }

  lemma AnyOfNullable(fs: seq<Field>, items: seq<Json>, bound: nat, i: nat)
    requires i < |fs| && fs[i] == Field("anyOf", JArr(items))
    requires forall m :: 0 <= m < |fs| && Walked(fs[m].key) ==> Size(fs[m].value) < bound
    requires ProcessFields(fs, [], bound).Ok?
    requires forall m :: 0 <= m < |fs| && m != i ==> Untouched(fs[m], "nullable")
    ensures Lookup(ProcessFields(fs, [], bound).value, "nullable") ==
            (if HasNullBranch(items) then Some(JBool(true)) else None)
  {
    FieldsAt(fs, [], bound, i, "nullable");
    NullableBefore(fs, bound, i);
    AnyOfStep(items, ProcessFields(fs[..i], [], bound).value, bound);
  }

  lemma AnyOfList(fs: seq<Field>, items: seq<Json>, bound: nat, i: nat)
    requires i < |fs| && fs[i] == Field("anyOf", JArr(items))
    requires forall m :: 0 <= m < |fs| && Walked(fs[m].key) ==> Size(fs[m].value) < bound
    requires ProcessFields(fs, [], bound).Ok?
    requires forall m :: i < m < |fs| ==> Untouched(fs[m], "anyOf")
    ensures var a := Lookup(ProcessFields(fs, [], bound).value, "anyOf");
            ProcessEach(NonNullBranches(items)).Ok? && a == Some(JArr(ProcessEach(NonNullBranches(items)).value))
  {
    FieldsAt(fs, [], bound, i, "anyOf");
    AnyOfStep(items, ProcessFields(fs[..i], [], bound).value, bound);
  }

  /** The position of the one `anyOf` entry; no other entry touches `nullable` or `anyOf`. */
  lemma AnyOfPosition(fs: seq<Field>, items: seq<Json>) returns (i: nat)
    requires UniqueKeys(fs)
    requires Lookup(fs, "anyOf") == Some(JArr(items))
    requires "nullable" !in Keys(fs)
    ensures i < |fs| && fs[i] == Field("anyOf", JArr(items))
    ensures forall m :: 0 <= m < |fs| && m != i ==> Untouched(fs[m], "nullable") && Untouched(fs[m], "anyOf")
  {
    i :| 0 <= i < |fs| && fs[i] == Field("anyOf", JArr(items));
    forall m | 0 <= m < |fs| && m != i
      ensures Untouched(fs[m], "nullable") && Untouched(fs[m], "anyOf")
    {
      LookupAbsent(fs, "nullable", m);
    }
  }

  /** Before the `anyOf` entry the output has no `nullable`. */
  lemma NullableBefore(fs: seq<Field>, bound: nat, i: nat)
    requires i < |fs|
    requires forall m :: 0 <= m < |fs| && Walked(fs[m].key) ==> Size(fs[m].value) < bound
    requires ProcessFields(fs[..i], [], bound).Ok?
    requires forall m :: 0 <= m < |fs| && m != i ==> Untouched(fs[m], "nullable")
    ensures Lookup(ProcessFields(fs[..i], [], bound).value, "nullable").None?
  {
    FieldsFrame(fs[..i], [], bound, "nullable");
  }

  /** An object schema that is not rewritten before the loop is the loop over its own fields. */
  lemma Unrewritten(fs: seq<Field>)
    requires !(TruthyKey(JObj(fs), "type") && TruthyKey(JObj(fs), "anyOf"))
    requires !NullBranchCollapse(JObj(fs)).0
    requires Process(JObj(fs)).Ok?
    ensures StartFields(JObj(fs), []).Ok?
    ensures forall i :: 0 <= i < |fs| && Walked(fs[i].key) ==> Size(fs[i].value) < Size(JObj(fs))
    ensures ProcessFields(fs, StartFields(JObj(fs), []).value, Size(JObj(fs))).Ok?
    ensures Process(JObj(fs)).value ==
            JObj(ProcessFields(fs, StartFields(JObj(fs), []).value, Size(JObj(fs))).value)
  {
    NotRewritten(fs);
    LoopOnly(fs);
  }

  lemma NotRewritten(fs: seq<Field>)
    requires !(TruthyKey(JObj(fs), "type") && TruthyKey(JObj(fs), "anyOf"))
    requires !NullBranchCollapse(JObj(fs)).0
    ensures Prepare(JObj(fs)) == (false, JObj(fs))
  {
    var j := JObj(fs);
    assert NullBranchCollapse(j) == (false, j);
  }

  lemma LoopOnly(fs: seq<Field>)
    requires Prepare(JObj(fs)) == (false, JObj(fs))
    requires Process(JObj(fs)).Ok?
    ensures StartFields(JObj(fs), []).Ok?
    ensures forall i :: 0 <= i < |fs| && Walked(fs[i].key) ==> Size(fs[i].value) < Size(JObj(fs))
    ensures ProcessFields(fs, StartFields(JObj(fs), []).value, Size(JObj(fs))).Ok?
    ensures Process(JObj(fs)).value ==
            JObj(ProcessFields(fs, StartFields(JObj(fs), []).value, Size(JObj(fs))).value)
  {
    var j := JObj(fs);
    EntriesWeight(j);
    assert NullableStart(false) == [];
    assert Entries(j) == fs;
    var out := StartFields(j, []).value;
    var r := ProcessFields(fs, out, Size(j));
    assert Process(j) == (match r case Err(e) => Err(e) case Ok(x) => Ok(JObj(x)));
  }
}
