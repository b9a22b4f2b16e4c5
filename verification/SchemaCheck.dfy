/** The JSON Schema checker for tool-call arguments. */
module SchemaCheck {
  import opened Json
  import opened Ordering
  import opened CanonicalJson

  datatype SchemaError =
    | NoAlternative(errors: seq<SchemaError>)
    | WrongType
    | InField(name: string, error: SchemaError)
    | MissingRequired(name: string)
    | NotAllowed(name: string)
    | AtIndex(index: nat, error: SchemaError)

  // ----------------------------------------------------- keywords of a schema

  function Keyword(schema: Value, name: string): Option<Value> {
    if schema.Object? && name in schema.fields then Some(schema.fields[name]) else None
  }

  function ArrayKeyword(schema: Value, name: string): (r: Option<seq<Value>>)
    ensures r.Some? ==> schema.Object? && name in schema.fields && schema.fields[name] == Array(r.value)
  {
    var k := Keyword(schema, name);
    if k.Some? && k.value.Array? then Some(k.value.items) else None
  }

  function ObjectKeyword(schema: Value, name: string): (r: Option<map<string, Value>>)
    ensures r.Some? ==> schema.Object? && name in schema.fields && schema.fields[name] == Object(r.value)
  {
    var k := Keyword(schema, name);
    if k.Some? && k.value.Object? then Some(k.value.fields) else None
  }

  function ValueTypeName(v: Value): string {
    match v
    case Null => "null"
    case Bool(_) => "boolean"
    case Number(_) => "number"
    case Str(_) => "string"
    case Array(_) => "array"
    case Object(_) => "object"
  }

  predicate TypeMatchesSingle(valueType: string, schemaType: string) {
    if schemaType == "integer" then valueType == "number"
    else if schemaType in ["null", "object", "array", "string", "number", "boolean"] then valueType == schemaType
    else true
  }

  predicate TypeMatches(v: Value, schemaType: Value) {
    match schemaType
    case Str(single) => TypeMatchesSingle(ValueTypeName(v), single)
    case Array(types) => exists t | t in types :: t.Str? ==> TypeMatchesSingle(ValueTypeName(v), t.s)
    case _ => true
  }

  // --------------------------------------------------------- accepted values

  ghost predicate Accepts(v: Value, schema: Value)
    decreases schema
  {
    var anyOf := ArrayKeyword(schema, "anyOf");
    if anyOf.Some? then
      exists i | 0 <= i < |anyOf.value| :: Accepts(v, anyOf.value[i])
    else
      var types := Keyword(schema, "type");
      types.Some? ==>
        && TypeMatches(v, types.value)
        && (types.value == Str("object") ==> AcceptsFields(v.fields, schema))
        && (types.value == Str("array") && "items" in schema.fields ==>
              forall i | 0 <= i < |v.items| :: Accepts(v.items[i], schema.fields["items"]))
  }

  ghost predicate AcceptsFields(fields: map<string, Value>, schema: Value)
    requires schema.Object?
    decreases schema, 0
  {
    var properties := ObjectKeyword(schema, "properties");
    && (properties.Some? ==>
          forall name | name in properties.value && name in fields :: Accepts(fields[name], properties.value[name]))
    && RequiredNames(schema) <= fields.Keys
    && (Closed(schema) ==> properties.Some? && fields.Keys <= properties.value.Keys)
  }

  function RequiredNames(schema: Value): set<string> {
    var required := ArrayKeyword(schema, "required");
    if required.None? then {} else set r | r in required.value && r.Str? :: r.s
  }

  /** Undeclared properties are refused; only where properties are declared. */
  predicate Closed(schema: Value) {
    Keyword(schema, "additionalProperties") == Some(Bool(false)) && ObjectKeyword(schema, "properties").Some?
  }

  // --------------------------------------------------------- what an error says

  /** The error is a true complaint about the value, at the place it names. */
  ghost predicate Justified(e: SchemaError, v: Value, schema: Value)
    decreases e
  {
    && schema.Object?
    && var anyOf := ArrayKeyword(schema, "anyOf");
       var types := Keyword(schema, "type");
       match e
       case NoAlternative(errors) =>
         && anyOf.Some? && |errors| == |anyOf.value|
         && forall i | 0 <= i < |errors| :: Justified(errors[i], v, anyOf.value[i])
       case WrongType => anyOf.None? && types.Some? && !TypeMatches(v, types.value)
       case AtIndex(index, error) =>
         && anyOf.None? && types == Some(Str("array")) && v.Array? && index < |v.items| && "items" in schema.fields
         && Justified(error, v.items[index], schema.fields["items"])
       case _ => anyOf.None? && types == Some(Str("object")) && v.Object? && FieldJustified(e, v.fields, schema)
  }

  ghost predicate FieldJustified(e: SchemaError, fields: map<string, Value>, schema: Value)
    requires schema.Object?
    decreases e, 0
  {
    var properties := PropertiesOf(schema);
    match e
    case InField(name, error) => name in properties && name in fields && Justified(error, fields[name], properties[name])
    case MissingRequired(name) => name in RequiredNames(schema) && name !in fields
    case NotAllowed(name) => Closed(schema) && name in fields && name !in properties
    case _ => false
  }

  function PropertiesOf(schema: Value): map<string, Value> {
    var p := ObjectKeyword(schema, "properties");
    if p.Some? then p.value else map[]
  }

  // ---------------------------------------------------------------- operation

  method ValidateJsonValue(v: Value, schema: Value) returns (r: Option<SchemaError>)
    ensures r.None? <==> Accepts(v, schema)
    ensures r.Some? ==> Justified(r.value, v, schema)
    decreases schema, 1
  {
    if !schema.Object? {
      return None;
    }
    var anyOf := ArrayKeyword(schema, "anyOf");
    if anyOf.Some? {
      r := ValidateAnyOf(v, schema, anyOf.value);
      return;
    }
    if "type" in schema.fields {
      var types := schema.fields["type"];
      if !TypeMatches(v, types) {
        return Some(WrongType);
      }
      if types == Str("object") {
        assert v.Object?;
        r := ValidateFields(v.fields, schema);
        return;
      }
      if types == Str("array") {
        assert v.Array?;
        if "items" in schema.fields {
          r := ValidateItems(v.items, schema.fields["items"]);
          return;
        }
      }
    }
    return None;
  }

  method ValidateAnyOf(v: Value, schema: Value, anyOf: seq<Value>) returns (r: Option<SchemaError>)
    requires ArrayKeyword(schema, "anyOf") == Some(anyOf)
    ensures r.None? <==> exists i | 0 <= i < |anyOf| :: Accepts(v, anyOf[i])
    ensures r.Some? ==> Justified(r.value, v, schema)
    decreases schema, 0
  {
    var errors := [];
    for k := 0 to |anyOf|
      invariant forall i | 0 <= i < k :: !Accepts(v, anyOf[i])
      invariant |errors| == k && forall i | 0 <= i < k :: Justified(errors[i], v, anyOf[i])
    {
      assert schema.fields["anyOf"].items[k] == anyOf[k];
      var e := ValidateJsonValue(v, anyOf[k]);
      if e.None? {
        return None;
      }
      errors := errors + [e.value];
    }
    return Some(NoAlternative(errors));
  }

  method ValidateFields(fields: map<string, Value>, schema: Value) returns (r: Option<SchemaError>)
    requires schema.Object?
    ensures r.None? <==> AcceptsFields(fields, schema)
    ensures r.Some? ==> FieldJustified(r.value, fields, schema)
    decreases schema, 0
  {
    var properties := ObjectKeyword(schema, "properties");
    if properties.Some? {
      var names := PropertyOrder(properties.value);
      for k := 0 to |names|
        invariant forall i | 0 <= i < k :: names[i] in fields ==> Accepts(fields[names[i]], properties.value[names[i]])
      {
        var name := names[k];
        if name in fields {
          assert schema.fields["properties"].fields[name] == properties.value[name];
          var e := ValidateJsonValue(fields[name], properties.value[name]);
          if e.Some? {
            return Some(InField(name, e.value));
          }
        }
      }
      assert forall name | name in properties.value && name in fields :: Accepts(fields[name], properties.value[name]) by {
        forall name | name in properties.value && name in fields ensures Accepts(fields[name], properties.value[name]) {
          assert name in names;
        }
      }
    }
    r := CheckRequired(fields, schema);
    if r.None? {
      r := CheckClosed(fields, schema);
    }
  }

  method PropertyOrder(properties: map<string, Value>) returns (names: seq<string>)
    ensures forall name :: name in names <==> name in properties
  {
    names := SortedEntries(properties);
    SortedKeysProperties(properties.Keys);
  }

  method CheckRequired(fields: map<string, Value>, schema: Value) returns (r: Option<SchemaError>)
    ensures r.None? <==> RequiredNames(schema) <= fields.Keys
    ensures r.Some? ==> schema.Object? && FieldJustified(r.value, fields, schema)
  {
    var required := ArrayKeyword(schema, "required");
    if required.Some? {
      var names := required.value;
      for k := 0 to |names|
        invariant forall i | 0 <= i < k :: names[i].Str? ==> names[i].s in fields
      {
        if names[k].Str? && names[k].s !in fields {
          assert names[k].s in RequiredNames(schema);
          return Some(MissingRequired(names[k].s));
        }
      }
    }
    return None;
  }

  method CheckClosed(fields: map<string, Value>, schema: Value) returns (r: Option<SchemaError>)
    ensures r.None? <==>
      (Closed(schema) ==> fields.Keys <= ObjectKeyword(schema, "properties").value.Keys)
    ensures r.Some? ==> schema.Object? && FieldJustified(r.value, fields, schema)
  {
    var additional := Keyword(schema, "additionalProperties");
    if additional == Some(Bool(false)) {
      var properties := ObjectKeyword(schema, "properties");
      if properties.Some? {
        var names := PropertyOrder(fields);
        for k := 0 to |names|
          invariant forall i | 0 <= i < k :: names[i] in properties.value
        {
          if names[k] !in properties.value {
            assert names[k] in fields.Keys;
            return Some(NotAllowed(names[k]));
          }
        }
        assert fields.Keys <= properties.value.Keys by {
          forall name | name in fields ensures name in properties.value {
            assert name in names;
          }
        }
      }
    }
    return None;
  }

  method ValidateItems(items: seq<Value>, itemSchema: Value) returns (r: Option<SchemaError>)
    ensures r.None? <==> forall i | 0 <= i < |items| :: Accepts(items[i], itemSchema)
    ensures r.Some? ==>
      r.value.AtIndex? && r.value.index < |items| && Justified(r.value.error, items[r.value.index], itemSchema)
    decreases itemSchema, 2
  {
    for k := 0 to |items|
      invariant forall i | 0 <= i < k :: Accepts(items[i], itemSchema)
    {
      var e := ValidateJsonValue(items[k], itemSchema);
      if e.Some? {
        return Some(AtIndex(k, e.value));
      }
    }
    return None;
  }

  // ------------------------------------------------------------- tightening

  /** t is s with objects closed or required names added, at any depth. */
  ghost predicate Tightens(t: Value, s: Value)
    decreases s
  {
    || t == s
    || (&& t.Object? && s.Object?
        && Keyword(t, "type") == Keyword(s, "type")
        && RequiredNames(s) <= RequiredNames(t)
        && (Closed(s) ==> Closed(t))
        && (var a, b := ArrayKeyword(t, "anyOf"), ArrayKeyword(s, "anyOf");
            && (a.Some? <==> b.Some?)
            && (b.Some? ==> |a.value| == |b.value| && forall i | 0 <= i < |b.value| :: Tightens(a.value[i], b.value[i])))
        && (var a, b := ObjectKeyword(t, "properties"), ObjectKeyword(s, "properties");
            && (a.Some? <==> b.Some?)
            && (b.Some? ==> a.value.Keys == b.value.Keys && forall k | k in b.value :: Tightens(a.value[k], b.value[k])))
        && (("items" in t.fields) <==> ("items" in s.fields))
        && ("items" in s.fields ==> Tightens(t.fields["items"], s.fields["items"])))
  }

  /** A tightened schema accepts no value that the schema refuses. */
  lemma {:induction false} TighteningShrinks(v: Value, t: Value, s: Value)
    requires Tightens(t, s) && Accepts(v, t)
    ensures Accepts(v, s)
    decreases s, 1
  {
    if t != s {
      var a, b := ArrayKeyword(t, "anyOf"), ArrayKeyword(s, "anyOf");
      if b.Some? {
        var i :| 0 <= i < |a.value| && Accepts(v, a.value[i]);
        TighteningShrinks(v, a.value[i], b.value[i]);
      } else if "type" in s.fields {
        if s.fields["type"] == Str("object") {
          TighteningShrinksFields(v.fields, t, s);
        }
        if s.fields["type"] == Str("array") && "items" in s.fields {
          forall i | 0 <= i < |v.items| ensures Accepts(v.items[i], s.fields["items"]) {
            TighteningShrinks(v.items[i], t.fields["items"], s.fields["items"]);
          }
        }
      }
    }
  }

  lemma {:induction false} TighteningShrinksFields(fields: map<string, Value>, t: Value, s: Value)
    requires t != s && Tightens(t, s) && AcceptsFields(fields, t)
    ensures AcceptsFields(fields, s)
    decreases s, 0
  {
    var a, b := ObjectKeyword(t, "properties"), ObjectKeyword(s, "properties");
    if b.Some? {
      forall k | k in b.value && k in fields ensures Accepts(fields[k], b.value[k]) {
        TighteningShrinks(fields[k], a.value[k], b.value[k]);
      }
    }
  }

  // ------------------------------------- against the published JSON Schema rules

  /** `type` of section 6.1.1 of JSON Schema Validation 2020-12; whether a
      number is integral is up to an oracle on its text. */
  ghost predicate StandardType(v: Value, name: string, integral: string -> bool) {
    || (name == "null" && v.Null?)
    || (name == "boolean" && v.Bool?)
    || (name == "number" && v.Number?)
    || (name == "integer" && v.Number? && integral(v.text))
    || (name == "string" && v.Str?)
    || (name == "array" && v.Array?)
    || (name == "object" && v.Object?)
  }

  ghost predicate StandardTypes(v: Value, types: Value, integral: string -> bool) {
    match types
    case Str(name) => StandardType(v, name, integral)
    case Array(list) => exists t | t in list :: t.Str? && StandardType(v, t.s, integral)
    case _ => true
  }

  /** The standard meaning of the keywords the checker knows: anyOf, type,
      properties, required, additionalProperties and items. */
  ghost predicate StandardAccepts(v: Value, schema: Value, integral: string -> bool)
    decreases schema
  {
    match schema
    case Bool(b) => b
    case Object(keywords) =>
      && ("anyOf" in keywords && keywords["anyOf"].Array? ==>
            exists i | 0 <= i < |keywords["anyOf"].items| :: StandardAccepts(v, keywords["anyOf"].items[i], integral))
      && ("type" in keywords ==> StandardTypes(v, keywords["type"], integral))
      && (v.Object? ==> StandardFields(v.fields, schema, integral))
      && (v.Array? && "items" in keywords ==>
            forall i | 0 <= i < |v.items| :: StandardAccepts(v.items[i], keywords["items"], integral))
    case _ => true
  }

  /** A field that `properties` declares. */
  ghost predicate Declares(keywords: map<string, Value>, name: string) {
    "properties" in keywords && keywords["properties"].Object? && name in keywords["properties"].fields
  }

  ghost predicate StandardFields(fields: map<string, Value>, schema: Value, integral: string -> bool)
    requires schema.Object?
    decreases schema, 0
  {
    var keywords := schema.fields;
    && (forall name | name in fields && Declares(keywords, name) ::
          StandardAccepts(fields[name], keywords["properties"].fields[name], integral))
    && ("required" in keywords && keywords["required"].Array? ==>
          forall r | r in keywords["required"].items && r.Str? :: r.s in fields)
    && ("additionalProperties" in keywords ==>
          forall name | name in fields && !Declares(keywords, name) ::
            StandardAccepts(fields[name], keywords["additionalProperties"], integral))
  }

  /** The checker refuses no arguments that the standard accepts. */
  lemma {:induction false} NeverRefusesValid(v: Value, schema: Value, integral: string -> bool)
    requires StandardAccepts(v, schema, integral)
    ensures Accepts(v, schema)
    decreases schema, 1
  {
    if schema.Object? {
      var anyOf := ArrayKeyword(schema, "anyOf");
      if anyOf.Some? {
        var i :| 0 <= i < |anyOf.value| && StandardAccepts(v, anyOf.value[i], integral);
        NeverRefusesValid(v, anyOf.value[i], integral);
      } else if "type" in schema.fields {
        StandardTypeMatches(v, schema.fields["type"], integral);
        if schema.fields["type"] == Str("object") {
          NeverRefusesValidFields(v.fields, schema, integral);
        }
        if schema.fields["type"] == Str("array") && "items" in schema.fields {
          forall i | 0 <= i < |v.items| ensures Accepts(v.items[i], schema.fields["items"]) {
            NeverRefusesValid(v.items[i], schema.fields["items"], integral);
          }
        }
      }
    }
  }

  lemma {:induction false} StandardTypeMatches(v: Value, types: Value, integral: string -> bool)
    requires types.Str? ==> StandardType(v, types.s, integral)
    requires types.Array? ==> exists t | t in types.items :: t.Str? && StandardType(v, t.s, integral)
    ensures TypeMatches(v, types)
  {
  }

  lemma {:induction false} NeverRefusesValidFields(fields: map<string, Value>, schema: Value, integral: string -> bool)
    requires schema.Object? && StandardFields(fields, schema, integral)
    ensures AcceptsFields(fields, schema)
    decreases schema, 0
  {
    var properties := ObjectKeyword(schema, "properties");
    if properties.Some? {
      forall k | k in properties.value && k in fields ensures Accepts(fields[k], properties.value[k]) {
        NeverRefusesValid(fields[k], properties.value[k], integral);
      }
    }
    if Closed(schema) {
      forall k | k in fields ensures k in properties.value {
        assert !StandardAccepts(fields[k], Bool(false), integral);
      }
    }
  }

  // ------------------------------------------------ what the checker skips

  const SIBLINGS := {"type", "properties", "required", "additionalProperties", "items"}
  const OBJECT_KEYWORDS := {"properties", "required", "additionalProperties"}

  predicate PlainType(name: string) {
    name in ["null", "object", "array", "string", "number", "boolean"]
  }

  /** Whether a `type` keyword lets values of the named kind through. */
  predicate Allows(types: Option<Value>, kind: string) {
    types.None? ||
    match types.value
    case Str(single) => TypeMatchesSingle(kind, single)
    case Array(list) => exists t | t in list :: t.Str? ==> TypeMatchesSingle(kind, t.s)
    case _ => true
  }

  predicate KnownType(t: Value) { t.Str? && (PlainType(t.s) || t.s == "integer") }

  function ErasedName(t: Value): Value { if t == Str("integer") then Str("number") else t }

  /** The `type` keyword as the checker reads it: an integer is any number, and
      an unknown name allows everything. */
  function ErasedType(types: Value): Option<Value> {
    match types
    case Str(_) => if KnownType(types) then Some(ErasedName(types)) else None
    case Array(list) =>
      if forall t | t in list :: KnownType(t)
      then Some(Array(seq(|list|, i requires 0 <= i < |list| => ErasedName(list[i])))) else None
    case _ => Some(types)
  }

  /** The keywords that are skipped because `type` is not exactly "object" or
      "array" although it lets such values through. */
  function Skipped(types: Option<Value>): set<string> {
    (if types != Some(Str("object")) && Allows(types, "object") then OBJECT_KEYWORDS else {}) +
    (if types != Some(Str("array")) && Allows(types, "array") then {"items"} else {})
  }

  /** The schema without what the checker skips; everything else is kept. */
  function Erase(schema: Value): Value
    decreases schema
  {
    match schema
    case Bool(_) => Bool(true)
    case Object(fields) =>
      var anyOf := ArrayKeyword(schema, "anyOf");
      if anyOf.Some? then
        Object((fields - SIBLINGS)["anyOf" :=
          Array(seq(|anyOf.value|, i requires 0 <= i < |anyOf.value| => Erase(anyOf.value[i])))])
      else Object(ErasedFields(schema))
    case _ => schema
  }

  function ErasedFields(schema: Value): map<string, Value>
    requires schema.Object?
    decreases schema, 0
  {
    var types := Keyword(schema, "type");
    map k | k in schema.fields && k in KeptKeys(schema) ::
      if k == "type" then ErasedType(types.value).value
      else if k == "properties" && types == Some(Str("object")) && schema.fields[k].Object? then
        Object(map n | n in schema.fields[k].fields :: Erase(schema.fields[k].fields[n]))
      else if k == "items" && types == Some(Str("array")) then Erase(schema.fields[k])
      else schema.fields[k]
  }

  /** The keywords of a schema without anyOf that survive. */
  function KeptKeys(schema: Value): set<string>
    requires schema.Object?
    ensures "type" in KeptKeys(schema) ==> "type" in schema.fields && ErasedType(schema.fields["type"]).Some?
  {
    var types := Keyword(schema, "type");
    set k | k in schema.fields
      && k !in Skipped(types)
      && (k == "type" ==> ErasedType(schema.fields[k]).Some?)
      && (k == "additionalProperties" && types == Some(Str("object")) ==> schema.fields[k] == Bool(true) || Closed(schema))
  }

  lemma {:induction false} ErasedTypeIsExact(v: Value, types: Value, integral: string -> bool)
    ensures TypeMatches(v, types) <==>
      (ErasedType(types).Some? ==> StandardTypes(v, ErasedType(types).value, integral))
    ensures TypeMatches(v, types) <==> Allows(Some(types), ValueTypeName(v))
  {
    if types.Array? && forall t | t in types.items :: KnownType(t) {
      ErasedListIsExact(v, types.items, ErasedType(types).value.items, integral);
    }
  }

  lemma {:induction false} ErasedListIsExact(v: Value, list: seq<Value>, erased: seq<Value>, integral: string -> bool)
    requires forall t | t in list :: KnownType(t)
    requires |erased| == |list| && forall i | 0 <= i < |list| :: erased[i] == ErasedName(list[i])
    ensures TypeMatches(v, Array(list)) <==> exists t | t in erased :: t.Str? && StandardType(v, t.s, integral)
  {
    forall i | 0 <= i < |list|
      ensures list[i].Str? && erased[i].Str? && erased[i] in erased
      ensures TypeMatchesSingle(ValueTypeName(v), list[i].s) <==> StandardType(v, erased[i].s, integral)
    {
      assert KnownType(list[i]);
    }
  }

  lemma {:induction false} ErasedKeyword(schema: Value, k: string)
    requires schema.Object? && ArrayKeyword(schema, "anyOf").None?
    ensures k in Erase(schema).fields <==> k in schema.fields && k in KeptKeys(schema)
  {
  }

  lemma {:induction false} ErasedTypes(schema: Value)
    requires schema.Object? && ArrayKeyword(schema, "anyOf").None?
    ensures Keyword(Erase(schema), "type")
         == if "type" in schema.fields then ErasedType(schema.fields["type"]) else None
  {
    ErasedKeyword(schema, "type");
  }

  lemma {:induction false} ErasedItems(schema: Value, items: seq<Value>, integral: string -> bool)
    requires schema.Object? && ArrayKeyword(schema, "anyOf").None? && Keyword(schema, "type") == Some(Str("array"))
    requires "items" in schema.fields
    ensures "items" in Erase(schema).fields && Erase(schema).fields["items"] == Erase(schema.fields["items"])
  {
    ErasedKeyword(schema, "items");
  }

  lemma {:induction false} NothingLeft(schema: Value, fields: map<string, Value>, integral: string -> bool)
    requires schema.Object? && ArrayKeyword(schema, "anyOf").None?
    requires Keyword(schema, "type") != Some(Str("object")) && Allows(Keyword(schema, "type"), "object")
    ensures StandardFields(fields, Erase(schema), integral)
  {
    ErasedKeyword(schema, "properties");
    ErasedKeyword(schema, "required");
    ErasedKeyword(schema, "additionalProperties");
  }

  lemma {:induction false} ErasedProperties(schema: Value)
    requires schema.Object? && ArrayKeyword(schema, "anyOf").None? && Keyword(schema, "type") == Some(Str("object"))
    ensures RequiredNames(Erase(schema)) == RequiredNames(schema)
    ensures PropertiesOf(Erase(schema)).Keys == PropertiesOf(schema).Keys
    ensures forall n | n in PropertiesOf(schema) :: PropertiesOf(Erase(schema))[n] == Erase(PropertiesOf(schema)[n])
    ensures Keyword(Erase(schema), "additionalProperties")
         == if Closed(schema) || Keyword(schema, "additionalProperties") == Some(Bool(true))
            then Keyword(schema, "additionalProperties") else None
  {
    ErasedKeyword(schema, "properties");
    ErasedKeyword(schema, "required");
    ErasedKeyword(schema, "additionalProperties");
  }

  /** The checker is the standard applied to the schema without what it skips,
      for every value and every schema. */
  lemma {:induction false} ErasedIsExact(v: Value, schema: Value, integral: string -> bool)
    ensures Accepts(v, schema) <==> StandardAccepts(v, Erase(schema), integral)
    decreases schema, 1
  {
    if schema.Object? {
      var anyOf := ArrayKeyword(schema, "anyOf");
      if anyOf.Some? {
        ErasedAnyOfIsExact(v, schema, integral);
      } else {
        ErasedTypes(schema);
        if "type" in schema.fields {
          ErasedTypeIsExact(v, schema.fields["type"], integral);
        }
        if v.Object? {
          if Keyword(schema, "type") == Some(Str("object")) {
            ErasedFieldsAreExact(v.fields, schema, integral);
          } else if Allows(Keyword(schema, "type"), "object") {
            NothingLeft(schema, v.fields, integral);
          }
        }
        if v.Array? {
          ErasedItemsAreExact(v.items, schema, integral);
        }
      }
    }
  }

  lemma {:induction false} ErasedAnyOfIsExact(v: Value, schema: Value, integral: string -> bool)
    requires schema.Object? && ArrayKeyword(schema, "anyOf").Some?
    ensures Accepts(v, schema) <==> StandardAccepts(v, Erase(schema), integral)
    decreases schema, 0
  {
    var anyOf := ArrayKeyword(schema, "anyOf").value;
    var erased := Erase(schema);
    var list := ArrayKeyword(erased, "anyOf").value;
    forall i | 0 <= i < |anyOf| ensures Accepts(v, anyOf[i]) <==> StandardAccepts(v, list[i], integral) {
      ErasedIsExact(v, anyOf[i], integral);
    }
    assert Keyword(erased, "type").None? && RequiredNames(erased) == {} && PropertiesOf(erased) == map[];
  }

  lemma {:induction false} ErasedItemsAreExact(items: seq<Value>, schema: Value, integral: string -> bool)
    requires schema.Object? && ArrayKeyword(schema, "anyOf").None?
    ensures Allows(Keyword(schema, "type"), "array") ==>
      ((Keyword(schema, "type") == Some(Str("array")) && "items" in schema.fields ==>
          forall i | 0 <= i < |items| :: Accepts(items[i], schema.fields["items"]))
       <==>
       ("items" in Erase(schema).fields ==>
          forall i | 0 <= i < |items| :: StandardAccepts(items[i], Erase(schema).fields["items"], integral)))
    decreases schema, 0
  {
    ErasedKeyword(schema, "items");
    if Keyword(schema, "type") == Some(Str("array")) && "items" in schema.fields {
      ErasedItems(schema, items, integral);
      forall i | 0 <= i < |items|
        ensures Accepts(items[i], schema.fields["items"]) <==> StandardAccepts(items[i], Erase(schema).fields["items"], integral)
      {
        ErasedIsExact(items[i], schema.fields["items"], integral);
      }
    }
  }

  lemma {:induction false} ErasedFieldsAreExact(fields: map<string, Value>, schema: Value, integral: string -> bool)
    requires schema.Object? && ArrayKeyword(schema, "anyOf").None? && Keyword(schema, "type") == Some(Str("object"))
    ensures AcceptsFields(fields, schema) <==> StandardFields(fields, Erase(schema), integral)
    decreases schema, 0
  {
    ErasedProperties(schema);
    var properties, erased := PropertiesOf(schema), PropertiesOf(Erase(schema));
    forall n | n in properties && n in fields
      ensures Accepts(fields[n], properties[n]) <==> StandardAccepts(fields[n], erased[n], integral)
    {
      ErasedIsExact(fields[n], properties[n], integral);
    }
  }

  /** The schemas that hold nothing the checker skips. */
  predicate Covered(schema: Value) { Erase(schema) == schema }

  /** On them the checker is exact. */
  lemma {:induction false} ExactOnCovered(v: Value, schema: Value, integral: string -> bool)
    requires Covered(schema)
    ensures Accepts(v, schema) <==> StandardAccepts(v, schema, integral)
  {
    ErasedIsExact(v, schema, integral);
  }

  // --------------------------------------------- and what each skip lets through

  /** A schema that admits objects without saying just "object". */
  ghost predicate FieldsUnchecked(schema: Value) {
    && schema.Object? && ArrayKeyword(schema, "anyOf").None?
    && Keyword(schema, "type") != Some(Str("object")) && Allows(Keyword(schema, "type"), "object")
  }

  lemma {:induction false} FieldsUncheckedAccepts(schema: Value, fields: map<string, Value>)
    requires FieldsUnchecked(schema)
    ensures Accepts(Object(fields), schema)
  {
    if "type" in schema.fields {
      ErasedTypeIsExact(Object(fields), schema.fields["type"], t => true);
    }
  }

  /** Its required names are not asked for. */
  lemma {:induction false} RequiredIsSkipped(schema: Value, integral: string -> bool)
    requires FieldsUnchecked(schema) && RequiredNames(schema) != {}
    ensures Accepts(Object(map[]), schema) && !StandardAccepts(Object(map[]), schema, integral)
  {
    var none: map<string, Value> := map[];
    FieldsUncheckedAccepts(schema, none);
    assert none.Keys == {};
  }

  /** It is not closed, whatever it says: any undeclared field passes. */
  lemma {:induction false} ClosedIsSkipped(schema: Value, name: string, x: Value, integral: string -> bool)
    requires FieldsUnchecked(schema) && Keyword(schema, "additionalProperties") == Some(Bool(false))
    requires name !in PropertiesOf(schema)
    ensures var v := Object(map[name := x]); Accepts(v, schema) && !StandardAccepts(v, schema, integral)
  {
    FieldsUncheckedAccepts(schema, map[name := x]);
    assert !StandardAccepts(map[name := x][name], Bool(false), integral);
  }

  /** Its fields may have any value. */
  lemma {:induction false} PropertyIsSkipped(schema: Value, name: string, x: Value, integral: string -> bool)
    requires FieldsUnchecked(schema) && name in PropertiesOf(schema)
    requires !StandardAccepts(x, PropertiesOf(schema)[name], integral)
    ensures var v := Object(map[name := x]); Accepts(v, schema) && !StandardAccepts(v, schema, integral)
  {
    FieldsUncheckedAccepts(schema, map[name := x]);
    assert !StandardAccepts(map[name := x][name], PropertiesOf(schema)[name], integral);
  }

  /** Items pass unchecked where arrays are admitted without saying just "array". */
  lemma {:induction false} ItemIsSkipped(schema: Value, x: Value, integral: string -> bool)
    requires schema.Object? && ArrayKeyword(schema, "anyOf").None?
    requires Keyword(schema, "type") != Some(Str("array")) && Allows(Keyword(schema, "type"), "array")
    requires "items" in schema.fields && !StandardAccepts(x, schema.fields["items"], integral)
    ensures Accepts(Array([x]), schema) && !StandardAccepts(Array([x]), schema, integral)
  {
    if "type" in schema.fields {
      ErasedTypeIsExact(Array([x]), schema.fields["type"], integral);
    }
    assert Array([x]).items[0] == x;
  }

  /** Beside anyOf nothing else counts. */
  lemma {:induction false} SiblingsAreSkipped(v: Value, schema: Value, i: nat, integral: string -> bool)
    requires schema.Object? && ArrayKeyword(schema, "anyOf").Some? && i < |ArrayKeyword(schema, "anyOf").value|
    requires Accepts(v, ArrayKeyword(schema, "anyOf").value[i])
    requires !StandardAccepts(v, Object(schema.fields - {"anyOf"}), integral)
    ensures Accepts(v, schema) && !StandardAccepts(v, schema, integral)
  {
    var rest := Object(schema.fields - {"anyOf"});
    assert forall k | k in SIBLINGS :: Keyword(rest, k) == Keyword(schema, k);
    assert RequiredNames(rest) == RequiredNames(schema) && PropertiesOf(rest) == PropertiesOf(schema);
  }

  /** An integer may be any number. */
  lemma {:induction false} IntegerIsAnyNumber(schema: Value, text: string, integral: string -> bool)
    requires schema.Object? && ArrayKeyword(schema, "anyOf").None?
    requires Keyword(schema, "type") == Some(Str("integer")) && !integral(text)
    ensures Accepts(Number(text), schema) && !StandardAccepts(Number(text), schema, integral)
  {
  }

  /** An unknown type name lets every value through, and the standard none. */
  lemma {:induction false} UnknownTypePasses(v: Value, schema: Value, integral: string -> bool)
    requires schema.Object? && ArrayKeyword(schema, "anyOf").None?
    requires Keyword(schema, "type").Some? && Keyword(schema, "type").value.Str?
    requires !KnownType(Keyword(schema, "type").value)
    ensures Accepts(v, schema) && !StandardAccepts(v, schema, integral)
  {
    assert PlainType(ValueTypeName(v));
  }

  /** An `additionalProperties` that does not close the object is not looked at. */
  lemma {:induction false} AdditionalIsSkipped(fields: map<string, Value>, schema: Value, name: string, integral: string -> bool)
    requires schema.Object? && ArrayKeyword(schema, "anyOf").None? && Keyword(schema, "type") == Some(Str("object"))
    requires !Closed(schema) && "additionalProperties" in schema.fields && AcceptsFields(fields, schema)
    requires name in fields && name !in PropertiesOf(schema)
    requires !StandardAccepts(fields[name], schema.fields["additionalProperties"], integral)
    ensures Accepts(Object(fields), schema) && !StandardAccepts(Object(fields), schema, integral)
  {
  }

  /** An instance: a nullable object written as a type list. */
  lemma {:induction false} TypeListSkipsFields(integral: string -> bool)
    ensures var schema := Object(map["type" := Array([Str("object"), Str("null")]), "required" := Array([Str("path")])]);
      Accepts(Object(map[]), schema) && !StandardAccepts(Object(map[]), schema, integral)
  {
    var schema := Object(map["type" := Array([Str("object"), Str("null")]), "required" := Array([Str("path")])]);
    assert Str("object") in schema.fields["type"].items;
    assert Str("path") in schema.fields["required"].items;
    assert "path" in RequiredNames(schema);
    RequiredIsSkipped(schema, integral);
  }

  /** A bare type list of plain names, and a schema that constrains nothing, are
      covered. */
  lemma {:induction false} PlainSchemasAreCovered(names: seq<string>, fields: map<string, Value>)
    requires forall n | n in names :: PlainType(n)
    requires fields.Keys !! SIBLINGS && "anyOf" !in fields
    ensures var list := seq(|names|, i requires 0 <= i < |names| => Str(names[i]));
      Covered(Object(fields["type" := Array(list)]))
    ensures Covered(Object(fields))
  {
    var list := seq(|names|, i requires 0 <= i < |names| => Str(names[i]));
    var schema := Object(fields["type" := Array(list)]);
    forall t | t in list ensures KnownType(t) && ErasedName(t) == t {
      var i :| 0 <= i < |list| && list[i] == t;
      assert names[i] in names;
    }
    assert ErasedType(Array(list)).value.items == list;
    assert ErasedFields(schema) == schema.fields;
    assert ErasedFields(Object(fields)) == fields;
  }
}
