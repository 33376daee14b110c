// The JSON Schema subset that decides whether function-call arguments fit a list item.
module JsonSchema {
  import opened Wrappers
  import opened Json

  // The quantified reading of a schema: enum, then the type list, the single type, or the object keywords.
  predicate Valid(schema: Record, value: Value)
    decreases value, 1
  {
    && EnumAllows(schema, value)
    && match Get(schema, "type")
       case Some(Arr(types)) =>
         exists i :: 0 <= i < |types| && types[i].Str? && TypeAllows(types[i].s, value, schema)
       case Some(Str(name)) => TypeAllows(name, value, schema)
       case _ => HasObjectKeyword(schema) ==> TypeAllows("object", value, schema)
  }

  predicate EnumAllows(schema: Record, value: Value) {
    match Get(schema, "enum")
    case Some(Arr(allowed)) => exists i :: 0 <= i < |allowed| && Printed(allowed[i]) == Printed(value)
    case _ => true
  }

  predicate HasObjectKeyword(schema: Record) {
    Has(schema, "properties") || Has(schema, "required") || Has(schema, "additionalProperties")
  }

  // One JSON Schema type name. An unknown name allows every value.
  predicate TypeAllows(name: string, value: Value, schema: Record)
    decreases value, 0
  {
    if name == "object" then
      && value.Obj?
      && (forall key :: key in Required(schema) ==> Has(value.fields, key))
      && (forall i :: 0 <= i < |value.fields| ==> PropertyAllows(schema, value.fields[i]))
    else if name == "array" then
      && value.Arr?
      && match Get(schema, "items")
         case Some(Obj(items)) => forall i :: 0 <= i < |value.items| ==> Valid(items, value.items[i])
         case _ => true
    else if name == "string" then value.Str?
    else if name == "number" then value.Number?
    else if name == "integer" then value.Number? && value.n.Floor as real == value.n
    else if name == "boolean" then value.Bool?
    else if name == "null" then value.Null?
    else true
  }

  // A declared property must fit its own schema; any other falls under additionalProperties.
  predicate PropertyAllows(schema: Record, field: Field)
    decreases field, 2
  {
    match Get(Properties(schema), field.key)
    case Some(property) => property.Obj? && Valid(property.fields, field.value)
    case None =>
      match Get(schema, "additionalProperties")
      case Some(Bool(allowed)) => allowed
      case Some(Obj(additional)) => Valid(additional, field.value)
      case _ => true
  }

  function Properties(schema: Record): Record {
    match Get(schema, "properties")
    case Some(Obj(properties)) => properties
    case _ => []
  }

  // The string entries of `required`.
  function Required(schema: Record): (keys: seq<string>)
    ensures forall key :: key in keys <==>
      (Get(schema, "required").Some? && Get(schema, "required").value.Arr? && Str(key) in Get(schema, "required").value.items)
  {
    match Get(schema, "required")
    case Some(Arr(items)) => Strings(items)
    case _ => []
  }

  function Strings(items: seq<Value>): (keys: seq<string>)
    ensures forall key :: key in keys <==> Str(key) in items
  {
    if items == [] then []
    else if items[0].Str? then [items[0].s] + Strings(items[1..])
    else Strings(items[1..])
  }

  // `enum`, compared as printed JSON.
  method MatchesEnum(schema: Record, value: Value) returns (allowed: bool)
    ensures allowed <==> EnumAllows(schema, value)
  {
    match Get(schema, "enum") {
      case Some(Arr(items)) =>
        for i := 0 to |items|
          invariant forall k :: 0 <= k < i ==> Printed(items[k]) != Printed(value)
        {
          if Printed(items[i]) == Printed(value) {
            return true;
          }
        }
        return false;
      case _ => return true;
    }
  }

  // The checker as written: early exits over the keyword lists, recursing into properties and elements.
  method MatchesSchema(schema: Record, value: Value) returns (ok: bool)
    ensures ok <==> Valid(schema, value)
    decreases value, 3
  {
    var allowed := MatchesEnum(schema, value);
    if !allowed {
      return false;
    }

    match Get(schema, "type") {
      case Some(Arr(types)) =>
        for i := 0 to |types|
          invariant forall k :: 0 <= k < i && types[k].Str? ==> !TypeAllows(types[k].s, value, schema)
        {
          if types[i].Str? {
            var fits := MatchesType(types[i].s, value, schema);
            if fits {
              return true;
            }
          }
        }
        return false;
      case Some(Str(name)) =>
        ok := MatchesType(name, value, schema);
      case _ =>
        if HasObjectKeyword(schema) {
          ok := MatchesType("object", value, schema);
        } else {
          ok := true;
        }
    }
  }

  method MatchesType(name: string, value: Value, schema: Record) returns (ok: bool)
    ensures ok <==> TypeAllows(name, value, schema)
    decreases value, 2
  {
    if name == "object" {
      ok := MatchesObject(schema, value);
    } else if name == "array" {
      ok := MatchesArray(schema, value);
    } else if name == "string" {
      ok := value.Str?;
    } else if name == "number" {
      ok := value.Number?;
    } else if name == "integer" {
      ok := value.Number? && value.n.Floor as real == value.n;
    } else if name == "boolean" {
      ok := value.Bool?;
    } else if name == "null" {
      ok := value.Null?;
    } else {
      ok := true;
    }
  }

  method MatchesArray(schema: Record, value: Value) returns (ok: bool)
    ensures ok <==> TypeAllows("array", value, schema)
    decreases value, 1
  {
    if !value.Arr? {
      return false;
    }
    match Get(schema, "items") {
      case Some(Obj(itemSchema)) =>
        for i := 0 to |value.items|
          invariant forall k :: 0 <= k < i ==> Valid(itemSchema, value.items[k])
        {
          var fits := MatchesSchema(itemSchema, value.items[i]);
          if !fits {
            return false;
          }
        }
        return true;
      case _ =>
        return true;
    }
  }

  method MatchesObject(schema: Record, value: Value) returns (ok: bool)
    ensures ok <==> TypeAllows("object", value, schema)
    decreases value, 1
  {
    if !value.Obj? {
      return false;
    }
    var required := Required(schema);
    for i := 0 to |required|
      invariant forall k :: 0 <= k < i ==> Has(value.fields, required[k])
    {
      if !Has(value.fields, required[i]) {
        return false;
      }
    }
    var properties := Properties(schema);
    var additional := Get(schema, "additionalProperties");
    for i := 0 to |value.fields|
      invariant forall k :: 0 <= k < i ==> PropertyAllows(schema, value.fields[k])
    {
      var field := value.fields[i];
      var property := Get(properties, field.key);
      if property.Some? {
        if !property.value.Obj? {
          return false;
        }
        var fits := MatchesSchema(property.value.fields, field.value);
        if !fits {
          return false;
        }
        continue;
      }
      if additional == Some(Bool(false)) {
        return false;
      }
      if additional.Some? && additional.value.Obj? {
        var fits := MatchesSchema(additional.value.fields, field.value);
        if !fits {
          return false;
        }
      }
    }
    return true;
  }

  // ---- The types, read off the value ----

  predicate IsAt(n: real, k: int) {
    k as real == n
  }

  ghost predicate IsWhole(n: real) {
    exists k :: IsAt(n, k)
  }

  lemma WholeNumbers(n: real)
    ensures n.Floor as real == n <==> IsWhole(n)
  {
    if n.Floor as real == n {
      assert IsAt(n, n.Floor);
    }
  }

  // Each value that is neither an array nor an object fits exactly the types of its own kind. An infinity fits none.
  lemma ScalarTypes(name: string, value: Value, schema: Record)
    requires name in {"string", "number", "integer", "boolean", "null"}
    ensures TypeAllows(name, value, schema) <==>
      match value
      case Null => name == "null"
      case Bool(_) => name == "boolean"
      case Number(n) => name == "number" || (name == "integer" && IsWhole(n))
      case Str(_) => name == "string"
      case _ => false
  {
    if value.Number? {
      WholeNumbers(value.n);
    }
  }

  predicate ElementFits(schema: Record, element: Value) {
    match Get(schema, "items")
    case Some(Obj(items)) => Valid(items, element)
    case _ => true
  }

  // An array fits when each of its elements fits the element schema, if there is one.
  lemma ArrayType(value: Value, schema: Record)
    ensures TypeAllows("array", value, schema) <==>
      && value.Arr?
      && forall i :: 0 <= i < |value.items| ==> ElementFits(schema, value.items[i])
  {
  }

  // A field that is declared must fit its declaration, which must be a schema; for any other there may be a schema or a ban.
  predicate FieldFits(schema: Record, field: Field) {
    var declared, others := Get(Properties(schema), field.key), Get(schema, "additionalProperties");
    && (declared.Some? ==> declared.value.Obj? && Valid(declared.value.fields, field.value))
    && (declared.None? && others.Some? && others.value.Obj? ==> Valid(others.value.fields, field.value))
    && (declared.None? ==> others != Some(Bool(false)))
  }

  predicate IsRequired(schema: Record, key: string) {
    match Get(schema, "required")
    case Some(Arr(keys)) => Str(key) in keys
    case _ => false
  }

  // An object fits when no required key is missing and each of its fields fits.
  lemma ObjectType(value: Value, schema: Record)
    ensures TypeAllows("object", value, schema) <==>
      && value.Obj?
      && (forall key :: IsRequired(schema, key) ==> Has(value.fields, key))
      && (forall field :: field in value.fields ==> FieldFits(schema, field))
  {
    if value.Obj? {
      forall i | 0 <= i < |value.fields|
        ensures PropertyAllows(schema, value.fields[i]) <==> FieldFits(schema, value.fields[i])
      {
      }
      if TypeAllows("object", value, schema) {
        forall key | IsRequired(schema, key)
          ensures Has(value.fields, key)
        {
          assert key in Required(schema);
        }
      }
    }
  }

  ghost predicate IsNamedType(types: seq<Value>, name: string, value: Value, schema: Record) {
    Str(name) in types && TypeAllows(name, value, schema)
  }

  // A schema with one type, or with object keywords alone, asks for that type; several types ask for one of them.
  lemma SchemaType(schema: Record, value: Value)
    requires EnumAllows(schema, value)
    ensures var declared := Get(schema, "type");
      Valid(schema, value) <==>
        if declared.Some? && declared.value.Str? then TypeAllows(declared.value.s, value, schema)
        else if declared.Some? && declared.value.Arr? then
          exists name :: IsNamedType(declared.value.items, name, value, schema)
        else HasObjectKeyword(schema) ==> TypeAllows("object", value, schema)
  {
    var declared := Get(schema, "type");
    if declared.Some? && declared.value.Arr? {
      var types := declared.value.items;
      if exists name :: IsNamedType(types, name, value, schema) {
        var name :| IsNamedType(types, name, value, schema);
        var i :| 0 <= i < |types| && types[i] == Str(name);
      }
      if Valid(schema, value) {
        var i :| 0 <= i < |types| && types[i].Str? && TypeAllows(types[i].s, value, schema);
        assert IsNamedType(types, types[i].s, value, schema);
      }
    }
  }

  // An enumeration allows exactly the values it lists. Without one every value is allowed.
  lemma EnumListsItsValues(schema: Record, value: Value)
    requires IsFinite(value)
    ensures var listed := Get(schema, "enum");
      if listed.Some? && listed.value.Arr? then IsFinite(listed.value) ==> (EnumAllows(schema, value) <==> value in listed.value.items)
      else EnumAllows(schema, value)
  {
    var listed := Get(schema, "enum");
    FinitePrintsAsItself(value);
    if listed.Some? && listed.value.Arr? && IsFinite(listed.value) {
      forall i | 0 <= i < |listed.value.items|
        ensures Printed(listed.value.items[i]) == listed.value.items[i]
      {
        FinitePrintsAsItself(listed.value.items[i]);
      }
    }
  }
}
