// URI templates: the two scanners that read them, the expansion, and how an expansion reads back.
module UriTemplate {
  import opened Wrappers
  import opened Seqs
  import opened Json
  import opened JsonSchema
  import opened PercentEncoding

  predicate IsOperator(c: char) {
    c in {'+', '#', '.', '/', ';', '?', '&'}
  }

  // ---- Text helpers ----

  // The first `}` at or after `i`, or |t|.
  function CloseAfter(t: string, i: nat): (j: nat)
    requires i <= |t|
    ensures i <= j <= |t|
    ensures j < |t| ==> t[j] == '}'
    ensures forall k :: i <= k < j ==> t[k] != '}'
    decreases |t| - i
  {
    if i == |t| || t[i] == '}' then i else CloseAfter(t, i + 1)
  }

  // `split` on one character; never empty.
  function Split(s: string, sep: char): (pieces: seq<string>)
    ensures |pieces| >= 1
  {
    if s == [] then [""]
    else
      var rest := Split(s[1..], sep);
      if s[0] == sep then [""] + rest else [[s[0]] + rest[0]] + rest[1..]
  }

  // `join` with one character.
  function Join(pieces: seq<string>, sep: char): string {
    if pieces == [] then ""
    else if |pieces| == 1 then pieces[0]
    else pieces[0] + [sep] + Join(pieces[1..], sep)
  }

  predicate IsSpace(c: char) {
    var cp := c as int;
    9 <= cp <= 13 || cp in {32, 160, 0x1680, 0x2028, 0x2029, 0x202F, 0x205F, 0x3000, 0xFEFF} || 0x2000 <= cp <= 0x200A
  }

  function TrimStart(s: string): string {
    if s != [] && IsSpace(s[0]) then TrimStart(s[1..]) else s
  }

  function TrimEnd(s: string): string {
    if s != [] && IsSpace(s[|s| - 1]) then TrimEnd(s[..|s| - 1]) else s
  }

  function Trim(s: string): string {
    TrimEnd(TrimStart(s))
  }

  predicate WordChar(c: char) {
    Alphanumeric(c) || c == '_'
  }

  // The match of /^([A-Za-z0-9_]+)/, empty when there is none.
  function Word(s: string): (w: string)
    ensures forall k :: 0 <= k < |w| ==> WordChar(w[k])
  {
    if s != [] && WordChar(s[0]) then [s[0]] + Word(s[1..]) else ""
  }

  // The variables of one expression: comma-separated, trimmed, cut to their leading word, blanks dropped.
  function Names(raw: string): (names: seq<string>) {
    Words(Split(raw, ','))
  }

  function Words(parts: seq<string>): (names: seq<string>)
    ensures forall k :: 0 <= k < |names| ==> names[k] != "" && forall c :: c in names[k] ==> WordChar(c)
  {
    if parts == [] then []
    else
      var earlier := Words(parts[..|parts| - 1]);
      var word := Word(Trim(parts[|parts| - 1]));
      if word != "" then earlier + [word] else earlier
  }

  // ---- The catalog's scanner ----

  // One match of /\{[+#./;?&]?([^}]+)\}/ that starts at `i`: the captured text and the end of the match.
  function CatalogMatch(t: string, i: nat): (m: Option<(string, nat)>)
    requires i < |t|
    ensures m.Some? ==> i < m.value.1 <= |t|
  {
    if t[i] != '{' then None
    else
      var close := CloseAfter(t, i + 1);
      // The operator is given back when nothing else is left between the braces.
      var start := if i + 2 < close && IsOperator(t[i + 1]) then i + 2 else i + 1;
      if close < |t| && start < close then Some((t[start..close], close + 1)) else None
  }

  // Every variable occurrence the catalog's scanner meets from `i` on.
  function CatalogNames(t: string, i: nat): seq<string>
    requires i <= |t|
    decreases |t| - i
  {
    if i == |t| then []
    else
      match CatalogMatch(t, i)
      case Some((captured, end)) => Names(captured) + CatalogNames(t, end)
      case None => CatalogNames(t, i + 1)
  }

  // The variables the template's parameter schema asks for, in first-seen order.
  function Variables(t: string): seq<string> {
    FirstSeen(CatalogNames(t, 0))
  }

  lemma WordsStep(parts: seq<string>, k: nat)
    requires k < |parts|
    ensures Words(parts[..k + 1]) ==
      var word := Word(Trim(parts[k]));
      if word != "" then Words(parts[..k]) + [word] else Words(parts[..k])
  {
    assert parts[..k + 1][..k] == parts[..k];
  }

  lemma PushStep(seen: seq<string>, parts: seq<string>, k: nat)
    requires k < |parts|
    ensures
      var before := FirstSeen(seen + Words(parts[..k]));
      var variable := Word(Trim(parts[k]));
      FirstSeen(seen + Words(parts[..k + 1])) ==
        if variable != "" && variable !in before then before + [variable] else before
  {
    var words, variable := Words(parts[..k]), Word(Trim(parts[k]));
    WordsStep(parts, k);
    FirstSeenStep(seen + words, variable);
    assert seen + (words + [variable]) == (seen + words) + [variable];
  }

  // One expression's variables, each pushed unless it is there already.
  method PushNames(seen: seq<string>, captured: string) returns (names: seq<string>)
    requires FirstSeen(seen) == seen
    ensures names == FirstSeen(seen + Names(captured))
  {
    names := seen;
    var parts := Split(captured, ',');
    assert seen + Words(parts[..0]) == seen;
    for k := 0 to |parts|
      invariant names == FirstSeen(seen + Words(parts[..k]))
    {
      var variable := Word(Trim(parts[k]));
      PushStep(seen, parts, k);
      if variable != "" && variable !in names {
        names := names + [variable];
      }
    }
    assert parts[..|parts|] == parts;
  }

  lemma ScanStep(names: seq<string>, found: seq<string>, rest: seq<string>)
    ensures FirstSeen(names + (found + rest)) == FirstSeen(FirstSeen(names + found) + rest)
  {
    assert names + (found + rest) == (names + found) + rest;
    FirstSeenConcat(names + found, rest);
  }

  // The scan as written: one pass over the matches.
  method UriTemplateVariables(t: string) returns (names: seq<string>)
    ensures names == Variables(t)
  {
    names := [];
    var i := 0;
    assert names + CatalogNames(t, 0) == CatalogNames(t, 0);
    while i < |t|
      invariant 0 <= i <= |t|
      invariant FirstSeen(names) == names
      invariant FirstSeen(names + CatalogNames(t, i)) == Variables(t)
    {
      match CatalogMatch(t, i) {
        case Some((captured, end)) =>
          ScanStep(names, Names(captured), CatalogNames(t, end));
          FirstSeenKeepsElements(names + Names(captured));
          names := PushNames(names, captured);
          FirstSeenOfDistinct(names);
          i := end;
        case None =>
          i := i + 1;
      }
    }
    assert names + [] == names;
  }

  // Each variable the scanner meets is listed once, and of two listed variables the earlier one was met first.
  lemma VariablesAreInFirstSeenOrder(t: string)
    ensures NoDuplicates(Variables(t)) && forall name :: name in Variables(t) <==> name in CatalogNames(t, 0)
    ensures forall i, j :: 0 <= i < j < |Variables(t)| ==> SeenBefore(CatalogNames(t, 0), Variables(t)[i], Variables(t)[j])
  {
    FirstSeenKeepsElements(CatalogNames(t, 0));
    forall i, j | 0 <= i < j < |Variables(t)|
      ensures SeenBefore(CatalogNames(t, 0), Variables(t)[i], Variables(t)[j])
    {
      var p, q := FirstSeenOrder(CatalogNames(t, 0), i, j);
    }
  }

  // ---- The runner's scanner and expansion ----

  // One match of /\{([+#./;?&])?([^}]+)\}/: operator, raw variable list, end of the match.
  datatype Expression = Expression(operator: Option<char>, raw: string, end: nat)

  function RunnerMatch(t: string, i: nat): (m: Option<Expression>)
    requires i < |t|
    ensures m.Some? ==> i < m.value.end <= |t|
    ensures m.Some? && m.value.operator.Some? ==> IsOperator(m.value.operator.value)
  {
    if t[i] != '{' then None
    else
      var close := CloseAfter(t, i + 1);
      if close == |t| then None
      else if i + 2 < close && IsOperator(t[i + 1]) then
        Some(Expression(Some(t[i + 1]), t[i + 2..close], close + 1))
      else if i + 1 < close then Some(Expression(None, t[i + 1..close], close + 1))
      else None
  }

  // `args[name]` is a string.
  predicate HasText(args: Record, name: string) {
    Get(args, name).Some? && Get(args, name).value.Str?
  }

  // The argument of each name, or the first name that has no string argument.
  function Values(names: seq<string>, args: Record): (r: Result<seq<string>, string>)
    ensures r.Ok? <==> Complete(names, args)
    ensures r.Ok? ==> |r.value| == |names| && forall k :: 0 <= k < |names| ==> Get(args, names[k]) == Some(Str(r.value[k]))
    ensures r.Err? ==> r.error in names && !HasText(args, r.error)
  {
    if names == [] then Ok([])
    else if !HasText(args, names[0]) then Err(names[0])
    else
      match Values(names[1..], args)
      case Ok(values) => Ok([Get(args, names[0]).value.s] + values)
      case Err(name) => Err(name)
  }

  function EncodeAll(values: seq<string>, reserved: bool): (encoded: seq<string>)
    ensures |encoded| == |values|
  {
    seq(|values|, k requires 0 <= k < |values| => if reserved then EncodeReserved(values[k]) else Encode(values[k]))
  }

  function Prefixed(pieces: seq<string>, sep: char): string {
    if pieces == [] then "" else [sep] + pieces[0] + Prefixed(pieces[1..], sep)
  }

  function Named(names: seq<string>, pieces: seq<string>): (r: seq<string>)
    requires |names| == |pieces|
    ensures |r| == |names|
  {
    seq(|names|, k requires 0 <= k < |names| => names[k] + "=" + pieces[k])
  }

  // The switch over the operator, on values that are already encoded.
  function Assemble(operator: Option<char>, names: seq<string>, encoded: seq<string>): string
    requires |names| == |encoded|
  {
    match operator
    case Some('#') => "#" + Join(encoded, ',')
    case Some('.') => Prefixed(encoded, '.')
    case Some('/') => Prefixed(encoded, '/')
    case Some(';') => Prefixed(Named(names, encoded), ';')
    case Some('?') => "?" + Join(Named(names, encoded), '&')
    case Some('&') => "&" + Join(Named(names, encoded), '&')
    case _ => Join(encoded, ',')
  }

  predicate Reserved(operator: Option<char>) {
    operator == Some('+') || operator == Some('#')
  }

  // The text one expression expands to.
  function ExpandExpression(operator: Option<char>, names: seq<string>, values: seq<string>): string
    requires |names| == |values|
  {
    Assemble(operator, names, EncodeAll(values, Reserved(operator)))
  }

  // `template.replace` from `i` on. The error is the first variable without a string argument.
  function ExpandFrom(t: string, i: nat, args: Record): Result<string, string>
    requires i <= |t|
    decreases |t| - i
  {
    if i == |t| then Ok("")
    else
      match RunnerMatch(t, i)
      case None =>
        (match ExpandFrom(t, i + 1, args)
         case Ok(rest) => Ok([t[i]] + rest)
         case Err(name) => Err(name))
      case Some(e) =>
        match Values(Names(e.raw), args)
        case Err(name) => Err(name)
        case Ok(values) =>
          match ExpandFrom(t, e.end, args)
          case Ok(rest) => Ok(ExpandExpression(e.operator, Names(e.raw), values) + rest)
          case Err(name) => Err(name)
  }

  function ExpandUriTemplate(t: string, args: Record): Result<string, string> {
    ExpandFrom(t, 0, args)
  }

  // ---- The scanners agree ----

  lemma MatchesAgree(t: string, i: nat)
    requires i < |t|
    ensures CatalogMatch(t, i).Some? <==> RunnerMatch(t, i).Some?
    ensures RunnerMatch(t, i).Some? ==>
      CatalogMatch(t, i).value == (RunnerMatch(t, i).value.raw, RunnerMatch(t, i).value.end)
  {
  }

  // Every name has a string argument.
  predicate Complete(names: seq<string>, args: Record) {
    forall k :: 0 <= k < |names| ==> HasText(args, names[k])
  }

  lemma CompleteConcat(a: seq<string>, b: seq<string>, args: Record)
    ensures Complete(a + b, args) <==> Complete(a, args) && Complete(b, args)
  {
    if Complete(a + b, args) {
      assert forall k :: 0 <= k < |a| ==> a[k] == (a + b)[k];
      assert forall k :: 0 <= k < |b| ==> b[k] == (a + b)[|a| + k];
    }
  }

  lemma {:induction false} ExpansionSucceedsFrom(t: string, i: nat, args: Record)
    requires i <= |t|
    ensures ExpandFrom(t, i, args).Ok? <==> Complete(CatalogNames(t, i), args)
    decreases |t| - i
  {
    if i < |t| {
      MatchesAgree(t, i);
      match RunnerMatch(t, i) {
        case None =>
          ExpansionSucceedsFrom(t, i + 1, args);
        case Some(e) =>
          ExpansionSucceedsFrom(t, e.end, args);
          CompleteConcat(Names(e.raw), CatalogNames(t, e.end), args);
      }
    }
  }

  // Expansion raises its missing-variable error exactly when a variable of the parameter schema has no string argument.
  lemma ExpansionFailsExactlyOnMissingVariables(t: string, args: Record)
    ensures ExpandUriTemplate(t, args).Err? <==> exists name :: name in Variables(t) && !HasText(args, name)
  {
    ExpansionSucceedsFrom(t, 0, args);
    var names := CatalogNames(t, 0);
    FirstSeenKeepsElements(names);
    if !Complete(names, args) {
      var k :| 0 <= k < |names| && !HasText(args, names[k]);
      assert names[k] in Variables(t);
    }
  }

  // ---- The schema built from a template ----

  function StringSchema(): Value {
    Obj([Field("type", Str("string"))])
  }

  function Declared(variables: seq<string>): Record {
    seq(|variables|, i requires 0 <= i < |variables| => Field(variables[i], StringSchema()))
  }

  // `templateParameters`, given the template's variables.
  function ParametersFor(variables: seq<string>): Record {
    [
      Field("type", Str("object")),
      Field("properties", Obj(Declared(variables))),
      Field("required", Arr(seq(|variables|, i requires 0 <= i < |variables| => Str(variables[i])))),
      Field("additionalProperties", Bool(false))
    ]
  }

  function TemplateParameters(t: string): Record {
    ParametersFor(Variables(t))
  }

  // The first field with a key decides what `Get` returns.
  lemma {:induction false} GetAt(record: Record, key: string, i: nat)
    requires i < |record| && record[i].key == key
    requires forall j :: 0 <= j < i ==> record[j].key != key
    ensures Get(record, key) == Some(record[i].value)
  {
    if i > 0 {
      GetAt(record[1..], key, i - 1);
    }
  }

  lemma ParametersFields(variables: seq<string>)
    ensures var schema := ParametersFor(variables);
      && Get(schema, "type") == Some(Str("object"))
      && Get(schema, "enum") == None
      && Get(schema, "additionalProperties") == Some(Bool(false))
      && Get(schema, "properties") == Some(schema[1].value)
      && Get(schema, "required") == Some(schema[2].value)
  {
    var schema := ParametersFor(variables);
    assert "type"[0] == 't' && "enum"[0] == 'e';
    GetAt(schema, "type", 0);
    GetAt(schema, "properties", 1);
    GetAt(schema, "required", 2);
    GetAt(schema, "additionalProperties", 3);
    assert !Has(schema, "enum");
  }

  lemma StringSchemaMeaning(value: Value)
    ensures Valid(StringSchema().fields, value) <==> value.Str?
  {
    var schema := StringSchema().fields;
    GetAt(schema, "type", 0);
    assert "type"[0] == 't' && "enum"[0] == 'e';
    assert !Has(schema, "enum");
  }

  lemma {:induction false} LookUpDeclared(variables: seq<string>, key: string)
    ensures Get(Declared(variables), key) == if key in variables then Some(StringSchema()) else None
  {
    if variables != [] {
      LookUpDeclared(variables[1..], key);
      assert Declared(variables)[1..] == Declared(variables[1..]);
    }
  }

  lemma TemplatePropertyMeaning(variables: seq<string>, field: Field)
    ensures PropertyAllows(ParametersFor(variables), field) <==> field.key in variables && field.value.Str?
  {
    ParametersFields(variables);
    StringSchemaMeaning(field.value);
    LookUpDeclared(variables, field.key);
    assert Properties(ParametersFor(variables)) == Declared(variables);
    PropertyBySchema(ParametersFor(variables), field);
  }

  // A property by the schema it is declared with, where nothing else is allowed.
  lemma PropertyBySchema(schema: Record, field: Field)
    requires Get(schema, "additionalProperties") == Some(Bool(false))
    ensures match Get(Properties(schema), field.key)
      case Some(property) => PropertyAllows(schema, field) <==> property.Obj? && Valid(property.fields, field.value)
      case None => !PropertyAllows(schema, field)
  {
  }

  // The checker accepts arguments for a template exactly when they give a string to each variable and nothing else.
  lemma TemplateSchemaMeaning(variables: seq<string>, value: Value)
    ensures Valid(ParametersFor(variables), value) <==>
      && value.Obj?
      && (forall name :: name in variables ==> Has(value.fields, name))
      && (forall field :: field in value.fields ==> field.key in variables && field.value.Str?)
  {
    var schema := ParametersFor(variables);
    ParametersFields(variables);
    if value.Obj? {
      assert forall name :: name in Required(schema) <==> name in variables by {
        var items := schema[2].value.items;
        forall name
          ensures Str(name) in items <==> name in variables
        {
          if name in variables {
            var k :| 0 <= k < |variables| && variables[k] == name;
            assert items[k] == Str(name);
          }
        }
      }
      forall i | 0 <= i < |value.fields|
        ensures PropertyAllows(schema, value.fields[i])
          <==> value.fields[i].key in variables && value.fields[i].value.Str?
      {
        TemplatePropertyMeaning(variables, value.fields[i]);
      }
    }
  }

  // Arguments the checker accepts always expand: the two scanners ask for the same variables.
  lemma AcceptedArgumentsExpand(t: string, args: Record)
    requires Valid(TemplateParameters(t), Obj(args))
    ensures ExpandUriTemplate(t, args).Ok?
  {
    TemplateSchemaMeaning(Variables(t), Obj(args));
    ExpansionFailsExactlyOnMissingVariables(t, args);
  }

  // For arguments with no surplus or non-string field the implication is an equivalence.
  lemma CheckerAcceptsWhatExpands(t: string, args: Record)
    requires forall field :: field in args ==> field.key in Variables(t) && field.value.Str?
    ensures Valid(TemplateParameters(t), Obj(args)) <==> ExpandUriTemplate(t, args).Ok?
  {
    TemplateSchemaMeaning(Variables(t), Obj(args));
    ExpansionFailsExactlyOnMissingVariables(t, args);
  }
}
