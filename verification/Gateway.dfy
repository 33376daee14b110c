// One model step: a completion mapped onto a list item with checked arguments, or onto the answer.
module Gateway {
  import opened Wrappers
  import opened Json
  import opened JsonSchema
  import opened UriTemplate
  import opened Catalog

  // `arguments` is the parsed argument text, or None when it is not a JSON object.
  datatype FunctionCall = FunctionCall(name: string, arguments: Option<Record>)

  // `tool_calls` and `content` with their null and absent cases folded to empty.
  datatype ProviderMessage = ProviderMessage(calls: seq<FunctionCall>, content: string)

  // The tool or resource a permit or refuse must match.
  datatype Selection = Selection(domain: string, name: string, kind: Kind)

  // A selection with the arguments the model filled.
  datatype Ask = Ask(item: Selection, arguments: Record)

  datatype ModelStep = Selected(ask: Ask) | Answered(content: string)

  datatype ProviderFailure = ManyCalls | NoCallNoAnswer | NotInList | BadArguments

  function SelectionFromCall(call: FunctionCall, lookup: map<string, CatalogEntry>): Result<ModelStep, ProviderFailure> {
    if call.name !in lookup then Err(NotInList)
    else
      var entry := lookup[call.name];
      if call.arguments.None? || !Valid(entry.parameters, Obj(call.arguments.value)) then Err(BadArguments)
      else Ok(Selected(Ask(Selection(entry.domain, entry.name, entry.kind), call.arguments.value)))
  }

  // A function call wins when the message also has content.
  function Interpret(message: ProviderMessage, lookup: map<string, CatalogEntry>): Result<ModelStep, ProviderFailure> {
    if |message.calls| > 1 then Err(ManyCalls)
    else if |message.calls| == 1 then SelectionFromCall(message.calls[0], lookup)
    else if Trim(message.content) == "" then Err(NoCallNoAnswer)
    else Ok(Answered(message.content))
  }

  // `ask` names item `i` of the list and its arguments fit that item's schema.
  predicate Listed(list: ModelList, ask: Ask, i: nat) {
    && i < |Listings(list)|
    && ask.item == Selection(Listings(list)[i].item.domain, Listings(list)[i].item.name, KindOf(Listings(list)[i].item))
    && Valid(Listings(list)[i].item.parameters, Obj(ask.arguments))
  }

  // `step` against the catalog built from this list.
  function Step(message: ProviderMessage, list: ModelList): Result<ModelStep, ProviderFailure>
    requires Accepts(Listings(list))
  {
    Interpret(message, LookupOf(Listings(list)))
  }

  lemma EntryIsListed(list: ModelList, name: string) returns (i: nat)
    requires Accepts(Listings(list)) && name in LookupOf(Listings(list))
    ensures i < |Listings(list)| && Listings(list)[i].functionName == name
    ensures LookupOf(Listings(list))[name] == Entry(Listings(list)[i].item)
  {
    i := LookupWitness(Listings(list), name);
    LookupFinds(Listings(list), i);
  }

  // Every selection a step returns is one listed item with arguments that fit its schema.
  lemma SelectionsAreListed(message: ProviderMessage, list: ModelList) returns (i: nat)
    requires Accepts(Listings(list))
    requires Step(message, list).Ok? && Step(message, list).value.Selected?
    ensures Listed(list, Step(message, list).value.ask, i)
    ensures Listings(list)[i].functionName == message.calls[0].name
  {
    i := EntryIsListed(list, message.calls[0].name);
  }

  // No other item answers to the same kind, domain and name.
  lemma DispatchIsUnambiguous(list: ModelList, ask: Ask, i: nat, j: nat)
    requires Accepts(Listings(list)) && Listed(list, ask, i) && Listed(list, ask, j)
    ensures i == j
  {
    SameEntrySameItem(list, i, j);
  }

  // A listed resource read that takes the template branch always expands.
  lemma ListedTemplateExpands(list: ModelList, ask: Ask, i: nat)
    requires Accepts(Listings(list)) && Listed(list, ask, i) && ask.item.kind == Resource
    ensures var found := FindTemplate(list.templates, ask.item.domain, ask.item.name);
      && (found.Some? <==> Listings(list)[i].item.source == FromTemplate)
      && (found.Some? ==> ExpandUriTemplate(found.value.uriTemplate, ask.arguments).Ok?)
  {
    TemplateBranchFollowsSource(list, i);
    var found := FindTemplate(list.templates, ask.item.domain, ask.item.name);
    if found.Some? {
      AcceptedArgumentsExpand(found.value.uriTemplate, ask.arguments);
    }
  }

  // ---- In terms of the list itself ----

  lemma NoArgumentsMeaning(value: Value)
    ensures Valid(NoArgumentsSchema(), value) <==> value == Obj([])
  {
    var schema := NoArgumentsSchema();
    GetAt(schema, "type", 0);
    GetAt(schema, "properties", 1);
    GetAt(schema, "additionalProperties", 2);
    assert "type"[0] == 't' && "properties"[0] == 'p' && "additionalProperties"[0] == 'a';
    assert "enum"[0] == 'e' && "required"[0] == 'r';
    assert !Has(schema, "enum") && !Has(schema, "required");
    if value.Obj? {
      NothingIsDeclared(schema, value.fields);
    }
  }

  lemma NothingIsDeclared(schema: Record, fields: Record)
    requires Get(schema, "properties") == Some(Obj([])) && Get(schema, "additionalProperties") == Some(Bool(false))
    ensures (forall i :: 0 <= i < |fields| ==> PropertyAllows(schema, fields[i])) <==> fields == []
  {
    if fields != [] {
      assert !PropertyAllows(schema, fields[0]);
    }
  }

  // The ask is for this tool, with arguments that fit its schema, or none when it has none.
  predicate AsksTool(ask: Ask, tool: McpTool) {
    && ask.item == Selection(tool.domain, tool.name, Tool)
    && match tool.inputSchema
       case Some(schema) => Valid(schema, Obj(ask.arguments))
       case None => ask.arguments == []
  }

  predicate AsksResource(ask: Ask, resource: McpResource) {
    ask.item == Selection(resource.domain, resource.name, Resource) && ask.arguments == []
  }

  // The ask is for this template, with a string for each of its variables and nothing else.
  predicate AsksTemplate(ask: Ask, template: McpTemplate) {
    && ask.item == Selection(template.domain, template.name, Resource)
    && (forall name :: name in Variables(template.uriTemplate) ==> Has(ask.arguments, name))
    && (forall field :: field in ask.arguments ==> field.key in Variables(template.uriTemplate) && field.value.Str?)
  }

  // The ask is for item `i` of the list, counting tools, then resources, then templates.
  predicate AsksItem(list: ModelList, ask: Ask, i: nat) {
    var resources := |list.tools|;
    var templates := resources + |list.resources|;
    if i < resources then AsksTool(ask, list.tools[i])
    else if i < templates then AsksResource(ask, list.resources[i - resources])
    else i < templates + |list.templates| && AsksTemplate(ask, list.templates[i - templates])
  }

  predicate AsksFor(ask: Ask, item: Item) {
    ask.item == Selection(item.domain, item.name, KindOf(item)) && Valid(item.parameters, Obj(ask.arguments))
  }

  lemma AsksToolMeaning(ask: Ask, tool: McpTool)
    ensures AsksFor(ask, ToolItem(tool)) <==> AsksTool(ask, tool)
  {
    if tool.inputSchema.None? {
      NoArgumentsMeaning(Obj(ask.arguments));
    }
  }

  lemma AsksResourceMeaning(ask: Ask, resource: McpResource)
    ensures AsksFor(ask, ResourceItem(resource)) <==> AsksResource(ask, resource)
  {
    NoArgumentsMeaning(Obj(ask.arguments));
  }

  lemma AsksTemplateMeaning(ask: Ask, template: McpTemplate)
    ensures AsksFor(ask, TemplateItem(template)) <==> AsksTemplate(ask, template)
  {
    TemplateSchemaMeaning(Variables(template.uriTemplate), Obj(ask.arguments));
  }

  // Item `i` of the list as the catalog adds it.
  function ItemAt(list: ModelList, i: nat): Item
    requires i < |list.tools| + |list.resources| + |list.templates|
  {
    var resources := |list.tools|;
    var templates := resources + |list.resources|;
    if i < resources then ToolItem(list.tools[i])
    else if i < templates then ResourceItem(list.resources[i - resources])
    else TemplateItem(list.templates[i - templates])
  }

  lemma ListingItem(list: ModelList, i: nat)
    requires i < |Listings(list)|
    ensures Listings(list)[i].item == ItemAt(list, i)
  {
  }

  lemma AsksItemMeaning(list: ModelList, ask: Ask, i: nat)
    requires i < |list.tools| + |list.resources| + |list.templates|
    ensures AsksFor(ask, ItemAt(list, i)) <==> AsksItem(list, ask, i)
  {
    var resources := |list.tools|;
    var templates := resources + |list.resources|;
    if i < resources {
      AsksToolMeaning(ask, list.tools[i]);
    } else if i < templates {
      AsksResourceMeaning(ask, list.resources[i - resources]);
    } else {
      AsksTemplateMeaning(ask, list.templates[i - templates]);
    }
  }

  // The index speaks of the same items as the list.
  lemma ListedMeansAsked(list: ModelList, ask: Ask, i: nat)
    ensures Listed(list, ask, i) <==> AsksItem(list, ask, i)
  {
    assert |Listings(list)| == |list.tools| + |list.resources| + |list.templates|;
    if i < |Listings(list)| {
      ListingItem(list, i);
      AsksItemMeaning(list, ask, i);
    }
  }

  // ---- What a step does ----

  predicate IsBlank(text: string) {
    forall k :: 0 <= k < |text| ==> IsSpace(text[k])
  }

  lemma {:induction false} TrimStartIsBlank(text: string)
    ensures IsBlank(text) <==> TrimStart(text) == ""
    ensures TrimStart(text) != "" ==> !IsSpace(TrimStart(text)[0])
  {
    if text != "" && IsSpace(text[0]) {
      TrimStartIsBlank(text[1..]);
      assert text == [text[0]] + text[1..];
    }
  }

  lemma {:induction false} TrimEndKeepsHead(text: string)
    requires text != "" && !IsSpace(text[0])
    ensures TrimEnd(text) != ""
  {
    if IsSpace(text[|text| - 1]) {
      TrimEndKeepsHead(text[..|text| - 1]);
    }
  }

  lemma TrimmedBlank(text: string)
    ensures Trim(text) == "" <==> IsBlank(text)
  {
    TrimStartIsBlank(text);
    if TrimStart(text) != "" {
      TrimEndKeepsHead(TrimStart(text));
    }
  }

  // What a message means for a list, without the index.
  ghost predicate Means(message: ProviderMessage, list: ModelList, step: Result<ModelStep, ProviderFailure>)
    requires CatalogOf(list).Ok?
  {
    var offered, calls := CatalogOf(list).value.tools, message.calls;
    match step
    case Err(ManyCalls) => |calls| > 1
    case Err(NoCallNoAnswer) => calls == [] && IsBlank(message.content)
    case Err(NotInList) => |calls| == 1 && forall i :: 0 <= i < |offered| ==> offered[i].name != calls[0].name
    case Err(BadArguments) =>
      |calls| == 1
      && exists i :: 0 <= i < |offered| && offered[i].name == calls[0].name
                     && (calls[0].arguments.None? || !Valid(offered[i].parameters, Obj(calls[0].arguments.value)))
    case Ok(Answered(content)) => calls == [] && !IsBlank(content) && content == message.content
    case Ok(Selected(ask)) =>
      |calls| == 1 && calls[0].arguments == Some(ask.arguments)
      && exists i :: AsksNamedItem(list, ask, i, calls[0].name)
  }

  // The ask is for the item that is offered under this name.
  ghost predicate AsksNamedItem(list: ModelList, ask: Ask, i: nat, name: string)
    requires CatalogOf(list).Ok?
  {
    i < |CatalogOf(list).value.tools| && CatalogOf(list).value.tools[i].name == name && AsksItem(list, ask, i)
  }

  // A step takes a message as what it means for the list: one call of an offered name with arguments that fit, or the
  // content, unchanged.
  lemma StepTakesTheMeaning(message: ProviderMessage, list: ModelList)
    requires CatalogOf(list).Ok?
    ensures Means(message, list, Step(message, list))
  {
    var step, offered := Step(message, list), CatalogOf(list).value.tools;
    TrimmedBlank(message.content);
    if |message.calls| == 1 {
      CallTakesTheMeaning(message, list);
    }
  }

  lemma CallTakesTheMeaning(message: ProviderMessage, list: ModelList)
    requires CatalogOf(list).Ok? && |message.calls| == 1
    ensures Means(message, list, Step(message, list))
  {
    var name, offered := message.calls[0].name, CatalogOf(list).value.tools;
    CatalogMirrorsTheList(list);
    if name in LookupOf(Listings(list)) {
      var i := EntryIsListed(list, name);
      ItemIsOffered(list, i);
      if Step(message, list).Ok? {
        ListedMeansAsked(list, Step(message, list).value.ask, i);
        assert AsksNamedItem(list, Step(message, list).value.ask, i, name);
      }
    } else {
      forall i | 0 <= i < |offered|
        ensures offered[i].name != name
      {
        ItemIsOffered(list, i);
      }
    }
  }
}
