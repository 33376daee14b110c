// The catalog: the MCP list as provider functions, and the index from function name back to the list item.
module Catalog {
  import opened Wrappers
  import opened Seqs
  import opened Json
  import opened PercentEncoding
  import opened UriTemplate

  datatype McpTool = McpTool(domain: string, name: string, description: Option<string>, inputSchema: Option<Record>)
  datatype McpResource = McpResource(domain: string, name: string, description: Option<string>, uri: string)
  datatype McpTemplate = McpTemplate(domain: string, name: string, description: Option<string>, uriTemplate: string)

  datatype ModelList = ModelList(tools: seq<McpTool>, resources: seq<McpResource>, templates: seq<McpTemplate>)

  datatype Kind = Tool | Resource

  datatype Source = FromTool | FromResource | FromTemplate

  // One list item as `add` receives it.
  datatype Item = Item(source: Source, domain: string, name: string, parameters: Record, description: string)

  datatype CatalogEntry = CatalogEntry(domain: string, name: string, kind: Kind, parameters: Record)
  datatype ProviderTool = ProviderTool(name: string, description: string, parameters: Record)
  datatype Catalog = Catalog(tools: seq<ProviderTool>, lookup: map<string, CatalogEntry>)

  datatype CatalogError = DuplicateItem

  // ---- Items ----

  function NoArgumentsSchema(): Record {
    [Field("type", Str("object")), Field("properties", Obj([])), Field("additionalProperties", Bool(false))]
  }

  function CatalogDescription(domain: string, name: string, description: Option<string>, detail: Option<string>): string {
    (if description.Some? && description.value != "" then description.value + "\n" else "")
    + "Domain: " + domain + "\nName: " + name
    + (if detail.Some? && detail.value != "" then "\n" + detail.value else "")
  }

  function ToolItem(tool: McpTool): Item {
    Item(FromTool, tool.domain, tool.name,
         if tool.inputSchema.Some? then tool.inputSchema.value else NoArgumentsSchema(),
         CatalogDescription(tool.domain, tool.name, tool.description, None))
  }

  function ResourceItem(resource: McpResource): Item {
    Item(FromResource, resource.domain, resource.name, NoArgumentsSchema(),
         CatalogDescription(resource.domain, resource.name, resource.description, Some("URI: " + resource.uri)))
  }

  function TemplateItem(template: McpTemplate): Item {
    Item(FromTemplate, template.domain, template.name, TemplateParameters(template.uriTemplate),
         CatalogDescription(template.domain, template.name, template.description,
                            Some("URI template: " + template.uriTemplate)))
  }

  // A template keeps the kind `resource`.
  function KindOf(item: Item): Kind {
    if item.source.FromTool? then Tool else Resource
  }

  function Entry(item: Item): CatalogEntry {
    CatalogEntry(item.domain, item.name, KindOf(item), item.parameters)
  }

  // ---- Names ----

  const MAX_NAME_LENGTH: nat := 64

  predicate ProviderSafe(c: char) {
    Alphanumeric(c) || c == '_' || c == '-'
  }

  // `replace(/[^A-Za-z0-9_-]/g, '_')`. A character outside the basic plane is two code units, so it becomes two.
  function Sanitize(s: string): (r: string)
    ensures forall k :: 0 <= k < |r| ==> ProviderSafe(r[k])
  {
    if s == [] then ""
    else
      (if ProviderSafe(s[0]) then [s[0]] else if s[0] as int < 0x1_0000 then "_" else "__") + Sanitize(s[1..])
  }

  function SourceName(source: Source): string {
    match source
    case FromTool => "tool"
    case FromResource => "resource"
    case FromTemplate => "template"
  }

  // What a function name is cut and cleaned from.
  function FullName(item: Item): string {
    SourceName(item.source) + "__" + item.domain + "__" + item.name
  }

  function FunctionName(item: Item): (name: string)
    ensures |name| <= MAX_NAME_LENGTH
    ensures forall k :: 0 <= k < |name| ==> ProviderSafe(name[k])
  {
    var sanitized := Sanitize(FullName(item));
    if |sanitized| <= MAX_NAME_LENGTH then sanitized else sanitized[..MAX_NAME_LENGTH]
  }

  // UTF-16: what the length of a string and the pattern of `replace` count in.
  function CodeUnits(s: string): (units: seq<int>)
    ensures forall k :: 0 <= k < |units| ==> 0 <= units[k] < 0x1_0000
  {
    if s == [] then []
    else
      var cp := s[0] as int;
      (if cp < 0x1_0000 then [cp] else [0xD800 + (cp - 0x1_0000) / 0x400, 0xDC00 + (cp - 0x1_0000) % 0x400])
      + CodeUnits(s[1..])
  }

  // A code unit that is an allowed character stays; any other becomes `_`.
  function CleanUnit(unit: int): char {
    if 0 <= unit < 128 && ProviderSafe(unit as char) then unit as char else '_'
  }

  lemma {:induction false} SanitizeCleansUnits(s: string)
    ensures |Sanitize(s)| == |CodeUnits(s)|
    ensures forall k :: 0 <= k < |Sanitize(s)| ==> Sanitize(s)[k] == CleanUnit(CodeUnits(s)[k])
  {
    if s != [] {
      SanitizeCleansUnits(s[1..]);
      var head, units := |Sanitize(s)| - |Sanitize(s[1..])|, CodeUnits(s);
      forall k | 0 <= k < |Sanitize(s)|
        ensures Sanitize(s)[k] == CleanUnit(units[k])
      {
        if k >= head {
          assert units[k] == CodeUnits(s[1..])[k - head];
        }
      }
    }
  }

  // Code unit by code unit, a function name spells source, domain and name up to its length, with everything that is
  // not allowed as `_`.
  lemma FunctionNameSpellsItsItem(item: Item)
    ensures var units := CodeUnits(FullName(item));
      && |FunctionName(item)| == (if |units| <= MAX_NAME_LENGTH then |units| else MAX_NAME_LENGTH)
      && forall k :: 0 <= k < |FunctionName(item)| ==> FunctionName(item)[k] == CleanUnit(units[k])
  {
    SanitizeCleansUnits(FullName(item));
  }

  // The key that rejects a second item with the same kind, domain and name.
  function Identity(item: Item): string {
    (if item.source.FromTool? then "tool" else "resource") + "\n" + item.domain + "\n" + item.name
  }

  // ---- What the catalog is ----

  // An item with the two keys it is indexed by.
  datatype Listing = Listing(item: Item, identity: string, functionName: string)

  function Keyed(item: Item): Listing {
    Listing(item, Identity(item), FunctionName(item))
  }

  function ToolListings(tools: seq<McpTool>): (listings: seq<Listing>)
    ensures |listings| == |tools|
  {
    seq(|tools|, i requires 0 <= i < |tools| => Keyed(ToolItem(tools[i])))
  }

  function ResourceListings(resources: seq<McpResource>): (listings: seq<Listing>)
    ensures |listings| == |resources|
  {
    seq(|resources|, i requires 0 <= i < |resources| => Keyed(ResourceItem(resources[i])))
  }

  function TemplateListings(templates: seq<McpTemplate>): (listings: seq<Listing>)
    ensures |listings| == |templates|
  {
    seq(|templates|, i requires 0 <= i < |templates| => Keyed(TemplateItem(templates[i])))
  }

  // Every list item in the order `buildCatalog` adds them.
  function Listings(list: ModelList): seq<Listing> {
    ToolListings(list.tools) + ResourceListings(list.resources) + TemplateListings(list.templates)
  }

  predicate Collides(a: Listing, b: Listing) {
    a.identity == b.identity || a.functionName == b.functionName
  }

  // `listing` can join a catalog of `earlier` ones.
  predicate Fits(earlier: seq<Listing>, listing: Listing) {
    forall i :: 0 <= i < |earlier| ==> !Collides(earlier[i], listing)
  }

  // No two items share an identity or a function name.
  predicate Accepts(listings: seq<Listing>) {
    forall i, j :: 0 <= i < j < |listings| ==> !Collides(listings[i], listings[j])
  }

  function FunctionOf(listing: Listing): ProviderTool {
    ProviderTool(listing.functionName, listing.item.description, listing.item.parameters)
  }

  function FunctionsOf(listings: seq<Listing>): seq<ProviderTool> {
    seq(|listings|, i requires 0 <= i < |listings| => FunctionOf(listings[i]))
  }

  function LookupOf(listings: seq<Listing>): map<string, CatalogEntry> {
    if listings == [] then map[]
    else
      var last := listings[|listings| - 1];
      LookupOf(listings[..|listings| - 1])[last.functionName := Entry(last.item)]
  }

  function IdentitiesOf(listings: seq<Listing>): set<string> {
    set listing | listing in listings :: listing.identity
  }

  function CatalogOf(list: ModelList): Result<Catalog, CatalogError> {
    var listings := Listings(list);
    if Accepts(listings) then Ok(Catalog(FunctionsOf(listings), LookupOf(listings))) else Err(DuplicateItem)
  }

  lemma {:induction false} LookupHas(listings: seq<Listing>, i: nat)
    requires i < |listings|
    ensures listings[i].functionName in LookupOf(listings)
  {
    if i < |listings| - 1 {
      LookupHas(listings[..|listings| - 1], i);
    }
  }

  lemma {:induction false} LookupWitness(listings: seq<Listing>, name: string) returns (i: nat)
    requires name in LookupOf(listings)
    ensures i < |listings| && listings[i].functionName == name
  {
    var last := |listings| - 1;
    if listings[last].functionName == name {
      i := last;
    } else {
      i := LookupWitness(listings[..last], name);
    }
  }

  // ---- What it says of the list ----

  // `name` spells `full`, code unit by code unit, as far as it goes.
  predicate Spells(name: string, full: string) {
    var units := CodeUnits(full);
    && |name| == (if |units| <= MAX_NAME_LENGTH then |units| else MAX_NAME_LENGTH)
    && forall k :: 0 <= k < |name| ==> name[k] == CleanUnit(units[k])
  }

  // Function `i` stands for this item: its name is spelled from it and leads back to it and its parameters.
  ghost predicate Offers(catalog: Catalog, i: nat, source: string, kind: Kind, domain: string, name: string) {
    && i < |catalog.tools|
    && var offered := catalog.tools[i];
       && Spells(offered.name, source + "__" + domain + "__" + name)
       && offered.name in catalog.lookup
       && catalog.lookup[offered.name] == CatalogEntry(domain, name, kind, offered.parameters)
  }

  ghost predicate OffersTool(catalog: Catalog, i: nat, tool: McpTool) {
    && Offers(catalog, i, "tool", Tool, tool.domain, tool.name)
    && catalog.tools[i].parameters == (if tool.inputSchema.Some? then tool.inputSchema.value else NoArgumentsSchema())
    && catalog.tools[i].description == CatalogDescription(tool.domain, tool.name, tool.description, None)
  }

  ghost predicate OffersResource(catalog: Catalog, i: nat, resource: McpResource) {
    && Offers(catalog, i, "resource", Resource, resource.domain, resource.name)
    && catalog.tools[i].parameters == NoArgumentsSchema()
    && catalog.tools[i].description
       == CatalogDescription(resource.domain, resource.name, resource.description, Some("URI: " + resource.uri))
  }

  ghost predicate OffersTemplate(catalog: Catalog, i: nat, template: McpTemplate) {
    && Offers(catalog, i, "template", Resource, template.domain, template.name)
    && catalog.tools[i].parameters == TemplateParameters(template.uriTemplate)
    && catalog.tools[i].description
       == CatalogDescription(template.domain, template.name, template.description,
                             Some("URI template: " + template.uriTemplate))
  }

  // The catalog offers every tool, resource and template of the list, in order, each under a name of its own, and the
  // index knows no other name.
  ghost predicate Mirrors(catalog: Catalog, list: ModelList) {
    && |catalog.tools| == |list.tools| + |list.resources| + |list.templates|
    && (forall k :: 0 <= k < |list.tools| ==> OffersTool(catalog, k, list.tools[k]))
    && (forall k :: 0 <= k < |list.resources| ==> OffersResource(catalog, |list.tools| + k, list.resources[k]))
    && (forall k :: 0 <= k < |list.templates| ==>
          OffersTemplate(catalog, |list.tools| + |list.resources| + k, list.templates[k]))
    && (forall i, j :: 0 <= i < j < |catalog.tools| ==> catalog.tools[i].name != catalog.tools[j].name)
    && forall name :: name in catalog.lookup ==> exists i :: 0 <= i < |catalog.tools| && catalog.tools[i].name == name
  }

  lemma ItemIsOffered(list: ModelList, i: nat)
    requires CatalogOf(list).Ok? && i < |Listings(list)|
    ensures OffersItem(CatalogOf(list).value, i, Listings(list)[i].item)
    ensures CatalogOf(list).value.tools[i].name == Listings(list)[i].functionName
  {
    LookupFinds(Listings(list), i);
    ListingsAreKeyed(list, i);
    FunctionNameSpellsItsItem(Listings(list)[i].item);
  }

  // Function `i` stands for this item.
  ghost predicate OffersItem(catalog: Catalog, i: nat, item: Item) {
    && Offers(catalog, i, SourceName(item.source), KindOf(item), item.domain, item.name)
    && catalog.tools[i].parameters == item.parameters && catalog.tools[i].description == item.description
  }

  lemma ToolIsOffered(list: ModelList, k: nat)
    requires CatalogOf(list).Ok? && k < |list.tools|
    ensures OffersTool(CatalogOf(list).value, k, list.tools[k])
  {
    ItemIsOffered(list, k);
    ItemOffersTool(CatalogOf(list).value, k, list.tools[k]);
  }

  lemma ItemOffersTool(catalog: Catalog, i: nat, tool: McpTool)
    requires OffersItem(catalog, i, ToolItem(tool))
    ensures OffersTool(catalog, i, tool)
  {
  }

  lemma ResourceAt(list: ModelList, k: nat)
    requires k < |list.resources|
    ensures |list.tools| + k < |Listings(list)|
    ensures Listings(list)[|list.tools| + k].item == ResourceItem(list.resources[k])
  {
  }

  lemma ResourceIsOffered(list: ModelList, k: nat)
    requires CatalogOf(list).Ok? && k < |list.resources|
    ensures OffersResource(CatalogOf(list).value, |list.tools| + k, list.resources[k])
  {
    ResourceAt(list, k);
    ItemIsOffered(list, |list.tools| + k);
    ItemOffersResource(CatalogOf(list).value, |list.tools| + k, list.resources[k]);
  }

  lemma ItemOffersResource(catalog: Catalog, i: nat, resource: McpResource)
    requires OffersItem(catalog, i, ResourceItem(resource))
    ensures OffersResource(catalog, i, resource)
  {
  }

  lemma TemplateAt(list: ModelList, k: nat)
    requires k < |list.templates|
    ensures |list.tools| + |list.resources| + k < |Listings(list)|
    ensures Listings(list)[|list.tools| + |list.resources| + k].item == TemplateItem(list.templates[k])
  {
  }

  lemma TemplateIsOffered(list: ModelList, k: nat)
    requires CatalogOf(list).Ok? && k < |list.templates|
    ensures OffersTemplate(CatalogOf(list).value, |list.tools| + |list.resources| + k, list.templates[k])
  {
    var i := |list.tools| + |list.resources| + k;
    TemplateAt(list, k);
    ItemIsOffered(list, i);
    ItemOffersTemplate(CatalogOf(list).value, i, list.templates[k]);
  }

  lemma ItemOffersTemplate(catalog: Catalog, i: nat, template: McpTemplate)
    requires OffersItem(catalog, i, TemplateItem(template))
    ensures OffersTemplate(catalog, i, template)
  {
  }

  lemma CatalogMirrorsTheList(list: ModelList)
    requires CatalogOf(list).Ok?
    ensures Mirrors(CatalogOf(list).value, list)
  {
    var catalog, listings := CatalogOf(list).value, Listings(list);
    forall k | 0 <= k < |list.tools|
      ensures OffersTool(catalog, k, list.tools[k])
    {
      ToolIsOffered(list, k);
    }
    forall k | 0 <= k < |list.resources|
      ensures OffersResource(catalog, |list.tools| + k, list.resources[k])
    {
      ResourceIsOffered(list, k);
    }
    forall k | 0 <= k < |list.templates|
      ensures OffersTemplate(catalog, |list.tools| + |list.resources| + k, list.templates[k])
    {
      TemplateIsOffered(list, k);
    }
    forall i, j | 0 <= i < j < |catalog.tools|
      ensures catalog.tools[i].name != catalog.tools[j].name
    {
      assert !Collides(listings[i], listings[j]);
    }
    forall name | name in catalog.lookup
      ensures exists i :: 0 <= i < |catalog.tools| && catalog.tools[i].name == name
    {
      var i := LookupWitness(listings, name);
      assert catalog.tools[i].name == name;
    }
  }

  // A description names domain and name, behind the item's own description and in front of its detail, each on lines of
  // their own, where there are any.
  lemma DescriptionLines(domain: string, name: string, given: string, more: Option<string>, detail: string)
    ensures CatalogDescription(domain, name, None, None) == "Domain: " + domain + "\nName: " + name
    ensures CatalogDescription(domain, name, Some(given), more)
      == (if given == "" then "" else given + "\n") + CatalogDescription(domain, name, None, more)
    ensures CatalogDescription(domain, name, None, Some(detail))
      == CatalogDescription(domain, name, None, None) + if detail == "" then "" else "\n" + detail
  {
    var body := "Domain: " + domain + "\nName: " + name;
    assert CatalogDescription(domain, name, None, None) == body;
    var tail := if more.Some? && more.value != "" then "\n" + more.value else "";
    assert CatalogDescription(domain, name, None, more) == body + tail;
    var head := if given == "" then "" else given + "\n";
    assert CatalogDescription(domain, name, Some(given), more) == head + (body + tail);
  }

  // ---- Building it ----

  // The three collections that `add` fills hold exactly the items added so far.
  ghost predicate Built(added: seq<Listing>, catalog: Catalog, identities: set<string>) {
    && Accepts(added)
    && catalog == Catalog(FunctionsOf(added), LookupOf(added))
    && identities == IdentitiesOf(added)
  }

  lemma CollisionsAreSeen(added: seq<Listing>, listing: Listing)
    ensures listing.identity in IdentitiesOf(added) || listing.functionName in LookupOf(added) <==> !Fits(added, listing)
  {
    if listing.functionName in LookupOf(added) {
      var i := LookupWitness(added, listing.functionName);
      assert Collides(added[i], listing);
    }
    if !Fits(added, listing) {
      var i :| 0 <= i < |added| && Collides(added[i], listing);
      LookupHas(added, i);
    }
  }

  lemma BuiltStep(added: seq<Listing>, catalog: Catalog, identities: set<string>, listing: Listing)
    requires Built(added, catalog, identities) && Fits(added, listing)
    ensures Built(added + [listing],
                  Catalog(catalog.tools + [FunctionOf(listing)],
                          catalog.lookup[listing.functionName := Entry(listing.item)]),
                  identities + {listing.identity})
  {
    assert (added + [listing])[..|added|] == added;
    assert FunctionsOf(added + [listing]) == FunctionsOf(added) + [FunctionOf(listing)];
  }

  lemma RejectionIsFinal(listings: seq<Listing>, k: nat, more: seq<Listing>)
    requires k < |listings| && !Fits(listings[..k], listings[k])
    ensures !Accepts(listings + more)
  {
    var i :| 0 <= i < k && Collides(listings[i], listings[k]);
    assert (listings + more)[i] == listings[i] && (listings + more)[k] == listings[k];
  }

  // Adds a list of items in order, stopping at the first that collides with an earlier one.
  method AddAll(ghost added: seq<Listing>, catalog: Catalog, identities: set<string>, listings: seq<Listing>)
    returns (ok: bool, catalog': Catalog, identities': set<string>)
    requires Built(added, catalog, identities)
    ensures ok ==> Built(added + listings, catalog', identities')
    ensures !ok ==> forall more :: !Accepts(added + listings + more)
  {
    catalog', identities' := catalog, identities;
    assert added + listings[..0] == added;
    for i := 0 to |listings|
      invariant Built(added + listings[..i], catalog', identities')
    {
      var listing := listings[i];
      ghost var before := added + listings[..i];
      CollisionsAreSeen(before, listing);
      if listing.identity in identities' || listing.functionName in catalog'.lookup {
        assert (added + listings)[..|before|] == before && (added + listings)[|before|] == listing;
        forall more
          ensures !Accepts(added + listings + more)
        {
          RejectionIsFinal(added + listings, |before|, more);
        }
        ok := false;
        return;
      }
      BuiltStep(before, catalog', identities', listing);
      assert added + listings[..i + 1] == before + [listing];
      identities' := identities' + {listing.identity};
      catalog' := Catalog(catalog'.tools + [FunctionOf(listing)],
                          catalog'.lookup[listing.functionName := Entry(listing.item)]);
    }
    assert listings[..|listings|] == listings;
    ok := true;
  }

  // `buildCatalog`: tools, then resources, then templates.
  method BuildCatalog(list: ModelList) returns (r: Result<Catalog, CatalogError>)
    ensures r == CatalogOf(list)
    ensures r.Ok? ==> Mirrors(r.value, list)
  {
    var tools, resources, templates :=
      ToolListings(list.tools), ResourceListings(list.resources), TemplateListings(list.templates);
    assert [] + tools == tools;
    assert tools + (resources + templates) == Listings(list);
    assert Listings(list) + [] == Listings(list);
    var catalog, identities := Catalog([], map[]), {};
    var ok;
    ok, catalog, identities := AddAll([], catalog, identities, tools);
    if ok {
      ok, catalog, identities := AddAll(tools, catalog, identities, resources);
      if ok {
        ok, catalog, identities := AddAll(tools + resources, catalog, identities, templates);
      }
    }
    r := if ok then Ok(catalog) else Err(DuplicateItem);
    if ok {
      CatalogMirrorsTheList(list);
    }
  }

  // ---- What acceptance buys ----

  lemma {:induction false} LookupFinds(listings: seq<Listing>, i: nat)
    requires Accepts(listings) && i < |listings|
    ensures listings[i].functionName in LookupOf(listings)
    ensures LookupOf(listings)[listings[i].functionName] == Entry(listings[i].item)
  {
    var last := |listings| - 1;
    if i < last {
      LookupFinds(listings[..last], i);
      assert !Collides(listings[i], listings[last]);
    }
  }

  lemma ListingsAreKeyed(list: ModelList, i: nat)
    requires i < |Listings(list)|
    ensures Listings(list)[i] == Keyed(Listings(list)[i].item)
  {
  }

  // `name` is offered to the provider for item `i`, and the index leads it back to that item.
  predicate Serves(catalog: Catalog, listings: seq<Listing>, name: string, i: int) {
    && 0 <= i < |listings| == |catalog.tools|
    && catalog.tools[i] == ProviderTool(name, listings[i].item.description, listings[i].item.parameters)
    && name in catalog.lookup
    && catalog.lookup[name] == Entry(listings[i].item)
    && |name| <= MAX_NAME_LENGTH
    && forall k :: 0 <= k < |name| ==> ProviderSafe(name[k])
  }

  lemma ItemsServe(list: ModelList, i: nat)
    requires CatalogOf(list).Ok? && i < |Listings(list)|
    ensures Serves(CatalogOf(list).value, Listings(list), Listings(list)[i].functionName, i)
  {
    LookupFinds(Listings(list), i);
    ListingsAreKeyed(list, i);
  }

  lemma SameNameSameItem(listings: seq<Listing>, i: nat, j: nat)
    requires Accepts(listings) && i < |listings| && j < |listings|
    requires Collides(listings[i], listings[j])
    ensures i == j
  {
    assert Collides(listings[j], listings[i]);
  }

  lemma SameEntrySameItem(list: ModelList, i: nat, j: nat)
    requires Accepts(Listings(list)) && i < |Listings(list)| && j < |Listings(list)|
    requires var a, b := Listings(list)[i].item, Listings(list)[j].item;
      a.domain == b.domain && a.name == b.name && KindOf(a) == KindOf(b)
    ensures i == j
  {
    ListingsAreKeyed(list, i);
    ListingsAreKeyed(list, j);
    SameNameSameItem(Listings(list), i, j);
  }

  // Every name of the index serves exactly one item.
  lemma NamesServeOneItem(list: ModelList, name: string)
    requires CatalogOf(list).Ok?
    ensures name in CatalogOf(list).value.lookup <==> exists i :: Serves(CatalogOf(list).value, Listings(list), name, i)
    ensures forall i, j ::
      Serves(CatalogOf(list).value, Listings(list), name, i) && Serves(CatalogOf(list).value, Listings(list), name, j)
      ==> i == j
  {
    var listings, catalog := Listings(list), CatalogOf(list).value;
    if name in catalog.lookup {
      var i := LookupWitness(listings, name);
      ItemsServe(list, i);
    }
    forall i, j | Serves(catalog, listings, name, i) && Serves(catalog, listings, name, j)
      ensures i == j
    {
      SameNameSameItem(listings, i, j);
    }
  }

  // Every item is served under exactly one name, and no other item has its kind, domain and name.
  lemma ItemsServeUnderOneName(list: ModelList, i: nat)
    requires CatalogOf(list).Ok? && i < |Listings(list)|
    ensures exists name :: Serves(CatalogOf(list).value, Listings(list), name, i)
    ensures forall a, b ::
      Serves(CatalogOf(list).value, Listings(list), a, i) && Serves(CatalogOf(list).value, Listings(list), b, i)
      ==> a == b
    ensures forall j ::
      0 <= j < |Listings(list)| && Entry(Listings(list)[j].item) == Entry(Listings(list)[i].item) ==> i == j
  {
    ItemsServe(list, i);
    forall j | 0 <= j < |Listings(list)| && Entry(Listings(list)[j].item) == Entry(Listings(list)[i].item)
      ensures i == j
    {
      SameEntrySameItem(list, i, j);
    }
  }

  // ---- What is refused ----

  // Two items clash when they have one kind, and one domain and name, read with a line break in between, or when one
  // function name spells both.
  predicate Clash(a: Item, b: Item) {
    || ((a.source.FromTool? <==> b.source.FromTool?) && a.domain + "\n" + a.name == b.domain + "\n" + b.name)
    || FunctionName(a) == FunctionName(b)
  }

  lemma IdentityParts(item: Item)
    ensures Identity(item) == (if item.source.FromTool? then "tool\n" else "resource\n") + (item.domain + "\n" + item.name)
  {
  }

  lemma SameIdentity(a: Item, b: Item)
    ensures Identity(a) == Identity(b) <==>
      (a.source.FromTool? <==> b.source.FromTool?) && a.domain + "\n" + a.name == b.domain + "\n" + b.name
  {
    IdentityParts(a);
    IdentityParts(b);
    var x, y := a.domain + "\n" + a.name, b.domain + "\n" + b.name;
    assert Identity(a)[0] == if a.source.FromTool? then 't' else 'r';
    assert Identity(b)[0] == if b.source.FromTool? then 't' else 'r';
    if Identity(a) == Identity(b) {
      var n := if a.source.FromTool? then 5 else 9;
      assert Identity(a)[n..] == x && Identity(b)[n..] == y;
    }
  }

  // A list is refused exactly when two of its items clash.
  lemma RefusedExactlyOnClash(list: ModelList)
    ensures CatalogOf(list).Err? <==>
      exists i, j :: 0 <= i < j < |Listings(list)| && Clash(Listings(list)[i].item, Listings(list)[j].item)
  {
    forall i, j | 0 <= i < j < |Listings(list)|
      ensures Collides(Listings(list)[i], Listings(list)[j]) <==> Clash(Listings(list)[i].item, Listings(list)[j].item)
    {
      ListingsAreKeyed(list, i);
      ListingsAreKeyed(list, j);
      SameIdentity(Listings(list)[i].item, Listings(list)[j].item);
    }
  }

  // ---- Dispatch ----

  // `templates.find` by domain and name.
  function FindTemplate(templates: seq<McpTemplate>, domain: string, name: string): (r: Option<McpTemplate>)
    ensures r.Some? ==> r.value in templates && r.value.domain == domain && r.value.name == name
    ensures r.None? ==> forall t :: t in templates ==> !(t.domain == domain && t.name == name)
  {
    if templates == [] then None
    else if templates[0].domain == domain && templates[0].name == name then Some(templates[0])
    else FindTemplate(templates[1..], domain, name)
  }

  lemma TemplateIsListed(list: ModelList, template: McpTemplate) returns (i: nat)
    requires template in list.templates
    ensures i < |Listings(list)| && Listings(list)[i].item == TemplateItem(template)
  {
    var k :| 0 <= k < |list.templates| && list.templates[k] == template;
    TemplateAt(list, k);
    i := |list.tools| + |list.resources| + k;
  }

  lemma TemplateOf(list: ModelList, i: nat) returns (template: McpTemplate)
    requires i < |Listings(list)| && Listings(list)[i].item.source == FromTemplate
    ensures template in list.templates && Listings(list)[i].item == TemplateItem(template)
  {
    var k := i - |list.tools| - |list.resources|;
    template := list.templates[k];
  }

  // No two templates of an accepted list have one domain and name.
  lemma SameTemplate(list: ModelList, k: nat, j: nat)
    requires Accepts(Listings(list)) && k < |list.templates| && j < |list.templates|
    requires list.templates[k].domain == list.templates[j].domain && list.templates[k].name == list.templates[j].name
    ensures k == j
  {
    var first := |list.tools| + |list.resources|;
    TemplateAt(list, k);
    TemplateAt(list, j);
    TemplateEntries(list.templates[k], list.templates[j]);
    SameEntrySameItem(list, first + k, first + j);
  }

  lemma TemplateEntries(a: McpTemplate, b: McpTemplate)
    requires a.domain == b.domain && a.name == b.name
    ensures TemplateItem(a).domain == TemplateItem(b).domain && TemplateItem(a).name == TemplateItem(b).name
    ensures KindOf(TemplateItem(a)) == KindOf(TemplateItem(b))
  {
  }

  // Looking a resource up by domain and name among the templates succeeds exactly when it came from a template,
  // and then finds that very template.
  lemma TemplateBranchFollowsSource(list: ModelList, i: nat)
    requires Accepts(Listings(list)) && i < |Listings(list)| && KindOf(Listings(list)[i].item) == Resource
    ensures var item := Listings(list)[i].item;
      var found := FindTemplate(list.templates, item.domain, item.name);
      && (found.Some? <==> item.source == FromTemplate)
      && (found.Some? ==> item == TemplateItem(found.value))
  {
    var item := Listings(list)[i].item;
    var found := FindTemplate(list.templates, item.domain, item.name);
    if found.Some? {
      var k := TemplateIsListed(list, found.value);
      SameEntrySameItem(list, i, k);
    }
    if item.source == FromTemplate {
      var template := TemplateOf(list, i);
    }
  }
}
