/** Exposing a tool catalog to a provider, and resolving the calls that come back. */
module ToolAdapt {
  import opened Json
  import opened Ordering
  import opened ToolNames
  import opened SchemaCheck
  import opened AgentEvents
  import Turns
  import Utf8

  datatype Tool = Tool(id: ToolId, description: string, schema: Value)

  datatype ProviderSchema = ProviderSchema(name: string, description: string, inputSchema: Value)

  datatype Mapping = Mapping(internalId: ToolId, providerName: string, displayName: string, descriptorHash: string)

  // ------------------------------------------------------- the order of tool ids

  function NamespaceRank(n: Namespace): nat {
    match n case BuiltIn => 0 case Extension(_) => 1 case Mcp(_) => 2
  }

  function NamespaceText(n: Namespace): string {
    match n case BuiltIn => "" case Extension(id) => id case Mcp(id) => id
  }

  /** The derived order: variant, then its id, then the tool name. */
  predicate IdLeq(a: ToolId, b: ToolId) {
    var (m, n) := (a.namespace, b.namespace);
    || NamespaceRank(m) < NamespaceRank(n)
    || (&& NamespaceRank(m) == NamespaceRank(n)
        && StringLeq(NamespaceText(m), NamespaceText(n))
        && (NamespaceText(m) == NamespaceText(n) ==> StringLeq(a.name, b.name)))
  }

  predicate ToolLeq(a: Tool, b: Tool) { IdLeq(a.id, b.id) }

  lemma {:induction false} IdOrder(a: ToolId, b: ToolId, c: ToolId)
    ensures IdLeq(a, b) || IdLeq(b, a)
    ensures IdLeq(a, b) && IdLeq(b, a) ==> a == b
    ensures IdLeq(a, b) && IdLeq(b, c) ==> IdLeq(a, c)
  {
    StringOrder();
  }

  // ---------------------------------------------------------------- adapt_tools

  function InputSchema(tool: Tool): Value {
    var k := Keyword(tool.schema, "input_schema");
    if k.Some? then k.value else tool.schema
  }

  function SchemaFor(tool: Tool, name: string): ProviderSchema {
    ProviderSchema(name, tool.description, InputSchema(tool))
  }

  function MappingFor(tool: Tool, name: string, hash: Tool -> string): Mapping {
    Mapping(tool.id, name, tool.id.name, hash(tool))
  }

  function SortedTools(tools: seq<Tool>): (r: seq<Tool>)
    ensures |r| == |tools|
  {
    var r := Sort(ToolLeq, tools);
    assert |r| == |multiset(r)| == |multiset(tools)|;
    r
  }

  function IdsOf(tools: seq<Tool>): seq<ToolId> {
    seq(|tools|, i requires 0 <= i < |tools| => tools[i].id)
  }

  function AdaptedSchemas(tools: seq<Tool>): seq<ProviderSchema> {
    var sorted := SortedTools(tools);
    var names := Names(IdsOf(sorted), |sorted|);
    seq(|sorted|, i requires 0 <= i < |sorted| => SchemaFor(sorted[i], names[i]))
  }

  function AdaptedMappings(tools: seq<Tool>, hash: Tool -> string): seq<Mapping> {
    var sorted := SortedTools(tools);
    var names := Names(IdsOf(sorted), |sorted|);
    seq(|sorted|, i requires 0 <= i < |sorted| => MappingFor(sorted[i], names[i], hash))
  }

  /** The descriptor hash is opaque: `hash` may be any function of the tool. */
  method AdaptTools(tools: seq<Tool>, hash: Tool -> string)
    returns (schemas: seq<ProviderSchema>, mappings: seq<Mapping>)
    ensures schemas == AdaptedSchemas(tools) && mappings == AdaptedMappings(tools, hash)
  {
    var sorted := SortedTools(tools);
    var resolved := ResolveProviderNames(IdsOf(sorted));
    schemas, mappings := ZipResolved(sorted, resolved, hash);
    AdaptedAre(tools, hash, schemas, mappings);
  }

  /** The loop over the tools and their resolved names. */
  method ZipResolved(sorted: seq<Tool>, resolved: seq<(ToolId, string)>, hash: Tool -> string)
    returns (schemas: seq<ProviderSchema>, mappings: seq<Mapping>)
    requires |sorted| == |resolved|
    ensures |schemas| == |mappings| == |sorted|
    ensures forall j | 0 <= j < |sorted| ::
      schemas[j] == SchemaFor(sorted[j], resolved[j].1) && mappings[j] == MappingFor(sorted[j], resolved[j].1, hash)
  {
    schemas, mappings := [], [];
    for i := 0 to |sorted|
      invariant |schemas| == |mappings| == i
      invariant forall j | 0 <= j < i ::
        schemas[j] == SchemaFor(sorted[j], resolved[j].1) && mappings[j] == MappingFor(sorted[j], resolved[j].1, hash)
    {
      schemas := schemas + [SchemaFor(sorted[i], resolved[i].1)];
      mappings := mappings + [MappingFor(sorted[i], resolved[i].1, hash)];
    }
  }

  lemma {:induction false} AdaptedAre(tools: seq<Tool>, hash: Tool -> string,
                                      schemas: seq<ProviderSchema>, mappings: seq<Mapping>)
    requires var sorted := SortedTools(tools);
      var resolved := Resolved(IdsOf(sorted));
      && |schemas| == |mappings| == |sorted|
      && forall j | 0 <= j < |sorted| ::
           schemas[j] == SchemaFor(sorted[j], resolved[j].1) && mappings[j] == MappingFor(sorted[j], resolved[j].1, hash)
    ensures schemas == AdaptedSchemas(tools) && mappings == AdaptedMappings(tools, hash)
  {
  }

  ghost predicate DistinctTools(tools: seq<Tool>) { Distinct(IdsOf(tools)) }

  lemma {:induction false} SameTool(tools: seq<Tool>, x: Tool, y: Tool)
    requires DistinctTools(tools) && x in tools && y in tools && x.id == y.id
    ensures x == y
  {
    var i :| 0 <= i < |tools| && tools[i] == x;
    var j :| 0 <= j < |tools| && tools[j] == y;
    assert IdsOf(tools)[i] == IdsOf(tools)[j];
    assert i == j;
  }

  /** The catalog's own order does not matter: every permutation of tools with
      distinct ids is exposed in the same way. */
  lemma {:induction false} AdaptIgnoresOrder(tools: seq<Tool>, other: seq<Tool>, hash: Tool -> string)
    requires DistinctTools(tools) && multiset(tools) == multiset(other)
    ensures AdaptedSchemas(tools) == AdaptedSchemas(other)
    ensures AdaptedMappings(tools, hash) == AdaptedMappings(other, hash)
  {
    ToolSortIsSorted(tools);
    ToolSortIsSorted(other);
    var sorted := Sort(ToolLeq, tools);
    forall x, y | x in sorted && y in sorted && ToolLeq(x, y) && ToolLeq(y, x) ensures x == y {
      IdOrder(x.id, y.id, x.id);
      assert x in multiset(tools) && y in multiset(tools);
      SameTool(tools, x, y);
    }
    SortedUnique(ToolLeq, sorted, Sort(ToolLeq, other));
  }

  lemma {:induction false} ToolSortIsSorted(tools: seq<Tool>)
    ensures Sorted(ToolLeq, Sort(ToolLeq, tools))
  {
    forall x, y ensures ToolLeq(x, y) || ToolLeq(y, x) {
      IdOrder(x.id, y.id, x.id);
    }
    forall x, y, z | ToolLeq(x, y) && ToolLeq(y, z) ensures ToolLeq(x, z) {
      IdOrder(x.id, y.id, z.id);
    }
    SortSorted(ToolLeq, tools);
  }

  predicate TextLeq(a: string, b: string) { Utf8.BytesLeq(Utf8.Encode(a), Utf8.Encode(b)) }

  /** Built-in tools first, then extensions, then servers, each group by its
      owner's id and then by tool name, texts by their bytes. */
  predicate ListedBefore(a: ToolId, b: ToolId) {
    match (a.namespace, b.namespace)
    case (BuiltIn, BuiltIn) => TextLeq(a.name, b.name)
    case (BuiltIn, _) => true
    case (Extension(x), Extension(y)) => if x == y then TextLeq(a.name, b.name) else TextLeq(x, y)
    case (Extension(_), Mcp(_)) => true
    case (Mcp(x), Mcp(y)) => if x == y then TextLeq(a.name, b.name) else TextLeq(x, y)
    case _ => false
  }

  lemma {:induction false} TextOrder(a: string, b: string)
    ensures TextLeq(a, b) <==> StringLeq(a, b)
  {
    Utf8.ByteOrderIsCodePointOrder(a, b);
  }

  lemma {:induction false} IdLeqMeans(a: ToolId, b: ToolId)
    ensures IdLeq(a, b) <==> ListedBefore(a, b)
  {
    var x, y := NamespaceText(a.namespace), NamespaceText(b.namespace);
    TextOrder(x, y);
    TextOrder(a.name, b.name);
    StringLeqTotal(x, x);
  }

  /** What a provider is shown of a tool: its nested input schema when it has
      one, its whole schema otherwise. */
  ghost predicate Shows(schema: ProviderSchema, mapping: Mapping, tool: Tool, hash: Tool -> string) {
    && schema.description == tool.description
    && schema.inputSchema == (if tool.schema.Object? && "input_schema" in tool.schema.fields
                              then tool.schema.fields["input_schema"] else tool.schema)
    && mapping.internalId == tool.id && mapping.displayName == tool.id.name
    && mapping.providerName == schema.name && mapping.descriptorHash == hash(tool)
  }

  /** Every tool is shown once, in the order of the ids. */
  lemma {:induction false} EachToolIsShown(tools: seq<Tool>, hash: Tool -> string)
    ensures var sorted, schemas, mappings := SortedTools(tools), AdaptedSchemas(tools), AdaptedMappings(tools, hash);
      && multiset(sorted) == multiset(tools) && |schemas| == |mappings| == |sorted|
      && (forall i, j | 0 <= i < j < |sorted| :: ListedBefore(sorted[i].id, sorted[j].id))
      && forall i | 0 <= i < |sorted| :: Shows(schemas[i], mappings[i], sorted[i], hash)
  {
    ToolSortIsSorted(tools);
    var sorted := SortedTools(tools);
    forall i, j | 0 <= i < j < |sorted| ensures ListedBefore(sorted[i].id, sorted[j].id) {
      IdLeqMeans(sorted[i].id, sorted[j].id);
    }
  }

  // -------------------------------------------------------------- resolving calls

  /** The first mapping that carries the name. */
  function Lookup(mappings: seq<Mapping>, name: string): Option<ToolId> {
    if mappings == [] then None
    else if mappings[0].providerName == name then Some(mappings[0].internalId)
    else Lookup(mappings[1..], name)
  }

  lemma {:induction false} LookupFinds(mappings: seq<Mapping>, i: nat)
    requires i < |mappings|
    requires forall j | 0 <= j < i :: mappings[j].providerName != mappings[i].providerName
    ensures Lookup(mappings, mappings[i].providerName) == Some(mappings[i].internalId)
  {
    if i > 0 {
      LookupFinds(mappings[1..], i - 1);
    }
  }

  lemma {:induction false} LookupMisses(mappings: seq<Mapping>, name: string)
    requires forall j | 0 <= j < |mappings| :: mappings[j].providerName != name
    ensures Lookup(mappings, name) == None
  {
    if mappings != [] {
      LookupMisses(mappings[1..], name);
    }
  }

  /** A name the provider was shown leads back to the tool it was issued for,
      and no other name leads to any tool. */
  lemma {:induction false} AliasRoundTrip(tools: seq<Tool>, hash: Tool -> string, name: string)
    requires |tools| <= MAX_SLICE_LEN
    ensures var schemas, mappings := AdaptedSchemas(tools), AdaptedMappings(tools, hash);
      && (forall i | 0 <= i < |schemas| ::
            && IsProviderName(schemas[i].name)
            && Lookup(mappings, schemas[i].name) == Some(SortedTools(tools)[i].id)
            && schemas[i] == SchemaFor(SortedTools(tools)[i], schemas[i].name))
      && (Lookup(mappings, name).Some? <==> exists i :: 0 <= i < |schemas| && schemas[i].name == name)
  {
    var sorted := SortedTools(tools);
    var schemas, mappings := AdaptedSchemas(tools), AdaptedMappings(tools, hash);
    ResolvedIsInjective(IdsOf(sorted));
    var resolved := Resolved(IdsOf(sorted));
    assert forall i | 0 <= i < |sorted| :: mappings[i].providerName == resolved[i].1 == schemas[i].name;
    forall i | 0 <= i < |sorted| ensures Lookup(mappings, schemas[i].name) == Some(sorted[i].id) {
      LookupFinds(mappings, i);
    }
    if forall i | 0 <= i < |schemas| :: schemas[i].name != name {
      LookupMisses(mappings, name);
    }
  }

  datatype ToolFailure = DuplicateCallId | ToolNotFound | SchemaMismatch

  /** The call ids seen so far in one batch. */
  class SeenIds {
    var ids: set<string>

    constructor ()
      ensures ids == {}
    {
      ids := {};
    }

    method Insert(id: string) returns (isNew: bool)
      modifies this
      ensures ids == old(ids) + {id} && (isNew <==> id !in old(ids))
    {
      isNew := id !in ids;
      ids := ids + {id};
    }
  }

  predicate Known(call: Turns.ToolCall, catalog: map<ToolId, Tool>, mappings: seq<Mapping>) {
    var id := Lookup(mappings, call.name);
    id.Some? && id.value in catalog
  }

  ghost predicate ValidCall(call: Turns.ToolCall, catalog: map<ToolId, Tool>, mappings: seq<Mapping>) {
    && Known(call, catalog, mappings)
    && Accepts(call.input, InputSchema(catalog[Lookup(mappings, call.name).value]))
  }

  /** The catalog is whatever `get_by_id` answers for. */
  method Validate(call: Turns.ToolCall, catalog: map<ToolId, Tool>, mappings: seq<Mapping>, seen: SeenIds)
    returns (failure: Option<ToolFailure>)
    modifies seen
    ensures seen.ids == old(seen.ids) + {call.id}
    ensures failure == Some(DuplicateCallId) <==> call.id in old(seen.ids)
    ensures failure == Some(ToolNotFound) <==> call.id !in old(seen.ids) && !Known(call, catalog, mappings)
    ensures failure.None? <==> call.id !in old(seen.ids) && ValidCall(call, catalog, mappings)
  {
    var isNew := seen.Insert(call.id);
    if !isNew {
      return Some(DuplicateCallId);
    }
    var id := Lookup(mappings, call.name);
    if id.None? || id.value !in catalog {
      return Some(ToolNotFound);
    }
    var error := ValidateJsonValue(call.input, InputSchema(catalog[id.value]));
    if error.Some? {
      return Some(SchemaMismatch);
    }
    return None;
  }

  /** Only a repeated id is refused as a duplicate; the other calls are judged
      on their own. */
  ghost predicate Judged(failure: Option<ToolFailure>, calls: seq<Turns.ToolCall>, i: nat,
                         catalog: map<ToolId, Tool>, mappings: seq<Mapping>)
    requires i < |calls|
  {
    var repeated := exists j :: 0 <= j < i && calls[j].id == calls[i].id;
    && (failure == Some(DuplicateCallId) <==> repeated)
    && (failure == Some(ToolNotFound) <==> !repeated && !Known(calls[i], catalog, mappings))
    && (failure.None? <==> !repeated && ValidCall(calls[i], catalog, mappings))
  }

  /** Validating the calls of a turn one after another. */
  method ValidateBatch(calls: seq<Turns.ToolCall>, catalog: map<ToolId, Tool>, mappings: seq<Mapping>)
    returns (failures: seq<Option<ToolFailure>>)
    ensures |failures| == |calls|
    ensures forall i | 0 <= i < |calls| :: Judged(failures[i], calls, i, catalog, mappings)
  {
    var seen := new SeenIds();
    failures := [];
    for i := 0 to |calls|
      invariant fresh(seen) && seen.ids == (set j | 0 <= j < i :: calls[j].id)
      invariant |failures| == i
      invariant forall k | 0 <= k < i :: Judged(failures[k], calls, k, catalog, mappings)
    {
      var f := Validate(calls[i], catalog, mappings, seen);
      assert Judged(f, calls, i, catalog, mappings);
      failures := failures + [f];
    }
  }

  /** The calls of a finished turn never clash: none is refused as a duplicate. */
  lemma {:induction false} FinishedCallsAreNotDuplicates(
    events: seq<Event>, read: Turns.JsonReader, turn: Turns.AssistantTurn, i: nat,
    failure: Option<ToolFailure>, catalog: map<ToolId, Tool>, mappings: seq<Mapping>)
    requires Turns.FinishedCalls(Turns.Run(events, read).0, 0, read) == Turns.Finished(turn)
    requires i < |turn.toolCalls| && Judged(failure, turn.toolCalls, i, catalog, mappings)
    ensures failure != Some(DuplicateCallId)
  {
    Turns.FinishedTurn(events, read, turn);
    Turns.DistinctCalls(events, turn, read);
  }
}
