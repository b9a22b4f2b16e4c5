/** Layered configuration: overlaying providers and profiles, policies that may
    only narrow, and variant inheritance. */
module Config {
  import opened Json
  import opened Wrappers
  import opened Ordering

  // -------------------------------------------------------- configuration layers

  /** Numbers, floating-point values and enum values are opaque tokens. */
  type Token = string

  datatype ModelOptions = ModelOptions(
    maxOutputTokens: Option<Token>, temperature: Option<Token>, topP: Option<Token>,
    reasoningEffort: Option<Token>, textVerbosity: Option<Token>, thinking: Option<Token>,
    adapterOptions: Option<map<string, Value>>)

  datatype ModelVariant = ModelVariant(parent: Option<string>, options: Option<ModelOptions>)

  datatype ModelCapabilities = ModelCapabilities(
    streaming: Option<bool>, tools: Option<bool>, vision: Option<bool>,
    jsonMode: Option<bool>, reasoning: Option<bool>, promptCache: Option<Token>)

  datatype ModelDefinition = ModelDefinition(
    displayName: Option<string>, maxContextTokens: Option<Token>, maxOutputTokens: Option<Token>,
    capabilities: Option<ModelCapabilities>, options: Option<ModelOptions>, variants: map<string, ModelVariant>)

  datatype ProviderCapabilities = ProviderCapabilities(
    supportsTools: Option<bool>, supportsParallelTools: Option<bool>, supportsVision: Option<bool>,
    supportsDocuments: Option<bool>, supportsThinking: Option<bool>, supportsJsonSchemaTools: Option<bool>,
    supportsPromptCaching: Option<bool>, supportsUsageReporting: Option<bool>, supportsStreaming: Option<bool>,
    supportsStrictSchema: Option<bool>)

  datatype RequestConfig = RequestConfig(timeoutMs: Option<Token>, streamChunkTimeoutMs: Option<Token>)

  datatype Provider = Provider(
    id: Option<string>, displayName: Option<string>, protocol: Option<string>, baseUrl: Option<string>,
    defaultModel: Option<string>, apiKeyEnv: Option<string>, authRef: Option<string>, apiKey: Option<string>,
    apiFormat: Option<Token>, requestPath: Option<string>, modelsEndpoint: Option<string>,
    headers: Option<map<string, string>>, request: Option<RequestConfig>,
    capabilities: Option<ProviderCapabilities>, models: map<string, ModelDefinition>)

  const NO_OPTIONS: ModelOptions := ModelOptions(None, None, None, None, None, None, None)
  const NO_VARIANT: ModelVariant := ModelVariant(None, None)
  const NO_MODEL_CAPABILITIES: ModelCapabilities := ModelCapabilities(None, None, None, None, None, None)
  const NO_MODEL: ModelDefinition := ModelDefinition(None, None, None, None, None, map[])
  const NO_CAPABILITIES: ProviderCapabilities :=
    ProviderCapabilities(None, None, None, None, None, None, None, None, None, None)
  const NO_REQUEST: RequestConfig := RequestConfig(None, None)
  const NO_PROVIDER: Provider :=
    Provider(None, None, None, None, None, None, None, None, None, None, None, None, None, None, map[])

  // --------------------------------------------------------------- merge functions

  function Over<T>(base: Option<T>, overlay: Option<T>): Option<T> {
    if overlay.Some? then overlay else base
  }

  /** Two present values are merged; an absent base counts as `empty`. */
  function OverWith<T>(op: (T, T) -> T, empty: T, base: Option<T>, overlay: Option<T>): Option<T> {
    if overlay.None? then base
    else Some(op(if base.Some? then base.value else empty, overlay.value))
  }

  /** Entries of both maps; where both have one, the two are merged. */
  function MergeMaps<V>(op: (V, V) -> V, base: map<string, V>, overlay: map<string, V>): map<string, V> {
    map k | k in base.Keys + overlay.Keys ::
      if k !in overlay then base[k] else if k in base then op(base[k], overlay[k]) else overlay[k]
  }

  function MergeMap<V>(base: map<string, V>, overlay: map<string, V>): map<string, V> { base + overlay }

  function MergeOptions(base: ModelOptions, overlay: ModelOptions): ModelOptions {
    ModelOptions(
      Over(base.maxOutputTokens, overlay.maxOutputTokens), Over(base.temperature, overlay.temperature),
      Over(base.topP, overlay.topP), Over(base.reasoningEffort, overlay.reasoningEffort),
      Over(base.textVerbosity, overlay.textVerbosity), Over(base.thinking, overlay.thinking),
      OverWith(MergeMap, map[], base.adapterOptions, overlay.adapterOptions))
  }

  function MergeVariant(base: ModelVariant, overlay: ModelVariant): ModelVariant {
    ModelVariant(Over(base.parent, overlay.parent), OverWith(MergeOptions, NO_OPTIONS, base.options, overlay.options))
  }

  function MergeModelCapabilities(base: ModelCapabilities, overlay: ModelCapabilities): ModelCapabilities {
    ModelCapabilities(
      Over(base.streaming, overlay.streaming), Over(base.tools, overlay.tools), Over(base.vision, overlay.vision),
      Over(base.jsonMode, overlay.jsonMode), Over(base.reasoning, overlay.reasoning),
      Over(base.promptCache, overlay.promptCache))
  }

  function MergeModel(base: ModelDefinition, overlay: ModelDefinition): ModelDefinition {
    ModelDefinition(
      Over(base.displayName, overlay.displayName), Over(base.maxContextTokens, overlay.maxContextTokens),
      Over(base.maxOutputTokens, overlay.maxOutputTokens),
      OverWith(MergeModelCapabilities, NO_MODEL_CAPABILITIES, base.capabilities, overlay.capabilities),
      OverWith(MergeOptions, NO_OPTIONS, base.options, overlay.options),
      MergeMaps(MergeVariant, base.variants, overlay.variants))
  }

  function MergeCapabilities(base: ProviderCapabilities, overlay: ProviderCapabilities): ProviderCapabilities {
    ProviderCapabilities(
      Over(base.supportsTools, overlay.supportsTools), Over(base.supportsParallelTools, overlay.supportsParallelTools),
      Over(base.supportsVision, overlay.supportsVision), Over(base.supportsDocuments, overlay.supportsDocuments),
      Over(base.supportsThinking, overlay.supportsThinking),
      Over(base.supportsJsonSchemaTools, overlay.supportsJsonSchemaTools),
      Over(base.supportsPromptCaching, overlay.supportsPromptCaching),
      Over(base.supportsUsageReporting, overlay.supportsUsageReporting),
      Over(base.supportsStreaming, overlay.supportsStreaming),
      Over(base.supportsStrictSchema, overlay.supportsStrictSchema))
  }

  function MergeRequest(base: RequestConfig, overlay: RequestConfig): RequestConfig {
    RequestConfig(Over(base.timeoutMs, overlay.timeoutMs), Over(base.streamChunkTimeoutMs, overlay.streamChunkTimeoutMs))
  }

  predicate StatesCredential(p: Provider) { p.apiKey.Some? || p.apiKeyEnv.Some? || p.authRef.Some? }

  /** A layer that states any credential replaces all three fields. */
  function MergeProvider(base: Provider, overlay: Provider): Provider {
    var credentials := if StatesCredential(overlay) then overlay else base;
    Provider(
      Over(base.id, overlay.id), Over(base.displayName, overlay.displayName), Over(base.protocol, overlay.protocol),
      Over(base.baseUrl, overlay.baseUrl), Over(base.defaultModel, overlay.defaultModel),
      credentials.apiKeyEnv, credentials.authRef, credentials.apiKey,
      Over(base.apiFormat, overlay.apiFormat), Over(base.requestPath, overlay.requestPath),
      Over(base.modelsEndpoint, overlay.modelsEndpoint),
      OverWith(MergeMap, map[], base.headers, overlay.headers),
      OverWith(MergeRequest, NO_REQUEST, base.request, overlay.request),
      OverWith(MergeCapabilities, NO_CAPABILITIES, base.capabilities, overlay.capabilities),
      MergeMaps(MergeModel, base.models, overlay.models))
  }

  // ------------------------------------------------------------ the later layer wins

  /** What the overlay states holds; what it leaves out stays as it was. */
  predicate LaterWins<V(==)>(base: Option<V>, overlay: Option<V>, merged: Option<V>) {
    (overlay.Some? ==> merged == overlay) && (overlay.None? ==> merged == base)
  }

  function EntryOf<V>(m: Option<map<string, V>>, k: string): Option<V> {
    if m.Some? && k in m.value then Some(m.value[k]) else None
  }

  /** The same entry by entry; the map is there when either layer has one. */
  ghost predicate LaterEntryWins<V>(base: Option<map<string, V>>, overlay: Option<map<string, V>>,
                                    merged: Option<map<string, V>>) {
    && (merged.Some? <==> base.Some? || overlay.Some?)
    && forall k :: LaterWins(EntryOf(base, k), EntryOf(overlay, k), EntryOf(merged, k))
  }

  ghost predicate OptionsWin(base: ModelOptions, overlay: ModelOptions, merged: ModelOptions) {
    && LaterWins(base.maxOutputTokens, overlay.maxOutputTokens, merged.maxOutputTokens)
    && LaterWins(base.temperature, overlay.temperature, merged.temperature)
    && LaterWins(base.topP, overlay.topP, merged.topP)
    && LaterWins(base.reasoningEffort, overlay.reasoningEffort, merged.reasoningEffort)
    && LaterWins(base.textVerbosity, overlay.textVerbosity, merged.textVerbosity)
    && LaterWins(base.thinking, overlay.thinking, merged.thinking)
    && LaterEntryWins(base.adapterOptions, overlay.adapterOptions, merged.adapterOptions)
  }

  lemma {:induction false} OptionsLaterWins(base: ModelOptions, overlay: ModelOptions)
    ensures OptionsWin(base, overlay, MergeOptions(base, overlay))
  {
  }

  /** A part that is itself merged: absent unless a layer has it, taken over from
      the only layer that has it, and merged field by field from two. */
  ghost predicate PartWins<T(!new)>(win: (T, T, T) -> bool, base: Option<T>, overlay: Option<T>, merged: Option<T>) {
    && (merged.Some? <==> base.Some? || overlay.Some?)
    && (base.Some? && overlay.None? ==> merged == base)
    && (base.None? && overlay.Some? ==> merged == overlay)
    && (base.Some? && overlay.Some? ==> win(base.value, overlay.value, merged.value))
  }

  ghost predicate VariantWins(base: ModelVariant, overlay: ModelVariant, merged: ModelVariant) {
    && LaterWins(base.parent, overlay.parent, merged.parent)
    && PartWins(OptionsWin, base.options, overlay.options, merged.options)
  }

  lemma {:induction false} VariantLaterWins(base: ModelVariant, overlay: ModelVariant)
    ensures VariantWins(base, overlay, MergeVariant(base, overlay))
  {
    OptionsMonoid();
    if base.options.Some? && overlay.options.Some? {
      OptionsLaterWins(base.options.value, overlay.options.value);
    }
  }

  ghost predicate ModelCapabilitiesWin(base: ModelCapabilities, overlay: ModelCapabilities, merged: ModelCapabilities) {
    && LaterWins(base.streaming, overlay.streaming, merged.streaming)
    && LaterWins(base.tools, overlay.tools, merged.tools) && LaterWins(base.vision, overlay.vision, merged.vision)
    && LaterWins(base.jsonMode, overlay.jsonMode, merged.jsonMode)
    && LaterWins(base.reasoning, overlay.reasoning, merged.reasoning)
    && LaterWins(base.promptCache, overlay.promptCache, merged.promptCache)
  }

  /** A table whose entries are merged: each entry as a part of its own. */
  ghost predicate TableWins<T(!new)>(win: (T, T, T) -> bool, base: map<string, T>, overlay: map<string, T>, merged: map<string, T>) {
    forall k :: PartWins(win, EntryOf(Some(base), k), EntryOf(Some(overlay), k), EntryOf(Some(merged), k))
  }

  ghost predicate ModelWins(base: ModelDefinition, overlay: ModelDefinition, merged: ModelDefinition) {
    && LaterWins(base.displayName, overlay.displayName, merged.displayName)
    && LaterWins(base.maxContextTokens, overlay.maxContextTokens, merged.maxContextTokens)
    && LaterWins(base.maxOutputTokens, overlay.maxOutputTokens, merged.maxOutputTokens)
    && PartWins(ModelCapabilitiesWin, base.capabilities, overlay.capabilities, merged.capabilities)
    && PartWins(OptionsWin, base.options, overlay.options, merged.options)
    && TableWins(VariantWins, base.variants, overlay.variants, merged.variants)
  }

  lemma {:induction false} VariantTableWins(base: map<string, ModelVariant>, overlay: map<string, ModelVariant>)
    ensures TableWins(VariantWins, base, overlay, MergeMaps(MergeVariant, base, overlay))
  {
    forall k | k in base && k in overlay ensures VariantWins(base[k], overlay[k], MergeVariant(base[k], overlay[k])) {
      VariantLaterWins(base[k], overlay[k]);
    }
  }

  lemma {:induction false} ModelLaterWins(base: ModelDefinition, overlay: ModelDefinition)
    ensures ModelWins(base, overlay, MergeModel(base, overlay))
  {
    OptionsMonoid();
    VariantTableWins(base.variants, overlay.variants);
    if base.options.Some? && overlay.options.Some? {
      OptionsLaterWins(base.options.value, overlay.options.value);
    }
  }

  ghost predicate RequestWins(base: RequestConfig, overlay: RequestConfig, merged: RequestConfig) {
    && LaterWins(base.timeoutMs, overlay.timeoutMs, merged.timeoutMs)
    && LaterWins(base.streamChunkTimeoutMs, overlay.streamChunkTimeoutMs, merged.streamChunkTimeoutMs)
  }

  ghost predicate CapabilitiesWin(base: ProviderCapabilities, overlay: ProviderCapabilities, merged: ProviderCapabilities) {
    && LaterWins(base.supportsTools, overlay.supportsTools, merged.supportsTools)
    && LaterWins(base.supportsParallelTools, overlay.supportsParallelTools, merged.supportsParallelTools)
    && LaterWins(base.supportsVision, overlay.supportsVision, merged.supportsVision)
    && LaterWins(base.supportsDocuments, overlay.supportsDocuments, merged.supportsDocuments)
    && LaterWins(base.supportsThinking, overlay.supportsThinking, merged.supportsThinking)
    && LaterWins(base.supportsJsonSchemaTools, overlay.supportsJsonSchemaTools, merged.supportsJsonSchemaTools)
    && LaterWins(base.supportsPromptCaching, overlay.supportsPromptCaching, merged.supportsPromptCaching)
    && LaterWins(base.supportsUsageReporting, overlay.supportsUsageReporting, merged.supportsUsageReporting)
    && LaterWins(base.supportsStreaming, overlay.supportsStreaming, merged.supportsStreaming)
    && LaterWins(base.supportsStrictSchema, overlay.supportsStrictSchema, merged.supportsStrictSchema)
  }

  /** The three credential fields go together. */
  ghost predicate CredentialsWin(base: Provider, overlay: Provider, merged: Provider) {
    var from := if overlay.apiKey == None && overlay.apiKeyEnv == None && overlay.authRef == None then base else overlay;
    merged.apiKey == from.apiKey && merged.apiKeyEnv == from.apiKeyEnv && merged.authRef == from.authRef
  }

  ghost predicate ProviderWins(base: Provider, overlay: Provider, merged: Provider) {
    && LaterWins(base.id, overlay.id, merged.id) && LaterWins(base.displayName, overlay.displayName, merged.displayName)
    && LaterWins(base.protocol, overlay.protocol, merged.protocol) && LaterWins(base.baseUrl, overlay.baseUrl, merged.baseUrl)
    && LaterWins(base.defaultModel, overlay.defaultModel, merged.defaultModel)
    && LaterWins(base.apiFormat, overlay.apiFormat, merged.apiFormat)
    && LaterWins(base.requestPath, overlay.requestPath, merged.requestPath)
    && LaterWins(base.modelsEndpoint, overlay.modelsEndpoint, merged.modelsEndpoint)
    && CredentialsWin(base, overlay, merged)
    && LaterEntryWins(base.headers, overlay.headers, merged.headers)
    && PartWins(RequestWins, base.request, overlay.request, merged.request)
    && PartWins(CapabilitiesWin, base.capabilities, overlay.capabilities, merged.capabilities)
    && TableWins(ModelWins, base.models, overlay.models, merged.models)
  }

  lemma {:induction false} ModelTableWins(base: map<string, ModelDefinition>, overlay: map<string, ModelDefinition>)
    ensures TableWins(ModelWins, base, overlay, MergeMaps(MergeModel, base, overlay))
  {
    forall k | k in base && k in overlay ensures ModelWins(base[k], overlay[k], MergeModel(base[k], overlay[k])) {
      ModelLaterWins(base[k], overlay[k]);
    }
  }

  /** Every setting of a merged provider, at any depth, is the one of the last
      layer that states it. */
  lemma {:induction false} ProviderLaterWins(base: Provider, overlay: Provider)
    ensures ProviderWins(base, overlay, MergeProvider(base, overlay))
  {
    ModelTableWins(base.models, overlay.models);
  }

  // ------------------------------------------------------------------ merge loops

  /** Merges one entry of the overlay: remove, merge, insert. */
  method MergeKey<V>(op: (V, V) -> V, base: map<string, V>, k: string, v: V) returns (r: map<string, V>)
    ensures r == if k in base then (base - {k})[k := op(base[k], v)] else base[k := v]
  {
    if k in base {
      var merged := op(base[k], v);
      r := base - {k};
      r := r[k := merged];
    } else {
      r := base[k := v];
    }
  }

  /** The merge loop over an overlay map, in any order of keys. */
  method MergeInto<V>(op: (V, V) -> V, base: map<string, V>, overlay: map<string, V>) returns (r: map<string, V>)
    ensures r == MergeMaps(op, base, overlay)
  {
    r := base;
    var rest := overlay.Keys;
    assert overlay - rest == map[];
    while rest != {}
      invariant rest <= overlay.Keys
      invariant r == MergeMaps(op, base, overlay - rest)
      decreases |rest|
    {
      var k :| k in rest;
      OneMoreKey(op, base, overlay - rest, k, overlay[k]);
      KeyDone(overlay, rest, k);
      r := MergeKey(op, r, k, overlay[k]);
      rest := rest - {k};
    }
    assert overlay - {} == overlay;
  }

  lemma {:induction false} KeyDone<V>(overlay: map<string, V>, rest: set<string>, k: string)
    requires k in rest && rest <= overlay.Keys
    ensures overlay - (rest - {k}) == (overlay - rest)[k := overlay[k]]
  {
  }

  lemma {:induction false} OneMoreKey<V>(op: (V, V) -> V, base: map<string, V>, done: map<string, V>, k: string, v: V)
    requires k !in done
    ensures var r := MergeMaps(op, base, done);
      MergeMaps(op, base, done[k := v]) == if k in r then (r - {k})[k := op(r[k], v)] else r[k := v]
  {
  }

  /** The insert loop over header and adapter-option maps. */
  method InsertAll<V>(base: map<string, V>, overlay: map<string, V>) returns (r: map<string, V>)
    ensures r == MergeMap(base, overlay)
  {
    r := base;
    var rest := overlay.Keys;
    NothingDone(base, overlay);
    while rest != {}
      invariant rest <= overlay.Keys
      invariant r == MergeMap(base, overlay - rest)
      decreases |rest|
    {
      var k :| k in rest;
      KeyInserted(base, overlay, rest, k);
      r := r[k := overlay[k]];
      rest := rest - {k};
    }
    AllDone(overlay);
  }

  lemma {:induction false} NothingDone<V>(base: map<string, V>, overlay: map<string, V>)
    ensures MergeMap(base, overlay - overlay.Keys) == base
  {
    assert overlay - overlay.Keys == map[];
  }

  lemma {:induction false} AllDone<V>(overlay: map<string, V>)
    ensures overlay - {} == overlay
  {
  }

  lemma {:induction false} KeyInserted<V>(base: map<string, V>, overlay: map<string, V>, rest: set<string>, k: string)
    requires k in rest && rest <= overlay.Keys
    ensures MergeMap(base, overlay - (rest - {k})) == MergeMap(base, overlay - rest)[k := overlay[k]]
  {
    KeyDone(overlay, rest, k);
  }

  method MergeProviderConfig(base0: Provider, overlay: Provider) returns (base: Provider)
    ensures base == MergeProvider(base0, overlay)
  {
    base := OverlayFields(base0, overlay);
    base := ReplaceCredentials(base, overlay);
    base := OverlaySections(base, overlay);
    var models := MergeInto(MergeModel, base.models, overlay.models);
    base := base.(models := models);
  }

  method OverlayFields(base0: Provider, overlay: Provider) returns (base: Provider)
    ensures base == base0.(
      id := Over(base0.id, overlay.id), displayName := Over(base0.displayName, overlay.displayName),
      protocol := Over(base0.protocol, overlay.protocol), baseUrl := Over(base0.baseUrl, overlay.baseUrl),
      defaultModel := Over(base0.defaultModel, overlay.defaultModel), apiFormat := Over(base0.apiFormat, overlay.apiFormat),
      requestPath := Over(base0.requestPath, overlay.requestPath),
      modelsEndpoint := Over(base0.modelsEndpoint, overlay.modelsEndpoint))
  {
    base := base0;
    if overlay.id.Some? { base := base.(id := overlay.id); }
    if overlay.displayName.Some? { base := base.(displayName := overlay.displayName); }
    if overlay.protocol.Some? { base := base.(protocol := overlay.protocol); }
    if overlay.baseUrl.Some? { base := base.(baseUrl := overlay.baseUrl); }
    if overlay.defaultModel.Some? { base := base.(defaultModel := overlay.defaultModel); }
    if overlay.apiFormat.Some? { base := base.(apiFormat := overlay.apiFormat); }
    if overlay.requestPath.Some? { base := base.(requestPath := overlay.requestPath); }
    if overlay.modelsEndpoint.Some? { base := base.(modelsEndpoint := overlay.modelsEndpoint); }
  }

  method OverlaySections(base0: Provider, overlay: Provider) returns (base: Provider)
    ensures base == base0.(
      headers := OverWith(MergeMap, map[], base0.headers, overlay.headers),
      request := OverWith(MergeRequest, NO_REQUEST, base0.request, overlay.request),
      capabilities := OverWith(MergeCapabilities, NO_CAPABILITIES, base0.capabilities, overlay.capabilities))
  {
    base := base0;
    if overlay.headers.Some? {
      var headers := InsertAll(if base.headers.Some? then base.headers.value else map[], overlay.headers.value);
      base := base.(headers := Some(headers));
    }
    if overlay.request.Some? {
      var request := if base.request.Some? then base.request.value else NO_REQUEST;
      base := base.(request := Some(MergeRequest(request, overlay.request.value)));
    }
    if overlay.capabilities.Some? {
      var capabilities := if base.capabilities.Some? then base.capabilities.value else NO_CAPABILITIES;
      base := base.(capabilities := Some(MergeCapabilities(capabilities, overlay.capabilities.value)));
    }
  }

  method ReplaceCredentials(base0: Provider, overlay: Provider) returns (base: Provider)
    ensures base == if StatesCredential(overlay)
      then base0.(apiKey := overlay.apiKey, apiKeyEnv := overlay.apiKeyEnv, authRef := overlay.authRef) else base0
  {
    base := base0;
    if overlay.apiKey.Some? || overlay.apiKeyEnv.Some? || overlay.authRef.Some? {
      base := base.(apiKey := None, apiKeyEnv := None, authRef := None);
    }
    if overlay.apiKey.Some? { base := base.(apiKey := overlay.apiKey); }
    if overlay.apiKeyEnv.Some? { base := base.(apiKeyEnv := overlay.apiKeyEnv); }
    if overlay.authRef.Some? { base := base.(authRef := overlay.authRef); }
  }

  // ----------------------------------------------------------------- monoid laws

  ghost predicate Associative<T(!new)>(op: (T, T) -> T) {
    forall x, y, z :: op(op(x, y), z) == op(x, op(y, z))
  }

  ghost predicate Identity<T(!new)>(op: (T, T) -> T, empty: T) {
    forall x :: op(empty, x) == x && op(x, empty) == x
  }

  ghost predicate Monoid<T(!new)>(op: (T, T) -> T, empty: T) { Associative(op) && Identity(op, empty) }

  lemma {:induction false} OverWithAssociative<T(!new)>(
    op: (T, T) -> T, empty: T, x: Option<T>, y: Option<T>, z: Option<T>)
    requires Monoid(op, empty)
    ensures OverWith(op, empty, OverWith(op, empty, x, y), z) == OverWith(op, empty, x, OverWith(op, empty, y, z))
    ensures OverWith(op, empty, None, x) == x && OverWith(op, empty, x, None) == x
  {
  }

  lemma {:induction false} MergeMapsAssociative<V(!new)>(
    op: (V, V) -> V, x: map<string, V>, y: map<string, V>, z: map<string, V>)
    requires Associative(op)
    ensures MergeMaps(op, MergeMaps(op, x, y), z) == MergeMaps(op, x, MergeMaps(op, y, z))
    ensures MergeMaps(op, map[], x) == x && MergeMaps(op, x, map[]) == x
  {
  }

  lemma {:induction false} MergeMapLaws<V>(x: map<string, V>, y: map<string, V>, z: map<string, V>)
    ensures MergeMap(MergeMap(x, y), z) == MergeMap(x, MergeMap(y, z))
    ensures MergeMap(map[], x) == x && MergeMap(x, map[]) == x
  {
  }

  lemma {:induction false} MergeMapMonoid<V(!new)>()
    ensures Monoid<map<string, V>>(MergeMap, map[])
  {
    forall x: map<string, V>, y: map<string, V>, z: map<string, V>
      ensures MergeMap(MergeMap(x, y), z) == MergeMap(x, MergeMap(y, z)) {
      MergeMapLaws(x, y, z);
    }
    forall x: map<string, V> ensures MergeMap(map[], x) == x && MergeMap(x, map[]) == x {
      MergeMapLaws(x, x, x);
    }
  }

  lemma {:induction false} OptionsMonoid()
    ensures Monoid(MergeOptions, NO_OPTIONS)
  {
    MergeMapMonoid<Value>();
    forall x: ModelOptions, y: ModelOptions, z: ModelOptions
      ensures MergeOptions(MergeOptions(x, y), z) == MergeOptions(x, MergeOptions(y, z)) {
      OverWithAssociative(MergeMap, map[], x.adapterOptions, y.adapterOptions, z.adapterOptions);
    }
    forall x: ModelOptions ensures MergeOptions(NO_OPTIONS, x) == x && MergeOptions(x, NO_OPTIONS) == x {
      OverWithAssociative(MergeMap, map[], x.adapterOptions, None, None);
    }
  }

  lemma {:induction false} VariantMonoid()
    ensures Monoid(MergeVariant, NO_VARIANT)
  {
    OptionsMonoid();
    forall x: ModelVariant, y: ModelVariant, z: ModelVariant
      ensures MergeVariant(MergeVariant(x, y), z) == MergeVariant(x, MergeVariant(y, z)) {
      OverWithAssociative(MergeOptions, NO_OPTIONS, x.options, y.options, z.options);
    }
    forall x: ModelVariant ensures MergeVariant(NO_VARIANT, x) == x && MergeVariant(x, NO_VARIANT) == x {
      OverWithAssociative(MergeOptions, NO_OPTIONS, x.options, None, None);
    }
  }

  lemma {:induction false} ModelMonoid()
    ensures Monoid(MergeModel, NO_MODEL)
  {
    OptionsMonoid();
    VariantMonoid();
    assert Monoid(MergeModelCapabilities, NO_MODEL_CAPABILITIES);
    forall x: ModelDefinition, y: ModelDefinition, z: ModelDefinition
      ensures MergeModel(MergeModel(x, y), z) == MergeModel(x, MergeModel(y, z)) {
      OverWithAssociative(MergeOptions, NO_OPTIONS, x.options, y.options, z.options);
      OverWithAssociative(MergeModelCapabilities, NO_MODEL_CAPABILITIES, x.capabilities, y.capabilities, z.capabilities);
      MergeMapsAssociative(MergeVariant, x.variants, y.variants, z.variants);
    }
    forall x: ModelDefinition ensures MergeModel(NO_MODEL, x) == x && MergeModel(x, NO_MODEL) == x {
      OverWithAssociative(MergeOptions, NO_OPTIONS, x.options, None, None);
      OverWithAssociative(MergeModelCapabilities, NO_MODEL_CAPABILITIES, x.capabilities, None, None);
      MergeMapsAssociative(MergeVariant, x.variants, map[], map[]);
    }
  }

  /** Overlaying provider configurations is associative, and the empty
      configuration changes nothing on either side. */
  lemma {:induction false} ProviderMonoid()
    ensures Monoid(MergeProvider, NO_PROVIDER)
  {
    forall x, y, z ensures MergeProvider(MergeProvider(x, y), z) == MergeProvider(x, MergeProvider(y, z)) {
      ProviderAssociative(x, y, z);
    }
    forall x ensures MergeProvider(NO_PROVIDER, x) == x && MergeProvider(x, NO_PROVIDER) == x {
      ProviderIdentity(x);
    }
  }

  lemma {:induction false} ProviderAssociative(x: Provider, y: Provider, z: Provider)
    ensures MergeProvider(MergeProvider(x, y), z) == MergeProvider(x, MergeProvider(y, z))
  {
    ModelMonoid();
    MergeMapMonoid<string>();
    assert Monoid(MergeRequest, NO_REQUEST);
    assert Monoid(MergeCapabilities, NO_CAPABILITIES);
    OverWithAssociative(MergeMap, map[], x.headers, y.headers, z.headers);
    OverWithAssociative(MergeRequest, NO_REQUEST, x.request, y.request, z.request);
    OverWithAssociative(MergeCapabilities, NO_CAPABILITIES, x.capabilities, y.capabilities, z.capabilities);
    MergeMapsAssociative(MergeModel, x.models, y.models, z.models);
  }

  lemma {:induction false} ProviderIdentity(x: Provider)
    ensures MergeProvider(NO_PROVIDER, x) == x && MergeProvider(x, NO_PROVIDER) == x
  {
    ModelMonoid();
    MergeMapMonoid<string>();
    assert Monoid(MergeRequest, NO_REQUEST);
    assert Monoid(MergeCapabilities, NO_CAPABILITIES);
    OverWithAssociative(MergeMap, map[], x.headers, None, None);
    OverWithAssociative(MergeRequest, NO_REQUEST, x.request, None, None);
    OverWithAssociative(MergeCapabilities, NO_CAPABILITIES, x.capabilities, None, None);
    MergeMapsAssociative(MergeModel, x.models, map[], map[]);
  }

  /** A built-in provider overlaid with the merged files is the built-in
      overlaid with each file in turn. */
  lemma {:induction false} BuiltinThenLayers(
    builtin: Provider, global: map<string, Provider>, workspace: map<string, Provider>, name: string)
    ensures Overlaid(builtin, MergeMaps(MergeProvider, global, workspace), name)
         == Overlaid(Overlaid(builtin, global, name), workspace, name)
  {
    if name in global && name in workspace {
      ProviderAssociative(builtin, global[name], workspace[name]);
    }
  }

  /** The configuration a provider is finally built from. */
  function Overlaid(builtin: Provider, providers: map<string, Provider>, name: string): Provider {
    if name in providers then MergeProvider(builtin, providers[name]) else builtin
  }

  // ---------------------------------------------------------------- profiles

  datatype Profile = Profile(
    provider: Option<string>, model: Option<string>, mode: Option<Token>, maxTurns: Option<Token>,
    maxOutputTokens: Option<Token>, temperature: Option<Token>, topP: Option<Token>, variant: Option<string>,
    contextWindowOverride: Option<Token>)

  const NO_PROFILE: Profile := Profile(None, None, None, None, None, None, None, None, None)

  function MergeProfile(base: Profile, overlay: Profile): Profile {
    Profile(
      Over(base.provider, overlay.provider), Over(base.model, overlay.model), Over(base.mode, overlay.mode),
      Over(base.maxTurns, overlay.maxTurns), Over(base.maxOutputTokens, overlay.maxOutputTokens),
      Over(base.temperature, overlay.temperature), Over(base.topP, overlay.topP), Over(base.variant, overlay.variant),
      Over(base.contextWindowOverride, overlay.contextWindowOverride))
  }

  lemma {:induction false} ProfileLaterWins(base: Profile, overlay: Profile)
    ensures var merged := MergeProfile(base, overlay);
      && LaterWins(base.provider, overlay.provider, merged.provider) && LaterWins(base.model, overlay.model, merged.model)
      && LaterWins(base.mode, overlay.mode, merged.mode) && LaterWins(base.maxTurns, overlay.maxTurns, merged.maxTurns)
      && LaterWins(base.maxOutputTokens, overlay.maxOutputTokens, merged.maxOutputTokens)
      && LaterWins(base.temperature, overlay.temperature, merged.temperature)
      && LaterWins(base.topP, overlay.topP, merged.topP) && LaterWins(base.variant, overlay.variant, merged.variant)
      && LaterWins(base.contextWindowOverride, overlay.contextWindowOverride, merged.contextWindowOverride)
  {
  }

  /** Overlaying profiles is a monoid too. */
  lemma {:induction false} ProfileMonoid()
    ensures Monoid(MergeProfile, NO_PROFILE)
  {
    forall x: Profile, y: Profile, z: Profile
      ensures MergeProfile(MergeProfile(x, y), z) == MergeProfile(x, MergeProfile(y, z)) {
    }
    forall x: Profile ensures MergeProfile(NO_PROFILE, x) == x && MergeProfile(x, NO_PROFILE) == x {
    }
  }

  /** So the provider and profile tables of three layers merge alike whichever
      two are merged first. */
  lemma {:induction false} LayerTablesAssociate(a: Workspace, b: Workspace, c: Workspace)
    ensures MergeMaps(MergeProvider, MergeMaps(MergeProvider, a.providers, b.providers), c.providers)
         == MergeMaps(MergeProvider, a.providers, MergeMaps(MergeProvider, b.providers, c.providers))
    ensures MergeMaps(MergeProfile, MergeMaps(MergeProfile, a.profiles, b.profiles), c.profiles)
         == MergeMaps(MergeProfile, a.profiles, MergeMaps(MergeProfile, b.profiles, c.profiles))
  {
    ProviderMonoid();
    ProfileMonoid();
    MergeMapsAssociative(MergeProvider, a.providers, b.providers, c.providers);
    MergeMapsAssociative(MergeProfile, a.profiles, b.profiles, c.profiles);
  }

  // ---------------------------------------------------------------- policies

  type Names = Option<seq<string>>

  datatype Policies = Policies(
    allowRead: Names, allowWrite: Names, denyWrite: Names, denyRead: Names,
    bashDefault: Option<Token>, bashAllow: Names, bashConfirm: Names, bashDeny: Names,
    networkDefault: Option<Token>, allowDomains: Names, denyDomains: Names)

  const NO_POLICIES: Policies := Policies(None, None, None, None, None, None, None, None, None, None, None)

  datatype Workspace = Workspace(
    policies: Option<Policies>, providers: map<string, Provider>, profiles: map<string, Profile>)

  datatype ConfigError =
    | WidensAuthority(field: string, value: string)
    | ExclusiveCredentials(provider: string)
    | LegacySecret(provider: string)
    | VariantCycle
    | VariantNotFound(variant: string)

  /** The entries of a list that may be absent. */
  function EntriesOf(names: Names): set<string> {
    if names.None? then {} else set n | n in names.value
  }

  ghost predicate Narrows(global: Names, workspace: Names) {
    global.Some? && workspace.Some? ==> EntriesOf(workspace) <= EntriesOf(global)
  }

  method ValidateSubset(global: Names, workspace: Names, field: string) returns (r: Option<ConfigError>)
    ensures r.None? <==> Narrows(global, workspace)
  {
    if global.Some? && workspace.Some? {
      for i := 0 to |workspace.value|
        invariant forall k | 0 <= k < i :: workspace.value[k] in global.value
      {
        if workspace.value[i] !in global.value {
          assert workspace.value[i] in EntriesOf(workspace);
          return Some(WidensAuthority(field, workspace.value[i]));
        }
      }
    }
    return None;
  }

  function Union(a: seq<string>, b: seq<string>): seq<string> {
    if b == [] then a
    else
      var n := |b| - 1;
      var u := Union(a, b[..n]);
      if b[n] in u then u else u + [b[n]]
  }

  function MergeUnions(a: Names, b: Names): Names {
    if a.Some? && b.Some? then Some(Union(a.value, b.value)) else if a.Some? then a else b
  }

  method ComputeMergeUnions(a: Names, b: Names) returns (r: Names)
    ensures r == MergeUnions(a, b)
  {
    if a.Some? && b.Some? {
      var va := a.value;
      for i := 0 to |b.value|
        invariant va == Union(a.value, b.value[..i])
      {
        assert b.value[..i + 1][..i] == b.value[..i];
        if b.value[i] !in va {
          va := va + [b.value[i]];
        }
      }
      assert b.value[..|b.value|] == b.value;
      return Some(va);
    }
    return if a.Some? then a else b;
  }

  lemma {:induction false} UnionEntries(a: seq<string>, b: seq<string>)
    ensures forall x :: x in Union(a, b) <==> x in a || x in b
  {
    if b != [] {
      var n := |b| - 1;
      UnionEntries(a, b[..n]);
      assert forall x :: x in b <==> x in b[..n] || x == b[n];
    }
  }

  lemma {:induction false} MergeUnionsEntries(a: Names, b: Names)
    ensures EntriesOf(MergeUnions(a, b)) == EntriesOf(a) + EntriesOf(b)
  {
    if a.Some? && b.Some? {
      UnionEntries(a.value, b.value);
    }
  }

  ghost predicate NarrowsAll(base: Policies, overlay: Policies) {
    && Narrows(base.allowRead, overlay.allowRead) && Narrows(base.allowWrite, overlay.allowWrite)
    && Narrows(base.bashAllow, overlay.bashAllow) && Narrows(base.allowDomains, overlay.allowDomains)
  }

  function MergePolicies(base: Policies, overlay: Policies): Policies {
    Policies(
      Over(base.allowRead, overlay.allowRead), Over(base.allowWrite, overlay.allowWrite),
      MergeUnions(base.denyWrite, overlay.denyWrite), MergeUnions(base.denyRead, overlay.denyRead),
      Over(base.bashDefault, overlay.bashDefault), Over(base.bashAllow, overlay.bashAllow),
      Over(base.bashConfirm, overlay.bashConfirm), MergeUnions(base.bashDeny, overlay.bashDeny),
      Over(base.networkDefault, overlay.networkDefault), Over(base.allowDomains, overlay.allowDomains),
      MergeUnions(base.denyDomains, overlay.denyDomains))
  }

  /** Allow lists and defaults are replaced, deny lists united. */
  lemma {:induction false} PoliciesLaterWins(base: Policies, overlay: Policies)
    ensures var merged := MergePolicies(base, overlay);
      && LaterWins(base.allowRead, overlay.allowRead, merged.allowRead)
      && LaterWins(base.allowWrite, overlay.allowWrite, merged.allowWrite)
      && LaterWins(base.bashDefault, overlay.bashDefault, merged.bashDefault)
      && LaterWins(base.bashAllow, overlay.bashAllow, merged.bashAllow)
      && LaterWins(base.bashConfirm, overlay.bashConfirm, merged.bashConfirm)
      && LaterWins(base.networkDefault, overlay.networkDefault, merged.networkDefault)
      && LaterWins(base.allowDomains, overlay.allowDomains, merged.allowDomains)
      && EntriesOf(merged.denyWrite) == EntriesOf(base.denyWrite) + EntriesOf(overlay.denyWrite)
      && EntriesOf(merged.denyRead) == EntriesOf(base.denyRead) + EntriesOf(overlay.denyRead)
      && EntriesOf(merged.bashDeny) == EntriesOf(base.bashDeny) + EntriesOf(overlay.bashDeny)
      && EntriesOf(merged.denyDomains) == EntriesOf(base.denyDomains) + EntriesOf(overlay.denyDomains)
  {
    MergeUnionsEntries(base.denyWrite, overlay.denyWrite);
    MergeUnionsEntries(base.denyRead, overlay.denyRead);
    MergeUnionsEntries(base.bashDeny, overlay.bashDeny);
    MergeUnionsEntries(base.denyDomains, overlay.denyDomains);
  }

  method CheckNarrows(base: Policies, overlay: Policies) returns (e: Option<ConfigError>)
    ensures e.None? <==> NarrowsAll(base, overlay)
  {
    e := ValidateSubset(base.allowRead, overlay.allowRead, "policies.paths.allow_read");
    if e.None? {
      e := ValidateSubset(base.allowWrite, overlay.allowWrite, "policies.paths.allow_write");
    }
    if e.None? {
      e := ValidateSubset(base.bashAllow, overlay.bashAllow, "policies.bash.allow");
    }
    if e.None? {
      e := ValidateSubset(base.allowDomains, overlay.allowDomains, "policies.network.allow_domains");
    }
  }

  method MergePoliciesInto(base: Policies, overlay: Policies) returns (r: Policies)
    ensures r == MergePolicies(base, overlay)
  {
    r := base;
    if overlay.allowRead.Some? { r := r.(allowRead := overlay.allowRead); }
    if overlay.allowWrite.Some? { r := r.(allowWrite := overlay.allowWrite); }
    if overlay.bashAllow.Some? { r := r.(bashAllow := overlay.bashAllow); }
    if overlay.allowDomains.Some? { r := r.(allowDomains := overlay.allowDomains); }
    var denyWrite := ComputeMergeUnions(base.denyWrite, overlay.denyWrite);
    var denyRead := ComputeMergeUnions(base.denyRead, overlay.denyRead);
    var bashDeny := ComputeMergeUnions(base.bashDeny, overlay.bashDeny);
    var denyDomains := ComputeMergeUnions(base.denyDomains, overlay.denyDomains);
    r := r.(denyWrite := denyWrite, denyRead := denyRead, bashDeny := bashDeny, denyDomains := denyDomains,
            bashDefault := Over(r.bashDefault, overlay.bashDefault),
            bashConfirm := Over(r.bashConfirm, overlay.bashConfirm),
            networkDefault := Over(r.networkDefault, overlay.networkDefault));
  }

  /** The policies of a layer; a layer without the section states nothing. */
  function PoliciesOf(w: Workspace): Policies { if w.policies.Some? then w.policies.value else NO_POLICIES }

  function MergedWorkspace(base: Workspace, other: Workspace): Workspace {
    Workspace(
      if other.policies.Some? then Some(MergePolicies(PoliciesOf(base), other.policies.value)) else base.policies,
      MergeMaps(MergeProvider, base.providers, other.providers),
      MergeMaps(MergeProfile, base.profiles, other.profiles))
  }

  method Merge(base: Workspace, other: Workspace) returns (r: Result<Workspace, ConfigError>)
    ensures r.Success? <==> NarrowsAll(PoliciesOf(base), PoliciesOf(other))
    ensures r.Success? ==> r.value == MergedWorkspace(base, other)
  {
    var policies := base.policies;
    if other.policies.Some? {
      var selfPolicies := PoliciesOf(base);
      var e := CheckNarrows(selfPolicies, other.policies.value);
      if e.Some? {
        return Failure(e.value);
      }
      selfPolicies := MergePoliciesInto(selfPolicies, other.policies.value);
      policies := Some(selfPolicies);
    }
    var providers := MergeInto(MergeProvider, base.providers, other.providers);
    var profiles := MergeInto(MergeProfile, base.profiles, other.profiles);
    return Success(Workspace(policies, providers, profiles));
  }

  // --------------------------------------------------------- chains of layers

  const NO_LAYER: Workspace := Workspace(None, map[], map[])

  /** All layers merge without error, one on top of the other. */
  ghost predicate Merges(layers: seq<Workspace>) {
    layers == [] ||
    (var n := |layers| - 1;
     Merges(layers[..n]) && NarrowsAll(PoliciesOf(MergedLayers(layers[..n])), PoliciesOf(layers[n])))
  }

  ghost function MergedLayers(layers: seq<Workspace>): Workspace {
    if layers == [] then NO_LAYER
    else MergedWorkspace(MergedLayers(layers[..|layers| - 1]), layers[|layers| - 1])
  }

  method MergeLayers(layers: seq<Workspace>) returns (r: Result<Workspace, ConfigError>)
    ensures r.Success? <==> Merges(layers)
    ensures r.Success? ==> r.value == MergedLayers(layers)
  {
    var config := NO_LAYER;
    for i := 0 to |layers|
      invariant Merges(layers[..i]) && config == MergedLayers(layers[..i])
    {
      assert layers[..i + 1][..i] == layers[..i];
      var next := Merge(config, layers[i]);
      if next.Failure? {
        NoPrefixNoMerge(layers, i + 1);
        return next;
      }
      config := next.value;
    }
    assert layers[..|layers|] == layers;
    return Success(config);
  }

  lemma {:induction false} NoPrefixNoMerge(layers: seq<Workspace>, n: nat)
    requires n <= |layers| && !Merges(layers[..n])
    ensures !Merges(layers)
    decreases |layers| - n
  {
    if n < |layers| {
      assert layers[..n + 1][..n] == layers[..n];
      NoPrefixNoMerge(layers, n + 1);
    } else {
      assert layers[..n] == layers;
    }
  }

  /** An allow list that may not be widened: what is stated, and what binds. */
  ghost predicate AllowKept(result: Names, stated: Names) {
    stated.Some? ==> result.Some? && EntriesOf(result) <= EntriesOf(stated)
  }

  ghost predicate LayerBinds(result: Policies, layer: Policies) {
    && AllowKept(result.allowRead, layer.allowRead) && AllowKept(result.allowWrite, layer.allowWrite)
    && AllowKept(result.bashAllow, layer.bashAllow) && AllowKept(result.allowDomains, layer.allowDomains)
    && EntriesOf(layer.denyRead) <= EntriesOf(result.denyRead) && EntriesOf(layer.denyWrite) <= EntriesOf(result.denyWrite)
    && EntriesOf(layer.bashDeny) <= EntriesOf(result.bashDeny)
    && EntriesOf(layer.denyDomains) <= EntriesOf(result.denyDomains)
  }

  lemma {:induction false} MergeBinds(base: Policies, overlay: Policies, layer: Policies)
    requires NarrowsAll(base, overlay) && (layer == overlay || LayerBinds(base, layer))
    ensures LayerBinds(MergePolicies(base, overlay), layer)
  {
    MergeUnionsEntries(base.denyWrite, overlay.denyWrite);
    MergeUnionsEntries(base.denyRead, overlay.denyRead);
    MergeUnionsEntries(base.bashDeny, overlay.bashDeny);
    MergeUnionsEntries(base.denyDomains, overlay.denyDomains);
  }

  lemma {:induction false} MergedPolicies(base: Workspace, other: Workspace)
    ensures PoliciesOf(MergedWorkspace(base, other)) == MergePolicies(PoliciesOf(base), PoliciesOf(other))
  {
  }

  /** No later layer widens an allow list or drops a deny entry of an earlier
      one: the merged policies bind at least as tightly as every layer. */
  lemma {:induction false} EveryLayerBinds(layers: seq<Workspace>, i: nat)
    requires Merges(layers) && i < |layers|
    ensures LayerBinds(PoliciesOf(MergedLayers(layers)), PoliciesOf(layers[i]))
    decreases |layers|
  {
    var n := |layers| - 1;
    MergedPolicies(MergedLayers(layers[..n]), layers[n]);
    if i < n {
      EveryLayerBinds(layers[..n], i);
    }
    MergeBinds(PoliciesOf(MergedLayers(layers[..n])), PoliciesOf(layers[n]), PoliciesOf(layers[i]));
  }

  // ------------------------------------------------------------- credentials

  /** At most one of the credential fields, and no legacy reference. */
  predicate OneCredential(p: Provider) {
    && !(p.apiKey.Some? && p.apiKeyEnv.Some?) && !(p.apiKey.Some? && p.authRef.Some?)
    && !(p.apiKeyEnv.Some? && p.authRef.Some?)
  }

  predicate ValidCredentials(p: Provider) {
    && OneCredential(p)
    && (p.authRef.Some? ==> !("secret:" <= p.authRef.value))
  }

  function CredentialError(name: string, p: Provider): Option<ConfigError> {
    if !OneCredential(p) then Some(ExclusiveCredentials(name))
    else if !ValidCredentials(p) then Some(LegacySecret(name))
    else None
  }

  ghost predicate ValidLayer(w: Workspace) {
    forall name | name in w.providers :: ValidCredentials(w.providers[name])
  }

  method ValidateConfigLayer(w: Workspace) returns (e: Option<ConfigError>)
    ensures e.None? <==> ValidLayer(w)
    ensures e.Some? ==> exists name :: name in w.providers && e == CredentialError(name, w.providers[name])
  {
    var rest := w.providers.Keys;
    while rest != {}
      invariant rest <= w.providers.Keys
      invariant forall name | name in w.providers && name !in rest :: ValidCredentials(w.providers[name])
      decreases |rest|
    {
      var name :| name in rest;
      var provider := w.providers[name];
      var specified := 0;
      if provider.apiKey.Some? { specified := specified + 1; }
      if provider.apiKeyEnv.Some? { specified := specified + 1; }
      if provider.authRef.Some? { specified := specified + 1; }
      if specified > 1 {
        return Some(ExclusiveCredentials(name));
      }
      if provider.authRef.Some? && "secret:" <= provider.authRef.value {
        return Some(LegacySecret(name));
      }
      rest := rest - {name};
    }
    return None;
  }

  /** Layers that are valid on their own merge to valid credentials. */
  lemma {:induction false} ValidLayersMergeValid(layers: seq<Workspace>)
    requires forall i | 0 <= i < |layers| :: ValidLayer(layers[i])
    ensures ValidLayer(MergedLayers(layers))
  {
    if layers != [] {
      ValidLayersMergeValid(layers[..|layers| - 1]);
    }
  }

  // --------------------------------------------------------- variant inheritance

  type Variants = map<string, ModelVariant>

  /** The names passed through so far. */
  class Visited {
    var names: seq<string>

    constructor ()
      ensures names == []
    {
      names := [];
    }
  }

  /** An inheritance chain from a variant to one without a parent. */
  ghost predicate Chain(variants: Variants, name: string, names: seq<string>)
    decreases |names|
  {
    && names != [] && names[0] == name && name in variants
    && match variants[name].parent
       case None => |names| == 1
       case Some(parent) => Chain(variants, parent, names[1..])
  }

  function OwnOptions(v: ModelVariant, base: ModelOptions): ModelOptions {
    if v.options.Some? then MergeOptions(base, v.options.value) else base
  }

  /** The options of a chain, folded from its root to its leaf. */
  function ChainOptions(variants: Variants, names: seq<string>): ModelOptions
    requires forall n | n in names :: n in variants
  {
    if names == [] then NO_OPTIONS else OwnOptions(variants[names[0]], ChainOptions(variants, names[1..]))
  }

  lemma {:induction false} ChainExists(variants: Variants, name: string, names: seq<string>)
    requires Chain(variants, name, names)
    ensures forall n | n in names :: n in variants
    decreases |names|
  {
    if variants[name].parent.Some? {
      ChainExists(variants, variants[name].parent.value, names[1..]);
    }
  }

  lemma {:induction false} ChainUnique(variants: Variants, name: string, a: seq<string>, b: seq<string>)
    requires Chain(variants, name, a) && Chain(variants, name, b)
    ensures a == b
    decreases |a|
  {
    if variants[name].parent.Some? {
      ChainUnique(variants, variants[name].parent.value, a[1..], b[1..]);
      assert a == [a[0]] + a[1..] && b == [b[0]] + b[1..];
    }
  }

  lemma {:induction false} ChainSuffix(variants: Variants, name: string, names: seq<string>, i: nat)
    requires Chain(variants, name, names) && i < |names|
    ensures Chain(variants, names[i], names[i..])
    decreases i
  {
    if i == 0 {
      assert names[0..] == names;
    } else {
      ChainSuffix(variants, variants[name].parent.value, names[1..], i - 1);
      assert names[1..][i - 1..] == names[i..];
    }
  }

  /** A chain that ends at a root never passes a name twice. */
  lemma {:induction false} ChainDistinct(variants: Variants, name: string, names: seq<string>)
    requires Chain(variants, name, names)
    ensures Distinct(names)
  {
    forall i, j | 0 <= i < j < |names| ensures names[i] != names[j] {
      ChainSuffix(variants, name, names, i);
      ChainSuffix(variants, name, names, j);
      if names[i] == names[j] {
        ChainUnique(variants, names[i], names[i..], names[j..]);
        assert false;
      }
    }
  }

  ghost predicate Avoids(names: seq<string>, visited: seq<string>) {
    forall n | n in names :: n !in visited
  }

  /** A chain from a variant with a parent avoids the visited names exactly
      when the parent's chain avoids them and the variant itself. */
  lemma {:induction false} ChainThroughParent(variants: Variants, name: string, visited: seq<string>)
    requires name in variants && variants[name].parent.Some? && name !in visited
    ensures (exists names :: Chain(variants, name, names) && Avoids(names, visited))
       <==> (exists names :: Chain(variants, variants[name].parent.value, names) && Avoids(names, visited + [name]))
  {
    var parent := variants[name].parent.value;
    if exists names :: Chain(variants, name, names) && Avoids(names, visited) {
      var names :| Chain(variants, name, names) && Avoids(names, visited);
      ChainDistinct(variants, name, names);
      assert Chain(variants, parent, names[1..]) && Avoids(names[1..], visited + [name]);
    }
    if exists names :: Chain(variants, parent, names) && Avoids(names, visited + [name]) {
      var names :| Chain(variants, parent, names) && Avoids(names, visited + [name]);
      assert ([name] + names)[1..] == names;
      assert Chain(variants, name, [name] + names) && Avoids([name] + names, visited);
    }
  }

  lemma {:induction false} RootChain(variants: Variants, name: string, visited: seq<string>)
    requires name in variants && variants[name].parent.None? && name !in visited
    ensures Chain(variants, name, [name]) && Avoids([name], visited)
  {
  }

  /** The value a chain resolves to. */
  ghost predicate Resolves(variants: Variants, name: string, options: ModelOptions) {
    forall names | Chain(variants, name, names) ::
      (forall n | n in names :: n in variants) && options == ChainOptions(variants, names)
  }

  /** What the first variant of the chain that states it says. */
  function FirstStated<V>(variants: Variants, names: seq<string>, get: ModelOptions -> Option<V>): Option<V>
    requires forall n | n in names :: n in variants
  {
    if names == [] then None
    else
      var o := variants[names[0]].options;
      if o.Some? && get(o.value).Some? then get(o.value) else FirstStated(variants, names[1..], get)
  }

  function MaxOutputTokens(o: ModelOptions): Option<Token> { o.maxOutputTokens }
  function Temperature(o: ModelOptions): Option<Token> { o.temperature }
  function TopP(o: ModelOptions): Option<Token> { o.topP }
  function ReasoningEffort(o: ModelOptions): Option<Token> { o.reasoningEffort }
  function TextVerbosity(o: ModelOptions): Option<Token> { o.textVerbosity }
  function Thinking(o: ModelOptions): Option<Token> { o.thinking }
  function AdapterOption(k: string): ModelOptions -> Option<Value> { (o: ModelOptions) => EntryOf(o.adapterOptions, k) }

  /** Every option comes from the nearest variant that states it, every adapter
      option from the nearest that has it. */
  ghost predicate Nearest(variants: Variants, names: seq<string>, options: ModelOptions)
    requires forall n | n in names :: n in variants
  {
    && options.maxOutputTokens == FirstStated(variants, names, MaxOutputTokens)
    && options.temperature == FirstStated(variants, names, Temperature)
    && options.topP == FirstStated(variants, names, TopP)
    && options.reasoningEffort == FirstStated(variants, names, ReasoningEffort)
    && options.textVerbosity == FirstStated(variants, names, TextVerbosity)
    && options.thinking == FirstStated(variants, names, Thinking)
    && forall k :: EntryOf(options.adapterOptions, k) == FirstStated(variants, names, AdapterOption(k))
  }

  ghost predicate Inherits(variants: Variants, name: string, options: ModelOptions) {
    forall names | Chain(variants, name, names) ::
      (forall n | n in names :: n in variants) && Nearest(variants, names, options)
  }

  lemma {:induction false} NearestWins<V(!new)>(variants: Variants, names: seq<string>, get: ModelOptions -> Option<V>)
    requires forall n | n in names :: n in variants
    requires get(NO_OPTIONS) == None
    requires forall b, o :: get(MergeOptions(b, o)) == if get(o).Some? then get(o) else get(b)
    ensures get(ChainOptions(variants, names)) == FirstStated(variants, names, get)
  {
    if names != [] {
      NearestWins(variants, names[1..], get);
    }
  }

  lemma {:induction false} ChainIsNearest(variants: Variants, names: seq<string>)
    requires forall n | n in names :: n in variants
    ensures Nearest(variants, names, ChainOptions(variants, names))
  {
    NearestWins(variants, names, MaxOutputTokens);
    NearestWins(variants, names, Temperature);
    NearestWins(variants, names, TopP);
    NearestWins(variants, names, ReasoningEffort);
    NearestWins(variants, names, TextVerbosity);
    NearestWins(variants, names, Thinking);
    forall k ensures EntryOf(ChainOptions(variants, names).adapterOptions, k) == FirstStated(variants, names, AdapterOption(k)) {
      NearestWins(variants, names, AdapterOption(k));
    }
  }

  lemma {:induction false} ResolvedInherits(variants: Variants, name: string, options: ModelOptions)
    requires Resolves(variants, name, options)
    ensures Inherits(variants, name, options)
  {
    forall names | Chain(variants, name, names)
      ensures (forall n | n in names :: n in variants) && Nearest(variants, names, options)
    {
      ChainIsNearest(variants, names);
    }
  }

  lemma {:induction false} ResolvesOwn(variants: Variants, name: string, base: ModelOptions)
    requires name in variants
    requires match variants[name].parent case None => base == NO_OPTIONS case Some(p) => Resolves(variants, p, base)
    ensures Resolves(variants, name, OwnOptions(variants[name], base))
  {
    forall names | Chain(variants, name, names)
      ensures forall n | n in names :: n in variants
      ensures OwnOptions(variants[name], base) == ChainOptions(variants, names)
    {
      ChainExists(variants, name, names);
    }
  }

  /** `ancestor` is reached from `name` by following n parent links. */
  ghost predicate Leads(variants: Variants, name: string, ancestor: string, n: nat)
    decreases n
  {
    if n == 0 then name == ancestor
    else name in variants && variants[name].parent.Some? && Leads(variants, variants[name].parent.value, ancestor, n - 1)
  }

  /** Following parents comes back to a name: a visited one, or one passed before. */
  ghost predicate ComesBack(variants: Variants, name: string, visited: seq<string>) {
    exists m, j: nat :: Leads(variants, name, m, j) && (m in visited || exists i: nat :: i < j && Leads(variants, name, m, i))
  }

  lemma {:induction false} ParentComesBack(variants: Variants, name: string, visited: seq<string>)
    requires name in variants && variants[name].parent.Some?
    requires ComesBack(variants, variants[name].parent.value, visited + [name])
    ensures ComesBack(variants, name, visited)
  {
    var parent := variants[name].parent.value;
    var m, j: nat :| Leads(variants, parent, m, j)
      && (m in visited + [name] || exists i: nat :: i < j && Leads(variants, parent, m, i));
    assert Leads(variants, name, m, j + 1);
    if m == name {
      assert Leads(variants, name, m, 0);
    } else if m !in visited {
      var i: nat :| i < j && Leads(variants, parent, m, i);
      assert Leads(variants, name, m, i + 1);
    }
  }

  /** Nothing to follow: the variant is missing, or has no parent. */
  predicate Terminal(variants: Variants, name: string) { name in variants ==> variants[name].parent.None? }

  /** Every ancestor has a parent again. */
  ghost predicate NeverEnds(variants: Variants, name: string) {
    forall m, n: nat | Leads(variants, name, m, n) :: !Terminal(variants, m)
  }

  lemma {:induction false} OneTerminal(variants: Variants, name: string, x: string, a: nat, y: string, b: nat)
    requires Leads(variants, name, x, a) && Terminal(variants, x)
    requires Leads(variants, name, y, b) && Terminal(variants, y)
    ensures a == b && x == y
    decreases a
  {
    if a > 0 && b > 0 {
      OneTerminal(variants, variants[name].parent.value, x, a - 1, y, b - 1);
    }
  }

  lemma {:induction false} LeadsOn(variants: Variants, name: string, m: string, i: nat, x: string, n: nat)
    requires Leads(variants, name, m, i) && Leads(variants, name, x, n) && Terminal(variants, x)
    ensures i <= n && Leads(variants, m, x, n - i)
    decreases i
  {
    if i > 0 {
      LeadsOn(variants, variants[name].parent.value, m, i - 1, x, n - 1);
    }
  }

  /** Parents that come back to a name never end. */
  lemma {:induction false} ComingBackNeverEnds(variants: Variants, name: string, x: string, n: nat)
    requires ComesBack(variants, name, []) && Leads(variants, name, x, n)
    ensures !Terminal(variants, x)
  {
    var m, j: nat :| Leads(variants, name, m, j) && exists i: nat :: i < j && Leads(variants, name, m, i);
    var i: nat :| i < j && Leads(variants, name, m, i);
    if Terminal(variants, x) {
      LeadsOn(variants, name, m, i, x, n);
      LeadsOn(variants, name, m, j, x, n);
      OneTerminal(variants, m, x, n - i, x, n - j);
    }
  }

  lemma {:induction false} ChainEnds(variants: Variants, name: string, names: seq<string>)
    requires Chain(variants, name, names)
    ensures names[|names| - 1] in variants && variants[names[|names| - 1]].parent.None?
    ensures Leads(variants, name, names[|names| - 1], |names| - 1)
    decreases |names|
  {
    if variants[name].parent.Some? {
      ChainEnds(variants, variants[name].parent.value, names[1..]);
    }
  }

  /** Succeeds exactly on a chain that avoids the visited names; then folds the
      chain's options and leaves the visited names as they were. */
  method ResolveVariant(variants: Variants, name: string, visited: Visited) returns (r: Result<ModelOptions, ConfigError>)
    modifies visited
    ensures r.Success? <==> exists names :: Chain(variants, name, names) && Avoids(names, old(visited.names))
    ensures r.Success? ==> Resolves(variants, name, r.value) && visited.names == old(visited.names)
    ensures r.Success? ==> Inherits(variants, name, r.value)
    ensures r.Failure? ==> r.error.VariantCycle? || r.error.VariantNotFound?
    ensures r.Failure? && r.error.VariantNotFound? ==>
      r.error.variant !in variants && exists n: nat :: Leads(variants, name, r.error.variant, n)
    ensures r.Failure? && r.error.VariantCycle? ==> ComesBack(variants, name, old(visited.names))
    decreases |variants.Keys - Elements(visited.names)|
  {
    if name in visited.names {
      assert Leads(variants, name, name, 0);
      return Failure(VariantCycle);
    }
    ghost var before := visited.names;
    visited.names := visited.names + [name];
    if name !in variants {
      assert Leads(variants, name, name, 0);
      return Failure(VariantNotFound(name));
    }
    var config := variants[name];
    var baseOptions := NO_OPTIONS;
    if config.parent.Some? {
      FewerUnseen(variants, before, name);
      ChainThroughParent(variants, name, before);
      var parent := ResolveVariant(variants, config.parent.value, visited);
      if parent.Failure? {
        if parent.error.VariantNotFound? {
          ghost var n: nat :| Leads(variants, config.parent.value, parent.error.variant, n);
          assert Leads(variants, name, parent.error.variant, n + 1);
        } else {
          ParentComesBack(variants, name, before);
        }
        return parent;
      }
      baseOptions := parent.value;
    } else {
      RootChain(variants, name, before);
    }
    ResolvesOwn(variants, name, baseOptions);
    if config.options.Some? {
      baseOptions := MergeOptions(baseOptions, config.options.value);
    }
    ResolvedInherits(variants, name, baseOptions);
    visited.names := visited.names[..|visited.names| - 1];
    return Success(baseOptions);
  }

  lemma {:induction false} FewerUnseen(variants: Variants, names: seq<string>, name: string)
    requires name in variants && name !in names
    ensures |variants.Keys - Elements(names + [name])| < |variants.Keys - Elements(names)|
  {
    var before, after := variants.Keys - Elements(names), variants.Keys - Elements(names + [name]);
    assert name in before;
    assert after == before - {name};
  }

  /** From the top: Ok exactly when the parents reach an existing variant
      without a parent, not-found exactly when they reach a missing one, and a
      cycle exactly when they never end. */
  method ResolveFromTop(variants: Variants, name: string) returns (r: Result<ModelOptions, ConfigError>)
    ensures r.Success? <==> exists names :: Chain(variants, name, names)
    ensures r.Success? ==> Inherits(variants, name, r.value)
    ensures r.Failure? && r.error.VariantNotFound? <==>
      exists m, n: nat :: Leads(variants, name, m, n) && m !in variants
    ensures r.Failure? && r.error.VariantCycle? <==> NeverEnds(variants, name)
  {
    var visited := new Visited();
    r := ResolveVariant(variants, name, visited);
    assert forall names | Chain(variants, name, names) :: Avoids(names, []);
    if r.Success? {
      ghost var names :| Chain(variants, name, names);
      ChainEnds(variants, name, names);
      ghost var last, n := names[|names| - 1], |names| - 1;
      OnlyEnd(variants, name, last, n);
      assert !NeverEnds(variants, name);
    } else if r.error.VariantNotFound? {
      ghost var n: nat :| Leads(variants, name, r.error.variant, n);
      assert !NeverEnds(variants, name);
    } else {
      forall m, n: nat | Leads(variants, name, m, n) ensures !Terminal(variants, m) {
        ComingBackNeverEnds(variants, name, m, n);
      }
      assert NeverEnds(variants, name);
    }
  }

  lemma {:induction false} OnlyEnd(variants: Variants, name: string, x: string, n: nat)
    requires Leads(variants, name, x, n) && Terminal(variants, x)
    ensures forall y, k: nat | Leads(variants, name, y, k) && Terminal(variants, y) :: y == x
  {
    forall y, k: nat | Leads(variants, name, y, k) && Terminal(variants, y) ensures y == x {
      OneTerminal(variants, name, x, n, y, k);
    }
  }
}
