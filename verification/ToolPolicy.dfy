/** The registry of read-only tools and the fail-closed policy decision for one call. */
module ToolPolicy {
  import opened Wrappers

  type Id = nat

  const REGISTRY_VERSION := "agent-tools-v1"
  const MAX_TIMEOUT_SECONDS := 15
  const MAX_OUTPUT_BYTES := 65536

  datatype ToolId = ToolId(name: string, version: int)

  datatype ScopeMode = ExactRunScope | OperatorAggregate

  datatype ToolInput = ToolInput(projectId: Option<Id>, lexical: bool, payload: string)

  /** `accepts` stands for the strict input schema. */
  datatype ToolDefinition = ToolDefinition(
    accepts: ToolInput -> bool, scope: ScopeMode, conditionalProvider: bool,
    timeoutSeconds: nat, callsPerRun: nat, maxOutputBytes: nat, pureRead: bool)

  type Registry = map<ToolId, ToolDefinition>

  datatype PolicyCode =
    | RegistryVersionMismatch | UnknownTool | InvalidToolVersion | InvalidInput | AuthorityDenied
    | ScopeDenied | OperatorCapabilityDenied | ProviderUnavailable
    | TotalBudgetExhausted | ToolBudgetExhausted | InvalidRegistryDefinition

  /** What a call captures from its Run. */
  datatype Captured = Captured(registryVersion: string, project: Option<Id>, toolCallBudget: int)

  /** `resolve_tool_policy`: `None` accepts the call. */
  function Rejection(reg: Registry, tool: ToolId, authority: string, input: ToolInput, captured: Captured,
                     total: int, perTool: int, provider: bool): Option<PolicyCode> {
    if captured.registryVersion != REGISTRY_VERSION then Some(RegistryVersionMismatch)
    else if tool.version < 1 then Some(InvalidToolVersion)
    else if tool !in reg then Some(UnknownTool)
    else if authority != "read" then Some(AuthorityDenied)
    else
      var d := reg[tool];
      if !d.accepts(input) then Some(InvalidInput)
      else if tool.name == "project.get" && (captured.project.None? || input.projectId != captured.project)
      then Some(ScopeDenied)
      else if d.scope.OperatorAggregate? then Some(OperatorCapabilityDenied)
      else if d.conditionalProvider && !(tool.name == "memory.search_explained" && input.lexical) && !provider
      then Some(ProviderUnavailable)
      else if captured.toolCallBudget < 0 || total < 0 || total >= captured.toolCallBudget
      then Some(TotalBudgetExhausted)
      else if perTool < 0 || perTool >= d.callsPerRun then Some(ToolBudgetExhausted)
      else if d.timeoutSeconds > MAX_TIMEOUT_SECONDS || d.maxOutputBytes > MAX_OUTPUT_BYTES
      then Some(InvalidRegistryDefinition)
      else None
  }

  /**
   A call accepted once is accepted again as long as both counters stay below their limits, however much
   else the Run called in between and with any provider that is at least as available as it was.
   */
  lemma AcceptedWithinBudgets(reg: Registry, tool: ToolId, input: ToolInput, captured: Captured, total: int, perTool: int,
                              provider: bool, total': int, perTool': int, provider': bool)
    requires Rejection(reg, tool, "read", input, captured, total, perTool, provider).None?
    requires provider ==> provider'
    ensures tool in reg
    ensures Rejection(reg, tool, "read", input, captured, total', perTool', provider')
            == if total' < 0 || total' >= captured.toolCallBudget then Some(TotalBudgetExhausted)
               else if perTool' < 0 || perTool' >= reg[tool].callsPerRun then Some(ToolBudgetExhausted)
               else None
  {
  }

  /** What the input, the Run and the provider must be for a call, whatever was called before. */
  predicate Permitted(reg: Registry, tool: ToolId, input: ToolInput, captured: Captured, provider: bool) {
    && captured.registryVersion == "agent-tools-v1"
    && tool in reg && tool.version >= 1 && reg[tool].accepts(input)
    && (tool.name == "project.get" ==> captured.project.Some? && input.projectId == captured.project)
    && reg[tool].scope.ExactRunScope?
    && (reg[tool].conditionalProvider ==> provider || (tool.name == "memory.search_explained" && input.lexical))
    && reg[tool].timeoutSeconds <= 15 && reg[tool].maxOutputBytes <= 65536
  }

  /** Nothing else is accepted, and all of it is while calls are left. */
  lemma AcceptedIff(reg: Registry, tool: ToolId, authority: string, input: ToolInput, captured: Captured,
                    total: nat, perTool: nat, provider: bool)
    ensures Rejection(reg, tool, authority, input, captured, total, perTool, provider).None?
            <==> authority == "read" && Permitted(reg, tool, input, captured, provider)
                 && total < captured.toolCallBudget && perTool < reg[tool].callsPerRun
  {
  }

  // ----- the fixed registry -----

  const PROJECT_GET := ToolId("project.get", 1)
  const MEMORY_GET := ToolId("memory.get", 1)
  const MEMORY_SEARCH := ToolId("memory.search_explained", 1)
  const SOURCE_GET := ToolId("source.get", 1)
  const SOURCE_CHUNK_GET := ToolId("source_chunk.get", 1)
  const DIAGNOSTICS := ToolId("operations.diagnostics", 1)
  const AUDIT := ToolId("maintenance.audit", 1)

  function Definition(accepts: ToolInput -> bool, scope: ScopeMode, conditionalProvider: bool): ToolDefinition {
    ToolDefinition(accepts, scope, conditionalProvider, 10, 5, 65536, true)
  }

  /** `AGENT_TOOL_REGISTRY`; `schema` gives each tool's input schema. */
  function FixedRegistry(schema: ToolId -> ToolInput -> bool): Registry {
    map[PROJECT_GET := Definition(schema(PROJECT_GET), ExactRunScope, false),
        MEMORY_GET := Definition(schema(MEMORY_GET), ExactRunScope, false),
        MEMORY_SEARCH := Definition(schema(MEMORY_SEARCH), ExactRunScope, true),
        SOURCE_GET := Definition(schema(SOURCE_GET), ExactRunScope, false),
        SOURCE_CHUNK_GET := Definition(schema(SOURCE_CHUNK_GET), ExactRunScope, false),
        DIAGNOSTICS := Definition(schema(DIAGNOSTICS), OperatorAggregate, false),
        AUDIT := Definition(schema(AUDIT), OperatorAggregate, false)]
  }

  /**
   What a Run may call with the fixed registry: its own Project, single memories, sources and chunks by
   identifier, and the explained search, which needs a provider unless it is lexical; five times each.
   */
  lemma FixedRegistryCalls(schema: ToolId -> ToolInput -> bool, tool: ToolId, input: ToolInput, captured: Captured,
                           total: nat, perTool: nat, provider: bool)
    ensures Rejection(FixedRegistry(schema), tool, "read", input, captured, total, perTool, provider).None?
            <==> && captured.registryVersion == "agent-tools-v1" && tool.version == 1 && schema(tool)(input)
                 && total < captured.toolCallBudget && perTool < 5
                 && ((tool.name == "project.get" && captured.project.Some? && input.projectId == captured.project)
                     || tool.name == "memory.get" || tool.name == "source.get" || tool.name == "source_chunk.get"
                     || (tool.name == "memory.search_explained" && (input.lexical || provider)))
  {
    var reg := FixedRegistry(schema);
    AcceptedIff(reg, tool, "read", input, captured, total, perTool, provider);
    hide Rejection;
    assert tool in reg <==> (
      tool.version == 1
      && tool.name in {"project.get", "memory.get", "memory.search_explained", "source.get", "source_chunk.get",
                       "operations.diagnostics", "maintenance.audit"});
  }
}
