/** The tool policy: a chain of strategies that ends in the YAML rules. */
module Policy {
  import opened Wrappers
  import opened RunModel
  import opened Approvals
  import opened Text

  datatype UnknownToolMode = AllowUnknown | AuditUnknown | DenyUnknown

  datatype ServerRule = ServerRule(default: Decision, unknownToolMode: UnknownToolMode)

  datatype GovernanceConfig = GovernanceConfig(
    site: ServerRule, mcp: map<string, ServerRule>, tools: map<string, Decision>)

  datatype ToolContext = ToolContext(
    projectId: string, mcpServer: string, toolName: string, arguments: string, toolKnown: bool,
    runId: string, uid: string, chatId: Option<string>)

  datatype Evaluation = Evaluation(decision: Decision, matchedRule: string)

  /** A strategy answers or abstains. */
  type Strategy = ToolContext -> Option<Evaluation>

  function UnknownToolDecision(mode: UnknownToolMode, scope: string): Option<Evaluation> {
    match mode
    case AllowUnknown => None
    case DenyUnknown => Some(Evaluation(Deny, "unknown_tool." + scope))
    case AuditUnknown => Some(Evaluation(Allow, "unknown_tool.audit." + scope))
  }

  /** The rule of a server or of the whole site, with what it says of unregistered tools first. */
  function RuleEvaluation(rule: ServerRule, known: bool, scope: string, name: string): Evaluation {
    var unknown := if known then None else UnknownToolDecision(rule.unknownToolMode, scope);
    if unknown.Some? then unknown.value else Evaluation(rule.default, name)
  }

  function YamlEvaluate(config: GovernanceConfig, ctx: ToolContext): Evaluation {
    var tool, server := Strip(ctx.toolName), Strip(ctx.mcpServer);
    if tool in config.tools then Evaluation(config.tools[tool], "tools." + tool)
    else if server != "" && server in config.mcp then
      RuleEvaluation(config.mcp[server], ctx.toolKnown, server, "mcp." + server + ".default")
    else
      RuleEvaluation(config.site, ctx.toolKnown, if server != "" then server else "global", "global.default")
  }

  /** The governance of a deployment: custom strategies before the YAML rules, and the tools
      registered for each (project, server) when there is a registry. */
  datatype Governance = Governance(
    extra: seq<Strategy>, config: GovernanceConfig, registry: Option<map<(string, string), set<string>>>)

  function Chain(gov: Governance): seq<Strategy> {
    gov.extra + [ctx => Some(YamlEvaluate(gov.config, ctx))]
  }

  const DEFAULT_ALLOW := Evaluation(Allow, "default.allow")

  /** ToolGovernanceEngine.evaluate: the first strategy that answers decides. */
  method EvaluateChain(strategies: seq<Strategy>, ctx: ToolContext) returns (e: Evaluation)
    ensures e == FirstAnswer(strategies, ctx)
  {
    for i := 0 to |strategies|
      invariant FirstAnswer(strategies, ctx) == FirstAnswer(strategies[i..], ctx)
    {
      var r := strategies[i](ctx);
      if r.Some? { return r.value; }
      assert strategies[i..][1..] == strategies[i + 1..];
    }
    e := DEFAULT_ALLOW;
  }

  function FirstAnswer(strategies: seq<Strategy>, ctx: ToolContext): Evaluation {
    if strategies == [] then DEFAULT_ALLOW
    else if strategies[0](ctx).Some? then strategies[0](ctx).value
    else FirstAnswer(strategies[1..], ctx)
  }

  function Verdict(gov: Governance, ctx: ToolContext): Evaluation { FirstAnswer(Chain(gov), ctx) }

  /** The chain's answer is that of the first custom strategy that answers, else that of the YAML
      rules; the default of the chain is never reached. */
  lemma {:induction false} FirstMatchDecides(gov: Governance, ctx: ToolContext, i: nat)
    requires i <= |gov.extra|
    requires forall j :: 0 <= j < i ==> gov.extra[j](ctx).None?
    requires i < |gov.extra| ==> gov.extra[i](ctx).Some?
    ensures Verdict(gov, ctx) == if i < |gov.extra| then gov.extra[i](ctx).value else YamlEvaluate(gov.config, ctx)
    decreases i
  {
    var c := Chain(gov);
    if i > 0 {
      var rest := gov.(extra := gov.extra[1..]);
      assert c[0] == gov.extra[0];
      assert c[1..] == Chain(rest);
      FirstMatchDecides(rest, ctx, i - 1);
    }
  }

  /** What each source of rules says of a call, the most specific first: a rule for the tool, the
      unknown-tool mode of its server or else of the site, the default of the same. */
  function Sources(config: GovernanceConfig, ctx: ToolContext): seq<Option<Decision>> {
    var tool, server := Strip(ctx.toolName), Strip(ctx.mcpServer);
    var own := server != "" && server in config.mcp;
    var scope := if own then config.mcp[server] else config.site;
    [ if tool in config.tools then Some(config.tools[tool]) else None,
      if ctx.toolKnown || scope.unknownToolMode == AllowUnknown then None
      else Some(if scope.unknownToolMode == DenyUnknown then Deny else Allow),
      Some(scope.default) ]
  }

  function FirstSaid(sources: seq<Option<Decision>>): Option<Decision> {
    if sources == [] then None else if sources[0].Some? then sources[0] else FirstSaid(sources[1..])
  }

  /** The YAML rules decide by the most specific source that says anything, and name it. */
  lemma MostSpecificDecides(config: GovernanceConfig, ctx: ToolContext)
    ensures FirstSaid(Sources(config, ctx)) == Some(YamlEvaluate(config, ctx).decision)
    ensures YamlEvaluate(config, ctx).matchedRule == "tools." + Strip(ctx.toolName) || Sources(config, ctx)[0].None?
  {
    var s := Sources(config, ctx);
    assert s[1..] == [s[1], s[2]] && s[1..][1..] == [s[2]];
    assert FirstSaid([s[2]]) == s[2];
    assert FirstSaid(s[1..]) == if s[1].Some? then s[1] else s[2];
  }

  /** Registering a tool changes the YAML decision exactly as the unknown-tool mode says: under
      `audit` an unregistered tool is allowed even where registered ones are denied. */
  lemma UnknownToolsDiffer(config: GovernanceConfig, ctx: ToolContext)
    requires Strip(ctx.toolName) !in config.tools
    ensures var server := Strip(ctx.mcpServer);
            var rule := if server != "" && server in config.mcp then config.mcp[server] else config.site;
            YamlEvaluate(config, ctx.(toolKnown := false)).decision
              == YamlEvaluate(config, ctx.(toolKnown := true)).decision
            <==>
            (rule.unknownToolMode == AllowUnknown
             || rule.default == (if rule.unknownToolMode == DenyUnknown then Deny else Allow))
  {
  }

  /** _is_known_tool */
  function IsKnownTool(gov: Governance, pid: string, server: string, tool: string): bool {
    if gov.registry.None? || Strip(server) == "" then true
    else
      var r := gov.registry.value;
      if (pid, server) !in r || r[(pid, server)] == {} then true else tool in r[(pid, server)]
  }

  function WithRegistry(gov: Governance, ctx: ToolContext): ToolContext {
    ctx.(toolKnown := IsKnownTool(gov, ctx.projectId, ctx.mcpServer, ctx.toolName))
  }
}
