/** Runtime bounds of the tools, where they come from, and the checks a call
    passes before it asks for a permit. */
module ToolConfig {
  import opened Prelude

  datatype DefaultPolicy = Deny | Allow

  datatype ToolLimits = ToolLimits(enabled: bool, timeoutMs: nat, maxConcurrent: nat)

  datatype RuntimeConfig = RuntimeConfig(
    maxQueue: nat,
    queueTimeoutMs: nat,
    maxConcurrentGlobal: nat,
    defaultTimeoutMs: nat,
    defaultMaxConcurrent: nat,
    defaultPolicy: DefaultPolicy,
    tools: map<string, ToolLimits>)

  /** The `tools` section of a policy file; its counts are 32-bit. */
  newtype u32 = n: int | 0 <= n < 0x1_0000_0000
  datatype PolicyEntry = PolicyEntry(enabled: bool, timeoutMs: nat, maxConcurrent: u32)
  datatype ToolsPolicy = ToolsPolicy(
    allowlist: map<string, PolicyEntry>,
    defaultPolicy: DefaultPolicy,
    maxConcurrentGlobal: Option<u32>)

  const USIZE_MAX: nat := 0xFFFF_FFFF_FFFF_FFFF

  function SaturatingMul(a: nat, b: nat): nat {
    if a * b <= USIZE_MAX then a * b else USIZE_MAX
  }

  function Max(a: nat, b: nat): nat { if a < b then b else a }

  function LimitsOf(entry: PolicyEntry): ToolLimits {
    ToolLimits(entry.enabled, entry.timeoutMs, entry.maxConcurrent as nat)
  }

  /** Runtime bounds from the policy file. Every allow-list entry is carried over
      and nothing else, and the queue has room for four times as many calls as
      may run, so a full set of running calls never fills it. */
  method FromRbacPolicy(policy: Option<ToolsPolicy>) returns (cfg: Option<RuntimeConfig>)
    ensures cfg.Some? <==> policy.Some?
    ensures cfg.Some? ==>
      && cfg.value.tools.Keys == policy.value.allowlist.Keys
      && (forall t :: t in cfg.value.tools ==>
            var limits, entry := cfg.value.tools[t], policy.value.allowlist[t];
            && limits.enabled == entry.enabled && limits.timeoutMs == entry.timeoutMs
            && limits.maxConcurrent == entry.maxConcurrent as nat)
      && cfg.value.defaultPolicy == policy.value.defaultPolicy
      && cfg.value.maxConcurrentGlobal == policy.value.maxConcurrentGlobal.GetOr(32) as nat
      && cfg.value.maxQueue >= 4 * cfg.value.maxConcurrentGlobal
      && cfg.value.maxQueue >= 8
      && cfg.value.maxQueue > cfg.value.maxConcurrentGlobal
      && (cfg.value.maxQueue == 8 || cfg.value.maxQueue == 4 * cfg.value.maxConcurrentGlobal)
      && cfg.value.queueTimeoutMs == 2000
      && cfg.value.defaultTimeoutMs == 30000
      && cfg.value.defaultMaxConcurrent == 8
  {
    if policy.None? {
      return None;
    }
    var allowlist := policy.value.allowlist;
    var tools: map<string, ToolLimits> := map[];
    var rest := allowlist.Keys;
    while rest != {}
      invariant rest <= allowlist.Keys
      invariant tools.Keys == allowlist.Keys - rest
      invariant forall t :: t in tools ==> tools[t] == LimitsOf(allowlist[t])
      decreases rest
    {
      var name :| name in rest;
      tools := tools[name := LimitsOf(allowlist[name])];
      rest := rest - {name};
    }
    var global := policy.value.maxConcurrentGlobal.GetOr(32) as nat;
    cfg := Some(RuntimeConfig(Max(8, SaturatingMul(global, 4)), 2000, global, 30000, 8,
                              policy.value.defaultPolicy, tools));
  }

  // ---------------------------------------------------------------------
  // Screening: everything `execute` does before it touches a semaphore
  // ---------------------------------------------------------------------

  datatype Reason =
    | NotImplemented | Disabled | NotInAllowlist   // resolve_tool
    | ArgsInvalid | MissingBearer                  // validation
    | QueueFull                                    // admission
    | QueueTimeout | CancelledWaiting              // while waiting for permits

  /** A tool call, with the verdicts of argument validation and the credentials
      it could forward upstream. The two environment tokens are those the
      gateway falls back to. */
  datatype Request = Request(
    tool: string,
    argsValid: bool,
    requireBearer: bool,
    authorization: bool,
    cookie: bool,
    primaryToken: Option<string>,
    secondaryToken: Option<string>)

  /** The gateway's build: which tools it implements, under which bounds, and
      whether an audit log is attached. */
  datatype System = System(cfg: RuntimeConfig, supported: set<string>, audited: bool)

  function ResolveTool(sys: System, tool: string): Option<Reason> {
    if tool !in sys.supported then Some(NotImplemented)
    else if tool in sys.cfg.tools then
      if sys.cfg.tools[tool].enabled then None else Some(Disabled)
    else if sys.cfg.defaultPolicy.Deny? then Some(NotInAllowlist)
    else None
  }

  /** The token of the first variable that is set is used, and a blank one is no token. */
  predicate HasCredential(req: Request) {
    || req.authorization
    || req.cookie
    || (if req.primaryToken.Some? then Trim(req.primaryToken.value) != ""
        else req.secondaryToken.Some? && Trim(req.secondaryToken.value) != "")
  }

  function Screen(sys: System, req: Request): Option<Reason> {
    var resolved := ResolveTool(sys, req.tool);
    if resolved.Some? then resolved
    else if !req.argsValid then Some(ArgsInvalid)
    else if req.requireBearer && !HasCredential(req) then Some(MissingBearer)
    else None
  }

  /** The allow-list, or the default for tools it does not name, lets the tool run. */
  predicate MayRun(sys: System, tool: string) {
    tool in sys.supported && if tool in sys.cfg.tools then sys.cfg.tools[tool].enabled else sys.cfg.defaultPolicy.Allow?
  }

  /** Neither the caller nor the environment has anything to authenticate upstream with: the first variable is asked
      first, and the second one only if the first is not set at all. */
  predicate NoCredential(req: Request) {
    && !req.authorization && !req.cookie
    && (req.primaryToken.Some? ==> Trim(req.primaryToken.value) == "")
    && (req.primaryToken.None? && req.secondaryToken.Some? ==> Trim(req.secondaryToken.value) == "")
  }

  /** Why a call is refused before it asks for a permit, said of the configuration and the request themselves. */
  ghost predicate RefusedFor(sys: System, req: Request, reason: Reason) {
    match reason
    case NotImplemented => req.tool !in sys.supported
    case Disabled => req.tool in sys.supported && req.tool in sys.cfg.tools && !sys.cfg.tools[req.tool].enabled
    case NotInAllowlist => req.tool in sys.supported && req.tool !in sys.cfg.tools && sys.cfg.defaultPolicy == Deny
    case ArgsInvalid => MayRun(sys, req.tool) && !req.argsValid
    case MissingBearer => MayRun(sys, req.tool) && req.argsValid && req.requireBearer && NoCredential(req)
    case QueueFull => false
    case QueueTimeout => false
    case CancelledWaiting => false
  }

  /** The screening refuses a call for a reason exactly when that reason is there, and passes it when none is. */
  lemma ScreenIff(sys: System, req: Request, reason: Reason)
    ensures Screen(sys, req) == Some(reason) <==> RefusedFor(sys, req, reason)
    ensures Screen(sys, req).None? <==>
            MayRun(sys, req.tool) && req.argsValid && (req.requireBearer ==> !NoCredential(req))
  {
  }

  /** What the configuration says about a tool, or about tools it does not name. */
  function Limit(cfg: RuntimeConfig, tool: string): nat {
    if tool in cfg.tools then cfg.tools[tool].maxConcurrent else cfg.defaultMaxConcurrent
  }

  /** Size of a tool's semaphore. A limit of 0 does not shut a tool off. */
  function Permits(cfg: RuntimeConfig, tool: string): (n: nat)
    ensures n >= 1
    ensures Limit(cfg, tool) >= 1 ==> n == Limit(cfg, tool)
    ensures Limit(cfg, tool) == 0 ==> n == 1
  {
    Max(1, Limit(cfg, tool))
  }
}
