/** The cluster objects of one InferenceService, and what one pass of the operator
    makes of them when every call succeeds and every read is up to date. */
module ClusterState {
  import opened Wrappers
  import opened ServerSideApply
  import opened Resources
  import opened DeploymentApply

  datatype Kind = ClaimTemplateKind | DeploymentKind | ServiceKind | ScaledObjectKind | InferencePoolKind

  datatype Item = Item(content: Stored, deleting: bool)

  type Cluster = map<Kind, Item>

  // Which optional kinds the API server knows, and the operator's start-up flag.
  datatype Env = Env(keda: bool, pools: bool, prometheusAddress: string)

  predicate Installed(env: Env, k: Kind) {
    (k == ScaledObjectKind ==> env.keda) && (k == InferencePoolKind ==> env.pools)
  }

  function DefaultsOf(k: Kind): Config {
    if k == DeploymentKind then DEFAULTS else map[]
  }

  // What one spec asks of the cluster: the configuration of each kind, the kinds
  // it wants, and the values the operator compares against.
  datatype Plan = Plan(
    configs: map<Kind, Config>,
    wanted: set<Kind>,
    initial: Config,
    selector: Value,
    owner: Value,
    scales: bool)

  function PlanOf(svc: InferenceService, env: Env): Plan {
    Plan(
      map[
        ClaimTemplateKind := DesiredClaimTemplate(svc),
        DeploymentKind := DesiredDeployment(svc),
        ServiceKind := DesiredService(svc),
        ScaledObjectKind := DesiredScaledObject(svc, env.prometheusAddress),
        InferencePoolKind := DesiredInferencePool(svc)],
      {DeploymentKind, ServiceKind}
      + (if svc.spec.deviceClass != "" then {ClaimTemplateKind} else {})
      + (if svc.spec.backend != Ollama && env.keda then {ScaledObjectKind} else {})
      + (if env.pools then {InferencePoolKind} else {}),
      InitialReplicas(svc),
      Labels(SelectorLabels(svc)),
      Controller(svc.uid),
      svc.spec.backend != Ollama)
  }

  // What the proofs need to know of a plan; PlanOf always gives it.
  predicate Sound(p: Plan) {
    && (forall k: Kind :: k in p.configs)
    && DeploymentKind in p.wanted && ServiceKind in p.wanted
    && (ScaledObjectKind in p.wanted ==> p.scales)
    && Selector in p.configs[DeploymentKind] && p.configs[DeploymentKind][Selector] == p.selector
    && Selector !in p.initial
  }

  lemma PlanIsSound(svc: InferenceService, env: Env)
    ensures Sound(PlanOf(svc, env))
  {
    DeploymentIsComplete(svc, Selector);
    forall k: Kind
      ensures k in PlanOf(svc, env).configs
    {
      match k
      case ClaimTemplateKind =>
      case DeploymentKind =>
      case ServiceKind =>
      case ScaledObjectKind =>
      case InferencePoolKind =>
    }
  }

  // Every object has the service as its controller and carries its four labels.
  lemma EveryObjectIsOurs(svc: InferenceService, env: Env, k: Kind, key: LabelKey)
    ensures Sound(PlanOf(svc, env))
    ensures var config := PlanOf(svc, env).configs[k];
      && OwnerReference in config && config[OwnerReference] == Controller(svc.uid)
      && ObjectLabel(key) in config && config[ObjectLabel(key)] == LabelValue(svc, key)
  {
    PlanIsSound(svc, env);
    DeploymentIsComplete(svc, OwnerReference);
    DeploymentIsComplete(svc, ObjectLabel(key));
    ServiceFields(svc, OwnerReference);
    ServiceFields(svc, ObjectLabel(key));
    OtherFields(svc, env.prometheusAddress, OwnerReference);
    OtherFields(svc, env.prometheusAddress, ObjectLabel(key));
    hide DesiredDeployment, DesiredService, DesiredInferencePool, DesiredScaledObject, DesiredClaimTemplate, Sound;
  }

  lemma OtherFields(svc: InferenceService, prometheusAddress: string, f: Field)
    ensures var s, v := DesiredScaledObject(svc, prometheusAddress), ScaledObjectValue(svc, prometheusAddress, f);
      (f in s <==> f in FIELDS && v.Some?) && (f in s ==> s[f] == v.value)
    ensures var t, v := DesiredClaimTemplate(svc), ClaimTemplateValue(svc, f);
      (f in t <==> f in FIELDS && v.Some?) && (f in t ==> t[f] == v.value)
  {
    hide ScaledObjectValue, ClaimTemplateValue;
  }

  // The kinds a spec wants.
  lemma WantedIff(svc: InferenceService, env: Env, k: Kind)
    ensures k in PlanOf(svc, env).wanted <==>
              || k == DeploymentKind || k == ServiceKind
              || (k == ClaimTemplateKind && svc.spec.deviceClass != "")
              || (k == ScaledObjectKind && svc.spec.backend == VLLM && env.keda)
              || (k == InferencePoolKind && env.pools)
  {
    hide DesiredDeployment, DesiredService, DesiredInferencePool, DesiredScaledObject, DesiredClaimTemplate;
  }

  // Each kind's configuration is that kind's: only the Deployment's has pod
  // labels, only the Service's has service ports, and so on.
  lemma EachKindIsItself(svc: InferenceService, env: Env, k: Kind)
    ensures Sound(PlanOf(svc, env))
    ensures var config := PlanOf(svc, env).configs[k];
      && (Setting(DeviceClassName) in config <==> k == ClaimTemplateKind)
      && (PodLabel(InstanceLabel) in config <==> k == DeploymentKind)
      && (Setting(ServicePorts) in config <==> k == ServiceKind)
      && (Setting(ScaleTarget) in config <==> k == ScaledObjectKind)
      && (Setting(TargetPorts) in config <==> k == InferencePoolKind)
  {
    hide PlanOf, Sound;
    OwnServing(svc, env, k);
    OwnScaling(svc, env, k);
    LabelIsAField(InstanceLabel);
    ListsOwn(svc, env, k, PodLabel(InstanceLabel));
  }

  lemma OwnServing(svc: InferenceService, env: Env, k: Kind)
    ensures Sound(PlanOf(svc, env))
    ensures var config := PlanOf(svc, env).configs[k];
      && (Setting(DeviceClassName) in config <==> k == ClaimTemplateKind)
      && (Setting(ServicePorts) in config <==> k == ServiceKind)
  {
    hide PlanOf, Sound;
    SettingIsAField(DeviceClassName);
    ListsOwn(svc, env, k, Setting(DeviceClassName));
    SettingIsAField(ServicePorts);
    ListsOwn(svc, env, k, Setting(ServicePorts));
  }

  lemma OwnScaling(svc: InferenceService, env: Env, k: Kind)
    ensures Sound(PlanOf(svc, env))
    ensures var config := PlanOf(svc, env).configs[k];
      && (Setting(ScaleTarget) in config <==> k == ScaledObjectKind)
      && (Setting(TargetPorts) in config <==> k == InferencePoolKind)
  {
    hide PlanOf, Sound;
    SettingIsAField(ScaleTarget);
    ListsOwn(svc, env, k, Setting(ScaleTarget));
    SettingIsAField(TargetPorts);
    ListsOwn(svc, env, k, Setting(TargetPorts));
  }

  lemma LabelIsAField(key: LabelKey)
    ensures PodLabel(key) in FIELDS
  {
  }

  lemma ListsOwn(svc: InferenceService, env: Env, k: Kind, f: Field)
    requires f in FIELDS
    ensures Sound(PlanOf(svc, env))
    ensures var config, v := PlanOf(svc, env).configs[k], OwnValue(svc, env, k, f);
      (f in config <==> v.Some?) && (f in config ==> config[f] == v.value)
  {
    PlanIsSound(svc, env);
    DeploymentIsComplete(svc, f);
    ServiceFields(svc, f);
    OtherFields(svc, env.prometheusAddress, f);
    hide DesiredDeployment, DesiredService, DesiredInferencePool, DesiredScaledObject, DesiredClaimTemplate, Sound;
    hide DeploymentValue, ServiceValue, InferencePoolValue, ScaledObjectValue, ClaimTemplateValue;
  }

  function OwnValue(svc: InferenceService, env: Env, k: Kind, f: Field): Option<Value> {
    match k
    case ClaimTemplateKind => ClaimTemplateValue(svc, f)
    case DeploymentKind => DeploymentValue(svc, f)
    case ServiceKind => ServiceValue(svc, f)
    case ScaledObjectKind => ScaledObjectValue(svc, env.prometheusAddress, f)
    case InferencePoolKind => InferencePoolValue(svc, f)
  }

  // Every stored object obeys the ownership record.
  predicate Well(c: Cluster) {
    forall k | k in c :: Valid(c[k].content)
  }

  function Content(c: Cluster, k: Kind): Stored {
    if k in c then c[k].content else EMPTY
  }

  // One accepted apply. An object that is being deleted stays so.
  function Put(c: Cluster, k: Kind, m: Manager, config: Config): Cluster {
    c[k := Item(Merge(Content(c, k), m, config, DefaultsOf(k)), k in c && c[k].deleting)]
  }

  function Ensure(c: Cluster, p: Plan, k: Kind): Cluster
    requires k in p.configs
  {
    Put(c, k, MAIN, p.configs[k])
  }

  function Mark(c: Cluster, k: Kind): Cluster {
    if k in c then c[k := c[k].(deleting := true)] else c
  }

  predicate Controlled(c: Cluster, p: Plan, k: Kind) {
    k in c && OwnerReference in c[k].content.values && c[k].content.values[OwnerReference] == p.owner
  }

  function DropIfOwned(c: Cluster, p: Plan, k: Kind): Cluster {
    if Controlled(c, p, k) then Mark(c, k) else c
  }

  datatype DeploymentState = Absent | BeingDeleted | WrongSelector | Usable

  function DeploymentIn(c: Cluster, p: Plan): DeploymentState {
    if DeploymentKind !in c then Absent
    else if c[DeploymentKind].deleting then BeingDeleted
    else
      var v := c[DeploymentKind].content.values;
      if Selector !in v || v[Selector] != p.selector then WrongSelector else Usable
  }

  datatype Violation = RestrictedNeedsDevice | OllamaNotForRestricted | VllmNeedsDevice

  function PolicyViolation(svc: InferenceService): Option<Violation> {
    if svc.spec.classification == Restricted && svc.spec.deviceClass == "" then Some(RestrictedNeedsDevice)
    else if svc.spec.backend == Ollama && svc.spec.classification == Restricted then Some(OllamaNotForRestricted)
    else if svc.spec.backend != Ollama && svc.spec.deviceClass == "" then Some(VllmNeedsDevice)
    else None
  }

  // A spec is refused exactly when it is Restricted and names no device class or
  // runs on Ollama, or when it runs on vLLM and names no device class; the reason
  // is the first of the three that applies.
  lemma PolicyMeans(svc: InferenceService)
    ensures var s, v := svc.spec, PolicyViolation(svc);
      && (v.Some? <==>
            (s.classification == Restricted && (s.deviceClass == "" || s.backend == Ollama))
            || (s.backend == VLLM && s.deviceClass == ""))
      && (v == Some(RestrictedNeedsDevice) <==> s.classification == Restricted && s.deviceClass == "")
      && (v == Some(OllamaNotForRestricted) <==>
            s.classification == Restricted && s.backend == Ollama && s.deviceClass != "")
      && (v == Some(VllmNeedsDevice) <==>
            s.classification != Restricted && s.backend == VLLM && s.deviceClass == "")
  {
  }

  function AfterTemplate(c: Cluster, p: Plan): Cluster
    requires Sound(p)
  {
    if ClaimTemplateKind in p.wanted then Ensure(c, p, ClaimTemplateKind)
    else DropIfOwned(c, p, ClaimTemplateKind)
  }

  // Creation is two applies under two names.
  function AfterCreate(c: Cluster, p: Plan): Cluster
    requires Sound(p)
  {
    Put(Ensure(c, p, DeploymentKind), DeploymentKind, INITIAL, p.initial)
  }

  function AfterDeployment(c: Cluster, p: Plan): Cluster
    requires Sound(p)
  {
    match DeploymentIn(c, p)
    case Absent => Ensure(AfterCreate(c, p), p, DeploymentKind)
    case Usable => Ensure(c, p, DeploymentKind)
    case BeingDeleted => c
    case WrongSelector => Mark(c, DeploymentKind)
  }

  function AfterAutoscaling(c: Cluster, p: Plan): Cluster
    requires Sound(p)
  {
    if !p.scales then DropIfOwned(c, p, ScaledObjectKind)
    else if ScaledObjectKind in p.wanted then Ensure(c, p, ScaledObjectKind)
    else c
  }

  function AfterRouting(c: Cluster, p: Plan): Cluster
    requires Sound(p)
  {
    if InferencePoolKind in p.wanted then Ensure(c, p, InferencePoolKind) else c
  }

  // The pass goes on past the Deployment only when there is one to use.
  predicate Proceeds(c: Cluster, p: Plan)
    requires Sound(p)
  {
    var d := DeploymentIn(AfterTemplate(c, p), p);
    d == Absent || d == Usable
  }

  // One pass for an accepted spec.
  function Pass(c: Cluster, p: Plan): Cluster
    requires Sound(p)
  {
    var c2 := AfterDeployment(AfterTemplate(c, p), p);
    if Proceeds(c, p) then AfterRouting(AfterAutoscaling(Ensure(c2, p, ServiceKind), p), p) else c2
  }

  // Every pending deletion completes.
  function Finish(c: Cluster): Cluster {
    map k | k in c && !c[k].deleting :: c[k]
  }
}
