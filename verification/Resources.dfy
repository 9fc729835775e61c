/** The objects the operator wants for one InferenceService, each as the exact set
    of fields it applies. Text that the source builds with a number formatter is
    kept as the number itself. */
module Resources {
  import opened Wrappers
  import opened ServerSideApply

  datatype Backend = VLLM | Ollama

  datatype Classification = Public | Internal | Restricted

  datatype Spec = Spec(
    model: string,
    backend: Backend,
    classification: Classification,
    maxModelLen: int,
    gpuMemoryUtilization: int,
    deviceClass: string,
    minDeviceMemory: Option<string>,
    modelCacheClaimName: string,
    weightLoadSeconds: int,
    minReplicas: int,
    maxReplicas: int,
    queueDepthTarget: int,
    kvCacheUsagePercent: int,
    ttftP95Milliseconds: int)

  datatype InferenceService =
    InferenceService(name: string, namespace: string, uid: string, generation: int, spec: Spec)

  datatype Probe = Startup | Readiness | Liveness

  datatype ProbeLeaf = HttpPath | HttpPort | ExecCommand | Period | Timeout | FailureThreshold

  datatype LabelKey = NameLabel | InstanceLabel | BackendLabel | DataClassLabel

  datatype ContainerId = VllmContainerId | OllamaContainerId

  datatype VolumeId = ModelCacheVolumeId | SharedMemoryVolumeId

  datatype VolumeLeaf = VolumeName | ClaimSource | ScratchSource | ScratchMedium | ScratchSizeLimit

  datatype Annotation = Scrape | ScrapePort | ScrapePath

  // Fixed texts of the source: images, paths, flags, label values. Only which of
  // them a field has is used, never their letters.
  datatype Word =
    | VllmImage | OllamaImage | VllmName | OllamaName | Http
    | HuggingFaceCache | ModelsDirectory | SharedMemoryDirectory
    | ModelCache | SharedMemory | Cpu | Memory | HalfCore | TwoGibibytes | OneGibibyte
    | ServedModelName | MaxModelLen | GpuMemoryUtilization | PortFlag | MaxNumSeqs | Sixteen
    | ModelVariable | HostVariable | ModelsVariable | KeepAliveVariable | AnyAddress | OneDay
    | Shell | ShellCommand | OllamaServe | OllamaBinary | Show
    | HealthPath | RootPath | MetricsPath | True | Gpu | InferenceServiceWord
    | VllmBackend | OllamaBackend | PublicClass | InternalClass | RestrictedClass
    | ExactCount | NvidiaDriver | Tcp | Pods | InMemory

  datatype ContainerLeaf =
    | Name
    | Image
    | Command
    | Args
    | Env(variable: Word)
    | Port
    | Mount(path: Word)
    | Request(resource: Word)
    | UsesClaim
    | ProbeSetting(probe: Probe, leaf: ProbeLeaf)

  datatype Path =
    | DeviceClassName | AllocationMode | DeviceCount | DeviceSelectors
    | ServicePorts
    | ScaleTarget | MinReplicaCount | MaxReplicaCount
    | ScaleUpWindow | ScaleUpPolicies | ScaleDownWindow | ScaleDownPolicies | Triggers
    | TargetPorts

  // Every field the model tracks, of any of the five kinds of object. List
  // elements are addressed by their list key, as the API server merges them.
  datatype Field =
    | Replicas
    | OwnerReference
    | Selector
    | ObjectLabel(key: LabelKey)
    | PodLabel(key: LabelKey)
    | PodAnnotation(annotation: Annotation)
    | InContainer(container: ContainerId, leaf: ContainerLeaf)
    | InVolume(volume: VolumeId, setting: VolumeLeaf)
    | PodClaim
    | Setting(path: Path)

  datatype Value =
    | Text(text: string)
    | Fixed(word: Word)
    | Number(number: int)
    | List(values: seq<Value>)
    | Labels(labels: map<LabelKey, Value>)
    | Controller(uid: string)
    | TemplateOf(service: string)

  type Config = map<Field, Value>
  type Stored = Object<Field, Value>

  const SERVING_PORT := 8000
  const STARTUP_PERIOD := 10

  function BackendWord(b: Backend): Word {
    match b
    case VLLM => VllmBackend
    case Ollama => OllamaBackend
  }

  function ClassificationWord(c: Classification): Word {
    match c
    case Public => PublicClass
    case Internal => InternalClass
    case Restricted => RestrictedClass
  }

  function SelectorLabels(svc: InferenceService): map<LabelKey, Value> {
    map[NameLabel := Fixed(InferenceServiceWord), InstanceLabel := Text(svc.name)]
  }

  function LabelValue(svc: InferenceService, key: LabelKey): Value {
    match key
    case NameLabel => Fixed(InferenceServiceWord)
    case InstanceLabel => Text(svc.name)
    case BackendLabel => Fixed(BackendWord(svc.spec.backend))
    case DataClassLabel => Fixed(ClassificationWord(svc.spec.classification))
  }

  function StartupFailureThreshold(svc: InferenceService): int {
    // Integer division truncates toward zero.
    (if svc.spec.weightLoadSeconds >= 0 then svc.spec.weightLoadSeconds / STARTUP_PERIOD
     else -(-svc.spec.weightLoadSeconds / STARTUP_PERIOD)) + 1
  }

  // A probe's HTTP settings: path, port, period and failure threshold.
  function HttpProbe(leaf: ProbeLeaf, path: Word, period: int, failures: int): Option<Value> {
    match leaf
    case HttpPath => Some(Fixed(path))
    case HttpPort => Some(Number(SERVING_PORT))
    case Period => Some(Number(period))
    case FailureThreshold => Some(Number(failures))
    case _ => None
  }

  function VllmContainer(svc: InferenceService, leaf: ContainerLeaf): Option<Value> {
    match leaf
    case Name => Some(Fixed(VllmName))
    case Image => Some(Fixed(VllmImage))
    case Args => Some(List([
      Text(svc.spec.model),
      Fixed(ServedModelName), Text(svc.name),
      Fixed(MaxModelLen), Number(svc.spec.maxModelLen),
      Fixed(GpuMemoryUtilization), Number(svc.spec.gpuMemoryUtilization),
      Fixed(PortFlag), Number(SERVING_PORT),
      Fixed(MaxNumSeqs), Fixed(Sixteen)]))
    case Port => Some(List([Fixed(Http), Number(SERVING_PORT)]))
    case Mount(HuggingFaceCache) => Some(Fixed(ModelCache))
    case Mount(SharedMemoryDirectory) => Some(Fixed(SharedMemory))
    case ProbeSetting(Startup, l) => HttpProbe(l, HealthPath, STARTUP_PERIOD, StartupFailureThreshold(svc))
    case ProbeSetting(Readiness, l) => HttpProbe(l, HealthPath, 5, 3)
    case ProbeSetting(Liveness, l) => HttpProbe(l, HealthPath, 20, 3)
    case _ => None
  }

  function OllamaStartup(svc: InferenceService, leaf: ProbeLeaf): Option<Value> {
    match leaf
    case ExecCommand => Some(List([Fixed(OllamaBinary), Fixed(Show), Text(svc.spec.model)]))
    case Period => Some(Number(STARTUP_PERIOD))
    case Timeout => Some(Number(5))
    case FailureThreshold => Some(Number(StartupFailureThreshold(svc)))
    case _ => None
  }

  function OllamaContainer(svc: InferenceService, leaf: ContainerLeaf): Option<Value> {
    match leaf
    case Name => Some(Fixed(OllamaName))
    case Image => Some(Fixed(OllamaImage))
    case Command => Some(List([Fixed(Shell), Fixed(ShellCommand), Fixed(OllamaServe)]))
    case Env(ModelVariable) => Some(Text(svc.spec.model))
    case Env(HostVariable) => Some(List([Fixed(AnyAddress), Number(SERVING_PORT)]))
    case Env(ModelsVariable) => Some(Fixed(ModelsDirectory))
    case Env(KeepAliveVariable) => Some(Fixed(OneDay))
    case Port => Some(List([Fixed(Http), Number(SERVING_PORT)]))
    case Mount(ModelsDirectory) => Some(Fixed(ModelCache))
    case ProbeSetting(Startup, l) => OllamaStartup(svc, l)
    case ProbeSetting(Readiness, l) => HttpProbe(l, RootPath, 5, 3)
    case ProbeSetting(Liveness, l) => HttpProbe(l, RootPath, 20, 3)
    case _ => None
  }

  function ContainerName(svc: InferenceService): ContainerId {
    match svc.spec.backend
    case Ollama => OllamaContainerId
    case VLLM => VllmContainerId
  }

  function ContainerValue(svc: InferenceService, leaf: ContainerLeaf): Option<Value> {
    match leaf
    case Request(Cpu) => Some(Fixed(HalfCore))
    case Request(Memory) => Some(Fixed(TwoGibibytes))
    case UsesClaim => if svc.spec.deviceClass != "" then Some(Fixed(Gpu)) else None
    case _ =>
      match svc.spec.backend
      case Ollama => OllamaContainer(svc, leaf)
      case VLLM => VllmContainer(svc, leaf)
  }

  function VolumeValue(svc: InferenceService, volume: VolumeId, leaf: VolumeLeaf): Option<Value> {
    match (volume, leaf)
    case (ModelCacheVolumeId, VolumeName) => Some(Fixed(ModelCache))
    case (ModelCacheVolumeId, ClaimSource) =>
      if svc.spec.modelCacheClaimName != "" then Some(Text(svc.spec.modelCacheClaimName)) else None
    case (ModelCacheVolumeId, ScratchSource) =>
      if svc.spec.modelCacheClaimName != "" then None else Some(List([]))
    case (SharedMemoryVolumeId, VolumeName) =>
      if svc.spec.backend == Ollama then None else Some(Fixed(SharedMemory))
    case (SharedMemoryVolumeId, ScratchMedium) =>
      if svc.spec.backend == Ollama then None else Some(Fixed(InMemory))
    case (SharedMemoryVolumeId, ScratchSizeLimit) =>
      if svc.spec.backend == Ollama then None else Some(Fixed(OneGibibyte))
    case _ => None
  }

  // What each kind of object lists at one field, or nothing.

  function DeploymentValue(svc: InferenceService, f: Field): Option<Value> {
    match f
    case Replicas => None
    case OwnerReference => Some(Controller(svc.uid))
    case Selector => Some(Labels(SelectorLabels(svc)))
    case ObjectLabel(k) => Some(LabelValue(svc, k))
    case PodLabel(k) => Some(LabelValue(svc, k))
    case PodAnnotation(Scrape) => Some(Fixed(True))
    case PodAnnotation(ScrapePort) => Some(Number(SERVING_PORT))
    case PodAnnotation(ScrapePath) => Some(Fixed(MetricsPath))
    case InContainer(c, leaf) => if c == ContainerName(svc) then ContainerValue(svc, leaf) else None
    case InVolume(v, leaf) => VolumeValue(svc, v, leaf)
    case PodClaim => if svc.spec.deviceClass != "" then Some(TemplateOf(svc.name)) else None
    case Setting(_) => None
  }

  function ClaimTemplateValue(svc: InferenceService, f: Field): Option<Value> {
    match f
    case OwnerReference => Some(Controller(svc.uid))
    case ObjectLabel(k) => Some(LabelValue(svc, k))
    case Setting(DeviceClassName) => Some(Text(svc.spec.deviceClass))
    case Setting(AllocationMode) => Some(Fixed(ExactCount))
    case Setting(DeviceCount) => Some(Number(1))
    case Setting(DeviceSelectors) =>
      if svc.spec.minDeviceMemory.Some?
      then Some(List([Fixed(NvidiaDriver), Text(svc.spec.minDeviceMemory.value)])) else None
    case _ => None
  }

  function ServiceValue(svc: InferenceService, f: Field): Option<Value> {
    match f
    case OwnerReference => Some(Controller(svc.uid))
    case ObjectLabel(k) => Some(LabelValue(svc, k))
    case Selector => Some(Labels(SelectorLabels(svc)))
    case Setting(ServicePorts) =>
      Some(List([Fixed(Http), Fixed(Tcp), Number(SERVING_PORT), Number(SERVING_PORT)]))
    case _ => None
  }

  function Settle(svc: InferenceService): int {
    if svc.spec.weightLoadSeconds > 300 then svc.spec.weightLoadSeconds else 300
  }

  function ScaledObjectValue(svc: InferenceService, prometheusAddress: string, f: Field): Option<Value> {
    match f
    case OwnerReference => Some(Controller(svc.uid))
    case ObjectLabel(k) => Some(LabelValue(svc, k))
    case Setting(ScaleTarget) => Some(Text(svc.name))
    case Setting(MinReplicaCount) => Some(Number(svc.spec.minReplicas))
    case Setting(MaxReplicaCount) => Some(Number(svc.spec.maxReplicas))
    case Setting(ScaleUpWindow) => Some(Number(0))
    case Setting(ScaleUpPolicies) => Some(List([Fixed(Pods), Number(1), Number(60)]))
    case Setting(ScaleDownWindow) => Some(Number(Settle(svc)))
    case Setting(ScaleDownPolicies) => Some(List([Fixed(Pods), Number(1), Number(Settle(svc))]))
    case Setting(Triggers) => Some(List([
      Text(prometheusAddress), Text(svc.namespace), Text(svc.name),
      Number(svc.spec.queueDepthTarget),
      Number(svc.spec.kvCacheUsagePercent),
      Number(svc.spec.ttftP95Milliseconds)]))
    case _ => None
  }

  function InferencePoolValue(svc: InferenceService, f: Field): Option<Value> {
    match f
    case OwnerReference => Some(Controller(svc.uid))
    case ObjectLabel(k) => Some(LabelValue(svc, k))
    case Selector => Some(Labels(SelectorLabels(svc)))
    case Setting(TargetPorts) => Some(List([Number(SERVING_PORT)]))
    case _ => None
  }

  // Every field any of the objects can list.

  const CONTAINERS: set<ContainerId> := {VllmContainerId, OllamaContainerId}

  const CONTAINER_LEAVES: set<ContainerLeaf> :=
    {Name, Image, Command, Args, Port, UsesClaim, Request(Cpu), Request(Memory),
     Env(ModelVariable), Env(HostVariable), Env(ModelsVariable), Env(KeepAliveVariable),
     Mount(HuggingFaceCache), Mount(SharedMemoryDirectory), Mount(ModelsDirectory)}
    + (set p: Probe, l: ProbeLeaf :: ProbeSetting(p, l))

  const FIELDS: set<Field> :=
    {OwnerReference, Selector, PodClaim}
    + (set k: LabelKey :: ObjectLabel(k))
    + (set k: LabelKey :: PodLabel(k))
    + (set a: Annotation :: PodAnnotation(a))
    + (set c, l | c in CONTAINERS && l in CONTAINER_LEAVES :: InContainer(c, l))
    + (set v: VolumeId, l: VolumeLeaf :: InVolume(v, l))
    + (set p: Path :: Setting(p))

  function DesiredDeployment(svc: InferenceService): Config {
    map f | f in FIELDS && DeploymentValue(svc, f).Some? :: DeploymentValue(svc, f).value
  }

  // What createDeployment applies under its second name.
  function InitialReplicas(svc: InferenceService): Config {
    map[Replicas := Number(svc.spec.minReplicas)]
  }

  function DesiredClaimTemplate(svc: InferenceService): Config {
    map f | f in FIELDS && ClaimTemplateValue(svc, f).Some? :: ClaimTemplateValue(svc, f).value
  }

  function DesiredService(svc: InferenceService): Config {
    map f | f in FIELDS && ServiceValue(svc, f).Some? :: ServiceValue(svc, f).value
  }

  function DesiredScaledObject(svc: InferenceService, prometheusAddress: string): Config {
    map f | f in FIELDS && ScaledObjectValue(svc, prometheusAddress, f).Some?
      :: ScaledObjectValue(svc, prometheusAddress, f).value
  }

  function DesiredInferencePool(svc: InferenceService): Config {
    map f | f in FIELDS && InferencePoolValue(svc, f).Some? :: InferencePoolValue(svc, f).value
  }

  // Nothing a Deployment lists is lost by looking only at the known fields.
  lemma DeploymentIsComplete(svc: InferenceService, f: Field)
    ensures f in DesiredDeployment(svc) <==> DeploymentValue(svc, f).Some?
    ensures f in DesiredDeployment(svc) ==> DesiredDeployment(svc)[f] == DeploymentValue(svc, f).value
  {
    if DeploymentValue(svc, f).Some? {
      if f.InContainer? {
        assert f.leaf in CONTAINER_LEAVES;
      }
      assert f in FIELDS;
    }
  }

  // ----- what the objects of one service have to agree on -----

  lemma ServiceFields(svc: InferenceService, f: Field)
    ensures f in DesiredService(svc) <==> f in FIELDS && ServiceValue(svc, f).Some?
    ensures f in DesiredService(svc) ==> DesiredService(svc)[f] == ServiceValue(svc, f).value
    ensures f in DesiredInferencePool(svc) <==> f in FIELDS && InferencePoolValue(svc, f).Some?
    ensures f in DesiredInferencePool(svc) ==> DesiredInferencePool(svc)[f] == InferencePoolValue(svc, f).value
  {
  }

  // The Deployment, the Service and the pool select the same pods, by two labels
  // of the service's name alone, and every pod of the Deployment has those labels.
  lemma SelectorsFindThePods(svc: InferenceService)
    ensures var d, selector := DesiredDeployment(svc), SelectorLabels(svc);
      && selector.Keys == {NameLabel, InstanceLabel} && selector[InstanceLabel] == Text(svc.name)
      && Selector in d && d[Selector] == Labels(selector)
      && Selector in DesiredService(svc) && DesiredService(svc)[Selector] == Labels(selector)
      && Selector in DesiredInferencePool(svc) && DesiredInferencePool(svc)[Selector] == Labels(selector)
      && forall k | k in selector :: PodLabel(k) in d && d[PodLabel(k)] == selector[k]
  {
    hide DesiredDeployment, DesiredService, DesiredInferencePool;
    DeploymentIsComplete(svc, Selector);
    DeploymentIsComplete(svc, PodLabel(NameLabel));
    DeploymentIsComplete(svc, PodLabel(InstanceLabel));
    ServiceFields(svc, Selector);
  }

  // No edit of a spec changes the selector, and two services never share one.
  lemma SelectorIsTheName(svc: InferenceService, other: InferenceService)
    ensures SelectorLabels(svc) == SelectorLabels(other) <==> svc.name == other.name
  {
    assert SelectorLabels(svc)[InstanceLabel] == Text(svc.name);
    assert SelectorLabels(other)[InstanceLabel] == Text(other.name);
  }

  // Only the backend's container is described, under its name.
  lemma ContainerIsTheBackends(svc: InferenceService, f: Field)
    requires f in DesiredDeployment(svc) && f.InContainer?
    ensures f.container == OllamaContainerId <==> svc.spec.backend == Ollama
    ensures f.leaf == Name ==>
              DesiredDeployment(svc)[f] == Fixed(if svc.spec.backend == Ollama then OllamaName else VllmName)
  {
  }

  // The backend and the class are on the pods as labels of their own.
  lemma LabelsTellApart(svc: InferenceService, other: InferenceService)
    ensures var d := DesiredDeployment(svc);
      && PodLabel(BackendLabel) in d && PodLabel(DataClassLabel) in d
      && (d[PodLabel(BackendLabel)] == Fixed(OllamaBackend) <==> svc.spec.backend == Ollama)
      && (d[PodLabel(DataClassLabel)] == Fixed(PublicClass) <==> svc.spec.classification == Public)
      && (d[PodLabel(DataClassLabel)] == Fixed(RestrictedClass) <==> svc.spec.classification == Restricted)
    ensures var d, e := DesiredDeployment(svc), DesiredDeployment(other);
      && PodLabel(BackendLabel) in d && PodLabel(BackendLabel) in e
      && PodLabel(DataClassLabel) in d && PodLabel(DataClassLabel) in e
      && (d[PodLabel(BackendLabel)] == e[PodLabel(BackendLabel)] <==> svc.spec.backend == other.spec.backend)
      && (d[PodLabel(DataClassLabel)] == e[PodLabel(DataClassLabel)]
          <==> svc.spec.classification == other.spec.classification)
  {
    hide DesiredDeployment;
    DeploymentIsComplete(svc, PodLabel(BackendLabel));
    DeploymentIsComplete(other, PodLabel(BackendLabel));
    DeploymentIsComplete(svc, PodLabel(DataClassLabel));
    DeploymentIsComplete(other, PodLabel(DataClassLabel));
  }

  // A device is claimed by the container exactly when the pod names a claim, which
  // it does exactly when there is a device class.
  lemma ClaimsGoTogether(svc: InferenceService)
    ensures var d := DesiredDeployment(svc);
      && (PodClaim in d <==> svc.spec.deviceClass != "")
      && (InContainer(ContainerName(svc), UsesClaim) in d <==> PodClaim in d)
      && (PodClaim in d ==> d[PodClaim] == TemplateOf(svc.name))
  {
    hide DesiredDeployment;
    DeploymentIsComplete(svc, PodClaim);
    DeploymentIsComplete(svc, InContainer(ContainerName(svc), UsesClaim));
  }

  // Every volume a container mounts is there: the model cache always, from the
  // named claim or from scratch space but not both, shared memory for vLLM only.
  lemma VolumesAreThere(svc: InferenceService)
    ensures var d, c := DesiredDeployment(svc), ContainerName(svc);
      var cacheMount := InContainer(c, Mount(if svc.spec.backend == Ollama then ModelsDirectory else HuggingFaceCache));
      && cacheMount in d && InVolume(ModelCacheVolumeId, VolumeName) in d
      && d[cacheMount] == d[InVolume(ModelCacheVolumeId, VolumeName)]
      && (InVolume(ModelCacheVolumeId, ClaimSource) in d <==> svc.spec.modelCacheClaimName != "")
      && (InVolume(ModelCacheVolumeId, ClaimSource) in d ==>
            d[InVolume(ModelCacheVolumeId, ClaimSource)] == Text(svc.spec.modelCacheClaimName))
      && (InVolume(ModelCacheVolumeId, ScratchSource) in d <==> InVolume(ModelCacheVolumeId, ClaimSource) !in d)
      && (InContainer(c, Mount(SharedMemoryDirectory)) in d <==> svc.spec.backend == VLLM)
      && (InContainer(c, Mount(SharedMemoryDirectory)) in d ==>
            InVolume(SharedMemoryVolumeId, VolumeName) in d
            && d[InContainer(c, Mount(SharedMemoryDirectory))] == d[InVolume(SharedMemoryVolumeId, VolumeName)])
  {
    hide DesiredDeployment;
    var c := ContainerName(svc);
    DeploymentIsComplete(svc, InContainer(c, Mount(if svc.spec.backend == Ollama then ModelsDirectory
                                                   else HuggingFaceCache)));
    DeploymentIsComplete(svc, InContainer(c, Mount(SharedMemoryDirectory)));
    DeploymentIsComplete(svc, InVolume(ModelCacheVolumeId, VolumeName));
    DeploymentIsComplete(svc, InVolume(ModelCacheVolumeId, ClaimSource));
    DeploymentIsComplete(svc, InVolume(ModelCacheVolumeId, ScratchSource));
    DeploymentIsComplete(svc, InVolume(SharedMemoryVolumeId, VolumeName));
  }

  // One port, 8000, throughout: where the container listens and its probes ask,
  // and where the scraper, the Service and the pool send.
  lemma OnePort(svc: InferenceService)
    ensures var d, c := DesiredDeployment(svc), ContainerName(svc);
      && InContainer(c, Port) in d && d[InContainer(c, Port)] == List([Fixed(Http), Number(8000)])
      && PodAnnotation(ScrapePort) in d && d[PodAnnotation(ScrapePort)] == Number(8000)
    ensures var s, p := DesiredService(svc), DesiredInferencePool(svc);
      && Setting(ServicePorts) in s
      && s[Setting(ServicePorts)] == List([Fixed(Http), Fixed(Tcp), Number(8000), Number(8000)])
      && Setting(TargetPorts) in p && p[Setting(TargetPorts)] == List([Number(8000)])
  {
    hide DesiredDeployment, DesiredService, DesiredInferencePool;
    PortOfContainer(svc);
    DeploymentIsComplete(svc, PodAnnotation(ScrapePort));
    SettingIsAField(ServicePorts);
    SettingIsAField(TargetPorts);
    ServiceFields(svc, Setting(ServicePorts));
    ServiceFields(svc, Setting(TargetPorts));
  }

  lemma PortOfContainer(svc: InferenceService)
    ensures var d, c := DesiredDeployment(svc), ContainerName(svc);
      InContainer(c, Port) in d && d[InContainer(c, Port)] == List([Fixed(Http), Number(8000)])
  {
    hide DesiredDeployment;
    DeploymentIsComplete(svc, InContainer(ContainerName(svc), Port));
  }

  lemma SettingIsAField(p: Path)
    ensures Setting(p) in FIELDS
  {
  }

  lemma ProbesAskThePort(svc: InferenceService, p: Probe)
    ensures var d, f := DesiredDeployment(svc), InContainer(ContainerName(svc), ProbeSetting(p, HttpPort));
      && (f in d <==> p != Startup || svc.spec.backend == VLLM)
      && (f in d ==> d[f] == Number(8000))
  {
    hide DesiredDeployment;
    DeploymentIsComplete(svc, InContainer(ContainerName(svc), ProbeSetting(p, HttpPort)));
  }

  // Once started, a container that does not answer gets no more traffic after 15
  // seconds and is restarted after 60. vLLM answers for its health.
  lemma ProbesGiveUp(svc: InferenceService, p: Probe)
    requires p != Startup
    ensures var d, c := DesiredDeployment(svc), ContainerName(svc);
      var path, period, failures :=
        InContainer(c, ProbeSetting(p, HttpPath)), InContainer(c, ProbeSetting(p, Period)),
        InContainer(c, ProbeSetting(p, FailureThreshold));
      && path in d && d[path] == Fixed(if svc.spec.backend == Ollama then RootPath else HealthPath)
      && period in d && d[period].Number? && failures in d && d[failures].Number?
      && d[period].number * d[failures].number == (if p == Readiness then 15 else 60)
      && d[failures].number == 3
  {
    hide DesiredDeployment;
    DeploymentIsComplete(svc, InContainer(ContainerName(svc), ProbeSetting(p, HttpPath)));
    DeploymentIsComplete(svc, InContainer(ContainerName(svc), ProbeSetting(p, Period)));
    DeploymentIsComplete(svc, InContainer(ContainerName(svc), ProbeSetting(p, FailureThreshold)));
  }

  // The startup probe waits out the weight load: its failures times its period are
  // more than the load may take, and one failure less would not be.
  lemma StartupOutlastsLoad(svc: InferenceService)
    requires svc.spec.weightLoadSeconds >= 0
    ensures var d, c := DesiredDeployment(svc), ContainerName(svc);
      var failures := InContainer(c, ProbeSetting(Startup, FailureThreshold));
      var period := InContainer(c, ProbeSetting(Startup, Period));
      && failures in d && d[failures].Number? && period in d && d[period] == Number(10)
      && d[failures].number * 10 > svc.spec.weightLoadSeconds >= (d[failures].number - 1) * 10
  {
    hide DesiredDeployment;
    DeploymentIsComplete(svc, InContainer(ContainerName(svc), ProbeSetting(Startup, FailureThreshold)));
    DeploymentIsComplete(svc, InContainer(ContainerName(svc), ProbeSetting(Startup, Period)));
  }

  // The container runs the backend's image and serves the spec's model: vLLM as its
  // first argument, Ollama from its environment.
  lemma ServesTheModel(svc: InferenceService)
    ensures var d, c := DesiredDeployment(svc), ContainerName(svc);
      var image, args, model := InContainer(c, Image), InContainer(c, Args), InContainer(c, Env(ModelVariable));
      && image in d && d[image] == Fixed(if svc.spec.backend == Ollama then OllamaImage else VllmImage)
      && (args in d <==> svc.spec.backend == VLLM)
      && (args in d ==> d[args].List? && d[args].values != [] && d[args].values[0] == Text(svc.spec.model))
      && (model in d <==> svc.spec.backend == Ollama)
      && (model in d ==> d[model] == Text(svc.spec.model))
  {
    hide DesiredDeployment;
    DeploymentIsComplete(svc, InContainer(ContainerName(svc), Image));
    DeploymentIsComplete(svc, InContainer(ContainerName(svc), Args));
    DeploymentIsComplete(svc, InContainer(ContainerName(svc), Env(ModelVariable)));
  }

  // vLLM serves it under the service's name, within the spec's limits.
  lemma VllmArguments(svc: InferenceService)
    requires InContainer(VllmContainerId, Args) in DesiredDeployment(svc)
    ensures var args := DesiredDeployment(svc)[InContainer(VllmContainerId, Args)];
      && args.List? && |args.values| == 11
      && args.values[1] == Fixed(ServedModelName) && args.values[2] == Text(svc.name)
      && args.values[3] == Fixed(MaxModelLen) && args.values[4] == Number(svc.spec.maxModelLen)
      && args.values[5] == Fixed(GpuMemoryUtilization) && args.values[6] == Number(svc.spec.gpuMemoryUtilization)
      && args.values[7] == Fixed(PortFlag) && args.values[8] == Number(8000)
      && args.values[9] == Fixed(MaxNumSeqs) && args.values[10] == Fixed(Sixteen)
  {
    hide DesiredDeployment;
    DeploymentIsComplete(svc, InContainer(VllmContainerId, Args));
  }

  // Ollama listens on the port, looks for models where the cache is mounted, and
  // counts as started once it can show the spec's model.
  lemma OllamaIsSetUp(svc: InferenceService)
    ensures var d := DesiredDeployment(svc);
      var host, models, shown :=
        InContainer(OllamaContainerId, Env(HostVariable)), InContainer(OllamaContainerId, Env(ModelsVariable)),
        InContainer(OllamaContainerId, ProbeSetting(Startup, ExecCommand));
      && (host in d <==> svc.spec.backend == Ollama) && (models in d <==> svc.spec.backend == Ollama)
      && (shown in d <==> svc.spec.backend == Ollama)
      && (svc.spec.backend == Ollama ==>
            && d[host] == List([Fixed(AnyAddress), Number(8000)])
            && d[models].Fixed? && InContainer(OllamaContainerId, Mount(d[models].word)) in d
            && d[InContainer(OllamaContainerId, Mount(d[models].word))] == Fixed(ModelCache)
            && d[shown] == List([Fixed(OllamaBinary), Fixed(Show), Text(svc.spec.model)]))
  {
    hide DesiredDeployment;
    DeploymentIsComplete(svc, InContainer(OllamaContainerId, Env(HostVariable)));
    DeploymentIsComplete(svc, InContainer(OllamaContainerId, Env(ModelsVariable)));
    DeploymentIsComplete(svc, InContainer(OllamaContainerId, ProbeSetting(Startup, ExecCommand)));
    DeploymentIsComplete(svc, InContainer(OllamaContainerId, Mount(ModelsDirectory)));
  }

  // The scaler keeps to the spec's bounds, on this service's Deployment, and does
  // not scale down while a replica may still be loading.
  lemma ScalerMeans(svc: InferenceService, prometheusAddress: string)
    ensures var s := DesiredScaledObject(svc, prometheusAddress);
      && (forall p | p in {ScaleTarget, MinReplicaCount, MaxReplicaCount, ScaleDownWindow, ScaleUpWindow} ::
            Setting(p) in s)
      && s[Setting(ScaleTarget)] == Text(svc.name)
      && s[Setting(MinReplicaCount)] == Number(svc.spec.minReplicas)
      && s[Setting(MaxReplicaCount)] == Number(svc.spec.maxReplicas)
      && s[Setting(ScaleUpWindow)] == Number(0)
      && s[Setting(ScaleDownWindow)].Number?
      && s[Setting(ScaleDownWindow)].number >= 300
      && s[Setting(ScaleDownWindow)].number >= svc.spec.weightLoadSeconds
      && s[Setting(ScaleDownWindow)].number in {300, svc.spec.weightLoadSeconds}
  {
    ScalerFields(svc, prometheusAddress, ScaleTarget);
    ScalerFields(svc, prometheusAddress, MinReplicaCount);
    ScalerFields(svc, prometheusAddress, MaxReplicaCount);
    ScalerFields(svc, prometheusAddress, ScaleDownWindow);
    ScalerFields(svc, prometheusAddress, ScaleUpWindow);
    hide DesiredScaledObject;
  }

  // One pod at a time: up after a minute, down after the window.
  lemma ScalerSteps(svc: InferenceService, prometheusAddress: string)
    ensures var s := DesiredScaledObject(svc, prometheusAddress);
      && Setting(ScaleUpPolicies) in s && Setting(ScaleDownPolicies) in s && Setting(ScaleDownWindow) in s
      && s[Setting(ScaleUpPolicies)] == List([Fixed(Pods), Number(1), Number(60)])
      && s[Setting(ScaleDownPolicies)] == List([Fixed(Pods), Number(1), s[Setting(ScaleDownWindow)]])
  {
    ScalerFields(svc, prometheusAddress, ScaleUpPolicies);
    ScalerFields(svc, prometheusAddress, ScaleDownPolicies);
    ScalerFields(svc, prometheusAddress, ScaleDownWindow);
    hide DesiredScaledObject;
  }

  // The queries are for this service's pods, with the spec's three targets.
  lemma ScalerQueries(svc: InferenceService, prometheusAddress: string)
    ensures var s, f := DesiredScaledObject(svc, prometheusAddress), Setting(Triggers);
      && f in s && s[f].List? && |s[f].values| == 6
      && s[f].values[0] == Text(prometheusAddress)
      && s[f].values[1] == Text(svc.namespace) && s[f].values[2] == Text(svc.name)
      && s[f].values[3] == Number(svc.spec.queueDepthTarget)
      && s[f].values[4] == Number(svc.spec.kvCacheUsagePercent)
      && s[f].values[5] == Number(svc.spec.ttftP95Milliseconds)
  {
    ScalerFields(svc, prometheusAddress, Triggers);
    hide DesiredScaledObject;
  }

  lemma ScalerFields(svc: InferenceService, prometheusAddress: string, p: Path)
    ensures var s := DesiredScaledObject(svc, prometheusAddress);
      var v := ScaledObjectValue(svc, prometheusAddress, Setting(p));
      (Setting(p) in s <==> v.Some?) && (Setting(p) in s ==> s[Setting(p)] == v.value)
  {
    hide ScaledObjectValue;
    SettingIsAField(p);
  }

  // The claim template asks for exactly one device of the class, and for a memory
  // floor exactly when the spec has one.
  lemma TemplateMeans(svc: InferenceService)
    ensures var t := DesiredClaimTemplate(svc);
      && Setting(DeviceClassName) in t && t[Setting(DeviceClassName)] == Text(svc.spec.deviceClass)
      && Setting(DeviceCount) in t && t[Setting(DeviceCount)] == Number(1)
      && (Setting(DeviceSelectors) in t <==> svc.spec.minDeviceMemory.Some?)
      && (Setting(DeviceSelectors) in t ==>
            t[Setting(DeviceSelectors)] == List([Fixed(NvidiaDriver), Text(svc.spec.minDeviceMemory.value)]))
  {
    TemplateFields(svc, DeviceClassName);
    TemplateFields(svc, DeviceCount);
    TemplateFields(svc, DeviceSelectors);
    hide DesiredClaimTemplate;
  }

  lemma TemplateFields(svc: InferenceService, p: Path)
    ensures var t, v := DesiredClaimTemplate(svc), ClaimTemplateValue(svc, Setting(p));
      (Setting(p) in t <==> v.Some?) && (Setting(p) in t ==> t[Setting(p)] == v.value)
  {
    hide ClaimTemplateValue;
    SettingIsAField(p);
  }

  // The names of the containers an object's fields describe.
  function Containers(values: Config): set<ContainerId> {
    set f | f in values && f.InContainer? :: f.container
  }
}
