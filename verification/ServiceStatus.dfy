/** The status the operator reports: conditions, phase, and what it reads from pods
    and from KEDA to decide them. A reason and its message are one value here. */
module ServiceStatus {
  import opened Wrappers
  import opened Resources
  import opened ClusterState

  datatype WaitingReason =
    | CrashLoopBackOff
    | ImagePullBackOff
    | ErrImagePull
    | InvalidImageName
    | CreateContainerConfigError
    | CreateContainerError
    | RunContainerError
    | OtherReason(text: string)

  datatype Exit = Exit(reason: string, code: int)

  datatype Waiting = Waiting(reason: WaitingReason, message: string)

  datatype ContainerStatus =
    ContainerStatus(name: string, waiting: Option<Waiting>, lastExit: Option<Exit>, restarts: int)

  datatype PodCondition =
    PodCondition(isPodScheduled: bool, isFalse: bool, isUnschedulable: bool, message: string)

  datatype Pod = Pod(conditions: seq<PodCondition>, containers: seq<ContainerStatus>)

  datatype Trouble =
    | NoTrouble
    | CannotSchedule(message: string)
    | WillNotStart(container: ContainerStatus)

  predicate SaysUnschedulable(c: PodCondition) { c.isPodScheduled && c.isFalse && c.isUnschedulable }

  // Waiting for a reason that will not pass without a change.
  predicate IsFailing(c: ContainerStatus) {
    c.waiting.Some? && !c.waiting.value.reason.OtherReason?
  }

  predicate PodUnschedulable(p: Pod) { exists i | 0 <= i < |p.conditions| :: SaysUnschedulable(p.conditions[i]) }

  predicate PodFailing(p: Pod) { exists i | 0 <= i < |p.containers| :: IsFailing(p.containers[i]) }

  function FirstVerdictIn(cs: seq<PodCondition>): Trouble {
    if cs == [] then NoTrouble
    else if SaysUnschedulable(cs[0]) then CannotSchedule(cs[0].message)
    else FirstVerdictIn(cs[1..])
  }

  function FirstUnschedulable(pods: seq<Pod>): Trouble {
    if pods == [] then NoTrouble
    else if FirstVerdictIn(pods[0].conditions) != NoTrouble then FirstVerdictIn(pods[0].conditions)
    else FirstUnschedulable(pods[1..])
  }

  function FirstFailingIn(cs: seq<ContainerStatus>): Trouble {
    if cs == [] then NoTrouble
    else if IsFailing(cs[0]) then WillNotStart(cs[0])
    else FirstFailingIn(cs[1..])
  }

  function FirstFailing(pods: seq<Pod>): Trouble {
    if pods == [] then NoTrouble
    else if FirstFailingIn(pods[0].containers) != NoTrouble then FirstFailingIn(pods[0].containers)
    else FirstFailing(pods[1..])
  }

  // The scheduler's verdict on any pod comes before any container's.
  function FirstTrouble(pods: seq<Pod>): Trouble {
    if FirstUnschedulable(pods) != NoTrouble then FirstUnschedulable(pods) else FirstFailing(pods)
  }

  method PodTrouble(pods: seq<Pod>) returns (t: Trouble)
    ensures t == FirstTrouble(pods)
  {
    for i := 0 to |pods|
      invariant FirstUnschedulable(pods) == FirstUnschedulable(pods[i..])
    {
      var cs := pods[i].conditions;
      for j := 0 to |cs|
        invariant FirstVerdictIn(cs) == FirstVerdictIn(cs[j..])
      {
        if SaysUnschedulable(cs[j]) {
          return CannotSchedule(cs[j].message);
        }
      }
    }
    for i := 0 to |pods|
      invariant FirstFailing(pods) == FirstFailing(pods[i..])
    {
      var cs := pods[i].containers;
      for j := 0 to |cs|
        invariant FirstFailingIn(cs) == FirstFailingIn(cs[j..])
      {
        if IsFailing(cs[j]) {
          return WillNotStart(cs[j]);
        }
      }
    }
    return NoTrouble;
  }

  lemma {:induction false} VerdictInMeans(cs: seq<PodCondition>)
    ensures FirstVerdictIn(cs) == NoTrouble || FirstVerdictIn(cs).CannotSchedule?
    ensures FirstVerdictIn(cs) != NoTrouble <==> exists i | 0 <= i < |cs| :: SaysUnschedulable(cs[i])
  {
    if cs != [] {
      VerdictInMeans(cs[1..]);
      if exists i | 0 <= i < |cs| :: SaysUnschedulable(cs[i]) {
        var i :| 0 <= i < |cs| && SaysUnschedulable(cs[i]);
        assert i > 0 ==> cs[1..][i - 1] == cs[i];
      }
    }
  }

  lemma {:induction false} FailingInMeans(cs: seq<ContainerStatus>)
    ensures FirstFailingIn(cs) == NoTrouble || FirstFailingIn(cs).WillNotStart?
    ensures FirstFailingIn(cs) != NoTrouble <==> exists i | 0 <= i < |cs| :: IsFailing(cs[i])
  {
    if cs != [] {
      FailingInMeans(cs[1..]);
      if exists i | 0 <= i < |cs| :: IsFailing(cs[i]) {
        var i :| 0 <= i < |cs| && IsFailing(cs[i]);
        assert i > 0 ==> cs[1..][i - 1] == cs[i];
      }
    }
  }

  lemma {:induction false} UnschedulableMeans(pods: seq<Pod>)
    ensures FirstUnschedulable(pods) == NoTrouble || FirstUnschedulable(pods).CannotSchedule?
    ensures FirstUnschedulable(pods) != NoTrouble <==> exists p | p in pods :: PodUnschedulable(p)
  {
    if pods != [] {
      VerdictInMeans(pods[0].conditions);
      UnschedulableMeans(pods[1..]);
      assert forall p :: p in pods <==> p == pods[0] || p in pods[1..];
      assert PodUnschedulable(pods[0]) <==> FirstVerdictIn(pods[0].conditions) != NoTrouble;
    }
  }

  lemma {:induction false} FailingMeans(pods: seq<Pod>)
    ensures FirstFailing(pods) == NoTrouble || FirstFailing(pods).WillNotStart?
    ensures FirstFailing(pods) != NoTrouble <==> exists p | p in pods :: PodFailing(p)
  {
    if pods != [] {
      FailingInMeans(pods[0].containers);
      FailingMeans(pods[1..]);
      assert forall p :: p in pods <==> p == pods[0] || p in pods[1..];
      assert PodFailing(pods[0]) <==> FirstFailingIn(pods[0].containers) != NoTrouble;
    }
  }

  datatype Phase = NotSet | Rejected | Ready | Unschedulable | Failing | Loading

  function PhaseOf(t: Trouble): Phase {
    match t
    case NoTrouble => Loading
    case CannotSchedule(_) => Unschedulable
    case WillNotStart(_) => Failing
  }

  // Which phase is reported depends only on which pods there are, not on the
  // order they are listed in; only the quoted reason can.
  lemma PhaseIgnoresPodOrder(pods: seq<Pod>, others: seq<Pod>)
    requires forall p :: p in pods <==> p in others
    ensures PhaseOf(FirstTrouble(pods)) == PhaseOf(FirstTrouble(others))
    ensures PhaseOf(FirstTrouble(pods)) ==
            if exists p | p in pods :: PodUnschedulable(p) then Unschedulable
            else if exists p | p in pods :: PodFailing(p) then Failing
            else Loading
  {
    UnschedulableMeans(pods);
    UnschedulableMeans(others);
    FailingMeans(pods);
    FailingMeans(others);
  }

  // The phase on what the pods report: a scheduling condition that is false for
  // want of a place, else a container waiting for one of seven reasons, else the
  // weights are loading. A container being created or with any other reason is.
  lemma PhaseMeans(pods: seq<Pod>)
    ensures var phase := PhaseOf(FirstTrouble(pods));
      && (phase == Unschedulable <==>
            exists p, i :: p in pods && 0 <= i < |p.conditions| && p.conditions[i].isPodScheduled
                           && p.conditions[i].isFalse && p.conditions[i].isUnschedulable)
      && (phase == Failing ==>
            exists p, i :: p in pods && 0 <= i < |p.containers| && p.containers[i].waiting.Some?
                           && p.containers[i].waiting.value.reason in FailingReasons())
      && (phase == Loading <==>
            && (forall p, i :: p in pods && 0 <= i < |p.conditions| ==>
                  !(p.conditions[i].isPodScheduled && p.conditions[i].isFalse && p.conditions[i].isUnschedulable))
            && (forall p, i :: p in pods && 0 <= i < |p.containers| ==>
                  p.containers[i].waiting.None? || p.containers[i].waiting.value.reason !in FailingReasons()))
      && phase in {Unschedulable, Failing, Loading}
  {
    PhaseIgnoresPodOrder(pods, pods);
    forall p, i | p in pods && 0 <= i < |p.containers|
      ensures IsFailing(p.containers[i]) <==>
                p.containers[i].waiting.Some? && p.containers[i].waiting.value.reason in FailingReasons()
    {
    }
  }

  function FailingReasons(): set<WaitingReason> {
    {CrashLoopBackOff, ImagePullBackOff, ErrImagePull, InvalidImageName, CreateContainerConfigError,
     CreateContainerError, RunContainerError}
  }

  // The trouble that is quoted is some pod's own.
  lemma TroubleIsReported(pods: seq<Pod>)
    ensures var t := FirstTrouble(pods);
      && (t.CannotSchedule? ==>
            exists p, i :: p in pods && 0 <= i < |p.conditions| && p.conditions[i].message == t.message
                           && p.conditions[i].isUnschedulable)
      && (t.WillNotStart? ==> exists p, i :: p in pods && 0 <= i < |p.containers| && p.containers[i] == t.container)
  {
    UnschedulableIn(pods);
    FailingIn(pods);
  }

  lemma {:induction false} UnschedulableIn(pods: seq<Pod>)
    ensures var t := FirstUnschedulable(pods);
      && !t.WillNotStart?
      && (t.CannotSchedule? ==>
            exists p, i :: p in pods && 0 <= i < |p.conditions| && p.conditions[i].message == t.message
                           && p.conditions[i].isUnschedulable)
  {
    if pods != [] {
      VerdictIn(pods[0].conditions);
      UnschedulableIn(pods[1..]);
      assert pods[0] in pods;
    }
  }

  lemma {:induction false} VerdictIn(cs: seq<PodCondition>)
    ensures var t := FirstVerdictIn(cs);
      && !t.WillNotStart?
      && (t.CannotSchedule? ==> exists i :: 0 <= i < |cs| && cs[i].message == t.message && cs[i].isUnschedulable)
  {
    if cs != [] && !SaysUnschedulable(cs[0]) {
      VerdictIn(cs[1..]);
      if FirstVerdictIn(cs).CannotSchedule? {
        var i :| 0 <= i < |cs| - 1 && cs[1..][i].message == FirstVerdictIn(cs).message && cs[1..][i].isUnschedulable;
        assert cs[i + 1] == cs[1..][i];
      }
    }
  }

  lemma {:induction false} FailingIn(pods: seq<Pod>)
    ensures var t := FirstFailing(pods);
      && !t.CannotSchedule?
      && (t.WillNotStart? ==> exists p, i :: p in pods && 0 <= i < |p.containers| && p.containers[i] == t.container)
  {
    if pods != [] {
      StartIn(pods[0].containers);
      FailingIn(pods[1..]);
      assert pods[0] in pods;
    }
  }

  lemma {:induction false} StartIn(cs: seq<ContainerStatus>)
    ensures var t := FirstFailingIn(cs);
      && !t.CannotSchedule? && (t.WillNotStart? ==> exists i :: 0 <= i < |cs| && cs[i] == t.container)
  {
    if cs != [] && !IsFailing(cs[0]) {
      StartIn(cs[1..]);
      if FirstFailingIn(cs).WillNotStart? {
        var i :| 0 <= i < |cs| - 1 && cs[1..][i] == FirstFailingIn(cs).container;
        assert cs[i + 1] == cs[1..][i];
      }
    }
  }

  datatype Truth = Yes | No | Unknown

  // One entry of the ScaledObject's status; None is an entry of another shape.
  datatype KedaEntry = KedaEntry(isReady: bool, status: Truth, reason: string, message: string)

  datatype Verdict = Verdict(status: Truth, reason: string, message: string)

  // The first Ready entry that says yes or no.
  function KedaVerdict(entries: seq<Option<KedaEntry>>): Verdict {
    if entries == [] then Verdict(Unknown, "", "")
    else if entries[0].Some? && entries[0].value.isReady && entries[0].value.status != Unknown
    then Verdict(entries[0].value.status, entries[0].value.reason, entries[0].value.message)
    else KedaVerdict(entries[1..])
  }

  predicate Speaks(e: Option<KedaEntry>) { e.Some? && e.value.isReady && e.value.status != Unknown }

  // The verdict is that of the first entry of type Ready that says yes or no,
  // and unknown when there is none.
  lemma {:induction false} VerdictMeans(entries: seq<Option<KedaEntry>>)
    ensures KedaVerdict(entries).status == Unknown <==> forall e | e in entries :: !Speaks(e)
    ensures KedaVerdict(entries).status != Unknown ==>
              exists i | 0 <= i < |entries| ::
                && Speaks(entries[i]) && (forall j | 0 <= j < i :: !Speaks(entries[j]))
                && var e := entries[i].value; KedaVerdict(entries) == Verdict(e.status, e.reason, e.message)
  {
    if entries != [] && !Speaks(entries[0]) {
      VerdictMeans(entries[1..]);
      assert forall e :: e in entries <==> e == entries[0] || e in entries[1..];
      if KedaVerdict(entries).status != Unknown {
        var i :| 0 <= i < |entries| - 1 && Speaks(entries[1..][i])
          && (forall j | 0 <= j < i :: !Speaks(entries[1..][j]))
          && KedaVerdict(entries[1..]) == Verdict(entries[1..][i].value.status, entries[1..][i].value.reason,
                                                  entries[1..][i].value.message);
        assert entries[i + 1] == entries[1..][i];
        assert forall j | 0 < j <= i :: entries[j] == entries[1..][j - 1];
      }
    }
  }

  method ScaledObjectReady(entries: seq<Option<KedaEntry>>) returns (v: Verdict)
    ensures v == KedaVerdict(entries)
  {
    for i := 0 to |entries|
      invariant KedaVerdict(entries) == KedaVerdict(entries[i..])
    {
      if entries[i].None? || !entries[i].value.isReady { continue; }
      var e := entries[i].value;
      match e.status {
        case Yes => return Verdict(Yes, e.reason, e.message);
        case No => return Verdict(No, e.reason, e.message);
        case Unknown =>
      }
    }
    return Verdict(Unknown, "", "");
  }

  datatype ConditionType = AdmittedCondition | ReadyCondition | AutoscalingCondition | RoutingCondition

  datatype Reason =
    | PolicyViolated(violation: Violation)
    | PolicySatisfied
    | RecreatingDeployment
    | MinimumReplicasAvailable
    | WeightsLoading
    | PodTroubled(trouble: Trouble)
    | BackendNotSupported
    | KedaNotInstalled
    | ScalerReady
    | ScalerNotReady(reason: string, message: string)
    | WaitingForKeda
    | InferencePoolNotInstalled
    | InferencePoolApplied

  datatype Condition =
    Condition(kind: ConditionType, status: Truth, reason: Reason, generation: int, lastTransition: int)

  type Conditions = seq<Condition>

  // One condition per type: an existing one is replaced where it stands, and its
  // transition time moves only when its status does.
  function SetCondition(cs: Conditions, kind: ConditionType, status: Truth, reason: Reason,
                        generation: int, now: int): Conditions
  {
    if cs == [] then [Condition(kind, status, reason, generation, now)]
    else if cs[0].kind == kind then
      [Condition(kind, status, reason, generation, if cs[0].status == status then cs[0].lastTransition else now)]
      + cs[1..]
    else [cs[0]] + SetCondition(cs[1..], kind, status, reason, generation, now)
  }

  function Find(cs: Conditions, kind: ConditionType): Option<Condition> {
    if cs == [] then None
    else if cs[0].kind == kind then Some(cs[0])
    else Find(cs[1..], kind)
  }

  predicate Reports(cs: Conditions, kind: ConditionType, status: Truth, reason: Reason, generation: int) {
    var f := Find(cs, kind);
    f.Some? && f.value.status == status && f.value.reason == reason && f.value.generation == generation
  }

  lemma {:induction false} SetThenFind(cs: Conditions, kind: ConditionType, status: Truth, reason: Reason,
                                       generation: int, now: int)
    ensures var r := SetCondition(cs, kind, status, reason, generation, now);
      && Reports(r, kind, status, reason, generation)
      && Find(r, kind).value.lastTransition
         == (if Find(cs, kind).Some? && Find(cs, kind).value.status == status
             then Find(cs, kind).value.lastTransition else now)
      && forall k | k != kind :: Find(r, k) == Find(cs, k)
  {
    if cs != [] && cs[0].kind != kind {
      SetThenFind(cs[1..], kind, status, reason, generation, now);
    }
  }

  // Reporting again what is already reported changes nothing, at any later time.
  lemma {:induction false} SetAgain(cs: Conditions, kind: ConditionType, status: Truth, reason: Reason,
                                    generation: int, now: int)
    requires Reports(cs, kind, status, reason, generation)
    ensures SetCondition(cs, kind, status, reason, generation, now) == cs
  {
    if cs[0].kind != kind {
      SetAgain(cs[1..], kind, status, reason, generation, now);
      assert cs == [cs[0]] + cs[1..];
    }
  }

  datatype Endpoint = Endpoint(name: string, namespace: string, port: int)

  datatype Status = Status(
    observedGeneration: int,
    readyReplicas: int,
    endpoint: Option<Endpoint>,
    phase: Phase,
    conditions: Conditions)

  // What a pass reads besides the objects it writes.
  datatype Observed = Observed(readyReplicas: int, keda: seq<Option<KedaEntry>>, pods: seq<Pod>)

  function AutoscalingReport(svc: InferenceService, env: Env, seen: Observed): (Truth, Reason) {
    if svc.spec.backend == Ollama then (No, BackendNotSupported)
    else if !env.keda then (No, KedaNotInstalled)
    else
      var v := KedaVerdict(seen.keda);
      match v.status
      case Yes => (Yes, ScalerReady)
      case No => (No, ScalerNotReady(v.reason, v.message))
      case Unknown => (Unknown, WaitingForKeda)
  }

  function RoutingReport(env: Env): (Truth, Reason) {
    if env.pools then (Yes, InferencePoolApplied) else (No, InferencePoolNotInstalled)
  }

  function ReadyReport(seen: Observed): (Truth, Reason) {
    if seen.readyReplicas > 0 then (Yes, MinimumReplicasAvailable)
    else if FirstTrouble(seen.pods) != NoTrouble then (No, PodTroubled(FirstTrouble(seen.pods)))
    else (No, WeightsLoading)
  }

  function FinalPhase(seen: Observed): Phase {
    if seen.readyReplicas > 0 then Ready else PhaseOf(FirstTrouble(seen.pods))
  }

  function Set(st: Status, kind: ConditionType, report: (Truth, Reason), generation: int, now: int): Status {
    st.(conditions := SetCondition(st.conditions, kind, report.0, report.1, generation, now))
  }

  // How far a pass got.
  datatype Progress = Refused(violation: Violation) | Recreating | Waits | Completed

  function ProgressOf(c: Cluster, svc: InferenceService, p: Plan): Progress
    requires Sound(p)
  {
    if PolicyViolation(svc).Some? then Refused(PolicyViolation(svc).value)
    else
      match DeploymentIn(AfterTemplate(c, p), p)
      case WrongSelector => Recreating
      case BeingDeleted => Waits
      case _ => Completed
  }

  function StatusBeforeStamp(st: Status, svc: InferenceService, env: Env, seen: Observed, g: Progress, now: int): Status
  {
    match g
    case Refused(v) =>
      Set(st, AdmittedCondition, (No, PolicyViolated(v)), svc.generation, now).(phase := Rejected)
    case Recreating =>
      Set(Set(st, AdmittedCondition, (Yes, PolicySatisfied), svc.generation, now),
          ReadyCondition, (No, RecreatingDeployment), svc.generation, now)
    case Waits => Set(st, AdmittedCondition, (Yes, PolicySatisfied), svc.generation, now)
    case Completed =>
      var s1 := Set(st, AdmittedCondition, (Yes, PolicySatisfied), svc.generation, now);
      var s2 := Set(s1, AutoscalingCondition, AutoscalingReport(svc, env, seen), svc.generation, now);
      var s3 := Set(s2, RoutingCondition, RoutingReport(env), svc.generation, now);
      Set(s3, ReadyCondition, ReadyReport(seen), svc.generation, now).(
        readyReplicas := seen.readyReplicas,
        endpoint := Some(Endpoint(svc.name, svc.namespace, SERVING_PORT)),
        phase := FinalPhase(seen))
  }

  // The status after a pass that got this far.
  function NextStatus(st: Status, svc: InferenceService, env: Env, seen: Observed, g: Progress, now: int): Status {
    StatusBeforeStamp(st, svc, env, seen, g, now).(observedGeneration := svc.generation)
  }

  predicate ConditionIs(st: Status, kind: ConditionType, t: Truth) {
    Find(st.conditions, kind).Some? && Find(st.conditions, kind).value.status == t
  }

  // After a pass that ran to the end, what the status says is what was read.
  lemma CompletedStatus(st: Status, svc: InferenceService, env: Env, seen: Observed, now: int)
    ensures var r := NextStatus(st, svc, env, seen, Completed, now);
      && (r.phase == Ready <==> seen.readyReplicas > 0)
      && (ConditionIs(r, ReadyCondition, Yes) <==> seen.readyReplicas > 0)
      && (ConditionIs(r, ReadyCondition, No) <==> seen.readyReplicas <= 0)
      && (ConditionIs(r, AutoscalingCondition, Yes) <==>
            svc.spec.backend != Ollama && env.keda && KedaVerdict(seen.keda).status == Yes)
      && (r.phase == Unschedulable <==> seen.readyReplicas <= 0 && exists p | p in seen.pods :: PodUnschedulable(p))
      && (r.phase == Failing <==>
            seen.readyReplicas <= 0
            && !(exists p | p in seen.pods :: PodUnschedulable(p)) && exists p | p in seen.pods :: PodFailing(p))
      && ConditionIs(r, AdmittedCondition, Yes)
      && (ConditionIs(r, RoutingCondition, Yes) <==> env.pools)
      && r.readyReplicas == seen.readyReplicas && r.observedGeneration == svc.generation
      && r.endpoint == Some(Endpoint(svc.name, svc.namespace, 8000))
      && Fixed(r, svc, env, seen)
  {
    var g := svc.generation;
    var a, s, t, u := (Yes, PolicySatisfied), AutoscalingReport(svc, env, seen), RoutingReport(env), ReadyReport(seen);
    var c0 := st.conditions;
    var c1 := SetCondition(c0, AdmittedCondition, a.0, a.1, g, now);
    var c2 := SetCondition(c1, AutoscalingCondition, s.0, s.1, g, now);
    var c3 := SetCondition(c2, RoutingCondition, t.0, t.1, g, now);
    SetThenFind(c0, AdmittedCondition, a.0, a.1, g, now);
    SetThenFind(c1, AutoscalingCondition, s.0, s.1, g, now);
    SetThenFind(c2, RoutingCondition, t.0, t.1, g, now);
    SetThenFind(c3, ReadyCondition, u.0, u.1, g, now);
    UnschedulableMeans(seen.pods);
    FailingMeans(seen.pods);
  }

  // And each condition says why: no ready replica for a pod's trouble or else for
  // loading weights, no scaler for the backend, for want of KEDA or as KEDA says.
  lemma CompletedReasons(st: Status, svc: InferenceService, env: Env, seen: Observed, now: int)
    ensures var r, g := NextStatus(st, svc, env, seen, Completed, now), svc.generation;
      var trouble, v := FirstTrouble(seen.pods), KedaVerdict(seen.keda);
      && (seen.readyReplicas > 0 ==> Reports(r.conditions, ReadyCondition, Yes, MinimumReplicasAvailable, g))
      && (r.phase == Loading ==> Reports(r.conditions, ReadyCondition, No, WeightsLoading, g))
      && (r.phase == Unschedulable || r.phase == Failing ==>
            trouble != NoTrouble && Reports(r.conditions, ReadyCondition, No, PodTroubled(trouble), g))
      && (svc.spec.backend == Ollama ==> Reports(r.conditions, AutoscalingCondition, No, BackendNotSupported, g))
      && (svc.spec.backend == VLLM && !env.keda ==>
            Reports(r.conditions, AutoscalingCondition, No, KedaNotInstalled, g))
      && (svc.spec.backend == VLLM && env.keda && v.status == No ==>
            Reports(r.conditions, AutoscalingCondition, No, ScalerNotReady(v.reason, v.message), g))
      && (svc.spec.backend == VLLM && env.keda && v.status == Unknown ==>
            Reports(r.conditions, AutoscalingCondition, Unknown, WaitingForKeda, g))
      && (!env.pools ==> Reports(r.conditions, RoutingCondition, No, InferencePoolNotInstalled, g))
  {
    CompletedStatus(st, svc, env, seen, now);
    hide NextStatus, Find, FirstTrouble, KedaVerdict;
  }

  // A pass that ends early reports only why, and leaves the rest of the status as
  // it was, stale or not: a refused one sets Admitted=False and the phase, one
  // that recreates the Deployment Admitted=True and Ready=False, one that waits
  // for a deletion Admitted=True.
  lemma EarlyStatus(st: Status, svc: InferenceService, env: Env, seen: Observed, g: Progress, now: int)
    requires !g.Completed?
    ensures var r := NextStatus(st, svc, env, seen, g, now);
      && r.readyReplicas == st.readyReplicas && r.endpoint == st.endpoint
      && r.observedGeneration == svc.generation
      && r.phase == (if g.Refused? then Rejected else st.phase)
      && (if g.Refused?
          then Reports(r.conditions, AdmittedCondition, No, PolicyViolated(g.violation), svc.generation)
          else Reports(r.conditions, AdmittedCondition, Yes, PolicySatisfied, svc.generation))
      && (if g.Recreating?
          then Reports(r.conditions, ReadyCondition, No, RecreatingDeployment, svc.generation)
          else Find(r.conditions, ReadyCondition) == Find(st.conditions, ReadyCondition))
      && Find(r.conditions, AutoscalingCondition) == Find(st.conditions, AutoscalingCondition)
      && Find(r.conditions, RoutingCondition) == Find(st.conditions, RoutingCondition)
  {
    var n := svc.generation;
    match g
    case Refused(v) => SetThenFind(st.conditions, AdmittedCondition, No, PolicyViolated(v), n, now);
    case Waits => SetThenFind(st.conditions, AdmittedCondition, Yes, PolicySatisfied, n, now);
    case Recreating =>
      SetThenFind(st.conditions, AdmittedCondition, Yes, PolicySatisfied, n, now);
      var admitted := SetCondition(st.conditions, AdmittedCondition, Yes, PolicySatisfied, n, now);
      SetThenFind(admitted, ReadyCondition, No, RecreatingDeployment, n, now);
  }

  // A status that already says everything a complete pass would say.
  predicate Fixed(st: Status, svc: InferenceService, env: Env, seen: Observed) {
    var g := svc.generation;
    var s, t, u := AutoscalingReport(svc, env, seen), RoutingReport(env), ReadyReport(seen);
    && Reports(st.conditions, AdmittedCondition, Yes, PolicySatisfied, g)
    && Reports(st.conditions, AutoscalingCondition, s.0, s.1, g)
    && Reports(st.conditions, RoutingCondition, t.0, t.1, g)
    && Reports(st.conditions, ReadyCondition, u.0, u.1, g)
    && st.readyReplicas == seen.readyReplicas
    && st.endpoint == Some(Endpoint(svc.name, svc.namespace, SERVING_PORT))
    && st.phase == FinalPhase(seen)
    && st.observedGeneration == g
  }

  // With the same observations a complete pass leaves such a status untouched,
  // whenever it runs.
  lemma FixedStatusStays(st: Status, svc: InferenceService, env: Env, seen: Observed, now: int)
    requires Fixed(st, svc, env, seen)
    ensures NextStatus(st, svc, env, seen, Completed, now) == st
  {
    var g := svc.generation;
    var s, t, u := AutoscalingReport(svc, env, seen), RoutingReport(env), ReadyReport(seen);
    SetAgain(st.conditions, AdmittedCondition, Yes, PolicySatisfied, g, now);
    SetAgain(st.conditions, AutoscalingCondition, s.0, s.1, g, now);
    SetAgain(st.conditions, RoutingCondition, t.0, t.1, g, now);
    SetAgain(st.conditions, ReadyCondition, u.0, u.1, g, now);
  }
}
