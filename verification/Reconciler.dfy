/** The operator's pass as it runs: calls against the API server one after another,
    and updates of the service's status in between. */
module Reconciler {
  import opened Wrappers
  import opened ServerSideApply
  import opened Resources
  import opened DeploymentApply
  import opened ClusterState
  import opened ServiceStatus
  import opened Convergence

  datatype Reply = Done | NoMatch | Clash | Failed

  class ApiServer {
    const env: Env
    var objects: Cluster
    // How many more calls get through before they start to fail.
    var goodCalls: nat

    constructor (env: Env, objects: Cluster, goodCalls: nat)
      ensures this.env == env && this.objects == objects && this.goodCalls == goodCalls
    {
      this.env := env;
      this.objects := objects;
      this.goodCalls := goodCalls;
    }

    method Reach() returns (ok: bool)
      modifies this`goodCalls
      ensures ok == (old(goodCalls) > 0) && goodCalls == if ok then old(goodCalls) - 1 else 0
    {
      ok := goodCalls > 0;
      if ok {
        goodCalls := goodCalls - 1;
      }
    }

    method Apply(k: Kind, manager: Manager, config: Config, force: bool) returns (r: Reply)
      modifies this
      ensures r == Failed <==> old(goodCalls) == 0
      ensures r == Failed ==> objects == old(objects) && goodCalls == 0
      ensures r != Failed && !Installed(env, k) ==> r == NoMatch && objects == old(objects)
      ensures r != Failed && Installed(env, k) ==>
                if force || Conflicts(Content(old(objects), k), manager, config) == {}
                then r == Done && objects == Put(old(objects), k, manager, config)
                else r == Clash && objects == old(objects)
    {
      var ok := Reach();
      if !ok {
        return Failed;
      }
      if !Installed(env, k) {
        return NoMatch;
      }
      var content := if k in objects then objects[k].content else EMPTY;
      match ApplyWrite(content, manager, config, force, DefaultsOf(k)) {
        case Ok(o) =>
          objects := objects[k := Item(o, k in objects && objects[k].deleting)];
          return Done;
        case Err(_) =>
          return Clash;
      }
    }

    method Get(k: Kind) returns (ok: bool, r: Option<Item>)
      modifies this`goodCalls
      ensures ok ==> r == if k in objects then Some(objects[k]) else None
      ensures !ok ==> goodCalls == 0
    {
      ok := Reach();
      r := if ok && k in objects then Some(objects[k]) else None;
    }

    // Deletion is asynchronous: the object goes once nothing holds it.
    method Delete(k: Kind) returns (ok: bool)
      modifies this
      ensures objects == if ok then Mark(old(objects), k) else old(objects)
      ensures !ok ==> goodCalls == 0
    {
      ok := Reach();
      if ok && k in objects {
        objects := objects[k := objects[k].(deleting := true)];
      }
    }
  }

  // When to look again: never, in some seconds, or as soon as the queue retries
  // after an error.
  datatype Requeue = Never | Seconds(seconds: int) | Retry

  class InferenceServiceReconciler {
    const api: ApiServer
    var status: Status
    var statusWrites: nat

    constructor (api: ApiServer, status: Status)
      ensures this.api == api && this.status == status && statusWrites == 0
    {
      this.api := api;
      this.status := status;
      statusWrites := 0;
    }

    method SetStatusCondition(kind: ConditionType, truth: Truth, reason: Reason, generation: int, now: int)
      modifies this`status
      ensures status == Set(old(status), kind, (truth, reason), generation, now)
    {
      status := status.(conditions := SetCondition(status.conditions, kind, truth, reason, generation, now));
    }

    method DeleteIfOwned(p: Plan, k: Kind) returns (ok: bool)
      modifies api
      ensures api.objects == if ok then DropIfOwned(old(api.objects), p, k) else old(api.objects)
      ensures !ok ==> api.goodCalls == 0
    {
      var found;
      ok, found := api.Get(k);
      if !ok {
        return false;
      }
      match found {
        case None => return true;
        case Some(item) =>
          if !(OwnerReference in item.content.values && item.content.values[OwnerReference] == p.owner) {
            return true;
          }
          ok := api.Delete(k);
      }
    }

    // The second apply does not force, so it can also fail on a Deployment that a
    // stale read missed and someone else has scaled.
    method CreateDeployment(p: Plan) returns (ok: bool)
      requires Sound(p)
      modifies api
      ensures ok ==> api.objects == AfterCreate(old(api.objects), p)
      ensures !ok ==> api.objects == old(api.objects) || api.objects == Ensure(old(api.objects), p, DeploymentKind)
      ensures var content := Content(Ensure(old(api.objects), p, DeploymentKind), DeploymentKind);
        !ok ==> api.goodCalls == 0 || Conflicts(content, INITIAL, p.initial) != {}
      ensures ok ==>
        Conflicts(Content(Ensure(old(api.objects), p, DeploymentKind), DeploymentKind), INITIAL, p.initial) == {}
    {
      var r := api.Apply(DeploymentKind, MAIN, p.configs[DeploymentKind], true);
      if r != Done {
        return false;
      }
      r := api.Apply(DeploymentKind, INITIAL, p.initial, false);
      ok := r == Done;
    }

    // Returns whether it got through and, if so, whether the pass has to be taken
    // up again later.
    method ReconcileDeployment(svc: InferenceService, p: Plan, now: int) returns (ok: bool, requeue: bool)
      requires Sound(p) && CreatesInTwo(p)
      modifies api, this`status
      ensures ok ==> api.objects == AfterDeployment(old(api.objects), p)
      ensures ok ==> (requeue <==> DeploymentIn(old(api.objects), p) == BeingDeleted
                                   || DeploymentIn(old(api.objects), p) == WrongSelector)
      ensures ok ==> status == if DeploymentIn(old(api.objects), p) == WrongSelector
                               then Set(old(status), ReadyCondition, (No, RecreatingDeployment), svc.generation, now)
                               else old(status)
      ensures !ok ==> DeploymentCut(old(api.objects), api.objects, p) && api.goodCalls == 0
      ensures !ok ==>
                || status == old(status)
                || (DeploymentIn(old(api.objects), p) == WrongSelector && api.objects == old(api.objects)
                    && status == Set(old(status), ReadyCondition, (No, RecreatingDeployment), svc.generation, now))
    {
      hide Merge, SetCondition;
      requeue := false;
      var current;
      ok, current := api.Get(DeploymentKind);
      if !ok {
        return;
      }
      match current {
        case None =>
          NewDoesNotClash(api.objects, p);
          ok := CreateDeployment(p);
          if !ok {
            return;
          }
        case Some(d) =>
          if d.deleting {
            requeue := true;
            return;
          }
          var v := d.content.values;
          if Selector !in v || v[Selector] != p.selector {
            SetStatusCondition(ReadyCondition, No, RecreatingDeployment, svc.generation, now);
            ok := api.Delete(DeploymentKind);
            requeue := true;
            return;
          }
      }
      var r := api.Apply(DeploymentKind, MAIN, p.configs[DeploymentKind], true);
      if r != Done {
        return false, false;
      }
      ok, current := api.Get(DeploymentKind);
    }

    method ReconcileAutoscaling(svc: InferenceService, p: Plan, seen: Observed, now: int) returns (ok: bool)
      requires Sound(p) && Fits(p, svc, api.env)
      modifies api, this`status
      ensures ok ==> api.objects == AfterAutoscaling(old(api.objects), p)
      ensures ok ==> status == AutoscalingSet(old(status), svc, api.env, seen, now)
      ensures !ok ==> api.objects == old(api.objects) || api.objects == AfterAutoscaling(old(api.objects), p)
      ensures !ok ==> status == old(status) || status == AutoscalingSet(old(status), svc, api.env, seen, now)
      ensures !ok ==> api.goodCalls == 0
    {
      hide Merge, SetCondition;
      if svc.spec.backend == Ollama {
        SetStatusCondition(AutoscalingCondition, No, BackendNotSupported, svc.generation, now);
        ok := DeleteIfOwned(p, ScaledObjectKind);
        return;
      }
      var r := api.Apply(ScaledObjectKind, MAIN, p.configs[ScaledObjectKind], true);
      if r == NoMatch {
        SetStatusCondition(AutoscalingCondition, No, KedaNotInstalled, svc.generation, now);
        return true;
      }
      if r != Done {
        return false;
      }
      var found;
      ok, found := api.Get(ScaledObjectKind);
      if !ok {
        return;
      }
      var v := ScaledObjectReady(seen.keda);
      match v.status {
        case Yes => SetStatusCondition(AutoscalingCondition, Yes, ScalerReady, svc.generation, now);
        case No =>
          SetStatusCondition(AutoscalingCondition, No, ScalerNotReady(v.reason, v.message), svc.generation, now);
        case Unknown => SetStatusCondition(AutoscalingCondition, Unknown, WaitingForKeda, svc.generation, now);
      }
    }

    method ReconcileRouting(svc: InferenceService, p: Plan, now: int) returns (ok: bool)
      requires Sound(p) && Fits(p, svc, api.env)
      modifies api, this`status
      ensures ok ==> api.objects == AfterRouting(old(api.objects), p)
      ensures ok ==> status == Set(old(status), RoutingCondition, RoutingReport(api.env), svc.generation, now)
      ensures !ok ==> api.objects == old(api.objects) && status == old(status) && api.goodCalls == 0
    {
      var r := api.Apply(InferencePoolKind, MAIN, p.configs[InferencePoolKind], true);
      if r == NoMatch {
        SetStatusCondition(RoutingCondition, No, InferencePoolNotInstalled, svc.generation, now);
        return true;
      }
      if r != Done {
        return false;
      }
      SetStatusCondition(RoutingCondition, Yes, InferencePoolApplied, svc.generation, now);
      return true;
    }

    // The last part of a pass: replicas, endpoint, phase and readiness.
    method ReportReadiness(svc: InferenceService, seen: Observed, now: int) returns (result: Requeue)
      modifies api`goodCalls, this`status
      ensures result != Retry ==>
                && result == Interval(Completed, seen)
                && status == Set(old(status), ReadyCondition, ReadyReport(seen), svc.generation, now).(
                               readyReplicas := seen.readyReplicas,
                               endpoint := Some(Endpoint(svc.name, svc.namespace, SERVING_PORT)),
                               phase := FinalPhase(seen))
      ensures result == Retry ==> api.goodCalls == 0 && status == Served(old(status), svc, seen)
    {
      status := status.(readyReplicas := seen.readyReplicas,
                        endpoint := Some(Endpoint(svc.name, svc.namespace, SERVING_PORT)));
      if seen.readyReplicas > 0 {
        status := status.(phase := Ready);
        SetStatusCondition(ReadyCondition, Yes, MinimumReplicasAvailable, svc.generation, now);
        return Seconds(300);
      }
      var listed := api.Reach();
      if !listed {
        return Retry;
      }
      var trouble := PodTrouble(seen.pods);
      if trouble != NoTrouble {
        status := status.(phase := PhaseOf(trouble));
        SetStatusCondition(ReadyCondition, No, PodTroubled(trouble), svc.generation, now);
      } else {
        status := status.(phase := Loading);
        SetStatusCondition(ReadyCondition, No, WeightsLoading, svc.generation, now);
      }
      return Seconds(30);
    }

    method ReconcileClaimTemplate(svc: InferenceService, p: Plan) returns (ok: bool)
      requires Sound(p) && Fits(p, svc, api.env)
      modifies api
      ensures api.objects == if ok then AfterTemplate(old(api.objects), p) else old(api.objects)
      ensures !ok ==> api.goodCalls == 0
    {
      if svc.spec.deviceClass != "" {
        var r := api.Apply(ClaimTemplateKind, MAIN, p.configs[ClaimTemplateKind], true);
        ok := r == Done;
      } else {
        ok := DeleteIfOwned(p, ClaimTemplateKind);
      }
    }

    // The pass without the final status write. When a call fails it has made some
    // of its calls and some of its reports.
    method ReconcileOnce(svc: InferenceService, p: Plan, seen: Observed, now: int)
      returns (result: Requeue, ghost calls: nat, ghost reports: nat)
      requires Sound(p) && Fits(p, svc, api.env)
      modifies api, this`status
      ensures result != Retry ==>
                && api.objects == (if PolicyViolation(svc).Some? then old(api.objects) else Pass(old(api.objects), p))
                && status == StatusBeforeStamp(old(status), svc, api.env, seen,
                                               ProgressOf(old(api.objects), svc, p), now)
                && result == Interval(ProgressOf(old(api.objects), svc, p), seen)
      ensures result == Retry ==>
                && PolicyViolation(svc).None? && api.goodCalls == 0
                && api.objects == PassPart(old(api.objects), p, calls)
                && status == StatusPart(old(status), svc, api.env, seen, ProgressOf(old(api.objects), svc, p),
                                        now, reports)
    {
      hide Merge, SetCondition, FirstTrouble, AutoscalingReport, ReadyReport, FinalPhase, AfterTemplate,
        AfterDeployment, AfterAutoscaling, AfterRouting, AfterCreate, Ensure, DeploymentCut, CutAt, PassPart;
      calls, reports := 0, 0;
      ghost var c0 := api.objects;
      WholeOrNothing(c0, svc, p);
      var violation := PolicyViolation(svc);
      if violation.Some? {
        SetStatusCondition(AdmittedCondition, No, PolicyViolated(violation.value), svc.generation, now);
        status := status.(phase := Rejected);
        result := Never;
        return;
      }
      SetStatusCondition(AdmittedCondition, Yes, PolicySatisfied, svc.generation, now);
      reports := 1;
      var ok := ReconcileClaimTemplate(svc, p);
      if !ok {
        result := Retry;
        return;
      }
      ghost var c1, s1 := api.objects, status;
      var requeue;
      ok, requeue := ReconcileDeployment(svc, p, now);
      if !ok {
        calls := CutAt(c1, api.objects, p);
        CutIsPart(c0, api.objects, p);
        reports := if status == s1 then 1 else 2;
        result := Retry;
        return;
      }
      if requeue {
        result := Seconds(5);
        return;
      }
      ghost var made := if DeploymentIn(c1, p) == Absent then 4 else 2;
      TailIsPart(c0, p, 0);
      TailIsPart(c0, p, 1);
      TailIsPart(c0, p, 2);
      TailIsPart(c0, p, 3);
      var r := api.Apply(ServiceKind, MAIN, p.configs[ServiceKind], true);
      if r != Done {
        calls, result := made, Retry;
        return;
      }
      PutIsEnsure(AfterDeployment(c1, p), p);
      ghost var c3 := api.objects;
      ok := ReconcileAutoscaling(svc, p, seen, now);
      if !ok {
        calls := made + if api.objects == c3 then 1 else 2;
        reports := if status == s1 then 1 else 2;
        result := Retry;
        return;
      }
      ok := ReconcileRouting(svc, p, now);
      if !ok {
        calls, reports, result := made + 2, 2, Retry;
        return;
      }
      result := ReportReadiness(svc, seen, now);
      calls, reports := made + 3, 4;
    }

    // One pass for the service the first read found, if it did. The status is written
    // back only when it changed, also after a pass that failed; the write can fail
    // too.
    method Reconcile(found: Option<InferenceService>, seen: Observed, now: int) returns (result: Requeue)
      modifies api, this
      ensures statusWrites == old(statusWrites) + (if status == old(status) then 0 else 1)
      ensures found.None? ==> api.objects == old(api.objects) && status == old(status)
      ensures found.None? ==> result == Never || (result == Retry && api.goodCalls == 0)
      ensures found.Some? ==> Sound(PlanOf(found.value, api.env))
      ensures found.Some? && PolicyViolation(found.value).Some? ==>
                api.objects == old(api.objects) && (result == Never || result == Retry)
      ensures found.Some? && result != Retry ==>
                var p := PlanOf(found.value, api.env);
                && api.objects == ClusterAfter(old(api.objects), found.value, api.env)
                && status == NextStatus(old(status), found.value, api.env, seen,
                                        ProgressOf(old(api.objects), found.value, p), now)
                && result == Interval(ProgressOf(old(api.objects), found.value, p), seen)
      ensures found.Some? && result == Retry ==>
                var p := PlanOf(found.value, api.env);
                && api.goodCalls == 0
                && (exists calls: nat :: api.objects == PassPart(old(api.objects), p, calls))
                && (status == old(status)
                    || exists reports: nat ::
                         status == StatusPart(old(status), found.value, api.env, seen,
                                              ProgressOf(old(api.objects), found.value, p), now, reports).(
                                     observedGeneration := found.value.generation))
    {
      hide Pass, PassPart, PlanOf, Fits, StatusBeforeStamp, StatusPart;
      if found.Some? {
        PlanIsSound(found.value, api.env);
        WholeOrNothing(api.objects, found.value, PlanOf(found.value, api.env));
      }
      var read := api.Reach();
      if !read {
        return Retry;
      }
      match found {
        case None => return Never;
        case Some(svc) =>
          PlanFits(svc, api.env);
          var before := status;
          ghost var start, p := api.objects, PlanOf(svc, api.env);
          ghost var calls, reports;
          result, calls, reports := ReconcileOnce(svc, PlanOf(svc, api.env), seen, now);
          status := status.(observedGeneration := svc.generation);
          if before != status {
            var written := api.Reach();
            if written {
              statusWrites := statusWrites + 1;
            } else {
              if result != Retry { WholeOrNothing(start, svc, p); }
              status := before;
              result := Retry;
            }
          }
      }
    }
  }

  // Where the Deployment's part of a pass can be cut short.
  predicate DeploymentCut(c: Cluster, c': Cluster, p: Plan)
    requires Sound(p)
  {
    || c' == c || c' == AfterDeployment(c, p)
    || (DeploymentIn(c, p) == Absent && (c' == Ensure(c, p, DeploymentKind) || c' == AfterCreate(c, p)))
  }

  ghost function CutAt(c: Cluster, c': Cluster, p: Plan): (calls: nat)
    requires Sound(p) && DeploymentCut(c, c', p)
  {
    if c' == c then 1
    else if DeploymentIn(c, p) == Absent && c' == Ensure(c, p, DeploymentKind) then 2
    else if DeploymentIn(c, p) == Absent && c' == AfterCreate(c, p) then 3
    else if DeploymentIn(c, p) == Absent then 4
    else 2
  }

  lemma CutIsPart(c: Cluster, c': Cluster, p: Plan)
    requires Sound(p) && DeploymentCut(AfterTemplate(c, p), c', p)
    ensures PassPart(c, p, CutAt(AfterTemplate(c, p), c', p)) == c'
  {
    hide AfterTemplate, AfterDeployment, AfterCreate, Ensure;
  }

  lemma TailIsPart(c: Cluster, p: Plan, n: nat)
    requires Sound(p) && Proceeds(c, p)
    ensures var c1 := AfterTemplate(c, p);
      PassPart(c, p, (if DeploymentIn(c1, p) == Absent then 4 else 2) + n)
      == PassTail(AfterDeployment(c1, p), p, true, n)
  {
    hide AfterTemplate, AfterDeployment, AfterCreate, Ensure, PassTail;
  }

  lemma PutIsEnsure(c: Cluster, p: Plan)
    requires Sound(p)
    ensures Put(c, ServiceKind, MAIN, p.configs[ServiceKind]) == Ensure(c, p, ServiceKind)
  {
  }

  lemma NewDoesNotClash(c: Cluster, p: Plan)
    requires Sound(p) && CreatesInTwo(p) && DeploymentKind !in c
    ensures Conflicts(Content(Ensure(c, p, DeploymentKind), DeploymentKind), INITIAL, p.initial) == {}
  {
    InitialDoesNotClash(p);
  }

  // A rejected pass makes no call and a completed one all of them.
  lemma WholeOrNothing(c: Cluster, svc: InferenceService, p: Plan)
    requires Sound(p)
    ensures PassPart(c, p, 0) == c && PassPart(c, p, 7) == Pass(c, p)
  {
    SevenCallsAreAPass(c, p, 7);
  }

  function AutoscalingSet(st: Status, svc: InferenceService, env: Env, seen: Observed, now: int): Status {
    Set(st, AutoscalingCondition, AutoscalingReport(svc, env, seen), svc.generation, now)
  }

  function Served(st: Status, svc: InferenceService, seen: Observed): Status {
    st.(readyReplicas := seen.readyReplicas, endpoint := Some(Endpoint(svc.name, svc.namespace, SERVING_PORT)))
  }

  // The status after the first reports of an admitted pass.
  function StatusPart(st: Status, svc: InferenceService, env: Env, seen: Observed, g: Progress, now: int,
                      reports: nat): Status
  {
    if reports == 0 then st
    else
      var s1 := Set(st, AdmittedCondition, (Yes, PolicySatisfied), svc.generation, now);
      if reports == 1 then s1
      else if g == Recreating then Set(s1, ReadyCondition, (No, RecreatingDeployment), svc.generation, now)
      else
        var s2 := AutoscalingSet(s1, svc, env, seen, now);
        var s3 := Set(s2, RoutingCondition, RoutingReport(env), svc.generation, now);
        if reports == 2 then s2 else if reports == 3 then s3 else Served(s3, svc, seen)
  }

  // A rejected spec touches nothing.
  ghost function ClusterAfter(c: Cluster, svc: InferenceService, env: Env): Cluster
    requires Sound(PlanOf(svc, env))
  {
    if PolicyViolation(svc).Some? then c else Pass(c, PlanOf(svc, env))
  }

  function Interval(g: Progress, seen: Observed): Requeue {
    match g
    case Refused(_) => Never
    case Recreating => Seconds(5)
    case Waits => Seconds(5)
    case Completed => if seen.readyReplicas > 0 then Seconds(300) else Seconds(30)
  }

  lemma InitialDoesNotClash(p: Plan)
    requires Sound(p) && CreatesInTwo(p)
    ensures Conflicts(Merge(EMPTY, MAIN, p.configs[DeploymentKind], DEFAULTS), INITIAL, p.initial) == {}
  {
  }

  // What the steps of a pass read off the spec, the plan records.
  predicate Fits(p: Plan, svc: InferenceService, env: Env)
    requires Sound(p)
  {
    && (ClaimTemplateKind in p.wanted <==> svc.spec.deviceClass != "")
    && (ScaledObjectKind in p.wanted <==> svc.spec.backend != Ollama && env.keda)
    && (InferencePoolKind in p.wanted <==> env.pools)
    && (p.scales <==> svc.spec.backend != Ollama)
    && CreatesInTwo(p)
  }

  // The main configuration never lists the count, and the other lists only it.
  predicate CreatesInTwo(p: Plan)
    requires Sound(p)
  {
    Replicas !in p.configs[DeploymentKind] && p.initial.Keys == {Replicas}
  }

  lemma PlanFits(svc: InferenceService, env: Env)
    requires Sound(PlanOf(svc, env))
    ensures Fits(PlanOf(svc, env), svc, env)
  {
    hide DesiredDeployment, DesiredClaimTemplate, DesiredService, DesiredScaledObject, DesiredInferencePool;
    ContainerFields(svc);
  }
}
