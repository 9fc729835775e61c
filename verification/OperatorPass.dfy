/** Joins the two views of the operator: its whole pass is one run of the
    interleaving model without interference, and at the fixed point a pass writes
    nothing at all. */
module OperatorPass {
  import opened Wrappers
  import opened ServerSideApply
  import opened Resources
  import opened DeploymentApply
  import opened ClusterState
  import opened Convergence
  import opened ServiceStatus
  import Reconciler
  import RO = ReplicaOwnership

  // The steps of an undisturbed pass whose read tells the truth.
  function PassSteps(d: DeploymentState): seq<RO.Step> {
    match d
    case Absent => [RO.StartPass, RO.ReadReturns(RO.NotFound), RO.Call, RO.Call, RO.Call]
    case BeingDeleted => [RO.StartPass, RO.ReadReturns(RO.Read.BeingDeleted)]
    case WrongSelector => [RO.StartPass, RO.ReadReturns(RO.StaleSelector), RO.Call]
    case Usable => [RO.StartPass, RO.ReadReturns(RO.UpToDate), RO.Call]
  }

  // The interleaving model's Deployment is the cluster's.
  predicate SameDeployment(w: RO.World, c: Cluster) {
    && (w.dep.Some? <==> DeploymentKind in c)
    && (w.dep.Some? ==> w.dep.value.content == c[DeploymentKind].content
                        && w.dep.value.deleting == c[DeploymentKind].deleting)
  }

  lemma {:induction false} RunConcat(w: RO.World, a: seq<RO.Step>, b: seq<RO.Step>)
    ensures RO.Run(w, a + b) == RO.Run(RO.Run(w, a), b)
  {
    if b == [] {
      assert a + b == a;
    } else {
      var n := |b| - 1;
      assert (a + b)[..|a + b| - 1] == a + b[..n];
      RunConcat(w, a, b[..n]);
    }
  }

  lemma RunFirst(w: RO.World, s: seq<RO.Step>)
    requires s != []
    ensures RO.Run(w, s) == RO.Run(RO.Next(w, s[0]), s[1..])
  {
    assert s == s[..1] + s[1..];
    RunConcat(w, s[..1], s[1..]);
    assert s[..1][..0] == [] && RO.Run(w, []) == w;
  }

  // What one pass does to the Deployment is what its calls do one by one.
  lemma PassIsItsCalls(w: RO.World, c: Cluster, env: Env)
    requires Sound(PlanOf(w.svc, env)) && w.op.Idle? && SameDeployment(w, c)
    ensures var p := PlanOf(w.svc, env);
      && SameDeployment(RO.Run(w, PassSteps(DeploymentIn(c, p))), Pass(c, p))
      && RO.Run(w, PassSteps(DeploymentIn(c, p))).op.Idle?
  {
    hide Merge, Pass, PlanOf, DesiredDeployment, InitialReplicas, PassSteps, Applied, AfterCreate;
    var p := PlanOf(w.svc, env);
    var d := DeploymentIn(c, p);
    PassAt(c, p);
    ConfigsOf(w.svc, env);
    Reconciler.PlanFits(w.svc, env);
    if d == Absent {
      Reconciler.InitialDoesNotClash(p);
      CreateChain(c, p);
    } else {
      AppliedTo(c, p);
    }
    CallsByCase(w, d);
    assert DeploymentPart(c, Pass(c, p), p);
  }

  lemma AppliedTo(c: Cluster, p: Plan)
    requires Sound(p) && DeploymentKind in c
    ensures Applied(c, p, DeploymentKind) ==
            c[DeploymentKind].(content := Merge(c[DeploymentKind].content, MAIN, p.configs[DeploymentKind], DEFAULTS))
  {
    hide Merge;
  }

  lemma CreateChain(c: Cluster, p: Plan)
    requires Sound(p) && DeploymentKind !in c
    ensures Applied(AfterCreate(c, p), p, DeploymentKind) ==
            Item(Merge(Merge(Merge(EMPTY, MAIN, p.configs[DeploymentKind], DEFAULTS), INITIAL, p.initial, DEFAULTS),
                       MAIN, p.configs[DeploymentKind], DEFAULTS), false)
  {
    hide Merge;
  }

  lemma ConfigsOf(svc: InferenceService, env: Env)
    ensures PlanOf(svc, env).configs[DeploymentKind] == DesiredDeployment(svc)
    ensures PlanOf(svc, env).initial == InitialReplicas(svc)
  {
  }

  lemma CallsByCase(w: RO.World, d: DeploymentState)
    requires w.op.Idle? && (d == Absent <==> w.dep.None?)
    requires d == Absent ==>
               Conflicts(Merge(EMPTY, MAIN, DesiredDeployment(w.svc), DEFAULTS), INITIAL, InitialReplicas(w.svc)) == {}
    ensures var w' := RO.Run(w, PassSteps(d));
      var config := DesiredDeployment(w.svc);
      && w'.op.Idle?
      && (d == Absent ==>
            w'.dep.Some? && !w'.dep.value.deleting
            && w'.dep.value.content == Merge(Merge(Merge(EMPTY, MAIN, config, DEFAULTS),
                                                   INITIAL, InitialReplicas(w.svc), DEFAULTS),
                                             MAIN, config, DEFAULTS))
      && (d == BeingDeleted ==> w'.dep == w.dep)
      && (d == WrongSelector ==> w'.dep == Some(w.dep.value.(deleting := true)))
      && (d == Usable ==> w'.dep == Some(w.dep.value.(content := Merge(w.dep.value.content, MAIN, config, DEFAULTS))))
  {
    hide Merge, DesiredDeployment;
    var s := PassSteps(d);
    RunFirst(w, s);
    var w1 := RO.Next(w, s[0]);
    RunFirst(w1, s[1..]);
    var w2 := RO.Next(w1, s[1]);
    if |s| > 2 {
      RunFirst(w2, s[2..]);
      var w3 := RO.Next(w2, s[2]);
      if |s| > 3 {
        RunFirst(w3, s[3..]);
        RunFirst(RO.Next(w3, s[3]), s[4..]);
      }
    }
  }

  // A pass for a spec against the rules touches no object, whatever there is,
  // sets Admitted=False with the rule and the phase to Rejected, and leaves every
  // other condition.
  lemma RefusedPass(c: Cluster, svc: InferenceService, env: Env, st: Status, seen: Observed, now: int)
    requires (svc.spec.classification == Restricted && (svc.spec.deviceClass == "" || svc.spec.backend == Ollama))
             || (svc.spec.backend == VLLM && svc.spec.deviceClass == "")
    ensures Sound(PlanOf(svc, env)) && Reconciler.ClusterAfter(c, svc, env) == c
    ensures var g := ProgressOf(c, svc, PlanOf(svc, env));
      var r := NextStatus(st, svc, env, seen, g, now);
      && g.Refused? && Reconciler.Interval(g, seen) == Reconciler.Never
      && r.phase == Rejected && ConditionIs(r, AdmittedCondition, No)
      && Find(r.conditions, AdmittedCondition).value.reason == PolicyViolated(g.violation)
      && (forall k | k != AdmittedCondition :: Find(r.conditions, k) == Find(st.conditions, k))
      && r.readyReplicas == st.readyReplicas && r.endpoint == st.endpoint
  {
    PlanIsSound(svc, env);
    PolicyMeans(svc);
    hide PlanOf, NextStatus, Pass;
    var g := ProgressOf(c, svc, PlanOf(svc, env));
    EarlyStatus(st, svc, env, seen, g, now);
    hide Find, ProgressOf;
    forall k | k != AdmittedCondition
      ensures Find(NextStatus(st, svc, env, seen, g, now).conditions, k) == Find(st.conditions, k)
    {
      assert k == ReadyCondition || k == AutoscalingCondition || k == RoutingCondition;
    }
  }

  // And for any other spec a pass is not refused.
  lemma AdmittedPass(c: Cluster, svc: InferenceService, env: Env)
    requires svc.spec.classification == Restricted ==> svc.spec.deviceClass != "" && svc.spec.backend == VLLM
    requires svc.spec.backend == VLLM ==> svc.spec.deviceClass != ""
    ensures Sound(PlanOf(svc, env)) && !ProgressOf(c, svc, PlanOf(svc, env)).Refused?
    ensures Reconciler.ClusterAfter(c, svc, env) == Pass(c, PlanOf(svc, env))
  {
    PlanIsSound(svc, env);
    PolicyMeans(svc);
    hide PlanOf, Pass;
  }

  // At the fixed point a pass runs to the end, leaves the cluster as it is, and
  // after the first one leaves the status as it is too, so nothing is written.
  lemma FixedPoint(c: Cluster, svc: InferenceService, env: Env, st: Status, seen: Observed, now: int, later: int)
    requires Well(c) && Sound(PlanOf(svc, env)) && Converged(c, PlanOf(svc, env)) && PolicyViolation(svc).None?
    ensures ProgressOf(c, svc, PlanOf(svc, env)) == Completed
    ensures Reconciler.ClusterAfter(c, svc, env) == c
    ensures var once := NextStatus(st, svc, env, seen, Completed, now);
      NextStatus(once, svc, env, seen, Completed, later) == once
  {
    var p := PlanOf(svc, env);
    hide Pass, PlanOf, Merge, NextStatus;
    PassKeepsConverged(c, p);
    PassAt(c, p);
    CompletedStatus(st, svc, env, seen, now);
    FixedStatusStays(NextStatus(st, svc, env, seen, Completed, now), svc, env, seen, later);
  }

  // Together: from any cluster, once passes and completed deletions have
  // alternated twice, the cluster is the one the spec describes, every further
  // pass runs to the end and leaves it, and from the second one on leaves the
  // status too.
  lemma ReachesFixedPoint(c: Cluster, svc: InferenceService, env: Env, events: seq<Event>,
                          st: Status, seen: Observed, now: int, later: int)
    requires Well(c) && Possible(c, env) && PolicyViolation(svc).None?
    requires Remaining(4, events) == 0
    ensures Sound(PlanOf(svc, env))
    ensures var c' := AfterAll(c, PlanOf(svc, env), events);
      && Matches(c', svc, env)
      && ProgressOf(c', svc, PlanOf(svc, env)) == Completed
      && Reconciler.ClusterAfter(c', svc, env) == c'
    ensures var once := NextStatus(st, svc, env, seen, Completed, now);
      NextStatus(once, svc, env, seen, Completed, later) == once
  {
    hide AfterAll, Remaining, Matches, Converged, PlanOf, NextStatus, Well, Possible;
    Converges(c, svc, env, events);
    FixedPoint(AfterAll(c, PlanOf(svc, env), events), svc, env, st, seen, now, later);
  }
}
