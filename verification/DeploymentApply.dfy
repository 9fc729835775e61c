/** What repeated applies do to the serving Deployment: which fields and which
    containers it ends up with, and who owns the replica count. */
module DeploymentApply {
  import opened ServerSideApply
  import opened Resources

  const MAIN := Manager("inference-operator", Operation.Apply)
  const INITIAL := Manager("inference-operator-initial-replicas", Operation.Apply)
  // The server fills in one replica when nobody supplies a count.
  const DEFAULTS: Config := map[Replicas := Number(1)]
  const EMPTY: Stored := Object(map[], {})

  function Desired(svcs: seq<InferenceService>): seq<Config> {
    seq(|svcs|, i requires 0 <= i < |svcs| => DesiredDeployment(svcs[i]))
  }

  lemma ContainerFields(svc: InferenceService)
    ensures Replicas !in DesiredDeployment(svc)
    ensures forall f | f in DesiredDeployment(svc) && f.InContainer? :: f.container == ContainerName(svc)
    ensures InContainer(ContainerName(svc), Name) in DesiredDeployment(svc)
    ensures Containers(DesiredDeployment(svc)) == {ContainerName(svc)}
  {
  }

  // Containers of the starting object that no configuration could take over.
  function LeftOver(o: Stored, configs: seq<Config>): set<ContainerId> {
    set f | f in o.values && f.InContainer? && Survives(o, MAIN, configs, f) :: f.container
  }

  lemma ContainersAfter(o: Stored, configs: seq<Config>)
    requires Valid(o) && configs != []
    ensures Containers(ApplyAll(o, MAIN, configs, DEFAULTS).values)
         == Containers(configs[|configs| - 1]) + LeftOver(o, configs)
  {
    var r := ApplyAll(o, MAIN, configs, DEFAULTS);
    ApplyAllResult(o, MAIN, configs, DEFAULTS);
    var last := configs[|configs| - 1];
    forall c | c in Containers(r.values)
      ensures c in Containers(last) + LeftOver(o, configs)
    {
      var f :| f in r.values && f.InContainer? && f.container == c;
      assert f !in last ==> Survives(o, MAIN, configs, f);
    }
  }

  // Any chain of specs, from any starting object: the pod is left with the
  // container of the last backend, and of the starting object only those that
  // the chain could not take over.
  lemma BackendSwitches(o: Stored, svcs: seq<InferenceService>)
    requires Valid(o) && svcs != []
    ensures Containers(ApplyAll(o, MAIN, Desired(svcs), DEFAULTS).values)
         == {ContainerName(svcs[|svcs| - 1])} + LeftOver(o, Desired(svcs))
  {
    ContainersAfter(o, Desired(svcs));
    ContainerFields(svcs[|svcs| - 1]);
  }

  // A Deployment only ever applied has exactly one container.
  lemma OneContainer(svcs: seq<InferenceService>)
    requires svcs != []
    ensures Containers(ApplyAll(EMPTY, MAIN, Desired(svcs), DEFAULTS).values)
         == {ContainerName(svcs[|svcs| - 1])}
  {
    BackendSwitches(EMPTY, svcs);
  }

  // Created by a plain write instead, the old container outlives the switch: the
  // write is recorded under the other operation, so applies cannot remove it.
  lemma PlainCreateKeepsOldContainer(name: string, before: InferenceService, after: InferenceService)
    requires before.spec.backend != after.spec.backend
    ensures var created := UpdateWrite(EMPTY, Manager(name, Update), DesiredDeployment(before), DEFAULTS);
      Containers(Merge(created, MAIN, DesiredDeployment(after), DEFAULTS).values)
      == {VllmContainerId, OllamaContainerId}
  {
    hide DesiredDeployment;
    var m := Manager(name, Update);
    var created := UpdateWrite(EMPTY, m, DesiredDeployment(before), DEFAULTS);
    var r := Merge(created, MAIN, DesiredDeployment(after), DEFAULTS);
    ContainerFields(before);
    ContainerFields(after);
    forall f: Field | f.InContainer?
      ensures f in r.values <==> f in DesiredDeployment(before) || f in DesiredDeployment(after)
    {
      MergeAt(created, MAIN, DesiredDeployment(after), DEFAULTS, f);
      if f in DesiredDeployment(before) {
        assert (m, f) in created.owners;
      }
    }
    assert InContainer(VllmContainerId, Name) in r.values && InContainer(OllamaContainerId, Name) in r.values;
  }

  // A single manager that sets the count and then leaves it out loses it.
  lemma SingleManagerLosesCount(svc: InferenceService, count: int)
    ensures var first := Merge(EMPTY, MAIN, DesiredDeployment(svc)[Replicas := Number(count)], DEFAULTS);
      && first.values[Replicas] == Number(count)
      && Merge(first, MAIN, DesiredDeployment(svc), DEFAULTS).values[Replicas] == Number(1)
  {
  }
}
