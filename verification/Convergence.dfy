/** However the cluster starts, passes and completed deletions in any order, with
    passes cut short among them, drive it to the state the spec asks for, after
    which a pass changes nothing. */
module Convergence {
  import opened ServerSideApply
  import opened Resources
  import opened DeploymentApply
  import opened ClusterState

  // A pass may be cut short by a crash or a failing call, after any number of its
  // calls.
  datatype Event = RunPass | CutShort(calls: nat) | DeletionsFinish

  // The cluster after the first calls of a pass.
  function PassPart(c: Cluster, p: Plan, calls: nat): Cluster
    requires Sound(p)
  {
    if calls == 0 then c
    else
      var c1 := AfterTemplate(c, p);
      if calls == 1 then c1
      else if DeploymentIn(c1, p) == Absent && calls == 2 then Ensure(c1, p, DeploymentKind)
      else if DeploymentIn(c1, p) == Absent && calls == 3 then AfterCreate(c1, p)
      else PassTail(AfterDeployment(c1, p), p, Proceeds(c, p), calls - if DeploymentIn(c1, p) == Absent then 4 else 2)
  }

  function PassTail(c: Cluster, p: Plan, proceeds: bool, calls: nat): Cluster
    requires Sound(p)
  {
    if !proceeds || calls == 0 then c
    else
      var c3 := Ensure(c, p, ServiceKind);
      if calls == 1 then c3
      else if calls == 2 then AfterAutoscaling(c3, p)
      else AfterRouting(AfterAutoscaling(c3, p), p)
  }

  // A pass has at most seven calls.
  lemma SevenCallsAreAPass(c: Cluster, p: Plan, calls: nat)
    requires Sound(p) && calls >= 7
    ensures PassPart(c, p, calls) == Pass(c, p)
  {
    hide AfterTemplate, AfterDeployment, AfterAutoscaling, AfterRouting, Ensure;
  }

  function After(c: Cluster, p: Plan, e: Event): Cluster
    requires Sound(p)
  {
    match e
    case RunPass => Pass(c, p)
    case CutShort(calls) => PassPart(c, p, calls)
    case DeletionsFinish => Finish(c)
  }

  function AfterAll(c: Cluster, p: Plan, events: seq<Event>): Cluster
    requires Sound(p)
  {
    if events == [] then c
    else After(AfterAll(c, p, events[..|events| - 1]), p, events[|events| - 1])
  }

  // An object the operator deletes when it sees it.
  predicate Unneeded(c: Cluster, p: Plan, k: Kind) {
    && ((k == ClaimTemplateKind && k !in p.wanted) || (k == ScaledObjectKind && !p.scales))
    && Controlled(c, p, k)
  }

  // Applying this kind again would leave it exactly as it is.
  predicate Settled(c: Cluster, p: Plan, k: Kind)
    requires k in p.configs
  {
    k in c && !c[k].deleting && Merge(c[k].content, MAIN, p.configs[k], DefaultsOf(k)) == c[k].content
  }

  // No Deployment and no claim template that still has to be deleted.
  predicate NothingToDelete(c: Cluster, p: Plan) {
    && DeploymentIn(c, p) != WrongSelector
    && (Unneeded(c, p, ClaimTemplateKind) ==> c[ClaimTemplateKind].deleting)
  }

  predicate NothingInTheWay(c: Cluster, p: Plan) {
    && NothingToDelete(c, p)
    && !Unneeded(c, p, ClaimTemplateKind)
    && forall k | k in c && k in p.wanted :: !c[k].deleting
  }

  predicate AllSettled(c: Cluster, p: Plan)
    requires Sound(p)
  {
    && NothingInTheWay(c, p)
    && DeploymentIn(c, p) == Usable
    && (forall k | k in p.wanted :: Settled(c, p, k))
    && (Unneeded(c, p, ScaledObjectKind) ==> c[ScaledObjectKind].deleting)
  }

  predicate Converged(c: Cluster, p: Plan)
    requires Sound(p)
  {
    && AllSettled(c, p)
    && !Unneeded(c, p, ScaledObjectKind)
    && forall k | k in c :: !c[k].deleting
  }

  // How far the cluster still is from the spec.
  function Distance(c: Cluster, p: Plan): nat
    requires Sound(p)
  {
    if Converged(c, p) then 0
    else if AllSettled(c, p) then 1
    else if NothingInTheWay(c, p) then 2
    else if NothingToDelete(c, p) then 3
    else 4
  }

  // What brings the cluster closer: a pass while something has to be deleted or
  // applied, completed deletions while something is on its way out.
  function NeededEvent(distance: nat): Event {
    if distance == 4 || distance == 2 then RunPass else DeletionsFinish
  }

  lemma WellPut(c: Cluster, k: Kind, m: Manager, config: Config)
    requires Well(c)
    ensures Well(Put(c, k, m, config))
  {
  }

  lemma WellDeployment(c: Cluster, p: Plan)
    requires Sound(p) && Well(c)
    ensures Well(AfterDeployment(c, p))
  {
    hide Merge;
    WellPut(c, DeploymentKind, MAIN, p.configs[DeploymentKind]);
    if DeploymentIn(c, p) == Absent {
      var c1 := Ensure(c, p, DeploymentKind);
      WellPut(c1, DeploymentKind, INITIAL, p.initial);
      WellPut(AfterCreate(c, p), DeploymentKind, MAIN, p.configs[DeploymentKind]);
    }
  }

  lemma WellPass(c: Cluster, p: Plan)
    requires Sound(p) && Well(c)
    ensures Well(AfterTemplate(c, p)) && Well(Pass(c, p))
  {
    hide Merge;
    WellPut(c, ClaimTemplateKind, MAIN, p.configs[ClaimTemplateKind]);
    var c1 := AfterTemplate(c, p);
    WellDeployment(c1, p);
    var c2 := AfterDeployment(c1, p);
    WellPut(c2, ServiceKind, MAIN, p.configs[ServiceKind]);
    var c3 := Ensure(c2, p, ServiceKind);
    WellPut(c3, ScaledObjectKind, MAIN, p.configs[ScaledObjectKind]);
    var c4 := AfterAutoscaling(c3, p);
    WellPut(c4, InferencePoolKind, MAIN, p.configs[InferencePoolKind]);
  }

  // What a pass does to the object of a kind it applies.
  function Applied(c: Cluster, p: Plan, k: Kind): Item
    requires k in p.configs
  {
    Item(Merge(Content(c, k), MAIN, p.configs[k], DefaultsOf(k)), k in c && c[k].deleting)
  }

  predicate SameAt(c: Cluster, c': Cluster, k: Kind) {
    (k in c <==> k in c') && (k in c ==> c[k] == c'[k])
  }

  predicate DroppedAt(c: Cluster, c': Cluster, p: Plan, k: Kind) {
    if Controlled(c, p, k) then k in c' && c'[k] == c[k].(deleting := true) else SameAt(c, c', k)
  }

  // A pass, one kind at a time.

  predicate TemplatePart(c: Cluster, c': Cluster, p: Plan)
    requires Sound(p)
  {
    if ClaimTemplateKind in p.wanted
    then ClaimTemplateKind in c' && c'[ClaimTemplateKind] == Applied(c, p, ClaimTemplateKind)
    else DroppedAt(c, c', p, ClaimTemplateKind)
  }

  predicate DeploymentPart(c: Cluster, c': Cluster, p: Plan)
    requires Sound(p)
  {
    match DeploymentIn(c, p)
    case BeingDeleted => SameAt(c, c', DeploymentKind)
    case WrongSelector => DeploymentKind in c' && c'[DeploymentKind] == c[DeploymentKind].(deleting := true)
    case Usable => DeploymentKind in c' && c'[DeploymentKind] == Applied(c, p, DeploymentKind)
    case Absent => DeploymentKind in c' && c'[DeploymentKind] == Applied(AfterCreate(c, p), p, DeploymentKind)
  }

  predicate LaterPart(c: Cluster, c': Cluster, p: Plan, k: Kind)
    requires Sound(p)
  {
    if !(DeploymentIn(c, p) == Absent || DeploymentIn(c, p) == Usable) then SameAt(c, c', k)
    else if k == ScaledObjectKind && !p.scales then DroppedAt(c, c', p, k)
    else if k in p.wanted then k in c' && c'[k] == Applied(c, p, k)
    else SameAt(c, c', k)
  }

  predicate Later(k: Kind) { k == ServiceKind || k == ScaledObjectKind || k == InferencePoolKind }

  lemma AfterDeploymentAt(c: Cluster, p: Plan)
    requires Sound(p)
    ensures var c' := AfterDeployment(c, p);
      DeploymentPart(c, c', p) && forall k | k != DeploymentKind :: SameAt(c, c', k)
  {
    hide Merge;
  }

  lemma TailAt(c: Cluster, p: Plan)
    requires Sound(p)
    ensures var c' := AfterRouting(AfterAutoscaling(Ensure(c, p, ServiceKind), p), p);
      && SameAt(c, c', ClaimTemplateKind) && SameAt(c, c', DeploymentKind)
      && (forall k | Later(k) :: if k == ScaledObjectKind && !p.scales then DroppedAt(c, c', p, k)
                                 else if k in p.wanted then k in c' && c'[k] == Applied(c, p, k)
                                 else SameAt(c, c', k))
  {
    hide Merge;
  }

  lemma PassAt(c: Cluster, p: Plan)
    requires Sound(p)
    ensures Proceeds(c, p) <==> DeploymentIn(c, p) == Absent || DeploymentIn(c, p) == Usable
    ensures TemplatePart(c, Pass(c, p), p) && DeploymentPart(c, Pass(c, p), p)
    ensures forall k | Later(k) :: LaterPart(c, Pass(c, p), p, k)
  {
    hide Merge, AfterTemplate, AfterDeployment, AfterAutoscaling, AfterRouting, Ensure, AfterCreate;
    var c1 := AfterTemplate(c, p);
    TemplateAt(c, p);
    SameDeployment(c, c1, p);
    var c2 := AfterDeployment(c1, p);
    AfterDeploymentAt(c1, p);
    assert DeploymentPart(c, c2, p);
    assert SameAt(c1, c2, ClaimTemplateKind);
    assert TemplatePart(c, c2, p);
    TailAt(c2, p);
    var c3 := AfterRouting(AfterAutoscaling(Ensure(c2, p, ServiceKind), p), p);
    assert DeploymentPart(c, c3, p);
    assert TemplatePart(c, c3, p);
    forall k | Later(k)
      ensures LaterPart(c, Pass(c, p), p, k)
    {
      assert SameAt(c, c1, k) && SameAt(c1, c2, k);
    }
  }

  lemma TemplateAt(c: Cluster, p: Plan)
    requires Sound(p)
    ensures var c' := AfterTemplate(c, p);
      TemplatePart(c, c', p) && forall k | k != ClaimTemplateKind :: SameAt(c, c', k)
  {
    hide Merge;
  }

  lemma SameDeployment(c: Cluster, c1: Cluster, p: Plan)
    requires Sound(p) && SameAt(c, c1, DeploymentKind)
    ensures DeploymentIn(c1, p) == DeploymentIn(c, p)
    ensures Applied(AfterCreate(c1, p), p, DeploymentKind) == Applied(AfterCreate(c, p), p, DeploymentKind)
  {
    hide Merge;
  }

  // An object once applied stays as it is under the same configuration.
  lemma AppliedIsSettled(c: Cluster, p: Plan, k: Kind)
    requires Well(c) && k in p.configs
    ensures var i := Applied(c, p, k);
      Merge(i.content, MAIN, p.configs[k], DefaultsOf(k)) == i.content
  {
    MergeTwice(Content(c, k), MAIN, p.configs[k], DefaultsOf(k));
  }

  lemma AppliedSelector(c: Cluster, p: Plan)
    requires Sound(p) && Well(c)
    ensures var v := Applied(c, p, DeploymentKind).content.values; Selector in v && v[Selector] == p.selector
  {
    MergeAt(Content(c, DeploymentKind), MAIN, p.configs[DeploymentKind], DEFAULTS, Selector);
  }

  lemma FinishAt(c: Cluster, k: Kind)
    ensures k in Finish(c) <==> k in c && !c[k].deleting
    ensures k in Finish(c) ==> Finish(c)[k] == c[k]
  {
  }

  lemma DeploymentAfterPass(c: Cluster, p: Plan)
    requires Sound(p) && Well(c)
    ensures var c', d := Pass(c, p), DeploymentIn(c, p);
      && DeploymentIn(c', p) == (if d == Absent || d == Usable then Usable else BeingDeleted)
      && (d == Absent || d == Usable ==> Settled(c', p, DeploymentKind))
  {
    hide Merge, Pass;
    PassAt(c, p);
    var base := if DeploymentIn(c, p) == Absent then AfterCreate(c, p) else c;
    if DeploymentIn(c, p) == Absent {
      WellPut(c, DeploymentKind, MAIN, p.configs[DeploymentKind]);
      WellPut(Ensure(c, p, DeploymentKind), DeploymentKind, INITIAL, p.initial);
    }
    AppliedSelector(base, p);
    AppliedIsSettled(base, p, DeploymentKind);
  }

  lemma TemplateAfterPass(c: Cluster, p: Plan)
    requires Sound(p) && Well(c)
    ensures var c' := Pass(c, p);
      && (Unneeded(c', p, ClaimTemplateKind) ==> Unneeded(c, p, ClaimTemplateKind) && c'[ClaimTemplateKind].deleting)
      && (ClaimTemplateKind in p.wanted && !(ClaimTemplateKind in c && c[ClaimTemplateKind].deleting)
          ==> Settled(c', p, ClaimTemplateKind))
  {
    hide Merge, Pass;
    PassAt(c, p);
    AppliedIsSettled(c, p, ClaimTemplateKind);
  }

  lemma LaterAfterPass(c: Cluster, p: Plan, k: Kind)
    requires Sound(p) && Well(c) && Later(k) && Proceeds(c, p)
    ensures var c' := Pass(c, p);
      && (k in p.wanted && !(k in c && c[k].deleting) ==> Settled(c', p, k))
      && (Unneeded(c', p, k) ==> Unneeded(c, p, k) && c'[k].deleting)
  {
    hide Merge, Pass;
    PassAt(c, p);
    AppliedIsSettled(c, p, k);
  }

  lemma PassProgress(c: Cluster, p: Plan)
    requires Sound(p) && Well(c)
    ensures var d, d' := Distance(c, p), Distance(Pass(c, p), p);
      d' <= d && (NeededEvent(d) == RunPass ==> d' < d)
  {
    hide Merge, Pass;
    var c' := Pass(c, p);
    DeploymentAfterPass(c, p);
    TemplateAfterPass(c, p);
    assert NothingToDelete(c', p);
    if NothingInTheWay(c, p) {
      PassAt(c, p);
      forall k | k in p.wanted
        ensures Settled(c', p, k)
      {
        if Later(k) { LaterAfterPass(c, p, k); }
      }
      LaterAfterPass(c, p, ScaledObjectKind);
      assert AllSettled(c', p);
      if Converged(c, p) { PassKeepsConverged(c, p); }
    }
  }

  lemma PassKeepsConverged(c: Cluster, p: Plan)
    requires Sound(p) && Well(c) && Converged(c, p)
    ensures Pass(c, p) == c
  {
    hide Merge, Pass;
    PassAt(c, p);
    forall k
      ensures SameAt(c, Pass(c, p), k)
    {
      assert k in p.wanted ==> Settled(c, p, k);
      assert Later(k) ==> LaterPart(c, Pass(c, p), p, k);
    }
    SameEverywhere(c, Pass(c, p));
  }

  lemma SameEverywhere(c: Cluster, c': Cluster)
    requires forall k :: SameAt(c, c', k)
    ensures c' == c
  {
    forall k
      ensures (k in c <==> k in c') && (k in c ==> c[k] == c'[k])
    {
      assert SameAt(c, c', k);
    }
  }

  lemma FinishProgress(c: Cluster, p: Plan)
    requires Sound(p) && Well(c)
    ensures var d, d' := Distance(c, p), Distance(Finish(c), p);
      d' <= d && (d > 0 && NeededEvent(d) == DeletionsFinish ==> d' < d)
  {
  }

  // ----- a pass cut short -----

  lemma WellTemplate(c: Cluster, p: Plan)
    requires Sound(p) && Well(c)
    ensures Well(AfterTemplate(c, p))
  {
    WellPass(c, p);
  }

  lemma WellEnsure(c: Cluster, p: Plan, k: Kind)
    requires k in p.configs && Well(c)
    ensures Well(Ensure(c, p, k))
  {
    WellPut(c, k, MAIN, p.configs[k]);
  }

  lemma WellTail(c: Cluster, p: Plan, proceeds: bool, calls: nat)
    requires Sound(p) && Well(c)
    ensures Well(PassTail(c, p, proceeds, calls))
  {
    hide Merge;
    WellEnsure(c, p, ServiceKind);
    var c3 := Ensure(c, p, ServiceKind);
    WellEnsure(c3, p, ScaledObjectKind);
    WellEnsure(AfterAutoscaling(c3, p), p, InferencePoolKind);
  }

  lemma WellPart(c: Cluster, p: Plan, calls: nat)
    requires Sound(p) && Well(c)
    ensures Well(PassPart(c, p, calls))
  {
    hide Merge, PassTail, AfterTemplate, AfterDeployment;
    WellTemplate(c, p);
    var c1 := AfterTemplate(c, p);
    WellEnsure(c1, p, DeploymentKind);
    WellPut(Ensure(c1, p, DeploymentKind), DeploymentKind, INITIAL, p.initial);
    WellDeployment(c1, p);
    if calls >= (if DeploymentIn(c1, p) == Absent then 4 else 2) {
      WellTail(AfterDeployment(c1, p), p, Proceeds(c, p), calls - if DeploymentIn(c1, p) == Absent then 4 else 2);
    }
  }

  // Applying one wanted object takes the cluster no further away.
  lemma EnsureIsNoFurther(c: Cluster, p: Plan, k: Kind)
    requires Sound(p) && Well(c) && k in p.wanted && (k == DeploymentKind ==> DeploymentIn(c, p) != WrongSelector)
    ensures Distance(Ensure(c, p, k), p) <= Distance(c, p)
  {
    hide Merge;
    if AllSettled(c, p) {
      assert Settled(c, p, k);
      assert Ensure(c, p, k) == c;
    } else if k == DeploymentKind {
      AppliedSelector(c, p);
    }
  }

  // So does deleting one that is not needed.
  lemma DropIsNoFurther(c: Cluster, p: Plan, k: Kind)
    requires Sound(p) && (k == ClaimTemplateKind || (k == ScaledObjectKind && !p.scales)) && k !in p.wanted
    ensures Distance(DropIfOwned(c, p, k), p) <= Distance(c, p)
  {
    hide Merge;
  }

  lemma TemplateIsNoFurther(c: Cluster, p: Plan)
    requires Sound(p) && Well(c)
    ensures Distance(AfterTemplate(c, p), p) <= Distance(c, p)
  {
    hide Distance, Ensure, DropIfOwned;
    if ClaimTemplateKind in p.wanted {
      EnsureIsNoFurther(c, p, ClaimTemplateKind);
    } else {
      DropIsNoFurther(c, p, ClaimTemplateKind);
    }
  }

  lemma CreateIsNoFurther(c: Cluster, p: Plan)
    requires Sound(p) && Well(c) && DeploymentIn(c, p) == Absent
    ensures Distance(AfterCreate(c, p), p) <= Distance(c, p)
    ensures DeploymentIn(AfterCreate(c, p), p) == Usable
  {
    hide Merge, Distance;
    CreatedSelector(c, p);
    var o := Merge(Applied(c, p, DeploymentKind).content, INITIAL, p.initial, DEFAULTS);
    assert AfterCreate(c, p) == c[DeploymentKind := Item(o, false)];
    NewDeployment(c, p, o);
  }

  lemma CreatedSelector(c: Cluster, p: Plan)
    requires Sound(p) && Well(c) && DeploymentIn(c, p) == Absent
    ensures var v := Merge(Applied(c, p, DeploymentKind).content, INITIAL, p.initial, DEFAULTS).values;
      Selector in v && v[Selector] == p.selector
  {
    AppliedSelector(c, p);
    MergeAt(EMPTY, MAIN, p.configs[DeploymentKind], DEFAULTS, Selector);
    assert forall n | (n, Selector) in Applied(c, p, DeploymentKind).content.owners :: n != INITIAL;
    hide Merge;
    SelectorStays(Applied(c, p, DeploymentKind).content, p);
  }

  lemma NewDeployment(c: Cluster, p: Plan, o: Stored)
    requires Sound(p) && DeploymentIn(c, p) == Absent && Selector in o.values && o.values[Selector] == p.selector
    ensures var c' := c[DeploymentKind := Item(o, false)];
      Distance(c', p) <= Distance(c, p) && DeploymentIn(c', p) == Usable
  {
    hide Settled;
  }

  lemma SelectorStays(o: Stored, p: Plan)
    requires Valid(o) && Selector in o.values && o.values[Selector] == p.selector
    requires (forall n | (n, Selector) in o.owners :: n != INITIAL) && Selector !in p.initial
    ensures var v := Merge(o, INITIAL, p.initial, DEFAULTS).values; Selector in v && v[Selector] == p.selector
  {
    MergeAt(o, INITIAL, p.initial, DEFAULTS, Selector);
  }

  lemma DeploymentIsNoFurther(c: Cluster, p: Plan)
    requires Sound(p) && Well(c)
    ensures Distance(AfterDeployment(c, p), p) <= Distance(c, p)
  {
    hide Merge, Put;
    match DeploymentIn(c, p)
    case Absent =>
      CreateIsNoFurther(c, p);
      WellEnsure(c, p, DeploymentKind);
      WellPut(Ensure(c, p, DeploymentKind), DeploymentKind, INITIAL, p.initial);
      hide Distance;
      EnsureIsNoFurther(AfterCreate(c, p), p, DeploymentKind);
    case Usable =>
      hide Distance;
      EnsureIsNoFurther(c, p, DeploymentKind);
    case BeingDeleted =>
    case WrongSelector => DistanceAtMostFour(AfterDeployment(c, p), p);
  }

  lemma TailIsNoFurther(c: Cluster, p: Plan, proceeds: bool, calls: nat)
    requires Sound(p) && Well(c)
    ensures Distance(PassTail(c, p, proceeds, calls), p) <= Distance(c, p)
  {
    hide Merge, Distance, Ensure, DropIfOwned;
    if proceeds && calls > 0 {
      EnsureIsNoFurther(c, p, ServiceKind);
      WellTail(c, p, true, 1);
      var c3 := Ensure(c, p, ServiceKind);
      if calls > 1 {
        if !p.scales {
          DropIsNoFurther(c3, p, ScaledObjectKind);
        } else if ScaledObjectKind in p.wanted {
          EnsureIsNoFurther(c3, p, ScaledObjectKind);
        }
        WellTail(c, p, true, 2);
        if calls > 2 && InferencePoolKind in p.wanted {
          EnsureIsNoFurther(AfterAutoscaling(c3, p), p, InferencePoolKind);
        }
      }
    }
  }

  // Wherever a pass is cut short, the cluster is no further from the spec.
  lemma PartIsNoFurther(c: Cluster, p: Plan, calls: nat)
    requires Sound(p) && Well(c)
    ensures Distance(PassPart(c, p, calls), p) <= Distance(c, p)
  {
    hide Merge, Distance, PassTail, AfterTemplate, AfterDeployment, AfterCreate, Ensure;
    var c1 := AfterTemplate(c, p);
    TemplateIsNoFurther(c, p);
    WellTemplate(c, p);
    WellDeployment(c1, p);
    DeploymentIsNoFurther(c1, p);
    if DeploymentIn(c1, p) == Absent {
      EnsureIsNoFurther(c1, p, DeploymentKind);
      CreateIsNoFurther(c1, p);
    }
    if calls >= (if DeploymentIn(c1, p) == Absent then 4 else 2) {
      TailIsNoFurther(AfterDeployment(c1, p), p, Proceeds(c, p),
                      calls - if DeploymentIn(c1, p) == Absent then 4 else 2);
    }
  }

  // At the fixed point no part of a pass changes anything.
  lemma PartKeepsConverged(c: Cluster, p: Plan, calls: nat)
    requires Sound(p) && Well(c) && Converged(c, p)
    ensures PassPart(c, p, calls) == c
  {
    hide Merge;
    forall k | k in p.wanted
      ensures Ensure(c, p, k) == c
    {
      assert Settled(c, p, k);
    }
    assert AfterTemplate(c, p) == c && AfterDeployment(c, p) == c;
  }

  lemma WellAfter(c: Cluster, p: Plan, e: Event)
    requires Sound(p) && Well(c)
    ensures Well(After(c, p, e))
  {
    hide Pass, PassPart;
    match e
    case RunPass => WellPass(c, p);
    case CutShort(calls) => WellPart(c, p, calls);
    case DeletionsFinish =>
  }

  lemma {:induction false} WellAfterAll(c: Cluster, p: Plan, events: seq<Event>)
    requires Sound(p) && Well(c)
    ensures Well(AfterAll(c, p, events))
  {
    if events != [] {
      WellAfterAll(c, p, events[..|events| - 1]);
      WellAfter(AfterAll(c, p, events[..|events| - 1]), p, events[|events| - 1]);
    }
  }

  // The measure: nothing that happens takes the cluster further away, and the
  // event it is waiting for brings it closer.
  lemma Progress(c: Cluster, p: Plan, e: Event)
    requires Sound(p) && Well(c)
    ensures var d, d' := Distance(c, p), Distance(After(c, p, e), p);
      d' <= d && (d > 0 && e == NeededEvent(d) ==> d' < d)
  {
    hide Pass, PassPart, Finish, Distance;
    match e
    case RunPass => PassProgress(c, p);
    case CutShort(calls) => PartIsNoFurther(c, p, calls);
    case DeletionsFinish => FinishProgress(c, p);
  }

  // How many events of the alternation pass, finish, pass, finish the sequence
  // contains in that order, starting from a cluster at this distance.
  function Remaining(distance: nat, events: seq<Event>): nat {
    if events == [] then distance
    else
      var r := Remaining(distance, events[..|events| - 1]);
      if r > 0 && events[|events| - 1] == NeededEvent(r) then r - 1 else r
  }

  // From any cluster and under any order of passes and completed deletions, the
  // distance is bounded by what the sequence leaves of it.
  lemma {:induction false} DistanceBound(c: Cluster, p: Plan, events: seq<Event>)
    requires Sound(p) && Well(c)
    ensures Well(AfterAll(c, p, events))
    ensures Distance(AfterAll(c, p, events), p) <= Remaining(4, events)
  {
    hide Distance, After;
    WellAfterAll(c, p, events);
    if events == [] {
      DistanceAtMostFour(c, p);
    } else {
      var before := events[..|events| - 1];
      var e := events[|events| - 1];
      DistanceBound(c, p, before);
      Progress(AfterAll(c, p, before), p, e);
    }
  }

  lemma DistanceAtMostFour(c: Cluster, p: Plan)
    requires Sound(p)
    ensures Distance(c, p) <= 4
  {
  }

  // The operator's name owns exactly the configuration, with its values.
  predicate Holds(c: Cluster, k: Kind, config: Config) {
    && k in c && !c[k].deleting
    && (forall f | f in config :: f in c[k].content.values && c[k].content.values[f] == config[f])
    && (forall x | x in c[k].content.owners && x.0 == MAIN :: x.1 in config)
    && (forall f | f in config :: (MAIN, f) in c[k].content.owners)
  }

  // An optional kind the API server does not know has no objects.
  predicate Possible(c: Cluster, env: Env) {
    forall k | k in c :: Installed(env, k)
  }

  predicate WantsInstalled(p: Plan, env: Env) {
    forall k | k in p.wanted :: Installed(env, k)
  }

  lemma PossibleEnsure(c: Cluster, p: Plan, env: Env, k: Kind)
    requires Sound(p) && Possible(c, env) && WantsInstalled(p, env) && k in p.wanted
    ensures Possible(Ensure(c, p, k), env)
  {
  }

  lemma PossibleTail(c: Cluster, p: Plan, env: Env, proceeds: bool, calls: nat)
    requires Sound(p) && Possible(c, env) && WantsInstalled(p, env)
    ensures Possible(PassTail(c, p, proceeds, calls), env)
  {
    hide Merge;
  }

  lemma PossiblePart(c: Cluster, p: Plan, env: Env, calls: nat)
    requires Sound(p) && Possible(c, env) && WantsInstalled(p, env)
    ensures Possible(PassPart(c, p, calls), env)
  {
    var c1 := AfterTemplate(c, p);
    TemplateAt(c, p);
    AfterDeploymentAt(c1, p);
    PossibleEnsure(c1, p, env, DeploymentKind);
    hide Merge, PassTail, AfterTemplate, AfterDeployment;
    if calls >= (if DeploymentIn(c1, p) == Absent then 4 else 2) {
      PossibleTail(AfterDeployment(c1, p), p, env, Proceeds(c, p),
                   calls - if DeploymentIn(c1, p) == Absent then 4 else 2);
    }
  }

  lemma {:induction false} PossibleAfterAll(c: Cluster, p: Plan, env: Env, events: seq<Event>)
    requires Sound(p) && Possible(c, env) && WantsInstalled(p, env)
    ensures Possible(AfterAll(c, p, events), env)
  {
    hide Pass, PassPart;
    if events != [] {
      var before := AfterAll(c, p, events[..|events| - 1]);
      PossibleAfterAll(c, p, env, events[..|events| - 1]);
      match events[|events| - 1]
      case RunPass =>
        SevenCallsAreAPass(before, p, 7);
        PossiblePart(before, p, env, 7);
      case CutShort(calls) => PossiblePart(before, p, env, calls);
      case DeletionsFinish =>
    }
  }

  // The cluster the spec describes.
  predicate Matches(c: Cluster, svc: InferenceService, env: Env) {
    var p := PlanOf(svc, env);
    && (forall k | k in p.wanted :: k in p.configs && Holds(c, k, p.configs[k]))
    && (Controlled(c, p, ClaimTemplateKind) <==> svc.spec.deviceClass != "")
    && (Controlled(c, p, ScaledObjectKind) <==> svc.spec.backend != Ollama && env.keda)
    && ((MAIN, PodClaim) in Content(c, DeploymentKind).owners <==> svc.spec.deviceClass != "")
  }

  lemma OwnedConfigs(svc: InferenceService, env: Env)
    ensures var t, s := DesiredClaimTemplate(svc), DesiredScaledObject(svc, env.prometheusAddress);
      && OwnerReference in t && t[OwnerReference] == Controller(svc.uid)
      && OwnerReference in s && s[OwnerReference] == Controller(svc.uid)
      && (PodClaim in DesiredDeployment(svc) <==> svc.spec.deviceClass != "")
  {
    ClaimNamed(svc);
    hide DesiredDeployment;
    assert OwnerReference in FIELDS;
  }

  lemma ClaimNamed(svc: InferenceService)
    ensures PodClaim in DesiredDeployment(svc) <==> svc.spec.deviceClass != ""
  {
    hide DesiredDeployment;
    DeploymentIsComplete(svc, PodClaim);
  }

  lemma WantedHold(c: Cluster, p: Plan)
    requires Well(c) && Sound(p) && Converged(c, p)
    ensures forall k | k in p.wanted :: Holds(c, k, p.configs[k])
  {
  }

  lemma HeldIsControlled(c: Cluster, p: Plan, k: Kind)
    requires k in p.configs && OwnerReference in p.configs[k] && p.configs[k][OwnerReference] == p.owner
    ensures Holds(c, k, p.configs[k]) ==> Controlled(c, p, k)
  {
  }

  lemma ConvergedMatches(c: Cluster, svc: InferenceService, env: Env)
    requires Well(c) && Possible(c, env) && Sound(PlanOf(svc, env)) && Converged(c, PlanOf(svc, env))
    ensures Matches(c, svc, env)
  {
    hide Merge, Holds, Controlled, Settled, DesiredClaimTemplate, DesiredDeployment, DesiredService,
      DesiredScaledObject, DesiredInferencePool;
    OwnedConfigs(svc, env);
    var p := PlanOf(svc, env);
    WantedHold(c, p);
    HeldIsControlled(c, p, ClaimTemplateKind);
    HeldIsControlled(c, p, ScaledObjectKind);
    NamedWhenHeld(c, p.configs[DeploymentKind]);
    NotThere(c, p, ScaledObjectKind);
  }

  lemma NamedWhenHeld(c: Cluster, config: Config)
    requires Holds(c, DeploymentKind, config)
    ensures (MAIN, PodClaim) in Content(c, DeploymentKind).owners <==> PodClaim in config
  {
  }

  lemma NotThere(c: Cluster, p: Plan, k: Kind)
    ensures k !in c ==> !Controlled(c, p, k)
  {
  }

  // Convergence. From any cluster, for any accepted spec, once passes and
  // completed deletions have alternated twice, with more of either and any number
  // of passes cut short in between, the cluster matches the spec and nothing of
  // these changes it any more.
  lemma Converges(c: Cluster, svc: InferenceService, env: Env, events: seq<Event>)
    requires Well(c) && Possible(c, env) && PolicyViolation(svc).None?
    requires Remaining(4, events) == 0
    ensures Sound(PlanOf(svc, env))
    ensures var c' := AfterAll(c, PlanOf(svc, env), events);
      && Well(c') && Converged(c', PlanOf(svc, env)) && Matches(c', svc, env)
      && (forall calls :: PassPart(c', PlanOf(svc, env), calls) == c')
      && Pass(c', PlanOf(svc, env)) == c'
      && Finish(c') == c'
  {
    PlanIsSound(svc, env);
    var p := PlanOf(svc, env);
    hide Pass, PassPart, Finish, PlanOf, Matches, AfterAll;
    DistanceBound(c, p, events);
    var c' := AfterAll(c, p, events);
    PlanInstalled(svc, env);
    PossibleAfterAll(c, p, env, events);
    ConvergedMatches(c', svc, env);
    PassKeepsConverged(c', p);
    forall calls
      ensures PassPart(c', p, calls) == c'
    {
      PartKeepsConverged(c', p, calls);
    }
    forall k
      ensures SameAt(c', Finish(c'), k)
    {
      FinishAt(c', k);
    }
    SameEverywhere(c', Finish(c'));
  }

  // Nobody but the operator's main name has listed a resource claim.
  ghost predicate ClaimIsOurs(c: Cluster) {
    var o := Content(c, DeploymentKind);
    && (PodClaim in o.values ==> (MAIN, PodClaim) in o.owners)
    && forall n | (n, PodClaim) in o.owners :: n == MAIN
  }

  lemma PutKeepsClaimOurs(c: Cluster, k: Kind, m: Manager, config: Config)
    requires Well(c) && ClaimIsOurs(c) && (k == DeploymentKind ==> m == MAIN || PodClaim !in config)
    ensures ClaimIsOurs(Put(c, k, m, config))
  {
    if k == DeploymentKind {
      ClaimAfterApply(Content(c, k), m, config);
    }
  }

  lemma ClaimAfterApply(o: Stored, m: Manager, config: Config)
    requires Valid(o) && (m == MAIN || PodClaim !in config)
    requires PodClaim in o.values ==> (MAIN, PodClaim) in o.owners
    requires forall n | (n, PodClaim) in o.owners :: n == MAIN
    ensures var r := Merge(o, m, config, DEFAULTS);
      && (PodClaim in r.values ==> (MAIN, PodClaim) in r.owners)
      && forall n | (n, PodClaim) in r.owners :: n == MAIN
  {
    MergeAt(o, m, config, DEFAULTS, PodClaim);
  }

  lemma ClaimAfterDeployment(c: Cluster, p: Plan)
    requires Sound(p) && PodClaim !in p.initial && Well(c) && ClaimIsOurs(c)
    ensures ClaimIsOurs(AfterDeployment(c, p))
  {
    hide Merge, Put;
    var d := p.configs[DeploymentKind];
    PutKeepsClaimOurs(c, DeploymentKind, MAIN, d);
    WellPut(c, DeploymentKind, MAIN, d);
    var c1 := Ensure(c, p, DeploymentKind);
    PutKeepsClaimOurs(c1, DeploymentKind, INITIAL, p.initial);
    WellPut(c1, DeploymentKind, INITIAL, p.initial);
    PutKeepsClaimOurs(AfterCreate(c, p), DeploymentKind, MAIN, d);
  }

  lemma SameClaim(c: Cluster, c': Cluster)
    requires ClaimIsOurs(c) && Content(c', DeploymentKind) == Content(c, DeploymentKind)
    ensures ClaimIsOurs(c')
  {
  }

  lemma TailKeepsDeployment(c: Cluster, p: Plan, proceeds: bool, calls: nat)
    requires Sound(p)
    ensures Content(PassTail(c, p, proceeds, calls), DeploymentKind) == Content(c, DeploymentKind)
  {
    hide Merge;
  }

  lemma ClaimAfterPart(c: Cluster, p: Plan, calls: nat)
    requires Sound(p) && PodClaim !in p.initial && Well(c) && ClaimIsOurs(c)
    ensures ClaimIsOurs(PassPart(c, p, calls))
  {
    var c1 := AfterTemplate(c, p);
    WellTemplate(c, p);
    TemplateAt(c, p);
    hide Merge, Put, AfterTemplate, PassTail, Well;
    SameClaim(c, c1);
    hide ClaimIsOurs, Content;
    PutKeepsClaimOurs(c1, DeploymentKind, MAIN, p.configs[DeploymentKind]);
    WellEnsure(c1, p, DeploymentKind);
    PutKeepsClaimOurs(Ensure(c1, p, DeploymentKind), DeploymentKind, INITIAL, p.initial);
    ClaimAfterDeployment(c1, p);
    hide AfterDeployment;
    if calls >= (if DeploymentIn(c1, p) == Absent then 4 else 2) {
      var n := calls - if DeploymentIn(c1, p) == Absent then 4 else 2;
      TailKeepsDeployment(AfterDeployment(c1, p), p, Proceeds(c, p), n);
      SameClaim(AfterDeployment(c1, p), PassTail(AfterDeployment(c1, p), p, Proceeds(c, p), n));
    }
  }

  lemma ClaimAfterEvent(c: Cluster, p: Plan, e: Event)
    requires Sound(p) && PodClaim !in p.initial && Well(c) && ClaimIsOurs(c)
    ensures ClaimIsOurs(After(c, p, e))
  {
    hide PassPart, Pass;
    match e
    case RunPass =>
      SevenCallsAreAPass(c, p, 7);
      ClaimAfterPart(c, p, 7);
    case CutShort(calls) => ClaimAfterPart(c, p, calls);
    case DeletionsFinish =>
  }

  lemma {:induction false} ClaimAfterAll(c: Cluster, p: Plan, events: seq<Event>)
    requires Sound(p) && PodClaim !in p.initial && Well(c) && ClaimIsOurs(c)
    ensures ClaimIsOurs(AfterAll(c, p, events))
  {
    if events != [] {
      hide ClaimIsOurs, After, Well;
      WellAfterAll(c, p, events[..|events| - 1]);
      ClaimAfterAll(c, p, events[..|events| - 1]);
      ClaimAfterEvent(AfterAll(c, p, events[..|events| - 1]), p, events[|events| - 1]);
    }
  }

  // The Deployment of the converged cluster then names a claim template, its own,
  // exactly when a device class is set: in its values, not only as a field the
  // operator owns.
  lemma ClaimNamedIff(c: Cluster, svc: InferenceService, env: Env, events: seq<Event>)
    requires Well(c) && Possible(c, env) && PolicyViolation(svc).None? && ClaimIsOurs(c)
    requires Remaining(4, events) == 0
    ensures Sound(PlanOf(svc, env))
    ensures var values := Content(AfterAll(c, PlanOf(svc, env), events), DeploymentKind).values;
      && (PodClaim in values <==> svc.spec.deviceClass != "")
      && (PodClaim in values ==> values[PodClaim] == TemplateOf(svc.name))
  {
    hide AfterAll, Remaining, Pass, Finish, DesiredDeployment, DesiredClaimTemplate, DesiredService,
      DesiredScaledObject, DesiredInferencePool, Converged;
    PlanIsSound(svc, env);
    var p := PlanOf(svc, env);
    Converges(c, svc, env, events);
    ClaimAfterAll(c, p, events);
    DeploymentIsComplete(svc, PodClaim);
    assert DeploymentKind in p.wanted && p.configs[DeploymentKind] == DesiredDeployment(svc);
    assert Holds(AfterAll(c, p, events), DeploymentKind, DesiredDeployment(svc));
  }

  lemma PlanInstalled(svc: InferenceService, env: Env)
    ensures WantsInstalled(PlanOf(svc, env), env)
  {
    hide DesiredClaimTemplate, DesiredDeployment, DesiredService, DesiredScaledObject, DesiredInferencePool;
  }

  // Two passes are enough when every pass's deletions complete before the next.
  lemma TwoRoundsSuffice()
    ensures Remaining(4, [RunPass, DeletionsFinish, RunPass, DeletionsFinish]) == 0
  {
    var e := [RunPass, DeletionsFinish, RunPass, DeletionsFinish];
    assert e[..3][..2] == e[..2] && e[..2][..1] == e[..1] && e[..1][..0] == [];
    assert Remaining(4, e[..1]) == 3;
    assert Remaining(4, e[..2]) == 2;
    assert Remaining(4, e[..3]) == 1;
  }
}
