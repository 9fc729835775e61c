/** Several writers share one Deployment. This module lets the operator's API
    calls interleave with the autoscaler, users, spec edits, crashes, refused
    calls and stale reads, in any order, and proves who decides the replica
    count. */
module ReplicaOwnership {
  import opened Wrappers
  import opened ServerSideApply
  import opened Resources
  import opened DeploymentApply

  // One life of the Deployment; deleting it and creating it again starts another.
  datatype Deployment = Deployment(incarnation: nat, content: Stored, deleting: bool)

  // What the operator is about to do, with the spec this pass started from.
  datatype Operator =
    | Idle
    | Reading(svc: InferenceService)
    | Creating(svc: InferenceService)
    | SettingReplicas(svc: InferenceService)
    | Applying(svc: InferenceService)
    | Deleting

  datatype World = World(svc: InferenceService, dep: Option<Deployment>, nextIncarnation: nat, op: Operator)

  // The cached read may be out of date, so it can return any of these at any time.
  datatype Read = NotFound | BeingDeleted | StaleSelector | UpToDate

  datatype Step =
    // the operator
    | StartPass
    | ReadReturns(read: Read)
    | Call
    | CallFails
    | Crash
    // everyone else
    | WriteWhole(writer: Manager, sent: Config)
    | ApplyPart(writer: Manager, config: Config, force: bool)
    | EditSpec(next: InferenceService)
    | DeleteIt
    | FinishDelete

  predicate OperatorStep(s: Step) {
    s.StartPass? || s.ReadReturns? || s.Call? || s.CallFails? || s.Crash?
  }

  // Only the operator writes under its two names.
  predicate Foreign(m: Manager) { m != MAIN && m != INITIAL }

  // The operator's forced apply creates the Deployment when there is none.
  function ApplyMain(w: World, svc: InferenceService, after: Operator): World {
    match w.dep
    case Some(d) =>
      w.(dep := Some(d.(content := Merge(d.content, MAIN, DesiredDeployment(svc), DEFAULTS))), op := after)
    case None =>
      w.(dep := Some(Deployment(w.nextIncarnation, Merge(EMPTY, MAIN, DesiredDeployment(svc), DEFAULTS), false)),
         nextIncarnation := w.nextIncarnation + 1, op := after)
  }

  // The second apply does not force. A clash, or a Deployment that has gone in
  // the meantime (this configuration alone cannot create one), ends the pass.
  function ApplyInitial(w: World, svc: InferenceService): World {
    match w.dep
    case None => w.(op := Idle)
    case Some(d) =>
      match ApplyWrite(d.content, INITIAL, InitialReplicas(svc), false, DEFAULTS)
      case Ok(o) => w.(dep := Some(d.(content := o)), op := Applying(svc))
      case Err(_) => w.(op := Idle)
  }

  function OperatorCall(w: World): World {
    match w.op
    case Creating(svc) => ApplyMain(w, svc, SettingReplicas(svc))
    case SettingReplicas(svc) => ApplyInitial(w, svc)
    case Applying(svc) => ApplyMain(w, svc, Idle)
    case Deleting => MarkDeleted(w).(op := Idle)
    case _ => w
  }

  function MarkDeleted(w: World): World {
    match w.dep
    case Some(d) => w.(dep := Some(d.(deleting := true)))
    case None => w
  }

  function AfterRead(svc: InferenceService, read: Read): Operator {
    match read
    case NotFound => Creating(svc)
    case BeingDeleted => Idle
    case StaleSelector => Deleting
    case UpToDate => Applying(svc)
  }

  function OutsideWrite(w: World, s: Step): World
    requires s.WriteWhole? || s.ApplyPart?
  {
    if w.dep.None? || !Foreign(s.writer) then w
    else
      var d := w.dep.value;
      match s
      case WriteWhole(m, sent) => w.(dep := Some(d.(content := UpdateWrite(d.content, m, sent, DEFAULTS))))
      case ApplyPart(m, config, force) =>
        match ApplyWrite(d.content, m, config, force, DEFAULTS)
        case Ok(o) => w.(dep := Some(d.(content := o)))
        case Err(_) => w
  }

  // Every step is total: one that is not possible in this world changes nothing.
  function Next(w: World, s: Step): World {
    match s
    case StartPass => if w.op.Idle? then w.(op := Reading(w.svc)) else w
    case ReadReturns(read) => if w.op.Reading? then w.(op := AfterRead(w.op.svc, read)) else w
    case Call => OperatorCall(w)
    case CallFails => w.(op := Idle)
    case Crash => w.(op := Idle)
    case WriteWhole(_, _) => OutsideWrite(w, s)
    case ApplyPart(_, _, _) => OutsideWrite(w, s)
    case EditSpec(next) => w.(svc := next)
    case DeleteIt => MarkDeleted(w)
    case FinishDelete => if w.dep.Some? && w.dep.value.deleting then w.(dep := None) else w
  }

  function Run(w: World, steps: seq<Step>): World {
    if steps == [] then w else Next(Run(w, steps[..|steps| - 1]), steps[|steps| - 1])
  }

  // The invariant every interleaving keeps: a count is always there, and the
  // operator's main name never owns it.
  predicate Safe(w: World) {
    w.dep.Some? ==>
      && Valid(w.dep.value.content)
      && Replicas in w.dep.value.content.values
      && (MAIN, Replicas) !in w.dep.value.content.owners
      && w.dep.value.incarnation < w.nextIncarnation
  }

  lemma SafeNext(w: World, s: Step)
    requires Safe(w)
    ensures Safe(Next(w, s))
  {
    hide DesiredDeployment;
    var w' := Next(w, s);
    if s.Call? && (w.op.Creating? || w.op.Applying?) {
      ContainerFields(w.op.svc);
      var o := if w.dep.Some? then w.dep.value.content else EMPTY;
      MergeAt(o, MAIN, DesiredDeployment(w.op.svc), DEFAULTS, Replicas);
    } else if s.Call? && w.op.SettingReplicas? && w.dep.Some? {
      MergeAt(w.dep.value.content, INITIAL, InitialReplicas(w.op.svc), DEFAULTS, Replicas);
    } else if s.ApplyPart? && w.dep.Some? && Foreign(s.writer) {
      MergeAt(w.dep.value.content, s.writer, s.config, DEFAULTS, Replicas);
    }
  }

  lemma {:induction false} SafeRun(w: World, steps: seq<Step>)
    requires Safe(w)
    ensures Safe(Run(w, steps))
  {
    if steps != [] {
      SafeRun(w, steps[..|steps| - 1]);
      SafeNext(Run(w, steps[..|steps| - 1]), steps[|steps| - 1]);
    }
  }

  function Count(w: World): Value
    requires w.dep.Some? && Replicas in w.dep.value.content.values
  {
    w.dep.value.content.values[Replicas]
  }

  // The managers other than the operator's two names that own the count.
  function CountOwners(w: World): set<Manager>
    requires w.dep.Some?
  {
    set c | c in w.dep.value.content.owners && c.1 == Replicas && Foreign(c.0) :: c.0
  }

  // Exactly when an operator call changes the count of a Deployment that is
  // there: only the initial write, and only while no one else owns the count.
  lemma OperatorChangesCountIff(w: World, s: Step)
    requires Safe(w) && w.dep.Some? && OperatorStep(s)
    ensures Safe(Next(w, s)) && Next(w, s).dep.Some?
    ensures Next(w, s).dep.value.incarnation == w.dep.value.incarnation
    ensures Count(Next(w, s)) != Count(w) <==>
              s.Call? && w.op.SettingReplicas? && CountOwners(w) == {}
              && Count(w) != Number(w.op.svc.spec.minReplicas)
    ensures CountOwners(Next(w, s)) == CountOwners(w)
  {
    hide DesiredDeployment;
    SafeNext(w, s);
    var o := w.dep.value.content;
    if s.Call? && (w.op.Creating? || w.op.Applying?) {
      ContainerFields(w.op.svc);
      MergeAt(o, MAIN, DesiredDeployment(w.op.svc), DEFAULTS, Replicas);
      OthersKeep(o, MAIN, DesiredDeployment(w.op.svc));
    } else if s.Call? && w.op.SettingReplicas? {
      var config := InitialReplicas(w.op.svc);
      MergeAt(o, INITIAL, config, DEFAULTS, Replicas);
      if Conflicts(o, INITIAL, config) == {} {
        forall c | c in o.owners && c.1 == Replicas && Foreign(c.0)
          ensures o.values[Replicas] == config[Replicas]
        {
          assert Differs(o, config, c.1) ==> c.1 in Conflicts(o, INITIAL, config);
        }
      } else {
        var f :| f in Conflicts(o, INITIAL, config);
        var c :| c in o.owners && c.0 != INITIAL && c.1 in config && Differs(o, config, c.1);
        assert c.0 in CountOwners(w);
      }
    }
  }

  lemma OthersKeep(o: Stored, m: Manager, config: Config)
    requires Replicas !in config
    ensures forall n | n != m :: (n, Replicas) in Merge(o, m, config, DEFAULTS).owners <==> (n, Replicas) in o.owners
  {
  }

  // The count as it stood after the last step that was not the operator's.
  function LastOutside(w: World, steps: seq<Step>): Option<Value> {
    if steps == [] then CountIn(w)
    else if OperatorStep(steps[|steps| - 1]) then LastOutside(w, steps[..|steps| - 1])
    else CountIn(Run(w, steps))
  }

  function CountIn(w: World): Option<Value> {
    if w.dep.Some? && Replicas in w.dep.value.content.values then Some(Count(w)) else None
  }

  // The Deployment is still the same one and someone other than the operator
  // owns its count.
  predicate Held(w: World, incarnation: nat) {
    w.dep.Some? && w.dep.value.incarnation == incarnation && CountOwners(w) != {}
  }

  // The outside steps that end this: a pending deletion completes, or the one
  // other manager that owns the count applies without it.
  predicate GivesUp(w: World, s: Step) {
    && w.dep.Some?
    && ((s.FinishDelete? && w.dep.value.deleting)
        || (s.ApplyPart? && CountOwners(w) == {s.writer} && Replicas !in s.config
            && (s.force || Conflicts(w.dep.value.content, s.writer, s.config) == {})))
  }

  // And they are all of them, whoever takes the step.
  lemma HeldUnlessGivenUp(w: World, s: Step, incarnation: nat)
    requires Safe(w) && Held(w, incarnation)
    ensures Held(Next(w, s), incarnation) <==> !GivesUp(w, s)
  {
    if OperatorStep(s) {
      OperatorChangesCountIff(w, s);
    } else if s.WriteWhole? {
      WholeWriteHolds(w, s.writer, s.sent, incarnation);
    } else if s.ApplyPart? {
      PartApplyHolds(w, s.writer, s.config, s.force, incarnation);
    }
  }

  // A manager that sends the whole object takes the count or leaves its owners.
  lemma WholeWriteHolds(w: World, m: Manager, sent: Config, incarnation: nat)
    requires Safe(w) && Held(w, incarnation)
    ensures Held(Next(w, WriteWhole(m, sent)), incarnation)
  {
    var w' := Next(w, WriteWhole(m, sent));
    if Foreign(m) {
      var n :| n in CountOwners(w);
      assert (n, Replicas) in w'.dep.value.content.owners || (m, Replicas) in w'.dep.value.content.owners;
      assert n in CountOwners(w') || m in CountOwners(w');
    }
  }

  // The owners of the count after an accepted apply by another manager.
  lemma OwnersAfterApply(o: Stored, m: Manager, config: Config, n: Manager)
    requires Valid(o)
    ensures var r := Merge(o, m, config, DEFAULTS);
      && ((m, Replicas) in r.owners <==> Replicas in config)
      && (n != m && Replicas !in config ==> ((n, Replicas) in r.owners <==> (n, Replicas) in o.owners))
  {
  }

  lemma OwnerIsCounted(w: World, n: Manager)
    requires w.dep.Some? && Foreign(n)
    ensures n in CountOwners(w) <==> (n, Replicas) in w.dep.value.content.owners
  {
    var c := (n, Replicas);
    assert c.0 == n && c.1 == Replicas;
  }

  lemma PartApplyHolds(w: World, m: Manager, config: Config, force: bool, incarnation: nat)
    requires Safe(w) && Held(w, incarnation)
    ensures Held(Next(w, ApplyPart(m, config, force)), incarnation) <==> !GivesUp(w, ApplyPart(m, config, force))
  {
    var w' := Next(w, ApplyPart(m, config, force));
    var o := w.dep.value.content;
    if !Foreign(m) {
      assert m !in CountOwners(w);
    } else if force || Conflicts(o, m, config) == {} {
      hide Merge, Conflicts;
      assert w'.dep.value.content == Merge(o, m, config, DEFAULTS);
      forall n | Foreign(n)
        ensures n in CountOwners(w') <==> if n == m then Replicas in config else n in CountOwners(w')
        ensures n != m && Replicas !in config ==> (n in CountOwners(w') <==> n in CountOwners(w))
      {
        OwnersAfterApply(o, m, config, n);
        OwnerIsCounted(w, n);
        OwnerIsCounted(w', n);
      }
      OthersHold(CountOwners(w), CountOwners(w'), m, Replicas in config);
    }
  }

  lemma OthersHold(before: set<Manager>, after: set<Manager>, m: Manager, kept: bool)
    requires before != {} && (m in after <==> kept)
    requires !kept ==> forall n | n != m :: n in after <==> n in before
    ensures after != {} <==> kept || before != {m}
  {
    if !kept { assert after == before - {m}; }
  }

  // Whole-run safety. From any safe world whose count someone else owns, and as
  // long as no step gives that up, the count is at every point the one the last
  // outside step left there.
  lemma {:induction false} OperatorNeverResetsCount(w: World, steps: seq<Step>, incarnation: nat)
    requires Safe(w) && Held(w, incarnation)
    requires forall k | 0 <= k < |steps| :: !GivesUp(Run(w, steps[..k]), steps[k])
    ensures Held(Run(w, steps), incarnation)
    ensures CountIn(Run(w, steps)).Some? && CountIn(Run(w, steps)) == LastOutside(w, steps)
  {
    SafeRun(w, steps);
    if steps != [] {
      hide Safe, Next, GivesUp, CountOwners;
      var n := |steps| - 1;
      var prefix := steps[..n];
      forall k | 0 <= k < n
        ensures !GivesUp(Run(w, prefix[..k]), prefix[k])
      {
        assert prefix[..k] == steps[..k];
      }
      OperatorNeverResetsCount(w, prefix, incarnation);
      SafeRun(w, prefix);
      HeldUnlessGivenUp(Run(w, prefix), steps[n], incarnation);
      OperatorLeavesHeld(w, prefix, steps[n], incarnation);
    }
  }

  lemma OperatorLeavesHeld(w: World, prefix: seq<Step>, s: Step, incarnation: nat)
    requires Safe(Run(w, prefix)) && Held(Run(w, prefix), incarnation)
    ensures OperatorStep(s) ==> CountIn(Next(Run(w, prefix), s)) == CountIn(Run(w, prefix))
    ensures Safe(Next(Run(w, prefix), s))
    ensures Held(Next(Run(w, prefix), s), incarnation) ==> CountIn(Next(Run(w, prefix), s)).Some?
  {
    hide Next;
    SafeNext(Run(w, prefix), s);
    if OperatorStep(s) { OperatorChangesCountIff(Run(w, prefix), s); }
  }

  // Changing the count is what makes another manager its owner, and its only
  // one, whether it sends the whole object or applies a part of it.
  lemma ChangingTakesOwnership(w: World, m: Manager, s: Step, sent: Config)
    requires Safe(w) && w.dep.Some? && Foreign(m)
    requires Replicas in sent && sent[Replicas] != Count(w)
    requires || s == WriteWhole(m, sent)
             || s == ApplyPart(m, sent, true)
             || (s == ApplyPart(m, sent, false) && Conflicts(w.dep.value.content, m, sent) == {})
    ensures var w' := Next(w, s);
      && Held(w', w.dep.value.incarnation) && Safe(w')
      && Count(w') == sent[Replicas]
      && forall n :: (n, Replicas) in w'.dep.value.content.owners <==> n == m
  {
    hide Merge, Conflicts;
    SafeNext(w, s);
    var o, w' := w.dep.value.content, Next(w, s);
    if s.ApplyPart? {
      TakenByApply(o, m, sent);
    }
    OwnerIsCounted(w', m);
  }

  lemma TakenByApply(o: Stored, m: Manager, config: Config)
    requires Valid(o) && Replicas in config && Differs(o, config, Replicas)
    ensures var r := Merge(o, m, config, DEFAULTS);
      && Replicas in r.values && r.values[Replicas] == config[Replicas]
      && forall n :: (n, Replicas) in r.owners <==> n == m
  {
  }

  // The first apply on an absent Deployment leaves the default count, unowned.
  lemma FirstApply(svc: InferenceService)
    ensures var o := Merge(EMPTY, MAIN, DesiredDeployment(svc), DEFAULTS);
      && Valid(o) && Replicas in o.values && o.values[Replicas] == Number(1)
      && forall n :: (n, Replicas) !in o.owners
  {
    hide DesiredDeployment;
    ContainerFields(svc);
    MergeAt(EMPTY, MAIN, DesiredDeployment(svc), DEFAULTS, Replicas);
  }

  // A pass that found no Deployment, between the two applies that create it.
  function HalfCreated(svc: InferenceService): World {
    World(svc, Some(Deployment(0, Merge(EMPTY, MAIN, DesiredDeployment(svc), DEFAULTS), false)), 1,
          SettingReplicas(svc))
  }

  lemma HalfCreatedIsReached(svc: InferenceService)
    ensures Run(World(svc, None, 0, Idle), [StartPass, ReadReturns(NotFound), Call]) == HalfCreated(svc)
    ensures Safe(HalfCreated(svc))
  {
    var steps := [StartPass, ReadReturns(NotFound), Call];
    var w := World(svc, None, 0, Idle);
    assert steps[..2][..1] == steps[..1] == [StartPass] && steps[..1][..0] == [];
    assert Run(w, steps[..1]) == w.(op := Reading(svc));
    assert Run(w, steps[..2]) == w.(op := Creating(svc));
    FirstApply(svc);
  }

  predicate Unowned(w: World) {
    w.dep.Some? && forall c | c in w.dep.value.content.owners :: c.1 != Replicas
  }

  // The initial write succeeds while nobody owns the count, and then its name is
  // the only owner.
  lemma InitialWriteWins(w: World)
    requires Safe(w) && w.op.SettingReplicas? && Unowned(w)
    ensures var w' := Next(w, Call);
      && CountIn(w') == Some(Number(w.op.svc.spec.minReplicas)) && w'.op == Applying(w.op.svc)
      && w'.dep.Some? && forall n :: (n, Replicas) in w'.dep.value.content.owners <==> n == INITIAL
  {
    hide DesiredDeployment;
    var o := w.dep.value.content;
    assert Conflicts(o, INITIAL, InitialReplicas(w.op.svc)) == {};
    MergeAt(o, INITIAL, InitialReplicas(w.op.svc), DEFAULTS, Replicas);
  }

  // With both applies through, the count starts at the minimum.
  lemma CreationSetsMinimum(svc: InferenceService)
    ensures CountIn(HalfCreated(svc)) == Some(Number(1))
    ensures CountIn(Next(HalfCreated(svc), Call)) == Some(Number(svc.spec.minReplicas))
  {
    FirstApply(svc);
    assert forall c | c in HalfCreated(svc).dep.value.content.owners :: c == (c.0, c.1);
    InitialWriteWins(HalfCreated(svc));
  }

  // ----- where the count comes from, in every run -----

  // What one step does to the count: leaves it, removes it with the Deployment,
  // starts it at the default with a new Deployment, sets it to a minimum by the
  // second apply of a creation, sets it by someone else's write, or takes it back
  // to the default because its only owner no longer lists it.
  datatype Origin = AsBefore | Gone | Created | Minimum(replicas: int) | Written(value: Value) | Dropped

  predicate InitialOwns(w: World) {
    w.dep.Some? && (INITIAL, Replicas) in w.dep.value.content.owners
  }

  function SetBy(w: World, s: Step): Origin {
    if w.dep.None? then
      if s.Call? && (w.op.Creating? || w.op.Applying?) then Created else AsBefore
    else
      match s
      case Call =>
        if w.op.SettingReplicas? && CountOwners(w) == {} then Minimum(w.op.svc.spec.minReplicas) else AsBefore
      case FinishDelete => if w.dep.value.deleting then Gone else AsBefore
      case WriteWhole(m, sent) =>
        var v := (DEFAULTS + sent)[Replicas];
        if Foreign(m) && CountIn(w) != Some(v) then Written(v) else AsBefore
      case ApplyPart(m, config, force) =>
        if !Foreign(m) || !(force || Conflicts(w.dep.value.content, m, config) == {}) then AsBefore
        else if Replicas in config then
          if CountIn(w) != Some(config[Replicas]) then Written(config[Replicas]) else AsBefore
        else if CountOwners(w) == {m} && !InitialOwns(w) then Dropped
        else AsBefore
      case _ => AsBefore
  }

  function Resulting(origin: Origin, before: Option<Value>): Option<Value> {
    match origin
    case AsBefore => before
    case Gone => None
    case Created => Some(Number(1))
    case Minimum(n) => Some(Number(n))
    case Written(v) => Some(v)
    case Dropped => Some(Number(1))
  }

  // The last step of a run that decided the count.
  function LastSet(w: World, steps: seq<Step>): Origin {
    if steps == [] then AsBefore
    else
      var n := |steps| - 1;
      var origin := SetBy(Run(w, steps[..n]), steps[n]);
      if origin.AsBefore? then LastSet(w, steps[..n]) else origin
  }

  function SetAt(w: World, steps: seq<Step>, k: nat): Origin
    requires k < |steps|
  {
    SetBy(Run(w, steps[..k]), steps[k])
  }

  predicate DecidedAt(w: World, steps: seq<Step>, origin: Origin, k: nat) {
    && k < |steps| && SetAt(w, steps, k) == origin
    && forall j | k < j < |steps| :: SetAt(w, steps, j).AsBefore?
  }

  lemma {:induction false} LastSetMeans(w: World, steps: seq<Step>)
    ensures LastSet(w, steps).AsBefore? ==> forall k | 0 <= k < |steps| :: SetAt(w, steps, k).AsBefore?
    ensures !LastSet(w, steps).AsBefore? ==> exists k :: DecidedAt(w, steps, LastSet(w, steps), k)
  {
    if steps != [] {
      var n := |steps| - 1;
      LastSetMeans(w, steps[..n]);
      PrefixSets(w, steps);
      hide SetAt, LastSet, DecidedAt;
      if !SetAt(w, steps, n).AsBefore? {
        DecidedLast(w, steps);
      } else if !LastSet(w, steps).AsBefore? {
        var k :| DecidedAt(w, steps[..n], LastSet(w, steps[..n]), k);
        StillDecided(w, steps, LastSet(w, steps), k);
      }
    }
  }

  lemma DecidedLast(w: World, steps: seq<Step>)
    requires steps != []
    ensures DecidedAt(w, steps, SetAt(w, steps, |steps| - 1), |steps| - 1)
  {
  }

  lemma StillDecided(w: World, steps: seq<Step>, origin: Origin, k: nat)
    requires steps != [] && SetAt(w, steps, |steps| - 1).AsBefore?
    requires DecidedAt(w, steps[..|steps| - 1], origin, k)
    ensures DecidedAt(w, steps, origin, k)
  {
    hide SetAt, LastSet;
    var n := |steps| - 1;
    PrefixSets(w, steps);
    forall j | k < j < |steps|
      ensures SetAt(w, steps, j).AsBefore?
    {
      if j < n { assert SetAt(w, steps, j) == SetAt(w, steps[..n], j); }
    }
  }

  lemma PrefixSets(w: World, steps: seq<Step>)
    requires steps != []
    ensures var n := |steps| - 1;
      && (forall k | 0 <= k < n :: SetAt(w, steps, k) == SetAt(w, steps[..n], k))
      && LastSet(w, steps) == if SetAt(w, steps, n).AsBefore? then LastSet(w, steps[..n]) else SetAt(w, steps, n)
  {
    hide SetBy, Run;
    var n := |steps| - 1;
    forall k | 0 <= k < n
      ensures SetAt(w, steps, k) == SetAt(w, steps[..n], k)
    {
      assert steps[..n][..k] == steps[..k];
    }
  }

  lemma CallSets(w: World)
    requires Safe(w)
    ensures CountIn(Next(w, Call)) == Resulting(SetBy(w, Call), CountIn(w))
  {
    hide DesiredDeployment, Merge, Conflicts;
    if w.dep.Some? {
      OperatorChangesCountIff(w, Call);
      if w.op.SettingReplicas? && CountOwners(w) == {} { InitialSets(w); }
    } else if w.op.Creating? || w.op.Applying? {
      FirstApply(w.op.svc);
    }
  }

  // The second apply with no other owner: accepted, its value taken, its name
  // the one owner.
  lemma InitialSets(w: World)
    requires Safe(w) && w.dep.Some? && w.op.SettingReplicas? && CountOwners(w) == {}
    ensures var w' := Next(w, Call);
      CountIn(w') == Some(Number(w.op.svc.spec.minReplicas)) && InitialOwns(w')
  {
    var o, config := w.dep.value.content, InitialReplicas(w.op.svc);
    forall c | c in o.owners && c.1 == Replicas
      ensures c.0 == INITIAL
    {
      assert Foreign(c.0) <==> c.0 in CountOwners(w);
    }
    assert Conflicts(o, INITIAL, config) == {};
    MergeAt(o, INITIAL, config, DEFAULTS, Replicas);
  }

  lemma WriteSets(w: World, m: Manager, sent: Config)
    requires Safe(w)
    ensures CountIn(Next(w, WriteWhole(m, sent))) == Resulting(SetBy(w, WriteWhole(m, sent)), CountIn(w))
  {
  }

  lemma ApplySets(w: World, m: Manager, config: Config, force: bool)
    requires Safe(w)
    ensures CountIn(Next(w, ApplyPart(m, config, force)))
            == Resulting(SetBy(w, ApplyPart(m, config, force)), CountIn(w))
  {
    hide Merge, Conflicts, InitialOwns, CountOwners, OwnedByOther;
    if w.dep.Some? && Foreign(m) && (force || Conflicts(w.dep.value.content, m, config) == {}) {
      var o := w.dep.value.content;
      MergeAt(o, m, config, DEFAULTS, Replicas);
      AloneOwns(w, m);
      assert Next(w, ApplyPart(m, config, force)).dep.value.content == Merge(o, m, config, DEFAULTS);
    }
  }

  // The default returns when a manager that alone owns the count drops it.
  lemma AloneOwns(w: World, m: Manager)
    requires Safe(w) && w.dep.Some? && Foreign(m)
    ensures var o := w.dep.value.content;
      CountOwners(w) == {m} && !InitialOwns(w) <==> (m, Replicas) in o.owners && !OwnedByOther(o, m, Replicas)
  {
    var o := w.dep.value.content;
    OwnerIsCounted(w, m);
    if CountOwners(w) == {m} && !InitialOwns(w) {
      forall c | c in o.owners && c.1 == Replicas
        ensures c.0 == m
      {
        assert c == (c.0, Replicas);
        assert Foreign(c.0) <==> c.0 in CountOwners(w);
      }
    }
  }

  lemma StepSets(w: World, s: Step)
    requires Safe(w)
    ensures CountIn(Next(w, s)) == Resulting(SetBy(w, s), CountIn(w))
  {
    hide Merge, UpdateWrite, Conflicts, DesiredDeployment;
    match s
    case Call => CallSets(w);
    case WriteWhole(m, sent) => WriteSets(w, m, sent);
    case ApplyPart(m, config, force) => ApplySets(w, m, config, force);
    case _ =>
  }

  // In every run of anybody's steps the count is what the last step that decided
  // it made it.
  lemma {:induction false} CountHistory(w: World, steps: seq<Step>)
    requires Safe(w)
    ensures CountIn(Run(w, steps)) == Resulting(LastSet(w, steps), CountIn(w))
  {
    if steps != [] {
      hide Safe, Next, SetBy, CountIn;
      var n := |steps| - 1;
      CountHistory(w, steps[..n]);
      SafeRun(w, steps[..n]);
      StepSets(Run(w, steps[..n]), steps[n]);
    }
  }

  // The count starts at a minimum exactly when a second apply sets it. From
  // before a Deployment exists, through any steps of anybody: it is there exactly
  // when it was created and not removed since, and its count is the default
  // unless a second apply or another manager decided it.
  lemma InitialCountIff(w: World, steps: seq<Step>)
    requires Safe(w) && w.dep.None?
    ensures var w', origin := Run(w, steps), LastSet(w, steps);
      && (w'.dep.Some? <==> !origin.AsBefore? && !origin.Gone?)
      && CountIn(w') == Resulting(origin, None)
  {
    SafeRun(w, steps);
    CountHistory(w, steps);
    hide Run, LastSet;
  }

  // ----- what a pass works from, and when it stops -----

  // A pass began at this step, with this spec, and has not ended since.
  predicate BeganAt(w: World, steps: seq<Step>, svc: InferenceService, k: nat) {
    && k < |steps| && steps[k].StartPass?
    && Run(w, steps[..k]).op.Idle? && Run(w, steps[..k]).svc == svc
    && forall j | k < j <= |steps| :: !Run(w, steps[..j]).op.Idle?
  }

  // In every run a pass works to its end from the spec that was there when it
  // began, whatever edits come in between.
  lemma {:induction false} WorksFromItsStart(w: World, steps: seq<Step>)
    requires w.op.Idle?
    ensures var op := Run(w, steps).op;
      !op.Idle? ==> exists svc, k :: BeganAt(w, steps, svc, k) && (!op.Deleting? ==> op.svc == svc)
  {
    if steps != [] && !Run(w, steps).op.Idle? {
      var n := |steps| - 1;
      var before, s := Run(w, steps[..n]), steps[n];
      WorksFromItsStart(w, steps[..n]);
      OperatorMoves(before, s);
      assert Run(w, steps) == Next(before, s);
      hide Run, Next;
      var svc, k: nat := before.svc, n;
      if !before.op.Idle? {
        svc, k :| BeganAt(w, steps[..n], svc, k) && (!before.op.Deleting? ==> before.op.svc == svc);
      }
      forall j | k < j <= |steps|
        ensures !Run(w, steps[..j]).op.Idle?
      {
        if j < |steps| { assert steps[..n][..j] == steps[..j]; } else { assert steps[..j] == steps; }
      }
      assert steps[..n][..k] == steps[..k];
      assert BeganAt(w, steps, svc, k);
    }
  }

  lemma OperatorMoves(w: World, s: Step)
    ensures var op, op' := w.op, Next(w, s).op;
      && (op.Idle? && !op'.Idle? ==> s.StartPass? && op' == Reading(w.svc))
      && (!op.Idle? && !op'.Idle? && !op.Deleting? && !op'.Deleting? ==> op'.svc == op.svc)
      && (op.Deleting? ==> op'.Idle? || op'.Deleting?)
  {
    hide UpdateWrite, ApplyWrite, Merge, DesiredDeployment;
  }

  // That spec is the last edit's, or the first one if there was none.
  lemma {:induction false} SpecIsLastEdit(w: World, steps: seq<Step>, k: int)
    requires -1 <= k < |steps| && (k >= 0 ==> steps[k].EditSpec?)
    requires forall j | k < j < |steps| :: !steps[j].EditSpec?
    ensures Run(w, steps).svc == if k < 0 then w.svc else steps[k].next
  {
    if steps != [] {
      var n := |steps| - 1;
      EditsSetSpec(Run(w, steps[..n]), steps[n]);
      assert Run(w, steps) == Next(Run(w, steps[..n]), steps[n]);
      if k < n { SpecIsLastEdit(w, steps[..n], k); }
      hide Next, Run;
    }
  }

  lemma EditsSetSpec(w: World, s: Step)
    ensures s.EditSpec? ==> Next(w, s).svc == s.next
    ensures !s.EditSpec? ==> Next(w, s).svc == w.svc
  {
    hide UpdateWrite, ApplyWrite, Merge, DesiredDeployment;
  }

  // An apply leaves the main name with exactly what that spec's Deployment lists.
  lemma ApplyWritesSpec(w: World, f: Field)
    requires Safe(w) && (w.op.Creating? || w.op.Applying?)
    ensures var w', config := Next(w, Call), DesiredDeployment(w.op.svc);
      && w'.dep.Some? && w'.svc == w.svc
      && ((MAIN, f) in w'.dep.value.content.owners <==> f in config)
      && (f in config ==> f in w'.dep.value.content.values && w'.dep.value.content.values[f] == config[f])
  {
    hide UpdateWrite, ApplyWrite, OutsideWrite, Merge, DesiredDeployment;
    var o := if w.dep.Some? then w.dep.value.content else EMPTY;
    assert Next(w, Call).dep.value.content == Merge(o, MAIN, DesiredDeployment(w.op.svc), DEFAULTS);
    MergeAt(o, MAIN, DesiredDeployment(w.op.svc), DEFAULTS, f);
    hide Next, Safe;
  }

  // The second apply goes through exactly when there is a Deployment and whoever
  // else owns the count has it at the minimum already. If not, the pass ends there.
  lemma SecondApplyMeans(w: World)
    requires Safe(w) && w.op.SettingReplicas?
    ensures var w', minimum := Next(w, Call), Number(w.op.svc.spec.minReplicas);
      && (w'.op.Applying? <==>
            w.dep.Some?
            && forall n | n != INITIAL && (n, Replicas) in w.dep.value.content.owners :: Count(w) == minimum)
      && (w'.op.Applying? ==> w'.op.svc == w.op.svc && w'.dep.Some? && CountIn(w') == Some(minimum))
      && (!w'.op.Applying? ==> w' == w.(op := Idle))
  {
    if w.dep.Some? {
      RefusedIff(w.dep.value.content, INITIAL, InitialReplicas(w.op.svc), DEFAULTS);
      hide Conflicts;
      var refused := ApplyWrite(w.dep.value.content, INITIAL, InitialReplicas(w.op.svc), false, DEFAULTS).Err?;
      assert refused <==>
             exists n, f :: n != INITIAL && (n, f) in w.dep.value.content.owners && f in InitialReplicas(w.op.svc)
                            && w.dep.value.content.values[f] != InitialReplicas(w.op.svc)[f];
    }
  }

  // A crash or a failing call ends the pass where it is, and until another one
  // starts the operator does nothing.
  lemma {:induction false} StoppedPassStops(w: World, s: Step, steps: seq<Step>)
    requires s.CallFails? || s.Crash?
    requires forall k | 0 <= k < |steps| :: !steps[k].StartPass?
    ensures Next(w, s) == w.(op := Idle)
    ensures Run(w, [s] + steps).op.Idle?
    ensures forall k | 0 <= k < |steps| && OperatorStep(steps[k]) ::
              Run(w, [s] + steps[..k + 1]) == Run(w, [s] + steps[..k])
  {
    IdleStays(w, s);
    if steps == [] {
      assert [s] + steps == [s] && [s][..0] == [];
    } else {
      var n := |steps| - 1;
      StoppedPassStops(w, s, steps[..n]);
      var all := [s] + steps;
      assert all[..n + 1] == [s] + steps[..n] && all[n + 1] == steps[n];
      IdleStays(Run(w, all[..n + 1]), steps[n]);
      assert Run(w, all) == Next(Run(w, all[..n + 1]), steps[n]);
      hide Run, Next;
      forall k | 0 <= k < |steps| && OperatorStep(steps[k])
        ensures Run(w, [s] + steps[..k + 1]) == Run(w, [s] + steps[..k])
      {
        if k < n {
          assert steps[..n][..k + 1] == steps[..k + 1] && steps[..n][..k] == steps[..k];
        } else {
          assert steps[..k + 1] == steps;
        }
      }
    }
  }

  lemma IdleStays(w: World, s: Step)
    ensures s.CallFails? || s.Crash? ==> Next(w, s) == w.(op := Idle)
    ensures w.op.Idle? && !s.StartPass? ==> Next(w, s).op.Idle? && (OperatorStep(s) ==> Next(w, s) == w)
  {
    hide UpdateWrite, ApplyWrite, Merge, DesiredDeployment;
  }

  // ----- the count while nobody else decides it -----

  // No other manager owns the count of the Deployment, if there is one.
  predicate Untouched(w: World) {
    Safe(w) && (w.dep.Some? ==> CountOwners(w) == {})
  }

  // Another manager changes the count, or applies a configuration that lists it.
  predicate Touches(w: World, s: Step) {
    && w.dep.Some?
    && match s
       case WriteWhole(m, sent) => Foreign(m) && CountIn(w) != Some((DEFAULTS + sent)[Replicas])
       case ApplyPart(m, config, force) =>
         Foreign(m) && Replicas in config && (force || Conflicts(w.dep.value.content, m, config) == {})
       case _ => false
  }

  lemma UntouchedWrite(w: World, m: Manager, sent: Config)
    requires Untouched(w)
    ensures var s, w' := WriteWhole(m, sent), Next(w, WriteWhole(m, sent));
      && (Untouched(w') <==> !Touches(w, s))
      && (!Touches(w, s) ==> SetBy(w, s).AsBefore? && (InitialOwns(w') <==> InitialOwns(w)))
  {
    var s, w' := WriteWhole(m, sent), Next(w, WriteWhole(m, sent));
    SafeNext(w, s);
    if w.dep.Some? && Foreign(m) {
      OwnersAfterWrite(w.dep.value.content, m, sent);
      SameCountOwners(w, w', m);
    }
  }

  lemma OwnersAfterWrite(o: Stored, m: Manager, sent: Config)
    requires Valid(o) && Replicas in o.values
    ensures var r := UpdateWrite(o, m, sent, DEFAULTS);
      if o.values[Replicas] == (DEFAULTS + sent)[Replicas]
      then forall n :: (n, Replicas) in r.owners <==> (n, Replicas) in o.owners
      else (m, Replicas) in r.owners
  {
  }

  lemma UntouchedApply(w: World, m: Manager, config: Config, force: bool)
    requires Untouched(w)
    ensures var s, w' := ApplyPart(m, config, force), Next(w, ApplyPart(m, config, force));
      && (Untouched(w') <==> !Touches(w, s))
      && (!Touches(w, s) ==> SetBy(w, s).AsBefore? && (InitialOwns(w') <==> InitialOwns(w)))
  {
    hide Conflicts;
    var s, w' := ApplyPart(m, config, force), Next(w, ApplyPart(m, config, force));
    SafeNext(w, s);
    if w.dep.Some? && Foreign(m) && (force || Conflicts(w.dep.value.content, m, config) == {}) {
      var o := w.dep.value.content;
      OwnersAfterApply(o, m, config, INITIAL);
      OwnerIsCounted(w, m);
      if Replicas !in config { OthersKeep(o, m, config); }
      SameCountOwners(w, w', m);
    }
  }

  lemma SameCountOwners(w: World, w': World, m: Manager)
    requires w.dep.Some? && w'.dep.Some? && Foreign(m)
    ensures (forall n :: (n, Replicas) in w'.dep.value.content.owners <==> (n, Replicas) in w.dep.value.content.owners)
            ==> CountOwners(w') == CountOwners(w)
    ensures (m, Replicas) in w'.dep.value.content.owners ==> CountOwners(w') != {}
  {
    OwnerIsCounted(w', m);
    forall n | Foreign(n)
      ensures n in CountOwners(w) <==> (n, Replicas) in w.dep.value.content.owners
      ensures n in CountOwners(w') <==> (n, Replicas) in w'.dep.value.content.owners
    {
      OwnerIsCounted(w, n);
      OwnerIsCounted(w', n);
    }
  }

  lemma UntouchedCall(w: World)
    requires Untouched(w)
    ensures var w', origin := Next(w, Call), SetBy(w, Call);
      && Untouched(w')
      && (InitialOwns(w') <==> origin.Minimum? || (origin.AsBefore? && InitialOwns(w)))
  {
    hide DesiredDeployment, Merge, Conflicts;
    SafeNext(w, Call);
    if w.dep.Some? {
      OperatorChangesCountIff(w, Call);
      if w.op.SettingReplicas? { InitialSets(w); }
      if w.op.Creating? || w.op.Applying? {
        ContainerFields(w.op.svc);
        OthersKeep(w.dep.value.content, MAIN, DesiredDeployment(w.op.svc));
      }
    } else if w.op.Creating? || w.op.Applying? {
      FirstApply(w.op.svc);
    }
  }

  // Others leave it so exactly as long as they do not touch it. And then the
  // operator's second name comes to own it exactly when its apply decides it.
  lemma UntouchedUnlessTouched(w: World, s: Step)
    requires Untouched(w)
    ensures Untouched(Next(w, s)) <==> !Touches(w, s)
    ensures var origin := SetBy(w, s);
      !Touches(w, s) ==>
        && !origin.Written? && !origin.Dropped?
        && (InitialOwns(Next(w, s)) <==> origin.Minimum? || (origin.AsBefore? && InitialOwns(w)))
  {
    hide Merge, UpdateWrite, Conflicts, DesiredDeployment;
    SafeNext(w, s);
    match s
    case Call => UntouchedCall(w);
    case WriteWhole(m, sent) => UntouchedWrite(w, m, sent);
    case ApplyPart(m, config, force) => UntouchedApply(w, m, config, force);
    case _ =>
  }

  // Exactly what the count is while no other manager touches it, through the
  // operator's steps with any reads, crashes and failures, spec edits, deletions
  // and whatever others do to the rest of the Deployment: the minimum of the last
  // second apply, or the default of the creation, whichever was later. The
  // operator's second name owns it exactly in the first case.
  lemma {:induction false} CountOnItsOwn(w: World, steps: seq<Step>)
    requires Untouched(w) && forall k | 0 <= k < |steps| :: !Touches(Run(w, steps[..k]), steps[k])
    ensures var w', origin := Run(w, steps), LastSet(w, steps);
      && Untouched(w') && !origin.Written? && !origin.Dropped?
      && CountIn(w') == Resulting(origin, CountIn(w))
      && (InitialOwns(w') <==> origin.Minimum? || (origin.AsBefore? && InitialOwns(w)))
  {
    CountHistory(w, steps);
    if steps != [] {
      hide Untouched, InitialOwns, CountIn, Next, Touches, SetBy;
      var n := |steps| - 1;
      var prefix := steps[..n];
      forall k | 0 <= k < n
        ensures !Touches(Run(w, prefix[..k]), prefix[k])
      {
        assert prefix[..k] == steps[..k];
      }
      CountOnItsOwn(w, prefix);
      UntouchedUnlessTouched(Run(w, prefix), steps[n]);
    }
  }

  function Crashed(svc: InferenceService): World { Next(HalfCreated(svc), Crash) }

  lemma CrashedCount(svc: InferenceService)
    ensures var w := Crashed(svc);
      Untouched(w) && w.dep.Some? && !InitialOwns(w) && CountIn(w) == Some(Number(1)) && w.op.Idle? && w.svc == svc
  {
    FirstApply(svc);
  }

  // After a crash between the two applies, in every run of anybody's steps: the
  // count is one until a step decides it.
  lemma CrashLosesInitialCount(svc: InferenceService, steps: seq<Step>)
    ensures CountIn(Run(Crashed(svc), steps)) == Resulting(LastSet(Crashed(svc), steps), Some(Number(1)))
  {
    hide Crashed, Safe, Run, LastSet, CountIn;
    CrashedCount(svc);
    CountHistory(Crashed(svc), steps);
  }

  // The second apply is only reached through a read that found no Deployment.
  lemma {:induction false} MinimumNeedsNotFound(w: World, steps: seq<Step>)
    requires !w.op.Creating? && !w.op.SettingReplicas?
    requires forall k | 0 <= k < |steps| :: steps[k] != ReadReturns(NotFound)
    ensures !LastSet(w, steps).Minimum?
    ensures !Run(w, steps).op.Creating? && !Run(w, steps).op.SettingReplicas?
  {
    if steps != [] {
      hide UpdateWrite, Merge, DesiredDeployment, Conflicts, CountOwners;
      MinimumNeedsNotFound(w, steps[..|steps| - 1]);
    }
  }

  // So until a read says that there is no Deployment no minimum is written,
  // whatever anybody does.
  lemma LostUnlessNotFound(svc: InferenceService, steps: seq<Step>)
    requires forall k | 0 <= k < |steps| :: steps[k] != ReadReturns(NotFound)
    ensures !LastSet(Crashed(svc), steps).Minimum?
  {
    hide Crashed, Run, LastSet, Untouched, InitialOwns, CountIn;
    CrashedCount(svc);
    MinimumNeedsNotFound(Crashed(svc), steps);
  }

  // And while nobody else touches the count it is one wherever there is a
  // Deployment, the old one or one that an apply made anew.
  lemma OneUnlessNotFound(svc: InferenceService, steps: seq<Step>)
    requires forall k | 0 <= k < |steps| :: steps[k] != ReadReturns(NotFound)
    requires forall k | 0 <= k < |steps| :: !Touches(Run(Crashed(svc), steps[..k]), steps[k])
    ensures var w := Run(Crashed(svc), steps); w.dep.Some? ==> CountIn(w) == Some(Number(1)) && !InitialOwns(w)
  {
    hide Crashed, Run, LastSet, Touches, InitialOwns, CountIn, Untouched;
    CrashedCount(svc);
    LostUnlessNotFound(svc, steps);
    CountOnItsOwn(Crashed(svc), steps);
    SafeHasCount(Run(Crashed(svc), steps));
  }

  lemma SafeHasCount(w: World)
    requires Untouched(w)
    ensures w.dep.Some? <==> CountIn(w).Some?
  {
  }

  // A read that says so brings the minimum: a stale one, or a true one after the
  // Deployment was deleted.
  lemma StaleReadRestores(svc: InferenceService)
    ensures CountIn(Run(Crashed(svc), [StartPass, ReadReturns(NotFound), Call, Call]))
            == Some(Number(svc.spec.minReplicas))
    ensures CountIn(Run(Crashed(svc), [DeleteIt, FinishDelete, StartPass, ReadReturns(NotFound), Call, Call]))
            == Some(Number(svc.spec.minReplicas))
  {
    hide Merge, DesiredDeployment, Crashed;
    CrashedCount(svc);
    CreationSets(Crashed(svc), []);
    var deleted := [DeleteIt, FinishDelete];
    assert deleted[..1][..0] == [] && Run(Crashed(svc), deleted[..1]).dep.value.deleting;
    assert Run(Crashed(svc), deleted) == Crashed(svc).(dep := None);
    CreationSets(Crashed(svc), deleted);
    assert [] + [StartPass, ReadReturns(NotFound), Call, Call] == [StartPass, ReadReturns(NotFound), Call, Call];
    assert deleted + [StartPass, ReadReturns(NotFound), Call, Call]
        == [DeleteIt, FinishDelete, StartPass, ReadReturns(NotFound), Call, Call];
  }

  // A whole creation that nobody disturbs ends with the minimum.
  lemma CreationSets(w: World, before: seq<Step>)
    requires Untouched(Run(w, before)) && Run(w, before).op.Idle?
    ensures CountIn(Run(w, before + [StartPass, ReadReturns(NotFound), Call, Call]))
            == Some(Number(Run(w, before).svc.spec.minReplicas))
  {
    hide Merge, DesiredDeployment, Conflicts;
    var steps, n := before + [StartPass, ReadReturns(NotFound), Call, Call], |before|;
    var u := Run(w, before);
    assert steps[..n] == before && steps[..n + 1][..n] == before;
    assert steps[..n + 2][..n + 1] == steps[..n + 1] && steps[..n + 3][..n + 2] == steps[..n + 2];
    assert steps[..|steps| - 1] == steps[..n + 3];
    assert Run(w, steps[..n + 1]) == u.(op := Reading(u.svc));
    assert Run(w, steps[..n + 2]) == u.(op := Creating(u.svc));
    var half := Run(w, steps[..n + 3]);
    assert half == Next(u.(op := Creating(u.svc)), Call);
    UntouchedCall(u.(op := Creating(u.svc)));
    InitialSets(half);
  }

  // The other way to a Deployment: a pass that read one which has gone by the
  // time it applies makes a new one, with no second apply after it.
  lemma ApplyAloneCreates(w: World)
    requires Safe(w) && w.dep.Some? && w.op.Idle?
    ensures var steps := [StartPass, ReadReturns(UpToDate), DeleteIt, FinishDelete, Call];
      var w' := Run(w, steps);
      && w'.dep.Some? && w'.op.Idle? && LastSet(w, steps) == Created
      && CountIn(w') == Some(Number(1)) && !InitialOwns(w')
  {
    hide Merge, DesiredDeployment, Conflicts;
    var steps := [StartPass, ReadReturns(UpToDate), DeleteIt, FinishDelete, Call];
    assert steps[..4][..3] == steps[..3] && steps[..3][..2] == steps[..2] && steps[..2][..1] == steps[..1];
    assert steps[..1] == [StartPass] && steps[..1][..0] == [] && steps[..|steps| - 1] == steps[..4];
    assert Run(w, steps[..1]) == w.(op := Reading(w.svc));
    assert Run(w, steps[..2]) == w.(op := Applying(w.svc));
    assert Run(w, steps[..4]) == w.(op := Applying(w.svc), dep := None);
    FirstApply(w.svc);
  }

  // Why ownership has to last: a user who applies a count and then leaves it out
  // gives it up, and a creation that was already under way overwrites it.
  lemma GivingUpOwnershipLosesCount(w: World, m: Manager, wanted: Value)
    requires Safe(w) && Unowned(w) && w.op.SettingReplicas? && Foreign(m)
    ensures var asked := Next(w, ApplyPart(m, map[Replicas := wanted], true));
      var dropped := Next(asked, ApplyPart(m, map[], true));
      && CountIn(asked) == Some(wanted) && Held(asked, w.dep.value.incarnation)
      && CountIn(dropped) == Some(Number(1)) && !Held(dropped, w.dep.value.incarnation)
      && CountIn(Next(dropped, Call)) == Some(Number(w.op.svc.spec.minReplicas))
  {
    hide DesiredDeployment;
    var config: Config := map[Replicas := wanted];
    var asked := Next(w, ApplyPart(m, config, true));
    var dropped := Next(asked, ApplyPart(m, map[], true));
    SafeNext(w, ApplyPart(m, config, true));
    SafeNext(asked, ApplyPart(m, map[], true));
    MergeAt(w.dep.value.content, m, config, DEFAULTS, Replicas);
    assert m in CountOwners(asked);
    MergeAt(asked.dep.value.content, m, map[], DEFAULTS, Replicas);
    assert Unowned(dropped);
    InitialWriteWins(dropped);
  }
}
