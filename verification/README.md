# Verification model of the LLM inference platform

This project models three parts of the platform and proves properties of them.

**The operator.** An `InferenceService` is turned into a Deployment, a Service, a claim template, a
KEDA ScaledObject and an InferencePool by server-side apply. Several writers share the Deployment:
the operator under two field-manager names, the autoscaler, users and the API server's defaults.
`ServerSideApply` is the ownership rule on any object; `Resources` gives the desired objects field by
field; `DeploymentApply` is what a chain of applies leaves. `ReplicaOwnership` is the world in which
every API call is one step and anything may happen in between: crashes, failing calls, stale reads,
writes by others, spec edits, deletion and re-creation. `ClusterState` and `Convergence` take
passes, whole or cut short, and completed deletions as events and count down to a fixed point; `ServiceStatus` is what the
status says; `Reconciler` is the reconciler as it is written, as methods on objects, tied to these
functions; `OperatorPass` shows that a whole pass is a run of the single calls.

**The gateway's cache.** `CacheModel` is the semantic cache as one list of entries, least recently
used first, with the clock readings of every lookup named. `SemanticCacheIndexes` is the two-index
cache itself (per-scope buckets and a global recency order), refining that list. `CacheIsolation` compares
two runs. `Similarity` is the embedding and the cosine over exact numbers, and
`CacheEmbedding` the cache that uses them. `PrefixSalt` is the salt
sent along to vLLM.

**A request through the gateway.** `Router` is the four-stage selection. `Client` is the in-flight
counts, the charge of a call and the ledger; `Sharing` and `Charges` say what those counts and charges
mean. `GatewayRuns` is a step machine in which any number of requests interleave, one operation per
step; `GatewayAccounts` and `GatewaySharing` are its whole-run invariants; `Gateways` holds the
gateway object, whose `Handle` is shown to be a run of those steps, and `GatewaySequences` takes one
request after another. `GatewayCapabilities` says exactly when an answer was made with the capabilities
its request asked for.

Python's floats are exact real numbers here, and a square root is given as the non-negative number
whose square it is. The network, the clock, the hash, the embedder, the similarity used by the cache
and the extraction of numerals are parameters.

Four things the proofs turned up:

- The count an autoscaler set is safe exactly until a step gives its ownership up: a pending deletion
  completes, or the only other manager that owns the count applies without it
  (`ReplicaOwnership.HeldUnlessGivenUp`). A creation still in progress may then write its minimum
  (`ReplicaOwnership.GivingUpOwnershipLosesCount`).
- "The count starts at the minimum" (`internal/controller/inferenceservice_controller.go:255-274`) is not
  always so. In every run of anybody's steps the count is what the last step that decided it made it
  (`ReplicaOwnership.CountHistory`), so it is a minimum the operator wrote exactly when that step is a
  second apply that found no other owner (`ReplicaOwnership.InitialCountIff`). There are two ways to miss
  it: a crash or failure between the two applies, and a pass that read a Deployment which has gone by the
  time it applies (`ReplicaOwnership.ApplyAloneCreates`). After the crash no minimum is written, whatever
  anybody does, until a read says that there is no Deployment: a stale one, or a true one after the
  Deployment was deleted (`ReplicaOwnership.LostUnlessNotFound`, `ReplicaOwnership.StaleReadRestores`).
- `docs/guides/04-one-request-through-the-gateway-from-zero.md:158-159` says the ledger records every
  call that reaches a backend. In the code a failing backend call adds no record
  (`gateway/app/gateway.py:62-67`), and the model follows the code: once nothing is on its way, the
  ledger has a record for every lookup exactly when no call failed
  (`GatewayAccounts.EveryLookupRecordedIff`).
- A cached answer was made on a backend allowed for the request's classification, but not always on
  one with the capabilities the request asked for, because the scope names the model only. It always
  is exactly when the cache can answer nothing or the pool is not divided: no two backends of one
  model, one with a capability the other lacks, are both the router's choice for the hardest request
  of a classification they can take (`GatewayCapabilities.CapableIff`).

## Model

| member | source | states |
|---|---|---|
| ServerSideApply.MergeAt | docs/adr/0004-operator-never-writes-replicas.md:20-22 | One apply, field by field: the manager owns exactly the fields it lists, they have its values, a field it alone owned and lists no longer goes back to the default or away, every other field stays |
| ServerSideApply.MergeTwice | internal/controller/inferenceservice_controller.go:242-245 | Applying the same configuration again changes no value and no owner |
| ServerSideApply.RefusedIff | docs/adr/0004-operator-never-writes-replicas.md:20-22 | An apply without force is refused exactly when another manager owns a listed field with another value; with force never |
| ServerSideApply.UpdateAt | docs/adr/0004-operator-never-writes-replicas.md:20-22 | A whole-object write, field by field: the values sent or the defaults; what it changed the writer alone owns, what it did not change keeps its owners |
| ServerSideApply.ApplyAllResult | internal/controller/inferenceservice_controller.go:242-248 | History independence: after any sequence of configurations from any object, the manager owns exactly the last one; every other manager keeps exactly what no configuration contradicted; a field of no last configuration survives exactly when the starting object and the set of fields ever listed say so |
| ServerSideApply.OnlyTheLastMatters | internal/controller/inferenceservice_controller.go:242-248 | With nobody else writing, a sequence of applies ends as the last one alone |
| Resources.DeploymentIsComplete | internal/controller/deployment.go:34-79 | The applied Deployment lists a field exactly when the field's own description gives it a value, and with that value; nothing is lost by enumerating the fields |
| Resources.SelectorsFindThePods | internal/controller/resources.go:26-42 | The Deployment, the Service and the pool select by the same two labels, and every pod of the Deployment has them |
| Resources.SelectorIsTheName | internal/controller/resources.go:26-35 | Two specs have the same selector exactly when the services have the same name, so no spec edit changes it |
| Resources.LabelsTellApart | internal/controller/resources.go:37-42 | The pods' backend and class labels agree exactly when the backends and the classes do |
| Resources.ClaimsGoTogether | internal/controller/deployment.go:56-64 | The pod names the service's claim template, and the container uses the claim, exactly when a device class is set |
| Resources.VolumesAreThere | internal/controller/deployment.go:43-54 | Every mount has its volume: the model cache from the named claim or else from scratch space, shared memory exactly for vLLM |
| Resources.OnePort | internal/controller/resources.go:69-75 | Container, scraper, Service and pool all use port 8000 |
| Resources.ProbesAskThePort | internal/controller/deployment.go:106-110 | Every probe by HTTP asks port 8000, and only Ollama's startup probe is not by HTTP |
| Resources.StartupOutlastsLoad | internal/controller/deployment.go:172-174 | The startup probe allows more seconds than the weight load may take, and one failure less would not |
| Resources.ProbesGiveUp | internal/controller/deployment.go:109-146 | A started container that does not answer at its backend's health path gets no traffic after 15 seconds and is restarted after 60 |
| Resources.ServesTheModel | internal/controller/deployment.go:81-128 | The container runs its backend's image; vLLM has the spec's model as its first argument, Ollama has it in its environment |
| Resources.VllmArguments | internal/controller/deployment.go:86-99 | vLLM serves under the service's name, within the spec's length and memory limits, on port 8000 |
| Resources.OllamaIsSetUp | internal/controller/deployment.go:122-147 | Ollama listens on port 8000, looks for models where the cache is mounted, and counts as started once it can show the spec's model; vLLM has none of this |
| Resources.ContainerIsTheBackends | internal/controller/deployment.go:34-41 | Every container field is of the backend's own container, with its name |
| Resources.ScalerMeans | internal/controller/resources.go:126-191 | The scaler targets this Deployment within the spec's bounds, and its scale-down window is the larger of 300 seconds and the weight load |
| Resources.ScalerSteps | internal/controller/resources.go:146-195 | One pod at a time, up after a minute and down after the window |
| Resources.ScalerQueries | internal/controller/resources.go:120-160 | The queries are for this service's pods, with the spec's three targets |
| Resources.TemplateMeans | internal/controller/resources.go:89-114 | One device of the spec's class, with a memory floor exactly when the spec has one |
| DeploymentApply.ContainerFields | internal/controller/deployment.go:34-41 | The applied Deployment never lists the replica count and describes exactly one container, the backend's |
| DeploymentApply.ContainersAfter | internal/controller/deployment.go:34-79 | After any sequence of configurations the containers are those of the last one and those of the starting object no configuration could take over |
| DeploymentApply.BackendSwitches | internal/controller/deployment.go:35-41 | Any chain of backend switches from any object leaves the last backend's container plus only what could not be taken over |
| DeploymentApply.OneContainer | internal/controller/deployment.go:35-41 | A Deployment the operator alone ever applied has exactly one container, the last backend's |
| DeploymentApply.PlainCreateKeepsOldContainer | internal/controller/inferenceservice_controller.go:255-263 | Contrast: created by a plain write instead of an apply, both containers remain after a switch |
| DeploymentApply.SingleManagerLosesCount | internal/controller/inferenceservice_controller.go:259-263 | Contrast: one manager that sets the count and then leaves it out loses it to the default of one |
| ReplicaOwnership.SafeNext | internal/controller/inferenceservice_controller.go:210-274 | Every step of anybody keeps the invariant: a Deployment has a count and the operator's main name does not own it |
| ReplicaOwnership.OperatorChangesCountIff | internal/controller/inferenceservice_controller.go:255-274 | An operator step on a live Deployment changes its count exactly when it is the initial write, nobody else owns the count and the minimum differs from it; it never adds or removes another owner |
| ReplicaOwnership.HeldUnlessGivenUp | internal/controller/inferenceservice_controller.go:242-248 | Another manager's ownership of the count is lost in a step exactly when the step completes a pending deletion or is the only other owner's accepted apply without the count |
| ReplicaOwnership.OperatorNeverResetsCount | internal/controller/inferenceservice_controller.go:210-274 | In every interleaving with crashes, failing calls, stale reads, edits and other writers, once another manager owns the count and as long as no step gives that up, the count is at every point what the last outside step left |
| ReplicaOwnership.ChangingTakesOwnership | docs/adr/0004-operator-never-writes-replicas.md:20-22 | A manager that changes the count, by sending the whole object or by an accepted apply, becomes its one and only owner, so the safety above applies from there |
| ReplicaOwnership.FirstApply | internal/controller/inferenceservice_controller.go:264-267 | The first apply leaves the count at the server's default, owned by nobody |
| ReplicaOwnership.InitialWriteWins | internal/controller/inferenceservice_controller.go:268-273 | The second apply, without force, sets the minimum while nobody owns the count, and its name is then the only owner |
| ReplicaOwnership.SecondApplyMeans | internal/controller/inferenceservice_controller.go:268-273 | The second apply goes through exactly when there is a Deployment and whoever else owns the count has it at the minimum already; otherwise the pass ends and changes nothing |
| ReplicaOwnership.HalfCreatedIsReached | internal/controller/inferenceservice_controller.go:215-222 | The state between the two applies is reached by a pass that found no Deployment |
| ReplicaOwnership.WorksFromItsStart | internal/controller/inferenceservice_controller.go:72-80 | In every run a pass works to its end from the spec that was there when it began, whatever edits come in between |
| ReplicaOwnership.SpecIsLastEdit | internal/controller/inferenceservice_controller.go:72-80 | That spec is the last edit's |
| ReplicaOwnership.ApplyWritesSpec | internal/controller/inferenceservice_controller.go:242-248 | An apply of the pass leaves the main name with exactly what that spec's Deployment lists, with its values |
| ReplicaOwnership.StoppedPassStops | internal/controller/inferenceservice_controller.go:215-274 | A crash or a failing call ends the pass where it is, and until another pass starts the operator changes nothing |
| ReplicaOwnership.CreationSetsMinimum | internal/controller/inferenceservice_controller.go:264-274 | With both applies through, the count goes from one to the minimum |
| ReplicaOwnership.CountHistory | internal/controller/inferenceservice_controller.go:210-274 | In every run of anybody's steps, from any safe world, the count is exactly what the last step that decided it made it: gone with the Deployment, the default of a creation, the minimum of a second apply, another manager's value, or the default again when its only owner drops it |
| ReplicaOwnership.LastSetMeans | internal/controller/inferenceservice_controller.go:210-274 | That last step is a step of the run that decided the count with none after it, and there is none exactly when no step did |
| ReplicaOwnership.InitialCountIff | internal/controller/inferenceservice_controller.go:255-274 | From before a Deployment exists, through any steps: it is there exactly when it was created and not removed since, and its count is the default unless a second apply or another manager decided it |
| ReplicaOwnership.UntouchedUnlessTouched | internal/controller/inferenceservice_controller.go:255-263 | Nobody else owns the count exactly as long as no other manager changes it or applies it; until then the operator's second name owns it exactly when its apply decided it |
| ReplicaOwnership.CountOnItsOwn | internal/controller/inferenceservice_controller.go:255-274 | While no other manager touches the count, through any operator steps, reads, crashes and failures, spec edits, deletions and writes to the rest of the Deployment: the count is the last second apply's minimum or the last creation's default, whichever is later, and the second name owns it exactly in the first case |
| ReplicaOwnership.CrashLosesInitialCount | internal/controller/inferenceservice_controller.go:265-272 | After a crash between the two applies, in every run of anybody's steps, the count is one until a step decides it |
| ReplicaOwnership.LostUnlessNotFound | internal/controller/inferenceservice_controller.go:215-240 | After the crash, in every run without a "not found" read, no minimum is ever the deciding write |
| ReplicaOwnership.OneUnlessNotFound | internal/controller/inferenceservice_controller.go:215-252 | And while no other manager touches the count it is one wherever there is a Deployment, the old one or a new one |
| ReplicaOwnership.StaleReadRestores | internal/controller/inferenceservice_controller.go:215-222 | After the crash a stale "not found" read, or a true one after a deletion, and two calls set the minimum |
| ReplicaOwnership.CreationSets | internal/controller/inferenceservice_controller.go:264-274 | After any steps, a "not found" read and two calls that nobody disturbs leave the minimum of the current spec, if nobody else owns the count |
| ReplicaOwnership.ApplyAloneCreates | internal/controller/inferenceservice_controller.go:242-248 | A pass whose Deployment goes between its read and its apply makes a new one with count one, owned by nobody, and no second apply follows |
| ReplicaOwnership.GivingUpOwnershipLosesCount | internal/controller/inferenceservice_controller.go:259-273 | The limit of the safety: a manager that applies a count and then omits it gives the field up, and a pending initial write then sets the minimum |
| ClusterState.PlanIsSound | internal/controller/deployment.go:66-71 | What every spec asks for contains a Deployment with the operator's selector and a Service, a ScaledObject only for a scaling backend, and an initial write that leaves the selector alone |
| ClusterState.WantedIff | internal/controller/inferenceservice_controller.go:103-126 | Deployment and Service always, the claim template with a device class, the ScaledObject for vLLM with KEDA, the pool where pools are installed, and no other |
| ClusterState.EachKindIsItself | internal/controller/resources.go:65-220 | Each kind is asked for with its own configuration: only the Deployment's has pod labels, only the Service's service ports, and so on |
| ClusterState.EveryObjectIsOurs | internal/controller/resources.go:37-63 | Every object has the service as its controller and carries its four labels |
| ClusterState.PolicyMeans | internal/controller/inferenceservice_controller.go:377-388 | A spec is refused exactly when it is Restricted without a device class or on Ollama, or on vLLM without a device class; the reason is the first that applies |
| Convergence.PassAt | internal/controller/inferenceservice_controller.go:90-152 | One pass, kind by kind: when it stops early, what it applies, what it deletes, what it leaves |
| Convergence.PassProgress | internal/controller/inferenceservice_controller.go:90-152 | A pass never increases the distance to the spec and decreases it when the distance waits for a pass |
| Convergence.FinishProgress | internal/controller/inferenceservice_controller.go:225-227 | Completed deletions never increase the distance and decrease it when it waits for them |
| Convergence.PartIsNoFurther | internal/controller/inferenceservice_controller.go:90-152 | A pass cut short by a crash or a failing call after any number of its calls never increases the distance |
| Convergence.SevenCallsAreAPass | internal/controller/inferenceservice_controller.go:90-152 | The calls one after another make up the pass |
| Convergence.PartKeepsConverged | internal/controller/inferenceservice_controller.go:90-152 | At distance zero no part of a pass changes anything |
| Convergence.Progress | internal/controller/inferenceservice_controller.go:210-253 | The termination measure over whole passes, passes cut short and completed deletions |
| Convergence.PassKeepsConverged | internal/controller/inferenceservice_controller.go:90-152 | At distance zero a pass leaves the cluster exactly as it is |
| Convergence.DistanceBound | internal/controller/inferenceservice_controller.go:90-152 | Along any sequence of passes, passes cut short and completed deletions the distance is bounded by what the sequence leaves of four |
| Convergence.ConvergedMatches | internal/controller/inferenceservice_controller.go:103-126 | At distance zero every wanted object has exactly the operator's fields and values, the claim template is present exactly when a device class is set, the operator lists it on the Deployment exactly then, and the owned ScaledObject is present exactly when the backend is not Ollama and KEDA is installed |
| Convergence.Converges | internal/controller/inferenceservice_controller.go:90-152 | From any cluster (Deployment absent, being deleted, with an old selector, or current), for any accepted spec, once whole passes and completed deletions have alternated twice, with any number of passes cut short among them, the cluster matches the spec and none of these events changes it |
| Convergence.TwoRoundsSuffice | internal/controller/inferenceservice_controller.go:112-115 | Two passes, each followed by the deletions it asked for, are such a sequence |
| Convergence.ClaimNamedIff | internal/controller/deployment.go:58-64 | On a Deployment only the operator listed a claim on, the converged Deployment's values name the service's claim template exactly when a device class is set |
| ServiceStatus.PodTrouble | internal/controller/inferenceservice_controller.go:172-205 | The two loops over pods give the first scheduler verdict, else the first container that will not start, else none |
| ServiceStatus.PhaseIgnoresPodOrder | internal/controller/inferenceservice_controller.go:178-204 | The phase is Unschedulable if any pod is, else Failing if any pod fails, else Loading, whatever the order of the pods |
| ServiceStatus.PhaseMeans | internal/controller/inferenceservice_controller.go:154-204 | On the pods' own fields: Unschedulable for a scheduling condition that is false for that reason, else Failing for a container waiting for one of seven reasons, else Loading; a container being created is Loading |
| ServiceStatus.TroubleIsReported | internal/controller/inferenceservice_controller.go:178-204 | The message or container that is quoted is some pod's own |
| ServiceStatus.VerdictMeans | internal/controller/inferenceservice_controller.go:321-338 | KEDA's verdict is that of the first Ready entry that says True or False, and Unknown exactly when none does |
| ServiceStatus.ScaledObjectReady | internal/controller/inferenceservice_controller.go:321-338 | The loop over the conditions computes that verdict |
| ServiceStatus.SetThenFind | internal/controller/inferenceservice_controller.go:390-394 | A condition that was set is reported, with the time of the change of its status, and no other condition changes |
| ServiceStatus.SetAgain | internal/controller/inferenceservice_controller.go:390-394 | Setting what is already reported changes nothing, at any later time |
| ServiceStatus.CompletedStatus | internal/controller/inferenceservice_controller.go:128-151 | After a pass that ran to the end: phase Ready, condition Ready=True and ready replicas above zero are equivalent; Autoscaling=True exactly when KEDA's own Ready=True was read for a scaling backend; Unschedulable and Failing exactly by the pods; the replicas read, the endpoint on port 8000 and the generation are reported |
| ServiceStatus.CompletedReasons | internal/controller/inferenceservice_controller.go:128-151 | Each condition says why: the first trouble of a pod or else loading weights; no scaling for the backend, for want of KEDA, or in KEDA's own words; no pool where pools are not installed |
| ServiceStatus.EarlyStatus | internal/controller/inferenceservice_controller.go:93-101 | A pass that ends early: a refused one sets Admitted=False with the rule and phase Rejected, one that recreates the Deployment sets Admitted=True and Ready=False, one that waits sets Admitted=True; all else stays as it was |
| ServiceStatus.FixedStatusStays | internal/controller/inferenceservice_controller.go:81-86 | With the same observations a further complete pass leaves the whole status as it is |
| Reconciler.ApiServer.Apply | internal/controller/inferenceservice_controller.go:276-293 | A failing apply changes nothing; one of a kind that is not installed is refused, one without force is refused on a conflict, any other merges |
| Reconciler.InferenceServiceReconciler.DeleteIfOwned | internal/controller/inferenceservice_controller.go:357-369 | Deletes exactly an object whose controller is this service; when a call fails it changes nothing |
| Reconciler.InferenceServiceReconciler.CreateDeployment | internal/controller/inferenceservice_controller.go:264-274 | Leaves the Deployment of the two applies in order, whether or not there was one before; fails, with the first apply done or not, only when a call fails or the unforced second apply meets a conflict, which it never gets past |
| Reconciler.InferenceServiceReconciler.ReconcileDeployment | internal/controller/inferenceservice_controller.go:210-253 | The new objects in all four states of the Deployment, when the pass is taken up again later, that only a recreation touches the status, and where a failing call leaves both |
| Reconciler.InferenceServiceReconciler.ReconcileAutoscaling | internal/controller/inferenceservice_controller.go:276-317 | ScaledObject applied, skipped or deleted, and the Autoscaling condition that goes with it; where a failing call leaves both |
| Reconciler.InferenceServiceReconciler.ReconcileRouting | internal/controller/inferenceservice_controller.go:340-353 | InferencePool applied or skipped, and the Routing condition; a failing call changes neither |
| Reconciler.InferenceServiceReconciler.ReportReadiness | internal/controller/inferenceservice_controller.go:128-151 | Ready replicas, endpoint, phase, Ready condition and the time of the next pass; only the first two when listing the pods fails |
| Reconciler.InferenceServiceReconciler.ReconcileOnce | internal/controller/inferenceservice_controller.go:90-152 | The pass with its early returns gives exactly the cluster and the status of the specification (`ClusterState.PolicyMeans`, `Convergence.PassAt`, `ServiceStatus.CompletedStatus`, `OperatorPass.RefusedPass` and others say what those are); it fails only when a call does, and then leaves the cluster after some first calls of the pass and the status after some first reports |
| Reconciler.InferenceServiceReconciler.Reconcile | internal/controller/inferenceservice_controller.go:72-88 | Nothing for a service that is gone; no object is touched for a spec against the rules; else one pass, the generation stamped also after a failure, and a status write exactly when the status changed, which can fail too and then leaves the status as it was |
| OperatorPass.PassIsItsCalls | internal/controller/inferenceservice_controller.go:210-274 | What a whole pass does to the Deployment is what its API calls do one by one in the interleaving world |
| OperatorPass.RefusedPass | internal/controller/inferenceservice_controller.go:93-100 | For a spec against the rules, on its own fields: every object stays, Admitted is False, the phase is Rejected, all other conditions stay, and nothing is retried |
| OperatorPass.AdmittedPass | internal/controller/inferenceservice_controller.go:95-101 | For any other spec the pass is not refused |
| OperatorPass.FixedPoint | internal/controller/inferenceservice_controller.go:81-86 | At the fixed point a pass runs to the end, leaves the cluster, and from the second one on leaves the status, so nothing is written |
| OperatorPass.ReachesFixedPoint | internal/controller/inferenceservice_controller.go:72-152 | From any cluster two alternations of passes and completed deletions reach the cluster the spec describes, after which passes change neither cluster nor, from the second one on, status |
| CacheModel.BestMeans | gateway/app/cache.py:158-168 | The best entry is the lowest id of the highest score in the scope, which is positive; there is none exactly when no score is positive |
| CacheModel.BestIsUnique | gateway/app/cache.py:158-168 | There is only one such entry |
| CacheModel.GetMeans | gateway/app/cache.py:153-178 | A lookup returns the best live entry's response exactly when its score reaches the threshold and its numerals are the prompt's, is blocked exactly when only the numerals differ, and leaves exactly the entries of other scopes and those whose reading, at their place in the scan, is at most the time to live after they were stored; all of them if that is not positive |
| CacheModel.RunIsSound | gateway/app/cache.py:180-189 | In every state a run reaches ids are distinct and below the next one, and there are at most the maximum of entries |
| CacheModel.ItemsWerePut | gateway/app/cache.py:180-185 | In every run every entry has scope, time, prompt, response, vector and numerals of some put |
| CacheModel.HitIsRecent | gateway/app/cache.py:142-178 | In every run a hit's text was put in its scope by a prompt with the same numerals that scores at least the threshold, at a time at most the time to live before the reading |
| CacheModel.Conservation | gateway/app/cache.py:153-189 | After any run: puts equal entries held plus expired plus evicted, hits plus misses equal gets, blocked false hits are among the misses |
| CacheModel.OrderedByLastUse | gateway/app/cache.py:176 | In every run the recency order is the order of last put or hit, across scopes and after expiries |
| CacheModel.EvictsLeastRecentlyUsed | gateway/app/cache.py:186-189 | Whatever a put evicts was used less recently than each of the maximum number of entries it leaves |
| SemanticCacheIndexes.DropAgrees | gateway/app/cache.py:145-151 | Dropping an entry from both indexes keeps them in agreement, removes an emptied bucket, and takes exactly that entry off the list |
| SemanticCacheIndexes.AddAgrees | gateway/app/cache.py:180-185 | Adding an entry keeps the agreement and appends to the list |
| SemanticCacheIndexes.MoveAgrees | gateway/app/cache.py:176 | Moving a key to the end keeps the agreement and moves its entry to the end of the list |
| SemanticCacheIndexes.FlatMembers | gateway/app/cache.py:145-151 | The recency order holds exactly the entries of the buckets, once each, with ids below the next one |
| SemanticCacheIndexes.RankIsPlace | gateway/app/cache.py:160 | An entry's place in its bucket is its rank among the scope's ids, so the scan's clock readings are the list's |
| SemanticCacheIndexes.ScanLeavesLive | gateway/app/cache.py:160-164 | What the scan of a bucket leaves is what the lookup means to leave |
| SemanticCacheIndexes.BucketAfterLookup | gateway/app/cache.py:142-164 | Entry by entry: the i-th of the bucket stays exactly when the i-th reading is at most the time to live after it was stored, or entries live for ever; other buckets stay |
| SemanticCacheIndexes.LeaderIsBest | gateway/app/cache.py:165-168 | The scan's running best is the list's best entry |
| SemanticCacheIndexes.EvictFirst | gateway/app/cache.py:186-188 | Taking the first key off the order and dropping its entry takes the first entry off the list |
| SemanticCacheIndexes.SemanticCache.Drop | gateway/app/cache.py:145-151 | Removes the entry from both indexes, and the bucket when it was the last |
| SemanticCacheIndexes.SemanticCache.Scan | gateway/app/cache.py:158-168 | Drops what had expired, counts it, and returns the leader of the rest |
| SemanticCacheIndexes.SemanticCache.Get | gateway/app/cache.py:153-178 | Refines the list's lookup: answer, order, buckets and all counters |
| SemanticCacheIndexes.SemanticCache.EvictSurplus | gateway/app/cache.py:186-189 | Evicts exactly the surplus, from the front |
| SemanticCacheIndexes.SemanticCache.Put | gateway/app/cache.py:180-189 | Refines the list's store |
| CacheIsolation.GetElsewhere | gateway/app/cache.py:153-178 | A lookup in one scope leaves every other scope's entries, in order |
| CacheIsolation.PutElsewhere | gateway/app/cache.py:180-189 | A put in one scope takes from every other scope only what it evicts, its least recently used entries, and leaves the rest in order |
| CacheIsolation.ScopesAreIsolated | gateway/app/cache.py:84-102 | Two runs: if the full run evicts nothing, a scope holds the same entries and gets the same answers as in the run of its own operations with the same clock readings |
| Similarity.SmallDotIsDot | gateway/app/cache.py:69-70 | Summing over the smaller map gives the sum over all keys |
| Similarity.DotNext | gateway/app/cache.py:69-70 | Every common token adds the product of its two weights to the sum, every other token nothing |
| Similarity.DenseDotNext | gateway/app/cache.py:71-79 | Every place adds the product of its two weights to the dense sum |
| Similarity.CosineMeans | gateway/app/cache.py:65-81 | The similarity of any two vectors times their norms is that sum, and zero if a norm is |
| Similarity.CosineLaws | gateway/app/cache.py:65-81 | The similarity is symmetric, between -1 and 1, one for a non-zero vector with itself, and refused exactly for vectors of different kinds or lengths |
| Similarity.Embed | gateway/app/cache.py:49-62 | The loop counts every token and scales by the norm |
| Similarity.EmbeddingIsUnit | gateway/app/cache.py:49-62 | The result has length one and positive weights |
| Similarity.SharedTerms | gateway/app/cache.py:65-81 | Between such vectors the similarity is never negative, and zero exactly when no token is shared |
| CacheEmbedding.BagScores | gateway/app/cache.py:45-81 | In the cache with its own embedder and the cosine, scores lie between zero and one, are one for equal bags and zero exactly when no token is shared |
| CacheEmbedding.StoredBagIsFound | gateway/app/cache.py:153-178 | With a threshold of at most one, a prompt whose bag is stored and live in the scope is never a plain miss |
| PrefixSalt.MessageReadsBack | gateway/app/cache.py:218 | The hash's input splits back at its last separator into tenant and classification, for every tenant string |
| PrefixSalt.MessagesDiffer | gateway/app/cache.py:218 | Two inputs are equal exactly when tenant and classification are |
| PrefixSalt.MessageExample | gateway/app/cache.py:218 | Tenant, U+001F, and the class by name, letter by letter |
| PrefixSalt.UnpaddedReadsBack | gateway/app/cache.py:221 | Unpadded base64url (section 5 of RFC 4648) decodes to the bytes it came from, with the length the standard gives |
| PrefixSalt.AlphabetMeans | gateway/app/cache.py:221 | The 64 symbols are those of table 2 of RFC 4648 |
| PrefixSalt.TestVectors | gateway/app/cache.py:221 | Vectors of section 10 of RFC 4648 |
| PrefixSalt.SaltsSeparate | gateway/app/cache.py:200-221 | Salts under one key agree exactly when the digests do, so different pairs share a salt only on a hash collision; a digest of 32 bytes gives 43 characters |
| Router.FilterCeiling | gateway/app/router.py:90-99 | The first stage keeps exactly the backends whose ceiling is high enough, in order, and explains every other |
| Router.FilterCapable | gateway/app/router.py:101-111 | The second stage keeps exactly those also capable and large enough, and explains every other with its first failed test |
| Router.FilterLatency | gateway/app/router.py:113-117 | The third stage keeps exactly the eligible ones and explains every other |
| Router.Cheapest | gateway/app/router.py:124-125 | The first of the backends with the least cost key |
| Router.Route | gateway/app/router.py:86-133 | Succeeds exactly when somebody is eligible, with the choice, the size of the pool, and a reason for exactly the names that are not eligible |
| Router.StagesAreOneTest | gateway/app/router.py:90-117 | Passing the stages is passing all four tests at once |
| Router.CeilingMeans | gateway/app/router.py:19-22 | Which ceilings admit which class |
| Router.NeededContextMeans | gateway/app/router.py:102 | The context needed is the whole part of 1.3 times the estimate |
| Router.EligibleMeans | gateway/app/router.py:90-117 | Eligible, on the fields of request and backend alone |
| Router.ReasonMeans | gateway/app/router.py:90-117 | The reason against a backend is the first that applies: its ceiling for exactly the pairs (INTERNAL, PUBLIC), (RESTRICTED, PUBLIC), (RESTRICTED, INTERNAL), then exactly the missing capabilities, then the context, then the latency |
| Router.TurnedAwayForCeiling | gateway/app/router.py:90-99 | In a decision a backend is turned away for its ceiling exactly for those pairs |
| Router.PriceMeans | gateway/app/router.py:54-61 | The price times the tokens of an hour is the hourly cost for a million tokens; zero if the cost is, unknown exactly with a cost and no throughput |
| Router.LessMeans | gateway/app/router.py:136-142 | The cost key, on the fields: priced before unpriced, then by cost for the same tokens or by the hour, then by latency |
| Router.ChoiceIsCheapest | gateway/app/router.py:124-142 | On the fields alone: against every eligible backend the choice is priced if that one is, free if it is, and costs no more for the same tokens, or by the hour when neither is priced; at the same price it is no slower, and on a full tie it comes first |
| Router.ChoiceIsUnique | gateway/app/router.py:124-125 | There is one choice |
| Router.ChoiceIgnoresIneligible | gateway/app/router.py:90-125 | Adding or removing backends that are not eligible never changes the choice |
| Router.WeakerIsNoDearer | gateway/app/router.py:136-142 | A request that asks for less is routed, and never to a dearer cost key |
| Router.RejectedPartitionPool | gateway/app/router.py:86-122 | With distinct names the eligible and the rejected partition the pool, each rejected one with its own reason |
| Client.InFlight.Enter | gateway/app/client.py:90-94 | The count goes up by one and includes the call |
| Client.InFlight.Leave | gateway/app/client.py:96-101 | The count before leaving is returned, and goes down by one but not below zero |
| Client.Complete | gateway/app/client.py:146-180 | The record of a completed call is the call's own: its backend, model, tokens and times, and a cost that times the concurrency is the hourly rate for its milliseconds; the concurrency is the count with the call; a failing call has no record and leaves the count all the same |
| Client.ByTheHour | gateway/app/client.py:173 | The full charge is the hourly rate for the milliseconds, and for an hour the rate |
| Client.ConcurrencyMeans | gateway/app/client.py:168-172 | The concurrency is the mean of the two counts, but at least one |
| Client.FreshRecordMeans | gateway/app/client.py:164-180 | A fresh record is its call's own and charges by the hour and the concurrency |
| Client.EnterLeaveRestores | gateway/app/client.py:90-101 | Entering and leaving restores every backend's count |
| Client.Ledger.TotalMilliUsd | gateway/app/client.py:54-55 | The sum of all records' costs |
| Client.Ledger.ByBackend | gateway/app/client.py:57-65 | One group for each backend that occurs, each with exactly its records' totals |
| Client.Ledger.ByTenant | gateway/app/client.py:67-75 | One group for each tenant that occurs, each with exactly its records' totals |
| Client.GroupsPartitionLedger | gateway/app/client.py:54-75 | Costs, calls, tokens and times of the groups add up to the ledger's, by backend and by tenant |
| Sharing.CountIsCallsInProgress | gateway/app/client.py:90-101 | Under any interleaving the count of a backend is the number of calls in progress on it, and the clamp at zero never takes effect |
| Sharing.ConcurrencyWithinPeak | gateway/app/client.py:168-172 | A call's concurrency is at least one and at most the highest count while it ran |
| Sharing.ConcurrencyExact | gateway/app/client.py:168-172 | It is exactly the number of calls sharing the backend when no other call enters or leaves meanwhile |
| Charges.SessionCalls | gateway/app/client.py:146-173 | In a session where all enter before any leaves, each call enters and leaves where its charge looks |
| Charges.BillBounds | gateway/app/client.py:172-173 | For N equal calls and any leaving order the bill lies between 2N/(N+1) and the N-th harmonic number of full charges |
| Charges.EntryOrderMeetsLowerBound | gateway/app/client.py:172-173 | Leaving in entry order meets the lower bound |
| Charges.LastInFirstOutMeetsUpperBound | gateway/app/client.py:172-173 | Leaving in reverse order meets the upper bound |
| Charges.PaidOnceButNotEachInFull | gateway/app/client.py:78-84 | Together the calls pay for the replica at least once, and less than each paying for it alone when there are several |
| GatewayRuns.LookupHasSource | gateway/app/gateway.py:51-54 | A lookup's answer was stored by a call that had finished before it |
| GatewayRuns.RunIsHonest | gateway/app/gateway.py:45-68 | In every interleaving every cached entry has the finished call that stored it, every request past the router has a tenant and an eligible backend, and every cached answer has a source |
| GatewayRuns.CachedTextHasEarlierSource | gateway/app/gateway.py:51-60 | When a lookup finds a text, a call already finished had got it from its backend for the same tenant, classification, model, temperature, token limit and numerals |
| GatewayRuns.EveryTextWasAllowed | gateway/app/gateway.py:45-68 | Every text, cached or fresh, was made by the model it was routed to on an allowed backend: for a RESTRICTED request one with ceiling RESTRICTED, for an INTERNAL one none with ceiling PUBLIC |
| GatewayAccounts.LedgerListsAnsweredCalls | gateway/app/gateway.py:54-68 | In every interleaving and for any set of tenants, one cached record for each call served from the cache, one other for each call a backend answered, none for refused, failing or unfinished ones |
| GatewayAccounts.RecordLogged | gateway/app/gateway.py:55-67 | A record that goes into the ledger is its call's own: for a cached answer backend, model and tenant with nothing used, for a backend's answer the record made when it returned, with the tenant |
| GatewayAccounts.BooksAgree | gateway/app/gateway.py:54-68 | At every moment hits, misses and puts differ from the ledger by exactly the calls on their way or failed |
| GatewayAccounts.BooksBalance | gateway/app/gateway.py:54-68 | With nothing on its way: cached records are the hits, misses are the other records and the failed calls, puts are the other records |
| GatewayAccounts.EveryLookupRecordedIff | docs/guides/04-one-request-through-the-gateway-from-zero.md:158-159 | Once nothing is on its way, the ledger has a record for every lookup exactly when no call failed |
| GatewayAccounts.OnlyFreshCallsCost | gateway/app/gateway.py:56-58 | Answers from the cache add nothing to the ledger's cost, tokens or time |
| GatewaySharing.CountsAreCallsInProgress | gateway/app/client.py:146-163 | In every run of the gateway a backend's count is the number of its calls between enter and leave, failing ones included |
| GatewaySharing.ChargedForItsShare | gateway/app/client.py:164-173 | In every run each answered call is recorded as its own and charged the hourly rate for its milliseconds divided by the mean of the counts it entered and left with, which is between one and the peak while it ran |
| GatewaySharing.SharedSaltIsSharedGroup | gateway/app/gateway.py:62-64 | Two calls in progress send the same salt only within one tenant and classification, or on a hash collision |
| Gateways.HandledIsARun | gateway/app/gateway.py:45-68 | One uninterrupted request is a run of the steps: all that holds of runs holds of it |
| Gateways.Gateway.Handle | gateway/app/gateway.py:45-68 | The whole new state of cache, counts and ledger and what the caller is told; refusals change nothing, failures after the miss add no record |
| GatewaySequences.SequenceIsARun | gateway/app/gateway.py:45-68 | Requests one after another are a run with nothing left on its way |
| GatewaySequences.SequenceBalances | gateway/app/gateway.py:54-68 | After any sequence of requests cached records are the hits and misses are the other records plus the failed calls |
| GatewaySequences.ScopeIgnoresBackend | gateway/app/cache.py:84-102 | A second request in the scope of the first, with a close enough prompt and the same numerals, is served the first one's text, whichever backends the two were routed to |
| GatewayCapabilities.CapableIff | gateway/app/gateway.py:45-68 | On a pool, every text in every run was made on a backend with the capabilities its request asked for, if and only if the cache can answer nothing or the pool is not divided |
| GatewayCapabilities.CapableIffUndivided | gateway/app/gateway.py:45-68 | With a key, room for an entry, the bag-of-words embedder and a threshold of at most one, the pool alone decides |
| GatewayCapabilities.ClashDivides | gateway/app/router.py:90-125 | Any two requests of a classification routed to backends of one model, the second asking for what the first one's backend lacks, show in the pool alone |
| GatewayCapabilities.DividedIsNotCapable | gateway/app/gateway.py:45-68 | On a divided pool two requests, run through the gateway, end with the second served a text made without a capability it asked for |
| GatewayCapabilities.CapabilitiesAreNotChecked | gateway/app/gateway.py:49-53 | A concrete pool and the two requests: the one that needs tools is served the text of the backend without them |

## Left out

- The HTTP call, JSON and server-sent events of `complete`: a call has a given outcome, a reply with text, tokens and times, or a failure.
- Floating-point rounding, in scores, costs and cost keys; `int(est * 1.3)` is the exact product cut towards zero.
- The regular expressions that find tokens and numerals, lower-casing, and the system prompt's SHA-256: the gateway never sends a system prompt, so the scope's digest is empty.
- The keyed hash (RFC 2104) is any function of key and input; a tenant string is its characters, not its UTF-8 bytes.
- Generators passed as the gateway's backends: the pool is a list, and a backend's address is not modelled.
- The default of a request's token estimate (a quarter of its prompt, at least one): requests arrive with their estimate.
- Backend messages, reasons and log lines as text; a rejection or condition carries the facts its text is made of.
- PromQL text, the memory selector's CEL text, the Ollama start script and fixed texts such as images, paths and flags: each is one opaque value, and only which of them a field has is used.
- In `Reconciler` a call fails from some point on, as when the API server goes away; errors that differ by cause are not told apart, and nothing else writes during a pass. Single calls that fail with others in between, crashes and stale reads are steps of `ReplicaOwnership`.
- Field removal inside one list entry and atomic lists of server-side apply: a field is one leaf with one value.
- KEDA's and the autoscaler's arithmetic, the scheduler, the kubelet and vLLM's prefix cache: steps or observations of the environment.
- The memory and replica rules of the CRD that `policyViolation` does not repeat.
- `gateway/app/metrics.py`, `cmd/operator/main.go`, `SetupWithManager`, generated copies and manifests: wiring.
- SemanticCacheIndexes.SemanticCache.Get: operations on the cache are atomic steps; threads inside one operation are not modelled, as the code takes no lock there.
- Gateways.Gateway.Handle: the network wait lets nothing in between; interleaving is in `GatewayRuns`.
- ReplicaOwnership.OperatorNeverResetsCount: requires that no step gives the ownership up, which is exactly when it is lost (`ReplicaOwnership.HeldUnlessGivenUp`).
- Charges.BillBounds: charges of calls with different spans, or that overlap in part, are not bounded; start and end averaging is an approximation there.
