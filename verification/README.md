# The Horizon reconciler, modelled and proved

This project models the Horizon operator: the reconciler that turns a `Horizon` resource into a
Deployment, the watches and indexes that wake it, the pod builder and the admission webhook. It proves
what the reconciler promises over single passes and over whole runs. Check it with
`dafny verify dfyconfig.toml`.

## How the model is built

* `Passes` states one pass as a function of the stored resource, the cluster, the library functions
  (`Lib`) and everything that the pass does not control (`Oracle`: failing calls, waiting writes, the
  clock, the random key, what `Init` leaves of unlisted conditions). A pass is a chain of stages that
  hand on or halt. Where it halts determines the nine stage conditions.
* `Controller` runs the same pass the way the program does, with an instance whose fields and
  conditions are assigned one by one, a cluster that is written through, loops and early returns. Each
  method is proved to compute the function of its stage, up to the whole of `Reconcile`.
* `Checklist` describes a pass a second time, without stages: twenty items in order, what stops the pass at
  each and what it leaves, read off fields and literal names. `Conformance` proves that every pass follows
  this list; `Outcomes` proves what that means for pods, objects, templates and conditions.
* `Reading` and `Facts` restate the stages by what they read, write and need. `Safety` proves what every
  pass keeps.
* `Runs` is the system: users and other controllers change the cluster, watches (`Watches`) fill the
  queue, and the reconciler takes resources from it in any order and with any calls failing. `History`,
  `TopologyProtocol` and `Wakeups` prove statements over all its runs.
* `Steadiness`, `Quiet` and `Convergence` show when passes stop changing anything and how many passes that
  takes; `Confluence` what they end with and what that depends on; `Changes` what the input hash tells.
* `Indexes` holds the cache, its incremental field indexes and the map functions as methods;
  `PodBuilder` the nested loops that build the pod; `PodFacts` what every pod satisfies; `Webhook` the
  admission; `Examples` concrete clusters and runs.

## Promises that hold only under a condition

Each of these is false as it stands. The project gives the exact condition and a concrete cluster or run
that fails.

* **No lost wakeup** (`Wakeups.AttendedNextIff`, `Wakeups.FirstMissIsLost`). A step loses a wakeup exactly
  if it leaves a resource idle and either took the Horizon secret or the verified network of its pods from
  a complete resource, or was a pass that came to its end without knowing its attachments: `ensureNAD`
  reports an unreadable one without an error. `Examples.SwallowedWakeup`, `Examples.MissedLoss`.
* **Quiet fixpoint of a Ready resource** (`Quiet.ReadyIsQuietIff`). The pass that made it Ready must have
  found its secret valid (or have created the one that the specification names as the OpenStack secret),
  rendered from the endpoint that it stored, and read its attachments as they are; and `Init` must keep
  the conditions that it does not list. `Examples.RestlessReady`, `Examples.UnreadReady`.
* **End of the self-triggered loop** (`Quiet.SettledIsQuietIff`, `Wakeups.ComesBackIff`). Transition times
  are restored before Ready is mirrored, so a settled resource that is not Ready gets a new time of Ready
  in every pass, and that change queues it again: the loop ends exactly if the resource is Ready or the
  clock stands still (`Wakeups.MirrorNeverRests`, `Examples.RestlessWait`).
* **Confluence**, in three ways. A stored endpoint that cannot be parsed stops every pass before the stage
  that would replace it (`Confluence.GoalIsReachedIff`, `Examples.StuckEndpoint`). That takes a library
  that returns an endpoint it cannot parse; where it parses all that it returns, and the empty one of a new
  resource, no run gets there (`Confluence.EndpointsParseOverRuns`). Where the specification takes the
  Horizon secret for its CA bundle or certificate, the first pass may replace it by a key that is neither
  (`Confluence.GoalIsReachedIff`, `Examples.KeyDoesNotServe`). And where the specification names the
  Horizon secret as one of its own inputs, hash and Deployment depend on the random key
  (`Confluence.RunsAreConfluentIff`, `Examples.KeyDecides`).
* **Finalizer conservation** (`TopologyProtocol.KeptNextIff`, `TopologyProtocol.UnrecordedUntilIff`). A
  topology taken in a pass whose patch is lost is held without a record, which no pass releases, exactly
  until a pass decides about the topology while the live resource refers to it. It is forgotten if the
  user moves the reference or deletes the resource before that, for as long as the reference does not
  come back (`TopologyProtocol.ForgottenWhileAway`). `Examples.OrphanedTopology`.
* **Pods mount what their operator writes** (`Outcomes.PodsMountWhatIsWritten`). True of the configuration,
  the key and the account. The scripts are written under the name of the resource and mounted under that of
  the service, so they are the same exactly if the resource is called `horizon`
  (`Outcomes.PodsMountScriptsIff`, `Examples.ForeignScripts`).
* **Change detection** (`Changes.SecretIsMissedIff`). An OpenStack secret named like another variable of
  the hash is not seen. `Examples.MissedPassword`.

## Contracts of libraries that are not part of this model

* `Conditions.Init`: the nine listed types and Ready become Unknown; of other types anything may remain.
* `Mirror`: False before Unknown before True, with a detail that is some function of the other
  conditions. `RestoreLastTransitionTimes`: a condition with unchanged state, reason, severity and message
  keeps its saved time.
* `Set`, `MarkTrue` and `MarkFalse` replace the condition of a type and give it the time of the pass.
* `SetHash` reports a change exactly if the stored value differs. The hash of the variables is a
  function of their map; it is injective only where a lemma says so (`HashesApart`).
* `EnsureSecrets` replaces all that was in the secret that it writes.
* A write with a controller reference fails on an object that another resource controls. Helpers that
  write may also fail, or ask to be tried again.
* The topology library drops the finalizer `openstack.org/horizon-<name>` from the last applied
  topology when the reference moved, and puts it on the referenced one, which must exist. An empty
  namespace of a reference means the resource's own.
* The network library verifies attachments from the annotations of the pods and the ready count. The
  storage library's filter for a mount entry is any function; `PodFacts.MountsHaveVolumes` asks that it
  hands on self-contained entries.
* TLS is enabled when its secret name is set and not empty.

## Model

| member | source | states |
|---|---|---|
| `Controller.HorizonReconciler.Reconcile` | internal/controller/horizon_controller.go:136-229 | fetching, running, restoring, mirroring and patching leave exactly the cluster and the verdict of `Passes.Reconcile`, also when the fetch or the patch fails |
| `Controller.HorizonReconciler.RunPass` | internal/controller/horizon_controller.go:191-228 | the conditions, the finalizer and the early returns of a pass are those of `Passes.Body` |
| `Controller.HorizonReconciler.ConfigureHorizonRbac` | internal/controller/horizon_controller.go:1221-1231 | the three RBAC objects are written in order, and the first that fails or waits ends the pass in its own condition |
| `Controller.HorizonReconciler.ReadOpenStackSecret` | internal/controller/horizon_controller.go:666-704 | no name, a failing read and a missing secret end the pass in three different ways; otherwise the hash is filed under the secret's name |
| `Controller.HorizonReconciler.ReadMemcached` | internal/controller/horizon_controller.go:709-745 | a missing or unready Memcached asks to be looked at again, a failing read is an error |
| `Controller.HorizonReconciler.ValidateCABundle` | internal/controller/horizon_controller.go:752-784 | a missing bundle ends the pass without error and without a retry; an empty hash adds no variable |
| `Controller.HorizonReconciler.ValidateCert` | internal/controller/horizon_controller.go:787-812 | the same for the certificate; only then is the TLS condition True |
| `Controller.HorizonReconciler.GenerateServiceConfigMaps` | internal/controller/horizon_controller.go:1058-1147 | the files are rendered from the stored endpoint and written; anything unusable fails the pass before a file is hashed |
| `Controller.HorizonReconciler.EnsureHorizonSecret` | internal/controller/horizon_controller.go:1174-1215 | a secret that is missing or blank is replaced by one with the new key, and only then does its hash join the variables |
| `Controller.HorizonReconciler.CreateHashOfInputHashes` | internal/controller/horizon_controller.go:1153-1171 | a hash that differs from the stored one is stored and ends the pass; an equal one opens the gate |
| `Controller.HorizonReconciler.GetEnabledServices` | internal/controller/horizon_controller.go:856-867 | one flag for each watched keystone service, and no flag at all when a read fails |
| `Controller.HorizonReconciler.ReconcileInit` | internal/controller/horizon_controller.go:506-623 | the service is written with the ports of its TLS setting, and the endpoint is stored only when it is known |
| `Controller.HorizonReconciler.EnsureNAD` | internal/controller/horizon_controller.go:1235-1282 | a missing or unreadable attachment yields no annotation, a False condition and a requeue, but no error |
| `Controller.HorizonReconciler.AttachNetworks` | internal/controller/horizon_controller.go:886-900 | the caller turns that False condition True and drops the requeue |
| `Controller.HorizonReconciler.EnsureServiceTopology` | internal/controller/horizon_controller.go:919-926 | the previous topology is left before the referenced one is taken; a failure in between keeps what was done |
| `Controller.HorizonReconciler.HandleTopology` | internal/controller/horizon_controller.go:919-948 | the last applied topology and the condition follow the reference only after both calls succeeded |
| `Controller.HorizonReconciler.ApplyDeployment` | internal/controller/horizon_controller.go:955-984 | the built Deployment is written, or nothing is when it cannot be built, written or taken over |
| `Controller.HorizonReconciler.WriteDeploymentObject` | internal/controller/horizon_controller.go:967-993 | the ready count is taken over exactly when the Deployment was observed in its current generation |
| `Controller.HorizonReconciler.VerifyNetworkStatus` | internal/controller/horizon_controller.go:995-1029 | with replicas the attachments are verified against the pods and the status is updated before a mismatch fails the pass |
| `Controller.HorizonReconciler.Finish` | internal/controller/horizon_controller.go:1030-1052 | Deployment is True or False by its readiness, and Ready is True only when every other condition is |
| `Controller.HorizonReconciler.PrepareInputs` | internal/controller/horizon_controller.go:652-850 | the stages up to the gate compose to `Passes.Prepare`, with the condition of the stage that stops |
| `Controller.HorizonReconciler.DeployHorizon` | internal/controller/horizon_controller.go:852-993 | the stages behind the gate compose to `Passes.Deploy` |
| `Controller.HorizonReconciler.ReconcileNormal` | internal/controller/horizon_controller.go:647-1055 | the whole pass computes `Passes.Normal`: same instance, cluster, calls and verdict |
| `Controller.HorizonReconciler.ReconcileDelete` | internal/controller/horizon_controller.go:485-504 | the finalizer goes only after the topology was released |
| `Controller.MarkingAdvances` | internal/controller/horizon_controller.go:191-204 | marking the condition of a stage True turns the conditions of one position of a pass into those of the next |
| `Conformance.PassFollowsChecklist` | internal/controller/horizon_controller.go:136-1055 | a pass over a resource at work does exactly what an independent list of twenty items says: which obstacle stops it, what it returns, every status field, object, call and condition with its time, and Ready |
| `Conformance.NormalFollows` | internal/controller/horizon_controller.go:647-1055 | the chain of stages gets done as many items as have no obstacle, and stops where the first has one |
| `Conformance.EarlyPass` | internal/controller/horizon_controller.go:191-205 | a pass over a new resource adds the finalizer and the conditions, and nothing else |
| `Conformance.DeletingPass` | internal/controller/horizon_controller.go:485-504 | a pass over a resource in deletion takes its finalizer from the last topology and then goes without its own, or fails and keeps both |
| `Conformance.ReconcileStores` | internal/controller/horizon_controller.go:136-189 | what a reconcile leaves of the cluster: nothing new without the resource, else its pass, with the resource stored or gone when no finalizer is left |
| `Conformance.PassedIffDone` | internal/controller/horizon_controller.go:652-972 | a condition is True at a stop exactly if the items that it stands for are done, and the stop is told in the condition of its item |
| `Outcomes.PodsAreAsSpecified` | internal/horizon/deployment.go:111-179 | whatever Deployment a pass writes has the replicas, image, resources, nodes, account and labels of the resource, and is placed by the referenced topology, which exists, or spread |
| `Outcomes.PodsAreTold` | internal/horizon/deployment.go:181-197 | the environment of both containers, variable by variable, with the stored hash and a yes or no for each keystone service |
| `Outcomes.PodsAreServed` | internal/horizon/deployment.go:199-253 | what the containers run, the port and the scheme of the three probes, with and without TLS |
| `Outcomes.ServiceReachesPods` | internal/controller/horizon_controller.go:525-537 | the service of a written Deployment is the own one of the resource, on port 443 or 80, and leads to the port of the containers |
| `Outcomes.PodsAreAttached` | internal/controller/horizon_controller.go:886-911 | the pods carry the annotation of all attachments in order if each could be read and is there, and otherwise none |
| `Outcomes.ConfigIsRendered` | internal/controller/horizon_controller.go:1077-1147 | every pass that reaches the gate leaves the configuration rendered, field by field, from Keystone, memcached, the stored endpoint and TLS, over the settings and the files of the user, which may overwrite them |
| `Outcomes.PodsMountWhatIsWritten` | internal/horizon/volumes.go:24-54 | the pods mount the configuration that the pass rendered and the key that it found or made, a new one of 50 characters, and run under the account that it wrote |
| `Outcomes.PodsMountScriptsIff` | internal/horizon/volumes.go:122-136 | the pods mount the scripts that the pass has written if and only if the resource is called like the service; under another name the pass leaves the mounted scripts as they were |
| `Outcomes.NetworkIsBlamed` | internal/controller/horizon_controller.go:995-1029 | a verification behind the write that fails, or finds the network wrong, makes NetworkAttachments False and leaves Deployment Unknown |
| `Outcomes.BlamedAt` | internal/controller/horizon_controller.go:886-984 | which condition a failure behind the gate makes False, and which are True or undecided then |
| `Reading.InputsMeaning` | internal/controller/horizon_controller.go:652-814 | the input stages pass only if every input is there, and end quietly only for a missing CA bundle or certificate |
| `Reading.ReachingTheGate` | internal/controller/horizon_controller.go:652-846 | a pass that reaches the gate has the RBAC objects, the files and a valid secret in place, and hashes exactly the inputs that it read |
| `Reading.TopologyMeaning` | internal/controller/horizon_controller.go:919-948 | what the topology stage leaves of finalizers, status and calls, also when it fails half way |
| `Reading.DeployMeaning` | internal/controller/horizon_controller.go:856-993 | the instance, the cluster and the calls behind a written Deployment, all read off the world at the gate |
| `Reading.DeployFails` | internal/controller/horizon_controller.go:856-984 | what a failure behind the gate can have changed: objects that are only written, finalizers in one of three ways, endpoint and last topology; never the Deployment |
| `Facts.GateMeaning` | internal/controller/horizon_controller.go:817-850 | a pass gets behind the gate only with the hash of what it read already stored; a quiet stop at the gate stores that hash |
| `Facts.NormalMeaning` | internal/controller/horizon_controller.go:647-1055 | every pass over a live resource halts before the gate unchanged or goes on behind it as described |
| `Safety.EpilogueDecides` | internal/controller/horizon_controller.go:172-189 | at every end of a pass conditions other than Ready keep state and detail and, when unchanged, their saved time; a decided Ready stays; an undecided one is False with any False condition and True only with all True |
| `Safety.StagePrefix` | internal/controller/horizon_controller.go:191-204 | at the end of every pass the stages are True below one index and Unknown above it; only the stage that stopped the pass can be False |
| `Safety.GateIsDurable` | internal/controller/horizon_controller.go:847-850 | a pass that writes a Deployment found the hash of its inputs in the status that it started from, and the pods carry that hash |
| `Safety.MirrorsNoTruth` | internal/controller/horizon_controller.go:178-183 | no pass that stops early becomes Ready through Mirror |
| `Safety.ReadyIsHonest` | internal/controller/horizon_controller.go:995-1052 | Ready=True comes only from a pass to the end over a live resource with its finalizer, for the generation read, with the Deployment written under the input hash, observed in its generation with as many replicas, all ready, as are asked for, its network verified behind the write, and the topology recorded |
| `Safety.SecretIsStable` | internal/controller/horizon_controller.go:1174-1219 | a valid Horizon secret survives every pass, an invalid one is valid once the gate is reached, and no other secret is touched |
| `Safety.DeletionIsSafe` | internal/controller/horizon_controller.go:208-225 | a resource in deletion never gets a finalizer and is never called Ready |
| `Safety.ReleaseComesFirst` | internal/controller/horizon_controller.go:485-504 | the finalizer goes only in deletion, with a patch that succeeds, after the last applied topology was released |
| `Safety.DeletionMakesProgress` | internal/controller/horizon_controller.go:162-225 | with successful calls two passes let a resource in deletion go, initialised or not |
| `Safety.PassFrame` | internal/controller/horizon_controller.go:136-229 | no pass changes a specification, another resource, or any object that is only read |
| `History.HashHasOrigin` | internal/controller/horizon_controller.go:1153-1171 | over every run a stored hash was stored by an earlier pass of the same resource whose patch succeeded |
| `History.WrittenHashIsDurable` | internal/controller/horizon_controller.go:847-972 | over every run, with any patch failing, the hash in a written Deployment is the hash of what was read and an earlier pass had persisted it |
| `History.SecretKeySurvives` | internal/controller/horizon_controller.go:1174-1219 | over every run the key of a valid secret stays the same unless somebody else touches the secret |
| `History.StagedOverRuns` | internal/controller/horizon_controller.go:162-204 | over every run the stored stages are True up to one place and Unknown behind it |
| `TopologyProtocol.BodyHandsOver` | internal/controller/horizon_controller.go:208-228 | every pass moves finalizers in one of four ways, and takes only the reference of a live resource with its finalizer |
| `TopologyProtocol.HandoverHolds` | internal/controller/horizon_controller.go:919-948 | who holds what after a pass: other resources keep theirs, the own resource loses its last topology and gains its reference |
| `TopologyProtocol.AccountedOverRuns` | internal/controller/horizon_controller.go:485-948 | over every run, with lost patches, what a resource holds is its last applied topology or is owed by a lost patch |
| `TopologyProtocol.FinalizersAreConserved` | internal/controller/horizon_controller.go:919-948 | over every run whose patches succeed, a topology held by a resource is its last applied one, and a resource that is gone holds none |
| `TopologyProtocol.LostPatchIsUnrecorded` | internal/controller/horizon_controller.go:172-189 | a pass that took a topology and lost its patch leaves the hold unrecorded unless the stored status already names it |
| `TopologyProtocol.DecisionIff` | internal/controller/horizon_controller.go:919-948 | the next successful pass that decides about the topology records such a hold exactly if the resource is not being deleted and still refers to it, and otherwise forgets it |
| `TopologyProtocol.ForgottenForGood` | internal/controller/horizon_controller.go:490-497 | no pass of any resource releases a forgotten topology, or records it |
| `TopologyProtocol.UnrecordedNextIff` | internal/controller/horizon_controller.go:172-189 | no step lets go of a hold without a record, and it gets one exactly in a pass that decides while the live resource refers to the topology |
| `TopologyProtocol.UnrecordedUntilIff` | internal/controller/horizon_controller.go:172-189 | over every run the hold stays without a record exactly until such a pass |
| `TopologyProtocol.ForgottenWhileAway` | internal/controller/horizon_controller.go:172-189 | and is forgotten for as long as the reference does not come back, to the resource or to one of its name |
| `TopologyProtocol.KeptNextIff` | internal/controller/horizon_controller.go:919-948 | a step of the system forgets nothing exactly if the user neither moves the reference of nor deletes a resource with an unrecorded hold |
| `TopologyProtocol.DisciplinedOverRuns` | internal/controller/horizon_controller.go:919-948 | over every run of such steps, with any patches lost, each hold is recorded or will be, and a resource that is gone holds none |
| `TopologyProtocol.FirstLapseForgets` | internal/controller/horizon_controller.go:172-189 | and the first other step forgets a topology |
| `Steadiness.SteadyIsKept` | internal/controller/horizon_controller.go:647-1055 | a pass over a steady resource changes neither the resource nor the cluster, and stops where expected |
| `Steadiness.FinishedIsComplete` | internal/controller/horizon_controller.go:847-1052 | a pass that runs to its end leaves a complete resource if the next reading finds the variables that it hashed and its endpoint is the one it found |
| `Quiet.SameConditions` | internal/controller/horizon_controller.go:162-205 | a second pass that stops in the same place rebuilds every condition and every time, but gives a Ready that is not True the time of the pass |
| `Quiet.ReadyIsQuiet` | internal/controller/horizon_controller.go:162-205 | behind a Ready pass with hash, endpoint and attachments settled, a calm pass persists an identical resource and cluster exactly if Init keeps the conditions that the pass leaves alone |
| `Quiet.RereadsIff` | internal/controller/horizon_controller.go:1174-1215 | a pass hashes what the next one reads if and only if it found its secret valid, or created the one that is also named as the OpenStack secret and otherwise counts as before |
| `Quiet.ReadyIsQuietIff` | internal/controller/horizon_controller.go:617-1052 | with hashes and texts that differ for different inputs, the self-triggered loop ends behind a Ready pass if and only if that pass found its key, rendered from the endpoint that it stored and read its attachments as they are, and Init keeps the other conditions |
| `Quiet.SettledIsQuietIff` | internal/controller/horizon_controller.go:162-205 | a calm pass over a settled resource persists what it found if and only if the resource is Ready, or the pass runs at the very time of the stored Ready, and Init keeps the other conditions |
| `Quiet.CompleteIsReadyIff` | internal/controller/horizon_controller.go:1036-1052 | a complete resource is called Ready exactly while its Deployment is observed in its generation with as many replicas, all ready, as are asked for, and no leftover condition is not True |
| `Wakeups.CompleteUnlessWoken` | internal/controller/horizon_controller.go:391-417 | the frame: under a change that wakes nobody a complete resource stays complete exactly if its Horizon secret is still valid and the network of its pods still verified |
| `Wakeups.SteadyUnlessWokenIff` | internal/controller/horizon_controller.go:391-417 | so a steady resource stays steady under a change that no watch maps back to it exactly if the change spares those two |
| `Wakeups.UnnoticedIsSteadyIff` | internal/controller/horizon_controller.go:888-911 | a pass that nothing follows leaves a steady resource if and only if, at its end, its attachment reads told the truth |
| `Wakeups.UnsteadyIsNotQuiet` | internal/controller/horizon_controller.go:136-229 | a resource that is not steady does not sit through a calm pass |
| `Wakeups.SettledHasNothingToDo` | internal/controller/horizon_controller.go:162-205 | on a settled resource every calm pass keeps the cluster, the status, the nine conditions and their times; where Init keeps the other conditions, the whole resource, but a Ready that is not True gets the time of the pass |
| `Wakeups.ComesBackIff` | internal/controller/horizon_controller.go:391-417 | a calm pass over a settled resource puts it back on the queue exactly if it is not quiet, and leaves it settled |
| `Wakeups.MirrorNeverRests` | internal/controller/horizon_controller.go:176-184 | over every run of its own calm passes, at ever new times, a settled resource that is not Ready stays so and is queued again by each pass |
| `Wakeups.AttendedNextIff` | internal/controller/horizon_controller.go:391-417 | a step of the system keeps "queued, due for a retry, or settled" exactly if it does not miss the resource |
| `Wakeups.NoWakeupIsLost` | internal/controller/horizon_controller.go:303-417 | over every run, until an event misses it, each resource is queued, due for a retry, or in a state in which another pass changes nothing but the time of a mirrored Ready |
| `Wakeups.FirstMissIsLost` | internal/controller/horizon_controller.go:303-417 | and the first event that misses it leaves it idle and not settled |
| `Examples.SwallowedWakeup` | internal/controller/horizon_controller.go:1254-1268 | an unreadable attachment ends the pass without error, change or wakeup although there is work to do |
| `Examples.MissedLoss` | internal/controller/horizon_controller.go:1185-1189 | the loss of a valid Horizon secret without an owner wakes nobody and leaves the resource idle |
| `Examples.OrphanedTopology` | internal/controller/horizon_controller.go:172-189 | a run in which a taking pass loses its patch, the user deletes, and the resource goes with the topology still held |
| `Examples.RestlessReady` | internal/controller/horizon_controller.go:617-617 | a Ready pass that stores another endpoint than it rendered from, so that the next pass stores another hash |
| `Examples.UnreadReady` | internal/controller/horizon_controller.go:1254-1268 | a Ready pass with valid secret and unchanged endpoint that could not read an attachment, so that the next pass changes the Deployment or the resource |
| `Examples.RestlessWait` | internal/controller/horizon_controller.go:176-184 | a resource that waits for its CA bundle is queued again by each of its passes, though only the time of Ready changes |
| `Examples.StuckEndpoint` | internal/controller/horizon_controller.go:1091-1094 | with a library that returns an override it cannot parse: a pass stores it, the user corrects it, and every further pass stops before the gate |
| `Examples.KeyDecides` | internal/controller/horizon_controller.go:1189-1212 | two runs from one state end with different hashes because the specification names the Horizon secret as the OpenStack secret |
| `Examples.KeyDoesNotServe` | internal/controller/horizon_controller.go:1189-1212 | a pass replaces the Horizon secret that holds the CA bundle, and the goal is out of reach |
| `Examples.MissedPassword` | internal/controller/horizon_controller.go:701-701 | a changed password that changes no variable of the hash |
| `Examples.FivePassesDoNotSuffice` | internal/controller/horizon_controller.go:208-972 | a new resource without a key whose Deployment gets its final hash only in the sixth pass |
| `Examples.ForeignScripts` | internal/horizon/volumes.go:122-136 | a resource called other whose pods mount scripts that neither its pass nor anybody else has written |
| `Convergence.CalmPass` | internal/controller/horizon_controller.go:136-229 | a calm pass takes exactly one step of a closed form on finalizer, secret, hash, endpoint, topology and Deployment |
| `Convergence.PassKeepsEnvironment` | internal/controller/horizon_controller.go:136-229 | no pass, calm or not, changes what its resource reads or may write |
| `Convergence.PassComesNearer` | internal/controller/horizon_controller.go:208-972 | a calm pass strictly decreases the distance, or the distance is 0 and nothing settling changes |
| `Convergence.SixPassesSuffice` | internal/controller/horizon_controller.go:208-972 | from any persisted state six calm passes reach a state that every further calm pass keeps; five need not (Examples.FivePassesDoNotSuffice) |
| `Confluence.PassKeepsUsable` | internal/controller/horizon_controller.go:647-1055 | no pass, calm or not, takes away what its resource needs for a Deployment, unless it replaces the Horizon secret by a key that does not serve as the bundle or certificate the specification takes it for |
| `Confluence.ParsingIsKept` | internal/controller/horizon_controller.go:617-1094 | in any pass, whatever fails, a stored endpoint that cannot be parsed stays, and one that can makes way only for the one the library returns |
| `Confluence.EndpointsParseOverRuns` | internal/controller/horizon_controller.go:607-617 | if the library can parse every endpoint it returns, and the empty one, no run ever stores one that cannot be parsed |
| `Confluence.GoalIsReachedIff` | internal/controller/horizon_controller.go:617-1094 | in a usable environment six calm passes reach the goal if and only if the stored endpoint can be parsed and the Horizon secret is valid or the drawn key serves as what the specification takes the secret for; the goal depends on the starting point only through what the Horizon secret counts as an input |
| `Confluence.RunsAreConfluentIff` | internal/controller/horizon_controller.go:821-972 | settled endpoint and topology do not depend on status, history or random key; hash and Deployment are equal exactly if the keys count the same where the specification names the Horizon secret |
| `Confluence.DrawnKeyStays` | internal/controller/horizon_controller.go:1189-1212 | a run that finds no valid secret ends with the key that its first pass to the gate drew, and with nothing else in the secret |
| `Confluence.RunsThrough` | internal/controller/horizon_controller.go:817-1052 | a calm pass over an open gate with everything in order behind it comes to its end, with the Deployment ready or running |
| `Confluence.GoalBecomesReady` | internal/controller/horizon_controller.go:995-1052 | at the goal, with the network verified, the next calm pass sets Ready exactly if the Deployment is up and no leftover condition is not True |
| `Confluence.SevenPassesSettle` | internal/controller/horizon_controller.go:162-1052 | from any state with an endpoint that can be parsed and a secret or key that serves, seven calm passes leave a settled resource, Ready exactly if its Deployment is up and no leftover condition is not True |
| `Changes.Lookup` | internal/controller/horizon_controller.go:701-1146 | which input a variable of the hash stands for, later stages overwriting earlier ones |
| `Changes.VariablesTellComponents` | internal/controller/horizon_controller.go:781-847 | with distinct names the variables are equal exactly if all component hashes are |
| `Changes.HashTellsInputs` | internal/controller/horizon_controller.go:1161-1171 | two settled states carry the same CONFIG_HASH if and only if secret, CA bundle, certificate and files have the same hashes |
| `Changes.SecretIsMissedIff` | internal/controller/horizon_controller.go:701-807 | a change of the OpenStack secret goes unseen if and only if its name is also that of a later variable |
| `Changes.KeystoneServicesAreFlags` | internal/controller/horizon_controller.go:856-867 | keystone services change two variables of the pod and never the hash |
| `Indexes.Cache.File` | internal/controller/horizon_controller.go:255-301 | a resource is put into, or taken out of, exactly the drawers of its four index functions |
| `Indexes.Cache.Store` | internal/controller/horizon_controller.go:255-301 | after an add or an update every drawer again holds exactly the resources that belong there |
| `Indexes.Cache.Delete` | internal/controller/horizon_controller.go:255-301 | the same after a deletion |
| `Indexes.ScanFindsReferences` | internal/controller/horizon_controller.go:239-244 | a scan over the four fields comes upon exactly the resources that the watches treat as referring to the source |
| `Indexes.FindObjectsForSrc` | internal/controller/horizon_controller.go:420-452 | each resource of the namespace is requested as often as its fields name the source, so exactly those that name it as secret, CA bundle, certificate or topology; after a failing list, as often as the fields before it do |
| `Indexes.MemcachedFn` | internal/controller/horizon_controller.go:303-330 | each resource of the namespace whose memcached instance is the changed one, once, and nothing when the list fails |
| `Indexes.NadFn` | internal/controller/horizon_controller.go:333-359 | each resource of the namespace that lists the changed attachment, once |
| `Indexes.KeystoneServiceFn` | internal/controller/horizon_controller.go:362-389 | every resource of the namespace once for cloudkitty and watcher, and none for another service |
| `Indexes.FindObjectForSrc` | internal/controller/horizon_controller.go:454-483 | every resource of the namespace once |
| `Watches.SecretWakesIff` | internal/controller/horizon_controller.go:391-417 | a secret that appears or changes wakes exactly the resources of its namespace that name it and its owners before and after |
| `Watches.SecretLossWakesIff` | internal/controller/horizon_controller.go:391-417 | a secret that goes wakes exactly those that name it and its owner |
| `Watches.MemcachedWakesIff` | internal/controller/horizon_controller.go:303-330 | a changed Memcached wakes exactly the resources of its namespace that use it |
| `Watches.AttachmentWakesIff` | internal/controller/horizon_controller.go:333-359 | a changed attachment wakes exactly the resources of its namespace that list it |
| `Watches.ServiceWakesIff` | internal/controller/horizon_controller.go:362-389 | a new keystone service wakes its namespace exactly if it is cloudkitty or watcher |
| `Watches.KeystoneWakesIff` | internal/controller/horizon_controller.go:454-483 | a changed Keystone wakes exactly its namespace |
| `Watches.TopologyWakesIff` | internal/controller/horizon_controller.go:411-413 | a topology wakes those that name it when it appears or its content changes, and not when its finalizers do |
| `Watches.OwnedWakesIff` | internal/controller/horizon_controller.go:393-399 | an object that the operator writes wakes exactly its owners before and after |
| `Watches.DeploymentWakesIff` | internal/controller/horizon_controller.go:396-396 | so does a Deployment, also when only its status changes |
| `PodBuilder.ValidateThemeExtraMountPath` | api/v1beta1/horizon_types.go:254-263 | one mount outside the theme directories is enough to refuse |
| `PodBuilder.Propagate` | api/v1beta1/horizon_types.go:236-251 | the loop hands on every entry in order, but a theme, in whatever spelling, with a mount outside the two directories for themes |
| `PodBuilder.GetVolumes` | internal/horizon/volumes.go:24-69 | the nested loops append to the fixed head the volumes of the propagated entries |
| `PodBuilder.GetVolumeMounts` | internal/horizon/volumes.go:72-102 | the same for mounts, over the same entries |
| `PodBuilder.TLSRequiredOptions.FormatTLSOptions` | internal/horizon/deployment.go:229-253 | port, the three probes, volumes and mounts change together, and not at all on an error |
| `PodBuilder.Deployment` | internal/horizon/deployment.go:51-179 | the Deployment, or none when TLS cannot be formatted; replicas, images, resources, nodes and account are those asked for, and the topology places the pods if there is one |
| `PodFacts.EnvironmentTells` | internal/horizon/deployment.go:181-197 | the hash and the two service flags reach the containers one to one, and no other variable depends on anything |
| `PodFacts.PropagationIsLockstep` | api/v1beta1/horizon_types.go:236-251 | volumes and mounts are read off one sequence: the entries that are not ignored, judged by the letters of their type and the paths of their mounts, each propagated |
| `PodFacts.BadThemeLeavesNothing` | api/v1beta1/horizon_types.go:236-263 | leaving out a theme that is ignored changes neither volumes nor mounts |
| `PodFacts.ThemesAreJudged` | api/v1beta1/horizon_types.go:236-263 | capitals in the type make no difference; a theme with a mount elsewhere contributes nothing; one with all mounts in the directories, and every other entry, is handed on |
| `PodFacts.VolumesAre` | internal/horizon/volumes.go:24-69 | every volume of the pod by name and source |
| `PodFacts.MountsAre` | internal/horizon/volumes.go:72-145 | every mount of both containers by name and place |
| `PodFacts.CertificateMounts` | internal/horizon/deployment.go:229-253 | the mounts of bundle and certificate by name, place and file |
| `PodFacts.CertificateForCache` | internal/horizon/deployment.go:101-104 | the certificate for memcached is mounted wherever the library says, and nowhere without one |
| `PodFacts.ExtraMountsDistribute` | internal/horizon/volumes.go:54-68 | volumes and mounts distribute over concatenation of extra mounts |
| `PodFacts.MountsHaveVolumes` | internal/horizon/deployment.go:76-104 | with self-contained entries every mount of both containers names a volume of the pod |
| `PodFacts.TLSIsCoherent` | internal/horizon/deployment.go:229-253 | service, configuration and container agree on the port; flag and probes are those of TLS exactly when it is enabled; the certificate volume and mounts are there then, and otherwise only if the user or memcached brings the name |
| `Webhook.Submission.Default` | api/v1beta1/horizon_webhook.go:58-64 | only an empty image is replaced |
| `Webhook.Submission.ValidateCreate` | api/v1beta1/horizon_webhook.go:72-88 | creation is refused exactly for a topology reference into another namespace |
| `Webhook.Submission.ValidateUpdate` | api/v1beta1/horizon_webhook.go:91-107 | an update is refused exactly then, whatever the old object was |
| `Webhook.ReleaseHitsNamesakes` | internal/controller/horizon_controller.go:490-497 | releasing a topology takes the hold from every resource of the same name and from no other: finalizer names rely on admission |
| `Webhook.TopologyIsWatchedIff` | internal/controller/horizon_controller.go:439-443 | the watch on topologies finds a reference exactly if it is admitted |

## Left out

- Patches are atomic: the model does not separate the patch of the finalizer from the patch of the status.
- Reads and writes are atomic steps of a pass, and a pass is one step of a run: changes that others make in the middle of a pass take effect before or after it.
- Cache staleness: a pass reads the current cluster, not an older copy of it.
- Time: one clock reading per pass, no back-off, and no order among queue entries.
- The text of rendered files, of service annotations and hostnames, and the rules of the Role: rendering is a function of its parameters.
- The parameters for certificate and key file names in the configuration: they are constants that follow the TLS flag.
- One KeystoneAPI per namespace: the lookup by list is modelled as a map from namespaces.
- Labels of objects other than the pod, and the selector of the Deployment, which repeats the pod's labels.
- Security contexts, probe periods and timeouts, and the command of the containers: constants without a decision.
- `reconcileUpdate` and `reconcileUpgrade`: both are empty.
- `GetEndpoint`, `GetHorizon` and `SetupDefaults`: each is settled by one branch.
- Generated deep copies, the manager's start-up and its flags.
- Panics during a pass: the program lets them pass on without a patch.
- Controller.HorizonReconciler.PatchDeferred: no row of its own, since it computes `Passes.Epilogue`; what that means for a caller is `Safety.EpilogueDecides`.
- PodBuilder.GetEnvVars: no row of its own, since it computes `Pods.EnvVars`; what that means for the containers is `PodFacts.EnvironmentTells`.
- Wakeups.SettledHasNothingToDo: conditions that `Init` does not list are left open where `Init` does not keep them.
- Wakeups.NoWakeupIsLost: lists behind the map functions are taken to succeed; what a failing list loses is stated by `Indexes.FindObjectsForSrc` alone.
- Convergence.SixPassesSuffice: the cluster is changed by passes of the one resource only; the status of the Deployment is not part of the state that settles.
- Indexes.FindObjectsForSrc: the order in which a list returns resources is left open, so the result is stated as counts.
- PodFacts.TLSIsCoherent: the Service port and the Listen port are compared as numbers; that httpd listens on the rendered port is outside the model.
