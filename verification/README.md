# A verified model of the MJS controller

The controller of MATLAB Job Scheduler in Kubernetes keeps the number of worker pods where the job
manager wants it. Each worker may need a *parallel pool proxy*, a deployment with its own port and
certificate secret that up to `workersPerPoolProxy` workers share. This project models one controller
iteration (`Controller.Run` driving `K8sResizer`, the spec factory and the template cache) call by
call against an abstract Kubernetes API, and proves what that protocol guarantees while calls fail, pods
die and templates change. It also models the steps before the loop that decide ports, shared
secret and cluster profiles.

Check everything with `dafny verify dfyconfig.toml`.

## How the model works

* `Cluster.Cluster` is the API server. Every call may fail, and then has no effect. Before every call the
  environment may remove pods, set them terminating, or change the template texts; nobody else creates
  workers or touches proxies and their secrets. Ghost histories keep every state and all template
  texts, ghost lists the pods named to `DeletePod` and the pods given to `CreatePod`; a ghost `Tally` counts
  errors met (`faults`), among them those nobody is to blame for (`outages`: calls that did not get through, clashes
  of generated pod names, certificates that could not be made), environment changes to pods (`losses`) and to texts
  (`edits`), mutating calls (`writes`), pods still live when their `DeletePod` returned (`escapes`), failed
  `DeletePod` calls (`refusals`, each an error as well), and deployments still there when their `DeleteDeployment`
  returned (`leaks`). Theorems about failures are stated by comparing tallies.
* `World.SoundState` holds in every state of the history whatever happens; it is part of `Cluster.Valid`,
  which every method keeps. It says of every pod and every deployment that it is exactly what the template behind
  its checksum describes for its worker or proxy, up to the order of added variables and the generated suffix of a
  pod's name. `World.HealthyState` (every live worker has its proxy, IDs are pairwise distinct) holds in every state
  of the history as long as there is no escape. `Cluster.SecretsThere` (every proxy naming a secret has it) survives
  as long as there is no leak and no failed secret update. `Cluster.SecretsFollow` is the converse: no secret outlives
  its proxy unless there is an error other than a failed `DeletePod` call, and secrets that are not named like a proxy
  are never touched.
* Statements about undisturbed iterations are not empty: with usable template texts and a request that reports no
  worker twice, an iteration meets outages only.
* Parsing YAML, SHA-256 and joining paths are functions of a `World` about which nothing is known. Of the
  certificate and profile library (`Setup.Library`) only this is assumed: shared secrets and profiles it has
  written are read back. Generating certificates is an arbitrary choice that may fail; the key it makes fits the
  client certificate it makes (`keyFits`). The order of Go map iteration is an arbitrary choice.
* `World.Conforms` says what is taken from the chart about a template text that parses: two installed texts
  with one checksum parse alike; the proxy ID annotation is left to the controller; a worker template using
  proxies has `workersPerPoolProxy >= 1`; worker and proxy templates carry the chart's one proxy prefix
  (chart/mjs/templates/worker-pod-template.yaml:32-35, chart/mjs/templates/pool-proxy-pod-template.yaml:22-23).
  With a `Layout` the base port and the number of workers per proxy are fixed as well.

| file | contents |
|---|---|
| Decimal, Ceiling, Base32, Annotations | printing and parsing numbers, `math.Ceil` of a `float64` quotient, checksum text, annotation readers |
| Objects, TemplateConf, World, Cluster | Kubernetes objects, template settings, invariants, the API |
| TemplateStore, Specs | template cache, pod and deployment specs |
| Listing, Adding, Resize | the resizer and facts about lists and additions |
| Choosing, Scaling, Controller, Operation | what to add and delete, one iteration, the life of a controller |
| Safety | theorems about reached states |
| Example, Limits, Recovery | where failures defeat the protocol and exactly when, with failing runs on a concrete cluster; what one iteration restores |
| LoadBalancer, Profile, Setup | port check, profiles, shared secret |

## Model

| member | source | states |
|---|---|---|
| Controller.Controller.Run | images/controller/src/internal/controller/controller.go:66-117 | under any failures: proxies, IDs and secrets are kept (see above), the number of current workers approaches the clamped target without passing it, every pod named to `DeletePod` had another checksum than a template text in force during the iteration or has a report in the request with its worker's name, state idle and at least the threshold's seconds, secrets not named like a proxy are left alone, and without a request there is no creation call, no new worker and no new proxy; undisturbed: the final workers are determined (the idle ones reported first are gone, or the lowest free IDs filled), exactly the proxies in use are left, all pods and deployments are what the cached templates describe, no secret is left over, and the result is settled if and only if the first idle reports name as many workers as are in excess, or all idle ones; from a settled state nothing is written while pods and templates stay, whatever errors are met; and if the template texts are usable, the request names no worker twice and neither pods nor texts change, all errors met are outages |
| Controller.Controller.TidyUp | images/controller/src/internal/controller/controller.go:67-76 | listing and tidying: afterwards the result lists exactly the current workers; undisturbed, only they are live and exactly the proxies of current workers whose IDs no outdated worker has are kept; with usable texts all errors met are outages, and the cached templates are then usable |
| Controller.Controller.FollowRequest | images/controller/src/internal/controller/controller.go:78-116 | without a request no call is issued and the state stays as it is; with one, the cluster heads for its target, and a cluster at rest is left alone |
| Controller.Controller.Scale | images/controller/src/internal/controller/controller.go:85-116 | the branch taken after listing: clamp, then delete or add; a cluster at rest is left alone |
| Controller.Controller.ScaleUp | images/controller/src/internal/controller/controller.go:109-116 | adding never overshoots; undisturbed it reaches the target with the lowest free IDs, and proxies are added for new workers only |
| Controller.Controller.ScaleDown | images/controller/src/internal/controller/controller.go:98-108 | deleting never undershoots; undisturbed, exactly the workers named in the first idle reports are gone, so that with distinct reports the target is met or nobody idle is left; only idle workers are deleted; unless a pod is reported twice, all errors met are outages |
| Controller.Controller.GetRequest | images/controller/src/internal/controller/controller.go:78-83 | a missing request is counted as an error; FollowRequest shows that the iteration then ends |
| Operation.CreateController | images/controller/src/cmd/main.go:154-191 | one template store serves spec factory and resizer; with texts that parse only outages are met |
| Operation.Operate | images/controller/src/cmd/main.go:49-60 | over any sequence of job manager answers the invariants hold throughout, and each iteration's `DeletePod` calls are justified by that iteration alone: every pod named was live when it began, and had another checksum than one worker template text in force during it or has a report of long idleness in its own request; over the whole run no secret outlives its proxy unless there is an error other than a failed `DeletePod` call |
| Operation.OperateFromEmpty | images/controller/src/cmd/main.go:35-60 | from the empty cluster: every state reached is sound; without escapes every live worker always has its proxy and its own ID; without leaks and failed secret updates no proxy lacks its secret; and every `DeletePod` call is justified; all secrets are named like proxies, and if nothing but pod deletions failed every one of them is used by its proxy |
| Operation.ServeExternalClients | images/controller/src/internal/setup/loadbalancer.go:12-78 | end to end: behind a load balancer that passed the check, from the empty cluster on, every port a live worker is given and every port a proxy listens on is exposed in every state |
| Operation.RunRepeatedly | images/controller/src/internal/controller/controller.go:66-117 | without errors one iteration or many with the same request come to the same: whether they settle the cluster is told exactly by the current workers and the reports beforehand, reports of different workers always do, and the workers left are those one iteration leaves; and if no call fails, the texts are usable and the reports distinct, the cluster is settled |
| Operation.StaySettled | images/controller/src/internal/controller/controller.go:66-117 | on a settled cluster any number of iterations with the same request issue no mutating call and leave the state as it is, whatever errors they meet, while pods and templates stay |
| Scaling.SettlesExactly | images/controller/src/internal/controller/controller.go:98-116 | an undisturbed iteration leaves the target met or nobody idle if and only if there was no excess, the first `excess` idle reports name that many different workers, or they name all idle ones |
| Scaling.DistinctReportsSettle | images/controller/src/internal/controller/controller.go:120-143 | that condition holds whenever the reports name different workers |
| Safety.WorkersOfOneTemplateDiffer | images/controller/src/internal/resize/resize.go:117-140 | in every reached state live workers of one template differ in ID and in name, whatever failed before |
| Safety.ProxyCapacity | images/controller/src/internal/specs/specs.go:195-198 | in every reached state a proxy p serves at most workersPerPoolProxy live workers of one template, those with IDs in ((p-1)k, pk] |
| Safety.WorkersReachTheirProxies | images/controller/src/internal/specs/specs.go:70-91 | in every healthy history a live worker's proxy has its deployment; host and certificate secret in the worker's spec are that deployment's, and the port is if and only if the two templates have the same base port |
| Safety.WorkerPortsAreOpen | images/controller/src/internal/setup/loadbalancer.go:25-33 | in every reached state every port a live worker is given is one the passed load balancer check found exposed |
| Safety.ProxyPortsAreOpen | images/controller/src/internal/specs/specs.go:302-304 | the same for the ports proxies listen on, and different proxies have different ports |
| Safety.SelectorsApart | images/controller/src/internal/specs/specs.go:188-192 | in every reached state a proxy deployment's selector takes in its own pod and no other deployment's |
| Safety.PodsAreDescribed | images/controller/src/internal/specs/specs.go:42-141 | in every reached state every pod is what the template behind its checksum describes for its worker: host name and alias, arguments, exact volumes, labels, annotations; and every variable not meant for the worker has the template's value |
| Safety.DeploymentsAreDescribed | images/controller/src/internal/specs/specs.go:143-193 | in every reached state every deployment is what the template behind its checksum describes for its proxy: arguments, exact volumes, labels and annotations |
| Limits.StuckWorkersKeepProxies | images/controller/src/internal/resize/resize.go:161-186 | with the proxies that go by what was to be deleted, every live worker still has its proxy if and only if each stuck worker shares its proxy with a worker of another ID that stays |
| Limits.NoFailureStrands | images/controller/src/internal/resize/resize.go:161-186 | the same beforehand: no choice of failing deletions can strand a worker if and only if every worker to delete that uses a proxy shares it with a worker that stays |
| Limits.DeleteWithFailures | images/controller/src/internal/resize/resize.go:151-186 | on the cluster: when all errors are failed `DeletePod` calls, the first condition decides whether the workers left have their proxies, and the second is enough |
| Limits.OutdatedKeepProxies | images/controller/src/internal/resize/resize.go:467-486 | with the proxies of current workers kept, every worker left by a purge has its proxy if and only if the outdated ones left share theirs with current workers |
| Limits.NoFailureStrandsOutdated | images/controller/src/internal/resize/resize.go:467-486 | the same beforehand: no choice of failing deletions can strand a worker if and only if every outdated worker that uses a proxy shares it with a current one |
| Limits.TidyWithFailures | images/controller/src/internal/resize/resize.go:117-140 | on the cluster: when all errors are failed `DeletePod` calls, the workers left have their proxies if and only if they use those of current workers whose IDs no outdated worker has; without such shared IDs, if and only if the outdated ones left share |
| Limits.FailedDeletionStrandsWorker | images/controller/src/internal/resize/resize.go:163-170 | a run of DeleteWorkers on a concrete sound and healthy cluster: if its one worker survives its deletion, it is live and its proxy is gone |
| Limits.SecretGoesFirst | images/controller/src/internal/resize/resize.go:342-359 | a run of DeletePoolProxy on a concrete sound cluster: if the deployment cannot be deleted, the proxy is left without its secret; the exact condition for all inputs is part of DeletePoolProxy |
| Limits.DeploymentGoesFirst | images/controller/src/internal/resize/resize.go:528-545 | a run of UpdateProxy on a concrete sound cluster after secure communication was turned on: if the secret step fails, the proxy lacks its secret; the exact condition for all inputs is part of UpdateProxy |
| Limits.MissingSecretStays | images/controller/src/internal/resize/resize.go:506-513 | a missing secret of an up-to-date proxy is never repaired while the target is met and pods and templates stay, whatever errors the iterations meet |
| Recovery.Recover | images/controller/src/internal/controller/controller.go:66-117 | from any valid state, healthy or not: one undisturbed iteration ends in health if and only if the state is restorable, a condition on the workers, proxies and request there were before and on the template in force |
| Recovery.RecoverRepeatedly | images/controller/src/internal/controller/controller.go:66-117 | the same after any number of undisturbed iterations with this request, if they settle the cluster |
| Recovery.HealthStays | images/controller/src/internal/controller/controller.go:66-117 | for good: a settled cluster stays as healthy or as unhealthy as it is, whatever errors further iterations meet, while pods and templates stay |
| Recovery.HealthyIsRestorable | images/controller/src/internal/resize/resize.go:178-184 | every healthy state is restorable |
| Recovery.SharedIDLosesProxy | images/controller/src/internal/resize/resize.go:178-184 | a state with a current worker that is the only current one on its proxy and shares its ID with an outdated one is not restorable while the target is met |
| Recovery.LoseSharedProxy | images/controller/src/internal/resize/resize.go:178-184 | from any such state: after an undisturbed iteration that meets its target the current worker is live and its proxy is gone |
| Recovery.TwinLosesProxy | images/controller/src/internal/resize/resize.go:178-184 | a run on a concrete sound cluster of two such workers that both had their proxy |
| Choosing.GetWorkersToAdd | images/controller/src/internal/controller/controller.go:167-185 | terminates and returns, in ascending order, the lowest positive IDs not in use, as many as are missing |
| Choosing.LowestFreeIsUnique | images/controller/src/internal/controller/controller.go:178-183 | that description determines the result |
| Choosing.LowestFreeIsBounded | images/controller/src/internal/controller/controller.go:167-185 | no ID chosen exceeds the desired number of workers (pigeonhole) |
| Choosing.GetConnectedAndDeployed | images/controller/src/internal/controller/controller.go:146-164 | looking a name up in the map is searching the deployed workers for it |
| Choosing.GetWorkersToDelete | images/controller/src/internal/controller/controller.go:120-143 | every worker returned is deployed and has a report with its name, state idle and at least the threshold's seconds; if fewer than asked for are returned, every deployed worker found with such a report is; precisely, they are the first `numToDelete` candidates, from the last report to the first, or all of them |
| Choosing.CandidatesAreIdle | images/controller/src/internal/controller/controller.go:129-140 | the candidates are exactly the deployed workers reported idle for long enough |
| Choosing.CandidatesHaveReports | images/controller/src/internal/controller/controller.go:134 | the same of all candidates |
| Choosing.CandidatesDistinct | images/controller/src/internal/controller/controller.go:125-141 | no pod is chosen twice if and only if the reports that count have different names |
| Choosing.DuplicateReportsChooseTwice | images/controller/src/internal/controller/controller.go:125-141 | two reports of one idle worker put its pod on the list twice |
| Choosing.TargetIsNearest | images/controller/src/internal/controller/controller.go:86-93 | with min <= max the target is the point of [min, max] nearest to the desired number |
| Choosing.TargetWithinMax | images/controller/src/internal/controller/controller.go:87-93 | the maximum is respected if and only if it is not below the minimum with the desired number at most the maximum |
| Choosing.TargetCanExceedMax | images/controller/src/internal/controller/controller.go:87-93 | minimum 2, maximum 1, desired 0: the target is 2 |
| Resize.K8sResizer.AddWorkers | images/controller/src/internal/resize/resize.go:60-112 | any map order, any failures: only workers of the cached template with the given IDs appear, at most one per ID, each only with its proxy there; tried are exactly the IDs that need no proxy, whose proxy is there, or at whose proxy the resize stopped; without a stop each missing proxy cost an error, and a stop means that none of that proxy's workers could be created; undisturbed, exactly one worker per ID and proxies for new workers only; every pod that was not there before, terminating or not, is what the cached template describes for one of the IDs, and every new deployment what the cached proxy template describes; with usable templates all errors met are outages |
| Resize.K8sResizer.AddSpecs | images/controller/src/internal/resize/resize.go:73-111 | the same for given specs; if the existing proxies cannot be listed, nothing is tried |
| Resize.K8sResizer.AddSortedWorkers | images/controller/src/internal/resize/resize.go:79-111 | the same for specs already sorted by the new proxy they need: those that need none are all tried |
| Resize.K8sResizer.AddNewProxies | images/controller/src/internal/resize/resize.go:87-110 | the loop over new proxies in arbitrary order: a group is tried if and only if its proxy is there or the loop stopped at it; without a stop each missing proxy cost an error; it stops only at a group tried in vain; if deployments can be made, all errors met are outages |
| Resize.K8sResizer.AddProxyWithWorkers | images/controller/src/internal/resize/resize.go:88-109 | no worker is tried unless its new proxy was created; a proxy without workers is removed and the resize stops |
| Resize.K8sResizer.FillProxy | images/controller/src/internal/resize/resize.go:96-109 | the workers of a new proxy, and its removal if none could be created |
| Resize.K8sResizer.CreatePods | images/controller/src/internal/resize/resize.go:97-104 | one creation call per spec; failures are passed over; the pods there afterwards are those before and those of the specs as given |
| Resize.K8sResizer.GetWorkerPodSpecs | images/controller/src/internal/resize/resize.go:64-71 | one spec per ID from the cached template, none only if the template is unusable |
| Resize.K8sResizer.GetPoolProxiesNeededForWorkers | images/controller/src/internal/resize/resize.go:189-213 | each spec waits for the missing proxy it needs, or for none |
| Resize.K8sResizer.PartitionSpecs | images/controller/src/internal/resize/resize.go:201-213 | the sorting loop: nothing lost, nothing twice, no empty group |
| Adding.PartsReady | images/controller/src/internal/resize/resize.go:188-213 | the sorted groups have disjoint IDs that together are all IDs, and workers outside the groups have their proxies |
| Resize.K8sResizer.GetAndUpdateWorkers | images/controller/src/internal/resize/resize.go:117-140 | afterwards only current workers are live (without escapes), current workers are untouched, and if nothing but pod deletions failed exactly the proxies of current workers whose IDs no outdated worker has remain, all up to date; no worker and no proxy is created; nothing is written if all was in order, whatever errors are met; if nothing but pod deletions failed every deployment is what the cached template describes; a secret its proxy no longer uses is gone; with usable texts all errors met are outages |
| Resize.K8sResizer.RefreshAndUpdate | images/controller/src/internal/resize/resize.go:123-139 | refreshing the templates, then purging and updating; what decides is a text in force meanwhile; nothing is written if all was in order |
| Resize.K8sResizer.UsableNow | images/controller/src/internal/templatestore/templatestore.go:75-83 | a cache up to date with usable texts can be used |
| Resize.K8sResizer.TidyIsFromCache | images/controller/src/internal/resize/resize.go:117-140 | in a tidy cluster all live pods and all deployments are what the cached templates describe |
| Resize.K8sResizer.UpdateWorkers | images/controller/src/internal/resize/resize.go:127-139 | purging, updating proxies and returning the deployed current workers; if nothing but pod deletions failed the proxies left are exactly determined; on success each proxy left untidy cost an error, so all were dealt with |
| Resize.K8sResizer.TidyFor | images/controller/src/internal/resize/resize.go:132-139 | tidying the proxies of the current workers, then returning those workers as deployed; on success each proxy left untidy cost an error |
| Resize.K8sResizer.GetWorkers | images/controller/src/internal/resize/resize.go:142-148 | exactly the live workers, each once |
| Resize.K8sResizer.GetWorkersFromPods | images/controller/src/internal/resize/resize.go:362-408 | skips terminating and unreadable pods and nothing else |
| Objects.WorkerIsRead | images/controller/src/internal/resize/resize.go:380-408 | a pod reads as a worker if and only if ID, checksum and name are there and the ID is a number; an unreadable proxy number counts as none |
| Resize.K8sResizer.DeleteWorkers | images/controller/src/internal/resize/resize.go:151-159 | each listed pod is named to `DeletePod` once per entry, other pods stay, and if nothing but pod deletions failed exactly the proxies of listed workers with other IDs remain; a proxy that goes takes its secret with it, and the secrets of all proxies to keep and of others are as they were; if the workers are live and named once, all errors met are outages |
| Resize.K8sResizer.DeleteListedWorkers | images/controller/src/internal/resize/resize.go:161-186 | if nothing but pod deletions failed, exactly the proxies needed by workers of other IDs remain; in any case at least those remain; and no live worker loses its proxy (without escapes); a proxy that goes takes its secret with it, and the secrets of all proxies to keep and of others are as they were; on success each unneeded proxy left cost an error |
| Resize.K8sResizer.DeletePods | images/controller/src/internal/resize/resize.go:163-170 | every pod is tried, and its ID is counted as deleted whether or not that worked |
| Resize.K8sResizer.KeepOthers | images/controller/src/internal/resize/resize.go:178-183 | the workers whose IDs were not counted as deleted |
| Resize.K8sResizer.PurgeOutdatedWorkers | images/controller/src/internal/resize/resize.go:467-486 | only workers of another template than the cached one are deleted, and all of them are; the kept list is exactly the current workers; if nothing but pod deletions failed, a purge leaves exactly the proxies of workers whose IDs no worker to delete has; on success each unneeded proxy left cost an error |
| Resize.K8sResizer.SplitWorkers | images/controller/src/internal/resize/resize.go:468-477 | the split by checksum |
| Resize.K8sResizer.UpdateOutdatedProxies | images/controller/src/internal/resize/resize.go:490-516 | without errors exactly the needed proxies remain, all made from the cached template; if that was so before, nothing is written; on success each proxy left untidy cost an error, so all were tried |
| Resize.K8sResizer.TidyProxies | images/controller/src/internal/resize/resize.go:497-515 | deleting the proxies nobody needs, then renewing the others |
| Resize.K8sResizer.UpdateProxies | images/controller/src/internal/resize/resize.go:505-514 | outdated proxies are renewed, and each still outdated cost an error, so all were tried; proxies listed as up to date are left as they are; failures are passed over; with secure communication no secret changes that is there |
| Resize.K8sResizer.UpdateProxy | images/controller/src/internal/resize/resize.go:518-546 | the proxy is made anew from the cached template and has a secret exactly as that template asks; if the secret step fails, the new deployment stays, no secret changes, and the secrets are complete if and only if the template asks for none or one was left; its deployment is what the cached template describes, no other deployment or secret changes, and an existing secret is kept; with a usable template all errors met are outages |
| Resize.K8sResizer.RenewProxy | images/controller/src/internal/resize/resize.go:524-545 | writing the new deployment, then seeing to the secret; with the same exact effect of a failed secret step; the deployment written is the spec as given, and no other changes |
| Resize.K8sResizer.AdjustProxySecret | images/controller/src/internal/resize/resize.go:533-544 | secure mode turned on creates a missing secret, turned off removes it; a failure changes no secret; an existing secret is kept |
| Resize.K8sResizer.DeleteUnusedProxies | images/controller/src/internal/resize/resize.go:549-575 | returns the needed proxies; needed proxies stay, the others go unless a call fails; those that go take their secrets with them, and all other secrets are as they were |
| Resize.K8sResizer.SplitProxies | images/controller/src/internal/resize/resize.go:551-565 | the split by need |
| Resize.K8sResizer.DeleteProxies | images/controller/src/internal/resize/resize.go:567-573 | needed proxies stay, and each unneeded one that is still there cost an error, so all were tried; failures are passed over; a proxy that goes takes its secret with it, and the secrets of proxies to keep and of others are as they were |
| Resize.K8sResizer.DeletePoolProxy | images/controller/src/internal/resize/resize.go:342-359 | secret and deployment are gone on success; if the deployment stays, its own secret is gone, and the secrets are complete if and only if it had none |
| Resize.K8sResizer.DeleteOwnSecret | images/controller/src/internal/resize/resize.go:345-353 | removes the secret of a proxy that has one and leaves the others theirs |
| Resize.K8sResizer.AddPoolProxy | images/controller/src/internal/resize/resize.go:247-272 | on success the proxy is there, made from the cached template, and never without the secret it names; on failure no proxy is added; its deployment is what the cached template describes, no other changes, and its secret holds a certificate; with a usable template all errors met are outages |
| Resize.K8sResizer.MakeProxy | images/controller/src/internal/resize/resize.go:257-271 | secret first, then the deployment of this spec; the deployment is the spec as given, the secret is new, and no call fails for another reason than an outage |
| Resize.K8sResizer.SecureNewProxy | images/controller/src/internal/resize/resize.go:257-264 | a needed secret is in place before the deployment, and no other proxy's secret is disturbed; a left-over secret is replaced, which takes two writes |
| Resize.K8sResizer.CreateOrOverwriteProxySecret | images/controller/src/internal/resize/resize.go:275-289 | a left-over secret is deleted and a new one created: two writes with one, one write without |
| Resize.K8sResizer.EnsureProxySecretExists | images/controller/src/internal/resize/resize.go:291-300 | an existing secret is kept without a write, a new one holds a certificate; all errors met are outages |
| Resize.K8sResizer.EnsureNoProxySecret | images/controller/src/internal/resize/resize.go:302-312 | the secret is gone; a missing one is no error |
| Resize.K8sResizer.CreateProxySecret | images/controller/src/internal/resize/resize.go:315-339 | the new secret holds the certificate under the configured file name; a taken name is an error |
| Resize.K8sResizer.NewCertificate | images/controller/src/internal/resize/resize.go:316-330 | making a certificate has no effect on the cluster |
| Resize.K8sResizer.GetPoolProxies | images/controller/src/internal/resize/resize.go:238-245 | exactly the existing proxies, each once |
| Resize.K8sResizer.GetProxiesFromDeployments | images/controller/src/internal/resize/resize.go:426-458 | the proxies that can be read, in order; unreadable deployments are skipped |
| Objects.ProxyIsRead | images/controller/src/internal/resize/resize.go:439-458 | a deployment reads as a proxy if and only if ID and checksum are there and the ID is a number |
| Listing.ReadAreListed | images/controller/src/internal/resize/resize.go:426-458 | among deployments as the controller makes them that is each existing proxy once |
| Cluster.Cluster.CreatePod | images/controller/src/internal/k8swrapper/k8swrapper.go:93-99 | the call and its possible outcomes; a taken name is an error; the pod there is the one given |
| Cluster.Cluster.DeletePod | images/controller/src/internal/k8swrapper/k8swrapper.go:107-112 | the pod is gone or terminating on success; a pod still live after a failure is an escape |
| Cluster.Cluster.CreateDeployment | images/controller/src/internal/k8swrapper/k8swrapper.go:67-73 | the call and its possible outcomes; the deployment there is the one given, and the others are as they were |
| Cluster.Cluster.UpdateDeployment | images/controller/src/internal/k8swrapper/k8swrapper.go:79-84 | the call and its possible outcomes; the deployment there is the one given, and the others are as they were |
| Cluster.Cluster.DeleteDeployment | images/controller/src/internal/k8swrapper/k8swrapper.go:86-91 | the call and its possible outcomes; a deployment still there after a failure is a leak |
| Cluster.Cluster.CreateSecret | images/controller/src/internal/k8swrapper/k8swrapper.go:142-156 | the call and its possible outcomes; a taken name is an error |
| Cluster.Cluster.UpdateSecret | images/controller/src/internal/k8swrapper/k8swrapper.go:158-172 | the call and its possible outcomes |
| Cluster.Cluster.DeleteSecret | images/controller/src/internal/k8swrapper/k8swrapper.go:180-185 | the call and its possible outcomes |
| Cluster.Cluster.SecretExists | images/controller/src/internal/k8swrapper/k8swrapper.go:187-196 | a missing secret is an answer, not an error |
| Cluster.Cluster.GetConfigMap | images/controller/src/internal/k8swrapper/k8swrapper.go:198-202 | the current texts |
| Cluster.Cluster.GetPods | images/controller/src/internal/k8swrapper/k8swrapper.go:204-214 | every worker pod once, in any order |
| Cluster.Cluster.GetDeployments | images/controller/src/internal/k8swrapper/k8swrapper.go:216-226 | every proxy deployment once, in any order |
| Cluster.AddPodKeepsSound | images/controller/src/internal/resize/resize.go:97-98 | a new pod keeps the state sound if its ID is free among its template's workers, and healthy if its ID is free and its proxy is there |
| Cluster.DropDeploymentKeepsSound | images/controller/src/internal/resize/resize.go:358 | deleting a deployment removes exactly that proxy, and keeps the state healthy if no live worker uses it |
| Cluster.PutDeploymentKeepsSound | images/controller/src/internal/resize/resize.go:528 | writing a deployment changes exactly that proxy |
| Cluster.SecretsFollowTrans | images/controller/src/internal/resize/resize.go:341-359 | secrets that follow their proxies over two stretches do so over both together |
| TemplateStore.Store.New | images/controller/src/internal/templatestore/templatestore.go:41-72 | the first cache matches the texts it was read from |
| TemplateStore.Store.NewTemplate | images/controller/src/internal/templatestore/templatestore.go:43-50 | spec and checksum of a new template come from one text |
| TemplateStore.Store.Refresh | images/controller/src/internal/templatestore/templatestore.go:75-83 | success means up to date with the current texts; failure leaves matching pairs; an up-to-date cache does not change; with texts that parse all errors met are outages |
| TemplateStore.Store.RefreshTemplate | images/controller/src/internal/templatestore/templatestore.go:93-108 | spec and checksum always come from one text; a failed refresh changes neither |
| TemplateStore.GetLatestPodTemplate | images/controller/src/internal/templatestore/templatestore.go:131-144 | the current text and its checksum |
| TemplateStore.CacheIsFreshParse | images/controller/src/internal/templatestore/templatestore.go:93-108 | with a collision-free digest an up-to-date cache equals a fresh parse of the current text |
| TemplateStore.CacheIsCurrent | images/controller/src/internal/templatestore/templatestore.go:93-108 | a cached template with the current text's checksum is that text parsed, as texts of one checksum parse alike |
| Specs.SpecFactory.GetWorkerPodSpec | images/controller/src/internal/specs/specs.go:42-141 | succeeds if and only if the settings can be read; the pod reads back as the worker the cached template describes and is that template with this worker's host name and alias, variables, certificate volume if and only if communication is secure, labels and annotations, and nothing else |
| Specs.SpecFactory.CompleteWorkerSpec | images/controller/src/internal/specs/specs.go:58-93 | host name and alias, worker name, log base, MPI variable, proxy connection and, with secure communication only, the certificate volume are added behind what the template has; arguments stay and other variables keep their values |
| Specs.SpecFactory.WorkerVars | images/controller/src/internal/specs/specs.go:61-75 | exactly the worker's own variables with their values, those about a proxy only if it uses one |
| Specs.SpecFactory.WorkerEnv | images/controller/src/internal/specs/specs.go:61-93 | every variable takes effect whatever the template sets, and no other variable is added |
| World.OthersKeepValues | images/controller/src/internal/specs/specs.go:93-105 | variables other than those added keep the values the template gives them |
| Specs.SpecFactory.GetPoolProxyDeploymentSpec | images/controller/src/internal/specs/specs.go:144-193 | succeeds if and only if pool proxies are on and the settings can be read; the deployment reads back as the proxy of its ID and is the cached template with its own port and log file behind the arguments, its own certificate volume of the configured name if and only if communication is secure, and labels and selector with its ID |
| Specs.LastArgs | images/controller/src/internal/specs/specs.go:157-162 | both flags take effect whatever the template's arguments are |
| Specs.SpecFactory.GetWorkerConfFromAnnotations | images/controller/src/internal/specs/specs.go:221-268 | succeeds exactly if all settings needed are there and readable, in any reading order |
| Specs.SpecFactory.GetPoolProxyConfFromAnnotations | images/controller/src/internal/specs/specs.go:271-296 | the same for proxy templates |
| Specs.AddEnv | images/controller/src/internal/specs/specs.go:93 | in any order of addition every added variable takes effect and no other changes; nothing else is added |
| Specs.WorkerReadsBack | images/controller/src/internal/resize/resize.go:380-408 | ID, name, checksum and proxy written into annotations are recovered |
| Specs.ProxyReadsBack | images/controller/src/internal/resize/resize.go:439-458 | ID, checksum and secret of a proxy are recovered |
| Specs.BuiltPodIsOK | images/controller/src/internal/specs/specs.go:119-140 | a pod so written is one the sound states admit |
| Specs.BuiltDeploymentIsOK | images/controller/src/internal/specs/specs.go:178-192 | the same for deployments |
| Annotations.SetFromAnnotations | images/controller/src/internal/annotations/annotations.go:12-43 | in any order: succeeds exactly if every key can be read, with the values read |
| Decimal.RoundTrip | images/controller/src/internal/annotations/annotations.go:69-79 | parsing a printed 64-bit integer gives it back |
| Decimal.ParsesPrinted | images/controller/src/internal/annotations/annotations.go:69-79 | what is printed is parsed again, with a plus sign as well, exactly if it fits in 64 bits |
| Decimal.FormatIsInjective | images/controller/src/internal/specs/specs.go:74 | different numbers print differently |
| Decimal.NumberedNamesDistinct | images/controller/src/internal/specs/specs.go:298-300 | numbered names with one prefix differ exactly if the numbers do |
| Ceiling.FloatCeilIsExact | images/controller/src/internal/specs/specs.go:195-198 | for 0 <= w < 2^53 and 1 <= k <= 2^53, rounding the quotient to binary64 and taking the ceiling is integer ceiling division, however ties are rounded (sections 4.3.1 and 5.4.1 of IEEE 754-2019) |
| Ceiling.CeilDivUnique | images/controller/src/internal/specs/specs.go:195-198 | exactly the IDs in ((p-1)k, pk] belong to proxy p |
| Base32.DecodeInvertsEncode | images/controller/src/internal/templatestore/templatestore.go:147-149 | lower-cased unpadded base32 (section 6 of RFC 4648) of n bytes decodes back to them |
| Base32.ChecksumIsInjective | images/controller/src/internal/templatestore/templatestore.go:147-156 | the 63-character trim never applies to 32-byte digests, and different digests give different text, of lower-case letters and the digits 2 to 7 |
| LoadBalancer.CheckLoadBalancer | images/controller/src/internal/setup/loadbalancer.go:12-78 | passes if and only if clients are internal, or the service exists, maps each port to itself and exposes all required ports; otherwise says what is wrong; passing with clients outside means that the parallel server proxy's port or, with pool proxies, lookup port, job manager port and every pool proxy port are exposed |
| LoadBalancer.ListRequiredPorts | images/controller/src/internal/setup/loadbalancer.go:25-36 | the loops that build the list |
| LoadBalancer.CountIsCeiling | images/controller/src/internal/setup/loadbalancer.go:29-32 | the loop runs as often as the quotient says, rounded up, for every sign of its parts, and as the platform says without a quotient |
| LoadBalancer.CheckPorts | images/controller/src/internal/setup/loadbalancer.go:51-77 | a differing target port is found first; missing ports are reported completely and in order |
| LoadBalancer.PoolProxyPortsAreProxyPorts | images/controller/src/internal/setup/loadbalancer.go:29-32 | the pool proxy ports listed are exactly the ports of proxies 1 to ceil(maxWorkers / workersPerPoolProxy) |
| LoadBalancer.RequiredExactly | images/controller/src/internal/setup/loadbalancer.go:25-36 | which ports are required, port by port |
| LoadBalancer.PoolProxyPortsRequired | images/controller/src/internal/setup/loadbalancer.go:34-36 | with pool proxies on, all their ports are required if and only if the parallel server proxy is off, or there are no proxies, or the only one shares its port |
| LoadBalancer.ParallelServerProxyHidesPorts | images/controller/src/internal/setup/loadbalancer.go:34-36 | a configuration that passes although a pool proxy port is closed |
| Profile.ConsistentMeansAsIfCreated | images/controller/src/internal/profile/profile.go:46-69 | a profile may stay if and only if it agrees with a fresh one on host, name and certificate, and a needed certificate is not empty |
| Profile.CreatedIsConsistent | images/controller/src/internal/profile/profile.go:39-43 | a fresh profile is consistent if and only if no certificate is needed or the shared secret's is not empty; it carries the shared secret's certificate and the client's own certificate and key, or none of them |
| Profile.SocksAndPlainDiffer | images/controller/src/internal/profile/profile.go:71-80 | a profile for one kind of client passes for the other if and only if the two base ports are equal and the plain host is the one address that reads like the proxied one; never for a host without a question mark |
| Setup.Setup.CreateOrLoadSharedSecret | images/controller/src/internal/setup/sharedsecret.go:12-66 | afterwards the secret held is the one in the cluster; an existing one is never written, an unreadable one is an error; a new one comes with a client certificate issued for it if and only if clients need one; with a readable secret or none all errors met are outages |
| Setup.Setup.CreateSharedSecret | images/controller/src/internal/setup/sharedsecret.go:29-66 | a generated secret is stored with one write and held |
| Setup.Setup.GetExistingSharedSecret | images/controller/src/internal/setup/sharedsecret.go:69-87 | absent, readable and unreadable secrets are told apart |
| Setup.Setup.NewSharedSecret | images/controller/src/internal/setup/sharedsecret.go:29-53 | what is stored can be loaded again; with a client certificate issued for it if and only if clients need one |
| Setup.Setup.EnsureProfileIsUpToDate | images/controller/src/internal/setup/profile.go:66-133 | success leaves a profile that agrees with a fresh one; a consistent one is not written, any other is written once; the shared secret is never missing |
| Setup.Setup.NeedsNewProfile | images/controller/src/internal/setup/profile.go:77-95 | a profile is kept if and only if it is present, readable and consistent |
| Setup.Setup.ReplaceProfile | images/controller/src/internal/setup/profile.go:98-132 | one write leaves a profile that agrees with a fresh one and has a client certificate with its own key |
| Setup.Setup.NewProfile | images/controller/src/internal/setup/profile.go:100-120 | the data written hold a profile that agrees with a fresh one and a client certificate with its own key |
| Setup.Setup.StoreProfile | images/controller/src/internal/setup/profile.go:121-131 | one write: an update of an existing secret, otherwise a creation |
| Setup.Setup.CreateProfile | images/controller/src/internal/setup/profile.go:14-35 | success leaves every needed profile current; where they are consistent, nothing is written; without the shared secret step nothing happens |
| Setup.Setup.GetJobManagerHost | images/controller/src/internal/setup/setup.go:60-73 | the service's own name inside, otherwise the configured host, otherwise the load balancer's address |
| Setup.SetUpCluster | images/controller/src/cmd/main.go:125-152 | the shared secret and profile steps in order, from any stored secrets: success leaves every needed profile current; everything is then in place, so that a later setup writes nothing, if and only if no certificate is needed or the shared secret's is not empty; otherwise profiles are rewritten every time; with a host and a readable shared secret or none all errors met are outages |
| Setup.UpToDateMeans | images/controller/src/internal/profile/profile.go:46-69 | a profile is consistent if and only if it is current and a needed certificate is not empty |
| Setup.CurrentProfilesServe | images/controller/src/internal/setup/profile.go:77-95 | current profiles are in place if and only if a needed certificate is not empty |

## Left out

- Ceiling.FloatCeilIsExact: worker assignment uses integer ceiling division for all IDs; for IDs of 2^53 and more the `float64` computation of the source may differ.
- Controller.Controller.Run: asks that requests and the configured minimum lie within a fixed layout's maximum, if there is one; the source does not compare them.
- Setup.SetUpCluster: two of the setup steps; the load balancer check is modelled apart, and metrics secret, parallel server proxy secret and waiting for the job manager are straight-line secret creation or polling.
- A response lost after the call took effect: an error means no effect here.
- Template texts outside `World.Conforms`, in particular a change of the proxy prefix while proxies exist, `workersPerPoolProxy <= 0`, and two templates with one checksum.
- Templates without labels: the source panics when it writes into them; labels are a map here.
- With pool proxies off the source hands a nil template to the proxy spec builder, which would panic; the model returns an error.
- Aliasing of the deep-copied template: templates are values here, so that the cached template is never modified holds by construction.
- Pod phase (`IsRunning`) is read from the API but never used.
- UUID pod suffixes are arbitrary; a clash with an existing name is an error of `CreatePod`.
- Selection of pods and deployments by label: the maps hold worker pods and proxy deployments only.
- Go integer wrap-around: IDs and targets are shown to stay in range; ports are unbounded integers.
- What Go makes of an infinite quotient (a `WorkersPerPoolProxy` of 0 in the load balancer check) is left to the platform; it is an input.
- Which of several unreadable annotations is reported.
- The resize request's JSON, the script run on the job manager pod, polling for the load balancer's address (it is an input), error texts, logging, timeouts and owner references.
