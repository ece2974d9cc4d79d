/** One iteration of the controller loop: tidy the cluster, choose how many workers there should be,
    then add or delete workers. */
module Controller {
  import opened Wrappers
  import opened Objects
  import opened World
  import opened Cluster
  import opened TemplateStore
  import opened Specs
  import opened Listing
  import opened Adding
  import opened Resize
  import opened Choosing
  import opened Scaling

  /** All numbers are Go integers, and none asks for more workers than a fixed layout has room for. */
  predicate AcceptsFor(world: World, minWorkers: int, request: Option<ResizeRequest>) {
    && IsInt(minWorkers)
    && (request.Some? ==> IsInt(request.value.desiredWorkers) && IsInt(request.value.maxWorkers))
    && (world.layout.Some? ==>
          && minWorkers <= world.layout.value.maxWorkers
          && (request.Some? ==> request.value.maxWorkers <= world.layout.value.maxWorkers))
  }

  /** What was live, what was listed and what is left, and their current workers. */
  lemma WhatIsLeft(before: LiveWorkers, listed: LiveWorkers, live: LiveWorkers, checksum: string)
    requires SubMap(listed, before) && SubMap(live, listed)
    ensures SubMap(OfTemplate(live, checksum), OfTemplate(listed, checksum))
    ensures SubMap(OfTemplate(listed, checksum), before) && SubMap(live, before)
    ensures listed == before && SubMap(OfTemplate(before, checksum), live) ==>
      OfTemplate(live, checksum) == OfTemplate(listed, checksum)
    ensures listed == before && SubMap(OfTemplate(before, checksum), live)
            && SubMap(live, OfTemplate(listed, checksum)) ==>
      live == OfTemplate(live, checksum)
  {
  }

  lemma StillTidy(live: LiveWorkers, now: LiveWorkers, checksum: string, proxies: map<int, VersionedProxy>,
                  proxiesNow: map<int, VersionedProxy>, proxyChecksum: string)
    requires SubMap(now, live) && SubMap(proxiesNow, proxies)
    ensures OfTemplate(live, checksum) == live ==> OfTemplate(now, checksum) == now
    ensures AllMadeFrom(proxies, proxyChecksum) ==> AllMadeFrom(proxiesNow, proxyChecksum)
  {
  }

  lemma SoundAtStart(resizer: K8sResizer)
    requires resizer.Valid()
    ensures SoundState(resizer.client.world, resizer.client.s)
  {
  }

  lemma UsedAreThere(resizer: K8sResizer)
    requires resizer.Valid()
    ensures resizer.client.Healthy() && resizer.Tidy() ==>
      resizer.client.ProxiesNow().Keys == UsedBy(resizer.client.LiveNow())
  {
    hide Cluster.Valid, Cluster.Healthy, Live, Proxies;
    if resizer.client.Healthy() {
      HealthyNow(resizer.client);
    }
  }

  class Controller {
    const idleStopThreshold: int
    const minWorkers: int
    const resizer: K8sResizer
    ghost var runs: nat  // iterations so far

    constructor (idleStopThreshold: int, minWorkers: int, resizer: K8sResizer)
      ensures this.idleStopThreshold == idleStopThreshold && this.minWorkers == minWorkers && this.resizer == resizer
      ensures runs == 0
    {
      this.idleStopThreshold, this.minWorkers, this.resizer, runs := idleStopThreshold, minWorkers, resizer, 0;
    }

    ghost predicate Accepts(request: Option<ResizeRequest>) {
      AcceptsFor(resizer.client.world, minWorkers, request)
    }

    /** The live workers made from the cached worker template. */
    ghost function Current(): LiveWorkers
      reads resizer.client, resizer.store.workerTemplate
    {
      OfTemplate(resizer.client.LiveNow(), resizer.store.workerTemplate.checksum)
    }

    /** Neither errors nor lost pods since the earlier state. */
    twostate predicate Undisturbed()
      reads resizer.client
    {
      resizer.client.n.faults == old(resizer.client.n).faults && resizer.client.n.losses == old(resizer.client.n).losses
    }

    /** Everything is in order, and the target is met or nobody can be spared. */
    ghost predicate Settled(request: ResizeRequest)
      reads resizer, resizer.client, resizer.store.workerTemplate, resizer.store.proxyTemplate
    {
      && resizer.InOrder()
      && AtRest(resizer.client.LiveNow(), Target(request, minWorkers), request.workers, idleStopThreshold)
    }

    /** Create workers at the lowest free IDs; `current` is what `workers` lists. */
    method ScaleUp(desired: int, workers: seq<DeployedWorker>, ghost current: LiveWorkers)
      returns (ghost added: seq<int>)
      requires resizer.Valid() && ListsDeployed(workers, current) && |workers| < desired
      requires IsInt(desired) && IdAllowed(resizer.client.world, desired) && SubMap(Current(), current)
      modifies resizer.client
      ensures resizer.Valid() && resizer.client.Later()
      ensures resizer.client.n.escapes == old(resizer.client.n).escapes
              && resizer.client.deleteCalls == old(resizer.client.deleteCalls)
      ensures old(resizer.AllUpToDate(resizer.client.ProxiesNow())) ==> resizer.AllUpToDate(resizer.client.ProxiesNow())
      ensures resizer.client.n.leaks == old(resizer.client.n).leaks && old(resizer.client.SecretsThere()) ==>
        resizer.client.SecretsThere()
      ensures old(resizer.client.Healthy() && SubMap(resizer.client.LiveNow(), current)) ==> resizer.client.Healthy()
      ensures Undisturbed() && old(resizer.client.ProxiesNow().Keys <= UsedBy(resizer.client.LiveNow())) ==>
        resizer.client.ProxiesNow().Keys <= UsedBy(resizer.client.LiveNow())
      ensures Undisturbed() && old(Current() == resizer.client.LiveNow()) ==> Current() == resizer.client.LiveNow()
      ensures resizer.client.n.losses == old(resizer.client.n).losses && old(Current()) == current ==>
        Approached(|workers|, desired, |Current()|)
      ensures Undisturbed() && old(Current()) == current ==> |Current()| == desired
      ensures Undisturbed() && old(resizer.client.LiveNow()) == current ==>
        FilledUp(current, resizer.client.LiveNow(), desired, added)
      ensures Undisturbed() ==>
        ProxiesFollow(old(resizer.client.ProxiesNow()).Keys, resizer.client.ProxiesNow().Keys,
                      old(resizer.client.LiveNow()),
                      resizer.client.LiveNow())
      ensures resizer.client.TidiesSecrets()
      ensures resizer.Usable() ==> resizer.client.OnlyOutages()
    {
      hide K8sResizer.Valid, Cluster.Valid, Cluster.Healthy, SoundState, HealthyState, Live, Proxies, OfTemplate,
        NoneHasID, Grew, AddedAll, SecretsPresent, UsedBy, AllMadeFrom, SetOf, ListsDeployed, IsLowestFree, IDsIn,
        Attempted, Newcomers, Follows, ProxiesFollow, FilledUp, Approached, SubMap, SecretsFollow, NewMadeFrom,
        K8sResizer.NewPods, K8sResizer.NewDeployments, K8sResizer.Usable;
      var toAdd := GetWorkersToAdd(desired, workers);
      ListedCount(workers, current);
      ReadyToAdd(resizer.client.world, toAdd, current, Current(), desired);
      ReadyToAdd(resizer.client.world, toAdd, current, resizer.client.LiveNow(), desired);
      ghost var fleet := resizer.client.FleetNow();
      var ok, begun, stopped := resizer.AddWorkers(toAdd);
      added := toAdd;
      StillAllMadeFrom(fleet.proxies, resizer.client.ProxiesNow(), resizer.LatestProxyChecksum());
      UpEffect(fleet, resizer.client.FleetNow(), resizer.store.workerTemplate.checksum, current, desired, added);
    }

    /** Delete workers that have been idle for long enough; `current` is what `workers` lists. */
    method ScaleDown(desired: int, connected: seq<ConnectedWorker>, workers: seq<DeployedWorker>,
                     ghost current: LiveWorkers)
      requires resizer.Valid() && ListsDeployed(workers, current) && |workers| > desired
      requires DistinctIDs(current) && DistinctWorkerNames(current)
      modifies resizer.client
      ensures resizer.Valid() && resizer.client.Later()
      ensures resizer.client.TidiesSecrets()
      ensures SubMap(resizer.client.LiveNow(), old(resizer.client.LiveNow()))
      ensures SubMap(resizer.client.ProxiesNow(), old(resizer.client.ProxiesNow()))
      ensures resizer.client.n.leaks == old(resizer.client.n).leaks && old(resizer.client.SecretsThere()) ==>
        resizer.client.SecretsThere()
      ensures old(resizer.client.Healthy() && SubMap(resizer.client.LiveNow(), current)) ==>
        resizer.client.n.escapes == old(resizer.client.n).escapes ==> resizer.client.Healthy()
      ensures Undisturbed() && old(resizer.client.LiveNow()) == current
              && old(resizer.client.ProxiesNow().Keys <= UsedBy(resizer.client.LiveNow())) ==>
        resizer.client.ProxiesNow().Keys <= UsedBy(resizer.client.LiveNow())
      ensures Undisturbed() && old(resizer.client.LiveNow()) == current ==>
        && resizer.client.LiveNow() == Spared(current, connected, idleStopThreshold, |workers| - desired)
        && ProxiesFollow(old(resizer.client.ProxiesNow()).Keys, resizer.client.ProxiesNow().Keys, current,
                         resizer.client.LiveNow())
      ensures resizer.client.n.losses == old(resizer.client.n).losses && old(Current()) == current ==>
        Approached(|workers|, desired, |Current()|)
      ensures Undisturbed() && old(resizer.client.LiveNow()) == current && DistinctNames(connected) ==>
        AtRest(resizer.client.LiveNow(), desired, connected, idleStopThreshold)
      ensures NoneIdle(connected, current, idleStopThreshold) ==> resizer.client.n == old(resizer.client.n)
      ensures old(resizer.client.deleteCalls) <= resizer.client.deleteCalls
      ensures forall p | p in resizer.client.deleteCalls[|old(resizer.client.deleteCalls)|..] ::
        p in current && ReportedIdle(connected, current[p].deployed.name, idleStopThreshold)
      ensures DistinctNames(connected) && resizer.client.n.losses == old(resizer.client.n).losses
              && old(Current()) == current ==>
                resizer.client.OnlyOutages()
    {
      hide K8sResizer.Valid, Cluster.Valid, Cluster.Healthy, SoundState, HealthyState, Live, Proxies, OfTemplate,
        SecretsPresent, UsedBy, ListsDeployed, Candidates, ReportedIdle, IDsAgree, DistinctIDs, DistinctWorkerNames,
        Known, NoneIdle, PodNames, AtRest, Approached, Spared, ProxiesFollow, WithoutIDs, IDsOf, Restrict,
        DistinctNames, SecretsFollow, SecretsWent, DistinctWorkers, AllLive;
      var toDelete := GetWorkersToDelete(|workers| - desired, connected, workers, idleStopThreshold);
      ChosenDiffer(connected, workers, current, idleStopThreshold, |workers| - desired, toDelete,
                   resizer.client.LiveNow(), resizer.store.workerTemplate.checksum);
      Chosen(connected, workers, current, idleStopThreshold, toDelete);
      ghost var live, proxies := resizer.client.LiveNow(), resizer.client.ProxiesNow();
      FewerAgree(toDelete, live, current);
      SameProxiesFollow(proxies.Keys, live);
      SecretsStay(resizer.client.world, resizer.client.Now(), resizer.client.Now());
      if |toDelete| > 0 {
        var ok, listed := resizer.DeleteWorkers(toDelete);
        ProxiesLeft(toDelete, listed, resizer.client.LiveNow(), proxies);
      }
      DownEffect(connected, workers, current, idleStopThreshold, desired, toDelete, live, resizer.client.LiveNow(),
                 resizer.store.workerTemplate.checksum);
    }

    /** Head for the target; `current` is what `workers` lists. */
    method Scale(status: ResizeRequest, workers: seq<DeployedWorker>,
                 ghost current: LiveWorkers) returns (ghost added: seq<int>)
      requires resizer.Valid() && Accepts(Some(status)) && ListsDeployed(workers, current) && SubMap(Current(), current)
      requires DistinctIDs(current) && DistinctWorkerNames(current)
      modifies resizer.client
      ensures resizer.Valid() && resizer.client.Later()
      ensures resizer.client.TidiesSecrets()
      ensures old(resizer.client.Healthy() && SubMap(resizer.client.LiveNow(), current)) ==>
        resizer.client.n.escapes == old(resizer.client.n).escapes ==> resizer.client.Healthy()
      ensures resizer.client.n.leaks == old(resizer.client.n).leaks && old(resizer.client.SecretsThere()) ==>
        resizer.client.SecretsThere()
      ensures resizer.client.n.losses == old(resizer.client.n).losses && old(Current()) == current ==>
        Approached(|current|, Target(status, minWorkers), |Current()|)
      ensures Undisturbed() && old(resizer.Tidy()) && old(resizer.client.LiveNow()) == current ==> resizer.Tidy()
      ensures Undisturbed() && old(resizer.Tidy()) && old(resizer.client.LiveNow()) == current
              && DistinctNames(status.workers) ==>
        AtRest(resizer.client.LiveNow(), Target(status, minWorkers), status.workers, idleStopThreshold)
      ensures AtRest(current, Target(status, minWorkers), status.workers, idleStopThreshold) ==>
        resizer.client.n == old(resizer.client.n)
      ensures old(resizer.client.deleteCalls) <= resizer.client.deleteCalls
      ensures forall p | p in resizer.client.deleteCalls[|old(resizer.client.deleteCalls)|..] ::
        p in current && ReportedIdle(status.workers, current[p].deployed.name, idleStopThreshold)
      ensures Undisturbed() && old(resizer.client.LiveNow()) == current ==>
        && Resized(current, resizer.client.LiveNow(), Target(status, minWorkers), status.workers, idleStopThreshold,
                   added)
        && ProxiesFollow(old(resizer.client.ProxiesNow()).Keys, resizer.client.ProxiesNow().Keys, current,
                         resizer.client.LiveNow())
      ensures resizer.Usable() && DistinctNames(status.workers)
              && resizer.client.n.losses == old(resizer.client.n).losses && old(Current()) == current ==>
                resizer.client.OnlyOutages()
    {
      hide Cluster.ProxiesNow, Cluster.LiveNow, Cluster.SecretsThere, FilledUp, Spared, ProxiesFollow, DistinctNames,
        AtRest, Approached, SubMap, K8sResizer.Valid, Cluster.Valid, Cluster.Healthy, SoundState, HealthyState, Live,
        Proxies, OfTemplate, SecretsPresent, UsedBy, AllMadeFrom, ListsDeployed, ReportedIdle, DistinctIDs,
        DistinctWorkerNames, NoneIdle, Store.IsChecksumOf, Follows, SecretsFollow, K8sResizer.Usable, Tally.AtMost;
      added := [];
      FollowsRefl(resizer.client.Now());
      SecretsStay(resizer.client.world, resizer.client.Now(), resizer.client.Now());
      NothingMissing(current, Target(status, minWorkers), status.workers, idleStopThreshold);
      var numWorkers := |workers|;
      ListedCount(workers, current);
      var desiredWorkers := status.desiredWorkers;
      if desiredWorkers > status.maxWorkers {
        desiredWorkers := status.maxWorkers;
      } else if desiredWorkers < minWorkers {
        desiredWorkers := minWorkers;
      }
      ghost var live, proxies, latest := resizer.client.LiveNow(), resizer.client.ProxiesNow(),
        resizer.store.workerTemplate.checksum;
      if desiredWorkers < numWorkers {
        ScaleDown(desiredWorkers, status.workers, workers, current);
        StillTidy(live, resizer.client.LiveNow(), latest, proxies, resizer.client.ProxiesNow(),
                  resizer.LatestProxyChecksum());
      } else if desiredWorkers > numWorkers {
        added := ScaleUp(desiredWorkers, workers, current);
        NothingMissing(resizer.client.LiveNow(), desiredWorkers, status.workers, idleStopThreshold);
      } else {
        SameProxiesFollow(proxies.Keys, live);
      }
    }

    /** The job manager's answer; having none is an error. */
    method GetRequest(answer: Option<ResizeRequest>) returns (request: Option<ResizeRequest>)
      requires resizer.Valid()
      modifies resizer.client`n
      ensures request == answer && resizer.Valid() && resizer.client.Later()
              && (old(resizer.client.Healthy()) ==> resizer.client.Healthy())
      ensures resizer.client.n == old(resizer.client.n).(faults := resizer.client.n.faults)
      ensures if request.None? then resizer.client.n.faults > old(resizer.client.n).faults
        else resizer.client.n == old(resizer.client.n)
    {
      hide Cluster.Valid, Cluster.Healthy, Follows;
      FollowsRefl(resizer.client.Now());
      request := answer;
      if request.None? {
        resizer.client.Fault();
      }
    }

    /** List the workers and bring the cluster up to date. `current` is what the result lists. */
    method TidyUp() returns (workers: Option<seq<DeployedWorker>>, ghost current: LiveWorkers)
      requires resizer.Valid()
      modifies resizer`secretFailures, resizer.client, resizer.store.workerTemplate, resizer.store.proxyTemplate
      ensures resizer.Valid() && resizer.client.Later() && old(resizer.secretFailures) <= resizer.secretFailures
      ensures resizer.client.TidiesSecrets()
      ensures workers.None? ==> resizer.client.n.faults > old(resizer.client.n).faults
      ensures SubMap(resizer.client.LiveNow(), old(resizer.client.LiveNow()))
              && SubMap(current, old(resizer.client.LiveNow()))
      ensures SubMap(Current(), current) && DistinctIDs(current) && DistinctWorkerNames(current)
      ensures resizer.client.createCalls == old(resizer.client.createCalls)
      ensures resizer.client.ProxiesNow().Keys <= old(resizer.client.ProxiesNow()).Keys
      ensures workers.Some? ==> ListsDeployed(workers.value, current)
      ensures workers.Some? && resizer.client.n.escapes == old(resizer.client.n).escapes ==>
        SubMap(resizer.client.LiveNow(), current)
      ensures resizer.client.n.losses == old(resizer.client.n).losses ==>
        && current == OfTemplate(old(resizer.client.LiveNow()), resizer.store.workerTemplate.checksum)
        && Current() == current
      ensures Undisturbed() ==>
        && resizer.Tidy() && resizer.client.LiveNow() == current
        && resizer.client.ProxiesNow().Keys ==
             KeptProxies(old(resizer.client.LiveNow()), old(resizer.client.ProxiesNow()).Keys,
                         resizer.store.workerTemplate.checksum)
        && (resizer.client.n.edits == old(resizer.client.n).edits ==>
              resizer.InOrder() && resizer.store.UpToDate(resizer.client.texts))
      ensures old(resizer.InOrder()) && resizer.client.n.losses == old(resizer.client.n).losses
              && resizer.client.n.edits == old(resizer.client.n).edits ==>
                && resizer.client.n.writes == old(resizer.client.n).writes && resizer.client.s == old(resizer.client.s)
                && resizer.InOrder() && current == old(resizer.client.LiveNow())
      ensures resizer.client.n.leaks == old(resizer.client.n).leaks
              && resizer.secretFailures == old(resizer.secretFailures)
              && old(resizer.client.SecretsThere()) ==>
                resizer.client.SecretsThere()
      ensures old(resizer.client.Healthy()) ==> resizer.client.n.escapes == old(resizer.client.n).escapes ==>
        resizer.client.Healthy()
      ensures CallsJustified(old(resizer.client.deleteCalls), resizer.client.deleteCalls, old(resizer.client.LiveNow()),
                             resizer.store.workerTemplate.checksum, [], idleStopThreshold)
      ensures workers.Some? || |resizer.client.deleteCalls| > |old(resizer.client.deleteCalls)| ==>
        resizer.store.WasCurrent(resizer.store.workerTemplate.checksum, resizer.client.textHistory,
                                 |old(resizer.client.textHistory)| - 1)
      ensures resizer.TextsUsable(old(resizer.client.texts))
              && resizer.client.n.edits == old(resizer.client.n).edits ==>
        && (workers.Some? ==> resizer.Usable())
        && (resizer.client.n.losses == old(resizer.client.n).losses ==> resizer.client.OnlyOutages())
    {
      hide Store.WasCurrent, Cluster.Valid, Cluster.Healthy, SoundState, HealthyState, Live, Proxies, OfTemplate,
        SecretsPresent, UsedBy, AllMadeFrom, ListsDeployed, DistinctIDs, DistinctWorkerNames, Store.IsChecksumOf,
        CallsJustified, SubMap, K8sResizer.Valid, K8sResizer.AllUpToDate, Store.UpToDate, Follows, Unshared,
        SecretsFollow, K8sResizer.IsDeploymentFromCache, K8sResizer.Usable, K8sResizer.TextsUsable;
      SoundAtStart(resizer);
      ghost var before, start, calls := resizer.client.LiveNow(), resizer.client.s, resizer.client.deleteCalls;
      ghost var listed;
      workers, listed := resizer.GetAndUpdateWorkers();
      ghost var latest := resizer.store.workerTemplate.checksum;
      current := OfTemplate(listed, latest);
      FollowsParts(old(resizer.client.Now()), resizer.client.Now());
      WhatIsLeft(before, listed, resizer.client.LiveNow(), latest);
      UnsharedAreCurrent(listed, latest);
      NamesOfOneTemplate(resizer.client.world, start, listed, latest);
      OutdatedCalls(calls, resizer.client.deleteCalls, before, listed, latest, idleStopThreshold);
    }

    /** Ask how many workers there should be, and head for that number. */
    method FollowRequest(request: Option<ResizeRequest>, workers: seq<DeployedWorker>,
                         ghost current: LiveWorkers) returns (ghost added: seq<int>)
      requires resizer.Valid() && Accepts(request) && ListsDeployed(workers, current) && SubMap(Current(), current)
      requires DistinctIDs(current) && DistinctWorkerNames(current)
      modifies resizer.client
      ensures resizer.Valid() && resizer.client.Later()
              && (request.None? ==> resizer.client.n.faults > old(resizer.client.n).faults)
      ensures resizer.client.TidiesSecrets()
      ensures old(resizer.client.Healthy() && SubMap(resizer.client.LiveNow(), current)) ==>
        resizer.client.n.escapes == old(resizer.client.n).escapes ==> resizer.client.Healthy()
      ensures resizer.client.n.leaks == old(resizer.client.n).leaks && old(resizer.client.SecretsThere()) ==>
        resizer.client.SecretsThere()
      ensures old(resizer.store.UpToDate(resizer.client.texts))
              && resizer.client.n.edits == old(resizer.client.n).edits ==>
        resizer.store.UpToDate(resizer.client.texts)
      ensures request.None? ==>
        && resizer.client.s == old(resizer.client.s) && resizer.client.createCalls == old(resizer.client.createCalls)
        && resizer.client.n == old(resizer.client.n).(faults := resizer.client.n.faults)
      ensures request.Some? && resizer.client.n.losses == old(resizer.client.n).losses && old(Current()) == current ==>
        Approached(|current|, Target(request.value, minWorkers), |Current()|)
      ensures Undisturbed() && old(resizer.InOrder()) && old(resizer.client.LiveNow()) == current
              && resizer.client.n.edits == old(resizer.client.n).edits ==>
        (Settled(request.value) <==>
          Settles(current, Target(request.value, minWorkers), request.value.workers, idleStopThreshold))
      ensures request.Some?
              && AtRest(current, Target(request.value, minWorkers), request.value.workers, idleStopThreshold) ==>
        resizer.client.n == old(resizer.client.n) && resizer.client.s == old(resizer.client.s)
        && (old(resizer.InOrder()) && old(resizer.client.LiveNow()) == current ==> Settled(request.value))
      ensures CallsJustified(old(resizer.client.deleteCalls), resizer.client.deleteCalls, current,
                             resizer.store.workerTemplate.checksum, Reports(request), idleStopThreshold)
      ensures Undisturbed() && old(resizer.Tidy()) && old(resizer.client.LiveNow()) == current ==>
        && resizer.Tidy()
        && Resized(current, resizer.client.LiveNow(), Target(request.value, minWorkers), request.value.workers,
                   idleStopThreshold, added)
        && ProxiesFollow(old(resizer.client.ProxiesNow()).Keys, resizer.client.ProxiesNow().Keys, current,
                         resizer.client.LiveNow())
      ensures resizer.Tidy() && resizer.client.Healthy() ==>
        resizer.client.ProxiesNow().Keys == UsedBy(resizer.client.LiveNow())
      ensures resizer.Tidy() ==> resizer.AllFromCache()
      ensures resizer.Usable() && request.Some? && DistinctNames(request.value.workers)
              && resizer.client.n.losses == old(resizer.client.n).losses && old(Current()) == current ==>
                resizer.client.OnlyOutages()
    {
      hide Cluster.Valid, Cluster.Healthy, SoundState, HealthyState, Live, Proxies, OfTemplate, SecretsPresent, UsedBy,
        AllMadeFrom, ListsDeployed, ReportedIdle, DistinctIDs, DistinctWorkerNames, NoneIdle, AtRest,
        Store.IsChecksumOf, Resized, CallsJustified, SubMap, Settles, Target, Controller.Accepts, K8sResizer.Valid,
        K8sResizer.AllUpToDate, Store.UpToDate, Follows, ProxiesFollow, Approached, K8sResizer.Tidy,
        Cluster.SecretsThere, Cluster.ProxiesNow, Cluster.LiveNow, SecretsFollow, K8sResizer.AllFromCache,
        K8sResizer.Usable, DistinctNames;
      added := [];
      ghost var calls := resizer.client.deleteCalls;
      var status := GetRequest(request);
      ghost var mid := resizer.client.Now();
      SecretsStay(resizer.client.world, old(resizer.client.Now()), mid);
      if status.Some? {
        added := Scale(status.value, workers, current);
      }
      SettlesExactly(current, resizer.client.LiveNow(), if status.Some? then Target(request.value, minWorkers) else 0,
                     Reports(request), idleStopThreshold, added);
      resizer.TidyIsFromCache();
      UsedAreThere(resizer);
      FollowsParts(old(resizer.client.Now()), resizer.client.Now());
      IdleCalls(calls, resizer.client.deleteCalls, current, resizer.store.workerTemplate.checksum, Reports(request),
                idleStopThreshold);
    }

    /** A single iteration. `request` is the job manager's resize request, `None` if it cannot be had;
        the result names the IDs of the workers to create. */
    method Run(request: Option<ResizeRequest>) returns (ghost added: seq<int>)
      requires resizer.Valid() && Accepts(request)
      modifies this`runs, resizer`secretFailures, resizer.client
      modifies resizer.store.workerTemplate, resizer.store.proxyTemplate
      ensures resizer.Valid() && resizer.client.Later() && old(resizer.secretFailures) <= resizer.secretFailures
      ensures runs == old(runs) + 1
      // Workers keep their proxies and their IDs, unless a pod survives its deletion.
      ensures old(resizer.client.Healthy()) ==> resizer.client.n.escapes == old(resizer.client.n).escapes ==>
        resizer.client.Healthy()
      // Proxies keep their secrets.
      ensures resizer.client.n.leaks == old(resizer.client.n).leaks
              && resizer.secretFailures == old(resizer.secretFailures)
              && old(resizer.client.SecretsThere()) ==>
                resizer.client.SecretsThere()
      // Secrets not named like a proxy are left alone. If nothing but pod deletions failed, every secret its proxy no
      // longer uses is gone, and every one that appeared is used by its proxy.
      ensures resizer.client.TidiesSecrets()
      // Undisturbed, exactly the proxies in use are left.
      ensures Undisturbed() && old(resizer.client.Healthy()) ==>
        resizer.client.ProxiesNow().Keys == UsedBy(resizer.client.LiveNow())
      // The number of workers approaches the target and never passes it.
      ensures request.Some? && resizer.client.n.losses == old(resizer.client.n).losses ==>
        Approached(|OfTemplate(old(resizer.client.LiveNow()), resizer.store.workerTemplate.checksum)|,
                   Target(request.value, minWorkers), |Current()|)
      // Undisturbed, the cached templates are those in force.
      ensures Undisturbed() && resizer.client.n.edits == old(resizer.client.n).edits ==>
        resizer.store.UpToDate(resizer.client.texts)
      // Undisturbed, the next iteration has nothing to do exactly if the idle reports name enough workers.
      ensures Undisturbed() && resizer.client.n.edits == old(resizer.client.n).edits && request.Some? ==>
        (Settled(request.value) <==>
          Settles(OfTemplate(old(resizer.client.LiveNow()), resizer.store.workerTemplate.checksum),
                  Target(request.value, minWorkers), request.value.workers, idleStopThreshold))
      ensures request.Some? && old(Settled(request.value)) && resizer.client.n.losses == old(resizer.client.n).losses
              && resizer.client.n.edits == old(resizer.client.n).edits ==>
                resizer.client.n.writes == old(resizer.client.n).writes && Settled(request.value)
      // Every pod to delete was live, and outdated or reported idle for long enough.
      ensures CallsJustified(old(resizer.client.deleteCalls), resizer.client.deleteCalls, old(resizer.client.LiveNow()),
                             resizer.store.workerTemplate.checksum, Reports(request), idleStopThreshold)
      ensures forall p | p in resizer.client.deleteCalls[|old(resizer.client.deleteCalls)|..] ::
        && p in old(resizer.client.LiveNow())
        && (old(resizer.client.LiveNow())[p].checksum != resizer.store.workerTemplate.checksum
            || exists r :: r in Reports(request) && r.name == old(resizer.client.LiveNow())[p].deployed.name
                 && r.state == "idle" && r.secondsIdle >= idleStopThreshold)
      // The checksum that decided what is outdated was in force during this iteration.
      ensures |resizer.client.deleteCalls| > |old(resizer.client.deleteCalls)| ==>
        resizer.store.WasCurrent(resizer.store.workerTemplate.checksum, resizer.client.textHistory,
                                 |old(resizer.client.textHistory)| - 1)
      // Without a request, the iteration ends after tidying: no creation call, nothing new.
      ensures request.None? ==>
        && SubMap(resizer.client.LiveNow(), old(resizer.client.LiveNow()))
        && resizer.client.createCalls == old(resizer.client.createCalls)
        && resizer.client.ProxiesNow().Keys <= old(resizer.client.ProxiesNow()).Keys
      // Undisturbed, the workers are determined: the idle ones reported first are gone, or the lowest free IDs filled.
      ensures Undisturbed() && request.Some? ==>
        Resized(OfTemplate(old(resizer.client.LiveNow()), resizer.store.workerTemplate.checksum),
                resizer.client.LiveNow(),
                Target(request.value, minWorkers), request.value.workers, idleStopThreshold, added)
      // Undisturbed, all pods and deployments are what the cached templates describe, and proxies are kept for the
      // current workers whose IDs no outdated worker has, and added for new workers.
      ensures Undisturbed() ==>
        && resizer.Tidy() && resizer.AllFromCache()
        && ProxiesFollow(KeptProxies(old(resizer.client.LiveNow()), old(resizer.client.ProxiesNow()).Keys,
                                     resizer.store.workerTemplate.checksum),
                         resizer.client.ProxiesNow().Keys,
                         OfTemplate(old(resizer.client.LiveNow()), resizer.store.workerTemplate.checksum),
                         resizer.client.LiveNow())
      // With usable template texts and a request that reports no worker twice, nothing fails but what the environment
      // makes fail.
      ensures resizer.TextsUsable(old(resizer.client.texts)) && request.Some? && DistinctNames(request.value.workers)
              && resizer.client.n.losses == old(resizer.client.n).losses
              && resizer.client.n.edits == old(resizer.client.n).edits ==>
                resizer.client.OnlyOutages()
    {
      hide Store.WasCurrent, Cluster.Valid, Cluster.Healthy, SoundState, HealthyState, Live, Proxies, OfTemplate,
        SecretsPresent, UsedBy, AllMadeFrom, ListsDeployed, ReportedIdle, DistinctIDs, DistinctWorkerNames, NoneIdle,
        AtRest, Store.IsChecksumOf, Resized, CallsJustified, SubMap, Settles, Target, Controller.Accepts,
        K8sResizer.Valid, K8sResizer.AllUpToDate, Store.UpToDate, Follows, KeptProxies, ProxiesFollow, Approached,
        K8sResizer.Tidy, Cluster.SecretsThere, Cluster.ProxiesNow, Cluster.LiveNow, SecretsFollow,
        K8sResizer.AllFromCache, K8sResizer.Usable, K8sResizer.TextsUsable, DistinctNames, Tally.AtMost;
      added, runs := [], runs + 1;
      ghost var before := resizer.client.LiveNow();
      var workersInK8s, current := TidyUp();
      ApproachedAtRest(|current|, if request.Some? then Target(request.value, minWorkers) else 0);
      ghost var latest := resizer.store.workerTemplate.checksum;
      ghost var calls, mid := resizer.client.deleteCalls, resizer.client.Now();
      if workersInK8s.Some? {
        added := FollowRequest(request, workersInK8s.value, current);
        FollowsTrans(old(resizer.client.Now()), mid, resizer.client.Now());
        SecretsFollowTrans(resizer.client.world, old(resizer.client.Now()), mid, resizer.client.Now());
        resizer.store.WasCurrentLater(latest, mid, resizer.client.Now(), |old(resizer.client.textHistory)| - 1);
      }
      CallsJoin(old(resizer.client.deleteCalls), calls, resizer.client.deleteCalls, before, current, latest,
                Reports(request), idleStopThreshold);
      ReasonsToDelete(old(resizer.client.deleteCalls), resizer.client.deleteCalls, before, latest, Reports(request),
                      idleStopThreshold);
    }
  }
}
