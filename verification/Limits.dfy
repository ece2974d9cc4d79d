/** Where a failure defeats the controller's intent, and exactly when it does. */
module Limits {
  import opened Wrappers
  import opened World
  import opened Cluster
  import opened Objects
  import opened TemplateConf
  import opened Listing
  import opened Adding
  import opened Choosing
  import opened Resize
  import opened Controller
  import opened Operation
  import opened Example

  // Failed pod deletions

  /** A worker whose deletion failed: still live, but counted as deleted. */
  predicate Stuck(after: LiveWorkers, toDelete: seq<DeployedWorker>, n: string) {
    n in after && n in PodNames(toDelete)
  }

  /** The workers that stay whatever happens: none with their IDs is to be deleted. */
  function Others(before: LiveWorkers, toDelete: seq<DeployedWorker>): LiveWorkers {
    WithoutIDs(before, IDsOf(toDelete))
  }

  ghost predicate StuckWorkersShare(before: LiveWorkers, toDelete: seq<DeployedWorker>, after: LiveWorkers) {
    forall n | Stuck(after, toDelete, n) && after[n].usesProxy :: after[n].proxyID in UsedBy(Others(before, toDelete))
  }

  lemma NotChosenStays(before: LiveWorkers, toDelete: seq<DeployedWorker>, n: string)
    requires IDsAgree(toDelete, before) && n in before && n !in PodNames(toDelete)
    ensures n in Others(before, toDelete)
    ensures before[n].usesProxy ==> before[n].proxyID in UsedBy(Others(before, toDelete))
  {
    forall i | 0 <= i < |toDelete|
      ensures toDelete[i].id != before[n].deployed.id
    {
      assert toDelete[i] in toDelete;
      assert PodNames(toDelete)[i] == toDelete[i].podName;
    }
    assert Others(before, toDelete)[n] == before[n];
  }

  /** Deletion goes by what was asked, not by what happened: proxies are kept for the other workers only.
      Afterwards every live worker still has its proxy exactly if each stuck worker shares its proxy with
      one of those. */
  lemma StuckWorkersKeepProxies(before: LiveWorkers, toDelete: seq<DeployedWorker>, after: LiveWorkers,
                                proxies: map<int, VersionedProxy>)
    requires Known(toDelete, before) && IDsAgree(toDelete, before) && Backed(before, proxies) && SubMap(after, before)
    ensures Backed(after, Restrict(proxies, UsedBy(Others(before, toDelete)))) <==>
      StuckWorkersShare(before, toDelete, after)
  {
    hide PodNames, IDsOf, UsedBy, Others;
    var kept := UsedBy(Others(before, toDelete));
    forall n | n in after && !Stuck(after, toDelete, n) && after[n].usesProxy
      ensures after[n].proxyID in kept
    {
      NotChosenStays(before, toDelete, n);
    }
  }

  /** What may be left if no pod dies of itself: the deletions that fail are any of those asked for. */
  predicate MayBeLeft(before: LiveWorkers, toDelete: seq<DeployedWorker>, after: LiveWorkers) {
    SubMap(after, before) && OthersLive(toDelete, before, after)
  }

  /** Every worker to delete that uses a proxy shares it with a worker that stays. */
  predicate AllShare(before: LiveWorkers, toDelete: seq<DeployedWorker>) {
    forall p | p in PodNames(toDelete) && p in before && before[p].usesProxy ::
      before[p].proxyID in UsedBy(Others(before, toDelete))
  }

  /** Beforehand: no choice of failing deletions can strand a worker exactly if all of them share. */
  lemma NoFailureStrands(before: LiveWorkers, toDelete: seq<DeployedWorker>, proxies: map<int, VersionedProxy>)
    requires Known(toDelete, before) && IDsAgree(toDelete, before) && Backed(before, proxies)
    ensures (forall after: LiveWorkers | MayBeLeft(before, toDelete, after) ::
               Backed(after, Restrict(proxies, UsedBy(Others(before, toDelete))))) <==> AllShare(before, toDelete)
  {
    hide PodNames, UsedBy, Others, Known, IDsAgree, Backed;
    forall after: LiveWorkers | MayBeLeft(before, toDelete, after)
      ensures Backed(after, Restrict(proxies, UsedBy(Others(before, toDelete)))) <==>
        StuckWorkersShare(before, toDelete, after)
    {
      StuckWorkersKeepProxies(before, toDelete, after, proxies);
    }
    assert MayBeLeft(before, toDelete, before);
    assert StuckWorkersShare(before, toDelete, before) ==> AllShare(before, toDelete);
  }

  /** On the cluster: if nothing but pod deletions fails, the condition decides whether the workers left
      still have their proxies. */
  method DeleteWithFailures(resizer: K8sResizer, toDelete: seq<DeployedWorker>)
    requires resizer.Valid() && Known(toDelete, resizer.client.LiveNow())
             && IDsAgree(toDelete, resizer.client.LiveNow())
    requires Backed(resizer.client.LiveNow(), resizer.client.ProxiesNow())
    modifies resizer.client
    ensures resizer.Valid()
    ensures resizer.client.OnlyRefused() && resizer.client.n.losses == old(resizer.client.n).losses ==>
      && (Backed(resizer.client.LiveNow(), resizer.client.ProxiesNow()) <==>
            StuckWorkersShare(old(resizer.client.LiveNow()), toDelete, resizer.client.LiveNow()))
      && (AllShare(old(resizer.client.LiveNow()), toDelete) ==>
          Backed(resizer.client.LiveNow(), resizer.client.ProxiesNow()))
  {
    hide K8sResizer.Valid, Cluster.Valid, Cluster.Healthy, Live, Proxies, PodNames, UsedBy, Restrict, IDsAgree, Known,
      Backed;
    ghost var before, proxies := resizer.client.LiveNow(), resizer.client.ProxiesNow();
    var ok, listed := resizer.DeleteWorkers(toDelete);
    StuckWorkersKeepProxies(before, toDelete, resizer.client.LiveNow(), proxies);
  }

  lemma OnlyOneStranded(name: string, w: VersionedWorker, proxies: map<int, VersionedProxy>, live: LiveWorkers)
    requires SubMap(live, map[name := w]) && w.usesProxy
    ensures live == map[] || live == map[name := w]
    ensures Restrict(proxies, UsedBy(WithoutIDs(map[name := w], IDsOf([w.deployed])))) == map[]
    ensures live != map[] ==> !Backed(live, map[])
  {
    assert [w.deployed][0].id in IDsOf([w.deployed]);
    assert WithoutIDs(map[name := w], IDsOf([w.deployed])) == map[];
    if live != map[] {
      var n :| n in live;
      assert live[name] == w;
    }
  }

  lemma OnlyWorkerStranded(live: LiveWorkers)
    requires SubMap(live, map[PodWith(true).name := WorkerWith(true)])
    ensures live == map[] || live == map[PodWith(true).name := WorkerWith(true)]
    ensures Restrict(map[1 := ProxyWith(true)],
                     UsedBy(WithoutIDs(map[PodWith(true).name := WorkerWith(true)],
                                       IDsOf([WorkerWith(true).deployed])))) == map[]
    ensures live != map[] ==> !Backed(live, map[])
  {
    ExampleParts(true);
    hide PodWith, WorkerWith, ProxyWith;
    OnlyOneStranded(PodWith(true).name, WorkerWith(true), map[1 := ProxyWith(true)], live);
  }

  /** The failing input: a cluster with one worker, whose deletion fails. It stays live without its proxy. */
  method FailedDeletionStrandsWorker() returns (resizer: K8sResizer)
    ensures resizer.Valid() && resizer.client.world == ExampleWorld()
    ensures resizer.client.history[0] == Start(true) && SoundState(ExampleWorld(), Start(true))
            && HealthyState(ExampleWorld(), Start(true))
    ensures resizer.client.n.faults == resizer.client.n.refusals && resizer.client.n.losses == 0
            && resizer.client.LiveNow() != map[] ==>
      && resizer.client.LiveNow() == map[PodWith(true).name := WorkerWith(true)]
      && resizer.client.ProxiesNow() == map[]
      && !Backed(resizer.client.LiveNow(), resizer.client.ProxiesNow())
  {
    hide K8sResizer.Valid, Cluster.Valid, Cluster.Healthy, Live, Proxies, SoundState, HealthyState, PodWith, WorkerWith,
      ProxyWith, Start, ExampleWorld, ChecksumWith, ProxyName;
    StartIsSound(true);
    resizer := NewResizer(true);
    ExampleParts(true);
    var ok, listed := resizer.DeleteWorkers([WorkerWith(true).deployed]);
    OnlyWorkerStranded(resizer.client.LiveNow());
  }

  // Failed deletions of outdated workers

  /** Every outdated worker that is left and uses a proxy shares it with a current worker. */
  predicate OutdatedShare(before: LiveWorkers, checksum: string, after: LiveWorkers) {
    forall n | n in after && after[n].checksum != checksum && after[n].usesProxy ::
      after[n].proxyID in UsedBy(OfTemplate(before, checksum))
  }

  /** What the purge may leave if no pod dies of itself: all current workers and any outdated ones. */
  predicate MayOutlive(before: LiveWorkers, checksum: string, after: LiveWorkers) {
    SubMap(after, before) && SubMap(OfTemplate(before, checksum), after)
  }

  lemma CurrentUses(live: LiveWorkers, checksum: string, n: string)
    requires n in live && live[n].usesProxy
    ensures live[n].checksum == checksum ==> live[n].proxyID in UsedBy(OfTemplate(live, checksum))
  {
    if live[n].checksum == checksum {
      assert OfTemplate(live, checksum)[n] == live[n];
    }
  }

  /** The purge and the tidying after it keep the proxies of current workers. Then every worker left has its proxy
      exactly if the outdated ones share theirs. */
  lemma OutdatedKeepProxies(before: LiveWorkers, checksum: string, after: LiveWorkers, proxies: set<int>)
    requires UsedBy(before) <= proxies && MayOutlive(before, checksum, after)
    ensures UsedBy(after) <= proxies * UsedBy(OfTemplate(before, checksum)) <==> OutdatedShare(before, checksum, after)
  {
    hide OfTemplate;
    var current := OfTemplate(before, checksum);
    forall n | n in after && after[n].usesProxy
      ensures after[n].proxyID in UsedBy(after) && after[n].proxyID in proxies
      ensures after[n].checksum == checksum ==> after[n].proxyID in UsedBy(current)
    {
      CurrentUses(before, checksum, n);
      assert before[n].proxyID in UsedBy(before);
    }
  }

  lemma OutdatedMayAllStay(before: LiveWorkers, checksum: string)
    ensures MayOutlive(before, checksum, before)
    ensures forall after: LiveWorkers | SubMap(after, before) && OutdatedShare(before, checksum, before) ::
              OutdatedShare(before, checksum, after)
  {
  }

  /** Beforehand: no choice of failing deletions can strand a worker exactly if all outdated workers share. */
  lemma NoFailureStrandsOutdated(before: LiveWorkers, checksum: string, proxies: set<int>)
    requires UsedBy(before) <= proxies
    ensures (forall after: LiveWorkers | MayOutlive(before, checksum, after) ::
               UsedBy(after) <= proxies * UsedBy(OfTemplate(before, checksum))) <==>
            OutdatedShare(before, checksum, before)
  {
    hide UsedBy, OfTemplate, OutdatedShare;
    forall after: LiveWorkers | MayOutlive(before, checksum, after)
      ensures UsedBy(after) <= proxies * UsedBy(OfTemplate(before, checksum)) <==>
        OutdatedShare(before, checksum, after)
    {
      OutdatedKeepProxies(before, checksum, after, proxies);
    }
    OutdatedMayAllStay(before, checksum);
  }

  /** On the cluster: if nothing but deletions of outdated pods fails, the workers left have their proxies exactly if
      they use those of current workers whose IDs no outdated worker has; and if there are no such IDs, exactly if
      the outdated workers left share. */
  method TidyWithFailures(resizer: K8sResizer)
    requires resizer.Valid() && Backed(resizer.client.LiveNow(), resizer.client.ProxiesNow())
    modifies resizer`secretFailures, resizer.client, resizer.store.workerTemplate, resizer.store.proxyTemplate
    ensures resizer.Valid()
    ensures resizer.client.OnlyRefused() && resizer.client.n.losses == old(resizer.client.n).losses ==>
      var (before, latest) := (old(resizer.client.LiveNow()), resizer.store.workerTemplate.checksum);
      && (Backed(resizer.client.LiveNow(), resizer.client.ProxiesNow()) <==>
            UsedBy(resizer.client.LiveNow()) <= UsedBy(Unshared(before, latest)))
      && (Unshared(before, latest) == OfTemplate(before, latest) ==>
            && (Backed(resizer.client.LiveNow(), resizer.client.ProxiesNow()) <==>
                  OutdatedShare(before, latest, resizer.client.LiveNow()))
            && (OutdatedShare(before, latest, before) ==>
                  Backed(resizer.client.LiveNow(), resizer.client.ProxiesNow())))
  {
    hide K8sResizer.Valid, Cluster.Valid, Cluster.Healthy, Live, Proxies, UsedBy, Unshared, OfTemplate, OutdatedShare,
      Backed, SubMap, Follows;
    ghost var before, proxies := resizer.client.LiveNow(), resizer.client.ProxiesNow();
    BackedExactly(before, proxies);
    var workers, listed := resizer.GetAndUpdateWorkers();
    ghost var latest, live := resizer.store.workerTemplate.checksum, resizer.client.LiveNow();
    BackedExactly(live, resizer.client.ProxiesNow());
    OutdatedMayAllStay(before, latest);
    if SubMap(live, before) && MayOutlive(before, latest, live) {
      UsedByMore(live, before);
      OutdatedKeepProxies(before, latest, live, proxies.Keys);
    }
  }

  // Failed steps around a proxy's secret

  /** The failing input: the example's proxy is deleted, its secret goes, and then its deployment stays. */
  method SecretGoesFirst() returns (resizer: K8sResizer)
    ensures resizer.Valid() && resizer.client.world == ExampleWorld() && resizer.client.history[0] == Start(true)
    ensures SoundState(ExampleWorld(), Start(true))
            && SecretsPresent(Proxies(ExampleWorld(), Start(true).deployments), Start(true).secrets.Keys)
    ensures resizer.client.n.leaks > 0 ==>
      !resizer.client.SecretsThere() && resizer.client.ProxiesNow() == map[1 := ProxyWith(true)]
  {
    hide K8sResizer.Valid, Cluster.Valid, Cluster.Healthy, Live, Proxies, SoundState, HealthyState, SecretsPresent,
      PodWith, WorkerWith, ProxyWith, Start, ExampleWorld, ChecksumWith, ProxyName, Tally.AtMost;
    StartIsSound(true);
    resizer := NewResizer(true);
    ExampleParts(true);
    var ok := resizer.DeletePoolProxy(ProxyWith(true));
  }

  /** The failing input: a proxy from before secure communication is updated, and then its secret cannot be
      created. */
  method DeploymentGoesFirst() returns (resizer: K8sResizer)
    ensures resizer.Valid() && resizer.client.world == ExampleWorld() && resizer.client.history[0] == Start(false)
    ensures SoundState(ExampleWorld(), Start(false))
            && SecretsPresent(Proxies(ExampleWorld(), Start(false).deployments), Start(false).secrets.Keys)
    ensures resizer.secretFailures > 0 ==> !resizer.client.SecretsThere()
  {
    hide K8sResizer.Valid, Cluster.Valid, Cluster.Healthy, Live, Proxies, SoundState, HealthyState, SecretsPresent,
      PodWith, WorkerWith, ProxyWith, Start, ExampleWorld, ChecksumWith, ProxyName, Tally.AtMost;
    StartIsSound(false);
    resizer := NewResizer(false);
    ExampleParts(false);
    var ok := resizer.UpdateProxy(ProxyWith(false));
    SecureConfIsSecure();
  }

  /** And that is never repaired: once a missing secret's proxy is up to date and the target is met,
      iterations change nothing while pods and templates stay, whatever errors they meet. */
  method MissingSecretStays(controller: Controller, request: ResizeRequest, iterations: nat)
    requires controller.resizer.Valid() && controller.Accepts(Some(request))
    requires controller.Settled(request) && !controller.resizer.client.SecretsThere()
    modifies controller`runs, controller.resizer`secretFailures, controller.resizer.client
    modifies controller.resizer.store.workerTemplate, controller.resizer.store.proxyTemplate
    ensures controller.runs == old(controller.runs) + iterations
    ensures controller.resizer.client.n.losses == old(controller.resizer.client.n).losses
            && controller.resizer.client.n.edits == old(controller.resizer.client.n).edits ==>
      controller.resizer.client.s == old(controller.resizer.client.s) && !controller.resizer.client.SecretsThere()
  {
    hide K8sResizer.Valid, Cluster.Valid, SecretsPresent, Live, Proxies, Controller.Settled;
    StaySettled(controller, request, iterations);
  }
}
