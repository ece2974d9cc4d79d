/** From a state that is sound but not healthy, say after a failed deletion, one undisturbed iteration need not
    restore health: the purge goes by worker ID and can drop the proxy of a worker that stays. */
module Recovery {
  import opened Wrappers
  import opened Objects
  import opened World
  import opened Cluster
  import opened Listing
  import opened Adding
  import opened Choosing
  import opened Scaling
  import opened Resize
  import opened Controller
  import opened Operation
  import opened TemplateStore
  import opened Example
  import Base32

  /** The proxies the template gives to these worker IDs. */
  function ProxiesFor(world: World, checksum: string, ids: seq<int>): set<int> {
    set i | 0 <= i < |ids| && ProxyFor(world, checksum, ids[i]).Some? :: ProxyFor(world, checksum, ids[i]).value
  }

  /** To be known beforehand: each current worker that will stay has its proxy, and either shares it with a current
      worker whose ID no outdated worker has, or it will be made for a new worker. */
  ghost predicate Restorable(world: World, before: LiveWorkers, proxies: set<int>, checksum: string, target: int,
                             connected: seq<ConnectedWorker>, threshold: int, toAdd: seq<int>) {
    var current, kept := OfTemplate(before, checksum), KeptProxies(before, proxies, checksum);
    if target < |current| then UsedBy(Spared(current, connected, threshold, |current| - target)) <= kept
    else UsedBy(current) <= kept + ProxiesFor(world, checksum, toAdd)
  }

  /** With all workers of one template, health is a matter of proxies. */
  lemma Recovered(resizer: K8sResizer, kept: set<int>, was: LiveWorkers)
    requires resizer.Valid() && resizer.Tidy()
    requires ProxiesFollow(kept, resizer.client.ProxiesNow().Keys, was, resizer.client.LiveNow())
    ensures HealthyState(resizer.client.world, resizer.client.s) <==>
            UsedBy(resizer.client.LiveNow()) <= kept + UsedBy(Newcomers(was, resizer.client.LiveNow()))
  {
    hide SoundState, Live, Proxies, OfTemplate, AllMadeFrom, DistinctIDs, DistinctWorkerNames, Newcomers;
    var live := resizer.client.LiveNow();
    SoundAtStart(resizer);
    SubMapRefl(live);
    NamesOfOneTemplate(resizer.client.world, resizer.client.s, live, resizer.store.workerTemplate.checksum);
    BackedExactly(live, resizer.client.ProxiesNow());
  }

  predicate GenuineOf(world: World, live: LiveWorkers, checksum: string) {
    forall n | n in live :: Genuine(world, live[n]) && live[n].checksum == checksum
  }

  lemma AllGenuine(resizer: K8sResizer)
    requires resizer.Valid() && resizer.Tidy()
    ensures GenuineOf(resizer.client.world, resizer.client.LiveNow(), resizer.store.workerTemplate.checksum)
  {
    hide WorkerOfPod, Genuine, IsWorkerPod, UsedBy, AllMadeFrom;
    SoundAtStart(resizer);
    var (world, s, latest) := (resizer.client.world, resizer.client.s, resizer.store.workerTemplate.checksum);
    forall n | n in resizer.client.LiveNow()
      ensures Genuine(world, resizer.client.LiveNow()[n]) && resizer.client.LiveNow()[n].checksum == latest
    {
      assert PodOK(world, s.pods[n]);
      assert n in OfTemplate(resizer.client.LiveNow(), latest);
    }
  }

  lemma SparedAreCurrent(live: LiveWorkers, connected: seq<ConnectedWorker>, threshold: int, excess: nat)
    ensures SubMap(Spared(live, connected, threshold, excess), live)
  {
  }

  lemma UsedByParts(before: LiveWorkers, now: LiveWorkers)
    requires SubMap(before, now)
    ensures UsedBy(now) == UsedBy(before) + UsedBy(Newcomers(before, now))
  {
    hide UsedBy;
    UsedByEither(now, before, Newcomers(before, now));
    UsedByMore(before, now);
    NewcomersAreLive(before, now);
  }

  lemma NewcomersProxies(world: World, before: LiveWorkers, now: LiveWorkers, checksum: string, target: int,
                         toAdd: seq<int>)
    requires FilledUp(before, now, target, toAdd) && GenuineOf(world, now, checksum)
    ensures UsedBy(Newcomers(before, now)) == ProxiesFor(world, checksum, toAdd)
  {
    hide Genuine, ProxyFor, IsLowestFree;
    var newcomers := Newcomers(before, now);
    forall n | n in newcomers
      ensures n !in before && now[n].deployed.id in SetOf(toAdd)
      ensures ProxyFor(world, checksum, now[n].deployed.id) == if now[n].usesProxy then Some(now[n].proxyID) else None
    {
      ProxyIsForID(world, now[n]);
    }
    forall id | id in UsedBy(newcomers)
      ensures id in ProxiesFor(world, checksum, toAdd)
    {
      var n :| n in newcomers && newcomers[n].usesProxy && newcomers[n].proxyID == id;
      var i :| 0 <= i < |toAdd| && toAdd[i] == now[n].deployed.id;
    }
    forall id | id in ProxiesFor(world, checksum, toAdd)
      ensures id in UsedBy(newcomers)
    {
      var i :| 0 <= i < |toAdd| && ProxyFor(world, checksum, toAdd[i]) == Some(id);
      assert toAdd[i] in SetOf(toAdd);
      var n :| n in now && n !in before && now[n].deployed.id == toAdd[i];
      assert n in newcomers;
    }
  }

  /** The condition on what is left is the condition on what there was. */
  lemma RestoredExactly(world: World, before: LiveWorkers, proxies: set<int>, checksum: string, target: int,
                        connected: seq<ConnectedWorker>, threshold: int, toAdd: seq<int>, now: LiveWorkers)
    requires Resized(OfTemplate(before, checksum), now, target, connected, threshold, toAdd)
    requires GenuineOf(world, now, checksum)
    ensures var current := OfTemplate(before, checksum);
            |current| <= target ==> IsLowestFree(toAdd, IDsIn(current), target - |current|)
    ensures var current := OfTemplate(before, checksum);
            UsedBy(now) <= KeptProxies(before, proxies, checksum) + UsedBy(Newcomers(current, now)) <==>
            Restorable(world, before, proxies, checksum, target, connected, threshold, toAdd)
  {
    hide UsedBy, Unshared, Newcomers, OfTemplate, Spared, GenuineOf;
    var current := OfTemplate(before, checksum);
    if target < |current| {
      SparedAreCurrent(current, connected, threshold, |current| - target);
      NewcomersAreLive(current, now);
    } else {
      UsedByParts(current, now);
      NewcomersProxies(world, current, now, checksum, target, toAdd);
    }
  }

  /** An undisturbed iteration ends in health exactly from restorable states; `toAdd` is the lowest free IDs. */
  method Recover(controller: Controller, request: ResizeRequest) returns (ghost toAdd: seq<int>)
    requires controller.resizer.Valid() && controller.Accepts(Some(request))
    modifies controller`runs, controller.resizer`secretFailures, controller.resizer.client
    modifies controller.resizer.store.workerTemplate, controller.resizer.store.proxyTemplate
    ensures controller.resizer.Valid() && controller.resizer.client.Later()
    ensures controller.runs == old(controller.runs) + 1
    ensures controller.Undisturbed() ==>
      var (before, latest) :=
        (old(controller.resizer.client.LiveNow()), controller.resizer.store.workerTemplate.checksum);
      var (current, target) := (OfTemplate(before, latest), Target(request, controller.minWorkers));
      && (|current| <= target ==> IsLowestFree(toAdd, IDsIn(current), target - |current|))
      && (HealthyState(controller.resizer.client.world, controller.resizer.client.s) <==>
            Restorable(controller.resizer.client.world, before, old(controller.resizer.client.ProxiesNow()).Keys,
                       latest, target, request.workers, controller.idleStopThreshold, toAdd))
      && (controller.resizer.client.n.edits == old(controller.resizer.client.n).edits ==>
            && controller.resizer.store.UpToDate(controller.resizer.client.texts)
            && (controller.Settled(request) <==>
                  Settles(current, target, request.workers, controller.idleStopThreshold)))
  {
    hide Controller.Settled, Settles, K8sResizer.Valid, Cluster.Valid, Cluster.Healthy, SoundState, HealthyState, Live,
      Proxies, OfTemplate, Target, Restorable, K8sResizer.Tidy, ProxiesFollow, Follows, Unshared, UsedBy, Resized,
      Controller.Accepts;
    var resizer := controller.resizer;
    ghost var before, proxies := resizer.client.LiveNow(), resizer.client.ProxiesNow().Keys;
    toAdd := controller.Run(Some(request));
    if controller.Undisturbed() {
      ghost var latest, live := resizer.store.workerTemplate.checksum, resizer.client.LiveNow();
      Recovered(resizer, KeptProxies(before, proxies, latest), OfTemplate(before, latest));
      AllGenuine(resizer);
      RestoredExactly(resizer.client.world, before, proxies, latest, Target(request, controller.minWorkers),
                      request.workers, controller.idleStopThreshold, toAdd, live);
    }
  }

  /** Healthy states are restorable. */
  lemma HealthyIsRestorable(world: World, before: LiveWorkers, proxies: map<int, VersionedProxy>, checksum: string,
                            target: int, connected: seq<ConnectedWorker>, threshold: int, toAdd: seq<int>)
    requires DistinctIDs(before) && Backed(before, proxies)
    ensures Restorable(world, before, proxies.Keys, checksum, target, connected, threshold, toAdd)
  {
  }

  /** The same for any number of undisturbed iterations with this request, if they settle the cluster: the state
      before the first decides whether the cluster is healthy after the last. */
  method RecoverRepeatedly(controller: Controller, request: ResizeRequest, more: nat) returns (ghost toAdd: seq<int>)
    requires controller.resizer.Valid() && controller.Accepts(Some(request))
    modifies controller`runs, controller.resizer`secretFailures, controller.resizer.client
    modifies controller.resizer.store.workerTemplate, controller.resizer.store.proxyTemplate
    ensures controller.resizer.Valid() && controller.resizer.client.Later()
    ensures controller.runs == old(controller.runs) + 1 + more
    ensures controller.Undisturbed() && controller.resizer.client.n.edits == old(controller.resizer.client.n).edits ==>
      var (before, latest) :=
        (old(controller.resizer.client.LiveNow()), controller.resizer.store.workerTemplate.checksum);
      var (current, target) := (OfTemplate(before, latest), Target(request, controller.minWorkers));
      Settles(current, target, request.workers, controller.idleStopThreshold) ==>
        && controller.Settled(request) && controller.resizer.store.UpToDate(controller.resizer.client.texts)
        && (|current| <= target ==> IsLowestFree(toAdd, IDsIn(current), target - |current|))
        && (HealthyState(controller.resizer.client.world, controller.resizer.client.s) <==>
              Restorable(controller.resizer.client.world, before, old(controller.resizer.client.ProxiesNow()).Keys,
                         latest, target, request.workers, controller.idleStopThreshold, toAdd))
  {
    hide K8sResizer.Valid, Cluster.Valid, Cluster.Healthy, SoundState, HealthyState, Live, Proxies, OfTemplate, Target,
      Restorable, Controller.Settled, Settles, Follows, Controller.Accepts, Cluster.SecretsThere, CallsJustified,
      Store.IsChecksumOf, CurrentText, K8sResizer.Tidy, IsLowestFree, IDsIn;
    var client := controller.resizer.client;
    toAdd := Recover(controller, request);
    ghost var latest, settled, first := controller.resizer.store.workerTemplate.checksum, controller.Settled(request),
      client.Now();
    FollowsParts(old(client.Now()), first);
    FollowsRefl(first);
    for i := 0 to more
      invariant controller.resizer.Valid() && client.Later() && Follows(first, client.Now())
      invariant controller.runs == old(controller.runs) + 1 + i
      invariant controller.Undisturbed() && client.n.edits == old(client.n).edits ==>
        controller.resizer.store.UpToDate(client.texts)
      invariant client.n.losses == first.n.losses && client.n.edits == first.n.edits && settled ==>
        controller.Settled(request) && client.s == first.s
    {
      ghost var mid := client.Now();
      var _ := controller.Run(Some(request));
      FollowsTrans(old(client.Now()), mid, client.Now());
      FollowsTrans(first, mid, client.Now());
      FollowsParts(mid, client.Now());
      FollowsParts(first, client.Now());
      FollowsParts(old(client.Now()), mid);
    }
    FollowsParts(first, client.Now());
    CurrentChecksum(controller.resizer.store, client.texts, latest);
  }

  /** And a settled cluster stays as healthy or as unhealthy as it is, whatever errors further iterations meet, while
      pods and templates stay. */
  method HealthStays(controller: Controller, request: ResizeRequest, iterations: nat)
    requires controller.resizer.Valid() && controller.Accepts(Some(request)) && controller.Settled(request)
    modifies controller`runs, controller.resizer`secretFailures, controller.resizer.client
    modifies controller.resizer.store.workerTemplate, controller.resizer.store.proxyTemplate
    ensures controller.runs == old(controller.runs) + iterations
    ensures controller.resizer.client.n.losses == old(controller.resizer.client.n).losses
            && controller.resizer.client.n.edits == old(controller.resizer.client.n).edits ==>
      (HealthyState(controller.resizer.client.world, controller.resizer.client.s) <==>
        HealthyState(controller.resizer.client.world, old(controller.resizer.client.s)))
  {
    hide K8sResizer.Valid, Cluster.Valid, HealthyState, Controller.Settled;
    StaySettled(controller, request, iterations);
  }

  /** A current worker, the only current one on its proxy, and an outdated one with the same ID. */
  predicate SharesID(before: LiveWorkers, checksum: string, p: string, outdated: string) {
    && p in before && before[p].checksum == checksum && before[p].usesProxy
    && outdated in before && before[outdated].checksum != checksum
    && before[outdated].deployed.id == before[p].deployed.id
    && forall n | n in before && n != p && before[n].checksum == checksum && before[n].usesProxy ::
         before[n].proxyID != before[p].proxyID
  }

  /** Such states are not restorable while the target is met. */
  lemma SharedIDLosesProxy(world: World, before: LiveWorkers, proxies: set<int>, checksum: string,
                           connected: seq<ConnectedWorker>, threshold: int, p: string, outdated: string)
    requires SharesID(before, checksum, p, outdated)
    ensures p in OfTemplate(before, checksum) && before[p].proxyID in UsedBy(OfTemplate(before, checksum))
    ensures before[p].proxyID !in UsedBy(Unshared(before, checksum))
    ensures !Restorable(world, before, proxies, checksum, |OfTemplate(before, checksum)|, connected, threshold, [])
  {
    var id := before[p].proxyID;
    assert OfTemplate(before, checksum)[p].usesProxy;
    assert id in UsedBy(OfTemplate(before, checksum));
    assert p !in Unshared(before, checksum);
    assert id !in UsedBy(Unshared(before, checksum));
  }

  lemma NobodyAdded(before: LiveWorkers, now: LiveWorkers, connected: seq<ConnectedWorker>, threshold: int,
                    added: seq<int>)
    requires Resized(before, now, |before|, connected, threshold, added)
    ensures now == before && UsedBy(Newcomers(before, now)) == {}
  {
    assert forall n | n in now :: n in before;
    NewcomersAreLive(before, now);
  }

  /** What is lost: after an undisturbed iteration that meets its target, the current worker is live and its proxy is
      gone. */
  method LoseSharedProxy(controller: Controller, request: ResizeRequest, p: string, outdated: string)
    requires controller.resizer.Valid() && controller.Accepts(Some(request))
    modifies controller`runs, controller.resizer`secretFailures, controller.resizer.client
    modifies controller.resizer.store.workerTemplate, controller.resizer.store.proxyTemplate
    ensures controller.resizer.Valid() && controller.resizer.client.Later()
    ensures controller.runs == old(controller.runs) + 1
    ensures controller.Undisturbed() && controller.resizer.client.n.edits == old(controller.resizer.client.n).edits ==>
      && controller.resizer.store.UpToDate(controller.resizer.client.texts)
      && (DistinctNames(request.workers) ==> controller.Settled(request))
    ensures
      var (before, latest) :=
        (old(controller.resizer.client.LiveNow()), controller.resizer.store.workerTemplate.checksum);
      controller.Undisturbed() && SharesID(before, latest, p, outdated)
      && Target(request, controller.minWorkers) == |OfTemplate(before, latest)| ==>
        && controller.resizer.client.LiveNow() == OfTemplate(before, latest) && p in controller.resizer.client.LiveNow()
        && before[p].proxyID !in controller.resizer.client.ProxiesNow()
  {
    hide K8sResizer.Valid, Cluster.Valid, Cluster.Healthy, SoundState, HealthyState, Live, Proxies, OfTemplate, Target,
      K8sResizer.Tidy, Follows, Unshared, UsedBy, Resized, Controller.Accepts, Controller.Settled, Settles, SharesID,
      Restorable;
    ghost var before, proxies := controller.resizer.client.LiveNow(), controller.resizer.client.ProxiesNow().Keys;
    var added := controller.Run(Some(request));
    ghost var latest, now := controller.resizer.store.workerTemplate.checksum, controller.resizer.client.LiveNow();
    DistinctReportsSettle(OfTemplate(before, latest), Target(request, controller.minWorkers), request.workers,
                          controller.idleStopThreshold);
    if controller.Undisturbed() && SharesID(before, latest, p, outdated)
      && Target(request, controller.minWorkers) == |OfTemplate(before, latest)| {
      SharedIDLosesProxy(controller.resizer.client.world, before, proxies, latest, request.workers,
                         controller.idleStopThreshold, p, outdated);
      NobodyAdded(OfTemplate(before, latest), now, request.workers, controller.idleStopThreshold, added);
    }
  }

  lemma TwinsShare()
    ensures
      var before := map[PodWith(true).name := WorkerWith(true), PodWith(false).name := WorkerWith(false)];
      && SharesID(before, ChecksumWith(true), PodWith(true).name, PodWith(false).name)
      && OfTemplate(before, ChecksumWith(true)) == map[PodWith(true).name := WorkerWith(true)]
  {
    hide PodWith, WorkerWith, ChecksumWith;
    TwinsDiffer();
  }

  lemma OneOfTwo(name: string, w: VersionedWorker, proxies: map<int, VersionedProxy>)
    ensures |map[name := w]| == 1
    ensures w.usesProxy && w.proxyID !in proxies ==> !Backed(map[name := w], proxies)
  {
    assert map[name := w][name] == w;
  }

  /** The installed template decides. */
  lemma SettledOnSecure(controller: Controller, request: ResizeRequest)
    requires controller.resizer.Valid() && controller.resizer.client.world == ExampleWorld()
    requires controller.resizer.store.config == StoreConfig(true, "worker-template", "proxy-template", "file")
    ensures controller.Settled(request) && controller.resizer.client.texts == Installed() ==>
      controller.resizer.store.workerTemplate.checksum == ChecksumWith(true)
  {
    hide Cluster.Valid, Base32.ChecksumToString, K8sResizer.Tidy, AtRest;
  }

  /** The failing input: the twins of the example. Both have their proxy; after an undisturbed iteration with nothing
      to add or to delete one is left, without it. */
  method TwinLosesProxy() returns (controller: Controller)
    ensures SoundState(ExampleWorld(), Twins())
    ensures Backed(Live(ExampleKeys(), Twins().pods), Proxies(ExampleWorld(), Twins().deployments))
    ensures controller.resizer.Valid() && controller.resizer.client.world == ExampleWorld() && controller.runs == 1
    ensures controller.resizer.client.history[0] == Twins()
    ensures controller.resizer.client.n.faults == 0 && controller.resizer.client.n.losses == 0
            && controller.resizer.client.n.edits == 0 ==>
      && controller.resizer.client.LiveNow() == map[PodWith(true).name := WorkerWith(true)]
      && !Backed(controller.resizer.client.LiveNow(), controller.resizer.client.ProxiesNow())
  {
    hide K8sResizer.Valid, Cluster.Valid, Cluster.Healthy, Live, Proxies, SoundState, HealthyState, PodWith, WorkerWith,
      ProxyWith, Twins, ExampleWorld, ChecksumWith, Controller.Settled, SharesID, OfTemplate, Store.UpToDate, Backed,
      Follows;
    TwinsAreSound();
    TwinsShare();
    TwinsDiffer();
    ExampleParts(true);
    var resizer := NewResizerOn(Twins());
    controller := new Controller(0, 1, resizer);
    ghost var started := resizer.client.Now();
    LoseSharedProxy(controller, ResizeRequest(1, 1, []), PodWith(true).name, PodWith(false).name);
    FollowsParts(started, resizer.client.Now());
    SettledOnSecure(controller, ResizeRequest(1, 1, []));
    OneOfTwo(PodWith(true).name, WorkerWith(true), resizer.client.ProxiesNow());
  }
}
