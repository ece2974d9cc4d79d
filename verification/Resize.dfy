/** Resizing the cluster: the protocol the controller runs against the Kubernetes API. */
module Resize {
  import opened Wrappers
  import opened Objects
  import opened TemplateConf
  import opened World
  import opened Cluster
  import opened TemplateStore
  import opened Specs
  import opened Listing
  import opened Adding

  lemma ResizerParts(resizer: K8sResizer)
    requires resizer.Valid()
    ensures resizer.client.Valid() && resizer.client.world.Valid()
    ensures resizer.client.Healthy() ==>
      DistinctIDs(resizer.client.LiveNow()) && Backed(resizer.client.LiveNow(), resizer.client.ProxiesNow())
  {
    hide Cluster.Healthy, SoundState, Live, Proxies, DistinctIDs, Backed;
    if resizer.client.Healthy() {
      HealthyNow(resizer.client);
    }
  }

  /** Map iteration: any key may come next. */
  method AnyOf<T(==)>(keys: set<T>) returns (key: T)
    requires keys != {}
    ensures key in keys
  {
    key :| key in keys;
  }

  class K8sResizer {
    const client: Cluster
    const store: Store
    const specFactory: SpecFactory
    const proxyCertFile: string
    ghost var secretFailures: nat  // updates of a proxy whose secret could then not be adjusted

    ghost predicate Valid()
      reads client`s, client`texts, client`history, client`textHistory, store.workerTemplate, store.proxyTemplate
    {
      store.client == client && specFactory.store == store && client.Valid() && store.Valid()
    }

    constructor (store: Store, specFactory: SpecFactory, proxyCertFile: string)
      requires specFactory.store == store && store.client.Valid() && store.Valid()
      ensures Valid() && this.store == store && this.client == store.client && this.specFactory == specFactory
      ensures this.proxyCertFile == proxyCertFile && secretFailures == 0
    {
      this.client, this.store, this.specFactory := store.client, store, specFactory;
      this.proxyCertFile, secretFailures := proxyCertFile, 0;
    }

    // Listing

    /** Skips pods that are being deleted and pods whose annotations cannot be read. */
    method GetWorkersFromPods(pods: seq<Pod>, ghost all: map<string, Pod>) returns (workers: seq<VersionedWorker>)
      requires IsListing(pods, all)
      ensures ListsWorkers(workers, Live(client.world.keys, all))
    {
      hide WorkerOfPod, Live;
      workers := [];
      ghost var live := Live(client.world.keys, all);
      for i := 0 to |pods|
        invariant forall j | 0 <= j < |workers| ::
          workers[j].deployed.podName in live && live[workers[j].deployed.podName] == workers[j]
        invariant forall j | 0 <= j < |workers| :: exists k | 0 <= k < i :: pods[k].name == workers[j].deployed.podName
        invariant forall j, k | 0 <= j < k < |workers| :: workers[j].deployed.podName != workers[k].deployed.podName
        invariant forall k | 0 <= k < i && pods[k].name in live ::
          live[pods[k].name].deployed.podName == pods[k].name && live[pods[k].name] in workers
      {
        LiveEntry(client.world.keys, all, pods[i].name);
        if pods[i].terminating {
          continue;
        }
        match WorkerOfPod(client.world.keys, pods[i]) {
          case None =>
          case Some(worker) => workers := workers + [worker];
        }
      }
      forall n | n in live
        ensures live[n].deployed.podName == n && live[n] in workers
      {
        LiveEntry(client.world.keys, all, n);
        assert all[n] in pods;
      }
    }

    method GetWorkers() returns (workers: Option<seq<VersionedWorker>>)
      requires Valid()
      modifies client
      ensures Valid() && client.OnlyReads() && client.OnlyOutages()
      ensures workers.None? ==> client.n.faults > old(client.n).faults
      ensures workers.Some? ==> ListsWorkers(workers.value, client.LiveNow())
    {
      hide Cluster.Valid, Cluster.Healthy, SoundState, HealthyState, Live, Proxies, IsListing, ListsWorkers;
      var pods := client.GetPods();
      if pods.None? {
        return None;
      }
      var ws := GetWorkersFromPods(pods.value, client.s.pods);
      return Some(ws);
    }

    /** Skips deployments whose annotations cannot be read. */
    method GetProxiesFromDeployments(deployments: seq<Deployment>) returns (proxies: seq<VersionedProxy>)
      ensures proxies == ReadProxies(client.world.keys, deployments)
    {
      hide ProxyOfDeployment;
      proxies := [];
      for i := 0 to |deployments|
        invariant proxies == ReadProxies(client.world.keys, deployments[..i])
      {
        assert deployments[..i + 1][..i] == deployments[..i];
        match ProxyOfDeployment(client.world.keys, deployments[i]) {
          case None =>
          case Some(proxy) => proxies := proxies + [proxy];
        }
      }
      assert deployments[..|deployments|] == deployments;
    }

    method GetPoolProxies() returns (proxies: Option<seq<VersionedProxy>>)
      requires Valid()
      modifies client
      ensures Valid() && client.OnlyReads() && client.OnlyOutages()
      ensures proxies.None? ==> client.n.faults > old(client.n).faults
      ensures proxies.Some? ==> ListsProxies(proxies.value, client.ProxiesNow())
    {
      hide Cluster.Valid, Cluster.Healthy, SoundState, HealthyState, Live, Proxies, IsDeploymentListing, DeploymentsOK,
        ListsProxies, ReadProxies;
      var deployments := client.GetDeployments();
      if deployments.None? {
        return None;
      }
      ValidParts(client);
      SoundParts(client.world, client.s);
      var ps := GetProxiesFromDeployments(deployments.value);
      ReadAreListed(client.world, deployments.value, client.s.deployments);
      return Some(ps);
    }

    // Proxy secrets

    /** Generate and marshal a certificate; any of its steps may fail. */
    method NewCertificate() returns (cert: Option<string>)
      requires Valid()
      modifies client`n
      ensures Valid() && (old(client.Healthy()) ==> client.Healthy())
      ensures client.n == old(client.n).(faults := client.n.faults, outages := client.n.outages)
      ensures old(client.n).faults <= client.n.faults && client.OnlyOutages()
      ensures cert.None? ==> client.n.faults > old(client.n).faults
    {
      hide Cluster.Valid, Cluster.Healthy, SoundState, HealthyState, Live, Proxies;
      var made: bool, bytes: string := *, *;
      if made {
        return Some(bytes);
      }
      client.Outage();
      return None;
    }

    method CreateProxySecret(name: string) returns (ok: bool)
      requires Valid()
      modifies client
      ensures Valid() && client.OnlySecret(name)
      ensures !ok ==> client.n.faults > old(client.n).faults && client.s.secrets == old(client.s).secrets
      ensures ok ==>
        name !in old(client.s).secrets && name in client.s.secrets && client.s.secrets[name].Keys == {proxyCertFile}
      ensures ok ==> client.n.writes == old(client.n).writes + 1
      ensures name !in old(client.s).secrets ==> client.OnlyOutages()
    {
      hide Cluster.Valid, Cluster.Healthy, SoundState, HealthyState, Live, Proxies;
      var cert := NewCertificate();
      if cert.None? {
        return false;
      }
      ok := client.CreateSecret(name, map[proxyCertFile := cert.value]);
    }

    method EnsureNoProxySecret(name: string) returns (ok: bool)
      requires Valid()
      modifies client
      ensures Valid() && client.OnlySecret(name) && client.OnlyOutages()
      ensures !ok ==> client.n.faults > old(client.n).faults && client.s.secrets == old(client.s).secrets
      ensures ok ==> name !in client.s.secrets
      ensures ok ==> client.n.writes == old(client.n).writes + if name in old(client.s).secrets then 1 else 0
    {
      hide Cluster.Valid, Cluster.Healthy, SoundState, HealthyState, Live, Proxies;
      var found := client.SecretExists(name);
      if found.None? {
        return false;
      }
      if found.value.None? {
        return true;
      }
      ok := client.DeleteSecret(name);
    }

    /** Create a new proxy certificate; one left over from an earlier proxy is replaced. */
    method CreateOrOverwriteProxySecret(name: string) returns (ok: bool)
      requires Valid()
      modifies client
      ensures Valid() && client.OnlySecret(name) && client.OnlyOutages()
      ensures !ok ==> client.n.faults > old(client.n).faults
      ensures ok ==> name in client.s.secrets && client.s.secrets[name].Keys == {proxyCertFile}
      ensures ok ==> client.n.writes == old(client.n).writes + if name in old(client.s).secrets then 2 else 1
    {
      hide Cluster.Valid, Cluster.Healthy, SoundState, HealthyState, Live, Proxies;
      ok := EnsureNoProxySecret(name);
      if ok {
        ok := CreateProxySecret(name);
      }
    }

    method EnsureProxySecretExists(name: string) returns (ok: bool)
      requires Valid()
      modifies client
      ensures Valid() && client.OnlySecret(name) && client.OnlyOutages()
      ensures !ok ==> client.n.faults > old(client.n).faults
      ensures !ok || name in old(client.s).secrets ==> client.s.secrets == old(client.s).secrets
      ensures ok ==> name in client.s.secrets
      ensures ok && name !in old(client.s).secrets ==> client.s.secrets[name].Keys == {proxyCertFile}
      ensures ok ==> client.n.writes == old(client.n).writes + if name in old(client.s).secrets then 0 else 1
    {
      hide Cluster.Valid, Cluster.Healthy, SoundState, HealthyState, Live, Proxies;
      var found := client.SecretExists(name);
      if found.None? {
        return false;
      }
      if found.value.Some? {
        return true;
      }
      ok := CreateProxySecret(name);
    }

    // Deleting proxies

    /** Removes the certificate of a proxy that has one; the other proxies keep theirs. */
    method DeleteOwnSecret(p: VersionedProxy) returns (ok: bool)
      requires Valid() && client.HasProxy(p)
      modifies client
      ensures Valid() && client.OnlySecret(p.deploymentName) && client.OnlyOutages()
      ensures !ok ==> client.n.faults > old(client.n).faults
      ensures !ok || !p.usesSecret ==> client.s.secrets == old(client.s).secrets
      ensures ok && p.usesSecret ==> p.secretName !in client.s.secrets
      ensures old(client.SecretsThere()) ==> SecretsPresent(client.ProxiesNow() - {p.id}, client.s.secrets.Keys)
      ensures ok && p.usesSecret ==> !client.SecretsThere()
    {
      hide Cluster.Valid, Cluster.Healthy, SoundState, HealthyState, Live, Proxies, DeploymentsOK, World.NameOfProxy,
        SecretsPresent;
      ProxyNamed(client, p.id);
      if client.SecretsThere() {
        OthersKeepSecrets(client, p);
      }
      ok := true;
      if p.usesSecret {
        ok := EnsureNoProxySecret(p.secretName);
        if ok {
          MissingSecret(client.ProxiesNow(), client.s.secrets.Keys, p.id);
        }
      }
      ghost var kept := old(client.s).secrets.Keys - {p.deploymentName};
      if SecretsPresent(client.ProxiesNow() - {p.id}, kept) {
        MoreSecrets(client.ProxiesNow() - {p.id}, kept, client.s.secrets.Keys);
      }
    }

    /** Removes the proxy's secret, then its deployment. */
    method DeletePoolProxy(p: VersionedProxy) returns (ok: bool)
      requires Valid() && client.HasProxy(p)
      modifies client
      ensures Valid() && client.KeepsPods() && client.OnlyOutages()
      ensures client.TidiesSecrets()
      ensures !ok ==> client.n.faults > old(client.n).faults
      ensures old(client.Healthy() && Unused(client.LiveNow(), p.id)) ==> client.Healthy()
      ensures ok && p.usesSecret ==> p.secretName !in client.s.secrets
      ensures !p.usesSecret ==> client.s.secrets == old(client.s).secrets
      ensures client.n.leaks == old(client.n).leaks && old(client.SecretsThere()) ==> client.SecretsThere()
      ensures client.n.leaks > old(client.n).leaks ==> !ok && (p.usesSecret ==> p.secretName !in client.s.secrets)
      ensures client.n.leaks > old(client.n).leaks && old(client.SecretsThere()) ==>
        (client.SecretsThere() <==> !p.usesSecret)
      ensures client.ProxiesNow() == if ok then old(client.ProxiesNow()) - {p.id} else old(client.ProxiesNow())
      ensures ok && p.usesSecret ==> client.world.NameOfProxy(p.id) !in client.s.secrets
      ensures OthersSame(old(client.s).secrets, client.s.secrets, {client.world.NameOfProxy(p.id)})
    {
      hide Cluster.Valid, Cluster.Healthy, SoundState, HealthyState, Live, Proxies, DeploymentsOK, World.NameOfProxy,
        SecretsPresent, OthersSame, SecretsFollow, UsesSecret;
      ProxyNamed(client, p.id);
      ok := DeleteOwnSecret(p);
      if ok {
        ok := client.DeleteDeployment(p.deploymentName, p.id);
      }
      SecretOfDropped(client.world, old(client.Now()), client.Now(), p);
    }

    /** Keep the proxies that are needed; the rest go. */
    method SplitProxies(proxies: seq<VersionedProxy>, workers: seq<VersionedWorker>)
      returns (toKeep: seq<VersionedProxy>, toDelete: seq<VersionedProxy>)
      requires DistinctProxies(proxies)
      ensures IsPart(toKeep, proxies, NeededBy(workers), true) && IsPart(toDelete, proxies, NeededBy(workers), false)
    {
      hide NeededBy;
      var needed: set<int> := {};
      assert NeededBy(workers[..0]) == {} by {
        NothingNeeded();
      }
      for i := 0 to |workers|
        invariant needed == NeededBy(workers[..i])
      {
        assert workers[..i + 1] == workers[..i] + [workers[i]];
        NeededByOneMore(workers[..i], workers[i]);
        if workers[i].usesProxy {
          needed := needed + {workers[i].proxyID};
        }
      }
      assert workers[..|workers|] == workers;
      toKeep, toDelete := [], [];
      for i := 0 to |proxies|
        invariant IsPart(toKeep, proxies[..i], needed, true) && IsPart(toDelete, proxies[..i], needed, false)
      {
        assert proxies[..i + 1] == proxies[..i] + [proxies[i]];
        PartGrows(toKeep, proxies[..i], needed, true, proxies[i]);
        PartGrows(toDelete, proxies[..i], needed, false, proxies[i]);
        if proxies[i].id in needed {
          toKeep := toKeep + [proxies[i]];
        } else {
          toDelete := toDelete + [proxies[i]];
        }
      }
      assert proxies[..|proxies|] == proxies;
    }

    method DeleteProxies(toDelete: seq<VersionedProxy>, ghost needed: set<int>)
      requires Valid()
      requires forall i | 0 <= i < |toDelete| :: client.HasProxy(toDelete[i]) && toDelete[i].id !in needed
      requires DistinctProxies(toDelete)
      modifies client
      ensures Valid() && client.KeepsPods() && client.OnlyOutages()
      ensures client.TidiesSecrets()
      ensures SubMap(client.ProxiesNow(), old(client.ProxiesNow()))
      ensures SubMap(Restrict(old(client.ProxiesNow()), needed), client.ProxiesNow())
      ensures client.n.faults == old(client.n).faults ==>
        forall i | 0 <= i < |toDelete| :: toDelete[i].id !in client.ProxiesNow()
      ensures client.n.leaks == old(client.n).leaks && old(client.SecretsThere()) ==> client.SecretsThere()
      ensures old(client.Healthy() && AllNeeded(client.LiveNow(), needed)) ==> client.Healthy()
      ensures toDelete == [] ==> client.n.writes == old(client.n).writes
      ensures client.n.faults >= old(client.n).faults + |StillThere(toDelete, client.ProxiesNow())|
      ensures SecretsWent(client.world, old(client.ProxiesNow()), old(client.s).secrets, client.ProxiesNow(),
                          client.s.secrets, needed)
    {
      hide K8sResizer.Valid, Cluster.Valid, Cluster.Healthy, SoundState, HealthyState, Live, Proxies, DeploymentsOK,
        World.NameOfProxy, SecretsPresent, Follows, SecretsFollow, SecretsWent, OthersSame;
      ResizerParts(this);
      FollowsRefl(client.Now());
      SecretsStay(client.world, client.Now(), client.Now());
      NoSecretWent(client.world, client.ProxiesNow(), client.s.secrets, needed);
      for i := 0 to |toDelete|
        invariant Valid() && client.KeepsPods()
        invariant SubMap(client.ProxiesNow(), old(client.ProxiesNow()))
        invariant SubMap(Restrict(old(client.ProxiesNow()), needed), client.ProxiesNow())
        invariant forall j | i <= j < |toDelete| :: client.HasProxy(toDelete[j])
        invariant client.n.faults == old(client.n).faults ==>
          forall j | 0 <= j < i :: toDelete[j].id !in client.ProxiesNow()
        invariant client.n.leaks == old(client.n).leaks && old(client.SecretsThere()) ==> client.SecretsThere()
        invariant old(client.Healthy() && AllNeeded(client.LiveNow(), needed)) ==> client.Healthy()
        invariant toDelete == [] ==> client.n.writes == old(client.n).writes
        invariant client.n.faults >= old(client.n).faults + |StillThere(toDelete[..i], client.ProxiesNow())|
        invariant SecretsWent(client.world, old(client.ProxiesNow()), old(client.s).secrets, client.ProxiesNow(),
                              client.s.secrets, needed)
        invariant client.TidiesSecrets() && client.OnlyOutages()
      {
        ghost var proxies := client.ProxiesNow();
        ghost var mid := client.Now();
        var ok := DeletePoolProxy(toDelete[i]);
        OneMoreWent(client.world, old(client.ProxiesNow()), old(client.s).secrets, proxies, mid.s.secrets,
                    client.ProxiesNow(), client.s.secrets, needed, toDelete[i].id);
        FollowsTrans(old(client.Now()), mid, client.Now());
        SecretsFollowTrans(client.world, old(client.Now()), mid, client.Now());
        StillThereNext(toDelete, i, proxies, client.ProxiesNow());
      }
      assert toDelete[..|toDelete|] == toDelete;
    }

    /** Delete proxies that no listed worker uses and return the others. A failed deletion is passed over. */
    method DeleteUnusedProxies(currentProxies: seq<VersionedProxy>, currentWorkers: seq<VersionedWorker>)
      returns (toKeep: seq<VersionedProxy>)
      requires Valid() && ListsProxies(currentProxies, client.ProxiesNow())
      modifies client
      ensures Valid() && client.KeepsPods() && client.OnlyOutages()
      ensures ListsProxies(toKeep, Restrict(old(client.ProxiesNow()), NeededBy(currentWorkers)))
      ensures SubMap(client.ProxiesNow(), old(client.ProxiesNow()))
      ensures SubMap(Restrict(old(client.ProxiesNow()), NeededBy(currentWorkers)), client.ProxiesNow())
      ensures client.n.faults == old(client.n).faults ==>
        client.ProxiesNow() == Restrict(old(client.ProxiesNow()), NeededBy(currentWorkers))
      ensures client.n.leaks == old(client.n).leaks && old(client.SecretsThere()) ==> client.SecretsThere()
      ensures old(client.Healthy() && AllNeeded(client.LiveNow(), NeededBy(currentWorkers))) ==> client.Healthy()
      ensures old(client.ProxiesNow()).Keys <= NeededBy(currentWorkers) ==> client.n.writes == old(client.n).writes
      ensures client.n.faults >= old(client.n).faults + |client.ProxiesNow().Keys - NeededBy(currentWorkers)|
      ensures SecretsWent(client.world, old(client.ProxiesNow()), old(client.s).secrets, client.ProxiesNow(),
                          client.s.secrets, NeededBy(currentWorkers))
      ensures client.TidiesSecrets()
    {
      hide K8sResizer.Valid, Cluster.SecretsThere, AllNeeded, StillThere, IsPart, ListsProxies, DistinctProxies,
        Cluster.Valid, Cluster.Healthy, SoundState, HealthyState, Live, Proxies, DeploymentsOK, World.NameOfProxy,
        SecretsPresent, NeededBy, SecretsFollow, SecretsWent;
      var toDelete;
      ghost var needed := NeededBy(currentWorkers);
      ListedDiffer(currentProxies, client.ProxiesNow());
      toKeep, toDelete := SplitProxies(currentProxies, currentWorkers);
      PartOfListing(currentProxies, client.ProxiesNow(), needed, toKeep, toDelete);
      DeleteProxies(toDelete, needed);
      UnneededStillThere(toDelete, old(client.ProxiesNow()), client.ProxiesNow(), needed);
      if client.n.faults == old(client.n).faults {
        OnlyNeededLeft(client.ProxiesNow(), old(client.ProxiesNow()), needed);
      }
    }

    // Deleting workers

    /** Attempt to delete each worker; its ID is remembered whether or not that worked. */
    method DeletePods(toDelete: seq<DeployedWorker>) returns (deletedIDs: set<int>)
      requires Valid()
      modifies client
      ensures Valid() && client.Later() && client.n.leaks == old(client.n).leaks && client.OnlyRefused()
      ensures deletedIDs == IDsOf(toDelete) && client.n.writes == old(client.n).writes + |toDelete|
      ensures client.deleteCalls == old(client.deleteCalls) + PodNames(toDelete)
      ensures client.createCalls == old(client.createCalls)
      ensures client.s.deployments == old(client.s).deployments && client.s.secrets == old(client.s).secrets
      ensures SubMap(client.LiveNow(), old(client.LiveNow()))
      ensures client.n.escapes == old(client.n).escapes ==> AllGone(toDelete, client.LiveNow())
      ensures client.n.losses == old(client.n).losses ==>
        OthersLive(toDelete, old(client.LiveNow()), client.LiveNow())
      ensures old(client.Healthy()) ==> client.Healthy()
      ensures DistinctWorkers(toDelete) && AllLive(toDelete, old(client.LiveNow()))
              && client.n.losses == old(client.n).losses ==>
        client.OnlyOutages()
    {
      hide Cluster.Valid, Cluster.Healthy, SoundState, HealthyState, Live, Proxies, Follows, DistinctWorkers, AllLive,
        PodsThere, IDsOf, PodNames;
      deletedIDs := {};
      FollowsRefl(client.Now());
      AllPodsThere(client.world.keys, toDelete, client.s.pods);
      NoIDs(toDelete);
      for i := 0 to |toDelete|
        invariant Valid() && client.Later() && client.n.leaks == old(client.n).leaks && client.OnlyRefused()
        invariant deletedIDs == IDsOf(toDelete[..i]) && client.n.writes == old(client.n).writes + i
        invariant client.deleteCalls == old(client.deleteCalls) + PodNames(toDelete[..i])
        invariant client.createCalls == old(client.createCalls)
        invariant client.s.deployments == old(client.s).deployments && client.s.secrets == old(client.s).secrets
        invariant SubMap(client.LiveNow(), old(client.LiveNow()))
        invariant client.n.escapes == old(client.n).escapes ==>
          forall j | 0 <= j < i :: toDelete[j].podName !in client.LiveNow()
        invariant client.n.losses == old(client.n).losses ==>
          forall p | p in old(client.LiveNow()) && p !in PodNames(toDelete[..i]) :: p in client.LiveNow()
        invariant old(client.Healthy()) ==> client.Healthy()
        invariant DistinctWorkers(toDelete) && AllLive(toDelete, old(client.LiveNow()))
                  && client.n.losses == old(client.n).losses ==>
          client.OnlyOutages() && PodsThere(toDelete, i, client.s.pods.Keys)
      {
        IDsOfNext(toDelete, i);
        ghost var mid := client.Now();
        ghost var pods := client.s.pods.Keys;
        var ok := client.DeletePod(toDelete[i].podName);
        OtherPodsThere(toDelete, i, pods, client.s.pods.Keys);
        FollowsTrans(old(client.Now()), mid, client.Now());
        deletedIDs := deletedIDs + {toDelete[i].id};
      }
      assert toDelete[..|toDelete|] == toDelete;
    }

    method KeepOthers(workers: seq<VersionedWorker>, ids: set<int>) returns (others: seq<VersionedWorker>)
      ensures others == Remaining(workers, ids)
    {
      others := [];
      for i := 0 to |workers|
        invariant others == Remaining(workers[..i], ids)
      {
        assert workers[..i + 1][..i] == workers[..i];
        if workers[i].deployed.id !in ids {
          others := others + [workers[i]];
        }
      }
      assert workers[..|workers|] == workers;
    }

    /** Delete the pods, then the proxies that no worker with another ID uses. `listed` is what
        `allWorkers` lists. */
    method DeleteListedWorkers(toDelete: seq<DeployedWorker>, allWorkers: seq<VersionedWorker>,
                               ghost listed: LiveWorkers)
      returns (ok: bool)
      requires Valid() && ListsWorkers(allWorkers, listed)
      modifies client
      ensures Valid() && client.Later()
      ensures client.TidiesSecrets()
      ensures !ok ==> client.n.faults > old(client.n).faults && !client.OnlyRefused()
      ensures client.deleteCalls == old(client.deleteCalls) + PodNames(toDelete)
      ensures client.createCalls == old(client.createCalls)
      ensures SubMap(client.LiveNow(), old(client.LiveNow()))
      ensures client.n.escapes == old(client.n).escapes ==> AllGone(toDelete, client.LiveNow())
      ensures client.n.losses == old(client.n).losses ==>
        OthersLive(toDelete, old(client.LiveNow()), client.LiveNow())
      ensures SubMap(client.ProxiesNow(), old(client.ProxiesNow()))
      ensures SubMap(Restrict(old(client.ProxiesNow()), UsedBy(WithoutIDs(listed, IDsOf(toDelete)))),
                     client.ProxiesNow())
      ensures client.OnlyRefused() ==>
        client.ProxiesNow() == Restrict(old(client.ProxiesNow()), UsedBy(WithoutIDs(listed, IDsOf(toDelete))))
      ensures client.n.leaks == old(client.n).leaks && old(client.SecretsThere()) ==> client.SecretsThere()
      ensures old(client.Healthy() && SubMap(client.LiveNow(), listed) && IDsAgree(toDelete, client.LiveNow())) ==>
        client.n.escapes == old(client.n).escapes ==> client.Healthy()
      ensures SecretsWent(client.world, old(client.ProxiesNow()), old(client.s).secrets, client.ProxiesNow(),
                          client.s.secrets, UsedBy(WithoutIDs(listed, IDsOf(toDelete))))
      ensures ok ==>
        client.n.faults - client.n.refusals >=
          old(client.n).faults - old(client.n).refusals
          + |client.ProxiesNow().Keys - UsedBy(WithoutIDs(listed, IDsOf(toDelete)))|
      ensures DistinctWorkers(toDelete) && AllLive(toDelete, old(client.LiveNow()))
              && client.n.losses == old(client.n).losses ==>
        client.OnlyOutages()
    {
      hide K8sResizer.Valid, Cluster.Valid, Cluster.Healthy, SoundState, HealthyState, Live, Proxies, SecretsPresent,
        ListsProxies, ListsWorkers, NeededBy, IDsOf, Restrict, UsedBy, WithoutIDs, PodNames, IDsAgree, AllNeeded,
        Follows, SecretsFollow, SecretsWent, DistinctWorkers, AllLive;
      ghost var others := WithoutIDs(listed, IDsOf(toDelete));
      var deletedIDs := DeletePods(toDelete);
      ghost var first := client.Now();
      var proxies := GetPoolProxies();
      FollowsTrans(old(client.Now()), first, client.Now());
      ghost var second := client.Now();
      ok := proxies.Some?;
      NothingRestricted(old(client.ProxiesNow()), UsedBy(others));
      NoSecretWent(client.world, client.ProxiesNow(), client.s.secrets, UsedBy(others));
      SecretsStay(client.world, old(client.Now()), second);
      if ok {
        var remainingWorkers := KeepOthers(allWorkers, deletedIDs);
        RemainingUse(allWorkers, listed, deletedIDs);
        if SubMap(old(client.LiveNow()), listed) && client.n.escapes == old(client.n).escapes
          && IDsAgree(toDelete, old(client.LiveNow())) {
          OthersAreLeft(toDelete, listed, old(client.LiveNow()), client.LiveNow());
          AllNeededBy(client.LiveNow(), others);
        }
        var kept := DeleteUnusedProxies(proxies.value, remainingWorkers);
        FollowsTrans(old(client.Now()), second, client.Now());
        SecretsFollowTrans(client.world, old(client.Now()), second, client.Now());
      }
    }

    // Keeping up with the templates

    method SplitWorkers(workers: seq<VersionedWorker>, latest: string)
      returns (toKeep: seq<VersionedWorker>, toDelete: seq<DeployedWorker>)
      ensures IsWorkerSplit(workers, latest, toKeep, toDelete)
    {
      hide IsWorkerSplit;
      toKeep, toDelete := [], [];
      EmptyWorkerSplit(latest);
      for i := 0 to |workers|
        invariant IsWorkerSplit(workers[..i], latest, toKeep, toDelete)
      {
        assert workers[..i + 1] == workers[..i] + [workers[i]];
        WorkerSplitGrows(workers[..i], workers[i], latest, toKeep, toDelete);
        if workers[i].checksum != latest {
          toDelete := toDelete + [workers[i].deployed];
        } else {
          toKeep := toKeep + [workers[i]];
        }
      }
      assert workers[..|workers|] == workers;
    }

    /** Delete the workers made from another template than the cached one; the others are kept.
        `listed` is what was live when the workers were listed. */
    method PurgeOutdatedWorkers(workers: seq<VersionedWorker>, ghost listed: LiveWorkers)
      returns (kept: Option<seq<VersionedWorker>>)
      requires Valid() && ListsWorkers(workers, listed) && SubMap(client.LiveNow(), listed)
      modifies client
      ensures Valid() && client.Later()
      ensures client.TidiesSecrets()
      ensures kept.None? ==> client.n.faults > old(client.n).faults && !client.OnlyRefused()
      ensures kept.Some? ==> ListsWorkers(kept.value, OfTemplate(listed, store.workerTemplate.checksum))
      ensures old(client.deleteCalls) <= client.deleteCalls && client.createCalls == old(client.createCalls)
      ensures forall p | p in client.deleteCalls[|old(client.deleteCalls)|..] ::
        p in listed && listed[p].checksum != store.workerTemplate.checksum
      ensures SubMap(client.LiveNow(), old(client.LiveNow()))
      ensures client.n.escapes == old(client.n).escapes ==>
        SubMap(client.LiveNow(), OfTemplate(listed, store.workerTemplate.checksum))
      ensures client.n.losses == old(client.n).losses ==>
        SubMap(OfTemplate(old(client.LiveNow()), store.workerTemplate.checksum), client.LiveNow())
      ensures SubMap(client.ProxiesNow(), old(client.ProxiesNow()))
      ensures client.OnlyRefused() && OfTemplate(listed, store.workerTemplate.checksum) != listed ==>
        client.ProxiesNow() ==
          Restrict(old(client.ProxiesNow()), UsedBy(Unshared(listed, store.workerTemplate.checksum)))
      ensures client.n.leaks == old(client.n).leaks && old(client.SecretsThere()) ==> client.SecretsThere()
      ensures old(client.Healthy()) && DistinctIDs(listed) ==> client.n.escapes == old(client.n).escapes ==>
        client.Healthy()
      ensures OfTemplate(listed, store.workerTemplate.checksum) == listed ==>
        client.n == old(client.n) && client.s == old(client.s)
      ensures kept.Some? && OfTemplate(listed, store.workerTemplate.checksum) != listed ==>
        client.n.faults - client.n.refusals >=
          old(client.n).faults - old(client.n).refusals
          + |client.ProxiesNow().Keys - UsedBy(Unshared(listed, store.workerTemplate.checksum))|
      ensures client.n.losses == old(client.n).losses && old(client.LiveNow()) == listed ==> client.OnlyOutages()
    {
      hide K8sResizer.Valid, Cluster.Valid, Cluster.Healthy, SoundState, HealthyState, Live, Proxies, SecretsPresent,
        Restrict, ListsWorkers, DistinctIDs, OfTemplate, WithoutIDs, IDsAgree, IsWorkerSplit, NeededBy, Remaining,
        IDsOf, PodNames, SecretsFollow, SecretsWent, DistinctWorkers, AllLive;
      var toKeep, toDelete := SplitWorkers(workers, store.workerTemplate.checksum);
      PurgeLists(workers, listed, store.workerTemplate.checksum, toKeep, toDelete, client.LiveNow());
      var ok := true;
      SecretsStay(client.world, client.Now(), client.Now());
      if |toDelete| > 0 {
        ok := DeleteListedWorkers(toDelete, workers, listed);
      }
      PurgeLeavesCurrent(listed, store.workerTemplate.checksum, toDelete, old(client.LiveNow()), client.LiveNow());
      if !ok {
        return None;
      }
      return Some(toKeep);
    }

    ghost function LatestProxyChecksum(): string
      reads store.proxyTemplate
    {
      store.GetPoolProxyPodTemplate().1
    }

    ghost predicate AllUpToDate(proxies: map<int, VersionedProxy>)
      reads store.proxyTemplate
    {
      AllMadeFrom(proxies, LatestProxyChecksum())
    }

    /** Deployments can be made from the cached proxy template. */
    ghost predicate ProxiesUsable()
      reads store.proxyTemplate
    {
      && store.config.usePoolProxy && store.proxyTemplate.spec.Some?
      && ProxyConfOf(client.world.keys, store.proxyTemplate.spec.value.annotations).Success?
    }

    /** Pods can be made from the cached worker template, and deployments if they need proxies. */
    ghost predicate Usable()
      reads store.workerTemplate, store.proxyTemplate
    {
      && store.workerTemplate.spec.Some?
      && var conf := WorkerConfOf(client.world.keys, store.workerTemplate.spec.value.annotations);
      && conf.Success? && (conf.value.usePoolProxy ==> ProxiesUsable())
    }

    /** These texts give usable templates. */
    ghost predicate TextsUsable(texts: Texts) {
      var (world, config) := (client.world, store.config);
      && Store.TextsParse(world, config, texts)
      && var text := CurrentText(texts, config.workerTemplateName, config.templateFile).value;
      && var conf := WorkerConfOf(world.keys, world.parse(text).value.annotations);
      && conf.Success?
      && (conf.value.usePoolProxy ==>
            && config.usePoolProxy
            && var proxyText := CurrentText(texts, config.poolProxyTemplateName, config.templateFile).value;
               ProxyConfOf(world.keys, world.parse(proxyText).value.annotations).Success?)
    }

    lemma TextsUsableParse(texts: Texts)
      ensures TextsUsable(texts) ==> Store.TextsParse(client.world, store.config, texts)
    {
    }

    lemma UsableNow()
      requires Valid()
      ensures store.UpToDate(client.texts) && TextsUsable(client.texts) ==> Usable()
    {
      hide Cluster.Valid, WorkerConfOf, ProxyConfOf, World.Conforms, World.Checksum;
      var config := store.config;
      if store.UpToDate(client.texts) && TextsUsable(client.texts) {
        CacheIsCurrent(client, store.workerTemplate, config.workerTemplateName, config.templateFile);
        if config.usePoolProxy {
          CacheIsCurrent(client, store.proxyTemplate, config.poolProxyTemplateName, config.templateFile);
        }
      }
    }

    lemma CachedConf()
      requires Valid()
      ensures store.workerTemplate.spec.Some?
      ensures client.world.WorkerConfFor(store.workerTemplate.checksum) ==
        WorkerConfOf(client.world.keys, store.workerTemplate.spec.value.annotations)
    {
      hide Cluster.Valid, WorkerConfOf, World.Checksum;
    }

    /** If no deployments can be made although the worker template is usable, its workers use none. */
    lemma NoProxyInUse()
      requires Valid()
      ensures Usable() ==> ProxiesUsable() || UsedBy(OfTemplate(client.LiveNow(), store.workerTemplate.checksum)) == {}
    {
      hide Live, PodOK, WorkerConfOf, ProxyConfOf, WorkerOfPod, World.WorkerConfFor, IsWorkerPod;
      SoundParts(client.world, client.s);
      CachedConf();
      var current := OfTemplate(client.LiveNow(), store.workerTemplate.checksum);
      forall n | n in current && Usable() && !ProxiesUsable()
        ensures !current[n].usesProxy
      {
        LiveEntry(client.world.keys, client.s.pods, n);
        PodParts(client.world, client.s.pods[n]);
      }
    }

    /** Proxies made from the cached template use a certificate. */
    ghost predicate NeedsSecret()
      reads store.proxyTemplate
    {
      var conf := client.world.ProxyConfFor(LatestProxyChecksum());
      conf.Success? && conf.value.useSecureCommunication
    }

    /** The deployment is what the cached template describes for the proxy it stands for. */
    ghost predicate IsDeploymentFromCache(d: Deployment)
      reads store.proxyTemplate
    {
      var p, (template, checksum) := ProxyOfDeployment(client.world.keys, d), store.GetPoolProxyPodTemplate();
      && p.Some? && template.Some? && p.value.checksum == checksum
      && var conf := ProxyConfOf(client.world.keys, template.value.annotations);
      && conf.Success? && IsProxyDeployment(client.world, template.value, conf.value, p.value.id, d)
    }

    lemma CachedDeployment(d: Deployment)
      requires store.Valid() && store.client == client && store.config.usePoolProxy && DeploymentOK(client.world, d)
      requires ProxyOfDeployment(client.world.keys, d).value.checksum == LatestProxyChecksum()
      ensures IsDeploymentFromCache(d)
    {
      hide ProxyOfDeployment, IsProxyDeployment, ProxyConfOf, World.Checksum;
    }

    /** Proxies up to date are proxies whose deployments are from the cached template. */
    lemma UpToDateAreFromCache()
      requires Valid() && store.config.usePoolProxy && AllUpToDate(client.ProxiesNow())
      ensures forall n | n in client.s.deployments :: IsDeploymentFromCache(client.s.deployments[n])
    {
      hide Proxies, ProxyOfDeployment, IsDeploymentFromCache, DeploymentOK, World.NameOfProxy;
      SoundParts(client.world, client.s);
      forall n | n in client.s.deployments
        ensures IsDeploymentFromCache(client.s.deployments[n])
      {
        ProxyFound(client.world, client.s.deployments, n);
        CachedDeployment(client.s.deployments[n]);
      }
    }

    /** A proxy that now needs a certificate gets one; a proxy that no longer does loses it. */
    method AdjustProxySecret(oldProxy: VersionedProxy, newProxy: VersionedProxy) returns (ok: bool)
      requires Valid()
      requires oldProxy.usesSecret ==> oldProxy.secretName == oldProxy.deploymentName
      requires newProxy.usesSecret ==> newProxy.secretName == oldProxy.deploymentName
      modifies client, `secretFailures
      ensures Valid() && client.OnlySecret(oldProxy.deploymentName) && client.OnlyOutages()
      ensures !ok ==> client.n.faults > old(client.n).faults
      ensures secretFailures == old(secretFailures) + if ok then 0 else 1
      ensures !ok ==> client.s.secrets == old(client.s).secrets
      ensures ok && newProxy.usesSecret ==> newProxy.secretName in client.s.secrets
      ensures newProxy.usesSecret && newProxy.secretName in old(client.s).secrets ==>
        client.s.secrets == old(client.s).secrets
      ensures !newProxy.usesSecret && !oldProxy.usesSecret ==> client.s.secrets == old(client.s).secrets
      ensures ok && !newProxy.usesSecret && oldProxy.usesSecret ==> oldProxy.secretName !in client.s.secrets
    {
      hide Cluster.Valid, Cluster.Healthy, SoundState, HealthyState, Live, Proxies;
      ok := true;
      if newProxy.usesSecret {
        ok := EnsureProxySecretExists(newProxy.secretName);
      } else if oldProxy.usesSecret {
        ok := EnsureNoProxySecret(oldProxy.secretName);
      }
      if !ok {
        secretFailures := secretFailures + 1;
      }
    }

    /** `after` is `before` with this proxy made anew from the cached template. */
    ghost predicate Renewed(before: map<int, VersionedProxy>, after: map<int, VersionedProxy>, id: int)
      reads store.proxyTemplate
    {
      id in after && after == before[id := after[id]] && after[id].checksum == LatestProxyChecksum()
    }

    method RenewProxy(oldProxy: VersionedProxy, spec: Deployment) returns (ok: bool)
      requires Valid() && client.HasProxy(oldProxy) && DeploymentOK(client.world, spec)
      requires var p := ProxyOfDeployment(client.world.keys, spec).value;
               p.id == oldProxy.id && p.checksum == LatestProxyChecksum()
      modifies client, `secretFailures
      ensures Valid() && client.KeepsPods() && client.OnlyOutages() && client.n.leaks == old(client.n).leaks
      ensures client.TidiesSecrets()
      ensures old(secretFailures) <= secretFailures
      ensures !ok ==> client.n.faults > old(client.n).faults
      ensures client.ProxiesNow() == old(client.ProxiesNow())
              || Renewed(old(client.ProxiesNow()), client.ProxiesNow(), oldProxy.id)
      ensures ok ==> Renewed(old(client.ProxiesNow()), client.ProxiesNow(), oldProxy.id)
      ensures ok ==>
        if NeedsSecret() then oldProxy.deploymentName in client.s.secrets
        else oldProxy.usesSecret ==> oldProxy.deploymentName !in client.s.secrets
      ensures secretFailures == old(secretFailures) && old(client.SecretsThere()) ==> client.SecretsThere()
      ensures old(client.Healthy()) ==> client.Healthy()
      ensures secretFailures > old(secretFailures) ==>
        !ok && Renewed(old(client.ProxiesNow()), client.ProxiesNow(), oldProxy.id)
          && client.s.secrets == old(client.s).secrets
      ensures secretFailures > old(secretFailures) && old(client.SecretsThere()) ==>
        (client.SecretsThere() <==> (NeedsSecret() ==> oldProxy.deploymentName in old(client.s).secrets))
      ensures OthersSame(old(client.s).secrets, client.s.secrets, {oldProxy.deploymentName})
      ensures NeedsSecret() && oldProxy.deploymentName in old(client.s).secrets ==>
        client.s.secrets == old(client.s).secrets
      ensures client.s.deployments ==
        if ok || secretFailures > old(secretFailures) then old(client.s).deployments[spec.name := spec]
        else old(client.s).deployments
    {
      hide Cluster.Valid, Cluster.Healthy, SoundState, HealthyState, Live, Proxies, DeploymentOK, ProxyOfDeployment,
        World.NameOfProxy, SecretsPresent, World.Conforms, Follows, SecretsFollow, UsesSecret, OthersSame, Tally.AtMost;
      ProxyNamed(client, oldProxy.id);
      if client.SecretsThere() {
        OthersKeepSecrets(client, oldProxy);
      }
      var newProxy := ProxyOfDeployment(client.world.keys, spec).value;
      NewProxyNamed(client.world, spec);
      NewProxySecure(client.world, spec);
      AllSame(client.s.secrets, {oldProxy.deploymentName});
      ok := client.UpdateDeployment(spec);
      ghost var mid := client.Now();
      if ok {
        ok := AdjustProxySecret(oldProxy, newProxy);
        FollowsTrans(old(client.Now()), mid, client.Now());
        if old(client.SecretsThere()) {
          SecretsAfterRenewal(old(client.ProxiesNow()), newProxy, old(client.s).secrets.Keys, client.s.secrets.Keys,
                              oldProxy.deploymentName);
          SecretsWithRenewed(old(client.ProxiesNow()), newProxy, old(client.s).secrets.Keys);
        }
      }
      SecretOfRenewed(client.world, old(client.Now()), client.Now(), oldProxy, newProxy, ok);
    }

    /** Give the proxy a deployment made from the cached template, then adjust its secret. */
    method UpdateProxy(oldProxy: VersionedProxy) returns (ok: bool)
      requires Valid() && client.HasProxy(oldProxy)
      modifies client, `secretFailures
      ensures Valid() && client.KeepsPods() && client.n.leaks == old(client.n).leaks
      ensures client.TidiesSecrets()
      ensures old(secretFailures) <= secretFailures
      ensures !ok ==> client.n.faults > old(client.n).faults
      ensures client.ProxiesNow() == old(client.ProxiesNow())
              || Renewed(old(client.ProxiesNow()), client.ProxiesNow(), oldProxy.id)
      ensures ok ==> Renewed(old(client.ProxiesNow()), client.ProxiesNow(), oldProxy.id)
      ensures ok ==>
        if NeedsSecret() then oldProxy.deploymentName in client.s.secrets
        else oldProxy.usesSecret ==> oldProxy.deploymentName !in client.s.secrets
      ensures secretFailures == old(secretFailures) && old(client.SecretsThere()) ==> client.SecretsThere()
      ensures old(client.Healthy()) ==> client.Healthy()
      ensures secretFailures > old(secretFailures) ==>
        !ok && Renewed(old(client.ProxiesNow()), client.ProxiesNow(), oldProxy.id)
          && client.s.secrets == old(client.s).secrets
      ensures secretFailures > old(secretFailures) && old(client.SecretsThere()) ==>
        (client.SecretsThere() <==> (NeedsSecret() ==> oldProxy.deploymentName in old(client.s).secrets))
      ensures OthersSame(old(client.s).secrets, client.s.secrets, {oldProxy.deploymentName})
      ensures NeedsSecret() && oldProxy.deploymentName in old(client.s).secrets ==>
        client.s.secrets == old(client.s).secrets
      ensures OthersSame(old(client.s).deployments, client.s.deployments, {oldProxy.deploymentName})
      ensures ok || secretFailures > old(secretFailures) ==>
        && oldProxy.deploymentName in client.s.deployments
        && IsDeploymentFromCache(client.s.deployments[oldProxy.deploymentName])
      ensures ProxiesUsable() ==> client.OnlyOutages()
    {
      hide IsProxyDeployment, ProxyConfOf, Cluster.Valid, Cluster.Healthy, SoundState, HealthyState, Live, Proxies,
        DeploymentOK, ProxyOfDeployment, World.NameOfProxy, SecretsPresent, World.Conforms, SecretsFollow, UsesSecret,
        IsDeploymentFromCache;
      ProxyNamed(client, oldProxy.id);
      ValidParts(client);
      var spec := specFactory.GetPoolProxyDeploymentSpec(oldProxy.id);
      if spec.Success? {
        NewProxyNamed(client.world, spec.value);
        CachedDeployment(spec.value);
        ok := RenewProxy(oldProxy, spec.value);
      } else {
        SecretsStay(client.world, client.Now(), client.Now().(n := client.n.(faults := client.n.faults + 1)));
        client.Fault();
        ok := false;
      }
    }

    /** Bring every outdated proxy of the list up to date; failures are passed over. */
    method UpdateProxies(toKeep: seq<VersionedProxy>)
      requires Valid() && DistinctProxies(toKeep)
      requires AreThere(toKeep, 0, client.ProxiesNow())
      modifies client, `secretFailures
      ensures Valid() && client.KeepsPods() && client.n.leaks == old(client.n).leaks
      ensures client.TidiesSecrets()
      ensures old(secretFailures) <= secretFailures
      ensures client.ProxiesNow().Keys == old(client.ProxiesNow()).Keys
      ensures client.n.faults == old(client.n).faults ==>
        ListedRenewed(toKeep, client.ProxiesNow(), LatestProxyChecksum())
      ensures client.n.faults >= old(client.n).faults +
        |StillOutdated(toKeep, client.ProxiesNow(), LatestProxyChecksum())|
      ensures CurrentUntouched(toKeep, client.ProxiesNow(), LatestProxyChecksum())
      ensures NoneOutdated(toKeep, LatestProxyChecksum()) ==>
        client.n == old(client.n) && client.s == old(client.s)
      ensures secretFailures == old(secretFailures) && old(client.SecretsThere()) ==> client.SecretsThere()
      ensures old(client.Healthy()) ==> client.Healthy()
      ensures NeedsSecret() ==> SubMap(old(client.s).secrets, client.s.secrets)
      ensures ProxiesUsable() || toKeep == [] ==> client.OnlyOutages()
    {
      hide K8sResizer.Valid, Cluster.Valid, Cluster.Healthy, Cluster.SecretsThere, SoundState, HealthyState, Live,
        Proxies, DistinctProxies, AreThere, ListedRenewed, NoneOutdated, Follows, StillOutdated, CurrentUntouched,
        SecretsFollow, OthersSame, IsDeploymentFromCache;
      var latestChecksum := store.GetPoolProxyPodTemplate().1;
      ResizerParts(this);
      FollowsRefl(client.Now());
      SecretsStay(client.world, client.Now(), client.Now());
      NoneRenewed(toKeep, client.ProxiesNow(), latestChecksum);
      assert toKeep[..0] == [];
      for i := 0 to |toKeep|
        invariant Valid() && client.KeepsPods() && client.n.leaks == old(client.n).leaks
        invariant old(secretFailures) <= secretFailures
        invariant client.ProxiesNow().Keys == old(client.ProxiesNow()).Keys && AreThere(toKeep, i, client.ProxiesNow())
        invariant client.n.faults == old(client.n).faults ==>
          ListedRenewed(toKeep[..i], client.ProxiesNow(), LatestProxyChecksum())
        invariant client.n.faults >=
          old(client.n).faults + |StillOutdated(toKeep[..i], client.ProxiesNow(), LatestProxyChecksum())|
        invariant CurrentUntouched(toKeep, client.ProxiesNow(), LatestProxyChecksum())
        invariant NoneOutdated(toKeep, LatestProxyChecksum()) ==>
          client.n == old(client.n) && client.s == old(client.s)
        invariant secretFailures == old(secretFailures) && old(client.SecretsThere()) ==> client.SecretsThere()
        invariant old(client.Healthy()) ==> client.Healthy()
        invariant NeedsSecret() ==> SubMap(old(client.s).secrets, client.s.secrets)
        invariant client.TidiesSecrets() && (ProxiesUsable() || toKeep == [] ==> client.OnlyOutages())
      {
        ghost var mid, proxies := client.Now(), client.ProxiesNow();
        NextIsThere(toKeep, i, proxies);
        RenewNext(toKeep, i, proxies, proxies, latestChecksum);
        OutdatedNext(toKeep, i, proxies, proxies, latestChecksum);
        if toKeep[i].checksum == latestChecksum {
          continue;
        }
        var ok := UpdateProxy(toKeep[i]);
        FollowsTrans(old(client.Now()), mid, client.Now());
        SecretsFollowTrans(client.world, old(client.Now()), mid, client.Now());
        RenewalKeepsSecrets(mid.s.secrets, client.s.secrets, toKeep[i].deploymentName);
        RenewNext(toKeep, i, proxies, client.ProxiesNow(), latestChecksum);
        OutdatedNext(toKeep, i, proxies, client.ProxiesNow(), latestChecksum);
        OthersUntouched(toKeep, i, proxies, client.ProxiesNow(), latestChecksum);
      }
      assert toKeep[..|toKeep|] == toKeep;
    }

    method TidyProxies(proxies: seq<VersionedProxy>, currentWorkers: seq<VersionedWorker>)
      requires Valid() && ListsProxies(proxies, client.ProxiesNow())
      modifies client, `secretFailures
      ensures Valid() && client.KeepsPods()
      ensures old(secretFailures) <= secretFailures
      ensures client.n.faults == old(client.n).faults ==>
        client.ProxiesNow().Keys == old(client.ProxiesNow()).Keys * NeededBy(currentWorkers)
          && AllUpToDate(client.ProxiesNow())
      ensures old(client.ProxiesNow().Keys <= NeededBy(currentWorkers) && AllUpToDate(client.ProxiesNow())) ==>
        client.n.writes == old(client.n).writes
      ensures client.n.leaks == old(client.n).leaks && secretFailures == old(secretFailures)
              && old(client.SecretsThere()) ==>
        client.SecretsThere()
      ensures old(client.Healthy() && AllNeeded(client.LiveNow(), NeededBy(currentWorkers))) ==> client.Healthy()
      ensures client.ProxiesNow().Keys <= old(client.ProxiesNow()).Keys
      ensures client.TidiesSecrets()
      ensures client.n.faults >=
        old(client.n).faults + |Untidy(client.ProxiesNow(), NeededBy(currentWorkers), LatestProxyChecksum())|
      ensures ProxiesUsable() || NeededBy(currentWorkers) == {} ==> client.OnlyOutages()
    {
      hide K8sResizer.Valid, Cluster.Valid, Cluster.Healthy, SoundState, HealthyState, Live, Proxies, SecretsPresent,
        NeededBy, ListsProxies, Restrict, DistinctProxies, AllNeeded, ListedRenewed, NoneOutdated, AllMadeFrom, SubMap,
        Follows, AreThere, SecretsFollow, SecretsWent, K8sResizer.ProxiesUsable;
      ResizerParts(this);
      ghost var known := client.ProxiesNow();
      ghost var live := client.LiveNow();
      var toKeep := DeleteUnusedProxies(proxies, currentWorkers);
      ghost var needed, mid := Restrict(known, NeededBy(currentWorkers)), client.LiveNow();
      RestrictedKeys(known, NeededBy(currentWorkers));
      SubMapKeys(client.ProxiesNow(), known);
      ListedAreThere(toKeep, needed, client.ProxiesNow());
      NothingOutdated(toKeep, known, NeededBy(currentWorkers), LatestProxyChecksum());
      ghost var moment, left := client.Now(), client.ProxiesNow();
      NoneToKeep(toKeep, known, NeededBy(currentWorkers));
      UpdateProxies(toKeep);
      FollowsTrans(old(client.Now()), moment, client.Now());
      SecretsFollowTrans(client.world, old(client.Now()), moment, client.Now());
      SubMapTrans(client.LiveNow(), mid, live);
      UntidyCount(toKeep, known, NeededBy(currentWorkers), left, client.ProxiesNow(), LatestProxyChecksum());
      AllRenewed(toKeep, needed, client.ProxiesNow(), LatestProxyChecksum());
    }

    /** Delete the proxies no listed worker uses and bring the others up to date. */
    method UpdateOutdatedProxies(currentWorkers: seq<VersionedWorker>) returns (ok: bool)
      requires Valid()
      modifies client, `secretFailures
      ensures Valid() && client.KeepsPods()
      ensures client.TidiesSecrets()
      ensures old(secretFailures) <= secretFailures
      ensures !ok ==> client.n.faults > old(client.n).faults
      ensures client.n.faults == old(client.n).faults ==>
        client.ProxiesNow().Keys == old(client.ProxiesNow()).Keys * NeededBy(currentWorkers)
          && AllUpToDate(client.ProxiesNow())
      ensures old(client.ProxiesNow().Keys <= NeededBy(currentWorkers) && AllUpToDate(client.ProxiesNow())) ==>
        client.n.writes == old(client.n).writes
      ensures client.n.leaks == old(client.n).leaks && secretFailures == old(secretFailures)
              && old(client.SecretsThere()) ==>
        client.SecretsThere()
      ensures old(client.Healthy() && AllNeeded(client.LiveNow(), NeededBy(currentWorkers))) ==> client.Healthy()
      ensures client.ProxiesNow().Keys <= old(client.ProxiesNow()).Keys
      ensures ok ==>
        client.n.faults >=
          old(client.n).faults + |Untidy(client.ProxiesNow(), NeededBy(currentWorkers), LatestProxyChecksum())|
      ensures ProxiesUsable() || NeededBy(currentWorkers) == {} ==> client.OnlyOutages()
    {
      hide AllMadeFrom, K8sResizer.Valid, Cluster.Valid, Cluster.Healthy, SoundState, HealthyState, Live, Proxies,
        SecretsPresent, NeededBy, ListsProxies, Restrict, DistinctProxies, SecretsFollow, Follows,
        K8sResizer.ProxiesUsable, Untidy;
      var proxies := GetPoolProxies();
      ok := proxies.Some?;
      ghost var mid := client.Now();
      SecretsStay(client.world, old(client.Now()), mid);
      FollowsParts(old(client.Now()), mid);
      if ok {
        NothingListed(proxies.value, client.ProxiesNow());
        NothingUntidy(client.ProxiesNow(), NeededBy(currentWorkers), LatestProxyChecksum());
        if |proxies.value| > 0 {
          TidyProxies(proxies.value, currentWorkers);
          FollowsTrans(old(client.Now()), mid, client.Now());
          SecretsFollowTrans(client.world, old(client.Now()), mid, client.Now());
        } else {
          NothingMade(client.ProxiesNow(), LatestProxyChecksum());
        }
      }
    }

    /** The pod is what the cached template describes for the worker it stands for. */
    ghost predicate IsFromCache(pod: Pod)
      reads store.workerTemplate
    {
      var w, template := WorkerOfPod(client.world.keys, pod), store.workerTemplate.spec;
      && w.Some? && template.Some? && w.value.checksum == store.workerTemplate.checksum
      && var conf := WorkerConfOf(client.world.keys, template.value.annotations);
      && conf.Success? && IsWorkerPod(client.world, template.value, conf.value, w.value, pod)
    }

    lemma CachedPod(pod: Pod)
      requires store.Valid() && store.client == client && PodOK(client.world, pod)
      requires WorkerOfPod(client.world.keys, pod).value.checksum == store.workerTemplate.checksum
      ensures IsFromCache(pod)
    {
      hide WorkerOfPod, IsWorkerPod, WorkerConfOf, World.Checksum;
    }

    /** All live workers are of the cached template, and all proxies are in use and up to date. */
    ghost predicate Tidy()
      reads client, store.workerTemplate, store.proxyTemplate
    {
      && OfTemplate(client.LiveNow(), store.workerTemplate.checksum) == client.LiveNow()
      && client.ProxiesNow().Keys <= UsedBy(client.LiveNow())
      && AllUpToDate(client.ProxiesNow())
    }

    /** All live pods and all deployments are what the cached templates describe. */
    ghost predicate AllFromCache()
      reads client, store.workerTemplate, store.proxyTemplate
    {
      && (forall n | n in client.LiveNow() :: n in client.s.pods && IsFromCache(client.s.pods[n]))
      && (store.config.usePoolProxy ==>
            forall n | n in client.s.deployments :: IsDeploymentFromCache(client.s.deployments[n]))
    }

    lemma TidyIsFromCache()
      requires Valid()
      ensures Tidy() ==> AllFromCache()
    {
      hide Proxies, DeploymentOK, PodOK, Live, IsFromCache, IsDeploymentFromCache, AllMadeFrom;
      SoundParts(client.world, client.s);
      forall n | n in client.LiveNow() && Tidy()
        ensures n in client.s.pods && IsFromCache(client.s.pods[n])
      {
        LiveEntry(client.world.keys, client.s.pods, n);
        CachedPod(client.s.pods[n]);
      }
      if store.config.usePoolProxy && AllUpToDate(client.ProxiesNow()) {
        UpToDateAreFromCache();
      }
    }

    /** Nothing to refresh, to purge, to delete or to update. */
    ghost predicate InOrder()
      reads client, store.workerTemplate, store.proxyTemplate
    {
      store.UpToDate(client.texts) && Tidy()
    }

    method Deployed(workers: seq<VersionedWorker>, ghost live: LiveWorkers) returns (deployed: seq<DeployedWorker>)
      requires ListsWorkers(workers, live)
      ensures ListsDeployed(deployed, live)
    {
      deployed := [];
      for i := 0 to |workers|
        invariant |deployed| == i
        invariant forall j | 0 <= j < i :: deployed[j] == workers[j].deployed
      {
        deployed := deployed + [workers[i].deployed];
      }
      forall n | n in live
        ensures live[n].deployed in deployed
      {
        var i :| 0 <= i < |workers| && workers[i] == live[n];
        assert deployed[i] == live[n].deployed;
      }
    }

    /** Tidy the proxies of these workers and return them as deployed; `current` is what `updated` lists. */
    method TidyFor(updated: seq<VersionedWorker>, ghost current: LiveWorkers)
      returns (workers: Option<seq<DeployedWorker>>)
      requires Valid() && ListsWorkers(updated, current)
      modifies client, `secretFailures
      ensures Valid() && client.KeepsPods() && old(secretFailures) <= secretFailures
      ensures workers.None? ==> client.n.faults > old(client.n).faults
      ensures workers.Some? ==> ListsDeployed(workers.value, current)
      ensures workers.Some? ==>
        client.n.faults >= old(client.n).faults + |Untidy(client.ProxiesNow(), UsedBy(current), LatestProxyChecksum())|
      ensures client.n.faults == old(client.n).faults ==>
        client.ProxiesNow().Keys == old(client.ProxiesNow()).Keys * UsedBy(current) && AllUpToDate(client.ProxiesNow())
      ensures old(client.ProxiesNow().Keys <= UsedBy(current) && AllUpToDate(client.ProxiesNow())) ==>
        client.n.writes == old(client.n).writes
      ensures client.n.leaks == old(client.n).leaks && secretFailures == old(secretFailures)
              && old(client.SecretsThere()) ==>
        client.SecretsThere()
      ensures old(client.Healthy() && SubMap(client.LiveNow(), current)) ==> client.Healthy()
      ensures client.ProxiesNow().Keys <= old(client.ProxiesNow()).Keys
      ensures ProxiesUsable() || UsedBy(current) == {} ==> client.OnlyOutages()
      ensures client.TidiesSecrets()
    {
      hide K8sResizer.Valid, Cluster.Valid, Cluster.Healthy, SoundState, HealthyState, Live, Proxies, SecretsPresent,
        NeededBy, UsedBy, ListsWorkers, ListsDeployed, AllNeeded, SubMap, Follows, AllMadeFrom, SecretsFollow, Untidy,
        K8sResizer.ProxiesUsable;
      NeededIsUsed(updated, current);
      AllNeededBy(client.LiveNow(), current);
      var ok := UpdateOutdatedProxies(updated);
      workers := None;
      if ok {
        var deployed := Deployed(updated, current);
        workers := Some(deployed);
      }
    }

    /** Purge outdated workers and tidy the proxies. The result lists the workers of the current
        template; `listed` is what was live when all workers were listed. */
    method UpdateWorkers(all: seq<VersionedWorker>, ghost listed: LiveWorkers)
      returns (workers: Option<seq<DeployedWorker>>)
      requires Valid() && ListsWorkers(all, listed) && SubMap(client.LiveNow(), listed)
      modifies client, `secretFailures
      ensures Valid() && client.Later() && old(secretFailures) <= secretFailures
      ensures workers.None? ==> client.n.faults > old(client.n).faults && !client.OnlyRefused()
      ensures SubMap(client.LiveNow(), old(client.LiveNow()))
      ensures workers.Some? ==> ListsDeployed(workers.value, OfTemplate(listed, store.workerTemplate.checksum))
      ensures workers.Some? && client.n.escapes == old(client.n).escapes ==>
        SubMap(client.LiveNow(), OfTemplate(listed, store.workerTemplate.checksum))
      ensures client.n.losses == old(client.n).losses ==>
        SubMap(OfTemplate(old(client.LiveNow()), store.workerTemplate.checksum), client.LiveNow())
      ensures old(client.deleteCalls) <= client.deleteCalls && client.createCalls == old(client.createCalls)
      ensures forall p | p in client.deleteCalls[|old(client.deleteCalls)|..] ::
        p in listed && listed[p].checksum != store.workerTemplate.checksum
      ensures client.ProxiesNow().Keys <= old(client.ProxiesNow()).Keys
      ensures client.OnlyRefused() ==>
        && client.ProxiesNow().Keys == KeptProxies(listed, old(client.ProxiesNow()).Keys, store.workerTemplate.checksum)
        && AllUpToDate(client.ProxiesNow())
      ensures old(OfTemplate(listed, store.workerTemplate.checksum) == listed
                  && client.ProxiesNow().Keys <= UsedBy(listed) && AllUpToDate(client.ProxiesNow())) ==>
        client.n.writes == old(client.n).writes
      ensures client.n.leaks == old(client.n).leaks && secretFailures == old(secretFailures)
              && old(client.SecretsThere()) ==>
        client.SecretsThere()
      ensures old(client.Healthy()) && DistinctIDs(listed) ==> client.n.escapes == old(client.n).escapes ==>
        client.Healthy()
      ensures client.TidiesSecrets()
      ensures workers.Some? ==>
        client.n.faults >= old(client.n).faults + |Untidy(client.ProxiesNow(),
                                                          UsedBy(OfTemplate(listed, store.workerTemplate.checksum)),
                                                          LatestProxyChecksum())|
      ensures Usable() && client.n.losses == old(client.n).losses && old(client.LiveNow()) == listed ==>
        client.OnlyOutages()
    {
      hide K8sResizer.Valid, Cluster.Valid, Cluster.Healthy, SoundState, HealthyState, Live, Proxies, SecretsPresent,
        NeededBy, UsedBy, ListsWorkers, ListsDeployed, OfTemplate, DistinctIDs, AllNeeded, World.Conforms,
        World.Checksum, Follows, Unshared, Restrict, AllMadeFrom, SecretsFollow, Untidy, K8sResizer.Usable,
        K8sResizer.ProxiesUsable;
      ghost var current := OfTemplate(listed, store.workerTemplate.checksum);
      workers := None;
      NoProxyInUse();
      var updated := PurgeOutdatedWorkers(all, listed);
      if updated.Some? {
        ghost var mid, purged := client.Now(), client.ProxiesNow();
        workers := TidyFor(updated.value, current);
        KeptKeys(listed, store.workerTemplate.checksum, old(client.ProxiesNow()), purged);
        FollowsTrans(old(client.Now()), mid, client.Now());
        SecretsFollowTrans(client.world, old(client.Now()), mid, client.Now());
      }
    }

    /** Refresh the templates and update the cluster to them; `listed` is what was just listed. */
    method RefreshAndUpdate(all: seq<VersionedWorker>, ghost listed: LiveWorkers)
      returns (workers: Option<seq<DeployedWorker>>)
      requires Valid() && ListsWorkers(all, listed) && client.LiveNow() == listed
      modifies client, store.workerTemplate, store.proxyTemplate, `secretFailures
      ensures Valid() && client.Later() && old(secretFailures) <= secretFailures
      ensures workers.None? ==> client.n.faults > old(client.n).faults && !client.OnlyRefused()
      ensures SubMap(client.LiveNow(), listed)
      ensures workers.Some? ==> ListsDeployed(workers.value, OfTemplate(listed, store.workerTemplate.checksum))
      ensures workers.Some? && client.n.escapes == old(client.n).escapes ==>
        SubMap(client.LiveNow(), OfTemplate(listed, store.workerTemplate.checksum))
      ensures client.n.losses == old(client.n).losses ==>
        SubMap(OfTemplate(listed, store.workerTemplate.checksum), client.LiveNow())
      ensures old(client.deleteCalls) <= client.deleteCalls && client.createCalls == old(client.createCalls)
      ensures forall p | p in client.deleteCalls[|old(client.deleteCalls)|..] ::
        p in listed && listed[p].checksum != store.workerTemplate.checksum
      ensures workers.Some? || |client.deleteCalls| > |old(client.deleteCalls)| ==>
        store.WasCurrent(store.workerTemplate.checksum, client.textHistory, |old(client.textHistory)| - 1)
      ensures client.ProxiesNow().Keys <= old(client.ProxiesNow()).Keys
      ensures client.OnlyRefused() ==>
        && client.ProxiesNow().Keys == KeptProxies(listed, old(client.ProxiesNow()).Keys, store.workerTemplate.checksum)
        && AllUpToDate(client.ProxiesNow())
        && (client.n.edits == old(client.n).edits ==> store.UpToDate(client.texts))
      ensures old(InOrder()) && client.n.losses == old(client.n).losses && client.n.edits == old(client.n).edits ==>
        client.n.writes == old(client.n).writes && InOrder()
          && store.workerTemplate.checksum == old(store.workerTemplate.checksum)
      ensures client.n.leaks == old(client.n).leaks && secretFailures == old(secretFailures)
              && old(client.SecretsThere()) ==>
        client.SecretsThere()
      ensures old(client.Healthy()) ==> client.n.escapes == old(client.n).escapes ==> client.Healthy()
      ensures client.TidiesSecrets()
      ensures TextsUsable(old(client.texts)) && client.n.edits == old(client.n).edits ==>
        (workers.Some? ==> Usable()) && (client.n.losses == old(client.n).losses ==> client.OnlyOutages())
    {
      hide Unshared, KeptProxies, Store.WasCurrent, AllMadeFrom, TextsConform, Store.IsChecksumOf, Cluster.Valid,
        Cluster.Healthy, SoundState, HealthyState, Live, Proxies, SecretsPresent, UsedBy, ListsWorkers, ListsDeployed,
        OfTemplate, DistinctIDs, World.Conforms, World.Checksum, Follows, SecretsFollow, K8sResizer.TextsUsable,
        K8sResizer.Usable, Untidy, Tally.AtMost, CurrentText;
      workers := None;
      ResizerParts(this);
      TextsUsableParse(client.texts);
      var ok := store.Refresh();
      OfTemplateShrinks(client.LiveNow(), listed);
      ghost var texts, mid := client.textHistory, client.Now();
      FollowsParts(old(client.Now()), mid);
      SecretsStay(client.world, old(client.Now()), mid);
      if ok {
        UsableNow();
        workers := UpdateWorkers(all, listed);
        FollowsTrans(old(client.Now()), mid, client.Now());
        SecretsFollowTrans(client.world, old(client.Now()), mid, client.Now());
        FollowsParts(mid, client.Now());
        store.StillWasCurrent(store.workerTemplate.checksum, texts, client.textHistory, |old(client.textHistory)| - 1,
                              |old(client.textHistory)| - 1);
      }
    }

    /** List the workers, refresh the templates, and update the cluster to them. */
    method GetAndUpdateWorkers()
      returns (workers: Option<seq<DeployedWorker>>, ghost listed: LiveWorkers)
      requires Valid()
      modifies client, store.workerTemplate, store.proxyTemplate, `secretFailures
      ensures Valid() && client.Later() && old(secretFailures) <= secretFailures
      ensures client.TidiesSecrets()
      ensures workers.None? ==> client.n.faults > old(client.n).faults && !client.OnlyRefused()
      ensures SubMap(listed, old(client.LiveNow())) && SubMap(client.LiveNow(), listed)
      ensures client.n.losses == old(client.n).losses ==> listed == old(client.LiveNow())
      ensures workers.Some? ==> ListsDeployed(workers.value, OfTemplate(listed, store.workerTemplate.checksum))
      ensures workers.Some? && client.n.escapes == old(client.n).escapes ==>
        SubMap(client.LiveNow(), OfTemplate(listed, store.workerTemplate.checksum))
      ensures client.n.losses == old(client.n).losses ==>
        SubMap(OfTemplate(old(client.LiveNow()), store.workerTemplate.checksum), client.LiveNow())
      ensures old(client.deleteCalls) <= client.deleteCalls && client.createCalls == old(client.createCalls)
      ensures forall p | p in client.deleteCalls[|old(client.deleteCalls)|..] ::
        p in listed && listed[p].checksum != store.workerTemplate.checksum
      ensures workers.Some? || |client.deleteCalls| > |old(client.deleteCalls)| ==>
        store.WasCurrent(store.workerTemplate.checksum, client.textHistory, |old(client.textHistory)| - 1)
      ensures client.ProxiesNow().Keys <= old(client.ProxiesNow()).Keys
      ensures client.OnlyRefused() ==>
        && client.ProxiesNow().Keys == KeptProxies(listed, old(client.ProxiesNow()).Keys, store.workerTemplate.checksum)
        && AllUpToDate(client.ProxiesNow())
        && (client.n.edits == old(client.n).edits ==> store.UpToDate(client.texts))
      ensures old(InOrder()) && client.n.losses == old(client.n).losses && client.n.edits == old(client.n).edits ==>
        client.n.writes == old(client.n).writes && InOrder()
          && store.workerTemplate.checksum == old(store.workerTemplate.checksum)
      ensures client.n.leaks == old(client.n).leaks && secretFailures == old(secretFailures)
              && old(client.SecretsThere()) ==>
        client.SecretsThere()
      ensures old(client.Healthy()) ==> client.n.escapes == old(client.n).escapes ==> client.Healthy()
      ensures client.OnlyRefused() && store.config.usePoolProxy ==>
        forall n | n in client.s.deployments :: IsDeploymentFromCache(client.s.deployments[n])
      ensures TextsUsable(old(client.texts)) && client.n.edits == old(client.n).edits ==>
        (workers.Some? ==> Usable()) && (client.n.losses == old(client.n).losses ==> client.OnlyOutages())
    {
      hide Unshared, KeptProxies, Store.WasCurrent, K8sResizer.Valid, AllMadeFrom, TextsConform, Store.IsChecksumOf,
        Cluster.Valid, Cluster.Healthy, SoundState, HealthyState, Live, Proxies, SecretsPresent, UsedBy, ListsWorkers,
        ListsDeployed, OfTemplate, DistinctIDs, World.Conforms, World.Checksum, SecretsFollow, Follows,
        IsDeploymentFromCache, K8sResizer.TextsUsable, K8sResizer.Usable, Untidy;
      workers := None;
      var all := GetWorkers();
      listed := client.LiveNow();
      OfTemplateShrinks(client.LiveNow(), old(client.LiveNow()));
      ghost var texts, mid := client.textHistory, client.Now();
      FollowsParts(old(client.Now()), mid);
      SecretsStay(client.world, old(client.Now()), mid);
      if all.Some? {
        workers := RefreshAndUpdate(all.value, listed);
        FollowsTrans(old(client.Now()), mid, client.Now());
        FollowsParts(old(client.Now()), client.Now());
        SecretsFollowTrans(client.world, old(client.Now()), mid, client.Now());
        store.StillWasCurrent(store.workerTemplate.checksum, client.textHistory, client.textHistory, |texts| - 1,
                              |old(client.textHistory)| - 1);
      }
      if store.config.usePoolProxy && AllUpToDate(client.ProxiesNow()) {
        UpToDateAreFromCache();
      }
    }

    /** Delete the workers, as far as they are still there, and then the proxies nobody uses. `listed` is
        what was live when all workers were listed. */
    method DeleteWorkers(workers: seq<DeployedWorker>)
      returns (ok: bool, ghost listed: LiveWorkers)
      requires Valid()
      modifies client
      ensures Valid() && client.Later()
      ensures client.TidiesSecrets()
      ensures !ok ==> client.n.faults > old(client.n).faults && !client.OnlyRefused()
      ensures SubMap(listed, old(client.LiveNow())) && SubMap(client.LiveNow(), listed)
      ensures client.n.losses == old(client.n).losses ==> listed == old(client.LiveNow())
      ensures client.n.losses == old(client.n).losses ==>
        OthersLive(workers, old(client.LiveNow()), client.LiveNow())
      ensures SubMap(client.ProxiesNow(), old(client.ProxiesNow()))
      ensures client.n.faults == old(client.n).faults ==> AllGone(workers, client.LiveNow())
      ensures client.OnlyRefused() ==>
        client.ProxiesNow() == Restrict(old(client.ProxiesNow()), UsedBy(WithoutIDs(listed, IDsOf(workers))))
      ensures client.n.leaks == old(client.n).leaks && old(client.SecretsThere()) ==> client.SecretsThere()
      ensures old(client.Healthy() && IDsAgree(workers, client.LiveNow())) ==>
        client.n.escapes == old(client.n).escapes ==> client.Healthy()
      ensures client.deleteCalls == old(client.deleteCalls)
              || client.deleteCalls == old(client.deleteCalls) + PodNames(workers)
      ensures SecretsWent(client.world, old(client.ProxiesNow()), old(client.s).secrets, client.ProxiesNow(),
                          client.s.secrets, UsedBy(WithoutIDs(listed, IDsOf(workers))))
      ensures DistinctWorkers(workers) && AllLive(workers, old(client.LiveNow()))
              && client.n.losses == old(client.n).losses ==>
        client.OnlyOutages()
    {
      hide K8sResizer.Valid, Cluster.Valid, Cluster.Healthy, SoundState, HealthyState, Live, Proxies, SecretsPresent,
        UsedBy, Restrict, IDsOf, WithoutIDs, ListsWorkers, PodNames, SecretsFollow, SecretsWent, Follows,
        DistinctWorkers, AllLive;
      var allWorkers := GetWorkers();
      listed := client.LiveNow();
      ok := allWorkers.Some?;
      ghost var mid := client.Now();
      NoSecretWent(client.world, client.ProxiesNow(), client.s.secrets, UsedBy(WithoutIDs(listed, IDsOf(workers))));
      SecretsStay(client.world, old(client.Now()), mid);
      FollowsParts(old(client.Now()), mid);
      if ok {
        ok := DeleteListedWorkers(workers, allWorkers.value, listed);
        FollowsTrans(old(client.Now()), mid, client.Now());
        SecretsFollowTrans(client.world, old(client.Now()), mid, client.Now());
      }
    }

    // Adding workers

    ghost predicate SpecsOK(specs: seq<Pod>)
      reads store.workerTemplate
    {
      SpecsMade(client.world, store.workerTemplate.checksum, specs)
    }

    /** Create a worker pod for each spec; failures are passed over. */
    method CreatePods(specs: seq<Pod>) returns (workersWereAdded: bool)
      requires Valid() && SpecsOK(specs) && DistinctPodIDs(client.world.keys, specs)
      requires ProxiesThere(client.world.keys, specs, client.ProxiesNow())
      requires NoneHasID(OfTemplate(client.LiveNow(), store.workerTemplate.checksum), PodIDs(client.world.keys, specs))
      modifies client
      ensures Valid() && client.Later() && client.OnlyOutages() && client.n.escapes == old(client.n).escapes
              && client.n.leaks == old(client.n).leaks
      ensures client.deleteCalls == old(client.deleteCalls) && client.n.writes == old(client.n).writes + |specs|
      ensures client.createCalls == old(client.createCalls) + specs
      ensures client.s.deployments == old(client.s).deployments && client.s.secrets == old(client.s).secrets
      ensures Grew(old(client.FleetNow()), client.FleetNow(), store.workerTemplate.checksum,
                   PodIDs(client.world.keys, specs))
      ensures client.n.losses == old(client.n).losses && client.n.faults == old(client.n).faults ==>
        AreNew(client.world.keys, specs, old(client.LiveNow()), client.LiveNow())
      ensures !workersWereAdded ==> SubMap(client.LiveNow(), old(client.LiveNow()))
      ensures workersWereAdded <==> client.n.faults < old(client.n).faults + |specs|
      ensures old(client.Healthy() && NoneHasID(client.LiveNow(), PodIDs(client.world.keys, specs))) ==>
        client.Healthy()
      ensures PodsFrom(old(client.s).pods, specs, client.s.pods)
    {
      hide Cluster.Valid, Cluster.Healthy, SoundState, HealthyState, Live, Proxies, PodOK, WorkerOfPod, OfTemplate,
        PodIDs, NoneHasID, Grew, AreNew, DistinctPodIDs, ProxiesThere, Follows, PodsFrom;
      workersWereAdded := false;
      FollowsRefl(client.Now());
      ghost var keys, latest, start := client.world.keys, store.workerTemplate.checksum, client.FleetNow();
      PodIDsEmpty(keys);
      NothingAdded(start, latest, keys);
      for i := 0 to |specs|
        invariant Valid() && client.Later() && client.n.escapes == old(client.n).escapes
                  && client.n.leaks == old(client.n).leaks
        invariant client.deleteCalls == old(client.deleteCalls) && client.n.writes == old(client.n).writes + i
        invariant client.createCalls == old(client.createCalls) + specs[..i]
        invariant client.s.deployments == old(client.s).deployments && client.s.secrets == old(client.s).secrets
        invariant Grew(start, client.FleetNow(), latest, PodIDs(keys, specs[..i]))
        invariant client.n.losses == old(client.n).losses && client.n.faults == old(client.n).faults ==>
          AreNew(keys, specs[..i], old(client.LiveNow()), client.LiveNow())
        invariant !workersWereAdded ==> SubMap(client.LiveNow(), old(client.LiveNow()))
        invariant client.n.faults <= old(client.n).faults + i && client.OnlyOutages()
        invariant workersWereAdded <==> client.n.faults < old(client.n).faults + i
        invariant old(client.Healthy() && NoneHasID(client.LiveNow(), PodIDs(keys, specs))) ==> client.Healthy()
      {
        ghost var now, moment := client.FleetNow(), client.Now();
        PodIDsNext(keys, specs, i);
        ItsProxyThere(keys, specs, i, now.proxies);
        NextIDFree(start, now, latest, keys, specs, i);
        assert specs[..i + 1] == specs[..i] + [specs[i]];
        var ok, mid := client.CreatePod(specs[i]);
        FollowsTrans(old(client.Now()), moment, client.Now());
        AddStep(start, now, mid, client.FleetNow(), latest, keys, specs, i, ok);
        if ok {
          workersWereAdded := true;
        }
      }
      assert specs[..|specs|] == specs;
      FollowsParts(old(client.Now()), client.Now());
      assert client.createCalls[|old(client.createCalls)|..] == specs;
    }

    /** Proxies that were not there before are made from the cached template. */
    ghost predicate NewUpToDate(before: map<int, VersionedProxy>, after: map<int, VersionedProxy>)
      reads store.proxyTemplate
    {
      NewMadeFrom(before, after, LatestProxyChecksum())
    }

    lemma NewUnchanged(before: map<int, VersionedProxy>, after: map<int, VersionedProxy>)
      requires SubMap(after, before)
      ensures NewUpToDate(before, after)
    {
    }

    lemma NewTwice(before: map<int, VersionedProxy>, mid: map<int, VersionedProxy>, after: map<int, VersionedProxy>)
      requires NewUpToDate(before, mid) && NewUpToDate(mid, after)
      ensures NewUpToDate(before, after)
    {
    }

    /** What a new proxy's secret takes: nothing without one, two writes if one is left over from an earlier proxy. */
    function SecretWrites(p: VersionedProxy, secrets: map<string, SecretData>): nat {
      if !p.usesSecret then 0 else if p.secretName in secrets then 2 else 1
    }

    /** A proxy that needs a certificate gets a new one before it is created. */
    method SecureNewProxy(p: VersionedProxy) returns (ok: bool)
      requires Valid() && p.id !in client.ProxiesNow()
      requires p.usesSecret ==> p.secretName == client.world.NameOfProxy(p.id)
      modifies client
      ensures Valid() && client.OnlySecret(p.secretName) && client.OnlyOutages()
      ensures !ok ==> client.n.faults > old(client.n).faults
      ensures ok && p.usesSecret ==>
        p.secretName in client.s.secrets && client.s.secrets[p.secretName].Keys == {proxyCertFile}
      ensures !p.usesSecret ==> client.s.secrets == old(client.s).secrets
      ensures ok ==> client.n.writes == old(client.n).writes + SecretWrites(p, old(client.s).secrets)
      ensures old(client.SecretsThere()) ==> client.SecretsThere()
    {
      hide Cluster.Valid, Cluster.Healthy, SoundState, HealthyState, Live, Proxies, World.NameOfProxy, SecretsPresent;
      if !p.usesSecret {
        return true;
      }
      if client.SecretsThere() {
        NewSecretUnused(client, p.id);
      }
      ok := CreateOrOverwriteProxySecret(p.secretName);
      if old(client.SecretsThere()) {
        MoreSecrets(client.ProxiesNow(), old(client.s).secrets.Keys - {p.secretName}, client.s.secrets.Keys);
      }
    }

    /** First the certificate secret of a new proxy, if it needs one, then its deployment. */
    method MakeProxy(spec: Deployment) returns (proxy: Option<VersionedProxy>)
      requires Valid() && DeploymentOK(client.world, spec)
      requires var p := ProxyOfDeployment(client.world.keys, spec).value;
               p.checksum == LatestProxyChecksum() && p.id !in client.ProxiesNow()
      modifies client
      ensures Valid() && client.KeepsPods() && client.OnlyOutages() && client.n.leaks == old(client.n).leaks
      ensures client.TidiesSecrets()
      ensures proxy.None? ==> client.n.faults > old(client.n).faults && client.ProxiesNow() == old(client.ProxiesNow())
      ensures proxy.Some? ==> proxy == ProxyOfDeployment(client.world.keys, spec) && client.HasProxy(proxy.value)
      ensures proxy.Some? ==> Renewed(old(client.ProxiesNow()), client.ProxiesNow(), proxy.value.id)
      ensures old(client.SecretsThere()) ==> client.SecretsThere()
      ensures old(client.Healthy()) ==> client.Healthy()
      ensures proxy.Some? ==> client.s.deployments == old(client.s).deployments[spec.name := spec]
      ensures proxy.Some? && proxy.value.usesSecret ==>
        && proxy.value.secretName in client.s.secrets
        && client.s.secrets[proxy.value.secretName].Keys == {proxyCertFile}
      ensures proxy.Some? ==>
        client.n.writes == old(client.n).writes + SecretWrites(proxy.value, old(client.s).secrets) + 1
    {
      hide OthersSame, Cluster.Valid, Cluster.Healthy, SoundState, HealthyState, Live, Proxies, DeploymentOK,
        ProxyOfDeployment, World.NameOfProxy, SecretsPresent, World.Conforms, Follows, SecretsFollow, UsesSecret;
      NewProxyNamed(client.world, spec);
      var metadata := ProxyOfDeployment(client.world.keys, spec).value;
      AllSame(client.s.secrets, {client.world.NameOfProxy(metadata.id)});
      NameIsFree(client, metadata.id);
      var ok := SecureNewProxy(metadata);
      ghost var mid := client.Now();
      if ok {
        ok := client.CreateDeployment(spec);
        FollowsTrans(old(client.Now()), mid, client.Now());
        SecretsWithNewProxy(old(client.ProxiesNow()), metadata, client.s.secrets.Keys);
      }
      SecretOfMade(client.world, old(client.Now()), client.Now(), metadata, ok);
      return if ok then Some(metadata) else None;
    }

    /** Create a proxy from the cached template. */
    method AddPoolProxy(id: int) returns (proxy: Option<VersionedProxy>)
      requires Valid() && 1 <= id && IsInt(id) && ProxyAllowed(client.world, id) && id !in client.ProxiesNow()
      modifies client
      ensures Valid() && client.KeepsPods() && client.n.leaks == old(client.n).leaks
      ensures proxy.None? ==> client.n.faults > old(client.n).faults && client.ProxiesNow() == old(client.ProxiesNow())
      ensures proxy.Some? ==> proxy.value.id == id && client.HasProxy(proxy.value)
      ensures proxy.Some? ==> Renewed(old(client.ProxiesNow()), client.ProxiesNow(), id)
      ensures NewUpToDate(old(client.ProxiesNow()), client.ProxiesNow()) && client.TidiesSecrets()
      ensures old(client.SecretsThere()) ==> client.SecretsThere()
      ensures old(client.Healthy()) ==> client.Healthy()
      ensures proxy.Some? ==>
        && proxy.value.deploymentName in client.s.deployments
        && IsDeploymentFromCache(client.s.deployments[proxy.value.deploymentName])
        && OthersSame(old(client.s).deployments, client.s.deployments, {proxy.value.deploymentName})
      ensures proxy.Some? && proxy.value.usesSecret ==>
        && proxy.value.secretName in client.s.secrets
        && client.s.secrets[proxy.value.secretName].Keys == {proxyCertFile}
      ensures ProxiesUsable() ==> client.OnlyOutages()
    {
      hide IsProxyDeployment, ProxyConfOf, Cluster.Valid, Cluster.Healthy, SoundState, HealthyState, Live, Proxies,
        DeploymentOK, ProxyOfDeployment, World.NameOfProxy, SecretsPresent, World.Conforms, Follows,
        Cluster.SecretsThere, SecretsFollow, IsDeploymentFromCache;
      ValidParts(client);
      var spec := specFactory.GetPoolProxyDeploymentSpec(id);
      if spec.Success? {
        NewProxyNamed(client.world, spec.value);
        CachedDeployment(spec.value);
        proxy := MakeProxy(spec.value);
      } else {
        SecretsStay(client.world, client.Now(), client.Now().(n := client.n.(faults := client.n.faults + 1)));
        client.Fault();
        proxy := None;
      }
    }

    /** Create the workers of a new proxy; without any, the proxy goes again. */
    method FillProxy(proxy: VersionedProxy, workers: seq<Pod>) returns (stop: bool, ok: bool)
      requires Valid() && SpecsOK(workers) && workers != [] && DistinctPodIDs(client.world.keys, workers)
      requires AllUseProxy(client.world.keys, workers, proxy.id) && client.HasProxy(proxy)
      requires NoneHasID(OfTemplate(client.LiveNow(), store.workerTemplate.checksum),
                         PodIDs(client.world.keys, workers))
      modifies client
      ensures Valid() && client.Later() && client.OnlyOutages() && client.n.escapes == old(client.n).escapes
      ensures client.deleteCalls == old(client.deleteCalls)
      ensures client.createCalls == old(client.createCalls) + workers
      ensures stop || !ok ==> client.n.faults > old(client.n).faults
      ensures Grew(old(client.FleetNow()).(proxies := old(client.ProxiesNow()) - {proxy.id}), client.FleetNow(),
                   store.workerTemplate.checksum, PodIDs(client.world.keys, workers))
      ensures client.ProxiesNow() in {old(client.ProxiesNow()), old(client.ProxiesNow()) - {proxy.id}}
      ensures if stop then SubMap(client.LiveNow(), old(client.LiveNow()))
        else client.ProxiesNow() == old(client.ProxiesNow())
      ensures stop && ok ==> proxy.id !in client.ProxiesNow()
      ensures !stop ==> ok && client.n.faults < old(client.n).faults + |workers|
      ensures NewUpToDate(old(client.ProxiesNow()), client.ProxiesNow()) && client.TidiesSecrets()
      ensures client.n.leaks == old(client.n).leaks && old(client.SecretsThere()) ==> client.SecretsThere()
      ensures old(client.Healthy() && Unused(client.LiveNow(), proxy.id)
                  && NoneHasID(client.LiveNow(), PodIDs(client.world.keys, workers))) ==>
        client.Healthy()
    {
      hide K8sResizer.Valid, Cluster.Valid, Cluster.Healthy, SoundState, HealthyState, Live, Proxies, PodOK,
        WorkerOfPod, OfTemplate, PodIDs, NoneHasID, Grew, AreNew, DistinctPodIDs, SecretsPresent, ProxiesThere,
        AllUseProxy, UsedBy, Newcomers, World.NameOfProxy, Follows, SecretsFollow, NewUpToDate;
      stop, ok := false, true;
      ghost var ids, latest, start := PodIDs(client.world.keys, workers), store.workerTemplate.checksum,
        client.FleetNow();
      UsersHaveProxy(client.world.keys, workers, proxy.id, client.ProxiesNow());
      var workersWereAdded := CreatePods(workers);
      ghost var mid, moment := client.FleetNow(), client.Now();
      SecretsStay(client.world, old(client.Now()), moment);
      NewUnchanged(old(client.ProxiesNow()), client.ProxiesNow());
      UsersAreNew(client.world.keys, workers, proxy.id, start.workers, mid.workers);
      if workersWereAdded {
        GrewWithProxy(start, mid, latest, ids, proxy.id);
        return;
      }
      stop := true;
      ok := DeletePoolProxy(proxy);
      FollowsTrans(old(client.Now()), moment, client.Now());
      SecretsFollowTrans(client.world, old(client.Now()), moment, client.Now());
      NewUnchanged(old(client.ProxiesNow()), client.ProxiesNow());
      GrewInVain(start, mid, client.FleetNow(), latest, ids);
      GrewNothing(start.(proxies := start.proxies - {proxy.id}), client.FleetNow(), latest, ids);
    }

    /** Create a proxy and the workers that need it. If no worker could be created, the proxy is
        removed again and the whole resize stops. */
    method AddProxyWithWorkers(proxyID: int, workers: seq<Pod>) returns (stop: bool, ok: bool)
      requires Valid() && SpecsOK(workers) && workers != [] && DistinctPodIDs(client.world.keys, workers)
      requires AllUseProxy(client.world.keys, workers, proxyID) && proxyID !in client.ProxiesNow()
      requires NoneHasID(OfTemplate(client.LiveNow(), store.workerTemplate.checksum),
                         PodIDs(client.world.keys, workers))
      modifies client
      ensures Valid() && client.Later() && client.n.escapes == old(client.n).escapes
      ensures client.deleteCalls == old(client.deleteCalls)
      ensures client.createCalls == old(client.createCalls) +
        if stop || proxyID in client.ProxiesNow() then workers else []
      ensures CallsMade(client.world, store.workerTemplate.checksum, old(client.createCalls), client.createCalls)
      ensures stop || !ok || proxyID !in client.ProxiesNow() ==> client.n.faults > old(client.n).faults
      ensures Grew(old(client.FleetNow()), client.FleetNow(), store.workerTemplate.checksum,
                   PodIDs(client.world.keys, workers))
      ensures old(client.ProxiesNow()).Keys <= client.ProxiesNow().Keys <= old(client.ProxiesNow()).Keys + {proxyID}
      ensures stop || proxyID !in client.ProxiesNow() ==> SubMap(client.LiveNow(), old(client.LiveNow()))
      ensures stop && ok ==> proxyID !in client.ProxiesNow()
      ensures NewUpToDate(old(client.ProxiesNow()), client.ProxiesNow()) && client.TidiesSecrets()
      ensures client.n.leaks == old(client.n).leaks && old(client.SecretsThere()) ==> client.SecretsThere()
      ensures old(client.Healthy() && NoneHasID(client.LiveNow(), PodIDs(client.world.keys, workers))) ==>
        client.Healthy()
      ensures ProxiesUsable() ==> client.OnlyOutages()
      ensures !stop ==> ok
    {
      hide K8sResizer.Valid, AllMadeFrom, Cluster.Valid, Cluster.Healthy, SoundState, HealthyState, Live, Proxies,
        PodOK, WorkerOfPod, OfTemplate, PodIDs, NoneHasID, Grew, DistinctPodIDs, SecretsPresent, World.NameOfProxy,
        SubMap, CallsMade, SecretsFollow, NewUpToDate, Follows, IsDeploymentFromCache, OthersSame;
      stop, ok := false, true;
      ghost var ids, latest, start := PodIDs(client.world.keys, workers), store.workerTemplate.checksum,
        client.FleetNow();
      ResizerParts(this);
      MoreCallsMade(client.world, latest, client.createCalls, workers);
      ProxyIDFits(client.world, workers, proxyID);
      var proxy := AddPoolProxy(proxyID);
      ghost var mid, moment := client.FleetNow(), client.Now();
      FollowsParts(old(client.Now()), moment);
      UnusedIfMissing(start.workers, start.proxies, mid.workers, proxyID);
      StillFree(start.workers, mid.workers, latest, ids);
      if proxy.None? {
        SubMapRefl(start.proxies);
        GrewNothing(start, mid, latest, ids);
      } else {
        ghost var bare := mid.(proxies := mid.proxies - {proxyID});
        assert bare.proxies == start.proxies;
        SubMapRefl(start.proxies);
        GrewNothing(start, bare, latest, {});
        stop, ok := FillProxy(proxy.value, workers);
        FollowsTrans(old(client.Now()), moment, client.Now());
        SecretsFollowTrans(client.world, old(client.Now()), moment, client.Now());
        NewTwice(start.proxies, mid.proxies, client.ProxiesNow());
        GrewTwice(start, bare, client.FleetNow(), latest, {}, ids);
        assert {} + ids == ids;
        if stop {
          SubMapTrans(client.LiveNow(), mid.workers, start.workers);
        }
      }
    }

    /** Create each new proxy with its workers, in any order, until one stays without workers. */
    method AddNewProxies(newProxies: map<int, seq<Pod>>) returns (ok: bool, ghost stopped: Option<int>)
      requires Valid() && NewProxiesMade(client.world, store.workerTemplate.checksum, newProxies)
               && DisjointIDs(client.world.keys, newProxies)
      requires newProxies.Keys !! client.ProxiesNow().Keys
      requires NoneHasID(OfTemplate(client.LiveNow(), store.workerTemplate.checksum),
                         AllPodIDs(client.world.keys, newProxies))
      modifies client
      ensures Valid() && client.Later() && client.n.escapes == old(client.n).escapes
      ensures client.deleteCalls == old(client.deleteCalls)
      ensures CallsMade(client.world, store.workerTemplate.checksum, old(client.createCalls), client.createCalls)
      ensures !ok ==> stopped.Some? && client.n.faults > old(client.n).faults
      ensures GroupsAttempted(client.world.keys, newProxies,
                              CallsSince(client.world.keys, old(client.createCalls), client.createCalls),
                              old(client.FleetNow()), client.FleetNow(), stopped)
      ensures CallsSince(client.world.keys, old(client.createCalls), client.createCalls) <=
        AllPodIDs(client.world.keys, newProxies)
      ensures Grew(old(client.FleetNow()), client.FleetNow(), store.workerTemplate.checksum,
                   AllPodIDs(client.world.keys, newProxies))
      ensures NewUpToDate(old(client.ProxiesNow()), client.ProxiesNow()) && client.TidiesSecrets()
      ensures client.n.leaks == old(client.n).leaks && old(client.SecretsThere()) ==> client.SecretsThere()
      ensures old(client.Healthy() && NoneHasID(client.LiveNow(), AllPodIDs(client.world.keys, newProxies))) ==>
        client.Healthy()
      ensures ProxiesUsable() || newProxies == map[] ==> client.OnlyOutages()
    {
      hide K8sResizer.Valid, Cluster.SecretsThere, Cluster.HasProxy, SpecsMade, SubMap, Cluster.Valid, Cluster.Healthy,
        SoundState, HealthyState, Live, Proxies, PodOK, WorkerOfPod, OfTemplate, PodIDs, NoneHasID, Grew,
        DistinctPodIDs, SecretsPresent, AllUseProxy, UsedBy, World.NameOfProxy, AllUpToDate, DisjointIDs, AllPodIDs,
        GroupsTried, GroupsAttempted, CallsSince, Newcomers, Tried, Progress, NewProxiesMade, Cluster.LiveNow,
        Cluster.ProxiesNow, Follows, CallsMade, SecretsFollow, NewUpToDate, K8sResizer.ProxiesUsable;
      ghost var keys, latest, start := client.world.keys, store.workerTemplate.checksum, client.FleetNow();
      ghost var begin := client.Now();
      FollowsRefl(begin);
      ghost var calls := client.createCalls;
      ghost var healthy := client.Healthy() && NoneHasID(start.workers, AllPodIDs(keys, newProxies));
      ghost var secretsThere := client.SecretsThere();
      SecretsStay(client.world, begin, begin);
      SubMapRefl(start.proxies);
      NewUnchanged(start.proxies, start.proxies);
      var rest := newProxies.Keys;
      ghost var tried: set<int> := {};
      NothingAdded(start, latest, keys);
      NoProgress(keys, newProxies, calls, start);
      NoCallsMade(client.world, latest, calls);
      while rest != {}
        invariant Valid() && client.Later() && client.n.escapes == old(client.n).escapes
        invariant client.deleteCalls == old(client.deleteCalls)
        invariant CallsMade(client.world, latest, calls, client.createCalls) && calls <= client.createCalls
        invariant Progress(keys, newProxies, rest, tried, CallsSince(keys, calls, client.createCalls), start,
                           client.FleetNow())
        invariant Grew(start, client.FleetNow(), latest, tried)
        invariant NewUpToDate(start.proxies, client.ProxiesNow()) && client.TidiesSecrets()
        invariant client.n.leaks == start.n.leaks && secretsThere ==> client.SecretsThere()
        invariant healthy ==> client.Healthy()
        invariant ProxiesUsable() || newProxies == map[] ==> client.OnlyOutages()
      {
        var proxyID := AnyOf(rest);
        ghost var now, made := client.FleetNow(), client.createCalls;
        GroupReady(client.world, latest, newProxies, rest, tried, CallsSince(keys, calls, made), start, now, proxyID);
        var stop;
        ghost var mid := client.Now();
        stop, ok := AddProxyWithWorkers(proxyID, newProxies[proxyID]);
        FollowsTrans(begin, mid, client.Now());
        SecretsFollowTrans(client.world, begin, mid, client.Now());
        NewTwice(start.proxies, now.proxies, client.ProxiesNow());
        CallsMadeTwice(client.world, latest, calls, made, client.createCalls);
        GroupDone(keys, newProxies, calls, made, client.createCalls, rest, tried, proxyID, start, now,
                  client.FleetNow(), latest, stop);
        if stop {
          stopped := Some(proxyID);
          return;
        }
        rest := rest - {proxyID};
        tried := tried + PodIDs(keys, newProxies[proxyID]);
      }
      GroupsDone(keys, newProxies, tried, CallsSince(keys, calls, client.createCalls), start, client.FleetNow());
      return true, None;
    }

    method PartitionSpecs(specs: seq<Pod>, existing: set<int>)
      returns (newProxies: map<int, seq<Pod>>, noProxy: seq<Pod>)
      requires DistinctPodIDs(client.world.keys, specs)
      ensures Partitioned(client.world.keys, specs, existing, newProxies, noProxy)
    {
      hide Partitioned, DistinctPodIDs;
      newProxies, noProxy := map[], [];
      ghost var keys := client.world.keys;
      NothingPartitioned(keys, existing);
      for i := 0 to |specs|
        invariant Partitioned(keys, specs[..i], existing, newProxies, noProxy)
      {
        assert specs[..i + 1] == specs[..i] + [specs[i]];
        DistinctSoFar(keys, specs, i);
        PartitionGrows(keys, specs[..i], specs[i], existing, newProxies, noProxy);
        match ProxyNeeded(client.world.keys, specs[i].annotations) {
          case None => noProxy := noProxy + [specs[i]];
          case Some(p) =>
            if p in existing {
              noProxy := noProxy + [specs[i]];
            } else {
              newProxies := newProxies[p := (if p in newProxies then newProxies[p] else []) + [specs[i]]];
            }
        }
      }
      assert specs[..|specs|] == specs;
    }

    method ProxyIDs(proxies: seq<VersionedProxy>, ghost known: map<int, VersionedProxy>) returns (ids: set<int>)
      requires ListsProxies(proxies, known)
      ensures ids == known.Keys
    {
      ids := {};
      for i := 0 to |proxies|
        invariant forall id :: id in ids <==> exists j | 0 <= j < i :: proxies[j].id == id
      {
        ids := ids + {proxies[i].id};
      }
      ListedAreThere(proxies, known, known);
      assert forall id | id in ids :: id in known;
      assert forall id | id in known :: id in ids;
    }

    /** Sort the specs by the new proxy they need; the second result needs none. */
    method GetPoolProxiesNeededForWorkers(specs: seq<Pod>) returns (needed: Option<(map<int, seq<Pod>>, seq<Pod>)>)
      requires Valid() && DistinctPodIDs(client.world.keys, specs)
      modifies client
      ensures Valid() && client.OnlyReads() && client.OnlyOutages()
      ensures needed.None? ==> client.n.faults > old(client.n).faults
      ensures needed.Some? ==>
        Partitioned(client.world.keys, specs, client.ProxiesNow().Keys, needed.value.0, needed.value.1)
    {
      hide Cluster.Valid, Cluster.Healthy, SoundState, HealthyState, Live, Proxies, ListsProxies, Partitioned,
        DistinctPodIDs;
      var existing := GetPoolProxies();
      if existing.None? {
        return None;
      }
      var existingIDs := ProxyIDs(existing.value, client.ProxiesNow());
      var newProxies, noProxy := PartitionSpecs(specs, existingIDs);
      return Some((newProxies, noProxy));
    }

    ghost predicate IDsUsable(workerIDs: seq<int>) {
      forall i | 0 <= i < |workerIDs| ::
        1 <= workerIDs[i] && IsInt(workerIDs[i]) && IdAllowed(client.world, workerIDs[i])
    }

    /** A spec for each worker; an unusable template stops at once. */
    method GetWorkerPodSpecs(workerIDs: seq<int>) returns (specs: Option<seq<Pod>>)
      requires Valid() && IDsUsable(workerIDs)
      modifies client`n
      ensures Valid() && client.Later() && (old(client.Healthy()) ==> client.Healthy())
      ensures client.n == old(client.n).(faults := client.n.faults) && old(client.n).faults <= client.n.faults
      ensures specs.None? ==> client.n.faults > old(client.n).faults
      ensures specs.Some? ==> client.n == old(client.n)
      ensures specs.Some? ==> SpecsOK(specs.value) && |specs.value| == |workerIDs|
      ensures specs.Some? ==>
        forall i | 0 <= i < |workerIDs| :: IDOfPod(client.world.keys, specs.value[i]) == workerIDs[i]
      ensures Usable() ==> specs.Some?
    {
      hide IsWorkerPod, WorkerConfOf, Cluster.Valid, Cluster.Healthy, SoundState, HealthyState, Live, Proxies, PodOK,
        WorkerOfPod, Follows, SpecsMade;
      ValidParts(client);
      FollowsRefl(client.Now());
      NothingMadeYet(client.world, store.workerTemplate.checksum);
      var list := [];
      for i := 0 to |workerIDs|
        invariant Valid() && client.n == old(client.n)
        invariant (old(client.Healthy()) ==> client.Healthy())
        invariant SpecsOK(list) && |list| == i
        invariant forall j | 0 <= j < i :: IDOfPod(client.world.keys, list[j]) == workerIDs[j]
      {
        var spec := specFactory.GetWorkerPodSpec(workerIDs[i]);
        if spec.Failure? {
          client.Fault();
          return None;
        }
        OneMoreMade(client.world, store.workerTemplate.checksum, list, spec.value);
        list := list + [spec.value];
      }
      return Some(list);
    }

    /** First the workers whose proxy is there already or who need none, then each new proxy with its workers. */
    method AddSortedWorkers(newProxies: map<int, seq<Pod>>, noProxy: seq<Pod>, ghost ids: set<int>)
      returns (ok: bool, ghost stopped: Option<int>)
      requires Valid() && SpecsOK(noProxy) && DistinctPodIDs(client.world.keys, noProxy)
      requires ProxiesThere(client.world.keys, noProxy, client.ProxiesNow())
      requires NewProxiesMade(client.world, store.workerTemplate.checksum, newProxies)
               && DisjointIDs(client.world.keys, newProxies)
      requires newProxies.Keys !! client.ProxiesNow().Keys
      requires PodIDs(client.world.keys, noProxy) !! AllPodIDs(client.world.keys, newProxies)
      requires PodIDs(client.world.keys, noProxy) + AllPodIDs(client.world.keys, newProxies) == ids
      requires NoneHasID(OfTemplate(client.LiveNow(), store.workerTemplate.checksum), ids)
      modifies client
      ensures Valid() && client.Later() && client.n.escapes == old(client.n).escapes
      ensures client.deleteCalls == old(client.deleteCalls)
      ensures CallsMade(client.world, store.workerTemplate.checksum, old(client.createCalls), client.createCalls)
      ensures !ok ==> stopped.Some? && client.n.faults > old(client.n).faults
      ensures PodIDs(client.world.keys, noProxy) <=
        CallsSince(client.world.keys, old(client.createCalls), client.createCalls) <= ids
      ensures GroupsAttempted(client.world.keys, newProxies,
                              CallsSince(client.world.keys, old(client.createCalls), client.createCalls),
                              old(client.FleetNow()), client.FleetNow(), stopped)
      ensures Grew(old(client.FleetNow()), client.FleetNow(), store.workerTemplate.checksum, ids)
      ensures NewUpToDate(old(client.ProxiesNow()), client.ProxiesNow()) && client.TidiesSecrets()
      ensures client.n.leaks == old(client.n).leaks && old(client.SecretsThere()) ==> client.SecretsThere()
      ensures old(client.Healthy() && NoneHasID(client.LiveNow(), ids)) ==> client.Healthy()
      ensures ProxiesUsable() || newProxies == map[] ==> client.OnlyOutages()
    {
      hide K8sResizer.Valid, Cluster.Valid, Cluster.Healthy, SoundState, HealthyState, Live, Proxies, OfTemplate,
        PodIDs, NoneHasID, Grew, DistinctPodIDs, SecretsPresent, UsedBy, AllUpToDate, AllPodIDs, DisjointIDs, SpecsMade,
        NewProxiesMade, ProxiesThere, AreNew, CallsSince, GroupsAttempted, CallsMade, Follows, SecretsFollow,
        NewUpToDate, K8sResizer.ProxiesUsable;
      ghost var keys, latest, start := client.world.keys, store.workerTemplate.checksum, client.FleetNow();
      ghost var first, second := PodIDs(keys, noProxy), AllPodIDs(keys, newProxies);
      NothingAdded(start, latest, keys);
      FreeAfter(start, start, latest, {}, ids, first);
      var added := CreatePods(noProxy);
      ghost var now, calls, mid := client.FleetNow(), client.createCalls, client.Now();
      MoreCallsMade(client.world, latest, old(client.createCalls), noProxy);
      FreeAfter(start, now, latest, first, ids, second);
      SecretsStay(client.world, old(client.Now()), mid);
      ok, stopped := AddNewProxies(newProxies);
      FollowsTrans(old(client.Now()), mid, client.Now());
      SecretsFollowTrans(client.world, old(client.Now()), mid, client.Now());
      CallsMadeTwice(client.world, latest, old(client.createCalls), calls, client.createCalls);
      GrewTwice(start, now, client.FleetNow(), latest, first, second);
      AttemptedLater(keys, noProxy, newProxies, old(client.createCalls), calls, client.createCalls, start, now,
                     client.FleetNow(), latest, stopped);
    }

    lemma EnoughIsUsable(specs: seq<Pod>, existing: set<int>, newProxies: map<int, seq<Pod>>, noProxy: seq<Pod>)
      requires Valid() && SpecsOK(specs) && Partitioned(client.world.keys, specs, existing, newProxies, noProxy)
      ensures Usable() ==> ProxiesUsable() || newProxies == map[]
    {
      hide SpecsMade, Partitioned, WorkerConfOf, ProxyConfOf, World.WorkerConfFor;
      CachedConf();
      if Usable() && !ProxiesUsable() {
        NobodyWaits(client.world, store.workerTemplate.checksum, specs, existing, newProxies, noProxy);
      }
    }

    /** Create the workers of these specs, as far as their proxies can be made. */
    method AddSpecs(specs: seq<Pod>) returns (ok: bool, ghost begun: bool, ghost stopped: Option<int>)
      requires Valid() && SpecsOK(specs) && DistinctPodIDs(client.world.keys, specs)
      requires NoneHasID(OfTemplate(client.LiveNow(), store.workerTemplate.checksum), PodIDs(client.world.keys, specs))
      modifies client
      ensures Valid() && client.Later() && client.n.escapes == old(client.n).escapes
      ensures client.deleteCalls == old(client.deleteCalls)
      ensures CallsMade(client.world, store.workerTemplate.checksum, old(client.createCalls), client.createCalls)
      ensures !ok ==> client.n.faults > old(client.n).faults && (begun ==> stopped.Some?)
      ensures !begun ==> !ok && client.n.writes == old(client.n).writes && client.createCalls == old(client.createCalls)
      ensures begun ==>
        Attempted(client.world, store.workerTemplate.checksum, PodIDs(client.world.keys, specs),
                  CallsSince(client.world.keys, old(client.createCalls), client.createCalls), old(client.FleetNow()),
                  client.FleetNow(), stopped)
      ensures Grew(old(client.FleetNow()), client.FleetNow(), store.workerTemplate.checksum,
                   PodIDs(client.world.keys, specs))
      ensures NewUpToDate(old(client.ProxiesNow()), client.ProxiesNow()) && client.TidiesSecrets()
      ensures client.n.leaks == old(client.n).leaks && old(client.SecretsThere()) ==> client.SecretsThere()
      ensures old(client.Healthy() && NoneHasID(client.LiveNow(), PodIDs(client.world.keys, specs))) ==>
        client.Healthy()
      ensures Usable() ==> client.OnlyOutages()
    {
      hide K8sResizer.Valid, Cluster.Valid, Cluster.Healthy, SoundState, HealthyState, Live, Proxies, OfTemplate,
        PodIDs, NoneHasID, Grew, DistinctPodIDs, SecretsPresent, UsedBy, AllUpToDate, AllPodIDs, Partitioned,
        DisjointIDs, SpecsMade, NewProxiesMade, ProxiesThere, CallsSince, Attempted, GroupsAttempted, SubMap, Follows,
        CallsMade, SecretsFollow, NewUpToDate, K8sResizer.Usable;
      ghost var keys, latest, start := client.world.keys, store.workerTemplate.checksum, client.FleetNow();
      ghost var ids := PodIDs(keys, specs);
      stopped := None;
      SubMapRefl(start.proxies);
      NoCallsMade(client.world, latest, client.createCalls);
      var needed := GetPoolProxiesNeededForWorkers(specs);
      ghost var now, mid := client.FleetNow(), client.Now();
      ok, begun := needed.Some?, needed.Some?;
      FollowsParts(old(client.Now()), mid);
      SecretsStay(client.world, old(client.Now()), mid);
      NewUnchanged(start.proxies, now.proxies);
      GrewNothing(start, now, latest, if ok then {} else ids);
      if ok {
        StillFree(start.workers, now.workers, latest, ids);
        EnoughIsUsable(specs, client.ProxiesNow().Keys, needed.value.0, needed.value.1);
        PartsReady(client.world, latest, specs, client.ProxiesNow(), needed.value.0, needed.value.1);
        ok, stopped := AddSortedWorkers(needed.value.0, needed.value.1, ids);
        FollowsTrans(old(client.Now()), mid, client.Now());
        SecretsFollowTrans(client.world, old(client.Now()), mid, client.Now());
        GrewTwice(start, now, client.FleetNow(), latest, {}, ids);
        assert {} + ids == ids;
        NewcomersSince(keys, needed.value.0, CallsSince(keys, old(client.createCalls), client.createCalls), start, now,
                       client.FleetNow(), stopped);
        AttemptedByID(client.world, latest, specs, needed.value.0, needed.value.1,
                      CallsSince(keys, old(client.createCalls), client.createCalls), start, client.FleetNow(), stopped);
      }
    }

    /** The pods that were not there before are from the cached template, with these IDs. */
    twostate predicate NewPods(ids: set<int>)
      reads client, store.workerTemplate
    {
      forall n | n in client.s.pods ::
        || (n in old(client.s).pods
            && client.s.pods[n] in {old(client.s).pods[n], old(client.s).pods[n].(terminating := true)})
        || (IsFromCache(client.s.pods[n]) && IDOfPod(client.world.keys, client.s.pods[n]) in ids)
    }

    twostate lemma NewPodsAreFromCache(ids: set<int>)
      requires Valid() && client.Later()
      requires CallsMade(client.world, store.workerTemplate.checksum, old(client.createCalls), client.createCalls)
      requires CallsSince(client.world.keys, old(client.createCalls), client.createCalls) <= ids
      ensures NewPods(ids)
    {
      hide Cluster.Valid, CallsMade, CallsSince, IsFromCache, PodsFrom, Follows, Store.Valid;
      var world, latest, before, now := client.world, store.workerTemplate.checksum, old(client.s).pods, client.s.pods;
      var calls, more := old(client.createCalls), client.createCalls;
      FollowsParts(old(client.Now()), client.Now());
      forall n | n in now
        ensures || (n in before && now[n] in {before[n], before[n].(terminating := true)})
                || (IsFromCache(now[n]) && IDOfPod(world.keys, now[n]) in ids)
      {
        KeptOrCreated(before, more[|calls|..], now, n);
        if now[n].(terminating := false) in more[|calls|..] {
          CreatedPod(world, latest, calls, more, now[n]);
          CachedPod(now[n]);
        }
      }
    }

    /** The deployments that were not there before are from the cached template. */
    twostate predicate NewDeployments()
      reads client, store.proxyTemplate
    {
      forall n | n in client.s.deployments && n !in old(client.s).deployments ::
        IsDeploymentFromCache(client.s.deployments[n])
    }

    twostate lemma NewDeploymentsAreFromCache()
      requires old(Valid()) && Valid() && store.config.usePoolProxy
      requires NewUpToDate(old(client.ProxiesNow()), client.ProxiesNow())
      ensures NewDeployments()
    {
      hide SoundState, Proxies, ProxyOfDeployment, IsDeploymentFromCache, DeploymentOK, World.NameOfProxy, TextsConform;
      var world, before, now := client.world, old(client.s).deployments, client.s.deployments;
      SoundParts(world, old(client.s));
      SoundParts(world, client.s);
      forall n | n in now && n !in before
        ensures IsDeploymentFromCache(now[n])
      {
        ProxyFound(world, now, n);
        var id := ProxyOfDeployment(world.keys, now[n]).value.id;
        if id in Proxies(world, before) {
          ProxyStored(world, before, id);
        }
        CachedDeployment(now[n]);
      }
    }

    /** Add a worker for each ID. `begun` says whether creation began at all; `stopped` names the new proxy
        at which it stopped. */
    method AddWorkers(workerIDs: seq<int>) returns (ok: bool, ghost begun: bool, ghost stopped: Option<int>)
      requires Valid() && IDsUsable(workerIDs)
      requires forall i, j | 0 <= i < j < |workerIDs| :: workerIDs[i] != workerIDs[j]
      requires NoneHasID(OfTemplate(client.LiveNow(), store.workerTemplate.checksum), SetOf(workerIDs))
      modifies client
      ensures Valid() && client.Later() && client.n.escapes == old(client.n).escapes
      ensures client.deleteCalls == old(client.deleteCalls)
      ensures CallsMade(client.world, store.workerTemplate.checksum, old(client.createCalls), client.createCalls)
      ensures !ok ==> client.n.faults > old(client.n).faults && (begun ==> stopped.Some?)
      ensures !begun ==> !ok && client.n.writes == old(client.n).writes && client.createCalls == old(client.createCalls)
      ensures begun ==>
        Attempted(client.world, store.workerTemplate.checksum, SetOf(workerIDs),
                  CallsSince(client.world.keys, old(client.createCalls), client.createCalls), old(client.FleetNow()),
                  client.FleetNow(), stopped)
      ensures Grew(old(client.FleetNow()), client.FleetNow(), store.workerTemplate.checksum, SetOf(workerIDs))
      ensures NewUpToDate(old(client.ProxiesNow()), client.ProxiesNow()) && client.TidiesSecrets()
      ensures client.n.leaks == old(client.n).leaks && old(client.SecretsThere()) ==> client.SecretsThere()
      ensures old(client.Healthy() && NoneHasID(client.LiveNow(), SetOf(workerIDs))) ==> client.Healthy()
      ensures NewPods(SetOf(workerIDs))
      ensures store.config.usePoolProxy ==> NewDeployments()
      ensures Usable() ==> client.OnlyOutages()
    {
      hide NewPods, K8sResizer.Valid, Cluster.Valid, Cluster.Healthy, SoundState, HealthyState, Live, Proxies,
        OfTemplate, PodIDs, NoneHasID, Grew, DistinctPodIDs, SecretsPresent, UsedBy, AllUpToDate, SetOf, SpecsMade,
        CallsSince, Attempted, SubMap, Follows, CallsMade, SecretsFollow, NewUpToDate, NewDeployments,
        K8sResizer.Usable;
      ghost var keys, latest, ids, start := client.world.keys, store.workerTemplate.checksum, SetOf(workerIDs),
        client.FleetNow();
      SubMapRefl(start.workers);
      SubMapRefl(start.proxies);
      NoCallsMade(client.world, latest, client.createCalls);
      var specs := GetWorkerPodSpecs(workerIDs);
      ok, begun, stopped := specs.Some?, false, None;
      ghost var mid := client.Now();
      SecretsStay(client.world, old(client.Now()), mid);
      NewUnchanged(start.proxies, start.proxies);
      if ok {
        SpecIDs(keys, specs.value, workerIDs);
        ok, begun, stopped := AddSpecs(specs.value);
        FollowsTrans(old(client.Now()), mid, client.Now());
        SecretsFollowTrans(client.world, old(client.Now()), mid, client.Now());
        FollowsParts(old(client.Now()), client.Now());
        AttemptedWithin(client.world, latest, ids, CallsSince(keys, old(client.createCalls), client.createCalls), start,
                        client.FleetNow(), stopped);
      } else {
        GrewNothing(start, client.FleetNow(), latest, ids);
      }
      NewPodsAreFromCache(ids);
      if store.config.usePoolProxy {
        NewDeploymentsAreFromCache();
      }
    }
  }
}
