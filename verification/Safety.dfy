/** What holds in every state the controller reaches, however calls fail and pods come and go. */
module Safety {
  import opened Wrappers
  import opened Objects
  import opened TemplateConf
  import opened Ceiling
  import opened World
  import opened Cluster
  import opened Listing
  import opened Scaling
  import opened LoadBalancer
  import Decimal

  /** `t` is a state the cluster was in. */
  ghost predicate Reached(client: Cluster, t: State)
    reads client
  {
    client.Valid() && t in client.history
  }

  /** Live workers made from one template have different IDs and different names. */
  lemma WorkersOfOneTemplateDiffer(client: Cluster, t: State, m: string, n: string)
    requires Reached(client, t)
    requires var live := Live(client.world.keys, t.pods);
             m in live && n in live && m != n && live[m].checksum == live[n].checksum
    ensures var live := Live(client.world.keys, t.pods);
            live[m].deployed.id != live[n].deployed.id && live[m].deployed.name != live[n].deployed.name
  {
    hide SoundState, HealthyState, Live;
    var live := Live(client.world.keys, t.pods);
    NamesOfOneTemplate(client.world, t, live, live[m].checksum);
    var current := OfTemplate(live, live[m].checksum);
    assert m in current && n in current;
  }

  lemma LiveIsGenuine(client: Cluster, t: State, n: string)
    requires Reached(client, t) && n in Live(client.world.keys, t.pods)
    ensures client.world.Valid() && n in t.pods && PodOK(client.world, t.pods[n])
    ensures Genuine(client.world, Live(client.world.keys, t.pods)[n])
    ensures WorkerOfPod(client.world.keys, t.pods[n]) == Some(Live(client.world.keys, t.pods)[n])
  {
    hide WorkerOfPod, IsWorkerPod, Genuine;
    assert SoundState(client.world, t);
  }

  /** The live workers of one template that use one proxy. */
  function UsersOf(live: LiveWorkers, checksum: string, proxyID: int): set<string> {
    set n | n in live && live[n].checksum == checksum && live[n].usesProxy && live[n].proxyID == proxyID
  }

  lemma UserInRange(world: World, w: VersionedWorker)
    requires Genuine(world, w) && w.usesProxy
    ensures var k := world.WorkerConfFor(w.checksum).value.workersPerPoolProxy;
            (w.proxyID - 1) * k < w.deployed.id <= w.proxyID * k
  {
    hide World.WorkerConfFor, Decimal.Format;
    var k := world.WorkerConfFor(w.checksum).value.workersPerPoolProxy;
    CeilDivUnique(w.deployed.id, k, w.proxyID);
    assert (w.proxyID - 1) * k == w.proxyID * k - k;
  }

  /** With different IDs in a range of `k` numbers there are at most `k` workers. */
  lemma {:induction false} CountInRange(live: LiveWorkers, names: set<string>, low: int, k: nat)
    requires names <= live.Keys && forall n | n in names :: low < live[n].deployed.id <= low + k
    requires forall m, n | m in names && n in names && m != n :: live[m].deployed.id != live[n].deployed.id
    ensures |names| <= k
    decreases k
  {
    if k > 0 {
      if top :| top in names && live[top].deployed.id == low + k {
        CountInRange(live, names - {top}, low, k - 1);
      } else {
        CountInRange(live, names, low, k - 1);
      }
    }
  }

  /** A proxy serves the workers whose IDs lie in its own range, at most `workersPerPoolProxy` of one template. */
  lemma ProxyCapacity(client: Cluster, t: State, checksum: string, proxyID: int)
    requires Reached(client, t) && client.world.WorkerConfFor(checksum).Success?
    requires client.world.WorkerConfFor(checksum).value.workersPerPoolProxy >= 1
    ensures
      var live := Live(client.world.keys, t.pods);
      var k := client.world.WorkerConfFor(checksum).value.workersPerPoolProxy;
      && |UsersOf(live, checksum, proxyID)| <= k
      && forall n | n in UsersOf(live, checksum, proxyID) :: (proxyID - 1) * k < live[n].deployed.id <= proxyID * k
  {
    hide SoundState, HealthyState, Live, World.WorkerConfFor, Genuine;
    var live, k := Live(client.world.keys, t.pods), client.world.WorkerConfFor(checksum).value.workersPerPoolProxy;
    var users := UsersOf(live, checksum, proxyID);
    forall n | n in users
      ensures (proxyID - 1) * k < live[n].deployed.id <= proxyID * k
    {
      LiveIsGenuine(client, t, n);
      UserInRange(client.world, live[n]);
    }
    forall m, n | m in users && n in users && m != n
      ensures live[m].deployed.id != live[n].deployed.id
    {
      WorkersOfOneTemplateDiffer(client, t, m, n);
    }
    CountInRange(live, users, (proxyID - 1) * k, k);
  }

  /** Every pod ever there is what the template behind its checksum describes for its worker; in particular every
      variable not meant for the worker has the template's value. */
  lemma PodsAreDescribed(client: Cluster, t: State, n: string)
    requires Reached(client, t) && n in t.pods
    ensures t.pods[n].name == n && WorkerOfPod(client.world.keys, t.pods[n]).Some?
    ensures var w := WorkerOfPod(client.world.keys, t.pods[n]).value;
            var template := client.world.templateOf(w.checksum);
            && Genuine(client.world, w)
            && IsWorkerPod(client.world, template, client.world.WorkerConfFor(w.checksum).value, w, t.pods[n])
            && forall variable | variable !in WorkerVariables(w.usesProxy) ::
                 EnvValue(t.pods[n].spec.env, variable) == EnvValue(template.spec.env, variable)
  {
    hide SoundState, PodOK, WorkerOfPod, EnvValue, World.WorkerConfFor, WorkerVariables, Genuine;
    SoundParts(client.world, t);
    PodParts(client.world, t.pods[n]);
    var w := WorkerOfPod(client.world.keys, t.pods[n]).value;
    OthersKeepValues(client.world.templateOf(w.checksum).spec.env, t.pods[n].spec.env, WorkerVariables(w.usesProxy));
  }

  // Proxies

  /** Every deployment ever there is what the template behind its checksum describes for its proxy. */
  lemma DeploymentsAreDescribed(client: Cluster, t: State, n: string)
    requires Reached(client, t) && n in t.deployments
    ensures t.deployments[n].name == n && ProxyOfDeployment(client.world.keys, t.deployments[n]).Some?
    ensures var p := ProxyOfDeployment(client.world.keys, t.deployments[n]).value;
            && client.world.ProxyConfFor(p.checksum).Success? && n == client.world.NameOfProxy(p.id)
            && IsProxyDeployment(client.world, client.world.templateOf(p.checksum),
                                 client.world.ProxyConfFor(p.checksum).value, p.id, t.deployments[n])
  {
    hide SoundState, DeploymentOK, IsProxyDeployment, ProxyOfDeployment, World.ProxyConfFor, World.NameOfProxy;
    SoundParts(client.world, t);
    DeploymentParts(client.world, t.deployments[n]);
  }

  /** A deployment's selector takes in its own pod and no other deployment's. */
  lemma SelectorsApart(client: Cluster, t: State, name: string, other: string)
    requires Reached(client, t) && name in t.deployments && other in t.deployments
    ensures Selects(t.deployments[name].selector, t.deployments[other].podLabels) <==> name == other
  {
    hide SoundState, DeploymentOK, IsProxyDeployment, ProxyOfDeployment, ArgValue, World.ProxyConfFor,
      World.NameOfProxy, Decimal.Format;
    SoundParts(client.world, t);
    var (a, b) := (t.deployments[name], t.deployments[other]);
    DeploymentParts(client.world, a);
    DeploymentParts(client.world, b);
    var (p, q) := (ProxyOfDeployment(client.world.keys, a).value, ProxyOfDeployment(client.world.keys, b).value);
    Decimal.FormatIsInjective(p.id, q.id);
  }

  /** The settings of the template a deployment was made from. */
  function ProxyConfFor(world: World, t: State, name: string): Result<ProxyConf>
    requires name in t.deployments
  {
    match ProxyOfDeployment(world.keys, t.deployments[name])
    case None => Failure
    case Some(p) => world.ProxyConfFor(p.checksum)
  }

  /** A live worker's proxy has its deployment, and the worker connects to it: host and secret are the
      deployment's, and so is the port exactly if the two templates have the same base port. */
  lemma WorkersReachTheirProxies(client: Cluster, t: State, n: string)
    requires Reached(client, t) && client.Healthy()
    requires n in Live(client.world.keys, t.pods) && Live(client.world.keys, t.pods)[n].usesProxy
    ensures n in t.pods
    ensures
      var (w, env) := (Live(client.world.keys, t.pods)[n], t.pods[n].spec.env);
      var host := client.world.NameOfProxy(w.proxyID);
      && EnvValue(env, "PARALLEL_SERVER_POOL_PROXY_HOST") == Some(host)
      && host in t.deployments && t.deployments[host].name == host
      && (var p := ProxyOfDeployment(client.world.keys, t.deployments[host]);
          && p.Some? && p.value.id == w.proxyID
          && (p.value.usesSecret ==> p.value.secretName == host))
      && (client.world.WorkerConfFor(w.checksum).value.useSecureCommunication ==>
            exists volume :: SecretVolume(volume, host) in t.pods[n].spec.volumes)
      && (var (worker, proxy) := (client.world.WorkerConfFor(w.checksum), ProxyConfFor(client.world, t, host));
          && worker.Success? && proxy.Success?
          && (EnvValue(env, "PARALLEL_SERVER_POOL_PROXY_PORT") == ArgValue(t.deployments[host].spec.args, "--port") <==>
                worker.value.poolProxyBasePort == proxy.value.poolProxyBasePort)
          && (client.world.layout.Some? ==> worker.value.poolProxyBasePort == proxy.value.poolProxyBasePort))
  {
    hide SoundState, PodOK, DeploymentOK, IsWorkerPod, IsProxyDeployment, WorkerOfPod, Live, Proxies, EnvValue,
      ArgValue, World.WorkerConfFor, World.ProxyConfFor, ProxyName, Decimal.Format;
    var (world, w) := (client.world, Live(client.world.keys, t.pods)[n]);
    LiveIsGenuine(client, t, n);
    SoundParts(world, t);
    assert HealthyState(world, t);
    ProxyStored(world, t.deployments, w.proxyID);
    DeploymentParts(world, t.deployments[world.NameOfProxy(w.proxyID)]);
    PodParts(world, t.pods[n]);
    var (worker, proxy) := (world.WorkerConfFor(w.checksum), ProxyConfFor(world, t, world.NameOfProxy(w.proxyID)));
    Decimal.FormatIsInjective(ProxyPort(w.proxyID, worker.value.poolProxyBasePort),
                              ProxyPort(w.proxyID, proxy.value.poolProxyBasePort));
  }

  /** Pool proxies serve external clients, and no parallel server proxy takes their place. */
  predicate ServesByPoolProxies(network: PortConfig) {
    network.usePoolProxy && !network.useParallelServerProxy && network.maxWorkers >= 0
      && network.workersPerPoolProxy >= 1
  }

  /** The layout the load balancer check assumes. */
  function LayoutOf(network: PortConfig): Layout
    requires network.maxWorkers >= 0 && network.workersPerPoolProxy >= 1
  {
    Layout(network.workersPerPoolProxy, network.poolProxyBasePort, network.maxWorkers)
  }

  /** The text gives one of the pool proxies' ports, and the service exposes it. */
  ghost predicate IsOpen(text: Option<string>, network: PortConfig, ports: seq<ServicePort>) {
    exists port :: text == Some(Decimal.Format(port)) && port in PoolProxyPorts(network) && Exposes(ports, port)
  }

  lemma PortIsRequired(network: PortConfig, id: int)
    requires ServesByPoolProxies(network)
    requires 1 <= id <= CeilDiv(network.maxWorkers, network.workersPerPoolProxy)
    ensures ProxyPort(id, network.poolProxyBasePort) in PoolProxyPorts(network)
    ensures ProxyPort(id, network.poolProxyBasePort) in RequiredPorts(network)
  {
    CountOfFewProxies(network);
    PoolProxyPortsAreProxyPorts(network, ProxyPort(id, network.poolProxyBasePort));
  }

  /** In a fixed layout, with clients outside and no parallel server proxy, a passed check means that
      every port a live worker is told to use is open. */
  lemma WorkerPortsAreOpen(client: Cluster, t: State, n: string, network: PortConfig, ports: seq<ServicePort>)
    requires ServesByPoolProxies(network) && Reached(client, t) && client.world.layout == Some(LayoutOf(network))
    requires forall p | p in RequiredPorts(network) :: Exposes(ports, p)
    requires n in Live(client.world.keys, t.pods) && Live(client.world.keys, t.pods)[n].usesProxy
    ensures n in t.pods && IsOpen(EnvValue(t.pods[n].spec.env, "PARALLEL_SERVER_POOL_PROXY_PORT"), network, ports)
  {
    hide SoundState, PodOK, DeploymentOK, IsWorkerPod, IsProxyDeployment, WorkerOfPod, Live, EnvValue,
      World.WorkerConfFor, World.NameOfProxy, Decimal.Format, RequiredPorts, PoolProxyPorts, Exposes;
    var (world, w) := (client.world, Live(client.world.keys, t.pods)[n]);
    LiveIsGenuine(client, t, n);
    CeilDivInRange(w.deployed.id, network.workersPerPoolProxy);
    CeilDivMonotone(w.deployed.id, network.maxWorkers, network.workersPerPoolProxy);
    PortIsRequired(network, w.proxyID);
    PodParts(world, t.pods[n]);
  }

  /** The same for the proxies themselves; different proxies listen on different ports. */
  lemma ProxyPortsAreOpen(client: Cluster, t: State, name: string, other: string, network: PortConfig,
                          ports: seq<ServicePort>)
    requires ServesByPoolProxies(network) && Reached(client, t) && client.world.layout == Some(LayoutOf(network))
    requires forall p | p in RequiredPorts(network) :: Exposes(ports, p)
    requires name in t.deployments && other in t.deployments
    ensures IsOpen(ArgValue(t.deployments[name].spec.args, "--port"), network, ports)
    ensures name != other ==>
      ArgValue(t.deployments[name].spec.args, "--port") != ArgValue(t.deployments[other].spec.args, "--port")
  {
    hide SoundState, DeploymentOK, IsProxyDeployment, ProxyOfDeployment, ArgValue, World.ProxyConfFor,
      World.NameOfProxy, Decimal.Format, RequiredPorts, PoolProxyPorts, Exposes;
    SoundParts(client.world, t);
    DeploymentParts(client.world, t.deployments[name]);
    DeploymentParts(client.world, t.deployments[other]);
    var (p, q) := (ProxyOfDeployment(client.world.keys, t.deployments[name]).value,
                   ProxyOfDeployment(client.world.keys, t.deployments[other]).value);
    PortIsRequired(network, p.id);
    Decimal.FormatIsInjective(ProxyPort(p.id, network.poolProxyBasePort), ProxyPort(q.id, network.poolProxyBasePort));
  }
}
