/** Cluster states, and what is true of every state the controller can bring about. */
module World {
  import opened Wrappers
  import opened Annotations
  import opened Objects
  import opened TemplateConf
  import opened Ceiling
  import Base32
  import Decimal

  type Digest = d: seq<Base32.Byte> | |d| == 32 witness seq(32, _ => 0)

  /** A fixed deployment of the chart: the numbers the ports and proxies are laid out by. */
  datatype Layout = Layout(workersPerPoolProxy: nat, basePort: int, maxWorkers: nat) {
    predicate Valid() {
      workersPerPoolProxy >= 1
    }

    function MaxProxies(): nat
      requires Valid()
    {
      CeilDiv(maxWorkers, workersPerPoolProxy)
    }
  }

  /** What the controller cannot see or change. `parse` is strict YAML decoding and `digest` is
      SHA-256, `joinPath` is `filepath.Join`. `templateOf` names, for each checksum, the template it stands for. */
  datatype World = World(
    keys: Keys, parse: string -> Option<PodTemplate>, digest: string -> Digest, joinPath: (string, string) -> string,
    templateOf: string -> PodTemplate, proxyPrefix: string, layout: Option<Layout>)
  {
    predicate Valid() {
      keys.Distinct() && (layout.Some? ==> layout.value.Valid())
    }

    function Checksum(text: string): string {
      Base32.ChecksumToString(digest(text))
    }

    /** What the chart promises of a template text that parses: it does not collide with another
        installed text, leaves the proxy ID for the controller to write, uses the chart's one proxy
        prefix and, in a fixed layout, the chart's numbers. */
    predicate Conforms(text: string) {
      match parse(text)
      case None => true
      case Some(t) =>
        && templateOf(Checksum(text)) == t
        && keys.poolProxyID !in t.annotations
        && (var conf := WorkerConfOf(keys, t.annotations);
            conf.Success? && conf.value.usePoolProxy ==>
              && conf.value.workersPerPoolProxy >= 1
              && conf.value.poolProxyPrefix == proxyPrefix
              && (layout.Some? ==>
                    && conf.value.workersPerPoolProxy == layout.value.workersPerPoolProxy
                    && conf.value.poolProxyBasePort == layout.value.basePort))
        && (var conf := ProxyConfOf(keys, t.annotations);
            conf.Success? ==>
              && conf.value.poolProxyPrefix == proxyPrefix
              && (layout.Some? ==> conf.value.poolProxyBasePort == layout.value.basePort))
    }

    /** The settings of the worker template a checksum stands for. */
    function WorkerConfFor(checksum: string): Result<WorkerConf> {
      WorkerConfOf(keys, templateOf(checksum).annotations)
    }

    function ProxyConfFor(checksum: string): Result<ProxyConf> {
      ProxyConfOf(keys, templateOf(checksum).annotations)
    }

    function NameOfProxy(id: int): string {
      ProxyName(id, proxyPrefix)
    }
  }

  type Texts = map<string, map<string, string>>

  predicate TextsConform(world: World, texts: Texts) {
    forall m, f | m in texts && f in texts[m] :: world.Conforms(texts[m][f])
  }

  datatype State = State(pods: map<string, Pod>, deployments: map<string, Deployment>, secrets: map<string, SecretData>)

  /** Worker pods that are not being deleted, read back through their annotations. */
  function Live(keys: Keys, pods: map<string, Pod>): map<string, VersionedWorker> {
    map n | n in pods && !pods[n].terminating && WorkerOfPod(keys, pods[n]).Some? :: WorkerOfPod(keys, pods[n]).value
  }

  /** The worker that the template behind `checksum` describes for an ID. */
  predicate Genuine(world: World, w: VersionedWorker) {
    && w.deployed.id >= 1 && IsInt(w.deployed.id)
    && (world.layout.Some? ==> w.deployed.id <= world.layout.value.maxWorkers)
    && var conf := world.WorkerConfFor(w.checksum);
    && conf.Success?
    && w.deployed.name == conf.value.workerPrefix + Decimal.Format(w.deployed.id)
    && w.usesProxy == conf.value.usePoolProxy
    && (w.usesProxy ==>
          && conf.value.workersPerPoolProxy >= 1
          && (world.layout.Some? ==> conf.value.workersPerPoolProxy == world.layout.value.workersPerPoolProxy)
          && w.proxyID == CalculateProxyIDForWorker(w.deployed.id, conf.value.workersPerPoolProxy))
  }

  /** The settings use the chart's proxy prefix and its base port, if that is fixed. */
  predicate FitsChart(world: World, poolProxyPrefix: string, poolProxyBasePort: int) {
    && poolProxyPrefix == world.proxyPrefix
    && (world.layout.Some? ==> poolProxyBasePort == world.layout.value.basePort)
  }

  /** The variables a worker is given. */
  function WorkerVariables(usesProxy: bool): set<string> {
    {"WORKER_NAME", "LOGBASE", "HOSTNAME", "MDCE_OVERRIDE_INTERNAL_HOSTNAME", "MDCE_OVERRIDE_EXTERNAL_HOSTNAME",
     "MPICH_INTERFACE_HOSTNAME"}
    + if usesProxy then {"PARALLEL_SERVER_POOL_PROXY_HOST", "PARALLEL_SERVER_POOL_PROXY_PORT"} else {}
  }

  /** Entries were added behind, for these variables only. */
  predicate AddsOnly(before: seq<EnvVar>, after: seq<EnvVar>, names: set<string>) {
    before <= after && forall i | |before| <= i < |after| :: after[i].name in names
  }

  /** So the other variables keep their values. */
  lemma {:induction false} OthersKeepValues(before: seq<EnvVar>, after: seq<EnvVar>, names: set<string>)
    requires AddsOnly(before, after, names)
    ensures forall name | name !in names :: EnvValue(after, name) == EnvValue(before, name)
    decreases |after|
  {
    if before != after {
      OthersKeepValues(before, after[..|after| - 1], names);
    }
  }

  predicate TellsWho(world: World, conf: WorkerConf, name: string, env: seq<EnvVar>) {
    && EnvValue(env, "WORKER_NAME") == Some(name)
    && EnvValue(env, "LOGBASE") == Some(world.joinPath(conf.logDir, name))
  }

  predicate TellsHost(env: seq<EnvVar>, hostName: string) {
    && EnvValue(env, "HOSTNAME") == Some(hostName)
    && EnvValue(env, "MDCE_OVERRIDE_INTERNAL_HOSTNAME") == Some(hostName)
    && EnvValue(env, "MDCE_OVERRIDE_EXTERNAL_HOSTNAME") == Some(hostName)
  }

  /** The environment names the proxy's host and port. */
  predicate TellsProxy(conf: WorkerConf, proxy: int, env: seq<EnvVar>) {
    && EnvValue(env, "PARALLEL_SERVER_POOL_PROXY_HOST") == Some(ProxyName(proxy, conf.poolProxyPrefix))
    && EnvValue(env, "PARALLEL_SERVER_POOL_PROXY_PORT") ==
       Some(Decimal.Format(ProxyPort(proxy, conf.poolProxyBasePort)))
  }

  /** The worker learns its host name, MPI the pod's own address, and the pod resolves its own host name. */
  predicate KnowsItsHost(spec: PodSpec, hostName: string) {
    && TellsHost(spec.env, hostName)
    && spec.env != [] && spec.env[|spec.env| - 1] == FieldVar("MPICH_INTERFACE_HOSTNAME", "status.podIP")
    && spec.hostAliases == [HostAlias("127.0.0.1", [hostName])]
  }

  /** The template's spec completed for this worker, and nothing else. */
  predicate IsWorkerSpec(world: World, template: PodSpec, conf: WorkerConf, w: VersionedWorker, spec: PodSpec) {
    && spec.hostname == w.deployed.podName && spec.args == template.args
    && KnowsItsHost(spec, w.deployed.podName + "." + conf.workerDomain)
    && TellsWho(world, conf, w.deployed.name, spec.env)
    && (w.usesProxy ==> TellsProxy(conf, w.proxyID, spec.env))
    && AddsOnly(template.env, spec.env, WorkerVariables(w.usesProxy))
    && spec.volumes == template.volumes +
         if w.usesProxy && conf.useSecureCommunication
         then [SecretVolume(conf.certVolume, ProxyName(w.proxyID, conf.poolProxyPrefix))] else []
  }

  /** The labels name the worker and are the template's otherwise. */
  predicate SaysWho(keys: Keys, template: Meta, labels: Meta, w: DeployedWorker) {
    && keys.workerName in labels && labels[keys.workerName] == w.name
    && keys.workerID in labels && labels[keys.workerID] == Decimal.Format(w.id)
    && labels - {keys.workerName, keys.workerID} == template - {keys.workerName, keys.workerID}
  }

  /** Only the annotations about this worker were written. */
  predicate KeepsAnnotations(keys: Keys, template: Meta, annotations: Meta) {
    var written := {keys.workerName, keys.workerID, keys.templateChecksum, keys.poolProxyID};
    annotations - written == template - written
  }

  /** The pod the template describes for this worker, up to the suffix of its name. */
  predicate IsWorkerPod(world: World, template: PodTemplate, conf: WorkerConf, w: VersionedWorker, pod: Pod) {
    && w.deployed.name + "-" <= pod.name
    && IsWorkerSpec(world, template.spec, conf, w, pod.spec)
    && SaysWho(world.keys, template.labels, pod.labels, w.deployed)
    && KeepsAnnotations(world.keys, template.annotations, pod.annotations)
  }

  /** A pod is what the template behind its checksum describes for its worker. */
  predicate PodOK(world: World, pod: Pod): (ok: bool)
    ensures ok ==> WorkerOfPod(world.keys, pod).Some?
  {
    match WorkerOfPod(world.keys, pod)
    case None => false
    case Some(w) =>
      && Genuine(world, w)
      && var conf := world.WorkerConfFor(w.checksum).value;
      && (w.usesProxy ==> FitsChart(world, conf.poolProxyPrefix, conf.poolProxyBasePort))
      && IsWorkerPod(world, world.templateOf(w.checksum), conf, w, pod)
  }

  /** The selector fits the deployment's own pod and asks for its proxy ID. */
  predicate SelectsItsOwn(keys: Keys, d: Deployment, id: int) {
    && Selects(d.selector, d.podLabels)
    && keys.poolProxyID in d.selector && d.selector[keys.poolProxyID] == Decimal.Format(id)
  }

  /** The deployment the template describes for a proxy: named by prefix and ID, port and log file behind the
      template's arguments, its own certificate behind the volumes, and the template's labels besides the ID. */
  predicate IsProxyDeployment(world: World, template: PodTemplate, conf: ProxyConf, id: int, d: Deployment) {
    && d.name == conf.poolProxyPrefix + Decimal.Format(id)
    && d.spec == template.spec.(args := d.spec.args, volumes := d.spec.volumes)
    && template.spec.args <= d.spec.args && |d.spec.args| == |template.spec.args| + 4
    && ArgValue(d.spec.args, "--port") == Some(Decimal.Format(ProxyPort(id, conf.poolProxyBasePort)))
    && ArgValue(d.spec.args, "--logfile") == Some(world.joinPath(conf.logDir, d.name + ".log"))
    && d.spec.volumes == template.spec.volumes +
         (if conf.useSecureCommunication then [SecretVolume(conf.certVolume, d.name)] else [])
    && d.labels == d.selector == d.podLabels
    && d.labels - {world.keys.poolProxyID} == template.labels - {world.keys.poolProxyID}
    && d.annotations.Keys == {world.keys.poolProxyID, world.keys.templateChecksum} +
         (if conf.useSecureCommunication then {world.keys.secretName} else {})
  }

  /** A deployment is named after its proxy, names its own secret, and is what the template behind its checksum
      describes for its proxy. */
  predicate DeploymentOK(world: World, d: Deployment): (ok: bool)
    ensures ok ==> ProxyOfDeployment(world.keys, d).Some?
  {
    match ProxyOfDeployment(world.keys, d)
    case None => false
    case Some(p) =>
      && p.id >= 1 && IsInt(p.id)
      && (world.layout.Some? ==> world.layout.value.Valid() && p.id <= world.layout.value.MaxProxies())
      && d.name == world.NameOfProxy(p.id) && SelectsItsOwn(world.keys, d, p.id)
      && (p.usesSecret ==> p.secretName == d.name)
      && var conf := world.ProxyConfFor(p.checksum);
      && conf.Success?
      && p.usesSecret == conf.value.useSecureCommunication
      && FitsChart(world, conf.value.poolProxyPrefix, conf.value.poolProxyBasePort)
      && IsProxyDeployment(world, world.templateOf(p.checksum), conf.value, p.id, d)
  }

  /** The proxies the deployments stand for, by proxy ID. */
  function Proxies(world: World, deployments: map<string, Deployment>): map<int, VersionedProxy> {
    var ids := set n | n in deployments && ProxyOfDeployment(world.keys, deployments[n]).Some? ::
                 ProxyOfDeployment(world.keys, deployments[n]).value.id;
    map id | id in ids && world.NameOfProxy(id) in deployments
             && ProxyOfDeployment(world.keys, deployments[world.NameOfProxy(id)]).Some? ::
      ProxyOfDeployment(world.keys, deployments[world.NameOfProxy(id)]).value
  }

  type LiveWorkers = map<string, VersionedWorker>

  /** Live workers of one template never share an ID. */
  predicate DistinctPerChecksum(live: LiveWorkers) {
    forall m, n | m in live && n in live && m != n && live[m].checksum == live[n].checksum ::
      live[m].deployed.id != live[n].deployed.id
  }

  predicate DistinctIDs(live: LiveWorkers) {
    forall m, n | m in live && n in live && m != n :: live[m].deployed.id != live[n].deployed.id
  }

  /** Every live worker annotated with a proxy has a deployment for that proxy. */
  predicate Backed(live: LiveWorkers, proxies: map<int, VersionedProxy>) {
    forall n | n in live && live[n].usesProxy :: live[n].proxyID in proxies
  }

  predicate PodsOK(world: World, pods: map<string, Pod>) {
    forall n | n in pods :: pods[n].name == n && PodOK(world, pods[n])
  }

  predicate DeploymentsOK(world: World, deployments: map<string, Deployment>) {
    forall n | n in deployments :: deployments[n].name == n && DeploymentOK(world, deployments[n])
  }

  /** Holds in every reachable state, whatever fails. */
  predicate SoundState(world: World, s: State) {
    PodsOK(world, s.pods) && DeploymentsOK(world, s.deployments) && DistinctPerChecksum(Live(world.keys, s.pods))
  }

  /** Holds in every reachable state as long as no pod outlives its deletion. */
  predicate HealthyState(world: World, s: State) {
    DistinctIDs(Live(world.keys, s.pods)) && Backed(Live(world.keys, s.pods), Proxies(world, s.deployments))
  }

  /** Every proxy naming a secret has it. */
  predicate SecretsPresent(proxies: map<int, VersionedProxy>, secrets: set<string>) {
    forall id | id in proxies && proxies[id].usesSecret :: proxies[id].secretName in secrets
  }

  predicate SubMap<K, V(==)>(a: map<K, V>, b: map<K, V>) {
    forall k | k in a :: k in b && a[k] == b[k]
  }

  lemma SubMapRefl<K, V>(a: map<K, V>)
    ensures SubMap(a, a)
  {
  }

  lemma SubMapKeys<K, V>(a: map<K, V>, b: map<K, V>)
    requires SubMap(a, b)
    ensures a.Keys <= b.Keys
  {
  }

  lemma SubMapTrans<K, V>(a: map<K, V>, b: map<K, V>, c: map<K, V>)
    requires SubMap(a, b) && SubMap(b, c)
    ensures SubMap(a, c)
  {
  }

  /** Nothing but these entries differs. */
  ghost predicate OthersSame<V>(before: map<string, V>, after: map<string, V>, names: set<string>) {
    forall k | k !in names :: (k in before <==> k in after) && (k in before && k in after ==> before[k] == after[k])
  }

  /** Pods may vanish or start terminating; nothing else about them changes. */
  predicate PodsLost(before: map<string, Pod>, after: map<string, Pod>) {
    forall n | n in after ::
      n in before && after[n] in {before[n], before[n].(terminating := true)}
  }

  /** A worker that uses a proxy is told where it is and has its certificate. */
  lemma PodParts(world: World, pod: Pod)
    requires PodOK(world, pod)
    ensures var w := WorkerOfPod(world.keys, pod).value;
            && Genuine(world, w)
            && var conf := world.WorkerConfFor(w.checksum).value;
            && IsWorkerPod(world, world.templateOf(w.checksum), conf, w, pod)
            && (w.usesProxy ==>
                  && FitsChart(world, conf.poolProxyPrefix, conf.poolProxyBasePort)
                  && TellsProxy(conf, w.proxyID, pod.spec.env)
                  && (conf.useSecureCommunication ==>
                        SecretVolume(conf.certVolume, ProxyName(w.proxyID, conf.poolProxyPrefix)) in pod.spec.volumes))
  {
    hide WorkerOfPod, World.WorkerConfFor, SaysWho, KeepsAnnotations, KnowsItsHost, TellsWho, TellsProxy, AddsOnly,
      ProxyName, Genuine;
  }

  lemma DeploymentParts(world: World, d: Deployment)
    requires DeploymentOK(world, d)
    ensures var p := ProxyOfDeployment(world.keys, d).value;
            && 1 <= p.id && d.name == world.NameOfProxy(p.id) && SelectsItsOwn(world.keys, d, p.id)
            && (world.layout.Some? ==> world.layout.value.Valid() && p.id <= world.layout.value.MaxProxies())
            && var conf := world.ProxyConfFor(p.checksum);
            && conf.Success? && p.usesSecret == conf.value.useSecureCommunication
            && (p.usesSecret ==> p.secretName == d.name)
            && FitsChart(world, conf.value.poolProxyPrefix, conf.value.poolProxyBasePort)
            && IsProxyDeployment(world, world.templateOf(p.checksum), conf.value, p.id, d)
            && ArgValue(d.spec.args, "--port") == Some(Decimal.Format(ProxyPort(p.id, conf.value.poolProxyBasePort)))
  {
    hide ProxyOfDeployment, World.ProxyConfFor, World.NameOfProxy, ArgValue, Decimal.Format, SelectsItsOwn;
  }

  lemma AllSame<V>(entries: map<string, V>, names: set<string>)
    ensures OthersSame(entries, entries, names)
  {
  }

  /** The names of these proxies. */
  function ProxyNames(world: World, ids: set<int>): set<string> {
    set id | id in ids :: world.NameOfProxy(id)
  }

  // How the two views change with the objects.

  /** A pod that starts terminating is otherwise the same. */
  lemma StoppingIsSame(world: World, pod: Pod)
    ensures WorkerOfPod(world.keys, pod.(terminating := true)) == WorkerOfPod(world.keys, pod)
    ensures PodOK(world, pod.(terminating := true)) <==> PodOK(world, pod)
  {
    hide Genuine, FitsChart, IsWorkerSpec, SaysWho, KeepsAnnotations, World.WorkerConfFor;
  }

  lemma LiveShrinks(world: World, before: map<string, Pod>, after: map<string, Pod>)
    requires PodsLost(before, after)
    ensures SubMap(Live(world.keys, after), Live(world.keys, before))
    ensures PodsOK(world, before) ==> PodsOK(world, after)
  {
    hide WorkerOfPod, Genuine, FitsChart, IsWorkerSpec, SaysWho, KeepsAnnotations, World.WorkerConfFor;
    forall n | n in after
      ensures WorkerOfPod(world.keys, after[n]) == WorkerOfPod(world.keys, before[n])
      ensures PodOK(world, before[n]) ==> PodOK(world, after[n])
    {
      StoppingIsSame(world, before[n]);
    }
  }

  lemma LiveGains(world: World, pods: map<string, Pod>, pod: Pod)
    requires pod.name !in pods && !pod.terminating && WorkerOfPod(world.keys, pod).Some?
    ensures Live(world.keys, pods[pod.name := pod]) ==
      Live(world.keys, pods)[pod.name := WorkerOfPod(world.keys, pod).value]
  {
  }

  lemma LiveLoses(world: World, pods: map<string, Pod>, name: string)
    ensures Live(world.keys, pods - {name}) == Live(world.keys, pods) - {name}
  {
  }

  lemma LiveTerminates(world: World, pods: map<string, Pod>, name: string)
    requires name in pods
    ensures Live(world.keys, pods[name := pods[name].(terminating := true)]) == Live(world.keys, pods) - {name}
  {
    hide WorkerOfPod;
  }

  /** The proxy a well-formed deployment stands for is found under its ID, and its name is its key. */
  lemma ProxyFound(world: World, deployments: map<string, Deployment>, n: string)
    requires DeploymentsOK(world, deployments) && n in deployments
    ensures ProxyOfDeployment(world.keys, deployments[n]).Some?
    ensures var p := ProxyOfDeployment(world.keys, deployments[n]).value;
            && p.id in Proxies(world, deployments) && Proxies(world, deployments)[p.id] == p
            && n == p.deploymentName == world.NameOfProxy(p.id)
  {
    hide World.ProxyConfFor, World.NameOfProxy, Decimal.Format, SelectsItsOwn, IsProxyDeployment;
    assert DeploymentOK(world, deployments[n]);
  }

  lemma ProxyStored(world: World, deployments: map<string, Deployment>, id: int)
    requires DeploymentsOK(world, deployments) && id in Proxies(world, deployments)
    ensures var p := Proxies(world, deployments)[id];
            && p.id == id && p.deploymentName == world.NameOfProxy(id) && p.deploymentName in deployments
            && ProxyOfDeployment(world.keys, deployments[p.deploymentName]) == Some(p)
            && (p.usesSecret ==> p.secretName == p.deploymentName)
            && 1 <= id && IsInt(id)
            && (world.layout.Some? ==> world.layout.value.Valid() && id <= world.layout.value.MaxProxies())
  {
    hide World.ProxyConfFor, World.NameOfProxy, Decimal.Format, SelectsItsOwn, IsProxyDeployment;
    var n :| n in deployments && ProxyOfDeployment(world.keys, deployments[n]).Some?
             && ProxyOfDeployment(world.keys, deployments[n]).value.id == id;
    assert DeploymentOK(world, deployments[n]);
  }

  lemma NamesDiffer(world: World, i: int, j: int)
    requires i != j
    ensures world.NameOfProxy(i) != world.NameOfProxy(j)
  {
    hide Decimal.Format;
    Decimal.NumberedNamesDistinct(world.proxyPrefix, i, j);
  }

  lemma ProxiesChange(world: World, deployments: map<string, Deployment>, d: Deployment)
    requires DeploymentsOK(world, deployments) && DeploymentOK(world, d)
    ensures DeploymentsOK(world, deployments[d.name := d])
    ensures ProxyOfDeployment(world.keys, d).Some?
    ensures var p := ProxyOfDeployment(world.keys, d).value;
            && p.deploymentName == d.name == world.NameOfProxy(p.id)
            && Proxies(world, deployments[d.name := d]) == Proxies(world, deployments)[p.id := p]
  {
    hide DeploymentOK, ProxyOfDeployment, Proxies, World.NameOfProxy;
    var after := deployments[d.name := d];
    ProxyFound(world, after, d.name);
    var p := ProxyOfDeployment(world.keys, d).value;
    var (a, b) := (Proxies(world, after), Proxies(world, deployments)[p.id := p]);
    forall id | id in a
      ensures id in b && a[id] == b[id]
    {
      ProxyStored(world, after, id);
      if a[id].deploymentName != d.name {
        ProxyFound(world, deployments, a[id].deploymentName);
      }
    }
    forall id | id in b
      ensures id in a
    {
      if id != p.id {
        ProxyStored(world, deployments, id);
        ProxyStored(world, after, p.id);
        NamesDiffer(world, id, p.id);
        ProxyFound(world, after, b[id].deploymentName);
      }
    }
  }

  lemma ProxiesLose(world: World, deployments: map<string, Deployment>, id: int)
    requires DeploymentsOK(world, deployments) && id in Proxies(world, deployments)
    ensures DeploymentsOK(world, deployments - {world.NameOfProxy(id)})
    ensures Proxies(world, deployments - {world.NameOfProxy(id)}) == Proxies(world, deployments) - {id}
  {
    hide DeploymentOK, ProxyOfDeployment, Proxies, World.NameOfProxy;
    var after := deployments - {world.NameOfProxy(id)};
    var (a, b) := (Proxies(world, after), Proxies(world, deployments) - {id});
    ProxyStored(world, deployments, id);
    forall i | i in a
      ensures i in b && a[i] == b[i]
    {
      ProxyStored(world, after, i);
      ProxyFound(world, deployments, a[i].deploymentName);
    }
    forall i | i in b
      ensures i in a
    {
      ProxyStored(world, deployments, i);
      NamesDiffer(world, i, id);
      ProxyFound(world, after, b[i].deploymentName);
    }
  }
}
