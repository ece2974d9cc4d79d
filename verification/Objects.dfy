/** Kubernetes objects, cut down to what the controller writes and reads back. */
module Objects {
  import opened Wrappers
  import opened Annotations
  import Decimal

  /** An environment variable with a value of its own, or with a field of the running pod as its value. */
  datatype EnvVar = EnvVar(name: string, value: string) | FieldVar(name: string, path: string)

  /** A volume holding the certificate secret `secretName`. */
  datatype SecretVolume = SecretVolume(name: string, secretName: string)

  /** A name the pod resolves by itself. */
  datatype HostAlias = HostAlias(ip: string, hostnames: seq<string>)

  datatype PodSpec = PodSpec(
    hostname: string, env: seq<EnvVar>, args: seq<string>, volumes: seq<SecretVolume>, hostAliases: seq<HostAlias>)

  datatype PodTemplate = PodTemplate(labels: Meta, annotations: Meta, spec: PodSpec)

  /** A worker pod; `terminating` says that its deletion timestamp is set. */
  datatype Pod = Pod(name: string, labels: Meta, annotations: Meta, spec: PodSpec, terminating: bool)

  /** A deployment of one pod; `podLabels` and `spec` are those of its pod. */
  datatype Deployment = Deployment(
    name: string, labels: Meta, annotations: Meta, selector: Meta, podLabels: Meta, spec: PodSpec)

  /** Pods with these labels belong to the deployment with this selector. */
  predicate Selects(selector: Meta, labels: Meta) {
    forall k | k in selector :: k in labels && labels[k] == selector[k]
  }

  type SecretData = map<string, string>

  datatype DeployedWorker = DeployedWorker(podName: string, id: int, name: string)

  datatype VersionedWorker = VersionedWorker(deployed: DeployedWorker, checksum: string, usesProxy: bool, proxyID: int)

  datatype VersionedProxy = VersionedProxy(
    id: int, deploymentName: string, checksum: string, usesSecret: bool, secretName: string)

  /** The proxy a pod is annotated with; an unreadable annotation counts as none. */
  function ProxyNeeded(keys: Keys, annotations: Meta): Option<int> {
    match GetOptionalInt(keys.poolProxyID, annotations)
    case Success(proxy) => proxy
    case Failure => None
  }

  function WorkerOfPod(keys: Keys, pod: Pod): Option<VersionedWorker> {
    var id := GetInt(keys.workerID, pod.annotations);
    var checksum := GetString(keys.templateChecksum, pod.annotations);
    var name := GetString(keys.workerName, pod.annotations);
    if id.Failure? || checksum.Failure? || name.Failure? then None
    else
      var deployed := DeployedWorker(pod.name, id.value, name.value);
      match ProxyNeeded(keys, pod.annotations)
      case None => Some(VersionedWorker(deployed, checksum.value, false, 0))
      case Some(proxy) => Some(VersionedWorker(deployed, checksum.value, true, proxy))
  }

  function ProxyOfDeployment(keys: Keys, d: Deployment): Option<VersionedProxy> {
    var id := GetInt(keys.poolProxyID, d.annotations);
    var checksum := GetString(keys.templateChecksum, d.annotations);
    if id.Failure? || checksum.Failure? then None
    else match GetString(keys.secretName, d.annotations)
      case Failure => Some(VersionedProxy(id.value, d.name, checksum.value, false, ""))
      case Success(secret) => Some(VersionedProxy(id.value, d.name, checksum.value, true, secret))
  }

  /** A pod reads as a worker exactly if ID, checksum and name are there and the ID is a number. A proxy number that
      cannot be read counts as none. */
  lemma WorkerIsRead(keys: Keys, pod: Pod)
    ensures var a := pod.annotations;
            WorkerOfPod(keys, pod).Some? <==>
              && keys.workerID in a && Decimal.Atoi(a[keys.workerID]).Some?
              && keys.templateChecksum in a && keys.workerName in a
    ensures WorkerOfPod(keys, pod).Some? ==>
      var a, w := pod.annotations, WorkerOfPod(keys, pod).value;
      && w.deployed.podName == pod.name && Some(w.deployed.id) == Decimal.Atoi(a[keys.workerID])
      && w.deployed.name == a[keys.workerName] && w.checksum == a[keys.templateChecksum]
      && (w.usesProxy <==> keys.poolProxyID in a && Decimal.Atoi(a[keys.poolProxyID]).Some?)
      && (w.usesProxy ==> Some(w.proxyID) == Decimal.Atoi(a[keys.poolProxyID]))
  {
    hide Decimal.Atoi;
  }

  lemma ProxyIsRead(keys: Keys, d: Deployment)
    ensures var a := d.annotations;
            ProxyOfDeployment(keys, d).Some? <==>
              keys.poolProxyID in a && Decimal.Atoi(a[keys.poolProxyID]).Some? && keys.templateChecksum in a
    ensures ProxyOfDeployment(keys, d).Some? ==>
      var a, p := d.annotations, ProxyOfDeployment(keys, d).value;
      && p.deploymentName == d.name && Some(p.id) == Decimal.Atoi(a[keys.poolProxyID])
      && p.checksum == a[keys.templateChecksum]
      && (p.usesSecret <==> keys.secretName in a) && (p.usesSecret ==> p.secretName == a[keys.secretName])
  {
    hide Decimal.Atoi;
  }

  /** The value a container sees: the last entry of that name. What a field will hold is not known. */
  function EnvValue(env: seq<EnvVar>, name: string): Option<string> {
    if env == [] then None
    else if env[|env| - 1].name == name then
      if env[|env| - 1].EnvVar? then Some(env[|env| - 1].value) else None
    else EnvValue(env[..|env| - 1], name)
  }

  /** The value following a command-line flag: the last occurrence counts. */
  function ArgValue(args: seq<string>, flag: string): Option<string> {
    if |args| < 2 then None
    else if args[|args| - 2] == flag then Some(args[|args| - 1])
    else ArgValue(args[..|args| - 1], flag)
  }
}
