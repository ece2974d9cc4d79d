/** Building worker pods and proxy deployments from the cached templates. */
module Specs {
  import opened Wrappers
  import opened Annotations
  import opened Objects
  import opened TemplateConf
  import opened Ceiling
  import opened World
  import opened TemplateStore
  import Decimal

  /** Append the variables in any order. Later entries win, so all of `toAdd` takes effect. */
  method AddEnv(env: seq<EnvVar>, toAdd: map<string, string>) returns (all: seq<EnvVar>)
    ensures env <= all && |all| == |env| + |toAdd|
    ensures forall i | |env| <= i < |all| ::
      all[i].EnvVar? && all[i].name in toAdd && all[i].value == toAdd[all[i].name]
    ensures forall k | k in toAdd :: EnvValue(all, k) == Some(toAdd[k])
    ensures forall k | k !in toAdd :: EnvValue(all, k) == EnvValue(env, k)
  {
    all := env;
    var rest := toAdd.Keys;
    while rest != {}
      invariant rest <= toAdd.Keys && env <= all && |all| + |rest| == |env| + |toAdd|
      invariant forall i | |env| <= i < |all| ::
        all[i].EnvVar? && all[i].name in toAdd && all[i].value == toAdd[all[i].name]
      invariant forall k | k in toAdd && k !in rest :: EnvValue(all, k) == Some(toAdd[k])
      invariant forall k | k !in toAdd :: EnvValue(all, k) == EnvValue(env, k)
    {
      var key :| key in rest;
      var longer := all + [EnvVar(key, toAdd[key])];
      assert longer[..|longer| - 1] == all;
      all := longer;
      rest := rest - {key};
    }
  }

  predicate IdAllowed(world: World, id: int) {
    world.layout.Some? ==> id <= world.layout.value.maxWorkers
  }

  predicate ProxyAllowed(world: World, id: int) {
    world.layout.Some? ==> world.layout.value.Valid() && id <= world.layout.value.MaxProxies()
  }

  /** What a cached worker template's settings satisfy. */
  predicate WorkerConfFits(world: World, checksum: string, conf: WorkerConf) {
    && world.WorkerConfFor(checksum) == Success(conf)
    && (conf.usePoolProxy ==>
          && conf.workersPerPoolProxy >= 1
          && FitsChart(world, conf.poolProxyPrefix, conf.poolProxyBasePort)
          && (world.layout.Some? ==> conf.workersPerPoolProxy == world.layout.value.workersPerPoolProxy))
  }

  lemma WorkerTemplateConforms(world: World, tmpl: Template, conf: WorkerConf)
    requires tmpl.Matches(world) && WorkerConfOf(world.keys, tmpl.spec.value.annotations) == Success(conf)
    ensures WorkerConfFits(world, tmpl.checksum, conf) && world.templateOf(tmpl.checksum) == tmpl.spec.value
    ensures world.keys.poolProxyID !in tmpl.spec.value.annotations
  {
  }

  predicate ProxyConfFits(world: World, checksum: string, conf: ProxyConf) {
    world.ProxyConfFor(checksum) == Success(conf) && FitsChart(world, conf.poolProxyPrefix, conf.poolProxyBasePort)
  }

  lemma ProxyTemplateConforms(world: World, tmpl: Template, conf: ProxyConf)
    requires tmpl.Matches(world) && ProxyConfOf(world.keys, tmpl.spec.value.annotations) == Success(conf)
    ensures ProxyConfFits(world, tmpl.checksum, conf) && world.templateOf(tmpl.checksum) == tmpl.spec.value
  {
  }

  lemma NotAFlag(n: int)
    ensures Decimal.Format(n) != "--port"
  {
    hide Decimal.Digits;
    assert n < 0 ==> Decimal.Format(n)[1..] == Decimal.Digits(-n);
    assert "--port"[0] == '-' && "--port"[1..][0] == '-';
    assert '-' in "--port" && '-' in "--port"[1..];
  }

  lemma LastArg(args: seq<string>, flag: string, value: string)
    ensures ArgValue(args + [flag, value], flag) == Some(value)
  {
  }

  lemma EarlierArg(args: seq<string>, other: string, last: string, flag: string)
    requires other != flag
    ensures ArgValue(args + [other, last], flag) == ArgValue(args + [other], flag)
  {
    assert (args + [other, last])[..|args| + 1] == args + [other];
  }

  /** Both flags take effect, whatever the template's arguments are. */
  lemma LastArgs(args: seq<string>, port: int, logFile: string)
    ensures var all := args + ["--port", Decimal.Format(port)] + ["--logfile", logFile];
            && ArgValue(all, "--port") == Some(Decimal.Format(port)) && ArgValue(all, "--logfile") == Some(logFile)
  {
    hide ArgValue, Decimal.Format;
    var value := Decimal.Format(port);
    var front := args + ["--port", value];
    LastArg(front, "--logfile", logFile);
    EarlierArg(front, "--logfile", logFile, "--port");
    NotAFlag(port);
    EarlierArg(args + ["--port"], value, "--logfile", "--port");
    assert args + ["--port"] + [value, "--logfile"] == front + ["--logfile"];
    assert args + ["--port"] + [value] == front;
    LastArg(args, "--port", value);
  }

  lemma StillTold(env: seq<EnvVar>, world: World, conf: WorkerConf, name: string, proxy: int, hostName: string)
    ensures var more := env + [FieldVar("MPICH_INTERFACE_HOSTNAME", "status.podIP")];
            && (TellsHost(env, hostName) ==> TellsHost(more, hostName))
            && (TellsWho(world, conf, name, env) ==> TellsWho(world, conf, name, more))
            && (TellsProxy(conf, proxy, env) ==> TellsProxy(conf, proxy, more))
  {
  }

  /** Reading back what was written: IDs and proxy numbers survive printing and parsing. */
  lemma WorkerReadsBack(keys: Keys, pod: Pod, id: int, name: string, checksum: string, proxy: Option<int>)
    requires keys.workerID in pod.annotations && pod.annotations[keys.workerID] == Decimal.Format(id) && IsInt(id)
    requires keys.workerName in pod.annotations && pod.annotations[keys.workerName] == name
    requires keys.templateChecksum in pod.annotations && pod.annotations[keys.templateChecksum] == checksum
    requires match proxy
             case None => keys.poolProxyID !in pod.annotations
             case Some(p) =>
               && keys.poolProxyID in pod.annotations && pod.annotations[keys.poolProxyID] == Decimal.Format(p)
               && IsInt(p)
    ensures WorkerOfPod(keys, pod) ==
      Some(VersionedWorker(DeployedWorker(pod.name, id, name), checksum, proxy.Some?,
                           if proxy.Some? then proxy.value else 0))
  {
    hide Decimal.Format, Decimal.Atoi;
    Decimal.RoundTrip(id);
    if proxy.Some? {
      Decimal.RoundTrip(proxy.value);
    }
  }

  /** The worker these settings describe for an ID, in a pod of this name. */
  function WorkerFor(checksum: string, conf: WorkerConf, id: nat, podName: string): VersionedWorker
    requires conf.usePoolProxy ==> conf.workersPerPoolProxy >= 1
  {
    VersionedWorker(DeployedWorker(podName, id, conf.workerPrefix + Decimal.Format(id)), checksum, conf.usePoolProxy,
                    if conf.usePoolProxy then CalculateProxyIDForWorker(id, conf.workersPerPoolProxy) else 0)
  }

  predicate WrittenFor(keys: Keys, w: VersionedWorker, a: Meta) {
    && keys.workerID in a && a[keys.workerID] == Decimal.Format(w.deployed.id)
    && keys.workerName in a && a[keys.workerName] == w.deployed.name
    && keys.templateChecksum in a && a[keys.templateChecksum] == w.checksum
    && if w.usesProxy then keys.poolProxyID in a && a[keys.poolProxyID] == Decimal.Format(w.proxyID)
       else keys.poolProxyID !in a
  }

  lemma BuiltPodIsOK(world: World, checksum: string, conf: WorkerConf, id: nat, pod: Pod)
    requires WorkerConfFits(world, checksum, conf) && 1 <= id && IsInt(id) && IdAllowed(world, id)
    requires WrittenFor(world.keys, WorkerFor(checksum, conf, id, pod.name), pod.annotations)
    requires IsWorkerPod(world, world.templateOf(checksum), conf, WorkerFor(checksum, conf, id, pod.name), pod)
    ensures PodOK(world, pod) && WorkerOfPod(world.keys, pod) == Some(WorkerFor(checksum, conf, id, pod.name))
  {
    hide Decimal.Format, EnvValue, WorkerConfOf, WorkerOfPod, IsWorkerPod;
    var w := WorkerFor(checksum, conf, id, pod.name);
    if w.usesProxy {
      CeilDivInRange(id, conf.workersPerPoolProxy);
    }
    WorkerReadsBack(world.keys, pod, id, w.deployed.name, checksum, if w.usesProxy then Some(w.proxyID) else None);
  }

  lemma ProxyReadsBack(keys: Keys, d: Deployment, id: int, checksum: string, secret: Option<string>)
    requires keys.poolProxyID in d.annotations && d.annotations[keys.poolProxyID] == Decimal.Format(id) && IsInt(id)
    requires keys.templateChecksum in d.annotations && d.annotations[keys.templateChecksum] == checksum
    requires match secret
             case None => keys.secretName !in d.annotations
             case Some(s) => keys.secretName in d.annotations && d.annotations[keys.secretName] == s
    ensures ProxyOfDeployment(keys, d) ==
      Some(VersionedProxy(id, d.name, checksum, secret.Some?, if secret.Some? then secret.value else ""))
  {
    hide Decimal.Format, Decimal.Atoi;
    Decimal.RoundTrip(id);
  }

  lemma BuiltDeploymentIsOK(world: World, checksum: string, conf: ProxyConf, id: nat, d: Deployment)
    requires ProxyConfFits(world, checksum, conf) && 1 <= id && IsInt(id) && ProxyAllowed(world, id)
    requires world.keys.poolProxyID in d.annotations && d.annotations[world.keys.poolProxyID] == Decimal.Format(id)
    requires world.keys.templateChecksum in d.annotations && d.annotations[world.keys.templateChecksum] == checksum
    requires if conf.useSecureCommunication then
               world.keys.secretName in d.annotations && d.annotations[world.keys.secretName] == d.name
             else world.keys.secretName !in d.annotations
    requires d.name == ProxyName(id, conf.poolProxyPrefix) && SelectsItsOwn(world.keys, d, id)
    requires IsProxyDeployment(world, world.templateOf(checksum), conf, id, d)
    ensures DeploymentOK(world, d)
    ensures ProxyOfDeployment(world.keys, d) ==
      Some(VersionedProxy(id, d.name, checksum, conf.useSecureCommunication, if conf.useSecureCommunication
                          then d.name else ""))
  {
    hide Decimal.Format, ProxyConfOf, IsProxyDeployment;
    ProxyReadsBack(world.keys, d, id, checksum, if conf.useSecureCommunication then Some(d.name) else None);
  }

  class SpecFactory {
    const store: Store

    constructor (store: Store)
      ensures this.store == store
    {
      this.store := store;
    }

    method GetWorkerConfFromAnnotations(meta: Meta) returns (conf: Result<WorkerConf>)
      ensures conf == WorkerConfOf(store.client.world.keys, meta)
    {
      hide Decimal.ParseBool, Decimal.Atoi;
      var keys := store.client.world.keys;
      var strings := SetFromAnnotations({keys.logDir, keys.workerDomain, keys.workerPrefix}, meta, GetString);
      if strings.Failure? {
        return Failure;
      }
      var bools := SetFromAnnotations({keys.usePoolProxy}, meta, GetBool);
      if bools.Failure? {
        return Failure;
      }
      var c := WorkerConf(strings.value[keys.logDir], strings.value[keys.workerDomain],
                          strings.value[keys.workerPrefix],
                          bools.value[keys.usePoolProxy], "", "", 0, 0, false);
      if !c.usePoolProxy {
        return Success(c);
      }
      strings := SetFromAnnotations({keys.certVolume, keys.poolProxyPrefix}, meta, GetString);
      if strings.Failure? {
        return Failure;
      }
      var ints := SetFromAnnotations({keys.workersPerPoolProxy, keys.poolProxyBasePort}, meta, GetInt);
      if ints.Failure? {
        return Failure;
      }
      bools := SetFromAnnotations({keys.useSecureCommunication}, meta, GetBool);
      if bools.Failure? {
        return Failure;
      }
      return Success(c.(certVolume := strings.value[keys.certVolume],
                        poolProxyPrefix := strings.value[keys.poolProxyPrefix],
                        workersPerPoolProxy := ints.value[keys.workersPerPoolProxy],
                        poolProxyBasePort := ints.value[keys.poolProxyBasePort],
                        useSecureCommunication := bools.value[keys.useSecureCommunication]));
    }

    method GetPoolProxyConfFromAnnotations(meta: Meta) returns (conf: Result<ProxyConf>)
      ensures conf == ProxyConfOf(store.client.world.keys, meta)
    {
      hide Decimal.ParseBool, Decimal.Atoi;
      var keys := store.client.world.keys;
      var strings := SetFromAnnotations({keys.certVolume, keys.poolProxyPrefix, keys.logDir}, meta, GetString);
      if strings.Failure? {
        return Failure;
      }
      var ints := SetFromAnnotations({keys.poolProxyBasePort}, meta, GetInt);
      if ints.Failure? {
        return Failure;
      }
      var bools := SetFromAnnotations({keys.useSecureCommunication}, meta, GetBool);
      if bools.Failure? {
        return Failure;
      }
      return Success(ProxyConf(strings.value[keys.certVolume], strings.value[keys.poolProxyPrefix],
                               strings.value[keys.logDir],
                               ints.value[keys.poolProxyBasePort], bools.value[keys.useSecureCommunication]));
    }

    /** The variables that tell a worker who and where it is, and where its proxy is. */
    method WorkerVars(conf: WorkerConf, id: nat, name: string, hostName: string) returns (vars: map<string, string>)
      requires conf.usePoolProxy ==> conf.workersPerPoolProxy >= 1
      ensures vars.Keys == WorkerVariables(conf.usePoolProxy) - {"MPICH_INTERFACE_HOSTNAME"}
      ensures vars["WORKER_NAME"] == name && vars["LOGBASE"] == store.client.world.joinPath(conf.logDir, name)
      ensures vars["HOSTNAME"] == vars["MDCE_OVERRIDE_INTERNAL_HOSTNAME"] == hostName
      ensures vars["MDCE_OVERRIDE_EXTERNAL_HOSTNAME"] == hostName
      ensures conf.usePoolProxy ==>
        var proxyID := CalculateProxyIDForWorker(id, conf.workersPerPoolProxy);
        && vars["PARALLEL_SERVER_POOL_PROXY_HOST"] == ProxyName(proxyID, conf.poolProxyPrefix)
        && vars["PARALLEL_SERVER_POOL_PROXY_PORT"] == Decimal.Format(ProxyPort(proxyID, conf.poolProxyBasePort))
    {
      hide Decimal.Format, ProxyName, ProxyPort, CalculateProxyIDForWorker;
      vars := map["WORKER_NAME" := name, "LOGBASE" := store.client.world.joinPath(conf.logDir, name),
                  "HOSTNAME" := hostName, "MDCE_OVERRIDE_INTERNAL_HOSTNAME" := hostName,
                  "MDCE_OVERRIDE_EXTERNAL_HOSTNAME" := hostName];
      if conf.usePoolProxy {
        var proxyID := CalculateProxyIDForWorker(id, conf.workersPerPoolProxy);
        vars := vars["PARALLEL_SERVER_POOL_PROXY_HOST" := ProxyName(proxyID, conf.poolProxyPrefix)];
        vars := vars["PARALLEL_SERVER_POOL_PROXY_PORT" :=
                     Decimal.Format(ProxyPort(proxyID, conf.poolProxyBasePort))];
      }
    }

    /** The environment of the template with those variables. */
    method WorkerEnv(env: seq<EnvVar>, conf: WorkerConf, id: nat, name: string, hostName: string)
      returns (all: seq<EnvVar>)
      requires conf.usePoolProxy ==> conf.workersPerPoolProxy >= 1
      ensures AddsOnly(env, all, WorkerVariables(conf.usePoolProxy))
      ensures TellsHost(all, hostName) && TellsWho(store.client.world, conf, name, all)
      ensures conf.usePoolProxy ==> TellsProxy(conf, CalculateProxyIDForWorker(id, conf.workersPerPoolProxy), all)
    {
      hide Decimal.Format, EnvValue, ProxyName, ProxyPort, CalculateProxyIDForWorker;
      var workerEnv := WorkerVars(conf, id, name, hostName);
      all := AddEnv(env, workerEnv);
    }

    /** The template's spec with this worker's host name, environment and certificate volume. MPI is told the pod's
        own address, and the pod resolves its own host name. */
    method CompleteWorkerSpec(template: PodSpec, conf: WorkerConf, id: nat, name: string, podName: string)
      returns (spec: PodSpec)
      requires name == conf.workerPrefix + Decimal.Format(id)
      requires conf.usePoolProxy ==> conf.workersPerPoolProxy >= 1
      ensures forall checksum ::
        IsWorkerSpec(store.client.world, template, conf, WorkerFor(checksum, conf, id, podName), spec)
      ensures forall variable | variable !in WorkerVariables(conf.usePoolProxy) ::
        EnvValue(spec.env, variable) == EnvValue(template.env, variable)
    {
      hide Decimal.Format, EnvValue, ProxyName, ProxyPort, CalculateProxyIDForWorker, TellsHost, TellsProxy, TellsWho;
      var hostName := podName + "." + conf.workerDomain;
      spec := template.(hostname := podName);
      if conf.usePoolProxy && conf.useSecureCommunication {
        var proxyID := CalculateProxyIDForWorker(id, conf.workersPerPoolProxy);
        var proxyName := ProxyName(proxyID, conf.poolProxyPrefix);
        spec := spec.(volumes := spec.volumes + [SecretVolume(conf.certVolume, proxyName)]);
      }
      var env := WorkerEnv(spec.env, conf, id, name, hostName);
      spec := spec.(env := env + [FieldVar("MPICH_INTERFACE_HOSTNAME", "status.podIP")]);
      spec := spec.(hostAliases := [HostAlias("127.0.0.1", [hostName])]);
      OthersKeepValues(template.env, spec.env, WorkerVariables(conf.usePoolProxy));
      StillTold(env, store.client.world, conf, name,
                if conf.usePoolProxy then CalculateProxyIDForWorker(id, conf.workersPerPoolProxy) else 0, hostName);
    }

    /** The pod reads back as the worker that the cached template describes for this ID, and is what the template
        describes for that worker. */
    method GetWorkerPodSpec(id: nat) returns (r: Result<Pod>)
      requires store.Valid() && store.client.world.Valid()
      requires 1 <= id && IsInt(id) && IdAllowed(store.client.world, id)
      ensures r.Success? <==>
        WorkerConfOf(store.client.world.keys, store.workerTemplate.spec.value.annotations).Success?
      ensures r.Success? ==>
        && PodOK(store.client.world, r.value) && !r.value.terminating
        && var (template, w) := (store.workerTemplate.spec.value, WorkerOfPod(store.client.world.keys, r.value).value);
        && w.checksum == store.workerTemplate.checksum
        && w.deployed.id == id && w.deployed.podName == r.value.name
        && IsWorkerPod(store.client.world, template, WorkerConfOf(store.client.world.keys, template.annotations).value,
                       w, r.value)
    {
      hide World.Conforms, World.Checksum, Decimal.Format, PodOK, WorkerOfPod, WorkerConfOf, EnvValue, IsWorkerSpec;
      var (template, checksum) := store.GetWorkerPodTemplate();
      var keys := store.client.world.keys;
      var conf := GetWorkerConfFromAnnotations(template.value.annotations);
      if conf.Failure? {
        return Failure;
      }
      WorkerTemplateConforms(store.client.world, store.workerTemplate, conf.value);
      var name := conf.value.workerPrefix + Decimal.Format(id);
      var suffix: string := *;
      var podName := name + "-" + suffix;
      var spec := CompleteWorkerSpec(template.value.spec, conf.value, id, name, podName);
      var annotations := template.value.annotations;
      if conf.value.usePoolProxy {
        annotations := annotations[keys.poolProxyID :=
                                   Decimal.Format(CalculateProxyIDForWorker(id, conf.value.workersPerPoolProxy))];
      }
      annotations := annotations[keys.workerName := name];
      annotations := annotations[keys.workerID := Decimal.Format(id)];
      annotations := annotations[keys.templateChecksum := checksum];
      var labels := template.value.labels;
      labels := labels[keys.workerName := name];
      labels := labels[keys.workerID := Decimal.Format(id)];
      var pod := Pod(podName, labels, annotations, spec, false);
      BuiltPodIsOK(store.client.world, checksum, conf.value, id, pod);
      return Success(pod);
    }

    /** The deployment reads back as the proxy of this ID and is what the cached template describes for it. */
    method GetPoolProxyDeploymentSpec(id: nat) returns (r: Result<Deployment>)
      requires store.Valid() && store.client.world.Valid()
      requires 1 <= id && IsInt(id) && ProxyAllowed(store.client.world, id)
      ensures r.Success? <==>
        && store.config.usePoolProxy
        && ProxyConfOf(store.client.world.keys, store.proxyTemplate.spec.value.annotations).Success?
      ensures r.Success? ==>
        && DeploymentOK(store.client.world, r.value)
        && var (template, p) :=
             (store.proxyTemplate.spec.value, ProxyOfDeployment(store.client.world.keys, r.value).value);
        && p.id == id && p.checksum == store.proxyTemplate.checksum && p.deploymentName == r.value.name
        && IsProxyDeployment(store.client.world, template,
                             ProxyConfOf(store.client.world.keys, template.annotations).value, id, r.value)
    {
      hide World.Conforms, World.Checksum, Decimal.Format, DeploymentOK, ProxyOfDeployment, ProxyConfOf, ArgValue;
      var (template, checksum) := store.GetPoolProxyPodTemplate();
      if template.None? {
        return Failure;
      }
      var keys := store.client.world.keys;
      var conf := GetPoolProxyConfFromAnnotations(template.value.annotations);
      if conf.Failure? {
        return Failure;
      }
      ProxyTemplateConforms(store.client.world, store.proxyTemplate, conf.value);
      var name := ProxyName(id, conf.value.poolProxyPrefix);
      var port := ProxyPort(id, conf.value.poolProxyBasePort);
      var spec := template.value.spec;
      spec := spec.(args := spec.args + ["--port", Decimal.Format(port)]);
      var logFile := store.client.world.joinPath(conf.value.logDir, name + ".log");
      spec := spec.(args := spec.args + ["--logfile", logFile]);
      if conf.value.useSecureCommunication {
        spec := spec.(volumes := spec.volumes + [SecretVolume(conf.value.certVolume, name)]);
      }
      var annotations: Meta := map[];
      annotations := annotations[keys.poolProxyID := Decimal.Format(id)];
      annotations := annotations[keys.templateChecksum := checksum];
      if conf.value.useSecureCommunication {
        annotations := annotations[keys.secretName := name];
      }
      var labels := template.value.labels[keys.poolProxyID := Decimal.Format(id)];
      var d := Deployment(name, labels, annotations, labels, labels, spec);
      LastArgs(template.value.spec.args, port, logFile);
      BuiltDeploymentIsOK(store.client.world, checksum, conf.value, id, d);
      return Success(d);
    }
  }
}
