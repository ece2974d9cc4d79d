/** Small concrete clusters: a worker, its proxy and the certificate of that proxy; and two workers with one ID. */
module Example {
  import opened Wrappers
  import opened Annotations
  import opened Objects
  import opened TemplateConf
  import opened World
  import opened Cluster
  import opened TemplateStore
  import opened Specs
  import opened Resize
  import Base32
  import Ceiling
  import Decimal

  function ExampleKeys(): Keys {
    Keys(
    "cert-volume", "log-dir", "base-port", "proxy-id", "proxy-prefix", "secret", "checksum", "use-proxy", "secure",
    "domain", "worker-name", "worker-id", "worker-prefix", "workers-per-proxy")
  }

  /** The chart's settings, with or without secure communication. */
  function Settings(secure: bool): Meta {
    map["cert-volume" := "certs", "log-dir" := "/log", "base-port" := Decimal.Format(30000), "proxy-prefix" := "proxy-",
        "use-proxy" := "true", "secure" := if secure then "true" else "false", "domain" := "workers",
        "worker-prefix" := "worker-", "workers-per-proxy" := Decimal.Format(32)]
  }

  function TemplateWith(secure: bool): PodTemplate {
    PodTemplate(map[], Settings(secure), PodSpec("", [], [], [], []))
  }

  function DigestWith(secure: bool): Digest {
    seq(32, _ => if secure then 1 else 0)
  }

  function ChecksumWith(secure: bool): string {
    Base32.ChecksumToString(DigestWith(secure))
  }

  /** Two texts parse: "secure" and "plain". */
  function ExampleWorld(): World {
    World(
      ExampleKeys(),
      text => if text == "secure" then Some(TemplateWith(true))
              else if text == "plain" then Some(TemplateWith(false)) else None,
      text => DigestWith(text == "secure"),
      (dir, name) => dir + "/" + name,
      checksum => TemplateWith(checksum == ChecksumWith(true)),
      "proxy-", None)
  }

  lemma ChecksumsDiffer()
    ensures ChecksumWith(true) != ChecksumWith(false)
    ensures ExampleWorld().templateOf(ChecksumWith(true)) == TemplateWith(true)
    ensures ExampleWorld().templateOf(ChecksumWith(false)) == TemplateWith(false)
  {
    hide Base32.ChecksumToString;
    Base32.ChecksumIsInjective(DigestWith(true), DigestWith(false));
    assert DigestWith(true)[0] != DigestWith(false)[0];
  }

  function ConfWith(secure: bool): WorkerConf {
    WorkerConf("/log", "workers", "worker-", true, "certs", "proxy-", 32, 30000, secure)
  }

  lemma SettingsAreRead(secure: bool)
    ensures WorkerConfOf(ExampleKeys(), Settings(secure)) == Success(ConfWith(secure))
    ensures ProxyConfOf(ExampleKeys(), Settings(secure)) == Success(ProxyConf("certs", "proxy-", "/log", 30000, secure))
  {
    hide Decimal.Format, Decimal.Atoi;
    Decimal.RoundTrip(30000);
    Decimal.RoundTrip(32);
  }

  lemma SecureConfIsSecure()
    ensures ExampleWorld().ProxyConfFor(ChecksumWith(true)).Success?
    ensures ExampleWorld().ProxyConfFor(ChecksumWith(true)).value.useSecureCommunication
  {
    hide Base32.ChecksumToString, ProxyConfOf;
    ChecksumsDiffer();
    SettingsAreRead(true);
  }

  lemma NoProxyYet(secure: bool)
    ensures "proxy-id" !in Settings(secure)
  {
    hide Decimal.Format;
  }

  lemma TextConforms(text: string, secure: bool)
    requires text == if secure then "secure" else "plain"
    ensures ExampleWorld().Conforms(text)
  {
    hide Base32.ChecksumToString, WorkerConfOf, ProxyConfOf, Settings;
    ChecksumsDiffer();
    SettingsAreRead(secure);
    NoProxyYet(secure);
  }

  lemma KeysAreDistinct()
    ensures ExampleWorld().Valid()
  {
  }

  lemma AllTextsConform()
    ensures ExampleWorld().Valid() && forall text :: ExampleWorld().Conforms(text)
  {
    hide Base32.ChecksumToString, WorkerConfOf, ProxyConfOf, Settings, Keys.Distinct;
    KeysAreDistinct();
    TextConforms("secure", true);
    TextConforms("plain", false);
  }

  function PodName(secure: bool): string {
    "worker-" + Decimal.Format(1) + "-" + if secure then "a" else "b"
  }

  function HostName(secure: bool): string {
    PodName(secure) + "." + "workers"
  }

  function EnvWith(secure: bool): seq<EnvVar> {
    var name := "worker-" + Decimal.Format(1);
    [EnvVar("WORKER_NAME", name), EnvVar("LOGBASE", "/log" + "/" + name), EnvVar("HOSTNAME", HostName(secure)),
     EnvVar("MDCE_OVERRIDE_INTERNAL_HOSTNAME", HostName(secure)),
     EnvVar("MDCE_OVERRIDE_EXTERNAL_HOSTNAME", HostName(secure)),
     EnvVar("PARALLEL_SERVER_POOL_PROXY_HOST", ProxyName(1, "proxy-")),
     EnvVar("PARALLEL_SERVER_POOL_PROXY_PORT", Decimal.Format(30000)),
     FieldVar("MPICH_INTERFACE_HOSTNAME", "status.podIP")]
  }

  function CertVolumes(secure: bool): seq<SecretVolume> {
    if secure then [SecretVolume("certs", ProxyName(1, "proxy-"))] else []
  }

  /** A worker made from the secure template, or one with the same ID made from the other. */
  function PodWith(secure: bool): Pod {
    Pod(
      PodName(secure), map["worker-id" := Decimal.Format(1), "worker-name" := "worker-" + Decimal.Format(1)],
      Settings(secure)["worker-id" := Decimal.Format(1)]["worker-name" := "worker-" + Decimal.Format(1)]
                      ["checksum" := ChecksumWith(secure)]["proxy-id" := Decimal.Format(1)],
      PodSpec(PodName(secure), EnvWith(secure), [], CertVolumes(secure), [HostAlias("127.0.0.1", [HostName(secure)])]),
      false)
  }

  function WorkerWith(secure: bool): VersionedWorker {
    VersionedWorker(DeployedWorker(PodName(secure), 1, "worker-" + Decimal.Format(1)), ChecksumWith(secure), true, 1)
  }

  function ProxyDeployment(secure: bool): Deployment {
    var annotations: Meta := map["proxy-id" := Decimal.Format(1), "checksum" := ChecksumWith(secure)];
    var labels: Meta := map["proxy-id" := Decimal.Format(1)];
    Deployment(ProxyName(1, "proxy-"), labels,
               if secure then annotations["secret" := ProxyName(1, "proxy-")] else annotations, labels, labels,
               PodSpec("", [],
                       ["--port", Decimal.Format(30000), "--logfile", "/log" + "/" + (ProxyName(1, "proxy-") + ".log")],
                       CertVolumes(secure), []))
  }

  function ProxyWith(secure: bool): VersionedProxy {
    VersionedProxy(1, ProxyName(1, "proxy-"), ChecksumWith(secure), secure,
                   if secure then ProxyName(1, "proxy-") else "")
  }

  /** The worker is made from the secure template; its proxy from either. */
  function Start(secure: bool): State {
    State(map[PodWith(true).name := PodWith(true)], map[ProxyName(1, "proxy-") := ProxyDeployment(secure)],
          if secure then map[ProxyName(1, "proxy-") := map["cert" := "certificate"]] else map[])
  }

  lemma WorkerConfIsFit(secure: bool)
    ensures WorkerConfFits(ExampleWorld(), ChecksumWith(secure), ConfWith(secure))
  {
    hide Base32.ChecksumToString, WorkerConfOf;
    ChecksumsDiffer();
    SettingsAreRead(secure);
  }

  lemma {:induction false} LastOfName(env: seq<EnvVar>, i: nat)
    requires i < |env| && env[i].EnvVar? && forall j | i < j < |env| :: env[j].name != env[i].name
    ensures EnvValue(env, env[i].name) == Some(env[i].value)
  {
    if i < |env| - 1 {
      LastOfName(env[..|env| - 1], i);
    }
  }

  lemma EnvIsRead(secure: bool)
    ensures TellsWho(ExampleWorld(), ConfWith(secure), "worker-" + Decimal.Format(1), EnvWith(secure))
    ensures TellsHost(EnvWith(secure), HostName(secure)) && TellsProxy(ConfWith(secure), 1, EnvWith(secure))
  {
    hide Base32.ChecksumToString, Decimal.Format, ProxyName, HostName, EnvValue;
    var env := EnvWith(secure);
    for i := 0 to |env| - 1
      invariant forall j | 0 <= j < i :: EnvValue(env, env[j].name) == Some(env[j].value)
    {
      LastOfName(env, i);
    }
    assert EnvValue(env, env[0].name) == Some(env[0].value) && EnvValue(env, env[1].name) == Some(env[1].value);
    assert EnvValue(env, env[2].name) == Some(env[2].value) && EnvValue(env, env[3].name) == Some(env[3].value);
    assert EnvValue(env, env[4].name) == Some(env[4].value) && EnvValue(env, env[5].name) == Some(env[5].value);
    assert EnvValue(env, env[6].name) == Some(env[6].value);
  }

  lemma EnvIsAdded(secure: bool)
    ensures AddsOnly([], EnvWith(secure), WorkerVariables(true))
  {
    hide Decimal.Format, ProxyName, HostName;
  }

  lemma SpecIsDescribed(secure: bool)
    ensures IsWorkerSpec(ExampleWorld(), TemplateWith(secure).spec, ConfWith(secure), WorkerWith(secure),
                         PodWith(secure).spec)
  {
    hide Base32.ChecksumToString, Decimal.Format, ProxyName, TellsWho, TellsHost, TellsProxy, Settings, ChecksumWith,
      AddsOnly, WorkerVariables, ExampleWorld, PodName;
    EnvIsRead(secure);
    EnvIsAdded(secure);
  }

  lemma PodIsDescribed(secure: bool)
    ensures IsWorkerPod(ExampleWorld(), TemplateWith(secure), ConfWith(secure), WorkerWith(secure), PodWith(secure))
  {
    hide Base32.ChecksumToString, Decimal.Format, ProxyName, Settings, ChecksumWith, IsWorkerSpec, EnvWith, HostName;
    SpecIsDescribed(secure);
  }

  lemma PodIsOK(secure: bool)
    ensures PodOK(ExampleWorld(), PodWith(secure))
    ensures WorkerOfPod(ExampleKeys(), PodWith(secure)) == Some(WorkerWith(secure))
  {
    hide Base32.ChecksumToString, WorkerConfOf, WorkerOfPod, Decimal.Format, PodOK, WorkerConfFits, IsWorkerPod,
      ProxyName, Settings;
    WorkerConfIsFit(secure);
    PodIsDescribed(secure);
    ChecksumsDiffer();
    Ceiling.CeilDivUnique(1, 32, 1);
    BuiltPodIsOK(ExampleWorld(), ChecksumWith(secure), ConfWith(secure), 1, PodWith(secure));
  }

  lemma LabelSelects(id: string, d: Deployment)
    requires d.selector == d.podLabels == map["proxy-id" := id] && id == Decimal.Format(1)
    ensures SelectsItsOwn(ExampleKeys(), d, 1)
  {
  }

  lemma ProxyConfIsFit(secure: bool)
    ensures ProxyConfFits(ExampleWorld(), ChecksumWith(secure), ProxyConf("certs", "proxy-", "/log", 30000, secure))
  {
    hide Base32.ChecksumToString, ProxyConfOf;
    ChecksumsDiffer();
    SettingsAreRead(secure);
  }

  lemma DeploymentIsDescribed(secure: bool)
    ensures IsProxyDeployment(ExampleWorld(), TemplateWith(secure),
                              ProxyConf("certs", "proxy-", "/log", 30000, secure), 1, ProxyDeployment(secure))
  {
    hide Base32.ChecksumToString, Decimal.Format, Settings, ChecksumWith, ArgValue;
    var logFile := "/log" + "/" + (ProxyName(1, "proxy-") + ".log");
    LastArgs([], 30000, logFile);
    assert ProxyDeployment(secure).spec.args == [] + ["--port", Decimal.Format(30000)] + ["--logfile", logFile];
  }

  lemma DeploymentIsOK(secure: bool)
    ensures DeploymentOK(ExampleWorld(), ProxyDeployment(secure))
    ensures ProxyOfDeployment(ExampleKeys(), ProxyDeployment(secure)) == Some(ProxyWith(secure))
  {
    hide Base32.ChecksumToString, ProxyConfOf, ProxyOfDeployment, Decimal.Format, DeploymentOK, ArgValue,
      World.ProxyConfFor, ProxyConfFits, SelectsItsOwn, Settings;
    ProxyConfIsFit(secure);
    ChecksumsDiffer();
    DeploymentIsDescribed(secure);
    LabelSelects(Decimal.Format(1), ProxyDeployment(secure));
    BuiltDeploymentIsOK(ExampleWorld(), ChecksumWith(secure), ProxyConf("certs", "proxy-", "/log", 30000, secure), 1,
                        ProxyDeployment(secure));
  }

  lemma ExampleParts(secure: bool)
    ensures ExampleWorld().keys == ExampleKeys() && ExampleWorld().layout == None && !PodWith(true).terminating
            && ProxyWith(secure).id == 1
    ensures ProxyDeployment(secure).name == ProxyName(1, "proxy-") && WorkerWith(true).proxyID == 1
            && WorkerWith(true).usesProxy
    ensures Start(false).secrets == map[] && ProxyWith(false).deploymentName == ProxyName(1, "proxy-")
    ensures ProxyWith(secure).usesSecret == secure
            && (secure ==> ProxyWith(secure).secretName == ProxyName(1, "proxy-"))
  {
  }

  lemma NothingIsLive(world: World)
    ensures Live(world.keys, map[]) == map[] && Proxies(world, map[]) == map[]
  {
  }

  /** The example is sound, healthy and complete. */
  lemma StartIsSound(secure: bool)
    ensures SoundState(ExampleWorld(), Start(secure)) && HealthyState(ExampleWorld(), Start(secure))
    ensures Live(ExampleKeys(), Start(secure).pods) == map[PodWith(true).name := WorkerWith(true)]
    ensures Proxies(ExampleWorld(), Start(secure).deployments) == map[1 := ProxyWith(secure)]
    ensures SecretsPresent(Proxies(ExampleWorld(), Start(secure).deployments), Start(secure).secrets.Keys)
  {
    hide Base32.ChecksumToString, WorkerOfPod, ProxyOfDeployment, PodOK, DeploymentOK, Decimal.Format, Live, Proxies,
      PodWith, WorkerWith, ProxyDeployment, ProxyWith, ExampleWorld, World.NameOfProxy;
    PodIsOK(true);
    DeploymentIsOK(secure);
    ExampleParts(secure);
    var (world, pod, d) := (ExampleWorld(), PodWith(true), ProxyDeployment(secure));
    NothingIsLive(world);
    LiveGains(world, map[], pod);
    ProxiesChange(world, map[], d);
  }

  /** The secure template is installed for workers and proxies. */
  function Installed(): Texts {
    map["worker-template" := map["file" := "secure"], "proxy-template" := map["file" := "secure"]]
  }

  /** A resizer on a cluster in this state; the secure templates are installed and cached. */
  method NewResizerOn(s: State) returns (resizer: K8sResizer)
    requires SoundState(ExampleWorld(), s)
    ensures fresh(resizer) && fresh(resizer.client) && fresh(resizer.store)
    ensures fresh(resizer.store.workerTemplate) && fresh(resizer.store.proxyTemplate)
    ensures resizer.Valid() && resizer.secretFailures == 0
    ensures resizer.client.s == s && resizer.client.history == [s] && resizer.client.texts == Installed()
    ensures resizer.client.n == Tally(0, 0, 0, 0, 0, 0, 0, 0) && resizer.client.world == ExampleWorld()
    ensures resizer.LatestProxyChecksum() == ChecksumWith(true)
    ensures resizer.store.config == StoreConfig(true, "worker-template", "proxy-template", "file")
  {
    hide Base32.ChecksumToString, SoundState, HealthyState, Live, Proxies, World.Conforms, Decimal.Format;
    AllTextsConform();
    var client := new Cluster(ExampleWorld(), s, Installed());
    var worker := new Template(ExampleWorld().parse("secure"), ExampleWorld().Checksum("secure"), "secure");
    var proxy := new Template(ExampleWorld().parse("secure"), ExampleWorld().Checksum("secure"), "secure");
    var store := new Store.Init(client, StoreConfig(true, "worker-template", "proxy-template", "file"), worker, proxy);
    var specFactory := new SpecFactory(store);
    resizer := new K8sResizer(store, specFactory, "cert");
  }

  /** A resizer on the example cluster. */
  method NewResizer(secure: bool) returns (resizer: K8sResizer)
    ensures fresh(resizer) && fresh(resizer.client) && fresh(resizer.store)
    ensures fresh(resizer.store.workerTemplate) && fresh(resizer.store.proxyTemplate)
    ensures resizer.Valid() && resizer.client.Healthy() && resizer.client.SecretsThere() && resizer.secretFailures == 0
    ensures resizer.client.LiveNow() == map[PodWith(true).name := WorkerWith(true)]
            && resizer.client.ProxiesNow() == map[1 := ProxyWith(secure)]
    ensures resizer.client.s.secrets == Start(secure).secrets && resizer.LatestProxyChecksum() == ChecksumWith(true)
    ensures resizer.client.n == Tally(0, 0, 0, 0, 0, 0, 0, 0) && resizer.client.world == ExampleWorld()
    ensures resizer.client.history == [Start(secure)]
  {
    hide K8sResizer.Valid, SoundState, HealthyState, Live, Proxies, SecretsPresent, Start, PodWith, WorkerWith,
      ProxyWith, ChecksumWith;
    StartIsSound(secure);
    resizer := NewResizerOn(Start(secure));
  }

  /** Two workers with one ID, one of them outdated, on one proxy. */
  function Twins(): State {
    State(map[PodWith(true).name := PodWith(true), PodWith(false).name := PodWith(false)],
          map[ProxyName(1, "proxy-") := ProxyDeployment(true)], Start(true).secrets)
  }

  lemma TwinsDiffer()
    ensures PodWith(false).name != PodWith(true).name && !PodWith(false).terminating && !PodWith(true).terminating
    ensures WorkerWith(true).deployed.id == WorkerWith(false).deployed.id && WorkerWith(true).proxyID == 1
    ensures WorkerWith(true).usesProxy && WorkerWith(false).proxyID == 1
    ensures WorkerWith(true).checksum == ChecksumWith(true) != ChecksumWith(false) == WorkerWith(false).checksum
  {
    hide Base32.ChecksumToString, Decimal.Format;
    ChecksumsDiffer();
    var (a, b) := (PodName(true), PodName(false));
    assert a[|a| - 1] == 'a' && b[|b| - 1] == 'b';
  }

  /** That state is sound, and both workers have their proxy. */
  lemma TwinsAreSound()
    ensures SoundState(ExampleWorld(), Twins())
    ensures var (live, proxies) := (Live(ExampleKeys(), Twins().pods), Proxies(ExampleWorld(), Twins().deployments));
            && live == map[PodWith(true).name := WorkerWith(true), PodWith(false).name := WorkerWith(false)]
            && proxies == map[1 := ProxyWith(true)] && Backed(live, proxies)
  {
    hide Base32.ChecksumToString, WorkerOfPod, ProxyOfDeployment, PodOK, DeploymentOK, Decimal.Format, Live, Proxies,
      PodWith, WorkerWith, ProxyDeployment, ProxyWith, ExampleWorld, World.NameOfProxy, ChecksumWith;
    PodIsOK(true);
    PodIsOK(false);
    DeploymentIsOK(true);
    ExampleParts(true);
    TwinsDiffer();
    var (world, d) := (ExampleWorld(), ProxyDeployment(true));
    var one := map[PodWith(true).name := PodWith(true)];
    NothingIsLive(world);
    LiveGains(world, map[], PodWith(true));
    LiveGains(world, one, PodWith(false));
    assert one[PodWith(false).name := PodWith(false)] == Twins().pods;
    ProxiesChange(world, map[], d);
  }
}
