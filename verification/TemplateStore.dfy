/** The cached pod templates. */
module TemplateStore {
  import opened Wrappers
  import opened Objects
  import opened TemplateConf
  import opened World
  import opened Cluster

  datatype StoreConfig = StoreConfig(
    usePoolProxy: bool, workerTemplateName: string, poolProxyTemplateName: string, templateFile: string)

  class Template {
    var spec: Option<PodTemplate>
    var checksum: string
    ghost var text: string  // where spec and checksum come from

    /** Spec and checksum come from one and the same text. */
    ghost predicate Matches(world: World)
      reads this
    {
      spec.Some? && spec == world.parse(text) && checksum == world.Checksum(text) && world.Conforms(text)
    }

    constructor (spec: Option<PodTemplate>, checksum: string, ghost text: string)
      ensures this.spec == spec && this.checksum == checksum && this.text == text
    {
      this.spec, this.checksum, this.text := spec, checksum, text;
    }
  }

  /** The template text the API server holds under a name. */
  function CurrentText(texts: Texts, name: string, file: string): Option<string> {
    if name in texts && file in texts[name] then Some(texts[name][file]) else None
  }

  predicate Parses(world: World, text: Option<string>) {
    text.Some? && world.parse(text.value).Some?
  }

  method GetLatestPodTemplate(client: Cluster, name: string, file: string) returns (latest: Option<(string, string)>)
    requires client.Valid()
    modifies client
    ensures client.OnlyReads()
    ensures latest.None? ==> client.n.faults > old(client.n).faults
    ensures CurrentText(client.texts, name, file).Some? ==> client.OnlyOutages()
    ensures latest.Some? ==>
      && CurrentText(client.texts, name, file) == Some(latest.value.0)
      && latest.value.1 == client.world.Checksum(latest.value.0)
      && client.world.Conforms(latest.value.0)
  {
    hide SoundState, HealthyState, Live, Proxies, Base32.ChecksumToString, World.Conforms;
    var data := client.GetConfigMap(name);
    match data {
      case None => return None;
      case Some(files) =>
        if file !in files {
          client.Fault();
          return None;
        }
        return Some((files[file], client.world.Checksum(files[file])));
    }
  }

  class Store {
    const client: Cluster
    const config: StoreConfig
    const workerTemplate: Template
    const proxyTemplate: Template

    ghost predicate Valid()
      reads workerTemplate, proxyTemplate
    {
      && workerTemplate != proxyTemplate
      && workerTemplate.Matches(client.world)
      && (if config.usePoolProxy then proxyTemplate.Matches(client.world)
          else proxyTemplate.spec == None && proxyTemplate.checksum == "")
    }

    ghost predicate IsChecksumOf(checksum: string, text: Option<string>) {
      text.Some? && checksum == client.world.Checksum(text.value)
    }

    /** The cache is what a fresh look at these texts would give. */
    ghost predicate UpToDate(texts: Texts)
      reads workerTemplate, proxyTemplate
    {
      && IsChecksumOf(workerTemplate.checksum, CurrentText(texts, config.workerTemplateName, config.templateFile))
      && (config.usePoolProxy ==>
            IsChecksumOf(proxyTemplate.checksum, CurrentText(texts, config.poolProxyTemplateName, config.templateFile)))
    }

    /** This was the checksum of a worker template text in force at some time since `from`. */
    ghost predicate WasCurrent(checksum: string, texts: seq<Texts>, from: int) {
      exists k :: 0 <= k < |texts| && from <= k
        && IsChecksumOf(checksum, CurrentText(texts[k], config.workerTemplateName, config.templateFile))
    }

    lemma StillWasCurrent(checksum: string, some: seq<Texts>, more: seq<Texts>, from: int, sooner: int)
      requires some <= more && sooner <= from
      ensures WasCurrent(checksum, some, from) ==> WasCurrent(checksum, more, sooner)
    {
    }

    lemma CurrentNow(checksum: string, from: int)
      requires client.Valid() && from <= |client.textHistory| - 1
      ensures IsChecksumOf(checksum, CurrentText(client.texts, config.workerTemplateName, config.templateFile)) ==>
        WasCurrent(checksum, client.textHistory, from)
    {
      hide SoundState, TextsConform;
      assert client.textHistory[|client.textHistory| - 1] == client.texts;
    }

    lemma WasCurrentLater(checksum: string, a: Moment, b: Moment, from: int)
      requires Follows(a, b)
      ensures WasCurrent(checksum, a.textHistory, from) ==> WasCurrent(checksum, b.textHistory, from)
    {
    }

    constructor Init(client: Cluster, config: StoreConfig, workerTemplate: Template, proxyTemplate: Template)
      requires workerTemplate != proxyTemplate && workerTemplate.Matches(client.world)
      requires if config.usePoolProxy then proxyTemplate.Matches(client.world)
               else proxyTemplate.spec == None && proxyTemplate.checksum == ""
      ensures Valid()
      ensures this.client == client && this.config == config
      ensures this.workerTemplate == workerTemplate && this.proxyTemplate == proxyTemplate
    {
      this.client, this.config := client, config;
      this.workerTemplate, this.proxyTemplate := workerTemplate, proxyTemplate;
    }

    /** There are template texts, and they can be decoded. */
    static predicate TextsParse(world: World, config: StoreConfig, texts: Texts) {
      && Parses(world, CurrentText(texts, config.workerTemplateName, config.templateFile))
      && (config.usePoolProxy ==> Parses(world, CurrentText(texts, config.poolProxyTemplateName, config.templateFile)))
    }

    static method New(client: Cluster, config: StoreConfig) returns (store: Option<Store>)
      requires client.Valid()
      modifies client
      ensures client.OnlyReads()
      ensures store.None? ==> client.n.faults > old(client.n).faults
      ensures client.n.edits == old(client.n).edits && TextsParse(client.world, config, old(client.texts)) ==>
        client.OnlyOutages()
      ensures store.Some? ==>
        && store.value.Valid() && store.value.client == client && store.value.config == config
        && fresh(store.value) && fresh(store.value.workerTemplate) && fresh(store.value.proxyTemplate)
        && (client.n.edits == old(client.n).edits ==> store.value.UpToDate(client.texts))
    {
      hide Cluster.Valid, Cluster.Healthy, SoundState, HealthyState, Live, Proxies, Base32.ChecksumToString,
        World.Conforms, Follows;
      var worker := NewTemplate(client, config.workerTemplateName, config.templateFile);
      ghost var mid := client.Now();
      FollowsParts(old(client.Now()), mid);
      if worker.None? {
        return None;
      }
      var proxy := new Template(None, "", "");
      if config.usePoolProxy {
        var parsed := NewTemplate(client, config.poolProxyTemplateName, config.templateFile);
        FollowsTrans(old(client.Now()), mid, client.Now());
        FollowsParts(mid, client.Now());
        if parsed.None? {
          return None;
        }
        proxy := parsed.value;
      }
      var s := new Store.Init(client, config, worker.value, proxy);
      return Some(s);
    }

    static method NewTemplate(client: Cluster, name: string, file: string) returns (tmpl: Option<Template>)
      requires client.Valid()
      modifies client
      ensures client.OnlyReads()
      ensures tmpl.None? ==> client.n.faults > old(client.n).faults
      ensures Parses(client.world, CurrentText(client.texts, name, file)) ==> client.OnlyOutages()
      ensures tmpl.Some? ==>
        && fresh(tmpl.value) && tmpl.value.Matches(client.world)
        && CurrentText(client.texts, name, file) == Some(tmpl.value.text)
    {
      hide SoundState, HealthyState, Live, Proxies, Base32.ChecksumToString, World.Conforms;
      var latest := GetLatestPodTemplate(client, name, file);
      if latest.None? {
        return None;
      }
      var (text, checksum) := latest.value;
      var spec := client.world.parse(text);
      if spec.None? {
        client.Fault();
        return None;
      }
      var t := new Template(spec, checksum, text);
      return Some(t);
    }

    /** After a refresh the cached pair is that of the current text, unless that text collides with
        the cached one. A refresh that fails leaves the old pair, never a mixed one. */
    method RefreshTemplate(tmpl: Template, name: string) returns (ok: bool)
      requires client.Valid() && tmpl.Matches(client.world)
      modifies client, tmpl
      ensures client.OnlyReads()
      ensures tmpl.Matches(client.world)
      ensures !ok ==> client.n.faults > old(client.n).faults
      ensures Parses(client.world, CurrentText(client.texts, name, config.templateFile)) ==> client.OnlyOutages()
      ensures !ok ==> tmpl.spec == old(tmpl.spec) && tmpl.checksum == old(tmpl.checksum)
      ensures ok ==>
        var text := CurrentText(client.texts, name, config.templateFile);
        && text.Some? && tmpl.checksum == client.world.Checksum(text.value)
        && client.world.digest(text.value) == client.world.digest(tmpl.text)
        && (tmpl.text == text.value ==> tmpl.spec == client.world.parse(text.value))
      ensures ok && old(IsChecksumOf(tmpl.checksum, CurrentText(client.texts, name, config.templateFile)))
              && client.n.edits == old(client.n).edits ==>
                tmpl.spec == old(tmpl.spec) && tmpl.checksum == old(tmpl.checksum)
    {
      hide Cluster.Healthy, SoundState, HealthyState, Live, Proxies, Base32.ChecksumToString, World.Conforms, Follows;
      var latest := GetLatestPodTemplate(client, name, config.templateFile);
      ghost var mid := client.Now();
      if latest.None? {
        return false;
      }
      FollowsParts(old(client.Now()), mid);
      var (text, checksum) := latest.value;
      Base32.ChecksumIsInjective(client.world.digest(text), client.world.digest(tmpl.text));
      if checksum == tmpl.checksum {
        return true;
      }
      var spec := client.world.parse(text);
      if spec.None? {
        client.Fault();
        FollowsTrans(old(client.Now()), mid, client.Now());
        return false;
      }
      tmpl.spec, tmpl.checksum, tmpl.text := spec, checksum, text;
      return true;
    }

    method Refresh() returns (ok: bool)
      requires client.Valid() && Valid()
      modifies client, workerTemplate, proxyTemplate
      ensures client.OnlyReads() && Valid()
      ensures !ok ==> client.n.faults > old(client.n).faults
      ensures client.n.edits == old(client.n).edits && TextsParse(client.world, config, old(client.texts)) ==>
        client.OnlyOutages()
      ensures ok && client.n.edits == old(client.n).edits ==> UpToDate(client.texts)
      ensures ok ==> WasCurrent(workerTemplate.checksum, client.textHistory, |old(client.textHistory)| - 1)
      ensures client.n.edits == old(client.n).edits && old(UpToDate(client.texts)) ==>
        && workerTemplate.checksum == old(workerTemplate.checksum) && workerTemplate.spec == old(workerTemplate.spec)
        && proxyTemplate.checksum == old(proxyTemplate.checksum) && proxyTemplate.spec == old(proxyTemplate.spec)
    {
      hide Cluster.Valid, Cluster.Healthy, SoundState, HealthyState, Live, Proxies, Base32.ChecksumToString,
        World.Conforms, Follows, WasCurrent;
      ok := RefreshTemplate(workerTemplate, config.workerTemplateName);
      ghost var mid := client.Now();
      FollowsParts(old(client.Now()), mid);
      CurrentNow(workerTemplate.checksum, |old(client.textHistory)| - 1);
      if ok && config.usePoolProxy {
        ok := RefreshTemplate(proxyTemplate, config.poolProxyTemplateName);
        FollowsTrans(old(client.Now()), mid, client.Now());
        FollowsParts(mid, client.Now());
        WasCurrentLater(workerTemplate.checksum, mid, client.Now(), |old(client.textHistory)| - 1);
      }
    }

    function GetWorkerPodTemplate(): (Option<PodTemplate>, string)
      reads workerTemplate
    {
      (workerTemplate.spec, workerTemplate.checksum)
    }

    /** No proxy template is handed out when pool proxies are off. */
    function GetPoolProxyPodTemplate(): (Option<PodTemplate>, string)
      reads proxyTemplate
    {
      if !config.usePoolProxy then (None, "") else (proxyTemplate.spec, proxyTemplate.checksum)
    }
  }

  /** A cache that is up to date holds what the current text says, and with it what the checksum stands for. */
  lemma CacheIsCurrent(client: Cluster, tmpl: Template, name: string, file: string)
    requires client.Valid() && tmpl.Matches(client.world) && Parses(client.world, CurrentText(client.texts, name, file))
    requires tmpl.checksum == client.world.Checksum(CurrentText(client.texts, name, file).value)
    ensures tmpl.spec == client.world.parse(CurrentText(client.texts, name, file).value)
  {
    hide Base32.ChecksumToString, WorkerConfOf, ProxyConfOf;
    assert client.world.Conforms(CurrentText(client.texts, name, file).value);
  }

  /** With a digest that never collides, an up-to-date cache is what parsing the current text gives. */
  lemma CacheIsFreshParse(world: World, tmpl: Template, current: string)
    requires tmpl.Matches(world) && tmpl.checksum == world.Checksum(current)
    requires forall a, b :: world.digest(a) == world.digest(b) ==> a == b
    ensures tmpl.spec == world.parse(current)
  {
    hide Base32.ChecksumToString;
    Base32.ChecksumIsInjective(world.digest(current), world.digest(tmpl.text));
  }
}
