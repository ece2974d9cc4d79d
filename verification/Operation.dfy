/** The controller's life: it starts on an empty cluster and iterates for as long as it runs. */
module Operation {
  import opened Wrappers
  import opened Objects
  import opened World
  import opened Cluster
  import opened TemplateStore
  import opened Specs
  import opened Listing
  import opened Choosing
  import opened Scaling
  import opened Resize
  import opened Controller
  import opened LoadBalancer
  import opened Safety

  datatype ControllerConfig = ControllerConfig(store: StoreConfig, idleStop: int, minWorkers: int,
                                               certificateFile: string)

  /** Wire the parts together; one template store serves both the spec factory and the resizer. */
  method CreateController(client: Cluster, config: ControllerConfig) returns (controller: Option<Controller>)
    requires client.Valid()
    modifies client
    ensures client.OnlyReads() && (controller.None? ==> client.n.faults > old(client.n).faults)
    ensures client.n.edits == old(client.n).edits
            && Store.TextsParse(client.world, config.store, old(client.texts)) ==>
      client.OnlyOutages()
    ensures controller.Some? ==>
      && var (c, r) := (controller.value, controller.value.resizer);
      && r.Valid() && r.client == client && r.specFactory.store == r.store && r.secretFailures == 0
      && c.idleStopThreshold == config.idleStop && c.minWorkers == config.minWorkers && c.runs == 0
      && fresh(c) && fresh(r) && fresh(r.store) && fresh(r.store.workerTemplate) && fresh(r.store.proxyTemplate)
  {
    hide Cluster.Valid, Cluster.Healthy, SoundState, HealthyState, Live, Proxies, World.Conforms;
    var store := Store.New(client, config.store);
    if store.None? {
      return None;
    }
    var specFactory := new SpecFactory(store.value);
    var resizer := new K8sResizer(store.value, specFactory, config.certificateFile);
    var c := new Controller(config.idleStop, config.minWorkers, resizer);
    return Some(c);
  }

  /** How many states, DeletePod calls and template texts there had been at some moment. */
  datatype Mark = Mark(states: nat, calls: nat, texts: nat)

  ghost function MarkOf(client: Cluster): Mark
    reads client
  {
    Mark(|client.history|, |client.deleteCalls|, |client.textHistory|)
  }

  /** One iteration on record: where it began and ended, the checksum then cached and the job manager's answer. */
  datatype Iteration = Iteration(start: Mark, end: Mark, checksum: string, request: Option<ResizeRequest>)

  /** Every pod the iteration named to DeletePod was live when it began, and then had another checksum
      than this one or was reported idle in this very request; and if there was such a call, the checksum
      was that of a worker template text in force during this iteration. */
  ghost predicate Explained(store: Store, it: Iteration, history: seq<State>, calls: seq<string>, texts: seq<Texts>,
                            threshold: int) {
    && 1 <= it.start.states <= |history|
    && it.start.calls <= it.end.calls <= |calls|
    && it.end.texts <= |texts|
    && var live := Live(store.client.world.keys, history[it.start.states - 1].pods);
    && (forall p | p in calls[it.start.calls..it.end.calls] ::
          && p in live
          && (live[p].checksum != it.checksum
              || exists r :: r in Reports(it.request) && r.name == live[p].deployed.name && r.state == "idle"
                   && r.secondsIdle >= threshold))
    && (it.start.calls < it.end.calls ==> store.WasCurrent(it.checksum, texts[..it.end.texts], it.start.texts - 1))
  }

  /** The iterations follow one another without a gap. */
  predicate Consecutive(log: seq<Iteration>, start: Mark, end: Mark) {
    if log == [] then start == end
    else
      && log[0].start == start && log[|log| - 1].end == end
      && forall i | 0 <= i < |log| - 1 :: log[i].end == log[i + 1].start
  }

  /** Every iteration is explained by itself alone, and together they account for all that happened since `start`. */
  ghost predicate AllExplained(controller: Controller, log: seq<Iteration>, start: Mark)
    reads controller.resizer.client
  {
    var client := controller.resizer.client;
    && Consecutive(log, start, MarkOf(client))
    && forall i | 0 <= i < |log| ::
         Explained(controller.resizer.store, log[i], client.history, client.deleteCalls, client.textHistory,
                   controller.idleStopThreshold)
  }

  lemma StillExplained(store: Store, it: Iteration, history: seq<State>, calls: seq<string>, texts: seq<Texts>,
                       moreHistory: seq<State>, moreCalls: seq<string>, moreTexts: seq<Texts>, threshold: int)
    requires Explained(store, it, history, calls, texts, threshold)
    requires history <= moreHistory && calls <= moreCalls && texts <= moreTexts
    ensures Explained(store, it, moreHistory, moreCalls, moreTexts, threshold)
  {
    hide Live, Store.WasCurrent;
    assert moreCalls[it.start.calls..it.end.calls] == calls[it.start.calls..it.end.calls];
    assert moreTexts[..it.end.texts] == texts[..it.end.texts];
  }

  lemma NextExplained(store: Store, it: Iteration, now: State, history: seq<State>, before: seq<string>,
                      calls: seq<string>, texts: seq<Texts>, threshold: int)
    requires 1 <= it.start.states <= |history| && history[it.start.states - 1] == now
    requires it.start.calls == |before| && it.end.calls == |calls| && it.end.texts == |texts|
    requires CallsJustified(before, calls, Live(store.client.world.keys, now.pods), it.checksum, Reports(it.request),
                            threshold)
    requires calls != before ==> store.WasCurrent(it.checksum, texts, it.start.texts - 1)
    ensures Explained(store, it, history, calls, texts, threshold)
  {
    hide Live, CallsJustified, Store.WasCurrent;
    ReasonsToDelete(before, calls, Live(store.client.world.keys, now.pods), it.checksum, Reports(it.request),
                    threshold);
    assert calls[it.start.calls..it.end.calls] == calls[|before|..];
    assert texts[..it.end.texts] == texts;
    assert |before| == |calls| ==> calls == before;
  }

  lemma OneMoreIteration(log: seq<Iteration>, start: Mark, mid: Mark, it: Iteration)
    requires Consecutive(log, start, mid) && it.start == mid
    ensures Consecutive(log + [it], start, it.end)
  {
  }

  lemma NoIteration(start: Mark)
    ensures Consecutive([], start, start)
  {
  }

  lemma ClientIsValid(resizer: K8sResizer)
    requires resizer.Valid()
    ensures resizer.client.Valid() && resizer.store.client == resizer.client && resizer.client.history != []
    ensures resizer.client.history[|resizer.client.history| - 1] == resizer.client.s
  {
  }

  /** Iterate once for every answer of the job manager. */
  method Operate(controller: Controller, requests: seq<Option<ResizeRequest>>) returns (ghost log: seq<Iteration>)
    requires controller.resizer.Valid() && forall r | r in requests :: controller.Accepts(r)
    modifies controller`runs, controller.resizer`secretFailures, controller.resizer.client
    modifies controller.resizer.store.workerTemplate, controller.resizer.store.proxyTemplate
    ensures controller.resizer.Valid() && controller.resizer.client.Later()
    ensures old(controller.resizer.secretFailures) <= controller.resizer.secretFailures
    ensures old(controller.resizer.client.Healthy()) ==>
      controller.resizer.client.n.escapes == old(controller.resizer.client.n).escapes ==>
        controller.resizer.client.Healthy()
    ensures controller.resizer.client.n.leaks == old(controller.resizer.client.n).leaks
            && controller.resizer.secretFailures == old(controller.resizer.secretFailures)
            && old(controller.resizer.client.SecretsThere()) ==>
              controller.resizer.client.SecretsThere()
    ensures controller.resizer.client.TidiesSecrets()
    ensures controller.runs == old(controller.runs) + |requests|
    ensures |log| == |requests| && forall i | 0 <= i < |log| :: log[i].request == requests[i]
    ensures AllExplained(controller, log, old(MarkOf(controller.resizer.client)))
  {
    hide K8sResizer.Valid, Cluster.Valid, Cluster.Healthy, Cluster.SecretsThere, Live, Proxies, FilledUp, Explained,
      Store.WasCurrent, Consecutive, SecretsFollow, Follows;
    log := [];
    var client := controller.resizer.client;
    ghost var start := MarkOf(client);
    NoIteration(start);
    FollowsRefl(client.Now());
    SecretsStay(client.world, client.Now(), client.Now());
    for i := 0 to |requests|
      invariant controller.resizer.Valid() && client.Later()
      invariant old(controller.resizer.secretFailures) <= controller.resizer.secretFailures
      invariant old(client.Healthy()) ==> client.n.escapes == old(client.n).escapes ==> client.Healthy()
      invariant client.n.leaks == old(client.n).leaks
                && controller.resizer.secretFailures == old(controller.resizer.secretFailures)
                && old(client.SecretsThere()) ==>
                  client.SecretsThere()
      invariant client.TidiesSecrets()
      invariant controller.runs == old(controller.runs) + i
      invariant |log| == i && forall j | 0 <= j < i :: log[j].request == requests[j]
      invariant AllExplained(controller, log, start)
    {
      ghost var mark, now, history, calls, texts, mid := MarkOf(client), client.s, client.history, client.deleteCalls,
        client.textHistory, client.Now();
      ClientIsValid(controller.resizer);
      var _ := controller.Run(requests[i]);
      FollowsParts(mid, client.Now());
      FollowsTrans(old(client.Now()), mid, client.Now());
      SecretsFollowTrans(client.world, old(client.Now()), mid, client.Now());
      ghost var next := Iteration(mark, MarkOf(client), controller.resizer.store.workerTemplate.checksum, requests[i]);
      NextExplained(controller.resizer.store, next, now, client.history, calls, client.deleteCalls, client.textHistory,
                    controller.idleStopThreshold);
      forall j | 0 <= j < |log|
        ensures Explained(controller.resizer.store, log[j], client.history, client.deleteCalls, client.textHistory,
                          controller.idleStopThreshold)
      {
        StillExplained(controller.resizer.store, log[j], history, calls, texts, client.history, client.deleteCalls,
                       client.textHistory, controller.idleStopThreshold);
      }
      OneMoreIteration(log, start, mark, next);
      log := log + [next];
    }
  }

  lemma EmptyIsSound(world: World, empty: State)
    requires empty == State(map[], map[], map[])
    ensures SoundState(world, empty) && HealthyState(world, empty) && Proxies(world, empty.deployments) == map[]
  {
  }

  /** From an empty cluster on. */
  lemma SecretsFromEmpty(world: World, a: Moment, b: Moment)
    requires a.s.secrets == map[] && SecretsFollow(world, a, b)
    ensures forall name | name in b.s.secrets :: IsProxyName(world, name)
    ensures b.n.faults - a.n.faults == b.n.refusals - a.n.refusals ==>
      forall id | world.NameOfProxy(id) in b.s.secrets :: UsesSecret(Proxies(world, b.s.deployments), id)
  {
    hide Proxies, World.NameOfProxy, IsProxyName, UsesSecret;
  }

  /** Whatever happens to a controller started on an empty cluster, every state it goes through is
      sound; without escapes every live worker always has its proxy and its own ID; without leaks and failed
      secret updates every proxy still has its secret; and every DeletePod call is explained. */
  method OperateFromEmpty(world: World, texts: Texts, config: ControllerConfig, requests: seq<Option<ResizeRequest>>)
    returns (client: Cluster, controller: Option<Controller>, ghost log: seq<Iteration>, ghost start: Mark)
    requires world.Valid() && TextsConform(world, texts) && forall r | r in requests ::
      AcceptsFor(world, config.minWorkers, r)
    ensures client.Valid() && client.world == world && client.history[0] == State(map[], map[], map[])
    ensures client.n.escapes == 0 ==> client.Healthy()
    ensures client.n.leaks == 0 && (controller.Some? ==> controller.value.resizer.secretFailures == 0) ==>
      client.SecretsThere()
    ensures forall name | name in client.s.secrets :: IsProxyName(world, name)
    ensures client.n.faults == client.n.refusals ==>
      forall id | world.NameOfProxy(id) in client.s.secrets :: UsesSecret(client.ProxiesNow(), id)
    ensures controller.None? ==> client.deleteCalls == []
    ensures controller.Some? ==>
      && controller.value.resizer.client == client && controller.value.idleStopThreshold == config.idleStop
      && controller.value.runs == |requests|
      && |log| == |requests| && (forall i | 0 <= i < |log| :: log[i].request == requests[i])
      && start.calls == 0 && AllExplained(controller.value, log, start)
  {
    hide SoundState, HealthyState, K8sResizer.Valid, AllExplained;
    var empty := State(map[], map[], map[]);
    EmptyIsSound(world, empty);
    client := new Cluster(world, empty, texts);
    assert client.Healthy() && client.SecretsThere();
    ghost var began := client.Now();
    hide Cluster.Valid, Cluster.Healthy, Live, Proxies, SecretsFollow, Follows, UsesSecret, IsProxyName,
      World.NameOfProxy;
    SecretsStay(world, began, began);
    controller := CreateController(client, config);
    log, start := [], MarkOf(client);
    ghost var mid := client.Now();
    FollowsParts(began, mid);
    SecretsStay(world, began, mid);
    if controller.Some? {
      log := Operate(controller.value, requests);
      ClientIsValid(controller.value.resizer);
      FollowsTrans(began, mid, client.Now());
      SecretsFollowTrans(world, began, mid, client.Now());
    }
    SecretsFromEmpty(world, began, client.Now());
  }

  /** The live workers that use a proxy. */
  function UsersIn(world: World, t: State): set<string> {
    set n | n in Live(world.keys, t.pods) && Live(world.keys, t.pods)[n].usesProxy
  }

  /** From the empty cluster on, behind a load balancer that passed the check: in every state, every port a
      live worker is given and every port a proxy listens on is exposed. */
  method ServeExternalClients(world: World, texts: Texts, config: ControllerConfig, network: PortConfig, reply: Reply,
                              requests: seq<Option<ResizeRequest>>)
    returns (verdict: Verdict, client: Option<Cluster>)
    requires world.Valid() && TextsConform(world, texts) && forall r | r in requests ::
      AcceptsFor(world, config.minWorkers, r)
    requires ServesByPoolProxies(network) && !network.internalClientsOnly && world.layout == Some(LayoutOf(network))
    ensures client.Some? <==> verdict == Passed
    ensures client.Some? ==>
      && client.value.Valid() && client.value.history[0] == State(map[], map[], map[])
      && reply.Found? && reply.ports.Some?
      && (forall t, n | t in client.value.history && n in UsersIn(world, t) :: n in t.pods
            && IsOpen(EnvValue(t.pods[n].spec.env, "PARALLEL_SERVER_POOL_PROXY_PORT"), network, reply.ports.value))
      && (forall t, n | t in client.value.history && n in t.deployments ::
            IsOpen(ArgValue(t.deployments[n].spec.args, "--port"), network, reply.ports.value))
  {
    hide Live, Proxies, SoundState, HealthyState, TextsConform, IsOpen, EnvValue, ArgValue, RequiredPorts;
    verdict := CheckLoadBalancer(network, reply);
    if verdict != Passed {
      return verdict, None;
    }
    var c, controller, log, start := OperateFromEmpty(world, texts, config, requests);
    client := Some(c);
    forall t, n | t in c.history && n in UsersIn(world, t)
      ensures n in t.pods && IsOpen(EnvValue(t.pods[n].spec.env, "PARALLEL_SERVER_POOL_PROXY_PORT"), network,
                                    reply.ports.value)
    {
      WorkerPortsAreOpen(c, t, n, network, reply.ports.value);
    }
    forall t, n | t in c.history && n in t.deployments
      ensures IsOpen(ArgValue(t.deployments[n].spec.args, "--port"), network, reply.ports.value)
    {
      ProxyPortsAreOpen(c, t, n, n, network, reply.ports.value);
    }
  }

  /** On a settled cluster any number of iterations with the same request issue no mutating call and leave the state
      as it is, whatever errors they meet, while pods and templates stay. */
  method StaySettled(controller: Controller, request: ResizeRequest, iterations: nat)
    requires controller.resizer.Valid() && controller.Accepts(Some(request)) && controller.Settled(request)
    modifies controller`runs, controller.resizer`secretFailures, controller.resizer.client
    modifies controller.resizer.store.workerTemplate, controller.resizer.store.proxyTemplate
    ensures controller.resizer.Valid() && controller.resizer.client.Later()
    ensures controller.runs == old(controller.runs) + iterations
    ensures controller.resizer.client.n.losses == old(controller.resizer.client.n).losses
            && controller.resizer.client.n.edits == old(controller.resizer.client.n).edits ==>
      && controller.Settled(request) && controller.resizer.client.s == old(controller.resizer.client.s)
      && controller.resizer.client.n.writes == old(controller.resizer.client.n).writes
  {
    hide K8sResizer.Valid, Cluster.Valid, Cluster.Healthy, Cluster.SecretsThere, Live, Proxies, CallsJustified,
      FilledUp, Controller.Settled, Settles, Follows, Store.UpToDate;
    var client := controller.resizer.client;
    FollowsRefl(client.Now());
    for i := 0 to iterations
      invariant controller.resizer.Valid() && client.Later() && controller.runs == old(controller.runs) + i
      invariant client.n.losses == old(client.n).losses && client.n.edits == old(client.n).edits ==>
        controller.Settled(request) && client.n.writes == old(client.n).writes && client.s == old(client.s)
    {
      ghost var mid := client.Now();
      var _ := controller.Run(Some(request));
      FollowsTrans(old(client.Now()), mid, client.Now());
      FollowsParts(old(client.Now()), mid);
      FollowsParts(mid, client.Now());
      FollowsParts(old(client.Now()), client.Now());
    }
  }

  /** There is one checksum of the text in force. */
  lemma CurrentChecksum(store: Store, texts: Texts, latest: string)
    ensures store.UpToDate(texts)
            && store.IsChecksumOf(latest,
                                  CurrentText(texts, store.config.workerTemplateName, store.config.templateFile)) ==>
              store.workerTemplate.checksum == latest
  {
  }

  /** Without errors, one iteration or many come to the same: whether they settle the cluster can be told from the
      current workers and the reports beforehand, and if they do, the workers are those one iteration leaves. */
  method RunRepeatedly(controller: Controller, request: ResizeRequest, more: nat) returns (ghost added: seq<int>)
    requires controller.resizer.Valid() && controller.Accepts(Some(request))
    modifies controller`runs, controller.resizer`secretFailures, controller.resizer.client
    modifies controller.resizer.store.workerTemplate, controller.resizer.store.proxyTemplate
    ensures controller.resizer.Valid() && controller.resizer.client.Later()
    ensures controller.runs == old(controller.runs) + 1 + more
    ensures controller.Undisturbed() && controller.resizer.client.n.edits == old(controller.resizer.client.n).edits ==>
      var current := OfTemplate(old(controller.resizer.client.LiveNow()),
                                controller.resizer.store.workerTemplate.checksum);
      var target := Target(request, controller.minWorkers);
      && controller.resizer.store.UpToDate(controller.resizer.client.texts)
      && (DistinctNames(request.workers) ==> Settles(current, target, request.workers, controller.idleStopThreshold))
      && (Settles(current, target, request.workers, controller.idleStopThreshold) ==>
            && controller.Settled(request)
            && Resized(current, controller.resizer.client.LiveNow(), target, request.workers,
                       controller.idleStopThreshold, added))
    ensures controller.resizer.TextsUsable(old(controller.resizer.client.texts)) && DistinctNames(request.workers)
            && controller.resizer.client.n.losses == old(controller.resizer.client.n).losses
            && controller.resizer.client.n.edits == old(controller.resizer.client.n).edits ==>
      && controller.resizer.client.OnlyOutages()
      && (controller.resizer.client.n.outages == old(controller.resizer.client.n).outages ==>
            controller.Settled(request))
  {
    hide K8sResizer.Valid, Cluster.Valid, Cluster.Healthy, Cluster.SecretsThere, Live, Proxies, CallsJustified,
      FilledUp, Controller.Settled, Settles, Follows, Resized, OfTemplate, Target, DistinctNames, K8sResizer.Tidy,
      Controller.Accepts, Store.IsChecksumOf, CurrentText, K8sResizer.TextsUsable;
    var client, store := controller.resizer.client, controller.resizer.store;
    ghost var before := client.LiveNow();
    added := controller.Run(Some(request));
    ghost var latest, settled, first := store.workerTemplate.checksum, controller.Settled(request), client.Now();
    FollowsParts(old(client.Now()), first);
    FollowsRefl(first);
    for i := 0 to more
      invariant controller.resizer.Valid() && client.Later() && Follows(first, client.Now())
      invariant controller.runs == old(controller.runs) + 1 + i
      invariant controller.Undisturbed() && client.n.edits == old(client.n).edits ==> store.UpToDate(client.texts)
      invariant controller.resizer.TextsUsable(old(client.texts)) && DistinctNames(request.workers)
                && client.n.losses == old(client.n).losses && client.n.edits == old(client.n).edits ==>
        client.OnlyOutages()
      invariant client.n.losses == first.n.losses && client.n.edits == first.n.edits && settled ==>
        controller.Settled(request) && client.s == first.s
    {
      ghost var mid := client.Now();
      var _ := controller.Run(Some(request));
      FollowsTrans(old(client.Now()), mid, client.Now());
      FollowsTrans(first, mid, client.Now());
      FollowsParts(mid, client.Now());
      FollowsParts(first, client.Now());
      FollowsParts(old(client.Now()), mid);
    }
    FollowsParts(first, client.Now());
    CurrentChecksum(store, client.texts, latest);
    DistinctReportsSettle(OfTemplate(before, store.workerTemplate.checksum), Target(request, controller.minWorkers),
                          request.workers, controller.idleStopThreshold);
  }
}
