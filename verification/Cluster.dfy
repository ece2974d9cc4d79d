/** The Kubernetes API as the controller meets it. Any call may fail, and then has no effect.
    Before each call the environment may act: pods vanish or start terminating and the template
    texts change. Nobody else creates worker pods or touches proxies and their secrets. */
module Cluster {
  import opened Wrappers
  import opened Objects
  import opened World

  /** Running totals of what happened; each only grows, and no more calls can be refused than errors are met. */
  datatype Tally = Tally(
    faults: nat,   // errors met: failed calls, unusable templates, certificates not made
    losses: nat,   // times the environment changed a pod
    edits: nat,    // times the environment changed a template text
    writes: nat,   // mutating calls issued
    refusals: nat, // failed DeletePod calls; each is an error as well
    outages: nat,  // errors nobody is to blame for: calls that did not get through, certificates that could not be made
    escapes: nat,  // worker pods still live when their DeletePod call had returned
    leaks: nat)    // deployments still there when their DeleteDeployment call had returned
  {
    predicate AtMost(later: Tally) {
      && faults <= later.faults && losses <= later.losses && edits <= later.edits
      && writes <= later.writes && escapes <= later.escapes && leaks <= later.leaks
      && refusals <= later.refusals && later.refusals - refusals <= later.faults - faults
      && outages <= later.outages && later.outages - outages <= later.faults - faults
    }
  }

  /** The live workers, the proxies, and what has happened so far. */
  datatype Fleet = Fleet(workers: LiveWorkers, proxies: map<int, VersionedProxy>, n: Tally)

  /** `created` lists the pods of the CreatePod calls so far. */
  datatype Moment = Moment(s: State, texts: Texts, history: seq<State>, textHistory: seq<Texts>, created: seq<Pod>,
                           n: Tally)

  /** Every pod was there before or is one of those created; it may have started terminating. */
  predicate PodsFrom(before: map<string, Pod>, created: seq<Pod>, now: map<string, Pod>) {
    forall n | n in now ::
      || (n in before && now[n] in {before[n], before[n].(terminating := true)})
      || now[n].(terminating := false) in created
  }

  /** Totals only grow, nothing is forgotten, and without its cause a change does not happen. */
  predicate Follows(a: Moment, b: Moment) {
    && a.n.AtMost(b.n)
    && a.history <= b.history && a.textHistory <= b.textHistory
    && a.created <= b.created && PodsFrom(a.s.pods, b.created[|a.created|..], b.s.pods)
    && (b.n.faults == a.n.faults ==> b.n.escapes == a.n.escapes && b.n.leaks == a.n.leaks)
    && (b.n.edits == a.n.edits ==> b.texts == a.texts)
    && (b.n.writes == a.n.writes ==> b.s.deployments == a.s.deployments && b.s.secrets == a.s.secrets)
    && (b.n.writes == a.n.writes && b.n.losses == a.n.losses ==> b.s == a.s)
  }

  lemma FollowsTrans(a: Moment, b: Moment, c: Moment)
    requires Follows(a, b) && Follows(b, c)
    ensures Follows(a, c) && a.n.AtMost(b.n) && b.n.AtMost(c.n)
  {
    assert c.created[|a.created|..] == b.created[|a.created|..] + c.created[|b.created|..];
  }

  lemma FollowsParts(a: Moment, b: Moment)
    requires Follows(a, b)
    ensures a.n.AtMost(b.n) && a.history <= b.history && a.textHistory <= b.textHistory
    ensures a.created <= b.created && PodsFrom(a.s.pods, b.created[|a.created|..], b.s.pods)
    ensures b.n.edits == a.n.edits ==> b.texts == a.texts
    ensures b.n.faults == a.n.faults ==> b.n.escapes == a.n.escapes && b.n.leaks == a.n.leaks
    ensures b.n.writes == a.n.writes && b.n.losses == a.n.losses ==> b.s == a.s
  {
  }

  lemma KeptOrCreated(before: map<string, Pod>, created: seq<Pod>, now: map<string, Pod>, n: string)
    requires PodsFrom(before, created, now) && n in now
    ensures || (n in before && now[n] in {before[n], before[n].(terminating := true)})
            || now[n].(terminating := false) in created
  {
  }

  /** A mutating call: the API answers, then the state may change. */
  lemma FollowsWrite(a: Moment, b: Moment, c: Moment)
    requires Follows(a.(n := a.n.(writes := a.n.writes + 1)), b) && c.n.writes > a.n.writes
    requires c.history in {b.history, b.history + [c.s]} && c.textHistory == b.textHistory && c.texts == b.texts
    requires b.created <= c.created && PodsFrom(b.s.pods, c.created[|b.created|..], c.s.pods)
    requires b.n.(refusals := c.n.refusals).AtMost(c.n) && c.n.edits == b.n.edits
    requires 0 <= c.n.refusals - a.n.refusals <= c.n.faults - a.n.faults
    requires c.n.faults == a.n.faults ==> c.n.escapes == b.n.escapes && c.n.leaks == b.n.leaks
    ensures Follows(a, c)
  {
    assert c.created[|a.created|..] == b.created[|a.created|..] + c.created[|b.created|..];
  }

  /** The environment acts. */
  lemma FollowsTick(a: Moment, b: Moment, texts: Texts)
    requires b.history in {a.history, a.history + [b.s]} && b.textHistory in {a.textHistory, a.textHistory + [texts]}
    requires b.s.deployments == a.s.deployments && b.s.secrets == a.s.secrets
    requires PodsLost(a.s.pods, b.s.pods) && b.created == a.created
    requires b.n.losses == a.n.losses ==> b.s == a.s
    requires b.n.edits == a.n.edits ==> b.texts == a.texts
    requires a.n.AtMost(b.n) && b.n == a.n.(losses := b.n.losses, edits := b.n.edits)
    ensures Follows(a, b)
  {
  }

  lemma FollowsRefl(a: Moment)
    ensures Follows(a, a)
  {
  }

  // Secrets and the proxies they belong to

  /** This is a name the controller gives to a proxy and its secret. */
  ghost predicate IsProxyName(world: World, name: string) {
    exists id :: name == world.NameOfProxy(id)
  }

  predicate UsesSecret(proxies: map<int, VersionedProxy>, id: int) {
    id in proxies && proxies[id].usesSecret
  }

  /** Secrets that are not named like a proxy are left alone. Unless an error was met other than failed DeletePod
      calls, a secret that its proxy no longer uses is gone, and one that appeared is used by its proxy. */
  ghost predicate SecretsFollow(world: World, a: Moment, b: Moment) {
    var (was, now) := (Proxies(world, a.s.deployments), Proxies(world, b.s.deployments));
    && (forall k | !IsProxyName(world, k) ::
          (k in a.s.secrets <==> k in b.s.secrets)
          && (k in a.s.secrets && k in b.s.secrets ==> a.s.secrets[k] == b.s.secrets[k]))
    && (b.n.faults - a.n.faults == b.n.refusals - a.n.refusals ==>
          forall id ::
            && (UsesSecret(was, id) && !UsesSecret(now, id) ==> world.NameOfProxy(id) !in b.s.secrets)
            && (world.NameOfProxy(id) in b.s.secrets ==>
                  world.NameOfProxy(id) in a.s.secrets || UsesSecret(now, id)))
  }

  lemma SecretsStay(world: World, a: Moment, b: Moment)
    requires b.s.deployments == a.s.deployments && b.s.secrets == a.s.secrets
    ensures SecretsFollow(world, a, b)
  {
  }

  lemma SecretsFollowTrans(world: World, a: Moment, b: Moment, c: Moment)
    requires a.n.AtMost(b.n) && b.n.AtMost(c.n)
    requires SecretsFollow(world, a, b) && SecretsFollow(world, b, c)
    ensures SecretsFollow(world, a, c)
  {
    hide Proxies, World.NameOfProxy;
  }

  /** Only this proxy and its secret changed. */
  lemma OneSecretFollows(world: World, a: Moment, b: Moment, id: int)
    requires OthersSame(a.s.secrets, b.s.secrets, {world.NameOfProxy(id)})
    requires var (was, now) := (Proxies(world, a.s.deployments), Proxies(world, b.s.deployments));
             && (forall i | i != id :: UsesSecret(was, i) <==> UsesSecret(now, i))
             && (b.n.faults - a.n.faults == b.n.refusals - a.n.refusals ==>
                   && (UsesSecret(was, id) && !UsesSecret(now, id) ==> world.NameOfProxy(id) !in b.s.secrets)
                   && (world.NameOfProxy(id) in b.s.secrets ==>
                         world.NameOfProxy(id) in a.s.secrets || UsesSecret(now, id)))
    ensures SecretsFollow(world, a, b)
  {
    hide Proxies, World.NameOfProxy;
    assert IsProxyName(world, world.NameOfProxy(id));
    forall i | i != id
      ensures world.NameOfProxy(i) != world.NameOfProxy(id)
    {
      NamesDiffer(world, i, id);
    }
  }

  /** The secrets of proxies that went are gone, and those of the proxies to keep and all others are as they were. */
  ghost predicate SecretsWent(world: World, was: map<int, VersionedProxy>, before: map<string, SecretData>,
                              now: map<int, VersionedProxy>, after: map<string, SecretData>, kept: set<int>) {
    && (forall id | id in was && id !in now && was[id].usesSecret :: world.NameOfProxy(id) !in after)
    && OthersSame(before, after, ProxyNames(world, was.Keys - kept))
  }

  lemma NoSecretWent(world: World, proxies: map<int, VersionedProxy>, secrets: map<string, SecretData>, kept: set<int>)
    ensures SecretsWent(world, proxies, secrets, proxies, secrets, kept)
  {
  }

  /** One more proxy went, or at least its secret. */
  lemma OneMoreWent(world: World, was: map<int, VersionedProxy>, before: map<string, SecretData>,
                    mid: map<int, VersionedProxy>, between: map<string, SecretData>,
                    now: map<int, VersionedProxy>, after: map<string, SecretData>, kept: set<int>, id: int)
    requires SecretsWent(world, was, before, mid, between, kept) && SubMap(mid, was)
    requires id in mid && id !in kept && OthersSame(between, after, {world.NameOfProxy(id)})
    requires now == mid || (now == mid - {id} && (mid[id].usesSecret ==> world.NameOfProxy(id) !in after))
    ensures SecretsWent(world, was, before, now, after, kept)
  {
    hide World.NameOfProxy;
    assert world.NameOfProxy(id) in ProxyNames(world, was.Keys - kept);
    forall i | i != id
      ensures world.NameOfProxy(i) != world.NameOfProxy(id)
    {
      NamesDiffer(world, i, id);
    }
  }

  // Each kind of change keeps the state sound, and healthy under its own condition.

  lemma LossKeepsSound(world: World, s: State, pods: map<string, Pod>)
    requires SoundState(world, s) && PodsLost(s.pods, pods)
    ensures SubMap(Live(world.keys, pods), Live(world.keys, s.pods))
    ensures SoundState(world, s.(pods := pods))
    ensures HealthyState(world, s) ==> HealthyState(world, s.(pods := pods))
  {
    hide Live, Proxies, PodsOK, DeploymentsOK, PodsLost;
    LiveShrinks(world, s.pods, pods);
  }

  lemma PodGoes(world: World, s: State, name: string, pods: map<string, Pod>)
    requires SoundState(world, s) && name in s.pods
    requires pods == s.pods - {name} || pods == s.pods[name := s.pods[name].(terminating := true)]
    ensures PodsLost(s.pods, pods) && PodsFrom(s.pods, [], pods)
    ensures Live(world.keys, pods) == Live(world.keys, s.pods) - {name}
    ensures SubMap(Live(world.keys, pods), Live(world.keys, s.pods))
    ensures SoundState(world, s.(pods := pods))
    ensures HealthyState(world, s) ==> HealthyState(world, s.(pods := pods))
  {
    hide SoundState, HealthyState, Live;
    LiveLoses(world, s.pods, name);
    LiveTerminates(world, s.pods, name);
    LossKeepsSound(world, s, pods);
  }

  lemma LostTwice(before: map<string, Pod>, mid: map<string, Pod>, now: map<string, Pod>)
    requires PodsLost(before, mid) && PodsLost(mid, now)
    ensures PodsLost(before, now)
  {
  }

  lemma NoPodGoes(pods: map<string, Pod>)
    ensures PodsFrom(pods, [], pods) && PodsLost(pods, pods)
  {
  }

  method Enumerate(names: set<string>) returns (listed: seq<string>)
    ensures forall x :: x in listed <==> x in names
    ensures forall i, j | 0 <= i < j < |listed| :: listed[i] != listed[j]
  {
    listed := [];
    var rest := names;
    while rest != {}
      invariant rest <= names
      invariant forall x :: x in listed <==> x in names && x !in rest
      invariant forall i, j | 0 <= i < j < |listed| :: listed[i] != listed[j]
    {
      var x :| x in rest;
      listed := listed + [x];
      rest := rest - {x};
    }
  }

  /** Every pod once, in some order. */
  predicate IsListing(pods: seq<Pod>, all: map<string, Pod>) {
    && (forall i | 0 <= i < |pods| :: pods[i].name in all && all[pods[i].name] == pods[i])
    && (forall i, j | 0 <= i < j < |pods| :: pods[i].name != pods[j].name)
    && (forall n | n in all :: all[n].name == n && all[n] in pods)
  }

  predicate IsDeploymentListing(deployments: seq<Deployment>, all: map<string, Deployment>) {
    && (forall i | 0 <= i < |deployments| :: deployments[i].name in all && all[deployments[i].name] == deployments[i])
    && (forall i, j | 0 <= i < j < |deployments| :: deployments[i].name != deployments[j].name)
    && (forall n | n in all :: all[n].name == n && all[n] in deployments)
  }

  /** No live worker of the same template has this worker's ID. */
  predicate IdFree(live: LiveWorkers, w: VersionedWorker) {
    forall n | n in live :: live[n].checksum == w.checksum ==> live[n].deployed.id != w.deployed.id
  }

  /** The worker's ID is new and its proxy, if any, is there. */
  predicate HealthyToAdd(live: LiveWorkers, proxies: map<int, VersionedProxy>, w: VersionedWorker) {
    && (forall n | n in live :: live[n].deployed.id != w.deployed.id)
    && (w.usesProxy ==> w.proxyID in proxies)
  }

  /** No live worker uses the proxy. */
  predicate Unused(live: LiveWorkers, id: int) {
    forall n | n in live :: !(live[n].usesProxy && live[n].proxyID == id)
  }

  lemma SoundParts(world: World, s: State)
    requires SoundState(world, s)
    ensures PodsOK(world, s.pods) && DeploymentsOK(world, s.deployments)
  {
  }

  lemma ValidParts(client: Cluster)
    requires client.Valid()
    ensures client.world.Valid() && SoundState(client.world, client.s)
    ensures client.Healthy() ==> HealthyState(client.world, client.s)
  {
  }

  lemma LiveKeys(world: World, s: State)
    ensures forall n | n in Live(world.keys, s.pods) :: n in s.pods
  {
  }

  lemma AddedIDsDistinct(live: LiveWorkers, name: string, w: VersionedWorker)
    ensures DistinctPerChecksum(live) && IdFree(live, w) ==> DistinctPerChecksum(live[name := w])
    ensures DistinctIDs(live) && (forall n | n in live :: live[n].deployed.id != w.deployed.id) ==>
      DistinctIDs(live[name := w])
  {
  }

  lemma AddPodKeepsSound(world: World, s: State, pod: Pod)
    requires SoundState(world, s) && PodOK(world, pod) && pod.name !in s.pods && !pod.terminating
    requires IdFree(Live(world.keys, s.pods), WorkerOfPod(world.keys, pod).value)
    ensures var after := s.(pods := s.pods[pod.name := pod]);
            && SoundState(world, after)
            && (HealthyState(world, s)
                && HealthyToAdd(Live(world.keys, s.pods), Proxies(world, s.deployments),
                                WorkerOfPod(world.keys, pod).value) ==>
                  HealthyState(world, after))
  {
    hide Live, Proxies, DeploymentsOK, PodOK, WorkerOfPod;
    assert PodsOK(world, s.pods[pod.name := pod]);
    var (w, live) := (WorkerOfPod(world.keys, pod).value, Live(world.keys, s.pods));
    LiveGains(world, s.pods, pod);
    AddedIDsDistinct(live, pod.name, w);
  }

  lemma PutDeploymentKeepsSound(world: World, s: State, d: Deployment)
    requires SoundState(world, s) && DeploymentOK(world, d)
    ensures ProxyOfDeployment(world.keys, d).Some?
    ensures var p := ProxyOfDeployment(world.keys, d).value;
            var after := s.(deployments := s.deployments[d.name := d]);
            && SoundState(world, after)
            && Proxies(world, after.deployments) == Proxies(world, s.deployments)[p.id := p]
            && (HealthyState(world, s) ==> HealthyState(world, after))
  {
    hide Live, Proxies, DeploymentsOK, PodsOK, DeploymentOK, ProxyOfDeployment;
    ProxiesChange(world, s.deployments, d);
  }

  lemma DropDeploymentKeepsSound(world: World, s: State, id: int)
    requires SoundState(world, s) && world.NameOfProxy(id) in s.deployments && IsInt(id)
    ensures var after := s.(deployments := s.deployments - {world.NameOfProxy(id)});
            && SoundState(world, after)
            && Proxies(world, after.deployments) == Proxies(world, s.deployments) - {id}
            && (HealthyState(world, s) && Unused(Live(world.keys, s.pods), id) ==> HealthyState(world, after))
  {
    hide Live, Proxies, DeploymentsOK, PodsOK, DeploymentOK, ProxyOfDeployment, World.NameOfProxy;
    ProxyFound(world, s.deployments, world.NameOfProxy(id));
    var p := ProxyOfDeployment(world.keys, s.deployments[world.NameOfProxy(id)]).value;
    ProxyStored(world, s.deployments, p.id);
    if p.id != id {
      NamesDiffer(world, p.id, id);
    }
    ProxiesLose(world, s.deployments, id);
  }

  lemma SecretsKeepSound(world: World, s: State, secrets: map<string, SecretData>)
    requires SoundState(world, s)
    ensures SoundState(world, s.(secrets := secrets))
    ensures HealthyState(world, s) ==> HealthyState(world, s.(secrets := secrets))
  {
  }

  class Cluster {
    const world: World
    var s: State
    var texts: Texts
    ghost var history: seq<State>       // every state so far, the current one last
    ghost var textHistory: seq<Texts>   // all texts so far, the current ones last
    ghost var n: Tally
    ghost var deleteCalls: seq<string>  // the pods named by DeletePod calls, in order
    ghost var createCalls: seq<Pod>     // the pods to create in CreatePod calls, in order

    ghost predicate Valid()
      reads this`s, this`texts, this`history, this`textHistory
    {
      && world.Valid()
      && TextsConform(world, texts)
      && history != [] && history[|history| - 1] == s
      && textHistory != [] && textHistory[|textHistory| - 1] == texts
      && forall t | t in history :: SoundState(world, t)
    }

    /** So far, every live worker had its proxy and an ID of its own. */
    ghost predicate Healthy()
      reads this`history
    {
      forall t | t in history :: HealthyState(world, t)
    }

    ghost function LiveNow(): LiveWorkers
      reads this`s
    {
      Live(world.keys, s.pods)
    }

    ghost function ProxiesNow(): map<int, VersionedProxy>
      reads this`s
    {
      Proxies(world, s.deployments)
    }

    ghost function FleetNow(): Fleet
      reads this
    {
      Fleet(LiveNow(), ProxiesNow(), n)
    }

    ghost function Now(): Moment
      reads this
    {
      Moment(s, texts, history, textHistory, createCalls, n)
    }

    /** Time has passed: totals only grow, no state is forgotten. */
    twostate predicate Later()
      reads this
    {
      Follows(old(Now()), Now())
    }

    /** All errors met were failed DeletePod calls. */
    twostate predicate OnlyRefused()
      reads this
    {
      n.faults - old(n).faults == n.refusals - old(n).refusals
    }

    /** The secrets follow the proxies. */
    twostate predicate TidiesSecrets()
      reads this
    {
      SecretsFollow(world, old(Now()), Now())
    }

    /** All errors met were outages. */
    twostate predicate OnlyOutages()
      reads this
    {
      n.faults - old(n).faults == n.outages - old(n).outages
    }

    /** Nothing but pods being lost. */
    twostate predicate OnlyLosses()
      reads this
    {
      && s.deployments == old(s).deployments && s.secrets == old(s).secrets
      && SubMap(LiveNow(), old(LiveNow()))
      && (n.losses == old(n).losses ==> LiveNow() == old(LiveNow()))
    }

    /** A call that changes nothing itself. */
    twostate predicate OnlyReads()
      reads this
    {
      && Valid() && Later() && OnlyLosses()
      && n.writes == old(n).writes && n.escapes == old(n).escapes && n.leaks == old(n).leaks
      && n.refusals == old(n).refusals
      && deleteCalls == old(deleteCalls) && createCalls == old(createCalls)
      && (old(Healthy()) ==> Healthy())
    }

    /** Calls that neither create nor delete pods. */
    twostate predicate KeepsPods()
      reads this
    {
      && Valid() && Later()
      && n.escapes == old(n).escapes && n.refusals == old(n).refusals
      && deleteCalls == old(deleteCalls) && createCalls == old(createCalls)
      && SubMap(LiveNow(), old(LiveNow()))
      && (n.losses == old(n).losses ==> LiveNow() == old(LiveNow()))
    }

    /** One such call; its effect on its own object is stated apart. */
    twostate predicate OneWrite()
      reads this
    {
      KeepsPods() && n.writes == old(n).writes + 1
    }

    /** Calls on secrets, of which at most this one changes. */
    twostate predicate OnlySecret(name: string)
      reads this
    {
      && KeepsPods() && n.leaks == old(n).leaks
      && s.deployments == old(s).deployments
      && s.secrets.Keys - {name} == old(s).secrets.Keys - {name}
      && OthersSame(old(s).secrets, s.secrets, {name})
      && (old(Healthy()) ==> Healthy())
    }

    /** This proxy has a deployment. */
    ghost predicate HasProxy(p: VersionedProxy)
      reads this`s
    {
      p.id in ProxiesNow() && ProxiesNow()[p.id] == p
    }

    /** Every proxy naming a secret has it. */
    ghost predicate SecretsThere()
      reads this`s
    {
      SecretsPresent(ProxiesNow(), s.secrets.Keys)
    }

    constructor (world: World, s: State, texts: Texts)
      requires world.Valid() && SoundState(world, s) && TextsConform(world, texts)
      ensures Valid() && this.world == world && this.s == s && this.texts == texts
      ensures history == [s] && n == Tally(0, 0, 0, 0, 0, 0, 0, 0) && textHistory == [texts]
      ensures deleteCalls == [] && createCalls == []
    {
      this.world, this.s, this.texts := world, s, texts;
      history, n, deleteCalls, createCalls, textHistory := [s], Tally(0, 0, 0, 0, 0, 0, 0, 0), [], [], [texts];
    }

    /** Record a new state. */
    method Enter(next: State)
      requires Valid() && SoundState(world, next)
      modifies this
      ensures Valid() && s == next && history == old(history) + [next]
      ensures n == old(n) && texts == old(texts) && textHistory == old(textHistory)
      ensures deleteCalls == old(deleteCalls) && createCalls == old(createCalls)
      ensures old(Healthy()) && HealthyState(world, next) ==> Healthy()
    {
      hide SoundState, HealthyState, TextsConform, World.Valid;
      s := next;
      history := history + [next];
    }

    /** An error was met. */
    ghost method Fault()
      requires Valid()
      modifies this`n
      ensures Valid() && Later() && n == old(n).(faults := old(n).faults + 1)
      ensures old(Healthy()) ==> Healthy()
    {
      n := n.(faults := n.faults + 1);
    }

    /** Something did not work that should have. */
    ghost method Outage()
      requires Valid()
      modifies this`n
      ensures Valid() && Later() && n == old(n).(faults := old(n).faults + 1, outages := old(n).outages + 1)
      ensures old(Healthy()) ==> Healthy()
    {
      n := n.(faults := n.faults + 1, outages := n.outages + 1);
    }

    /** Somebody may install other texts. */
    method EditTexts()
      requires Valid()
      modifies this`texts, this`textHistory, this`n
      ensures Valid() && n == old(n).(edits := n.edits) && old(n).edits <= n.edits
      ensures (texts, textHistory) == old((texts, textHistory)) || textHistory == old(textHistory) + [texts]
      ensures n.edits == old(n).edits ==> texts == old(texts)
    {
      hide SoundState, TextsConform, World.Valid;
      var newTexts: Texts := *;
      if TextsConform(world, newTexts) && newTexts != texts {
        texts, textHistory := newTexts, textHistory + [newTexts];
        n := n.(edits := n.edits + 1);
      }
    }

    /** The environment acts. */
    method Tick()
      requires Valid()
      modifies this
      ensures Valid() && Later() && OnlyLosses()
      ensures n == old(n).(losses := n.losses, edits := n.edits)
      ensures deleteCalls == old(deleteCalls) && createCalls == old(createCalls)
      ensures PodsLost(old(s).pods, s.pods) && (n.losses == old(n).losses ==> s == old(s))
      ensures old(Healthy()) ==> Healthy()
    {
      hide SoundState, HealthyState, TextsConform, Live, Follows, SubMap;
      ghost var began := Now();
      SubMapRefl(LiveNow());
      var kept: set<string>, stopping: set<string> := *, *;
      EditTexts();
      var pods := map p | p in s.pods && p in kept ::
        if p in stopping then s.pods[p].(terminating := true) else s.pods[p];
      if pods != s.pods {
        LossKeepsSound(world, s, pods);
        n := n.(losses := n.losses + 1);
        Enter(s.(pods := pods));
      }
      FollowsTick(began, Now(), texts);
    }

    /** Whether the API server answers at all. */
    method Answers() returns (ok: bool)
      requires Valid()
      modifies this
      ensures Valid() && Later() && OnlyLosses()
      ensures n == old(n).(losses := n.losses, edits := n.edits, faults := n.faults, outages := n.outages)
      ensures deleteCalls == old(deleteCalls) && createCalls == old(createCalls)
      ensures PodsLost(old(s).pods, s.pods) && (n.losses == old(n).losses ==> s == old(s))
      ensures n.faults == old(n).faults + if ok then 0 else 1
      ensures OnlyOutages()
      ensures old(Healthy()) ==> Healthy()
    {
      hide SoundState, HealthyState, TextsConform, Live;
      Tick();
      ok := *;
      if !ok {
        Outage();
      }
    }

    // Reading. The result describes the state at return.

    method GetPods() returns (pods: Option<seq<Pod>>)
      requires Valid()
      modifies this
      ensures OnlyReads()
      ensures OnlyOutages() && (pods.None? ==> n.faults > old(n).faults)
      ensures pods.Some? ==> IsListing(pods.value, s.pods)
    {
      hide SoundState, HealthyState, TextsConform, Live, Proxies;
      var ok := Answers();
      if !ok {
        return None;
      }
      var all := s.pods;
      var names := Enumerate(all.Keys);
      assert forall x | x in all :: all[x].name == x by {
        SoundParts(world, s);
      }
      pods := Some(seq(|names|, i requires 0 <= i < |names| => all[names[i]]));
      assert forall i | 0 <= i < |names| :: names[i] in all && pods.value[i] == all[names[i]];
    }

    method GetDeployments() returns (deployments: Option<seq<Deployment>>)
      requires Valid()
      modifies this
      ensures OnlyReads()
      ensures OnlyOutages() && (deployments.None? ==> n.faults > old(n).faults)
      ensures deployments.Some? ==> IsDeploymentListing(deployments.value, s.deployments)
    {
      hide SoundState, HealthyState, TextsConform, Live, Proxies;
      var ok := Answers();
      if !ok {
        return None;
      }
      var all := s.deployments;
      var names := Enumerate(all.Keys);
      assert forall x | x in all :: all[x].name == x by {
        SoundParts(world, s);
      }
      deployments := Some(seq(|names|, i requires 0 <= i < |names| => all[names[i]]));
      assert forall i | 0 <= i < |names| :: names[i] in all && deployments.value[i] == all[names[i]];
    }

    method GetConfigMap(name: string) returns (data: Option<map<string, string>>)
      requires Valid()
      modifies this
      ensures OnlyReads()
      ensures data.None? ==> n.faults > old(n).faults
      ensures data.Some? ==> name in texts && data.value == texts[name]
      ensures data.Some? || name in texts ==> OnlyOutages()
    {
      hide SoundState, HealthyState, TextsConform, Live, Proxies;
      var ok := Answers();
      if ok && name in texts {
        return Some(texts[name]);
      }
      if ok {
        Fault();
      }
      return None;
    }

    /** `Some(None)` is a secret that does not exist. */
    method SecretExists(name: string) returns (data: Option<Option<SecretData>>)
      requires Valid()
      modifies this
      ensures OnlyReads()
      ensures OnlyOutages() && (data.None? ==> n.faults > old(n).faults)
      ensures data.Some? ==> data.value == if name in s.secrets then Some(s.secrets[name]) else None
    {
      hide SoundState, HealthyState, TextsConform, Live, Proxies;
      var ok := Answers();
      if !ok {
        return None;
      }
      return Some(if name in s.secrets then Some(s.secrets[name]) else None);
    }

    // Writing pods.

    /** Creation fails if the name is taken, also by a pod that is still terminating. The caller
        keeps IDs distinct among the live workers of one template. */
    method CreatePod(pod: Pod) returns (ok: bool, ghost before: LiveWorkers)
      requires Valid()
      requires PodOK(world, pod) && !pod.terminating
      requires IdFree(LiveNow(), WorkerOfPod(world.keys, pod).value)
      modifies this
      ensures Valid() && Later() && deleteCalls == old(deleteCalls)
      ensures createCalls == old(createCalls) + [pod]
      ensures PodsLost(old(s).pods, if ok then s.pods - {pod.name} else s.pods)
      ensures ok ==> pod.name in s.pods && s.pods[pod.name] == pod
      ensures n.writes == old(n).writes + 1 && n.escapes == old(n).escapes && n.leaks == old(n).leaks
      ensures n.refusals == old(n).refusals && OnlyOutages()
      ensures n.faults == old(n).faults + if ok then 0 else 1
      ensures s.deployments == old(s).deployments && s.secrets == old(s).secrets
      ensures !ok ==> OnlyLosses()
      ensures SubMap(before, old(LiveNow())) && (ok ==> pod.name !in before)
      ensures n.losses == old(n).losses ==> before == old(LiveNow())
      ensures LiveNow() == if ok then before[pod.name := WorkerOfPod(world.keys, pod).value] else before
      ensures old(Healthy() && HealthyToAdd(LiveNow(), ProxiesNow(), WorkerOfPod(world.keys, pod).value)) ==> Healthy()
    {
      hide Valid, Healthy, SoundState, HealthyState, TextsConform, Live, Proxies, PodOK, WorkerOfPod, Follows;
      ghost var began := Now();
      n := n.(writes := n.writes + 1);
      ok := Answers();
      ValidParts(this);
      ghost var answered := Now();
      createCalls := createCalls + [pod];
      before := LiveNow();
      if ok && pod.name !in s.pods {
        AddPodKeepsSound(world, s, pod);
        LiveGains(world, s.pods, pod);
        LiveKeys(world, s);
        Enter(s.(pods := s.pods[pod.name := pod]));
      } else {
        if ok {
          Outage();
        }
        ok := false;
      }
      FollowsWrite(began, answered, Now());
    }

    /** A deleted pod is either gone at once or starts terminating. */
    method DeletePod(name: string) returns (ok: bool)
      requires Valid()
      modifies this
      ensures Valid() && Later() && deleteCalls == old(deleteCalls) + [name] && createCalls == old(createCalls)
      ensures n.writes == old(n).writes + 1 && n.leaks == old(n).leaks && OnlyRefused()
      ensures n.refusals == old(n).refusals + if ok then 0 else 1
      ensures name in LiveNow() ==> n.escapes > old(n).escapes
      ensures ok ==> n.escapes == old(n).escapes
      ensures s.deployments == old(s).deployments && s.secrets == old(s).secrets
      ensures PodsLost(old(s).pods, s.pods)
      ensures n.losses == old(n).losses ==> old(s).pods.Keys - {name} <= s.pods.Keys
      ensures n.losses == old(n).losses && name in old(s).pods ==> OnlyOutages()
      ensures SubMap(LiveNow(), old(LiveNow()))
      ensures n.losses == old(n).losses ==> LiveNow() == if ok then old(LiveNow()) - {name} else old(LiveNow())
      ensures old(Healthy()) ==> Healthy()
    {
      hide Valid, Healthy, SoundState, HealthyState, TextsConform, Live, Proxies, PodOK, WorkerOfPod, PodsLost,
        PodsFrom, SubMap, Follows;
      ghost var began := Now();
      n := n.(writes := n.writes + 1);
      deleteCalls := deleteCalls + [name];
      ok := Answers();
      ValidParts(this);
      ghost var answered := Now();
      NoPodGoes(s.pods);
      if ok && name in s.pods {
        var gone: bool := *;
        var pods := if gone then s.pods - {name} else s.pods[name := s.pods[name].(terminating := true)];
        PodGoes(world, s, name, pods);
        SubMapTrans(Live(world.keys, pods), LiveNow(), old(LiveNow()));
        LostTwice(old(s).pods, s.pods, pods);
        Enter(s.(pods := pods));
      } else {
        if ok {
          Fault();
        }
        ok := false;
        n := n.(refusals := n.refusals + 1, escapes := n.escapes + if name in LiveNow() then 1 else 0);
      }
      FollowsWrite(began, answered, Now());
    }

    // Writing deployments.

    method CreateDeployment(d: Deployment) returns (ok: bool)
      requires Valid() && DeploymentOK(world, d)
      modifies this
      ensures OneWrite() && n.leaks == old(n).leaks && s.secrets == old(s).secrets
      ensures !ok ==> n.faults > old(n).faults && OnlyLosses()
      ensures d.name !in old(s).deployments ==> OnlyOutages()
      ensures ok ==> d.name !in old(s).deployments && s.deployments == old(s).deployments[d.name := d]
      ensures ok ==> var p := ProxyOfDeployment(world.keys, d).value;
        ProxiesNow() == old(ProxiesNow())[p.id := p]
      ensures old(Healthy()) ==> Healthy()
    {
      hide Valid, Healthy, SoundState, HealthyState, TextsConform, Live, Proxies, DeploymentOK, ProxyOfDeployment,
        Follows;
      ghost var began := Now();
      n := n.(writes := n.writes + 1);
      ok := Answers();
      ValidParts(this);
      ghost var answered := Now();
      if ok && d.name !in s.deployments {
        PutDeploymentKeepsSound(world, s, d);
        Enter(s.(deployments := s.deployments[d.name := d]));
      } else {
        if ok {
          Fault();
        }
        ok := false;
      }
      FollowsWrite(began, answered, Now());
    }

    method UpdateDeployment(d: Deployment) returns (ok: bool)
      requires Valid() && DeploymentOK(world, d)
      modifies this
      ensures OneWrite() && n.leaks == old(n).leaks && s.secrets == old(s).secrets
      ensures !ok ==> n.faults > old(n).faults && OnlyLosses()
      ensures d.name in old(s).deployments ==> OnlyOutages()
      ensures ok ==> d.name in old(s).deployments && s.deployments == old(s).deployments[d.name := d]
      ensures ok ==> var p := ProxyOfDeployment(world.keys, d).value;
        ProxiesNow() == old(ProxiesNow())[p.id := p]
      ensures old(Healthy()) ==> Healthy()
    {
      hide Valid, Healthy, SoundState, HealthyState, TextsConform, Live, Proxies, DeploymentOK, ProxyOfDeployment,
        Follows;
      ghost var began := Now();
      n := n.(writes := n.writes + 1);
      ok := Answers();
      ValidParts(this);
      ghost var answered := Now();
      if ok && d.name in s.deployments {
        PutDeploymentKeepsSound(world, s, d);
        Enter(s.(deployments := s.deployments[d.name := d]));
      } else {
        if ok {
          Fault();
        }
        ok := false;
      }
      FollowsWrite(began, answered, Now());
    }

    method DeleteDeployment(name: string, ghost id: int) returns (ok: bool)
      requires Valid() && name == world.NameOfProxy(id) && IsInt(id)
      modifies this
      ensures OneWrite() && s.secrets == old(s).secrets
      ensures !ok ==> n.faults > old(n).faults && OnlyLosses()
      ensures name in old(s).deployments ==> OnlyOutages()
      ensures id in ProxiesNow() ==> n.leaks > old(n).leaks
      ensures ok ==> n.leaks == old(n).leaks
      ensures ok ==> s.deployments == old(s).deployments - {name} && ProxiesNow() == old(ProxiesNow()) - {id}
      ensures old(Healthy() && Unused(LiveNow(), id)) ==> Healthy()
    {
      hide Valid, Healthy, SoundState, HealthyState, TextsConform, Live, Proxies, DeploymentOK, ProxyOfDeployment,
        World.NameOfProxy, Follows;
      ghost var began := Now();
      n := n.(writes := n.writes + 1);
      ok := Answers();
      ValidParts(this);
      ghost var answered := Now();
      if ok && name in s.deployments {
        DropDeploymentKeepsSound(world, s, id);
        Enter(s.(deployments := s.deployments - {name}));
      } else {
        if ok {
          Fault();
        }
        ok := false;
        if id in ProxiesNow() {
          n := n.(leaks := n.leaks + 1);
        }
      }
      FollowsWrite(began, answered, Now());
    }

    // Writing secrets.

    method CreateSecret(name: string, data: SecretData) returns (ok: bool)
      requires Valid()
      modifies this
      ensures OneWrite() && n.leaks == old(n).leaks && s.deployments == old(s).deployments
      ensures !ok ==> n.faults > old(n).faults && OnlyLosses()
      ensures name !in old(s).secrets ==> OnlyOutages()
      ensures ok ==> name !in old(s).secrets && s.secrets == old(s).secrets[name := data]
      ensures old(Healthy()) ==> Healthy()
    {
      hide Valid, Healthy, SoundState, HealthyState, TextsConform, Live, Proxies, Follows;
      ghost var began := Now();
      n := n.(writes := n.writes + 1);
      ok := Answers();
      ValidParts(this);
      ghost var answered := Now();
      if ok && name !in s.secrets {
        SecretsKeepSound(world, s, s.secrets[name := data]);
        Enter(s.(secrets := s.secrets[name := data]));
      } else {
        if ok {
          Fault();
        }
        ok := false;
      }
      FollowsWrite(began, answered, Now());
    }

    method UpdateSecret(name: string, data: SecretData) returns (ok: bool)
      requires Valid()
      modifies this
      ensures OneWrite() && n.leaks == old(n).leaks && s.deployments == old(s).deployments
      ensures !ok ==> n.faults > old(n).faults && OnlyLosses()
      ensures name in old(s).secrets ==> OnlyOutages()
      ensures ok ==> name in old(s).secrets && s.secrets == old(s).secrets[name := data]
      ensures old(Healthy()) ==> Healthy()
    {
      hide Valid, Healthy, SoundState, HealthyState, TextsConform, Live, Proxies, Follows;
      ghost var began := Now();
      n := n.(writes := n.writes + 1);
      ok := Answers();
      ValidParts(this);
      ghost var answered := Now();
      if ok && name in s.secrets {
        SecretsKeepSound(world, s, s.secrets[name := data]);
        Enter(s.(secrets := s.secrets[name := data]));
      } else {
        if ok {
          Fault();
        }
        ok := false;
      }
      FollowsWrite(began, answered, Now());
    }

    method DeleteSecret(name: string) returns (ok: bool)
      requires Valid()
      modifies this
      ensures OneWrite() && n.leaks == old(n).leaks && s.deployments == old(s).deployments
      ensures !ok ==> n.faults > old(n).faults && OnlyLosses()
      ensures name in old(s).secrets ==> OnlyOutages()
      ensures ok ==> s.secrets == old(s).secrets - {name}
      ensures old(Healthy()) ==> Healthy()
    {
      hide Valid, Healthy, SoundState, HealthyState, TextsConform, Live, Proxies, Follows;
      ghost var began := Now();
      n := n.(writes := n.writes + 1);
      ok := Answers();
      ValidParts(this);
      ghost var answered := Now();
      if ok && name in s.secrets {
        SecretsKeepSound(world, s, s.secrets - {name});
        Enter(s.(secrets := s.secrets - {name}));
      } else {
        if ok {
          Fault();
        }
        ok := false;
      }
      FollowsWrite(began, answered, Now());
    }
  }
}
