/** Lists of workers and proxies: what they say about the cluster, and how they are split. */
module Listing {
  import opened Wrappers
  import opened Annotations
  import opened Objects
  import opened World
  import opened Cluster
  import opened Specs

  predicate DistinctPods(ws: seq<VersionedWorker>) {
    forall i, j | 0 <= i < j < |ws| :: ws[i].deployed.podName != ws[j].deployed.podName
  }

  /** Every live worker once, in some order. */
  predicate ListsWorkers(ws: seq<VersionedWorker>, live: LiveWorkers) {
    && (forall i | 0 <= i < |ws| :: ws[i].deployed.podName in live && live[ws[i].deployed.podName] == ws[i])
    && DistinctPods(ws)
    && (forall n | n in live :: live[n].deployed.podName == n && live[n] in ws)
  }

  predicate DistinctWorkers(ds: seq<DeployedWorker>) {
    forall i, j | 0 <= i < j < |ds| :: ds[i].podName != ds[j].podName
  }

  /** All these workers are live. */
  predicate AllLive(ds: seq<DeployedWorker>, live: LiveWorkers) {
    forall d | d in ds :: d.podName in live
  }

  predicate DistinctProxies(ps: seq<VersionedProxy>) {
    forall i, j | 0 <= i < j < |ps| :: ps[i].id != ps[j].id
  }

  predicate ListsProxies(ps: seq<VersionedProxy>, proxies: map<int, VersionedProxy>) {
    && (forall i | 0 <= i < |ps| :: ps[i].id in proxies && proxies[ps[i].id] == ps[i])
    && DistinctProxies(ps)
    && (forall id | id in proxies :: proxies[id].id == id && proxies[id] in ps)
  }

  /** The proxies that can be read from these deployments, in order. */
  function ReadProxies(keys: Keys, ds: seq<Deployment>): seq<VersionedProxy> {
    if ds == [] then []
    else
      var rest := ReadProxies(keys, ds[..|ds| - 1]);
      match ProxyOfDeployment(keys, ds[|ds| - 1])
      case None => rest
      case Some(p) => rest + [p]
  }

  /** If the deployments are as the controller makes them, all can be read. */
  lemma {:induction false} AllAreRead(keys: Keys, ds: seq<Deployment>)
    requires forall i | 0 <= i < |ds| :: ProxyOfDeployment(keys, ds[i]).Some?
    ensures |ReadProxies(keys, ds)| == |ds|
    ensures forall i | 0 <= i < |ds| :: ProxyOfDeployment(keys, ds[i]) == Some(ReadProxies(keys, ds)[i])
  {
    hide ProxyOfDeployment;
    if ds != [] {
      AllAreRead(keys, ds[..|ds| - 1]);
    }
  }

  lemma ReadAreListed(world: World, ds: seq<Deployment>, all: map<string, Deployment>)
    requires IsDeploymentListing(ds, all) && DeploymentsOK(world, all)
    ensures ListsProxies(ReadProxies(world.keys, ds), Proxies(world, all))
  {
    hide ProxyOfDeployment, Proxies, DeploymentOK, World.NameOfProxy, ReadProxies;
    var ps, known := ReadProxies(world.keys, ds), Proxies(world, all);
    forall i | 0 <= i < |ds|
      ensures ProxyOfDeployment(world.keys, ds[i]).Some?
    {
      ProxyFound(world, all, ds[i].name);
    }
    AllAreRead(world.keys, ds);
    forall i | 0 <= i < |ds|
      ensures ps[i].id in known && known[ps[i].id] == ps[i] && ps[i].deploymentName == ds[i].name
    {
      ProxyFound(world, all, ds[i].name);
    }
    forall id | id in known
      ensures known[id].id == id && known[id] in ps
    {
      ProxyStored(world, all, id);
      var i :| 0 <= i < |ds| && ds[i] == all[known[id].deploymentName];
      assert ps[i] == known[id];
    }
  }

  /** The proxies some listed worker uses. */
  function NeededBy(ws: seq<VersionedWorker>): set<int> {
    set i | 0 <= i < |ws| && ws[i].usesProxy :: ws[i].proxyID
  }

  /** Every live worker's proxy is among these. */
  predicate AllNeeded(live: LiveWorkers, needed: set<int>) {
    forall n | n in live && live[n].usesProxy :: live[n].proxyID in needed
  }

  lemma ProxyNamed(client: Cluster, id: int)
    requires client.Valid() && id in client.ProxiesNow()
    ensures var p := client.ProxiesNow()[id];
            && 1 <= id && IsInt(id) && ProxyAllowed(client.world, id)
            && p.id == id && p.deploymentName == client.world.NameOfProxy(id)
            && p.deploymentName in client.s.deployments
            && (p.usesSecret ==> p.secretName == p.deploymentName)
  {
    hide DeploymentsOK, Proxies, World.NameOfProxy;
    SoundParts(client.world, client.s);
    ProxyStored(client.world, client.s.deployments, id);
  }

  /** A proxy that is not there leaves its name free. */
  lemma NameIsFree(client: Cluster, id: int)
    requires client.Valid() && id !in client.ProxiesNow()
    ensures client.world.NameOfProxy(id) !in client.s.deployments
  {
    hide DeploymentsOK, Proxies, World.NameOfProxy, SoundState;
    var name := client.world.NameOfProxy(id);
    ValidParts(client);
    SoundParts(client.world, client.s);
    if name in client.s.deployments {
      ProxyFound(client.world, client.s.deployments, name);
      var found := ProxyOfDeployment(client.world.keys, client.s.deployments[name]).value.id;
      if found != id {
        NamesDiffer(client.world, found, id);
      }
    }
  }

  lemma NewSecretUnused(client: Cluster, id: int)
    requires client.Valid() && id !in client.ProxiesNow() && client.SecretsThere()
    ensures SecretsPresent(client.ProxiesNow(), client.s.secrets.Keys - {client.world.NameOfProxy(id)})
  {
    hide DeploymentsOK, Proxies, World.NameOfProxy;
    forall i | i in client.ProxiesNow() && client.ProxiesNow()[i].usesSecret
      ensures client.ProxiesNow()[i].secretName != client.world.NameOfProxy(id)
    {
      ProxyNamed(client, i);
      NamesDiffer(client.world, i, id);
    }
  }

  /** After its deletion was tried, a proxy's secret follows it. */
  lemma SecretOfDropped(world: World, a: Moment, b: Moment, p: VersionedProxy)
    requires a.n.AtMost(b.n) && OthersSame(a.s.secrets, b.s.secrets, {world.NameOfProxy(p.id)})
    requires var (was, now) := (Proxies(world, a.s.deployments), Proxies(world, b.s.deployments));
             && p.id in was && was[p.id] == p
             && (now == was || (now == was - {p.id} && (p.usesSecret ==> world.NameOfProxy(p.id) !in b.s.secrets)))
    requires world.NameOfProxy(p.id) in b.s.secrets ==> world.NameOfProxy(p.id) in a.s.secrets
    ensures SecretsFollow(world, a, b)
  {
    hide Proxies, World.NameOfProxy, OthersSame;
    OneSecretFollows(world, a, b, p.id);
  }

  /** And so it does after its renewal. */
  lemma SecretOfRenewed(world: World, a: Moment, b: Moment, p: VersionedProxy, renewed: VersionedProxy, done: bool)
    requires renewed.id == p.id && OthersSame(a.s.secrets, b.s.secrets, {world.NameOfProxy(p.id)})
    requires var (was, now) := (Proxies(world, a.s.deployments), Proxies(world, b.s.deployments));
             && p.id in was && was[p.id] == p
             && (done ==> now == was[p.id := renewed]) && (!done ==> now in {was, was[p.id := renewed]})
    requires done && renewed.usesSecret ==> world.NameOfProxy(p.id) in b.s.secrets
    requires done && !renewed.usesSecret && p.usesSecret ==> world.NameOfProxy(p.id) !in b.s.secrets
    requires done && !renewed.usesSecret && !p.usesSecret ==> b.s.secrets == a.s.secrets
    requires !done ==> b.n.faults - a.n.faults != b.n.refusals - a.n.refusals
    ensures SecretsFollow(world, a, b)
  {
    hide Proxies, World.NameOfProxy, OthersSame;
    OneSecretFollows(world, a, b, p.id);
  }

  /** And after its creation. */
  lemma SecretOfMade(world: World, a: Moment, b: Moment, p: VersionedProxy, done: bool)
    requires OthersSame(a.s.secrets, b.s.secrets, {world.NameOfProxy(p.id)})
    requires var (was, now) := (Proxies(world, a.s.deployments), Proxies(world, b.s.deployments));
             p.id !in was && now == if done then was[p.id := p] else was
    requires done && !p.usesSecret ==> b.s.secrets == a.s.secrets
    requires !done ==> b.n.faults - a.n.faults != b.n.refusals - a.n.refusals
    ensures SecretsFollow(world, a, b)
  {
    hide Proxies, World.NameOfProxy, OthersSame;
    OneSecretFollows(world, a, b, p.id);
  }

  /** A proxy's missing secret may appear; those that are there stay as they are. */
  lemma RenewalKeepsSecrets(before: map<string, SecretData>, after: map<string, SecretData>, name: string)
    requires OthersSame(before, after, {name})
    ensures (name in before ==> after == before) ==> SubMap(before, after)
  {
  }

  lemma SecretsWithNewProxy(proxies: map<int, VersionedProxy>, p: VersionedProxy, secrets: set<string>)
    requires p.usesSecret ==> p.secretName in secrets
    ensures SecretsPresent(proxies, secrets) ==> SecretsPresent(proxies[p.id := p], secrets)
  {
  }

  /** The proxies some live worker uses. */
  function UsedBy(live: LiveWorkers): set<int> {
    set n | n in live && live[n].usesProxy :: live[n].proxyID
  }

  predicate ListsDeployed(ds: seq<DeployedWorker>, live: LiveWorkers) {
    && (forall i | 0 <= i < |ds| :: ds[i].podName in live && live[ds[i].podName].deployed == ds[i])
    && (forall i, j | 0 <= i < j < |ds| :: ds[i].podName != ds[j].podName)
    && (forall n | n in live :: live[n].deployed.podName == n && live[n].deployed in ds)
  }

  lemma NeededIsUsed(ws: seq<VersionedWorker>, live: LiveWorkers)
    requires ListsWorkers(ws, live)
    ensures NeededBy(ws) == UsedBy(live)
  {
  }

  lemma AllNeededBy(live: LiveWorkers, all: LiveWorkers)
    ensures SubMap(live, all) ==> AllNeeded(live, UsedBy(all))
  {
  }

  lemma BackedExactly(live: LiveWorkers, proxies: map<int, VersionedProxy>)
    ensures Backed(live, proxies) <==> UsedBy(live) <= proxies.Keys
  {
  }

  lemma HealthyNow(client: Cluster)
    requires client.Valid() && client.Healthy()
    ensures HealthyState(client.world, client.s) && DistinctIDs(client.LiveNow())
            && Backed(client.LiveNow(), client.ProxiesNow())
  {
  }

  /** The workers made from the template with this checksum. */
  function OfTemplate(live: LiveWorkers, checksum: string): LiveWorkers {
    map n | n in live && live[n].checksum == checksum :: live[n]
  }

  lemma OfTemplateShrinks(some: LiveWorkers, all: LiveWorkers)
    ensures forall c :: SubMap(OfTemplate(some, c), some)
    ensures some == all ==> forall c :: SubMap(OfTemplate(all, c), some)
  {
  }

  lemma NewProxySecure(world: World, d: Deployment)
    requires DeploymentOK(world, d)
    ensures var p := ProxyOfDeployment(world.keys, d).value;
            && world.ProxyConfFor(p.checksum).Success?
            && p.usesSecret == world.ProxyConfFor(p.checksum).value.useSecureCommunication
  {
  }

  lemma NewProxyNamed(world: World, d: Deployment)
    requires DeploymentOK(world, d)
    ensures var p := ProxyOfDeployment(world.keys, d).value;
            p.deploymentName == d.name == world.NameOfProxy(p.id) && (p.usesSecret ==> p.secretName == d.name)
  {
  }

  lemma SecretsAfterRenewal(proxies: map<int, VersionedProxy>, p: VersionedProxy, before: set<string>,
                            after: set<string>, name: string)
    requires SecretsPresent(proxies - {p.id}, before - {name})
    requires before - {name} <= after
    ensures (p.usesSecret ==> p.secretName in after) ==> SecretsPresent(proxies[p.id := p], after)
  {
    assert forall id | id in proxies && id != p.id :: id in proxies - {p.id};
  }

  lemma MissingSecret(proxies: map<int, VersionedProxy>, secrets: set<string>, id: int)
    requires id in proxies && proxies[id].usesSecret && proxies[id].secretName !in secrets
    ensures !SecretsPresent(proxies, secrets)
  {
  }

  /** With unchanged secrets, a renewed proxy leaves them complete exactly if it needs none or has its own. */
  lemma SecretsWithRenewed(proxies: map<int, VersionedProxy>, renewed: VersionedProxy, secrets: set<string>)
    requires SecretsPresent(proxies, secrets)
    ensures SecretsPresent(proxies[renewed.id := renewed], secrets) <==>
            (renewed.usesSecret ==> renewed.secretName in secrets)
  {
    assert renewed.id in proxies[renewed.id := renewed];
  }

  /** Every proxy was made from the template with this checksum. */
  predicate AllMadeFrom(proxies: map<int, VersionedProxy>, checksum: string) {
    forall id | id in proxies :: proxies[id].checksum == checksum
  }

  /** Every proxy was there before or was made from the template with this checksum. */
  predicate NewMadeFrom(before: map<int, VersionedProxy>, now: map<int, VersionedProxy>, checksum: string) {
    forall id | id in now :: (id in before && before[id] == now[id]) || now[id].checksum == checksum
  }

  lemma StillAllMadeFrom(before: map<int, VersionedProxy>, now: map<int, VersionedProxy>, checksum: string)
    requires NewMadeFrom(before, now, checksum)
    ensures AllMadeFrom(before, checksum) ==> AllMadeFrom(now, checksum)
  {
  }

  ghost predicate IsWorkerSplit(ws: seq<VersionedWorker>, latest: string, toKeep: seq<VersionedWorker>,
                                toDelete: seq<DeployedWorker>) {
    && (forall w :: w in toKeep <==> w in ws && w.checksum == latest)
    && (forall d :: d in toDelete <==> exists w :: w in ws && w.checksum != latest && w.deployed == d)
    && (DistinctPods(ws) ==> DistinctPods(toKeep) && DistinctWorkers(toDelete))
  }

  lemma EmptyWorkerSplit(latest: string)
    ensures IsWorkerSplit([], latest, [], [])
  {
  }

  lemma WorkerSplitGrows(ws: seq<VersionedWorker>, w: VersionedWorker, latest: string, toKeep: seq<VersionedWorker>,
                         toDelete: seq<DeployedWorker>)
    requires IsWorkerSplit(ws, latest, toKeep, toDelete)
    ensures if w.checksum != latest then IsWorkerSplit(ws + [w], latest, toKeep, toDelete + [w.deployed])
            else IsWorkerSplit(ws + [w], latest, toKeep + [w], toDelete)
  {
    assert (ws + [w])[..|ws|] == ws && (ws + [w])[|ws|] == w;
    if DistinctPods(ws + [w]) {
      assert DistinctPods(ws) by {
        assert forall i | 0 <= i < |ws| :: (ws + [w])[i] == ws[i];
      }
      forall k | k in ws
        ensures k.deployed.podName != w.deployed.podName
      {
        var i :| 0 <= i < |ws| && ws[i] == k;
        assert (ws + [w])[i] == k;
      }
      forall d | d in toDelete
        ensures d.podName != w.deployed.podName
      {
        var k :| k in ws && k.checksum != latest && k.deployed == d;
      }
    }
  }

  /** The workers whose IDs are not among these. */
  function Remaining(ws: seq<VersionedWorker>, ids: set<int>): seq<VersionedWorker> {
    if ws == [] then []
    else
      var last := ws[|ws| - 1];
      Remaining(ws[..|ws| - 1], ids) + if last.deployed.id in ids then [] else [last]
  }

  /** The live workers whose IDs are not among these. */
  function WithoutIDs(live: LiveWorkers, ids: set<int>): LiveWorkers {
    map n | n in live && live[n].deployed.id !in ids :: live[n]
  }

  /** No other live worker has the ID of a worker to delete. */
  predicate IDsAgree(toDelete: seq<DeployedWorker>, live: LiveWorkers) {
    forall d, n | d in toDelete && n in live && live[n].deployed.id == d.id :: n == d.podName
  }

  lemma {:induction false} RemainingMembers(ws: seq<VersionedWorker>, ids: set<int>)
    ensures forall w :: w in Remaining(ws, ids) <==> w in ws && w.deployed.id !in ids
  {
    if ws != [] {
      RemainingMembers(ws[..|ws| - 1], ids);
      assert ws == ws[..|ws| - 1] + [ws[|ws| - 1]];
    }
  }

  /** A worker to delete that is still live is the one that was listed. */
  predicate Known(toDelete: seq<DeployedWorker>, live: LiveWorkers) {
    forall d | d in toDelete && d.podName in live :: live[d.podName].deployed == d
  }

  lemma NeededMembers(ws: seq<VersionedWorker>)
    ensures forall id :: id in NeededBy(ws) <==> exists w :: w in ws && w.usesProxy && w.proxyID == id
  {
  }

  /** Going by the list is going by what it lists. */
  lemma RemainingUse(ws: seq<VersionedWorker>, live: LiveWorkers, ids: set<int>)
    requires ListsWorkers(ws, live)
    ensures NeededBy(Remaining(ws, ids)) == UsedBy(WithoutIDs(live, ids))
  {
    RemainingMembers(ws, ids);
    NeededMembers(Remaining(ws, ids));
    forall id | id in NeededBy(Remaining(ws, ids))
      ensures id in UsedBy(WithoutIDs(live, ids))
    {
      var w :| w in Remaining(ws, ids) && w.usesProxy && w.proxyID == id;
      var i :| 0 <= i < |ws| && ws[i] == w;
      assert w.deployed.podName in WithoutIDs(live, ids);
    }
    forall n | n in WithoutIDs(live, ids)
      ensures live[n] in Remaining(ws, ids)
    {
      assert live[n] in ws;
    }
  }

  function IDsOf(ws: seq<DeployedWorker>): set<int> {
    set i | 0 <= i < |ws| :: ws[i].id
  }

  function PodNames(ws: seq<DeployedWorker>): seq<string> {
    seq(|ws|, i requires 0 <= i < |ws| => ws[i].podName)
  }

  /** Workers that were not chosen are still live. */
  predicate OthersLive(chosen: seq<DeployedWorker>, live: LiveWorkers, now: LiveWorkers) {
    forall p | p in live && p !in PodNames(chosen) :: p in now
  }

  /** None of the chosen workers is live. */
  predicate AllGone(chosen: seq<DeployedWorker>, live: LiveWorkers) {
    forall d | d in chosen :: d.podName !in live
  }

  /** The workers left over by ID are live, so only proxies in use are kept for them. */
  lemma OthersStayLive(toDelete: seq<DeployedWorker>, before: LiveWorkers, after: LiveWorkers)
    requires Known(toDelete, before) && SubMap(after, before)
    requires OthersLive(toDelete, before, after)
    ensures SubMap(WithoutIDs(before, IDsOf(toDelete)), after)
  {
  }

  /** Once the pods to delete are gone, the workers with other IDs account for all that is live. */
  lemma OthersAreLeft(toDelete: seq<DeployedWorker>, listed: LiveWorkers, before: LiveWorkers, after: LiveWorkers)
    requires SubMap(before, listed) && SubMap(after, before) && IDsAgree(toDelete, before)
    requires AllGone(toDelete, after)
    ensures SubMap(after, WithoutIDs(listed, IDsOf(toDelete)))
  {
  }

  function Restrict(proxies: map<int, VersionedProxy>, ids: set<int>): map<int, VersionedProxy> {
    map id | id in proxies && id in ids :: proxies[id]
  }

  lemma NothingRestricted(proxies: map<int, VersionedProxy>, ids: set<int>)
    ensures SubMap(Restrict(proxies, ids), proxies)
  {
  }

  /** The pods of the workers from `from` on are there. */
  predicate PodsThere(ds: seq<DeployedWorker>, from: nat, pods: set<string>) {
    forall i | from <= i < |ds| :: ds[i].podName in pods
  }

  lemma AllPodsThere(keys: Keys, ds: seq<DeployedWorker>, pods: map<string, Pod>)
    ensures AllLive(ds, Live(keys, pods)) ==> PodsThere(ds, 0, pods.Keys)
  {
    assert forall i | 0 <= i < |ds| :: ds[i] in ds;
  }

  lemma OtherPodsThere(ds: seq<DeployedWorker>, i: nat, before: set<string>, now: set<string>)
    requires i < |ds|
    ensures PodsThere(ds, i, before) ==> ds[i].podName in before
    ensures DistinctWorkers(ds) && PodsThere(ds, i, before) && before - {ds[i].podName} <= now ==>
      PodsThere(ds, i + 1, now)
  {
  }

  lemma NoIDs(ws: seq<DeployedWorker>)
    ensures IDsOf(ws[..0]) == {} && PodNames(ws[..0]) == []
  {
  }

  lemma IDsOfNext(ws: seq<DeployedWorker>, i: nat)
    requires i < |ws|
    ensures IDsOf(ws[..i + 1]) == IDsOf(ws[..i]) + {ws[i].id}
    ensures PodNames(ws[..i + 1]) == PodNames(ws[..i]) + [ws[i].podName]
  {
  }

  /** `part` is the proxies that are, or are not, needed. */
  ghost predicate IsPart(part: seq<VersionedProxy>, proxies: seq<VersionedProxy>, needed: set<int>, isNeeded: bool) {
    && (forall p :: p in part <==> p in proxies && (p.id in needed) == isNeeded)
    && DistinctProxies(part)
  }

  lemma PartGrows(part: seq<VersionedProxy>, proxies: seq<VersionedProxy>, needed: set<int>, isNeeded: bool,
                  p: VersionedProxy)
    requires IsPart(part, proxies, needed, isNeeded) && DistinctProxies(proxies + [p])
    ensures IsPart(if (p.id in needed) == isNeeded then part + [p] else part, proxies + [p], needed, isNeeded)
  {
    forall q | q in proxies
      ensures q.id != p.id
    {
      var i :| 0 <= i < |proxies| && proxies[i] == q;
      assert (proxies + [p])[i] == q && (proxies + [p])[|proxies|] == p;
    }
  }

  lemma PartOfListing(proxies: seq<VersionedProxy>, known: map<int, VersionedProxy>, needed: set<int>,
                      toKeep: seq<VersionedProxy>, toDelete: seq<VersionedProxy>)
    requires ListsProxies(proxies, known)
    requires IsPart(toKeep, proxies, needed, true) && IsPart(toDelete, proxies, needed, false)
    ensures ListsProxies(toKeep, Restrict(known, needed))
    ensures forall i | 0 <= i < |toDelete| ::
      toDelete[i].id in known && known[toDelete[i].id] == toDelete[i] && toDelete[i].id !in needed
    ensures forall id | id in known :: id in needed || exists i | 0 <= i < |toDelete| :: toDelete[i].id == id
    ensures known.Keys <= needed ==> toDelete == []
    ensures DistinctProxies(toDelete)
  {
    assert forall p | p in proxies :: p.id in known && known[p.id] == p;
    forall i | 0 <= i < |toDelete|
      ensures toDelete[i].id in known && known[toDelete[i].id] == toDelete[i] && toDelete[i].id !in needed
    {
      assert toDelete[i] in proxies;
    }
    forall i | 0 <= i < |toKeep|
      ensures toKeep[i].id in Restrict(known, needed) && Restrict(known, needed)[toKeep[i].id] == toKeep[i]
    {
      assert toKeep[i] in proxies;
    }
    assert toDelete != [] ==> toDelete[0] in toDelete;
    forall id | id in known && id !in needed
      ensures exists i | 0 <= i < |toDelete| :: toDelete[i].id == id
    {
      assert known[id] in proxies;
      assert known[id] in toDelete;
    }
  }

  /** Those of the proxies that exist. */
  function StillThere(ps: seq<VersionedProxy>, proxies: map<int, VersionedProxy>): set<int> {
    set i | 0 <= i < |ps| && ps[i].id in proxies :: ps[i].id
  }

  lemma SubsetCount<T>(a: set<T>, b: set<T>)
    requires a <= b
    ensures |a| <= |b|
  {
    assert b == a + (b - a);
  }

  lemma StillThereNext(ps: seq<VersionedProxy>, i: nat, before: map<int, VersionedProxy>, now: map<int, VersionedProxy>)
    requires i < |ps| && now in {before, before - {ps[i].id}}
    ensures StillThere(ps[..0], before) == {}
    ensures |StillThere(ps[..i + 1], now)| <= |StillThere(ps[..i], before)| + if now == before then 1 else 0
  {
    var some := StillThere(ps[..i], before);
    assert StillThere(ps[..i + 1], now) <= if now == before then some + {ps[i].id} else some;
    SubsetCount(StillThere(ps[..i + 1], now), if now == before then some + {ps[i].id} else some);
  }

  lemma UnneededStillThere(toDelete: seq<VersionedProxy>, before: map<int, VersionedProxy>,
                           now: map<int, VersionedProxy>, needed: set<int>)
    requires SubMap(now, before)
    requires forall id | id in before :: id in needed || exists i | 0 <= i < |toDelete| :: toDelete[i].id == id
    ensures |now.Keys - needed| <= |StillThere(toDelete, now)|
  {
    forall id | id in now.Keys - needed
      ensures id in StillThere(toDelete, now)
    {
      var i :| 0 <= i < |toDelete| && toDelete[i].id == id;
    }
    SubsetCount(now.Keys - needed, StillThere(toDelete, now));
  }

  lemma OnlyNeededLeft(now: map<int, VersionedProxy>, before: map<int, VersionedProxy>, needed: set<int>)
    requires SubMap(now, before) && SubMap(Restrict(before, needed), now)
    requires forall id | id in now :: id in needed
    ensures now == Restrict(before, needed)
  {
    var kept := Restrict(before, needed);
    assert forall id | id in now :: id in kept && now[id] == kept[id];
    assert forall id | id in kept :: id in now;
  }

  lemma RestrictedKeys(proxies: map<int, VersionedProxy>, ids: set<int>)
    ensures Restrict(proxies, ids).Keys == proxies.Keys * ids && SubMap(Restrict(proxies, ids), proxies)
  {
  }

  predicate NoneOutdated(ps: seq<VersionedProxy>, checksum: string) {
    forall i | 0 <= i < |ps| :: ps[i].checksum == checksum
  }

  /** The listed proxies are now made from the template with this checksum. */
  predicate ListedRenewed(ps: seq<VersionedProxy>, now: map<int, VersionedProxy>, checksum: string) {
    forall i | 0 <= i < |ps| :: ps[i].id in now && now[ps[i].id].checksum == checksum
  }

  /** The proxies listed from `from` on exist as listed. */
  predicate AreThere(ps: seq<VersionedProxy>, from: nat, proxies: map<int, VersionedProxy>) {
    forall i | from <= i < |ps| :: ps[i].id in proxies && proxies[ps[i].id] == ps[i]
  }

  /** The listed proxies made from another template. */
  function StillOutdated(ps: seq<VersionedProxy>, proxies: map<int, VersionedProxy>, checksum: string): set<int> {
    set i | 0 <= i < |ps| && ps[i].id in proxies && proxies[ps[i].id].checksum != checksum :: ps[i].id
  }

  /** Those listed as up to date are as listed. */
  predicate CurrentUntouched(ps: seq<VersionedProxy>, proxies: map<int, VersionedProxy>, checksum: string) {
    forall i | 0 <= i < |ps| && ps[i].checksum == checksum :: ps[i].id in proxies && proxies[ps[i].id] == ps[i]
  }

  lemma NoneRenewed(ps: seq<VersionedProxy>, proxies: map<int, VersionedProxy>, checksum: string)
    requires AreThere(ps, 0, proxies)
    ensures ListedRenewed([], proxies, checksum) && StillOutdated([], proxies, checksum) == {}
    ensures CurrentUntouched(ps, proxies, checksum)
  {
  }

  /** At most this proxy was made anew. */
  predicate AtMostRenewed(before: map<int, VersionedProxy>, now: map<int, VersionedProxy>, id: int, checksum: string) {
    now == before || (id in before && id in now && now == before[id := now[id]] && now[id].checksum == checksum)
  }

  /** One more proxy has been dealt with. */
  lemma OutdatedNext(ps: seq<VersionedProxy>, i: nat, before: map<int, VersionedProxy>, now: map<int, VersionedProxy>,
                     checksum: string)
    requires i < |ps| && DistinctProxies(ps) && AreThere(ps, i, before)
             && AtMostRenewed(before, now, ps[i].id, checksum)
    ensures |StillOutdated(ps[..i + 1], now, checksum)|
         <= |StillOutdated(ps[..i], before, checksum)| + if now[ps[i].id].checksum == checksum then 0 else 1
  {
    var (some, more) := (StillOutdated(ps[..i], before, checksum), StillOutdated(ps[..i + 1], now, checksum));
    var bound := if now[ps[i].id].checksum == checksum then some else some + {ps[i].id};
    forall id | id in more
      ensures id in bound
    {
      var j :| 0 <= j < i + 1 && ps[j].id == id;
      assert j < i ==> ps[..i][j] == ps[j] && ps[j].id != ps[i].id && now[id] == before[id];
    }
    SubsetCount(more, bound);
  }

  /** The proxies that are not needed or not made from the template with this checksum. */
  function Untidy(proxies: map<int, VersionedProxy>, needed: set<int>, checksum: string): set<int> {
    set id | id in proxies && (id !in needed || proxies[id].checksum != checksum)
  }

  lemma UntidyCount(ps: seq<VersionedProxy>, known: map<int, VersionedProxy>, needed: set<int>,
                    mid: map<int, VersionedProxy>, now: map<int, VersionedProxy>, checksum: string)
    requires ListsProxies(ps, Restrict(known, needed)) && mid.Keys <= known.Keys && now.Keys == mid.Keys
    ensures |Untidy(now, needed, checksum)| <= |mid.Keys - needed| + |StillOutdated(ps, now, checksum)|
  {
    var (unneeded, outdated) := (mid.Keys - needed, StillOutdated(ps, now, checksum));
    forall id | id in Untidy(now, needed, checksum) && id in needed
      ensures id in outdated
    {
      assert Restrict(known, needed)[id] in ps;
    }
    SubsetCount(Untidy(now, needed, checksum), unneeded + outdated);
    assert |unneeded + outdated| <= |unneeded| + |outdated|;
  }

  lemma NoneToKeep(ps: seq<VersionedProxy>, known: map<int, VersionedProxy>, needed: set<int>)
    requires ListsProxies(ps, Restrict(known, needed))
    ensures needed == {} ==> ps == []
  {
    if ps != [] {
      assert ps[0].id in Restrict(known, needed);
    }
  }

  lemma NothingUntidy(proxies: map<int, VersionedProxy>, needed: set<int>, checksum: string)
    ensures proxies.Keys == {} ==> Untidy(proxies, needed, checksum) == {}
  {
  }

  lemma IDsDiffer(ps: seq<VersionedProxy>, i: nat, j: nat)
    requires i < |ps| && j < |ps| && i != j && DistinctProxies(ps)
    ensures ps[i].id != ps[j].id
  {
  }

  lemma OthersUntouched(ps: seq<VersionedProxy>, i: nat, before: map<int, VersionedProxy>,
                        now: map<int, VersionedProxy>, checksum: string)
    requires i < |ps| && DistinctProxies(ps) && ps[i].checksum != checksum
    requires AtMostRenewed(before, now, ps[i].id, checksum) && CurrentUntouched(ps, before, checksum)
    ensures CurrentUntouched(ps, now, checksum)
  {
    hide DistinctProxies;
    forall j | 0 <= j < |ps| && ps[j].checksum == checksum
      ensures ps[j].id in now && now[ps[j].id] == ps[j]
    {
      IDsDiffer(ps, i, j);
    }
  }

  lemma NextIsThere(ps: seq<VersionedProxy>, i: nat, proxies: map<int, VersionedProxy>)
    requires i < |ps| && AreThere(ps, i, proxies)
    ensures ps[i].id in proxies && proxies[ps[i].id] == ps[i]
  {
  }

  lemma RenewNext(ps: seq<VersionedProxy>, i: nat, before: map<int, VersionedProxy>, now: map<int, VersionedProxy>,
                  checksum: string)
    requires i < |ps| && DistinctProxies(ps) && AreThere(ps, i, before)
             && AtMostRenewed(before, now, ps[i].id, checksum)
    ensures AreThere(ps, i + 1, now) && now.Keys == before.Keys
    ensures ListedRenewed(ps[..i], before, checksum) && now[ps[i].id].checksum == checksum ==>
      ListedRenewed(ps[..i + 1], now, checksum)
    ensures NoneOutdated(ps, checksum) ==> ps[i].checksum == checksum
  {
  }

  lemma NothingListed(ps: seq<VersionedProxy>, known: map<int, VersionedProxy>)
    requires ListsProxies(ps, known)
    ensures |ps| == 0 ==> known.Keys == {}
  {
    forall id | id in known
      ensures known[id] in ps
    {
    }
  }

  lemma NothingMade(proxies: map<int, VersionedProxy>, checksum: string)
    requires proxies.Keys == {}
    ensures AllMadeFrom(proxies, checksum)
  {
  }

  lemma NothingOutdated(ps: seq<VersionedProxy>, known: map<int, VersionedProxy>, ids: set<int>, checksum: string)
    requires ListsProxies(ps, Restrict(known, ids))
    ensures AllMadeFrom(known, checksum) ==> NoneOutdated(ps, checksum)
  {
  }

  lemma AllRenewed(ps: seq<VersionedProxy>, listed: map<int, VersionedProxy>, now: map<int, VersionedProxy>,
                   checksum: string)
    requires ListsProxies(ps, listed)
    ensures now.Keys == listed.Keys && ListedRenewed(ps, now, checksum) ==> AllMadeFrom(now, checksum)
  {
  }

  lemma ListedAreThere(ps: seq<VersionedProxy>, known: map<int, VersionedProxy>, now: map<int, VersionedProxy>)
    requires ListsProxies(ps, known) && SubMap(known, now)
    ensures DistinctProxies(ps) && AreThere(ps, 0, now)
    ensures forall i | 0 <= i < |ps| :: ps[i].id in known && ps[i].id in now && now[ps[i].id] == ps[i]
    ensures forall id | id in known :: exists i | 0 <= i < |ps| :: ps[i].id == id
    ensures |ps| == 0 ==> known.Keys == {}
  {
  }

  lemma ListedDiffer(ps: seq<VersionedProxy>, known: map<int, VersionedProxy>)
    requires ListsProxies(ps, known)
    ensures DistinctProxies(ps)
  {
  }

  lemma NothingNeeded()
    ensures NeededBy([]) == {}
  {
  }

  lemma NeededByOneMore(ws: seq<VersionedWorker>, w: VersionedWorker)
    ensures NeededBy(ws + [w]) == NeededBy(ws) + if w.usesProxy then {w.proxyID} else {}
  {
    var all := ws + [w];
    assert all[|ws|] == w;
    forall id | id in NeededBy(ws)
      ensures id in NeededBy(all)
    {
      var i :| 0 <= i < |ws| && ws[i].usesProxy && ws[i].proxyID == id;
      assert all[i] == ws[i];
    }
  }

  function OutdatedIDs(live: LiveWorkers, checksum: string): set<int> {
    set n | n in live && live[n].checksum != checksum :: live[n].deployed.id
  }

  /** The workers of a template whose IDs no worker of another template has. */
  function Unshared(live: LiveWorkers, checksum: string): LiveWorkers {
    WithoutIDs(live, OutdatedIDs(live, checksum))
  }

  lemma UnsharedAreCurrent(live: LiveWorkers, checksum: string)
    ensures SubMap(Unshared(live, checksum), OfTemplate(live, checksum))
    ensures OfTemplate(live, checksum) == live ==> Unshared(live, checksum) == live
    ensures UsedBy(Unshared(live, checksum)) <= UsedBy(OfTemplate(live, checksum))
  {
  }

  /** The purge and the tidying together leave the proxies of unshared current workers. */
  lemma KeptKeys(listed: LiveWorkers, checksum: string, before: map<int, VersionedProxy>,
                 purged: map<int, VersionedProxy>)
    requires SubMap(purged, before)
    ensures
      var (kept, current) := (UsedBy(Unshared(listed, checksum)), OfTemplate(listed, checksum));
      (if current == listed then purged == before else purged == Restrict(before, kept)) ==>
        purged.Keys * UsedBy(current) == before.Keys * kept
  {
  }

  /** The proxies that tidying keeps: those of current workers whose IDs no outdated worker has. */
  function KeptProxies(live: LiveWorkers, proxies: set<int>, checksum: string): set<int> {
    proxies * UsedBy(Unshared(live, checksum))
  }

  lemma PurgeLists(ws: seq<VersionedWorker>, listed: LiveWorkers, latest: string, toKeep: seq<VersionedWorker>,
                   toDelete: seq<DeployedWorker>, live: LiveWorkers)
    requires ListsWorkers(ws, listed) && IsWorkerSplit(ws, latest, toKeep, toDelete) && SubMap(live, listed)
    ensures ListsWorkers(toKeep, OfTemplate(listed, latest))
    ensures forall d | d in toDelete ::
      d.podName in listed && listed[d.podName].checksum != latest && listed[d.podName].deployed == d
    ensures forall n | n in listed && listed[n].checksum != latest ::
      listed[n].deployed in toDelete && listed[n].deployed.podName == n
    ensures DistinctIDs(listed) ==> IDsAgree(toDelete, live)
    ensures toDelete == [] <==> OfTemplate(listed, latest) == listed
    ensures IDsOf(toDelete) == OutdatedIDs(listed, latest)
    ensures DistinctWorkers(toDelete) && (live == listed ==> AllLive(toDelete, live))
  {
    assert forall w | w in ws :: w.deployed.podName in listed && listed[w.deployed.podName] == w;
    forall d | d in toDelete
      ensures d.podName in listed && listed[d.podName].checksum != latest && listed[d.podName].deployed == d
    {
      var w :| w in ws && w.checksum != latest && w.deployed == d;
    }
    assert forall i | 0 <= i < |toKeep| :: toKeep[i] in toKeep;
    if toDelete != [] {
      assert toDelete[0] in toDelete;
      assert toDelete[0].podName !in OfTemplate(listed, latest);
    }
  }

  /** What the purge leaves live is of the latest template, and all of that template stays. */
  lemma PurgeLeavesCurrent(listed: LiveWorkers, latest: string, toDelete: seq<DeployedWorker>, before: LiveWorkers,
                           after: LiveWorkers)
    requires SubMap(before, listed) && SubMap(after, before)
    requires forall d | d in toDelete ::
      d.podName in listed && listed[d.podName].checksum != latest && listed[d.podName].deployed == d
    requires forall n | n in listed && listed[n].checksum != latest ::
      listed[n].deployed in toDelete && listed[n].deployed.podName == n
    ensures AllGone(toDelete, after) ==> SubMap(after, OfTemplate(listed, latest))
    ensures OthersLive(toDelete, before, after) ==>
      SubMap(OfTemplate(before, latest), after)
    ensures forall p | p in PodNames(toDelete) :: p in listed && listed[p].checksum != latest
  {
  }

  /** Which pods count as live workers, and under which name. */
  lemma LiveEntry(keys: Keys, pods: map<string, Pod>, n: string)
    ensures n in Live(keys, pods) <==> n in pods && !pods[n].terminating && WorkerOfPod(keys, pods[n]).Some?
    ensures n in Live(keys, pods) ==>
      WorkerOfPod(keys, pods[n]) == Some(Live(keys, pods)[n]) && Live(keys, pods)[n].deployed.podName == pods[n].name
  {
  }

  /** Losing one proxy's own secret leaves the other proxies' secrets alone. */
  lemma OthersKeepSecrets(client: Cluster, p: VersionedProxy)
    requires client.Valid() && client.HasProxy(p) && client.SecretsThere()
    ensures SecretsPresent(client.ProxiesNow() - {p.id}, client.s.secrets.Keys - {p.deploymentName})
  {
    hide DeploymentsOK, Proxies, World.NameOfProxy;
    ProxyNamed(client, p.id);
    forall id | id in client.ProxiesNow() && id != p.id && client.ProxiesNow()[id].usesSecret
      ensures client.ProxiesNow()[id].secretName != p.deploymentName
    {
      ProxyNamed(client, id);
      NamesDiffer(client.world, id, p.id);
    }
  }

  lemma MoreSecrets(proxies: map<int, VersionedProxy>, some: set<string>, more: set<string>)
    requires SecretsPresent(proxies, some) && some <= more
    ensures SecretsPresent(proxies, more)
  {
  }
}
