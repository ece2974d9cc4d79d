/** What adding workers does to the set of live workers. */
module Adding {
  import opened Wrappers
  import opened Annotations
  import opened Objects
  import opened TemplateConf
  import opened World
  import opened Cluster
  import opened Specs
  import opened Listing
  import Ceiling
  import Decimal

  function IDOfPod(keys: Keys, pod: Pod): int {
    match WorkerOfPod(keys, pod)
    case None => 0
    case Some(w) => w.deployed.id
  }

  function PodIDs(keys: Keys, specs: seq<Pod>): set<int> {
    set i | 0 <= i < |specs| :: IDOfPod(keys, specs[i])
  }

  predicate DistinctPodIDs(keys: Keys, specs: seq<Pod>) {
    forall i, j | 0 <= i < j < |specs| :: IDOfPod(keys, specs[i]) != IDOfPod(keys, specs[j])
  }

  predicate NoneHasID(live: LiveWorkers, ids: set<int>) {
    forall n | n in live :: live[n].deployed.id !in ids
  }

  /** Whatever is live now was live before or was made from this template with one of these IDs. */
  predicate MadeFrom(before: LiveWorkers, now: LiveWorkers, checksum: string, ids: set<int>) {
    forall n | n in now ::
      (n in before && now[n] == before[n]) || (now[n].checksum == checksum && now[n].deployed.id in ids)
  }

  /** No worker was lost, and at most one was added for each of these IDs. */
  predicate Added(before: LiveWorkers, now: LiveWorkers, checksum: string, ids: set<int>) {
    && SubMap(before, now)
    && (forall n | n in now && n !in before :: now[n].checksum == checksum && now[n].deployed.id in ids)
    && |now| <= |before| + |ids|
  }

  /** One worker was added for each of these IDs. */
  predicate AddedAll(before: LiveWorkers, now: LiveWorkers, ids: set<int>) {
    && (forall id | id in ids :: exists n :: n in now && n !in before && now[n].deployed.id == id)
    && |now| == |before| + |ids|
  }

  /** Those live now that were not there before, at least not like this. */
  function Newcomers(before: LiveWorkers, now: LiveWorkers): LiveWorkers {
    map n | n in now && !(n in before && before[n] == now[n]) :: now[n]
  }

  /** Workers were added for these IDs only, each with its proxy there, and no proxy was lost. If no pod was
      lost either, no ID got more than one worker; if moreover no call failed, every ID got its worker,
      and proxies were added for newcomers only. */
  predicate Grew(before: Fleet, now: Fleet, checksum: string, ids: set<int>) {
    && before.n.AtMost(now.n)
    && MadeFrom(before.workers, now.workers, checksum, ids)
    && SubMap(before.proxies, now.proxies)
    && UsedBy(Newcomers(before.workers, now.workers)) <= now.proxies.Keys
    && (now.n.losses == before.n.losses ==> Added(before.workers, now.workers, checksum, ids))
    && (now.n.losses == before.n.losses && now.n.faults == before.n.faults ==>
          && AddedAll(before.workers, now.workers, ids)
          && now.proxies.Keys <= before.proxies.Keys + UsedBy(Newcomers(before.workers, now.workers)))
  }

  /** There is a new worker for each spec. */
  predicate AreNew(keys: Keys, specs: seq<Pod>, before: LiveWorkers, now: LiveWorkers) {
    forall i | 0 <= i < |specs| ::
      specs[i].name !in before && specs[i].name in now && Some(now[specs[i].name]) == WorkerOfPod(keys, specs[i])
  }

  predicate ProxiesThere(keys: Keys, specs: seq<Pod>, proxies: map<int, VersionedProxy>) {
    forall i | 0 <= i < |specs| && WorkerOfPod(keys, specs[i]).Some? && WorkerOfPod(keys, specs[i]).value.usesProxy ::
      WorkerOfPod(keys, specs[i]).value.proxyID in proxies
  }

  lemma PodIDsEmpty(keys: Keys)
    ensures PodIDs(keys, []) == {}
  {
  }

  lemma PodIDsNext(keys: Keys, specs: seq<Pod>, i: nat)
    requires i < |specs|
    ensures PodIDs(keys, specs[..i + 1]) == PodIDs(keys, specs[..i]) + {IDOfPod(keys, specs[i])}
    ensures PodIDs(keys, specs[..i]) <= PodIDs(keys, specs) && IDOfPod(keys, specs[i]) in PodIDs(keys, specs)
    ensures DistinctPodIDs(keys, specs) ==> IDOfPod(keys, specs[i]) !in PodIDs(keys, specs[..i])
  {
  }

  /** The next worker's ID is still free. */
  lemma NextIDFree(before: Fleet, now: Fleet, checksum: string, keys: Keys, specs: seq<Pod>, i: nat)
    requires i < |specs| && DistinctPodIDs(keys, specs)
    requires Grew(before, now, checksum, PodIDs(keys, specs[..i]))
    requires NoneHasID(OfTemplate(before.workers, checksum), PodIDs(keys, specs))
    requires WorkerOfPod(keys, specs[i]).Some? && WorkerOfPod(keys, specs[i]).value.checksum == checksum
    ensures IdFree(now.workers, WorkerOfPod(keys, specs[i]).value)
    ensures NoneHasID(before.workers, PodIDs(keys, specs)) ==>
      forall n | n in now.workers :: now.workers[n].deployed.id != IDOfPod(keys, specs[i])
  {
    hide PodIDs, UsedBy, Added, AddedAll, Newcomers;
    PodIDsNext(keys, specs, i);
    forall n | n in now.workers && now.workers[n].checksum == checksum
      ensures now.workers[n].deployed.id != IDOfPod(keys, specs[i])
    {
      if n in before.workers && now.workers[n] == before.workers[n] {
        assert n in OfTemplate(before.workers, checksum);
      }
    }
  }

  /** Every spec is a worker using this proxy. */
  predicate AllUseProxy(keys: Keys, specs: seq<Pod>, proxyID: int) {
    forall i | 0 <= i < |specs| ::
      WorkerOfPod(keys, specs[i]).Some? && WorkerOfPod(keys, specs[i]).value.usesProxy
        && WorkerOfPod(keys, specs[i]).value.proxyID == proxyID
  }

  lemma UsersHaveProxy(keys: Keys, specs: seq<Pod>, proxyID: int, proxies: map<int, VersionedProxy>)
    requires AllUseProxy(keys, specs, proxyID) && proxyID in proxies
    ensures ProxiesThere(keys, specs, proxies)
  {
  }

  lemma UsersAreNew(keys: Keys, specs: seq<Pod>, proxyID: int, before: LiveWorkers, now: LiveWorkers)
    requires AllUseProxy(keys, specs, proxyID) && specs != []
    ensures AreNew(keys, specs, before, now) ==> proxyID in UsedBy(Newcomers(before, now))
  {
    hide WorkerOfPod;
    if AreNew(keys, specs, before, now) {
      assert Newcomers(before, now)[specs[0].name].usesProxy;
    }
  }

  lemma UnusedIfMissing(before: LiveWorkers, proxies: map<int, VersionedProxy>, now: LiveWorkers, id: int)
    requires SubMap(now, before) && id !in proxies
    ensures Backed(before, proxies) ==> Unused(now, id)
  {
  }

  /** A worker's proxy number is positive, no larger than its ID, and within the layout. */
  lemma ProxyIDFits(world: World, specs: seq<Pod>, proxyID: int)
    requires world.Valid() && specs != [] && PodOK(world, specs[0]) && AllUseProxy(world.keys, specs, proxyID)
    ensures 1 <= proxyID && IsInt(proxyID) && ProxyAllowed(world, proxyID)
  {
    hide WorkerOfPod, World.WorkerConfFor, IsWorkerPod, Decimal.Format;
    var w := WorkerOfPod(world.keys, specs[0]).value;
    var k := world.WorkerConfFor(w.checksum).value.workersPerPoolProxy;
    Ceiling.CeilDivInRange(w.deployed.id, k);
    if world.layout.Some? {
      Ceiling.CeilDivMonotone(w.deployed.id, world.layout.value.maxWorkers, k);
    }
  }

  lemma StillFree(before: LiveWorkers, now: LiveWorkers, checksum: string, ids: set<int>)
    requires SubMap(now, before)
    ensures NoneHasID(before, ids) ==> NoneHasID(now, ids)
    ensures NoneHasID(OfTemplate(before, checksum), ids) ==> NoneHasID(OfTemplate(now, checksum), ids)
  {
    assert forall n | n in OfTemplate(now, checksum) :: n in OfTemplate(before, checksum);
  }

  /** The IDs of all workers waiting for a new proxy. */
  function AllPodIDs(keys: Keys, newProxies: map<int, seq<Pod>>): set<int> {
    set p, id | p in newProxies && id in PodIDs(keys, newProxies[p]) :: id
  }

  predicate DisjointIDs(keys: Keys, newProxies: map<int, seq<Pod>>) {
    forall p, q | p in newProxies && q in newProxies && p != q ::
      PodIDs(keys, newProxies[p]) !! PodIDs(keys, newProxies[q])
  }

  /** The IDs tried so far are those of the proxies no longer waiting. */
  ghost predicate Tried(keys: Keys, newProxies: map<int, seq<Pod>>, rest: set<int>, tried: set<int>) {
    forall id :: id in tried <==> exists p :: p in newProxies && p !in rest && id in PodIDs(keys, newProxies[p])
  }

  lemma TriedNext(keys: Keys, newProxies: map<int, seq<Pod>>, rest: set<int>, tried: set<int>, p: int)
    requires Tried(keys, newProxies, rest, tried) && DisjointIDs(keys, newProxies) && p in rest
             && rest <= newProxies.Keys
    ensures Tried(keys, newProxies, rest - {p}, tried + PodIDs(keys, newProxies[p]))
    ensures tried !! PodIDs(keys, newProxies[p])
    ensures tried <= AllPodIDs(keys, newProxies) && PodIDs(keys, newProxies[p]) <= AllPodIDs(keys, newProxies)
  {
    hide PodIDs;
    forall id | id in tried
      ensures id in AllPodIDs(keys, newProxies) && id !in PodIDs(keys, newProxies[p])
    {
      var q :| q in newProxies && q !in rest && id in PodIDs(keys, newProxies[q]);
      assert PodIDs(keys, newProxies[q]) !! PodIDs(keys, newProxies[p]);
    }
    forall id | id in PodIDs(keys, newProxies[p])
      ensures id in AllPodIDs(keys, newProxies)
    {
      assert exists q :: q in newProxies && id in PodIDs(keys, newProxies[q]);
    }
  }

  lemma AllTried(keys: Keys, newProxies: map<int, seq<Pod>>, tried: set<int>)
    requires Tried(keys, newProxies, {}, tried)
    ensures tried == AllPodIDs(keys, newProxies)
  {
    hide PodIDs;
    forall id | id in tried
      ensures id in AllPodIDs(keys, newProxies)
    {
      var q :| q in newProxies && id in PodIDs(keys, newProxies[q]);
    }
  }

  /** IDs not tried yet are as free as they were. */
  lemma FreeAfter(before: Fleet, now: Fleet, checksum: string, tried: set<int>, all: set<int>, ids: set<int>)
    requires Grew(before, now, checksum, tried) && tried !! ids && ids <= all
    ensures NoneHasID(OfTemplate(before.workers, checksum), all) ==> NoneHasID(OfTemplate(now.workers, checksum), ids)
    ensures NoneHasID(before.workers, all) ==> NoneHasID(now.workers, ids)
  {
    if NoneHasID(OfTemplate(before.workers, checksum), all) {
      forall n | n in OfTemplate(now.workers, checksum)
        ensures now.workers[n].deployed.id !in ids
      {
        if n in before.workers && now.workers[n] == before.workers[n] {
          assert n in OfTemplate(before.workers, checksum);
        }
      }
    }
  }

  lemma MadeTwice(before: LiveWorkers, mid: LiveWorkers, now: LiveWorkers, checksum: string, first: set<int>,
                  second: set<int>)
    requires MadeFrom(before, mid, checksum, first) && MadeFrom(mid, now, checksum, second)
    ensures MadeFrom(before, now, checksum, first + second)
  {
  }

  lemma UsedByEither(all: LiveWorkers, first: LiveWorkers, second: LiveWorkers)
    requires forall n | n in all :: (n in first && first[n] == all[n]) || (n in second && second[n] == all[n])
    ensures UsedBy(all) <= UsedBy(first) + UsedBy(second)
  {
  }

  lemma UsedByMore(some: LiveWorkers, more: LiveWorkers)
    requires SubMap(some, more)
    ensures UsedBy(some) <= UsedBy(more)
  {
  }

  /** Newcomers of two rounds are newcomers of one of them; if no pod was lost, the converse holds as well. */
  lemma NewcomersTwice(before: LiveWorkers, mid: LiveWorkers, now: LiveWorkers)
    ensures UsedBy(Newcomers(before, now)) <= UsedBy(Newcomers(before, mid)) + UsedBy(Newcomers(mid, now))
    ensures SubMap(before, mid) && SubMap(mid, now) ==>
      UsedBy(Newcomers(before, now)) == UsedBy(Newcomers(before, mid)) + UsedBy(Newcomers(mid, now))
  {
    hide UsedBy;
    var (all, first, second) := (Newcomers(before, now), Newcomers(before, mid), Newcomers(mid, now));
    UsedByEither(all, first, second);
    if SubMap(before, mid) && SubMap(mid, now) {
      UsedByMore(first, all);
      UsedByMore(second, all);
    }
  }

  lemma ProxiesTwice(before: Fleet, mid: Fleet, now: Fleet)
    requires SubMap(mid.proxies, now.proxies)
    ensures UsedBy(Newcomers(before.workers, mid.workers)) <= mid.proxies.Keys ==>
      UsedBy(Newcomers(before.workers, mid.workers)) <= now.proxies.Keys
  {
  }

  lemma AddedTwice(before: LiveWorkers, mid: LiveWorkers, now: LiveWorkers, checksum: string, first: set<int>,
                   second: set<int>)
    requires first !! second && Added(before, mid, checksum, first) && Added(mid, now, checksum, second)
    ensures Added(before, now, checksum, first + second) && SubMap(before, mid) && SubMap(mid, now)
    ensures AddedAll(before, mid, first) && AddedAll(mid, now, second) ==> AddedAll(before, now, first + second)
  {
  }

  /** Two rounds of additions with different IDs make one. */
  lemma GrewTwice(before: Fleet, mid: Fleet, now: Fleet, checksum: string, first: set<int>, second: set<int>)
    requires first !! second
    requires Grew(before, mid, checksum, first) && Grew(mid, now, checksum, second)
    ensures Grew(before, now, checksum, first + second)
  {
    hide MadeFrom, Added, AddedAll, Newcomers, UsedBy, SubMap;
    SubMapTrans(before.proxies, mid.proxies, now.proxies);
    MadeTwice(before.workers, mid.workers, now.workers, checksum, first, second);
    NewcomersTwice(before.workers, mid.workers, now.workers);
    ProxiesTwice(before, mid, now);
    if now.n.losses == before.n.losses {
      AddedTwice(before.workers, mid.workers, now.workers, checksum, first, second);
    }
  }

  /** After an error, more IDs may have been asked for than were tried. */
  lemma GrewWithin(before: Fleet, now: Fleet, checksum: string, tried: set<int>, all: set<int>)
    requires Grew(before, now, checksum, tried) && tried <= all && now.n.faults > before.n.faults
    ensures Grew(before, now, checksum, all)
  {
    SubsetCount(tried, all);
  }

  /** A proxy whose workers are all new need not have been there before. */
  lemma GrewWithProxy(before: Fleet, now: Fleet, checksum: string, ids: set<int>, id: int)
    requires Grew(before, now, checksum, ids)
    requires now.n.losses == before.n.losses && now.n.faults == before.n.faults ==>
      id in UsedBy(Newcomers(before.workers, now.workers))
    ensures Grew(before.(proxies := before.proxies - {id}), now, checksum, ids)
  {
  }

  /** Workers tried in vain. */
  lemma GrewInVain(before: Fleet, mid: Fleet, now: Fleet, checksum: string, ids: set<int>)
    requires Grew(before, mid, checksum, ids) && SubMap(mid.workers, before.workers) && mid.n.faults > before.n.faults
    requires SubMap(now.workers, mid.workers) && mid.n.AtMost(now.n)
    requires now.n.losses == mid.n.losses ==> now.workers == mid.workers
    ensures now.n.losses == before.n.losses ==> now.workers == before.workers
    ensures SubMap(now.workers, before.workers)
  {
  }

  /** Where nothing was tried, workers can at most be lost. */
  lemma GrewNothing(before: Fleet, now: Fleet, checksum: string, ids: set<int>)
    requires before.n.AtMost(now.n) && SubMap(now.workers, before.workers) && SubMap(before.proxies, now.proxies)
    requires now.n.losses == before.n.losses ==> now.workers == before.workers
    requires now.n.faults == before.n.faults ==> ids == {} && now.proxies == before.proxies
    ensures Grew(before, now, checksum, ids)
  {
  }

  // Which IDs were tried

  /** The IDs of the creation calls since `before`. */
  function CallsSince(keys: Keys, before: seq<Pod>, after: seq<Pod>): set<int>
    requires before <= after
  {
    PodIDs(keys, after[|before|..])
  }

  /** The workers of a group were tried exactly if its proxy is there or the resize stopped at it. */
  ghost predicate GroupsTried(keys: Keys, newProxies: map<int, seq<Pod>>, calls: set<int>, proxies: set<int>,
                              stopped: Option<int>) {
    forall p | p in newProxies ::
      if p in proxies || stopped == Some(p) then PodIDs(keys, newProxies[p]) <= calls
      else PodIDs(keys, newProxies[p]) !! calls
  }

  /** How far creating the new proxies got. Without a stop, each that is missing cost an error; a stop means that
      a group was tried in vain. */
  ghost predicate GroupsAttempted(keys: Keys, newProxies: map<int, seq<Pod>>, calls: set<int>, before: Fleet,
                                  now: Fleet, stopped: Option<int>) {
    && GroupsTried(keys, newProxies, calls, now.proxies.Keys, stopped)
    && (stopped.None? ==> now.n.faults >= before.n.faults + |newProxies.Keys - now.proxies.Keys|)
    && (stopped.Some? ==>
          && stopped.value in newProxies && now.n.faults > before.n.faults
          && NoneHasID(Newcomers(before.workers, now.workers), PodIDs(keys, newProxies[stopped.value])))
  }

  lemma PodIDsJoin(keys: Keys, some: seq<Pod>, more: seq<Pod>)
    ensures PodIDs(keys, some + more) == PodIDs(keys, some) + PodIDs(keys, more)
  {
    var all := some + more;
    assert forall i | 0 <= i < |some| :: all[i] == some[i];
    assert forall i | 0 <= i < |more| :: all[|some| + i] == more[i];
  }

  lemma CallsMore(keys: Keys, before: seq<Pod>, now: seq<Pod>, more: seq<Pod>)
    requires before <= now
    ensures before <= now + more
    ensures CallsSince(keys, before, now + more) == CallsSince(keys, before, now) + PodIDs(keys, more)
  {
    assert (now + more)[|before|..] == now[|before|..] + more;
    PodIDsJoin(keys, now[|before|..], more);
  }

  /** The groups no longer waiting have been dealt with, and each proxy missing among them cost an error. */
  ghost predicate Progress(keys: Keys, newProxies: map<int, seq<Pod>>, rest: set<int>, tried: set<int>, calls: set<int>,
                           before: Fleet, now: Fleet) {
    && rest <= newProxies.Keys && now.proxies.Keys !! rest
    && Tried(keys, newProxies, rest, tried) && calls <= tried
    && GroupsTried(keys, newProxies, calls, now.proxies.Keys, None)
    && now.n.faults >= before.n.faults + |newProxies.Keys - rest - now.proxies.Keys|
  }

  /** Unstarted worker pods made from the template with this checksum. */
  predicate SpecsMade(world: World, checksum: string, specs: seq<Pod>) {
    forall i | 0 <= i < |specs| ::
      PodOK(world, specs[i]) && !specs[i].terminating && WorkerOfPod(world.keys, specs[i]).value.checksum == checksum
  }

  /** Creation calls were added for such pods only. */
  predicate CallsMade(world: World, checksum: string, before: seq<Pod>, after: seq<Pod>) {
    before <= after && SpecsMade(world, checksum, after[|before|..])
  }

  lemma NoCallsMade(world: World, checksum: string, calls: seq<Pod>)
    ensures CallsMade(world, checksum, calls, calls) && CallsSince(world.keys, calls, calls) == {}
  {
  }

  lemma MoreCallsMade(world: World, checksum: string, calls: seq<Pod>, more: seq<Pod>)
    requires SpecsMade(world, checksum, more)
    ensures CallsMade(world, checksum, calls, calls + more) && CallsMade(world, checksum, calls, calls)
  {
  }

  lemma CallsMadeTwice(world: World, checksum: string, before: seq<Pod>, mid: seq<Pod>, after: seq<Pod>)
    requires CallsMade(world, checksum, before, mid) && CallsMade(world, checksum, mid, after)
    ensures CallsMade(world, checksum, before, after) && before <= mid <= after
  {
    hide PodOK, WorkerOfPod;
    assert after[|before|..] == mid[|before|..] + after[|mid|..];
  }

  /** A pod that is one of those created, whether or not it has started terminating. */
  lemma CreatedPod(world: World, checksum: string, before: seq<Pod>, after: seq<Pod>, pod: Pod)
    requires CallsMade(world, checksum, before, after) && pod.(terminating := false) in after[|before|..]
    ensures PodOK(world, pod) && WorkerOfPod(world.keys, pod).value.checksum == checksum
    ensures IDOfPod(world.keys, pod) in CallsSince(world.keys, before, after)
  {
    hide PodOK, WorkerOfPod;
    var made, calls := pod.(terminating := false), after[|before|..];
    StoppingIsSame(world, made);
    var i :| 0 <= i < |calls| && calls[i] == made;
    assert pod == made || pod == made.(terminating := true);
  }

  predicate NewProxiesMade(world: World, checksum: string, newProxies: map<int, seq<Pod>>) {
    forall p | p in newProxies ::
      && newProxies[p] != [] && SpecsMade(world, checksum, newProxies[p])
      && DistinctPodIDs(world.keys, newProxies[p]) && AllUseProxy(world.keys, newProxies[p], p)
  }

  /** A group that is still waiting meets what creating it asks for. */
  lemma GroupReady(world: World, checksum: string, newProxies: map<int, seq<Pod>>, rest: set<int>, tried: set<int>,
                   calls: set<int>, before: Fleet, now: Fleet, p: int)
    requires NewProxiesMade(world, checksum, newProxies) && DisjointIDs(world.keys, newProxies)
    requires Progress(world.keys, newProxies, rest, tried, calls, before, now) && p in rest
    requires Grew(before, now, checksum, tried)
    ensures p in newProxies && p !in now.proxies && newProxies[p] != [] && SpecsMade(world, checksum, newProxies[p])
    ensures tried !! PodIDs(world.keys, newProxies[p])
            && tried + PodIDs(world.keys, newProxies[p]) <= AllPodIDs(world.keys, newProxies)
    ensures DistinctPodIDs(world.keys, newProxies[p]) && AllUseProxy(world.keys, newProxies[p], p)
    ensures NoneHasID(OfTemplate(before.workers, checksum), AllPodIDs(world.keys, newProxies)) ==>
      NoneHasID(OfTemplate(now.workers, checksum), PodIDs(world.keys, newProxies[p]))
    ensures NoneHasID(before.workers, AllPodIDs(world.keys, newProxies)) ==>
      NoneHasID(now.workers, PodIDs(world.keys, newProxies[p]))
  {
    hide PodIDs, DisjointIDs, AllPodIDs, GroupsTried, Grew, OfTemplate, NoneHasID, DistinctPodIDs, AllUseProxy,
      SpecsMade;
    TriedNext(world.keys, newProxies, rest, tried, p);
    FreeAfter(before, now, checksum, tried, AllPodIDs(world.keys, newProxies), PodIDs(world.keys, newProxies[p]));
  }

  lemma NoProgress(keys: Keys, newProxies: map<int, seq<Pod>>, calls: seq<Pod>, fleet: Fleet)
    requires newProxies.Keys !! fleet.proxies.Keys
    ensures Progress(keys, newProxies, newProxies.Keys, {}, CallsSince(keys, calls, calls), fleet, fleet)
  {
  }

  lemma GroupsDisjoint(keys: Keys, newProxies: map<int, seq<Pod>>, p: int, q: int)
    requires DisjointIDs(keys, newProxies) && p in newProxies && q in newProxies && p != q
    ensures PodIDs(keys, newProxies[q]) !! PodIDs(keys, newProxies[p])
  {
  }

  lemma GroupCalls(keys: Keys, newProxies: map<int, seq<Pod>>, before: seq<Pod>, now: seq<Pod>, after: seq<Pod>, p: int,
                   proxies: set<int>, more: set<int>, stop: bool)
    requires DisjointIDs(keys, newProxies) && p in newProxies && p !in proxies && proxies <= more <= proxies + {p}
    requires before <= now && GroupsTried(keys, newProxies, CallsSince(keys, before, now), proxies, None)
    requires after == now + if stop || p in more then newProxies[p] else []
    ensures before <= after
            && GroupsTried(keys, newProxies, CallsSince(keys, before, after), more, if stop then Some(p) else None)
    ensures CallsSince(keys, before, after) <= CallsSince(keys, before, now) + PodIDs(keys, newProxies[p])
  {
    hide PodIDs, CallsSince, DisjointIDs;
    PodIDsEmpty(keys);
    CallsMore(keys, before, now, if stop || p in more then newProxies[p] else []);
    forall q | q in newProxies && q != p
      ensures PodIDs(keys, newProxies[q]) !! PodIDs(keys, newProxies[p])
    {
      GroupsDisjoint(keys, newProxies, p, q);
    }
  }

  lemma FailedNext(all: set<int>, rest: set<int>, p: int, proxies: set<int>, more: set<int>)
    requires p in rest && rest <= all && proxies <= more <= proxies + {p}
    ensures |all - (rest - {p}) - more| <= |all - rest - proxies| + if p in more then 0 else 1
  {
    var failed := all - rest - proxies;
    SubsetCount(all - (rest - {p}) - more, if p in more then failed else failed + {p});
  }

  /** The next group: its workers were tried unless its proxy failed. */
  lemma GroupNext(keys: Keys, newProxies: map<int, seq<Pod>>, before: seq<Pod>, now: seq<Pod>, after: seq<Pod>,
                  rest: set<int>, tried: set<int>, p: int, start: Fleet, mid: Fleet, end: Fleet, stop: bool)
    requires DisjointIDs(keys, newProxies) && p in rest && before <= now
    requires Progress(keys, newProxies, rest, tried, CallsSince(keys, before, now), start, mid)
    requires mid.proxies.Keys <= end.proxies.Keys <= mid.proxies.Keys + {p} && mid.n.AtMost(end.n)
    requires stop || p !in end.proxies ==> end.n.faults > mid.n.faults
    requires after == now + if stop || p in end.proxies then newProxies[p] else []
    ensures before <= after && CallsSince(keys, before, after) <= tried + PodIDs(keys, newProxies[p])
    ensures GroupsTried(keys, newProxies, CallsSince(keys, before, after), end.proxies.Keys,
                        if stop then Some(p) else None)
    ensures !stop ==>
      Progress(keys, newProxies, rest - {p}, tried + PodIDs(keys, newProxies[p]), CallsSince(keys, before, after),
               start, end)
  {
    hide PodIDs, CallsSince, DisjointIDs, Tried, GroupsTried;
    TriedNext(keys, newProxies, rest, tried, p);
    FailedNext(newProxies.Keys, rest, p, mid.proxies.Keys, end.proxies.Keys);
    GroupCalls(keys, newProxies, before, now, after, p, mid.proxies.Keys, end.proxies.Keys, stop);
  }

  /** What is on record when a group was tried in vain. */
  lemma GroupsStopped(keys: Keys, newProxies: map<int, seq<Pod>>, calls: set<int>, start: Fleet, mid: Fleet, end: Fleet,
                      checksum: string, tried: set<int>, p: int)
    requires p in newProxies && tried !! PodIDs(keys, newProxies[p])
    requires GroupsTried(keys, newProxies, calls, end.proxies.Keys, Some(p)) && end.n.faults > start.n.faults
    requires Grew(start, mid, checksum, tried) && SubMap(end.workers, mid.workers)
    ensures GroupsAttempted(keys, newProxies, calls, start, end, Some(p))
  {
  }

  /** The next group has been dealt with: the resize stops there or goes on. */
  lemma GroupDone(keys: Keys, newProxies: map<int, seq<Pod>>, before: seq<Pod>, now: seq<Pod>, after: seq<Pod>,
                  rest: set<int>, tried: set<int>, p: int, start: Fleet, mid: Fleet, end: Fleet, checksum: string,
                  stop: bool)
    requires DisjointIDs(keys, newProxies) && p in rest && before <= now && p in newProxies
    requires Progress(keys, newProxies, rest, tried, CallsSince(keys, before, now), start, mid)
    requires mid.proxies.Keys <= end.proxies.Keys <= mid.proxies.Keys + {p}
    requires stop || p !in end.proxies ==> end.n.faults > mid.n.faults
    requires stop ==> SubMap(end.workers, mid.workers)
    requires after == now + if stop || p in end.proxies then newProxies[p] else []
    requires Grew(start, mid, checksum, tried) && Grew(mid, end, checksum, PodIDs(keys, newProxies[p]))
    ensures before <= after
    ensures
      var calls, all := CallsSince(keys, before, after), tried + PodIDs(keys, newProxies[p]);
      if stop then
        && GroupsAttempted(keys, newProxies, calls, start, end, Some(p)) && calls <= AllPodIDs(keys, newProxies)
        && Grew(start, end, checksum, AllPodIDs(keys, newProxies)) && end.n.faults > start.n.faults
      else
        Progress(keys, newProxies, rest - {p}, all, calls, start, end) && Grew(start, end, checksum, all)
  {
    hide PodIDs, CallsSince, DisjointIDs, Tried, GroupsTried, GroupsAttempted, UsedBy, MadeFrom, Added, AddedAll,
      AllPodIDs, Newcomers, SubMap;
    TriedNext(keys, newProxies, rest, tried, p);
    GroupNext(keys, newProxies, before, now, after, rest, tried, p, start, mid, end, stop);
    GrewTwice(start, mid, end, checksum, tried, PodIDs(keys, newProxies[p]));
    if stop {
      GroupsStopped(keys, newProxies, CallsSince(keys, before, after), start, mid, end, checksum, tried, p);
      GrewWithin(start, end, checksum, tried + PodIDs(keys, newProxies[p]), AllPodIDs(keys, newProxies));
    }
  }

  /** What is on record when all groups have been dealt with. */
  lemma GroupsDone(keys: Keys, newProxies: map<int, seq<Pod>>, tried: set<int>, calls: set<int>, start: Fleet,
                   end: Fleet)
    requires Progress(keys, newProxies, {}, tried, calls, start, end)
    ensures GroupsAttempted(keys, newProxies, calls, start, end, None) && tried == AllPodIDs(keys, newProxies)
            && calls <= tried
  {
    hide PodIDs, GroupsTried, AllPodIDs;
    AllTried(keys, newProxies, tried);
    assert newProxies.Keys - {} - end.proxies.Keys == newProxies.Keys - end.proxies.Keys;
  }

  lemma CallsTwice(keys: Keys, specs: seq<Pod>, before: seq<Pod>, mid: seq<Pod>, after: seq<Pod>)
    requires mid == before + specs && mid <= after
    ensures before <= after && CallsSince(keys, before, after) == PodIDs(keys, specs) + CallsSince(keys, mid, after)
  {
    hide PodIDs;
    PodIDsJoin(keys, specs, after[|mid|..]);
    assert after[|before|..] == specs + after[|mid|..];
  }

  lemma GroupWithinAll(keys: Keys, newProxies: map<int, seq<Pod>>, p: int)
    requires p in newProxies
    ensures PodIDs(keys, newProxies[p]) <= AllPodIDs(keys, newProxies)
  {
  }

  lemma TriedBesides(keys: Keys, newProxies: map<int, seq<Pod>>, calls: set<int>, proxies: set<int>,
                     stopped: Option<int>, others: set<int>)
    requires GroupsTried(keys, newProxies, calls, proxies, stopped) && others !! AllPodIDs(keys, newProxies)
    ensures GroupsTried(keys, newProxies, others + calls, proxies, stopped)
  {
  }

  lemma NewcomersApart(start: Fleet, now: Fleet, end: Fleet, checksum: string, tried: set<int>, ids: set<int>)
    requires Grew(start, now, checksum, tried) && tried !! ids && NoneHasID(Newcomers(now.workers, end.workers), ids)
    ensures NoneHasID(Newcomers(start.workers, end.workers), ids)
  {
    hide UsedBy;
    forall n | n in Newcomers(start.workers, end.workers)
      ensures end.workers[n].deployed.id !in ids
    {
      assert n in Newcomers(now.workers, end.workers) || now.workers[n] == end.workers[n];
    }
  }

  /** What the groups' attempts say holds as well of an earlier start, if the others' IDs are apart. */
  lemma AttemptedLater(keys: Keys, noProxy: seq<Pod>, newProxies: map<int, seq<Pod>>, before: seq<Pod>, mid: seq<Pod>,
                       after: seq<Pod>, start: Fleet, now: Fleet, end: Fleet, checksum: string, stopped: Option<int>)
    requires mid == before + noProxy && mid <= after && Grew(start, now, checksum, PodIDs(keys, noProxy))
    requires CallsSince(keys, mid, after) <= AllPodIDs(keys, newProxies)
             && PodIDs(keys, noProxy) !! AllPodIDs(keys, newProxies)
    requires GroupsAttempted(keys, newProxies, CallsSince(keys, mid, after), now, end, stopped)
    ensures before <= after && CallsSince(keys, before, after) == PodIDs(keys, noProxy) + CallsSince(keys, mid, after)
    ensures GroupsAttempted(keys, newProxies, CallsSince(keys, before, after), start, end, stopped)
  {
    hide PodIDs, UsedBy, AllPodIDs, Added, AddedAll, MadeFrom, Newcomers, CallsSince, GroupsTried;
    CallsTwice(keys, noProxy, before, mid, after);
    TriedBesides(keys, newProxies, CallsSince(keys, mid, after), end.proxies.Keys, stopped, PodIDs(keys, noProxy));
    if stopped.Some? {
      GroupWithinAll(keys, newProxies, stopped.value);
      NewcomersApart(start, now, end, checksum, PodIDs(keys, noProxy), PodIDs(keys, newProxies[stopped.value]));
    }
  }

  lemma NewcomersSince(keys: Keys, newProxies: map<int, seq<Pod>>, calls: set<int>, start: Fleet, now: Fleet,
                       end: Fleet, stopped: Option<int>)
    requires GroupsAttempted(keys, newProxies, calls, now, end, stopped)
    requires start.n.AtMost(now.n) && SubMap(now.workers, start.workers)
    ensures GroupsAttempted(keys, newProxies, calls, start, end, stopped)
  {
    hide PodIDs, GroupsTried;
    forall n | n in Newcomers(start.workers, end.workers)
      ensures n in Newcomers(now.workers, end.workers)
    {
    }
  }

  /** The proxy the template gives to a worker ID. */
  function ProxyFor(world: World, checksum: string, id: int): Option<int> {
    match world.WorkerConfFor(checksum)
    case Failure => None
    case Success(conf) =>
      if conf.usePoolProxy && id >= 1 && conf.workersPerPoolProxy >= 1
      then Some(CalculateProxyIDForWorker(id, conf.workersPerPoolProxy)) else None
  }

  /** The proxies these workers need that are not there. */
  function MissingProxies(world: World, checksum: string, ids: set<int>, proxies: set<int>): set<int> {
    set id | id in ids && ProxyFor(world, checksum, id).Some? && ProxyFor(world, checksum, id).value !in proxies ::
      ProxyFor(world, checksum, id).value
  }

  /** How far adding workers got. Tried were exactly those that need no proxy, whose proxy is there, or at whose
      proxy the resize stopped. Without a stop, each missing proxy cost an error. A stop means that none of that
      proxy's workers could be created. */
  ghost predicate Attempted(world: World, checksum: string, ids: set<int>, calls: set<int>, before: Fleet, now: Fleet,
                            stopped: Option<int>) {
    && calls <= ids
    && (forall id | id in ids ::
          id in calls <==>
            var p := ProxyFor(world, checksum, id);
            p.None? || p.value in now.proxies || p == stopped)
    && (stopped.None? ==>
          now.n.faults >= before.n.faults + |MissingProxies(world, checksum, ids, now.proxies.Keys)|)
    && (stopped.Some? ==>
          && now.n.faults > before.n.faults
          && forall n | n in Newcomers(before.workers, now.workers) ::
               ProxyFor(world, checksum, now.workers[n].deployed.id) != stopped)
  }

  lemma AttemptedWithin(world: World, checksum: string, ids: set<int>, calls: set<int>, before: Fleet, now: Fleet,
                        stopped: Option<int>)
    ensures Attempted(world, checksum, ids, calls, before, now, stopped) ==> calls <= ids
  {
  }

  lemma NewcomersMade(before: LiveWorkers, now: LiveWorkers, checksum: string, ids: set<int>, n: string)
    requires MadeFrom(before, now, checksum, ids) && n in Newcomers(before, now)
    ensures n in now && Newcomers(before, now)[n] == now[n] && now[n].deployed.id in ids && now[n].checksum == checksum
  {
  }

  lemma GroupTried(keys: Keys, newProxies: map<int, seq<Pod>>, calls: set<int>, proxies: set<int>, stopped: Option<int>,
                   p: int)
    requires GroupsTried(keys, newProxies, calls, proxies, stopped) && p in newProxies
    ensures if p in proxies || stopped == Some(p) then PodIDs(keys, newProxies[p]) <= calls
            else PodIDs(keys, newProxies[p]) !! calls
  {
  }

  lemma ProxyIsForID(world: World, w: VersionedWorker)
    requires Genuine(world, w)
    ensures ProxyFor(world, w.checksum, w.deployed.id) == if w.usesProxy then Some(w.proxyID) else None
  {
  }

  predicate NeedsNew(keys: Keys, pod: Pod, existing: set<int>) {
    ProxyNeeded(keys, pod.annotations).Some? && ProxyNeeded(keys, pod.annotations).value !in existing
  }

  /** Every spec waits for the new proxy it needs, or for none. */
  ghost predicate Partitioned(keys: Keys, specs: seq<Pod>, existing: set<int>, newProxies: map<int, seq<Pod>>,
                              noProxy: seq<Pod>) {
    && (forall pod :: pod in noProxy <==> pod in specs && !NeedsNew(keys, pod, existing))
    && (forall p | p in newProxies :: newProxies[p] != [] && p !in existing && DistinctPodIDs(keys, newProxies[p]))
    && (forall p, pod | p in newProxies :: pod in newProxies[p] <==>
        pod in specs && ProxyNeeded(keys, pod.annotations) == Some(p))
    && (forall pod | pod in specs && NeedsNew(keys, pod, existing) ::
        ProxyNeeded(keys, pod.annotations).value in newProxies)
    && DistinctPodIDs(keys, noProxy)
  }

  lemma UsesItsProxy(keys: Keys, pod: Pod)
    ensures WorkerOfPod(keys, pod).Some? ==>
      var w := WorkerOfPod(keys, pod).value;
      ProxyNeeded(keys, pod.annotations) == if w.usesProxy then Some(w.proxyID) else None
  {
  }

  lemma PodIDsMembers(keys: Keys, part: seq<Pod>)
    ensures forall pod | pod in part :: IDOfPod(keys, pod) in PodIDs(keys, part)
    ensures forall id | id in PodIDs(keys, part) :: exists pod :: pod in part && IDOfPod(keys, pod) == id
  {
  }

  lemma GroupOfID(world: World, checksum: string, specs: seq<Pod>, existing: set<int>, newProxies: map<int, seq<Pod>>,
                  noProxy: seq<Pod>, id: int)
    requires SpecsMade(world, checksum, specs) && Partitioned(world.keys, specs, existing, newProxies, noProxy)
    requires id in PodIDs(world.keys, specs)
    ensures var p := ProxyFor(world, checksum, id);
            if p.Some? && p.value !in existing then p.value in newProxies
              && id in PodIDs(world.keys, newProxies[p.value])
            else id in PodIDs(world.keys, noProxy) && (p.Some? ==> p.value !in newProxies)
  {
    hide ProxyNeeded, WorkerOfPod, PodIDs, ProxyFor, IsWorkerPod;
    PodIDsMembers(world.keys, specs);
    PodIDsMembers(world.keys, noProxy);
    var pod :| pod in specs && IDOfPod(world.keys, pod) == id;
    UsesItsProxy(world.keys, pod);
    ProxyIsForID(world, WorkerOfPod(world.keys, pod).value);
    var p := ProxyFor(world, checksum, id);
    if p.Some? && p.value in newProxies {
      PodIDsMembers(world.keys, newProxies[p.value]);
    }
  }

  lemma TriedByID(world: World, checksum: string, specs: seq<Pod>, newProxies: map<int, seq<Pod>>, noProxy: seq<Pod>,
                  calls: set<int>, existing: set<int>, proxies: set<int>, stopped: Option<int>, id: int)
    requires SpecsMade(world, checksum, specs) && Partitioned(world.keys, specs, existing, newProxies, noProxy)
    requires existing <= proxies && PodIDs(world.keys, noProxy) <= calls && id in PodIDs(world.keys, specs)
    requires GroupsTried(world.keys, newProxies, calls, proxies, stopped)
             && (stopped.Some? ==> stopped.value in newProxies)
    ensures var p := ProxyFor(world, checksum, id);
            && (id in calls <==> p.None? || p.value in proxies || p == stopped)
            && (p.Some? && p == stopped ==> id in PodIDs(world.keys, newProxies[p.value]))
  {
    hide PodIDs, ProxyFor, SpecsMade, Partitioned;
    GroupOfID(world, checksum, specs, existing, newProxies, noProxy, id);
    var p := ProxyFor(world, checksum, id);
    if p.Some? && p.value !in existing {
      GroupTried(world.keys, newProxies, calls, proxies, stopped, p.value);
    }
  }

  /** What was done group by group, seen worker by worker. */
  lemma AttemptedByID(world: World, checksum: string, specs: seq<Pod>, newProxies: map<int, seq<Pod>>,
                      noProxy: seq<Pod>, calls: set<int>, before: Fleet, now: Fleet, stopped: Option<int>)
    requires SpecsMade(world, checksum, specs)
    requires Partitioned(world.keys, specs, before.proxies.Keys, newProxies, noProxy)
    requires PodIDs(world.keys, noProxy) <= calls <= PodIDs(world.keys, specs)
    requires GroupsAttempted(world.keys, newProxies, calls, before, now, stopped)
    requires Grew(before, now, checksum, PodIDs(world.keys, specs))
    ensures Attempted(world, checksum, PodIDs(world.keys, specs), calls, before, now, stopped)
  {
    hide PodIDs, ProxyFor, SpecsMade, Partitioned, GroupsTried, UsedBy, Added, AddedAll;
    var ids, existing := PodIDs(world.keys, specs), before.proxies.Keys;
    forall id | id in ids
      ensures var p := ProxyFor(world, checksum, id);
              && (id in calls <==> p.None? || p.value in now.proxies || p == stopped)
              && (p.Some? && p.value !in now.proxies ==> p.value in newProxies)
              && (p.Some? && p == stopped ==> p.value in newProxies && id in PodIDs(world.keys, newProxies[p.value]))
    {
      GroupOfID(world, checksum, specs, existing, newProxies, noProxy, id);
      TriedByID(world, checksum, specs, newProxies, noProxy, calls, existing, now.proxies.Keys, stopped, id);
    }
    SubsetCount(MissingProxies(world, checksum, ids, now.proxies.Keys), newProxies.Keys - now.proxies.Keys);
    if stopped.Some? {
      forall n | n in Newcomers(before.workers, now.workers)
        ensures ProxyFor(world, checksum, now.workers[n].deployed.id) != stopped
      {
        NewcomersMade(before.workers, now.workers, checksum, ids, n);
      }
    }
  }

  function SetOf(ids: seq<int>): set<int> {
    set i | 0 <= i < |ids| :: ids[i]
  }

  lemma NothingPartitioned(keys: Keys, existing: set<int>)
    ensures Partitioned(keys, [], existing, map[], [])
  {
  }

  lemma DistinctSoFar(keys: Keys, specs: seq<Pod>, i: nat)
    requires i < |specs| && DistinctPodIDs(keys, specs)
    ensures forall pod | pod in specs[..i] :: IDOfPod(keys, pod) != IDOfPod(keys, specs[i])
  {
  }

  lemma DistinctGrows(keys: Keys, part: seq<Pod>, pod: Pod)
    requires DistinctPodIDs(keys, part) && forall other | other in part :: IDOfPod(keys, other) != IDOfPod(keys, pod)
    ensures DistinctPodIDs(keys, part + [pod])
  {
  }

  lemma OneIsDistinct(keys: Keys, pod: Pod)
    ensures DistinctPodIDs(keys, [] + [pod])
  {
  }

  lemma PartitionGrows(keys: Keys, specs: seq<Pod>, pod: Pod, existing: set<int>, newProxies: map<int, seq<Pod>>,
                       noProxy: seq<Pod>)
    requires Partitioned(keys, specs, existing, newProxies, noProxy)
    requires forall other | other in specs :: IDOfPod(keys, other) != IDOfPod(keys, pod)
    ensures if NeedsNew(keys, pod, existing) then
              var p := ProxyNeeded(keys, pod.annotations).value;
              var waiting := (if p in newProxies then newProxies[p] else []) + [pod];
              Partitioned(keys, specs + [pod], existing, newProxies[p := waiting], noProxy)
            else Partitioned(keys, specs + [pod], existing, newProxies, noProxy + [pod])
  {
    hide IDOfPod, ProxyNeeded, DistinctPodIDs;
    if NeedsNew(keys, pod, existing) {
      var p := ProxyNeeded(keys, pod.annotations).value;
      if p in newProxies {
        DistinctGrows(keys, newProxies[p], pod);
      } else {
        OneIsDistinct(keys, pod);
      }
    } else {
      DistinctGrows(keys, noProxy, pod);
    }
  }

  lemma SpecIDs(keys: Keys, specs: seq<Pod>, ids: seq<int>)
    requires |specs| == |ids| && forall i | 0 <= i < |ids| :: IDOfPod(keys, specs[i]) == ids[i]
    ensures PodIDs(keys, specs) == SetOf(ids)
    ensures (forall i, j | 0 <= i < j < |ids| :: ids[i] != ids[j]) ==> DistinctPodIDs(keys, specs)
  {
  }

  lemma OneMoreMade(world: World, checksum: string, specs: seq<Pod>, spec: Pod)
    requires PodOK(world, spec) && !spec.terminating && WorkerOfPod(world.keys, spec).value.checksum == checksum
    ensures SpecsMade(world, checksum, specs) ==> SpecsMade(world, checksum, specs + [spec])
  {
    hide PodOK, WorkerOfPod;
  }

  lemma NothingMadeYet(world: World, checksum: string)
    ensures SpecsMade(world, checksum, [])
  {
  }

  lemma PartMade(world: World, checksum: string, specs: seq<Pod>, part: seq<Pod>)
    requires SpecsMade(world, checksum, specs) && forall pod | pod in part :: pod in specs
    ensures SpecsMade(world, checksum, part)
  {
    hide PodOK, WorkerOfPod;
    assert forall i | 0 <= i < |part| :: part[i] in part;
  }

  lemma NoProxyThere(keys: Keys, noProxy: seq<Pod>, proxies: map<int, VersionedProxy>)
    requires forall pod | pod in noProxy :: !NeedsNew(keys, pod, proxies.Keys)
    ensures ProxiesThere(keys, noProxy, proxies)
  {
    hide WorkerOfPod, ProxyNeeded;
    forall i | 0 <= i < |noProxy| && WorkerOfPod(keys, noProxy[i]).Some?
      && WorkerOfPod(keys, noProxy[i]).value.usesProxy
      ensures WorkerOfPod(keys, noProxy[i]).value.proxyID in proxies
    {
      UsesItsProxy(keys, noProxy[i]);
      assert noProxy[i] in noProxy;
    }
  }

  lemma PartUses(keys: Keys, part: seq<Pod>, p: int)
    requires forall pod | pod in part :: ProxyNeeded(keys, pod.annotations) == Some(p) && WorkerOfPod(keys, pod).Some?
    ensures AllUseProxy(keys, part, p)
  {
  }

  lemma SameIDSamePod(keys: Keys, specs: seq<Pod>, a: Pod, b: Pod)
    requires DistinctPodIDs(keys, specs) && a in specs && b in specs && IDOfPod(keys, a) == IDOfPod(keys, b)
    ensures a == b
  {
    hide IDOfPod;
    var i, j :| 0 <= i < |specs| && 0 <= j < |specs| && specs[i] == a && specs[j] == b;
    if i != j {
      assert IDOfPod(keys, specs[i]) != IDOfPod(keys, specs[j]);
    }
  }

  lemma OnlyInItsPart(keys: Keys, specs: seq<Pod>, existing: set<int>, newProxies: map<int, seq<Pod>>,
                      noProxy: seq<Pod>, p: int, pod: Pod)
    requires Partitioned(keys, specs, existing, newProxies, noProxy) && DistinctPodIDs(keys, specs)
    requires p in newProxies && pod in newProxies[p]
    ensures IDOfPod(keys, pod) !in PodIDs(keys, noProxy)
    ensures forall q | q in newProxies && q != p :: IDOfPod(keys, pod) !in PodIDs(keys, newProxies[q])
  {
    hide IDOfPod, ProxyNeeded, PodIDs, DistinctPodIDs;
    forall other | other in specs && IDOfPod(keys, other) == IDOfPod(keys, pod)
      ensures other == pod
    {
      SameIDSamePod(keys, specs, other, pod);
    }
    PodIDsMembers(keys, noProxy);
    forall q | q in newProxies && q != p
      ensures IDOfPod(keys, pod) !in PodIDs(keys, newProxies[q])
    {
      PodIDsMembers(keys, newProxies[q]);
    }
  }

  /** With distinct IDs, different parts have different IDs, and together they have them all. */
  lemma PartsDisjoint(keys: Keys, specs: seq<Pod>, existing: set<int>, newProxies: map<int, seq<Pod>>,
                      noProxy: seq<Pod>)
    requires Partitioned(keys, specs, existing, newProxies, noProxy) && DistinctPodIDs(keys, specs)
    ensures DisjointIDs(keys, newProxies)
    ensures PodIDs(keys, noProxy) !! AllPodIDs(keys, newProxies)
    ensures PodIDs(keys, noProxy) + AllPodIDs(keys, newProxies) == PodIDs(keys, specs)
  {
    hide IDOfPod, ProxyNeeded, PodIDs, DistinctPodIDs;
    PodIDsMembers(keys, specs);
    PodIDsMembers(keys, noProxy);
    forall p | p in newProxies
      ensures PodIDs(keys, newProxies[p]) !! PodIDs(keys, noProxy)
      ensures PodIDs(keys, newProxies[p]) <= PodIDs(keys, specs)
      ensures forall q | q in newProxies && q != p :: PodIDs(keys, newProxies[p]) !! PodIDs(keys, newProxies[q])
    {
      PodIDsMembers(keys, newProxies[p]);
      forall id | id in PodIDs(keys, newProxies[p])
        ensures id !in PodIDs(keys, noProxy) && id in PodIDs(keys, specs)
        ensures forall q | q in newProxies && q != p :: id !in PodIDs(keys, newProxies[q])
      {
        var pod :| pod in newProxies[p] && IDOfPod(keys, pod) == id;
        OnlyInItsPart(keys, specs, existing, newProxies, noProxy, p, pod);
      }
    }
    forall id | id in PodIDs(keys, noProxy)
      ensures id in PodIDs(keys, specs)
    {
      var pod :| pod in noProxy && IDOfPod(keys, pod) == id;
    }
    forall id | id in PodIDs(keys, specs) && id !in PodIDs(keys, noProxy)
      ensures id in AllPodIDs(keys, newProxies)
    {
      var pod :| pod in specs && IDOfPod(keys, pod) == id;
      var p := ProxyNeeded(keys, pod.annotations).value;
      PodIDsMembers(keys, newProxies[p]);
    }
  }

  /** A template without proxies makes no specs that wait for one. */
  lemma NobodyWaits(world: World, checksum: string, specs: seq<Pod>, existing: set<int>,
                    newProxies: map<int, seq<Pod>>, noProxy: seq<Pod>)
    requires SpecsMade(world, checksum, specs) && Partitioned(world.keys, specs, existing, newProxies, noProxy)
    requires world.WorkerConfFor(checksum).Success? && !world.WorkerConfFor(checksum).value.usePoolProxy
    ensures newProxies == map[]
  {
    hide ProxyNeeded, WorkerOfPod, World.WorkerConfFor, IsWorkerPod;
    forall p | p in newProxies
      ensures false
    {
      var pod := newProxies[p][0];
      assert pod in newProxies[p];
      assert pod in specs;
      var i :| 0 <= i < |specs| && specs[i] == pod;
      UsesItsProxy(world.keys, specs[i]);
    }
  }

  /** The two parts meet what creating them asks for. */
  lemma PartsReady(world: World, checksum: string, specs: seq<Pod>, proxies: map<int, VersionedProxy>,
                   newProxies: map<int, seq<Pod>>, noProxy: seq<Pod>)
    requires SpecsMade(world, checksum, specs) && DistinctPodIDs(world.keys, specs)
    requires Partitioned(world.keys, specs, proxies.Keys, newProxies, noProxy)
    ensures SpecsMade(world, checksum, noProxy) && DistinctPodIDs(world.keys, noProxy)
            && ProxiesThere(world.keys, noProxy, proxies)
    ensures NewProxiesMade(world, checksum, newProxies) && newProxies.Keys !! proxies.Keys
            && DisjointIDs(world.keys, newProxies)
    ensures PodIDs(world.keys, noProxy) !! AllPodIDs(world.keys, newProxies)
    ensures PodIDs(world.keys, noProxy) + AllPodIDs(world.keys, newProxies) == PodIDs(world.keys, specs)
  {
    hide IDOfPod, ProxyNeeded, WorkerOfPod, PodOK, DistinctPodIDs, PodIDs, AllPodIDs, DisjointIDs, ProxiesThere,
      AllUseProxy;
    PartMade(world, checksum, specs, noProxy);
    forall i | 0 <= i < |noProxy| {
      UsesItsProxy(world.keys, noProxy[i]);
    }
    NoProxyThere(world.keys, noProxy, proxies);
    forall p | p in newProxies
      ensures SpecsMade(world, checksum, newProxies[p]) && AllUseProxy(world.keys, newProxies[p], p)
    {
      PartMade(world, checksum, specs, newProxies[p]);
      PartUses(world.keys, newProxies[p], p);
    }
    PartsDisjoint(world.keys, specs, proxies.Keys, newProxies, noProxy);
  }

  lemma NothingAdded(fleet: Fleet, checksum: string, keys: Keys)
    ensures Grew(fleet, fleet, checksum, {}) && AreNew(keys, [], fleet.workers, fleet.workers)
  {
  }

  lemma UsedByOne(name: string, w: VersionedWorker)
    ensures UsedBy(map[name := w]) == if w.usesProxy then {w.proxyID} else {}
  {
    assert w.usesProxy ==> map[name := w][name].usesProxy;
  }

  lemma NewcomersStep(before: LiveWorkers, now: LiveWorkers, mid: LiveWorkers, name: string, w: VersionedWorker,
                      ok: bool)
    requires SubMap(mid, now)
    ensures var after := if ok then mid[name := w] else mid;
            && UsedBy(Newcomers(before, after)) <= UsedBy(Newcomers(before, now)) +
              (if w.usesProxy then {w.proxyID} else {})
            && (mid == now && (ok ==> name !in now) ==>
                UsedBy(Newcomers(before, now)) <= UsedBy(Newcomers(before, after)))
  {
    hide UsedBy;
    var after := if ok then mid[name := w] else mid;
    UsedByEither(Newcomers(before, after), Newcomers(before, now), map[name := w]);
    UsedByOne(name, w);
    if mid == now && (ok ==> name !in now) {
      UsedByMore(Newcomers(before, now), Newcomers(before, after));
    }
  }

  lemma ItsProxyThere(keys: Keys, specs: seq<Pod>, i: nat, proxies: map<int, VersionedProxy>)
    requires i < |specs| && ProxiesThere(keys, specs, proxies) && WorkerOfPod(keys, specs[i]).Some?
    ensures WorkerOfPod(keys, specs[i]).value.usesProxy ==> WorkerOfPod(keys, specs[i]).value.proxyID in proxies
  {
  }

  lemma MadeStep(before: LiveWorkers, now: LiveWorkers, mid: LiveWorkers, checksum: string, ids: set<int>, name: string,
                 w: VersionedWorker, ok: bool)
    requires MadeFrom(before, now, checksum, ids) && SubMap(mid, now) && w.checksum == checksum
    ensures MadeFrom(before, if ok then mid[name := w] else mid, checksum, ids + {w.deployed.id})
  {
  }

  lemma AddedIsMore(before: LiveWorkers, now: LiveWorkers, checksum: string, ids: set<int>)
    requires Added(before, now, checksum, ids)
    ensures SubMap(before, now)
  {
  }

  lemma AddedStep(before: LiveWorkers, now: LiveWorkers, checksum: string, ids: set<int>, name: string,
                  w: VersionedWorker, ok: bool)
    requires Added(before, now, checksum, ids) && w.checksum == checksum && (ok ==> name !in now)
             && w.deployed.id !in ids
    ensures Added(before, if ok then now[name := w] else now, checksum, ids + {w.deployed.id})
  {
  }

  lemma AreNewStep(keys: Keys, specs: seq<Pod>, i: nat, before: LiveWorkers, now: LiveWorkers)
    requires i < |specs| && WorkerOfPod(keys, specs[i]).Some? && specs[i].name !in now && SubMap(before, now)
    ensures AreNew(keys, specs[..i], before, now) ==>
      AreNew(keys, specs[..i + 1], before, now[specs[i].name := WorkerOfPod(keys, specs[i]).value])
  {
    hide WorkerOfPod;
    if AreNew(keys, specs[..i], before, now) {
      var after := now[specs[i].name := WorkerOfPod(keys, specs[i]).value];
      forall j | 0 <= j < i
        ensures specs[j].name !in before && specs[j].name in after
                && Some(after[specs[j].name]) == WorkerOfPod(keys, specs[j])
      {
        assert specs[..i][j] == specs[j];
      }
    }
  }

  lemma OneMoreAdded(before: LiveWorkers, now: LiveWorkers, ids: set<int>, name: string, w: VersionedWorker)
    requires SubMap(before, now) && AddedAll(before, now, ids) && name !in now && w.deployed.id !in ids
    ensures AddedAll(before, now[name := w], ids + {w.deployed.id})
  {
  }

  /** One more creation attempt: `mid` is what is live just before the pod appears. */
  lemma AddStep(before: Fleet, now: Fleet, mid: LiveWorkers, after: Fleet, checksum: string, keys: Keys,
                specs: seq<Pod>, i: nat, ok: bool)
    requires i < |specs| && WorkerOfPod(keys, specs[i]).Some? && WorkerOfPod(keys, specs[i]).value.checksum == checksum
    requires Grew(before, now, checksum, PodIDs(keys, specs[..i])) && DistinctPodIDs(keys, specs)
    requires ProxiesThere(keys, specs, now.proxies)
    requires now.n.AtMost(after.n) && (after.n.losses == now.n.losses ==> mid == now.workers)
             && SubMap(mid, now.workers)
    requires after.proxies == now.proxies && (ok ==> specs[i].name !in mid) && (!ok ==> after.n.faults > now.n.faults)
    requires after.workers == if ok then mid[specs[i].name := WorkerOfPod(keys, specs[i]).value] else mid
    ensures Grew(before, after, checksum, PodIDs(keys, specs[..i + 1]))
    ensures after.n.losses == before.n.losses && after.n.faults == before.n.faults
            && AreNew(keys, specs[..i], before.workers, now.workers) ==>
      AreNew(keys, specs[..i + 1], before.workers, after.workers)
  {
    hide PodIDs, WorkerOfPod, MadeFrom, Added, AddedAll, AreNew, DistinctPodIDs, UsedBy, Newcomers, SubMap,
      ProxiesThere;
    PodIDsNext(keys, specs, i);
    var ids, w := PodIDs(keys, specs[..i]), WorkerOfPod(keys, specs[i]).value;
    MadeStep(before.workers, now.workers, mid, checksum, ids, specs[i].name, w, ok);
    NewcomersStep(before.workers, now.workers, mid, specs[i].name, w, ok);
    ItsProxyThere(keys, specs, i, now.proxies);
    if after.n.losses == before.n.losses {
      AddedStep(before.workers, now.workers, checksum, ids, specs[i].name, w, ok);
      if after.n.faults == before.n.faults {
        AddedIsMore(before.workers, now.workers, checksum, ids);
        OneMoreAdded(before.workers, now.workers, ids, specs[i].name, w);
        AreNewStep(keys, specs, i, before.workers, now.workers);
      }
    }
  }
}
