/** Counting workers while they are added and deleted. */
module Scaling {
  import opened Wrappers
  import opened Objects
  import opened World
  import opened Cluster
  import opened Specs
  import opened Listing
  import opened Adding
  import opened Choosing
  import Decimal

  /** `after` lies between `before` and the target, ends included. */
  predicate Approached(before: nat, target: int, after: nat) {
    if before <= target then before <= after <= target else target <= after <= before
  }

  lemma ApproachedAtRest(n: nat, target: int)
    ensures Approached(n, target, n)
  {
  }

  /** None of these workers was reported idle for long enough. */
  predicate NoneIdle(connected: seq<ConnectedWorker>, live: LiveWorkers, threshold: int) {
    forall n | n in live :: !ReportedIdle(connected, live[n].deployed.name, threshold)
  }

  /** The target is met, or there are more workers but none that could be deleted. */
  predicate AtRest(live: LiveWorkers, target: int, connected: seq<ConnectedWorker>, threshold: int) {
    |live| == target || (target < |live| && NoneIdle(connected, live, threshold))
  }

  function IDsIn(live: LiveWorkers): set<int> {
    set n | n in live :: live[n].deployed.id
  }

  /** Nobody went, and there is one more worker for each of the lowest free IDs. */
  predicate FilledUp(before: LiveWorkers, now: LiveWorkers, target: int, added: seq<int>) {
    && |before| <= target && SubMap(before, now)
    && IsLowestFree(added, IDsIn(before), target - |before|) && AddedAll(before, now, SetOf(added))
    && forall n | n in now && n !in before :: now[n].deployed.id in SetOf(added)
  }

  lemma NothingMissing(live: LiveWorkers, target: int, connected: seq<ConnectedWorker>, threshold: int)
    ensures AtRest(live, target, connected, threshold) ==> target <= |live|
    ensures AtRest(live, target, connected, threshold) && target != |live| ==> NoneIdle(connected, live, threshold)
    ensures |live| == target ==>
      && FilledUp(live, live, target, []) && AtRest(live, target, connected, threshold)
      && Approached(|live|, target, |live|)
  {
  }

  /** The names in the reports of idle workers among these, from the last report to the first. */
  function IdleNames(connected: seq<ConnectedWorker>, names: set<string>, threshold: int): seq<string> {
    if connected == [] then []
    else
      var last := connected[|connected| - 1];
      var rest := IdleNames(connected[..|connected| - 1], names, threshold);
      if last.name in names && IdleLongEnough(last, threshold) then [last.name] + rest else rest
  }

  function NamesIn(live: LiveWorkers): set<string> {
    set n | n in live :: live[n].deployed.name
  }

  /** The names in the first `excess` idle reports, counted from the last report, or in all if there are fewer. */
  function FirstIdle(live: LiveWorkers, connected: seq<ConnectedWorker>, threshold: int, excess: nat): seq<string> {
    var all := IdleNames(connected, NamesIn(live), threshold);
    if excess < |all| then all[..excess] else all
  }

  /** The workers left when those have gone. */
  function Spared(live: LiveWorkers, connected: seq<ConnectedWorker>, threshold: int, excess: nat): LiveWorkers {
    map n | n in live && live[n].deployed.name !in FirstIdle(live, connected, threshold, excess) :: live[n]
  }

  /** There is nobody in excess, or the first idle reports name as many workers as are in excess, or all idle ones. */
  predicate Settles(live: LiveWorkers, target: int, connected: seq<ConnectedWorker>, threshold: int) {
    target < |live| ==>
      var (excess, all) := (|live| - target, IdleNames(connected, NamesIn(live), threshold));
      var gone := FirstIdle(live, connected, threshold, excess);
      |set name | name in gone| == excess || forall name | name in all :: name in gone
  }

  /** What an undisturbed iteration makes of the current workers. */
  predicate Resized(before: LiveWorkers, now: LiveWorkers, target: int, connected: seq<ConnectedWorker>, threshold: int,
                    added: seq<int>) {
    if target < |before| then now == Spared(before, connected, threshold, |before| - target)
    else FilledUp(before, now, target, added)
  }

  function WorkerNames(ds: seq<DeployedWorker>): seq<string> {
    seq(|ds|, i requires 0 <= i < |ds| => ds[i].name)
  }

  /** Candidates for deletion, by name. */
  lemma {:induction false} CandidateNames(connected: seq<ConnectedWorker>, ds: seq<DeployedWorker>, threshold: int,
                                          names: set<string>)
    requires forall name :: name in names <==> Named(ds, name).Some?
    ensures WorkerNames(Candidates(connected, ds, threshold)) == IdleNames(connected, names, threshold)
  {
    hide Named, IdleLongEnough;
    if connected != [] {
      CandidateNames(connected[..|connected| - 1], ds, threshold, names);
    }
  }

  lemma NamesListed(ds: seq<DeployedWorker>, live: LiveWorkers)
    requires ListsDeployed(ds, live)
    ensures forall name :: name in NamesIn(live) <==> Named(ds, name).Some?
  {
  }

  predicate DistinctWorkerNames(live: LiveWorkers) {
    forall m, n | m in live && n in live && m != n :: live[m].deployed.name != live[n].deployed.name
  }

  lemma GoneByName(current: LiveWorkers, chosen: seq<DeployedWorker>, now: LiveWorkers, p: string)
    requires DistinctWorkerNames(current) && p in current
    requires forall d | d in chosen :: d.podName in current && current[d.podName].deployed == d && d.podName !in now
    requires p !in PodNames(chosen) ==> p in now
    ensures p in now <==> current[p].deployed.name !in WorkerNames(chosen)
  {
    if p in PodNames(chosen) {
      var i :| 0 <= i < |chosen| && PodNames(chosen)[i] == p;
      assert chosen[i] in chosen && WorkerNames(chosen)[i] == current[p].deployed.name;
    }
  }

  /** What the workers chosen for deletion have in common. */
  lemma Chosen(connected: seq<ConnectedWorker>, ds: seq<DeployedWorker>, current: LiveWorkers, threshold: int,
               chosen: seq<DeployedWorker>)
    requires ListsDeployed(ds, current) && forall d | d in chosen :: d in Candidates(connected, ds, threshold)
    ensures forall d | d in chosen ::
      d.podName in current && current[d.podName].deployed == d && ReportedIdle(connected, d.name, threshold)
    ensures Known(chosen, current) && (DistinctIDs(current) ==> IDsAgree(chosen, current))
    ensures forall p | p in PodNames(chosen) ::
      p in current && ReportedIdle(connected, current[p].deployed.name, threshold)
    ensures NoneIdle(connected, current, threshold) ==> chosen == []
  {
    hide ReportedIdle, Candidates;
    CandidatesAreIdle(connected, ds, threshold);
    forall d | d in chosen
      ensures d.podName in current && current[d.podName].deployed == d && ReportedIdle(connected, d.name, threshold)
    {
      assert d in ds;
    }
    forall i | 0 <= i < |chosen|
      ensures PodNames(chosen)[i] in current
              && ReportedIdle(connected, current[PodNames(chosen)[i]].deployed.name, threshold)
    {
      assert chosen[i] in chosen;
    }
    if chosen != [] {
      assert chosen[0] in chosen;
    }
  }

  /** Distinct reports choose no worker twice, and only live ones. */
  lemma ChosenDiffer(connected: seq<ConnectedWorker>, ds: seq<DeployedWorker>, current: LiveWorkers, threshold: int,
                     n: nat, chosen: seq<DeployedWorker>, live: LiveWorkers, checksum: string)
    requires ListsDeployed(ds, current)
    requires var all := Candidates(connected, ds, threshold); chosen == if n < |all| then all[..n] else all
    ensures DistinctNames(connected) ==> DistinctWorkers(chosen)
    ensures OfTemplate(live, checksum) == current ==> AllLive(chosen, live)
  {
    hide Candidates, ReportedIdle;
    assert DistinctWorkers(ds) && (DistinctNames(connected) ==> DistinctIdleNames(connected, ds, threshold));
    CandidatesDistinct(connected, ds, threshold);
    Chosen(connected, ds, current, threshold, chosen);
  }

  /** Once the chosen pods are gone, the workers left are those spared by the reports. */
  lemma ChosenAreGone(connected: seq<ConnectedWorker>, ds: seq<DeployedWorker>, current: LiveWorkers, threshold: int,
                      desired: int, chosen: seq<DeployedWorker>, now: LiveWorkers)
    requires ListsDeployed(ds, current) && DistinctWorkerNames(current) && SubMap(now, current) && desired < |ds|
    requires var (all, n) := (Candidates(connected, ds, threshold), |ds| - desired);
             chosen == if n < |all| then all[..n] else all
    requires OthersLive(chosen, current, now) && AllGone(chosen, now)
    ensures now == Spared(current, connected, threshold, |ds| - desired)
  {
    hide ListsDeployed, Candidates, Named, NamesIn, IdleNames, ReportedIdle;
    NamesListed(ds, current);
    CandidateNames(connected, ds, threshold, NamesIn(current));
    Chosen(connected, ds, current, threshold, chosen);
    var (all, n) := (Candidates(connected, ds, threshold), |ds| - desired);
    var names := WorkerNames(all);
    assert WorkerNames(chosen) == if n < |names| then names[..n] else names;
    forall p | p in current
      ensures p in now <==> current[p].deployed.name !in WorkerNames(chosen)
    {
      GoneByName(current, chosen, now, p);
    }
  }

  /** A pod that was live, and was outdated or reported idle under its worker's name. */
  predicate Deletable(live: LiveWorkers, pod: string, checksum: string, connected: seq<ConnectedWorker>,
                      threshold: int) {
    pod in live && (live[pod].checksum != checksum || ReportedIdle(connected, live[pod].deployed.name, threshold))
  }

  /** Every call added to the list names a pod that could be deleted. */
  predicate CallsJustified(before: seq<string>, after: seq<string>, live: LiveWorkers, checksum: string,
                           connected: seq<ConnectedWorker>, threshold: int) {
    before <= after && forall p | p in after[|before|..] :: Deletable(live, p, checksum, connected, threshold)
  }

  lemma OutdatedCalls(before: seq<string>, after: seq<string>, live: LiveWorkers, listed: LiveWorkers, checksum: string,
                      threshold: int)
    requires before <= after && SubMap(listed, live)
    requires forall p | p in after[|before|..] :: p in listed && listed[p].checksum != checksum
    ensures CallsJustified(before, after, live, checksum, [], threshold)
  {
  }

  lemma IdleCalls(before: seq<string>, after: seq<string>, current: LiveWorkers, checksum: string,
                  connected: seq<ConnectedWorker>, threshold: int)
    requires before <= after
    requires forall p | p in after[|before|..] ::
      p in current && ReportedIdle(connected, current[p].deployed.name, threshold)
    ensures CallsJustified(before, after, current, checksum, connected, threshold)
  {
  }

  lemma CallsJoin(before: seq<string>, mid: seq<string>, after: seq<string>, live: LiveWorkers, current: LiveWorkers,
                  checksum: string, connected: seq<ConnectedWorker>, threshold: int)
    requires CallsJustified(before, mid, live, checksum, [], threshold) && SubMap(current, live)
    requires mid == after || CallsJustified(mid, after, current, checksum, connected, threshold)
    ensures CallsJustified(before, after, live, checksum, connected, threshold) && mid <= after
  {
    assert after[|before|..] == mid[|before|..] + after[|mid|..];
  }

  lemma ReasonsToDelete(before: seq<string>, after: seq<string>, live: LiveWorkers, checksum: string,
                        connected: seq<ConnectedWorker>, threshold: int)
    requires CallsJustified(before, after, live, checksum, connected, threshold)
    ensures before <= after
    ensures forall p | p in after[|before|..] ::
      && p in live
      && (live[p].checksum != checksum
          || exists r :: r in connected && r.name == live[p].deployed.name && r.state == "idle"
               && r.secondsIdle >= threshold)
  {
  }

  lemma {:induction false} ImageCount(live: LiveWorkers, names: set<string>)
    requires names <= live.Keys
    ensures |set n | n in names :: live[n].deployed.id| <= |names|
    decreases |names|
  {
    if names != {} {
      var n :| n in names;
      ImageCount(live, names - {n});
      assert (set m | m in names :: live[m].deployed.id)
          == (set m | m in names - {n} :: live[m].deployed.id) + {live[n].deployed.id};
    }
  }

  lemma ListedCount(ds: seq<DeployedWorker>, live: LiveWorkers)
    requires ListsDeployed(ds, live)
    ensures |ds| == |live| && IDsOf(ds) == IDsIn(live) && |IDsIn(live)| <= |live|
  {
    DistinctCount(PodNames(ds));
    assert live.Keys == set p | p in PodNames(ds) by {
      forall n | n in live
        ensures n in PodNames(ds)
      {
        var i :| 0 <= i < |ds| && ds[i] == live[n].deployed;
        assert PodNames(ds)[i] == n;
      }
    }
    assert forall id | id in IDsIn(live) :: id in IDsOf(ds) by {
      forall n | n in live
        ensures live[n].deployed.id in IDsOf(ds)
      {
        assert live[n].deployed in ds;
      }
    }
    ImageCount(live, live.Keys);
  }

  lemma SetOfCount(ids: seq<int>)
    requires forall i, j | 0 <= i < j < |ids| :: ids[i] < ids[j]
    ensures |SetOf(ids)| == |ids|
  {
    DistinctCount(ids);
    assert SetOf(ids) == set x | x in ids;
  }

  /** The chosen IDs are usable, and free among the workers of the template. */
  lemma ReadyToAdd(world: World, toAdd: seq<int>, current: LiveWorkers, some: LiveWorkers, desired: int)
    requires |current| < desired && IsInt(desired) && IdAllowed(world, desired) && |IDsIn(current)| <= |current|
    requires IsLowestFree(toAdd, IDsIn(current), desired - |current|)
    ensures forall i | 0 <= i < |toAdd| :: 1 <= toAdd[i] && IsInt(toAdd[i]) && IdAllowed(world, toAdd[i])
    ensures forall i, j | 0 <= i < j < |toAdd| :: toAdd[i] != toAdd[j]
    ensures SubMap(some, current) ==> NoneHasID(some, SetOf(toAdd))
    ensures |SetOf(toAdd)| == desired - |current|
  {
    LowestFreeIsBounded(toAdd, IDsIn(current), desired - |current|, desired);
    SetOfCount(toAdd);
  }

  lemma GrowthOfTemplate(before: LiveWorkers, now: LiveWorkers, checksum: string, ids: set<int>)
    requires Added(before, now, checksum, ids)
    ensures before.Keys <= now.Keys && OfTemplate(before, checksum).Keys <= OfTemplate(now, checksum).Keys
    ensures OfTemplate(now, checksum).Keys - OfTemplate(before, checksum).Keys == now.Keys - before.Keys
    ensures OfTemplate(before, checksum) == before ==> OfTemplate(now, checksum) == now
  {
  }

  lemma AllCounted(before: LiveWorkers, now: LiveWorkers, ids: set<int>)
    requires AddedAll(before, now, ids)
    ensures |now| == |before| + |ids|
  {
  }

  lemma GrowthCount<T>(before: set<T>, now: set<T>, added: set<T>)
    requires before <= now && added == now - before
    ensures |now| == |before| + |added|
  {
  }

  /** Additions count for the template they are made from. */
  lemma UpCounts(before: LiveWorkers, now: LiveWorkers, checksum: string, ids: set<int>)
    requires Added(before, now, checksum, ids)
    ensures |OfTemplate(before, checksum)| <= |OfTemplate(now, checksum)| <= |OfTemplate(before, checksum)| + |ids|
    ensures AddedAll(before, now, ids) ==> |OfTemplate(now, checksum)| == |OfTemplate(before, checksum)| + |ids|
    ensures OfTemplate(before, checksum) == before ==> OfTemplate(now, checksum) == now
  {
    hide AddedAll, OfTemplate;
    GrowthOfTemplate(before, now, checksum, ids);
    GrowthCount(before.Keys, now.Keys, now.Keys - before.Keys);
    GrowthCount(OfTemplate(before, checksum).Keys, OfTemplate(now, checksum).Keys, now.Keys - before.Keys);
    if AddedAll(before, now, ids) {
      AllCounted(before, now, ids);
    }
  }

  /** The proxies of live workers are those there were, and those of newcomers. */
  predicate ProxiesFollow(before: set<int>, now: set<int>, was: LiveWorkers, live: LiveWorkers) {
    forall id | id in UsedBy(live) :: id in now <==> id in before || id in UsedBy(Newcomers(was, live))
  }

  lemma NewProxiesFollow(before: set<int>, now: set<int>, was: LiveWorkers, live: LiveWorkers)
    ensures before + UsedBy(Newcomers(was, live)) == now ==> ProxiesFollow(before, now, was, live)
  {
  }

  lemma NewcomersAreLive(before: LiveWorkers, now: LiveWorkers)
    ensures UsedBy(Newcomers(before, now)) <= UsedBy(now)
    ensures SubMap(now, before) ==> UsedBy(Newcomers(before, now)) == {}
  {
  }

  /** What growth means for the controller. */
  lemma GrewCounts(before: Fleet, now: Fleet, checksum: string, ids: set<int>)
    requires Grew(before, now, checksum, ids)
    ensures now.n.losses == before.n.losses ==>
      && |OfTemplate(before.workers, checksum)| <= |OfTemplate(now.workers, checksum)|
      && |OfTemplate(now.workers, checksum)| <= |OfTemplate(before.workers, checksum)| + |ids|
      && (OfTemplate(before.workers, checksum) == before.workers ==> OfTemplate(now.workers, checksum) == now.workers)
    ensures now.n.losses == before.n.losses && now.n.faults == before.n.faults ==>
      && |OfTemplate(now.workers, checksum)| == |OfTemplate(before.workers, checksum)| + |ids|
      && SubMap(before.workers, now.workers) && AddedAll(before.workers, now.workers, ids)
      && (forall n | n in now.workers && n !in before.workers :: now.workers[n].deployed.id in ids)
      && ProxiesFollow(before.proxies.Keys, now.proxies.Keys, before.workers, now.workers)
      && (before.proxies.Keys <= UsedBy(before.workers) ==> now.proxies.Keys <= UsedBy(now.workers))
  {
    hide OfTemplate, AddedAll, MadeFrom, UsedBy, Newcomers, ProxiesFollow;
    if now.n.losses == before.n.losses {
      NewProxiesFollow(before.proxies.Keys, now.proxies.Keys, before.workers, now.workers);
      UpCounts(before.workers, now.workers, checksum, ids);
      AddedIsMore(before.workers, now.workers, checksum, ids);
      UsedByMore(before.workers, now.workers);
      NewcomersAreLive(before.workers, now.workers);
    }
  }

  /** The effect of adding what was missing. */
  lemma UpEffect(before: Fleet, now: Fleet, checksum: string, current: LiveWorkers, desired: int, added: seq<int>)
    requires Grew(before, now, checksum, SetOf(added)) && |current| < desired && |SetOf(added)| == desired - |current|
    requires IsLowestFree(added, IDsIn(current), desired - |current|)
    ensures now.n.losses == before.n.losses && OfTemplate(before.workers, checksum) == current ==>
      Approached(|current|, desired, |OfTemplate(now.workers, checksum)|)
    ensures now.n.losses == before.n.losses && now.n.faults == before.n.faults ==>
      && (OfTemplate(before.workers, checksum) == before.workers ==> OfTemplate(now.workers, checksum) == now.workers)
      && (before.proxies.Keys <= UsedBy(before.workers) ==> now.proxies.Keys <= UsedBy(now.workers))
      && (OfTemplate(before.workers, checksum) == current ==> |OfTemplate(now.workers, checksum)| == desired)
      && (before.workers == current ==> FilledUp(current, now.workers, desired, added))
      && ProxiesFollow(before.proxies.Keys, now.proxies.Keys, before.workers, now.workers)
  {
    hide Grew, OfTemplate, SetOf, IsLowestFree, IDsIn, UsedBy, ProxiesFollow, AddedAll, SubMap;
    GrewCounts(before, now, checksum, SetOf(added));
  }

  lemma {:induction false} NamesCount(names: seq<string>)
    ensures |set p | p in names| <= |names|
  {
    if names != [] {
      var front, last := names[..|names| - 1], names[|names| - 1];
      NamesCount(front);
      assert names == front + [last];
      assert (set p | p in names) == (set p | p in front) + {last};
    }
  }

  /** Deleting some pods takes away no more workers than there are names. */
  lemma DownCounts(before: LiveWorkers, now: LiveWorkers, names: seq<string>)
    requires SubMap(now, before) && forall p | p in before && p !in names :: p in now
    ensures |before| - |names| <= |now| <= |before|
    ensures (forall p | p in names :: p in before && p !in now)
            && (forall i, j | 0 <= i < j < |names| :: names[i] != names[j]) ==>
      |now| == |before| - |names|
  {
    var gone := set p | p in names;
    SubsetCount(now.Keys, before.Keys);
    SubsetCount(before.Keys - gone, now.Keys);
    SubsetCount(before.Keys, (before.Keys - gone) + gone);
    assert |(before.Keys - gone) + gone| == |before.Keys - gone| + |gone|;
    NamesCount(names);
    if forall p | p in names :: p in before && p !in now {
      assert now.Keys == before.Keys - gone;
      assert before.Keys == now.Keys + gone;
      if forall i, j | 0 <= i < j < |names| :: names[i] != names[j] {
        DistinctCount(names);
      }
    }
  }

  /** With all candidates gone, nobody left is idle. */
  lemma AllIdleGone(connected: seq<ConnectedWorker>, ds: seq<DeployedWorker>, current: LiveWorkers, threshold: int,
                    now: LiveWorkers)
    requires ListsDeployed(ds, current) && DistinctWorkerNames(current) && SubMap(now, current)
    requires AllGone(Candidates(connected, ds, threshold), now)
    ensures NoneIdle(connected, now, threshold)
  {
    hide ReportedIdle, Candidates;
    CandidatesAreIdle(connected, ds, threshold);
    forall n | n in now
      ensures !ReportedIdle(connected, now[n].deployed.name, threshold)
    {
      var d := current[n].deployed;
      assert d in ds;
      var found := Named(ds, d.name).value;
      assert current[found.podName].deployed == found;
      assert found.podName == n;
      assert found == d;
    }
  }

  /** With distinct reports, a prefix of the candidates names each pod once. */
  lemma ChosenDistinct(connected: seq<ConnectedWorker>, ds: seq<DeployedWorker>, current: LiveWorkers, threshold: int,
                       k: nat)
    requires ListsDeployed(ds, current) && DistinctNames(connected) && k <= |Candidates(connected, ds, threshold)|
    ensures var names := PodNames(Candidates(connected, ds, threshold)[..k]);
            forall i, j | 0 <= i < j < |names| :: names[i] != names[j]
  {
    hide IdleLongEnough, Candidates;
    assert DistinctIdleNames(connected, ds, threshold);
    CandidatesDistinct(connected, ds, threshold);
  }

  lemma NamesGone(chosen: seq<DeployedWorker>, now: LiveWorkers)
    requires AllGone(chosen, now)
    ensures forall p | p in PodNames(chosen) :: p !in now
  {
  }

  /** The effect of deleting what was chosen: `now` is what is left of the current workers. */
  lemma ScaledDown(connected: seq<ConnectedWorker>, ds: seq<DeployedWorker>, current: LiveWorkers, threshold: int,
                   desired: int, chosen: seq<DeployedWorker>, now: LiveWorkers)
    requires ListsDeployed(ds, current) && DistinctWorkerNames(current) && SubMap(now, current) && desired < |ds|
    requires var (all, n) := (Candidates(connected, ds, threshold), |ds| - desired);
             chosen == if n < |all| then all[..n] else all
    requires OthersLive(chosen, current, now)
    ensures Approached(|ds|, desired, |now|)
    ensures AllGone(chosen, now) && DistinctNames(connected) ==>
      AtRest(now, desired, connected, threshold)
  {
    hide ListsDeployed, Candidates, DistinctWorkerNames, NoneIdle, DistinctNames, ReportedIdle, Known, IDsAgree,
      DistinctIDs, IDsOf, IDsIn;
    var (all, n) := (Candidates(connected, ds, threshold), |ds| - desired);
    ListedCount(ds, current);
    DownCounts(current, now, PodNames(chosen));
    if AllGone(chosen, now) && DistinctNames(connected) {
      Chosen(connected, ds, current, threshold, chosen);
      ChosenDistinct(connected, ds, current, threshold, |chosen|);
      assert chosen == all[..|chosen|];
      NamesGone(chosen, now);
      if n >= |all| {
        AllIdleGone(connected, ds, current, threshold, now);
      }
    }
  }

  lemma OfTemplateKept(before: LiveWorkers, now: LiveWorkers, checksum: string, names: seq<string>)
    requires SubMap(now, before) && forall p | p in before && p !in names :: p in now
    ensures SubMap(OfTemplate(now, checksum), OfTemplate(before, checksum))
    ensures forall p | p in OfTemplate(before, checksum) && p !in names :: p in OfTemplate(now, checksum)
  {
  }

  /** The effect of deleting what was chosen on all that was live. */
  lemma DownEffect(connected: seq<ConnectedWorker>, ds: seq<DeployedWorker>, current: LiveWorkers, threshold: int,
                   desired: int, chosen: seq<DeployedWorker>, live: LiveWorkers, now: LiveWorkers, checksum: string)
    requires ListsDeployed(ds, current) && DistinctWorkerNames(current) && DistinctIDs(current) && desired < |ds|
    requires var (all, n) := (Candidates(connected, ds, threshold), |ds| - desired);
             chosen == if n < |all| then all[..n] else all
    requires SubMap(now, live)
    ensures OfTemplate(live, checksum) == current && OthersLive(chosen, live, now) ==>
      Approached(|ds|, desired, |OfTemplate(now, checksum)|)
    ensures live == current && OthersLive(chosen, live, now) && AllGone(chosen, now) ==>
      && now == Spared(current, connected, threshold, |ds| - desired)
      && (DistinctNames(connected) ==> AtRest(now, desired, connected, threshold))
  {
    hide ListsDeployed, Candidates, DistinctWorkerNames, DistinctIDs, NoneIdle, DistinctNames, Spared, AtRest,
      Approached, OfTemplate, PodNames;
    if OthersLive(chosen, live, now) {
      OfTemplateKept(live, now, checksum, PodNames(chosen));
      if OfTemplate(live, checksum) == current {
        ScaledDown(connected, ds, current, threshold, desired, chosen, OfTemplate(now, checksum));
      }
      if live == current && AllGone(chosen, now) {
        ScaledDown(connected, ds, current, threshold, desired, chosen, now);
        ChosenAreGone(connected, ds, current, threshold, desired, chosen, now);
      }
    }
  }

  lemma SameProxiesFollow(proxies: set<int>, live: LiveWorkers)
    ensures ProxiesFollow(proxies, proxies, live, live)
  {
  }

  /** Once the chosen pods are gone, exactly the proxies of the workers left are kept. */
  lemma ProxiesLeft(chosen: seq<DeployedWorker>, listed: LiveWorkers, now: LiveWorkers,
                    proxies: map<int, VersionedProxy>)
    requires SubMap(now, listed)
    ensures
      var kept := Restrict(proxies, UsedBy(WithoutIDs(listed, IDsOf(chosen))));
      Known(chosen, listed) && IDsAgree(chosen, listed) && OthersLive(chosen, listed, now)
      && AllGone(chosen, now) ==>
        kept.Keys <= UsedBy(now) && ProxiesFollow(proxies.Keys, kept.Keys, listed, now)
  {
    hide UsedBy, IDsOf, PodNames, IDsAgree, Known;
    if Known(chosen, listed) && IDsAgree(chosen, listed) && OthersLive(chosen, listed, now)
      && AllGone(chosen, now) {
      OthersStayLive(chosen, listed, now);
      OthersAreLeft(chosen, listed, listed, now);
      UsedByMore(WithoutIDs(listed, IDsOf(chosen)), now);
      UsedByMore(now, WithoutIDs(listed, IDsOf(chosen)));
      NewcomersAreLive(listed, now);
    }
  }

  lemma FewerAgree(chosen: seq<DeployedWorker>, some: LiveWorkers, all: LiveWorkers)
    requires IDsAgree(chosen, all)
    ensures SubMap(some, all) ==> IDsAgree(chosen, some)
  {
  }

  /** Workers of one template have different names: same prefix, different numbers. */
  lemma NamesOfOneTemplate(world: World, s: State, live: LiveWorkers, checksum: string)
    requires SoundState(world, s) && SubMap(live, Live(world.keys, s.pods))
    ensures DistinctIDs(OfTemplate(live, checksum)) && DistinctWorkerNames(OfTemplate(live, checksum))
  {
    var current := OfTemplate(live, checksum);
    hide WorkerOfPod, IsWorkerPod, Decimal.Format, World.WorkerConfFor;
    forall m, n | m in current && n in current && m != n
      ensures current[m].deployed.id != current[n].deployed.id && current[m].deployed.name != current[n].deployed.name
    {
      assert PodOK(world, s.pods[m]) && PodOK(world, s.pods[n]);
      assert Genuine(world, current[m]) && Genuine(world, current[n]);
      Decimal.NumberedNamesDistinct(world.WorkerConfFor(checksum).value.workerPrefix, current[m].deployed.id,
                                    current[n].deployed.id);
    }
  }

  // When one iteration is enough

  lemma NobodyReported(threshold: int)
    ensures forall name :: !ReportedIdle([], name, threshold)
  {
  }

  lemma {:induction false} IdleNamesMembers(connected: seq<ConnectedWorker>, names: set<string>, threshold: int)
    ensures forall name :: name in IdleNames(connected, names, threshold) <==>
              name in names && ReportedIdle(connected, name, threshold)
  {
    hide ReportedIdle, IdleLongEnough;
    if connected == [] {
      NobodyReported(threshold);
    } else {
      IdleNamesMembers(connected[..|connected| - 1], names, threshold);
      forall name {
        IdleInParts(connected, name, threshold);
      }
    }
  }

  lemma {:induction false} DistinctNamesCount(live: LiveWorkers, pods: set<string>)
    requires DistinctWorkerNames(live) && pods <= live.Keys
    ensures |set n | n in pods :: live[n].deployed.name| == |pods|
    decreases |pods|
  {
    if pods != {} {
      var n :| n in pods;
      DistinctNamesCount(live, pods - {n});
      assert (set m | m in pods :: live[m].deployed.name)
          == (set m | m in pods - {n} :: live[m].deployed.name) + {live[n].deployed.name};
    }
  }

  lemma SparedCount(live: LiveWorkers, connected: seq<ConnectedWorker>, threshold: int, excess: nat)
    requires DistinctWorkerNames(live)
    ensures var gone := set name | name in FirstIdle(live, connected, threshold, excess);
            |Spared(live, connected, threshold, excess)| == |live| - |gone| && |gone| <= excess
  {
    hide ReportedIdle, DistinctWorkerNames;
    var some, names := Spared(live, connected, threshold, excess), FirstIdle(live, connected, threshold, excess);
    var gone := set name | name in names;
    IdleNamesMembers(connected, NamesIn(live), threshold);
    NamesCount(names);
    DistinctNamesCount(live, live.Keys);
    DistinctNamesCount(live, some.Keys);
    assert gone <= NamesIn(live);
    assert (set n | n in some.Keys :: live[n].deployed.name) == NamesIn(live) - gone;
    assert (set n | n in live.Keys :: live[n].deployed.name) == NamesIn(live);
    assert |NamesIn(live)| == |NamesIn(live) - gone| + |gone| by {
      assert NamesIn(live) == (NamesIn(live) - gone) + gone;
    }
  }

  lemma SparedIdle(live: LiveWorkers, connected: seq<ConnectedWorker>, threshold: int, excess: nat)
    ensures NoneIdle(connected, Spared(live, connected, threshold, excess), threshold) <==>
            forall name | name in IdleNames(connected, NamesIn(live), threshold) ::
              name in FirstIdle(live, connected, threshold, excess)
  {
    hide ReportedIdle, IdleNames, FirstIdle;
    IdleNamesMembers(connected, NamesIn(live), threshold);
    forall name | name in NamesIn(live) && name !in FirstIdle(live, connected, threshold, excess)
      ensures exists n :: n in Spared(live, connected, threshold, excess) && live[n].deployed.name == name
    {
      var n :| n in live && live[n].deployed.name == name;
      assert n in Spared(live, connected, threshold, excess);
    }
  }

  lemma LowestFreeCount(ids: seq<int>, taken: set<int>, n: nat)
    requires IsLowestFree(ids, taken, n)
    ensures |SetOf(ids)| == n
  {
    SetOfCount(ids);
  }

  /** An undisturbed iteration leaves the cluster at rest exactly under that condition. */
  lemma SettlesExactly(before: LiveWorkers, now: LiveWorkers, target: int, connected: seq<ConnectedWorker>,
                       threshold: int, added: seq<int>)
    requires DistinctWorkerNames(before)
    ensures Resized(before, now, target, connected, threshold, added) ==>
      (AtRest(now, target, connected, threshold) <==> Settles(before, target, connected, threshold))
  {
    hide DistinctWorkerNames, Spared, FirstIdle, IdleNames, NoneIdle, IsLowestFree, IDsIn, SetOf;
    if target < |before| {
      SparedCount(before, connected, threshold, |before| - target);
      SparedIdle(before, connected, threshold, |before| - target);
    } else if FilledUp(before, now, target, added) {
      LowestFreeCount(added, IDsIn(before), target - |before|);
    }
  }

  predicate AllDiffer(names: seq<string>) {
    forall i, j | 0 <= i < j < |names| :: names[i] != names[j]
  }

  lemma OneMoreDiffers(name: string, rest: seq<string>)
    requires AllDiffer(rest) && name !in rest
    ensures AllDiffer([name] + rest)
  {
  }

  lemma {:induction false} DistinctIdle(connected: seq<ConnectedWorker>, names: set<string>, threshold: int)
    requires DistinctNames(connected)
    ensures AllDiffer(IdleNames(connected, names, threshold))
  {
    hide IdleLongEnough;
    if connected != [] {
      var front, last := connected[..|connected| - 1], connected[|connected| - 1];
      assert forall i | 0 <= i < |front| :: front[i] == connected[i];
      DistinctIdle(front, names, threshold);
      IdleNamesMembers(front, names, threshold);
      forall name | name in IdleNames(front, names, threshold)
        ensures name != last.name
      {
        var i :| 0 <= i < |front| && front[i].name == name;
      }
      var all, rest := IdleNames(connected, names, threshold), IdleNames(front, names, threshold);
      if all != rest {
        assert all == [last.name] + rest;
        OneMoreDiffers(last.name, rest);
      }
    }
  }

  /** Reports of different workers are enough. */
  lemma DistinctReportsSettle(live: LiveWorkers, target: int, connected: seq<ConnectedWorker>, threshold: int)
    ensures DistinctNames(connected) ==> Settles(live, target, connected, threshold)
  {
    hide IdleNames, DistinctNames;
    if DistinctNames(connected) && target < |live| {
      var all, gone := IdleNames(connected, NamesIn(live), threshold),
        FirstIdle(live, connected, threshold, |live| - target);
      DistinctIdle(connected, NamesIn(live), threshold);
      assert AllDiffer(gone);
      DistinctCount(gone);
    }
  }
}
