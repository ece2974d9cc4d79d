/** Which workers to add and which to delete. */
module Choosing {
  import opened Wrappers
  import opened Objects
  import opened Listing

  /** A worker as the job manager reports it. */
  datatype ConnectedWorker = ConnectedWorker(name: string, secondsIdle: int, state: string)

  datatype ResizeRequest = ResizeRequest(desiredWorkers: int, maxWorkers: int, workers: seq<ConnectedWorker>)

  /** The workers a request reports; without a request, none. */
  function Reports(request: Option<ResizeRequest>): seq<ConnectedWorker> {
    if request.Some? then request.value.workers else []
  }

  /** The number of workers to aim for. */
  function Target(request: ResizeRequest, minWorkers: int): int {
    if request.desiredWorkers > request.maxWorkers then request.maxWorkers
    else if request.desiredWorkers < minWorkers then minWorkers
    else request.desiredWorkers
  }

  function Distance(a: int, b: int): int {
    if a < b then b - a else a - b
  }

  /** With min <= max the target is the point of [min, max] nearest to what is desired. */
  lemma TargetIsNearest(request: ResizeRequest, minWorkers: int, other: int)
    requires minWorkers <= other <= request.maxWorkers
    ensures minWorkers <= Target(request, minWorkers) <= request.maxWorkers
    ensures Distance(Target(request, minWorkers), request.desiredWorkers) <= Distance(other, request.desiredWorkers)
  {
  }

  /** The maximum is respected except when it lies below the minimum and is not exceeded already. */
  lemma TargetWithinMax(request: ResizeRequest, minWorkers: int)
    ensures Target(request, minWorkers) <= request.maxWorkers <==>
            !(request.maxWorkers < minWorkers && request.desiredWorkers <= request.maxWorkers)
  {
  }

  lemma TargetCanExceedMax()
    ensures Target(ResizeRequest(0, 1, []), 2) > 1
  {
  }

  // Adding

  /** The `n` smallest positive numbers that are not taken, in ascending order. */
  predicate IsLowestFree(ids: seq<int>, taken: set<int>, n: nat) {
    && |ids| == n
    && (forall i, j | 0 <= i < j < |ids| :: ids[i] < ids[j])
    && (forall i | 0 <= i < |ids| :: ids[i] >= 1 && ids[i] !in taken)
    && (forall i, id | 0 <= i < |ids| && 1 <= id <= ids[i] && id !in taken :: id in ids)
  }

  lemma FewerAbove(ids: set<int>, id: int)
    requires id in ids
    ensures |set x | x in ids && x >= id + 1| < |set x | x in ids && x >= id|
  {
    var (more, some) := (set x | x in ids && x >= id, set x | x in ids && x >= id + 1);
    assert more == some + {id};
  }

  method GetWorkersToAdd(desiredWorkers: int, existingWorkers: seq<DeployedWorker>) returns (newWorkers: seq<int>)
    ensures IsLowestFree(newWorkers, IDsOf(existingWorkers),
                         if desiredWorkers > |existingWorkers| then desiredWorkers - |existingWorkers| else 0)
  {
    newWorkers := [];
    var id := 1;
    var numToAdd := desiredWorkers - |existingWorkers|;
    var existingIDs: set<int> := {};
    for i := 0 to |existingWorkers|
      invariant existingIDs == IDsOf(existingWorkers[..i])
    {
      IDsOfNext(existingWorkers, i);
      existingIDs := existingIDs + {existingWorkers[i].id};
    }
    assert existingWorkers[..|existingWorkers|] == existingWorkers;

    while |newWorkers| < numToAdd
      invariant id >= 1 && |newWorkers| <= if numToAdd > 0 then numToAdd else 0
      invariant IsLowestFree(newWorkers, existingIDs, |newWorkers|)
      invariant forall x | 1 <= x < id && x !in existingIDs :: x in newWorkers
      invariant forall i | 0 <= i < |newWorkers| :: newWorkers[i] < id
      decreases numToAdd - |newWorkers|, |set x | x in existingIDs && x >= id|
    {
      if id !in existingIDs {
        newWorkers := newWorkers + [id];
      } else {
        FewerAbove(existingIDs, id);
      }
      id := id + 1;
    }
  }

  lemma NextLowest(a: seq<int>, b: seq<int>, taken: set<int>, n: nat, i: nat)
    requires IsLowestFree(a, taken, n) && IsLowestFree(b, taken, n) && i < n && a[..i] == b[..i]
    ensures a[i] <= b[i]
  {
  }

  /** The lowest free numbers are determined: nothing else meets the description. */
  lemma LowestFreeIsUnique(a: seq<int>, b: seq<int>, taken: set<int>, n: nat)
    requires IsLowestFree(a, taken, n) && IsLowestFree(b, taken, n)
    ensures a == b
  {
    var i := 0;
    while i < n
      invariant i <= n && a[..i] == b[..i]
    {
      NextLowest(a, b, taken, n, i);
      NextLowest(b, a, taken, n, i);
      assert a[..i + 1] == a[..i] + [a[i]] && b[..i + 1] == b[..i] + [b[i]];
      i := i + 1;
    }
    assert a[..n] == a && b[..n] == b;
  }

  function UpTo(n: nat): (range: set<int>)
    ensures |range| == n && forall x :: x in range <==> 1 <= x <= n
  {
    if n == 0 then {} else UpTo(n - 1) + {n}
  }

  lemma {:induction false} DistinctCount<T>(s: seq<T>)
    requires forall i, j | 0 <= i < j < |s| :: s[i] != s[j]
    ensures |set x | x in s| == |s|
  {
    if s != [] {
      var front, last := s[..|s| - 1], s[|s| - 1];
      DistinctCount(front);
      assert s == front + [last];
      assert (set x | x in s) == (set x | x in front) + {last};
    }
  }

  /** Filling up to `desired` workers never takes an ID beyond `desired`. */
  lemma LowestFreeIsBounded(ids: seq<int>, taken: set<int>, n: nat, desired: int)
    requires IsLowestFree(ids, taken, n) && n + |taken| <= desired
    ensures forall i | 0 <= i < |ids| :: ids[i] <= desired
  {
    if |ids| > 0 {
      var last := ids[|ids| - 1];
      DistinctCount(ids);
      var chosen := set x | x in ids;
      assert UpTo(last) <= taken + chosen;
      SubsetCount(UpTo(last), taken + chosen);
      assert |taken + chosen| <= |taken| + |chosen|;
    }
  }

  // Deleting

  predicate IdleLongEnough(w: ConnectedWorker, threshold: int) {
    w.state == "idle" && w.secondsIdle >= threshold
  }

  /** Some report under this name says that the worker has been idle for long enough. */
  predicate ReportedIdle(connected: seq<ConnectedWorker>, name: string, threshold: int) {
    exists i | 0 <= i < |connected| ::
      connected[i].name == name && connected[i].state == "idle" && connected[i].secondsIdle >= threshold
  }

  /** Naive search: the last deployed worker of this name. */
  function Named(deployed: seq<DeployedWorker>, name: string): (r: Option<DeployedWorker>)
    ensures r.None? <==> forall d | d in deployed :: d.name != name
    ensures r.Some? ==> r.value in deployed && r.value.name == name
  {
    if deployed == [] then None
    else
      var last := deployed[|deployed| - 1];
      if last.name == name then Some(last) else Named(deployed[..|deployed| - 1], name)
  }

  /** The deployed workers reported idle for long enough, from the last report to the first. */
  function Candidates(connected: seq<ConnectedWorker>, deployed: seq<DeployedWorker>,
                      threshold: int): seq<DeployedWorker> {
    if connected == [] then []
    else
      var last := connected[|connected| - 1];
      var rest := Candidates(connected[..|connected| - 1], deployed, threshold);
      if Named(deployed, last.name).Some? && IdleLongEnough(last, threshold)
      then [Named(deployed, last.name).value] + rest else rest
  }

  lemma NobodyNamed(deployed: seq<DeployedWorker>)
    ensures forall name :: Named(deployed[..0], name) == None
  {
  }

  lemma NamedNext(deployed: seq<DeployedWorker>, i: nat, name: string)
    requires i < |deployed|
    ensures Named(deployed[..i + 1], name) ==
            if deployed[i].name == name then Some(deployed[i]) else Named(deployed[..i], name)
  {
    assert deployed[..i + 1][..i] == deployed[..i];
  }

  /** Looking a name up in the result is searching the deployed workers for it. */
  method GetConnectedAndDeployed(connected: seq<ConnectedWorker>, deployed: seq<DeployedWorker>)
    returns (found: map<string, DeployedWorker>)
    ensures forall name :: name in found <==>
      Named(deployed, name).Some? && exists w :: w in connected && w.name == name
    ensures forall name | name in found :: Named(deployed, name) == Some(found[name])
  {
    hide Named;
    found := map[];
    var connectedNames: set<string> := {};
    for i := 0 to |connected|
      invariant forall name :: name in connectedNames <==> exists j | 0 <= j < i :: connected[j].name == name
    {
      connectedNames := connectedNames + {connected[i].name};
    }
    assert forall name :: name in connectedNames <==> exists w :: w in connected && w.name == name;
    NobodyNamed(deployed);
    for i := 0 to |deployed|
      invariant forall name :: name in found <==> name in connectedNames && Named(deployed[..i], name).Some?
      invariant forall name | name in found :: Named(deployed[..i], name) == Some(found[name])
    {
      forall name {
        NamedNext(deployed, i, name);
      }
      if deployed[i].name in connectedNames {
        found := found[deployed[i].name := deployed[i]];
      }
    }
    assert deployed[..|deployed|] == deployed;
  }

  lemma CandidatesStep(connected: seq<ConnectedWorker>, i: nat, deployed: seq<DeployedWorker>, threshold: int)
    requires i < |connected|
    ensures
      var rest := Candidates(connected[..i], deployed, threshold);
      Candidates(connected[..i + 1], deployed, threshold) ==
        if Named(deployed, connected[i].name).Some? && IdleLongEnough(connected[i], threshold)
        then [Named(deployed, connected[i].name).value] + rest else rest
  {
    assert connected[..i + 1][..i] == connected[..i];
  }

  lemma NoCandidates(connected: seq<ConnectedWorker>, deployed: seq<DeployedWorker>, threshold: int)
    ensures Candidates(connected[..0], deployed, threshold) == []
  {
  }

  lemma IdleInParts(connected: seq<ConnectedWorker>, name: string, threshold: int)
    requires connected != []
    ensures ReportedIdle(connected, name, threshold) <==>
      || ReportedIdle(connected[..|connected| - 1], name, threshold)
      || (connected[|connected| - 1].name == name && IdleLongEnough(connected[|connected| - 1], threshold))
  {
  }

  /** Candidates are exactly the deployed workers found under a name reported idle. */
  lemma {:induction false} CandidatesAreIdle(connected: seq<ConnectedWorker>, deployed: seq<DeployedWorker>,
                                             threshold: int)
    ensures forall d :: d in Candidates(connected, deployed, threshold) <==>
      ReportedIdle(connected, d.name, threshold) && Named(deployed, d.name) == Some(d)
  {
    if connected != [] {
      var front, last := connected[..|connected| - 1], connected[|connected| - 1];
      CandidatesAreIdle(front, deployed, threshold);
      assert forall i | 0 <= i < |front| :: front[i] == connected[i];
      forall d: DeployedWorker
        ensures ReportedIdle(connected, d.name, threshold) <==>
          ReportedIdle(front, d.name, threshold) || (last.name == d.name && IdleLongEnough(last, threshold))
      {
        IdleInParts(connected, d.name, threshold);
      }
    }
  }

  /** Whoever is among the candidates was reported idle and is deployed. */
  lemma CandidatesHaveReports(connected: seq<ConnectedWorker>, deployed: seq<DeployedWorker>, threshold: int)
    ensures forall d | d in Candidates(connected, deployed, threshold) ::
      d in deployed
      && exists r :: r in connected && r.name == d.name && r.state == "idle" && r.secondsIdle >= threshold
    ensures forall r | r in connected && r.state == "idle" && r.secondsIdle >= threshold
                       && Named(deployed, r.name).Some? ::
      Named(deployed, r.name).value in Candidates(connected, deployed, threshold)
  {
    CandidatesAreIdle(connected, deployed, threshold);
  }

  /** Every worker deleted has a report of long idleness, and if fewer are deleted than asked for, every deployed
      worker with such a report is. Precisely, they are the first `numToDelete` candidates, or all of them if there
      are fewer. */
  method GetWorkersToDelete(numToDelete: int, connected: seq<ConnectedWorker>, deployed: seq<DeployedWorker>,
                            threshold: int)
    returns (toDelete: seq<DeployedWorker>)
    ensures forall d | d in toDelete ::
      d in deployed
      && exists r :: r in connected && r.name == d.name && r.state == "idle" && r.secondsIdle >= threshold
    ensures numToDelete < 1 || |toDelete| < numToDelete ==>
      forall r | r in connected && r.state == "idle" && r.secondsIdle >= threshold && Named(deployed, r.name).Some? ::
        Named(deployed, r.name).value in toDelete
    ensures
      var all := Candidates(connected, deployed, threshold);
      toDelete == if 1 <= numToDelete < |all| then all[..numToDelete] else all
  {
    hide Candidates, Named;
    toDelete := [];
    var connectedAndDeployed := GetConnectedAndDeployed(connected, deployed);
    ghost var all := Candidates(connected, deployed, threshold);
    CandidatesHaveReports(connected, deployed, threshold);
    assert connected[..|connected|] == connected;
    for i := |connected| downto 0
      invariant all == toDelete + Candidates(connected[..i], deployed, threshold)
      invariant 1 <= numToDelete ==> |toDelete| < numToDelete
    {
      CandidatesStep(connected, i, deployed, threshold);
      var w := connected[i];
      if w.name !in connectedAndDeployed {
        continue;
      }
      var shouldDelete := w.state == "idle" && w.secondsIdle >= threshold;
      if shouldDelete {
        ghost var rest := Candidates(connected[..i], deployed, threshold);
        assert toDelete + ([connectedAndDeployed[w.name]] + rest) == (toDelete + [connectedAndDeployed[w.name]]) + rest;
        toDelete := toDelete + [connectedAndDeployed[w.name]];
        if |toDelete| == numToDelete {
          return;
        }
      }
    }
    NoCandidates(connected, deployed, threshold);
  }

  predicate DistinctNames(connected: seq<ConnectedWorker>) {
    forall i, j | 0 <= i < j < |connected| :: connected[i].name != connected[j].name
  }

  /** No two reports that lead to a deletion share a name. */
  predicate DistinctIdleNames(connected: seq<ConnectedWorker>, deployed: seq<DeployedWorker>, threshold: int) {
    forall i, j | 0 <= i < j < |connected| && IdleLongEnough(connected[i], threshold)
      && IdleLongEnough(connected[j], threshold)
      && Named(deployed, connected[i].name).Some? :: connected[i].name != connected[j].name
  }

  lemma NothingDistinct(deployed: seq<DeployedWorker>, threshold: int)
    ensures DistinctWorkers([]) && DistinctIdleNames([], deployed, threshold)
  {
  }

  lemma DistinctNamesStep(connected: seq<ConnectedWorker>, deployed: seq<DeployedWorker>, threshold: int)
    requires connected != []
    ensures
      var front, last := connected[..|connected| - 1], connected[|connected| - 1];
      DistinctIdleNames(connected, deployed, threshold) <==>
        && DistinctIdleNames(front, deployed, threshold)
        && !(IdleLongEnough(last, threshold) && Named(deployed, last.name).Some?
             && ReportedIdle(front, last.name, threshold))
  {
  }

  lemma DistinctWorkersStep(d: DeployedWorker, rest: seq<DeployedWorker>, deployed: seq<DeployedWorker>)
    requires DistinctWorkers(deployed) && d in deployed && forall r | r in rest :: r in deployed
    ensures DistinctWorkers([d] + rest) <==> DistinctWorkers(rest) && d !in rest
  {
    var all := [d] + rest;
    assert forall i | 0 <= i < |rest| :: all[i + 1] == rest[i];
    if DistinctWorkers(all) {
      assert all[0] == d;
      forall i, j | 0 <= i < j < |rest|
        ensures rest[i].podName != rest[j].podName
      {
        assert all[i + 1].podName != all[j + 1].podName;
      }
    }
    if DistinctWorkers(rest) && d !in rest {
      forall i | 0 <= i < |rest|
        ensures rest[i].podName != d.podName
      {
        assert rest[i] in deployed;
        var j, k :| 0 <= j < |deployed| && 0 <= k < |deployed| && deployed[j] == d && deployed[k] == rest[i];
      }
    }
  }

  /** No pod is chosen twice exactly if the reports that count have different names. */
  lemma {:induction false} CandidatesDistinct(connected: seq<ConnectedWorker>, deployed: seq<DeployedWorker>,
                                              threshold: int)
    requires DistinctWorkers(deployed)
    ensures DistinctWorkers(Candidates(connected, deployed, threshold)) <==>
      DistinctIdleNames(connected, deployed, threshold)
  {
    hide Named, ReportedIdle, IdleLongEnough, DistinctWorkers, DistinctIdleNames, DistinctNames;
    if connected == [] {
      NothingDistinct(deployed, threshold);
    } else {
      var front, last := connected[..|connected| - 1], connected[|connected| - 1];
      CandidatesDistinct(front, deployed, threshold);
      CandidatesAreIdle(front, deployed, threshold);
      DistinctNamesStep(connected, deployed, threshold);
      var rest := Candidates(front, deployed, threshold);
      if Named(deployed, last.name).Some? && IdleLongEnough(last, threshold) {
        DistinctWorkersStep(Named(deployed, last.name).value, rest, deployed);
      }
    }
  }

  /** Two reports of one idle worker put its pod on the list twice. */
  lemma DuplicateReportsChooseTwice(worker: DeployedWorker, report: ConnectedWorker, threshold: int)
    requires report.name == worker.name && IdleLongEnough(report, threshold)
    ensures Candidates([report, report], [worker], threshold) == [worker, worker]
  {
    assert [report, report][..1] == [report];
    assert Candidates([report], [worker], threshold) == [worker] + Candidates([], [worker], threshold) by {
      assert [report][..0] == [];
    }
  }
}
