/** The check that the load balancer service exposes every port clients need. */
module LoadBalancer {
  import opened Wrappers
  import opened Ceiling
  import opened TemplateConf

  /** `infinityAsInt` is what converting an infinite or undefined quotient to an integer gives: Go leaves
      that to the platform. */
  datatype PortConfig = PortConfig(
    internalClientsOnly: bool, usePoolProxy: bool, useParallelServerProxy: bool,
    lookupPort: int, jobManagerPort: int, parallelServerProxyPort: int, poolProxyBasePort: int,
    maxWorkers: int, workersPerPoolProxy: int, infinityAsInt: int)

  datatype ServicePort = ServicePort(port: int, targetPort: int)

  /** What the API server says about the service; `Found(None)` says that it does not exist. */
  datatype Reply = ApiError | Found(ports: Option<seq<ServicePort>>)

  datatype Verdict =
    | Passed
    | Unreachable
    | NoService(portsToExpose: seq<int>)
    | TargetDiffers(port: ServicePort)
    | MissingPorts(missing: seq<int>)

  /** `int(math.Ceil(float64(w) / float64(k)))` as the bound of a loop from 0: nothing below counts. */
  function ProxyCount(network: PortConfig): nat {
    var (w, k) := (network.maxWorkers, network.workersPerPoolProxy);
    if k == 0 then (if network.infinityAsInt < 0 then 0 else network.infinityAsInt)
    else if w > 0 && k > 0 then CeilDiv(w, k)
    else if w < 0 && k < 0 then CeilDiv(-w, -k)
    else 0
  }

  function PoolProxyPorts(network: PortConfig): seq<int> {
    seq(ProxyCount(network), i => network.poolProxyBasePort + i)
  }

  /** The ports the check asks for; with the parallel server proxy, its port alone. */
  function RequiredPorts(network: PortConfig): seq<int> {
    if network.useParallelServerProxy then [network.parallelServerProxyPort]
    else if network.usePoolProxy then [network.lookupPort, network.jobManagerPort] + PoolProxyPorts(network)
    else []
  }

  predicate Exposes(ports: seq<ServicePort>, port: int) {
    exists i :: 0 <= i < |ports| && ports[i].port == port
  }

  /** Those of the ports that the service does not expose, in order. */
  function NotExposed(required: seq<int>, ports: seq<ServicePort>): (missing: seq<int>)
    ensures forall p :: p in missing <==> p in required && !Exposes(ports, p)
  {
    if required == [] then []
    else
      var last := required[|required| - 1];
      NotExposed(required[..|required| - 1], ports) + if Exposes(ports, last) then [] else [last]
  }

  lemma NoneMissing(required: seq<int>, ports: seq<ServicePort>)
    ensures NotExposed(required, ports) == [] <==> forall p | p in required :: Exposes(ports, p)
  {
    hide Exposes;
    if NotExposed(required, ports) != [] {
      assert NotExposed(required, ports)[0] in NotExposed(required, ports);
    }
  }

  method ListRequiredPorts(network: PortConfig) returns (requiredPorts: seq<int>)
    ensures requiredPorts == RequiredPorts(network)
  {
    requiredPorts := [];
    if network.usePoolProxy {
      requiredPorts := [network.lookupPort, network.jobManagerPort];
      var maxPoolProxies := ProxyCount(network);
      for i := 0 to maxPoolProxies
        invariant requiredPorts == [network.lookupPort, network.jobManagerPort] + PoolProxyPorts(network)[..i]
      {
        requiredPorts := requiredPorts + [network.poolProxyBasePort + i];
      }
      assert PoolProxyPorts(network)[..maxPoolProxies] == PoolProxyPorts(network);
    }
    if network.useParallelServerProxy {
      requiredPorts := [network.parallelServerProxyPort];
    }
  }

  method CheckPorts(requiredPorts: seq<int>, ports: seq<ServicePort>) returns (v: Verdict)
    ensures v == Passed <==>
      && (forall s | s in ports :: s.port == s.targetPort)
      && (forall p | p in requiredPorts :: Exposes(ports, p))
    ensures v.Passed? || v.TargetDiffers? || v.MissingPorts?
    ensures v.TargetDiffers? <==> exists s :: s in ports && s.port != s.targetPort
    ensures v.TargetDiffers? ==> v.port in ports && v.port.port != v.port.targetPort
    ensures v.MissingPorts? ==> v.missing == NotExposed(requiredPorts, ports) != []
  {
    var exposedPorts: set<int> := {};
    for i := 0 to |ports|
      invariant forall j | 0 <= j < i :: ports[j].port == ports[j].targetPort
      invariant forall p :: p in exposedPorts <==> exists j | 0 <= j < i :: ports[j].port == p
    {
      if ports[i].port != ports[i].targetPort {
        return TargetDiffers(ports[i]);
      }
      exposedPorts := exposedPorts + {ports[i].port};
    }
    assert forall p :: p in exposedPorts <==> Exposes(ports, p);
    hide Exposes;
    var missingPorts: seq<int> := [];
    for i := 0 to |requiredPorts|
      invariant missingPorts == NotExposed(requiredPorts[..i], ports)
    {
      assert requiredPorts[..i + 1][..i] == requiredPorts[..i];
      if requiredPorts[i] !in exposedPorts {
        missingPorts := missingPorts + [requiredPorts[i]];
      }
    }
    assert requiredPorts[..|requiredPorts|] == requiredPorts;
    NoneMissing(requiredPorts, ports);
    v := if missingPorts == [] then Passed else MissingPorts(missingPorts);
  }

  /** The pool proxies' ports are exactly the ports of the proxies from 1 on, as many as are counted. */
  lemma PoolProxyPortsAreProxyPorts(network: PortConfig, port: int)
    ensures port in PoolProxyPorts(network) <==>
      exists id :: 1 <= id <= ProxyCount(network) && port == ProxyPort(id, network.poolProxyBasePort)
  {
    hide ProxyCount;
    var ports := PoolProxyPorts(network);
    if id :| 1 <= id <= ProxyCount(network) && port == ProxyPort(id, network.poolProxyBasePort) {
      assert ports[id - 1] == port;
    }
    if port in ports {
      var i :| 0 <= i < |ports| && ports[i] == port;
      assert port == ProxyPort(i + 1, network.poolProxyBasePort);
    }
  }

  /** Which ports are required: the parallel server proxy's alone, or with pool proxies the lookup port, the job
      manager's and every pool proxy's. */
  lemma RequiredExactly(network: PortConfig, port: int)
    ensures port in RequiredPorts(network) <==>
      if network.useParallelServerProxy then port == network.parallelServerProxyPort
      else
        && network.usePoolProxy
        && (|| port == network.lookupPort || port == network.jobManagerPort
            || exists id :: 1 <= id <= ProxyCount(network) && port == ProxyPort(id, network.poolProxyBasePort))
  {
    hide ProxyCount, PoolProxyPorts;
    PoolProxyPortsAreProxyPorts(network, port);
  }

  /** So these are exposed when clients outside pass the check. */
  lemma PassedExposes(network: PortConfig, ports: seq<ServicePort>)
    requires forall p | p in RequiredPorts(network) :: Exposes(ports, p)
    ensures network.useParallelServerProxy ==> Exposes(ports, network.parallelServerProxyPort)
    ensures network.usePoolProxy && !network.useParallelServerProxy ==>
      && Exposes(ports, network.lookupPort) && Exposes(ports, network.jobManagerPort)
      && forall id | 1 <= id <= ProxyCount(network) :: Exposes(ports, ProxyPort(id, network.poolProxyBasePort))
  {
    hide ProxyCount, PoolProxyPorts, RequiredPorts, Exposes;
    RequiredExactly(network, network.parallelServerProxyPort);
    RequiredExactly(network, network.lookupPort);
    RequiredExactly(network, network.jobManagerPort);
    forall id | 1 <= id <= ProxyCount(network) && network.usePoolProxy && !network.useParallelServerProxy
      ensures Exposes(ports, ProxyPort(id, network.poolProxyBasePort))
    {
      RequiredExactly(network, ProxyPort(id, network.poolProxyBasePort));
    }
  }

  method CheckLoadBalancer(network: PortConfig, reply: Reply) returns (v: Verdict)
    ensures v == Passed <==>
      || network.internalClientsOnly
      || (&& reply.Found? && reply.ports.Some?
          && (forall s | s in reply.ports.value :: s.port == s.targetPort)
          && (forall p | p in RequiredPorts(network) :: Exposes(reply.ports.value, p)))
    ensures v == Passed && !network.internalClientsOnly ==>
      && (network.useParallelServerProxy ==> Exposes(reply.ports.value, network.parallelServerProxyPort))
      && (network.usePoolProxy && !network.useParallelServerProxy ==>
            && Exposes(reply.ports.value, network.lookupPort) && Exposes(reply.ports.value, network.jobManagerPort)
            && forall id | 1 <= id <= ProxyCount(network) ::
                 Exposes(reply.ports.value, ProxyPort(id, network.poolProxyBasePort)))
    ensures v.Unreachable? <==> !network.internalClientsOnly && reply.ApiError?
    ensures v.NoService? <==> !network.internalClientsOnly && reply == Found(None)
    ensures v.NoService? ==> v.portsToExpose == RequiredPorts(network)
    ensures v.TargetDiffers? ==> v.port in reply.ports.value && v.port.port != v.port.targetPort
    ensures v.MissingPorts? ==> v.missing == NotExposed(RequiredPorts(network), reply.ports.value) != []
  {
    hide NotExposed, PoolProxyPorts, RequiredPorts, Exposes, ProxyCount, ProxyPort;
    if network.internalClientsOnly {
      return Passed;
    }
    if reply.ApiError? {
      return Unreachable;
    }
    var requiredPorts := ListRequiredPorts(network);
    if reply.ports.None? {
      return NoService(requiredPorts);
    }
    v := CheckPorts(requiredPorts, reply.ports.value);
    if v == Passed {
      PassedExposes(network, reply.ports.value);
    }
  }

  /** With pool proxies on, the check covers all their ports exactly if the parallel server proxy is
      off, or there is no pool proxy, or the only one happens to share that proxy's port. */
  lemma PoolProxyPortsRequired(network: PortConfig)
    requires network.usePoolProxy
    ensures (forall p | p in PoolProxyPorts(network) :: p in RequiredPorts(network)) <==>
      || !network.useParallelServerProxy
      || ProxyCount(network) == 0
      || (ProxyCount(network) == 1 && network.poolProxyBasePort == network.parallelServerProxyPort)
  {
    hide ProxyCount;
    var ports, n := PoolProxyPorts(network), ProxyCount(network);
    if n >= 1 {
      assert ports[0] == network.poolProxyBasePort && ports[0] in ports;
    }
    if n >= 2 {
      assert ports[1] == network.poolProxyBasePort + 1 && ports[1] in ports;
    }
  }

  /** The loop runs as often as the quotient says, rounded up, and not at all below 1; without a quotient, as often as
      the platform says. */
  lemma CountIsCeiling(network: PortConfig)
    ensures
      var (w, k, n) := (network.maxWorkers, network.workersPerPoolProxy, ProxyCount(network));
      && (k > 0 ==> if w <= 0 then n == 0 else (n - 1) * k < w <= n * k)
      && (k < 0 ==> if w >= 0 then n == 0 else n * k <= w < (n - 1) * k)
      && (k == 0 ==> if network.infinityAsInt <= 0 then n == 0 else n == network.infinityAsInt)
  {
    var (w, k, n) := (network.maxWorkers, network.workersPerPoolProxy, ProxyCount(network));
    if w < 0 && k < 0 {
      assert n == CeilDiv(-w, -k);
      assert n * (-k) == -(n * k) && (n - 1) * k == n * k - k;
    } else {
      assert (n - 1) * k == n * k - k;
    }
  }

  /** For ordinary numbers there is no proxy only without workers, and one only if it can serve all. */
  lemma CountOfFewProxies(network: PortConfig)
    requires network.maxWorkers >= 0 && network.workersPerPoolProxy >= 1
    ensures ProxyCount(network) == CeilDiv(network.maxWorkers, network.workersPerPoolProxy)
    ensures ProxyCount(network) == 0 <==> network.maxWorkers == 0
    ensures ProxyCount(network) <= 1 <==> network.maxWorkers <= network.workersPerPoolProxy
  {
    CeilDivUnique(network.maxWorkers, network.workersPerPoolProxy, 0);
    CeilDivUnique(network.maxWorkers, network.workersPerPoolProxy, 1);
  }

  /** A service exposing the parallel server proxy alone passes, although pool proxies need ports too. */
  lemma ParallelServerProxyHidesPorts()
    ensures
      var network := PortConfig(false, true, true, 27350, 27351, 30000, 30001, 4, 2, 0);
      var ports := [ServicePort(30000, 30000)];
      && (forall p | p in RequiredPorts(network) :: Exposes(ports, p))
      && 30002 in PoolProxyPorts(network) && !Exposes(ports, 30002)
  {
    var network := PortConfig(false, true, true, 27350, 27351, 30000, 30001, 4, 2, 0);
    CeilDivUnique(4, 2, 2);
    assert PoolProxyPorts(network)[1] == 30002;
    assert [ServicePort(30000, 30000)][0].port == 30000;
  }
}
