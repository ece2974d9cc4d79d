/** Settings a pod template carries in its annotations, and the names, ports and proxy numbers
    computed from them. */
module TemplateConf {
  import opened Wrappers
  import opened Annotations
  import opened Ceiling
  import Decimal

  datatype WorkerConf = WorkerConf(
    logDir: string, workerDomain: string, workerPrefix: string, usePoolProxy: bool, certVolume: string,
    poolProxyPrefix: string, workersPerPoolProxy: int, poolProxyBasePort: int, useSecureCommunication: bool)

  datatype ProxyConf = ProxyConf(
    certVolume: string, poolProxyPrefix: string, logDir: string, poolProxyBasePort: int, useSecureCommunication: bool)

  /** The settings of a worker template: the proxy settings are required only if it uses proxies. */
  function WorkerConfOf(keys: Keys, meta: Meta): Result<WorkerConf> {
    var usePoolProxy := GetBool(keys.usePoolProxy, meta);
    if keys.logDir !in meta || keys.workerDomain !in meta || keys.workerPrefix !in meta || usePoolProxy.Failure? then
      Failure
    else if !usePoolProxy.value then
      Success(WorkerConf(meta[keys.logDir], meta[keys.workerDomain], meta[keys.workerPrefix], false, "", "", 0, 0,
                         false))
    else
      var perProxy := GetInt(keys.workersPerPoolProxy, meta);
      var basePort := GetInt(keys.poolProxyBasePort, meta);
      var secure := GetBool(keys.useSecureCommunication, meta);
      if keys.certVolume !in meta || keys.poolProxyPrefix !in meta || perProxy.Failure? || basePort.Failure?
        || secure.Failure? then
        Failure
      else
        Success(WorkerConf(meta[keys.logDir], meta[keys.workerDomain], meta[keys.workerPrefix], true,
                           meta[keys.certVolume], meta[keys.poolProxyPrefix], perProxy.value, basePort.value,
                           secure.value))
  }

  function ProxyConfOf(keys: Keys, meta: Meta): Result<ProxyConf> {
    var basePort := GetInt(keys.poolProxyBasePort, meta);
    var secure := GetBool(keys.useSecureCommunication, meta);
    if keys.certVolume !in meta || keys.poolProxyPrefix !in meta || keys.logDir !in meta || basePort.Failure?
      || secure.Failure? then
      Failure
    else
      Success(ProxyConf(meta[keys.certVolume], meta[keys.poolProxyPrefix], meta[keys.logDir], basePort.value,
                        secure.value))
  }

  function CalculateProxyIDForWorker(workerID: nat, workersPerPoolProxy: nat): nat
    requires workersPerPoolProxy >= 1
  {
    CeilDiv(workerID, workersPerPoolProxy)
  }

  function ProxyName(id: int, prefix: string): string {
    prefix + Decimal.Format(id)
  }

  function ProxyPort(id: int, basePort: int): int {
    basePort + id - 1
  }
}
