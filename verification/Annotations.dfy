/** Readers for annotations on Kubernetes resources. */
module Annotations {
  import opened Wrappers
  import Decimal

  type Meta = map<string, string>

  function GetString(key: string, meta: Meta): Result<string> {
    if key in meta then Success(meta[key]) else Failure
  }

  function GetOptionalInt(key: string, meta: Meta): Result<Option<int>> {
    if key !in meta then Success(None)
    else match Decimal.Atoi(meta[key])
      case None => Failure
      case Some(n) => Success(Some(n))
  }

  function GetInt(key: string, meta: Meta): Result<int> {
    match GetOptionalInt(key, meta)
    case Success(Some(n)) => Success(n)
    case _ => Failure
  }

  function GetBool(key: string, meta: Meta): Result<bool> {
    if key !in meta then Failure
    else match Decimal.ParseBool(meta[key])
      case None => Failure
      case Some(b) => Success(b)
  }

  /** Read every wanted key, in any order, and stop at the first that cannot be read. */
  method SetFromAnnotations<T>(wanted: set<string>, meta: Meta, read: (string, Meta) -> Result<T>)
    returns (r: Result<map<string, T>>)
    ensures r.Success? <==> forall l | l in wanted :: read(l, meta).Success?
    ensures r.Success? ==> r.value.Keys == wanted
    ensures r.Success? ==> forall l | l in wanted :: read(l, meta) == Success(r.value[l])
  {
    var values: map<string, T> := map[];
    var rest := wanted;
    while rest != {}
      invariant rest <= wanted && values.Keys == wanted - rest
      invariant forall l | l in values :: read(l, meta) == Success(values[l])
    {
      var key :| key in rest;
      match read(key, meta) {
        case Failure => return Failure;
        case Success(value) => values := values[key := value];
      }
      rest := rest - {key};
    }
    return Success(values);
  }

  /** The annotation names the chart configures. */
  datatype Keys = Keys(
    certVolume: string, logDir: string, poolProxyBasePort: string, poolProxyID: string,
    poolProxyPrefix: string, secretName: string, templateChecksum: string, usePoolProxy: string,
    useSecureCommunication: string, workerDomain: string, workerName: string, workerID: string,
    workerPrefix: string, workersPerPoolProxy: string)
  {
    /** The keys the controller writes are different from one another. */
    predicate Distinct() {
      && workerName != workerID && workerName != templateChecksum && workerName != poolProxyID
      && workerID != templateChecksum && workerID != poolProxyID && templateChecksum != poolProxyID
      && secretName != poolProxyID && secretName != templateChecksum
    }
  }
}
