/** Setting up the cluster before the controller loop: the shared secret and the cluster profiles. */
module Setup {
  import opened Wrappers
  import opened Objects
  import opened World
  import opened Cluster
  import opened Profile

  /** Reading and writing secrets, certificates and profiles. */
  datatype Library = Library(
    marshalSecret: SharedSecret -> string, loadSecret: string -> Option<SharedSecret>,
    marshalCert: Certificate -> string, keyFits: (string, string) -> bool,
    marshalProfile: Profile -> string, unmarshalProfile: string -> Option<Profile>)
  {
    /** What was written is read back. */
    ghost predicate Sound() {
      && (forall s: SharedSecret :: loadSecret(marshalSecret(s)) == Some(s))
      && (forall p: Profile :: unmarshalProfile(marshalProfile(p)) == Some(p))
    }
  }

  datatype NetworkConfig = NetworkConfig(
    internalClientsOnly: bool, clusterHost: string, namespace: string, clusterDomain: string,
    usePoolProxy: bool, useParallelServerProxy: bool, useSecureCommunication: bool, requireClientCertificate: bool,
    requireScriptVerification: bool, parallelServerProxyUseMutualTLS: bool)

  datatype ResourceNames = ResourceNames(
    sharedSecret: string, sharedSecretFile: string, certificateFile: string, profileSecret: string,
    profileSecretPre26a: string, profileKey: string, jobManagerService: string)
  {
    predicate Distinct() {
      && sharedSecret != profileSecret && sharedSecret != profileSecretPre26a && profileSecret != profileSecretPre26a
      && sharedSecretFile != certificateFile
    }
  }

  type Secrets = map<string, SecretData>

  datatype SetupConfig = SetupConfig(network: NetworkConfig, resources: ResourceNames, profileCreator: ProfileCreator,
                                     library: Library) {
    predicate SecretRequired() {
      || network.useSecureCommunication || network.requireClientCertificate
      || network.requireScriptVerification || network.parallelServerProxyUseMutualTLS
    }

    predicate NeedCert(isSocks: bool) {
      network.requireClientCertificate || (isSocks && network.parallelServerProxyUseMutualTLS)
    }

    /** The host clients connect to; `address` is the load balancer's address, if it has one. */
    function JobManagerHost(address: Option<string>): Option<string> {
      if network.internalClientsOnly then
        Some(resources.jobManagerService + "." + network.namespace + ".svc." + network.clusterDomain)
      else if network.clusterHost != "" then Some(network.clusterHost)
      else address
    }

    /** The shared secret in the cluster, if it can be read. */
    function StoredSecret(secrets: Secrets): Option<SharedSecret> {
      if resources.sharedSecret in secrets && resources.sharedSecretFile in secrets[resources.sharedSecret]
      then library.loadSecret(secrets[resources.sharedSecret][resources.sharedSecretFile])
      else None
    }

    function ProfileIn(data: Option<SecretData>): Option<Profile> {
      if data.Some? && resources.profileKey in data.value
        then library.unmarshalProfile(data.value[resources.profileKey]) else None
    }

    /** The secret's certificate can serve in a profile: it is not empty. */
    predicate CertServes(secret: Option<SharedSecret>, isSocks: bool) {
      NeedCert(isSocks) ==> secret.Some? && secret.value.certPEM != ""
    }

    /** The data hold a profile like one made now, which carries the secret's certificate if it needs one. */
    predicate IsCurrent(data: Option<SecretData>, host: string, secret: Option<SharedSecret>, isSocks: bool) {
      && (NeedCert(isSocks) ==> secret.Some?)
      && ProfileIn(data).Some?
      && var prof := ProfileIn(data).value;
         && prof.name == profileCreator.jobManagerName
         && prof.scheduler.host == profileCreator.GetHostname(host, isSocks)
         && prof.scheduler.certificate == if NeedCert(isSocks) then secret.value.certPEM else ""
    }

    /** The shared secret's data hold a client certificate issued for it exactly if clients need one. */
    ghost predicate HasCertificate(data: SecretData, secret: SharedSecret) {
      if network.requireClientCertificate then
        && resources.certificateFile in data
        && exists cert :: IssuedFor(cert, secret) && library.keyFits(cert.clientCert, cert.clientKey)
             && data[resources.certificateFile] == library.marshalCert(cert)
      else resources.certificateFile !in data
    }

    /** The profile has a client certificate with the key that fits it, or neither. */
    predicate HasOwnPair(data: Option<SecretData>, isSocks: bool) {
      && ProfileIn(data).Some?
      && var scheduler := ProfileIn(data).value.scheduler;
         if NeedCert(isSocks) then library.keyFits(scheduler.clientCertificate, scheduler.clientPrivateKey)
         else scheduler.clientCertificate == "" && scheduler.clientPrivateKey == ""
    }

    /** The data hold a profile, and it is consistent. */
    predicate IsUpToDate(data: Option<SecretData>, host: string, secret: Option<SharedSecret>, isSocks: bool) {
      && (NeedCert(isSocks) ==> secret.Some?)
      && ProfileIn(data).Some?
      && profileCreator.IsConsistent(ProfileIn(data).value, host, secret, NeedCert(isSocks), isSocks)
    }

    function Entry(secrets: Secrets, name: string): Option<SecretData> {
      if name in secrets then Some(secrets[name]) else None
    }

    predicate HasProfile(secrets: Secrets, name: string, host: string, secret: Option<SharedSecret>, isSocks: bool) {
      IsUpToDate(Entry(secrets, name), host, secret, isSocks)
    }

    /** Every profile this configuration needs is there and consistent. */
    predicate HasProfiles(secrets: Secrets, host: string, secret: Option<SharedSecret>) {
      && HasProfile(secrets, resources.profileSecret, host, secret, network.useParallelServerProxy)
      && (network.useParallelServerProxy && network.usePoolProxy ==>
            HasProfile(secrets, resources.profileSecretPre26a, host, secret, false))
    }

    predicate HasCurrentProfiles(secrets: Secrets, host: string, secret: Option<SharedSecret>) {
      && IsCurrent(Entry(secrets, resources.profileSecret), host, secret, network.useParallelServerProxy)
      && (network.useParallelServerProxy && network.usePoolProxy ==>
            IsCurrent(Entry(secrets, resources.profileSecretPre26a), host, secret, false))
    }

    /** The stored shared secret has its client certificate exactly if clients need one. */
    ghost predicate HasOwnCertificate(secrets: Secrets) {
      && StoredSecret(secrets).Some?
      && HasCertificate(secrets[resources.sharedSecret], StoredSecret(secrets).value)
    }

    /** The shared secret is readable if there is one. */
    predicate SecretReadable(secrets: Secrets) {
      resources.sharedSecret in secrets ==> StoredSecret(secrets).Some?
    }

    function SecretInForce(secrets: Secrets): Option<SharedSecret> {
      if SecretRequired() then StoredSecret(secrets) else None
    }

    /** Setting up has nothing left to do. */
    predicate InPlace(secrets: Secrets, host: string) {
      (SecretRequired() ==> StoredSecret(secrets).Some?) && HasProfiles(secrets, host, SecretInForce(secrets))
    }
  }

  datatype Outcome = Done | Failed | SecretNotChecked | NilSharedSecret

  lemma OneSecretChanged(config: SetupConfig, before: Secrets, after: Secrets, name: string, data: SecretData)
    requires after == before || after == before[name := data]
    ensures OthersSame(before, after, {name})
    ensures name != config.resources.sharedSecret ==> config.StoredSecret(after) == config.StoredSecret(before)
  {
  }

  /** A consistent profile is a current one with a certificate that serves. */
  lemma UpToDateMeans(config: SetupConfig, data: Option<SecretData>, host: string, secret: Option<SharedSecret>,
                      isSocks: bool)
    ensures config.IsUpToDate(data, host, secret, isSocks) <==>
            config.IsCurrent(data, host, secret, isSocks) && config.CertServes(secret, isSocks)
  {
  }

  class Setup {
    const client: Cluster
    const config: SetupConfig
    var hasCheckedSharedSecret: bool
    var sharedSecret: Option<SharedSecret>

    /** Once checked, the shared secret is the one in the cluster. */
    ghost predicate Valid()
      reads this, client`s, client`texts, client`history, client`textHistory
    {
      && client.Valid() && config.library.Sound() && config.resources.Distinct()
      && (hasCheckedSharedSecret ==>
            if config.SecretRequired() then sharedSecret.Some? && sharedSecret == config.StoredSecret(client.s.secrets)
            else sharedSecret.None?)
      && (!hasCheckedSharedSecret ==> sharedSecret.None?)
    }

    constructor (client: Cluster, config: SetupConfig)
      requires client.Valid() && config.library.Sound() && config.resources.Distinct()
      ensures Valid() && this.client == client && this.config == config
      ensures !hasCheckedSharedSecret
    {
      this.client, this.config := client, config;
      hasCheckedSharedSecret, sharedSecret := false, None;
    }

    /** `None` is an error, also if the secret is there but cannot be read; `Some(None)` is no secret. */
    method GetExistingSharedSecret() returns (r: Option<Option<SharedSecret>>)
      requires Valid()
      modifies client
      ensures Valid() && client.OnlyReads() && client.s.secrets == old(client.s).secrets
      ensures r.None? ==> client.n.faults > old(client.n).faults
      ensures r == Some(None) ==> config.resources.sharedSecret !in client.s.secrets
      ensures r.Some? && r.value.Some? ==> r.value == config.StoredSecret(client.s.secrets)
      ensures config.SecretReadable(client.s.secrets) ==> client.OnlyOutages()
    {
      hide Cluster.Valid, Cluster.Healthy, SoundState, HealthyState, Live, Proxies;
      var found := client.SecretExists(config.resources.sharedSecret);
      if found.None? {
        return None;
      }
      if found.value.None? {
        return Some(None);
      }
      var data := found.value.value;
      if config.resources.sharedSecretFile !in data {
        client.Fault();
        return None;
      }
      var secret := config.library.loadSecret(data[config.resources.sharedSecretFile]);
      if secret.None? {
        client.Fault();
        return None;
      }
      return Some(secret);
    }

    method GenerateCertificate(secret: SharedSecret) returns (cert: Option<Certificate>)
      requires Valid()
      modifies client`n
      ensures Valid() && (old(client.Healthy()) ==> client.Healthy())
      ensures client.n == old(client.n).(faults := client.n.faults, outages := client.n.outages)
      ensures old(client.n).faults <= client.n.faults && client.OnlyOutages()
      ensures client.Later()
      ensures if cert.None? then client.n.faults > old(client.n).faults
        else IssuedFor(cert.value, secret) && config.library.keyFits(cert.value.clientCert, cert.value.clientKey)
    {
      hide Cluster.Valid, Cluster.Healthy;
      var made: bool, clientCert: string, clientKey: string := *, *, *;
      if made && config.library.keyFits(clientCert, clientKey) {
        return Some(Certificate(secret.certPEM, clientCert, clientKey));
      }
      client.Outage();
      return None;
    }

    /** Generate a shared secret and, if clients need one, a certificate; any of this may fail. */
    method NewSharedSecret() returns (secret: Option<SharedSecret>, data: SecretData)
      requires Valid()
      modifies client`n
      ensures Valid() && (old(client.Healthy()) ==> client.Healthy())
      ensures client.n == old(client.n).(faults := client.n.faults, outages := client.n.outages)
      ensures old(client.n).faults <= client.n.faults && client.OnlyOutages()
      ensures client.Later() && (secret.None? ==> client.n.faults > old(client.n).faults)
      ensures secret.Some? ==>
        && config.resources.sharedSecretFile in data
        && config.library.loadSecret(data[config.resources.sharedSecretFile]) == secret
        && config.HasCertificate(data, secret.value)
    {
      hide Cluster.Valid, Cluster.Healthy;
      data := map[];
      var made: bool, generated: SharedSecret := *, *;
      if !made {
        client.Outage();
        return None, data;
      }
      data := map[config.resources.sharedSecretFile := config.library.marshalSecret(generated)];
      if config.network.requireClientCertificate {
        var cert := GenerateCertificate(generated);
        if cert.None? {
          return None, data;
        }
        data := data[config.resources.certificateFile := config.library.marshalCert(cert.value)];
      }
      return Some(generated), data;
    }

    /** Generate a shared secret and store it. */
    method CreateSharedSecret() returns (ok: bool)
      requires Valid() && config.SecretRequired() && config.resources.sharedSecret !in client.s.secrets
      modifies this`hasCheckedSharedSecret, this`sharedSecret, client
      ensures Valid() && client.OnlySecret(config.resources.sharedSecret)
      ensures ok ==> hasCheckedSharedSecret && client.n.writes == old(client.n).writes + 1
      ensures ok ==> config.HasOwnCertificate(client.s.secrets)
      ensures !ok ==> client.n.faults > old(client.n).faults && client.s.secrets == old(client.s).secrets
      ensures client.OnlyOutages()
    {
      hide Cluster.Valid, Cluster.Healthy, SoundState, HealthyState, Live, Proxies, Follows, Library.Sound, OthersSame;
      OneSecretChanged(config, client.s.secrets, client.s.secrets, config.resources.sharedSecret, map[]);
      var secret, data := NewSharedSecret();
      if secret.None? {
        return false;
      }
      ghost var mid := client.Now();
      ok := client.CreateSecret(config.resources.sharedSecret, data);
      FollowsTrans(old(client.Now()), mid, client.Now());
      OneSecretChanged(config, old(client.s).secrets, client.s.secrets, config.resources.sharedSecret, data);
      if ok {
        hasCheckedSharedSecret, sharedSecret := true, secret;
      }
    }

    /** Load the shared secret, or generate and store one if there is none. An unreadable one is
        reported and stays as it is. */
    method CreateOrLoadSharedSecret() returns (ok: bool)
      requires Valid()
      modifies this`hasCheckedSharedSecret, this`sharedSecret, client
      ensures Valid() && client.OnlySecret(config.resources.sharedSecret)
      ensures ok ==> hasCheckedSharedSecret
      ensures !ok ==> client.n.faults > old(client.n).faults && client.s.secrets == old(client.s).secrets
      ensures !config.SecretRequired() || config.resources.sharedSecret in old(client.s).secrets ==>
        client.n.writes == old(client.n).writes && client.s.secrets == old(client.s).secrets
      ensures ok && config.SecretRequired() && config.resources.sharedSecret !in old(client.s).secrets ==>
        client.n.writes == old(client.n).writes + 1 && config.HasOwnCertificate(client.s.secrets)
      ensures !config.SecretRequired() || config.SecretReadable(old(client.s).secrets) ==> client.OnlyOutages()
    {
      hide Cluster.Valid, Cluster.Healthy, SoundState, HealthyState, Live, Proxies, Follows, Library.Sound, OthersSame,
        SetupConfig.HasOwnCertificate;
      FollowsRefl(client.Now());
      OneSecretChanged(config, client.s.secrets, client.s.secrets, config.resources.sharedSecret, map[]);
      var network := config.network;
      var required := network.useSecureCommunication || network.requireClientCertificate
        || network.requireScriptVerification || network.parallelServerProxyUseMutualTLS;
      if !required {
        hasCheckedSharedSecret, sharedSecret := true, None;
        return true;
      }
      var existing := GetExistingSharedSecret();
      if existing.None? {
        return false;
      }
      if existing.value.Some? {
        hasCheckedSharedSecret, sharedSecret := true, existing.value;
        return true;
      }
      ghost var mid := client.Now();
      ok := CreateSharedSecret();
      FollowsTrans(old(client.Now()), mid, client.Now());
    }

    method StoreProfile(name: string, data: SecretData, update: bool) returns (ok: bool)
      requires Valid() && name != config.resources.sharedSecret && update == (name in client.s.secrets)
      modifies client
      ensures Valid() && client.OnlySecret(name) && client.n.writes == old(client.n).writes + 1
      ensures ok ==> client.s.secrets == old(client.s).secrets[name := data]
      ensures !ok ==> client.n.faults > old(client.n).faults && client.s.secrets == old(client.s).secrets
      ensures client.OnlyOutages()
    {
      hide Cluster.Valid, Cluster.Healthy, SoundState, HealthyState, Live, Proxies, Library.Sound,
        SetupConfig.StoredSecret;
      if update {
        ok := client.UpdateSecret(name, data);
      } else {
        ok := client.CreateSecret(name, data);
      }
      OneSecretChanged(config, old(client.s).secrets, client.s.secrets, name, data);
    }

    /** An existing profile is replaced if it is missing from its secret, unreadable or inconsistent. */
    method NeedsNewProfile(existing: Option<SecretData>, host: string, needCert: bool, isSocks: bool)
      returns (needNewProfile: bool)
      requires needCert == config.NeedCert(isSocks) && (needCert ==> sharedSecret.Some?)
      ensures needNewProfile <==> !config.IsUpToDate(existing, host, sharedSecret, isSocks)
    {
      hide ProfileCreator.IsConsistent;
      needNewProfile := existing.None?;
      if existing.Some? {
        if config.resources.profileKey !in existing.value {
          needNewProfile := true;
        } else {
          var prof := config.library.unmarshalProfile(existing.value[config.resources.profileKey]);
          if prof.None? {
            needNewProfile := true;
          } else {
            needNewProfile := !config.profileCreator.IsConsistent(prof.value, host, sharedSecret, needCert, isSocks);
          }
        }
      }
    }

    /** A new profile, with a certificate if it needs one, marshalled into a secret's data. */
    method NewProfile(host: string, needCert: bool, isSocks: bool) returns (data: Option<SecretData>)
      requires Valid() && needCert == config.NeedCert(isSocks) && (needCert ==> sharedSecret.Some?)
      modifies client`n
      ensures Valid() && (old(client.Healthy()) ==> client.Healthy())
      ensures client.n == old(client.n).(faults := client.n.faults, outages := client.n.outages)
      ensures old(client.n).faults <= client.n.faults && client.OnlyOutages()
      ensures client.Later() && (data.None? ==> client.n.faults > old(client.n).faults)
      ensures data.Some? ==> config.IsCurrent(data, host, sharedSecret, isSocks) && config.HasOwnPair(data, isSocks)
    {
      hide Cluster.Valid, Cluster.Healthy, ProfileCreator.GetHostname;
      var cert: Option<Certificate> := None;
      if needCert {
        cert := GenerateCertificate(sharedSecret.value);
        if cert.None? {
          return None;
        }
      }
      var prof := config.profileCreator.CreateProfile(host, cert, isSocks);
      return Some(map[config.resources.profileKey := config.library.marshalProfile(prof)]);
    }

    /** Make a profile anew and store it. */
    method ReplaceProfile(name: string, host: string, needCert: bool, isSocks: bool, update: bool) returns (ok: bool)
      requires Valid() && name != config.resources.sharedSecret && update == (name in client.s.secrets)
      requires needCert == config.NeedCert(isSocks) && (needCert ==> sharedSecret.Some?)
      modifies client
      ensures Valid() && client.OnlySecret(name)
      ensures ok ==> client.n.writes == old(client.n).writes + 1
      ensures ok ==> config.IsCurrent(config.Entry(client.s.secrets, name), host, sharedSecret, isSocks)
                     && config.HasOwnPair(config.Entry(client.s.secrets, name), isSocks)
      ensures !ok ==> client.n.faults > old(client.n).faults && client.s.secrets == old(client.s).secrets
      ensures client.OnlyOutages()
    {
      hide SetupConfig.IsUpToDate, SetupConfig.IsCurrent, SetupConfig.HasOwnPair, Cluster.Valid, Cluster.Healthy,
        SoundState, HealthyState, Live, Proxies, Library.Sound, SetupConfig.StoredSecret, Follows;
      var data := NewProfile(host, needCert, isSocks);
      ghost var made := client.Now();
      ok := data.Some?;
      if ok {
        ok := StoreProfile(name, data.value, update);
        FollowsTrans(old(client.Now()), made, client.Now());
      }
    }

    /** Create the profile, or replace it unless it is still consistent. */
    method EnsureProfileIsUpToDate(name: string, host: string, isSocks: bool) returns (r: Outcome)
      requires Valid() && hasCheckedSharedSecret && name != config.resources.sharedSecret
      modifies client
      ensures Valid() && client.OnlySecret(name)
      ensures r == Done || r == Failed
      ensures r == Done ==> config.IsCurrent(config.Entry(client.s.secrets, name), host, sharedSecret, isSocks)
      ensures r != Done ==> client.n.faults > old(client.n).faults && client.s.secrets == old(client.s).secrets
      ensures old(config.HasProfile(client.s.secrets, name, host, sharedSecret, isSocks)) ==>
        client.n.writes == old(client.n).writes && client.s.secrets == old(client.s).secrets
      ensures r == Done && !old(config.HasProfile(client.s.secrets, name, host, sharedSecret, isSocks)) ==>
        client.n.writes == old(client.n).writes + 1 && config.HasOwnPair(config.Entry(client.s.secrets, name), isSocks)
      ensures client.OnlyOutages()
    {
      hide SetupConfig.IsUpToDate, SetupConfig.IsCurrent, SetupConfig.HasOwnPair, Cluster.Valid, Cluster.Healthy,
        SoundState, HealthyState, Live, Proxies, ProfileCreator.IsConsistent, ProfileCreator.CreateProfile,
        ProfileCreator.GetHostname, Library.Sound, SetupConfig.StoredSecret, Follows;
      r := Failed;
      var found := client.SecretExists(name);
      ghost var looked := client.Now();
      if found.Some? {
        var needCert := config.network.requireClientCertificate
          || (isSocks && config.network.parallelServerProxyUseMutualTLS);
        UpToDateMeans(config, found.value, host, sharedSecret, isSocks);
        if needCert && sharedSecret.None? {
          r := NilSharedSecret;
        } else {
          var needNewProfile := NeedsNewProfile(found.value, host, needCert, isSocks);
          if needNewProfile {
            var ok := ReplaceProfile(name, host, needCert, isSocks, found.value.Some?);
            FollowsTrans(old(client.Now()), looked, client.Now());
            r := if ok then Done else Failed;
          } else {
            r := Done;
          }
        }
      }
    }

    /** The job manager's host name, if it has one already. */
    method GetJobManagerHost(address: Option<string>) returns (host: Option<string>)
      requires Valid()
      modifies client`n
      ensures Valid() && client.Later() && (old(client.Healthy()) ==> client.Healthy())
      ensures host == config.JobManagerHost(address)
      ensures host.None? ==> client.n == old(client.n).(faults := old(client.n).faults + 1)
      ensures host.Some? ==> client.n == old(client.n)
    {
      hide Cluster.Valid, Cluster.Healthy, Follows;
      FollowsRefl(client.Now());
      var network := config.network;
      if network.internalClientsOnly {
        return Some(config.resources.jobManagerService + "." + network.namespace + ".svc." + network.clusterDomain);
      }
      if network.clusterHost != "" {
        return Some(network.clusterHost);
      }
      if address.None? {
        client.Fault();
      }
      return address;
    }

    /** Bring every profile this configuration needs up to date. */
    method CreateProfile(address: Option<string>) returns (r: Outcome)
      requires Valid()
      modifies client
      ensures Valid() && client.KeepsPods() && (old(client.Healthy()) ==> client.Healthy())
      ensures r != NilSharedSecret
      ensures r == SecretNotChecked <==> !hasCheckedSharedSecret
      ensures r == SecretNotChecked ==> client.n == old(client.n) && client.s == old(client.s)
      ensures r == Failed ==> client.n.faults > old(client.n).faults
      ensures r == Done ==> config.JobManagerHost(address).Some?
      ensures r == Done ==>
        config.HasCurrentProfiles(client.s.secrets, config.JobManagerHost(address).value, sharedSecret)
      ensures hasCheckedSharedSecret && config.JobManagerHost(address).Some?
              && old(config.HasProfiles(client.s.secrets, config.JobManagerHost(address).value, sharedSecret)) ==>
                client.n.writes == old(client.n).writes && client.s.secrets == old(client.s).secrets
      ensures r == Done && !old(config.HasProfiles(client.s.secrets, config.JobManagerHost(address).value,
                                                   sharedSecret)) ==>
        client.n.writes > old(client.n).writes
      ensures config.JobManagerHost(address).Some? ==> client.OnlyOutages()
    {
      hide Cluster.Valid, Cluster.Healthy, SoundState, HealthyState, Live, Proxies, ProfileCreator.IsConsistent,
        SetupConfig.IsCurrent, SetupConfig.IsUpToDate, SetupConfig.HasOwnPair, Follows;
      FollowsRefl(client.Now());
      if !hasCheckedSharedSecret {
        return SecretNotChecked;
      }
      var host := GetJobManagerHost(address);
      if host.None? {
        return Failed;
      }
      ghost var began := client.Now();
      r := EnsureProfileIsUpToDate(config.resources.profileSecret, host.value, config.network.useParallelServerProxy);
      if r == Done && config.network.useParallelServerProxy && config.network.usePoolProxy {
        ghost var before, mid := client.s.secrets, client.Now();
        FollowsTrans(old(client.Now()), began, mid);
        r := EnsureProfileIsUpToDate(config.resources.profileSecretPre26a, host.value, false);
        FollowsTrans(old(client.Now()), mid, client.Now());
        assert config.resources.profileSecret in before <==> config.resources.profileSecret in client.s.secrets;
      }
    }
  }

  lemma CurrentProfilesServe(config: SetupConfig, secrets: Secrets, host: string, secret: Option<SharedSecret>)
    requires config.HasCurrentProfiles(secrets, host, secret)
    ensures config.HasProfiles(secrets, host, secret) <==>
      config.CertServes(secret, config.network.useParallelServerProxy)
  {
  }

  /** Both steps in order, on a cluster in any state. Success leaves a current profile wherever one is
      needed. With that everything is in place, and nothing will be written again, exactly if no profile needs
      a certificate or the shared secret's is not empty. */
  method SetUpCluster(client: Cluster, config: SetupConfig, address: Option<string>) returns (r: Outcome)
    requires client.Valid() && config.library.Sound() && config.resources.Distinct()
    modifies client
    ensures client.KeepsPods()
    ensures r == Done || (r == Failed && client.n.faults > old(client.n).faults)
    ensures r == Done ==> config.JobManagerHost(address).Some?
    ensures r == Done ==>
      var (secrets, host) := (client.s.secrets, config.JobManagerHost(address).value);
      && (config.SecretRequired() ==> config.StoredSecret(secrets).Some?)
      && config.HasCurrentProfiles(secrets, host, config.SecretInForce(secrets))
      && (config.InPlace(secrets, host) <==>
            config.CertServes(config.SecretInForce(secrets), config.network.useParallelServerProxy))
    ensures config.JobManagerHost(address).Some?
            && old(config.InPlace(client.s.secrets, config.JobManagerHost(address).value)) ==>
      client.n.writes == old(client.n).writes && client.s.secrets == old(client.s).secrets
    ensures r == Done && !old(config.InPlace(client.s.secrets, config.JobManagerHost(address).value)) ==>
      client.n.writes > old(client.n).writes
    ensures config.JobManagerHost(address).Some?
            && (config.SecretRequired() ==> old(config.SecretReadable(client.s.secrets))) ==>
      client.OnlyOutages()
  {
    hide Cluster.Valid, Cluster.Healthy, SoundState, HealthyState, Live, Proxies, ProfileCreator.IsConsistent,
      SetupConfig.HasProfiles, SetupConfig.HasCurrentProfiles, SetupConfig.HasOwnCertificate, Follows;
    var setup := new Setup(client, config);
    var ok := setup.CreateOrLoadSharedSecret();
    if !ok {
      return Failed;
    }
    ghost var mid := client.Now();
    r := setup.CreateProfile(address);
    FollowsTrans(old(client.Now()), mid, client.Now());
    if r == Done {
      CurrentProfilesServe(config, client.s.secrets, config.JobManagerHost(address).value,
                           config.SecretInForce(client.s.secrets));
    }
  }
}
