/** Cluster profiles: how one is made, and when an existing one may be kept. */
module Profile {
  import opened Wrappers
  import Decimal

  datatype SharedSecret = SharedSecret(certPEM: string, keyPEM: string)

  datatype Certificate = Certificate(serverCert: string, clientCert: string, clientKey: string)

  datatype SchedulerComponent = SchedulerComponent(
    host: string, name: string, certificate: string, clientCertificate: string, clientPrivateKey: string)

  datatype Profile = Profile(name: string, scheduler: SchedulerComponent)

  datatype ProfileCreator = ProfileCreator(
    jobManagerName: string, jobManagerService: string, basePort: int, parallelServerProxyPort: int, useMutualTLS: bool)
  {
    function GetHostname(hostname: string, forSocks: bool): string {
      if !forSocks then hostname + ":" + Decimal.Format(basePort)
      else
        jobManagerService + ":" + Decimal.Format(basePort) + "?proxy=" + (if useMutualTLS then "socks5s" else "socks5")
        + "://" + hostname + ":" + Decimal.Format(parallelServerProxyPort)
    }

    function CreateProfile(hostname: string, cert: Option<Certificate>, forSocks: bool): Profile {
      var host := GetHostname(hostname, forSocks);
      match cert
      case None => Profile(jobManagerName, SchedulerComponent(host, jobManagerName, "", "", ""))
      case Some(c) => Profile(jobManagerName,
                              SchedulerComponent(host, jobManagerName, c.serverCert, c.clientCert, c.clientKey))
    }

    /** Whether an existing profile can stay. Needing a certificate takes a shared secret. */
    predicate IsConsistent(prof: Profile, hostname: string, secret: Option<SharedSecret>, needCert: bool,
                           forSocks: bool)
      requires needCert ==> secret.Some?
    {
      if GetHostname(hostname, forSocks) != prof.scheduler.host then false
      else if jobManagerName != prof.name then false
      else if needCert && prof.scheduler.certificate == "" then false
      else if !needCert && prof.scheduler.certificate != "" then false
      else if needCert && prof.scheduler.certificate != secret.value.certPEM then false
      else true
    }
  }

  /** A certificate issued for a shared secret carries that secret's own certificate. */
  predicate IssuedFor(cert: Certificate, secret: SharedSecret) {
    cert.serverCert == secret.certPEM
  }

  /** A profile may stay exactly if a fresh one would agree with it on host, name and server
      certificate, and needs no more than it: a needed certificate is not empty. */
  lemma ConsistentMeansAsIfCreated(creator: ProfileCreator, prof: Profile, hostname: string,
                                   secret: Option<SharedSecret>, cert: Option<Certificate>, forSocks: bool)
    requires cert.Some? ==> secret.Some? && IssuedFor(cert.value, secret.value)
    ensures
      var made := creator.CreateProfile(hostname, cert, forSocks);
      creator.IsConsistent(prof, hostname, secret, cert.Some?, forSocks) <==>
        && prof.name == made.name && prof.scheduler.host == made.scheduler.host
        && prof.scheduler.certificate == made.scheduler.certificate
        && (cert.Some? ==> secret.value.certPEM != "")
  {
  }

  /** A profile made with a certificate carries that certificate and the client's own pair, otherwise none of them;
      and it is consistent exactly if its shared secret has a certificate. */
  lemma CreatedIsConsistent(creator: ProfileCreator, hostname: string, secret: Option<SharedSecret>,
                            cert: Option<Certificate>, forSocks: bool)
    requires cert.Some? ==> secret.Some? && IssuedFor(cert.value, secret.value)
    ensures creator.IsConsistent(creator.CreateProfile(hostname, cert, forSocks), hostname, secret, cert.Some?,
                                 forSocks) <==>
            (cert.Some? ==> secret.value.certPEM != "")
    ensures var made := creator.CreateProfile(hostname, cert, forSocks).scheduler;
            if cert.Some? then
              && made.certificate == secret.value.certPEM
              && made.clientCertificate == cert.value.clientCert && made.clientPrivateKey == cert.value.clientKey
            else made.certificate == "" && made.clientCertificate == "" && made.clientPrivateKey == ""
  {
  }

  /** An address behind the parallel server proxy, without that proxy's port. */
  function Via(creator: ProfileCreator, hostname: string): string {
    creator.jobManagerService + ":" + Decimal.Format(creator.basePort) + "?proxy="
    + (if creator.useMutualTLS then "socks5s" else "socks5") + "://" + hostname
  }

  /** The one plain host whose profile address reads like that of a client behind the parallel server proxy. */
  predicate Clash(creator: ProfileCreator, plainHost: string, socksHost: string) {
    && creator.basePort == creator.parallelServerProxyPort
    && plainHost == Via(creator, socksHost)
  }

  lemma NoColon(n: int)
    ensures ':' !in Decimal.Format(n)
  {
  }

  /** A host and a port can be told from their address. */
  lemma SamePort(host: string, other: string, port: int, otherPort: int)
    ensures host + ":" + Decimal.Format(port) == other + ":" + Decimal.Format(otherPort) <==>
      host == other && port == otherPort
  {
    hide Decimal.Digits, Decimal.Format;
    var (a, b) := (Decimal.Format(port), Decimal.Format(otherPort));
    NoColon(port);
    NoColon(otherPort);
    if host + ":" + a == other + ":" + b {
      assert (host + ":" + a)[|host|] == ':' && (other + ":" + b)[|other|] == ':';
      assert forall i | |host| < i < |host + ":" + a| :: (host + ":" + a)[i] == a[i - |host| - 1];
      assert forall i | |other| < i < |other + ":" + b| :: (other + ":" + b)[i] == b[i - |other| - 1];
      assert |host| == |other|;
      assert host == (host + ":" + a)[..|host|] && other == (other + ":" + b)[..|other|];
      assert a == (host + ":" + a)[|host| + 1..] && b == (other + ":" + b)[|other| + 1..];
      Decimal.FormatIsInjective(port, otherPort);
    }
  }

  /** Hence a profile for one kind of client passes for the other only in that case. */
  lemma SocksAndPlainDiffer(creator: ProfileCreator, prof: Profile, plainHost: string, socksHost: string,
                            secret: Option<SharedSecret>, needCert: bool)
    requires needCert ==> secret.Some?
    ensures creator.GetHostname(plainHost, false) == creator.GetHostname(socksHost, true) <==>
            Clash(creator, plainHost, socksHost)
    ensures creator.IsConsistent(prof, plainHost, secret, needCert, false) ==>
              (creator.IsConsistent(prof, socksHost, secret, needCert, true) <==> Clash(creator, plainHost, socksHost))
    ensures '?' !in plainHost ==> !Clash(creator, plainHost, socksHost)
  {
    hide Decimal.Format;
    var via := Via(creator, socksHost);
    SamePort(plainHost, via, creator.basePort, creator.parallelServerProxyPort);
    assert creator.GetHostname(socksHost, true) == via + ":" + Decimal.Format(creator.parallelServerProxyPort);
    assert via[|creator.jobManagerService| + 1 + |Decimal.Format(creator.basePort)|] == '?';
  }
}
