/** The parts of api/src/application.rs that differ from api/src/lib.rs: the
    `filesFrom` sources and the `ports` record with one optional HTTP and one
    optional TCP port. Everything the two files share (`EnvValue`, `EnvFrom`,
    `PathType`, `Ingress`, the probes and their defaults) is the module `Api`. */
module ApiApplication {
  import opened Wrappers
  import Api

  datatype FilesFromConfigMap = FilesFromConfigMap(name: string, mountPath: Option<string>)
  datatype FilesFromSecret = FilesFromSecret(name: string, mountPath: Option<string>)
  datatype FilesFromEmptyDir = FilesFromEmptyDir(mountPath: string)

  datatype FilesFrom = FilesFrom(
    configMap: Option<FilesFromConfigMap>,
    secret: Option<FilesFromSecret>,
    emptyDir: Option<FilesFromEmptyDir>)

  datatype HttpPort = HttpPort(port: Api.U16, ingress: seq<Api.Ingress>)
  datatype TcpPort = TcpPort(port: Api.U16)
  datatype Ports = Ports(http: Option<HttpPort>, tcp: Option<TcpPort>)

  datatype ApplicationSpec = ApplicationSpec(
    env: seq<Api.EnvValue>,
    envFrom: seq<Api.EnvFrom>,
    filesFrom: seq<FilesFrom>,
    image: string,
    ports: Option<Ports>,
    probes: Option<Api.Probes>)

  /** How many of its sources a `filesFrom` item sets. */
  function SourceCount(f: FilesFrom): (n: nat)
    ensures n <= 3
    ensures n == 0 <==> f == FilesFrom(None, None, None)
  {
    (if f.configMap.Some? then 1 else 0)
    + (if f.secret.Some? then 1 else 0)
    + (if f.emptyDir.Some? then 1 else 0)
  }

  /** The documented rule for a `filesFrom` item: it mounts a config map,
      a secret or an empty directory, exactly one of them. No code checks it. */
  predicate FilesFromNamesOneSource(f: FilesFrom): (ok: bool)
    ensures f == FilesFrom(None, None, None) ==> !ok
    ensures ok ==> f.configMap.Some? || f.secret.Some? || f.emptyDir.Some?
  {
    SourceCount(f) == 1
  }

  /** The rule holds exactly for the three single-source shapes. */
  lemma FilesFromRule(f: FilesFrom)
    ensures FilesFromNamesOneSource(f) <==>
      (f.configMap.Some? && f.secret.None? && f.emptyDir.None?)
      || (f.configMap.None? && f.secret.Some? && f.emptyDir.None?)
      || (f.configMap.None? && f.secret.None? && f.emptyDir.Some?)
  {
  }
}
