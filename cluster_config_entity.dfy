/** The persisted form of a cluster configuration (ClusterConfigEntity) and
    its field-for-field conversions to and from ClusterConfig. */
module ClusterConfigEntities {
  import opened Util
  import opened ClusterConfigs

  datatype ClusterConfigEntity = ClusterConfigEntity(
    id: Option<string>,
    name: Option<string>,
    host: Option<string>,
    port: int,
    username: Option<string>,
    password: Option<string>,
    useSSL: bool,
    clusterType: Option<ClusterType>,
    apiKey: Option<string>,
    connectionTimeout: int,
    socketTimeout: int)

  /** `ClusterConfigEntity.builder().build()`: both timeouts default to 30000 ms. */
  function EntityBuilderDefault(): (e: ClusterConfigEntity)
    ensures e.connectionTimeout == 30000 && e.socketTimeout == 30000
    ensures e.id.None? && e.name.None? && e.host.None? && e.clusterType.None?
    ensures e.username.None? && e.password.None? && e.apiKey.None?
    ensures e.port == 0 && !e.useSSL
  {
    ClusterConfigEntity(None, None, None, 0, None, None, false, None, None, DefaultTimeoutMs, DefaultTimeoutMs)
  }

  /** `toClusterConfig()`: all eleven fields copied unchanged. */
  function ToClusterConfig(e: ClusterConfigEntity): (c: ClusterConfig)
    ensures c.id == e.id && c.name == e.name && c.host == e.host && c.port == e.port
    ensures c.username == e.username && c.password == e.password && c.useSSL == e.useSSL
    ensures c.clusterType == e.clusterType && c.apiKey == e.apiKey
    ensures c.connectionTimeout == e.connectionTimeout && c.socketTimeout == e.socketTimeout
  {
    ClusterConfig(e.id, e.name, e.host, e.port, e.username, e.password, e.useSSL,
                  e.clusterType, e.apiKey, e.connectionTimeout, e.socketTimeout)
  }

  /** `fromClusterConfig(config)`: all eleven fields copied unchanged. */
  function FromClusterConfig(c: ClusterConfig): (e: ClusterConfigEntity)
    ensures e.id == c.id && e.name == c.name && e.host == c.host && e.port == c.port
    ensures e.username == c.username && e.password == c.password && e.useSSL == c.useSSL
    ensures e.clusterType == c.clusterType && e.apiKey == c.apiKey
    ensures e.connectionTimeout == c.connectionTimeout && e.socketTimeout == c.socketTimeout
  {
    ClusterConfigEntity(c.id, c.name, c.host, c.port, c.username, c.password, c.useSSL,
                        c.clusterType, c.apiKey, c.connectionTimeout, c.socketTimeout)
  }

  /** Storing a configuration and loading it back gives the same configuration. */
  lemma ConfigRoundTrip(c: ClusterConfig)
    ensures ToClusterConfig(FromClusterConfig(c)) == c
  {
  }

  /** Loading an entity and storing it back gives the same entity. */
  lemma EntityRoundTrip(e: ClusterConfigEntity)
    ensures FromClusterConfig(ToClusterConfig(e)) == e
  {
  }

  /** The builder defaults of the two classes correspond. */
  lemma DefaultsCorrespond()
    ensures ToClusterConfig(EntityBuilderDefault()) == BuilderDefault()
  {
  }
}
