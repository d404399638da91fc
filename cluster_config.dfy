/** The connection target of one cluster (ClusterConfig), its engine tag, and
    the strings derived from it. Nullable Java fields are `Option`s. */
module ClusterConfigs {
  import opened Util

  /** The two wire-compatible engines. */
  datatype ClusterType = Elasticsearch | OpenSearch
  {
    /** The enum constant's name, which `"" + type` renders in Java. */
    function Name(): (r: string)
      ensures r == "ELASTICSEARCH" || r == "OPENSEARCH"
      ensures (r == "ELASTICSEARCH") <==> this == Elasticsearch
    {
      match this
      case Elasticsearch => "ELASTICSEARCH"
      case OpenSearch => "OPENSEARCH"
    }

    /** The human-readable name shown in the user interface. */
    function DisplayName(): (r: string)
      ensures this == Elasticsearch ==> r == "Elasticsearch"
      ensures this == OpenSearch ==> r == "OpenSearch"
    {
      match this
      case Elasticsearch => "Elasticsearch"
      case OpenSearch => "OpenSearch"
    }
  }

  /** Distinct engines have distinct display names and distinct constant names. */
  lemma DisplayNamesDistinct(a: ClusterType, b: ClusterType)
    ensures a.DisplayName() == b.DisplayName() <==> a == b
    ensures a.Name() == b.Name() <==> a == b
  {
    if a != b {
      assert a.DisplayName()[0] != b.DisplayName()[0];
    }
  }

  const DefaultTimeoutMs: int := 30000

  datatype ClusterConfig = ClusterConfig(
    id: Option<string>,
    name: Option<string>,
    host: Option<string>,
    port: int,
    username: Option<string>,
    password: Option<string>,
    useSSL: bool,
    clusterType: Option<ClusterType>,
    apiKey: Option<string>,
    connectionTimeout: int,
    socketTimeout: int)

  /** `ClusterConfig.builder().build()`: every reference null, every primitive
      zero or false, except the two defaulted timeouts. */
  function BuilderDefault(): (c: ClusterConfig)
    ensures c.connectionTimeout == 30000 && c.socketTimeout == 30000
    ensures c.id.None? && c.name.None? && c.host.None? && c.clusterType.None?
    ensures c.username.None? && c.password.None? && c.apiKey.None?
    ensures c.port == 0 && !c.useSSL
  {
    ClusterConfig(None, None, None, 0, None, None, false, None, None, DefaultTimeoutMs, DefaultTimeoutMs)
  }

  /** `String.format("%s", x)` of a possibly-null string. */
  function FormatNullable(s: Option<string>): (r: string)
    ensures s.Some? ==> r == s.value
    ensures s.None? ==> r == "null"
  {
    match s
    case Some(v) => v
    case None => "null"
  }

  function Protocol(useSSL: bool): (r: string)
    ensures r == "https" <==> useSSL
    ensures r == "http" <==> !useSSL
  {
    if useSSL then "https" else "http"
  }

  /** `protocol://host:port`. */
  function ConnectionString(c: ClusterConfig): (r: string)
  {
    Protocol(c.useSSL) + "://" + FormatNullable(c.host) + ":" + IntToString(c.port)
  }

  /** The connection string starts with "https://" exactly when the
      configuration uses TLS (and with "http://" otherwise), carries the host
      after the scheme, and ends with ':' and the decimal port. */
  lemma ConnectionStringShape(c: ClusterConfig)
    ensures StartsWith(ConnectionString(c), "https://") <==> c.useSSL
    ensures !c.useSSL ==> StartsWith(ConnectionString(c), "http://")
    ensures EndsWith(ConnectionString(c), ":" + IntToString(c.port))
    ensures var r := ConnectionString(c); var p := |Protocol(c.useSSL)| + 3;
      p <= |r| - |IntToString(c.port)| - 1 && r[p..|r| - |IntToString(c.port)| - 1] == FormatNullable(c.host)
  {
    var r := ConnectionString(c);
    var proto := Protocol(c.useSSL);
    var tail := ":" + IntToString(c.port);
    assert r == (proto + "://") + FormatNullable(c.host) + tail;
    if !c.useSSL {
      assert r[..8][4] == ':';
    }
  }

  /** `toString()`: "name (DisplayName)"; a null engine type throws
      a null dereference (None). */
  function ToString(c: ClusterConfig): (r: Option<string>)
    ensures r.Some? <==> c.clusterType.Some?
    ensures r.Some? ==> StartsWith(r.value, FormatNullable(c.name))
    ensures r.Some? ==> EndsWith(r.value, " (" + c.clusterType.value.DisplayName() + ")")
    ensures r.Some? ==> |r.value| == |FormatNullable(c.name)| + |c.clusterType.value.DisplayName()| + 3
  {
    match c.clusterType
    case None => None
    case Some(t) =>
      var s := FormatNullable(c.name) + " (" + t.DisplayName() + ")";
      assert s[..|FormatNullable(c.name)|] == FormatNullable(c.name);
      assert s[|s| - |" (" + t.DisplayName() + ")"|..] == " (" + t.DisplayName() + ")";
      Some(s)
  }
}
