/**
 * The workload's environment and the Pebble layer that carries it, built as
 * plain dictionaries from the charm's stored state, its configuration and
 * the relation data.
 */
module Environment {
  import opened Wrappers
  import opened Text
  import opened Addresses

  const ClientPort: nat := 2379
  const BootstrapNew: string := "new"
  const ServiceName: string := "etcd"
  const AllowedLogLevels: seq<string> := ["debug", "info", "warn", "error", "panic", "fatal"]
  const MetricsLevels: seq<string> := ["basic", "extensive"]
  const EnvBuildError: string := "Error building etcd env"

  /** The environment dict; `None` is a Python `None` value (an unset stored token or mode). */
  type Env = map<string, Option<string>>

  /** The charm's `loglevel` and `metrics` options. */
  datatype Config = Config(loglevel: string, metrics: string)

  datatype Service = Service(override: string, summary: string, command: string, startup: string, environment: Env)

  datatype Layer = Layer(summary: string, description: string, services: map<string, Service>)

  /** The keys every environment holds. */
  const BaseKeys: set<string> := {
    "ETCD_LOG_LEVEL", "ETCD_NAME", "ETCD_LISTEN_CLIENT_URLS", "ETCD_ADVERTISE_CLIENT_URLS",
    "ETCD_LISTEN_PEER_URLS", "ETCD_INITIAL_ADVERTISE_PEER_URLS", "ETCD_INITIAL_CLUSTER_TOKEN",
    "ETCD_INITIAL_CLUSTER_STATE", "ETCD_INITIAL_CLUSTER"
  }

  /** The status message `get_etcd_environment` sets for a log level it refuses. */
  function InvalidLogLevelMessage(config: Config): string
  {
    "Invalid loglevel provided: " + Lower(config.loglevel)
  }

  /**
   * `get_etcd_environment`: `None` for a log level outside the allowed
   * list, otherwise the environment. The initial cluster is this unit alone
   * exactly when the stored mode is `new`.
   */
  function EtcdEnvironment(config: Config, podIp: string, unitName: string, peers: seq<PeerUnit>,
                           token: Option<string>, mode: Option<string>): (r: Option<Env>)
    ensures r.None? <==> Lower(config.loglevel) !in AllowedLogLevels
    ensures r.Some? ==> r.value.Keys == BaseKeys + (if config.metrics in MetricsLevels then {"ETCD_METRICS"} else {})
    ensures r.Some? ==> r.value["ETCD_LOG_LEVEL"] == Some(Lower(config.loglevel))
    ensures r.Some? ==> r.value["ETCD_NAME"] == Some(RemoveSlashes(unitName))
    ensures r.Some? ==> r.value["ETCD_INITIAL_CLUSTER_TOKEN"] == token && r.value["ETCD_INITIAL_CLUSTER_STATE"] == mode
    ensures r.Some? ==> r.value["ETCD_INITIAL_CLUSTER"]
                        == Some(Join(ClusterAddresses(unitName, podIp, peers, mode == Some(BootstrapNew)), ","))
    ensures r.Some? && config.metrics in MetricsLevels ==> r.value["ETCD_METRICS"] == Some(config.metrics)
    ensures r.Some? ==> && r.value["ETCD_LISTEN_CLIENT_URLS"] == Some("http://0.0.0.0:2379")
                        && r.value["ETCD_ADVERTISE_CLIENT_URLS"] == Some("http://" + podIp + ":2379")
                        && r.value["ETCD_LISTEN_PEER_URLS"] == Some("http://" + podIp + ":2380")
                        && r.value["ETCD_INITIAL_ADVERTISE_PEER_URLS"] == Some("http://" + podIp + ":2380")
  {
    PortStrings();
    var level := Lower(config.loglevel);
    if level !in AllowedLogLevels then None
    else
      var clientSuffix, peerSuffix := ":" + DecimalString(ClientPort), ":" + DecimalString(ClusterPort);
      assert clientSuffix == ":2379" && peerSuffix == ":2380";
      assert "http://0.0.0.0" + clientSuffix == "http://0.0.0.0:2379";
      var peerEndpoint := "http://" + podIp + peerSuffix;
      var env: Env := map[
        "ETCD_LOG_LEVEL" := Some(level),
        "ETCD_NAME" := Some(RemoveSlashes(unitName)),
        "ETCD_LISTEN_CLIENT_URLS" := Some("http://0.0.0.0" + clientSuffix),
        "ETCD_ADVERTISE_CLIENT_URLS" := Some("http://" + podIp + clientSuffix),
        "ETCD_LISTEN_PEER_URLS" := Some(peerEndpoint),
        "ETCD_INITIAL_ADVERTISE_PEER_URLS" := Some(peerEndpoint),
        "ETCD_INITIAL_CLUSTER_TOKEN" := token,
        "ETCD_INITIAL_CLUSTER_STATE" := mode
      ];
      var withMetrics := if config.metrics in MetricsLevels then env["ETCD_METRICS" := Some(config.metrics)] else env;
      var currentPodOnly := mode == Some(BootstrapNew);
      Some(withMetrics["ETCD_INITIAL_CLUSTER" := Some(Join(ClusterAddresses(unitName, podIp, peers, currentPodOnly), ","))])
  }

  /** The log level is read without regard to ASCII case: two spellings that lower-case alike give the same environment. */
  lemma LevelCaseIgnored(level: string, other: string, metrics: string, podIp: string, unitName: string,
                         peers: seq<PeerUnit>, token: Option<string>, mode: Option<string>)
    requires Lower(level) == Lower(other)
    ensures EtcdEnvironment(Config(level, metrics), podIp, unitName, peers, token, mode)
            == EtcdEnvironment(Config(other, metrics), podIp, unitName, peers, token, mode)
  {
  }

  /** An upper-case `DEBUG` is accepted and written out as `debug`. */
  lemma UpperCaseLevelAccepted(metrics: string, podIp: string, unitName: string,
                               peers: seq<PeerUnit>, token: Option<string>, mode: Option<string>)
    ensures var r := EtcdEnvironment(Config("DEBUG", metrics), podIp, unitName, peers, token, mode);
            r.Some? && r.value["ETCD_LOG_LEVEL"] == Some("debug")
  {
    assert Lower("DEBUG") == "debug";
  }

  /** A unit seeding a new cluster lists itself alone in the initial cluster, whatever its peers published. */
  lemma SeedListsOnlyItself(config: Config, podIp: string, unitName: string, peers: seq<PeerUnit>, token: Option<string>)
    requires Lower(config.loglevel) in AllowedLogLevels
    ensures EtcdEnvironment(config, podIp, unitName, peers, token, Some(BootstrapNew)).Some?
    ensures EtcdEnvironment(config, podIp, unitName, peers, token, Some(BootstrapNew)).value["ETCD_INITIAL_CLUSTER"]
            == Some(RemoveSlashes(unitName) + "=http://" + podIp + ":2380")
  {
    CurrentPodOnly(unitName, podIp, peers);
    PortStrings();
    var entry := AddressEntry(RemoveSlashes(unitName), podIp);
    assert Join([entry], ",") == entry;
    assert entry == RemoveSlashes(unitName) + "=http://" + podIp + ":2380";
  }

  /**
   * A unit joining an existing cluster lists every peer that published an
   * address (under distinct names), and the list splits back into the entries.
   */
  lemma JoinerListsPeers(config: Config, podIp: string, unitName: string, peers: seq<PeerUnit>,
                         token: Option<string>, mode: Option<string>, i: nat)
    requires Lower(config.loglevel) in AllowedLogLevels
    requires mode != Some(BootstrapNew)
    requires DistinctNames(RemoveSlashes(unitName), peers)
    requires i < |peers| && IngressAddressKey in peers[i].databag
    ensures EtcdEnvironment(config, podIp, unitName, peers, token, mode).Some?
    ensures var initial := EtcdEnvironment(config, podIp, unitName, peers, token, mode).value["ETCD_INITIAL_CLUSTER"];
            var entries := ClusterAddresses(unitName, podIp, peers, false);
            && initial == Some(Join(entries, ","))
            && [AddressEntry(RemoveSlashes(unitName), podIp)] <= entries
            && AddressEntry(RemoveSlashes(peers[i].name), peers[i].databag[IngressAddressKey]) in entries
  {
    PeerEntryListed(unitName, podIp, peers, i);
  }

  /** `generate_pebble_config(enabled)` given what `get_etcd_environment` returned: no environment raises. */
  function PebbleLayer(env: Option<Env>, enabled: bool): (r: Result<Layer, PyError>)
    ensures env.None? <==> r == Failure(RuntimeError(EnvBuildError))
    ensures env.Some? <==> r.Success?
    ensures r.Success? ==> && r.value.services.Keys == {ServiceName}
                           && r.value.services[ServiceName].environment == env.value
                           && r.value.services[ServiceName].command == "/usr/local/bin/etcd"
                           && r.value.services[ServiceName].startup == (if enabled then "enabled" else "disabled")
  {
    match env
    case None => Failure(RuntimeError(EnvBuildError))
    case Some(e) =>
      Success(Layer(
        "etcd layer",
        "pebble config layer for etcd",
        map[ServiceName := Service("replace", "etcd", "/usr/local/bin/etcd", if enabled then "enabled" else "disabled", e)]))
  }
}
