/**
 * Whole runs of the charm: units built fresh, driven through the events, and
 * what the last event leaves behind. Each run's contract follows from the
 * handlers' contracts alone.
 */
module Scenarios {
  import opened Wrappers
  import opened Text
  import Client
  import opened Addresses
  import opened Environment
  import opened Charm

  /** Five answers accepting the first add-member request. */
  function AcceptAll(): seq<Client.AddResponse>
  {
    seq(5, _ => Client.AddResponse(None))
  }

  /** Five answers rejecting every add-member request. */
  function RejectAll(): seq<Client.AddResponse>
  {
    seq(5, _ => Client.AddResponse(Some("etcdserver: unhealthy cluster")))
  }

  /**
   * A leader alone on the relation: creating the relation seeds the
   * application databag, and the reconcile pass that follows marks the
   * cluster initialized and starts the workload with itself as the only
   * initial member, in mode `new`, with the generated token.
   */
  method SeedLeader(unitName: string, podIp: string, token: string, config: Config, api: ClusterApi)
    returns (started: Option<Layer>, appDatabag: map<string, string>)
    requires IsToken(token)
    requires Lower(config.loglevel) in AllowedLogLevels
    requires |api.addResponses| >= |Client.BackoffSchedule()|
    ensures appDatabag == map[BootstrapTokenKey := token, LeaderAddressKey := podIp, ClusterInitializedKey := ClusterInitialized]
    ensures started.Some? && ServiceName in started.value.services
    ensures var env := started.value.services[ServiceName].environment;
            && env.Keys >= BaseKeys
            && env["ETCD_INITIAL_CLUSTER"] == Some(RemoveSlashes(unitName) + "=http://" + podIp + ":2380")
            && env["ETCD_INITIAL_CLUSTER_TOKEN"] == Some(token)
            && env["ETCD_INITIAL_CLUSTER_STATE"] == Some("new")
  {
    var charm := new CharmEtcd(unitName, map[], map[], []);
    var ctx := Context(true, podIp, config);
    charm.OnClusterCreated(ctx, token);
    assert charm.appDatabag == map[BootstrapTokenKey := token, LeaderAddressKey := podIp, ClusterInitializedKey := ClusterNotInitialized];
    var deferred, error;
    deferred, started, error := charm.OnConfigOrPeerChanged(ctx, api);
    appDatabag := charm.appDatabag;
    SeedListsOnlyItself(config, podIp, unitName, [], Some(token));
  }

  /**
   * The same leader handling a second reconcile pass with no peer yet: it
   * does not start the workload again and reports that it waits for peers,
   * so a second pass does not repeat the first one's outcome.
   */
  method SeedLeaderReconcilesTwice(unitName: string, podIp: string, token: string, config: Config, api: ClusterApi)
    returns (first: Option<Layer>, second: Option<Layer>, status: Status)
    requires IsToken(token)
    requires Lower(config.loglevel) in AllowedLogLevels
    requires |api.addResponses| >= |Client.BackoffSchedule()|
    ensures first.Some? && second.None?
    ensures status == Waiting("Waiting for peers.")
  {
    var ctx := Context(true, podIp, config);
    var charm;
    charm, first := SeededLeader(unitName, ctx, token, api);
    AddressesBeyondOwn(unitName, podIp, []);
    var deferred, error;
    deferred, second, error := charm.OnConfigOrPeerChanged(ctx, api);
    status := charm.status;
  }

  /** A lone leader after relation-created and its first reconcile pass: the cluster is initialized and etcd started. */
  method SeededLeader(unitName: string, ctx: Context, token: string, api: ClusterApi)
    returns (charm: CharmEtcd, first: Option<Layer>)
    requires IsToken(token) && ctx.isLeader
    requires Lower(ctx.config.loglevel) in AllowedLogLevels
    requires |api.addResponses| >= |Client.BackoffSchedule()|
    ensures fresh(charm)
    ensures charm.unitName == unitName && charm.peers == []
    ensures charm.appDatabag == map[BootstrapTokenKey := token, LeaderAddressKey := ctx.podIp, ClusterInitializedKey := ClusterInitialized]
    ensures charm.bootstrapToken == Some(token) && charm.bootstrapMode == Some(BootstrapNew) && charm.isRegistered
    ensures first.Some?
  {
    charm := new CharmEtcd(unitName, map[], map[], []);
    charm.OnClusterCreated(ctx, token);
    assert charm.appDatabag == map[BootstrapTokenKey := token, LeaderAddressKey := ctx.podIp, ClusterInitializedKey := ClusterNotInitialized];
    var deferred, error;
    deferred, first, error := charm.OnConfigOrPeerChanged(ctx, api);
  }

  /**
   * A follower joining after the leader initialized the cluster: it adopts
   * the token, registers with the leader on the first attempt, and starts
   * in mode `existing` with itself and the leader as initial members.
   */
  method FollowerJoins(unitName: string, podIp: string, leaderName: string, leaderIp: string,
                       token: string, config: Config, ownToken: string)
    returns (deferred: bool, started: Option<Layer>, registered: bool)
    requires IsToken(token) && IsToken(ownToken)
    requires Lower(config.loglevel) in AllowedLogLevels
    requires podIp != leaderIp
    requires RemoveSlashes(leaderName) != RemoveSlashes(unitName)
    ensures !deferred && registered
    ensures started.Some? && ServiceName in started.value.services
    ensures var env := started.value.services[ServiceName].environment;
            && env.Keys >= BaseKeys
            && env["ETCD_INITIAL_CLUSTER"] == Some(AddressEntry(RemoveSlashes(unitName), podIp) + ","
                                                   + AddressEntry(RemoveSlashes(leaderName), leaderIp))
            && env["ETCD_INITIAL_CLUSTER_TOKEN"] == Some(token)
            && env["ETCD_INITIAL_CLUSTER_STATE"] == Some("existing")
  {
    var leader := PeerUnit(leaderName, map[IngressAddressKey := leaderIp]);
    var ctx := Context(false, podIp, config);
    var charm := JoinedFollower(unitName, ctx, leader, leaderIp, token, ownToken);
    var api := ClusterApi(Client.Responded(200), [], AcceptAll());
    Client.AcceptedAtAttempt(LeaderClient(leaderIp), podIp, [], AcceptAll(), 0);
    assert RegistrationSucceeds(false, leaderIp, podIp, api);
    TwoUnitList(unitName, podIp, leaderName, leaderIp);
    var error;
    deferred, started, error := charm.OnConfigOrPeerChanged(ctx, api);
    registered := charm.isRegistered;
  }

  /**
   * A non-leader created on a relation whose leader has initialized the
   * cluster, after the relation-created and relation-joined events: it
   * means to join, holds the leader's token and is not registered yet.
   */
  method JoinedFollower(unitName: string, ctx: Context, leader: PeerUnit, leaderIp: string, token: string, ownToken: string)
    returns (charm: CharmEtcd)
    requires IsToken(token) && IsToken(ownToken) && !ctx.isLeader
    ensures fresh(charm)
    ensures charm.unitName == unitName && charm.peers == [leader]
    ensures charm.appDatabag == map[BootstrapTokenKey := token, LeaderAddressKey := leaderIp, ClusterInitializedKey := ClusterInitialized]
    ensures charm.unitDatabag == map[RegistrationIpKey := ctx.podIp, IngressAddressKey := ctx.podIp]
    ensures charm.bootstrapToken == Some(token) && charm.bootstrapMode == Some(BootstrapExisting) && !charm.isRegistered
    ensures charm.status == Waiting("Waiting for Etcd member registration")
  {
    var leaderData := map[BootstrapTokenKey := token, LeaderAddressKey := leaderIp, ClusterInitializedKey := ClusterInitialized];
    charm := new CharmEtcd(unitName, leaderData, map[], [leader]);
    charm.OnClusterCreated(ctx, ownToken);
    var deferred := charm.OnClusterJoined(ctx);
  }

  /** The initial-cluster list of a unit whose one peer published its address under another name. */
  lemma TwoUnitList(unitName: string, podIp: string, leaderName: string, leaderIp: string)
    requires RemoveSlashes(leaderName) != RemoveSlashes(unitName)
    ensures var entries := ClusterAddresses(unitName, podIp, [PeerUnit(leaderName, map[IngressAddressKey := leaderIp])], false);
            && |entries| == 2
            && Join(entries, ",") == AddressEntry(RemoveSlashes(unitName), podIp) + "," + AddressEntry(RemoveSlashes(leaderName), leaderIp)
  {
    var leader := PeerUnit(leaderName, map[IngressAddressKey := leaderIp]);
    var own := RemoveSlashes(unitName);
    var name := RemoveSlashes(leaderName);
    assert DistinctNames(own, [leader]);
    CollectDistinct(own, podIp, [leader]);
    assert Published([leader]) == Published([]) + [(name, leaderIp)];
    var d := UnitAddresses(unitName, podIp, [leader], false);
    assert d == [(own, podIp), (name, leaderIp)];
    PortStrings();
    var a, b := AddressEntry(own, podIp), AddressEntry(name, leaderIp);
    var entries := ClusterAddresses(unitName, podIp, [leader], false);
    assert entries == [a, b];
    assert Join([a, b], ",") == a + "," + b by {
      assert [a, b][1..] == [b];
    }
  }

  /**
   * A follower whose registration the leader keeps rejecting: the event is
   * deferred and the unit is not registered, yet the workload starts,
   * because the leader's address is known.
   */
  method FollowerRegistrationRejected(unitName: string, podIp: string, leaderName: string, leaderIp: string,
                                      token: string, config: Config)
    returns (deferred: bool, started: Option<Layer>, registered: bool)
    requires IsToken(token)
    requires Lower(config.loglevel) in AllowedLogLevels
    requires podIp != leaderIp
    requires RemoveSlashes(leaderName) != RemoveSlashes(unitName)
    ensures deferred && !registered && started.Some?
  {
    var leaderData := map[BootstrapTokenKey := token, LeaderAddressKey := leaderIp, ClusterInitializedKey := ClusterInitialized];
    var leader := PeerUnit(leaderName, map[IngressAddressKey := leaderIp]);
    var charm := new CharmEtcd(unitName, leaderData, map[], [leader]);
    var ctx := Context(false, podIp, config);
    var api := ClusterApi(Client.Responded(200), [], RejectAll());
    Client.AllAttemptsRejected(LeaderClient(leaderIp), podIp, [], RejectAll());
    AddressesBeyondOwn(unitName, podIp, [leader]);
    var error;
    deferred, started, error := charm.OnConfigOrPeerChanged(ctx, api);
    registered := charm.isRegistered;
  }

  /**
   * A follower that adopted the leader's token while the initialized flag
   * is still `'0'`: its reconcile pass would seed the cluster, but the
   * framework refuses a non-leader's write to the application databag, so
   * the hook fails, the flag stays `'0'` and nothing starts.
   */
  method FollowerCannotSeed(unitName: string, podIp: string, leaderIp: string, token: string, ownToken: string,
                            config: Config, api: ClusterApi)
    returns (started: Option<Layer>, error: Option<PyError>, registered: bool, flag: string)
    requires IsToken(token) && IsToken(ownToken)
    requires |api.addResponses| >= |Client.BackoffSchedule()|
    ensures error == Some(RelationDataError("cluster-initialized"))
    ensures started.None? && !registered && flag == "0"
  {
    var leaderData := map[BootstrapTokenKey := token, LeaderAddressKey := leaderIp, ClusterInitializedKey := ClusterNotInitialized];
    var charm := new CharmEtcd(unitName, leaderData, map[], []);
    var ctx := Context(false, podIp, config);
    charm.OnClusterCreated(ctx, ownToken);
    var deferred := charm.OnClusterJoined(ctx);
    assert charm.bootstrapToken == Some(token) && charm.appDatabag == leaderData;
    deferred, started, error := charm.OnConfigOrPeerChanged(ctx, api);
    registered := charm.isRegistered;
    flag := charm.appDatabag[ClusterInitializedKey];
  }

  /**
   * A follower that sees the relation before the leader published a
   * token: joining waits and defers; a reconcile pass raises, because the
   * initialized flag is read from a databag that does not hold it yet.
   */
  method FollowerBeforeToken(unitName: string, podIp: string, config: Config, api: ClusterApi)
    returns (deferred: bool, status: Status, error: Option<PyError>)
    requires |api.addResponses| >= |Client.BackoffSchedule()|
    ensures deferred && status == Waiting("Waiting a bootstrap token")
    ensures error == Some(KeyError("cluster-initialized"))
  {
    var charm := new CharmEtcd(unitName, map[], map[], []);
    var ctx := Context(false, podIp, config);
    deferred := charm.OnClusterJoined(ctx);
    status := charm.status;
    var reconcileDeferred, started;
    reconcileDeferred, started, error := charm.OnConfigOrPeerChanged(ctx, api);
  }

  lemma VerboseIsRefused()
    ensures Lower("verbose") == "verbose" && "verbose" !in AllowedLogLevels
  {
    var s := "verbose";
    assert forall i :: 0 <= i < |s| ==> !('A' <= s[i] <= 'Z');
  }

  /**
   * A seed leader configured with log level `verbose`: the reconcile pass
   * blocks the unit with a message naming the level, raises, and starts
   * nothing.
   */
  method InvalidLogLevel(unitName: string, podIp: string, token: string, api: ClusterApi)
    returns (started: Option<Layer>, status: Status, error: Option<PyError>)
    requires IsToken(token)
    requires |api.addResponses| >= |Client.BackoffSchedule()|
    ensures started.None?
    ensures status == Blocked("Invalid loglevel provided: verbose")
    ensures error == Some(RuntimeError("Error building etcd env"))
  {
    var config := Config("verbose", "basic");
    VerboseIsRefused();
    var charm := new CharmEtcd(unitName, map[], map[], []);
    var ctx := Context(true, podIp, config);
    charm.OnClusterCreated(ctx, token);
    assert charm.bootstrapToken == Some(token);
    assert charm.appDatabag == map[BootstrapTokenKey := token, LeaderAddressKey := podIp, ClusterInitializedKey := ClusterNotInitialized];
    var deferred;
    deferred, started, error := charm.OnConfigOrPeerChanged(ctx, api);
    status := charm.status;
  }
}
