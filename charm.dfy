/**
 * The bootstrap coordinator: one etcd unit's charm. Its stored state (the
 * bootstrap token, the bootstrap mode, the registration flag), the peer
 * relation's application databag and this unit's databag are fields the
 * handlers update in place; the other units' databags are read only.
 * Leadership, the pod's bind address, the configuration, the generated
 * token and the leader's admin API are handler parameters.
 */
module Charm {
  import opened Wrappers
  import opened Text
  import Client
  import opened Addresses
  import opened Environment

  const ClusterNotInitialized: string := "0"
  const ClusterInitialized: string := "1"
  const BootstrapExisting: string := "existing"
  const LeaderAddressKey: string := "leader-address"
  const ClusterInitializedKey: string := "cluster-initialized"
  const BootstrapTokenKey: string := "bootstrap-token"
  const RegistrationIpKey: string := "registration_ip"

  /** The unit's workload status as the charm sets it. */
  datatype Status =
    | Unknown
    | Active(message: string)
    | Waiting(message: string)
    | Maintenance(message: string)
    | Blocked(message: string)

  /** What a handler is given: leadership, the pod's bind address on the peer relation, the configuration. */
  datatype Context = Context(isLeader: bool, podIp: string, config: Config)

  /** The leader's admin API: the probe's outcome, the member list, the answers to add-member requests. */
  datatype ClusterApi = ClusterApi(ping: Client.PingOutcome, members: seq<Client.Member>, addResponses: seq<Client.AddResponse>)

  /** What `secrets.token_hex(8)` returns: sixteen lower-case hex digits. */
  predicate IsToken(t: string)
  {
    |t| == 16 && forall i :: 0 <= i < |t| ==> t[i] in "0123456789abcdef"
  }

  /** Python's `str()` of an optional string. */
  function PyStr(o: Option<string>): string
  {
    if o.Some? then o.value else "None"
  }

  /** The client a unit builds to register with the leader. */
  function LeaderClient(leaderIp: string): Client.EtcdClient
  {
    Client.NewClient(leaderIp, ClientPort, ClusterPort)
  }

  /** Must the unit call the leader's admin API: not registered yet, and not the leader's address itself. */
  predicate RegistrationNeeded(isRegistered: bool, leaderIp: string, podIp: string)
  {
    !isRegistered && podIp != leaderIp
  }

  /** Does `register_new_member` return True. */
  predicate RegistrationSucceeds(isRegistered: bool, leaderIp: string, podIp: string, api: ClusterApi)
    requires |api.addResponses| >= |Client.BackoffSchedule()|
  {
    !RegistrationNeeded(isRegistered, leaderIp, podIp)
    || (api.ping.Responded? && Client.AddSucceeds(LeaderClient(leaderIp), podIp, api.members, api.addResponses))
  }

  /** The Active status message once the workload runs: the mode, the leadership and the token, as Python prints them. */
  function ReadyMessage(isLeader: bool, token: Option<string>, mode: Option<string>): string
  {
    "Unit is ready (bootstrap: " + PyStr(mode) + ", leader: " + (if isLeader then "True" else "False")
    + ", token: " + PyStr(token) + ")"
  }

  /** What `_start_etcd` leaves behind: the layer handed to the workload, the exception raised, the status. */
  datatype StartOutcome = StartOutcome(layer: Option<Layer>, error: Option<PyError>, status: Status)

  /**
   * `_start_etcd(container)`: an invalid log level leaves the unit Blocked
   * and raises; otherwise the layer is added, the service started and the
   * unit Active.
   */
  function Start(ctx: Context, unitName: string, peers: seq<PeerUnit>, token: Option<string>, mode: Option<string>): (s: StartOutcome)
    ensures s.layer.Some? <==> Lower(ctx.config.loglevel) in AllowedLogLevels
    ensures s.layer.Some? <==> s.error.None?
    ensures s.error.Some? ==> s.error.value == RuntimeError(EnvBuildError) && s.status == Blocked(InvalidLogLevelMessage(ctx.config))
    ensures s.layer.Some? ==> s.status == Active(ReadyMessage(ctx.isLeader, token, mode))
                              && s.layer.value.services.Keys == {ServiceName}
                              && s.layer.value.services[ServiceName].startup == "enabled"
                              && Some(s.layer.value.services[ServiceName].environment)
                                 == EtcdEnvironment(ctx.config, ctx.podIp, unitName, peers, token, mode)
  {
    var env := EtcdEnvironment(ctx.config, ctx.podIp, unitName, peers, token, mode);
    match PebbleLayer(env, true)
    case Failure(e) => StartOutcome(None, Some(e), Blocked(InvalidLogLevelMessage(ctx.config)))
    case Success(layer) => StartOutcome(Some(layer), None, Active(ReadyMessage(ctx.isLeader, token, mode)))
  }

  class CharmEtcd {
    const unitName: string
    var bootstrapToken: Option<string>
    var bootstrapMode: Option<string>
    var isRegistered: bool
    /** The peer relation's application databag; only the leader may write it. */
    var appDatabag: map<string, string>
    /** This unit's databag on the peer relation. */
    var unitDatabag: map<string, string>
    /** The other units of the peer relation with their databags. */
    var peers: seq<PeerUnit>
    var status: Status

    /** The stored state starts unset; the relation data is whatever the framework holds. */
    constructor (unitName: string, appDatabag: map<string, string>, unitDatabag: map<string, string>, peers: seq<PeerUnit>)
      ensures this.unitName == unitName && this.appDatabag == appDatabag && this.unitDatabag == unitDatabag && this.peers == peers
      ensures bootstrapToken == None && bootstrapMode == None && !isRegistered && status == Unknown
    {
      this.unitName := unitName;
      this.appDatabag := appDatabag;
      this.unitDatabag := unitDatabag;
      this.peers := peers;
      bootstrapToken := None;
      bootstrapMode := None;
      isRegistered := false;
      status := Unknown;
    }

    /** `cluster_initialized`: indexes the databag, so a missing flag raises rather than reading as false. */
    function IsClusterInitialized(): (r: Result<bool, PyError>)
      reads this
      ensures r.Failure? <==> ClusterInitializedKey !in appDatabag
      ensures r.Failure? ==> r.error == KeyError(ClusterInitializedKey)
      ensures r.Success? ==> (r.value <==> appDatabag[ClusterInitializedKey] == ClusterInitialized)
    {
      if ClusterInitializedKey in appDatabag then Success(appDatabag[ClusterInitializedKey] == ClusterInitialized)
      else Failure(KeyError(ClusterInitializedKey))
    }

    /**
     * `_on_cluster_created`: publish the registration IP if none is
     * there; a non-leader only settles on joining; a leader without a
     * token generates one and seeds the application databag.
     */
    method OnClusterCreated(ctx: Context, token: string)
      requires IsToken(token)
      modifies this`unitDatabag, this`bootstrapToken, this`bootstrapMode, this`appDatabag
      ensures unitDatabag == if Truthy(Get(old(unitDatabag), RegistrationIpKey)) then old(unitDatabag)
                             else old(unitDatabag)[RegistrationIpKey := ctx.podIp]
      ensures !ctx.isLeader ==> && appDatabag == old(appDatabag)
                                && bootstrapToken == old(bootstrapToken)
                                && bootstrapMode == if Truthy(old(bootstrapMode)) then old(bootstrapMode) else Some(BootstrapExisting)
      ensures ctx.isLeader && Truthy(old(bootstrapToken)) ==>
                && appDatabag == old(appDatabag)
                && bootstrapToken == old(bootstrapToken)
                && bootstrapMode == old(bootstrapMode)
      ensures ctx.isLeader && !Truthy(old(bootstrapToken)) ==>
                && bootstrapToken == Some(token)
                && bootstrapMode == Some(BootstrapNew)
                && appDatabag == old(appDatabag)[BootstrapTokenKey := token][LeaderAddressKey := ctx.podIp]
                                                [ClusterInitializedKey := ClusterNotInitialized]
    {
      if !Truthy(Get(unitDatabag, RegistrationIpKey)) {
        unitDatabag := unitDatabag[RegistrationIpKey := ctx.podIp];
      }
      if !ctx.isLeader {
        if !Truthy(bootstrapMode) {
          bootstrapMode := Some(BootstrapExisting);
        }
        return;
      }
      if !Truthy(bootstrapToken) {
        bootstrapToken := Some(token);
        bootstrapMode := Some(BootstrapNew);
        appDatabag := appDatabag[BootstrapTokenKey := token];
        appDatabag := appDatabag[LeaderAddressKey := ctx.podIp];
        appDatabag := appDatabag[ClusterInitializedKey := ClusterNotInitialized];
      }
    }

    /**
     * `_on_cluster_joined`: publish this unit's ingress address; adopt the
     * leader's token when there is one; a non-leader without one waits and
     * defers the event.
     */
    method OnClusterJoined(ctx: Context) returns (deferred: bool)
      modifies this`unitDatabag, this`bootstrapToken, this`status
      ensures unitDatabag == old(unitDatabag)[IngressAddressKey := ctx.podIp]
      ensures deferred <==> !Truthy(Get(appDatabag, BootstrapTokenKey)) && !ctx.isLeader
      ensures !Truthy(Get(appDatabag, BootstrapTokenKey)) ==>
                && bootstrapToken == old(bootstrapToken)
                && status == if ctx.isLeader then old(status) else Waiting("Waiting a bootstrap token")
      ensures Truthy(Get(appDatabag, BootstrapTokenKey)) ==>
                && bootstrapToken == Get(appDatabag, BootstrapTokenKey)
                && status == if ctx.isLeader then old(status) else Waiting("Waiting for Etcd member registration")
    {
      var token := Get(appDatabag, BootstrapTokenKey);
      unitDatabag := unitDatabag[IngressAddressKey := ctx.podIp];
      deferred := false;
      if !Truthy(token) {
        if !ctx.isLeader {
          status := Waiting("Waiting a bootstrap token");
          deferred := true;
        }
      } else {
        bootstrapToken := token;
        if !ctx.isLeader {
          status := Waiting("Waiting for Etcd member registration");
        }
      }
    }

    /**
     * `register_new_member`: register this unit with the leader's admin API
     * unless it is registered already or is the leader's address. Returns
     * the value or the exception, and the HTTP requests and sleeps it made.
     */
    method RegisterNewMember(ctx: Context, api: ClusterApi)
      returns (result: Result<bool, PyError>, requests: seq<Client.Request>, sleeps: seq<nat>)
      requires |api.addResponses| >= |Client.BackoffSchedule()|
      modifies this`isRegistered, this`status
      ensures LeaderAddressKey !in appDatabag ==>
                && result == Failure(KeyError(LeaderAddressKey))
                && requests == [] && sleeps == []
                && isRegistered == old(isRegistered) && status == old(status)
      ensures LeaderAddressKey in appDatabag ==>
                var leaderIp := appDatabag[LeaderAddressKey];
                var client := LeaderClient(leaderIp);
                && result == Success(RegistrationSucceeds(old(isRegistered), leaderIp, ctx.podIp, api))
                && isRegistered == (old(isRegistered) || isRegistered)
                && (!RegistrationNeeded(old(isRegistered), leaderIp, ctx.podIp) ==>
                      requests == [] && sleeps == [] && isRegistered == old(isRegistered) && status == old(status))
                && (RegistrationNeeded(old(isRegistered), leaderIp, ctx.podIp) ==>
                      && |requests| > 0 && requests[0] == Client.Get(Client.BaseUrl(client) + "/version", Client.PingTimeout)
                      && (isRegistered <==> result == Success(true)))
                && (RegistrationNeeded(old(isRegistered), leaderIp, ctx.podIp) && api.ping.RequestException? ==>
                      && requests == [requests[0]] && sleeps == []
                      && status == Maintenance("Etcd leader not ready. Deferring registration"))
                && (RegistrationNeeded(old(isRegistered), leaderIp, ctx.podIp) && api.ping.Responded? ==>
                      && |requests| == 2 + Client.AddAttempts(client, ctx.podIp, api.members, api.addResponses)
                      && requests[1] == Client.MemberListRequest(client)
                      && (forall i :: 2 <= i < |requests| ==> requests[i] == Client.MemberAddRequest(client, ctx.podIp))
                      && sleeps == Client.AddSleeps(client, ctx.podIp, api.members, api.addResponses)
                      && status == if isRegistered then Maintenance("Waiting for member registration")
                                   else Blocked("Registration failed. See logs"))
    {
      requests, sleeps := [], [];
      if LeaderAddressKey !in appDatabag {
        return Failure(KeyError(LeaderAddressKey)), requests, sleeps;
      }
      if isRegistered {
        return Success(true), requests, sleeps;
      }
      var leaderIp := appDatabag[LeaderAddressKey];
      if ctx.podIp == leaderIp {
        return Success(true), requests, sleeps;
      }
      status := Maintenance("Waiting for member registration");
      var client := Client.NewClient(leaderIp, ClientPort, ClusterPort);
      var alive, probe := Client.Ping(client, api.ping);
      requests := [probe];
      if alive {
        var added, calls, waits := Client.AddNewMember(client, ctx.podIp, api.members, api.addResponses);
        requests, sleeps := requests + calls, waits;
        if added {
          isRegistered := true;
          result := Success(true);
        } else {
          status := Blocked("Registration failed. See logs");
          result := Success(false);
        }
      } else {
        status := Maintenance("Etcd leader not ready. Deferring registration");
        result := Success(false);
      }
    }

    /** `get_etcd_environment`: the environment, or none and a Blocked status for an invalid log level. */
    method GetEtcdEnvironment(ctx: Context) returns (env: Option<Env>)
      modifies this`status
      ensures env == EtcdEnvironment(ctx.config, ctx.podIp, unitName, peers, bootstrapToken, bootstrapMode)
      ensures status == if env.None? then Blocked(InvalidLogLevelMessage(ctx.config)) else old(status)
    {
      env := EtcdEnvironment(ctx.config, ctx.podIp, unitName, peers, bootstrapToken, bootstrapMode);
      if env.None? {
        status := Blocked(InvalidLogLevelMessage(ctx.config));
      }
    }

    /** `generate_pebble_config(enabled)`: the layer, or the RuntimeError raised when there is no environment. */
    method GeneratePebbleConfig(ctx: Context, enabled: bool) returns (r: Result<Layer, PyError>)
      modifies this`status
      ensures r == PebbleLayer(EtcdEnvironment(ctx.config, ctx.podIp, unitName, peers, bootstrapToken, bootstrapMode), enabled)
      ensures status == if r.Failure? then Blocked(InvalidLogLevelMessage(ctx.config)) else old(status)
    {
      var env := GetEtcdEnvironment(ctx);
      r := PebbleLayer(env, enabled);
    }

    /** `_start_etcd(container)`, reduced to the layer it hands over and the status it leaves. */
    method StartEtcd(ctx: Context) returns (started: Option<Layer>, error: Option<PyError>)
      modifies this`status
      ensures var s := Start(ctx, unitName, peers, bootstrapToken, bootstrapMode);
              started == s.layer && error == s.error && status == s.status
    {
      status := Maintenance("Restarting Etcd");
      var layer := GeneratePebbleConfig(ctx, true);
      match layer
      case Failure(e) =>
        started, error := None, Some(e);
      case Success(l) =>
        status := Active(ReadyMessage(ctx.isLeader, bootstrapToken, bootstrapMode));
        started, error := Some(l), None;
    }

    /**
     * `_render_cluster_addresses(current_pod_only)`: gather the units'
     * addresses in a dict keyed by unit name without slashes, then render
     * each item as `name=http://addr:2380`.
     */
    method RenderClusterAddresses(podIp: string, currentPodOnly: bool) returns (result: seq<string>)
      ensures result == ClusterAddresses(unitName, podIp, peers, currentPodOnly)
    {
      var own: Entries := [(RemoveSlashes(unitName), podIp)];
      var unitData := own;
      if !currentPodOnly {
        for i := 0 to |peers|
          invariant unitData == Collect(own, peers[..i])
        {
          var unit := peers[i];
          assert peers[..i + 1][..i] == peers[..i];
          if IngressAddressKey in unit.databag {
            unitData := Put(unitData, RemoveSlashes(unit.name), unit.databag[IngressAddressKey]);
          }
        }
        assert peers[..|peers|] == peers;
      }
      result := [];
      for i := 0 to |unitData|
        invariant |result| == i
        invariant forall k :: 0 <= k < i ==> result[k] == AddressEntry(unitData[k].0, unitData[k].1)
      {
        result := result + [AddressEntry(unitData[i].0, unitData[i].1)];
      }
    }

    /**
     * `_on_config_or_peer_changed`, the reconcile pass. Returns whether the
     * event was deferred, the layer the workload was started with, and the
     * exception that escaped, if any.
     */
    method OnConfigOrPeerChanged(ctx: Context, api: ClusterApi)
      returns (deferred: bool, started: Option<Layer>, error: Option<PyError>)
      requires |api.addResponses| >= |Client.BackoffSchedule()|
      modifies this`bootstrapToken, this`bootstrapMode, this`isRegistered, this`appDatabag, this`status
      // a missing flag raises before anything changes
      ensures ClusterInitializedKey !in old(appDatabag) ==>
                && error == Some(KeyError(ClusterInitializedKey)) && !deferred && started.None?
                && bootstrapToken == old(bootstrapToken) && bootstrapMode == old(bootstrapMode)
                && isRegistered == old(isRegistered) && appDatabag == old(appDatabag) && status == old(status)
      // the only databag write is the flag, and only ever to '1'
      ensures forall k :: k in appDatabag <==> k in old(appDatabag)
      ensures forall k :: k in appDatabag && appDatabag[k] != old(appDatabag)[k] ==>
                k == ClusterInitializedKey && appDatabag[k] == ClusterInitialized
      ensures ClusterInitializedKey in old(appDatabag) ==>
                var initialized := old(appDatabag)[ClusterInitializedKey] == ClusterInitialized;
                && bootstrapToken == (if initialized then Get(old(appDatabag), BootstrapTokenKey) else old(bootstrapToken))
                && bootstrapMode == (if initialized && !Truthy(old(bootstrapMode)) then Some(BootstrapExisting) else old(bootstrapMode))
                && appDatabag == (if !initialized && Truthy(bootstrapToken) && ctx.isLeader
                                  then old(appDatabag)[ClusterInitializedKey := ClusterInitialized]
                                  else old(appDatabag))
                // no token: wait, without starting
                && (!Truthy(bootstrapToken) ==>
                      && status == Waiting("Waiting for leader bootstrap.") && !deferred && started.None? && error.None?
                      && isRegistered == old(isRegistered))
                // token, not initialized, not the leader: the framework refuses the write of the flag
                && (Truthy(bootstrapToken) && !initialized && !ctx.isLeader ==>
                      && error == Some(RelationDataError(ClusterInitializedKey)) && !deferred && started.None?
                      && isRegistered == old(isRegistered) && status == old(status))
                // token, not initialized, the leader: it seeds the cluster and starts at once
                && (Truthy(bootstrapToken) && !initialized && ctx.isLeader ==>
                      var s := Start(ctx, unitName, peers, bootstrapToken, bootstrapMode);
                      && isRegistered && !deferred && started == s.layer && error == s.error && status == s.status)
                // token, initialized: register with the leader, then start once a peer is known
                && (Truthy(bootstrapToken) && initialized && LeaderAddressKey !in appDatabag ==>
                      && error == Some(KeyError(LeaderAddressKey)) && !deferred && started.None?
                      && isRegistered == old(isRegistered) && status == old(status))
                && (Truthy(bootstrapToken) && initialized && LeaderAddressKey in appDatabag ==>
                      var leaderIp := appDatabag[LeaderAddressKey];
                      var registered := RegistrationSucceeds(old(isRegistered), leaderIp, ctx.podIp, api);
                      && deferred == !registered
                      && isRegistered == (old(isRegistered) || (registered && RegistrationNeeded(old(isRegistered), leaderIp, ctx.podIp)))
                      && (|ClusterAddresses(unitName, ctx.podIp, peers, false)| > 1 ==>
                            var s := Start(ctx, unitName, peers, bootstrapToken, bootstrapMode);
                            started == s.layer && error == s.error && status == s.status)
                      && (|ClusterAddresses(unitName, ctx.podIp, peers, false)| <= 1 ==>
                            started.None? && error.None? && status == Waiting("Waiting for peers.")))
    {
      deferred, started, error := false, None, None;
      var flag := IsClusterInitialized();
      if flag.Failure? {
        return false, None, Some(flag.error);
      }
      var initialized := flag.value;
      if initialized {
        bootstrapToken := Get(appDatabag, BootstrapTokenKey);
        if !Truthy(bootstrapMode) {
          bootstrapMode := Some(BootstrapExisting);
        }
      }
      if !Truthy(bootstrapToken) {
        status := Waiting("Waiting for leader bootstrap.");
        return;
      }
      if !initialized {
        if !ctx.isLeader {
          return false, None, Some(RelationDataError(ClusterInitializedKey));
        }
        appDatabag := appDatabag[ClusterInitializedKey := ClusterInitialized];
        isRegistered := true;
        started, error := StartEtcd(ctx);
        return;
      }
      var registered, _, _ := RegisterNewMember(ctx, api);
      if registered.Failure? {
        return false, None, Some(registered.error);
      }
      deferred := !registered.value;
      var addresses := RenderClusterAddresses(ctx.podIp, false);
      if |addresses| > 1 {
        started, error := StartEtcd(ctx);
      } else {
        status := Waiting("Waiting for peers.");
      }
    }
  }
}
