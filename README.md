# etcd peer bootstrap, modelled in Dafny

This project models how one unit of the Kubernetes etcd charm decides to
join a cluster. The charm is `CharmEtcd` in `src/charm.py`. The registration
client it calls is `EtcdClient` in `src/client.py`.

The charm has three handlers:

- relation-created seeds the peer relation's application databag on the
  leader; a non-leader only records that it will join an existing cluster;
- relation-joined publishes the unit's ingress address and adopts the
  leader's bootstrap token;
- config-changed and relation-changed share the reconcile pass. It either
  seeds a one-member cluster, or registers the unit with the leader's admin
  API and starts etcd once a peer is known.

The client builds the admin API's URLs and checks whether a peer URL is
already a member. It then posts add-member requests with a fixed backoff
of 25, 36, 49, 64 and 81 seconds.

Modules, one per concern:

- `Wrappers` (`wrappers.dfy`): `Option`, `Result`, the Python
  exceptions that can escape a handler, and `dict.get`.
- `Text` (`text.dfy`): Python's string operations as the charm uses them:
  `str(int)`, `str.format` with a `{0}` field, `str.lower`,
  `replace('/', '')`, `','.join`, and `split` as its inverse.
- `Client` (`client.dfy`): `EtcdClient` as a value. URL builders and the
  membership search are functions. `ping` and `add_new_member` are methods
  over injected HTTP answers. They return the requests issued and the
  sleeps taken.
- `Addresses` (`addresses.dfy`): `_render_cluster_addresses` as a
  specification. It models the insertion-ordered `unit_data` dict and lemmas
  about the list it renders.
- `Environment` (`environment.dfy`): `get_etcd_environment` and
  `generate_pebble_config` as pure dictionary builders.
- `Charm` (`charm.py` as the class `Charm.CharmEtcd` in `charm.dfy`): the
  stored state, the two databags and the status are fields that the
  handler methods update in place, with `modifies` frames field by field.
  The peers' databags are a field no handler writes. Leadership, the pod IP,
  the configuration, the generated token and the leader's admin API are
  handler parameters.
- `Scenarios` (`scenarios.dfy`): units driven through whole event
  sequences. Each run is proved from the handlers' contracts alone.

Handler outputs: `deferred` stands for `event.defer()`. `started` is the
Pebble layer that `_start_etcd` hands to the container. `error` is the
exception that escapes the handler.

A missing `cluster-initialized` key raises `KeyError` (`charm.py:87`);
the model does not read it as false. A missing `leader-address` raises too
(`charm.py:137`). That read comes before the `is_registered` check, so it
raises even for a unit that is already registered.

The framework lets only the leader write the application databag. The model
writes it only through `OnClusterCreated`, which is leader-guarded
(`charm.py:93-97`), and through the flag write in the reconcile pass
(`charm.py:278`). A non-leader reaching that write gets `RelationDataError`
and nothing starts (`Scenarios.FollowerCannotSeed`).

Behaviours of the code that the scenarios pin down:

- A lone seed leader's second reconcile pass does not start etcd and
  reports "Waiting for peers." (`Scenarios.SeedLeaderReconcilesTwice`).
- Whether etcd starts after registration depends only on the number of
  known addresses (`charm.py:284-289`). When every add-member attempt is
  rejected, the event is deferred and etcd starts anyway
  (`Scenarios.FollowerRegistrationRejected`).
- A reconcile pass before the leader has written `cluster-initialized`
  raises `KeyError` (`Scenarios.FollowerBeforeToken`).
- Transport failures are caught only in `ping` (`client.py:33-39`).
  `get_member_list` and the add-member loop let them propagate.
- The bootstrap token is `token_hex(8)` (`charm.py:100`): 8 random bytes
  written as 16 hex digits.

## Model

| member | source | states |
|---|---|---|
| Text.DecimalString | src/client.py:22-24 | a port renders as a non-empty run of decimal digits with no leading zero |
| Text.ParseDecimalString | src/client.py:22-24 | reading the digits back gives the number |
| Text.PortStrings | src/charm.py:38-39 | the client and cluster ports render as `2379` and `2380` |
| Text.Format | src/client.py:17 | `str.format` with `{0}` fields; its meaning is stated by `FormatLiteral` and `FormatField` |
| Text.FormatLiteral | src/client.py:17 | formatting leaves text that has no `{` unchanged |
| Text.FormatField | src/client.py:51 | formatting replaces a leading `{0}` field with the argument |
| Text.RemoveSlashes | src/charm.py:227 | the unit name without slashes contains no slash and is no longer than the name |
| Text.RemoveSlashesNone | src/charm.py:323 | a name without slashes is kept as it is |
| Text.RemoveSlashesConcat | src/charm.py:227 | removing slashes from a concatenation removes them from each part |
| Text.UnitNameKey | src/charm.py:338 | the unit name `app/N` becomes the dict key `appN` |
| Text.Lower | src/charm.py:215 | `str.lower` on ASCII; what it means is stated by `LowerIsLowerCase`, `Environment.LevelCaseIgnored` and `Environment.UpperCaseLevelAccepted` |
| Text.LowerIsLowerCase | src/charm.py:215 | no ASCII capital survives lower-casing, lower-casing twice is lower-casing once, and text without capitals is kept |
| Text.Join | src/charm.py:244 | `','.join`; `SplitJoin` states that splitting undoes it for comma-free entries |
| Text.SplitJoin | src/charm.py:244 | a comma-joined list whose entries contain no comma splits back into the entries |
| Client.NewClient | src/client.py:13-17 | the client keeps the leader's IP and port; its stub is `http://{0}:<clusterPort>` because only `':{0}'` is formatted with the port |
| Client.PeerUrl | src/client.py:51 | the stub filled with a peer's IP; `PeerUrlOfNewClient` states what it is for a client built by the constructor |
| Client.PeerUrlOfNewClient | src/client.py:51 | the stub filled with an IP is `http://<ip>:<clusterPort>` |
| Client.BaseUrl | src/client.py:20-24 | `base_url`; `BaseUrlParts` states its parts |
| Client.BaseUrlParts | src/client.py:20-24 | the base URL is scheme, `//host` and the client port, split on its colons, and the port reads back as the client port |
| Client.Endpoint | src/client.py:26-31 | the endpoint is the base URL plus the path behind one slash, with at most one leading slash of the path dropped |
| Client.EndpointLeadingSlash | src/client.py:26-31 | a path with or without one leading slash names the same endpoint; a second slash is kept |
| Client.Ping | src/client.py:33-39 | the probe GETs `<base>/version` with a 3 s timeout and reports success exactly when the GET returns, whatever its status code |
| Client.IsIpRegistered | src/client.py:49-59 | true exactly when some member's `peerURLs` holds the IP's peer URL |
| Client.BackoffSchedule | src/client.py:70 | the schedule is 25, 36, 49, 64, 81 |
| Client.FirstAccepted | src/client.py:72-90 | the index of the first non-rejection, with every earlier answer a rejection, or `n` when all are rejections |
| Client.FirstAcceptedAllRejected | src/client.py:83-86 | all answers rejected means none is accepted |
| Client.FirstAcceptedAt | src/client.py:87-90 | the first accepted answer is found at its index |
| Client.AlreadyRegistered | src/client.py:63-64 | a listed peer succeeds with no add-member request and no sleep |
| Client.AllAttemptsRejected | src/client.py:70-93 | when every answer carries an error: 5 add requests, sleeps 25, 36, 49, 64, 81 (one after the last attempt too), failure |
| Client.AcceptedAtAttempt | src/client.py:72-90 | when the first accepted answer is the k-th: k+1 add requests, the first k sleeps, success |
| Client.MemberListRequest | src/client.py:41-44 | a POST with no body to `<base>/v3/cluster/member/list`, the leading slash resolved by `Endpoint` |
| Client.MemberAddRequest | src/client.py:66-77 | a POST to `<base>/v3/cluster/member/add` whose body is `{"peerURLs": [peerUrl(ip)]}` |
| Client.AddNewMember | src/client.py:61-93 | one member-list request comes first, then the add-member requests, each with the payload `[peerUrl(ip)]`; the request count, the sleeps and the result are those of the loop |
| Addresses.Put | src/charm.py:338-340 | dict assignment: the keys gain `k`, keys stay distinct, a new key goes last, an existing key keeps its place, and the first key is kept |
| Addresses.PutInPlace | src/charm.py:338-340 | assigning to a key the dict holds keeps the length, gives that item the new value in its place, and leaves every other item as it was |
| Addresses.Collect | src/charm.py:327-340 | the dict after the loop over `relation.units`; its meaning is stated by `CollectKeys` and `CollectDistinct` |
| Addresses.UnitAddresses | src/charm.py:317-340 | the `unit_data` dict: own entry alone with `current_pod_only`, else `Collect` from own entry (`CurrentPodOnly`, `CollectDistinct`) |
| Addresses.ClusterAddresses | src/charm.py:313-347 | the returned list, one entry per dict item; its meaning is stated by `AddressesBeyondOwn`, `PeerEntryListed` and `CurrentPodOnly` |
| Addresses.AddressEntry | src/charm.py:345 | one `name=http://addr:port` entry; `AddressEntryText` spells it with port 2380 |
| Addresses.CollectKeys | src/charm.py:327-340 | after the loop over the peers, the dict's keys are own name plus each name that published `ingress-address`, each once, with own name first |
| Addresses.DistinctKeysCount | src/charm.py:344-345 | the list has one entry per dict key |
| Addresses.AddressEntryText | src/charm.py:345 | each entry is `name=http://addr:2380` |
| Addresses.CurrentPodOnly | src/charm.py:321-327 | with `current_pod_only` the list is exactly own entry |
| Addresses.AddressesBeyondOwn | src/charm.py:313-347 | the full list has more than one entry exactly when some peer published an address under a name other than own |
| Addresses.CollectDistinct | src/charm.py:327-340 | with distinct names, the dict is own entry followed by the publishing peers in relation order; peers without `ingress-address` are skipped |
| Addresses.PeerEntryListed | src/charm.py:313-347 | with distinct names, own entry comes first and every publishing peer's entry is in the list |
| Addresses.PublishedContains | src/charm.py:329-340 | a publishing peer's item is among the published items |
| Environment.EtcdEnvironment | src/charm.py:209-249 | no environment exactly when the lower-cased level is outside debug/info/warn/error/panic/fatal; otherwise the nine base keys with the lower-cased level, the slash-free name, the token and mode, listen-client `http://0.0.0.0:2379`, advertise-client `http://ip:2379`, both peer URLs `http://ip:2380`, `ETCD_METRICS` exactly when metrics is `basic` or `extensive`, and an initial cluster restricted to own entry exactly when the mode is `new` |
| Environment.LevelCaseIgnored | src/charm.py:215-216 | two level spellings that lower-case alike give the same environment |
| Environment.UpperCaseLevelAccepted | src/charm.py:215-226 | `DEBUG` is accepted and written out as `debug` |
| Environment.SeedListsOnlyItself | src/charm.py:239-246 | in mode `new`, the initial cluster is `name=http://ip:2380` for own unit alone |
| Environment.JoinerListsPeers | src/charm.py:239-246 | in any other mode, the initial cluster lists own entry first and every publishing peer |
| Environment.PebbleLayer | src/charm.py:294-311 | no environment raises `RuntimeError`, and a present one always gives a layer: one `etcd` service running `/usr/local/bin/etcd` with that environment, enabled or disabled as asked |
| Charm.Start | src/charm.py:168-202 | a valid level gives a layer, no exception and the Active message naming mode, leadership and token; an invalid level gives no layer, the `RuntimeError` and the Blocked message |
| Charm.CharmEtcd.constructor | src/charm.py:63-67 | the stored token and mode start unset and the unit starts unregistered |
| Charm.CharmEtcd.IsClusterInitialized | src/charm.py:85-87 | raises `KeyError` exactly when the flag is absent; otherwise true exactly when it is `'1'` |
| Charm.CharmEtcd.OnClusterCreated | src/charm.py:89-108 | `registration_ip` is written only when it is unset; a non-leader keeps the app databag and sets mode `existing` only when unset; a leader with a token changes nothing; a leader without one stores the token, sets mode `new` and writes token, own IP and `'0'` |
| Charm.CharmEtcd.OnClusterJoined | src/charm.py:110-127 | always writes own IP to `ingress-address`; with no token, a non-leader waits and defers and the stored token is kept; with a token, the stored token becomes the databag's |
| Charm.CharmEtcd.RegisterNewMember | src/charm.py:134-166 | no leader address raises; a registered unit or the leader's own IP returns True with no request; a failed probe returns False in Maintenance; otherwise the add result, with `is_registered` set only on success and Blocked on failure |
| Charm.CharmEtcd.GetEtcdEnvironment | src/charm.py:209-249 | returns the environment of the current state, and sets Blocked with the lower-cased level exactly when there is none |
| Charm.CharmEtcd.GeneratePebbleConfig | src/charm.py:294-311 | the layer of the current environment with the status unchanged, or the `RuntimeError` with the unit Blocked |
| Charm.CharmEtcd.StartEtcd | src/charm.py:168-202 | the layer, exception and status are those of `Start` on the current state |
| Charm.CharmEtcd.RenderClusterAddresses | src/charm.py:313-347 | the two loops compute `ClusterAddresses` of the unit, its IP and its peers |
| Charm.CharmEtcd.OnConfigOrPeerChanged | src/charm.py:251-292 | a missing flag raises with nothing changed; the only app databag write sets the flag to `'1'`, by the leader only; when the flag is `'1'` the token is copied and mode `existing` is set only if unset; with no token it waits; with a token and no flag a non-leader gets `RelationDataError` and the leader writes `'1'`, registers and starts; otherwise it defers exactly when registration fails and starts exactly when more than one address is known |
| Scenarios.SeedLeader | src/charm.py:266-281 | a lone leader seeds the databag with token, own IP and `'1'`, and starts with itself alone in mode `new` with the generated token |
| Scenarios.SeededLeader | src/charm.py:99-107 | after created and a first pass, a lone leader holds the token in mode `new`, is registered, has written `'1'` and has started |
| Scenarios.SeedLeaderReconcilesTwice | src/charm.py:283-292 | a second pass of the lone leader does not start and waits for peers |
| Scenarios.JoinedFollower | src/charm.py:110-127 | a follower after created and joined holds the leader's token, mode `existing`, both own addresses published, not registered |
| Scenarios.FollowerJoins | src/charm.py:283-292 | a follower registered on the first attempt starts in mode `existing` with own and the leader's entries |
| Scenarios.FollowerRegistrationRejected | src/charm.py:284-289 | five rejections defer the event and leave the unit unregistered, yet etcd starts |
| Scenarios.FollowerCannotSeed | src/charm.py:276-279 | a follower that adopted the token while the flag is `'0'` fails its reconcile with `RelationDataError`, leaves the flag `'0'`, is not registered and starts nothing |
| Scenarios.FollowerBeforeToken | src/charm.py:117-121 | with no token, joining waits and defers; reconcile raises `KeyError('cluster-initialized')` |
| Scenarios.TwoUnitList | src/charm.py:344-346 | one peer under another name gives two entries joined by a comma |
| Scenarios.VerboseIsRefused | src/charm.py:212-216 | `verbose` lower-cases to itself and is not an allowed level |
| Scenarios.InvalidLogLevel | src/charm.py:215-220 | log level `verbose` blocks with a message naming it, raises, and starts nothing |

## Left out

- `src/cluster.py` is not part of this model: it is event plumbing that the charm does not import.
- `_on_etcd_pebble_ready` and the Pebble calls inside `_start_etcd` (`add_layer`, `get_service`, `stop`, `autostart`) are not modelled. A start is the layer handed over.
- Charm.CharmEtcd.StartEtcd: assumes `autostart` succeeds, so a start always ends Active. The branch where `autostart` fails and the status stays Maintenance is not modelled.
- Transport and JSON-decoding exceptions are not modelled: `get_member_list` and the add-member loop do not catch them, and `ping` is modelled by its two outcomes. Neither is the `KeyError` from a reply without `members` (`client.py:47`) or a member without `peerURLs` (`client.py:53`).
- Client.AddNewMember: requires at least five injected answers. This is how the model says that the admin API answers every request.
- AddResponse: the `"error"` entry is modelled as an optional string. Truthiness of other JSON values (numbers, lists, objects) is not modelled.
- Text.Lower: handles ASCII letters only. Python's `str.lower` also covers the rest of Unicode.
- Text.Format: handles only `{0}` fields, which is all the client's templates hold. Escaped braces and other field forms are not modelled.
- `secrets.token_hex(8)` is a parameter, required to be sixteen lower-case hex digits. `is_leader()`, the binding's address and `model.config` are parameters too.
- The order of `relation.units` is whatever order the framework gives; the model takes it as a sequence.
- `event.defer()` is the `deferred` output. Redelivery by the framework is not modelled.
- Logging, `main(CharmEtcd)`, the `StoredState` persistence and Juju's rollback of a failed hook are not modelled. A raised exception leaves the fields as the Python object would.
- Several units converging on one token is not modelled: each `CharmEtcd` object is a single unit, and the scenarios copy the leader's databag by hand.
- `RelationDataError` stands for the framework's refusal of a non-leader's write; its message and the hook's rollback are not modelled.
- `self.model.config['loglevel']` and `['metrics']` are always present in the model; a `KeyError` from a missing option is not modelled.
- The peer relation is taken to exist: `get_relation` returning `None`, and the `AttributeError` that would follow, are not modelled.
- `_get_pod_ip` always returns a string (`str(...)`), so the model always puts the unit's own entry first; the `is not None` guards on it and on the peers' addresses always hold.
