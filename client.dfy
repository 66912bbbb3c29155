/**
 * The member registration client: URLs of a running etcd member's admin
 * API, the membership check, and the add-member call with its fixed backoff.
 * HTTP is injected: a ping outcome, a member list and the answers to the
 * add-member requests are parameters, and the requests issued and the
 * sleeps taken are returned.
 */
module Client {
  import opened Wrappers
  import opened Text

  const Protocol: string := "http"
  const VersionPath: string := "version"
  const MemberListPath: string := "v3/cluster/member/list"
  const MemberAddPath: string := "v3/cluster/member/add"
  /** Seconds the liveness probe waits for an answer. */
  const PingTimeout: nat := 3

  /**
   * A client of one member's admin API. `endpointStub` is a format
   * template with one `{0}` field, filled with a peer's IP.
   */
  datatype EtcdClient = EtcdClient(clientIp: string, clientPort: nat, endpointStub: string)

  /** One member in the answer to a member-list request. */
  datatype Member = Member(peerURLs: seq<string>)

  /** What the liveness probe's GET did: answered with some status code, or raised. */
  datatype PingOutcome = Responded(statusCode: nat) | RequestException

  /** The JSON object answering a member-add request; `error` is its `"error"` entry. */
  datatype AddResponse = AddResponse(error: Option<string>)

  /** An HTTP request issued by the client; a POST body is `{"peerURLs": urls}` when present. */
  datatype Request =
    | Get(url: string, timeout: nat)
    | Post(url: string, peerURLs: Option<seq<string>>)

  /**
   * The constructor. The stub is `'http://{0}' + ':{0}'.format(clusterPort)`:
   * the method call binds tighter than `+`, so only the right operand is
   * formatted and the stub keeps one `{0}` field for the IP.
   */
  function NewClient(clientIp: string, clientPort: nat, clusterPort: nat): (c: EtcdClient)
    ensures c.clientIp == clientIp && c.clientPort == clientPort
    ensures c.endpointStub == "http://{0}:" + DecimalString(clusterPort)
  {
    var portPart := Format(":{0}", DecimalString(clusterPort));
    assert portPart == ":" + DecimalString(clusterPort) by {
      FormatLiteral(":", "{0}", DecimalString(clusterPort));
      FormatField("", DecimalString(clusterPort));
      assert ":" + "{0}" == ":{0}";
      assert "{0}" + "" == "{0}";
    }
    EtcdClient(clientIp, clientPort, "http://{0}" + portPart)
  }

  /** The stub filled with a peer's IP: that peer's URL as etcd lists it. */
  function PeerUrl(c: EtcdClient, ip: string): string
  {
    Format(c.endpointStub, ip)
  }

  /** A stub built by the constructor renders an IP as `http://<ip>:<clusterPort>`. */
  lemma PeerUrlOfNewClient(clientIp: string, clientPort: nat, clusterPort: nat, ip: string)
    ensures PeerUrl(NewClient(clientIp, clientPort, clusterPort), ip) == "http://" + ip + ":" + DecimalString(clusterPort)
  {
    var d := DecimalString(clusterPort);
    var tail := ":" + d;
    var stub := NewClient(clientIp, clientPort, clusterPort).endpointStub;
    assert stub == "http://" + ("{0}" + tail);
    calc {
      Format(stub, ip);
      { FormatLiteral("http://", "{0}" + tail, ip); }
      "http://" + Format("{0}" + tail, ip);
      { FormatField(tail, ip); }
      "http://" + (ip + Format(tail, ip));
      { FormatLiteral(tail, "", ip); assert tail + "" == tail; }
      "http://" + (ip + (tail + Format("", ip)));
      "http://" + ip + ":" + d;
    }
  }

  /** `base_url`. */
  function BaseUrl(c: EtcdClient): string
  {
    Protocol + "://" + c.clientIp + ":" + DecimalString(c.clientPort)
  }

  /** For an IP without a colon, the base URL splits at its colons into scheme, host and a port that reads back as the client port. */
  lemma BaseUrlParts(c: EtcdClient)
    requires forall i :: 0 <= i < |c.clientIp| ==> c.clientIp[i] != ':'
    ensures Split(BaseUrl(c), ':') == ["http", "//" + c.clientIp, DecimalString(c.clientPort)]
    ensures ParseDecimal(Split(BaseUrl(c), ':')[2]) == c.clientPort
  {
    var d := DecimalString(c.clientPort);
    var host := "//" + c.clientIp;
    assert BaseUrl(c) == "http" + [':'] + (host + [':'] + d);
    SplitAtSeparator("http", ':', host + [':'] + d);
    SplitAtSeparator(host, ':', d);
    SplitNoSeparator(d, ':');
    ParseDecimalString(c.clientPort);
  }

  /** `endpoint(url)`: the base URL, one slash, and the path with at most one leading slash dropped. */
  function Endpoint(c: EtcdClient, url: string): (r: string)
    ensures |url| > 0 && url[0] == '/' ==> r == BaseUrl(c) + url
    ensures !(|url| > 0 && url[0] == '/') ==> r == BaseUrl(c) + "/" + url
  {
    var path := if |url| > 0 && url[0] == '/' then url[1..] else url;
    assert |url| > 0 && url[0] == '/' ==> url == "/" + path;
    BaseUrl(c) + "/" + path
  }

  /** A path and the same path behind one slash name the same endpoint; a second slash is kept. */
  lemma EndpointLeadingSlash(c: EtcdClient, path: string)
    ensures !(|path| > 0 && path[0] == '/') ==> Endpoint(c, "/" + path) == Endpoint(c, path)
    ensures Endpoint(c, "//" + path) == BaseUrl(c) + "//" + path
  {
    assert ("/" + path)[0] == '/';
    assert ("//" + path)[0] == '/';
    assert BaseUrl(c) + ("/" + path) == BaseUrl(c) + "/" + path;
    assert BaseUrl(c) + ("//" + path) == BaseUrl(c) + "//" + path;
  }

  /** `ping()`: a GET of `/version`; it reports success whenever the GET returns, whatever its status code. */
  method Ping(c: EtcdClient, outcome: PingOutcome) returns (alive: bool, request: Request)
    ensures request == Get(BaseUrl(c) + "/version", PingTimeout)
    ensures alive <==> outcome.Responded?
  {
    request := Get(Endpoint(c, VersionPath), PingTimeout);
    match outcome
    case Responded(_) => alive := true;
    case RequestException => alive := false;
  }

  /** `is_ip_registered(ip)` over the member list: does some member advertise the IP's peer URL? */
  function IsIpRegistered(c: EtcdClient, members: seq<Member>, ip: string): (r: bool)
    ensures r <==> exists i, j :: 0 <= i < |members| && 0 <= j < |members[i].peerURLs| && members[i].peerURLs[j] == PeerUrl(c, ip)
  {
    if members == [] then false
    else if PeerUrl(c, ip) in members[0].peerURLs then true
    else
      var rest := IsIpRegistered(c, members[1..], ip);
      assert forall i :: 1 <= i < |members| ==> members[i] == members[1..][i - 1];
      rest
  }

  /** `[x * x for x in range(lo, hi)]`. */
  function Squares(lo: nat, hi: nat): (s: seq<nat>)
    requires lo <= hi
    ensures |s| == hi - lo
    ensures forall i :: 0 <= i < |s| ==> s[i] == (lo + i) * (lo + i)
  {
    seq(hi - lo, i requires 0 <= i < hi - lo => (lo + i) * (lo + i))
  }

  /** The sleeps, in seconds, after each rejected add-member attempt. */
  function BackoffSchedule(): (s: seq<nat>)
    ensures s == [25, 36, 49, 64, 81]
  {
    Squares(5, 10)
  }

  /** An answer to an add-member request counts as a rejection when its `"error"` entry is truthy. */
  predicate IsRejected(r: AddResponse)
  {
    Truthy(r.error)
  }

  /** The index of the first accepted answer among the first `n`, or `n` when all of them are rejections. */
  function FirstAccepted(responses: seq<AddResponse>, n: nat): (k: nat)
    requires n <= |responses|
    ensures k <= n
    ensures forall i :: 0 <= i < k ==> IsRejected(responses[i])
    ensures k < n ==> !IsRejected(responses[k])
  {
    if n == 0 then 0
    else
      var k := FirstAccepted(responses, n - 1);
      if k < n - 1 || !IsRejected(responses[n - 1]) then k else n
  }

  /** When every one of the first `n` answers is a rejection, there is no accepted one. */
  lemma {:induction false} FirstAcceptedAllRejected(responses: seq<AddResponse>, n: nat)
    requires n <= |responses|
    requires forall i :: 0 <= i < n ==> IsRejected(responses[i])
    ensures FirstAccepted(responses, n) == n
  {
    if n > 0 {
      FirstAcceptedAllRejected(responses, n - 1);
    }
  }

  /** The first accepted answer is found at its own index. */
  lemma {:induction false} FirstAcceptedAt(responses: seq<AddResponse>, n: nat, k: nat)
    requires k < n <= |responses|
    requires forall i :: 0 <= i < k ==> IsRejected(responses[i])
    requires !IsRejected(responses[k])
    ensures FirstAccepted(responses, n) == k
  {
    if n - 1 > k {
      FirstAcceptedAt(responses, n - 1, k);
    } else {
      FirstAcceptedAllRejected(responses, k);
    }
  }

  /** Does `add_new_member` report success: the peer is listed already, or one of the five attempts is accepted. */
  predicate AddSucceeds(c: EtcdClient, peerIp: string, members: seq<Member>, responses: seq<AddResponse>)
    requires |responses| >= |BackoffSchedule()|
  {
    IsIpRegistered(c, members, peerIp) || FirstAccepted(responses, |BackoffSchedule()|) < |BackoffSchedule()|
  }

  /** How many add-member requests `add_new_member` issues. */
  function AddAttempts(c: EtcdClient, peerIp: string, members: seq<Member>, responses: seq<AddResponse>): nat
    requires |responses| >= |BackoffSchedule()|
  {
    var n := |BackoffSchedule()|;
    var k := FirstAccepted(responses, n);
    if IsIpRegistered(c, members, peerIp) then 0 else if k < n then k + 1 else n
  }

  /** The sleeps `add_new_member` takes: one per rejected attempt. */
  function AddSleeps(c: EtcdClient, peerIp: string, members: seq<Member>, responses: seq<AddResponse>): seq<nat>
    requires |responses| >= |BackoffSchedule()|
  {
    var k := FirstAccepted(responses, |BackoffSchedule()|);
    if IsIpRegistered(c, members, peerIp) then [] else BackoffSchedule()[..k]
  }

  /** A peer already listed is reported registered without any add-member request or sleep. */
  lemma AlreadyRegistered(c: EtcdClient, peerIp: string, members: seq<Member>, responses: seq<AddResponse>, i: nat, j: nat)
    requires |responses| >= |BackoffSchedule()|
    requires i < |members| && j < |members[i].peerURLs| && members[i].peerURLs[j] == PeerUrl(c, peerIp)
    ensures AddSucceeds(c, peerIp, members, responses)
    ensures AddAttempts(c, peerIp, members, responses) == 0 && AddSleeps(c, peerIp, members, responses) == []
  {
  }

  /**
   * When every answer is a rejection: five add-member requests, sleeps of
   * 25, 36, 49, 64 and 81 seconds (one after the last attempt too), failure.
   */
  lemma AllAttemptsRejected(c: EtcdClient, peerIp: string, members: seq<Member>, responses: seq<AddResponse>)
    requires |responses| >= |BackoffSchedule()|
    requires !IsIpRegistered(c, members, peerIp)
    requires forall i :: 0 <= i < |responses| ==> IsRejected(responses[i])
    ensures !AddSucceeds(c, peerIp, members, responses)
    ensures AddAttempts(c, peerIp, members, responses) == 5
    ensures AddSleeps(c, peerIp, members, responses) == [25, 36, 49, 64, 81]
  {
    FirstAcceptedAllRejected(responses, 5);
  }

  /**
   * When the first accepted answer is the k-th: k + 1 add-member requests,
   * the first k sleeps of the schedule, success.
   */
  lemma AcceptedAtAttempt(c: EtcdClient, peerIp: string, members: seq<Member>, responses: seq<AddResponse>, k: nat)
    requires |responses| >= |BackoffSchedule()|
    requires !IsIpRegistered(c, members, peerIp)
    requires k < 5
    requires forall i :: 0 <= i < k ==> IsRejected(responses[i])
    requires !IsRejected(responses[k])
    ensures AddSucceeds(c, peerIp, members, responses)
    ensures AddAttempts(c, peerIp, members, responses) == k + 1
    ensures AddSleeps(c, peerIp, members, responses) == [25, 36, 49, 64, 81][..k]
  {
    FirstAcceptedAt(responses, 5, k);
  }

  /** `get_member_list`'s request: a POST without a body to the member-list path under the base URL. */
  function MemberListRequest(c: EtcdClient): (r: Request)
    ensures r == Post(BaseUrl(c) + "/v3/cluster/member/list", None)
  {
    assert MemberListPath[0] != '/' && "/" + MemberListPath == "/v3/cluster/member/list";
    assert BaseUrl(c) + "/" + MemberListPath == BaseUrl(c) + ("/" + MemberListPath);
    Post(Endpoint(c, MemberListPath), None)
  }

  /** One add-member request: a POST to the member-add path whose body lists the peer's URL alone. */
  function MemberAddRequest(c: EtcdClient, peerIp: string): (r: Request)
    ensures r == Post(BaseUrl(c) + "/v3/cluster/member/add", Some([PeerUrl(c, peerIp)]))
  {
    assert MemberAddPath[0] != '/' && "/" + MemberAddPath == "/v3/cluster/member/add";
    assert BaseUrl(c) + "/" + MemberAddPath == BaseUrl(c) + ("/" + MemberAddPath);
    Post(Endpoint(c, MemberAddPath), Some([PeerUrl(c, peerIp)]))
  }

  /**
   * `add_new_member(peer_ip)`. `members` is the answer to the member-list
   * request and `responses[i]` the answer to the i-th add-member request
   * (the admin API answers each one). `requests` are the HTTP requests in
   * the order they are issued, `sleeps` the sleeps in the order taken.
   */
  method AddNewMember(c: EtcdClient, peerIp: string, members: seq<Member>, responses: seq<AddResponse>)
    returns (ok: bool, requests: seq<Request>, sleeps: seq<nat>)
    requires |responses| >= |BackoffSchedule()|
    ensures ok == AddSucceeds(c, peerIp, members, responses)
    ensures |requests| == 1 + AddAttempts(c, peerIp, members, responses)
    ensures requests[0] == MemberListRequest(c)
    ensures forall i :: 1 <= i < |requests| ==> requests[i] == MemberAddRequest(c, peerIp)
    ensures sleeps == AddSleeps(c, peerIp, members, responses)
  {
    requests := [MemberListRequest(c)];
    sleeps := [];
    if IsIpRegistered(c, members, peerIp) {
      return true, requests, sleeps;
    }
    var timeouts := BackoffSchedule();
    for i := 0 to |timeouts|
      invariant |requests| == 1 + i
      invariant requests[0] == MemberListRequest(c)
      invariant forall j :: 1 <= j < |requests| ==> requests[j] == MemberAddRequest(c, peerIp)
      invariant forall j :: 0 <= j < i ==> IsRejected(responses[j])
      invariant sleeps == timeouts[..i]
    {
      requests := requests + [MemberAddRequest(c, peerIp)];
      if IsRejected(responses[i]) {
        sleeps := sleeps + [timeouts[i]];
      } else {
        FirstAcceptedAt(responses, 5, i);
        return true, requests, sleeps;
      }
    }
    FirstAcceptedAllRejected(responses, 5);
    ok := false;
  }
}
