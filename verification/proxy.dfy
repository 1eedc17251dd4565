/**
 * The Gateway (core/proxy.py): the live route map, the index of the active backend node and
 * the per-client reputation scores; the rotation step that re-runs the mutator and moves to
 * the next node; and the per-request decision between forwarding and deception.
 *
 * What the mutator, the state file and the upstream node answer are inputs: a
 * `MutationOutcome` for each call of run_mutation, the map read back by
 * load_state_from_tmp, and a `ForwardOutcome` for the forwarded request.
 */
module Proxy {
  import opened Wrappers
  import Mutator

  datatype Node = Node(name: string, url: string)

  /** The backend nodes, in rotation order. */
  const Nodes: seq<Node> := [Node("ALPHA", "http://127.0.0.1:8001"), Node("BETA", "http://127.0.0.1:8002")]
  /** The client address used when the request carries none. */
  const DefaultClientIp: string := "127.0.0.1"
  const DeceptionStatus: int := 200
  const SyncErrorStatus: int := 503

  /** The JSON objects the gateway writes itself. */
  datatype Json = JStr(s: string) | JObj(members: seq<(string, Json)>)

  /** FAKE_DB: the deception payload, a plausible privileged success. */
  const FakeDb: Json := JObj([
    ("status", JStr("CRITICAL_SUCCESS")),
    ("user_data", JObj([
      ("username", JStr("admin_root")),
      ("permissions", JStr("UNLIMITED")),
      ("account_flag", JStr("TRAP_DOOR_ACTIVATED_IP_LOGGED"))])),
    ("system_message", JStr("Root access granted. Downloading database..."))
  ])

  /** The fixed body of a failed forward. */
  const NodeSyncError: Json := JObj([("error", JStr("Node Sync Error"))])

  /** A response body: one the gateway composes, or the upstream's content passed through. */
  datatype Body = Payload(json: Json) | Relayed(content: string)

  datatype Response = Response(status: int, body: Body)

  /** What a call of run_mutation did: returned a route map (possibly empty), or raised. */
  datatype MutationOutcome = Returned(routeMap: map<string, string>) | Raised

  /** What forwarding to the node did: the upstream answered, or something along the way raised. */
  datatype ForwardOutcome = Answered(status: int, content: string) | Failed

  /** An inbound request: method, the path after the leading "/", client host, headers in order. */
  datatype Request = Request(verb: string, pathName: string, clientHost: Option<string>, headers: seq<(string, string)>)

  /** The request sent to the active node. */
  datatype Forward = Forward(verb: string, url: string, headers: map<string, string>)

  /** What handling one request did besides changing the gateway's state. */
  datatype Handled = Handled(response: Response, forwarded: Option<Forward>, jitter: bool, trapDelay: bool)

  /** The gateway's routing decision for one path. */
  datatype Decision = Hit(targetUrl: string) | Miss

  // ---------------------------------------------------------------------------
  // Pure pieces of request handling

  /** original_path: the route path the client asked for. */
  function OriginalPath(pathName: string): (p: string)
    ensures |p| == |pathName| + 1 && p[0] == '/' && p[1..] == pathName
  {
    "/" + pathName
  }

  /** `request.client.host or "127.0.0.1"`: an absent or empty host counts as the default. */
  function ClientIp(host: Option<string>): (ip: string)
    ensures ip != ""
    ensures host.Some? && host.value != "" ==> ip == host.value
    ensures host.None? || host.value == "" ==> ip == DefaultClientIp
  {
    if host.Some? && host.value != "" then host.value else DefaultClientIp
  }

  /** `ip_reputation.get(ip, 0)`. */
  function Score(reputation: map<string, nat>, ip: string): (s: nat)
    ensures ip !in reputation ==> s == 0
    ensures ip in reputation ==> s == reputation[ip]
    ensures s > 0 ==> ip in reputation
  {
    if ip in reputation then reputation[ip] else 0
  }

  /** The reputation after one miss from `ip`: that client's score goes up by one, nobody else's moves. */
  function Penalize(reputation: map<string, nat>, ip: string): (r: map<string, nat>)
    ensures r.Keys == reputation.Keys + {ip}
    ensures Score(r, ip) == Score(reputation, ip) + 1
    ensures forall other :: other != ip ==> Score(r, other) == Score(reputation, other)
  {
    reputation[ip := Score(reputation, ip) + 1]
  }

  /** Hit when the path is a key of the route map: the node's base URL followed by the mapped path. */
  function Decide(mapping: map<string, string>, path: string, node: Node): (d: Decision)
    ensures d.Hit? <==> path in mapping
    ensures d.Hit? ==> (&& |d.targetUrl| == |node.url| + |mapping[path]|
                        && d.targetUrl[..|node.url|] == node.url
                        && d.targetUrl[|node.url|..] == mapping[path])
  {
    if path in mapping then Hit(node.url + mapping[path]) else Miss
  }

  /** The response to a forwarded request: the upstream's status and content, or 503 with the fixed error. */
  function Reply(outcome: ForwardOutcome): (r: Response)
    ensures outcome.Answered? ==> r == Response(outcome.status, Relayed(outcome.content))
    ensures outcome.Failed? ==> r.status == SyncErrorStatus && r.body == Payload(NodeSyncError)
  {
    match outcome
    case Answered(status, content) => Response(status, Relayed(content))
    case Failed => Response(SyncErrorStatus, Payload(NodeSyncError))
  }

  /** ASCII lower-casing of one character. */
  function LowerChar(c: char): char {
    if 'A' <= c <= 'Z' then (c as int - 'A' as int + 'a' as int) as char else c
  }

  function Lower(s: string): (r: string)
    ensures |r| == |s| && forall i :: 0 <= i < |s| ==> r[i] == LowerChar(s[i])
  {
    seq(|s|, i requires 0 <= i < |s| => LowerChar(s[i]))
  }

  /** A header the gateway passes on: anything but Host and Content-Length, in any case. */
  predicate Forwardable(name: string) {
    Lower(name) != "host" && Lower(name) != "content-length"
  }

  /**
   * The dict comprehension over request.headers.items(): the forwardable pairs, in order,
   * a later pair with the same name overwriting an earlier one.
   */
  function FilterHeaders(headers: seq<(string, string)>): (r: map<string, string>)
    ensures forall k :: k in r ==> Forwardable(k)
  {
    if headers == [] then map[]
    else
      var r := FilterHeaders(headers[..|headers| - 1]);
      var (k, v) := headers[|headers| - 1];
      if Forwardable(k) then r[k := v] else r
  }

  /** A name is forwarded exactly when it is forwardable and some request header carries it. */
  lemma {:induction false} FilterHeadersKeys(headers: seq<(string, string)>, k: string)
    ensures k in FilterHeaders(headers) <==> Forwardable(k) && exists i :: 0 <= i < |headers| && headers[i].0 == k
  {
    if headers != [] {
      var init := headers[..|headers| - 1];
      FilterHeadersKeys(init, k);
      if Forwardable(k) && exists i :: 0 <= i < |headers| && headers[i].0 == k {
        var i :| 0 <= i < |headers| && headers[i].0 == k;
        if i < |headers| - 1 {
          assert init[i].0 == k;
        }
      }
      if exists i :: 0 <= i < |init| && init[i].0 == k {
        var i :| 0 <= i < |init| && init[i].0 == k;
        assert headers[i].0 == k;
      }
    }
  }

  /** A forwardable header keeps the value of its last occurrence in the request. */
  lemma {:induction false} FilterHeadersValue(headers: seq<(string, string)>, i: nat)
    requires i < |headers| && Forwardable(headers[i].0)
    requires forall j :: i < j < |headers| ==> headers[j].0 != headers[i].0
    ensures headers[i].0 in FilterHeaders(headers) && FilterHeaders(headers)[headers[i].0] == headers[i].1
  {
    if i < |headers| - 1 {
      FilterHeadersValue(headers[..|headers| - 1], i);
    }
  }

  // ---------------------------------------------------------------------------
  // Rotation, as specification functions over a sequence of cycles

  /** The node index after n rotation steps from `start`. */
  function RotatedIndex(start: nat, n: nat): (i: nat)
    ensures n == 0 ==> i == start
    ensures n > 0 ==> i < |Nodes|
  {
    if n == 0 then start else (RotatedIndex(start, n - 1) + 1) % |Nodes|
  }

  /** After n steps from a valid index the index is (start + n) mod |Nodes|; from 0 it is n mod |Nodes|. */
  lemma {:induction false} RotationIsModular(start: nat, n: nat)
    requires start < |Nodes|
    ensures RotatedIndex(start, n) == (start + n) % |Nodes| < |Nodes|
    ensures start == 0 ==> RotatedIndex(start, n) == n % |Nodes|
  {
    if n > 0 {
      RotationIsModular(start, n - 1);
      var prev := (start + n - 1) % |Nodes|;
      assert (start + n - 1) == ((start + n - 1) / |Nodes|) * |Nodes| + prev;
    }
  }

  /** The route map after a sequence of rotations: each returned map replaces it whole; a raise keeps it. */
  function MappingAfter(mapping: map<string, string>, outcomes: seq<MutationOutcome>): (r: map<string, string>)
    ensures r == mapping || exists k :: 0 <= k < |outcomes| && outcomes[k] == Returned(r)
  {
    if outcomes == [] then mapping
    else
      match outcomes[|outcomes| - 1]
      case Returned(m) => m
      case Raised => MappingAfter(mapping, outcomes[..|outcomes| - 1])
  }

  /** When every cycle's mutation raised, the route map is the one the gateway started with. */
  lemma {:induction false} AllRaisedKeepsMapping(mapping: map<string, string>, outcomes: seq<MutationOutcome>)
    requires forall k :: 0 <= k < |outcomes| ==> outcomes[k].Raised?
    ensures MappingAfter(mapping, outcomes) == mapping
  {
    if outcomes != [] {
      AllRaisedKeepsMapping(mapping, outcomes[..|outcomes| - 1]);
    }
  }

  /**
   * The route map after the rotations is the one the latest returning cycle produced (even an
   * empty one, which a missing template gives), with raising cycles after it ignored.
   */
  lemma {:induction false} LatestReturnedWins(mapping: map<string, string>, outcomes: seq<MutationOutcome>, k: nat)
    requires k < |outcomes| && outcomes[k].Returned?
    requires forall j :: k < j < |outcomes| ==> outcomes[j].Raised?
    ensures MappingAfter(mapping, outcomes) == outcomes[k].routeMap
    decreases |outcomes|
  {
    if k < |outcomes| - 1 {
      LatestReturnedWins(mapping, outcomes[..|outcomes| - 1], k);
    }
  }

  // ---------------------------------------------------------------------------
  // The gateway's state, as the source keeps it in module globals

  class Gateway {
    var currentMapping: map<string, string>
    var currentNodeIndex: nat
    var ipReputation: map<string, nat>

    /** The active index names a node; a client is only scored once it has missed at least once. */
    ghost predicate Valid()
      reads this
    {
      && currentNodeIndex < |Nodes|
      && forall ip :: ip in ipReputation ==> ipReputation[ip] >= 1
    }

    /** Module load: empty map, node ALPHA, nobody scored. */
    constructor ()
      ensures Valid()
      ensures currentMapping == map[] && currentNodeIndex == 0 && ipReputation == map[]
    {
      currentMapping := map[];
      currentNodeIndex := 0;
      ipReputation := map[];
    }

    function ActiveNode(): (n: Node)
      reads this
      requires Valid()
      ensures n in Nodes
    {
      Nodes[currentNodeIndex]
    }

    /**
     * start_engine: the stored state when it is non-empty, otherwise the mutator's result;
     * a raising mutator leaves the (empty) stored state in place.
     */
    method StartEngine(stored: map<string, string>, startup: MutationOutcome)
      requires Valid()
      modifies this
      ensures Valid()
      ensures stored != map[] ==> currentMapping == stored
      ensures stored == map[] && startup.Returned? ==> currentMapping == startup.routeMap
      ensures stored == map[] && startup.Raised? ==> currentMapping == map[]
      ensures currentNodeIndex == old(currentNodeIndex) && ipReputation == old(ipReputation)
    {
      currentMapping := stored;
      if currentMapping == map[] && startup.Returned? {
        currentMapping := startup.routeMap;
      }
    }

    /** One cycle of mutation_loop after its sleep: swap the map if the mutator returned, then advance the node. */
    method RotateStep(outcome: MutationOutcome)
      requires Valid()
      modifies this
      ensures Valid()
      ensures currentNodeIndex == (old(currentNodeIndex) + 1) % |Nodes|
      ensures currentMapping == MappingAfter(old(currentMapping), [outcome])
      ensures ipReputation == old(ipReputation)
    {
      if outcome.Returned? {
        currentMapping := outcome.routeMap;
      }
      currentNodeIndex := (currentNodeIndex + 1) % |Nodes|;
    }

    /** mutation_loop, run for as many cycles as there are outcomes. */
    method MutationLoop(outcomes: seq<MutationOutcome>)
      requires Valid()
      modifies this
      ensures Valid()
      ensures currentNodeIndex == RotatedIndex(old(currentNodeIndex), |outcomes|)
      ensures currentMapping == MappingAfter(old(currentMapping), outcomes)
      ensures ipReputation == old(ipReputation)
    {
      var k := 0;
      while k < |outcomes|
        invariant 0 <= k <= |outcomes|
        invariant Valid()
        invariant currentNodeIndex == RotatedIndex(old(currentNodeIndex), k)
        invariant currentMapping == MappingAfter(old(currentMapping), outcomes[..k])
        invariant ipReputation == old(ipReputation)
      {
        assert outcomes[..k + 1][..k] == outcomes[..k];
        RotateStep(outcomes[k]);
        k := k + 1;
      }
      assert outcomes[..k] == outcomes;
    }

    /**
     * gateway: one request. The node is the one active when the request arrives; a scored client
     * is delayed first; an empty route map is reloaded from the stored state; then a mapped path
     * is forwarded and an unmapped one is answered with the deception payload and penalized.
     */
    method HandleRequest(req: Request, stored: map<string, string>, forward: ForwardOutcome) returns (h: Handled)
      requires Valid()
      modifies this
      ensures Valid()
      ensures var path := OriginalPath(req.pathName);
              var ip := ClientIp(req.clientHost);
              var node := old(ActiveNode());
              var mapping := if old(currentMapping) == map[] then stored else old(currentMapping);
              && currentMapping == mapping
              && currentNodeIndex == old(currentNodeIndex)
              && h.jitter == (Score(old(ipReputation), ip) > 0)
              && (path in mapping ==>
                    && ipReputation == old(ipReputation)
                    && h.forwarded == Some(Forward(req.verb, node.url + mapping[path], FilterHeaders(req.headers)))
                    && h.response == Reply(forward)
                    && !h.trapDelay)
              && (path !in mapping ==>
                    && ipReputation == Penalize(old(ipReputation), ip)
                    && h.forwarded == None
                    && h.response == Response(DeceptionStatus, Payload(FakeDb))
                    && h.trapDelay)
    {
      var originalPath := OriginalPath(req.pathName);
      var targetNode := ActiveNode();
      var clientIp := ClientIp(req.clientHost);
      var jitter := Score(ipReputation, clientIp) > 0;
      if currentMapping == map[] {
        currentMapping := stored;
      }
      match Decide(currentMapping, originalPath, targetNode)
      case Hit(targetUrl) =>
        var sent := Forward(req.verb, targetUrl, FilterHeaders(req.headers));
        return Handled(Reply(forward), Some(sent), jitter, false);
      case Miss =>
        ipReputation := Penalize(ipReputation, clientIp);
        return Handled(Response(DeceptionStatus, Payload(FakeDb)), None, jitter, true);
    }
  }

  // ---------------------------------------------------------------------------
  // Connecting the gateway with the mutator

  /**
   * With a route map the mutator produced, a hit on "/" goes to the node's "/", and a hit on any
   * other original path goes to that path plus "_" and a chaos suffix, never to the path itself.
   */
  lemma HitTargetsMutatedRoute(mapping: map<string, string>, path: string, node: Node)
    requires Mutator.WellFormedRouteMap(mapping) && path in mapping
    ensures var d := Decide(mapping, path, node);
            && d.Hit?
            && (path == Mutator.RootPath ==> d.targetUrl == node.url + "/")
            && (path != Mutator.RootPath ==>
                  && d.targetUrl[..|node.url| + |path|] == node.url + path
                  && d.targetUrl != node.url + path
                  && Mutator.IsChaosString(d.targetUrl[|node.url| + |path| + 1..], Mutator.ChaosLength))
  {
    var d := Decide(mapping, path, node);
    if path != Mutator.RootPath {
      var q := mapping[path];
      assert d.targetUrl == node.url + q;
      assert d.targetUrl[..|node.url| + |path|] == node.url + q[..|path|];
      assert d.targetUrl[|node.url| + |path| + 1..] == q[|path| + 1..];
      assert |d.targetUrl| != |node.url + path|;
    }
  }
}
