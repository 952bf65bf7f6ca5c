/** Route construction and verification of internal/multihop/route.go: 1 to 3
    hops, pairwise on distinct nodes, hosts and operator keys. */
module Routes {
  import opened Wrappers
  import opened Text

  datatype NodeInfo = NodeInfo(nodeID: string, wgPubKey: string, endpoint: string, country: string,
                               pricePerHour: real, load: real, latency: real, uptime: real, history: real)
  {
    /** Enough data to be dialled. */
    predicate Valid() {
      nodeID != "" && wgPubKey != "" && endpoint != ""
    }
  }

  datatype Hop = Hop(nodeID: string, country: string, endpoint: string, operatorKey: string, pricePerHour: real)

  datatype Route = Route(id: string, hops: seq<Hop>, entryPinned: bool)

  datatype Tradeoff = Fast | Balanced | Safe

  datatype BuildOptions = BuildOptions(maxHops: int, tradeoff: Tradeoff, maxLatencyMs: real, diverseCountries: bool)

  const DefaultOptions := BuildOptions(0, Balanced, 0.0, false)

  const FastLatencyBudgetMs: real := 150.0
  const SafeLatencyBudgetMs: real := 800.0

  datatype RouteError = NoHops | TooManyHops | InvalidHop | NotSeparated | OverBudget | SharedCountry
                      | NothingToRotate | BadReplacement | NeedsThreeHops | EmptyPool | PickFailed

  function EndpointHost(ep: string): string {
    match SplitHostPort(ep)
    case Some((host, _)) => Lower(Trim(host))
    case None => Lower(Trim(ep))
  }

  function CountryOf(n: NodeInfo): string {
    Upper(Trim(n.country))
  }

  /** Two hops that must not be in one route: same node, same box or same operator. */
  predicate Clash(a: NodeInfo, b: NodeInfo) {
    || a.nodeID == b.nodeID
    || EndpointHost(a.endpoint) == EndpointHost(b.endpoint)
    || (a.wgPubKey != "" && a.wgPubKey == b.wgPubKey)
  }

  predicate Separated(nodes: seq<NodeInfo>) {
    forall i, j :: 0 <= i < j < |nodes| ==> !Clash(nodes[i], nodes[j])
  }

  lemma {:induction false} SeparatedStep(nodes: seq<NodeInfo>, i: nat)
    requires i < |nodes| && Separated(nodes[..i])
    ensures Separated(nodes[..i + 1]) <==> forall j :: 0 <= j < i ==> !Clash(nodes[j], nodes[i])
    ensures Separated(nodes) ==> Separated(nodes[..i + 1])
  {
    hide Clash;
    var s := nodes[..i + 1];
    if Separated(s) {
      forall j | 0 <= j < i ensures !Clash(nodes[j], nodes[i]) { assert !Clash(s[j], s[i]); }
    }
    if forall j :: 0 <= j < i ==> !Clash(nodes[j], nodes[i]) {
      forall j, k | 0 <= j < k < |s| ensures !Clash(s[j], s[k]) {
        if k < i { assert !Clash(nodes[..i][j], nodes[..i][k]); }
      }
    }
  }

  /** Separation, one pass over the nodes with the ids, hosts and keys seen so far. */
  method CheckDistinct(nodes: seq<NodeInfo>) returns (ok: bool)
    ensures ok <==> Separated(nodes)
  {
    hide EndpointHost, Separated;
    var seenID, seenHost, seenKey := {}, {}, {};
    assert Separated(nodes[..0]) by { SeparatedNone(nodes); }
    for i := 0 to |nodes|
      invariant Separated(nodes[..i])
      invariant seenID == set j | 0 <= j < i :: nodes[j].nodeID
      invariant seenHost == set j | 0 <= j < i :: EndpointHost(nodes[j].endpoint)
      invariant seenKey == set j | 0 <= j < i && nodes[j].wgPubKey != "" :: nodes[j].wgPubKey
    {
      SeparatedStep(nodes, i);
      var n := nodes[i];
      var host := EndpointHost(n.endpoint);
      if n.nodeID in seenID || host in seenHost {
        return false;
      }
      if n.wgPubKey != "" {
        if n.wgPubKey in seenKey {
          return false;
        }
        seenKey := seenKey + {n.wgPubKey};
      }
      seenID, seenHost := seenID + {n.nodeID}, seenHost + {host};
    }
    assert nodes[..|nodes|] == nodes;
    return true;
  }

  lemma SeparatedNone(nodes: seq<NodeInfo>)
    ensures Separated(nodes[..0])
  {
  }

  function BudgetMs(o: BuildOptions): real {
    if o.maxLatencyMs > 0.0 then o.maxLatencyMs
    else match o.tradeoff
      case Fast => FastLatencyBudgetMs
      case Safe => SafeLatencyBudgetMs
      case Balanced => 0.0
  }

  predicate WithinBudget(n: NodeInfo, budget: real) {
    budget <= 0.0 || n.latency <= 0.0 || n.latency <= budget
  }

  function HopCap(maxHops: int): (r: int)
    ensures 1 <= r <= 3
  {
    if maxHops <= 0 || maxHops > 3 then 3 else maxHops
  }

  predicate DistinctCountries(nodes: seq<NodeInfo>) {
    forall i, j :: 0 <= i < j < |nodes| && CountryOf(nodes[i]) != "" ==> CountryOf(nodes[i]) != CountryOf(nodes[j])
  }

  /** The node lists that make a route under the options. */
  predicate Buildable(nodes: seq<NodeInfo>, o: BuildOptions) {
    && 1 <= |nodes| <= HopCap(o.maxHops)
    && (forall i :: 0 <= i < |nodes| ==> nodes[i].Valid() && WithinBudget(nodes[i], BudgetMs(o)))
    && Separated(nodes)
    && (o.diverseCountries ==> DistinctCountries(nodes))
  }

  /** The first reason against a route, in the order they are checked. */
  function Reason(nodes: seq<NodeInfo>, o: BuildOptions): (r: Option<RouteError>)
    ensures r.None? <==> Buildable(nodes, o)
  {
    if |nodes| == 0 then Some(NoHops)
    else if |nodes| > HopCap(o.maxHops) then Some(TooManyHops)
    else if exists i :: 0 <= i < |nodes| && !nodes[i].Valid() then Some(InvalidHop)
    else if !Separated(nodes) then Some(NotSeparated)
    else if exists i :: 0 <= i < |nodes| && !WithinBudget(nodes[i], BudgetMs(o)) then Some(OverBudget)
    else if o.diverseCountries && !DistinctCountries(nodes) then Some(SharedCountry)
    else None
  }

  /** Each refusal and what alone brings it. */
  lemma {:induction false} ReasonIff(nodes: seq<NodeInfo>, o: BuildOptions)
    ensures var r := Reason(nodes, o); var fits := 1 <= |nodes| <= (if 1 <= o.maxHops <= 3 then o.maxHops else 3);
            var valid := forall i :: 0 <= i < |nodes| ==> nodes[i].Valid();
            var apart := Separated(nodes);
            var close := forall i :: 0 <= i < |nodes| ==> WithinBudget(nodes[i], BudgetMs(o));
            && (r == Some(NoHops) <==> nodes == [])
            && (r == Some(TooManyHops) <==> nodes != [] && !fits)
            && (r == Some(InvalidHop) <==> fits && !valid)
            && (r == Some(NotSeparated) <==> fits && valid && !apart)
            && (r == Some(OverBudget) <==> fits && valid && apart && !close)
            && (r == Some(SharedCountry) <==>
                  fits && valid && apart && close && o.diverseCountries && !DistinctCountries(nodes))
  {
    hide Separated, WithinBudget, DistinctCountries;
  }

  /** Two nodes make a route exactly when both are complete and differ in id, in host and in key. */
  lemma {:induction false} PairIff(a: NodeInfo, b: NodeInfo)
    ensures Buildable([a, b], DefaultOptions) <==>
              && a.nodeID != "" && a.wgPubKey != "" && a.endpoint != ""
              && b.nodeID != "" && b.wgPubKey != "" && b.endpoint != ""
              && a.nodeID != b.nodeID && EndpointHost(a.endpoint) != EndpointHost(b.endpoint)
              && a.wgPubKey != b.wgPubKey
  {
    hide EndpointHost;
    var ns := [a, b];
    assert ns[0] == a && ns[1] == b;
  }

  /** One host under two ports, or in upper and lower case, is one box: it never serves two hops. */
  lemma {:induction false} OneBoxOneHop(nodes: seq<NodeInfo>, o: BuildOptions, i: nat, j: nat, h: string, p: string,
                                        g: string, q: string)
    requires i < j < |nodes| && nodes[i].endpoint == h + ":" + p && nodes[j].endpoint == g + ":" + q
    requires PlainHost(h) && PlainHost(p) && PlainHost(g) && PlainHost(q) && Lower(Trim(h)) == Lower(Trim(g))
    ensures !Buildable(nodes, o)
  {
    SplitHostPortOf(h, p);
    SplitHostPortOf(g, q);
    assert Clash(nodes[i], nodes[j]);
  }

  /** A single complete node makes a route exactly within the latency asked
      for, or the one of the tradeoff; a node without a latency always does. */
  lemma {:induction false} SingleIff(n: NodeInfo, o: BuildOptions)
    requires n.Valid()
    ensures Buildable([n], o) <==>
              || n.latency <= 0.0
              || (if o.maxLatencyMs > 0.0 then n.latency <= o.maxLatencyMs
                  else match o.tradeoff
                    case Fast => n.latency <= 150.0
                    case Safe => n.latency <= 800.0
                    case Balanced => true)
  {
    assert [n][0] == n;
  }

  /** Where countries must differ, one country in two spellings of its letters never serves two hops. */
  lemma {:induction false} OneCountryOneHop(nodes: seq<NodeInfo>, o: BuildOptions, i: nat, j: nat)
    requires i < j < |nodes| && o.diverseCountries
    requires Upper(Trim(nodes[i].country)) == Upper(Trim(nodes[j].country)) != ""
    ensures !Buildable(nodes, o)
  {
    hide Upper, Trim;
  }

  function HopOf(n: NodeInfo): Hop {
    Hop(n.nodeID, n.country, n.endpoint, n.wgPubKey, n.pricePerHour)
  }

  function HopsOf(nodes: seq<NodeInfo>): (r: seq<Hop>)
    ensures |r| == |nodes| && forall i :: 0 <= i < |nodes| ==> r[i] == HopOf(nodes[i])
  {
    seq(|nodes|, i requires 0 <= i < |nodes| => HopOf(nodes[i]))
  }

  lemma {:induction false} DiverseStep(nodes: seq<NodeInfo>, i: nat)
    requires i < |nodes| && DistinctCountries(nodes[..i])
    ensures DistinctCountries(nodes[..i + 1])
       <==> forall j :: 0 <= j < i && CountryOf(nodes[j]) != "" ==> CountryOf(nodes[j]) != CountryOf(nodes[i])
    ensures DistinctCountries(nodes) ==> DistinctCountries(nodes[..i + 1])
  {
    hide CountryOf;
    var s := nodes[..i + 1];
    if DistinctCountries(s) {
      forall j | 0 <= j < i && CountryOf(nodes[j]) != "" ensures CountryOf(nodes[j]) != CountryOf(nodes[i]) {
        assert CountryOf(s[j]) != CountryOf(s[i]);
      }
    }
    if forall j :: 0 <= j < i && CountryOf(nodes[j]) != "" ==> CountryOf(nodes[j]) != CountryOf(nodes[i]) {
      forall j, k | 0 <= j < k < |s| && CountryOf(s[j]) != "" ensures CountryOf(s[j]) != CountryOf(s[k]) {
        if k < i { assert nodes[..i][j] == s[j] && nodes[..i][k] == s[k]; }
      }
    }
  }

  method CheckDiverse(nodes: seq<NodeInfo>) returns (ok: bool)
    ensures ok <==> DistinctCountries(nodes)
  {
    hide CountryOf;
    var seen := {};
    for i := 0 to |nodes|
      invariant DistinctCountries(nodes[..i])
      invariant seen == set j | 0 <= j < i && CountryOf(nodes[j]) != "" :: CountryOf(nodes[j])
    {
      DiverseStep(nodes, i);
      var c := CountryOf(nodes[i]);
      if c == "" {
        continue;
      }
      if c in seen {
        return false;
      }
      seen := seen + {c};
    }
    assert nodes[..|nodes|] == nodes;
    return true;
  }

  /** A route over the nodes, under a fresh non-empty id, or the first reason against it. */
  method BuildRoute(nodes: seq<NodeInfo>, o: BuildOptions, id: string) returns (r: Result<Route, RouteError>)
    ensures r.Ok? <==> Buildable(nodes, o)
    ensures r.Ok? ==> r.value == Route(id, HopsOf(nodes), false)
    ensures r.Err? ==> Reason(nodes, o) == Some(r.error)
  {
    hide CountryOf, EndpointHost;
    if |nodes| == 0 {
      return Err(NoHops);
    }
    if |nodes| > HopCap(o.maxHops) {
      return Err(TooManyHops);
    }
    for i := 0 to |nodes|
      invariant forall j :: 0 <= j < i ==> nodes[j].Valid()
    {
      if !nodes[i].Valid() {
        return Err(InvalidHop);
      }
    }
    var distinct := CheckDistinct(nodes);
    if !distinct {
      return Err(NotSeparated);
    }
    var budget := BudgetMs(o);
    if budget > 0.0 {
      for i := 0 to |nodes|
        invariant forall j :: 0 <= j < i ==> WithinBudget(nodes[j], budget)
      {
        if nodes[i].latency > 0.0 && nodes[i].latency > budget {
          return Err(OverBudget);
        }
      }
    }
    if o.diverseCountries && |nodes| > 1 {
      var diverse := CheckDiverse(nodes);
      if !diverse {
        return Err(SharedCountry);
      }
    }
    return Ok(Route(id, HopsOf(nodes), false));
  }

  // ---------------------------------------------------------------- verification

  /** The dial data a hop carries over: country and price are not carried. */
  function NodeOf(h: Hop): NodeInfo {
    NodeInfo(h.nodeID, h.operatorKey, h.endpoint, "", 0.0, 0.0, 0.0, 0.0, 0.0)
  }

  function NodesOf(hops: seq<Hop>): (r: seq<NodeInfo>)
    ensures |r| == |hops| && forall i :: 0 <= i < |hops| ==> r[i] == NodeOf(hops[i])
  {
    seq(|hops|, i requires 0 <= i < |hops| => NodeOf(hops[i]))
  }

  predicate AllKeyed(hops: seq<Hop>) {
    forall i :: 0 <= i < |hops| ==> hops[i].operatorKey != ""
  }

  /** Separation without the key leg, for routes stored before keys were recorded. */
  predicate SeparatedUnkeyed(nodes: seq<NodeInfo>) {
    forall i, j :: 0 <= i < j < |nodes| ==> Apart(nodes[i], nodes[j])
  }

  predicate Apart(a: NodeInfo, b: NodeInfo) {
    && a.nodeID != b.nodeID
    && (EndpointHost(a.endpoint) != "" ==> EndpointHost(a.endpoint) != EndpointHost(b.endpoint))
  }

  /** What Verify accepts. */
  predicate Verified(r: Route) {
    && r.id != "" && 1 <= |r.hops| <= 3
    && (forall i :: 0 <= i < |r.hops| ==> r.hops[i].nodeID != "" && r.hops[i].endpoint != "")
    && (if AllKeyed(r.hops) then Separated(NodesOf(r.hops)) else SeparatedUnkeyed(NodesOf(r.hops)))
  }

  lemma {:induction false} UnkeyedStep(nodes: seq<NodeInfo>, i: nat)
    requires i < |nodes| && SeparatedUnkeyed(nodes[..i])
    ensures SeparatedUnkeyed(nodes[..i + 1]) <==> forall j :: 0 <= j < i ==> Apart(nodes[j], nodes[i])
    ensures SeparatedUnkeyed(nodes) ==> SeparatedUnkeyed(nodes[..i + 1])
  {
    hide Apart;
    var s := nodes[..i + 1];
    if SeparatedUnkeyed(s) {
      forall j | 0 <= j < i ensures Apart(nodes[j], nodes[i]) { assert Apart(s[j], s[i]); }
    }
    if forall j :: 0 <= j < i ==> Apart(nodes[j], nodes[i]) {
      forall j, k | 0 <= j < k < |s| ensures Apart(s[j], s[k]) {
        if k < i { assert Apart(nodes[..i][j], nodes[..i][k]); }
      }
    }
  }

  method CheckUnkeyed(nodes: seq<NodeInfo>) returns (ok: bool)
    ensures ok <==> SeparatedUnkeyed(nodes)
  {
    hide EndpointHost;
    var seenID, seenHost := {}, {};
    for i := 0 to |nodes|
      invariant SeparatedUnkeyed(nodes[..i])
      invariant seenID == set j | 0 <= j < i :: nodes[j].nodeID
      invariant seenHost ==
                  set j | 0 <= j < i && EndpointHost(nodes[j].endpoint) != "" :: EndpointHost(nodes[j].endpoint)
    {
      UnkeyedStep(nodes, i);
      var n := nodes[i];
      if n.nodeID in seenID {
        return false;
      }
      seenID := seenID + {n.nodeID};
      var host := EndpointHost(n.endpoint);
      if host != "" {
        if host in seenHost {
          return false;
        }
        seenHost := seenHost + {host};
      }
    }
    assert nodes[..|nodes|] == nodes;
    return true;
  }

  method Verify(r: Route) returns (ok: bool)
    ensures ok <==> Verified(r)
  {
    if r.id == "" || |r.hops| == 0 || |r.hops| > 3 {
      return false;
    }
    var full := true;
    for i := 0 to |r.hops|
      invariant forall j :: 0 <= j < i ==> r.hops[j].nodeID != "" && r.hops[j].endpoint != ""
      invariant full <==> AllKeyed(r.hops[..i])
    {
      if r.hops[i].nodeID == "" || r.hops[i].endpoint == "" {
        return false;
      }
      if r.hops[i].operatorKey == "" {
        full := false;
      }
    }
    assert r.hops[..|r.hops|] == r.hops;
    if full {
      ok := CheckDistinct(NodesOf(r.hops));
    } else {
      ok := CheckUnkeyed(NodesOf(r.hops));
    }
  }

  /** Two hops verify exactly when both can be dialled and they differ in id,
      in host and in key; without a key on both, in id and in any known host. */
  lemma {:induction false} VerifiedPairIff(id: string, a: Hop, b: Hop, pinned: bool)
    ensures Verified(Route(id, [a, b], pinned)) <==>
              && id != "" && a.nodeID != "" && a.endpoint != "" && b.nodeID != "" && b.endpoint != ""
              && a.nodeID != b.nodeID
              && (if a.operatorKey != "" && b.operatorKey != ""
                  then EndpointHost(a.endpoint) != EndpointHost(b.endpoint) && a.operatorKey != b.operatorKey
                  else EndpointHost(a.endpoint) == "" || EndpointHost(a.endpoint) != EndpointHost(b.endpoint))
  {
    hide EndpointHost;
    var hops := [a, b];
    assert hops[0] == a && hops[1] == b;
    assert NodesOf(hops)[0] == NodeOf(a) && NodesOf(hops)[1] == NodeOf(b);
  }

  /** Every built route verifies, and a fully keyed verified route can be built again. */
  lemma {:induction false} BuiltVerifies(nodes: seq<NodeInfo>, o: BuildOptions, id: string, pinned: bool)
    requires Buildable(nodes, o) && id != ""
    ensures Verified(Route(id, HopsOf(nodes), pinned))
    ensures Buildable(NodesOf(HopsOf(nodes)), DefaultOptions)
  {
    hide EndpointHost;
    var hops := HopsOf(nodes);
    forall i, j | 0 <= i < j < |nodes| ensures !Clash(NodeOf(hops[i]), NodeOf(hops[j])) {
      assert !Clash(nodes[i], nodes[j]);
    }
  }
}
