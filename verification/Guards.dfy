/** Guard-aware rotation of internal/multihop/guards.go, over whole runs with
    an arbitrary pool and an arbitrary picker at every step. */
module Guards {
  import opened Wrappers
  import opened Routes

  /** Nanoseconds; None is the zero time. */
  type Time = int

  /** Thirty days. */
  const DefaultInterval: int := 30 * 24 * 3600 * 1_000_000_000

  /** The sticky entry record. */
  datatype GuardSet = GuardSet(entryID: string, pinnedAt: Option<Time>, interval: int, pinned: bool) {
    /** Guards: the entry is pinned to this one, at any age. */
    predicate Pins(r: Route) {
      pinned && r.hops != [] && entryID == r.hops[0].nodeID
    }

    /** The lifetime elapsed and the entry may be replaced. */
    predicate ShouldRotate(now: Time) {
      pinned && entryID != "" &&
      (pinnedAt.None? || now >= pinnedAt.value + if interval <= 0 then DefaultInterval else interval)
    }

    /** What the comment on Guards promises: pinned to this entry and not yet due. */
    predicate PinsUntilDue(r: Route, now: Time) {
      Pins(r) && !ShouldRotate(now)
    }
  }

  const NoGuard := GuardSet("", None, 0, false)

  function PinGuard(entry: NodeInfo, now: Time): GuardSet {
    GuardSet(entry.nodeID, Some(now), DefaultInterval, entry.nodeID != "")
  }

  /** A fresh guard pins exactly the routes that start at its entry, and never without an id. */
  lemma {:induction false} FreshGuardPins(entry: NodeInfo, now: Time, r: Route)
    ensures PinGuard(entry, now).Pins(r) <==>
              r.hops != [] && r.hops[0].nodeID == entry.nodeID && entry.nodeID != ""
    ensures !NoGuard.Pins(r)
  {
  }

  type Rotation = Result<Route, RouteError>

  function Rebuilt(nodes: seq<NodeInfo>, id: string, pinned: bool): Rotation {
    match Reason(nodes, DefaultOptions)
    case Some(e) => Err(e)
    case None => Ok(Route(id, HopsOf(nodes), pinned))
  }

  /** Swaps the exit and keeps every hop before it; a single hop is replaced. */
  function RotateExit(r: Route, newExit: NodeInfo, id: string): Rotation {
    if r.hops == [] then Err(NothingToRotate)
    else if !newExit.Valid() then Err(BadReplacement)
    else if |r.hops| == 1 then Rebuilt([newExit], id, false)
    else Rebuilt(NodesOf(r.hops[..|r.hops| - 1]) + [newExit], id, true)
  }

  /** Swaps middle and exit of a 3-hop route and keeps the entry. */
  function RotateDownstream(r: Route, newMiddle: NodeInfo, newExit: NodeInfo, id: string): Rotation {
    if |r.hops| != 3 then Err(NeedsThreeHops)
    else if !newMiddle.Valid() || !newExit.Valid() then Err(BadReplacement)
    else Rebuilt([NodeOf(r.hops[0]), newMiddle, newExit], id, true)
  }

  /** Replaces the whole path; the pin survives only with the entry. */
  function RotateAll(r: Route, nodes: seq<NodeInfo>, id: string): Rotation {
    match Rebuilt(nodes, id, false)
    case Err(e) => Err(e)
    case Ok(next) =>
      if r.hops != [] && next.hops != [] && next.hops[0].nodeID == r.hops[0].nodeID
      then Ok(next.(entryPinned := r.entryPinned)) else Ok(next)
  }

  // ---------------------------------------------------------------- one guarded step

  function Eligible(pool: seq<NodeInfo>): seq<NodeInfo> {
    if pool == [] then []
    else
      var init, n := Eligible(pool[..|pool| - 1]), pool[|pool| - 1];
      if n.Valid() then init + [n] else init
  }

  function Exclude(pool: seq<NodeInfo>, skip: set<string>): seq<NodeInfo> {
    if pool == [] then []
    else
      var init, n := Exclude(pool[..|pool| - 1], skip), pool[|pool| - 1];
      if n.nodeID !in skip then init + [n] else init
  }

  /** The selection function: its answer may depend on how often it was asked
      and need not come from the pool it is given. */
  type Picker = (nat, seq<NodeInfo>) -> Option<NodeInfo>

  function Ids(r: Route): set<string> {
    set i | 0 <= i < |r.hops| :: r.hops[i].nodeID
  }

  /** Picks from call number k on until n nodes are picked. */
  function PickPath(pick: Picker, pool: seq<NodeInfo>, taken: set<string>, k: nat, n: nat): Option<seq<NodeInfo>>
    decreases n - k
  {
    if k >= n then Some([])
    else match pick(k, Exclude(pool, taken))
      case None => None
      case Some(x) =>
        match PickPath(pick, pool, taken + {x.nodeID}, k + 1, n)
        case None => None
        case Some(rest) => Some([x] + rest)
  }

  /** The downstream replacement while the guard pins the entry. */
  function RotatePinned(cur: Route, eligible: seq<NodeInfo>, pick: Picker, id: string): Rotation {
    match pick(0, Exclude(eligible, Ids(cur)))
    case None => Err(PickFailed)
    case Some(first) =>
      if |cur.hops| <= 2 then RotateExit(cur, first, id)
      else match pick(1, Exclude(eligible, Ids(cur) + {first.nodeID}))
        case None => Err(PickFailed)
        case Some(exit) => RotateDownstream(cur, first, exit, id)
  }

  /** One guard-aware rotation against a pool. */
  function Rotated(cur: Route, pool: seq<NodeInfo>, g: Option<GuardSet>, pick: Picker, id: string): Rotation {
    var eligible := Eligible(pool);
    if cur.hops == [] then Err(NothingToRotate)
    else if eligible == [] then Err(EmptyPool)
    else if g.Some? && g.value.Pins(cur) then RotatePinned(cur, eligible, pick, id)
    else match PickPath(pick, eligible, {}, 0, |cur.hops|)
      case None => Err(PickFailed)
      case Some(nodes) => RotateAll(cur, nodes, id)
  }

  method FilterEligible(pool: seq<NodeInfo>) returns (out: seq<NodeInfo>)
    ensures out == Eligible(pool)
  {
    out := [];
    for i := 0 to |pool|
      invariant out == Eligible(pool[..i])
    {
      assert pool[..i + 1][..i] == pool[..i];
      if pool[i].Valid() {
        out := out + [pool[i]];
      }
    }
    assert pool[..|pool|] == pool;
  }

  method ExcludeNodes(pool: seq<NodeInfo>, skip: set<string>) returns (out: seq<NodeInfo>)
    ensures out == Exclude(pool, skip)
  {
    out := [];
    for i := 0 to |pool|
      invariant out == Exclude(pool[..i], skip)
    {
      assert pool[..i + 1][..i] == pool[..i];
      if pool[i].nodeID !in skip {
        out := out + [pool[i]];
      }
    }
    assert pool[..|pool|] == pool;
  }

  function Onto(picked: seq<NodeInfo>, rest: Option<seq<NodeInfo>>): Option<seq<NodeInfo>> {
    if rest.Some? then Some(picked + rest.value) else None
  }

  method PickFresh(pick: Picker, pool: seq<NodeInfo>, n: nat) returns (r: Option<seq<NodeInfo>>)
    ensures r == PickPath(pick, pool, {}, 0, n)
  {
    ghost var all := PickPath(pick, pool, {}, 0, n);
    var picked: seq<NodeInfo>, taken := [], {};
    assert all.Some? ==> [] + all.value == all.value;
    for k := 0 to n
      invariant all == Onto(picked, PickPath(pick, pool, taken, k, n))
    {
      var rest := ExcludeNodes(pool, taken);
      var x := pick(k, rest);
      if x.None? {
        return None;
      }
      ghost var tail := PickPath(pick, pool, taken + {x.value.nodeID}, k + 1, n);
      assert tail.Some? ==> picked + ([x.value] + tail.value) == picked + [x.value] + tail.value;
      taken := taken + {x.value.nodeID};
      picked := picked + [x.value];
    }
    assert picked + [] == picked;
    return Some(picked);
  }

  method RotateGuarded(cur: Route, pool: seq<NodeInfo>, g: Option<GuardSet>, pick: Picker, id: string)
    returns (r: Rotation)
    ensures r == Rotated(cur, pool, g, pick, id)
  {
    hide Reason, HopsOf;
    if cur.hops == [] {
      return Err(NothingToRotate);
    }
    var eligible := FilterEligible(pool);
    if |eligible| == 0 {
      return Err(EmptyPool);
    }
    if g.Some? && g.value.Pins(cur) {
      var kept := Ids(cur);
      var rest := ExcludeNodes(eligible, kept);
      var first := pick(0, rest);
      if first.None? {
        return Err(PickFailed);
      }
      if |cur.hops| <= 2 {
        return RotateExit(cur, first.value, id);
      }
      rest := ExcludeNodes(eligible, kept + {first.value.nodeID});
      var exit := pick(1, rest);
      if exit.None? {
        return Err(PickFailed);
      }
      return RotateDownstream(cur, first.value, exit.value, id);
    }
    var nodes := PickFresh(pick, eligible, |cur.hops|);
    if nodes.None? {
      return Err(PickFailed);
    }
    return RotateAll(cur, nodes.value, id);
  }

  // ---------------------------------------------------------------- properties of one step

  /** Same node, key and endpoint at the entry. */
  predicate SameEntry(a: Route, b: Route) {
    && a.hops != [] && b.hops != []
    && a.hops[0].nodeID == b.hops[0].nodeID
    && a.hops[0].operatorKey == b.hops[0].operatorKey
    && a.hops[0].endpoint == b.hops[0].endpoint
  }

  lemma {:induction false} RebuiltVerifies(nodes: seq<NodeInfo>, id: string, pinned: bool)
    requires id != "" && Rebuilt(nodes, id, pinned).Ok?
    ensures var next := Rebuilt(nodes, id, pinned).value;
            && Verified(next) && |next.hops| == |nodes| && next.entryPinned == pinned
            && forall i :: 0 <= i < |nodes| ==> next.hops[i] == HopOf(nodes[i])
  {
    hide Verified;
    BuiltVerifies(nodes, DefaultOptions, id, pinned);
  }

  lemma {:induction false} PickPathLength(pick: Picker, pool: seq<NodeInfo>, taken: set<string>, k: nat, n: nat)
    requires k <= n
    ensures var r := PickPath(pick, pool, taken, k, n); r.Some? ==> |r.value| == n - k
    decreases n - k
  {
    if k < n {
      var x := pick(k, Exclude(pool, taken));
      if x.Some? { PickPathLength(pick, pool, taken + {x.value.nodeID}, k + 1, n); }
    }
  }

  /** Every rotation that succeeds yields a verified route of the same length. */
  lemma {:induction false} RotationVerifies(cur: Route, pool: seq<NodeInfo>, g: Option<GuardSet>, pick: Picker,
                                            id: string)
    requires id != "" && 1 <= |cur.hops| <= 3 && Rotated(cur, pool, g, pick, id).Ok?
    ensures var next := Rotated(cur, pool, g, pick, id).value; Verified(next) && |next.hops| == |cur.hops|
  {
    hide Reason, Verified;
    var eligible := Eligible(pool);
    if g.Some? && g.value.Pins(cur) {
      var first := pick(0, Exclude(eligible, Ids(cur))).value;
      if |cur.hops| == 1 {
        RebuiltVerifies([first], id, false);
      } else if |cur.hops| == 2 {
        RebuiltVerifies(NodesOf(cur.hops[..1]) + [first], id, true);
      } else {
        var exit := pick(1, Exclude(eligible, Ids(cur) + {first.nodeID})).value;
        RebuiltVerifies([NodeOf(cur.hops[0]), first, exit], id, true);
      }
    } else {
      PickPathLength(pick, eligible, {}, 0, |cur.hops|);
      var nodes := PickPath(pick, eligible, {}, 0, |cur.hops|).value;
      RebuiltVerifies(nodes, id, false);
      RepinVerifies(Rebuilt(nodes, id, false).value, cur.entryPinned);
    }
  }

  lemma {:induction false} RepinVerifies(r: Route, pinned: bool)
    requires Verified(r)
    ensures Verified(r.(entryPinned := pinned))
  {
    hide EndpointHost;
  }

  /** While the guard pins a route of two or three hops, a rotation keeps the
      entry's id, key and endpoint (and drops its country and price). */
  lemma {:induction false} PinnedKeepsEntry(cur: Route, pool: seq<NodeInfo>, g: GuardSet, pick: Picker, id: string)
    requires 2 <= |cur.hops| <= 3 && g.Pins(cur) && Rotated(cur, pool, Some(g), pick, id).Ok?
    ensures var next := Rotated(cur, pool, Some(g), pick, id).value;
            && SameEntry(cur, next) && next.entryPinned
            && next.hops[0].country == "" && next.hops[0].pricePerHour == 0.0
  {
    hide Reason;
    var eligible := Eligible(pool);
    var first := pick(0, Exclude(eligible, Ids(cur))).value;
    if |cur.hops| == 2 {
      var nodes := NodesOf(cur.hops[..1]) + [first];
      assert HopsOf(nodes)[0] == HopOf(nodes[0]) && nodes[0] == NodeOf(cur.hops[0]);
    } else {
      var exit := pick(1, Exclude(eligible, Ids(cur) + {first.nodeID})).value;
      var nodes := [NodeOf(cur.hops[0]), first, exit];
      assert HopsOf(nodes)[0] == HopOf(nodes[0]);
    }
  }

  /** A pinned single-hop route does change its node: to whatever was picked. */
  lemma {:induction false} PinnedSingleHopChanges(cur: Route, pool: seq<NodeInfo>, g: GuardSet, pick: Picker,
                                                  id: string)
    requires |cur.hops| == 1 && g.Pins(cur) && Rotated(cur, pool, Some(g), pick, id).Ok?
    ensures var picked := pick(0, Exclude(Eligible(pool), Ids(cur)));
            picked.Some? && Rotated(cur, pool, Some(g), pick, id).value.hops == [HopOf(picked.value)]
  {
    hide Reason;
    var first := pick(0, Exclude(Eligible(pool), Ids(cur))).value;
    assert HopsOf([first]) == [HopOf(first)];
  }

  // ---------------------------------------------------------------- where the picks go

  /** Filtering works node by node and keeps the order. */
  lemma {:induction false} EligibleConcat(a: seq<NodeInfo>, b: seq<NodeInfo>)
    ensures Eligible(a + b) == Eligible(a) + Eligible(b)
    decreases |b|
  {
    if b == [] {
      assert a + b == a;
    } else {
      assert (a + b)[..|a + b| - 1] == a + b[..|b| - 1];
      EligibleConcat(a, b[..|b| - 1]);
    }
  }

  lemma {:induction false} ExcludeConcat(a: seq<NodeInfo>, b: seq<NodeInfo>, skip: set<string>)
    ensures Exclude(a + b, skip) == Exclude(a, skip) + Exclude(b, skip)
    decreases |b|
  {
    if b == [] {
      assert a + b == a;
    } else {
      assert (a + b)[..|a + b| - 1] == a + b[..|b| - 1];
      ExcludeConcat(a, b[..|b| - 1], skip);
    }
  }

  /** A single node passes exactly when it is valid, and exactly when its id is not skipped. */
  lemma {:induction false} FilterOne(n: NodeInfo, skip: set<string>)
    ensures Eligible([n]) == (if n.nodeID != "" && n.wgPubKey != "" && n.endpoint != "" then [n] else [])
    ensures Exclude([n], skip) == if n.nodeID in skip then [] else [n]
  {
    assert [n][..0] == [];
  }

  lemma {:induction false} ExcludeMembers(pool: seq<NodeInfo>, skip: set<string>)
    ensures forall n :: n in Exclude(pool, skip) <==> n in pool && n.nodeID !in skip
    decreases |pool|
  {
    if pool != [] {
      ExcludeMembers(pool[..|pool| - 1], skip);
      assert pool == pool[..|pool| - 1] + [pool[|pool| - 1]];
    }
  }

  function IdsOf(xs: seq<NodeInfo>): set<string> {
    set i | 0 <= i < |xs| :: xs[i].nodeID
  }

  /** The picker answers in turn, each time from the pool without the ids taken so far. */
  ghost predicate PickedInTurn(pick: Picker, pool: seq<NodeInfo>, taken: set<string>, k: nat, xs: seq<NodeInfo>) {
    forall i :: 0 <= i < |xs| ==> PickedAt(pick, pool, taken, k, xs, i)
  }

  ghost predicate PickedAt(pick: Picker, pool: seq<NodeInfo>, taken: set<string>, k: nat, xs: seq<NodeInfo>, i: nat)
    requires i < |xs|
  {
    pick(k + i, Exclude(pool, taken + IdsOf(xs[..i]))) == Some(xs[i])
  }

  lemma {:induction false} PickedFirst(pick: Picker, pool: seq<NodeInfo>, taken: set<string>, k: nat, xs: seq<NodeInfo>)
    requires xs != []
    ensures PickedAt(pick, pool, taken, k, xs, 0) <==> pick(k, Exclude(pool, taken)) == Some(xs[0])
  {
    hide Exclude;
    assert xs[..0] == [] && taken + IdsOf([]) == taken;
  }

  lemma {:induction false} PickedLater(pick: Picker, pool: seq<NodeInfo>, taken: set<string>, k: nat, x: NodeInfo,
                                       xs: seq<NodeInfo>, i: nat)
    requires i < |xs|
    ensures PickedAt(pick, pool, taken, k, [x] + xs, i + 1) <==>
              PickedAt(pick, pool, taken + {x.nodeID}, k + 1, xs, i)
  {
    hide Exclude;
    var all := [x] + xs;
    IdsCons(x, xs[..i]);
    hide IdsOf;
    assert all[..i + 1] == [x] + xs[..i] && all[i + 1] == xs[i];
    assert taken + ({x.nodeID} + IdsOf(xs[..i])) == taken + {x.nodeID} + IdsOf(xs[..i]);
  }

  lemma {:induction false} PickedCons(pick: Picker, pool: seq<NodeInfo>, taken: set<string>, k: nat, x: NodeInfo,
                                      xs: seq<NodeInfo>)
    ensures PickedInTurn(pick, pool, taken, k, [x] + xs) <==>
              pick(k, Exclude(pool, taken)) == Some(x) && PickedInTurn(pick, pool, taken + {x.nodeID}, k + 1, xs)
  {
    hide PickedAt, Exclude;
    var all := [x] + xs;
    PickedFirst(pick, pool, taken, k, all);
    var more, next := taken + {x.nodeID}, k + 1;
    forall i | 0 <= i < |xs|
      ensures PickedAt(pick, pool, taken, k, all, i + 1) <==> PickedAt(pick, pool, more, next, xs, i)
    {
      PickedLater(pick, pool, taken, k, x, xs, i);
    }
    if pick(k, Exclude(pool, taken)) == Some(x) && PickedInTurn(pick, pool, taken + {x.nodeID}, k + 1, xs) {
      forall i | 0 <= i < |all| ensures PickedAt(pick, pool, taken, k, all, i) {
        if i > 0 { assert PickedAt(pick, pool, taken + {x.nodeID}, k + 1, xs, i - 1); }
      }
    }
  }

  lemma {:induction false} IdsCons(x: NodeInfo, xs: seq<NodeInfo>)
    ensures IdsOf([x] + xs) == {x.nodeID} + IdsOf(xs)
  {
    var all := [x] + xs;
    assert all[0] == x;
    forall i | 0 <= i < |xs| ensures all[i + 1] == xs[i] {
    }
  }

  /** The picks of a fresh path, exactly. */
  lemma {:induction false} PickPathIff(pick: Picker, pool: seq<NodeInfo>, taken: set<string>, k: nat, n: nat,
                                       xs: seq<NodeInfo>)
    requires k <= n
    ensures PickPath(pick, pool, taken, k, n) == Some(xs) <==>
              |xs| == n - k && PickedInTurn(pick, pool, taken, k, xs)
    decreases n - k
  {
    hide Exclude, PickedInTurn;
    if k == n {
      assert xs == [] ==> PickedInTurn(pick, pool, taken, k, xs) by { NothingPicked(pick, pool, taken, k); }
    } else if xs != [] {
      var x, rest := xs[0], xs[1..];
      assert xs == [x] + rest;
      PickedCons(pick, pool, taken, k, x, rest);
      PickPathIff(pick, pool, taken + {x.nodeID}, k + 1, n, rest);
    }
  }

  lemma NothingPicked(pick: Picker, pool: seq<NodeInfo>, taken: set<string>, k: nat)
    ensures PickedInTurn(pick, pool, taken, k, [])
  {
  }

  /** How many hops a pinned rotation replaces. */
  function Replaced(hops: nat): nat {
    if hops == 3 then 2 else 1
  }

  /** The node list a pinned rotation builds: the entry by its dial data, then
      the picks; a single hop is replaced. */
  function PinnedNodes(cur: Route, xs: seq<NodeInfo>): seq<NodeInfo>
    requires cur.hops != []
  {
    if |cur.hops| == 1 then xs
    else
      var entry := cur.hops[0];
      [NodeInfo(entry.nodeID, entry.operatorKey, entry.endpoint, "", 0.0, 0.0, 0.0, 0.0, 0.0)] + xs
  }

  /** A pinned rotation succeeds exactly when the picker answers once per
      replaced hop, each time from the valid nodes not in the route and not
      picked yet, and the entry with the picks makes a route; the picks are
      then the new hops, in order. */
  lemma {:induction false} PinnedRotationIff(cur: Route, pool: seq<NodeInfo>, g: GuardSet, pick: Picker, id: string,
                                             r: Route)
    requires 1 <= |cur.hops| <= 3 && g.Pins(cur)
    ensures Rotated(cur, pool, Some(g), pick, id) == Ok(r) <==>
              exists xs: seq<NodeInfo> :: && PinnedPicks(cur, pool, pick, xs)
                                          && Buildable(PinnedNodes(cur, xs), DefaultOptions)
                                          && r == Route(id, HopsOf(PinnedNodes(cur, xs)), |cur.hops| > 1)
  {
    hide Rotated, Buildable, HopsOf, PinnedPicks, PinnedNodes;
    forall xs: seq<NodeInfo> | PinnedPicks(cur, pool, pick, xs)
      ensures Rotated(cur, pool, Some(g), pick, id).Ok? <==> Buildable(PinnedNodes(cur, xs), DefaultOptions)
      ensures Buildable(PinnedNodes(cur, xs), DefaultOptions) ==>
                Rotated(cur, pool, Some(g), pick, id) == Ok(Route(id, HopsOf(PinnedNodes(cur, xs)), |cur.hops| > 1))
    {
      PinnedFrom(cur, pool, g, pick, id, xs);
    }
    if Rotated(cur, pool, Some(g), pick, id).Ok? {
      var xs := PinnedHas(cur, pool, g, pick, id);
    }
  }

  lemma {:induction false} PinnedFrom(cur: Route, pool: seq<NodeInfo>, g: GuardSet, pick: Picker, id: string,
                                      xs: seq<NodeInfo>)
    requires 1 <= |cur.hops| <= 3 && g.Pins(cur) && PinnedPicks(cur, pool, pick, xs)
    ensures var nodes := PinnedNodes(cur, xs); var r := Rotated(cur, pool, Some(g), pick, id);
            && (r.Ok? <==> Buildable(nodes, DefaultOptions))
            && (r.Ok? ==> r.value == Route(id, HopsOf(nodes), |cur.hops| > 1))
  {
    hide Eligible, Exclude, Reason, Buildable, HopsOf, NodesOf, PinnedPicks, PinnedNodes;
    PinnedPicksAre(cur, pool, pick, xs);
    BuiltFrom(cur, xs);
    if Buildable(PinnedNodes(cur, xs), DefaultOptions) { BuiltIsValid(cur, xs); }
  }

  lemma {:induction false} PinnedHas(cur: Route, pool: seq<NodeInfo>, g: GuardSet, pick: Picker, id: string)
    returns (xs: seq<NodeInfo>)
    requires 1 <= |cur.hops| <= 3 && g.Pins(cur) && Rotated(cur, pool, Some(g), pick, id).Ok?
    ensures PinnedPicks(cur, pool, pick, xs)
  {
    hide Eligible, Exclude, Reason, Buildable, HopsOf, PinnedPicks, RotateExit, RotateDownstream;
    var x := pick(0, Exclude(Eligible(pool), Ids(cur))).value;
    if |cur.hops| <= 2 {
      xs := [x];
      PinnedOne(cur, pool, pick, x);
    } else {
      var y := pick(1, Exclude(Eligible(pool), Ids(cur) + {x.nodeID})).value;
      xs := [x, y];
      PinnedTwo(cur, pool, pick, x, y);
    }
  }

  ghost predicate PinnedPicks(cur: Route, pool: seq<NodeInfo>, pick: Picker, xs: seq<NodeInfo>) {
    && |xs| == Replaced(|cur.hops|) && Eligible(pool) != []
    && PickedInTurn(pick, Eligible(pool), Ids(cur), 0, xs)
  }

  lemma {:induction false} PinnedPicksAre(cur: Route, pool: seq<NodeInfo>, pick: Picker, xs: seq<NodeInfo>)
    requires PinnedPicks(cur, pool, pick, xs)
    ensures Eligible(pool) != [] && |xs| == Replaced(|cur.hops|)
    ensures pick(0, Exclude(Eligible(pool), Ids(cur))) == Some(xs[0])
    ensures |xs| == 2 ==> pick(1, Exclude(Eligible(pool), Ids(cur) + {xs[0].nodeID})) == Some(xs[1])
  {
    hide Eligible, Exclude;
    assert PickedAt(pick, Eligible(pool), Ids(cur), 0, xs, 0);
    assert xs[..0] == [] && Ids(cur) + IdsOf([]) == Ids(cur);
    if |xs| == 2 {
      assert PickedAt(pick, Eligible(pool), Ids(cur), 0, xs, 1);
      assert xs[..1] == [xs[0]] + [];
      IdsCons(xs[0], []);
      assert Ids(cur) + IdsOf(xs[..1]) == Ids(cur) + {xs[0].nodeID};
    }
  }

  lemma {:induction false} PinnedOne(cur: Route, pool: seq<NodeInfo>, pick: Picker, x: NodeInfo)
    requires Replaced(|cur.hops|) == 1 && pick(0, Exclude(Eligible(pool), Ids(cur))) == Some(x)
    ensures PinnedPicks(cur, pool, pick, [x]) <==> Eligible(pool) != []
  {
    hide Eligible, Exclude;
    assert [x][..0] == [] && Ids(cur) + IdsOf([]) == Ids(cur);
  }

  lemma {:induction false} PinnedTwo(cur: Route, pool: seq<NodeInfo>, pick: Picker, x: NodeInfo, y: NodeInfo)
    requires Replaced(|cur.hops|) == 2 && pick(0, Exclude(Eligible(pool), Ids(cur))) == Some(x)
    requires pick(1, Exclude(Eligible(pool), Ids(cur) + {x.nodeID})) == Some(y)
    ensures PinnedPicks(cur, pool, pick, [x, y]) <==> Eligible(pool) != []
  {
    hide Eligible, Exclude;
    var xs := [x, y];
    assert xs[..0] == [] && Ids(cur) + IdsOf([]) == Ids(cur);
    assert xs[..1] == [x] + [];
    IdsCons(x, []);
    assert Ids(cur) + IdsOf(xs[..1]) == Ids(cur) + {x.nodeID};
  }

  /** The list the rotation builds is the pinned one. */
  lemma {:induction false} BuiltFrom(cur: Route, xs: seq<NodeInfo>)
    requires 1 <= |cur.hops| <= 3 && |xs| == Replaced(|cur.hops|)
    ensures |cur.hops| == 1 ==> PinnedNodes(cur, xs) == [xs[0]]
    ensures |cur.hops| == 2 ==> PinnedNodes(cur, xs) == NodesOf(cur.hops[..1]) + [xs[0]]
    ensures |cur.hops| == 3 ==> PinnedNodes(cur, xs) == [NodeOf(cur.hops[0]), xs[0], xs[1]]
  {
    assert |xs| == 1 ==> xs == [xs[0]];
    assert |xs| == 2 ==> xs == [xs[0], xs[1]];
  }

  /** It builds only from valid picks. */
  lemma {:induction false} BuiltIsValid(cur: Route, xs: seq<NodeInfo>)
    requires cur.hops != [] && Buildable(PinnedNodes(cur, xs), DefaultOptions)
    ensures forall i :: 0 <= i < |xs| ==> xs[i].Valid()
  {
    hide Separated, DistinctCountries, WithinBudget;
    var all := PinnedNodes(cur, xs);
    forall i | 0 <= i < |xs| ensures xs[i].Valid() {
      assert all[if |cur.hops| == 1 then i else i + 1] == xs[i];
    }
  }

  /** Without a pin a rotation succeeds exactly when the picker answers once
      per hop and the picks make a route; they are then the hops, in order,
      and the pinned flag survives only with the entry. */
  lemma {:induction false} FreshRotationIff(cur: Route, pool: seq<NodeInfo>, g: Option<GuardSet>, pick: Picker,
                                            id: string, r: Route)
    requires cur.hops != [] && (g.Some? ==> !g.value.Pins(cur))
    ensures Rotated(cur, pool, g, pick, id) == Ok(r) <==>
              exists xs: seq<NodeInfo> :: && FreshPicks(cur, pool, pick, xs) && Buildable(xs, DefaultOptions)
                                          && r == Route(id, HopsOf(xs),
                                                        cur.entryPinned && xs[0].nodeID == cur.hops[0].nodeID)
  {
    hide Eligible, Exclude, Reason, PickPath;
    var picked := PickPath(pick, Eligible(pool), {}, 0, |cur.hops|);
    forall xs: seq<NodeInfo> ensures FreshPicks(cur, pool, pick, xs) <==> Eligible(pool) != [] && picked == Some(xs) {
      PickPathIff(pick, Eligible(pool), {}, 0, |cur.hops|, xs);
    }
  }

  ghost predicate FreshPicks(cur: Route, pool: seq<NodeInfo>, pick: Picker, xs: seq<NodeInfo>) {
    |xs| == |cur.hops| && Eligible(pool) != [] && PickedInTurn(pick, Eligible(pool), {}, 0, xs)
  }

  /** A picker that answers from the pool it is given. */
  ghost predicate Honest(pick: Picker) {
    forall k, pool :: pick(k, pool).Some? ==> pick(k, pool).value in pool
  }

  /** Over every run of rotations with honest pickers, each pinned rotation
      that succeeds replaces every hop behind the entry by one that was not in the route. */
  lemma {:induction false} DownstreamIsNew(g: GuardSet, rs: seq<Route>, qs: seq<Request>, n: nat, i: nat)
    requires RunOf(g, rs, qs) && n < |qs| && Honest(qs[n].pick)
    requires Verified(rs[0]) && 2 <= |rs[0].hops| <= 3 && g.Pins(rs[0])
    requires Rotated(rs[n], qs[n].pool, Some(g), qs[n].pick, qs[n].id).Ok? && 1 <= i < |rs[n + 1].hops|
    ensures forall j :: 0 <= j < |rs[n].hops| ==> rs[n + 1].hops[i].nodeID != rs[n].hops[j].nodeID
  {
    hide Rotated, Verified, Eligible, Exclude, Buildable;
    EntryNeverChanges(g, rs, qs, n);
    EntryNeverChanges(g, rs, qs, n + 1);
    var cur, q, r := rs[n], qs[n], rs[n + 1];
    PinnedRotationIff(cur, q.pool, g, q.pick, q.id, r);
    var xs: seq<NodeInfo> :| PinnedPicks(cur, q.pool, q.pick, xs) && Buildable(PinnedNodes(cur, xs), DefaultOptions)
              && r == Route(q.id, HopsOf(PinnedNodes(cur, xs)), |cur.hops| > 1);
    var x := xs[i - 1];
    assert PinnedNodes(cur, xs)[i] == x;
    var rest := Exclude(Eligible(q.pool), Ids(cur) + IdsOf(xs[..i - 1]));
    assert PickedAt(q.pick, Eligible(q.pool), Ids(cur), 0, xs, i - 1);
    assert q.pick(i - 1, rest) == Some(x);
    ExcludeMembers(Eligible(q.pool), Ids(cur) + IdsOf(xs[..i - 1]));
    assert x.nodeID !in Ids(cur);
  }

  // ---------------------------------------------------------------- the age of a guard

  /** For a guard on the route's own entry, code and comment agree exactly
      while the guard is younger than its interval, thirty days by default. */
  lemma {:induction false} PinsAsDocumentedIff(g: GuardSet, r: Route, now: Time)
    ensures (g.Pins(r) <==> g.PinsUntilDue(r, now)) <==>
              || !g.pinned || g.entryID == "" || r.hops == [] || r.hops[0].nodeID != g.entryID
              || (g.pinnedAt.Some? && now - g.pinnedAt.value < if g.interval <= 0 then DefaultInterval else g.interval)
  {
  }

  /** A guard pinned at t becomes due thirty days later, for good, and pins its entry all the same. */
  lemma {:induction false} DueGuardStillPins(entry: NodeInfo, t: Time, now: Time, r: Route)
    requires entry.nodeID != "" && r.hops != [] && r.hops[0].nodeID == entry.nodeID
    ensures var g := PinGuard(entry, t);
            && g.Pins(r) && (g.PinsUntilDue(r, now) <==> now - t < DefaultInterval)
            && (g.ShouldRotate(now) <==> now - t >= DefaultInterval)
            && (g.ShouldRotate(now) ==> !g.PinsUntilDue(r, now))
            && (g.ShouldRotate(now) ==> forall later :: later >= now ==> g.ShouldRotate(later))
    ensures !NoGuard.Pins(r)
  {
  }

  /** So a rotation keeps the entry of a route of several hops however old the
      guard is, and replaces it only after the guard is cleared. */
  lemma {:induction false} DueGuardKeepsEntry(cur: Route, pool: seq<NodeInfo>, entry: NodeInfo, t: Time,
                                              pick: Picker, id: string)
    requires 2 <= |cur.hops| <= 3 && entry.nodeID != "" && cur.hops[0].nodeID == entry.nodeID
    ensures var r := Rotated(cur, pool, Some(PinGuard(entry, t)), pick, id); r.Ok? ==> SameEntry(cur, r.value)
    ensures Rotated(cur, pool, Some(NoGuard), pick, id) == Rotated(cur, pool, None, pick, id)
  {
    hide Reason;
    var g := PinGuard(entry, t);
    if Rotated(cur, pool, Some(g), pick, id).Ok? { PinnedKeepsEntry(cur, pool, g, pick, id); }
  }

  // ---------------------------------------------------------------- runs

  /** One rotation request: the pool, the picker and the fresh id. */
  datatype Request = Request(pool: seq<NodeInfo>, pick: Picker, id: string)

  function Step(cur: Route, g: GuardSet, q: Request): Route {
    match Rotated(cur, q.pool, Some(g), q.pick, q.id)
    case Ok(next) => next
    case Err(_) => cur
  }

  ghost predicate RunOf(g: GuardSet, rs: seq<Route>, qs: seq<Request>) {
    && |rs| == |qs| + 1
    && forall i :: 0 <= i < |qs| ==> qs[i].id != "" && rs[i + 1] == Step(rs[i], g, qs[i])
  }

  /** From a verified route of two or three hops whose entry the guard pins,
      over every run of rotations: the entry and the hop count never change
      and every intermediate route verifies. */
  lemma {:induction false} EntryNeverChanges(g: GuardSet, rs: seq<Route>, qs: seq<Request>, n: nat)
    requires RunOf(g, rs, qs) && n <= |qs|
    requires Verified(rs[0]) && 2 <= |rs[0].hops| <= 3 && g.Pins(rs[0])
    ensures Verified(rs[n]) && |rs[n].hops| == |rs[0].hops| && SameEntry(rs[0], rs[n]) && g.Pins(rs[n])
  {
    hide Rotated, Verified;
    if n > 0 {
      EntryNeverChanges(g, rs, qs, n - 1);
      var cur, q := rs[n - 1], qs[n - 1];
      if Rotated(cur, q.pool, Some(g), q.pick, q.id).Ok? {
        RotationVerifies(cur, q.pool, Some(g), q.pick, q.id);
        PinnedKeepsEntry(cur, q.pool, g, q.pick, q.id);
      }
    }
  }
}
