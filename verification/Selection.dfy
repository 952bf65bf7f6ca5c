/** Greedy route selection of internal/multihop/latency.go: rank the usable
    nodes, then take the best that keep separation, in two passes. */
module Selection {
  import opened Wrappers
  import opened Routes
  import Guards

  type Ewma = map<string, real>

  /** The blended score: lower is better. */
  function Score(n: NodeInfo, smoothed: Option<real>): real {
    var lat := if smoothed.Some? then smoothed.value else 500.0;
    var s := lat + 200.0 * n.load + 10.0 * n.pricePerHour + 100.0 * (1.0 - n.uptime) + 50.0 * (1.0 - n.history);
    if s < 0.0 then 0.0 else s
  }

  function Smoothed(ewma: Ewma, n: NodeInfo): Option<real> {
    if n.nodeID in ewma then Some(ewma[n.nodeID]) else None
  }

  /** What the ranking compares: measured latency alone in fast mode, else the score. */
  function RankKey(ewma: Ewma, t: Tradeoff, n: NodeInfo): real {
    if t.Fast? then
      if Smoothed(ewma, n).Some? then Smoothed(ewma, n).value
      else if n.latency <= 0.0 then 500.0 else n.latency
    else Score(n, Smoothed(ewma, n))
  }

  // ---------------------------------------------------------------- stable ranking

  ghost predicate Ranked(ewma: Ewma, t: Tradeoff, xs: seq<NodeInfo>) {
    forall i, j :: 0 <= i < j < |xs| ==> RankKey(ewma, t, xs[i]) <= RankKey(ewma, t, xs[j])
  }

  /** The nodes of one rank, in order. */
  function Tied(ewma: Ewma, t: Tradeoff, xs: seq<NodeInfo>, k: real): seq<NodeInfo> {
    if xs == [] then []
    else (if RankKey(ewma, t, xs[0]) == k then [xs[0]] else []) + Tied(ewma, t, xs[1..], k)
  }

  function Insert(ewma: Ewma, t: Tradeoff, n: NodeInfo, xs: seq<NodeInfo>): seq<NodeInfo> {
    if xs == [] || RankKey(ewma, t, n) <= RankKey(ewma, t, xs[0]) then [n] + xs
    else [xs[0]] + Insert(ewma, t, n, xs[1..])
  }

  /** sort.SliceStable by rank. */
  function Rank(ewma: Ewma, t: Tradeoff, xs: seq<NodeInfo>): seq<NodeInfo> {
    if xs == [] then [] else Insert(ewma, t, xs[0], Rank(ewma, t, xs[1..]))
  }

  lemma {:induction false} InsertMembers(ewma: Ewma, t: Tradeoff, n: NodeInfo, xs: seq<NodeInfo>)
    ensures multiset(Insert(ewma, t, n, xs)) == multiset([n]) + multiset(xs)
    ensures forall x :: x in Insert(ewma, t, n, xs) <==> x == n || x in xs
    decreases |xs|
  {
    hide RankKey;
    if xs != [] && RankKey(ewma, t, n) > RankKey(ewma, t, xs[0]) {
      InsertMembers(ewma, t, n, xs[1..]);
      assert xs == [xs[0]] + xs[1..];
    }
  }

  lemma {:induction false} RankedCons(ewma: Ewma, t: Tradeoff, n: NodeInfo, xs: seq<NodeInfo>)
    requires Ranked(ewma, t, xs) && forall x :: x in xs ==> RankKey(ewma, t, n) <= RankKey(ewma, t, x)
    ensures Ranked(ewma, t, [n] + xs)
  {
    hide RankKey;
    var r := [n] + xs;
    forall i, j | 0 <= i < j < |r| ensures RankKey(ewma, t, r[i]) <= RankKey(ewma, t, r[j]) {
      assert r[j] == xs[j - 1] && r[j] in xs;
      if i > 0 { assert r[i] == xs[i - 1]; }
    }
  }

  lemma {:induction false} RankedHead(ewma: Ewma, t: Tradeoff, xs: seq<NodeInfo>, x: NodeInfo)
    requires Ranked(ewma, t, xs) && x in xs
    ensures RankKey(ewma, t, xs[0]) <= RankKey(ewma, t, x)
    ensures Ranked(ewma, t, xs[1..])
  {
    hide RankKey;
    var i :| 0 <= i < |xs| && xs[i] == x;
  }

  lemma {:induction false} InsertRanked(ewma: Ewma, t: Tradeoff, n: NodeInfo, xs: seq<NodeInfo>)
    requires Ranked(ewma, t, xs)
    ensures Ranked(ewma, t, Insert(ewma, t, n, xs))
    decreases |xs|
  {
    hide RankKey, Ranked;
    if xs == [] || RankKey(ewma, t, n) <= RankKey(ewma, t, xs[0]) {
      forall x | x in xs ensures RankKey(ewma, t, n) <= RankKey(ewma, t, x) { RankedHead(ewma, t, xs, x); }
      RankedCons(ewma, t, n, xs);
    } else {
      RankedHead(ewma, t, xs, xs[0]);
      InsertRanked(ewma, t, n, xs[1..]);
      InsertMembers(ewma, t, n, xs[1..]);
      var tail := Insert(ewma, t, n, xs[1..]);
      forall x | x in tail ensures RankKey(ewma, t, xs[0]) <= RankKey(ewma, t, x) {
        if x != n { assert x in xs[1..] && x in xs; RankedHead(ewma, t, xs, x); }
      }
      RankedCons(ewma, t, xs[0], tail);
    }
  }

  lemma {:induction false} TiedCons(ewma: Ewma, t: Tradeoff, n: NodeInfo, xs: seq<NodeInfo>, k: real)
    ensures Tied(ewma, t, [n] + xs, k) == (if RankKey(ewma, t, n) == k then [n] else []) + Tied(ewma, t, xs, k)
  {
    assert ([n] + xs)[1..] == xs;
  }

  lemma {:induction false} InsertTied(ewma: Ewma, t: Tradeoff, n: NodeInfo, xs: seq<NodeInfo>, k: real)
    ensures Tied(ewma, t, Insert(ewma, t, n, xs), k)
         == (if RankKey(ewma, t, n) == k then [n] else []) + Tied(ewma, t, xs, k)
    decreases |xs|
  {
    hide RankKey;
    if xs == [] || RankKey(ewma, t, n) <= RankKey(ewma, t, xs[0]) {
      TiedCons(ewma, t, n, xs, k);
    } else {
      InsertTied(ewma, t, n, xs[1..], k);
      TiedCons(ewma, t, xs[0], Insert(ewma, t, n, xs[1..]), k);
    }
  }

  /** Ranking permutes the nodes into rank order and keeps ties in place. */
  lemma {:induction false} RankSorts(ewma: Ewma, t: Tradeoff, xs: seq<NodeInfo>)
    ensures Ranked(ewma, t, Rank(ewma, t, xs)) && multiset(Rank(ewma, t, xs)) == multiset(xs)
    ensures forall x :: x in Rank(ewma, t, xs) <==> x in xs
    ensures forall k :: Tied(ewma, t, Rank(ewma, t, xs), k) == Tied(ewma, t, xs, k)
    decreases |xs|
  {
    hide RankKey, Insert;
    if xs != [] {
      RankSorts(ewma, t, xs[1..]);
      assert xs == [xs[0]] + xs[1..];
      var tail := Rank(ewma, t, xs[1..]);
      InsertRanked(ewma, t, xs[0], tail);
      InsertMembers(ewma, t, xs[0], tail);
      forall k ensures Tied(ewma, t, Rank(ewma, t, xs), k) == Tied(ewma, t, xs, k) {
        InsertTied(ewma, t, xs[0], tail, k);
      }
    }
  }

  // ---------------------------------------------------------------- what the ranking orders by

  /** The latency a node shows in fast mode: the measured one, else the
      advertised one, else half a second. */
  predicate Shows(ewma: Ewma, n: NodeInfo, ms: real) {
    if n.nodeID in ewma then ms == ewma[n.nodeID]
    else if n.latency > 0.0 then ms == n.latency else ms == 500.0
  }

  /** In fast mode the nodes come in the order of the latency they show. */
  lemma {:induction false} FastOrder(ewma: Ewma, xs: seq<NodeInfo>, i: nat, j: nat, a: real, b: real)
    requires i < j < |Rank(ewma, Fast, xs)|
    requires Shows(ewma, Rank(ewma, Fast, xs)[i], a) && Shows(ewma, Rank(ewma, Fast, xs)[j], b)
    ensures a <= b
  {
    RankSorts(ewma, Fast, xs);
  }

  /** What the score adds up: milliseconds as they are, 200 for full load, 10
      for a unit of price, 100 for no uptime and 50 for no history; an
      unmeasured node counts as half a second. */
  lemma {:induction false} ScoreWeights(n: NodeInfo, ms: real, d: real)
    requires d >= 0.0 && Score(n, Some(ms)) > 0.0
    ensures var s := Score(n, Some(ms));
            && Score(n, Some(ms + d)) == s + d
            && Score(n.(load := n.load + d), Some(ms)) == s + 200.0 * d
            && Score(n.(pricePerHour := n.pricePerHour + d), Some(ms)) == s + 10.0 * d
            && Score(n.(uptime := n.uptime - d), Some(ms)) == s + 100.0 * d
            && Score(n.(history := n.history - d), Some(ms)) == s + 50.0 * d
    ensures Score(n, None) == Score(n, Some(500.0))
    ensures n.load == 0.0 && n.pricePerHour == 0.0 && n.uptime == 1.0 && n.history == 1.0 ==>
              Score(n, Some(ms)) == ms
  {
  }

  function Latency(ewma: Ewma, n: NodeInfo): real {
    if n.nodeID in ewma then ewma[n.nodeID] else 500.0
  }

  /** No worse in anything the score looks at, and closer. */
  predicate Dominates(ewma: Ewma, a: NodeInfo, b: NodeInfo) {
    && Latency(ewma, a) < Latency(ewma, b) && a.load <= b.load && a.pricePerHour <= b.pricePerHour
    && a.uptime >= b.uptime && a.history >= b.history
  }

  /** In the other modes a node never comes before one that dominates it,
      unless both are so good that their scores are cut to zero. */
  lemma {:induction false} BlendedOrder(ewma: Ewma, t: Tradeoff, xs: seq<NodeInfo>, i: nat, j: nat)
    requires !t.Fast? && i < j < |Rank(ewma, t, xs)|
    ensures var r := Rank(ewma, t, xs); Dominates(ewma, r[j], r[i]) ==> Score(r[i], Smoothed(ewma, r[i])) == 0.0
  {
    RankSorts(ewma, t, xs);
  }

  // ---------------------------------------------------------------- the pool

  function FilterByBudget(xs: seq<NodeInfo>, budget: real): seq<NodeInfo> {
    if budget <= 0.0 || xs == [] then xs
    else
      var init, n := FilterByBudget(xs[..|xs| - 1], budget), xs[|xs| - 1];
      if WithinBudget(n, budget) then init + [n] else init
  }

  function Budget(t: Tradeoff): real {
    BudgetMs(BuildOptions(0, t, 0.0, false))
  }

  /** The valid nodes within the budget, or all valid ones if none is. */
  function Pool(cands: seq<NodeInfo>, t: Tradeoff): seq<NodeInfo> {
    var valid := Guards.Eligible(cands);
    var filtered := FilterByBudget(valid, Budget(t));
    if filtered != [] then filtered else valid
  }

  lemma {:induction false} EligibleMembers(xs: seq<NodeInfo>)
    ensures forall n :: n in Guards.Eligible(xs) <==> n in xs && n.Valid()
    decreases |xs|
  {
    if xs != [] {
      EligibleMembers(xs[..|xs| - 1]);
      assert xs == xs[..|xs| - 1] + [xs[|xs| - 1]];
    }
  }

  lemma {:induction false} BudgetMembers(xs: seq<NodeInfo>, budget: real)
    ensures forall n :: n in FilterByBudget(xs, budget) <==> n in xs && WithinBudget(n, budget)
    decreases |xs|
  {
    if budget > 0.0 && xs != [] {
      BudgetMembers(xs[..|xs| - 1], budget);
      assert xs == xs[..|xs| - 1] + [xs[|xs| - 1]];
    }
  }

  /** The pool is never empty while some candidate is valid, and holds valid candidates only. */
  lemma {:induction false} PoolMembers(cands: seq<NodeInfo>, t: Tradeoff)
    ensures Pool(cands, t) == [] <==> forall n :: n in cands ==> !n.Valid()
    ensures forall n :: n in Pool(cands, t) ==> n in cands && n.Valid()
    ensures (exists n :: n in cands && n.Valid() && WithinBudget(n, Budget(t))) ==>
              forall n :: n in Pool(cands, t) <==> n in cands && n.Valid() && WithinBudget(n, Budget(t))
  {
    hide Guards.Eligible, FilterByBudget, WithinBudget, NodeInfo.Valid;
    var valid := Guards.Eligible(cands);
    EligibleMembers(cands);
    BudgetMembers(valid, Budget(t));
    if valid != [] { assert valid[0] in valid; }
    var filtered := FilterByBudget(valid, Budget(t));
    if filtered != [] { assert filtered[0] in filtered; }
  }

  // ---------------------------------------------------------------- the greedy path

  predicate CountryUsed(path: seq<NodeInfo>, n: NodeInfo) {
    CountryOf(n) != "" && exists i :: 0 <= i < |path| && CountryOf(path[i]) == CountryOf(n)
  }

  predicate Fits(path: seq<NodeInfo>, n: NodeInfo) {
    Separated(path + [n])
  }

  predicate Takes(path: seq<NodeInfo>, n: NodeInfo, newCountry: bool, cap: int) {
    |path| < cap && !(newCountry && CountryUsed(path, n)) && Fits(path, n)
  }

  /** One pass over the ranked nodes. */
  function Extend(ranked: seq<NodeInfo>, path: seq<NodeInfo>, newCountry: bool, cap: int): seq<NodeInfo> {
    if ranked == [] then path
    else
      var before, n := Extend(ranked[..|ranked| - 1], path, newCountry, cap), ranked[|ranked| - 1];
      if Takes(before, n, newCountry, cap) then before + [n] else before
  }

  /** Both passes: the first one, in safe mode, takes only new countries. */
  function Greedy(ranked: seq<NodeInfo>, safe: bool, cap: int): seq<NodeInfo> {
    Extend(ranked, Extend(ranked, [], safe, cap), false, cap)
  }

  method OnePass(ranked: seq<NodeInfo>, start: seq<NodeInfo>, newCountry: bool, cap: int) returns (path: seq<NodeInfo>)
    ensures path == Extend(ranked, start, newCountry, cap)
  {
    hide CountryOf, Clash;
    path := start;
    var usedCountries := Countries(start);
    for i := 0 to |ranked|
      invariant path == Extend(ranked[..i], start, newCountry, cap)
      invariant usedCountries == Countries(path)
    {
      assert ranked[..i + 1][..i] == ranked[..i];
      var n := ranked[i];
      if |path| >= cap {
        continue;
      }
      var c := CountryOf(n);
      CountriesUsed(path, n);
      if newCountry && c != "" && c in usedCountries {
        continue;
      }
      var distinct := CheckDistinct(path + [n]);
      if !distinct {
        continue;
      }
      CountriesSnoc(path, n);
      path := path + [n];
      if c != "" {
        usedCountries := usedCountries + {c};
      }
    }
    assert ranked[..|ranked|] == ranked;
  }

  function Countries(path: seq<NodeInfo>): set<string> {
    set i | 0 <= i < |path| && CountryOf(path[i]) != "" :: CountryOf(path[i])
  }

  lemma {:induction false} CountriesUsed(path: seq<NodeInfo>, n: NodeInfo)
    ensures CountryUsed(path, n) <==> CountryOf(n) != "" && CountryOf(n) in Countries(path)
  {
    hide CountryOf;
  }

  lemma {:induction false} CountriesSnoc(path: seq<NodeInfo>, n: NodeInfo)
    ensures Countries(path + [n]) == Countries(path) + if CountryOf(n) != "" then {CountryOf(n)} else {}
  {
    hide CountryOf;
    var p := path + [n];
    assert forall i :: 0 <= i < |path| ==> p[i] == path[i];
    assert p[|path|] == n;
    forall c | c in Countries(path) ensures c in Countries(p) {
      var i :| 0 <= i < |path| && CountryOf(path[i]) != "" && CountryOf(path[i]) == c;
      assert CountryOf(p[i]) == c;
    }
  }

  /** Selects an ordered path of up to maxHops nodes. */
  method SelectRoute(ewma: Ewma, cands: seq<NodeInfo>, maxHops: int, t: Tradeoff)
    returns (r: Result<seq<NodeInfo>, RouteError>)
    ensures r.Err? <==> forall n :: n in cands ==> !n.Valid()
    ensures r.Ok? ==> r.value == Greedy(Rank(ewma, t, Pool(cands, t)), t.Safe?, HopCap(maxHops))
  {
    hide Greedy, Rank, NodeInfo.Valid;
    var cap := HopCap(maxHops);
    var valid := Guards.FilterEligible(cands);
    PoolMembers(cands, t);
    EligibleMembers(cands);
    if |valid| == 0 {
      return Err(EmptyPool);
    }
    assert valid[0] in valid;
    var filtered := WithinBudgetOnly(valid, Budget(t));
    var pool := if |filtered| > 0 then filtered else valid;
    assert pool == Pool(cands, t);
    var ranked := Rank(ewma, t, pool);
    var path := BothPasses(ranked, t.Safe?, cap);
    return Ok(path);
  }

  method WithinBudgetOnly(xs: seq<NodeInfo>, budget: real) returns (out: seq<NodeInfo>)
    ensures out == FilterByBudget(xs, budget)
  {
    if budget <= 0.0 {
      return xs;
    }
    out := [];
    for i := 0 to |xs|
      invariant out == FilterByBudget(xs[..i], budget)
    {
      assert xs[..i + 1][..i] == xs[..i];
      if xs[i].latency > 0.0 && xs[i].latency > budget {
        continue;
      }
      out := out + [xs[i]];
    }
    assert xs[..|xs|] == xs;
  }

  method BothPasses(ranked: seq<NodeInfo>, safe: bool, cap: int) returns (path: seq<NodeInfo>)
    ensures path == Greedy(ranked, safe, cap)
  {
    path := OnePass(ranked, [], safe, cap);
    if |path| < cap {
      path := OnePass(ranked, path, false, cap);
    } else {
      ExtendFull(ranked, path, false, cap);
    }
  }

  lemma {:induction false} ExtendFull(ranked: seq<NodeInfo>, path: seq<NodeInfo>, newCountry: bool, cap: int)
    requires |path| >= cap
    ensures Extend(ranked, path, newCountry, cap) == path
    decreases |ranked|
  {
    if ranked != [] { ExtendFull(ranked[..|ranked| - 1], path, newCountry, cap); }
  }

  // ---------------------------------------------------------------- properties of the path

  lemma {:induction false} SeparatedPrefix(path: seq<NodeInfo>, k: nat, n: NodeInfo)
    requires k <= |path| && Separated(path + [n])
    ensures Separated(path[..k] + [n])
  {
    hide Clash;
    var all, part := path + [n], path[..k] + [n];
    forall i, j | 0 <= i < j < |part| ensures !Clash(part[i], part[j]) {
      var j' := if j == k then |path| else j;
      assert all[i] == part[i] && all[j'] == part[j];
    }
  }

  /** A pass only appends, keeps separation and the cap, and draws from the ranked nodes. */
  lemma {:induction false} ExtendKeeps(ranked: seq<NodeInfo>, path: seq<NodeInfo>, newCountry: bool, cap: int)
    requires Separated(path) && |path| <= cap
    ensures var p := Extend(ranked, path, newCountry, cap);
            && path <= p && Separated(p) && |p| <= cap
            && forall x :: x in p ==> x in path || x in ranked
    decreases |ranked|
  {
    hide Clash, CountryUsed, Separated;
    if ranked != [] {
      var init := ranked[..|ranked| - 1];
      ExtendKeeps(init, path, newCountry, cap);
      assert ranked == init + [ranked[|ranked| - 1]];
    }
  }

  /** After a pass that stops short of the cap, every ranked node either does
      not fit, or was held back for its country. */
  lemma {:induction false} ExtendMaximal(ranked: seq<NodeInfo>, path: seq<NodeInfo>, newCountry: bool, cap: int,
                                         n: NodeInfo)
    requires Separated(path) && |path| <= cap && n in ranked
    requires |Extend(ranked, path, newCountry, cap)| < cap
    ensures var p := Extend(ranked, path, newCountry, cap); !Fits(p, n) || (newCountry && CountryUsed(p, n))
    decreases |ranked|
  {
    hide Clash, CountryOf, Separated;
    var k := |ranked| - 1;
    var init, last := ranked[..k], ranked[k];
    var before, p := Extend(init, path, newCountry, cap), Extend(ranked, path, newCountry, cap);
    ExtendKeeps(init, path, newCountry, cap);
    assert before == p[..|before|];
    if n in init {
      ExtendMaximal(init, path, newCountry, cap, n);
      GrowsStuck(before, p, n, newCountry);
    } else {
      assert n == last;
      if Takes(before, n, newCountry, cap) {
        RepeatDoesNotFit(before, n);
      }
    }
  }

  lemma {:induction false} GrowsStuck(a: seq<NodeInfo>, b: seq<NodeInfo>, n: NodeInfo, newCountry: bool)
    requires |a| <= |b| && a == b[..|a|] && (!Fits(a, n) || (newCountry && CountryUsed(a, n)))
    ensures !Fits(b, n) || (newCountry && CountryUsed(b, n))
  {
    hide Clash, CountryOf, Separated;
    if Fits(b, n) {
      SeparatedPrefix(b, |a|, n);
      var i :| 0 <= i < |a| && CountryOf(a[i]) == CountryOf(n);
      assert b[i] == a[i];
    }
  }

  lemma {:induction false} RepeatDoesNotFit(path: seq<NodeInfo>, n: NodeInfo)
    ensures !Fits(path + [n], n)
  {
    hide EndpointHost;
    var p := path + [n] + [n];
    assert p[|path|] == n && p[|path| + 1] == n && Clash(n, n);
  }

  lemma {:induction false} SafePassDistinct(ranked: seq<NodeInfo>, cap: int)
    ensures DistinctCountries(Extend(ranked, [], true, cap))
    decreases |ranked|
  {
    hide CountryOf, Fits;
    if ranked != [] {
      var n, before := ranked[|ranked| - 1], Extend(ranked[..|ranked| - 1], [], true, cap);
      SafePassDistinct(ranked[..|ranked| - 1], cap);
      if Takes(before, n, true, cap) {
        var p := before + [n];
        forall i, j | 0 <= i < j < |p| && CountryOf(p[i]) != "" ensures CountryOf(p[i]) != CountryOf(p[j]) {
          if j == |before| { assert p[i] == before[i]; } else { assert p[i] == before[i] && p[j] == before[j]; }
        }
      }
    }
  }

  lemma {:induction false} ExtendFirst(ranked: seq<NodeInfo>, newCountry: bool, cap: int)
    requires ranked != [] && cap >= 1
    ensures var p := Extend(ranked, [], newCountry, cap); p != [] && p[0] == ranked[0]
    decreases |ranked|
  {
    hide CountryOf, EndpointHost;
    if |ranked| == 1 {
      assert ranked[..0] == [];
      assert Separated([] + [ranked[0]]);
    } else {
      ExtendFirst(ranked[..|ranked| - 1], newCountry, cap);
    }
  }

  lemma {:induction false} GreedyShape(ranked: seq<NodeInfo>, safe: bool, cap: int)
    requires ranked != [] && cap >= 1
    ensures var path := Greedy(ranked, safe, cap);
            && 1 <= |path| <= cap && path[0] == ranked[0] && Separated(path) && (forall n :: n in path ==> n in ranked)
            && (|path| < cap ==> forall n :: n in ranked ==> !Separated(path + [n]))
  {
    hide Extend, Separated;
    assert Separated([]) by { SeparatedNone([]); }
    var first := Extend(ranked, [], safe, cap);
    ExtendKeeps(ranked, [], safe, cap);
    ExtendKeeps(ranked, first, false, cap);
    ExtendFirst(ranked, safe, cap);
    if |Greedy(ranked, safe, cap)| < cap {
      forall n | n in ranked ensures !Separated(Greedy(ranked, safe, cap) + [n]) {
        ExtendMaximal(ranked, first, false, cap, n);
      }
    }
  }

  /** The selected path: it starts at the best-ranked node, has one to cap
      nodes, all valid, and makes a route; if it is shorter than the cap, no
      node of the pool can be added to it. */
  lemma {:induction false} SelectedPath(ewma: Ewma, cands: seq<NodeInfo>, t: Tradeoff, cap: int)
    requires Pool(cands, t) != [] && 1 <= cap <= 3
    ensures var ranked := Rank(ewma, t, Pool(cands, t)); var path := Greedy(ranked, t.Safe?, cap);
            && ranked != [] && path != [] && path[0] == ranked[0] && |path| <= cap
            && (forall n :: n in path ==> n in Pool(cands, t))
            && Buildable(path, DefaultOptions)
            && (|path| < cap ==> forall n :: n in Pool(cands, t) ==> !Separated(path + [n]))
  {
    hide Rank, Pool, Greedy, Separated;
    var pool := Pool(cands, t);
    var ranked := Rank(ewma, t, pool);
    RankSorts(ewma, t, pool);
    PoolMembers(cands, t);
    assert pool[0] in ranked;
    GreedyShape(ranked, t.Safe?, cap);
    var path := Greedy(ranked, t.Safe?, cap);
    forall i | 0 <= i < |path| ensures path[i].Valid() { assert path[i] in path; }
  }

  /** Under its own tradeoff the selected path makes a route exactly when some
      valid candidate is within the budget: otherwise the pool fell back to
      nodes that are all over it. */
  lemma {:induction false} BuildableIff(ewma: Ewma, cands: seq<NodeInfo>, t: Tradeoff, maxHops: int)
    requires exists n :: n in cands && n.Valid()
    ensures var path := Greedy(Rank(ewma, t, Pool(cands, t)), t.Safe?, HopCap(maxHops));
            Buildable(path, BuildOptions(maxHops, t, 0.0, false)) <==>
              exists n :: n in cands && n.Valid() && WithinBudget(n, Budget(t))
  {
    hide Rank, Pool, Greedy, Separated, WithinBudget, NodeInfo.Valid;
    PoolMembers(cands, t);
    SelectedPath(ewma, cands, t, HopCap(maxHops));
    var path := Greedy(Rank(ewma, t, Pool(cands, t)), t.Safe?, HopCap(maxHops));
    forall i | 0 <= i < |path| ensures path[i] in Pool(cands, t) { assert path[i] in path; }
    assert path[0] in cands && path[0].Valid();
  }

  /** An input that fails: one valid node over the budget. */
  lemma {:induction false} OverBudgetPath(ewma: Ewma, id: string, maxHops: int)
    requires id != ""
    ensures var n := NodeInfo(id, id, id, "", 0.0, 0.0, 900.0, 1.0, 1.0);
            var path := Greedy(Rank(ewma, Safe, Pool([n], Safe)), true, HopCap(maxHops));
            path != [] && path[0] == n && !Buildable(path, BuildOptions(maxHops, Safe, 0.0, false))
  {
    hide Rank, Pool, Greedy, Separated;
    var n := NodeInfo(id, id, id, "", 0.0, 0.0, 900.0, 1.0, 1.0);
    var cap := HopCap(maxHops);
    assert n in [n] && n.Valid();
    PoolMembers([n], Safe);
    SelectedPath(ewma, [n], Safe, cap);
    BuildableIff(ewma, [n], Safe, maxHops);
    var path := Greedy(Rank(ewma, Safe, Pool([n], Safe)), true, cap);
    assert path[0] in path;
  }

  /** In safe mode the path starts with hops in distinct countries, and a
      repeated country follows only once every pool node that still fits
      those hops repeats one of their countries. */
  lemma {:induction false} SafePrefersNewCountries(ranked: seq<NodeInfo>, cap: int) returns (k: nat)
    requires 1 <= cap <= 3
    ensures var path := Greedy(ranked, true, cap);
            && k <= |path| && DistinctCountries(path[..k])
            && (k < |path| ==> forall n :: n in ranked && Separated(path[..k] + [n]) ==> CountryUsed(path[..k], n))
  {
    hide Extend, Separated, CountryUsed;
    assert Separated([]) by { SeparatedNone([]); }
    var first := Extend(ranked, [], true, cap);
    var path := Extend(ranked, first, false, cap);
    ExtendKeeps(ranked, [], true, cap);
    ExtendKeeps(ranked, first, false, cap);
    SafePassDistinct(ranked, cap);
    k := |first|;
    assert path[..k] == first;
    if k < |path| {
      forall n | n in ranked && Separated(first + [n]) ensures CountryUsed(first, n) {
        ExtendMaximal(ranked, [], true, cap, n);
      }
    }
  }

  // ---------------------------------------------------------------- greedy is not longest

  /** No separated choice from the pool within the cap is longer. */
  ghost predicate Longest(path: seq<NodeInfo>, pool: seq<NodeInfo>, cap: int) {
    forall q :: |q| <= cap && Separated(q) && (forall n :: n in q ==> n in pool) ==> |q| <= |path|
  }

  lemma {:induction false} PairSeparated(a: NodeInfo, b: NodeInfo)
    ensures Separated([a] + [b]) <==> !Clash(a, b)
  {
    hide Clash;
    var p := [a] + [b];
    assert p[0] == a && p[1] == b;
  }

  /** With room for two hops, the greedy path is the longest exactly when some
      node is separated from the best-ranked one, or no two nodes are separated. */
  lemma {:induction false} LongestOfTwoIff(ranked: seq<NodeInfo>, safe: bool)
    requires ranked != []
    ensures Longest(Greedy(ranked, safe, 2), ranked, 2) <==>
              || (exists n :: n in ranked && !Clash(ranked[0], n))
              || (forall a, b :: a in ranked && b in ranked ==> Clash(a, b))
  {
    hide Greedy, Clash;
    var path, best := Greedy(ranked, safe, 2), ranked[0];
    GreedyShape(ranked, safe, 2);
    if |path| == 1 {
      assert path == [best];
      forall n | n in ranked ensures Clash(best, n) { PairSeparated(best, n); }
      if a, b :| a in ranked && b in ranked && !Clash(a, b) {
        PairSeparated(a, b);
        var q := [a] + [b];
        assert Separated(q) && |q| == 2 && forall n :: n in q ==> n in ranked;
      } else {
        forall q: seq<NodeInfo> | |q| == 2 && (forall n :: n in q ==> n in ranked) ensures !Separated(q) {
          assert q[0] in ranked && q[1] in ranked && Clash(q[0], q[1]);
        }
      }
    } else {
      assert path[1] in path && !Clash(path[0], path[1]);
    }
  }

  /** A pass with one more place takes the same nodes, and at most one more. */
  lemma {:induction false} ExtendPrefix(ranked: seq<NodeInfo>, path: seq<NodeInfo>, newCountry: bool, cap: nat)
    requires |path| <= cap
    ensures var p, q := Extend(ranked, path, newCountry, cap), Extend(ranked, path, newCountry, cap + 1);
            |q| <= cap + 1 && p == if |q| <= cap then q else q[..cap]
    decreases |ranked|
  {
    hide Fits, CountryUsed;
    if ranked != [] { ExtendPrefix(ranked[..|ranked| - 1], path, newCountry, cap); }
  }

  /** Selecting with one more hop never revises the hops already chosen. */
  lemma {:induction false} GreedyPrefix(ranked: seq<NodeInfo>, safe: bool, cap: nat)
    ensures var p, q := Greedy(ranked, safe, cap), Greedy(ranked, safe, cap + 1);
            |q| <= cap + 1 && p == if |q| <= cap then q else q[..cap]
  {
    hide Extend;
    var first := Extend(ranked, [], safe, cap + 1);
    ExtendPrefix(ranked, [], safe, cap);
    if |first| <= cap {
      ExtendPrefix(ranked, first, false, cap);
    } else {
      ExtendFull(ranked, first, false, cap + 1);
      ExtendFull(ranked, first[..cap], false, cap);
    }
  }

  lemma {:induction false} TripleSeparated(a: NodeInfo, b: NodeInfo, c: NodeInfo)
    ensures Separated([a, b] + [c]) <==> !Clash(a, b) && !Clash(a, c) && !Clash(b, c)
  {
    hide Clash;
    var p := [a, b] + [c];
    assert p[0] == a && p[1] == b && p[2] == c;
  }

  ghost predicate SomeTriple(pool: seq<NodeInfo>) {
    exists a, b, c :: a in pool && b in pool && c in pool && !Clash(a, b) && !Clash(a, c) && !Clash(b, c)
  }

  ghost predicate SomePair(pool: seq<NodeInfo>) {
    exists a, b :: a in pool && b in pool && !Clash(a, b)
  }

  /** The longest separated choice of up to three nodes, by its pairs and triples. */
  lemma {:induction false} LongestByTriples(path: seq<NodeInfo>, pool: seq<NodeInfo>)
    requires 1 <= |path| <= 2
    ensures Longest(path, pool, 3) <==> !SomeTriple(pool) && (|path| == 2 || !SomePair(pool))
  {
    hide Clash;
    if a, b, c :| a in pool && b in pool && c in pool && !Clash(a, b) && !Clash(a, c) && !Clash(b, c) {
      TripleSeparated(a, b, c);
      var q := [a, b] + [c];
      assert |q| == 3 && Separated(q) && forall n :: n in q ==> n in pool;
    }
    if a, b :| a in pool && b in pool && !Clash(a, b) {
      PairSeparated(a, b);
      var q := [a] + [b];
      assert |q| == 2 && Separated(q) && forall n :: n in q ==> n in pool;
    }
    forall q: seq<NodeInfo> | |q| == 3 && Separated(q) && (forall n :: n in q ==> n in pool) ensures SomeTriple(pool) {
      assert q[0] in pool && q[1] in pool && q[2] in pool;
    }
    forall q: seq<NodeInfo> | |q| >= 2 && Separated(q) && (forall n :: n in q ==> n in pool) ensures SomePair(pool) {
      assert q[0] in pool && q[1] in pool;
    }
  }

  // ---------------------------------------------------------------- the second hop

  /** The node at place j can follow the best-ranked one in this pass. */
  predicate Follows(ranked: seq<NodeInfo>, newCountry: bool, j: nat)
    requires j < |ranked|
  {
    !Clash(ranked[0], ranked[j]) && !(newCountry && CountryUsed([ranked[0]], ranked[j]))
  }

  /** The first place whose node can follow the best-ranked one. */
  function FirstFollower(ranked: seq<NodeInfo>, newCountry: bool, n: nat): (r: Option<nat>)
    requires n <= |ranked|
    ensures r.Some? ==> r.value < n
  {
    if n == 0 then None
    else
      var before := FirstFollower(ranked, newCountry, n - 1);
      if before.Some? then before else if Follows(ranked, newCountry, n - 1) then Some(n - 1) else None
  }

  lemma {:induction false} FirstFollowerIsFirst(ranked: seq<NodeInfo>, newCountry: bool, n: nat)
    requires n <= |ranked|
    ensures var r := FirstFollower(ranked, newCountry, n);
            && (r.Some? ==> Follows(ranked, newCountry, r.value))
            && forall j :: 0 <= j < (if r.Some? then r.value else n) ==> !Follows(ranked, newCountry, j)
    decreases n
  {
    hide Follows;
    if n > 0 { FirstFollowerIsFirst(ranked, newCountry, n - 1); }
  }

  /** In safe mode the first follower in a new country, if there is one; else the first follower. */
  function SecondPlace(ranked: seq<NodeInfo>, safe: bool): Option<nat> {
    var first := FirstFollower(ranked, safe, |ranked|);
    if first.Some? then first else FirstFollower(ranked, false, |ranked|)
  }

  function UpTo(ranked: seq<NodeInfo>, second: Option<nat>): seq<NodeInfo>
    requires ranked != [] && (second.Some? ==> second.value < |ranked|)
  {
    if second.Some? then [ranked[0], ranked[second.value]] else [ranked[0]]
  }

  lemma {:induction false} TakesFollower(ranked: seq<NodeInfo>, newCountry: bool, j: nat)
    requires j < |ranked|
    ensures Takes([ranked[0]], ranked[j], newCountry, 2) <==> Follows(ranked, newCountry, j)
  {
    hide Clash, CountryUsed;
    PairSeparated(ranked[0], ranked[j]);
  }

  /** A pass from the best-ranked node takes its first follower and stops. */
  lemma {:induction false} PassFollows(ranked: seq<NodeInfo>, newCountry: bool, n: nat)
    requires 1 <= n <= |ranked|
    ensures Extend(ranked[..n], [ranked[0]], newCountry, 2) == UpTo(ranked, FirstFollower(ranked, newCountry, n))
    decreases n
  {
    hide Takes, Follows;
    TakesFollower(ranked, newCountry, n - 1);
    assert ranked[..n][..n - 1] == ranked[..n - 1];
    if n == 1 {
      assert ranked[..0] == [];
      assert FirstFollower(ranked, newCountry, 0) == None;
    } else {
      PassFollows(ranked, newCountry, n - 1);
    }
    FullTakesNone(ranked, newCountry, n - 1);
  }

  lemma FullTakesNone(ranked: seq<NodeInfo>, newCountry: bool, j: nat)
    requires j < |ranked|
    ensures forall p :: |p| >= 2 ==> !Takes(p, ranked[j], newCountry, 2)
  {
  }

  /** The first pass begins with the best-ranked node, which then takes no second place itself. */
  lemma {:induction false} FromEmpty(ranked: seq<NodeInfo>, newCountry: bool, n: nat)
    requires 1 <= n <= |ranked|
    ensures Extend(ranked[..n], [], newCountry, 2) == Extend(ranked[..n], [ranked[0]], newCountry, 2)
    decreases n
  {
    hide Takes;
    assert ranked[..n][..n - 1] == ranked[..n - 1];
    if n == 1 {
      assert ranked[..0] == [];
      FirstIsTaken(ranked, newCountry);
    } else {
      FromEmpty(ranked, newCountry, n - 1);
    }
  }

  lemma {:induction false} FirstIsTaken(ranked: seq<NodeInfo>, newCountry: bool)
    requires ranked != []
    ensures Takes([], ranked[0], newCountry, 2) && !Takes([ranked[0]], ranked[0], newCountry, 2)
  {
    hide EndpointHost, CountryOf;
    assert [] + [ranked[0]] == [ranked[0]];
    PairSeparated(ranked[0], ranked[0]);
  }

  /** The two-hop selection, by places in the ranking. */
  lemma {:induction false} SecondHop(ranked: seq<NodeInfo>, safe: bool)
    requires ranked != []
    ensures Greedy(ranked, safe, 2) == UpTo(ranked, SecondPlace(ranked, safe))
  {
    hide Extend, FirstFollower;
    var n := |ranked|;
    assert ranked[..n] == ranked;
    FromEmpty(ranked, safe, n);
    PassFollows(ranked, safe, n);
    if FirstFollower(ranked, safe, n).Some? {
      ExtendFull(ranked, UpTo(ranked, FirstFollower(ranked, safe, n)), false, 2);
    } else {
      PassFollows(ranked, false, n);
    }
  }

  /** With room for three hops, the greedy path is the longest exactly when,
      with a second hop at place j, some node is separated from the nodes at
      places 0 and j or no three nodes are separated, and, with no second hop,
      no two nodes are. */
  lemma {:induction false} LongestOfThreeIff(ranked: seq<NodeInfo>, safe: bool)
    requires ranked != []
    ensures Longest(Greedy(ranked, safe, 3), ranked, 3) <==>
              match SecondPlace(ranked, safe)
              case Some(j) =>
                || (exists n :: n in ranked && !Clash(ranked[0], n) && !Clash(ranked[j], n))
                || !SomeTriple(ranked)
              case None => !SomePair(ranked)
  {
    hide Greedy, Clash, SomeTriple, SomePair, SecondPlace;
    var two, path := Greedy(ranked, safe, 2), Greedy(ranked, safe, 3);
    SecondHop(ranked, safe);
    GreedyShape(ranked, safe, 2);
    GreedyShape(ranked, safe, 3);
    GreedyPrefix(ranked, safe, 2);
    if |path| == 3 {
      assert path[2] in path && !Clash(two[0], path[2]) && !Clash(two[1], path[2]);
    } else {
      assert path == two;
      LongestByTriples(path, ranked);
      TripleHasPair(ranked);
      if |two| == 2 {
        forall n | n in ranked ensures Clash(two[0], n) || Clash(two[1], n) {
          TripleSeparated(two[0], two[1], n);
          assert two == [two[0], two[1]];
        }
      }
    }
  }

  lemma TripleHasPair(pool: seq<NodeInfo>)
    ensures SomeTriple(pool) ==> SomePair(pool)
  {
    hide Clash;
  }

  /** The family that fails: the best node clashes with two nodes that are
      separated from each other, and the path stops at one hop. */
  lemma {:induction false} GreedyStopsShort(a: NodeInfo, b: NodeInfo, c: NodeInfo, safe: bool, cap: int)
    requires Clash(a, b) && Clash(a, c) && !Clash(b, c) && 2 <= cap <= 3
    ensures Greedy([a, b, c], safe, cap) == [a] && !Longest([a], [a, b, c], cap)
  {
    hide Greedy, Clash;
    var ranked := [a, b, c];
    var path := Greedy(ranked, safe, cap);
    GreedyShape(ranked, safe, cap);
    if |path| > 1 {
      assert !Clash(path[0], path[1]) && path[1] in path;
      RepeatClashes(a);
      assert false;
    }
    PairSeparated(b, c);
    var q := [b] + [c];
    assert Separated(q) && |q| == 2 && forall n :: n in q ==> n in ranked;
  }

  lemma RepeatClashes(n: NodeInfo)
    ensures Clash(n, n)
  {
  }
}
