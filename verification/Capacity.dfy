/** The client limit of the node controller, with the capacity check and the
    session commit as separate steps of concurrent authorizations. */
module Capacity {
  import opened Wrappers
  import opened Ipam
  import opened Sessions

  /** The session table, the authorizations past their check, and the clock. */
  datatype Floor = Floor(t: Table, inflight: nat, now: Time) {
    ghost function Live(): nat {
      |t.Live(now)|
    }
  }

  datatype FloorEvent =
    | Check(at: Time)
    | CommitSession(tok: Result<Token, AuthError>, key: string, addr: Option<uint32>, endpoint: string, at: Time)
    | Abandon
    | Revoking(id: string)
    | Sweeping(at: Time)
    | Tick(at: Time)

  ghost function Clock(f: Floor, e: FloorEvent): Time {
    match e
    case Check(at) => at
    case CommitSession(_, _, _, _, at) => at
    case Sweeping(at) => at
    case Tick(at) => at
    case _ => f.now
  }

  /** A check passes below the limit; at most k authorizations are in flight. */
  ghost predicate Allowed(max: int, k: nat, f: Floor, e: FloorEvent) {
    && f.now <= Clock(f, e)
    && (e.Check? ==> |f.t.Live(e.at)| < max && f.inflight < k)
    && (e.CommitSession? || e.Abandon? ==> f.inflight > 0)
  }

  ghost function Act(cap: int, f: Floor, e: FloorEvent): Floor
    requires e.CommitSession? || e.Abandon? ==> f.inflight > 0
  {
    match e
    case Check(at) => Floor(f.t, f.inflight + 1, at)
    case CommitSession(tok, key, addr, endpoint, at) =>
      var t := if Refusal(f.t, at, tok).Some? then f.t
               else Open(f.t, Opened(f.t, cap, at, tok.value, key, addr, endpoint));
      Floor(t, f.inflight - 1, at)
    case Abandon => f.(inflight := f.inflight - 1)
    case Revoking(id) => f.(t := Revoke(f.t, id))
    case Sweeping(at) => Floor(Sweep(f.t, at), f.inflight, at)
    case Tick(at) => f.(now := at)
  }

  lemma {:induction false} SubsetCount(a: set<string>, b: set<string>)
    requires a <= b
    ensures |a| <= |b|
  {
    assert b == a + (b - a);
  }

  lemma {:induction false} TimeOnlyEnds(t: Table, now: Time, later: Time)
    requires now <= later
    ensures t.Live(later) <= t.Live(now) && |t.Live(later)| <= |t.Live(now)|
  {
    SubsetCount(t.Live(later), t.Live(now));
  }

  lemma {:induction false} OpenAddsOne(t: Table, s: Session, now: Time)
    ensures |Open(t, s).Live(now)| <= |t.Live(now)| + 1
  {
    SubsetCount(Open(t, s).Live(now), t.Live(now) + {s.tokenID});
  }

  lemma {:induction false} RemovalShrinks(t: Table, u: Table, now: Time)
    requires forall id :: id in u.byToken ==> id in t.byToken && u.byToken[id] == t.byToken[id]
    ensures |u.Live(now)| <= |t.Live(now)|
  {
    SubsetCount(u.Live(now), t.Live(now));
  }

  /** Live sessions plus authorizations in flight. */
  ghost predicate Bounded(max: int, k: nat, f: Floor) {
    f.inflight <= k && f.Live() + f.inflight <= max - 1 + k
  }

  lemma {:induction false} ActKeeps(cap: int, max: int, k: nat, f: Floor, e: FloorEvent)
    requires Bounded(max, k, f) && Allowed(max, k, f, e)
    ensures Bounded(max, k, Act(cap, f, e))
  {
    TimeOnlyEnds(f.t, f.now, Clock(f, e));
    match e
    case Check(_) =>
    case CommitSession(tok, key, addr, endpoint, at) =>
      if Refusal(f.t, at, tok).None? { OpenAddsOne(f.t, Opened(f.t, cap, at, tok.value, key, addr, endpoint), at); }
    case Abandon =>
    case Revoking(id) => RemovalShrinks(f.t, Revoke(f.t, id), f.now);
    case Sweeping(at) => RemovalShrinks(f.t, Sweep(f.t, at), at);
    case Tick(_) =>
  }

  ghost predicate FloorRun(cap: int, max: int, k: nat, fs: seq<Floor>, es: seq<FloorEvent>) {
    && |fs| == |es| + 1 && fs[0].t == NoSessions && fs[0].inflight == 0
    && forall i :: 0 <= i < |es| ==> Follows(cap, max, k, fs[i], es[i], fs[i + 1])
  }

  ghost predicate Follows(cap: int, max: int, k: nat, f: Floor, e: FloorEvent, g: Floor) {
    Allowed(max, k, f, e) && g == Act(cap, f, e)
  }

  lemma {:induction false} RunBounded(cap: int, max: int, k: nat, fs: seq<Floor>, es: seq<FloorEvent>, n: nat)
    requires FloorRun(cap, max, k, fs, es) && n <= |es| && max >= 1
    ensures Bounded(max, k, fs[n])
  {
    hide Act, Allowed;
    if n == 0 {
      assert fs[0].t.Live(fs[0].now) == {};
    } else {
      RunBounded(cap, max, k, fs, es, n - 1);
      assert Follows(cap, max, k, fs[n - 1], es[n - 1], fs[n]);
      ActKeeps(cap, max, k, fs[n - 1], es[n - 1]);
    }
  }

  /** With at most k authorizations in flight, live sessions never exceed the
      limit by more than k - 1; serial calls never exceed it. */
  lemma {:induction false} LiveWithinCapacity(cap: int, max: int, k: nat, fs: seq<Floor>, es: seq<FloorEvent>, n: nat)
    requires FloorRun(cap, max, k, fs, es) && n <= |es| && max >= 1
    ensures fs[n].Live() <= max - 1 + k
    ensures k <= 1 ==> fs[n].Live() <= max
  {
    RunBounded(cap, max, k, fs, es, n);
  }

  // ---------------------------------------------------------------- the bound is reached

  function IdOf(i: nat): string {
    seq(i + 1, _ => 'x')
  }

  ghost function FirstIds(n: nat): set<string> {
    set i | 0 <= i < n :: IdOf(i)
  }

  lemma {:induction false} IdsApart(i: nat, j: nat)
    ensures IdOf(i) == IdOf(j) <==> i == j
  {
    assert |IdOf(i)| == i + 1 && |IdOf(j)| == j + 1;
  }

  lemma {:induction false} FirstIdsSnoc(n: nat)
    ensures FirstIds(n + 1) == FirstIds(n) + {IdOf(n)} && IdOf(n) !in FirstIds(n)
  {
    hide IdOf;
    forall i | 0 <= i < n ensures IdOf(i) != IdOf(n) { IdsApart(i, n); }
  }

  lemma {:induction false} FirstIdsCount(n: nat)
    ensures |FirstIds(n)| == n && IdOf(n) !in FirstIds(n) && FirstIds(n + 1) == FirstIds(n) + {IdOf(n)}
  {
    hide IdOf;
    FirstIdsSnoc(n);
    if n == 0 {
      assert FirstIds(0) == {};
    } else {
      FirstIdsCount(n - 1);
    }
  }

  /** Exactly n open sessions, under the first n ids, none of them with an end. */
  ghost predicate Full(f: Floor, n: nat) {
    && f.t.byToken.Keys == FirstIds(n) && f.t.revoked == {}
    && forall id :: id in f.t.byToken ==> f.t.byToken[id].expires == None
  }

  /** Some run without a duration cap leads to n live sessions and p authorizations in flight. */
  ghost predicate Reaches(max: int, k: nat, n: nat, p: nat) {
    exists fs: seq<Floor>, es: seq<FloorEvent> ::
      |fs| == |es| + 1 && FloorRun(0, max, k, fs, es) && Full(fs[|es|], n) && fs[|es|].inflight == p
  }

  lemma {:induction false} FullIsLive(f: Floor, n: nat)
    requires Full(f, n)
    ensures f.t.Live(f.now) == FirstIds(n) && f.Live() == n
  {
    FirstIdsCount(n);
  }

  lemma {:induction false} ReachMore(max: int, k: nat, fs: seq<Floor>, es: seq<FloorEvent>, e: FloorEvent)
    requires FloorRun(0, max, k, fs, es) && Allowed(max, k, fs[|es|], e)
    ensures FloorRun(0, max, k, fs + [Act(0, fs[|es|], e)], es + [e])
  {
    hide Act;
    var gs, ds := fs + [Act(0, fs[|es|], e)], es + [e];
    forall i | 0 <= i < |ds| ensures Follows(0, max, k, gs[i], ds[i], gs[i + 1]) {
      if i < |es| { assert Follows(0, max, k, fs[i], es[i], fs[i + 1]); }
    }
  }

  lemma {:induction false} ReachCheck(max: int, k: nat, n: nat, p: nat)
    requires Reaches(max, k, n, p) && n < max && p < k
    ensures Reaches(max, k, n, p + 1)
  {
    hide FloorRun;
    var fs: seq<Floor>, es: seq<FloorEvent> :|
      |fs| == |es| + 1 && FloorRun(0, max, k, fs, es) && Full(fs[|es|], n) && fs[|es|].inflight == p;
    var f := fs[|es|];
    var e := Check(f.now);
    FullIsLive(f, n);
    ReachMore(max, k, fs, es, e);
    var gs, ds := fs + [Act(0, f, e)], es + [e];
    assert gs[|ds|] == Act(0, f, e);
  }

  lemma {:induction false} CommitFills(f: Floor, n: nat)
    requires Full(f, n) && f.inflight > 0
    ensures var e := CommitSession(Ok(Token(IdOf(n), "", "", None, "")), "", None, "", f.now);
            Full(Act(0, f, e), n + 1) && Act(0, f, e).inflight == f.inflight - 1
  {
    FirstIdsCount(n);
    hide FirstIds, IdOf;
    var tok := Token(IdOf(n), "", "", None, "");
    assert Refusal(f.t, f.now, Ok(tok)).None?;
    assert f.t.byToken[IdOf(n) := Opened(f.t, 0, f.now, tok, "", None, "")].Keys == f.t.byToken.Keys + {IdOf(n)};
  }

  lemma {:induction false} ReachCommit(max: int, k: nat, n: nat, p: nat)
    requires Reaches(max, k, n, p) && p > 0
    ensures Reaches(max, k, n + 1, p - 1)
  {
    hide FloorRun, Full;
    var fs: seq<Floor>, es: seq<FloorEvent> :|
      |fs| == |es| + 1 && FloorRun(0, max, k, fs, es) && Full(fs[|es|], n) && fs[|es|].inflight == p;
    var f := fs[|es|];
    var e := CommitSession(Ok(Token(IdOf(n), "", "", None, "")), "", None, "", f.now);
    CommitFills(f, n);
    ReachMore(max, k, fs, es, e);
    var gs, ds := fs + [Act(0, f, e)], es + [e];
    assert gs[|ds|] == Act(0, f, e);
  }

  lemma {:induction false} ReachSerial(max: int, k: nat, n: nat)
    requires n < max && k >= 1
    ensures Reaches(max, k, n, 0)
  {
    hide Reaches;
    if n == 0 {
      ReachStart(max, k);
    } else {
      ReachSerial(max, k, n - 1);
      ReachCheck(max, k, n - 1, 0);
      ReachCommit(max, k, n - 1, 1);
    }
  }

  lemma {:induction false} ReachStart(max: int, k: nat)
    ensures Reaches(max, k, 0, 0)
  {
    var fs, es: seq<FloorEvent> := [Floor(NoSessions, 0, 0)], [];
    assert FirstIds(0) == {};
    assert FloorRun(0, max, k, fs, es) && Full(fs[|es|], 0) && fs[|es|].inflight == 0;
  }

  lemma {:induction false} ReachChecks(max: int, k: nat, p: nat)
    requires max >= 1 && p <= k && k >= 1
    ensures Reaches(max, k, max - 1, p)
  {
    hide Reaches;
    if p == 0 {
      ReachSerial(max, k, max - 1);
    } else {
      ReachChecks(max, k, p - 1);
      ReachCheck(max, k, max - 1, p - 1);
    }
  }

  /** The bound is sharp: for every limit and every number of authorizations
      in flight, some run ends with exactly that many live sessions. */
  lemma {:induction false} BoundIsReached(max: int, k: nat, j: nat)
    requires max >= 1 && k >= 1 && j <= k
    ensures Reaches(max, k, max - 1 + j, k - j)
  {
    hide Reaches;
    if j == 0 {
      ReachChecks(max, k, k);
    } else {
      BoundIsReached(max, k, j - 1);
      ReachCommit(max, k, max - 1 + j - 1, k - (j - 1));
    }
  }
}
