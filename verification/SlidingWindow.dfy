/** The sliding-window limiter of internal/security/acl.go. */
module SlidingWindow {
  type Time = int

  /** The times after a cut, in order. */
  function Keep(ts: seq<Time>, cut: Time): seq<Time> {
    if ts == [] then []
    else
      var init, t := Keep(ts[..|ts| - 1], cut), ts[|ts| - 1];
      if t > cut then init + [t] else init
  }

  function Get(m: map<string, seq<Time>>, key: string): seq<Time> {
    if key in m then m[key] else []
  }

  datatype Limit = Limit(max: int, window: int) {
    predicate Valid() {
      max > 0 && window > 0
    }
  }

  /** One event on a key's list of recent hits. */
  function Hit(l: Limit, hits: seq<Time>, now: Time): (bool, seq<Time>) {
    var kept := Keep(hits, now - l.window);
    if |kept| >= l.max then (false, kept) else (true, kept + [now])
  }

  // ---------------------------------------------------------------- hit lists in place

  /** A Go slice: the first len elements of its backing array. */
  datatype Slice = Slice(data: array<Time>, len: nat)

  /** Prunes in place: the kept times move down over the array being read, and
      no write overtakes a read. */
  method Compact(a: array<Time>, n: nat, cut: Time) returns (k: nat)
    requires n <= a.Length
    modifies a
    ensures k <= n && a[..k] == Keep(old(a[..n]), cut)
  {
    ghost var all := a[..n];
    k := 0;
    for i := 0 to n
      invariant k <= i && a[..k] == Keep(all[..i], cut)
      invariant forall j :: i <= j < n ==> a[j] == all[j]
    {
      assert all[..i + 1][..i] == all[..i];
      if a[i] > cut {
        a[k] := a[i];
        k := k + 1;
      }
    }
    assert all[..n] == all;
  }

  /** Go's append: in place while the backing array has room, else into a new one. */
  method Append(s: Slice, t: Time) returns (r: Slice)
    requires s.len <= s.data.Length
    modifies s.data
    ensures r.len == s.len + 1 <= r.data.Length && (r.data == s.data || fresh(r.data))
    ensures r.data[..r.len] == old(s.data[..s.len]) + [t]
  {
    if s.len < s.data.Length {
      s.data[s.len] := t;
      return Slice(s.data, s.len + 1);
    }
    var grown := new Time[2 * s.len + 1](_ => t);
    forall i | 0 <= i < s.len {
      grown[i] := s.data[i];
    }
    return Slice(grown, s.len + 1);
  }

  /** One event on a slice: prune in place, then append unless the list is full. */
  method HitSlice(l: Limit, s: Slice, now: Time) returns (ok: bool, r: Slice)
    requires s.len <= s.data.Length
    modifies s.data
    ensures r.len <= r.data.Length && (r.data == s.data || fresh(r.data))
    ensures (ok, r.data[..r.len]) == Hit(l, old(s.data[..s.len]), now)
  {
    hide Keep;
    var k := Compact(s.data, s.len, now - l.window);
    if k >= l.max {
      return false, Slice(s.data, k);
    }
    r := Append(Slice(s.data, k), now);
    return true, r;
  }

  /** Every slice fits its array, and no two keys share one. */
  ghost predicate Apart(m: map<string, Slice>) {
    && (forall k :: k in m ==> m[k].len <= m[k].data.Length)
    && (forall j, k :: j in m && k in m && j != k ==> m[j].data != m[k].data)
  }

  ghost function Arrays(m: map<string, Slice>): set<array<Time>> {
    set k | k in m :: m[k].data
  }

  /** The hit list of every key. */
  ghost function Lists(m: map<string, Slice>): map<string, seq<Time>>
    requires Apart(m)
    reads Arrays(m)
  {
    map k | k in m :: m[k].data[..m[k].len]
  }

  lemma {:induction false} Without(m: map<string, Slice>, key: string)
    requires Apart(m)
    ensures Apart(m - {key}) && Lists(m - {key}) == Lists(m) - {key}
    ensures key in m ==> m[key].data !in Arrays(m - {key}) && m[key].data in Arrays(m)
    ensures key in m ==> m[key].len <= m[key].data.Length && Lists(m)[key] == m[key].data[..m[key].len]
    ensures Arrays(m - {key}) <= Arrays(m)
  {
  }

  lemma {:induction false} PutApart(m: map<string, Slice>, key: string, r: Slice)
    requires Apart(m) && key !in m && r.len <= r.data.Length && r.data !in Arrays(m)
    ensures Apart(m[key := r]) && Arrays(m[key := r]) == Arrays(m) + {r.data}
  {
    var all := m[key := r];
    forall k | k in m ensures all[k] == m[k] && m[k].data in Arrays(m) && m[k].data in Arrays(all) {
    }
    assert all[key] == r && r.data in Arrays(all);
  }

  lemma {:induction false} Put(m: map<string, Slice>, key: string, r: Slice)
    requires Apart(m) && key !in m && r.len <= r.data.Length && r.data !in Arrays(m)
    ensures Apart(m[key := r]) && Arrays(m[key := r]) == Arrays(m) + {r.data}
    ensures Lists(m[key := r]) == Lists(m)[key := r.data[..r.len]]
  {
    PutApart(m, key, r);
    hide Apart, Arrays;
    assert Lists(m[key := r]).Keys == m.Keys + {key};
  }

  class RateLimiter {
    const limit: Limit
    var hits: map<string, Slice>

    ghost predicate Valid()
      reads this
    {
      Apart(hits)
    }

    ghost function Repr(): set<array<Time>>
      reads this
    {
      Arrays(hits)
    }

    ghost function View(): map<string, seq<Time>>
      requires Valid()
      reads this, Repr()
    {
      Lists(hits)
    }

    constructor (limit: Limit)
      requires limit.Valid()
      ensures this.limit == limit && hits == map[]
    {
      this.limit := limit;
      hits := map[];
    }

    method Allow(key: string, now: Time) returns (ok: bool)
      requires Valid()
      modifies this, Repr()
      ensures Valid() && fresh(Repr() - old(Repr()))
      ensures var (allowed, list) := Hit(limit, Get(old(View()), key), now);
              ok == allowed && View() == old(View())[key := list]
    {
      hide Hit, Apart, Lists;
      ghost var was, rest := View(), hits - {key};
      Without(hits, key);
      ghost var others, lists := Arrays(rest), Lists(rest);
      var s := SliceOf(key);
      assert View() == was;
      var r: Slice;
      ok, r := HitSlice(limit, s, now);
      assert s.data !in others && Arrays(rest) == others && Lists(rest) == lists;
      Put(rest, key, r);
      assert rest[key := r] == hits[key := r];
      assert (was - {key})[key := r.data[..r.len]] == was[key := r.data[..r.len]];
      hits := hits[key := r];
    }

    /** The slice of a key; a missing key has an empty one. */
    method SliceOf(key: string) returns (s: Slice)
      requires Valid()
      ensures s.len <= s.data.Length && s.data[..s.len] == Get(View(), key)
      ensures if key in hits then s == hits[key] else fresh(s.data)
    {
      if key in hits {
        return hits[key];
      }
      var none := new Time[0];
      return Slice(none, 0);
    }
  }

  /** A limiter, unless the parameters are not positive. */
  method NewRateLimiter(limit: Limit) returns (r: RateLimiter?)
    ensures r != null <==> limit.Valid()
    ensures r != null ==> fresh(r) && r.limit == limit && r.Valid() && r.View() == map[]
  {
    if limit.max <= 0 || limit.window <= 0 {
      return null;
    }
    r := new RateLimiter(limit);
  }

  // ---------------------------------------------------------------- call sequences

  datatype Call = Call(key: string, now: Time)

  predicate Monotone(cs: seq<Call>) {
    forall i, j :: 0 <= i < j < |cs| ==> cs[i].now <= cs[j].now
  }

  /** The hit lists after a sequence of calls. */
  function After(l: Limit, cs: seq<Call>): map<string, seq<Time>> {
    if cs == [] then map[]
    else
      var m, c := After(l, cs[..|cs| - 1]), cs[|cs| - 1];
      m[c.key := Hit(l, Get(m, c.key), c.now).1]
  }

  /** Every allowed event of a key, nothing forgotten. */
  function History(l: Limit, cs: seq<Call>, key: string): seq<Time> {
    if cs == [] then []
    else
      var init, c := cs[..|cs| - 1], cs[|cs| - 1];
      if c.key == key && Hit(l, Get(After(l, init), key), c.now).0 then History(l, init, key) + [c.now]
      else History(l, init, key)
  }

  lemma {:induction false} KeepConcat(a: seq<Time>, b: seq<Time>, cut: Time)
    ensures Keep(a + b, cut) == Keep(a, cut) + Keep(b, cut)
    decreases |b|
  {
    if b == [] {
      assert a + b == a;
    } else {
      assert (a + b)[..|a + b| - 1] == a + b[..|b| - 1];
      KeepConcat(a, b[..|b| - 1], cut);
    }
  }

  lemma {:induction false} KeepOne(t: Time, cut: Time)
    ensures Keep([t], cut) == if t > cut then [t] else []
  {
    assert [t][..0] == [];
  }

  lemma {:induction false} KeepTwice(ts: seq<Time>, a: Time, b: Time)
    requires a <= b
    ensures Keep(Keep(ts, a), b) == Keep(ts, b)
    decreases |ts|
  {
    if ts != [] {
      var init, t := ts[..|ts| - 1], ts[|ts| - 1];
      KeepTwice(init, a, b);
      if t > a {
        KeepConcat(Keep(init, a), [t], b);
        KeepOne(t, b);
      }
    }
  }

  lemma {:induction false} HitPruned(l: Limit, list: seq<Time>, hist: seq<Time>, now: Time, cut: Time)
    requires Keep(list, cut) == Keep(hist, cut) && now - l.window <= cut
    ensures var (ok, next) := Hit(l, list, now); Keep(next, cut) == Keep(if ok then hist + [now] else hist, cut)
  {
    var kept := Keep(list, now - l.window);
    KeepTwice(list, now - l.window, cut);
    KeepConcat(kept, [now], cut);
    KeepConcat(hist, [now], cut);
  }

  /** The pruned list is the full history of allowed events, as far as any
      later cut can tell. */
  lemma {:induction false} PrunedIsHistory(l: Limit, cs: seq<Call>, key: string, cut: Time)
    requires forall i :: 0 <= i < |cs| && cs[i].key == key ==> cs[i].now - l.window <= cut
    ensures Keep(Get(After(l, cs), key), cut) == Keep(History(l, cs, key), cut)
    decreases |cs|
  {
    hide Keep, Hit;
    if cs != [] {
      var init, c := cs[..|cs| - 1], cs[|cs| - 1];
      PrunedIsHistory(l, init, key, cut);
      if c.key == key {
        HitPruned(l, Get(After(l, init), key), History(l, init, key), c.now, cut);
      }
    }
  }

  /** After every call the key's own list equals the pruned history. */
  lemma {:induction false} ListIsPrunedHistory(l: Limit, cs: seq<Call>)
    requires l.Valid() && Monotone(cs) && cs != []
    ensures var c := cs[|cs| - 1]; After(l, cs)[c.key] == Keep(History(l, cs, c.key), c.now - l.window)
  {
    hide Keep;
    var init, c := cs[..|cs| - 1], cs[|cs| - 1];
    var cut := c.now - l.window;
    PrunedIsHistory(l, init, c.key, cut);
    KeepConcat(History(l, init, c.key), [c.now], cut);
    KeepOne(c.now, cut);
  }

  /** How many allowed events fall in the half-open window after x. */
  function InWindow(ts: seq<Time>, x: Time, window: int): nat {
    if ts == [] then 0
    else
      InWindow(ts[..|ts| - 1], x, window) + if x < ts[|ts| - 1] <= x + window then 1 else 0
  }

  lemma {:induction false} InWindowSnoc(ts: seq<Time>, t: Time, x: Time, window: int)
    ensures InWindow(ts + [t], x, window) == InWindow(ts, x, window) + if x < t <= x + window then 1 else 0
  {
    assert (ts + [t])[..|ts|] == ts;
  }

  lemma {:induction false} InWindowAtMostKept(ts: seq<Time>, x: Time, window: int, cut: Time)
    requires cut <= x
    ensures InWindow(ts, x, window) <= |Keep(ts, cut)|
    decreases |ts|
  {
    if ts != [] { InWindowAtMostKept(ts[..|ts| - 1], x, window, cut); }
  }

  /** For every key, every window of the configured length holds at most the
      configured number of allowed events. */
  lemma {:induction false} AtMostMaxPerWindow(l: Limit, cs: seq<Call>, key: string, x: Time)
    requires l.Valid() && Monotone(cs)
    ensures InWindow(History(l, cs, key), x, l.window) <= l.max
    decreases |cs|
  {
    hide Keep;
    if cs != [] {
      var init, c := cs[..|cs| - 1], cs[|cs| - 1];
      AtMostMaxPerWindow(l, init, key, x);
      var hist, list := History(l, init, key), Get(After(l, init), key);
      if c.key == key && Hit(l, list, c.now).0 {
        InWindowSnoc(hist, c.now, x, l.window);
        if x < c.now <= x + l.window {
          PrunedIsHistory(l, init, key, c.now - l.window);
          InWindowAtMostKept(hist, x, l.window, c.now - l.window);
        }
      }
    }
  }

  // ---------------------------------------------------------------- closed windows

  /** How many allowed events fall in the window with both its edges. */
  function InClosed(ts: seq<Time>, x: Time, window: int): nat {
    if ts == [] then 0
    else
      InClosed(ts[..|ts| - 1], x, window) + if x <= ts[|ts| - 1] <= x + window then 1 else 0
  }

  lemma {:induction false} ClosedIsTwoOpen(ts: seq<Time>, x: Time, window: int)
    requires window > 0
    ensures InClosed(ts, x, window) <= InWindow(ts, x, window) + InWindow(ts, x - 1, window)
    decreases |ts|
  {
    if ts != [] { ClosedIsTwoOpen(ts[..|ts| - 1], x, window); }
  }

  /** A window that also counts its left edge holds at most twice the limit. */
  lemma {:induction false} AtMostTwicePerClosedWindow(l: Limit, cs: seq<Call>, key: string, x: Time)
    requires l.Valid() && Monotone(cs)
    ensures InClosed(History(l, cs, key), x, l.window) <= 2 * l.max
  {
    ClosedIsTwoOpen(History(l, cs, key), x, l.window);
    AtMostMaxPerWindow(l, cs, key, x);
    AtMostMaxPerWindow(l, cs, key, x - 1);
  }

  function Burst(key: string, now: Time, n: nat): seq<Call> {
    seq(n, _ => Call(key, now))
  }

  function Times(now: Time, n: nat): seq<Time> {
    seq(n, _ => now)
  }

  lemma {:induction false} KeepTimes(now: Time, n: nat, cut: Time)
    ensures Keep(Times(now, n), cut) == if now > cut then Times(now, n) else []
  {
    if n > 0 {
      assert Times(now, n)[..n - 1] == Times(now, n - 1);
      KeepTimes(now, n - 1, cut);
      assert Times(now, n) == Times(now, n - 1) + [now];
    } else {
      assert Times(now, n) == [];
    }
  }

  /** A burst of up to max calls, when the window holds no kept event, is allowed in full. */
  lemma {:induction false} BurstAllowed(l: Limit, cs: seq<Call>, key: string, now: Time, n: nat)
    requires l.Valid() && n <= l.max && Keep(Get(After(l, cs), key), now - l.window) == []
    ensures var all := cs + Burst(key, now, n);
            && History(l, all, key) == History(l, cs, key) + Times(now, n)
            && Keep(Get(After(l, all), key), now - l.window) == Times(now, n)
    decreases n
  {
    hide Keep, After, History;
    var all := cs + Burst(key, now, n);
    if n == 0 {
      assert all == cs && Times(now, 0) == [];
    } else {
      var init := cs + Burst(key, now, n - 1);
      BurstAllowed(l, cs, key, now, n - 1);
      assert all == init + [Call(key, now)];
      OneMore(l, init, key, now);
      assert Times(now, n - 1) + [now] == Times(now, n);
      KeepTimes(now, n, now - l.window);
    }
  }

  lemma {:induction false} OneMore(l: Limit, cs: seq<Call>, key: string, now: Time)
    ensures var all := cs + [Call(key, now)]; var (ok, list) := Hit(l, Get(After(l, cs), key), now);
            && Get(After(l, all), key) == list
            && History(l, all, key) == if ok then History(l, cs, key) + [now] else History(l, cs, key)
  {
    hide Hit;
    assert (cs + [Call(key, now)])[..|cs|] == cs;
  }

  lemma {:induction false} ClosedTimes(ts: seq<Time>, now: Time, n: nat, x: Time, window: int)
    requires x <= now <= x + window
    ensures InClosed(ts + Times(now, n), x, window) == InClosed(ts, x, window) + n
    decreases n
  {
    var all := ts + Times(now, n);
    if n == 0 {
      assert all == ts;
    } else {
      assert all[..|all| - 1] == ts + Times(now, n - 1) && all[|all| - 1] == now;
      ClosedTimes(ts, now, n - 1, x, window);
    }
  }

  /** For every limit that bound is reached: max calls at the left edge and
      max at the right edge are all allowed. */
  lemma {:induction false} ClosedWindowHoldsTwice(l: Limit, key: string)
    requires l.Valid()
    ensures var cs := Burst(key, 0, l.max) + Burst(key, l.window, l.max);
            && Monotone(cs) && History(l, cs, key) == Times(0, l.max) + Times(l.window, l.max)
            && InClosed(History(l, cs, key), 0, l.window) == 2 * l.max
  {
    hide Keep, History, After, InClosed;
    var left := Burst(key, 0, l.max);
    assert After(l, []) == map[] && History(l, [], key) == [] by { NothingYet(l, key); }
    assert Keep([], 0 - l.window) == [] by { KeepTimes(0, 0, 0 - l.window); assert Times(0, 0) == []; }
    BurstAllowed(l, [], key, 0, l.max);
    assert [] + left == left && [] + Times(0, l.max) == Times(0, l.max);
    BurstGone(l, left, key);
    BurstAllowed(l, left, key, l.window, l.max);
    assert InClosed([], 0, l.window) == 0 by { NoneClosed(l.window); }
    ClosedTimes([], 0, l.max, 0, l.window);
    ClosedTimes(Times(0, l.max), l.window, l.max, 0, l.window);
  }

  lemma NothingYet(l: Limit, key: string)
    ensures After(l, []) == map[] && History(l, [], key) == []
  {
  }

  lemma NoneClosed(window: int)
    ensures InClosed([], 0, window) == 0
  {
  }

  /** One window later nothing of a burst at zero is left. */
  lemma {:induction false} BurstGone(l: Limit, left: seq<Call>, key: string)
    requires l.Valid() && Keep(Get(After(l, left), key), 0 - l.window) == Times(0, l.max)
    ensures Keep(Get(After(l, left), key), l.window - l.window) == []
  {
    KeepTwice(Get(After(l, left), key), 0 - l.window, 0);
    KeepTimes(0, l.max, 0);
  }
}
