/** The per-address token buckets of internal/nodes/ratelimit.go. */
module TokenBucket {
  import opened Wrappers
  import opened Text

  type Time = int

  datatype Bucket = Bucket(tokens: real, last: Time)

  /** Bucket capacity and refill interval of one token, after defaults. */
  datatype Limit = Limit(burst: int, window: int) {
    predicate Valid() {
      burst >= 1 && window >= 1
    }
  }

  const Second: int := 1_000_000_000
  const DefaultAuthorize := Limit(8, 60 * Second)
  const DefaultMgmt := Limit(60, 60 * Second)

  function Normalize(c: Limit, d: Limit): (r: Limit)
    ensures d.Valid() ==> r.Valid()
    ensures (c.burst > 0 ==> r.burst == c.burst) && (c.window > 0 ==> r.window == c.window)
    ensures c.Valid() ==> r == c
    ensures (c.burst <= 0 ==> r.burst == d.burst) && (c.window <= 0 ==> r.window == d.window)
  {
    Limit(if c.burst <= 0 then d.burst else c.burst, if c.window <= 0 then d.window else c.window)
  }

  /** The bucket key of an address; parse canonicalises IP text. */
  function BucketKey(parse: string -> Option<string>, ip: string): string {
    if ip == "" then "unknown"
    else
      var host := match SplitHostPort(ip) case Some((h, _)) => h case None => ip;
      match parse(host) case Some(text) => text case None => "invalid:" + host
  }

  /** Tokens earned in an elapsed time. */
  function Earned(l: Limit, elapsed: int): real
    requires l.Valid()
  {
    elapsed as real / l.window as real
  }

  function Refill(l: Limit, b: Bucket, now: Time): Bucket
    requires l.Valid()
  {
    if now <= b.last then b
    else
      var t := b.tokens + Earned(l, now - b.last);
      Bucket(if t > l.burst as real then l.burst as real else t, now)
  }

  /** One call on a key's bucket, which starts full. */
  function Take(l: Limit, b: Option<Bucket>, now: Time): (bool, Bucket)
    requires l.Valid()
  {
    var r := Refill(l, if b.Some? then b.value else Bucket(l.burst as real, now), now);
    if r.tokens < 1.0 then (false, r) else (true, r.(tokens := r.tokens - 1.0))
  }

  function Get(m: map<string, Bucket>, key: string): Option<Bucket> {
    if key in m then Some(m[key]) else None
  }

  class RateLimiter {
    const parse: string -> Option<string>
    const authLimit: Limit
    const mgmtLimit: Limit
    var auth: map<string, Bucket>
    var mgmt: map<string, Bucket>

    ghost predicate Valid() {
      authLimit.Valid() && mgmtLimit.Valid()
    }

    constructor (parse: string -> Option<string>, authorize: Limit, manage: Limit)
      ensures Valid() && auth == map[] && mgmt == map[] && this.parse == parse
      ensures authLimit == Normalize(authorize, DefaultAuthorize) && mgmtLimit == Normalize(manage, DefaultMgmt)
    {
      this.parse := parse;
      authLimit, mgmtLimit := Normalize(authorize, DefaultAuthorize), Normalize(manage, DefaultMgmt);
      auth, mgmt := map[], map[];
    }

    method AllowAuthorize(ip: string, now: Time) returns (ok: bool)
      requires Valid()
      modifies this`auth
      ensures var key := BucketKey(parse, ip); var (granted, b) := Take(authLimit, Get(old(auth), key), now);
              ok == granted && auth == old(auth)[key := b]
    {
      ok, auth := Allow(auth, BucketKey(parse, ip), authLimit, now);
    }

    method AllowMgmt(ip: string, now: Time) returns (ok: bool)
      requires Valid()
      modifies this`mgmt
      ensures var key := BucketKey(parse, ip); var (granted, b) := Take(mgmtLimit, Get(old(mgmt), key), now);
              ok == granted && mgmt == old(mgmt)[key := b]
    {
      ok, mgmt := Allow(mgmt, BucketKey(parse, ip), mgmtLimit, now);
    }
  }

  method Allow(m: map<string, Bucket>, key: string, l: Limit, now: Time) returns (ok: bool, m': map<string, Bucket>)
    requires l.Valid()
    ensures var (granted, b) := Take(l, Get(m, key), now); ok == granted && m' == m[key := b]
  {
    var b := if key in m then m[key] else Bucket(l.burst as real, now);
    var elapsed := now - b.last;
    if elapsed > 0 {
      var tokens := b.tokens + elapsed as real / l.window as real;
      if tokens > l.burst as real {
        tokens := l.burst as real;
      }
      b := Bucket(tokens, now);
    }
    if b.tokens < 1.0 {
      return false, m[key := b];
    }
    b := b.(tokens := b.tokens - 1.0);
    return true, m[key := b];
  }

  // ---------------------------------------------------------------- call sequences

  datatype Call = Call(key: string, now: Time)

  predicate Monotone(cs: seq<Call>) {
    forall i, j :: 0 <= i < j < |cs| ==> cs[i].now <= cs[j].now
  }

  /** The buckets after a sequence of calls. */
  function After(l: Limit, cs: seq<Call>): map<string, Bucket>
    requires l.Valid()
  {
    if cs == [] then map[]
    else
      var m, c := After(l, cs[..|cs| - 1]), cs[|cs| - 1];
      m[c.key := Take(l, Get(m, c.key), c.now).1]
  }

  /** Whether call i was allowed. */
  predicate Granted(l: Limit, cs: seq<Call>, i: nat)
    requires l.Valid() && i < |cs|
  {
    Take(l, Get(After(l, cs[..i]), cs[i].key), cs[i].now).0
  }

  /** One key's bucket, computed from that key's calls alone. */
  function Alone(l: Limit, cs: seq<Call>, key: string): Option<Bucket>
    requires l.Valid()
  {
    if cs == [] then None
    else
      var b, c := Alone(l, cs[..|cs| - 1], key), cs[|cs| - 1];
      if c.key != key then b else Some(Take(l, b, c.now).1)
  }

  /** Keys do not affect each other. */
  lemma {:induction false} KeysIndependent(l: Limit, cs: seq<Call>, key: string)
    requires l.Valid()
    ensures Get(After(l, cs), key) == Alone(l, cs, key)
    decreases |cs|
  {
    if cs != [] { KeysIndependent(l, cs[..|cs| - 1], key); }
  }

  /** The calls of a key between two times that were allowed. */
  function Grants(l: Limit, cs: seq<Call>, key: string, a: Time, b: Time): nat
    requires l.Valid()
  {
    if cs == [] then 0
    else
      var n := |cs| - 1;
      Grants(l, cs[..n], key, a, b) + if cs[n].key == key && a <= cs[n].now <= b && Granted(l, cs, n) then 1 else 0
  }

  lemma {:induction false} EarnedAdds(l: Limit, x: int, y: int)
    requires l.Valid()
    ensures Earned(l, x) + Earned(l, y) == Earned(l, x + y)
    ensures x >= 0 ==> Earned(l, x) >= 0.0
    ensures x >= l.window ==> Earned(l, x) >= 1.0
  {
    var w := l.window as real;
    assert (x + y) as real == x as real + y as real;
    assert x as real / w + y as real / w == (x as real + y as real) / w;
    if x >= l.window { assert x as real / w >= w / w; }
  }

  predicate Sane(l: Limit, b: Bucket) {
    0.0 <= b.tokens <= l.burst as real
  }

  lemma {:induction false} TakeSane(l: Limit, b: Option<Bucket>, now: Time)
    requires l.Valid() && (b.Some? ==> Sane(l, b.value))
    ensures Sane(l, Take(l, b, now).1)
  {
    if b.Some? && now > b.value.last { EarnedAdds(l, now - b.value.last, 0); }
  }

  /** Tokens always stay between zero and the burst. */
  lemma {:induction false} TokensInRange(l: Limit, cs: seq<Call>, key: string)
    requires l.Valid() && key in After(l, cs)
    ensures Sane(l, After(l, cs)[key])
  {
    KeysIndependent(l, cs, key);
    AloneSane(l, cs, key);
  }

  lemma {:induction false} AloneSane(l: Limit, cs: seq<Call>, key: string)
    requires l.Valid()
    ensures var b := Alone(l, cs, key); b.Some? ==> Sane(l, b.value)
    decreases |cs|
  {
    if cs != [] {
      var init, c := cs[..|cs| - 1], cs[|cs| - 1];
      AloneSane(l, init, key);
      if c.key == key { TakeSane(l, Alone(l, init, key), c.now); }
    }
  }

  /** A bucket is dated by the latest of its key's calls, even when the clock goes back. */
  lemma {:induction false} AloneLast(l: Limit, cs: seq<Call>, key: string)
    requires l.Valid()
    ensures var b := Alone(l, cs, key);
            && (b.Some? ==> exists i :: 0 <= i < |cs| && cs[i].key == key && cs[i].now == b.value.last)
            && (forall i :: 0 <= i < |cs| && cs[i].key == key ==> b.Some? && cs[i].now <= b.value.last)
    decreases |cs|
  {
    if cs != [] {
      var init := cs[..|cs| - 1];
      AloneLast(l, init, key);
      forall i | 0 <= i < |init| ensures init[i] == cs[i] { }
    }
  }

  /** Allowed calls in the window plus the tokens left never outrun the burst
      plus what was earned since the window began. */
  lemma {:induction false} Potential(l: Limit, cs: seq<Call>, key: string, a: Time, b: Time)
    requires l.Valid() && Monotone(cs) && a <= b
    ensures var g, u := Grants(l, cs, key, a, b) as real, Alone(l, cs, key);
            && g <= l.burst as real + Earned(l, b - a)
            && (u.None? || u.value.last < a ==> g == 0.0)
            && (u.Some? && a <= u.value.last <= b ==>
                  g + u.value.tokens <= l.burst as real + Earned(l, u.value.last - a))
    decreases |cs|
  {
    EarnedAdds(l, b - a, 0);
    if cs != [] {
      var n := |cs| - 1;
      var init, c := cs[..n], cs[n];
      Potential(l, init, key, a, b);
      if c.key == key {
        KeysIndependent(l, init, key);
        AloneLast(l, init, key);
        AloneSane(l, init, key);
        PotentialStep(l, Alone(l, init, key), c.now, a, b, Grants(l, init, key, a, b));
      }
    }
  }

  lemma {:induction false} PotentialStep(l: Limit, u: Option<Bucket>, now: Time, a: Time, b: Time, g: nat)
    requires l.Valid() && a <= b && (u.Some? ==> u.value.last <= now && Sane(l, u.value))
    requires g as real <= l.burst as real + Earned(l, b - a)
    requires u.None? || u.value.last < a ==> g == 0
    requires u.Some? && a <= u.value.last <= b ==>
               g as real + u.value.tokens <= l.burst as real + Earned(l, u.value.last - a)
    ensures var (ok, v) := Take(l, u, now); var g' := (g + if ok && a <= now <= b then 1 else 0) as real;
            && v.last == now
            && g' <= l.burst as real + Earned(l, b - a)
            && (now < a ==> g' == 0.0)
            && (a <= now <= b ==> g' + v.tokens <= l.burst as real + Earned(l, now - a))
  {
    TakeSane(l, u, now);
    if a <= now <= b {
      EarnedAdds(l, now - a, b - now);
      EarnedAdds(l, b - now, 0);
      if u.Some? && a <= u.value.last {
        EarnedAdds(l, u.value.last - a, now - u.value.last);
      }
    }
  }

  /** So many calls of one key at one time. */
  function Burst(key: string, now: Time, n: nat): seq<Call> {
    seq(n, _ => Call(key, now))
  }

  lemma {:induction false} BurstLeaves(l: Limit, key: string, now: Time, n: nat)
    requires l.Valid()
    ensures Alone(l, Burst(key, now, n), key) ==
              if n == 0 then None else Some(Bucket(if n < l.burst then (l.burst - n) as real else 0.0, now))
  {
    if n > 0 {
      assert Burst(key, now, n)[..n - 1] == Burst(key, now, n - 1);
      BurstLeaves(l, key, now, n - 1);
    }
  }

  /** A new key starts full: of any number of calls at one time exactly the burst is allowed. */
  lemma {:induction false} BurstIsExact(l: Limit, key: string, now: Time, n: nat, i: nat)
    requires l.Valid() && i < n
    ensures Granted(l, Burst(key, now, n), i) <==> i < l.burst
  {
    var cs := Burst(key, now, n);
    assert cs[..i] == Burst(key, now, i);
    KeysIndependent(l, cs[..i], key);
    BurstLeaves(l, key, now, i);
  }

  /** The host part of an address, or the address itself. */
  function HostOf(ip: string): string {
    match SplitHostPort(ip) case Some((h, _)) => h case None => ip
  }

  /** With canonical texts that are not of the two special forms, two addresses
      share a bucket exactly when both are empty, both parse to the same text, or
      neither parses and their hosts are the same. */
  lemma {:induction false} SharedBucketIff(parse: string -> Option<string>, a: string, b: string)
    requires forall h, t :: parse(h) == Some(t) ==> t != "unknown" && !("invalid:" <= t)
    ensures BucketKey(parse, "") == "unknown"
    ensures BucketKey(parse, a) == BucketKey(parse, b) <==>
              if a == "" || b == "" then a == b
              else if parse(HostOf(a)).Some? || parse(HostOf(b)).Some? then parse(HostOf(a)) == parse(HostOf(b))
              else HostOf(a) == HostOf(b)
  {
    hide SplitHostPort;
    var x, y := "invalid:" + HostOf(a), "invalid:" + HostOf(b);
    assert x[8..] == HostOf(a) && y[8..] == HostOf(b);
    assert x[0] == 'i' && y[0] == 'i' && "unknown"[0] == 'u';
    assert "invalid:" <= x && "invalid:" <= y;
  }

  /** For every key and every monotone call sequence, the calls allowed
      between two times number at most the burst plus one per window. */
  lemma {:induction false} AtMostBurstPlusRate(l: Limit, cs: seq<Call>, key: string, a: Time, b: Time)
    requires l.Valid() && Monotone(cs) && a <= b
    ensures Grants(l, cs, key, a, b) as real <= l.burst as real + Earned(l, b - a)
  {
    Potential(l, cs, key, a, b);
  }

  /** A caller whose calls are at least one window apart is never refused. */
  lemma {:induction false} SpacedNeverRefused(l: Limit, cs: seq<Call>, n: nat)
    requires l.Valid() && Monotone(cs) && n < |cs|
    requires forall i :: 0 <= i < n && cs[i].key == cs[n].key ==> cs[n].now - cs[i].now >= l.window
    ensures Granted(l, cs, n)
  {
    var init, c := cs[..n], cs[n];
    KeysIndependent(l, init, c.key);
    AloneLast(l, init, c.key);
    AloneSane(l, init, c.key);
    var u := Alone(l, init, c.key);
    if u.Some? {
      var i :| 0 <= i < |init| && init[i].key == c.key && init[i].now == u.value.last;
      EarnedAdds(l, c.now - u.value.last, 0);
    }
  }
}
