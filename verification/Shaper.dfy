/** The cover-traffic shaper of internal/cover/cover.go: padding to buckets,
    constant-rate cells, and a capped cover budget. */
module Shaper {
  import opened Wrappers

  /** Any other text is an unknown mode; the empty text is OFF. */
  datatype Mode = OFF | PAD | CONSTANT | Unknown(text: string)

  datatype Config = Config(mode: Mode, buckets: seq<int>, cellSize: int, interval: int, maxOverhead: real)

  const DefaultBuckets := [128, 256, 512, 1024, 1420]

  predicate Ascending(bs: seq<int>) {
    (forall i :: 0 <= i < |bs| ==> bs[i] > 0) && forall i, j :: 0 <= i < j < |bs| ==> bs[i] < bs[j]
  }

  /** Ascending is a matter of neighbours. */
  lemma {:induction false} AscendingIff(bs: seq<int>)
    ensures Ascending(bs) <==> forall i :: 0 <= i < |bs| ==> bs[i] > 0 && (i > 0 ==> bs[i - 1] < bs[i])
    decreases |bs|
  {
    if bs != [] {
      var init := bs[..|bs| - 1];
      AscendingIff(init);
      if forall i :: 0 <= i < |bs| ==> bs[i] > 0 && (i > 0 ==> bs[i - 1] < bs[i]) {
        assert forall i :: 0 <= i < |init| ==> init[i] == bs[i];
        forall i, j | 0 <= i < j < |bs| ensures bs[i] < bs[j] {
          assert i < |init| && init[i] == bs[i] && init[|init| - 1] == bs[|bs| - 2];
        }
      }
    }
  }

  /** What Validate accepts. */
  predicate ValidConfig(c: Config) {
    match c.mode
    case OFF => true
    case PAD => Ascending(c.buckets)
    case CONSTANT => c.cellSize > 0 && c.interval > 0 && c.maxOverhead >= 0.0
    case Unknown(_) => false
  }

  method Validate(c: Config) returns (ok: bool)
    ensures ok <==> ValidConfig(c)
  {
    match c.mode {
      case OFF =>
        return true;
      case PAD =>
        for i := 0 to |c.buckets|
          invariant Ascending(c.buckets[..i])
        {
          if c.buckets[i] <= 0 || (i > 0 && c.buckets[i] <= c.buckets[i - 1]) {
            return false;
          }
        }
        assert c.buckets[..|c.buckets|] == c.buckets;
        return true;
      case CONSTANT =>
        return c.cellSize > 0 && c.interval > 0 && c.maxOverhead >= 0.0;
      case Unknown(_) =>
        return false;
    }
  }

  datatype Stats = Stats(packets: nat, realBytes: nat, padBytes: nat, coverBytes: nat, coverCells: nat, dropped: nat) {
    function TotalBytes(): nat {
      realBytes + padBytes + coverBytes
    }
  }

  datatype Emission = Emission(payloadLen: nat, wireLen: nat, cover: bool)

  datatype State = State(cfg: Config, stats: Stats, pending: seq<nat>)

  function Buckets(c: Config): seq<int> {
    if c.mode == PAD && c.buckets == [] then DefaultBuckets else c.buckets
  }

  function Initial(c: Config): State {
    State(c.(buckets := Buckets(c)), Stats(0, 0, 0, 0, 0, 0), [])
  }

  // ---------------------------------------------------------------- padding

  /** The first bucket that holds n, or n itself. */
  function PadTo(bs: seq<int>, n: nat): (r: int)
    ensures r >= n
  {
    if bs == [] then n else if n <= bs[0] then bs[0] else PadTo(bs[1..], n)
  }

  lemma {:induction false} AscendingTail(bs: seq<int>)
    requires Ascending(bs) && bs != []
    ensures Ascending(bs[1..]) && forall b :: b in bs[1..] ==> bs[0] < b
  {
  }

  lemma {:induction false} HeadOrTail(bs: seq<int>, b: int)
    requires bs != []
    ensures b in bs <==> b == bs[0] || b in bs[1..]
  {
    assert bs == [bs[0]] + bs[1..];
  }

  /** Padding rounds up to the least bucket that holds n, and leaves alone
      what no bucket holds. */
  lemma {:induction false} PadToLeast(bs: seq<int>, n: nat)
    requires Ascending(bs)
    ensures var r := PadTo(bs, n);
            && n <= r && (r in bs || (r == n && forall b :: b in bs ==> b < n))
            && (forall b :: b in bs && n <= b ==> r <= b)
    decreases |bs|
  {
    hide Ascending;
    if bs != [] {
      AscendingTail(bs);
      forall b ensures b in bs <==> b == bs[0] || b in bs[1..] { HeadOrTail(bs, b); }
      if n > bs[0] { PadToLeast(bs[1..], n); }
    }
  }

  /** Padding is monotone and idempotent. */
  lemma {:induction false} PadToMonotone(bs: seq<int>, m: nat, n: nat)
    requires Ascending(bs) && m <= n
    ensures PadTo(bs, m) <= PadTo(bs, n)
    ensures PadTo(bs, PadTo(bs, n)) == PadTo(bs, n)
  {
    PadToLeast(bs, m);
    PadToLeast(bs, n);
    PadToLeast(bs, PadTo(bs, n));
  }

  // ---------------------------------------------------------------- sending

  function Send(s: State, len: int): (Option<Emission>, State) {
    if len < 0 then (None, s)
    else match s.cfg.mode
      case CONSTANT => (None, s.(pending := s.pending + [len]))
      case PAD =>
        var wire := PadTo(s.cfg.buckets, len);
        (Some(Emission(len, wire, false)),
         s.(stats := s.stats.(packets := s.stats.packets + 1, realBytes := s.stats.realBytes + len,
                              padBytes := s.stats.padBytes + (wire - len))))
      case _ =>
        (Some(Emission(len, len, false)),
         s.(stats := s.stats.(packets := s.stats.packets + 1, realBytes := s.stats.realBytes + len)))
  }

  /** Sending one more cover cell would break the cap. */
  predicate OverCap(s: State) {
    var added := (s.stats.padBytes + s.stats.coverBytes + s.cfg.cellSize) as real;
    s.cfg.maxOverhead > 0.0 && (s.stats.realBytes == 0 || added / s.stats.realBytes as real > s.cfg.maxOverhead)
  }

  function Tick(s: State): (Option<Emission>, State)
    requires ValidConfig(s.cfg)
  {
    if s.cfg.mode != CONSTANT then (None, s)
    else
      var cell, st := s.cfg.cellSize, s.stats;
      if s.pending != [] then
        var len, rest := s.pending[0], s.pending[1..];
        var wire := if len > cell then len else cell;
        (Some(Emission(len, wire, false)),
         State(s.cfg, st.(packets := st.packets + 1, realBytes := st.realBytes + len,
                          padBytes := st.padBytes + (wire - len)), rest))
      else if OverCap(s) then (None, s.(stats := st.(dropped := st.dropped + 1)))
      else (Some(Emission(0, cell, true)),
            s.(stats := st.(coverCells := st.coverCells + 1, coverBytes := st.coverBytes + cell)))
  }

  class TrafficShaper {
    const cfg: Config
    var stats: Stats
    var pending: seq<nat>

    ghost function View(): State
      reads this
    {
      State(cfg, stats, pending)
    }

    ghost predicate Valid()
      reads this
    {
      ValidConfig(cfg)
    }

    constructor (c: Config)
      requires ValidConfig(c)
      ensures Valid() && View() == Initial(c)
    {
      cfg := c.(buckets := Buckets(c));
      stats, pending := Stats(0, 0, 0, 0, 0, 0), [];
    }

    method Pad(n: nat) returns (r: int)
      ensures r == PadTo(cfg.buckets, n)
    {
      for i := 0 to |cfg.buckets|
        invariant PadTo(cfg.buckets, n) == PadTo(cfg.buckets[i..], n)
      {
        assert cfg.buckets[i..][1..] == cfg.buckets[i + 1..];
        if n <= cfg.buckets[i] {
          return cfg.buckets[i];
        }
      }
      return n;
    }

    method SendPacket(len: int) returns (e: Option<Emission>)
      requires Valid()
      modifies this
      ensures Valid() && (e, View()) == Send(old(View()), len)
    {
      if len < 0 {
        return None;
      }
      if cfg.mode == CONSTANT {
        pending := pending + [len];
        return None;
      } else if cfg.mode == PAD {
        var wire := Pad(len);
        stats := stats.(packets := stats.packets + 1, realBytes := stats.realBytes + len,
                        padBytes := stats.padBytes + (wire - len));
        return Some(Emission(len, wire, false));
      } else {
        stats := stats.(packets := stats.packets + 1, realBytes := stats.realBytes + len);
        return Some(Emission(len, len, false));
      }
    }

    method TickCell() returns (e: Option<Emission>)
      requires Valid()
      modifies this
      ensures Valid() && (e, View()) == Tick(old(View()))
    {
      if cfg.mode != CONSTANT {
        return None;
      }
      var cell := cfg.cellSize;
      if |pending| > 0 {
        var payload := pending[0];
        pending := pending[1..];
        stats := stats.(packets := stats.packets + 1, realBytes := stats.realBytes + payload);
        if payload > cell {
          return Some(Emission(payload, payload, false));
        }
        stats := stats.(padBytes := stats.padBytes + (cell - payload));
        return Some(Emission(payload, cell, false));
      }
      if cfg.maxOverhead > 0.0 {
        var added := (stats.padBytes + stats.coverBytes + cell) as real;
        if stats.realBytes == 0 || added / stats.realBytes as real > cfg.maxOverhead {
          stats := stats.(dropped := stats.dropped + 1);
          return None;
        }
      }
      stats := stats.(coverCells := stats.coverCells + 1, coverBytes := stats.coverBytes + cell);
      return Some(Emission(0, cell, true));
    }
  }

  /** A shaper; an invalid configuration is an error, never a silent downgrade. */
  method NewShaper(c: Config) returns (s: TrafficShaper?)
    ensures s != null <==> ValidConfig(c)
    ensures c.mode.Unknown? ==> s == null
    ensures c.mode == OFF ==> s != null
    ensures c.mode == CONSTANT ==> (s != null <==> c.cellSize > 0 && c.interval > 0 && c.maxOverhead >= 0.0)
    ensures c.mode == PAD ==>
              (s != null <==> forall i :: 0 <= i < |c.buckets| ==>
                                c.buckets[i] > 0 && (i > 0 ==> c.buckets[i - 1] < c.buckets[i]))
    ensures s != null ==> fresh(s) && s.Valid() && s.View() == Initial(c)
  {
    var ok := Validate(c);
    AscendingIff(c.buckets);
    if !ok {
      return null;
    }
    s := new TrafficShaper(c);
  }

  // ---------------------------------------------------------------- runs

  datatype Event = Sending(len: int) | Ticking

  /** The shaper after a run, and everything it emitted. */
  datatype Trace = Trace(s: State, out: seq<Emission>)

  function After(c: Config, evs: seq<Event>): (t: Trace)
    requires ValidConfig(c)
    ensures t.s.cfg == Initial(c).cfg && ValidConfig(t.s.cfg)
  {
    if evs == [] then Trace(Initial(c), [])
    else
      Next(After(c, evs[..|evs| - 1]), evs[|evs| - 1])
  }

  function Next(t: Trace, ev: Event): (u: Trace)
    requires ValidConfig(t.s.cfg)
    ensures u.s.cfg == t.s.cfg
  {
    var (e, s) := if ev.Sending? then Send(t.s, ev.len) else Tick(t.s);
    Trace(s, if e.Some? then t.out + [e.value] else t.out)
  }

  /** The payloads handed over, in order. */
  function Accepted(evs: seq<Event>): seq<nat> {
    if evs == [] then []
    else
      Take(Accepted(evs[..|evs| - 1]), evs[|evs| - 1])
  }

  function Take(accepted: seq<nat>, ev: Event): seq<nat> {
    if ev.Sending? && ev.len >= 0 then accepted + [ev.len] else accepted
  }

  /** The payloads put on the wire, in order. */
  function Carried(out: seq<Emission>): seq<nat> {
    if out == [] then []
    else
      var init, e := Carried(out[..|out| - 1]), out[|out| - 1];
      if e.cover then init else init + [e.payloadLen]
  }

  function WireBytes(out: seq<Emission>): nat {
    if out == [] then 0 else WireBytes(out[..|out| - 1]) + out[|out| - 1].wireLen
  }

  lemma {:induction false} OutSnoc(out: seq<Emission>, e: Emission)
    ensures Carried(out + [e]) == if e.cover then Carried(out) else Carried(out) + [e.payloadLen]
    ensures WireBytes(out + [e]) == WireBytes(out) + e.wireLen
  {
    assert (out + [e])[..|out|] == out;
  }

  /** The payloads in order and the bytes all accounted for. */
  predicate Balanced(accepted: seq<nat>, t: Trace) {
    && accepted == Carried(t.out) + t.s.pending
    && WireBytes(t.out) == t.s.stats.TotalBytes()
    && |Carried(t.out)| == t.s.stats.packets && Sum(Carried(t.out)) == t.s.stats.realBytes
    && t.s.stats.coverBytes == CoverWire(t.out)
    && (t.s.cfg.mode != CONSTANT ==> t.s.pending == [])
  }

  lemma {:induction false} SendBalanced(accepted: seq<nat>, t: Trace, ev: Event)
    requires ValidConfig(t.s.cfg) && Balanced(accepted, t) && ev.Sending?
    ensures Balanced(Take(accepted, ev), Next(t, ev))
  {
    hide PadTo, Carried, WireBytes, CoverWire, Sum;
    var e := Send(t.s, ev.len).0;
    if e.Some? {
      OutSnoc(t.out, e.value);
      CoverSnoc(t.out, e.value);
      SumSnoc(Carried(t.out), e.value.payloadLen);
    }
  }

  /** One more unit on the wire keeps the balance when the counters grow with it. */
  lemma {:induction false} EmitBalanced(accepted: seq<nat>, t: Trace, e: Emission, s: State)
    requires Balanced(accepted, t) && s.cfg == t.s.cfg
    requires s.stats.TotalBytes() == t.s.stats.TotalBytes() + e.wireLen
    requires if e.cover then s.pending == t.s.pending && s.stats.packets == t.s.stats.packets
                             && s.stats.realBytes == t.s.stats.realBytes
                             && s.stats.coverBytes == t.s.stats.coverBytes + e.wireLen
             else t.s.pending == [e.payloadLen] + s.pending && s.stats.packets == t.s.stats.packets + 1
                  && s.stats.realBytes == t.s.stats.realBytes + e.payloadLen
                  && s.stats.coverBytes == t.s.stats.coverBytes
    requires s.cfg.mode != CONSTANT ==> s.pending == []
    ensures Balanced(accepted, Trace(s, t.out + [e]))
  {
    hide Carried, WireBytes, CoverWire, Sum;
    OutSnoc(t.out, e);
    CoverSnoc(t.out, e);
    SumSnoc(Carried(t.out), e.payloadLen);
    assert !e.cover ==> Carried(t.out) + ([e.payloadLen] + s.pending) == Carried(t.out) + [e.payloadLen] + s.pending;
  }

  lemma {:induction false} TickBalanced(accepted: seq<nat>, t: Trace)
    requires ValidConfig(t.s.cfg) && Balanced(accepted, t)
    ensures Balanced(accepted, Next(t, Ticking))
  {
    hide OverCap, Carried, WireBytes, CoverWire, Sum;
    var (e, s) := Tick(t.s);
    if e.Some? {
      assert t.s.pending != [] ==> t.s.pending == [t.s.pending[0]] + t.s.pending[1..];
      hide Balanced;
      EmitBalanced(accepted, t, e.value, s);
    }
  }

  /** Over every run: payloads leave in the order they came with none lost,
      the bytes on the wire are exactly the bytes accounted for, and real
      bytes are exactly the payload bytes carried. */
  lemma {:induction false} FifoAndConserved(c: Config, evs: seq<Event>)
    requires ValidConfig(c)
    ensures Balanced(Accepted(evs), After(c, evs))
    decreases |evs|
  {
    hide Balanced, Next;
    if evs == [] {
      BalancedAtStart(c);
    } else {
      var init, ev := evs[..|evs| - 1], evs[|evs| - 1];
      FifoAndConserved(c, init);
      if ev.Sending? { SendBalanced(Accepted(init), After(c, init), ev); }
      else { TickBalanced(Accepted(init), After(c, init)); }
    }
  }

  lemma BalancedAtStart(c: Config)
    ensures Balanced([], Trace(Initial(c), []))
  {
  }

  function Sum(xs: seq<nat>): nat {
    if xs == [] then 0 else Sum(xs[..|xs| - 1]) + xs[|xs| - 1]
  }

  lemma {:induction false} SumSnoc(xs: seq<nat>, x: nat)
    ensures Sum(xs + [x]) == Sum(xs) + x
  {
    assert (xs + [x])[..|xs|] == xs;
  }

  function CoverWire(out: seq<Emission>): nat {
    if out == [] then 0
    else CoverWire(out[..|out| - 1]) + if out[|out| - 1].cover then out[|out| - 1].wireLen else 0
  }

  lemma {:induction false} CoverSnoc(out: seq<Emission>, e: Emission)
    ensures CoverWire(out + [e]) == CoverWire(out) + if e.cover then e.wireLen else 0
  {
    assert (out + [e])[..|out|] == out;
  }

  lemma {:induction false} QuotientBound(a: real, r: real, m: real)
    requires r > 0.0
    ensures a / r <= m <==> a <= m * r
  {
    var q := a / r;
    assert q * r == a;
    assert q <= m ==> q * r <= m * r;
    assert q > m ==> q * r > m * r;
  }

  lemma {:induction false} ScaleGrows(m: real, a: real, b: real)
    requires m >= 0.0 && a <= b
    ensures m * a <= m * b
  {
  }

  /** Padding and cover, with one more cell, stay within the cap. */
  predicate CoverFits(s: State) {
    s.stats.realBytes > 0 &&
    (s.stats.padBytes + s.stats.coverBytes + s.cfg.cellSize) as real <= s.cfg.maxOverhead * s.stats.realBytes as real
  }

  /** An idle tick sends cover exactly when padding and cover, with the new
      cell, stay within the cap. */
  lemma {:induction false} IdleTickIff(s: State)
    requires ValidConfig(s.cfg) && s.cfg.mode == CONSTANT && s.pending == []
    ensures var (e, s') := Tick(s);
            && (e.Some? <==> (s.cfg.maxOverhead == 0.0 || CoverFits(s)))
            && (e.Some? ==> && e.value == Emission(0, s.cfg.cellSize, true)
                            && s'.stats == s.stats.(coverCells := s.stats.coverCells + 1,
                                                    coverBytes := s.stats.coverBytes + s.cfg.cellSize))
            && (e.None? ==> s'.stats == s.stats.(dropped := s.stats.dropped + 1))
  {
    if s.stats.realBytes > 0 {
      QuotientBound((s.stats.padBytes + s.stats.coverBytes + s.cfg.cellSize) as real, s.stats.realBytes as real,
                    s.cfg.maxOverhead);
    }
  }

  predicate Capped(s: State) {
    s.stats.coverBytes as real <= s.cfg.maxOverhead * s.stats.realBytes as real
  }

  lemma {:induction false} NextCapped(t: Trace, ev: Event)
    requires ValidConfig(t.s.cfg) && t.s.cfg.mode == CONSTANT && t.s.cfg.maxOverhead > 0.0 && Capped(t.s)
    ensures Capped(Next(t, ev).s)
  {
    hide OverCap;
    var u := Next(t, ev);
    if ev.Ticking? && t.s.pending == [] { IdleTickIff(t.s); }
    ScaleGrows(t.s.cfg.maxOverhead, t.s.stats.realBytes as real, u.s.stats.realBytes as real);
  }

  /** Over every run with a cap set, cover bytes stay within the cap times the real bytes. */
  lemma {:induction false} CoverWithinCap(c: Config, evs: seq<Event>)
    requires ValidConfig(c) && c.mode == CONSTANT && c.maxOverhead > 0.0
    ensures Capped(After(c, evs).s)
    decreases |evs|
  {
    hide Next;
    if evs == [] {
      ScaleGrows(c.maxOverhead, 0.0, 0.0);
    } else {
      CoverWithinCap(c, evs[..|evs| - 1]);
      NextCapped(After(c, evs[..|evs| - 1]), evs[|evs| - 1]);
    }
  }

  // ---------------------------------------------------------------- padding and the cap

  /** Padding and cover together stay within the cap. */
  predicate Within(s: State) {
    (s.stats.padBytes + s.stats.coverBytes) as real <= s.cfg.maxOverhead * s.stats.realBytes as real
  }

  function CellPadding(cell: int, len: nat): nat {
    if len < cell then cell - len else 0
  }

  /** The oldest payload, if any, can pay for its own padding: checkable before the tick. */
  predicate PayloadFits(s: State) {
    s.pending == [] ||
    var added := s.stats.padBytes + s.stats.coverBytes + CellPadding(s.cfg.cellSize, s.pending[0]);
    added as real <= s.cfg.maxOverhead * (s.stats.realBytes + s.pending[0]) as real
  }

  /** Cover never breaks the cap and padding may: a tick stays within it
      exactly when the payload it carries pays for its own padding. */
  lemma {:induction false} TickWithinIff(s: State)
    requires ValidConfig(s.cfg) && s.cfg.mode == CONSTANT && s.cfg.maxOverhead > 0.0 && Within(s)
    ensures Within(Tick(s).1) <==> PayloadFits(s)
  {
    hide OverCap;
    if s.pending == [] { IdleTickIff(s); }
  }

  /** Over every run with a cap set, padding and cover stay within the cap all
      the way exactly when every payload carried pays for its own padding. */
  lemma {:induction false} WithinCapIff(c: Config, evs: seq<Event>)
    requires ValidConfig(c) && c.mode == CONSTANT && c.maxOverhead > 0.0
    ensures (forall k :: 0 <= k <= |evs| ==> Within(After(c, evs[..k]).s)) <==>
            (forall k :: 0 <= k < |evs| && evs[k].Ticking? ==> PayloadFits(After(c, evs[..k]).s))
  {
    hide Within, PayloadFits, After;
    if forall k :: 0 <= k <= |evs| ==> Within(After(c, evs[..k]).s) {
      forall k | 0 <= k < |evs| && evs[k].Ticking? ensures PayloadFits(After(c, evs[..k]).s) {
        StepWithinIff(c, evs, k);
      }
    }
    if forall k :: 0 <= k < |evs| && evs[k].Ticking? ==> PayloadFits(After(c, evs[..k]).s) {
      WithinAll(c, evs, |evs|);
    }
  }

  lemma {:induction false} StepWithinIff(c: Config, evs: seq<Event>, k: nat)
    requires ValidConfig(c) && c.mode == CONSTANT && c.maxOverhead > 0.0
    requires k < |evs| && Within(After(c, evs[..k]).s)
    ensures Within(After(c, evs[..k + 1]).s) <==> (evs[k].Ticking? ==> PayloadFits(After(c, evs[..k]).s))
  {
    hide Within, PayloadFits, Next;
    assert evs[..k + 1][..k] == evs[..k];
    NextWithinIff(After(c, evs[..k]), evs[k]);
  }

  lemma {:induction false} WithinAtStart(c: Config, evs: seq<Event>)
    requires ValidConfig(c)
    ensures Within(After(c, evs[..0]).s)
  {
    assert evs[..0] == [];
  }

  lemma {:induction false} NextWithinIff(t: Trace, ev: Event)
    requires ValidConfig(t.s.cfg) && t.s.cfg.mode == CONSTANT && t.s.cfg.maxOverhead > 0.0 && Within(t.s)
    ensures Within(Next(t, ev).s) <==> (ev.Ticking? ==> PayloadFits(t.s))
  {
    hide Tick, PayloadFits;
    if ev.Ticking? { TickWithinIff(t.s); }
  }

  lemma {:induction false} WithinAll(c: Config, evs: seq<Event>, n: nat)
    requires ValidConfig(c) && c.mode == CONSTANT && c.maxOverhead > 0.0 && n <= |evs|
    requires forall k :: 0 <= k < |evs| && evs[k].Ticking? ==> PayloadFits(After(c, evs[..k]).s)
    ensures forall k :: 0 <= k <= n ==> Within(After(c, evs[..k]).s)
  {
    hide Within, PayloadFits, After;
    if n == 0 {
      WithinAtStart(c, evs);
    } else {
      WithinAll(c, evs, n - 1);
      StepWithinIff(c, evs, n - 1);
    }
  }

  /** The smallest runs that break it: a first payload whose padding is too much for it alone. */
  lemma {:induction false} PaddingNotCapped(c: Config, len: nat)
    requires ValidConfig(c) && c.mode == CONSTANT && c.maxOverhead > 0.0
    requires CellPadding(c.cellSize, len) as real > c.maxOverhead * len as real
    ensures !Within(After(c, [Sending(len), Ticking]).s)
  {
    hide Tick, OverCap;
    var first := [Sending(len)];
    assert [Sending(len), Ticking][..1] == first && first[..0] == [];
    var t := After(c, first);
    assert After(c, []) == Trace(Initial(c), []);
    assert Initial(c).pending + [len] == [len];
    assert t.s == Initial(c).(pending := [len]);
    assert After(c, [Sending(len), Ticking]) == Next(t, Ticking);
    TickWithinIff(t.s);
  }

  /** In constant mode every unit on the wire is one cell, unless a payload alone is larger. */
  lemma {:induction false} UniformCells(c: Config, evs: seq<Event>)
    requires ValidConfig(c) && c.mode == CONSTANT
    ensures forall e :: e in After(c, evs).out ==>
              && e.wireLen == (if e.payloadLen > c.cellSize then e.payloadLen else c.cellSize)
              && (e.cover ==> e.payloadLen == 0)
    decreases |evs|
  {
    hide OverCap, PadTo;
    if evs != [] { UniformCells(c, evs[..|evs| - 1]); }
  }

  // ---------------------------------------------------------------- what leaves in each mode

  /** The least bucket that holds n, or n itself when none does. */
  predicate LeastHolding(bs: seq<int>, n: nat, w: int) {
    if exists b :: b in bs && n <= b
    then w in bs && n <= w && forall b :: b in bs && n <= b ==> w <= b
    else w == n
  }

  /** In padding mode every unit on the wire carries a payload in the least
      configured bucket that holds it, or as it is when no bucket does; without
      configured buckets they are the standard five. */
  lemma {:induction false} PadModePads(c: Config, evs: seq<Event>)
    requires ValidConfig(c) && c.mode == PAD
    ensures var bs := if c.buckets == [] then [128, 256, 512, 1024, 1420] else c.buckets;
            forall e :: e in After(c, evs).out ==> !e.cover && LeastHolding(bs, e.payloadLen, e.wireLen)
    decreases |evs|
  {
    hide PadTo, LeastHolding, Ascending, OverCap;
    if evs != [] {
      var t, ev := After(c, evs[..|evs| - 1]), evs[|evs| - 1];
      PadModePads(c, evs[..|evs| - 1]);
      if ev.Sending? && ev.len >= 0 { PadIsLeast(t.s.cfg.buckets, ev.len); }
    }
  }

  lemma {:induction false} PadIsLeast(bs: seq<int>, n: nat)
    requires Ascending(bs)
    ensures LeastHolding(bs, n, PadTo(bs, n))
  {
    PadToLeast(bs, n);
  }

  /** Switched off, every unit on the wire is its payload and nothing is added. */
  lemma {:induction false} OffModeAddsNothing(c: Config, evs: seq<Event>)
    requires ValidConfig(c) && c.mode == OFF
    ensures var t := After(c, evs);
            && (forall e :: e in t.out ==> !e.cover && e.wireLen == e.payloadLen)
            && t.s.stats.padBytes == 0 && t.s.stats.coverBytes == 0
    decreases |evs|
  {
    hide PadTo, OverCap;
    if evs != [] { OffModeAddsNothing(c, evs[..|evs| - 1]); }
  }

  function Ticks(evs: seq<Event>): nat {
    if evs == [] then 0 else Ticks(evs[..|evs| - 1]) + if evs[|evs| - 1].Ticking? then 1 else 0
  }

  /** In constant mode sending puts nothing on the wire and every tick puts
      one unit there or is counted as dropped; in the others every payload
      leaves at once and ticks do nothing. */
  lemma {:induction false} ConstantRate(c: Config, evs: seq<Event>)
    requires ValidConfig(c)
    ensures var t := After(c, evs);
            && |t.out| == t.s.stats.packets + t.s.stats.coverCells
            && (if c.mode == CONSTANT then |t.out| + t.s.stats.dropped == Ticks(evs)
                else |t.out| == |Accepted(evs)| && t.s.stats.coverCells == t.s.stats.dropped == 0)
    decreases |evs|
  {
    hide PadTo, OverCap;
    if evs != [] { ConstantRate(c, evs[..|evs| - 1]); }
  }

  /** A tick of a run carries the oldest payload not yet on the wire; cover
      goes out only when none is waiting. */
  lemma {:induction false} BusyTickCarries(c: Config, evs: seq<Event>, k: nat)
    requires ValidConfig(c) && c.mode == CONSTANT && k < |evs| && evs[k].Ticking?
    requires |Carried(After(c, evs[..k]).out)| < |Accepted(evs[..k])|
    ensures var sent := After(c, evs[..k]).out; var p := Accepted(evs[..k])[|Carried(sent)|];
            After(c, evs[..k + 1]).out == sent + [Emission(p, if p > c.cellSize then p else c.cellSize, false)]
  {
    hide OverCap, Carried, WireBytes, CoverWire, Sum;
    assert evs[..k + 1][..k] == evs[..k];
    FifoAndConserved(c, evs[..k]);
    var t := After(c, evs[..k]);
    assert Accepted(evs[..k])[|Carried(t.out)|] == t.s.pending[0];
  }
}
