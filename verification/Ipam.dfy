/** The client address allocator of internal/nodes/ipam.go: a ring scan over
    the offsets of an IPv4 range, with 32-bit arithmetic written out. */
module Ipam {
  import opened Wrappers
  import opened Powers

  const TwoTo32 := 0x1_0000_0000

  type uint32 = x: int | 0 <= x < TwoTo32

  /** Offset 0 is the network, 1 the server, size - 1 the broadcast address. */
  datatype Pool = Pool(base: uint32, size: uint32, next: uint32, used: set<uint32>) {
    ghost predicate Valid() {
      && 8 <= size && base + size <= TwoTo32 && 2 <= next <= size - 2
      && forall o :: o in used ==> 2 <= o <= size - 2
    }

    predicate Client(off: int) {
      2 <= off <= size - 2
    }

    function Offset(addr: uint32): uint32 {
      (addr - base) % TwoTo32
    }

    /** The address is leased. */
    predicate Leased(addr: uint32) {
      Offset(addr) in used
    }
  }

  lemma {:induction false} AlignedFits(ip: nat, size: nat, q: nat)
    requires size > 0 && size * q == TwoTo32 && ip < TwoTo32
    ensures 0 <= ip - ip % size && ip - ip % size + size <= TwoTo32
  {
    var k := ip / size;
    assert ip == size * k + ip % size;
    assert k >= q ==> size * k >= size * q;
    assert size * (k + 1) <= size * q;
  }

  lemma {:induction false} BaseIsAligned(ip: nat, size: nat)
    requires size > 0
    ensures (ip - ip % size) % size == 0
  {
    var k := ip / size;
    assert ip == size * k + ip % size;
    MultipleIsAligned(size, k);
    assert ip - ip % size == size * k;
  }

  lemma {:induction false} MultipleIsAligned(size: nat, k: nat)
    requires size > 0
    ensures (size * k) % size == 0
  {
    var m := size * k;
    var q, r := m / size, m % size;
    assert m == size * q + r;
    assert r == size * (k - q);
    NoSmallMultiple(size, k - q);
  }

  lemma NoSmallMultiple(size: int, d: int)
    requires 0 <= size * d < size
    ensures d == 0
  {
    assert d >= 1 ==> size * d >= size * 1;
    assert d <= -1 ==> size * d <= size * (-1);
  }

  // ---------------------------------------------------------------- the ring

  /** The cursor after offset off. */
  function Succ(size: uint32, off: uint32): uint32
    requires 2 <= off < size - 1
  {
    if off + 1 >= size - 1 then 2 else off + 1
  }

  /** The first free offset within n steps of the cursor. */
  function Scan(size: uint32, cursor: uint32, used: set<uint32>, n: nat): (r: Option<uint32>)
    requires 8 <= size && 2 <= cursor <= size - 2
    ensures r.Some? ==> 2 <= r.value <= size - 2 && r.value !in used
    decreases n
  {
    if n == 0 then None
    else if cursor !in used then Some(cursor)
    else Scan(size, Succ(size, cursor), used, n - 1)
  }

  /** The offset k steps from the cursor. */
  function Ring(size: uint32, cursor: uint32, k: nat): (r: uint32)
    requires 8 <= size && 2 <= cursor <= size - 2 && k <= size - 3
    ensures 2 <= r <= size - 2
  {
    if cursor + k <= size - 2 then cursor + k else cursor + k - (size - 3)
  }

  /** Stepping the cursor shifts the ring by one. */
  lemma {:induction false} RingSucc(size: uint32, cursor: uint32, k: nat)
    requires 8 <= size && 2 <= cursor <= size - 2 && k < size - 3
    ensures Ring(size, Succ(size, cursor), k) == Ring(size, cursor, k + 1)
  {
  }

  /** What the scan finds: the first free offset in ring order, if any step reaches one. */
  lemma {:induction false} ScanFinds(size: uint32, cursor: uint32, used: set<uint32>, n: nat)
    requires 8 <= size && 2 <= cursor <= size - 2 && n <= size - 3
    ensures var r := Scan(size, cursor, used, n);
            && (r.None? <==> forall k :: 0 <= k < n ==> Ring(size, cursor, k) in used)
            && (r.Some? ==> exists k :: 0 <= k < n && r.value == Ring(size, cursor, k) && r.value !in used
                              && forall j :: 0 <= j < k ==> Ring(size, cursor, j) in used)
    decreases n
  {
    if n > 0 {
      assert Ring(size, cursor, 0) == cursor;
      if cursor in used {
        var next := Succ(size, cursor);
        ScanFinds(size, next, used, n - 1);
        forall k | 0 <= k < n - 1 ensures Ring(size, next, k) == Ring(size, cursor, k + 1) {
          RingSucc(size, cursor, k);
        }
        hide Ring, Succ;
        var r := Scan(size, next, used, n - 1);
        if r.Some? {
          var k :| 0 <= k < n - 1 && r.value == Ring(size, next, k) && r.value !in used
                   && forall j :: 0 <= j < k ==> Ring(size, next, j) in used;
          assert r.value == Ring(size, cursor, k + 1);
          forall j | 0 <= j < k + 1 ensures Ring(size, cursor, j) in used {
            if j > 0 { assert Ring(size, next, j - 1) in used; }
          }
        } else {
          forall k | 0 <= k < n ensures Ring(size, cursor, k) in used {
            if k > 0 { assert Ring(size, next, k - 1) in used; }
          }
        }
      }
    }
  }

  lemma {:induction false} RingCovers(size: uint32, cursor: uint32, off: uint32) returns (k: nat)
    requires 8 <= size && 2 <= cursor <= size - 2 && 2 <= off <= size - 2
    ensures k < size - 3 && Ring(size, cursor, k) == off
  {
    k := if off >= cursor then off - cursor else off - cursor + (size - 3);
  }

  // ---------------------------------------------------------------- operations

  /** A free client offset, the lease set and the cursor after an allocation. */
  function Allocate(p: Pool): (Option<uint32>, Pool)
    requires p.Valid()
  {
    match Scan(p.size, p.next, p.used, p.size - 3)
    case None => (None, p.(next := Succ(p.size, p.next)))
    case Some(off) => (Some(p.base + off), p.(used := p.used + {off}, next := Succ(p.size, off)))
  }

  function Release(p: Pool, addr: uint32): Pool {
    p.(used := p.used - {p.Offset(addr)})
  }

  function Reserve(p: Pool, addr: uint32): Pool {
    var off := p.Offset(addr);
    if off < 2 || off >= p.size - 1 then p else p.(used := p.used + {off})
  }

  lemma OffsetOf(p: Pool, off: uint32)
    requires p.Valid() && off < p.size
    ensures p.Offset(p.base + off) == off
  {
  }

  /** Allocation succeeds exactly when some client offset is free; it leases
      one that was free and is never the network, server or broadcast address. */
  lemma {:induction false} AllocateIff(p: Pool)
    requires p.Valid()
    ensures var (addr, p') := Allocate(p);
            && p'.Valid() && p'.base == p.base && p'.size == p.size
            && (addr.Some? <==> exists off: uint32 :: p.Client(off) && off !in p.used)
            && (addr.None? ==> p'.used == p.used)
            && (addr.Some? ==> && p.Client(p.Offset(addr.value)) && !p.Leased(addr.value)
                               && addr.value == p.base + p.Offset(addr.value)
                               && p'.used == p.used + {p.Offset(addr.value)})
  {
    ScanFinds(p.size, p.next, p.used, p.size - 3);
    var r := Scan(p.size, p.next, p.used, p.size - 3);
    if r.Some? {
      OffsetOf(p, r.value);
      assert p.Client(r.value) && r.value !in p.used;
    } else {
      forall off: uint32 | p.Client(off) ensures off in p.used {
        var k := RingCovers(p.size, p.next, off);
      }
    }
  }

  /** Allocation takes the first free client offset from the cursor on, going
      round after the last one, and the cursor then stands behind it. */
  lemma {:induction false} AllocatesNext(p: Pool)
    requires p.Valid() && Allocate(p).0.Some?
    ensures var (addr, p') := Allocate(p); var off := p.Offset(addr.value);
            && p'.next == (if off == p.size - 2 then 2 else off + 1)
            && (off >= p.next ==> forall o: uint32 :: p.next <= o < off ==> o in p.used)
            && (off < p.next ==> forall o: uint32 :: (p.next <= o <= p.size - 2 || 2 <= o < off) ==> o in p.used)
  {
    var r := Scan(p.size, p.next, p.used, p.size - 3).value;
    OffsetOf(p, r);
    ScanSkips(p.size, p.next, p.used);
    hide Scan;
  }

  /** What the scan passed over is leased. */
  lemma {:induction false} ScanSkips(size: uint32, cursor: uint32, used: set<uint32>)
    requires 8 <= size && 2 <= cursor <= size - 2 && Scan(size, cursor, used, size - 3).Some?
    ensures var r := Scan(size, cursor, used, size - 3).value;
            forall o: uint32 :: Passed(size, cursor, r, o) ==> o in used
  {
    ScanFinds(size, cursor, used, size - 3);
    var r := Scan(size, cursor, used, size - 3).value;
    hide Scan;
    var k :| 0 <= k < size - 3 && r == Ring(size, cursor, k) && r !in used
             && forall j :: 0 <= j < k ==> Ring(size, cursor, j) in used;
    forall o: uint32 | Passed(size, cursor, r, o) ensures o in used {
      var j := if o >= cursor then o - cursor else o - cursor + (size - 3);
      assert Ring(size, cursor, j) == o && 0 <= j < k;
    }
  }

  /** The offsets from the cursor up to but not including r, going round. */
  predicate Passed(size: uint32, cursor: uint32, r: uint32, o: uint32) {
    if r >= cursor then cursor <= o < r else cursor <= o <= size - 2 || 2 <= o < r
  }

  /** A full pool only moves the cursor one place. */
  lemma {:induction false} FullMovesCursor(p: Pool)
    requires p.Valid() && Allocate(p).0.None?
    ensures Allocate(p).1 == p.(next := if p.next == p.size - 2 then 2 else p.next + 1)
  {
  }

  /** Releasing what was just allocated restores the lease set. */
  lemma {:induction false} ReleaseUndoes(p: Pool)
    requires p.Valid() && Allocate(p).0.Some?
    ensures Release(Allocate(p).1, Allocate(p).0.value).used == p.used
  {
    AllocateIff(p);
  }

  class IPAM {
    const base: uint32
    const size: uint32
    var next: uint32
    var used: set<uint32>

    ghost function View(): Pool
      reads this
    {
      Pool(base, size, next, used)
    }

    ghost predicate Valid()
      reads this
    {
      View().Valid()
    }

    constructor (base: uint32, size: uint32)
      requires 8 <= size && base + size <= TwoTo32
      ensures Valid() && View() == Pool(base, size, 2, {})
    {
      this.base, this.size, next, used := base, size, 2, {};
    }

    method AllocateAddr() returns (addr: Option<uint32>)
      requires Valid()
      modifies this
      ensures Valid() && (addr, View()) == Allocate(old(View()))
    {
      var i: uint32 := 0;
      ghost var start := next;
      while i < size - 2
        invariant i <= size - 2 && Valid() && used == old(used)
        invariant i <= size - 3 ==> Scan(size, start, used, size - 3) == Scan(size, next, used, size - 3 - i)
        invariant i <= size - 3 ==> next == Ring(size, start, i)
        invariant i == size - 2 ==> next == Succ(size, start) && Scan(size, start, used, size - 3) == None
      {
        var off := next;
        next := next + 1;
        if next >= size - 1 {
          next := 2;
        }
        i := i + 1;
        if off in used || off == size - 1 {
          continue;
        }
        used := used + {off};
        return Some(base + off);
      }
      return None;
    }

    method ReleaseAddr(addr: uint32)
      requires Valid()
      modifies this
      ensures Valid() && View() == Release(old(View()), addr)
    {
      used := used - {(addr - base) % TwoTo32};
    }

    method ReserveAddr(addr: uint32)
      requires Valid()
      modifies this
      ensures Valid() && View() == Reserve(old(View()), addr)
    {
      var off := (addr - base) % TwoTo32;
      if off < 2 || off >= size - 1 {
        return;
      }
      used := used + {off};
    }
  }

  lemma {:induction false} SmallPowers()
    ensures Pow2(2) == 4 && Pow2(3) == 8 && Pow2(32) == TwoTo32
  {
    assert Pow2(8) == 256;
    Pow2Splits(8, 8);
    Pow2Splits(16, 16);
  }

  lemma {:induction false} RangeSize(prefixLen: nat)
    requires prefixLen <= 32
    ensures Pow2(32 - prefixLen) * Pow2(prefixLen) == TwoTo32 && Pow2(32 - prefixLen) > 0
    ensures Pow2(32 - prefixLen) == TwoTo32 <==> prefixLen == 0
    ensures Pow2(32 - prefixLen) <= TwoTo32
    ensures Pow2(32 - prefixLen) >= 8 <==> prefixLen <= 29
  {
    SmallPowers();
    Pow2Splits(32 - prefixLen, prefixLen);
    Pow2Splits(31, 1);
    assert Pow2(1) == 2;
    hide Pow2;
    if prefixLen >= 1 { Pow2Grows(32 - prefixLen, 31); }
    if prefixLen <= 29 { Pow2Grows(3, 32 - prefixLen); } else { Pow2Grows(32 - prefixLen, 2); }
  }

  /** The size of the range: it wraps to zero at length 0. */
  function SizeOf(prefixLen: nat): uint32
    requires prefixLen <= 32
  {
    Pow2(32 - prefixLen) % TwoTo32
  }

  /** The start of the aligned range that holds ip. */
  function BaseOf(ip: uint32, size: uint32): uint32
    requires size > 0
  {
    assert 0 <= ip % size <= ip;
    ip - ip % size
  }

  lemma {:induction false} SizeFits(prefixLen: nat)
    requires prefixLen <= 32
    ensures SizeOf(prefixLen) >= 8 <==> 1 <= prefixLen <= 29
    ensures prefixLen >= 1 ==> SizeOf(prefixLen) == Pow2(32 - prefixLen)
  {
    RangeSize(prefixLen);
    hide Pow2;
    var n := Pow2(32 - prefixLen);
    assert n < TwoTo32 ==> n % TwoTo32 == n;
    assert TwoTo32 % TwoTo32 == 0;
  }

  lemma {:induction false} RangeFits(ip: uint32, prefixLen: nat)
    requires 1 <= prefixLen <= 29
    ensures var size := SizeOf(prefixLen);
            size > 0 && BaseOf(ip, size) + size <= TwoTo32 && BaseOf(ip, size) <= ip < BaseOf(ip, size) + size
            && BaseOf(ip, size) % size == 0
  {
    SizeFits(prefixLen);
    RangeSize(prefixLen);
    hide Pow2, SizeOf;
    BaseIsAligned(ip, SizeOf(prefixLen));
    AlignedFits(ip, SizeOf(prefixLen), Pow2(prefixLen));
  }

  /** An allocator over the range of the given prefix length that holds ip.
      The size wraps to zero at length 0 and is too small beyond length 29. */
  method NewIPAM(ip: uint32, prefixLen: nat) returns (a: IPAM?)
    requires prefixLen <= 32
    ensures a != null <==> 1 <= prefixLen <= 29
    ensures a != null ==> fresh(a) && a.Valid() && a.used == {} && a.next == 2
    ensures a != null ==> a.size == Pow2(32 - prefixLen) && a.size > 0 && a.base == BaseOf(ip, a.size)
    ensures a != null ==> a.base % a.size == 0 && a.base <= ip < a.base + a.size
  {
    hide SizeOf, BaseOf, Pow2;
    SizeFits(prefixLen);
    var size := SizeOf(prefixLen);
    if size < 8 {
      return null;
    }
    RangeFits(ip, prefixLen);
    a := new IPAM(BaseOf(ip, size), size);
  }
}
