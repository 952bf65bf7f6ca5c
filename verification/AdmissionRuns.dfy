/** What holds of the address pool, the session table and the peer table
    together, over every run of the node controller. */
module AdmissionRuns {
  import opened Wrappers
  import opened Ipam
  import opened Sessions
  import opened Admission

  datatype NodeEvent =
    | Admitting(pol: Policy, req: Request)
    | Removing(id: string, stuck: bool)
    | Expiring(now: Time, stuckKeys: set<string>)

  ghost function Next(n: Node, cap: int, e: NodeEvent): Node
    requires n.pool.Valid()
  {
    match e
    case Admitting(pol, req) => Admit(n, cap, pol, req).1
    case Removing(id, stuck) => Remove(n, id, stuck)
    case Expiring(now, stuckKeys) => Expire(n, now, stuckKeys)
  }

  ghost predicate InPool(p: Pool, a: uint32) {
    a == p.base + p.Offset(a) && p.Client(p.Offset(a))
  }

  /** The session holds a leased client address, and the address leads back to it. */
  ghost predicate Held(n: Node, s: Session) {
    s.addr.Some? && InPool(n.pool, s.addr.value) && n.pool.Leased(s.addr.value)
    && s.addr.value in n.ses.byIP && n.ses.byIP[s.addr.value] == s
  }

  ghost predicate Sound(n: Node) {
    n.pool.Valid() && Consistent(n.ses) && forall id :: id in n.ses.byToken ==> Held(n, n.ses.byToken[id])
  }

  lemma {:induction false} AddressesDistinct(n: Node, a: string, b: string)
    requires Sound(n) && a in n.ses.byToken && b in n.ses.byToken && a != b
    ensures n.ses.byToken[a].addr != n.ses.byToken[b].addr
    ensures n.pool.Offset(n.ses.byToken[a].addr.value) != n.pool.Offset(n.ses.byToken[b].addr.value)
  {
    assert Held(n, n.ses.byToken[a]) && Held(n, n.ses.byToken[b]);
  }

  // ---------------------------------------------------------------- every step keeps it

  /** The pool after an allocation that leased offset Offset(a). */
  ghost predicate Leases(p: Pool, a: uint32, q: Pool) {
    && q.Valid() && q.base == p.base && q.size == p.size && InPool(p, a) && !p.Leased(a)
    && q.used == p.used + {p.Offset(a)}
  }

  lemma {:induction false} AllocateLeases(p: Pool)
    requires p.Valid()
    ensures var (a, q) := Allocate(p);
            && (a.Some? ==> Leases(p, a.value, q))
            && (a.None? ==> q.Valid() && q.base == p.base && q.size == p.size && q.used == p.used)
  {
    AllocateIff(p);
  }

  lemma {:induction false} OpenSound(n: Node, pool: Pool, a: uint32, s: Session, peers: map<string, uint32>)
    requires Sound(n) && Leases(n.pool, a, pool) && s.addr == Some(a)
    requires s.serial == n.ses.authorizedTotal && s.tokenID !in n.ses.revoked
    ensures Sound(Node(pool, Open(n.ses, s), peers))
  {
    OpenKeeps(n.ses, s);
    var m := Node(pool, Open(n.ses, s), peers);
    forall id | id in m.ses.byToken ensures Held(m, m.ses.byToken[id]) {
      if id != s.tokenID { assert Held(n, n.ses.byToken[id]); }
    }
  }

  lemma {:induction false} RefuseSound(n: Node, pool: Pool, a: uint32)
    requires Sound(n) && Leases(n.pool, a, pool)
    ensures Sound(n.(pool := Release(pool, a))) && Release(pool, a).used == n.pool.used
  {
    var m := n.(pool := Release(pool, a));
    assert m.pool.used == n.pool.used;
    forall id | id in m.ses.byToken ensures Held(m, m.ses.byToken[id]) {
      assert Held(n, n.ses.byToken[id]);
    }
  }

  lemma {:induction false} MoveCursorSound(n: Node, pool: Pool)
    requires Sound(n) && pool.Valid()
    requires pool.base == n.pool.base && pool.size == n.pool.size && pool.used == n.pool.used
    ensures Sound(n.(pool := pool))
  {
    forall id | id in n.ses.byToken ensures Held(n.(pool := pool), n.ses.byToken[id]) {
      assert Held(n, n.ses.byToken[id]);
    }
  }

  lemma {:induction false} RemoveSound(n: Node, id: string, stuck: bool)
    requires Sound(n)
    ensures Sound(Remove(n, id, stuck))
  {
    if id in n.ses.byToken {
      RevokeKeeps(n.ses, id);
      var m := Remove(n, id, stuck);
      forall k | k in m.ses.byToken ensures Held(m, m.ses.byToken[k]) {
        AddressesDistinct(n, id, k);
        assert Held(n, n.ses.byToken[k]) && Held(n, n.ses.byToken[id]);
      }
    }
  }

  /** Opening and at once revoking, as the failure paths do, keeps the node sound. */
  lemma {:induction false} UndoSound(n: Node, pool: Pool, a: uint32, s: Session)
    requires Sound(n) && Leases(n.pool, a, pool) && s.addr == Some(a)
    requires s.serial == n.ses.authorizedTotal && s.tokenID !in n.ses.revoked
    ensures Sound(Node(Release(pool, a), Revoke(Open(n.ses, s), s.tokenID), n.peers))
  {
    var m := Node(pool, Open(n.ses, s), n.peers);
    OpenSound(n, pool, a, s, n.peers);
    RemoveSound(m, s.tokenID, true);
    assert Remove(m, s.tokenID, true) == Node(Release(pool, a), Revoke(Open(n.ses, s), s.tokenID), n.peers);
  }

  /** An admission that got past the gate, the pool and the token. */
  ghost predicate Opens(n: Node, e: NodeEvent)
    requires n.pool.Valid()
  {
    && e.Admitting? && Gate(n.ses, e.pol, e.req).None?
    && Allocate(n.pool).0.Some? && Refusal(n.ses, e.req.now, e.req.tok).None?
  }

  ghost function NewSession(n: Node, cap: int, e: NodeEvent): Session
    requires n.pool.Valid() && Opens(n, e)
  {
    Opened(n.ses, cap, e.req.now, e.req.tok.value, e.req.key, Allocate(n.pool).0, e.req.endpoint)
  }

  ghost predicate Undone(e: NodeEvent)
    requires e.Admitting? && e.req.tok.Ok?
  {
    (e.pol.relay && e.req.tok.value.scope == ScopeExit) || !e.req.addOk
  }

  /** What an admission does to the node, by how far it got. */
  lemma {:induction false} AdmitCases(n: Node, cap: int, e: NodeEvent)
    requires n.pool.Valid() && e.Admitting?
    ensures var m := Next(n, cap, e); var (a, pool) := Allocate(n.pool);
            if Opens(n, e) then
              var s := NewSession(n, cap, e);
              if Undone(e) then m == Node(Release(pool, a.value), Revoke(Open(n.ses, s), s.tokenID), n.peers)
              else m == Node(pool, Open(n.ses, s), n.peers[s.clientKey := a.value])
            else if Gate(n.ses, e.pol, e.req).Some? then m == n
            else if a.None? then m == n.(pool := pool)
            else m == n.(pool := Release(pool, a.value))
  {
  }

  lemma {:induction false} AdmitSound(n: Node, cap: int, e: NodeEvent)
    requires Sound(n) && e.Admitting?
    ensures Sound(Next(n, cap, e))
  {
    hide Next, Allocate;
    AdmitCases(n, cap, e);
    AllocateLeases(n.pool);
    var (a, pool) := Allocate(n.pool);
    if Opens(n, e) {
      var s := NewSession(n, cap, e);
      if Undone(e) { UndoSound(n, pool, a.value, s); }
      else { OpenSound(n, pool, a.value, s, n.peers[s.clientKey := a.value]); }
    } else if Gate(n.ses, e.pol, e.req).None? {
      if a.None? { MoveCursorSound(n, pool); } else { RefuseSound(n, pool, a.value); }
    }
  }

  lemma {:induction false} NotExpired(n: Node, ids: set<string>, k: string)
    requires Sound(n) && ids <= n.ses.byToken.Keys && k in n.ses.byToken && k !in ids
    ensures n.pool.Offset(n.ses.byToken[k].addr.value) !in Offsets(n.pool, n.ses, ids)
    ensures n.ses.byToken[k].addr.value in ForgetAll(n.ses, ids)
  {
    var a := n.ses.byToken[k].addr.value;
    assert Held(n, n.ses.byToken[k]);
    forall id | id in ids
      ensures n.pool.Offset(n.ses.byToken[id].addr.value) != n.pool.Offset(a) && n.ses.byToken[id].addr != Some(a)
    {
      AddressesDistinct(n, id, k);
    }
  }

  /** An open session that is not evicted keeps its lease and its address entry. */
  lemma {:induction false} KeptHeld(n: Node, ids: set<string>, m: Node, k: string)
    requires Sound(n) && ids <= n.ses.byToken.Keys && m.ses == Evicted(n.ses, ids)
    requires m.pool == n.pool.(used := n.pool.used - Offsets(n.pool, n.ses, ids))
    requires k in n.ses.byToken && k !in ids
    ensures Held(m, n.ses.byToken[k])
  {
    assert Held(n, n.ses.byToken[k]);
    NotExpired(n, ids, k);
    hide Offsets, Consistent, Sound;
  }

  lemma {:induction false} EvictSound(n: Node, ids: set<string>, m: Node)
    requires Sound(n) && ids <= n.ses.byToken.Keys && m.ses == Evicted(n.ses, ids)
    requires m.pool == n.pool.(used := n.pool.used - Offsets(n.pool, n.ses, ids))
    ensures Sound(m)
  {
    hide Offsets, ForgetAll, Consistent, Held;
    EvictKeeps(n.ses, ids);
    forall k | k in m.ses.byToken ensures Held(m, m.ses.byToken[k]) {
      KeptHeld(n, ids, m, k);
    }
  }

  lemma {:induction false} ExpireSound(n: Node, now: Time, stuck: set<string>)
    requires Sound(n)
    ensures Sound(Expire(n, now, stuck))
  {
    hide Sound;
    EvictSound(n, n.ses.Due(now), Expire(n, now, stuck));
  }

  lemma {:induction false} NextSound(n: Node, cap: int, e: NodeEvent)
    requires Sound(n)
    ensures Sound(Next(n, cap, e))
  {
    match e
    case Admitting(_, _) => AdmitSound(n, cap, e);
    case Removing(id, stuck) => RemoveSound(n, id, stuck);
    case Expiring(now, stuckKeys) => ExpireSound(n, now, stuckKeys);
  }

  // ---------------------------------------------------------------- installed peers

  ghost predicate Installed(n: Node, s: Session) {
    s.addr.Some? && s.clientKey in n.peers && n.peers[s.clientKey] == s.addr.value
  }

  /** Every open session's peer is installed at its address. */
  ghost predicate Wired(n: Node) {
    forall id :: id in n.ses.byToken ==> Installed(n, n.ses.byToken[id])
  }

  /** Installed at distinct addresses, open sessions have distinct client keys. */
  lemma {:induction false} KeysDistinct(n: Node, a: string, b: string)
    requires Sound(n) && Wired(n) && a in n.ses.byToken && b in n.ses.byToken && a != b
    ensures n.ses.byToken[a].clientKey != n.ses.byToken[b].clientKey
  {
    AddressesDistinct(n, a, b);
    assert Installed(n, n.ses.byToken[a]) && Installed(n, n.ses.byToken[b]);
  }

  /** The event completes an admission whose key another open session uses. */
  ghost predicate TakesKey(n: Node, e: NodeEvent)
    requires n.pool.Valid()
  {
    Opens(n, e) && !Undone(e) &&
    exists id :: id in n.ses.byToken && id != e.req.tok.value.id && n.ses.byToken[id].clientKey == e.req.key
  }

  lemma {:induction false} AdmitWiredIff(n: Node, cap: int, e: NodeEvent)
    requires Sound(n) && Wired(n) && e.Admitting?
    ensures Wired(Next(n, cap, e)) <==> !TakesKey(n, e)
  {
    hide Next, Allocate;
    AdmitCases(n, cap, e);
    if TakesKey(n, e) {
      var id :| id in n.ses.byToken && id != e.req.tok.value.id && n.ses.byToken[id].clientKey == e.req.key;
      var m, s := Next(n, cap, e), NewSession(n, cap, e);
      AdmitSound(n, cap, e);
      AddressesDistinct(m, id, s.tokenID);
      assert !Installed(m, m.ses.byToken[id]);
    }
  }

  lemma {:induction false} ExpireWired(n: Node, now: Time, stuck: set<string>)
    requires Sound(n) && Wired(n)
    ensures Wired(Expire(n, now, stuck))
  {
    var due, m := n.ses.Due(now), Expire(n, now, stuck);
    forall k | k in m.ses.byToken ensures Installed(m, m.ses.byToken[k]) {
      assert Installed(n, n.ses.byToken[k]);
      forall d | d in due ensures n.ses.byToken[d].clientKey != n.ses.byToken[k].clientKey { KeysDistinct(n, d, k); }
      assert n.ses.byToken[k].clientKey !in Keys(n.ses, due);
    }
  }

  lemma {:induction false} RemoveWired(n: Node, id: string, stuck: bool)
    requires Sound(n) && Wired(n)
    ensures Wired(Remove(n, id, stuck))
  {
    if id in n.ses.byToken {
      var m := Remove(n, id, stuck);
      forall k | k in m.ses.byToken ensures Installed(m, m.ses.byToken[k]) {
        assert Installed(n, n.ses.byToken[k]);
        KeysDistinct(n, id, k);
      }
    }
  }

  /** An operation keeps every open session's peer installed at its address
      exactly when it does not complete an admission of a key in use. */
  lemma {:induction false} NextWiredIff(n: Node, cap: int, e: NodeEvent)
    requires Sound(n) && Wired(n)
    ensures Wired(Next(n, cap, e)) <==> !TakesKey(n, e)
  {
    match e
    case Admitting(_, _) => AdmitWiredIff(n, cap, e);
    case Removing(id, stuck) => RemoveWired(n, id, stuck);
    case Expiring(now, stuckKeys) => ExpireWired(n, now, stuckKeys);
  }

  /** A sweep keeps a live session's peer exactly when no session it evicts
      and removes from the device shares the client key. */
  lemma {:induction false} SweepKeepsPeerIff(n: Node, now: Time, stuck: set<string>, id: string)
    requires id in n.ses.Live(now) && Installed(n, n.ses.byToken[id])
    ensures var m, s := Expire(n, now, stuck), n.ses.byToken[id];
            && id in m.ses.byToken && m.ses.byToken[id] == s
            && (Installed(m, s) <==>
                  s.clientKey in stuck || forall d :: d in n.ses.Due(now) ==> n.ses.byToken[d].clientKey != s.clientKey)
  {
    var due, s := n.ses.Due(now), n.ses.byToken[id];
    assert s.clientKey in Keys(n.ses, due) <==> exists d :: d in due && n.ses.byToken[d].clientKey == s.clientKey;
  }

  /** Distinct keys among live sessions are not enough: a client that comes
      back with a new token after its session expired, but before the sweep,
      loses its peer at the sweep. */
  lemma {:induction false} ReconnectLosesPeer(n: Node, cap: int, e: NodeEvent, prior: string, now: Time)
    requires Sound(n) && Opens(n, e) && !Undone(e)
    requires prior in n.ses.byToken && prior != e.req.tok.value.id
    requires n.ses.byToken[prior].clientKey == e.req.key && n.ses.byToken[prior].Expired(now)
    requires !NewSession(n, cap, e).Expired(now)
    ensures var s := NewSession(n, cap, e); var m := Next(n, cap, e); var swept := Expire(m, now, {});
            && Installed(m, s) && s.tokenID in swept.ses.Live(now) && !Installed(swept, s)
  {
    AdmitCases(n, cap, e);
    var m, s := Next(n, cap, e), NewSession(n, cap, e);
    assert prior in m.ses.Due(now) && m.ses.byToken[prior].clientKey == s.clientKey;
    SweepKeepsPeerIff(m, now, {}, s.tokenID);
  }

  // ---------------------------------------------------------------- accounting

  ghost function HeldOffsets(n: Node): set<uint32> {
    Offsets(n.pool, n.ses, n.ses.byToken.Keys)
  }

  /** Leases no open session holds. */
  ghost function Orphans(n: Node): set<uint32> {
    n.pool.used - HeldOffsets(n)
  }

  /** The lease an event leaves behind: that of an expired session replaced before it was swept. */
  ghost function LeftBehind(n: Node, e: NodeEvent): set<uint32>
    requires Sound(n)
  {
    if Opens(n, e) && e.req.tok.value.id in n.ses.byToken then
      assert Held(n, n.ses.byToken[e.req.tok.value.id]);
      {n.pool.Offset(n.ses.byToken[e.req.tok.value.id].addr.value)}
    else {}
  }

  lemma {:induction false} OffsetsFrame(p: Pool, t: Table, q: Pool, u: Table, ids: set<string>)
    requires p.base == q.base && ids <= t.byToken.Keys && ids <= u.byToken.Keys
    requires forall id :: id in ids ==> t.byToken[id] == u.byToken[id]
    ensures Offsets(p, t, ids) == Offsets(q, u, ids)
  {
  }

  /** Different open sessions hold different offsets. */
  lemma {:induction false} OffsetsApart(n: Node, a: set<string>, b: set<string>)
    requires Sound(n) && a <= n.ses.byToken.Keys && b <= n.ses.byToken.Keys && a !! b
    ensures Offsets(n.pool, n.ses, a) !! Offsets(n.pool, n.ses, b)
    ensures Offsets(n.pool, n.ses, a + b) == Offsets(n.pool, n.ses, a) + Offsets(n.pool, n.ses, b)
  {
    forall x, y | x in a && y in b
      ensures n.pool.Offset(n.ses.byToken[x].addr.value) != n.pool.Offset(n.ses.byToken[y].addr.value)
    {
      AddressesDistinct(n, x, y);
    }
  }

  lemma {:induction false} HeldWithout(n: Node, ids: set<string>)
    requires Sound(n) && ids <= n.ses.byToken.Keys
    ensures Offsets(n.pool, n.ses, n.ses.byToken.Keys - ids) == HeldOffsets(n) - Offsets(n.pool, n.ses, ids)
  {
    OffsetsApart(n, n.ses.byToken.Keys - ids, ids);
    assert n.ses.byToken.Keys - ids + ids == n.ses.byToken.Keys;
  }

  lemma {:induction false} HeldAreLeased(n: Node)
    requires Sound(n)
    ensures HeldOffsets(n) <= n.pool.used
  {
    forall id | id in n.ses.byToken ensures Held(n, n.ses.byToken[id]) {
    }
  }

  lemma {:induction false} OffsetsOne(n: Node, id: string)
    requires Sound(n) && id in n.ses.byToken
    ensures Offsets(n.pool, n.ses, {id}) == {n.pool.Offset(n.ses.byToken[id].addr.value)}
  {
    assert Held(n, n.ses.byToken[id]);
  }

  /** The token's own entry, if it is still in the table. */
  ghost function Entry(t: Table, id: string): set<string> {
    {id} * t.byToken.Keys
  }

  lemma {:induction false} EntryOffsets(n: Node, id: string)
    requires Sound(n)
    ensures Offsets(n.pool, n.ses, Entry(n.ses, id))
         == if id in n.ses.byToken then {n.pool.Offset(n.ses.byToken[id].addr.value)} else {}
  {
    if id in n.ses.byToken {
      assert Entry(n.ses, id) == {id};
      OffsetsOne(n, id);
    } else {
      assert Entry(n.ses, id) == {};
    }
  }

  lemma {:induction false} SetGivesUp(used: set<uint32>, held: set<uint32>, left: set<uint32>)
    requires left <= held <= used
    ensures used - (held - left) == (used - held) + left
  {
  }

  lemma {:induction false} SetTakes(used: set<uint32>, held: set<uint32>, left: set<uint32>, o: uint32)
    requires left <= held <= used && o !in used
    ensures used + {o} - (held - left + {o}) == (used - held) + left
  {
  }

  /** What the sessions hold without the entry of one token. */
  lemma {:induction false} HeldWithoutEntry(n: Node, id: string, q: Pool, u: Table)
    requires Sound(n) && q.base == n.pool.base
    requires forall k :: k in n.ses.byToken && k != id ==> k in u.byToken && u.byToken[k] == n.ses.byToken[k]
    ensures n.ses.byToken.Keys - {id} <= u.byToken.Keys
    ensures var left := Offsets(n.pool, n.ses, Entry(n.ses, id));
            && Offsets(q, u, n.ses.byToken.Keys - {id}) == HeldOffsets(n) - left
            && left <= HeldOffsets(n) <= n.pool.used
  {
    HeldAreLeased(n);
    HeldWithout(n, Entry(n.ses, id));
    assert n.ses.byToken.Keys - Entry(n.ses, id) == n.ses.byToken.Keys - {id};
    OffsetsFrame(n.pool, n.ses, q, u, n.ses.byToken.Keys - {id});
  }

  lemma {:induction false} OrphansUndone(n: Node, id: string, m: Node)
    requires Sound(n) && m.pool.base == n.pool.base && m.pool.used == n.pool.used
    requires m.ses.byToken == n.ses.byToken - {id}
    ensures Orphans(m) == Orphans(n) + Offsets(n.pool, n.ses, Entry(n.ses, id))
  {
    HeldWithoutEntry(n, id, m.pool, m.ses);
    assert m.ses.byToken.Keys == n.ses.byToken.Keys - {id};
    SetGivesUp(n.pool.used, HeldOffsets(n), Offsets(n.pool, n.ses, Entry(n.ses, id)));
  }

  lemma {:induction false} OrphansOpened(n: Node, m: Node, s: Session)
    requires Sound(n) && Sound(m) && m.pool.base == n.pool.base
    requires m.ses.byToken == n.ses.byToken[s.tokenID := s]
    requires s.addr.Some? && !n.pool.Leased(s.addr.value) && m.pool.used == n.pool.used + {n.pool.Offset(s.addr.value)}
    ensures Orphans(m) == Orphans(n) + Offsets(n.pool, n.ses, Entry(n.ses, s.tokenID))
  {
    HeldWithoutEntry(n, s.tokenID, m.pool, m.ses);
    HeldPlusOne(m, n.ses.byToken.Keys - {s.tokenID}, s.tokenID);
    SetTakes(n.pool.used, HeldOffsets(n), Offsets(n.pool, n.ses, Entry(n.ses, s.tokenID)), n.pool.Offset(s.addr.value));
  }

  lemma {:induction false} HeldPlusOne(m: Node, rest: set<string>, id: string)
    requires Sound(m) && id !in rest && m.ses.byToken.Keys == rest + {id}
    ensures m.ses.byToken[id].addr.Some?
    ensures HeldOffsets(m) == Offsets(m.pool, m.ses, rest) + {m.pool.Offset(m.ses.byToken[id].addr.value)}
  {
    assert Held(m, m.ses.byToken[id]);
    OffsetsApart(m, rest, {id});
    OffsetsOne(m, id);
  }

  lemma {:induction false} OrphansAdmit(n: Node, cap: int, e: NodeEvent)
    requires Sound(n) && Opens(n, e)
    ensures Orphans(Next(n, cap, e)) == Orphans(n) + LeftBehind(n, e)
  {
    hide Next, Allocate, Orphans;
    var m, s := Next(n, cap, e), NewSession(n, cap, e);
    AdmitCases(n, cap, e);
    AllocateLeases(n.pool);
    EntryOffsets(n, s.tokenID);
    if Undone(e) {
      assert n.ses.byToken[s.tokenID := s] - {s.tokenID} == n.ses.byToken - {s.tokenID};
      OrphansUndone(n, s.tokenID, m);
    } else {
      AdmitSound(n, cap, e);
      OrphansOpened(n, m, s);
    }
  }

  lemma {:induction false} OrphansStay(n: Node, m: Node)
    requires m.ses == n.ses && m.pool.used == n.pool.used && m.pool.base == n.pool.base
    ensures Orphans(m) == Orphans(n)
  {
    OffsetsFrame(n.pool, n.ses, m.pool, m.ses, n.ses.byToken.Keys);
  }

  lemma {:induction false} OrphansRemove(n: Node, id: string, stuck: bool)
    requires Sound(n)
    ensures Orphans(Remove(n, id, stuck)) == Orphans(n)
  {
    if id in n.ses.byToken {
      var m := Remove(n, id, stuck);
      assert Held(n, n.ses.byToken[id]);
      assert m.ses.byToken.Keys == n.ses.byToken.Keys - {id};
      HeldWithout(n, {id});
      OffsetsOne(n, id);
      OffsetsFrame(n.pool, n.ses, m.pool, m.ses, n.ses.byToken.Keys - {id});
    }
  }

  lemma {:induction false} OrphansExpire(n: Node, now: Time, stuck: set<string>)
    requires Sound(n)
    ensures Orphans(Expire(n, now, stuck)) == Orphans(n)
  {
    var due, m := n.ses.Due(now), Expire(n, now, stuck);
    assert m.ses.byToken.Keys == n.ses.byToken.Keys - due;
    HeldWithout(n, due);
    OffsetsFrame(n.pool, n.ses, m.pool, m.ses, n.ses.byToken.Keys - due);
  }

  /** No event gives up or takes a lease that no session holds, except that
      replacing an expired session leaves its lease behind. */
  lemma {:induction false} NextOrphans(n: Node, cap: int, e: NodeEvent)
    requires Sound(n)
    ensures Orphans(Next(n, cap, e)) == Orphans(n) + LeftBehind(n, e)
  {
    hide Allocate, Orphans;
    match e
    case Admitting(_, _) =>
      if Opens(n, e) {
        OrphansAdmit(n, cap, e);
      } else {
        var m := Next(n, cap, e);
        AdmitCases(n, cap, e);
        AllocateLeases(n.pool);
        OrphansStay(n, m);
      }
    case Removing(id, stuck) => OrphansRemove(n, id, stuck);
    case Expiring(now, stuckKeys) => OrphansExpire(n, now, stuckKeys);
  }

  lemma {:induction false} OffsetsCount(n: Node, ids: set<string>)
    requires Sound(n) && ids <= n.ses.byToken.Keys
    ensures |Offsets(n.pool, n.ses, ids)| == |ids|
    decreases |ids|
  {
    if ids == {} {
      assert Offsets(n.pool, n.ses, ids) == {};
    } else {
      var id :| id in ids;
      OffsetsCount(n, ids - {id});
      OffsetsApart(n, ids - {id}, {id});
      OffsetsOne(n, id);
      assert ids - {id} + {id} == ids;
    }
  }

  // ---------------------------------------------------------------- runs

  /** What the node starts from: an empty pool and the stored rows, read at one time. */
  datatype Startup = Startup(pool: Pool, rows: seq<Row>, at: Time) {
    ghost predicate Valid() {
      pool.Valid() && pool.used == {}
    }

    /** The client offsets of the unexpired rows. */
    ghost function Leases(): set<uint32> {
      RowOffsets(pool, rows, at)
    }
  }

  ghost function RowOffsets(p: Pool, rows: seq<Row>, now: Time): set<uint32> {
    set i | 0 <= i < |rows| && Restores(p, rows[i], now) :: p.Offset(rows[i].addr.value)
  }

  /** The row has not expired and holds a client address of the pool. */
  predicate Restores(p: Pool, r: Row, now: Time) {
    (r.expires.Some? ==> now < r.expires.value) && r.addr.Some? && p.Client(p.Offset(r.addr.value))
  }

  lemma {:induction false} RowOffsetsSnoc(p: Pool, rows: seq<Row>, now: Time)
    requires rows != []
    ensures var init, r := rows[..|rows| - 1], rows[|rows| - 1];
            RowOffsets(p, rows, now) ==
              RowOffsets(p, init, now) + if Restores(p, r, now) then {p.Offset(r.addr.value)} else {}
  {
    var k := |rows| - 1;
    forall o | o in RowOffsets(p, rows[..k], now) ensures o in RowOffsets(p, rows, now) {
      var i :| 0 <= i < k && Restores(p, rows[..k][i], now) && p.Offset(rows[..k][i].addr.value) == o;
      assert rows[i] == rows[..k][i];
    }
    forall o | o in RowOffsets(p, rows, now)
      ensures o in RowOffsets(p, rows[..k], now) || (Restores(p, rows[k], now) && o == p.Offset(rows[k].addr.value))
    {
      var i :| 0 <= i < |rows| && Restores(p, rows[i], now) && p.Offset(rows[i].addr.value) == o;
      if i < k { assert rows[..k][i] == rows[i]; }
    }
  }

  /** Restoring leases exactly the client offsets of the unexpired rows. */
  lemma {:induction false} StartupPool(p: Pool, rows: seq<Row>, now: Time)
    requires p.Valid()
    ensures var q := ReserveRows(p, rows, now);
            && q.Valid() && q.base == p.base && q.size == p.size && q.next == p.next
            && q.used == p.used + RowOffsets(p, rows, now)
    decreases |rows|
  {
    hide RowOffsets;
    if rows == [] {
      assert RowOffsets(p, rows, now) == {} by { NoRows(p, now); }
    } else {
      StartupPool(p, rows[..|rows| - 1], now);
      RowOffsetsSnoc(p, rows, now);
    }
  }

  lemma NoRows(p: Pool, now: Time)
    ensures RowOffsets(p, [], now) == {}
  {
  }

  /** A run of whole operations from startup, with the unexpired rows reserved. */
  ghost predicate NodeRun(start: Startup, cap: int, ns: seq<Node>, es: seq<NodeEvent>) {
    && start.Valid() && |ns| == |es| + 1
    && ns[0] == Node(ReserveRows(start.pool, start.rows, start.at), NoSessions, map[])
    && forall i :: 0 <= i < |es| ==> Leads(ns[i], cap, es[i], ns[i + 1])
  }

  lemma {:induction false} StartsSound(start: Startup, cap: int, ns: seq<Node>, es: seq<NodeEvent>)
    requires NodeRun(start, cap, ns, es)
    ensures Sound(ns[0]) && Wired(ns[0]) && ns[0].pool.used == start.Leases()
  {
    StartupPool(start.pool, start.rows, start.at);
  }

  ghost predicate Leads(n: Node, cap: int, e: NodeEvent, m: Node) {
    n.pool.Valid() && m == Next(n, cap, e)
  }

  /** Over every run each open session holds a leased client address that
      leads back to it, and no two share one. */
  lemma {:induction false} RunSound(start: Startup, cap: int, ns: seq<Node>, es: seq<NodeEvent>, k: nat)
    requires NodeRun(start, cap, ns, es) && k <= |es|
    ensures Sound(ns[k])
    ensures forall a, b :: a in ns[k].ses.byToken && b in ns[k].ses.byToken && a != b ==>
              ns[k].ses.byToken[a].addr != ns[k].ses.byToken[b].addr
  {
    hide Next, ReserveRows;
    if k == 0 {
      StartsSound(start, cap, ns, es);
    } else {
      RunSound(start, cap, ns, es, k - 1);
      assert Leads(ns[k - 1], cap, es[k - 1], ns[k]);
      NextSound(ns[k - 1], cap, es[k - 1]);
    }
    forall a, b | a in ns[k].ses.byToken && b in ns[k].ses.byToken && a != b
      ensures ns[k].ses.byToken[a].addr != ns[k].ses.byToken[b].addr
    {
      AddressesDistinct(ns[k], a, b);
    }
  }

  /** Over every run, each open session's peer is installed at its address all
      the way exactly when no step completes an admission of a key in use. */
  lemma {:induction false} RunWiredIff(start: Startup, cap: int, ns: seq<Node>, es: seq<NodeEvent>, k: nat)
    requires NodeRun(start, cap, ns, es) && k <= |es|
    ensures forall i :: 0 <= i <= k ==> ns[i].pool.Valid()
    ensures (forall i :: 0 <= i <= k ==> Wired(ns[i])) <==> (forall i :: 0 <= i < k ==> !TakesKey(ns[i], es[i]))
  {
    hide Next, Wired, TakesKey, ReserveRows;
    if k == 0 {
      StartsSound(start, cap, ns, es);
    } else {
      RunWiredIff(start, cap, ns, es, k - 1);
      RunSound(start, cap, ns, es, k - 1);
      RunSound(start, cap, ns, es, k);
      assert Leads(ns[k - 1], cap, es[k - 1], ns[k]);
      if Wired(ns[k - 1]) { NextWiredIff(ns[k - 1], cap, es[k - 1]); }
    }
  }

  /** The leases of replaced sessions up to step k. */
  ghost function Abandoned(ns: seq<Node>, es: seq<NodeEvent>, k: nat): set<uint32>
    requires k <= |es| < |ns| && forall i :: 0 <= i < k ==> Sound(ns[i])
  {
    if k == 0 then {} else Abandoned(ns, es, k - 1) + LeftBehind(ns[k - 1], es[k - 1])
  }

  lemma {:induction false} LeasesCounted(n: Node)
    requires Sound(n)
    ensures n.pool.used == HeldOffsets(n) + Orphans(n)
    ensures |n.pool.used| == |n.ses.byToken.Keys| + |Orphans(n)|
  {
    HeldAreLeased(n);
    OffsetsCount(n, n.ses.byToken.Keys);
    assert n.pool.used == HeldOffsets(n) + Orphans(n);
  }

  lemma {:induction false} RunOrphans(start: Startup, cap: int, ns: seq<Node>, es: seq<NodeEvent>, k: nat)
    requires NodeRun(start, cap, ns, es) && k <= |es| && forall i :: 0 <= i <= k ==> Sound(ns[i])
    ensures Orphans(ns[k]) == start.Leases() + Abandoned(ns, es, k)
  {
    hide Next, LeftBehind, ReserveRows, RowOffsets;
    if k == 0 {
      StartsSound(start, cap, ns, es);
      assert HeldOffsets(ns[0]) == {};
    } else {
      RunOrphans(start, cap, ns, es, k - 1);
      assert Leads(ns[k - 1], cap, es[k - 1], ns[k]);
      NextOrphans(ns[k - 1], cap, es[k - 1]);
    }
  }

  /** The lease set is accounted for exactly: the addresses of open sessions,
      the rows reserved at startup, and the leases of replaced sessions. */
  lemma {:induction false} LeasesAccounted(start: Startup, cap: int, ns: seq<Node>, es: seq<NodeEvent>, k: nat)
    requires NodeRun(start, cap, ns, es) && k <= |es|
    ensures forall i :: 0 <= i <= k ==> Sound(ns[i])
    ensures ns[k].pool.used == HeldOffsets(ns[k]) + (start.Leases() + Abandoned(ns, es, k))
    ensures HeldOffsets(ns[k]) !! start.Leases() + Abandoned(ns, es, k)
    ensures |HeldOffsets(ns[k])| == |ns[k].ses.byToken.Keys|
  {
    hide Next, LeftBehind, ReserveRows, RowOffsets;
    forall i | 0 <= i <= k ensures Sound(ns[i]) { RunSound(start, cap, ns, es, i); }
    RunOrphans(start, cap, ns, es, k);
    LeasesCounted(ns[k]);
    OffsetsCount(ns[k], ns[k].ses.byToken.Keys);
  }

  ghost function Balance(n: Node): int {
    |n.pool.used| + |n.ses.revoked| - n.ses.authorizedTotal
  }

  lemma {:induction false} AdmitBalance(n: Node, cap: int, e: NodeEvent)
    requires Sound(n) && e.Admitting?
    ensures Balance(Next(n, cap, e)) == Balance(n)
  {
    hide Next, Allocate;
    AdmitCases(n, cap, e);
    AllocateLeases(n.pool);
    var m := Next(n, cap, e);
    if !Opens(n, e) || Undone(e) { assert m.pool.used == n.pool.used; }
  }

  lemma {:induction false} ExpireBalance(n: Node, now: Time, stuck: set<string>)
    requires Sound(n)
    ensures Balance(Expire(n, now, stuck)) == Balance(n)
  {
    var due := n.ses.Due(now);
    var gone := Offsets(n.pool, n.ses, due);
    HeldAreLeased(n);
    OffsetsCount(n, due);
    assert gone <= HeldOffsets(n);
    assert |n.ses.revoked + due| == |n.ses.revoked| + |due|;
    assert |n.pool.used - gone| == |n.pool.used| - |gone|;
  }

  lemma {:induction false} NextBalance(n: Node, cap: int, e: NodeEvent)
    requires Sound(n)
    ensures Balance(Next(n, cap, e)) == Balance(n)
  {
    match e
    case Admitting(_, _) => AdmitBalance(n, cap, e);
    case Removing(id, stuck) => if id in n.ses.byToken { assert Held(n, n.ses.byToken[id]); }
    case Expiring(now, stuckKeys) => ExpireBalance(n, now, stuckKeys);
  }

  /** Over every run, leases plus consumed tokens always equal the sessions
      ever authorized plus the rows reserved at startup. */
  lemma {:induction false} RunBalance(start: Startup, cap: int, ns: seq<Node>, es: seq<NodeEvent>, k: nat)
    requires NodeRun(start, cap, ns, es) && k <= |es|
    ensures |ns[k].pool.used| + |ns[k].ses.revoked| == ns[k].ses.authorizedTotal + |start.Leases()|
  {
    hide Next, ReserveRows, RowOffsets;
    if k == 0 {
      StartsSound(start, cap, ns, es);
    } else {
      RunBalance(start, cap, ns, es, k - 1);
      RunSound(start, cap, ns, es, k - 1);
      assert Leads(ns[k - 1], cap, es[k - 1], ns[k]);
      NextBalance(ns[k - 1], cap, es[k - 1]);
    }
  }

  // ---------------------------------------------------------------- replaced sessions

  /** An operation puts another session under an open token only once the old one has expired. */
  lemma {:induction false} NextReplacesExpired(n: Node, cap: int, e: NodeEvent, id: string)
    requires Sound(n) && id in n.ses.byToken && id in Next(n, cap, e).ses.byToken
    requires Next(n, cap, e).ses.byToken[id] != n.ses.byToken[id]
    ensures e.Admitting? && e.req.tok.Ok? && e.req.tok.value.id == id && !HasLive(n.ses, id, e.req.now)
  {
    hide Allocate, Gate;
    if e.Admitting? { AdmitCases(n, cap, e); }
  }

  /** An admission with a token whose session is running opens nothing and gives its address back. */
  lemma {:induction false} LiveTokenChangesNothing(n: Node, cap: int, e: NodeEvent)
    requires Sound(n) && e.Admitting? && e.req.tok.Ok? && HasLive(n.ses, e.req.tok.value.id, e.req.now)
    ensures var m := Next(n, cap, e); m.ses == n.ses && m.peers == n.peers && m.pool.used == n.pool.used
  {
    hide Allocate, Gate, Next;
    AdmitCases(n, cap, e);
    AllocateLeases(n.pool);
  }

  /** Over every run each lease left behind was that of a session that had
      expired when it was replaced. */
  lemma {:induction false} AbandonedHadExpired(start: Startup, cap: int, ns: seq<Node>, es: seq<NodeEvent>, k: nat,
                                               o: uint32)
    returns (i: nat)
    requires NodeRun(start, cap, ns, es) && k <= |es| && forall j :: 0 <= j < k ==> Sound(ns[j])
    requires o in Abandoned(ns, es, k)
    ensures i < k && es[i].Admitting? && es[i].req.tok.Ok? && es[i].req.tok.value.id in ns[i].ses.byToken
    ensures var s := ns[i].ses.byToken[es[i].req.tok.value.id];
            && s.expires.Some? && es[i].req.now >= s.expires.value
            && s.addr.Some? && ns[i].pool.Offset(s.addr.value) == o
    decreases k
  {
    hide Next, Allocate, Gate;
    if o in LeftBehind(ns[k - 1], es[k - 1]) {
      i := k - 1;
      assert Held(ns[i], ns[i].ses.byToken[es[i].req.tok.value.id]);
    } else {
      i := AbandonedHadExpired(start, cap, ns, es, k - 1, o);
    }
  }

  // ---------------------------------------------------------------- what an admission needs

  /** Everything an admission asks for, each condition on its own. */
  ghost predicate Admissible(n: Node, pol: Policy, req: Request) {
    && !pol.disabled && req.abuseOk && pol.acceptNew && |n.ses.Live(req.checked)| < pol.maxClients && req.keyOk
    && (exists off: uint32 :: n.pool.Client(off) && off !in n.pool.used)
    && req.tok.Ok? && (req.tok.value.expires.Some? ==> req.now < req.tok.value.expires.value)
    && req.tok.value.id !in n.ses.revoked && !HasLive(n.ses, req.tok.value.id, req.now)
    && !(pol.relay && req.tok.value.scope == "exit") && req.addOk
  }

  /** A client is admitted exactly when all of that holds; then the session is
      its own, the peer is installed at a free client address, and no other
      session or peer changes. */
  lemma {:induction false} AdmittedIff(n: Node, cap: int, pol: Policy, req: Request)
    requires Sound(n)
    ensures var (o, m) := Admit(n, cap, pol, req);
            && (o.Admitted? <==> Admissible(n, pol, req))
            && (o.Admitted? ==>
                  && o.s.tokenID == req.tok.value.id && o.s.clientKey == req.key && o.s.created == req.now
                  && o.s.addr.Some? && !n.pool.Leased(o.s.addr.value) && n.pool.Client(n.pool.Offset(o.s.addr.value))
                  && m.ses.byToken == n.ses.byToken[o.s.tokenID := o.s] && m.ses.revoked == n.ses.revoked
                  && m.peers == n.peers[req.key := o.s.addr.value]
                  && m.pool.used == n.pool.used + {n.pool.Offset(o.s.addr.value)})
  {
    hide Allocate;
    AllocateIff(n.pool);
  }

  /** Without an admission no session opens, no peer changes and no lease is
      kept; a token that got as far as the device or the relay test is used up. */
  lemma {:induction false} RefusedChanges(n: Node, cap: int, pol: Policy, req: Request)
    requires Sound(n) && !Admit(n, cap, pol, req).0.Admitted?
    ensures var (o, m) := Admit(n, cap, pol, req);
            && m.peers == n.peers && m.pool.used == n.pool.used
            && (if o.RelayScope? || o.PeerFailed?
                then req.tok.Ok? && m.ses.byToken == n.ses.byToken - {req.tok.value.id}
                     && m.ses.revoked == n.ses.revoked + {req.tok.value.id}
                else m.ses == n.ses)
  {
    var e := Admitting(pol, req);
    OutcomeIs(n, cap, pol, req);
    AdmitCases(n, cap, e);
    AllocateLeases(n.pool);
    hide Allocate, Gate, Refusal, Admit;
    if Opens(n, e) {
      var s := NewSession(n, cap, e);
      assert n.ses.byToken[s.tokenID := s] - {s.tokenID} == n.ses.byToken - {s.tokenID};
    }
  }

  lemma {:induction false} OutcomeIs(n: Node, cap: int, pol: Policy, req: Request)
    requires n.pool.Valid()
    ensures var e := Admitting(pol, req); var o := Admit(n, cap, pol, req).0;
            && (Opens(n, e) <==> o.Admitted? || o.RelayScope? || o.PeerFailed?)
            && (Opens(n, e) ==> (Undone(e) <==> !o.Admitted?))
  {
    hide Allocate;
  }

  /** Each refusal of the operator and what alone brings it. */
  lemma {:induction false} GateIff(n: Node, cap: int, pol: Policy, req: Request)
    requires n.pool.Valid()
    ensures var o := Admit(n, cap, pol, req).0; var full := |n.ses.Live(req.checked)| >= pol.maxClients;
            && (o == Disabled <==> pol.disabled)
            && (o == Abusive <==> !pol.disabled && !req.abuseOk)
            && (o == NotAccepting <==> !pol.disabled && req.abuseOk && !pol.acceptNew)
            && (o == AtCapacity <==> !pol.disabled && req.abuseOk && pol.acceptNew && full)
            && (o == BadKey <==> !pol.disabled && req.abuseOk && pol.acceptNew && !full && !req.keyOk)
  {
    hide Allocate;
  }

  // ---------------------------------------------------------------- what a removal takes away

  /** Revoking takes away the session, its lease and, unless the device is
      stuck, its peer, and nothing else. */
  lemma {:induction false} RemoveTakes(n: Node, id: string, stuck: bool)
    requires Sound(n) && id in n.ses.byToken
    ensures var m, s := Remove(n, id, stuck), n.ses.byToken[id];
            && m.ses.byToken == n.ses.byToken - {id} && m.ses.revoked == n.ses.revoked + {id}
            && s.addr.Some? && m.pool.used == n.pool.used - {n.pool.Offset(s.addr.value)}
            && (forall key :: key in m.peers <==> key in n.peers && (stuck || key != s.clientKey))
            && (forall key :: key in m.peers ==> m.peers[key] == n.peers[key])
  {
    assert Held(n, n.ses.byToken[id]);
  }

  /** A sweep takes away exactly the peers of the sessions it evicts, except those the device keeps. */
  lemma {:induction false} ExpireTakes(n: Node, now: Time, stuck: set<string>)
    requires Sound(n)
    ensures var m := Expire(n, now, stuck);
            && (forall id :: id in m.ses.byToken <==> HasLive(n.ses, id, now))
            && (forall key :: key in m.peers <==>
                  && key in n.peers
                  && (key in stuck || forall id :: id in n.ses.byToken && !HasLive(n.ses, id, now) ==>
                                        n.ses.byToken[id].clientKey != key))
            && (forall key :: key in m.peers ==> m.peers[key] == n.peers[key])
  {
    hide Offsets, ForgetAll;
    var due := n.ses.Due(now);
    assert forall id :: id in due <==> id in n.ses.byToken && !HasLive(n.ses, id, now);
    assert forall key :: key in Keys(n.ses, due) <==> exists id :: id in due && n.ses.byToken[id].clientKey == key;
  }

  /** The key belongs to an open session. */
  ghost predicate InUse(n: Node, key: string) {
    exists id :: id in n.ses.byToken && n.ses.byToken[id].clientKey == key
  }

  /** The event may leave a peer of no open session: the device kept one, or
      a session that had expired was replaced or its replacement undone. */
  ghost predicate LeavesPeer(n: Node, e: NodeEvent, key: string) {
    match e
    case Admitting(_, req) =>
      req.tok.Ok? && req.tok.value.id in n.ses.byToken && n.ses.byToken[req.tok.value.id].clientKey == key
      && !HasLive(n.ses, req.tok.value.id, req.now)
    case Removing(id, stuck) => stuck && id in n.ses.byToken && n.ses.byToken[id].clientKey == key
    case Expiring(now, stuckKeys) => key in stuckKeys
  }

  lemma {:induction false} NextPeers(n: Node, cap: int, e: NodeEvent, key: string)
    requires Sound(n) && key in Next(n, cap, e).peers && !InUse(Next(n, cap, e), key)
    ensures LeavesPeer(n, e, key) || (key in n.peers && !InUse(n, key))
  {
    match e
    case Admitting(pol, req) => AdmitPeers(n, cap, e, key);
    case Removing(id, stuck) =>
      if id in n.ses.byToken {
        RemoveTakes(n, id, stuck);
        UseAfter(n, Remove(n, id, stuck), {id}, key);
      }
    case Expiring(now, stuckKeys) =>
      ExpireTakes(n, now, stuckKeys);
      UseAfter(n, Expire(n, now, stuckKeys), n.ses.Due(now), key);
  }

  lemma {:induction false} UseAfter(n: Node, m: Node, gone: set<string>, key: string)
    requires m.ses.byToken == n.ses.byToken - gone && !InUse(m, key)
    ensures forall id :: id in n.ses.byToken && n.ses.byToken[id].clientKey == key ==> id in gone
  {
    forall id | id in n.ses.byToken && id !in gone ensures n.ses.byToken[id].clientKey != key {
      assert id in m.ses.byToken && m.ses.byToken[id] == n.ses.byToken[id];
    }
  }

  lemma {:induction false} AdmitPeers(n: Node, cap: int, e: NodeEvent, key: string)
    requires Sound(n) && e.Admitting? && key in Next(n, cap, e).peers && !InUse(Next(n, cap, e), key)
    ensures LeavesPeer(n, e, key) || (key in n.peers && !InUse(n, key))
  {
    hide Allocate, Next;
    var m := Next(n, cap, e);
    AdmitCases(n, cap, e);
    if Opens(n, e) {
      var s := NewSession(n, cap, e);
      if !Undone(e) {
        assert m.ses.byToken[s.tokenID] == s;
        assert key != s.clientKey;
      }
      forall id | id in n.ses.byToken && id != s.tokenID ensures n.ses.byToken[id].clientKey != key {
        assert id in m.ses.byToken && m.ses.byToken[id] == n.ses.byToken[id];
      }
    } else {
      assert m.ses == n.ses && m.peers == n.peers;
    }
  }

  /** Over every run an installed peer is that of an open session, unless the
      device once kept it or its session was replaced after it expired. */
  lemma {:induction false} PeersAreOfOpenSessions(start: Startup, cap: int, ns: seq<Node>, es: seq<NodeEvent>,
                                                  k: nat, key: string)
    returns (i: nat)
    requires NodeRun(start, cap, ns, es) && k <= |es| && key in ns[k].peers && !InUse(ns[k], key)
    ensures i < k && LeavesPeer(ns[i], es[i], key)
    decreases k
  {
    hide Next, ReserveRows, InUse, LeavesPeer;
    RunSound(start, cap, ns, es, k - 1);
    assert Leads(ns[k - 1], cap, es[k - 1], ns[k]);
    NextPeers(ns[k - 1], cap, es[k - 1], key);
    if LeavesPeer(ns[k - 1], es[k - 1], key) {
      i := k - 1;
    } else {
      i := PeersAreOfOpenSessions(start, cap, ns, es, k - 1, key);
    }
  }
}
