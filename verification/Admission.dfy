/** The node controller of internal/nodes/controller.go: admission, removal
    and sweeping over the address pool, the session table and the installed
    WireGuard peers. */
module Admission {
  import opened Wrappers
  import opened Ipam
  import opened Sessions

  /** The operator settings an authorization reads first. */
  datatype Policy = Policy(disabled: bool, acceptNew: bool, maxClients: int, relay: bool)

  /** One authorize call: what it presents, what the collaborators answer
      (abuse guard, key parser, device), and the two times it reads. */
  datatype Request = Request(tok: Result<Token, AuthError>, key: string, endpoint: string,
                             abuseOk: bool, keyOk: bool, addOk: bool, checked: Time, now: Time)

  datatype Outcome = Disabled | Abusive | NotAccepting | AtCapacity | BadKey | Exhausted
                   | Refused(e: AuthError) | RelayScope | PeerFailed | Admitted(s: Session)

  datatype Node = Node(pool: Pool, ses: Table, peers: map<string, uint32>)

  /** A stored client row read at startup. */
  datatype Row = Row(addr: Option<uint32>, expires: Option<Time>)

  const ScopeExit := "exit"

  function Gate(t: Table, pol: Policy, req: Request): Option<Outcome> {
    if pol.disabled then Some(Disabled)
    else if !req.abuseOk then Some(Abusive)
    else if !pol.acceptNew then Some(NotAccepting)
    else if |t.Live(req.checked)| >= pol.maxClients then Some(AtCapacity)
    else if !req.keyOk then Some(BadKey)
    else None
  }

  /** The outcome once address a is allocated: each failure undoes what came before it. */
  function Settle(n: Node, cap: int, pol: Policy, req: Request, a: uint32): (Outcome, Node) {
    match Refusal(n.ses, req.now, req.tok)
    case Some(e) => (Refused(e), n.(pool := Release(n.pool, a)))
    case None =>
      var s := Opened(n.ses, cap, req.now, req.tok.value, req.key, Some(a), req.endpoint);
      var ses := Open(n.ses, s);
      if pol.relay && s.scope == ScopeExit then
        (RelayScope, Node(Release(n.pool, a), Revoke(ses, s.tokenID), n.peers))
      else if !req.addOk then
        (PeerFailed, Node(Release(n.pool, a), Revoke(ses, s.tokenID), n.peers))
      else
        (Admitted(s), Node(n.pool, ses, n.peers[req.key := a]))
  }

  function Admit(n: Node, cap: int, pol: Policy, req: Request): (Outcome, Node)
    requires n.pool.Valid()
  {
    match Gate(n.ses, pol, req)
    case Some(o) => (o, n)
    case None =>
      match Allocate(n.pool)
      case (None, pool) => (Exhausted, n.(pool := pool))
      case (Some(a), pool) => Settle(n.(pool := pool), cap, pol, req, a)
  }

  function ReleaseOf(p: Pool, s: Session): Pool {
    if s.addr.Some? then Release(p, s.addr.value) else p
  }

  /** stuck says that the device failed to remove the peer, which is ignored. */
  function Remove(n: Node, id: string, stuck: bool): Node {
    if id !in n.ses.byToken then n
    else
      var s := n.ses.byToken[id];
      Node(ReleaseOf(n.pool, s), Revoke(n.ses, id), if stuck then n.peers else n.peers - {s.clientKey})
  }

  /** The offsets held by the given open tokens. */
  ghost function Offsets(p: Pool, t: Table, ids: set<string>): set<uint32>
    requires ids <= t.byToken.Keys
  {
    set id | id in ids && t.byToken[id].addr.Some? :: p.Offset(t.byToken[id].addr.value)
  }

  ghost function Keys(t: Table, ids: set<string>): set<string>
    requires ids <= t.byToken.Keys
  {
    set id | id in ids :: t.byToken[id].clientKey
  }

  ghost function Expire(n: Node, now: Time, stuck: set<string>): Node {
    var due := n.ses.Due(now);
    Node(n.pool.(used := n.pool.used - Offsets(n.pool, n.ses, due)), Sweep(n.ses, now),
         n.peers - (Keys(n.ses, due) - stuck))
  }

  function ReserveRows(p: Pool, rows: seq<Row>, now: Time): Pool {
    if rows == [] then p
    else
      var q, r := ReserveRows(p, rows[..|rows| - 1], now), rows[|rows| - 1];
      if (r.expires.Some? && now >= r.expires.value) || r.addr.None? then q else Reserve(q, r.addr.value)
  }

  class Controller {
    const ip: IPAM
    const ses: Manager
    var peers: map<string, uint32>

    ghost function View(): Node
      reads this, ip, ses
    {
      Node(ip.View(), ses.View(), peers)
    }

    ghost predicate Valid()
      reads this, ip, ses
    {
      ip.Valid() && Consistent(ses.View())
    }

    /** Starts with no sessions, over a pool with the unexpired stored rows reserved. */
    constructor (ip: IPAM, cap: int, rows: seq<Row>, now: Time)
      requires ip.Valid()
      modifies ip
      ensures Valid() && this.ip == ip && fresh(ses) && ses.cap == cap
      ensures View() == Node(ReserveRows(old(ip.View()), rows, now), NoSessions, map[])
    {
      this.ip := ip;
      ses := new Manager(cap);
      peers := map[];
      new;
      for i := 0 to |rows|
        invariant ip.Valid() && ses.View() == NoSessions && peers == map[]
        invariant ip.View() == ReserveRows(old(ip.View()), rows[..i], now)
      {
        assert rows[..i + 1][..i] == rows[..i];
        if rows[i].expires.Some? && now >= rows[i].expires.value {
          continue;
        }
        if rows[i].addr.Some? {
          ip.ReserveAddr(rows[i].addr.value);
        }
      }
      assert rows[..|rows|] == rows;
    }

    method Authorize(pol: Policy, req: Request) returns (o: Outcome)
      requires Valid()
      modifies this, ip, ses
      ensures Valid() && (o, View()) == Admit(old(View()), ses.cap, pol, req)
    {
      if pol.disabled {
        return Disabled;
      }
      if !req.abuseOk {
        return Abusive;
      }
      if !pol.acceptNew {
        return NotAccepting;
      }
      var active := ses.ActiveCount(req.checked);
      if active >= pol.maxClients {
        return AtCapacity;
      }
      if !req.keyOk {
        return BadKey;
      }
      var lease := ip.AllocateAddr();
      if lease.None? {
        return Exhausted;
      }
      o := Complete(pol, req, lease.value);
    }

    /** The part of Authorize after an address is allocated. */
    method Complete(pol: Policy, req: Request, a: uint32) returns (o: Outcome)
      requires Valid()
      modifies this, ip, ses
      ensures Valid() && (o, View()) == Settle(old(View()), ses.cap, pol, req, a)
    {
      ghost var t := ses.View();
      var r := ses.Authorize(req.tok, req.now, req.key, Some(a), req.endpoint);
      if r.Err? {
        ip.ReleaseAddr(a);
        return Refused(r.error);
      }
      var s := r.value;
      OpenKeeps(t, s);
      if pol.relay && s.scope == ScopeExit {
        RevokeKeeps(ses.View(), s.tokenID);
        var _ := ses.RevokeToken(s.tokenID);
        ip.ReleaseAddr(a);
        return RelayScope;
      }
      if !req.addOk {
        RevokeKeeps(ses.View(), s.tokenID);
        var _ := ses.RevokeToken(s.tokenID);
        ip.ReleaseAddr(a);
        return PeerFailed;
      }
      peers := peers[req.key := a];
      return Admitted(s);
    }

    method RevokeToken(id: string, stuck: bool) returns (ok: bool)
      requires Valid()
      modifies this, ip, ses
      ensures Valid() && View() == Remove(old(View()), id, stuck)
      ensures ok <==> id in old(ses.byToken)
    {
      if id !in ses.byToken {
        return false;
      }
      var s := ses.byToken[id];
      RevokeKeeps(ses.View(), id);
      ok := ses.RevokeToken(id);
      if !stuck {
        peers := peers - {s.clientKey};
      }
      if s.addr.Some? {
        ip.ReleaseAddr(s.addr.value);
      }
    }

    method SweepOnce(now: Time, stuck: set<string>) returns (n: nat)
      requires Valid()
      modifies this, ip, ses
      ensures Valid() && View() == old(Expire(View(), now, stuck))
      ensures n == |old(ses.View().Due(now))|
    {
      ghost var t := ses.View();
      EvictKeeps(t, t.Due(now));
      var done := ses.SweepOnce(now);
      CoversCount(t, t.Due(now), done);
      ExpireAll(done, stuck, t, t.Due(now));
      return |done|;
    }

    /** The callback for one swept session. */
    method OnSessionExpired(s: Session, stuck: set<string>)
      requires ip.Valid()
      modifies this, ip
      ensures ip.Valid() && ip.View() == ReleaseOf(old(ip.View()), s)
      ensures peers == if s.clientKey in stuck then old(peers) else old(peers) - {s.clientKey}
    {
      if s.clientKey !in stuck {
        peers := peers - {s.clientKey};
      }
      if s.addr.Some? {
        ip.ReleaseAddr(s.addr.value);
      }
    }

    method ExpireAll(done: seq<Session>, stuck: set<string>, ghost t: Table, ghost due: set<string>)
      requires ip.Valid() && due <= t.byToken.Keys && Covers(t, due, done)
      modifies this, ip
      ensures ip.Valid()
      ensures ip.View() == old(ip.View()).(used := old(ip.used) - Offsets(old(ip.View()), t, due))
      ensures peers == old(peers) - (Keys(t, due) - stuck)
    {
      ghost var p, gone := ip.View(), {};
      for i := 0 to |done|
        invariant gone <= t.byToken.Keys && ip.Valid() && Covers(t, gone, done[..i])
        invariant ip.View() == p.(used := p.used - Offsets(p, t, gone))
        invariant peers == old(peers) - (Keys(t, gone) - stuck)
      {
        CoversNext(t, due, gone, done, i);
        ExpireOne(p, t, gone, done[i].tokenID);
        OnSessionExpired(done[i], stuck);
        gone := gone + {done[i].tokenID};
      }
      assert done[..|done|] == done;
      CoversUnique(t, gone, due, done);
    }
  }

  lemma {:induction false} CoversCount(t: Table, ids: set<string>, done: seq<Session>)
    requires Covers(t, ids, done)
    ensures |done| == |ids|
    decreases |done|
  {
    if done != [] {
      var s := done[|done| - 1];
      CoversCount(t, ids - {s.tokenID}, done[..|done| - 1]);
    }
  }

  lemma {:induction false} CoversUnique(t: Table, a: set<string>, b: set<string>, done: seq<Session>)
    requires Covers(t, a, done) && Covers(t, b, done)
    ensures a == b
    decreases |done|
  {
    if done != [] {
      var id := done[|done| - 1].tokenID;
      CoversUnique(t, a - {id}, b - {id}, done[..|done| - 1]);
      assert a == a - {id} + {id} && b == b - {id} + {id};
    }
  }

  lemma {:induction false} CoversPrefix(t: Table, ids: set<string>, done: seq<Session>, i: nat)
    requires Covers(t, ids, done) && i <= |done|
    ensures exists part :: part <= ids && Covers(t, part, done[..i])
    decreases |done|
  {
    if i == |done| {
      assert done[..i] == done;
    } else {
      var id := done[|done| - 1].tokenID;
      CoversPrefix(t, ids - {id}, done[..|done| - 1], i);
      assert done[..|done| - 1][..i] == done[..i];
    }
  }

  lemma {:induction false} CoversLast(t: Table, due: set<string>, gone: set<string>, done: seq<Session>, i: nat)
    requires i < |done| && Covers(t, gone, done[..i])
    requires exists part :: part <= due && Covers(t, part, done[..i + 1])
    ensures var s := done[i];
            && s.tokenID in due && s.tokenID !in gone && s.tokenID in t.byToken && t.byToken[s.tokenID] == s
            && Covers(t, gone + {s.tokenID}, done[..i + 1])
  {
    var part :| part <= due && Covers(t, part, done[..i + 1]);
    var id := done[i].tokenID;
    assert done[..i + 1][..i] == done[..i];
    CoversUnique(t, part - {id}, gone, done[..i]);
    assert gone + {id} == part;
  }

  lemma {:induction false} CoversNext(t: Table, due: set<string>, gone: set<string>, done: seq<Session>, i: nat)
    requires i < |done| && Covers(t, due, done) && Covers(t, gone, done[..i])
    ensures var s := done[i];
            && s.tokenID in due && s.tokenID !in gone && s.tokenID in t.byToken && t.byToken[s.tokenID] == s
            && Covers(t, gone + {s.tokenID}, done[..i + 1])
  {
    CoversPrefix(t, due, done, i + 1);
    CoversLast(t, due, gone, done, i);
  }

  lemma {:induction false} ExpireOne(p: Pool, t: Table, ids: set<string>, id: string)
    requires ids <= t.byToken.Keys && id in t.byToken
    ensures Keys(t, ids + {id}) == Keys(t, ids) + {t.byToken[id].clientKey}
    ensures Offsets(p, t, ids + {id})
         == Offsets(p, t, ids) + if t.byToken[id].addr.Some? then {p.Offset(t.byToken[id].addr.value)} else {}
  {
  }
}
