/** The session manager of internal/session/session.go: live sessions by
    token and by address, single-use revocation, expiry and sweeping. */
module Sessions {
  import opened Wrappers
  import opened Ipam

  type Time = int

  datatype Token = Token(id: string, nodeID: string, sessionID: string, expires: Option<Time>, scope: string)

  /** One authorized client slot. The serial tells apart two sessions opened
      for one token, as object identity does in the source. */
  datatype Session = Session(serial: nat, tokenID: string, nodeID: string, sessionID: string, clientKey: string,
                             addr: Option<uint32>, endpoint: string, scope: string,
                             created: Time, expires: Option<Time>)
  {
    predicate Expired(now: Time) {
      expires.Some? && now >= expires.value
    }
  }

  datatype AuthError = InvalidToken | ExpiredToken | RevokedToken | AlreadyActive

  datatype Table = Table(byToken: map<string, Session>, byIP: map<uint32, Session>, revoked: set<string>,
                         authorizedTotal: nat, expiredTotal: nat)
  {
    /** The sessions past their quota. */
    function Due(now: Time): set<string> {
      set id | id in byToken && byToken[id].Expired(now)
    }

    function Live(now: Time): set<string> {
      set id | id in byToken && !byToken[id].Expired(now)
    }
  }

  const NoSessions := Table(map[], map[], {}, 0, 0)

  /** The earlier of the token's expiry and the duration cap; a cap of zero or less is off. */
  function CapExpiry(expires: Option<Time>, cap: int, now: Time): Option<Time> {
    if cap > 0 && (expires.None? || now + cap < expires.value) then Some(now + cap) else expires
  }

  function Refusal(t: Table, now: Time, tok: Result<Token, AuthError>): Option<AuthError> {
    match tok
    case Err(e) => Some(e)
    case Ok(tk) =>
      if tk.expires.Some? && now >= tk.expires.value then Some(ExpiredToken)
      else if tk.id in t.revoked then Some(RevokedToken)
      else if tk.id in t.byToken && !t.byToken[tk.id].Expired(now) then Some(AlreadyActive)
      else None
  }

  function Opened(t: Table, cap: int, now: Time, tk: Token, key: string, addr: Option<uint32>,
                  endpoint: string): Session {
    Session(t.authorizedTotal, tk.id, tk.nodeID, tk.sessionID, key, addr, endpoint, tk.scope,
            now, CapExpiry(tk.expires, cap, now))
  }

  /** The session opened for a token that is not refused, and the table after. */
  function Open(t: Table, s: Session): Table {
    t.(byToken := t.byToken[s.tokenID := s],
       byIP := if s.addr.Some? then t.byIP[s.addr.value := s] else t.byIP,
       authorizedTotal := t.authorizedTotal + 1)
  }

  /** Drops the address entry of s unless a later session took the address. */
  function Forget(byIP: map<uint32, Session>, s: Session): map<uint32, Session> {
    if s.addr.Some? && s.addr.value in byIP && byIP[s.addr.value] == s then byIP - {s.addr.value} else byIP
  }

  function Revoke(t: Table, id: string): Table {
    if id !in t.byToken then t
    else t.(byToken := t.byToken - {id}, byIP := Forget(t.byIP, t.byToken[id]), revoked := t.revoked + {id})
  }

  /** The table after evicting the given tokens. */
  ghost function Evicted(t: Table, ids: set<string>): Table
    requires ids <= t.byToken.Keys
  {
    t.(byToken := t.byToken - ids, byIP := ForgetAll(t, ids), revoked := t.revoked + ids,
       expiredTotal := t.expiredTotal + |ids|)
  }

  ghost function Sweep(t: Table, now: Time): Table {
    Evicted(t, t.Due(now))
  }

  ghost function ForgetAll(t: Table, ids: set<string>): map<uint32, Session>
    requires ids <= t.byToken.Keys
  {
    map a | a in t.byIP
            && !(exists id :: id in ids && t.byToken[id].addr == Some(a) && t.byIP[a] == t.byToken[id]) :: t.byIP[a]
  }

  ghost predicate Consistent(t: Table) {
    && (forall id :: id in t.byToken ==> t.byToken[id].tokenID == id && t.byToken[id].serial < t.authorizedTotal)
    && t.byToken.Keys !! t.revoked
    && t.expiredTotal <= |t.revoked|
  }

  class Manager {
    const cap: int
    var byToken: map<string, Session>
    var byIP: map<uint32, Session>
    var revoked: set<string>
    var authorizedTotal: nat
    var expiredTotal: nat

    ghost function View(): Table
      reads this
    {
      Table(byToken, byIP, revoked, authorizedTotal, expiredTotal)
    }

    constructor (cap: int)
      ensures View() == NoSessions && this.cap == cap
    {
      this.cap := cap;
      byToken, byIP, revoked, authorizedTotal, expiredTotal := map[], map[], {}, 0, 0;
    }

    /** Opens a session for the validated token, unless refused. */
    method Authorize(tok: Result<Token, AuthError>, now: Time, key: string, addr: Option<uint32>, endpoint: string)
      returns (r: Result<Session, AuthError>)
      modifies this
      ensures match Refusal(old(View()), now, tok)
              case Some(e) => r == Err(e) && View() == old(View())
              case None => && tok.Ok? && r == Ok(Opened(old(View()), cap, now, tok.value, key, addr, endpoint))
                           && View() == Open(old(View()), r.value)
    {
      if tok.Err? {
        return Err(tok.error);
      }
      var tk := tok.value;
      if tk.expires.Some? && now >= tk.expires.value {
        return Err(ExpiredToken);
      }
      var expires := tk.expires;
      if cap > 0 {
        if expires.None? || now + cap < expires.value {
          expires := Some(now + cap);
        }
      }
      var wasRevoked := IsRevoked(tk.id);
      if wasRevoked {
        return Err(RevokedToken);
      }
      if tk.id in byToken && !byToken[tk.id].Expired(now) {
        return Err(AlreadyActive);
      }
      var s := Session(authorizedTotal, tk.id, tk.nodeID, tk.sessionID, key, addr, endpoint, tk.scope, now, expires);
      byToken := byToken[tk.id := s];
      if addr.Some? {
        byIP := byIP[addr.value := s];
      }
      authorizedTotal := authorizedTotal + 1;
      return Ok(s);
    }

    /** The full scan of the revocation set, with no early exit. */
    method IsRevoked(id: string) returns (found: bool)
      ensures found <==> id in revoked
    {
      found := false;
      var todo := revoked;
      while todo != {}
        invariant todo <= revoked && (found <==> id in revoked - todo)
        decreases todo
      {
        var k :| k in todo;
        if k == id {
          found := true;
        }
        todo := todo - {k};
      }
    }

    method RevokeToken(id: string) returns (ok: bool)
      modifies this
      ensures ok <==> id in old(byToken)
      ensures View() == Revoke(old(View()), id)
    {
      if id !in byToken {
        return false;
      }
      var s := byToken[id];
      byToken := byToken - {id};
      if s.addr.Some? {
        if s.addr.value in byIP && byIP[s.addr.value] == s {
          byIP := byIP - {s.addr.value};
        }
      }
      revoked := revoked + {id};
      return true;
    }

    method ActiveCount(now: Time) returns (n: nat)
      ensures n == |View().Live(now)|
    {
      n := 0;
      var todo := byToken.Keys;
      ghost var live := View().Live(now);
      ghost var seen := {};
      while todo != {}
        invariant todo <= byToken.Keys && seen == live - todo && n == |seen|
        decreases todo
      {
        var id :| id in todo;
        TakeOne(live, todo, id);
        todo := todo - {id};
        if !byToken[id].Expired(now) {
          CountOne(seen, id);
          seen := seen + {id};
          n := n + 1;
        }
      }
      assert seen == live;
    }

    /** Evicts every due session and returns them, each once. */
    method SweepOnce(now: Time) returns (done: seq<Session>)
      requires Consistent(View())
      modifies this
      ensures View() == old(Sweep(View(), now))
      ensures Covers(old(View()), old(View().Due(now)), done)
    {
      var todo := byToken.Keys;
      ghost var t := View();
      ghost var due := t.Due(now);
      done := [];
      EvictNone(t);
      assert due - todo == {};
      hide Evicted, EvictedNext, Table.Due, Consistent;
      while todo != {}
        invariant todo <= t.byToken.Keys && due - todo <= t.byToken.Keys
        invariant View() == Evicted(t, due - todo)
        invariant Covers(t, due - todo, done)
        decreases todo
      {
        var id :| id in todo;
        SweepStep(t, now, todo, id, done);
        todo := todo - {id};
        var s := byToken[id];
        if s.Expired(now) {
          done := done + [s];
          EvictSession(id, s);
        }
      }
      assert due - todo == due;
    }

    method EvictSession(id: string, s: Session)
      modifies this
      ensures View() == EvictedNext(old(View()), s, id)
    {
      byToken := byToken - {id};
      if s.addr.Some? {
        if s.addr.value in byIP && byIP[s.addr.value] == s {
          byIP := byIP - {s.addr.value};
        }
      }
      revoked := revoked + {id};
      expiredTotal := expiredTotal + 1;
    }
  }

  lemma {:induction false} CountOne(s: set<string>, id: string)
    requires id !in s
    ensures |s + {id}| == |s| + 1
  {
  }

  lemma {:induction false} TakeOne(want: set<string>, todo: set<string>, id: string)
    requires id in todo
    ensures want - (todo - {id}) == if id in want then (want - todo) + {id} else want - todo
  {
  }

  /** The list holds exactly the sessions of the given tokens, each once. */
  ghost predicate Covers(t: Table, ids: set<string>, done: seq<Session>)
    decreases |done|
  {
    if done == [] then ids == {}
    else
      var s := done[|done| - 1];
      && s.tokenID in ids && s.tokenID in t.byToken && t.byToken[s.tokenID] == s
      && Covers(t, ids - {s.tokenID}, done[..|done| - 1])
  }

  lemma {:induction false} CoversOne(t: Table, ids: set<string>, done: seq<Session>, id: string)
    requires Covers(t, ids, done) && id in t.byToken && id !in ids && t.byToken[id].tokenID == id
    ensures Covers(t, ids + {id}, done + [t.byToken[id]])
  {
    var all := done + [t.byToken[id]];
    assert all[..|all| - 1] == done && ids + {id} - {id} == ids;
  }

  lemma {:induction false} EvictNone(t: Table)
    ensures Evicted(t, {}) == t
  {
    assert t.byToken - {} == t.byToken && t.revoked + {} == t.revoked;
    assert ForgetAll(t, {}) == t.byIP;
  }

  /** The table after one more eviction. */
  function EvictedNext(t: Table, s: Session, id: string): Table {
    t.(byToken := t.byToken - {id}, byIP := Forget(t.byIP, s), revoked := t.revoked + {id},
       expiredTotal := t.expiredTotal + 1)
  }

  /** One step of a sweep over the tokens still to look at. */
  lemma {:induction false} SweepStep(t: Table, now: Time, todo: set<string>, id: string, done: seq<Session>)
    requires Consistent(t) && id in todo && todo <= t.byToken.Keys && Covers(t, t.Due(now) - todo, done)
    ensures var before, after := t.Due(now) - todo, t.Due(now) - (todo - {id});
            && id in Evicted(t, before).byToken && Evicted(t, before).byToken[id] == t.byToken[id]
            && if t.byToken[id].Expired(now)
               then Evicted(t, after) == EvictedNext(Evicted(t, before), t.byToken[id], id)
                    && Covers(t, after, done + [t.byToken[id]])
               else after == before
  {
    var before := t.Due(now) - todo;
    TakeOne(t.Due(now), todo, id);
    if t.byToken[id].Expired(now) {
      EvictOne(t, before, id);
      CoversOne(t, before, done, id);
    }
    hide EvictedNext, Covers, ForgetAll;
  }

  lemma {:induction false} EvictOne(t: Table, ids: set<string>, id: string)
    requires ids <= t.byToken.Keys && id in t.byToken && id !in ids
    ensures var before := Evicted(t, ids);
            Evicted(t, ids + {id}) == EvictedNext(before, t.byToken[id], id)
  {
    assert t.byToken - (ids + {id}) == t.byToken - ids - {id};
    assert t.revoked + (ids + {id}) == t.revoked + ids + {id};
    ForgetOne(t, ids, id);
  }

  lemma {:induction false} ForgetOne(t: Table, ids: set<string>, id: string)
    requires ids <= t.byToken.Keys && id in t.byToken && id !in ids
    ensures ForgetAll(t, ids + {id}) == Forget(ForgetAll(t, ids), t.byToken[id])
  {
    var a, b := ForgetAll(t, ids + {id}), Forget(ForgetAll(t, ids), t.byToken[id]);
    assert a.Keys == b.Keys;
  }

  // ---------------------------------------------------------------- runs of the manager

  datatype Event =
    | Authorizing(tok: Result<Token, AuthError>, now: Time, key: string, addr: Option<uint32>, endpoint: string)
    | Revoking(id: string)
    | Sweeping(now: Time)

  ghost function Step(cap: int, t: Table, e: Event): Table {
    match e
    case Authorizing(tok, now, key, addr, endpoint) =>
      if Refusal(t, now, tok).Some? then t else Open(t, Opened(t, cap, now, tok.value, key, addr, endpoint))
    case Revoking(id) => Revoke(t, id)
    case Sweeping(now) => Sweep(t, now)
  }

  /** The event opens a session over one that expired but was not swept. */
  ghost predicate Replaces(t: Table, e: Event) {
    e.Authorizing? && Refusal(t, e.now, e.tok).None? && e.tok.value.id in t.byToken
  }

  ghost predicate RunOf(cap: int, ts: seq<Table>, es: seq<Event>) {
    |ts| == |es| + 1 && ts[0] == NoSessions && forall i :: 0 <= i < |es| ==> ts[i + 1] == Step(cap, ts[i], es[i])
  }

  ghost function Replacements(ts: seq<Table>, es: seq<Event>, n: nat): nat
    requires n <= |es| < |ts|
  {
    if n == 0 then 0 else Replacements(ts, es, n - 1) + if Replaces(ts[n - 1], es[n - 1]) then 1 else 0
  }

  /** Sessions authorized that are neither open nor consumed. */
  ghost function Unaccounted(t: Table): int {
    t.authorizedTotal - |t.byToken.Keys| - |t.revoked|
  }

  lemma {:induction false} OpenKeeps(t: Table, s: Session)
    requires Consistent(t) && s.serial == t.authorizedTotal && s.tokenID !in t.revoked
    ensures Consistent(Open(t, s))
  {
  }

  lemma {:induction false} OpenCounts(t: Table, s: Session)
    ensures Unaccounted(Open(t, s)) == Unaccounted(t) + if s.tokenID in t.byToken then 1 else 0
  {
    var before, after := t.byToken.Keys, Open(t, s).byToken.Keys;
    assert after == before + {s.tokenID};
    if s.tokenID in before { assert after == before; }
  }

  lemma {:induction false} RevokeKeeps(t: Table, id: string)
    requires Consistent(t)
    ensures Consistent(Revoke(t, id)) && Unaccounted(Revoke(t, id)) == Unaccounted(t)
  {
    if id in t.byToken {
      assert Revoke(t, id).byToken.Keys == t.byToken.Keys - {id};
    }
  }

  lemma {:induction false} EvictKeeps(t: Table, ids: set<string>)
    requires Consistent(t) && ids <= t.byToken.Keys
    ensures Consistent(Evicted(t, ids)) && Unaccounted(Evicted(t, ids)) == Unaccounted(t)
  {
    assert Evicted(t, ids).byToken.Keys == t.byToken.Keys - ids;
    assert |t.byToken.Keys - ids| == |t.byToken.Keys| - |ids|;
    assert |t.revoked + ids| == |t.revoked| + |ids|;
  }

  lemma {:induction false} StepKeeps(cap: int, t: Table, e: Event)
    requires Consistent(t)
    ensures Consistent(Step(cap, t, e)) && t.revoked <= Step(cap, t, e).revoked
    ensures Unaccounted(Step(cap, t, e)) == Unaccounted(t) + if Replaces(t, e) then 1 else 0
  {
    match e
    case Authorizing(tok, now, key, addr, endpoint) =>
      if Refusal(t, now, tok).None? {
        OpenKeeps(t, Opened(t, cap, now, tok.value, key, addr, endpoint));
        OpenCounts(t, Opened(t, cap, now, tok.value, key, addr, endpoint));
      }
    case Revoking(id) => RevokeKeeps(t, id);
    case Sweeping(now) => EvictKeeps(t, t.Due(now));
  }

  /** Over every run: no live token id is revoked, and every session ever
      authorized is still open, or consumed, or was replaced after it expired. */
  lemma {:induction false} RunConserves(cap: int, ts: seq<Table>, es: seq<Event>, n: nat)
    requires RunOf(cap, ts, es) && n <= |es|
    ensures Consistent(ts[n])
    ensures ts[n].authorizedTotal == |ts[n].byToken.Keys| + |ts[n].revoked| + Replacements(ts, es, n)
  {
    if n > 0 {
      RunConserves(cap, ts, es, n - 1);
      StepKeeps(cap, ts[n - 1], es[n - 1]);
    }
  }

  /** A revoked or swept id is refused by every later authorization. */
  lemma {:induction false} RevokedForever(cap: int, ts: seq<Table>, es: seq<Event>, m: nat, n: nat, id: string)
    requires RunOf(cap, ts, es) && m <= n < |es| && id in ts[m].revoked
    requires es[n].Authorizing? && es[n].tok.Ok? && es[n].tok.value.id == id
    ensures Refusal(ts[n], es[n].now, es[n].tok).Some? && ts[n + 1] == ts[n]
  {
    RevokedGrows(cap, ts, es, m, n);
  }

  lemma {:induction false} RevokedGrows(cap: int, ts: seq<Table>, es: seq<Event>, m: nat, n: nat)
    requires RunOf(cap, ts, es) && m <= n <= |es|
    ensures ts[m].revoked <= ts[n].revoked
    decreases n
  {
    if m < n {
      RevokedGrows(cap, ts, es, m, n - 1);
      RunConserves(cap, ts, es, n - 1);
      StepKeeps(cap, ts[n - 1], es[n - 1]);
    }
  }

  /** The event opened this session with the token's names and scope, and it
      ends with its token or at the duration cap, whichever comes first. */
  ghost predicate OpenedBy(cap: int, e: Event, s: Session) {
    && e.Authorizing? && e.tok.Ok? && e.tok.value.id == s.tokenID && s.created == e.now
    && s.nodeID == e.tok.value.nodeID && s.sessionID == e.tok.value.sessionID && s.scope == e.tok.value.scope
    && s.addr == e.addr && s.clientKey == e.key && s.endpoint == e.endpoint
    && (e.tok.value.expires.Some? ==>
          s.expires.Some? && s.created < e.tok.value.expires.value && s.expires.value <= e.tok.value.expires.value)
    && (cap > 0 ==> s.expires.Some? && s.expires.value <= s.created + cap)
    && (s.expires.Some? ==> s.created < s.expires.value)
    && (s.expires.Some? ==> s.expires == e.tok.value.expires || (cap > 0 && s.expires.value == s.created + cap))
    && (s.expires.None? <==> e.tok.value.expires.None? && cap <= 0)
  }

  // ---------------------------------------------------------------- one live session per token

  /** The token has a session that is still running. */
  ghost predicate HasLive(t: Table, id: string, now: Time) {
    id in t.byToken && (t.byToken[id].expires.None? || now < t.byToken[id].expires.value)
  }

  /** An authorization opens a session exactly for a valid, unexpired, unused
      token with no running session, and otherwise changes nothing. */
  lemma {:induction false} AuthorizeIff(cap: int, t: Table, e: Event)
    requires e.Authorizing?
    ensures var opens := e.tok.Ok? && (e.tok.value.expires.Some? ==> e.now < e.tok.value.expires.value)
                         && e.tok.value.id !in t.revoked && !HasLive(t, e.tok.value.id, e.now);
            var t' := Step(cap, t, e);
            && (Refusal(t, e.now, e.tok).None? <==> opens)
            && t'.authorizedTotal == t.authorizedTotal + (if opens then 1 else 0)
            && (!opens ==> t' == t)
            && (opens ==> t'.byToken.Keys == t.byToken.Keys + {e.tok.value.id}
                          && OpenedBy(cap, e, t'.byToken[e.tok.value.id]))
  {
  }

  /** Which refusal a token gets. */
  lemma {:induction false} RefusalIff(t: Table, now: Time, tk: Token)
    ensures var r := Refusal(t, now, Ok(tk)); var over := tk.expires.Some? && now >= tk.expires.value;
            && (r == Some(ExpiredToken) <==> over)
            && (r == Some(RevokedToken) <==> !over && tk.id in t.revoked)
            && (r == Some(AlreadyActive) <==> !over && tk.id !in t.revoked && HasLive(t, tk.id, now))
  {
  }

  /** A step puts another session under an open token only once the old one has expired. */
  lemma {:induction false} ChangesExpiredOnly(cap: int, t: Table, e: Event, id: string)
    requires id in t.byToken && id in Step(cap, t, e).byToken && Step(cap, t, e).byToken[id] != t.byToken[id]
    ensures e.Authorizing? && e.tok.Ok? && e.tok.value.id == id
    ensures t.byToken[id].expires.Some? && e.now >= t.byToken[id].expires.value
  {
  }

  /** Over every run, a token with a running session is refused and changes
      nothing, and a session is replaced only after it expired. */
  lemma {:induction false} OneLivePerToken(cap: int, ts: seq<Table>, es: seq<Event>, n: nat, id: string)
    requires RunOf(cap, ts, es) && n < |es| && id in ts[n].byToken
    ensures es[n].Authorizing? && es[n].tok.Ok? && es[n].tok.value.id == id && HasLive(ts[n], id, es[n].now) ==>
              ts[n + 1] == ts[n] && Refusal(ts[n], es[n].now, es[n].tok).Some?
    ensures id in ts[n + 1].byToken && ts[n + 1].byToken[id] != ts[n].byToken[id] ==>
              es[n].Authorizing? && !HasLive(ts[n], id, es[n].now)
    ensures Replaces(ts[n], es[n]) ==> !HasLive(ts[n], es[n].tok.value.id, es[n].now)
  {
    if es[n].Authorizing? { AuthorizeIff(cap, ts[n], es[n]); }
    if id in ts[n + 1].byToken && ts[n + 1].byToken[id] != ts[n].byToken[id] {
      ChangesExpiredOnly(cap, ts[n], es[n], id);
    }
  }

  // ---------------------------------------------------------------- address entries

  /** Every address entry belongs to a session with that address. */
  ghost predicate EntriesOk(t: Table) {
    forall a :: a in t.byIP ==> t.byIP[a].addr == Some(a)
  }

  /** Closing a session removes its own address entry and no other. */
  lemma {:induction false} RevokeForgets(t: Table, id: string)
    requires EntriesOk(t) && id in t.byToken
    ensures var t' := Revoke(t, id);
            && id !in t'.byToken && id in t'.revoked
            && forall a :: a in t'.byIP <==> a in t.byIP && t.byIP[a] != t.byToken[id]
    ensures forall a :: a in Revoke(t, id).byIP ==> Revoke(t, id).byIP[a] == t.byIP[a]
  {
  }

  /** A sweep removes the due sessions, their address entries, and nothing else. */
  lemma {:induction false} SweepForgets(t: Table, now: Time)
    requires EntriesOk(t) && Consistent(t)
    ensures var t' := Sweep(t, now);
            && (forall id :: id in t'.byToken <==> HasLive(t, id, now))
            && (forall id :: id in t'.revoked <==> id in t.revoked || (id in t.byToken && !HasLive(t, id, now)))
            && t'.expiredTotal - t.expiredTotal == |t.byToken.Keys| - |t'.byToken.Keys|
    ensures forall a :: a in Sweep(t, now).byIP <==>
              a in t.byIP && forall id :: id in t.byToken && !HasLive(t, id, now) ==> t.byIP[a] != t.byToken[id]
  {
    var due := t.Due(now);
    assert t.byToken.Keys - due == Sweep(t, now).byToken.Keys;
    assert |t.byToken.Keys - due| == |t.byToken.Keys| - |due|;
    forall a, id | a in t.byIP && id in t.byToken && t.byIP[a] == t.byToken[id] ensures t.byToken[id].addr == Some(a) {
    }
  }

  lemma {:induction false} StepEntries(cap: int, t: Table, e: Event)
    requires EntriesOk(t)
    ensures EntriesOk(Step(cap, t, e))
  {
  }

  /** Over every run address entries lead to sessions with that address. */
  lemma {:induction false} RunEntries(cap: int, ts: seq<Table>, es: seq<Event>, n: nat)
    requires RunOf(cap, ts, es) && n <= |es|
    ensures EntriesOk(ts[n])
  {
    hide Step;
    if n > 0 {
      RunEntries(cap, ts, es, n - 1);
      StepEntries(cap, ts[n - 1], es[n - 1]);
    }
  }

  // ---------------------------------------------------------------- open sessions

  /** Every open session was opened by some authorization of the run, and
      outlives neither its token nor the duration cap. */
  lemma {:induction false} OpenSessionsAreBounded(cap: int, ts: seq<Table>, es: seq<Event>, n: nat, id: string)
    returns (i: nat)
    requires RunOf(cap, ts, es) && n <= |es| && id in ts[n].byToken
    ensures i < n && OpenedBy(cap, es[i], ts[n].byToken[id]) && Refusal(ts[i], es[i].now, es[i].tok).None?
  {
    i := 0;
    if n > 0 {
      var t, e := ts[n - 1], es[n - 1];
      if e.Authorizing? && Refusal(t, e.now, e.tok).None? && e.tok.value.id == id {
        i := n - 1;
      } else {
        RunConserves(cap, ts, es, n - 1);
        i := OpenSessionsAreBounded(cap, ts, es, n - 1, id);
      }
    }
  }
}
