/** The token issuer of internal/tokens/tokens.go and its session adapter in
    session.go: minting, validation, revocation and sweeping. */
module Tokens {
  import opened Wrappers
  import opened Text
  import Sessions

  type Time = int

  datatype Scope = Exit | Relay

  datatype Entry = Entry(nodeID: string, sessionID: string, expires: Time, scope: Scope, secret: string)

  datatype TokenError = Invalid | Expired | Revoked | Unknown

  /** A validated token; the secret is not returned. */
  datatype Token = Token(id: string, nodeID: string, sessionID: string, expires: Time, scope: Scope, raw: string)

  datatype Book = Book(tokens: map<string, Entry>, revoked: set<string>)

  const Hour: int := 3_600_000_000_000
  const DefaultTTL := 4 * Hour
  const ExpiredGrace := 24 * Hour

  const EmptyBook := Book(map[], {})

  predicate Mintable(nodeID: string, sessionID: string) {
    Trim(nodeID) != "" && Trim(sessionID) != ""
  }

  function Lifetime(ttl: int): int {
    if ttl <= 0 then DefaultTTL else ttl
  }

  /** The bearer string of a minted token. */
  function Bearer(id: string, secret: string): string {
    id + ['.'] + secret
  }

  function Mint(b: Book, nodeID: string, sessionID: string, ttl: int, scope: Scope, now: Time, id: string,
                secret: string): Book {
    if !Mintable(nodeID, sessionID) then b
    else b.(tokens := b.tokens[id := Entry(nodeID, sessionID, now + Lifetime(ttl), scope, secret)])
  }

  /** What a presented string is worth at a time. */
  function Validate(b: Book, raw: string, now: Time): Result<Token, TokenError> {
    match Cut(raw, '.')
    case None => Err(Invalid)
    case Some((id, secret)) =>
      if id == "" || secret == "" then Err(Invalid)
      else if id !in b.tokens then Err(Invalid)
      else if id in b.revoked then Err(Revoked)
      else
        var e := b.tokens[id];
        if secret != e.secret then Err(Invalid)
        else if now >= e.expires then Err(Expired)
        else Ok(Token(id, e.nodeID, e.sessionID, e.expires, e.scope, raw))
  }

  function Revoke(b: Book, id: string): Book {
    if id in b.tokens then b.(revoked := b.revoked + {id}) else b
  }

  /** The records a sweep collects: long expired and not revoked. */
  function Stale(b: Book, now: Time): set<string> {
    set id | id in b.tokens && now - b.tokens[id].expires > ExpiredGrace && id !in b.revoked
  }

  lemma StaleIff(b: Book, now: Time, id: string)
    ensures Stale(b, now) <= b.tokens.Keys
    ensures id in Stale(b, now) <==> id in b.tokens && now - b.tokens[id].expires > ExpiredGrace && id !in b.revoked
  {
  }

  /** One step of a sweep over the tokens still to look at. */
  lemma {:induction false} SweepStep(b: Book, now: Time, todo: set<string>, id: string)
    requires id in todo && todo <= b.tokens.Keys
    ensures var before, after := Stale(b, now) - todo, Stale(b, now) - (todo - {id});
            && id in b.tokens - before && (b.tokens - before)[id] == b.tokens[id]
            && if now - b.tokens[id].expires > ExpiredGrace && id !in b.revoked
               then b.tokens - before - {id} == b.tokens - after && |after| == |before| + 1
               else after == before
  {
    hide Stale;
    var before, after := Stale(b, now) - todo, Stale(b, now) - (todo - {id});
    StaleIff(b, now, id);
    Sessions.TakeOne(Stale(b, now), todo, id);
    if id in Stale(b, now) {
      Sessions.CountOne(before, id);
      assert b.tokens - before - {id} == b.tokens - (before + {id});
    }
  }

  function Sweep(b: Book, now: Time): Book {
    b.(tokens := b.tokens - Stale(b, now))
  }

  /** The session adapter: the same token and the session package's errors. */
  function SessionValidate(b: Option<Book>, raw: string, now: Time): Result<Sessions.Token, Sessions.AuthError> {
    if b.None? then Err(Sessions.InvalidToken)
    else match Validate(b.value, raw, now)
      case Err(Expired) => Err(Sessions.ExpiredToken)
      case Err(Revoked) => Err(Sessions.RevokedToken)
      case Err(_) => Err(Sessions.InvalidToken)
      case Ok(t) => Ok(Sessions.Token(t.id, t.nodeID, t.sessionID, Some(t.expires),
                                     if t.scope.Exit? then "exit" else "relay"))
  }

  class Issuer {
    var tokens: map<string, Entry>
    var revoked: set<string>

    ghost function View(): Book
      reads this
    {
      Book(tokens, revoked)
    }

    constructor ()
      ensures View() == EmptyBook
    {
      tokens, revoked := map[], {};
    }

    /** Mints with the given random id and secret; an empty scope means exit,
        and any text other than the two scopes is refused. */
    method MintToken(nodeID: string, sessionID: string, ttl: int, scope: string, now: Time, id: string, secret: string)
      returns (raw: Option<string>)
      modifies this
      ensures var sc := if scope == "relay" then Relay else Exit;
              if Mintable(nodeID, sessionID) && scope in {"", "exit", "relay"} then
                raw == Some(Bearer(id, secret)) &&
                View() == Mint(old(View()), nodeID, sessionID, ttl, sc, now, id, secret)
              else raw == None && View() == old(View())
      ensures raw.Some? <==> Trim(nodeID) != "" && Trim(sessionID) != "" && scope in {"", "exit", "relay"}
    {
      if Trim(nodeID) == "" || Trim(sessionID) == "" {
        return None;
      }
      var life := ttl;
      if life <= 0 {
        life := DefaultTTL;
      }
      if scope != "" && scope != "exit" && scope != "relay" {
        return None;
      }
      var sc := if scope == "relay" then Relay else Exit;
      tokens := tokens[id := Entry(nodeID, sessionID, now + life, sc, secret)];
      return Some(id + "." + secret);
    }

    method ValidateToken(raw: string, now: Time) returns (r: Result<Token, TokenError>)
      ensures r == Validate(View(), raw, now)
    {
      var parts := Cut(raw, '.');
      if parts.None? || parts.value.0 == "" || parts.value.1 == "" {
        return Err(Invalid);
      }
      var (id, secret) := parts.value;
      if id !in tokens {
        return Err(Invalid);
      }
      if id in revoked {
        return Err(Revoked);
      }
      var e := tokens[id];
      if secret != e.secret {
        return Err(Invalid);
      }
      if now >= e.expires {
        return Err(Expired);
      }
      return Ok(Token(id, e.nodeID, e.sessionID, e.expires, e.scope, raw));
    }

    method RevokeToken(id: string) returns (ok: bool)
      modifies this
      ensures ok <==> id in old(tokens)
      ensures View() == Revoke(old(View()), id)
    {
      if id !in tokens {
        return false;
      }
      revoked := revoked + {id};
      return true;
    }

    method SweepOnce(now: Time) returns (n: nat)
      modifies this`tokens
      ensures View() == Sweep(old(View()), now) && n == |Stale(old(View()), now)|
    {
      hide Stale;
      n := 0;
      ghost var b := View();
      var todo := tokens.Keys;
      StaleIff(b, now, "");
      assert Stale(b, now) - todo == {};
      while todo != {}
        invariant todo <= b.tokens.Keys && n == |Stale(b, now) - todo|
        invariant tokens == b.tokens - (Stale(b, now) - todo)
        decreases todo
      {
        var id :| id in todo;
        SweepStep(b, now, todo, id);
        todo := todo - {id};
        if now - tokens[id].expires > ExpiredGrace && id !in revoked {
          tokens := tokens - {id};
          n := n + 1;
        }
      }
      assert Stale(b, now) - todo == Stale(b, now);
    }
  }

  // ---------------------------------------------------------------- runs

  datatype Event =
    | Minting(nodeID: string, sessionID: string, ttl: int, scope: Scope, id: string, secret: string)
    | Revoking(id: string)
    | Sweeping
    | Idle

  function Step(b: Book, now: Time, e: Event): Book {
    match e
    case Minting(nodeID, sessionID, ttl, scope, id, secret) => Mint(b, nodeID, sessionID, ttl, scope, now, id, secret)
    case Revoking(id) => Revoke(b, id)
    case Sweeping => Sweep(b, now)
    case Idle => b
  }

  /** A run: books, the time of each event under a monotone clock, and ids
      that are never drawn twice, non-empty and without a dot. */
  ghost predicate RunOf(bs: seq<Book>, ts: seq<Time>, es: seq<Event>) {
    && |bs| == |es| + 1 && |ts| == |es| && bs[0] == EmptyBook
    && (forall i :: 0 <= i < |es| ==> bs[i + 1] == Step(bs[i], ts[i], es[i]))
    && (forall i, j :: 0 <= i < j < |es| ==> ts[i] <= ts[j])
    && (forall i :: 0 <= i < |es| && es[i].Minting? ==> es[i].id != "" && '.' !in es[i].id && es[i].secret != "")
    && (forall i, j :: 0 <= i < j < |es| && es[i].Minting? && es[j].Minting? ==> es[i].id != es[j].id)
  }

  /** The event revoked the id. */
  ghost predicate RevokedAt(bs: seq<Book>, es: seq<Event>, i: nat, id: string)
    requires i < |es| < |bs|
  {
    es[i] == Revoking(id) && id in bs[i].tokens
  }

  /** The string names a record that expired more than the grace ago. */
  predicate BeyondGrace(b: Book, raw: string, now: Time) {
    match Cut(raw, '.')
    case None => false
    case Some((id, _)) => id in b.tokens && now - b.tokens[id].expires > ExpiredGrace
  }

  /** Sweeping changes no verdict except that a long-expired string turns from expired to invalid. */
  lemma {:induction false} SweepKeepsVerdicts(b: Book, now: Time, raw: string, later: Time)
    requires now <= later
    ensures var before, after := Validate(b, raw, later), Validate(Sweep(b, now), raw, later);
            || before == after
            || (before == Err(Expired) && after == Err(Invalid) && BeyondGrace(b, raw, now))
  {
    hide Cut;
  }

  /** Validation of a bearer string reads exactly its own record. */
  lemma {:induction false} BearerVerdict(b: Book, id: string, secret: string, now: Time)
    requires id != "" && '.' !in id && secret != ""
    ensures Cut(Bearer(id, secret), '.') == Some((id, secret))
    ensures SessionValidate(None, Bearer(id, secret), now) == Err(Sessions.InvalidToken)
    ensures Validate(b, Bearer(id, secret), now).Ok? <==>
              id in b.tokens && id !in b.revoked && b.tokens[id].secret == secret && now < b.tokens[id].expires
  {
    CutAt(id, '.', secret);
  }

  /** What the book says about an id minted at step m: its record is the
      minted one, or it was collected after its grace, never revoked. */
  ghost predicate Tracked(b: Book, e: Event, mintedAt: Time, now: Time, wasRevoked: bool)
    requires e.Minting?
  {
    var entry := Entry(e.nodeID, e.sessionID, mintedAt + Lifetime(e.ttl), e.scope, e.secret);
    && (e.id in b.revoked <==> wasRevoked)
    && (e.id in b.tokens ==> b.tokens[e.id] == entry)
    && (e.id !in b.tokens ==> !wasRevoked && now - entry.expires > ExpiredGrace)
  }

  lemma {:induction false} StepTracked(b: Book, now: Time, ev: Event, e: Event, mintedAt: Time, before: Time,
                                       wasRevoked: bool)
    requires e.Minting? && Tracked(b, e, mintedAt, before, wasRevoked) && before <= now
    requires ev.Minting? ==> ev.id != e.id
    ensures Tracked(Step(b, now, ev), e, mintedAt, now, wasRevoked || (ev == Revoking(e.id) && e.id in b.tokens))
  {
    hide Trim;
  }

  /** Revoked between the two steps of a run. */
  ghost predicate RevokedBetween(bs: seq<Book>, es: seq<Event>, m: nat, n: nat, id: string)
    requires n <= |es| < |bs|
  {
    exists i :: m <= i < n && RevokedAt(bs, es, i, id)
  }

  lemma {:induction false} FreshUntilMinted(bs: seq<Book>, ts: seq<Time>, es: seq<Event>, n: nat, id: string)
    requires RunOf(bs, ts, es) && n <= |es|
    requires forall i :: 0 <= i < n && es[i].Minting? ==> es[i].id != id
    ensures id !in bs[n].tokens && id !in bs[n].revoked
  {
    hide Trim;
    if n > 0 { FreshUntilMinted(bs, ts, es, n - 1, id); }
  }

  lemma {:induction false} RunTracked(bs: seq<Book>, ts: seq<Time>, es: seq<Event>, m: nat, n: nat)
    requires RunOf(bs, ts, es) && m < n <= |es|
    requires es[m].Minting? && Mintable(es[m].nodeID, es[m].sessionID)
    ensures Tracked(bs[n], es[m], ts[m], ts[n - 1], RevokedBetween(bs, es, m + 1, n, es[m].id))
    decreases n
  {
    hide Mintable, Step, Tracked;
    if n == m + 1 {
      FreshUntilMinted(bs, ts, es, m, es[m].id);
      MintTracked(bs[m], ts[m], es[m]);
    } else {
      RunTracked(bs, ts, es, m, n - 1);
      var was := RevokedBetween(bs, es, m + 1, n - 1, es[m].id);
      StepTracked(bs[n - 1], ts[n - 1], es[n - 1], es[m], ts[m], ts[n - 2], was);
      assert RevokedBetween(bs, es, m + 1, n, es[m].id) <==> was || RevokedAt(bs, es, n - 1, es[m].id);
    }
  }

  lemma {:induction false} MintTracked(b: Book, now: Time, e: Event)
    requires e.Minting? && Mintable(e.nodeID, e.sessionID) && e.id !in b.revoked
    ensures Tracked(Step(b, now, e), e, now, now, false)
  {
    hide Trim;
  }

  /** A minted string is accepted through the session adapter exactly until
      its expiry or its revocation, whatever was minted, revoked or swept since. */
  lemma {:induction false} AcceptedUntilExpiryOrRevocation(bs: seq<Book>, ts: seq<Time>, es: seq<Event>, m: nat,
                                                           n: nat, now: Time)
    requires RunOf(bs, ts, es) && m < n <= |es| && ts[n - 1] <= now
    requires es[m].Minting? && Mintable(es[m].nodeID, es[m].sessionID)
    ensures var raw, e := Bearer(es[m].id, es[m].secret), es[m];
            var expires := ts[m] + (if e.ttl > 0 then e.ttl else 14_400_000_000_000);
            var r := SessionValidate(Some(bs[n]), raw, now);
            && (r.Ok? <==> now < expires && !RevokedBetween(bs, es, m + 1, n, es[m].id))
            && (r.Ok? ==> r.value.id == es[m].id && r.value.nodeID == es[m].nodeID
                          && r.value.sessionID == es[m].sessionID
                          && r.value.expires == Some(expires)
                          && r.value.scope == match es[m].scope case Exit => "exit" case Relay => "relay")
            && (RevokedBetween(bs, es, m + 1, n, es[m].id) ==> r == Err(Sessions.RevokedToken))
            && (now >= expires && !RevokedBetween(bs, es, m + 1, n, es[m].id) ==>
                  || r == Err(Sessions.ExpiredToken)
                  || (r == Err(Sessions.InvalidToken) && now - expires > 86_400_000_000_000))
  {
    hide Step, Trim, Cut;
    RunTracked(bs, ts, es, m, n);
    BearerVerdict(bs[n], es[m].id, es[m].secret, now);
  }

  /** Any string accepted at any time was minted in the run, has not expired and is not revoked: nothing is forged. */
  lemma {:induction false} AcceptedWasMinted(bs: seq<Book>, ts: seq<Time>, es: seq<Event>, n: nat, raw: string,
                                             now: Time)
    returns (m: nat)
    requires RunOf(bs, ts, es) && n <= |es| && Validate(bs[n], raw, now).Ok?
    ensures m < n && es[m].Minting? && Validate(bs[n], raw, now).value.id == es[m].id
    ensures Mintable(es[m].nodeID, es[m].sessionID) && es[m].id !in bs[n].revoked
    ensures raw == Bearer(es[m].id, es[m].secret) && now < ts[m] + Lifetime(es[m].ttl)
  {
    hide Trim, Cut;
    CutParts(raw, '.');
    var id := Validate(bs[n], raw, now).value.id;
    m := RecordedWasMinted(bs, ts, es, n, id);
  }

  lemma {:induction false} RecordedWasMinted(bs: seq<Book>, ts: seq<Time>, es: seq<Event>, n: nat, id: string)
    returns (m: nat)
    requires RunOf(bs, ts, es) && n <= |es| && id in bs[n].tokens
    ensures m < n && es[m].Minting? && es[m].id == id && Mintable(es[m].nodeID, es[m].sessionID)
    ensures bs[n].tokens[id] == Entry(es[m].nodeID, es[m].sessionID, ts[m] + Lifetime(es[m].ttl), es[m].scope,
                                      es[m].secret)
  {
    hide Trim;
    m := 0;
    if n > 0 {
      if es[n - 1].Minting? && es[n - 1].id == id && Mintable(es[n - 1].nodeID, es[n - 1].sessionID) {
        m := n - 1;
      } else {
        m := RecordedWasMinted(bs, ts, es, n - 1, id);
      }
    }
  }
}
