/** The issuer and the session manager joined by the session adapter: what a
    bearer string can open on a node, over every interleaved run. */
module Access {
  import opened Wrappers
  import opened Ipam
  import Admission
  import AdmissionRuns
  import Tokens
  import Sessions

  type Time = int

  datatype Event =
    | Issue(e: Tokens.Event)
    | Present(raw: string, key: string, addr: Option<uint32>, endpoint: string)
    | Close(id: string)
    | Sweep

  datatype World = World(book: Tokens.Book, table: Sessions.Table)

  /** The issuer's part of an event. */
  function IssuerPart(e: Event): Tokens.Event {
    if e.Issue? then e.e else Tokens.Idle
  }

  /** The session manager's part: a presented string is worth what the
      adapter says at that time. */
  function SessionPart(w: World, now: Time, e: Event): Sessions.Event {
    match e
    case Issue(_) => Sessions.Authorizing(Err(Sessions.InvalidToken), now, "", None, "")
    case Present(raw, key, addr, endpoint) =>
      Sessions.Authorizing(Tokens.SessionValidate(Some(w.book), raw, now), now, key, addr, endpoint)
    case Close(id) => Sessions.Revoking(id)
    case Sweep => Sessions.Sweeping(now)
  }

  ghost predicate RunOf(cap: int, ws: seq<World>, ts: seq<Time>, es: seq<Event>) {
    && |ws| == |es| + 1 && |ts| == |es| && ws[0] == World(Tokens.EmptyBook, Sessions.NoSessions)
    && Tokens.RunOf(Books(ws), ts, IssuerParts(es))
    && forall i :: 0 <= i < |es| ==>
         ws[i + 1].table == Sessions.Step(cap, ws[i].table, SessionPart(ws[i], ts[i], es[i]))
  }

  ghost function Books(ws: seq<World>): (r: seq<Tokens.Book>)
    ensures |r| == |ws| && forall i :: 0 <= i < |ws| ==> r[i] == ws[i].book
  {
    seq(|ws|, i requires 0 <= i < |ws| => ws[i].book)
  }

  ghost function Tables(ws: seq<World>): (r: seq<Sessions.Table>)
    ensures |r| == |ws| && forall i :: 0 <= i < |ws| ==> r[i] == ws[i].table
  {
    seq(|ws|, i requires 0 <= i < |ws| => ws[i].table)
  }

  ghost function IssuerParts(es: seq<Event>): (r: seq<Tokens.Event>)
    ensures |r| == |es| && forall i :: 0 <= i < |es| ==> r[i] == IssuerPart(es[i])
  {
    seq(|es|, i requires 0 <= i < |es| => IssuerPart(es[i]))
  }

  ghost function SessionParts(ws: seq<World>, ts: seq<Time>, es: seq<Event>): (r: seq<Sessions.Event>)
    requires |ts| == |es| < |ws|
    ensures |r| == |es| && forall i :: 0 <= i < |es| ==> r[i] == SessionPart(ws[i], ts[i], es[i])
  {
    seq(|es|, i requires 0 <= i < |es| && i < |ts| && i < |ws| => SessionPart(ws[i], ts[i], es[i]))
  }

  /** The session's whole story: minted at step m, presented at step i, in
      force then, and bounded by the token and the duration cap. */
  ghost predicate OpenedFrom(cap: int, ws: seq<World>, ts: seq<Time>, es: seq<Event>, m: nat, i: nat,
                             s: Sessions.Session)
    requires m < i < |es| && |ts| == |es| && |ws| == |es| + 1
  {
    && es[m].Issue? && es[m].e.Minting? && es[i].Present?
    && s.tokenID == es[m].e.id && es[i].raw == Tokens.Bearer(es[m].e.id, es[m].e.secret)
    && s.created == ts[i] && s.clientKey == es[i].key && s.addr == es[i].addr
    && ts[i] < ts[m] + Tokens.Lifetime(es[m].e.ttl)
    && s.expires.Some? && s.expires.value <= ts[m] + Tokens.Lifetime(es[m].e.ttl)
    && (cap > 0 ==> s.expires.value <= s.created + cap)
    && s.tokenID !in ws[i].book.revoked
    && s.scope == match es[m].e.scope case Exit => "exit" case Relay => "relay"
  }

  /** Over every interleaved run, each open session was opened by presenting
      the exact string of a token minted earlier in the run, before its expiry
      and while it was not revoked, and ends no later than that token. */
  lemma {:induction false} OpenSessionsWereMinted(cap: int, ws: seq<World>, ts: seq<Time>, es: seq<Event>, n: nat,
                                                  id: string)
    returns (m: nat, i: nat)
    requires RunOf(cap, ws, ts, es) && n <= |es| && id in ws[n].table.byToken
    ensures m < i < n && OpenedFrom(cap, ws, ts, es, m, i, ws[n].table.byToken[id])
  {
    hide Sessions.Step, Tokens.RunOf, Tokens.Validate;
    var tables, parts := Tables(ws), SessionParts(ws, ts, es);
    assert Sessions.RunOf(cap, tables, parts);
    i := Sessions.OpenSessionsAreBounded(cap, tables, parts, n, id);
    var e := parts[i];
    assert e.tok.Ok? && es[i].Present? && e.tok == Tokens.SessionValidate(Some(ws[i].book), es[i].raw, ts[i]);
    assert Tokens.Validate(ws[i].book, es[i].raw, ts[i]).Ok?;
    m := Tokens.AcceptedWasMinted(Books(ws), ts, IssuerParts(es), i, es[i].raw, ts[i]);
    AcceptedFacts(ws[i].book, es[i].raw, ts[i]);
    RecordFacts(ws, ts, es, m, i);
  }

  lemma {:induction false} AcceptedFacts(b: Tokens.Book, raw: string, now: Time)
    requires Tokens.Validate(b, raw, now).Ok?
    ensures var t := Tokens.Validate(b, raw, now).value;
            && t.id in b.tokens && t.id !in b.revoked && t.expires == b.tokens[t.id].expires
            && t.scope == b.tokens[t.id].scope
  {
  }

  lemma {:induction false} RecordFacts(ws: seq<World>, ts: seq<Time>, es: seq<Event>, m: nat, i: nat)
    requires m < i <= |es| && |ws| == |es| + 1 && |ts| == |es| && Tokens.RunOf(Books(ws), ts, IssuerParts(es))
    requires IssuerPart(es[m]).Minting? && IssuerPart(es[m]).id in ws[i].book.tokens
    ensures var entry, mint := ws[i].book.tokens[IssuerPart(es[m]).id], IssuerPart(es[m]);
            entry.expires == ts[m] + Tokens.Lifetime(mint.ttl) && entry.scope == mint.scope
  {
    var k := Tokens.RecordedWasMinted(Books(ws), ts, IssuerParts(es), i, IssuerPart(es[m]).id);
    var parts := IssuerParts(es);
    assert parts[k].Minting? && parts[m].Minting? && parts[k].id == parts[m].id;
    assert k == m;
  }

  /** A token minted in a run and presented to a node's controller is admitted
      exactly when it is unexpired, revoked neither at the issuer nor at the
      node, has no live session, was not minted for exit while the node only
      relays, and the node has room and takes the peer. */
  lemma {:induction false} MintedAdmittedIff(bs: seq<Tokens.Book>, ts: seq<Time>, es: seq<Tokens.Event>, m: nat, k: nat,
                                             n: Admission.Node, cap: int, pol: Admission.Policy,
                                             req: Admission.Request)
    requires Tokens.RunOf(bs, ts, es) && m < k <= |es| && ts[k - 1] <= req.now && AdmissionRuns.Sound(n)
    requires es[m].Minting? && Tokens.Mintable(es[m].nodeID, es[m].sessionID)
    requires req.tok == Tokens.SessionValidate(Some(bs[k]), Tokens.Bearer(es[m].id, es[m].secret), req.now)
    ensures Admission.Admit(n, cap, pol, req).0.Admitted? <==>
              && req.now < ts[m] + Tokens.Lifetime(es[m].ttl)
              && !Tokens.RevokedBetween(bs, es, m + 1, k, es[m].id) && es[m].id !in n.ses.revoked
              && !Sessions.HasLive(n.ses, es[m].id, req.now)
              && !(pol.relay && es[m].scope.Exit?)
              && !pol.disabled && req.abuseOk && pol.acceptNew && |n.ses.Live(req.checked)| < pol.maxClients
              && req.keyOk && req.addOk && exists off: uint32 :: n.pool.Client(off) && off !in n.pool.used
  {
    hide Tokens.RunOf, Tokens.SessionValidate, Admission.Admit, AdmissionRuns.Sound, Sessions.HasLive;
    Tokens.AcceptedUntilExpiryOrRevocation(bs, ts, es, m, k, req.now);
    AdmissionRuns.AdmittedIff(n, cap, pol, req);
  }

  /** A token revoked at the issuer never opens a session again. */
  lemma {:induction false} RevokedNeverOpens(cap: int, ws: seq<World>, ts: seq<Time>, es: seq<Event>, m: nat, r: nat,
                                             n: nat)
    requires RunOf(cap, ws, ts, es) && m < r < n < |es|
    requires es[m].Issue? && es[m].e.Minting? && Tokens.Mintable(es[m].e.nodeID, es[m].e.sessionID)
    requires es[r] == Issue(Tokens.Revoking(es[m].e.id)) && es[m].e.id in ws[r].book.tokens
    requires es[n].Present? && es[n].raw == Tokens.Bearer(es[m].e.id, es[m].e.secret)
    ensures ws[n + 1].table == ws[n].table
  {
    var books, parts := Books(ws), IssuerParts(es);
    assert Tokens.RevokedAt(books, parts, r, es[m].e.id);
    Tokens.AcceptedUntilExpiryOrRevocation(books, ts, parts, m, n, ts[n]);
  }
}
