/** Settlement as a two-phase protocol: receipts arrive between the snapshot
    of a batch and its commit, several nodes settle at once, and submissions
    fail. One invariant holds over every run, overlapping settlements or not. */
module SettlementProtocol {
  import opened Ledger
  import opened Text

  datatype Ticket = Ticket(node: string, batch: seq<Receipt>, s: Settlement)

  /** The ledger and the settlements between their snapshot and their commit. */
  datatype World = World(ledger: State, inflight: map<nat, Ticket>)

  datatype Event =
    | Funding(session: string, node: string, deposit: int64, price: real)
    | Receiving(r: Receipt, verified: bool)
    | Begin(t: nat, node: string, batch: seq<Receipt>)
    | Committing(t: nat)
    | Abort(t: nat)

  type Hash = string -> string

  ghost predicate Enabled(w: World, e: Event) {
    match e
    case Funding(_, _, _, _) => true
    case Receiving(_, _) => true
    case Begin(t, node, batch) =>
      && t !in w.inflight && batch != [] && Lists(w.ledger.receipts, node, batch)
      && NonNegative(batch) && Sum(batch) <= MaxInt64
    case Committing(t) => t in w.inflight
    case Abort(t) => t in w.inflight
  }

  ghost function Step(hash: Hash, w: World, e: Event): World
    requires Enabled(w, e)
  {
    match e
    case Funding(session, node, deposit, price) => w.(ledger := Fund(w.ledger, session, node, deposit, price))
    case Receiving(r, verified) => w.(ledger := Receive(w.ledger, r, verified))
    case Begin(t, node, batch) =>
      SumNonNegative(batch);
      w.(inflight := w.inflight[t := Ticket(node, batch, SettlementOf(hash, node, batch))])
    case Committing(t) =>
      World(Commit(w.ledger, w.inflight[t].batch, w.inflight[t].s), w.inflight - {t})
    case Abort(t) => w.(inflight := w.inflight - {t})
  }

  lemma {:induction false} SumNonNegative(batch: seq<Receipt>)
    requires NonNegative(batch)
    ensures Sum(batch) >= 0
    decreases |batch|
  {
    if batch != [] { SumNonNegative(batch[..|batch| - 1]); }
  }

  // ---------------------------------------------------------------- the invariant

  ghost function Ids(s: Settlement): set<string> {
    set id | id in s.receiptIDs
  }

  ghost function Batched(settled: seq<Settlement>): set<string> {
    set i, id | 0 <= i < |settled| && id in settled[i].receiptIDs :: id
  }

  ghost predicate Recorded(rs: Receipts, s: Settlement) {
    && Ids(s) != {}
    && (forall i, j :: 0 <= i < j < |s.receiptIDs| ==> s.receiptIDs[i] != s.receiptIDs[j])
    && (forall id :: id in s.receiptIDs ==> id in rs && rs[id].settled && rs[id].nodeID == s.nodeID)
    && s.total == Amount(rs, Ids(s))
  }

  /** No receipt is in two recorded settlements. */
  ghost predicate Once(settled: seq<Settlement>) {
    forall i, j :: 0 <= i < j < |settled| ==> Ids(settled[i]) !! Ids(settled[j])
  }

  /** A receipt of a snapshot is still stored as it was, or some recorded batch marked it. */
  ghost predicate Tracked(st: State, r: Receipt) {
    && !r.settled && r.id in st.receipts
    && (st.receipts[r.id] == r || (st.receipts[r.id] == r.(settled := true) && r.id in Batched(st.settled)))
  }

  ghost predicate TicketOk(hash: Hash, st: State, t: Ticket) {
    && t.batch != [] && Distinct(t.batch) && 0 <= Sum(t.batch) <= MaxInt64
    && (forall i :: 0 <= i < |t.batch| ==> Tracked(st, t.batch[i]) && t.batch[i].nodeID == t.node)
    && t.s == SettlementOf(hash, t.node, t.batch)
  }

  ghost predicate LedgerOk(st: State) {
    GoodReceipts(st.receipts) && forall i :: 0 <= i < |st.settled| ==> Recorded(st.receipts, st.settled[i])
  }

  ghost predicate Inv(hash: Hash, w: World) {
    LedgerOk(w.ledger) && forall t :: t in w.inflight ==> TicketOk(hash, w.ledger, w.inflight[t])
  }

  lemma {:induction false} RecordedSame(rs: Receipts, rs': Receipts, s: Settlement)
    requires Recorded(rs, s)
    requires forall id :: id in rs && rs[id].settled ==>
               id in rs' && rs'[id].settled && rs'[id].nodeID == rs[id].nodeID && rs'[id].amount == rs[id].amount
    ensures Recorded(rs', s)
  {
    AmountSame(rs, rs', Ids(s));
  }

  lemma {:induction false} AllRecordedSame(rs: Receipts, rs': Receipts, settled: seq<Settlement>)
    requires forall i :: 0 <= i < |settled| ==> Recorded(rs, settled[i])
    requires forall id :: id in rs && rs[id].settled ==>
               id in rs' && rs'[id].settled && rs'[id].nodeID == rs[id].nodeID && rs'[id].amount == rs[id].amount
    ensures forall i :: 0 <= i < |settled| ==> Recorded(rs', settled[i])
  {
    forall i | 0 <= i < |settled| ensures Recorded(rs', settled[i]) {
      RecordedSame(rs, rs', settled[i]);
    }
  }

  lemma {:induction false} TicketSame(hash: Hash, st: State, st': State, t: Ticket)
    requires TicketOk(hash, st, t) && forall r :: Tracked(st, r) ==> Tracked(st', r)
    ensures TicketOk(hash, st', t)
  {
    hide Tracked;
  }

  lemma {:induction false} ReceiveKeeps(hash: Hash, w: World, r: Receipt, verified: bool)
    requires Inv(hash, w)
    ensures Inv(hash, w.(ledger := Receive(w.ledger, r, verified)))
  {
    hide Judge, Recorded, Tracked, TicketOk;
    var st, st' := w.ledger, Receive(w.ledger, r, verified);
    NewReceipt(st, r, verified);
    AllRecordedSame(st.receipts, st'.receipts, st.settled);
    forall x | Tracked(st, x) ensures Tracked(st', x) { ReceiveTracks(st, r, verified, x); }
    forall t | t in w.inflight ensures TicketOk(hash, st', w.inflight[t]) {
      TicketSame(hash, st, st', w.inflight[t]);
    }
  }

  /** A receipt that is accepted is new and well formed. */
  lemma NewReceipt(st: State, r: Receipt, verified: bool)
    ensures Judge(st, r, verified).Accepted? ==> r.id !in st.receipts && r.id != "" && r.amount >= 0
  {
    hide Amount, Pending;
  }

  lemma {:induction false} ReceiveTracks(st: State, r: Receipt, verified: bool, x: Receipt)
    requires Tracked(st, x)
    ensures Tracked(Receive(st, r, verified), x)
  {
    hide Judge, Batched;
    NewReceipt(st, r, verified);
  }

  lemma {:induction false} BeginKeeps(hash: Hash, w: World, e: Event)
    requires Inv(hash, w) && e.Begin? && Enabled(w, e)
    ensures Inv(hash, Step(hash, w, e))
  {
    SumNonNegative(e.batch);
    forall i | 0 <= i < |e.batch| ensures Tracked(w.ledger, e.batch[i]) && e.batch[i].nodeID == e.node {
      assert e.batch[i].id in IdSet(e.batch);
    }
  }

  lemma {:induction false} IdsOfBatch(s: Settlement, batch: seq<Receipt>)
    requires s.receiptIDs == IdsOf(batch)
    ensures Ids(s) == IdSet(batch)
  {
    forall id | id in s.receiptIDs ensures id in IdSet(batch) {
      var i :| 0 <= i < |batch| && IdsOf(batch)[i] == id;
      assert batch[i].id == id;
    }
    forall id | id in IdSet(batch) ensures id in s.receiptIDs {
      var i :| 0 <= i < |batch| && batch[i].id == id;
      assert IdsOf(batch)[i] == id;
    }
  }

  /** The sum taken at the snapshot is the amount of the batch at the commit, whatever was marked between. */
  lemma {:induction false} SnapshotSum(hash: Hash, st: State, t: Ticket)
    requires TicketOk(hash, st, t)
    ensures IdSet(t.batch) <= st.receipts.Keys && Sum(t.batch) == Amount(st.receipts, IdSet(t.batch))
  {
    var rs, ids := st.receipts, IdSet(t.batch);
    var was := map id | id in rs :: if id in ids then rs[id].(settled := false) else rs[id];
    forall i | 0 <= i < |t.batch| ensures t.batch[i].id in was && was[t.batch[i].id] == t.batch[i] {
      assert Tracked(st, t.batch[i]) && t.batch[i].id in ids;
    }
    SumIsAmount(was, t.batch);
    AmountSame(was, rs, ids);
  }

  lemma {:induction false} MarkKeepsAmount(rs: Receipts, ids: set<string>)
    requires ids <= rs.Keys
    ensures Amount(Mark(rs, ids), ids) == Amount(rs, ids)
  {
    AmountSame(rs, Mark(rs, ids), ids);
  }

  lemma {:induction false} TicketNames(hash: Hash, st: State, t: Ticket)
    requires TicketOk(hash, st, t)
    ensures t.s.receiptIDs == IdsOf(t.batch) && t.s.total == Sum(t.batch) && t.s.nodeID == t.node
    ensures t.batch != [] && Distinct(t.batch) && Ids(t.s) == IdSet(t.batch)
  {
    hide Tracked;
    IdsOfBatch(t.s, t.batch);
  }

  lemma {:induction false} CommitRecords(hash: Hash, st: State, t: Ticket)
    requires TicketOk(hash, st, t)
    ensures Recorded(Mark(st.receipts, IdSet(t.batch)), t.s) && Ids(t.s) == IdSet(t.batch)
  {
    TicketNames(hash, st, t);
    SnapshotSum(hash, st, t);
    BatchNodes(hash, st, t);
    hide TicketOk, Amount, Sum;
    MarkKeepsAmount(st.receipts, IdSet(t.batch));
    assert t.batch[0].id in IdSet(t.batch);
    assert forall id :: id in t.s.receiptIDs ==> id in Ids(t.s);
    hide Ids, IdSet;
  }

  lemma {:induction false} BatchNodes(hash: Hash, st: State, t: Ticket)
    requires TicketOk(hash, st, t)
    ensures forall id :: id in IdSet(t.batch) ==> id in st.receipts && st.receipts[id].nodeID == t.node
  {
    forall id | id in IdSet(t.batch) ensures id in st.receipts && st.receipts[id].nodeID == t.node {
      var i :| 0 <= i < |t.batch| && t.batch[i].id == id;
      assert Tracked(st, t.batch[i]);
    }
  }

  lemma {:induction false} CommitKeepsLedger(hash: Hash, st: State, t: Ticket)
    requires LedgerOk(st) && TicketOk(hash, st, t)
    ensures LedgerOk(Commit(st, t.batch, t.s))
  {
    hide TicketOk, IdSet;
    CommitRecords(hash, st, t);
    AllRecordedSame(st.receipts, Mark(st.receipts, IdSet(t.batch)), st.settled);
    hide Recorded;
  }

  lemma {:induction false} BatchedSnoc(settled: seq<Settlement>, s: Settlement)
    ensures Batched(settled + [s]) == Batched(settled) + Ids(s)
  {
    var all := settled + [s];
    forall id | id in Batched(all) ensures id in Batched(settled) + Ids(s) {
      var i :| 0 <= i < |all| && id in all[i].receiptIDs;
      if i < |settled| { assert id in settled[i].receiptIDs; }
    }
    forall id | id in Batched(settled) ensures id in Batched(all) {
      var i :| 0 <= i < |settled| && id in settled[i].receiptIDs;
      assert id in all[i].receiptIDs;
    }
    assert forall id :: id in Ids(s) ==> id in all[|settled|].receiptIDs;
  }

  lemma {:induction false} CommitTracks(hash: Hash, st: State, t: Ticket, r: Receipt)
    requires TicketOk(hash, st, t) && Tracked(st, r)
    ensures Tracked(Commit(st, t.batch, t.s), r)
  {
    hide TicketOk, Ids, Batched;
    CommitRecords(hash, st, t);
    BatchedSnoc(st.settled, t.s);
  }

  lemma {:induction false} CommitKeepsTickets(hash: Hash, w: World, t: nat)
    requires Inv(hash, w) && t in w.inflight
    ensures var w' := Step(hash, w, Committing(t));
            forall u :: u in w'.inflight ==> TicketOk(hash, w'.ledger, w'.inflight[u])
  {
    hide TicketOk, Tracked;
    var st, st' := w.ledger, Step(hash, w, Committing(t)).ledger;
    forall r | Tracked(st, r) ensures Tracked(st', r) { CommitTracks(hash, st, w.inflight[t], r); }
    forall u | u in w.inflight && u != t ensures TicketOk(hash, st', w.inflight[u]) {
      TicketSame(hash, st, st', w.inflight[u]);
    }
  }

  /** Every step keeps the invariant, overlapping settlements or not. */
  lemma {:induction false} StepKeeps(hash: Hash, w: World, e: Event)
    requires Inv(hash, w) && Enabled(w, e)
    ensures Inv(hash, Step(hash, w, e))
  {
    match e
    case Funding(_, _, _, _) => FundKeeps(hash, w, e);
    case Receiving(r, verified) => ReceiveKeeps(hash, w, r, verified);
    case Begin(_, _, _) => BeginKeeps(hash, w, e);
    case Committing(t) =>
      CommitKeepsLedger(hash, w.ledger, w.inflight[t]);
      CommitKeepsTickets(hash, w, t);
    case Abort(_) =>
  }

  lemma {:induction false} FundKeeps(hash: Hash, w: World, e: Event)
    requires Inv(hash, w) && e.Funding?
    ensures Inv(hash, Step(hash, w, e))
  {
    var st' := Step(hash, w, e).ledger;
    forall t | t in w.inflight ensures TicketOk(hash, st', w.inflight[t]) {
      TicketSame(hash, w.ledger, st', w.inflight[t]);
    }
  }

  // ---------------------------------------------------------------- runs

  /** A run from the empty ledger: enabled events in order, with the world each one meets. */
  ghost predicate RunOf(hash: Hash, ws: seq<World>, es: seq<Event>) {
    && |ws| == |es| + 1 && ws[0] == World(Empty, map[])
    && forall i :: 0 <= i < |es| ==> Follows(hash, ws[i], es[i], ws[i + 1])
  }

  ghost predicate Follows(hash: Hash, w: World, e: Event, w': World) {
    Enabled(w, e) && w' == Step(hash, w, e)
  }

  lemma {:induction false} RunKeeps(hash: Hash, ws: seq<World>, es: seq<Event>, n: nat)
    requires RunOf(hash, ws, es) && n <= |es|
    ensures Inv(hash, ws[n])
  {
    if n > 0 {
      RunKeeps(hash, ws, es, n - 1);
      assert Follows(hash, ws[n - 1], es[n - 1], ws[n]);
      StepKeeps(hash, ws[n - 1], es[n - 1]);
    }
  }

  /** Over every run, overlapping settlements or not, each recorded settlement
      lists distinct stored receipts of its node, all marked, and its total is
      the exact sum of their amounts. */
  lemma {:induction false} ExactTotals(hash: Hash, ws: seq<World>, es: seq<Event>, n: nat)
    requires RunOf(hash, ws, es) && n <= |es|
    ensures var st := ws[n].ledger; forall i :: 0 <= i < |st.settled| ==> Recorded(st.receipts, st.settled[i])
  {
    RunKeeps(hash, ws, es, n);
  }

  /** The log of settlements only grows, and receipts only get marked. */
  lemma {:induction false} RunGrows(hash: Hash, ws: seq<World>, es: seq<Event>, m: nat, n: nat)
    requires RunOf(hash, ws, es) && m <= n <= |es|
    ensures ws[m].ledger.settled <= ws[n].ledger.settled
    ensures forall id :: id in ws[m].ledger.receipts ==>
              && id in ws[n].ledger.receipts
              && ws[n].ledger.receipts[id].nodeID == ws[m].ledger.receipts[id].nodeID
              && (ws[m].ledger.receipts[id].settled ==> ws[n].ledger.receipts[id].settled)
    decreases n
  {
    if m < n {
      RunGrows(hash, ws, es, m, n - 1);
      assert Follows(hash, ws[n - 1], es[n - 1], ws[n]);
    }
  }

  // ---------------------------------------------------------------- where the entries come from

  lemma {:induction false} ReceiptComesFrom(hash: Hash, w: World, e: Event, id: string)
    requires Enabled(w, e) && id in Step(hash, w, e).ledger.receipts
    ensures var q := Step(hash, w, e).ledger.receipts[id];
            if id in w.ledger.receipts then q.(settled := w.ledger.receipts[id].settled) == w.ledger.receipts[id]
            else e.Receiving? && e.verified && e.r == q && e.r.id == id
  {
    hide Lists, NonNegative, Amount, Attribute, IdSet;
  }

  /** Over every run each stored receipt is, up to its mark, one that arrived with a valid signature. */
  lemma {:induction false} StoredWasVerified(hash: Hash, ws: seq<World>, es: seq<Event>, n: nat, id: string)
    returns (i: nat)
    requires RunOf(hash, ws, es) && n <= |es| && id in ws[n].ledger.receipts
    ensures i < n && es[i].Receiving? && es[i].verified && es[i].r.id == id
    ensures ws[n].ledger.receipts[id].(settled := es[i].r.settled) == es[i].r
    decreases n
  {
    hide Enabled, Step;
    assert Follows(hash, ws[n - 1], es[n - 1], ws[n]);
    ReceiptComesFrom(hash, ws[n - 1], es[n - 1], id);
    if id in ws[n - 1].ledger.receipts {
      i := StoredWasVerified(hash, ws, es, n - 1, id);
    } else {
      i := n - 1;
    }
  }

  lemma {:induction false} CreditComesFrom(hash: Hash, w: World, e: Event, session: string)
    requires Enabled(w, e) && session in Step(hash, w, e).ledger.prepaid
    ensures var q := Step(hash, w, e).ledger.prepaid[session];
            if e.Funding? && e.session == session && Fundable(e.session, e.node, e.deposit, e.price)
            then q == Prepaid(e.node, e.deposit, 0)
            else
              && session in w.ledger.prepaid
              && q.(spent := w.ledger.prepaid[session].spent) == w.ledger.prepaid[session]
  {
    if e.Committing? { AttributeKeepsTerms(w.ledger.prepaid, w.inflight[e.t].batch, session); }
    hide Lists, NonNegative, Amount, Attribute, IdSet, Judge;
  }

  lemma {:induction false} AttributeKeepsTerms(prepaid: map<string, Prepaid>, batch: seq<Receipt>, session: string)
    ensures session in Attribute(prepaid, batch) <==> session in prepaid
    ensures session in prepaid ==>
              Attribute(prepaid, batch)[session].(spent := prepaid[session].spent) == prepaid[session]
    decreases |batch|
  {
    if batch != [] { AttributeKeepsTerms(prepaid, batch[..|batch| - 1], session); }
  }

  /** Over every run each credit is, up to what was spent, the last one funded for its session. */
  lemma {:induction false} CreditWasFunded(hash: Hash, ws: seq<World>, es: seq<Event>, n: nat, session: string)
    returns (i: nat)
    requires RunOf(hash, ws, es) && n <= |es| && session in ws[n].ledger.prepaid
    ensures i < n && es[i].Funding? && es[i].session == session && session != "" && es[i].node != ""
    ensures es[i].deposit > 0 && es[i].price >= 0.0
    ensures ws[n].ledger.prepaid[session].(spent := 0) == Prepaid(es[i].node, es[i].deposit, 0)
    ensures forall k :: i < k < n && es[k].Funding? && es[k].session == session ==>
              es[k].node == "" || es[k].deposit <= 0 || es[k].price < 0.0
    decreases n
  {
    hide Enabled, Step;
    var e := es[n - 1];
    assert Follows(hash, ws[n - 1], e, ws[n]);
    CreditComesFrom(hash, ws[n - 1], e, session);
    if e.Funding? && e.session == session && Fundable(e.session, e.node, e.deposit, e.price) {
      i := n - 1;
    } else {
      i := CreditWasFunded(hash, ws, es, n - 1, session);
    }
  }

  // ---------------------------------------------------------------- failure and retry

  /** A settlement recorded in one call is its two phases with nothing in between. */
  lemma {:induction false} WholeIsTwoPhases(hash: Hash, w: World, t: nat, node: string, batch: seq<Receipt>,
                                            s: Settlement, st': State)
    requires Settles(hash, w.ledger, node, batch, s, st') && NonNegative(batch) && batch != [] && t !in w.inflight
    ensures Enabled(w, Begin(t, node, batch))
    ensures Step(hash, Step(hash, w, Begin(t, node, batch)), Committing(t)) == World(st', w.inflight)
  {
    var w1 := Step(hash, w, Begin(t, node, batch));
    assert w1.inflight - {t} == w.inflight;
  }

  /** A failed submission leaves the ledger as it was. */
  lemma {:induction false} AbortChangesNothing(hash: Hash, w: World, t: nat, node: string, batch: seq<Receipt>)
    requires Enabled(w, Begin(t, node, batch))
    ensures Step(hash, Step(hash, w, Begin(t, node, batch)), Abort(t)) == w
  {
    var w1 := Step(hash, w, Begin(t, node, batch));
    assert w1.inflight - {t} == w.inflight;
  }
}
