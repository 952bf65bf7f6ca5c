/** What a session owes and spends over every run: never more than its deposit,
    and exactly what its batches say under an exact condition on each step. */
module Spending {
  import opened Ledger
  import opened Text
  import opened SettlementProtocol
  import opened Schedules

  lemma {:induction false} BatchedAreSettled(st: State)
    requires LedgerOk(st)
    ensures forall id :: id in Batched(st.settled) ==> id in st.receipts && st.receipts[id].settled
  {
    forall id | id in Batched(st.settled) ensures id in st.receipts && st.receipts[id].settled {
      var i :| 0 <= i < |st.settled| && id in st.settled[i].receiptIDs;
      assert Recorded(st.receipts, st.settled[i]);
    }
  }

  ghost function BatchedOf(st: State, session: string): set<string> {
    Batched(st.settled) * OfSession(st.receipts, session)
  }

  /** The session's spend is the sum of its receipts in recorded batches, and
      with the receipts still open it stays within the deposit. */
  ghost predicate WithinDeposit(st: State, session: string) {
    session in st.prepaid ==>
      && st.prepaid[session].spent == Amount(st.receipts, BatchedOf(st, session))
      && st.prepaid[session].spent + Amount(st.receipts, Pending(st.receipts, session)) <= st.prepaid[session].deposit
  }

  /** Funding fits what the session already owes: checkable before the call. */
  ghost predicate CanFund(st: State, session: string, deposit: int64) {
    && Amount(st.receipts, BatchedOf(st, session)) == 0
    && Amount(st.receipts, Pending(st.receipts, session)) <= deposit
  }

  ghost predicate WellFunded(st: State, e: Event, session: string) {
    (e.Funding? && e.session == session && Fundable(e.session, e.node, e.deposit, e.price)) ==>
      CanFund(st, session, e.deposit)
  }

  /** A funding step leaves the session within its deposit exactly when it fits. */
  lemma {:induction false} FundIff(st: State, session: string, node: string, deposit: int64, price: real)
    requires Fundable(session, node, deposit, price)
    ensures WithinDeposit(Fund(st, session, node, deposit, price), session) <==> CanFund(st, session, deposit)
  {
    var st' := Fund(st, session, node, deposit, price);
    assert BatchedOf(st', session) == BatchedOf(st, session);
  }

  /** Funding before the first receipt always fits. */
  lemma {:induction false} FirstFundingFits(st: State, session: string, deposit: int64)
    requires OfSession(st.receipts, session) == {} && deposit > 0
    ensures CanFund(st, session, deposit)
  {
    assert BatchedOf(st, session) == {};
    assert Pending(st.receipts, session) <= OfSession(st.receipts, session);
  }

  /** Funding a session after a receipt larger than the deposit breaks the bound. */
  lemma {:induction false} LateFundingOverspends(r: Receipt, deposit: int64)
    requires r.id != "" && r.sessionID != "" && !r.settled && 0 < deposit < r.amount
    ensures var st := Fund(Receive(Empty, r, true), r.sessionID, "node", deposit, 0.0);
            !WithinDeposit(st, r.sessionID)
  {
    var st := Receive(Empty, r, true);
    assert Pending(st.receipts, r.sessionID) == {r.id};
    AmountPick(st.receipts, {r.id}, r.id);
    assert Amount(st.receipts, {r.id} - {r.id}) == 0 by { assert {r.id} - {r.id} == {}; }
    FundIff(st, r.sessionID, "node", deposit, 0.0);
  }

  /** A new receipt leaves the session's batched amount alone. */
  lemma {:induction false} ReceiveBatched(st: State, r: Receipt, x: string)
    requires LedgerOk(st) && r.id !in st.receipts
    ensures var st' := st.(receipts := st.receipts[r.id := r]);
            && BatchedOf(st', x) == BatchedOf(st, x)
            && Amount(st'.receipts, BatchedOf(st', x)) == Amount(st.receipts, BatchedOf(st, x))
  {
    hide Recorded;
    var st' := st.(receipts := st.receipts[r.id := r]);
    BatchedAreSettled(st);
    assert BatchedOf(st', x) == BatchedOf(st, x);
    AmountSame(st.receipts, st'.receipts, BatchedOf(st, x));
  }

  /** A new receipt adds its own amount to its session's open amount, if it is open. */
  lemma {:induction false} ReceivePending(rs: Receipts, r: Receipt, x: string)
    requires r.id !in rs
    ensures var rs' := rs[r.id := r];
            Amount(rs', Pending(rs', x)) ==
              Amount(rs, Pending(rs, x)) + if r.sessionID == x && !r.settled then r.amount else 0
  {
    var rs' := rs[r.id := r];
    AmountSame(rs, rs', Pending(rs, x));
    if r.sessionID == x && !r.settled {
      assert Pending(rs', x) == Pending(rs, x) + {r.id};
      AmountAdd(rs', Pending(rs, x), r.id);
    } else {
      assert Pending(rs', x) == Pending(rs, x);
    }
  }

  lemma {:induction false} ReceiveWithin(st: State, r: Receipt, verified: bool, x: string)
    requires LedgerOk(st) && WithinDeposit(st, x)
    ensures WithinDeposit(Receive(st, r, verified), x)
  {
    if Judge(st, r, verified).Accepted? {
      ReceiveBatched(st, r, x);
      ReceivePending(st.receipts, r, x);
    }
    hide LedgerOk, BatchedOf, Pending;
  }

  ghost function Share(rs: Receipts, batch: seq<Receipt>, x: string): set<string> {
    IdSet(batch) * OfSession(rs, x)
  }

  /** The batch agrees with the stored receipts on session and amount, marked or not. */
  ghost predicate Matches(rs: Receipts, batch: seq<Receipt>) {
    forall i :: 0 <= i < |batch| ==>
      && batch[i].id in rs && rs[batch[i].id].amount == batch[i].amount
      && rs[batch[i].id].sessionID == batch[i].sessionID
  }

  /** The last receipt of a batch adds its amount to its own session's share only. */
  lemma {:induction false} ShareSnoc(rs: Receipts, batch: seq<Receipt>, x: string)
    requires GoodReceipts(rs) && Distinct(batch) && Matches(rs, batch) && batch != []
    ensures var init, r := batch[..|batch| - 1], batch[|batch| - 1];
            && r.amount >= 0 && 0 <= Amount(rs, Share(rs, init, x))
            && Amount(rs, Share(rs, batch, x)) ==
                 Amount(rs, Share(rs, init, x)) + if r.sessionID == x then r.amount else 0
  {
    var init, r := batch[..|batch| - 1], batch[|batch| - 1];
    IdSetSnoc(batch);
    AmountMonotone(rs, {}, Share(rs, init, x));
    if r.sessionID == x {
      assert Share(rs, batch, x) == Share(rs, init, x) + {r.id};
      AmountAdd(rs, Share(rs, init, x), r.id);
    } else {
      assert Share(rs, batch, x) == Share(rs, init, x);
    }
  }

  function AtMost(a: int, b: int): int {
    if a <= b then a else b
  }

  /** Attributing a batch adds the session's share and stops at the deposit;
      the saturation never shows. */
  lemma {:induction false} AttributeClamps(prepaid: map<string, Prepaid>, rs: Receipts, batch: seq<Receipt>, x: string)
    requires GoodReceipts(rs) && Distinct(batch) && Matches(rs, batch)
    requires x in prepaid && 0 <= prepaid[x].spent <= prepaid[x].deposit
    ensures x in Attribute(prepaid, batch) && Amount(rs, Share(rs, batch, x)) >= 0
    ensures Attribute(prepaid, batch)[x] ==
              prepaid[x].(spent := AtMost(prepaid[x].spent + Amount(rs, Share(rs, batch, x)), prepaid[x].deposit))
    decreases |batch|
  {
    hide Share, GoodReceipts;
    if batch == [] {
      assert Share(rs, batch, x) == {} by { NoShare(rs, x); }
    } else {
      ShareSnoc(rs, batch, x);
      AttributeClamps(prepaid, rs, batch[..|batch| - 1], x);
    }
  }

  /** Within the deposit, attributing a batch adds exactly the session's share:
      neither the saturation nor the cap changes a value. */
  lemma {:induction false} AttributeExact(prepaid: map<string, Prepaid>, rs: Receipts, batch: seq<Receipt>, x: string)
    requires GoodReceipts(rs) && Distinct(batch) && Matches(rs, batch) && x in prepaid && prepaid[x].spent >= 0
    requires prepaid[x].spent + Amount(rs, Share(rs, batch, x)) <= prepaid[x].deposit
    ensures x in Attribute(prepaid, batch)
    ensures 0 <= prepaid[x].spent + Amount(rs, Share(rs, batch, x)) <= MaxInt64
    ensures Attribute(prepaid, batch)[x] == prepaid[x].(spent := prepaid[x].spent + Amount(rs, Share(rs, batch, x)))
  {
    BatchStored(rs, batch);
    AmountMonotone(rs, {}, Share(rs, batch, x));
    AttributeClamps(prepaid, rs, batch, x);
  }

  lemma {:induction false} BatchStored(rs: Receipts, batch: seq<Receipt>)
    requires Matches(rs, batch)
    ensures IdSet(batch) <= rs.Keys
  {
  }

  lemma NoShare(rs: Receipts, x: string)
    ensures Share(rs, [], x) == {}
  {
  }

  lemma {:induction false} AttributeKeys(prepaid: map<string, Prepaid>, batch: seq<Receipt>)
    ensures Attribute(prepaid, batch).Keys == prepaid.Keys
    decreases |batch|
  {
    if batch != [] { AttributeKeys(prepaid, batch[..|batch| - 1]); }
  }

  /** The session's receipts of the batch that another batch marked since the snapshot. */
  ghost function MarkedShare(st: State, batch: seq<Receipt>, x: string): set<string> {
    Share(st.receipts, batch, x) * Batched(st.settled)
  }

  /** The rest of the session's receipts of the batch. */
  ghost function OpenShare(st: State, batch: seq<Receipt>, x: string): set<string> {
    Share(st.receipts, batch, x) - Batched(st.settled)
  }

  lemma {:induction false} TicketMatches(hash: Hash, st: State, t: Ticket)
    requires TicketOk(hash, st, t)
    ensures Matches(st.receipts, t.batch) && Distinct(t.batch)
    ensures forall id :: id in IdSet(t.batch) ==> id in st.receipts
    ensures forall id :: id in IdSet(t.batch) && id !in Batched(st.settled) ==> !st.receipts[id].settled
  {
    hide Batched;
    forall i | 0 <= i < |t.batch|
      ensures t.batch[i].id in st.receipts && st.receipts[t.batch[i].id].(settled := false) == t.batch[i]
      ensures t.batch[i].id !in Batched(st.settled) ==> !st.receipts[t.batch[i].id].settled
    {
      assert Tracked(st, t.batch[i]);
    }
  }

  /** A commit that keeps exactly-once finds nothing of its batch marked. */
  lemma {:induction false} OnceIsUnmarked(hash: Hash, st: State, t: Ticket, x: string)
    requires TicketOk(hash, st, t) && Once(st.settled + [t.s])
    ensures MarkedShare(st, t.batch, x) == {}
  {
    hide TicketOk;
    TicketNames(hash, st, t);
    var all := st.settled + [t.s];
    forall id | id in IdSet(t.batch) ensures id !in Batched(st.settled) {
      assert id in Ids(all[|st.settled|]);
      forall k | 0 <= k < |st.settled| ensures id !in st.settled[k].receiptIDs {
        assert Ids(all[k]) !! Ids(all[|st.settled|]);
        assert all[k] == st.settled[k];
      }
    }
  }

  lemma {:induction false} CommitBatched(hash: Hash, st: State, t: Ticket, x: string)
    requires TicketOk(hash, st, t)
    ensures var st' := Commit(st, t.batch, t.s);
            && Batched(st'.settled) == Batched(st.settled) + IdSet(t.batch)
            && OfSession(st'.receipts, x) == OfSession(st.receipts, x)
  {
    TicketNames(hash, st, t);
    hide TicketOk, IdSet;
    BatchedSnoc(st.settled, t.s);
  }

  /** A commit moves the unmarked part of the session's share from open to batched. */
  lemma {:induction false} CommitMoves(hash: Hash, st: State, t: Ticket, x: string)
    requires LedgerOk(st) && TicketOk(hash, st, t)
    ensures var st' := Commit(st, t.batch, t.s); var rest := OpenShare(st, t.batch, x);
            && BatchedOf(st', x) == BatchedOf(st, x) + rest && BatchedOf(st, x) !! rest
            && Pending(st'.receipts, x) == Pending(st.receipts, x) - rest && rest <= Pending(st.receipts, x)
  {
    hide LedgerOk, TicketOk, IdSet, Batched;
    CommitBatched(hash, st, t, x);
    PendingMoves(hash, st, t, x);
  }

  lemma {:induction false} PendingMoves(hash: Hash, st: State, t: Ticket, x: string)
    requires LedgerOk(st) && TicketOk(hash, st, t)
    ensures var rest := OpenShare(st, t.batch, x);
            && rest <= Pending(st.receipts, x)
            && Pending(Mark(st.receipts, IdSet(t.batch)), x) == Pending(st.receipts, x) - rest
  {
    hide LedgerOk, TicketOk, IdSet, Batched;
    TicketMatches(hash, st, t);
    BatchedAreSettled(st);
  }

  /** What the commit leaves batched and open, in amounts. */
  lemma {:induction false} CommitAmounts(hash: Hash, st: State, t: Ticket, x: string)
    requires LedgerOk(st) && TicketOk(hash, st, t)
    ensures var st' := Commit(st, t.batch, t.s); var rest := OpenShare(st, t.batch, x);
            && rest <= st.receipts.Keys && BatchedOf(st', x) <= st'.receipts.Keys
            && Amount(st'.receipts, BatchedOf(st', x)) ==
                 Amount(st.receipts, BatchedOf(st, x)) + Amount(st.receipts, rest)
            && Amount(st'.receipts, Pending(st'.receipts, x)) ==
                 Amount(st.receipts, Pending(st.receipts, x)) - Amount(st.receipts, rest)
  {
    CommitMoves(hash, st, t, x);
    hide LedgerOk, TicketOk, OpenShare;
    var st' := Commit(st, t.batch, t.s);
    var rs, rs', rest, pending := st.receipts, st'.receipts, OpenShare(st, t.batch, x), Pending(st.receipts, x);
    AmountUnion(rs, pending - rest, rest);
    assert pending - rest + rest == pending;
    AmountUnion(rs, BatchedOf(st, x), rest);
    AmountSame(rs, rs', BatchedOf(st', x));
    AmountSame(rs, rs', Pending(rs', x));
  }

  /** The commit charges the session nothing twice, or the deposit hides it:
      checkable before the commit. */
  ghost predicate ChargesOnce(st: State, batch: seq<Receipt>, x: string)
    requires Share(st.receipts, batch, x) <= st.receipts.Keys
  {
    x in st.prepaid ==>
      || Amount(st.receipts, MarkedShare(st, batch, x)) == 0
      || st.prepaid[x].spent + Amount(st.receipts, OpenShare(st, batch, x)) == st.prepaid[x].deposit
  }

  lemma {:induction false} SharesAdd(hash: Hash, st: State, t: Ticket, x: string)
    requires LedgerOk(st) && TicketOk(hash, st, t)
    ensures var rs, marked, rest := st.receipts, MarkedShare(st, t.batch, x), OpenShare(st, t.batch, x);
            && Share(rs, t.batch, x) <= rs.Keys && 0 <= Amount(rs, marked)
            && 0 <= Amount(rs, rest) <= Amount(rs, Pending(rs, x)) && 0 <= Amount(rs, BatchedOf(st, x))
            && Amount(rs, Share(rs, t.batch, x)) == Amount(rs, marked) + Amount(rs, rest)
  {
    var rs, marked, rest := st.receipts, MarkedShare(st, t.batch, x), OpenShare(st, t.batch, x);
    CommitMoves(hash, st, t, x);
    TicketMatches(hash, st, t);
    hide TicketOk, IdSet, OfSession, Batched, Pending;
    AmountMonotone(rs, rest, Pending(rs, x));
    AmountMonotone(rs, {}, BatchedOf(st, x));
    assert marked + rest == Share(rs, t.batch, x);
    AmountUnion(rs, marked, rest);
    AmountMonotone(rs, {}, marked);
  }

  /** What the commit charges a session. */
  lemma {:induction false} CommitSpend(hash: Hash, st: State, t: Ticket, x: string)
    requires LedgerOk(st) && TicketOk(hash, st, t)
    requires x in st.prepaid && 0 <= st.prepaid[x].spent <= st.prepaid[x].deposit
    ensures Share(st.receipts, t.batch, x) <= st.receipts.Keys && x in Attribute(st.prepaid, t.batch)
    ensures var p, q := st.prepaid[x], Attribute(st.prepaid, t.batch)[x];
            var marked, rest := MarkedShare(st, t.batch, x), OpenShare(st, t.batch, x);
            && q.deposit == p.deposit
            && q.spent == AtMost(p.spent + Amount(st.receipts, marked) + Amount(st.receipts, rest), p.deposit)
  {
    hide TicketOk, Share, MarkedShare, OpenShare, Attribute, BatchedOf, Pending, Recorded, Amount;
    SharesAdd(hash, st, t, x);
    TicketMatches(hash, st, t);
    AttributeClamps(st.prepaid, st.receipts, t.batch, x);
  }

  /** A commit leaves the session within its deposit exactly when it charges nothing twice that shows. */
  lemma {:induction false} CommitWithinIff(hash: Hash, st: State, t: Ticket, x: string)
    requires LedgerOk(st) && TicketOk(hash, st, t) && WithinDeposit(st, x)
    ensures Share(st.receipts, t.batch, x) <= st.receipts.Keys
    ensures WithinDeposit(Commit(st, t.batch, t.s), x) <==> ChargesOnce(st, t.batch, x)
  {
    hide LedgerOk, TicketOk, MarkedShare, OpenShare, BatchedOf, Pending, Mark, Attribute;
    AttributeKeys(st.prepaid, t.batch);
    SharesAdd(hash, st, t, x);
    if x in st.prepaid {
      CommitAmounts(hash, st, t, x);
      CommitSpend(hash, st, t, x);
    }
  }

  lemma {:induction false} FundWithinIff(st: State, e: Event, x: string)
    requires e.Funding? && WithinDeposit(st, x)
    ensures WithinDeposit(Fund(st, e.session, e.node, e.deposit, e.price), x) <==> WellFunded(st, e, x)
  {
    var st' := Fund(st, e.session, e.node, e.deposit, e.price);
    assert BatchedOf(st', x) == BatchedOf(st, x);
  }

  /** The step keeps what the session owes within its deposit: a funding fits, a commit charges once. */
  ghost predicate KeepsWithin(w: World, e: Event, x: string) {
    && WellFunded(w.ledger, e, x)
    && (e.Committing? && e.t in w.inflight ==>
          && IdSet(w.inflight[e.t].batch) <= w.ledger.receipts.Keys
          && ChargesOnce(w.ledger, w.inflight[e.t].batch, x))
  }

  lemma {:induction false} StepWithinIff(hash: Hash, w: World, e: Event, x: string)
    requires Inv(hash, w) && Enabled(w, e) && WithinDeposit(w.ledger, x)
    ensures WithinDeposit(Step(hash, w, e).ledger, x) <==> KeepsWithin(w, e, x)
  {
    hide WithinDeposit, ChargesOnce, TicketOk;
    match e
    case Funding(_, _, _, _) => FundWithinIff(w.ledger, e, x);
    case Receiving(r, verified) => ReceiveWithin(w.ledger, r, verified, x);
    case Begin(_, _, _) =>
    case Committing(t) =>
      TicketMatches(hash, w.ledger, w.inflight[t]);
      CommitWithinIff(hash, w.ledger, w.inflight[t], x);
    case Abort(_) =>
  }

  /** Over every run a session is within its deposit all the way exactly when
      every funding of it fits and every commit charges it once, or hides a
      second charge behind the deposit. */
  lemma {:induction false} WithinDepositIff(hash: Hash, ws: seq<World>, es: seq<Event>, session: string, n: nat)
    requires RunOf(hash, ws, es) && n <= |es|
    ensures (forall k :: 0 <= k <= n ==> WithinDeposit(ws[k].ledger, session)) <==>
            (forall k :: 0 <= k < n ==> KeepsWithin(ws[k], es[k], session))
  {
    hide WithinDeposit, KeepsWithin;
    if n == 0 {
      assert WithinDeposit(ws[0].ledger, session) by { WithinAtStart(session); }
    } else {
      WithinDepositIff(hash, ws, es, session, n - 1);
      RunKeeps(hash, ws, es, n - 1);
      assert Follows(hash, ws[n - 1], es[n - 1], ws[n]);
      if WithinDeposit(ws[n - 1].ledger, session) { StepWithinIff(hash, ws[n - 1], es[n - 1], session); }
    }
  }

  lemma WithinAtStart(session: string)
    ensures WithinDeposit(Empty, session)
  {
  }

  lemma {:induction false} OncePrefix(a: seq<Settlement>, b: seq<Settlement>)
    requires a <= b && Once(b)
    ensures Once(a)
  {
    hide Ids;
    forall i, j | 0 <= i < j < |a| ensures Ids(a[i]) !! Ids(a[j]) { assert Ids(b[i]) !! Ids(b[j]); }
  }

  /** Without a committed overlap every commit charges once. */
  lemma {:induction false} OnceCharges(hash: Hash, ws: seq<World>, es: seq<Event>, session: string, k: nat, n: nat)
    requires RunOf(hash, ws, es) && k < n <= |es| && Once(ws[n].ledger.settled)
    requires WellFunded(ws[k].ledger, es[k], session)
    ensures KeepsWithin(ws[k], es[k], session)
  {
    hide WellFunded, TicketOk, Once;
    if es[k].Committing? {
      RunKeeps(hash, ws, es, k);
      assert Follows(hash, ws[k], es[k], ws[k + 1]);
      RunGrows(hash, ws, es, k + 1, n);
      var st, t := ws[k].ledger, ws[k].inflight[es[k].t];
      OncePrefix(st.settled + [t.s], ws[n].ledger.settled);
      TicketMatches(hash, st, t);
      OnceIsUnmarked(hash, st, t, session);
    }
  }

  /** Over every run without a committed overlap, in which each funding of a
      session fits, that session stays within its deposit after every step. */
  lemma {:induction false} SpendWithinDeposit(hash: Hash, ws: seq<World>, es: seq<Event>, session: string, n: nat)
    requires RunOf(hash, ws, es) && n <= |es| && NoOverlap(es, n)
    requires forall i :: 0 <= i < n ==> WellFunded(ws[i].ledger, es[i], session)
    ensures WithinDeposit(ws[n].ledger, session)
  {
    hide WithinDeposit, KeepsWithin, WellFunded;
    ExactlyOnce(hash, ws, es, n);
    forall k | 0 <= k < n ensures KeepsWithin(ws[k], es[k], session) { OnceCharges(hash, ws, es, session, k, n); }
    WithinDepositIff(hash, ws, es, session, n);
  }

  /** Over every run, overlapping settlements or not, no credit is spent beyond its deposit. */
  lemma {:induction false} SpentNeverExceeds(hash: Hash, ws: seq<World>, es: seq<Event>, n: nat)
    requires RunOf(hash, ws, es) && n <= |es|
    ensures GoodCredit(ws[n].ledger.prepaid)
  {
    if n > 0 {
      SpentNeverExceeds(hash, ws, es, n - 1);
      assert Follows(hash, ws[n - 1], es[n - 1], ws[n]);
      if es[n - 1].Committing? { AttributeGood(ws[n - 1].ledger.prepaid, ws[n - 1].inflight[es[n - 1].t].batch); }
    }
  }

  lemma {:induction false} AttributeGood(prepaid: map<string, Prepaid>, batch: seq<Receipt>)
    requires GoodCredit(prepaid)
    ensures GoodCredit(Attribute(prepaid, batch))
    decreases |batch|
  {
    if batch != [] { AttributeGood(prepaid, batch[..|batch| - 1]); }
  }
}
