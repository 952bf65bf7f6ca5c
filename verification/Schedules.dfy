/** Exactly-once settlement by the order of events alone: each receipt is
    settled at most once exactly as long as no two settlements of one node
    overlap and are both committed. */
module Schedules {
  import opened Ledger
  import opened Text
  import opened SettlementProtocol

  /** The event ends settlement t: it is committed or aborted. */
  predicate Ends(e: Event, t: nat) {
    e == Committing(t) || e == Abort(t)
  }

  /** The settlement begun at step i is still in flight when step j comes. */
  predicate InFlight(es: seq<Event>, i: nat, j: nat)
    requires i < j <= |es|
  {
    es[i].Begin? && forall k :: i < k < j ==> !Ends(es[k], es[i].t)
  }

  /** Step k commits the settlement begun at step i. */
  predicate Commits(es: seq<Event>, i: nat, k: nat) {
    i < k < |es| && InFlight(es, i, k) && es[k] == Committing(es[i].t)
  }

  /** The settlements begun at i and j are of one node, the second begins
      while the first is in flight, and both are committed by step n. */
  ghost predicate Overlap(es: seq<Event>, i: nat, j: nat, n: nat)
    requires n <= |es|
  {
    && i < j < n && InFlight(es, i, j) && es[j].Begin? && es[i].node == es[j].node
    && (exists k :: 0 <= k < n && Commits(es, i, k)) && exists k :: 0 <= k < n && Commits(es, j, k)
  }

  ghost predicate NoOverlap(es: seq<Event>, n: nat)
    requires n <= |es|
  {
    forall i, j :: 0 <= i && 0 <= j ==> !Overlap(es, i, j, n)
  }

  ghost function TicketOf(hash: Hash, e: Event): Ticket
    requires e.Begin? && MinInt64 <= Sum(e.batch) <= MaxInt64
  {
    Ticket(e.node, e.batch, SettlementOf(hash, e.node, e.batch))
  }

  /** A begun settlement stays as it began until it ends. */
  lemma {:induction false} InFlightTicket(hash: Hash, ws: seq<World>, es: seq<Event>, i: nat, j: nat)
    requires RunOf(hash, ws, es) && i < j <= |es| && InFlight(es, i, j)
    ensures 0 <= Sum(es[i].batch) <= MaxInt64
    ensures es[i].t in ws[j].inflight && ws[j].inflight[es[i].t] == TicketOf(hash, es[i])
    decreases j
  {
    hide Lists, NonNegative, SettlementOf, Step;
    if i + 1 == j {
      assert Follows(hash, ws[i], es[i], ws[j]);
      BeginsTicket(hash, ws[i], es[i]);
    } else {
      InFlightTicket(hash, ws, es, i, j - 1);
      assert Follows(hash, ws[j - 1], es[j - 1], ws[j]) && !Ends(es[j - 1], es[i].t);
      StaysInFlight(hash, ws[j - 1], es[j - 1], es[i].t);
    }
  }

  lemma {:induction false} BeginsTicket(hash: Hash, w: World, e: Event)
    requires Enabled(w, e) && e.Begin?
    ensures 0 <= Sum(e.batch) <= MaxInt64
    ensures var w' := Step(hash, w, e); e.t in w'.inflight && w'.inflight[e.t] == TicketOf(hash, e)
  {
    hide Lists, SettlementOf;
    SumNonNegative(e.batch);
  }

  lemma {:induction false} StaysInFlight(hash: Hash, w: World, e: Event, t: nat)
    requires Enabled(w, e) && t in w.inflight && !Ends(e, t)
    ensures var w' := Step(hash, w, e); t in w'.inflight && w'.inflight[t] == w.inflight[t]
  {
    hide Lists, NonNegative, SettlementOf, Commit, Receive, Fund;
  }

  /** Whatever is in flight was begun, and has been in flight since. */
  lemma {:induction false} Begun(hash: Hash, ws: seq<World>, es: seq<Event>, k: nat, t: nat) returns (i: nat)
    requires RunOf(hash, ws, es) && k <= |es| && t in ws[k].inflight
    ensures i < k && InFlight(es, i, k) && es[i].t == t
    decreases k
  {
    hide Lists, NonNegative, Commit, Receive, Fund, SettlementOf;
    assert Follows(hash, ws[k - 1], es[k - 1], ws[k]);
    if es[k - 1].Begin? && es[k - 1].t == t {
      i := k - 1;
    } else {
      i := Begun(hash, ws, es, k - 1, t);
    }
  }

  /** A commit at step k records its batch at the place the log had reached. */
  lemma {:induction false} CommitPlace(hash: Hash, ws: seq<World>, es: seq<Event>, i: nat, k: nat, n: nat)
    requires RunOf(hash, ws, es) && k < n <= |es| && Commits(es, i, k)
    ensures var p := |ws[k].ledger.settled|;
            && p < |ws[k + 1].ledger.settled| <= |ws[n].ledger.settled|
            && Ids(ws[n].ledger.settled[p]) == IdSet(es[i].batch)
  {
    InFlightTicket(hash, ws, es, i, k);
    assert Follows(hash, ws[k], es[k], ws[k + 1]);
    RunGrows(hash, ws, es, k + 1, n);
    var s := SettlementOf(hash, es[i].node, es[i].batch);
    assert ws[k + 1].ledger.settled == ws[k].ledger.settled + [s];
    IdsOfBatch(s, es[i].batch);
  }

  /** Every place in the log was recorded by the commit of some settlement. */
  lemma {:induction false} PlaceCommit(hash: Hash, ws: seq<World>, es: seq<Event>, n: nat, p: nat)
    returns (i: nat, k: nat)
    requires RunOf(hash, ws, es) && n <= |es| && p < |ws[n].ledger.settled|
    ensures k < n && Commits(es, i, k) && |ws[k].ledger.settled| == p
    decreases n
  {
    hide Lists, NonNegative, SettlementOf;
    assert Follows(hash, ws[n - 1], es[n - 1], ws[n]);
    if p < |ws[n - 1].ledger.settled| {
      i, k := PlaceCommit(hash, ws, es, n - 1, p);
    } else {
      k := n - 1;
      i := Begun(hash, ws, es, k, es[k].t);
    }
  }

  /** The receipts a settlement begins with are exactly the open ones of its node. */
  lemma {:induction false} BatchIsOpen(hash: Hash, ws: seq<World>, es: seq<Event>, i: nat, id: string)
    requires RunOf(hash, ws, es) && i < |es| && es[i].Begin?
    ensures es[i].batch != []
    ensures id in IdSet(es[i].batch) <==>
              && id in ws[i].ledger.receipts && ws[i].ledger.receipts[id].nodeID == es[i].node
              && !ws[i].ledger.receipts[id].settled
  {
    assert Follows(hash, ws[i], es[i], ws[i + 1]);
  }

  /** After its commit every receipt of a batch is marked. */
  lemma {:induction false} CommitMarks(hash: Hash, ws: seq<World>, es: seq<Event>, i: nat, k: nat, n: nat, id: string)
    requires RunOf(hash, ws, es) && k < n <= |es| && Commits(es, i, k) && id in IdSet(es[i].batch)
    ensures id in ws[n].ledger.receipts && ws[n].ledger.receipts[id].settled
  {
    InFlightTicket(hash, ws, es, i, k);
    BatchIsOpen(hash, ws, es, i, id);
    RunGrows(hash, ws, es, i, k);
    assert Follows(hash, ws[k], es[k], ws[k + 1]);
    RunGrows(hash, ws, es, k + 1, n);
  }

  /** A receipt open at step m and marked at step n was in a batch committed between. */
  lemma {:induction false} MarkedByCommit(hash: Hash, ws: seq<World>, es: seq<Event>, m: nat, n: nat, id: string)
    returns (i: nat, k: nat)
    requires RunOf(hash, ws, es) && m <= n <= |es| && id in ws[m].ledger.receipts && !ws[m].ledger.receipts[id].settled
    requires id in ws[n].ledger.receipts && ws[n].ledger.receipts[id].settled
    ensures m <= k < n && Commits(es, i, k) && id in IdSet(es[i].batch)
    decreases n
  {
    RunGrows(hash, ws, es, m, n - 1);
    assert Follows(hash, ws[n - 1], es[n - 1], ws[n]);
    if ws[n - 1].ledger.receipts[id].settled {
      i, k := MarkedByCommit(hash, ws, es, m, n - 1, id);
    } else {
      k := n - 1;
      MarkedNow(hash, ws[k], es[k], id);
      i := Begun(hash, ws, es, k, es[k].t);
      InFlightTicket(hash, ws, es, i, k);
    }
  }

  lemma {:induction false} MarkedNow(hash: Hash, w: World, e: Event, id: string)
    requires Enabled(w, e) && id in w.ledger.receipts && !w.ledger.receipts[id].settled
    requires var rs := Step(hash, w, e).ledger.receipts; id in rs && rs[id].settled
    ensures e.Committing? && id in IdSet(w.inflight[e.t].batch)
  {
    hide Lists, NonNegative, IdSet, Attribute;
  }

  /** Two commits of batches that share a receipt break exactly-once. */
  lemma {:induction false} SharedBreaks(hash: Hash, ws: seq<World>, es: seq<Event>, i: nat, k: nat, j: nat, m: nat,
                                        n: nat, id: string)
    requires RunOf(hash, ws, es) && k < m < n <= |es| && Commits(es, i, k) && Commits(es, j, m)
    requires id in IdSet(es[i].batch) && id in IdSet(es[j].batch)
    ensures !Once(ws[n].ledger.settled)
  {
    hide IdSet, Ids;
    CommitPlace(hash, ws, es, i, k, n);
    CommitPlace(hash, ws, es, j, m, n);
    RunGrows(hash, ws, es, k + 1, m);
    var settled, p, q := ws[n].ledger.settled, |ws[k].ledger.settled|, |ws[m].ledger.settled|;
    assert p < q < |settled| && id in Ids(settled[p]) && id in Ids(settled[q]);
  }

  /** Overlapping two settlements of a node, both committed, settles every
      receipt of the first one twice: with the second one, or with another
      that was committed in between. */
  lemma {:induction false} OverlapSettlesTwice(hash: Hash, ws: seq<World>, es: seq<Event>, i: nat, j: nat, n: nat,
                                               id: string)
    returns (u: nat)
    requires RunOf(hash, ws, es) && n <= |es| && Overlap(es, i, j, n) && id in IdSet(es[i].batch)
    ensures u != i && u < n && es[u].Begin? && id in IdSet(es[u].batch) && exists k :: 0 <= k < n && Commits(es, u, k)
    ensures !Once(ws[n].ledger.settled)
  {
    hide IdSet, Once;
    var k :| 0 <= k < n && Commits(es, i, k);
    var m :| 0 <= m < n && Commits(es, j, m);
    assert j < k by { InFlightUntil(es, i, j, k); }
    BatchIsOpen(hash, ws, es, i, id);
    BatchIsOpen(hash, ws, es, j, id);
    RunGrows(hash, ws, es, i, j);
    if id in IdSet(es[j].batch) {
      u := j;
      InFlightTicket(hash, ws, es, i, k);
      CommitsApart(hash, ws, es, i, k, j, m);
      if k < m { SharedBreaks(hash, ws, es, i, k, j, m, n, id); }
      else { SharedBreaks(hash, ws, es, j, m, i, k, n, id); }
    } else {
      var c;
      u, c := MarkedByCommit(hash, ws, es, i, j, id);
      assert Commits(es, u, c);
      assert i < c && !Ends(es[c], es[i].t);
      SharedBreaks(hash, ws, es, u, c, i, k, n, id);
    }
  }

  /** While it is in flight a settlement has not been committed. */
  lemma {:induction false} InFlightUntil(es: seq<Event>, i: nat, j: nat, k: nat)
    requires i < j < |es| && InFlight(es, i, j) && es[j].Begin? && Commits(es, i, k)
    ensures j < k
  {
    assert forall c :: i < c < j ==> !Ends(es[c], es[i].t);
    assert Ends(es[k], es[i].t);
  }

  /** Different settlements are committed by different steps. */
  lemma {:induction false} CommitsApart(hash: Hash, ws: seq<World>, es: seq<Event>, i: nat, k: nat, j: nat, m: nat)
    requires RunOf(hash, ws, es) && i < j && Commits(es, i, k) && Commits(es, j, m)
    ensures k != m
  {
    if j < k {
      InFlightTicket(hash, ws, es, i, j);
      assert Follows(hash, ws[j], es[j], ws[j + 1]);
      assert es[i].t != es[j].t;
    }
  }

  /** A receipt in two recorded settlements comes from an overlap. */
  lemma {:induction false} TwiceOverlaps(hash: Hash, ws: seq<World>, es: seq<Event>, n: nat)
    requires RunOf(hash, ws, es) && n <= |es| && !Once(ws[n].ledger.settled)
    ensures !NoOverlap(es, n)
  {
    hide IdSet, Ids;
    var settled := ws[n].ledger.settled;
    var p, q :| 0 <= p < q < |settled| && !(Ids(settled[p]) !! Ids(settled[q]));
    var id :| id in Ids(settled[p]) && id in Ids(settled[q]);
    var i, k := PlaceCommit(hash, ws, es, n, p);
    var j, m := PlaceCommit(hash, ws, es, n, q);
    CommitPlace(hash, ws, es, i, k, n);
    CommitPlace(hash, ws, es, j, m, n);
    assert k < m by { if m <= k { RunGrows(hash, ws, es, m, k); } }
    SharedOverlaps(hash, ws, es, i, k, j, m, n, id);
  }

  lemma {:induction false} SharedOverlaps(hash: Hash, ws: seq<World>, es: seq<Event>, i: nat, k: nat, j: nat, m: nat,
                                          n: nat, id: string)
    requires RunOf(hash, ws, es) && k < m < n <= |es| && Commits(es, i, k) && Commits(es, j, m)
    requires id in IdSet(es[i].batch) && id in IdSet(es[j].batch)
    ensures Overlap(es, i, j, n) || Overlap(es, j, i, n)
  {
    hide IdSet;
    BatchIsOpen(hash, ws, es, i, id);
    BatchIsOpen(hash, ws, es, j, id);
    assert j <= k by {
      if k < j { CommitMarks(hash, ws, es, i, k, j, id); }
    }
    assert j < k && !Ends(es[k], es[j].t);
    if i < j { RunGrows(hash, ws, es, i, j); } else { RunGrows(hash, ws, es, j, i); }
  }

  /** Exactly once, over every run: each receipt is in at most one recorded
      settlement exactly when no two settlements of one node overlap and are
      both committed. Then the totals sum to the amounts of all batched receipts. */
  lemma {:induction false} ExactlyOnce(hash: Hash, ws: seq<World>, es: seq<Event>, n: nat)
    requires RunOf(hash, ws, es) && n <= |es|
    ensures var st := ws[n].ledger;
            && (Once(st.settled) <==> NoOverlap(es, n))
            && Batched(st.settled) <= st.receipts.Keys
            && (NoOverlap(es, n) ==> Totals(st.settled) == Amount(st.receipts, Batched(st.settled)))
  {
    hide Overlap;
    ExactTotals(hash, ws, es, n);
    BatchedStored(ws[n].ledger);
    forall i, j | 0 <= i && 0 <= j && Overlap(es, i, j, n) ensures !Once(ws[n].ledger.settled) {
      OverlapBegins(hash, ws, es, i, j, n);
    }
    if !Once(ws[n].ledger.settled) {
      TwiceOverlaps(hash, ws, es, n);
    } else {
      Conserved(ws[n].ledger.receipts, ws[n].ledger.settled);
    }
  }

  lemma {:induction false} BatchedStored(st: State)
    requires forall i :: 0 <= i < |st.settled| ==> Recorded(st.receipts, st.settled[i])
    ensures Batched(st.settled) <= st.receipts.Keys
  {
    forall id | id in Batched(st.settled) ensures id in st.receipts {
      var i :| 0 <= i < |st.settled| && id in st.settled[i].receiptIDs;
      assert Recorded(st.receipts, st.settled[i]);
    }
  }

  lemma {:induction false} OverlapBegins(hash: Hash, ws: seq<World>, es: seq<Event>, i: nat, j: nat, n: nat)
    requires RunOf(hash, ws, es) && n <= |es| && Overlap(es, i, j, n)
    ensures !Once(ws[n].ledger.settled)
  {
    hide Once;
    BatchIsOpen(hash, ws, es, i, "");
    var id := es[i].batch[0].id;
    assert id in IdSet(es[i].batch);
    var u := OverlapSettlesTwice(hash, ws, es, i, j, n, id);
  }

  /** Starting no settlement of a node while one is in flight is enough. */
  lemma {:induction false} SerialNeverOverlaps(hash: Hash, ws: seq<World>, es: seq<Event>, n: nat)
    requires RunOf(hash, ws, es) && n <= |es|
    requires forall j, t :: 0 <= j < n && es[j].Begin? && t in ws[j].inflight ==> ws[j].inflight[t].node != es[j].node
    ensures NoOverlap(es, n) && Once(ws[n].ledger.settled)
  {
    forall i, j | 0 <= i && 0 <= j ensures !Overlap(es, i, j, n) {
      if i < j < n && InFlight(es, i, j) && es[j].Begin? {
        InFlightTicket(hash, ws, es, i, j);
        assert ws[j].inflight[es[i].t].node != es[j].node;
      }
    }
    ExactlyOnce(hash, ws, es, n);
  }

  ghost function Totals(settled: seq<Settlement>): int {
    if settled == [] then 0 else Totals(settled[..|settled| - 1]) + settled[|settled| - 1].total
  }

  lemma {:induction false} Conserved(rs: Receipts, settled: seq<Settlement>)
    requires Once(settled) && forall i :: 0 <= i < |settled| ==> Recorded(rs, settled[i])
    ensures Batched(settled) <= rs.Keys && Totals(settled) == Amount(rs, Batched(settled))
    decreases |settled|
  {
    if settled == [] {
      assert Batched(settled) == {};
    } else {
      var init, s := settled[..|settled| - 1], settled[|settled| - 1];
      assert settled == init + [s];
      Conserved(rs, init);
      BatchedSnoc(init, s);
      assert Batched(init) !! Ids(s);
      AmountUnion(rs, Batched(init), Ids(s));
    }
  }
}
