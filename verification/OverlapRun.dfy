/** A run that settles one receipt twice at once, and what it charges. */
module OverlapRun {
  import opened Ledger
  import opened Text
  import opened SettlementProtocol
  import opened Schedules
  import opened Spending

  /** One funding, one receipt, and two settlements of its node at once. */
  function OverlapEvents(r: Receipt, deposit: int64): seq<Event> {
    [Funding(r.sessionID, "node", deposit, 0.0), Receiving(r, true), Begin(0, r.nodeID, [r]), Begin(1, r.nodeID, [r]),
     Committing(0), Committing(1)]
  }

  ghost predicate CanOverlap(r: Receipt, deposit: int64) {
    r.id != "" && r.sessionID != "" && !r.settled && 0 <= r.amount <= deposit && deposit > 0
  }

  function Funded(r: Receipt, deposit: int64, spent: int64): map<string, Prepaid> {
    map[r.sessionID := Prepaid("node", deposit, spent)]
  }

  lemma {:induction false} OneOpen(r: Receipt)
    requires !r.settled && r.amount >= 0
    ensures Lists(map[r.id := r], r.nodeID, [r]) && NonNegative([r]) && Sum([r]) == r.amount && IdSet([r]) == {r.id}
  {
    assert [r][..0] == [] && Sum([]) == 0;
    assert [r][0].id in IdSet([r]);
    assert Open(map[r.id := r], r.nodeID) == {r.id};
  }

  lemma {:induction false} OneReceived(r: Receipt, deposit: int64)
    requires CanOverlap(r, deposit)
    ensures var start := State(Funded(r, deposit, 0), map[], []);
            && Fund(Empty, r.sessionID, "node", deposit, 0.0) == start
            && Receive(start, r, true) == start.(receipts := map[r.id := r])
  {
    var none: Receipts := map[];
    assert Pending(none, r.sessionID) == {};
    assert Amount(none, {}) == 0;
  }

  /** Each commit of the one receipt marks it and charges it once more, up to the deposit. */
  lemma {:induction false} OneCommitted(r: Receipt, q: Receipt, deposit: int64, spent: int64, log: seq<Settlement>,
                                        s: Settlement)
    requires CanOverlap(r, deposit) && 0 <= spent <= deposit && q.(settled := r.settled) == r
    ensures var st := Commit(State(Funded(r, deposit, spent), map[r.id := q], log), [r], s);
            st == State(Funded(r, deposit, AtMost(spent + r.amount, deposit)), map[r.id := r.(settled := true)],
                        log + [s])
  {
    assert [r][..0] == [] && Attribute(Funded(r, deposit, spent), []) == Funded(r, deposit, spent);
    assert [r][0].id in IdSet([r]);
  }

  ghost function OverlapWorlds(hash: Hash, r: Receipt, deposit: int64): seq<World>
    requires CanOverlap(r, deposit)
  {
    OneOpen(r);
    var s := SettlementOf(hash, r.nodeID, [r]);
    var t := Ticket(r.nodeID, [r], s);
    var start, got := Funded(r, deposit, 0), map[r.id := r];
    var once, twice := Funded(r, deposit, r.amount), Funded(r, deposit, AtMost(r.amount + r.amount, deposit));
    [World(Empty, map[]), World(State(start, map[], []), map[]), World(State(start, got, []), map[]),
     World(State(start, got, []), map[0 := t]), World(State(start, got, []), map[0 := t, 1 := t]),
     World(State(once, map[r.id := r.(settled := true)], [s]), map[1 := t]),
     World(State(twice, map[r.id := r.(settled := true)], [s, s]), map[])]
  }

  lemma {:induction false} OverlapIsRun(hash: Hash, r: Receipt, deposit: int64)
    requires CanOverlap(r, deposit)
    ensures RunOf(hash, OverlapWorlds(hash, r, deposit), OverlapEvents(r, deposit))
  {
    hide Lists, Sum, Fund, Receive, Commit, SettlementOf;
    var ws, es := OverlapWorlds(hash, r, deposit), OverlapEvents(r, deposit);
    OneOpen(r);
    OneReceived(r, deposit);
    var s, done := SettlementOf(hash, r.nodeID, [r]), r.(settled := true);
    OneCommitted(r, r, deposit, 0, [], s);
    OneCommitted(r, done, deposit, r.amount, [s], s);
    assert [] + [s] == [s] && [s] + [s] == [s, s];
    var t := Ticket(r.nodeID, [r], s);
    assert map[0 := t][1 := t] == map[0 := t, 1 := t];
    assert map[0 := t, 1 := t] - {0} == map[1 := t] && map[1 := t] - {1} == map[];
    assert Follows(hash, ws[0], es[0], ws[1]) && Follows(hash, ws[1], es[1], ws[2]);
    assert Follows(hash, ws[2], es[2], ws[3]) && Follows(hash, ws[3], es[3], ws[4]);
    assert Follows(hash, ws[4], es[4], ws[5]) && Follows(hash, ws[5], es[5], ws[6]);
  }

  /** Exactly-once fails for every receipt that is settled twice at once; and
      then its session's spend is wrong, unless the deposit hides it. */
  lemma {:induction false} OverlapSettlesAgain(hash: Hash, r: Receipt, deposit: int64)
    requires CanOverlap(r, deposit)
    ensures var ws, es := OverlapWorlds(hash, r, deposit), OverlapEvents(r, deposit);
            && RunOf(hash, ws, es) && Overlap(es, 2, 3, 6) && !Once(ws[6].ledger.settled)
            && (WithinDeposit(ws[6].ledger, r.sessionID) <==> r.amount == 0 || r.amount == deposit)
  {
    var ws, es := OverlapWorlds(hash, r, deposit), OverlapEvents(r, deposit);
    OverlapIsRun(hash, r, deposit);
    assert Commits(es, 2, 4) && Commits(es, 3, 5);
    OverlapBegins(hash, ws, es, 2, 3, 6);
    TwiceCharged(hash, r, deposit);
  }

  lemma {:induction false} TwiceCharged(hash: Hash, r: Receipt, deposit: int64)
    requires CanOverlap(r, deposit)
    ensures WithinDeposit(OverlapWorlds(hash, r, deposit)[6].ledger, r.sessionID) <==>
              r.amount == 0 || r.amount == deposit
  {
    var st := OverlapWorlds(hash, r, deposit)[6].ledger;
    OneOpen(r);
    IdsOfBatch(st.settled[0], [r]);
    BatchedSnoc([st.settled[0]], st.settled[1]);
    assert [st.settled[0]] + [st.settled[1]] == st.settled;
    assert r.id in BatchedOf(st, r.sessionID);
    assert BatchedOf(st, r.sessionID) == {r.id};
    AmountPick(st.receipts, {r.id}, r.id);
    assert {r.id} - {r.id} == {};
    assert Pending(st.receipts, r.sessionID) == {};
  }
}
