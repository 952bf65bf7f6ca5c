/** Prepaid credit, node receipts and settlement batches of
    internal/payments/payments.go: the operations on the service's maps. */
module Ledger {
  import opened Wrappers
  import opened Text
  import opened Sorting

  datatype Prepaid = Prepaid(nodeID: string, deposit: int64, spent: int64)

  datatype Receipt = Receipt(id: string, sessionID: string, nodeID: string, tokenID: string,
                             rxBytes: nat, txBytes: nat, minutes: nat, amount: int64, settled: bool)

  datatype Settlement = Settlement(id: string, nodeID: string, receiptIDs: seq<string>, total: int64)

  datatype State = State(prepaid: map<string, Prepaid>, receipts: map<string, Receipt>, settled: seq<Settlement>)

  const Empty := State(map[], map[], [])

  type Receipts = map<string, Receipt>

  /** Every stored receipt sits under its own non-empty id with a non-negative amount. */
  ghost predicate GoodReceipts(rs: Receipts) {
    forall id :: id in rs ==> rs[id].id == id && id != "" && rs[id].amount >= 0
  }

  ghost predicate GoodCredit(prepaid: map<string, Prepaid>) {
    forall s :: s in prepaid ==> 0 <= prepaid[s].spent <= prepaid[s].deposit
  }

  // ---------------------------------------------------------------- sums over sets of receipts

  ghost function Amount(rs: Receipts, ids: set<string>): int
    requires ids <= rs.Keys
  {
    if ids == {} then 0
    else var x :| x in ids; rs[x].amount + Amount(rs, ids - {x})
  }

  lemma {:induction false} AmountPick(rs: Receipts, ids: set<string>, x: string)
    requires ids <= rs.Keys && x in ids
    ensures Amount(rs, ids) == rs[x].amount + Amount(rs, ids - {x})
    decreases |ids|
  {
    var y :| y in ids && Amount(rs, ids) == rs[y].amount + Amount(rs, ids - {y});
    if y != x {
      AmountPick(rs, ids - {y}, x);
      AmountPick(rs, ids - {x}, y);
      assert ids - {y} - {x} == ids - {x} - {y};
    }
  }

  lemma {:induction false} AmountAdd(rs: Receipts, ids: set<string>, x: string)
    requires ids <= rs.Keys && x in rs && x !in ids
    ensures Amount(rs, ids + {x}) == Amount(rs, ids) + rs[x].amount
  {
    AmountPick(rs, ids + {x}, x);
    assert ids + {x} - {x} == ids;
  }

  lemma {:induction false} AmountUnion(rs: Receipts, a: set<string>, b: set<string>)
    requires a <= rs.Keys && b <= rs.Keys && a !! b
    ensures Amount(rs, a + b) == Amount(rs, a) + Amount(rs, b)
    decreases |a|
  {
    if a == {} {
      assert a + b == b;
    } else {
      var x :| x in a;
      AmountPick(rs, a, x);
      AmountPick(rs, a + b, x);
      assert a + b - {x} == (a - {x}) + b;
      AmountUnion(rs, a - {x}, b);
    }
  }

  lemma {:induction false} AmountSame(rs: Receipts, rs': Receipts, ids: set<string>)
    requires ids <= rs.Keys && ids <= rs'.Keys
    requires forall id :: id in ids ==> rs[id].amount == rs'[id].amount
    ensures Amount(rs, ids) == Amount(rs', ids)
    decreases |ids|
  {
    if ids != {} {
      var x :| x in ids;
      AmountPick(rs, ids, x);
      AmountPick(rs', ids, x);
      AmountSame(rs, rs', ids - {x});
    }
  }

  lemma {:induction false} AmountMonotone(rs: Receipts, a: set<string>, b: set<string>)
    requires GoodReceipts(rs) && a <= b <= rs.Keys
    ensures 0 <= Amount(rs, a) <= Amount(rs, b)
    decreases |b|
  {
    if b != {} {
      var x :| x in b;
      AmountPick(rs, b, x);
      if x in a {
        AmountPick(rs, a, x);
        AmountMonotone(rs, a - {x}, b - {x});
      } else {
        AmountMonotone(rs, a, b - {x});
      }
    }
  }

  // ---------------------------------------------------------------- sets of receipts

  ghost function OfSession(rs: Receipts, s: string): set<string> {
    set id | id in rs && rs[id].sessionID == s
  }

  /** The receipts of a session that are not marked settled. */
  ghost function Pending(rs: Receipts, s: string): set<string> {
    set id | id in rs && rs[id].sessionID == s && !rs[id].settled
  }

  /** The receipts of a node that are not marked settled. */
  ghost function Open(rs: Receipts, node: string): set<string> {
    set id | id in rs && rs[id].nodeID == node && !rs[id].settled
  }

  function IdsOf(batch: seq<Receipt>): (r: seq<string>)
    ensures |r| == |batch| && forall i :: 0 <= i < |batch| ==> r[i] == batch[i].id
  {
    seq(|batch|, i requires 0 <= i < |batch| => batch[i].id)
  }

  ghost function IdSet(batch: seq<Receipt>): set<string> {
    set i | 0 <= i < |batch| :: batch[i].id
  }

  ghost predicate Distinct(batch: seq<Receipt>) {
    forall i, j :: 0 <= i < j < |batch| ==> batch[i].id != batch[j].id
  }

  ghost predicate Stored(rs: Receipts, batch: seq<Receipt>) {
    forall i :: 0 <= i < |batch| ==> batch[i].id in rs && rs[batch[i].id] == batch[i]
  }

  /** The batch lists a node's open receipts, each once, in any order. */
  ghost predicate Lists(rs: Receipts, node: string, batch: seq<Receipt>) {
    Distinct(batch) && Stored(rs, batch) && IdSet(batch) == Open(rs, node)
  }

  function Sum(batch: seq<Receipt>): int {
    if batch == [] then 0 else Sum(batch[..|batch| - 1]) + batch[|batch| - 1].amount
  }

  /** The order of a batch does not matter to its sum. */
  lemma {:induction false} SumIsAmount(rs: Receipts, batch: seq<Receipt>)
    requires Distinct(batch) && Stored(rs, batch)
    ensures IdSet(batch) <= rs.Keys && Sum(batch) == Amount(rs, IdSet(batch))
    decreases |batch|
  {
    if batch != [] {
      var init, r := batch[..|batch| - 1], batch[|batch| - 1];
      SumIsAmount(rs, init);
      IdSetSnoc(batch);
      AmountAdd(rs, IdSet(init), r.id);
    }
  }

  lemma {:induction false} IdSetSnoc(batch: seq<Receipt>)
    requires batch != []
    ensures IdSet(batch) == IdSet(batch[..|batch| - 1]) + {batch[|batch| - 1].id}
    ensures Distinct(batch) ==> batch[|batch| - 1].id !in IdSet(batch[..|batch| - 1])
  {
    var n := |batch| - 1;
    forall id | id in IdSet(batch) ensures id in IdSet(batch[..n]) + {batch[n].id} {
      var i :| 0 <= i < |batch| && batch[i].id == id;
      if i < n { assert batch[..n][i].id == id; }
    }
    forall id | id in IdSet(batch[..n]) ensures id in IdSet(batch) {
      var i :| 0 <= i < n && batch[..n][i].id == id;
      assert batch[i].id == id;
    }
    assert batch[n].id in IdSet(batch);
  }

  // ---------------------------------------------------------------- receipts

  datatype Verdict = Accepted | BadSignature | NoID | Negative | Duplicate | PendingOverflow | ExceedsCredit

  /** What RecordReceipt decides, from the stored receipts alone. */
  ghost function Judge(st: State, r: Receipt, verified: bool): Verdict {
    if !verified then BadSignature
    else if r.id == "" then NoID
    else if r.amount < 0 then Negative
    else if r.id in st.receipts then Duplicate
    else if r.sessionID !in st.prepaid then Accepted
    else
      var p, pending := st.prepaid[r.sessionID], Amount(st.receipts, Pending(st.receipts, r.sessionID));
      if pending > MaxInt64 then PendingOverflow
      else if r.amount > p.deposit - p.spent - pending then ExceedsCredit
      else Accepted
  }

  ghost function Receive(st: State, r: Receipt, verified: bool): State {
    if Judge(st, r, verified).Accepted? then st.(receipts := st.receipts[r.id := r]) else st
  }

  /** What a receipt must be to be stored. */
  ghost predicate Storable(st: State, r: Receipt, verified: bool) {
    && verified && r.id != "" && r.id !in st.receipts && r.amount >= 0
    && (r.sessionID in st.prepaid ==>
          var p := st.prepaid[r.sessionID];
          r.amount + Amount(st.receipts, Pending(st.receipts, r.sessionID)) + p.spent <= p.deposit)
  }

  /** A receipt is stored exactly when it is verified, new, well formed and
      covered by the credit of its session, and nothing else ever changes. */
  lemma {:induction false} StoredIff(st: State, r: Receipt, verified: bool)
    requires GoodCredit(st.prepaid)
    ensures var st' := Receive(st, r, verified);
            && (r.id !in st.receipts ==> (r.id in st'.receipts <==> Storable(st, r, verified)))
            && st'.receipts == (if Storable(st, r, verified) then st.receipts[r.id := r] else st.receipts)
            && st'.prepaid == st.prepaid && st'.settled == st.settled
  {
  }

  /** Each refusal and what alone brings it. */
  lemma {:induction false} VerdictIff(st: State, r: Receipt, verified: bool)
    requires GoodCredit(st.prepaid)
    ensures var v := Judge(st, r, verified);
            && (v == Accepted <==> Storable(st, r, verified))
            && (v == BadSignature <==> !verified)
            && (v == NoID <==> verified && r.id == "")
            && (v == Negative <==> verified && r.id != "" && r.amount < 0)
            && (v == Duplicate <==> verified && r.id != "" && r.amount >= 0 && r.id in st.receipts)
            && (v == PendingOverflow <==>
                  && verified && r.id != "" && r.amount >= 0 && r.id !in st.receipts && r.sessionID in st.prepaid
                  && Amount(st.receipts, Pending(st.receipts, r.sessionID)) > MaxInt64)
  {
  }

  // ---------------------------------------------------------------- funding

  predicate Fundable(session: string, node: string, deposit: int64, price: real) {
    session != "" && node != "" && deposit > 0 && price >= 0.0
  }

  function Fund(st: State, session: string, node: string, deposit: int64, price: real): State {
    if Fundable(session, node, deposit, price)
    then st.(prepaid := st.prepaid[session := Prepaid(node, deposit, 0)])
    else st
  }

  // ---------------------------------------------------------------- settlement

  /** The batch id: a digest of the sorted receipt ids. */
  function Preimage(ids: seq<string>): string {
    Join(SortStrings(ids), ",")
  }

  function BatchID(hash: string -> string, ids: seq<string>): string {
    "stl-" + hash(Preimage(ids))
  }

  function SettlementOf(hash: string -> string, node: string, batch: seq<Receipt>): Settlement
    requires MinInt64 <= Sum(batch) <= MaxInt64
  {
    Settlement(BatchID(hash, IdsOf(batch)), node, IdsOf(batch), Sum(batch))
  }

  predicate NonNegative(batch: seq<Receipt>) {
    forall i :: 0 <= i < |batch| ==> batch[i].amount >= 0
  }

  /** Spend added to one credit: saturating at the integer limit, then capped at the deposit. */
  function AddSpend(p: Prepaid, amount: int64): Prepaid {
    var added := if amount >= 0 && p.spent <= MaxInt64 - amount then p.spent + amount else MaxInt64;
    p.(spent := if added > p.deposit then p.deposit else added)
  }

  function Attribute(prepaid: map<string, Prepaid>, batch: seq<Receipt>): map<string, Prepaid> {
    if batch == [] then prepaid
    else
      var before, r := Attribute(prepaid, batch[..|batch| - 1]), batch[|batch| - 1];
      if r.sessionID in before then before[r.sessionID := AddSpend(before[r.sessionID], r.amount)] else before
  }

  ghost function Mark(rs: Receipts, ids: set<string>): Receipts {
    map id | id in rs :: if id in ids then rs[id].(settled := true) else rs[id]
  }

  ghost function Commit(st: State, batch: seq<Receipt>, s: Settlement): State {
    State(Attribute(st.prepaid, batch), Mark(st.receipts, IdSet(batch)), st.settled + [s])
  }

  /** A whole settlement: some listing of the node's open receipts is summed, recorded and committed. */
  ghost predicate Settles(hash: string -> string, st: State, node: string, batch: seq<Receipt>, s: Settlement,
                          st': State) {
    && Lists(st.receipts, node, batch) && 0 <= Sum(batch) <= MaxInt64
    && s == SettlementOf(hash, node, batch) && st' == Commit(st, batch, s)
  }

  datatype SettleError = Nothing | NegativeAmount | Overflow | SubmitFailed

  // ---------------------------------------------------------------- the service

  class Service {
    const hash: string -> string
    var prepaid: map<string, Prepaid>
    var receipts: Receipts
    var settled: seq<Settlement>

    ghost function View(): State
      reads this
    {
      State(prepaid, receipts, settled)
    }

    ghost predicate Valid()
      reads this
    {
      GoodReceipts(receipts) && GoodCredit(prepaid)
    }

    constructor (hash: string -> string)
      ensures Valid() && View() == Empty && this.hash == hash
    {
      this.hash := hash;
      prepaid, receipts, settled := map[], map[], [];
    }

    /** The funding step of Authorize, after approval and payment. */
    method RecordFunding(session: string, node: string, deposit: int64, price: real) returns (ok: bool)
      requires Valid()
      modifies this
      ensures Valid() && View() == Fund(old(View()), session, node, deposit, price)
      ensures ok <==> Fundable(session, node, deposit, price)
    {
      if session == "" || node == "" || deposit <= 0 || price < 0.0 {
        return false;
      }
      prepaid := prepaid[session := Prepaid(node, deposit, 0)];
      return true;
    }

    method PendingTotal(session: string) returns (pending: Option<int64>)
      requires Valid()
      ensures pending.None? <==> Amount(receipts, Pending(receipts, session)) > MaxInt64
      ensures pending.Some? ==> pending.value == Amount(receipts, Pending(receipts, session))
    {
      ghost var all := Pending(receipts, session);
      var total: int64 := 0;
      var todo := receipts.Keys;
      assert all - todo == {};
      while todo != {}
        invariant todo <= receipts.Keys
        invariant total == Amount(receipts, all - todo) && total >= 0
        decreases todo
      {
        var k :| k in todo;
        var e := receipts[k];
        ghost var seen := all - todo;
        todo := todo - {k};
        if e.sessionID == session && !e.settled {
          assert all - todo == seen + {k};
          AmountAdd(receipts, seen, k);
          AmountMonotone(receipts, all - todo, all);
          if total > MaxInt64 - e.amount {
            return None;
          }
          total := total + e.amount;
        } else {
          assert all - todo == seen;
        }
      }
      assert all - todo == all;
      return Some(total);
    }

    method RecordReceipt(r: Receipt, verified: bool) returns (v: Verdict)
      requires Valid()
      modifies this
      ensures Valid() && v == old(Judge(View(), r, verified)) && View() == old(Receive(View(), r, verified))
    {
      if !verified {
        return BadSignature;
      }
      if r.id == "" {
        return NoID;
      }
      if r.amount < 0 {
        return Negative;
      }
      if r.id in receipts {
        return Duplicate;
      }
      if r.sessionID in prepaid {
        var p := prepaid[r.sessionID];
        var pending := PendingTotal(r.sessionID);
        if pending.None? {
          return PendingOverflow;
        }
        AmountMonotone(receipts, {}, Pending(receipts, r.sessionID));
        var remaining: int64 := p.deposit - p.spent - pending.value;
        if r.amount > remaining {
          return ExceedsCredit;
        }
      }
      receipts := receipts[r.id := r];
      return Accepted;
    }

    /** The open receipts of a node, in whatever order the map yields them. */
    method Unsettled(node: string) returns (batch: seq<Receipt>)
      requires Valid()
      ensures Lists(receipts, node, batch)
    {
      ghost var all := Open(receipts, node);
      batch := [];
      var todo := receipts.Keys;
      while todo != {}
        invariant todo <= receipts.Keys && Distinct(batch) && Stored(receipts, batch)
        invariant IdSet(batch) == all - todo
        decreases todo
      {
        var k :| k in todo;
        ghost var before := todo;
        todo := todo - {k};
        if receipts[k].nodeID == node && !receipts[k].settled {
          ghost var was := batch;
          assert forall i :: 0 <= i < |batch| ==> batch[i].id in IdSet(batch);
          batch := batch + [receipts[k]];
          IdSetSnoc(batch);
          assert batch[..|batch| - 1] == was;
          assert all - todo == (all - before) + {k};
        } else {
          assert all - todo == all - before;
        }
      }
    }

    /** Phase one: snapshot under the lock, then the checked sum outside it. */
    method BeginSettlement(node: string) returns (r: Result<(Settlement, seq<Receipt>), SettleError>)
      requires Valid()
      ensures r.Err? ==> r.error == Nothing || r.error == Overflow
      ensures r == Err(Nothing) <==> Open(receipts, node) == {}
      ensures r == Err(Overflow) <==> Amount(receipts, Open(receipts, node)) > MaxInt64
      ensures r.Ok? ==> Lists(receipts, node, r.value.1) && 0 <= Sum(r.value.1) <= MaxInt64
      ensures r.Ok? ==> r.value.0 == SettlementOf(hash, node, r.value.1)
    {
      var batch := Unsettled(node);
      if |batch| == 0 {
        return Err(Nothing);
      }
      assert batch[0].id in IdSet(batch);
      SumIsAmount(receipts, batch);
      var total := Aggregate(batch);
      if total.Err? {
        return Err(total.error);
      }
      return Ok((Settlement(BatchID(hash, IdsOf(batch)), node, IdsOf(batch), total.value), batch));
    }

    /** Phase two: mark, record and attribute the spend, under the lock. */
    method CommitSettlement(s: Settlement, batch: seq<Receipt>)
      requires Valid()
      requires s.receiptIDs == IdsOf(batch) && forall i :: 0 <= i < |batch| ==> batch[i].id in receipts
      modifies this
      ensures Valid() && View() == Commit(old(View()), batch, s)
    {
      MarkSettled(s, batch);
      settled := settled + [s];
      AttributeSpend(batch);
    }

    method MarkSettled(s: Settlement, batch: seq<Receipt>)
      requires s.receiptIDs == IdsOf(batch) && forall i :: 0 <= i < |batch| ==> batch[i].id in receipts
      modifies this`receipts
      ensures receipts == Mark(old(receipts), IdSet(batch))
    {
      for i := 0 to |s.receiptIDs|
        invariant receipts == Mark(old(receipts), IdSet(batch[..i]))
      {
        var id := s.receiptIDs[i];
        IdSetSnoc(batch[..i + 1]);
        assert batch[..i + 1][..i] == batch[..i];
        receipts := receipts[id := receipts[id].(settled := true)];
      }
      assert batch[..|batch|] == batch;
    }

    method AttributeSpend(batch: seq<Receipt>)
      requires GoodCredit(prepaid)
      modifies this`prepaid
      ensures prepaid == Attribute(old(prepaid), batch) && GoodCredit(prepaid)
    {
      for i := 0 to |batch|
        invariant prepaid == Attribute(old(prepaid), batch[..i]) && GoodCredit(prepaid)
      {
        assert batch[..i + 1][..i] == batch[..i];
        var r := batch[i];
        if r.sessionID in prepaid {
          var p := prepaid[r.sessionID];
          var spent: int64 := MaxInt64;
          if r.amount >= 0 && p.spent <= MaxInt64 - r.amount {
            spent := p.spent + r.amount;
          }
          if spent > p.deposit {
            spent := p.deposit;
          }
          prepaid := prepaid[r.sessionID := p.(spent := spent)];
        }
      }
      assert batch[..|batch|] == batch;
    }

    /** Both phases in one call, with the outcome of the chain submission given. */
    method RecordSettlement(node: string, submitted: bool) returns (r: Result<Settlement, SettleError>)
      requires Valid()
      modifies this
      ensures Valid()
      ensures r == Err(Nothing) <==> old(Open(receipts, node)) == {}
      ensures r == Err(Overflow) <==> old(Amount(receipts, Open(receipts, node))) > MaxInt64
      ensures r.Err? && r.error != Nothing && r.error != Overflow ==> r.error == SubmitFailed && !submitted
      ensures r.Err? ==> View() == old(View())
      ensures r.Ok? ==> submitted && exists batch :: Settles(hash, old(View()), node, batch, r.value, View())
    {
      var begun := BeginSettlement(node);
      if begun.Err? {
        return Err(begun.error);
      }
      var (s, batch) := begun.value;
      if !submitted {
        return Err(SubmitFailed);
      }
      CommitSettlement(s, batch);
      assert Settles(hash, old(View()), node, batch, s, View());
      return Ok(s);
    }
  }

  /** The checked sum: it fails exactly when an amount is negative or the true sum is too large. */
  method Aggregate(batch: seq<Receipt>) returns (r: Result<int64, SettleError>)
    ensures r.Ok? <==> NonNegative(batch) && Sum(batch) <= MaxInt64
    ensures r.Ok? ==> r.value == Sum(batch) && Sum(batch) >= 0
    ensures r.Err? && NonNegative(batch) ==> r.error == Overflow
  {
    var total: int64 := 0;
    for i := 0 to |batch|
      invariant total == Sum(batch[..i]) && total >= 0 && NonNegative(batch[..i])
    {
      assert batch[..i + 1][..i] == batch[..i];
      if batch[i].amount < 0 {
        return Err(NegativeAmount);
      }
      if total > MaxInt64 - batch[i].amount {
        SumPrefix(batch, i + 1);
        return Err(Overflow);
      }
      total := total + batch[i].amount;
    }
    assert batch[..|batch|] == batch;
    return Ok(total);
  }

  lemma {:induction false} SumPrefix(batch: seq<Receipt>, n: nat)
    requires n <= |batch|
    ensures NonNegative(batch) ==> Sum(batch[..n]) <= Sum(batch)
    decreases |batch| - n
  {
    if n < |batch| {
      assert batch[..n + 1][..n] == batch[..n];
      SumPrefix(batch, n + 1);
    } else {
      assert batch[..n] == batch;
    }
  }
}
