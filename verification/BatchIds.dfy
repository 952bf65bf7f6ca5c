/** The batch id of a settlement: a retry gets the same one, and which batches
    share the text it is a digest of. */
module BatchIds {
  import opened Ledger
  import opened Text
  import opened Sorting
  import opened SettlementProtocol

  lemma {:induction false} DistinctMultiset(batch: seq<Receipt>)
    requires Distinct(batch)
    ensures multiset(IdsOf(batch)) == multiset(IdSet(batch))
    decreases |batch|
  {
    if batch == [] {
      assert IdsOf(batch) == [] && IdSet(batch) == {};
    } else {
      var init, r := batch[..|batch| - 1], batch[|batch| - 1];
      DistinctMultiset(init);
      IdSetSnoc(batch);
      assert IdsOf(batch) == IdsOf(init) + [r.id];
    }
  }

  /** Retrying the same set of receipts gives the same batch id and total,
      whatever order the map yields them in. */
  lemma {:induction false} RetrySameBatch(hash: Hash, rs: Receipts, node: string, a: seq<Receipt>, b: seq<Receipt>)
    requires Lists(rs, node, a) && Lists(rs, node, b) && MinInt64 <= Sum(a) <= MaxInt64
    ensures Sum(a) == Sum(b)
    ensures SettlementOf(hash, node, a).id == SettlementOf(hash, node, b).id
  {
    SumIsAmount(rs, a);
    SumIsAmount(rs, b);
    DistinctMultiset(a);
    DistinctMultiset(b);
    SortForgetsOrder(IdsOf(a), IdsOf(b));
  }

  /** The comma-separated pieces of all the ids, in order. */
  function Pieces(ids: seq<string>): seq<string> {
    if ids == [] then [] else Split(ids[0], ',') + Pieces(ids[1..])
  }

  lemma {:induction false} SplitOfJoin(ids: seq<string>)
    requires ids != []
    ensures Split(Join(ids, ","), ',') == Pieces(ids)
  {
    if |ids| == 1 {
      assert Pieces(ids) == Split(ids[0], ',') + [];
    } else {
      SplitOfJoin(ids[1..]);
      SplitConcat(ids[0], ',', Join(ids[1..], ","));
    }
  }

  /** Two batches hash the same text exactly when their sorted ids fall into the same pieces. */
  lemma {:induction false} PreimageIff(a: seq<string>, b: seq<string>)
    requires a != [] && b != []
    ensures Preimage(a) == Preimage(b) <==> Pieces(SortStrings(a)) == Pieces(SortStrings(b))
  {
    SortKeepsMembers(a);
    SortKeepsMembers(b);
    assert a[0] in SortStrings(a) && b[0] in SortStrings(b);
    SplitOfJoin(SortStrings(a));
    SplitOfJoin(SortStrings(b));
    JoinSplit(Preimage(a), ',');
    JoinSplit(Preimage(b), ',');
  }

  lemma {:induction false} PiecesOfFree(ids: seq<string>)
    requires AllFree(ids, ',')
    ensures Pieces(ids) == ids
  {
    if ids != [] {
      SplitPlain(ids[0], ',');
      PiecesOfFree(ids[1..]);
    }
  }

  /** Without commas in the ids, two batches hash the same text exactly when they hold the same receipts. */
  lemma {:induction false} PreimageTellsSets(a: seq<string>, b: seq<string>)
    requires a != [] && b != [] && AllFree(a, ',') && AllFree(b, ',')
    ensures Preimage(a) == Preimage(b) <==> multiset(a) == multiset(b)
  {
    var x, y := SortStrings(a), SortStrings(b);
    SortKeepsMembers(a);
    SortKeepsMembers(b);
    forall i | 0 <= i < |x| ensures ',' !in x[i] { assert x[i] in a; }
    forall i | 0 <= i < |y| ensures ',' !in y[i] { assert y[i] in b; }
    PiecesOfFree(x);
    PiecesOfFree(y);
    PreimageIff(a, b);
    if multiset(a) == multiset(b) {
      SortForgetsOrder(a, b);
    }
  }

  /** A hash that tells the two texts apart makes the batch ids do so too. */
  lemma {:induction false} BatchIdsTellSets(hash: Hash, a: seq<string>, b: seq<string>)
    requires a != [] && b != [] && AllFree(a, ',') && AllFree(b, ',')
    requires hash(Preimage(a)) == hash(Preimage(b)) ==> Preimage(a) == Preimage(b)
    ensures BatchID(hash, a) == BatchID(hash, b) <==> multiset(a) == multiset(b)
    ensures "stl-" <= BatchID(hash, a)
  {
    hide Preimage;
    PreimageTellsSets(a, b);
    var x, y := BatchID(hash, a), BatchID(hash, b);
    assert x[4..] == hash(Preimage(a)) && y[4..] == hash(Preimage(b));
  }

  /** With commas in the ids, two different batches can hash the same text:
      every batch of several receipts shares its text with a single id. */
  lemma {:induction false} PreimageCollision(ids: seq<string>)
    requires |ids| >= 2
    ensures Preimage([Preimage(ids)]) == Preimage(ids) && multiset([Preimage(ids)]) != multiset(ids)
    ensures ',' in Preimage(ids)
  {
    var one := [Preimage(ids)];
    SortedUnique(SortStrings(one), one);
    var sorted := SortStrings(ids);
    SortKeepsMembers(ids);
    assert |multiset(sorted)| == |multiset(ids)|;
    assert |multiset(one)| == 1 && |multiset(ids)| == |ids|;
  }
}
