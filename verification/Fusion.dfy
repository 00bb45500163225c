/** Reciprocal-rank fusion of a dense and a lexical leg, and the rerank stage that follows. */
module Fusion {
  import opened Options
  import opened Ranking

  /** A chunk row, and whether its metadata passes the filter. */
  datatype Row = Row(id: string, matches: bool, content: nat)

  /** A dictionary keyed by row id, in insertion order. */
  type Ranked = seq<Scored<Row>>

  function Weight(k: nat, rank: nat): real
    requires rank > 0
  {
    1.0 / (k + rank) as real
  }

  /** Assigning to a key that is there keeps its place. */
  function Assign(ranked: Ranked, entry: Scored<Row>): Ranked {
    if ranked == [] then [entry]
    else if ranked[0].item.id == entry.item.id then [entry] + ranked[1..]
    else [ranked[0]] + Assign(ranked[1..], entry)
  }

  function Lookup(ranked: Ranked, id: string): Option<Scored<Row>> {
    if ranked == [] then None
    else if ranked[0].item.id == id then Some(ranked[0])
    else Lookup(ranked[1..], id)
  }

  method Fuse(k: nat, dense: seq<Row>, lexical: seq<Row>, topK: nat) returns (best: Ranked)
    ensures best == Take(SortDesc(WithLexical(k, WithDense(k, dense, |dense|), lexical, |lexical|)), topK)
    ensures DistinctIds(dense) && DistinctIds(lexical) ==>
              exists all :: AreCombined(k, dense, lexical, all) && AreHighest(all, topK, best)
  {
    var ranked: Ranked := [];
    for i := 0 to |dense|
      invariant ranked == WithDense(k, dense, i)
    {
      var row := dense[i];
      if !row.matches {
        continue;
      }
      ranked := Assign(ranked, Scored(row, 1.0 / (k + i + 1) as real));
    }
    for i := 0 to |lexical|
      invariant ranked == WithLexical(k, WithDense(k, dense, |dense|), lexical, i)
    {
      var row := lexical[i];
      if !row.matches {
        continue;
      }
      var contribution := 1.0 / (k + i + 1) as real;
      var prior := Lookup(ranked, row.id);
      if prior.Some? {
        ranked := Assign(ranked, Scored(prior.value.item, prior.value.score + contribution));
      } else {
        ranked := Assign(ranked, Scored(row, contribution));
      }
    }
    best := Take(SortDesc(ranked), topK);
    if DistinctIds(dense) && DistinctIds(lexical) {
      FusedAreCombined(k, dense, lexical);
      HighestAreTaken(ranked, topK);
    }
  }

  function WithDense(k: nat, rows: seq<Row>, n: nat): Ranked
    requires n <= |rows|
  {
    if n == 0 then []
    else
      var before, row := WithDense(k, rows, n - 1), rows[n - 1];
      if row.matches then Assign(before, Scored(row, Weight(k, n))) else before
  }

  function WithLexical(k: nat, ranked: Ranked, rows: seq<Row>, n: nat): Ranked
    requires n <= |rows|
  {
    if n == 0 then ranked
    else
      var before, row := WithLexical(k, ranked, rows, n - 1), rows[n - 1];
      if row.matches then Assign(before, LexicalEntry(k, before, row, n)) else before
  }

  /** An id the dense leg kept gains the weight; a new one starts with it. */
  function LexicalEntry(k: nat, ranked: Ranked, row: Row, rank: nat): Scored<Row>
    requires 0 < rank
  {
    match Lookup(ranked, row.id)
    case Some(prior) => Scored(prior.item, prior.score + Weight(k, rank))
    case None => Scored(row, Weight(k, rank))
  }

  function Fused(k: nat, dense: seq<Row>, lexical: seq<Row>): Ranked {
    WithLexical(k, WithDense(k, dense, |dense|), lexical, |lexical|)
  }

  // ---------------------------------------------------------------- what the scores are

  predicate DistinctIds(rows: seq<Row>) {
    forall i, j | 0 <= i < j < |rows| :: rows[i].id != rows[j].id
  }

  /** The id is among the first `n` rows that pass the filter. */
  predicate Kept(rows: seq<Row>, n: nat, id: string)
    requires n <= |rows|
  {
    exists i | 0 <= i < n :: rows[i].id == id && rows[i].matches
  }

  /** What one leg gives to an id: 1 / (k + rank), or nothing. */
  function Share(k: nat, rows: seq<Row>, n: nat, id: string): real
    requires n <= |rows|
  {
    if n == 0 then 0.0
    else if rows[n - 1].id == id && rows[n - 1].matches then 1.0 / (k + n) as real
    else Share(k, rows, n - 1, id)
  }

  predicate OncePerId(ranked: Ranked) {
    forall i, j | 0 <= i < j < |ranked| :: ranked[i].item.id != ranked[j].item.id
  }

  predicate Present(ranked: Ranked, id: string) {
    exists i | 0 <= i < |ranked| :: ranked[i].item.id == id
  }

  lemma {:induction false} LookupFinds(ranked: Ranked, id: string)
    ensures Lookup(ranked, id).Some? <==> Present(ranked, id)
    ensures Lookup(ranked, id).Some? ==> Lookup(ranked, id).value in ranked && Lookup(ranked, id).value.item.id == id
  {
    if ranked != [] && ranked[0].item.id != id {
      LookupFinds(ranked[1..], id);
      if Present(ranked, id) {
        var i :| 0 <= i < |ranked| && ranked[i].item.id == id;
        assert ranked[1..][i - 1].item.id == id;
      }
    }
  }

  /** Assignment sets one key and leaves every other entry alone. */
  lemma {:induction false} AssignSets(ranked: Ranked, entry: Scored<Row>)
    requires OncePerId(ranked)
    ensures var s := Assign(ranked, entry);
            && OncePerId(s)
            && entry in s
            && (forall e | e in s :: e == entry || (e in ranked && e.item.id != entry.item.id))
            && (forall e | e in ranked && e.item.id != entry.item.id :: e in s)
  {
    if ranked != [] && ranked[0].item.id != entry.item.id {
      AssignSets(ranked[1..], entry);
      var rest := Assign(ranked[1..], entry);
      forall i | 0 <= i < |rest| ensures rest[i].item.id != ranked[0].item.id {
        assert rest[i] in rest;
      }
      assert ranked == [ranked[0]] + ranked[1..];
    } else if ranked != [] {
      assert ranked == [ranked[0]] + ranked[1..];
    }
  }

  /** Each id that some leg kept, once, with the sum of its shares. */
  ghost predicate Accurate(ranked: Ranked, k: nat, dense: seq<Row>, m: nat, lexical: seq<Row>, n: nat)
    requires m <= |dense| && n <= |lexical|
  {
    && OncePerId(ranked)
    && (forall id :: Present(ranked, id) <==> Kept(dense, m, id) || Kept(lexical, n, id))
    && (forall e | e in ranked :: e.score == Share(k, dense, m, e.item.id) + Share(k, lexical, n, e.item.id))
  }

  lemma {:induction false} NotKeptNoShare(k: nat, rows: seq<Row>, n: nat, id: string)
    requires n <= |rows| && !Kept(rows, n, id)
    ensures Share(k, rows, n, id) == 0.0
  {
    if n > 0 {
      NotKeptNoShare(k, rows, n - 1, id);
    }
  }

  /** One more row that passes: its id is new to the leg and gains exactly its weight. */
  lemma RowGains(k: nat, rows: seq<Row>, n: nat)
    requires 0 < n <= |rows| && DistinctIds(rows) && rows[n - 1].matches
    ensures !Kept(rows, n - 1, rows[n - 1].id) && Share(k, rows, n - 1, rows[n - 1].id) == 0.0
    ensures forall id :: Kept(rows, n, id) <==> Kept(rows, n - 1, id) || id == rows[n - 1].id
  {
    NotKeptNoShare(k, rows, n - 1, rows[n - 1].id);
    assert rows[n - 1].id == rows[n - 1].id && Kept(rows, n, rows[n - 1].id);
    forall id ensures Kept(rows, n, id) <==> Kept(rows, n - 1, id) || id == rows[n - 1].id {
    }
  }

  lemma RowSkipped(k: nat, rows: seq<Row>, n: nat, id: string)
    requires 0 < n <= |rows| && !rows[n - 1].matches
    ensures Kept(rows, n, id) <==> Kept(rows, n - 1, id)
    ensures Share(k, rows, n, id) == Share(k, rows, n - 1, id)
  {
  }

  lemma PresentMembers(ranked: Ranked, id: string)
    ensures Present(ranked, id) <==> exists e :: e in ranked && e.item.id == id
  {
    if e :| e in ranked && e.item.id == id {
      var i :| 0 <= i < |ranked| && ranked[i] == e;
    }
    if Present(ranked, id) {
      var i :| 0 <= i < |ranked| && ranked[i].item.id == id;
      assert ranked[i] in ranked;
    }
  }

  lemma AssignPresent(ranked: Ranked, entry: Scored<Row>)
    requires OncePerId(ranked)
    ensures forall id :: Present(Assign(ranked, entry), id) <==> Present(ranked, id) || id == entry.item.id
  {
    AssignSets(ranked, entry);
    forall id ensures Present(Assign(ranked, entry), id) <==> Present(ranked, id) || id == entry.item.id {
      PresentMembers(ranked, id);
      PresentMembers(Assign(ranked, entry), id);
    }
  }

  lemma {:induction false} DenseIsAccurate(k: nat, dense: seq<Row>, m: nat, lexical: seq<Row>)
    requires DistinctIds(dense) && m <= |dense|
    ensures Accurate(WithDense(k, dense, m), k, dense, m, lexical, 0)
  {
    if m > 0 {
      var before, row := WithDense(k, dense, m - 1), dense[m - 1];
      DenseIsAccurate(k, dense, m - 1, lexical);
      if row.matches {
        RowGains(k, dense, m);
        AssignSets(before, Scored(row, Weight(k, m)));
        AssignPresent(before, Scored(row, Weight(k, m)));
      } else {
        forall id ensures Kept(dense, m, id) <==> Kept(dense, m - 1, id) {
          RowSkipped(k, dense, m, id);
        }
      }
    }
  }

  lemma {:induction false} LexicalIsAccurate(k: nat, dense: seq<Row>, lexical: seq<Row>, n: nat)
    requires DistinctIds(dense) && DistinctIds(lexical) && n <= |lexical|
    ensures Accurate(WithLexical(k, WithDense(k, dense, |dense|), lexical, n), k, dense, |dense|, lexical, n)
  {
    if n == 0 {
      DenseIsAccurate(k, dense, |dense|, lexical);
    } else {
      var before, row := WithLexical(k, WithDense(k, dense, |dense|), lexical, n - 1), lexical[n - 1];
      LexicalIsAccurate(k, dense, lexical, n - 1);
      if row.matches {
        LexicalStep(k, dense, lexical, n, before);
      } else {
        forall id ensures Kept(lexical, n, id) <==> Kept(lexical, n - 1, id) {
          RowSkipped(k, lexical, n, id);
        }
      }
    }
  }

  lemma EntryScore(k: nat, dense: seq<Row>, lexical: seq<Row>, n: nat, before: Ranked)
    requires DistinctIds(lexical) && 0 < n <= |lexical| && lexical[n - 1].matches
    requires Accurate(before, k, dense, |dense|, lexical, n - 1)
    ensures var row := lexical[n - 1];
            var entry := LexicalEntry(k, before, row, n);
            entry.item.id == row.id && entry.score == Share(k, dense, |dense|, row.id) + Share(k, lexical, n, row.id)
  {
    var row := lexical[n - 1];
    LookupFinds(before, row.id);
    RowGains(k, lexical, n);
    if Lookup(before, row.id).None? {
      NotKeptNoShare(k, dense, |dense|, row.id);
    }
  }

  lemma LexicalStep(k: nat, dense: seq<Row>, lexical: seq<Row>, n: nat, before: Ranked)
    requires DistinctIds(lexical) && 0 < n <= |lexical| && lexical[n - 1].matches
    requires Accurate(before, k, dense, |dense|, lexical, n - 1)
    ensures Accurate(Assign(before, LexicalEntry(k, before, lexical[n - 1], n)), k, dense, |dense|, lexical, n)
  {
    var entry := LexicalEntry(k, before, lexical[n - 1], n);
    RowGains(k, lexical, n);
    EntryScore(k, dense, lexical, n, before);
    AssignSets(before, entry);
    AssignPresent(before, entry);
  }

  predicate IsKeptRow(rows: seq<Row>, n: nat, row: Row)
    requires n <= |rows|
  {
    exists i | 0 <= i < n :: rows[i] == row && rows[i].matches
  }

  /** An entry carries the row of the dense leg if that leg kept its id, and else the row of the lexical leg. */
  predicate CarriesRow(e: Scored<Row>, dense: seq<Row>, m: nat, lexical: seq<Row>, n: nat)
    requires m <= |dense| && n <= |lexical|
  {
    if Kept(dense, m, e.item.id) then IsKeptRow(dense, m, e.item) else IsKeptRow(lexical, n, e.item)
  }

  lemma {:induction false} DenseCarriesRows(k: nat, dense: seq<Row>, m: nat)
    requires DistinctIds(dense) && m <= |dense|
    ensures forall e | e in WithDense(k, dense, m) :: IsKeptRow(dense, m, e.item) && Kept(dense, m, e.item.id)
  {
    if m > 0 {
      var before, row := WithDense(k, dense, m - 1), dense[m - 1];
      DenseCarriesRows(k, dense, m - 1);
      DenseIsAccurate(k, dense, m - 1, []);
      if row.matches {
        AssignSets(before, Scored(row, Weight(k, m)));
      }
    }
  }

  lemma {:induction false} LexicalCarriesRows(k: nat, dense: seq<Row>, lexical: seq<Row>, n: nat)
    requires DistinctIds(dense) && DistinctIds(lexical) && n <= |lexical|
    ensures forall e | e in WithLexical(k, WithDense(k, dense, |dense|), lexical, n) ::
              CarriesRow(e, dense, |dense|, lexical, n)
  {
    if n == 0 {
      DenseCarriesRows(k, dense, |dense|);
    } else {
      var before, row := WithLexical(k, WithDense(k, dense, |dense|), lexical, n - 1), lexical[n - 1];
      LexicalCarriesRows(k, dense, lexical, n - 1);
      LexicalIsAccurate(k, dense, lexical, n - 1);
      if row.matches {
        LookupFinds(before, row.id);
        AssignSets(before, LexicalEntry(k, before, row, n));
      }
    }
  }

  /**
   Every id that a leg kept appears once, with the sum of 1 / (k + rank) over the legs that
   kept it and with the row of one of them.
   */
  lemma FusedScores(k: nat, dense: seq<Row>, lexical: seq<Row>)
    requires DistinctIds(dense) && DistinctIds(lexical)
    ensures Accurate(Fused(k, dense, lexical), k, dense, |dense|, lexical, |lexical|)
    ensures forall e | e in Fused(k, dense, lexical) :: CarriesRow(e, dense, |dense|, lexical, |lexical|)
  {
    LexicalIsAccurate(k, dense, lexical, |lexical|);
    LexicalCarriesRows(k, dense, lexical, |lexical|);
  }

  // ---------------------------------------------------------------- the order before sorting

  /** The ids that pass the filter, in the order of the leg. */
  function KeptIds(rows: seq<Row>, n: nat): seq<string>
    requires n <= |rows|
  {
    if n == 0 then [] else KeptIds(rows, n - 1) + if rows[n - 1].matches then [rows[n - 1].id] else []
  }

  /** Those that are not known yet. */
  function NewIds(ids: seq<string>, known: seq<string>): seq<string> {
    if ids == [] then []
    else NewIds(ids[..|ids| - 1], known) + if ids[|ids| - 1] in known then [] else [ids[|ids| - 1]]
  }

  function IdsOf(ranked: Ranked): (ids: seq<string>)
    ensures |ids| == |ranked| && forall i | 0 <= i < |ranked| :: ids[i] == ranked[i].item.id
  {
    seq(|ranked|, i requires 0 <= i < |ranked| => ranked[i].item.id)
  }

  lemma IdsOfCons(first: Scored<Row>, rest: Ranked)
    ensures IdsOf([first] + rest) == [first.item.id] + IdsOf(rest)
  {
  }

  /** Assigning keeps the place of an id that is there, and puts a new one last. */
  lemma {:induction false} AssignKeepsPlaces(ranked: Ranked, entry: Scored<Row>)
    ensures var id := entry.item.id;
            IdsOf(Assign(ranked, entry)) == IdsOf(ranked) + if Present(ranked, id) then [] else [id]
  {
    if ranked != [] {
      var first, rest := ranked[0], ranked[1..];
      assert ranked == [first] + rest;
      IdsOfCons(first, rest);
      if first.item.id == entry.item.id {
        assert Present(ranked, entry.item.id);
        IdsOfCons(entry, rest);
      } else {
        AssignKeepsPlaces(rest, entry);
        IdsOfCons(first, Assign(rest, entry));
        PresentInRest(ranked, entry.item.id);
      }
    }
  }

  lemma PresentInRest(ranked: Ranked, id: string)
    requires ranked != [] && ranked[0].item.id != id
    ensures Present(ranked, id) <==> Present(ranked[1..], id)
  {
    if Present(ranked, id) {
      var i :| 0 <= i < |ranked| && ranked[i].item.id == id;
      assert ranked[1..][i - 1].item.id == id;
    }
  }

  lemma {:induction false} KeptIdsAreKept(rows: seq<Row>, n: nat, id: string)
    requires n <= |rows|
    ensures id in KeptIds(rows, n) <==> Kept(rows, n, id)
  {
    if n > 0 {
      KeptIdsAreKept(rows, n - 1, id);
    }
  }

  lemma {:induction false} DenseInOrder(k: nat, dense: seq<Row>, m: nat)
    requires DistinctIds(dense) && m <= |dense|
    ensures IdsOf(WithDense(k, dense, m)) == KeptIds(dense, m)
  {
    if m > 0 {
      DenseInOrder(k, dense, m - 1);
      if dense[m - 1].matches {
        DenseIsAccurate(k, dense, m - 1, []);
        RowGains(k, dense, m);
        AssignKeepsPlaces(WithDense(k, dense, m - 1), Scored(dense[m - 1], Weight(k, m)));
      }
    }
  }

  lemma OrderStep(k: nat, before: Ranked, row: Row, n: nat, known: seq<string>, ids: seq<string>)
    requires 0 < n && IdsOf(before) == known + NewIds(ids, known) && (Present(before, row.id) <==> row.id in known)
    ensures IdsOf(Assign(before, LexicalEntry(k, before, row, n))) == known + NewIds(ids + [row.id], known)
  {
    LookupFinds(before, row.id);
    AssignKeepsPlaces(before, LexicalEntry(k, before, row, n));
    assert (ids + [row.id])[..|ids|] == ids;
    assert LexicalEntry(k, before, row, n).item.id == row.id;
  }

  lemma {:induction false} LexicalInOrder(k: nat, dense: seq<Row>, lexical: seq<Row>, n: nat)
    requires DistinctIds(dense) && DistinctIds(lexical) && n <= |lexical|
    ensures var known := KeptIds(dense, |dense|);
            IdsOf(WithLexical(k, WithDense(k, dense, |dense|), lexical, n)) == known + NewIds(KeptIds(lexical, n), known)
  {
    if n == 0 {
      DenseInOrder(k, dense, |dense|);
      assert KeptIds(dense, |dense|) + [] == KeptIds(dense, |dense|);
    } else {
      var before, row := WithLexical(k, WithDense(k, dense, |dense|), lexical, n - 1), lexical[n - 1];
      var known, ids := KeptIds(dense, |dense|), KeptIds(lexical, n - 1);
      LexicalInOrder(k, dense, lexical, n - 1);
      if row.matches {
        LexicalIsAccurate(k, dense, lexical, n - 1);
        RowGains(k, lexical, n);
        KeptIdsAreKept(dense, |dense|, row.id);
        assert Present(before, row.id) <==> row.id in known;
        OrderStep(k, before, row, n, known, ids);
      } else {
        assert KeptIds(lexical, n) == ids;
      }
    }
  }

  /**
   Both legs combined: the ids the dense leg kept and then the new ones of the lexical leg,
   each with the sum of 1 / (k + rank) over the legs that kept it and with its row.
   */
  ghost predicate AreCombined(k: nat, dense: seq<Row>, lexical: seq<Row>, all: Ranked) {
    var known := KeptIds(dense, |dense|);
    && IdsOf(all) == known + NewIds(KeptIds(lexical, |lexical|), known)
    && (forall e | e in all ::
          && CarriesRow(e, dense, |dense|, lexical, |lexical|)
          && e.score == Share(k, dense, |dense|, e.item.id) + Share(k, lexical, |lexical|, e.item.id))
  }

  lemma FusedAreCombined(k: nat, dense: seq<Row>, lexical: seq<Row>)
    requires DistinctIds(dense) && DistinctIds(lexical)
    ensures AreCombined(k, dense, lexical, Fused(k, dense, lexical))
  {
    FusedScores(k, dense, lexical);
    LexicalInOrder(k, dense, lexical, |lexical|);
  }

  /** Swapping the legs changes no score. */
  lemma LegsCommute(k: nat, dense: seq<Row>, lexical: seq<Row>, e: Scored<Row>)
    requires DistinctIds(dense) && DistinctIds(lexical) && e in Fused(k, dense, lexical)
    ensures exists f :: f in Fused(k, lexical, dense) && f.item.id == e.item.id && f.score == e.score
  {
    FusedScores(k, dense, lexical);
    FusedScores(k, lexical, dense);
    var id := e.item.id;
    PresentMembers(Fused(k, dense, lexical), id);
    PresentMembers(Fused(k, lexical, dense), id);
    assert Present(Fused(k, dense, lexical), id);
    assert Present(Fused(k, lexical, dense), id);
    var f :| f in Fused(k, lexical, dense) && f.item.id == id;
  }

  // ---------------------------------------------------------------- dominance

  /** The leg ranks the id here, counting from one. */
  predicate RankIs(rows: seq<Row>, id: string, rank: nat) {
    0 < rank <= |rows| && rows[rank - 1].id == id && rows[rank - 1].matches
  }

  /** The leg kept `a`, and not `b` or `b` further down. */
  ghost predicate Better(rows: seq<Row>, a: string, b: string) {
    && Kept(rows, |rows|, a)
    && forall i, j :: RankIs(rows, a, i) && RankIs(rows, b, j) ==> i < j
  }

  /** The leg kept `b` only if it kept `a` at least as high. */
  ghost predicate NoWorse(rows: seq<Row>, a: string, b: string) {
    && (Kept(rows, |rows|, b) ==> Kept(rows, |rows|, a))
    && forall i, j :: RankIs(rows, a, i) && RankIs(rows, b, j) ==> i <= j
  }

  lemma {:induction false} ShareIsWeight(k: nat, rows: seq<Row>, n: nat, id: string) returns (rank: nat)
    requires DistinctIds(rows) && n <= |rows| && Kept(rows, n, id)
    ensures 0 < rank <= n && RankIs(rows, id, rank) && Share(k, rows, n, id) == Weight(k, rank)
  {
    if rows[n - 1].id == id && rows[n - 1].matches {
      rank := n;
    } else {
      rank := ShareIsWeight(k, rows, n - 1, id);
    }
  }

  lemma InversesDecrease(x: real, y: real)
    requires 0.0 < x <= y
    ensures 1.0 / x >= 1.0 / y > 0.0 && (x < y ==> 1.0 / x > 1.0 / y)
  {
    var a, b := 1.0 / x, 1.0 / y;
    assert a * x == 1.0 && b * y == 1.0;
    assert a - b == (a * b) * (y - x) by {
      assert (a * b) * (y - x) == a * (b * y) - b * (a * x);
    }
  }

  lemma WeightsDecrease(k: nat, i: nat, j: nat)
    requires 0 < i <= j
    ensures Weight(k, i) >= Weight(k, j) > 0.0 && (i < j ==> Weight(k, i) > Weight(k, j))
  {
    InversesDecrease((k + i) as real, (k + j) as real);
  }

  lemma SharesCompare(k: nat, rows: seq<Row>, a: string, b: string)
    requires DistinctIds(rows)
    ensures NoWorse(rows, a, b) ==> Share(k, rows, |rows|, a) >= Share(k, rows, |rows|, b)
    ensures Better(rows, a, b) ==> Share(k, rows, |rows|, a) > Share(k, rows, |rows|, b)
  {
    if Kept(rows, |rows|, a) {
      var i := ShareIsWeight(k, rows, |rows|, a);
      WeightsDecrease(k, i, i);
      if Kept(rows, |rows|, b) {
        var j := ShareIsWeight(k, rows, |rows|, b);
        if i <= j {
          WeightsDecrease(k, i, j);
        }
      } else {
        NotKeptNoShare(k, rows, |rows|, b);
      }
    } else {
      NotKeptNoShare(k, rows, |rows|, a);
      if !Kept(rows, |rows|, b) {
        NotKeptNoShare(k, rows, |rows|, b);
      }
    }
  }

  /**
   A candidate that one leg places higher and the other no lower is never placed after the
   other, and never dropped in its favour.
   */
  lemma DominanceHolds(k: nat, dense: seq<Row>, lexical: seq<Row>, topK: nat, a: string, b: string, i: nat)
    requires DistinctIds(dense) && DistinctIds(lexical)
    requires || (Better(dense, a, b) && NoWorse(lexical, a, b))
             || (NoWorse(dense, a, b) && Better(lexical, a, b))
    requires i < |Take(SortDesc(Fused(k, dense, lexical)), topK)|
    requires Take(SortDesc(Fused(k, dense, lexical)), topK)[i].item.id == b
    ensures exists j | 0 <= j < i :: Take(SortDesc(Fused(k, dense, lexical)), topK)[j].item.id == a
  {
    var fused := Fused(k, dense, lexical);
    var best := Take(SortDesc(fused), topK);
    FusedScores(k, dense, lexical);
    SharesCompare(k, dense, a, b);
    SharesCompare(k, lexical, a, b);
    PresentMembers(fused, a);
    var x :| x in fused && x.item.id == a;
    SortIsDescending(fused);
    assert SortDesc(fused)[i] in multiset(SortDesc(fused)) && best[i] in multiset(fused);
    HigherComesFirst(fused, topK, x, i);
    var j :| 0 <= j < i && best[..i][j] == x;
    assert best[j].item.id == a;
  }

  // ---------------------------------------------------------------- rerank, gate and take

  /** A reranker score; anything that is not a finite number is refused. */
  datatype RawScore = Number(value: real) | NotFinite

  datatype Status = Complete | Partial | NoResults | QualityGateFailed

  datatype Response = Response(status: Status, evidences: Ranked)

  datatype Error = WrongScoreCount | BadScore

  function Rescored(candidates: Ranked, scores: seq<RawScore>): Ranked
    requires |candidates| == |scores|
  {
    if candidates == [] then []
    else
      var n := |candidates| - 1;
      Rescored(candidates[..n], scores[..n])
      + [Scored(candidates[n].item, if scores[n].Number? then scores[n].value else 0.0)]
  }

  function Gated(scored: Ranked, gate: Option<real>): Ranked {
    if scored == [] then []
    else
      var before, last := Gated(scored[..|scored| - 1], gate), scored[|scored| - 1];
      if gate.Some? && last.score < gate.value then before else before + [last]
  }

  /** Sorting and cutting the fused ranking again before the rerank leaves it as it is. */
  lemma SecondSortIsHarmless(k: nat, dense: seq<Row>, lexical: seq<Row>, n: nat)
    ensures var best := Take(SortDesc(Fused(k, dense, lexical)), n);
            Take(SortDesc(best), n) == best
  {
    var sorted := SortDesc(Fused(k, dense, lexical));
    SortIsDescending(Fused(k, dense, lexical));
    SortAgain(Take(sorted, n));
  }

  lemma {:induction false} GatedKeeps(scored: Ranked, gate: Option<real>, e: Scored<Row>)
    ensures e in Gated(scored, gate) <==> e in scored && (gate.Some? ==> e.score >= gate.value)
  {
    if scored != [] {
      GatedKeeps(scored[..|scored| - 1], gate, e);
      assert scored == scored[..|scored| - 1] + [scored[|scored| - 1]];
    }
  }

  /**
   The evidences are in descending order and pass the gate, and a candidate that passes the
   gate but is left out scores no more than any of them.
   */
  lemma EvidencesAreBest(scored: Ranked, gate: Option<real>, topK: nat, e: Scored<Row>)
    requires e in scored && (gate.Some? ==> e.score >= gate.value)
    ensures var evidences := Take(SortDesc(Gated(scored, gate)), topK);
            && Descending(evidences)
            && (forall y | y in evidences :: y in scored && (gate.Some? ==> y.score >= gate.value))
            && (e in evidences || forall y | y in evidences :: y.score >= e.score)
  {
    var kept := Gated(scored, gate);
    GatedKeeps(scored, gate, e);
    BestAreTaken(kept, topK, e);
    forall y | y in Take(SortDesc(kept), topK) ensures y in scored && (gate.Some? ==> y.score >= gate.value) {
      GatedKeeps(scored, gate, y);
    }
  }

  /** The gate fails a search exactly when no reranked candidate reaches the threshold. */
  lemma {:induction false} GateFailsIff(scored: Ranked, gate: Option<real>)
    ensures Gated(scored, gate) == []
            <==> forall e | e in scored :: gate.Some? && e.score < gate.value
  {
    var kept := Gated(scored, gate);
    forall e | e in scored ensures e in kept <==> !(gate.Some? && e.score < gate.value) {
      GatedKeeps(scored, gate, e);
    }
    if kept != [] {
      GatedKeeps(scored, gate, kept[0]);
    }
  }

  predicate AllFinite(scores: seq<RawScore>) {
    forall i | 0 <= i < |scores| :: scores[i].Number?
  }

  predicate Passes(gate: Option<real>, score: real) {
    gate.Some? ==> score >= gate.value
  }

  predicate NonePasses(scores: seq<RawScore>, gate: Option<real>)
    requires AllFinite(scores)
  {
    forall i | 0 <= i < |scores| :: !Passes(gate, scores[i].value)
  }

  /** An evidence is a candidate with its new score, and passes the gate. */
  predicate IsScored(candidates: Ranked, scores: seq<RawScore>, gate: Option<real>, y: Scored<Row>)
    requires |candidates| == |scores| && AllFinite(scores)
  {
    Passes(gate, y.score) && exists i | 0 <= i < |scores| :: y == Scored(candidates[i].item, scores[i].value)
  }

  /** Each candidate with the score the reranker gave it. */
  function AllScored(candidates: Ranked, scores: seq<RawScore>): Ranked
    requires |candidates| == |scores| && AllFinite(scores)
  {
    seq(|scores|, i requires 0 <= i < |scores| => Scored(candidates[i].item, scores[i].value))
  }

  /**
   At most `topK` different candidates with their new scores, the highest that pass the
   gate, in descending order; ties stay in candidate order.
   */
  ghost predicate AreBest(candidates: Ranked, scores: seq<RawScore>, gate: Option<real>, topK: nat, evidences: Ranked)
    requires |candidates| == |scores| && AllFinite(scores)
  {
    && |evidences| <= topK && Descending(evidences)
    && multiset(evidences) <= multiset(AllScored(candidates, scores))
    && (forall v :: WithScore(evidences, v) <= WithScore(AllScored(candidates, scores), v))
    && (forall y | y in evidences :: IsScored(candidates, scores, gate, y))
    && (forall i | 0 <= i < |scores| && Passes(gate, scores[i].value) ::
          || Scored(candidates[i].item, scores[i].value) in evidences
          || (|evidences| == topK && forall y | y in evidences :: y.score >= scores[i].value))
  }

  lemma {:induction false} RescoredAt(candidates: Ranked, scores: seq<RawScore>)
    requires |candidates| == |scores| && AllFinite(scores)
    ensures |Rescored(candidates, scores)| == |scores|
    ensures forall i | 0 <= i < |scores| ::
              Rescored(candidates, scores)[i] == Scored(candidates[i].item, scores[i].value)
  {
    if candidates != [] {
      var n := |candidates| - 1;
      RescoredAt(candidates[..n], scores[..n]);
    }
  }

  lemma ShortTakeIsAll(s: Ranked, n: nat, x: Scored<Row>)
    requires x in s && |Take(SortDesc(s), n)| < n
    ensures x in Take(SortDesc(s), n)
  {
    SortIsDescending(s);
    assert x in multiset(s) && x in multiset(SortDesc(s));
  }

  lemma EvidenceIsScored(candidates: Ranked, scores: seq<RawScore>, gate: Option<real>, topK: nat, y: Scored<Row>)
    requires |candidates| == |scores| && AllFinite(scores)
    requires y in Take(SortDesc(Gated(Rescored(candidates, scores), gate)), topK)
    ensures IsScored(candidates, scores, gate, y)
  {
    var scored := Rescored(candidates, scores);
    var kept := Gated(scored, gate);
    RescoredAt(candidates, scores);
    SortIsDescending(kept);
    assert y in multiset(SortDesc(kept)) && y in kept;
    GatedKeeps(scored, gate, y);
    var i :| 0 <= i < |scored| && scored[i] == y;
  }

  lemma NothingBetterIsLeft(candidates: Ranked, scores: seq<RawScore>, gate: Option<real>, topK: nat, i: nat)
    requires |candidates| == |scores| && AllFinite(scores) && i < |scores| && Passes(gate, scores[i].value)
    ensures var evidences := Take(SortDesc(Gated(Rescored(candidates, scores), gate)), topK);
            || Scored(candidates[i].item, scores[i].value) in evidences
            || (|evidences| == topK && forall y | y in evidences :: y.score >= scores[i].value)
  {
    var scored := Rescored(candidates, scores);
    RescoredAt(candidates, scores);
    assert scored[i] in scored;
    GatedKeeps(scored, gate, scored[i]);
    EvidencesAreBest(scored, gate, topK, scored[i]);
    if |Take(SortDesc(Gated(scored, gate)), topK)| < topK {
      ShortTakeIsAll(Gated(scored, gate), topK, scored[i]);
    }
  }

  lemma GateFailsWhenNonePasses(candidates: Ranked, scores: seq<RawScore>, gate: Option<real>)
    requires |candidates| == |scores| && AllFinite(scores)
    ensures Gated(Rescored(candidates, scores), gate) == [] <==> NonePasses(scores, gate)
  {
    var scored := Rescored(candidates, scores);
    RescoredAt(candidates, scores);
    GateFailsIff(scored, gate);
    forall i | 0 <= i < |scores| ensures scored[i] in scored && scored[i].score == scores[i].value {
    }
  }

  /** What the stage answers for these candidates and scores. */
  ghost predicate IsAnswer(candidates: Ranked, scores: seq<RawScore>, gate: Option<real>, topK: nat,
                           r: Result<Response, Error>) {
    if candidates == [] then r == Ok(Response(NoResults, []))
    else if |scores| != |candidates| || !AllFinite(scores) then r.Err?
    else
      && r.Ok? && AreBest(candidates, scores, gate, topK, r.value.evidences)
      && (r.value.status == QualityGateFailed <==> NonePasses(scores, gate))
      && (r.value.status == Complete <==> !NonePasses(scores, gate) && |r.value.evidences| == topK)
      && (r.value.status == Partial <==> !NonePasses(scores, gate) && |r.value.evidences| < topK)
  }

  /** The response to reranked candidates. */
  function Respond(scored: Ranked, gate: Option<real>, topK: nat): Response {
    var kept := Gated(scored, gate);
    var evidences := Take(SortDesc(kept), topK);
    if kept == [] then Response(QualityGateFailed, [])
    else Response(if |evidences| >= topK then Complete else Partial, evidences)
  }

  lemma {:induction false} GatedIsPart(scored: Ranked, gate: Option<real>)
    ensures multiset(Gated(scored, gate)) <= multiset(scored)
  {
    if scored != [] {
      GatedIsPart(scored[..|scored| - 1], gate);
      assert scored == scored[..|scored| - 1] + [scored[|scored| - 1]];
    }
  }

  lemma {:induction false} GatedKeepsTies(scored: Ranked, gate: Option<real>, v: real)
    ensures WithScore(Gated(scored, gate), v) == if Passes(gate, v) then WithScore(scored, v) else []
  {
    if scored != [] {
      var before, last := scored[..|scored| - 1], scored[|scored| - 1];
      GatedKeepsTies(before, gate, v);
      WithScoreAppend(before, last, v);
      WithScoreAppend(Gated(before, gate), last, v);
      assert scored == before + [last];
    }
  }

  /** What is taken are different candidates, and those that tie in candidate order. */
  lemma EvidencesAreDifferent(candidates: Ranked, scores: seq<RawScore>, gate: Option<real>, topK: nat)
    requires |candidates| == |scores| && AllFinite(scores)
    ensures var evidences := Take(SortDesc(Gated(Rescored(candidates, scores), gate)), topK);
            && multiset(evidences) <= multiset(AllScored(candidates, scores))
            && forall v :: WithScore(evidences, v) <= WithScore(AllScored(candidates, scores), v)
  {
    var scored := Rescored(candidates, scores);
    var kept := Gated(scored, gate);
    RescoredAt(candidates, scores);
    assert scored == AllScored(candidates, scores);
    GatedIsPart(scored, gate);
    SortIsDescending(kept);
    TakeIsPart(SortDesc(kept), topK);
    forall v ensures WithScore(Take(SortDesc(kept), topK), v) <= WithScore(scored, v) {
      GatedKeepsTies(scored, gate, v);
      SortIsStable(kept, v);
      TakeKeepsTies(SortDesc(kept), topK, v);
    }
  }

  lemma RespondAnswers(candidates: Ranked, scores: seq<RawScore>, gate: Option<real>, topK: nat)
    requires |candidates| == |scores| && AllFinite(scores) && candidates != []
    ensures IsAnswer(candidates, scores, gate, topK, Ok(Respond(Rescored(candidates, scores), gate, topK)))
  {
    var kept := Gated(Rescored(candidates, scores), gate);
    var evidences := Take(SortDesc(kept), topK);
    GateFailsWhenNonePasses(candidates, scores, gate);
    SortIsDescending(kept);
    EvidencesAreDifferent(candidates, scores, gate, topK);
    forall y | y in evidences ensures IsScored(candidates, scores, gate, y) {
      EvidenceIsScored(candidates, scores, gate, topK, y);
    }
    forall i | 0 <= i < |scores| && Passes(gate, scores[i].value)
      ensures || Scored(candidates[i].item, scores[i].value) in evidences
              || (|evidences| == topK && forall y | y in evidences :: y.score >= scores[i].value)
    {
      NothingBetterIsLeft(candidates, scores, gate, topK, i);
    }
  }

  /** The candidates with their new scores, unless one is no finite number. */
  method Rescore(candidates: Ranked, scores: seq<RawScore>) returns (scored: Option<Ranked>)
    requires |candidates| == |scores|
    ensures scored == if AllFinite(scores) then Some(Rescored(candidates, scores)) else None
  {
    var entries: Ranked := [];
    for i := 0 to |scores|
      invariant entries == Rescored(candidates[..i], scores[..i])
      invariant AllFinite(scores[..i])
    {
      if scores[i].NotFinite? {
        return None;
      }
      assert candidates[..i + 1][..i] == candidates[..i] && scores[..i + 1][..i] == scores[..i];
      entries := entries + [Scored(candidates[i].item, scores[i].value)];
    }
    assert candidates[..|scores|] == candidates && scores[..|scores|] == scores;
    return Some(entries);
  }

  /**
   The whole stage after fusion; `gate` is the threshold when the quality gate applies. It
   fails only for a wrong number of scores or a score that is no finite number.
   */
  method Rerank(fused: Ranked, scores: seq<RawScore>, gate: Option<real>, topK: nat) returns (r: Result<Response, Error>)
    ensures var candidates := Take(SortDesc(fused), if topK * 4 > topK then topK * 4 else topK);
            && IsAnswer(candidates, scores, gate, topK, r)
            && (r.Err? ==> r.error == if |scores| != |candidates| then WrongScoreCount else BadScore)
            && (r.Ok? && candidates != [] ==> r.value == Respond(Rescored(candidates, scores), gate, topK))
  {
    var candidates := Take(SortDesc(fused), if topK * 4 > topK then topK * 4 else topK);
    if candidates == [] {
      return Ok(Response(NoResults, []));
    }
    if |scores| != |candidates| {
      return Err(WrongScoreCount);
    }
    var scored := Rescore(candidates, scores);
    if scored.None? {
      return Err(BadScore);
    }
    RespondAnswers(candidates, scores, gate, topK);
    return Ok(Respond(scored.value, gate, topK));
  }
}
