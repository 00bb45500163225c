/**
 Putting the rows of a provider's answer back in request order by the index each row names.
 Embedding and reranking fill their slots the same way and differ in how a row is read.
 */
module Batches {
  import opened Options

  /** A JSON number: finite, or not a number the service accepts. */
  datatype Number = Finite(value: real) | NonFinite | NotANumber

  /** A row of the answer; an index that is no integer and a payload that is no list are absent. */
  datatype Row = NotAnObject | Row(index: Option<int>, payload: Option<seq<Number>>)

  datatype Error = Incomplete | InvalidRow | InvalidIndex | DuplicateIndex | InvalidPayload | NotNumeric | NotFinite
                 | InconsistentDimensions

  type Vector = seq<real>

  // ---------------------------------------------------------------- reading one row

  function Values(numbers: seq<Number>): (values: Vector)
    ensures |values| == |numbers|
    ensures forall i | 0 <= i < |values| && numbers[i].Finite? :: values[i] == numbers[i].value
  {
    seq(|numbers|, i requires 0 <= i < |numbers| => if numbers[i].Finite? then numbers[i].value else 0.0)
  }

  /** Refuses what is not a number first, then what is not finite. */
  function ValidatedNumbers(numbers: seq<Number>): (r: Result<Vector, Error>)
    ensures r.Ok? <==> forall i | 0 <= i < |numbers| :: numbers[i].Finite?
  {
    if exists i | 0 <= i < |numbers| :: numbers[i].NotANumber? then Err(NotNumeric)
    else if exists i | 0 <= i < |numbers| :: numbers[i].NonFinite? then Err(NotFinite)
    else
      assert forall i | 0 <= i < |numbers| :: !numbers[i].NotANumber? && !numbers[i].NonFinite?;
      Ok(Values(numbers))
  }

  /** An embedding row carries a vector that is not empty. */
  function ReadVector(row: Row): Result<Vector, Error> {
    if row.NotAnObject? || row.payload.None? || row.payload.value == [] then Err(InvalidPayload)
    else ValidatedNumbers(row.payload.value)
  }

  /** A rerank row carries one score. */
  function ReadScore(row: Row): Result<Vector, Error> {
    if row.NotAnObject? || row.payload.None? || |row.payload.value| != 1 then Err(NotNumeric)
    else ValidatedNumbers(row.payload.value)
  }

  type Reader = Row -> Result<Vector, Error>

  // ---------------------------------------------------------------- what an answer must be

  predicate InRange(row: Row, count: nat) {
    row.Row? && row.index.Some? && 0 <= row.index.value < count
  }

  predicate RowOk(row: Row, count: nat, read: Reader) {
    InRange(row, count) && read(row).Ok?
  }

  predicate RowsOk(rows: seq<Row>, count: nat, read: Reader) {
    forall i | 0 <= i < |rows| :: RowOk(rows[i], count, read)
  }

  predicate IndexesDiffer(rows: seq<Row>, count: nat) {
    forall i, j | 0 <= i < j < |rows| && InRange(rows[i], count) && InRange(rows[j], count) ::
      rows[i].index != rows[j].index
  }

  predicate Acceptable(rows: seq<Row>, count: nat, read: Reader) {
    |rows| == count && RowsOk(rows, count, read) && IndexesDiffer(rows, count)
  }

  /** Slot `i` of the output is what the row that named `i` carries. */
  predicate Reassembles(rows: seq<Row>, out: seq<Vector>, read: Reader) {
    forall j | 0 <= j < |rows| && RowOk(rows[j], |out|, read) :: out[rows[j].index.value] == read(rows[j]).value
  }

  /** The error the row at `n` raises, given the rows before it. */
  function RowError(rows: seq<Row>, n: nat, count: nat, read: Reader): Option<Error>
    requires n < |rows|
  {
    var row := rows[n];
    if row.NotAnObject? then Some(InvalidRow)
    else if !InRange(row, count) then Some(InvalidIndex)
    else if exists j | 0 <= j < n :: InRange(rows[j], count) && rows[j].index == row.index then Some(DuplicateIndex)
    else if read(row).Err? then Some(read(row).error)
    else None
  }

  // ---------------------------------------------------------------- pigeonhole

  function Named(rows: seq<Row>, count: nat): set<int> {
    set j | 0 <= j < |rows| && InRange(rows[j], count) :: rows[j].index.value
  }

  lemma {:induction false} DistinctIndexesCount(rows: seq<Row>, count: nat)
    requires IndexesDiffer(rows, count) && forall i | 0 <= i < |rows| :: InRange(rows[i], count)
    ensures |Named(rows, count)| == |rows|
  {
    if rows != [] {
      var before, last := rows[..|rows| - 1], rows[|rows| - 1];
      DistinctIndexesCount(before, count);
      assert Named(rows, count) == Named(before, count) + {last.index.value};
    }
  }

  lemma {:induction false} SubsetOfRange(s: set<int>, n: nat)
    requires forall x | x in s :: 0 <= x < n
    ensures |s| <= n
    ensures |s| == n ==> forall k | 0 <= k < n :: k in s
  {
    if n > 0 {
      var t := s - {n - 1};
      SubsetOfRange(t, n - 1);
      if n - 1 in s {
        assert s == t + {n - 1};
      } else {
        assert s == t;
      }
    } else {
      assert forall x :: x !in s;
      assert s == {};
    }
  }

  /** As many rows as slots, in range and without repetition, name every slot. */
  lemma EverySlotIsNamed(rows: seq<Row>, count: nat, k: nat)
    requires |rows| == count && IndexesDiffer(rows, count) && k < count
    requires forall i | 0 <= i < |rows| :: InRange(rows[i], count)
    ensures exists j | 0 <= j < |rows| :: rows[j].Row? && rows[j].index == Some(k)
  {
    DistinctIndexesCount(rows, count);
    SubsetOfRange(Named(rows, count), count);
    assert k in Named(rows, count);
    var j :| 0 <= j < |rows| && InRange(rows[j], count) && rows[j].index.value == k;
    assert rows[j].index == Some(k);
  }

  /** At most one output fits an acceptable answer. */
  lemma OutputIsUnique(rows: seq<Row>, count: nat, read: Reader, a: seq<Vector>, b: seq<Vector>)
    requires Acceptable(rows, count, read) && |a| == |b| == count
    requires Reassembles(rows, a, read) && Reassembles(rows, b, read)
    ensures a == b
  {
    forall k | 0 <= k < count ensures a[k] == b[k] {
      EverySlotIsNamed(rows, count, k);
      var j :| 0 <= j < |rows| && rows[j].index == Some(k);
      assert RowOk(rows[j], count, read);
    }
  }

  // ---------------------------------------------------------------- order does not matter

  lemma {:induction false} TwoPlaces<T>(s: seq<T>, x: T)
    ensures multiset(s)[x] >= 1 <==> exists i | 0 <= i < |s| :: s[i] == x
    ensures multiset(s)[x] >= 2 <==> exists i, j | 0 <= i < j < |s| :: s[i] == x && s[j] == x
  {
    if s != [] {
      var before, last := s[..|s| - 1], s[|s| - 1];
      TwoPlaces(before, x);
      assert s == before + [last];
      assert multiset(s)[x] == multiset(before)[x] + if last == x then 1 else 0;
      if last == x && multiset(before)[x] >= 1 {
        var i :| 0 <= i < |before| && before[i] == x;
        assert s[i] == x && s[|s| - 1] == x;
      }
      if multiset(before)[x] >= 2 {
        var i, j :| 0 <= i < j < |before| && before[i] == x && before[j] == x;
        assert s[i] == x && s[j] == x;
      }
    }
  }

  lemma SameRows(rows: seq<Row>, others: seq<Row>, count: nat, read: Reader)
    requires multiset(rows) == multiset(others) && Acceptable(rows, count, read)
    ensures Acceptable(others, count, read)
  {
    assert |others| == |multiset(others)| == |multiset(rows)| == |rows|;
    forall i | 0 <= i < |others| ensures RowOk(others[i], count, read) {
      assert others[i] in multiset(others);
      TwoPlaces(rows, others[i]);
    }
    forall i, j | 0 <= i < j < |others| ensures others[i].index != others[j].index {
      Elsewhere(rows, others, i, j);
    }
  }

  /** Two rows of one order stand at two places of the other. */
  lemma Elsewhere(rows: seq<Row>, others: seq<Row>, i: nat, j: nat)
    requires multiset(rows) == multiset(others) && i < j < |others|
    ensures exists p, q | 0 <= p < |rows| && 0 <= q < |rows| :: p != q && rows[p] == others[i] && rows[q] == others[j]
  {
    TwoPlaces(rows, others[i]);
    TwoPlaces(rows, others[j]);
    TwoPlaces(others, others[i]);
    assert others[i] in multiset(others) && others[j] in multiset(others);
    if others[i] == others[j] {
      var x, y :| 0 <= x < y < |rows| && rows[x] == others[i] && rows[y] == others[i];
      assert x != y && rows[x] == others[i] && rows[y] == others[j];
    } else {
      var x :| 0 <= x < |rows| && rows[x] == others[i];
      var y :| 0 <= y < |rows| && rows[y] == others[j];
      assert x != y && rows[x] == others[i] && rows[y] == others[j];
    }
  }

  /** The same rows in another order are accepted too, and give the same output. */
  lemma OrderDoesNotMatter(rows: seq<Row>, others: seq<Row>, count: nat, read: Reader, a: seq<Vector>, b: seq<Vector>)
    requires multiset(rows) == multiset(others) && Acceptable(rows, count, read) && |a| == |b| == count
    requires Reassembles(rows, a, read) && Reassembles(others, b, read)
    ensures Acceptable(others, count, read) && a == b
  {
    SameRows(rows, others, count, read);
    forall j | 0 <= j < |rows| ensures RowOk(rows[j], |b|, read) && b[rows[j].index.value] == read(rows[j]).value {
      assert RowOk(rows[j], count, read) && rows[j] in multiset(rows);
      TwoPlaces(others, rows[j]);
      var i :| 0 <= i < |others| && others[i] == rows[j];
    }
    OutputIsUnique(rows, count, read, a, b);
  }

  // ---------------------------------------------------------------- the code

  lemma ErrorMeansUnacceptable(rows: seq<Row>, n: nat, count: nat, read: Reader)
    requires n < |rows| && RowError(rows, n, count, read).Some?
    ensures !Acceptable(rows, count, read)
  {
    if RowsOk(rows, count, read) {
      assert RowOk(rows[n], count, read);
    }
  }

  /** Fills one slot per row; the check for slots left empty is an assertion, since it cannot fail. */
  method FillSlots(rows: seq<Row>, count: nat, read: Reader) returns (r: Result<seq<Vector>, Error>)
    requires |rows| == count
    ensures r.Ok? <==> Acceptable(rows, count, read)
    ensures r.Ok? ==> |r.value| == count && Reassembles(rows, r.value, read)
    ensures r.Err? ==> exists n | 0 <= n < count ::
                         RowError(rows, n, count, read) == Some(r.error)
                         && forall i | 0 <= i < n :: RowError(rows, i, count, read) == None
  {
    var slots := new Option<Vector>[count](_ => None);
    for n := 0 to count
      invariant forall i | 0 <= i < n :: RowError(rows, i, count, read) == None
      invariant forall i | 0 <= i < n :: RowOk(rows[i], count, read)
      invariant forall i, j | 0 <= i < j < n :: rows[i].index != rows[j].index
      invariant forall i | 0 <= i < n :: slots[rows[i].index.value] == Some(read(rows[i]).value)
      invariant forall k | 0 <= k < count && slots[k].Some? :: exists i | 0 <= i < n :: rows[i].index == Some(k)
    {
      var row := rows[n];
      if row.NotAnObject? {
        assert RowError(rows, n, count, read) == Some(InvalidRow);
        ErrorMeansUnacceptable(rows, n, count, read);
        return Err(InvalidRow);
      }
      if row.index.None? || !(0 <= row.index.value < count) {
        assert RowError(rows, n, count, read) == Some(InvalidIndex);
        ErrorMeansUnacceptable(rows, n, count, read);
        return Err(InvalidIndex);
      }
      if slots[row.index.value].Some? {
        assert RowError(rows, n, count, read) == Some(DuplicateIndex);
        ErrorMeansUnacceptable(rows, n, count, read);
        return Err(DuplicateIndex);
      }
      var vector := read(row);
      if vector.Err? {
        assert RowError(rows, n, count, read) == Some(vector.error);
        ErrorMeansUnacceptable(rows, n, count, read);
        return Err(vector.error);
      }
      slots[row.index.value] := Some(vector.value);
    }
    forall k | 0 <= k < count ensures slots[k].Some? {
      EverySlotIsNamed(rows, count, k);
      var j :| 0 <= j < |rows| && rows[j].index == Some(k);
    }
    var completed: seq<Vector> := seq(count, k requires 0 <= k < count reads slots => slots[k].GetOr([]));
    return Ok(completed);
  }

  /** All rows carry vectors of one length. */
  predicate DimensionsAgree(rows: seq<Row>, count: nat)
    requires Acceptable(rows, count, ReadVector)
  {
    forall i, j | 0 <= i < |rows| && 0 <= j < |rows|
                  && RowOk(rows[i], count, ReadVector) && RowOk(rows[j], count, ReadVector) ::
      |ReadVector(rows[i]).value| == |ReadVector(rows[j]).value|
  }

  lemma SlotsAgreeIff(rows: seq<Row>, count: nat, out: seq<Vector>)
    requires Acceptable(rows, count, ReadVector) && |out| == count > 0 && Reassembles(rows, out, ReadVector)
    ensures DimensionsAgree(rows, count) <==> forall k | 0 <= k < count :: |out[k]| == |out[0]|
  {
    if DimensionsAgree(rows, count) {
      EverySlotIsNamed(rows, count, 0);
      var first :| 0 <= first < |rows| && rows[first].index == Some(0);
      assert RowOk(rows[first], count, ReadVector);
      forall k | 0 <= k < count ensures |out[k]| == |out[0]| {
        EverySlotIsNamed(rows, count, k);
        var j :| 0 <= j < |rows| && rows[j].index == Some(k);
        assert RowOk(rows[j], count, ReadVector);
      }
    }
  }

  /** `rows` is absent when the answer holds no list. */
  method EmbedDocuments(count: nat, rows: Option<seq<Row>>) returns (r: Result<seq<Vector>, Error>)
    ensures count == 0 ==> r == Ok([])
    ensures count > 0 && (rows.None? || |rows.value| != count) ==> r == Err(Incomplete)
    ensures count > 0 && rows.Some? && |rows.value| == count ==>
              (r.Ok? <==> Acceptable(rows.value, count, ReadVector) && DimensionsAgree(rows.value, count))
    ensures r.Ok? && count > 0 ==> |r.value| == count && Reassembles(rows.value, r.value, ReadVector)
  {
    if count == 0 {
      return Ok([]);
    }
    if rows.None? || |rows.value| != count {
      return Err(Incomplete);
    }
    r := FillSlots(rows.value, count, ReadVector);
    if r.Ok? {
      SlotsAgreeIff(rows.value, count, r.value);
      if exists i | 0 <= i < |r.value| :: |r.value[i]| != |r.value[0]| {
        return Err(InconsistentDimensions);
      }
    }
  }

  method Score(count: nat, rows: Option<seq<Row>>) returns (r: Result<seq<real>, Error>)
    ensures count == 0 ==> r == Ok([])
    ensures count > 0 && (rows.None? || |rows.value| != count) ==> r == Err(Incomplete)
    ensures count > 0 && rows.Some? && |rows.value| == count ==>
              (r.Ok? <==> Acceptable(rows.value, count, ReadScore))
    ensures r.Ok? && count > 0 ==>
              |r.value| == count
              && forall j | 0 <= j < count ::
                   RowOk(rows.value[j], count, ReadScore)
                   && ReadScore(rows.value[j]) == Ok([r.value[rows.value[j].index.value]])
  {
    if count == 0 {
      return Ok([]);
    }
    if rows.None? || |rows.value| != count {
      return Err(Incomplete);
    }
    var filled := FillSlots(rows.value, count, ReadScore);
    if filled.Err? {
      return Err(filled.error);
    }
    forall k | 0 <= k < count ensures |filled.value[k]| == 1 {
      EverySlotIsNamed(rows.value, count, k);
      var j :| 0 <= j < |rows.value| && rows.value[j].index == Some(k);
      assert RowOk(rows.value[j], count, ReadScore);
    }
    var scores := seq(count, k requires 0 <= k < count => filled.value[k][0]);
    forall j | 0 <= j < count
      ensures && RowOk(rows.value[j], count, ReadScore)
              && ReadScore(rows.value[j]) == Ok([scores[rows.value[j].index.value]])
    {
      var vector := filled.value[rows.value[j].index.value];
      assert RowOk(rows.value[j], count, ReadScore) && vector == [vector[0]];
    }
    return Ok(scores);
  }
}
