/** Stable sorting by descending score, and taking the best. */
module Ranking {
  datatype Scored<T> = Scored(item: T, score: real)

  /** Behind every element that scores at least as much. */
  function Insert<T>(x: Scored<T>, s: seq<Scored<T>>): seq<Scored<T>> {
    if s == [] then [x]
    else if s[0].score >= x.score then [s[0]] + Insert(x, s[1..])
    else [x] + s
  }

  /** `sorted(..., key=score, reverse=True)`, which keeps the order of equal scores. */
  function SortDesc<T>(s: seq<Scored<T>>): seq<Scored<T>> {
    if s == [] then [] else Insert(s[|s| - 1], SortDesc(s[..|s| - 1]))
  }

  function Take<T>(s: seq<T>, n: nat): (r: seq<T>)
    ensures |r| == if n < |s| then n else |s|
    ensures forall i | 0 <= i < |r| :: r[i] == s[i]
  {
    if n < |s| then s[..n] else s
  }

  predicate Descending<T>(s: seq<Scored<T>>) {
    forall i, j | 0 <= i < j < |s| :: s[i].score >= s[j].score
  }

  function WithScore<T>(s: seq<Scored<T>>, v: real): seq<Scored<T>> {
    if s == [] then []
    else if s[0].score == v then [s[0]] + WithScore(s[1..], v)
    else WithScore(s[1..], v)
  }

  lemma {:induction false} InsertMembers<T>(x: Scored<T>, s: seq<Scored<T>>)
    ensures multiset(Insert(x, s)) == multiset(s) + multiset{x}
  {
    if s != [] {
      InsertMembers(x, s[1..]);
      assert s == [s[0]] + s[1..];
    }
  }

  lemma ConsDescending<T>(x: Scored<T>, s: seq<Scored<T>>)
    requires Descending(s) && forall y | y in multiset(s) :: x.score >= y.score
    ensures Descending([x] + s)
  {
    forall i | 0 <= i < |s| ensures x.score >= s[i].score {
      assert s[i] in multiset(s);
    }
  }

  lemma {:induction false} InsertKeeps<T>(x: Scored<T>, s: seq<Scored<T>>)
    requires Descending(s)
    ensures Descending(Insert(x, s))
  {
    if s != [] {
      InsertMembers(x, s[1..]);
      if s[0].score >= x.score {
        InsertKeeps(x, s[1..]);
        ConsDescending(s[0], Insert(x, s[1..]));
      } else {
        ConsDescending(x, s);
      }
    }
  }

  /** Sorting is descending and loses and adds nothing. */
  lemma {:induction false} SortIsDescending<T>(s: seq<Scored<T>>)
    ensures Descending(SortDesc(s)) && multiset(SortDesc(s)) == multiset(s)
  {
    if s != [] {
      SortIsDescending(s[..|s| - 1]);
      InsertKeeps(s[|s| - 1], SortDesc(s[..|s| - 1]));
      InsertMembers(s[|s| - 1], SortDesc(s[..|s| - 1]));
      assert s == s[..|s| - 1] + [s[|s| - 1]];
    }
  }

  lemma {:induction false} WithScoreInsert<T>(x: Scored<T>, s: seq<Scored<T>>, v: real)
    requires Descending(s)
    ensures WithScore(Insert(x, s), v) == WithScore(s, v) + if x.score == v then [x] else []
  {
    if s == [] {
    } else if s[0].score >= x.score {
      WithScoreInsert(x, s[1..], v);
      assert ([s[0]] + Insert(x, s[1..]))[1..] == Insert(x, s[1..]);
    } else {
      assert ([x] + s)[1..] == s;
      if x.score == v {
        NoneLower(s, v);
      }
    }
  }

  lemma {:induction false} NoneLower<T>(s: seq<Scored<T>>, v: real)
    requires forall i | 0 <= i < |s| :: s[i].score < v
    ensures WithScore(s, v) == []
  {
    if s != [] {
      NoneLower(s[1..], v);
    }
  }

  lemma {:induction false} WithScoreAppend<T>(s: seq<Scored<T>>, x: Scored<T>, v: real)
    ensures WithScore(s + [x], v) == WithScore(s, v) + if x.score == v then [x] else []
  {
    if s == [] {
      assert [] + [x] == [x] && [x][1..] == [];
    } else {
      WithScoreAppend(s[1..], x, v);
      assert (s + [x])[1..] == s[1..] + [x];
    }
  }

  /** Candidates that tie stay in the order they came in. */
  lemma {:induction false} SortIsStable<T>(s: seq<Scored<T>>, v: real)
    ensures WithScore(SortDesc(s), v) == WithScore(s, v)
  {
    if s != [] {
      var before, last := s[..|s| - 1], s[|s| - 1];
      SortIsStable(before, v);
      SortIsDescending(before);
      WithScoreInsert(last, SortDesc(before), v);
      WithScoreAppend(before, last, v);
      assert s == before + [last];
    }
  }

  lemma {:induction false} InsertLast<T>(x: Scored<T>, s: seq<Scored<T>>)
    requires forall i | 0 <= i < |s| :: s[i].score >= x.score
    ensures Insert(x, s) == s + [x]
  {
    if s != [] {
      InsertLast(x, s[1..]);
      assert s == [s[0]] + s[1..];
    }
  }

  /** Sorting what is sorted changes nothing. */
  lemma {:induction false} SortAgain<T>(s: seq<Scored<T>>)
    requires Descending(s)
    ensures SortDesc(s) == s
  {
    if s != [] {
      SortAgain(s[..|s| - 1]);
      InsertLast(s[|s| - 1], s[..|s| - 1]);
    }
  }

  /** Nothing that was left out scores more than anything that was taken. */
  lemma BestAreTaken<T>(s: seq<Scored<T>>, n: nat, x: Scored<T>)
    requires x in s
    ensures var top := Take(SortDesc(s), n);
            && Descending(top)
            && (forall y | y in top :: y in s)
            && (x in top || forall y | y in top :: y.score >= x.score)
  {
    var sorted := SortDesc(s);
    var top := Take(sorted, n);
    SortIsDescending(s);
    assert x in multiset(s) && x in multiset(sorted);
    var i :| 0 <= i < |sorted| && sorted[i] == x;
    forall y | y in top ensures y in s {
      assert y in sorted && y in multiset(sorted) && y in multiset(s);
    }
    if n <= i {
      forall y | y in top ensures y.score >= x.score {
        var j :| 0 <= j < |top| && top[j] == y;
        assert sorted[j].score >= sorted[i].score;
      }
    } else {
      assert top[i] == x;
    }
  }

  lemma TakeIsPart<T>(s: seq<Scored<T>>, n: nat)
    ensures multiset(Take(s, n)) <= multiset(s)
  {
    if n < |s| {
      assert s == s[..n] + s[n..];
    }
  }

  lemma {:induction false} TakeKeepsTies<T>(s: seq<Scored<T>>, n: nat, v: real)
    ensures WithScore(Take(s, n), v) <= WithScore(s, v)
  {
    if 0 < n < |s| {
      TakeKeepsTies(s[1..], n - 1, v);
      assert Take(s, n)[1..] == Take(s[1..], n - 1);
    }
  }

  /** The `n` highest of `s`, highest first; nothing left out scores more, and ties stay in order. */
  ghost predicate AreHighest<T>(s: seq<Scored<T>>, n: nat, best: seq<Scored<T>>) {
    && |best| == (if n < |s| then n else |s|) && Descending(best)
    && multiset(best) <= multiset(s)
    && (forall x | x in s :: x in best || forall y | y in best :: y.score >= x.score)
    && (forall v :: WithScore(best, v) <= WithScore(s, v))
  }

  lemma HighestAreTaken<T>(s: seq<Scored<T>>, n: nat)
    ensures AreHighest(s, n, Take(SortDesc(s), n))
  {
    SortIsDescending(s);
    assert |multiset(SortDesc(s))| == |multiset(s)|;
    TakeIsPart(SortDesc(s), n);
    forall x | x in s ensures x in Take(SortDesc(s), n) || forall y | y in Take(SortDesc(s), n) :: y.score >= x.score {
      BestAreTaken(s, n, x);
    }
    forall v ensures WithScore(Take(SortDesc(s), n), v) <= WithScore(s, v) {
      SortIsStable(s, v);
      TakeKeepsTies(SortDesc(s), n, v);
    }
  }

  /** Whoever scores more comes first, and is not dropped in favour of the other. */
  lemma HigherComesFirst<T>(s: seq<Scored<T>>, n: nat, x: Scored<T>, i: nat)
    requires x in s && i < |Take(SortDesc(s), n)| && Take(SortDesc(s), n)[i].score < x.score
    ensures x in Take(SortDesc(s), n)[..i]
  {
    var sorted := SortDesc(s);
    SortIsDescending(s);
    assert x in multiset(s) && x in multiset(sorted);
    var j :| 0 <= j < |sorted| && sorted[j] == x;
    assert sorted[i].score < sorted[j].score;
    assert j < i;
    assert Take(sorted, n)[..i][j] == x;
  }
}
