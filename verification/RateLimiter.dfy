/**
 The in-memory sliding-window limiter. Each key keeps a list of accept times that every
 request prunes; the full accept history is kept beside it to say what pruning must not change.
 */
module RateLimiter {
  datatype Request = Request(ip: string, path: string, verb: string)

  const WINDOW: real := 60.0

  function Limit(r: Request): nat {
    if (r.path == "/api/auth/login" || r.path == "/api/auth/register") && r.verb == "POST" then 5
    else if r.path == "/api/auth/refresh" && r.verb == "POST" then 20
    else if r.path == "/api/chat" then 30
    else if r.path == "/api/materials" && r.verb == "POST" then 10
    else 100
  }

  function Key(r: Request): string {
    r.ip + ":" + r.path + ":" + r.verb
  }

  // ---------------------------------------------------------------- keys

  /** An address without a slash, a path that starts with one, a verb without a colon. */
  predicate WellFormed(r: Request) {
    && '/' !in r.ip
    && |r.path| > 0 && r.path[0] == '/'
    && ':' !in r.verb
  }

  /** In a key the first slash starts the path. */
  lemma FirstSlash(r: Request)
    requires WellFormed(r)
    ensures |Key(r)| > |r.ip| + 1 && Key(r)[|r.ip| + 1] == '/'
    ensures forall i | 0 <= i <= |r.ip| :: Key(r)[i] != '/'
  {
    forall i | 0 <= i < |r.ip| ensures Key(r)[i] != '/' {
      assert Key(r)[i] == r.ip[i] && r.ip[i] in r.ip;
    }
    assert Key(r)[|r.ip|] == ':';
  }

  /** In a key the last colon starts the verb. */
  lemma LastColon(r: Request)
    requires WellFormed(r)
    ensures var c := |Key(r)| - |r.verb| - 1; c >= 0 && Key(r)[c] == ':'
    ensures forall i | |Key(r)| - |r.verb| <= i < |Key(r)| :: Key(r)[i] != ':'
  {
    var c := |Key(r)| - |r.verb| - 1;
    assert c == |r.ip| + 1 + |r.path| && Key(r)[c] == ':';
    forall i | c < i < |Key(r)| ensures Key(r)[i] != ':' {
      assert Key(r)[i] == r.verb[i - c - 1] && r.verb[i - c - 1] in r.verb;
    }
  }

  /** No two requests share a bucket unless address, path and verb agree. */
  lemma KeysAreDistinct(a: Request, b: Request)
    requires WellFormed(a) && WellFormed(b) && Key(a) == Key(b)
    ensures a == b
  {
    var k := Key(a);
    FirstSlash(a);
    FirstSlash(b);
    LastColon(a);
    LastColon(b);
    assert |a.ip| == |b.ip| by {
      assert k[|a.ip| + 1] == '/' && k[|b.ip| + 1] == '/';
    }
    assert |a.verb| == |b.verb| by {
      assert k[|k| - |a.verb| - 1] == ':' && k[|k| - |b.verb| - 1] == ':';
    }
    var p, v := |a.ip| + 1, |k| - |a.verb|;
    assert a.ip == k[..p - 1] && b.ip == k[..p - 1];
    assert a.path == k[p..v - 1] && b.path == k[p..v - 1];
    assert a.verb == k[v..] && b.verb == k[v..];
  }

  // ---------------------------------------------------------------- windows

  function Recent(times: seq<real>, cutoff: real): seq<real> {
    if times == [] then []
    else
      var before, last := Recent(times[..|times| - 1], cutoff), times[|times| - 1];
      if last > cutoff then before + [last] else before
  }

  /** The accepts in (T - WINDOW, T]. */
  function CountIn(times: seq<real>, T: real): nat {
    if times == [] then 0
    else
      var last := times[|times| - 1];
      CountIn(times[..|times| - 1], T) + if T - WINDOW < last <= T then 1 else 0
  }

  /** Each accept came no earlier than those before it, and found fewer than `limit` in its window. */
  predicate Admitted(times: seq<real>, limit: nat) {
    times == [] || (
      var before, last := times[..|times| - 1], times[|times| - 1];
      && Admitted(before, limit)
      && (forall i | 0 <= i < |before| :: before[i] <= last)
      && |Recent(before, last - WINDOW)| < limit)
  }

  /** Pruning at an earlier time does not change what is recent now. */
  lemma {:induction false} PruningIsHarmless(times: seq<real>, earlier: real, cutoff: real)
    requires earlier <= cutoff
    ensures Recent(Recent(times, earlier), cutoff) == Recent(times, cutoff)
  {
    if times != [] {
      var before, last := times[..|times| - 1], times[|times| - 1];
      PruningIsHarmless(before, earlier, cutoff);
      if last > earlier {
        var kept := Recent(before, earlier);
        assert (kept + [last])[..|kept|] == kept;
      }
    }
  }

  lemma RecentAppend(times: seq<real>, now: real, cutoff: real)
    ensures Recent(times + [now], cutoff) == Recent(times, cutoff) + if now > cutoff then [now] else []
  {
    assert (times + [now])[..|times|] == times;
  }

  lemma {:induction false} CountIsRecent(times: seq<real>, cutoff: real, T: real)
    requires cutoff <= T - WINDOW
    ensures CountIn(times, T) <= |Recent(times, cutoff)|
  {
    if times != [] {
      CountIsRecent(times[..|times| - 1], cutoff, T);
    }
  }

  /** What pruning keeps at a time no accept comes after is exactly the window that ends there. */
  lemma {:induction false} RecentIsCounted(times: seq<real>, T: real)
    requires forall i | 0 <= i < |times| :: times[i] <= T
    ensures |Recent(times, T - WINDOW)| == CountIn(times, T)
  {
    if times != [] {
      RecentIsCounted(times[..|times| - 1], T);
    }
  }

  /** No window of any position ever holds more than `limit` accepts. */
  lemma {:induction false} WindowHolds(times: seq<real>, limit: nat, T: real)
    requires Admitted(times, limit)
    ensures CountIn(times, T) <= limit
  {
    if times != [] {
      var before, last := times[..|times| - 1], times[|times| - 1];
      if T - WINDOW < last <= T {
        CountIsRecent(before, last - WINDOW, T);
      } else {
        WindowHolds(before, limit, T);
      }
    }
  }

  // ---------------------------------------------------------------- the middleware

  /** Every accept of a key, the cutoff its list was last pruned at, and its limit. */
  datatype Book = Book(accepted: seq<real>, cutoff: real, limit: nat)

  /** The pruned list is what is recent of the whole history, and the history kept the limit. */
  predicate BookOk(times: seq<real>, book: Book, clock: real) {
    && times == Recent(book.accepted, book.cutoff)
    && book.cutoff <= clock - WINDOW
    && (forall i | 0 <= i < |book.accepted| :: book.accepted[i] <= clock)
    && Admitted(book.accepted, book.limit)
  }

  /** Pruning the list further leaves the book in order. */
  lemma PruneKeeps(times: seq<real>, book: Book, clock: real, now: real)
    requires BookOk(times, book, clock) && clock <= now
    ensures Recent(times, now - WINDOW) == Recent(book.accepted, now - WINDOW)
    ensures BookOk(Recent(times, now - WINDOW), book.(cutoff := now - WINDOW), now)
  {
    PruningIsHarmless(book.accepted, book.cutoff, now - WINDOW);
  }

  lemma AdmittedAppend(times: seq<real>, limit: nat, now: real)
    requires Admitted(times, limit) && |Recent(times, now - WINDOW)| < limit
    requires forall i | 0 <= i < |times| :: times[i] <= now
    ensures Admitted(times + [now], limit)
  {
    assert (times + [now])[..|times|] == times;
  }

  /** A pruned list with room takes the new time. */
  lemma AcceptKeeps(kept: seq<real>, book: Book, now: real)
    requires BookOk(kept, book, now) && book.cutoff == now - WINDOW && |kept| < book.limit
    ensures BookOk(kept + [now], book.(accepted := book.accepted + [now]), now)
  {
    AdmittedAppend(book.accepted, book.limit, now);
    RecentAppend(book.accepted, now, now - WINDOW);
  }

  /** The key belongs to this request, whose limit it has. */
  predicate Belongs(key: string, limit: nat, r: Request) {
    WellFormed(r) && Key(r) == key && Limit(r) == limit
  }

  predicate AllBooksOk(requests: map<string, seq<real>>, books: map<string, Book>, clock: real) {
    requests.Keys == books.Keys && forall key | key in requests :: BookOk(requests[key], books[key], clock)
  }

  lemma BooksKept(requests: map<string, seq<real>>, books: map<string, Book>, clock: real, now: real,
                  key: string, times: seq<real>, book: Book)
    requires AllBooksOk(requests, books, clock) && clock <= now && BookOk(times, book, now)
    ensures AllBooksOk(requests[key := times], books[key := book], now)
  {
  }

  predicate OriginsOk(books: map<string, Book>, origins: map<string, Request>) {
    books.Keys == origins.Keys && forall key | key in books :: Belongs(key, books[key].limit, origins[key])
  }

  lemma OriginsKept(books: map<string, Book>, origins: map<string, Request>, r: Request, book: Book)
    requires OriginsOk(books, origins) && Belongs(Key(r), book.limit, r)
    ensures OriginsOk(books[Key(r) := book], origins[Key(r) := r])
  {
  }

  /** The lists, their books and the requests that opened them. */
  predicate InOrder(requests: map<string, seq<real>>, books: map<string, Book>, origins: map<string, Request>,
                    clock: real) {
    AllBooksOk(requests, books, clock) && OriginsOk(books, origins)
  }

  /** One request that `r` stands for, when everything was in order before it. */
  lemma RequestKeeps(requests: map<string, seq<real>>, books: map<string, Book>, origins: map<string, Request>,
                     clock: real, key: string, limit: nat, r: Request, now: real)
    requires InOrder(requests, books, origins, clock) && Belongs(key, limit, r) && clock <= now
    ensures var kept := Recent(At(requests, key), now - WINDOW);
            && |kept| == CountIn(History(books, key), now)
            && InOrder(requests[key := Slid(kept, limit, now)],
                       books[key := Noted(books, key, limit, |kept| < limit, now)], origins[key := r], now)
  {
    if key in requests {
      assert Belongs(key, books[key].limit, origins[key]);
      KeysAreDistinct(r, origins[key]);
    }
    var before := if key in books then books[key] else Book([], clock - WINDOW, limit);
    var kept := Recent(At(requests, key), now - WINDOW);
    PruneKeeps(At(requests, key), before, clock, now);
    RecentIsCounted(before.accepted, now);
    if |kept| < limit {
      AcceptKeeps(kept, before.(cutoff := now - WINDOW), now);
    } else {
      assert before.accepted + [] == before.accepted;
    }
    var after := Noted(books, key, limit, |kept| < limit, now);
    BooksKept(requests, books, clock, now, key, Slid(kept, limit, now), after);
    OriginsKept(books, origins, r, after);
  }

  /** The list of a key; a missing key stands for the empty list. */
  function At(requests: map<string, seq<real>>, key: string): seq<real> {
    if key in requests then requests[key] else []
  }

  /** Every accept of a key so far. */
  function History(books: map<string, Book>, key: string): seq<real> {
    if key in books then books[key].accepted else []
  }

  /** A pruned list after a request: the new time is appended when there is room. */
  function Slid(kept: seq<real>, limit: nat, now: real): seq<real> {
    if |kept| < limit then kept + [now] else kept
  }

  function Noted(books: map<string, Book>, key: string, limit: nat, ok: bool, now: real): Book {
    Book(History(books, key) + if ok then [now] else [], now - WINDOW, limit)
  }

  class Limiter {
    var requests: map<string, seq<real>>
    ghost var books: map<string, Book>
    ghost var origins: map<string, Request>
    ghost var clock: real

    ghost predicate Valid()
      reads this
    {
      InOrder(requests, books, origins, clock)
    }

    constructor ()
      ensures Valid() && books == map[] && clock == 0.0
    {
      requests, books, origins := map[], map[], map[];
      clock := 0.0;
    }

    /**
     Prunes the list of the key and appends the new time when there is room. As long as
     requests are well formed and the clock does not go back, that accepts exactly when the
     window that ends now holds fewer than the limit of all accepts so far.
     */
    method Dispatch(r: Request, now: real) returns (ok: bool)
      modifies this
      ensures var kept := Recent(At(old(requests), Key(r)), now - WINDOW);
              (ok <==> |kept| < Limit(r)) && requests == old(requests)[Key(r) := Slid(kept, Limit(r), now)]
      ensures History(books, Key(r)) == History(old(books), Key(r)) + if ok then [now] else []
      ensures forall k | k != Key(r) :: History(books, k) == History(old(books), k)
      ensures old(Valid()) && WellFormed(r) && old(clock) <= now ==>
                && Valid() && clock == now
                && (ok <==> CountIn(History(old(books), Key(r)), now) < Limit(r))
    {
      ok := Admit(Key(r), Limit(r), r, now);
    }

    /** The same for a key and its limit; `r` is a request they belong to, if there is one. */
    method Admit(key: string, limit: nat, ghost r: Request, now: real) returns (ok: bool)
      modifies this
      ensures var kept := Recent(At(old(requests), key), now - WINDOW);
              (ok <==> |kept| < limit) && requests == old(requests)[key := Slid(kept, limit, now)]
      ensures books == old(books)[key := Noted(old(books), key, limit, ok, now)]
      ensures old(Valid()) && Belongs(key, limit, r) && old(clock) <= now ==>
                && Valid() && clock == now
                && (ok <==> CountIn(History(old(books), key), now) < limit)
    {
      if InOrder(requests, books, origins, clock) && Belongs(key, limit, r) && clock <= now {
        RequestKeeps(requests, books, origins, clock, key, limit, r, now);
      }
      var times: seq<real>;
      ok, times := Slide(if key in requests then requests[key] else [], limit, now);
      clock := now;
      requests, books := requests[key := times], books[key := Noted(books, key, limit, ok, now)];
      origins := origins[key := r];
    }

    /** Drops what has left the window, then appends the new time if there is room. */
    static method Slide(times: seq<real>, limit: nat, now: real) returns (ok: bool, kept: seq<real>)
      ensures ok <==> |Recent(times, now - WINDOW)| < limit
      ensures kept == Slid(Recent(times, now - WINDOW), limit, now)
    {
      kept := Prune(times, now - WINDOW);
      ok := |kept| < limit;
      if ok {
        kept := kept + [now];
      }
    }

    static method Prune(times: seq<real>, cutoff: real) returns (kept: seq<real>)
      ensures kept == Recent(times, cutoff)
    {
      kept := [];
      for i := 0 to |times|
        invariant kept == Recent(times[..i], cutoff)
      {
        assert times[..i + 1][..i] == times[..i];
        if times[i] > cutoff {
          kept := kept + [times[i]];
        }
      }
      assert times[..|times|] == times;
    }

    /** For every key and every time, the window that ends there holds at most the key's limit. */
    lemma AtMostLimit(r: Request, T: real)
      requires Valid() && WellFormed(r)
      ensures CountIn(History(books, Key(r)), T) <= Limit(r)
    {
      if Key(r) in requests {
        var key := Key(r);
        assert BookOk(requests[key], books[key], clock) && Belongs(key, books[key].limit, origins[key]);
        KeysAreDistinct(r, origins[key]);
        WindowHolds(books[key].accepted, books[key].limit, T);
      }
    }
  }
}
