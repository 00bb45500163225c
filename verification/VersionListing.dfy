/**
 Listing all versions of one object key, page by page. The server is arbitrary: it may
 answer every request as it likes, as long as its markers come from a finite set.
 */
module VersionListing {
  import opened Options

  datatype Marker = Marker(key: Option<string>, version: Option<string>)

  const NO_MARKER: Marker := Marker(None, None)

  /** A version or a delete marker; an entry whose id is not a string has no version here. */
  datatype Entry = Entry(key: string, version: Option<string>, isMarker: bool)

  datatype Page = Page(
    versions: seq<Entry>,
    deleteMarkers: seq<Entry>,
    truncated: bool,
    nextKey: Option<string>,
    nextVersion: Option<string>)

  datatype Error = Unverified | Refused

  /** The answer to the n-th request, which may depend on everything that went before. */
  type Server = (nat, Marker) -> Page

  /** The version ids of exactly this key. */
  function KeyIds(entries: seq<Entry>, key: string): (ids: seq<string>) {
    if entries == [] then []
    else
      var before, last := KeyIds(entries[..|entries| - 1], key), entries[|entries| - 1];
      if last.key == key && last.version.Some? then before + [last.version.value] else before
  }

  function PageIds(page: Page, key: string): seq<string> {
    KeyIds(page.versions, key) + KeyIds(page.deleteMarkers, key)
  }

  ghost predicate MarkersIn(server: Server, universe: set<Marker>) {
    forall n, m | server(n, m).nextKey.Some? :: Marker(server(n, m).nextKey, server(n, m).nextVersion) in universe
  }

  /** The listing from the n-th request on; a marker that comes back ends it with an error. */
  function Listing(server: Server, key: string, n: nat, marker: Marker, seen: set<Marker>, ghost universe: set<Marker>)
    : Result<seq<string>, Error>
    requires MarkersIn(server, universe)
    decreases universe - seen
  {
    var page := server(n, marker);
    var ids := PageIds(page, key);
    if !page.truncated then Ok(ids)
    else if page.nextKey.None? then Err(Unverified)
    else
      var next := Marker(page.nextKey, page.nextVersion);
      if next in seen then Err(Unverified)
      else
        Prepend(ids, Listing(server, key, n + 1, next, seen + {next}, universe))
  }

  function Prepend(ids: seq<string>, rest: Result<seq<string>, Error>): Result<seq<string>, Error> {
    if rest.Ok? then Ok(ids + rest.value) else rest
  }

  lemma PrependTwice(a: seq<string>, b: seq<string>, rest: Result<seq<string>, Error>)
    ensures Prepend(a, Prepend(b, rest)) == Prepend(a + b, rest)
    ensures Prepend([], rest) == rest
  {
    if rest.Ok? {
      assert a + (b + rest.value) == (a + b) + rest.value;
      assert [] + rest.value == rest.value;
    }
  }

  method ExactVersionIds(server: Server, key: string, ghost universe: set<Marker>)
    returns (result: Result<seq<string>, Error>, requests: nat)
    requires MarkersIn(server, universe)
    ensures result == Listing(server, key, 0, NO_MARKER, {NO_MARKER}, universe)
    ensures requests <= |universe| + 1
  {
    var marker, seen := NO_MARKER, {NO_MARKER};
    var versionIds: seq<string> := [];
    requests := 0;
    ghost var left := universe - seen;
    PrependTwice([], [], Listing(server, key, 0, marker, seen, universe));
    while true
      invariant Listing(server, key, 0, NO_MARKER, {NO_MARKER}, universe)
             == Prepend(versionIds, Listing(server, key, requests, marker, seen, universe))
      invariant left == universe - seen && |left| + requests <= |universe|
      decreases universe - seen
    {
      var page := server(requests, marker);
      requests := requests + 1;
      ghost var before := versionIds;
      versionIds := versionIds + KeyIds(page.versions, key) + KeyIds(page.deleteMarkers, key);
      assert versionIds == before + PageIds(page, key);
      if !page.truncated {
        return Ok(versionIds), requests;
      }
      if page.nextKey.None? {
        return Err(Unverified), requests;
      }
      var next := Marker(page.nextKey, page.nextVersion);
      if next in seen {
        return Err(Unverified), requests;
      }
      PrependTwice(before, PageIds(page, key), Listing(server, key, requests, next, seen + {next}, universe));
      seen := seen + {next};
      marker := next;
      assert universe - seen == left - {next};
      left := left - {next};
    }
  }

  /** Whatever the server answers, every id returned was listed under exactly this key. */
  lemma {:induction false} OnlyListedIds(server: Server, key: string, n: nat, marker: Marker, seen: set<Marker>,
                                         universe: set<Marker>, id: string)
    requires MarkersIn(server, universe)
    requires Listing(server, key, n, marker, seen, universe).Ok?
    requires id in Listing(server, key, n, marker, seen, universe).value
    ensures exists k, m :: id in PageIds(server(k, m), key)
    decreases universe - seen
  {
    var page := server(n, marker);
    if id in PageIds(page, key) {
      assert id in PageIds(server(n, marker), key);
    } else {
      var next := Marker(page.nextKey, page.nextVersion);
      OnlyListedIds(server, key, n + 1, next, seen + {next}, universe, id);
    }
  }

  // ---------------------------------------------------------------- a server that pages honestly

  /** No two entries share key and version. */
  predicate Distinct(entries: seq<Entry>) {
    && (forall i | 0 <= i < |entries| :: entries[i].version.Some?)
    && forall i, j | 0 <= i < j < |entries| ::
         entries[i].key != entries[j].key || entries[i].version != entries[j].version
  }

  function MarkerOf(e: Entry): Marker {
    Marker(Some(e.key), e.version)
  }

  /** The first entry after the marker. */
  function Position(entries: seq<Entry>, marker: Marker): (p: nat)
    ensures p <= |entries|
  {
    if entries == [] then 0
    else if MarkerOf(entries[|entries| - 1]) == marker then |entries|
    else Position(entries[..|entries| - 1], marker)
  }

  function Group(entries: seq<Entry>, markers: bool): seq<Entry> {
    if entries == [] then []
    else
      var before, last := Group(entries[..|entries| - 1], markers), entries[|entries| - 1];
      if last.isMarker == markers then before + [last] else before
  }

  /** The first page of what is left, with the marker of its last entry if more follows. */
  function FirstPage(left: seq<Entry>, size: nat): Page
    requires 0 < size
  {
    if size < |left| then
      var slice := left[..size];
      Page(Group(slice, false), Group(slice, true), true, Some(left[size - 1].key), left[size - 1].version)
    else Page(Group(left, false), Group(left, true), false, None, None)
  }

  /** Answers every request with the next `size` entries after its marker. */
  function Honest(entries: seq<Entry>, size: nat): Server
    requires 0 < size
  {
    (n: nat, m: Marker) => FirstPage(entries[Position(entries, m)..], size)
  }

  function AllMarkers(entries: seq<Entry>): set<Marker> {
    set i | 0 <= i < |entries| :: MarkerOf(entries[i])
  }

  lemma HonestMarkers(entries: seq<Entry>, size: nat)
    requires 0 < size
    ensures MarkersIn(Honest(entries, size), AllMarkers(entries))
  {
    forall n, m | Honest(entries, size)(n, m).nextKey.Some?
      ensures Marker(Honest(entries, size)(n, m).nextKey, Honest(entries, size)(n, m).nextVersion) in AllMarkers(entries)
    {
      var p := Position(entries, m);
      assert MarkerOf(entries[p + size - 1]) in AllMarkers(entries);
    }
  }

  /** The marker of an entry leads to the entry after it. */
  lemma {:induction false} PositionOf(entries: seq<Entry>, i: nat)
    requires Distinct(entries) && i < |entries|
    ensures Position(entries, MarkerOf(entries[i])) == i + 1
  {
    var n := |entries| - 1;
    if i < n {
      assert MarkerOf(entries[i]) != MarkerOf(entries[n]);
      PositionOf(entries[..n], i);
    }
  }

  lemma {:induction false} NoMarkerIsFirst(entries: seq<Entry>)
    ensures Position(entries, NO_MARKER) == 0
  {
    if entries != [] {
      NoMarkerIsFirst(entries[..|entries| - 1]);
    }
  }

  /** Splitting a page into its two groups loses and adds no id. */
  lemma {:induction false} GroupsKeepIds(entries: seq<Entry>, key: string)
    ensures multiset(KeyIds(Group(entries, false), key)) + multiset(KeyIds(Group(entries, true), key))
         == multiset(KeyIds(entries, key))
  {
    if entries != [] {
      var before, last := entries[..|entries| - 1], entries[|entries| - 1];
      GroupsKeepIds(before, key);
      GroupGrows(before, last, key);
    }
  }

  lemma GroupGrows(before: seq<Entry>, last: Entry, key: string)
    ensures var own := Group(before, last.isMarker);
            && Group(before + [last], last.isMarker) == own + [last]
            && Group(before + [last], !last.isMarker) == Group(before, !last.isMarker)
            && KeyIds(own + [last], key) == KeyIds(own, key) + KeyIds([last], key)
            && KeyIds(before + [last], key) == KeyIds(before, key) + KeyIds([last], key)
  {
    var own := Group(before, last.isMarker);
    assert (before + [last])[..|before|] == before && (own + [last])[..|own|] == own;
    assert [last][..0] == [];
  }

  lemma {:induction false} KeyIdsAppend(a: seq<Entry>, b: seq<Entry>, key: string)
    ensures KeyIds(a + b, key) == KeyIds(a, key) + KeyIds(b, key)
  {
    if b == [] {
      assert a + b == a;
    } else {
      var n := |b| - 1;
      KeyIdsAppend(a, b[..n], key);
      assert (a + b)[..|a| + n] == a + b[..n];
    }
  }

  lemma SplitIds(entries: seq<Entry>, q: nat, key: string)
    requires q <= |entries|
    ensures KeyIds(entries, key) == KeyIds(entries[..q], key) + KeyIds(entries[q..], key)
  {
    KeyIdsAppend(entries[..q], entries[q..], key);
    assert entries == entries[..q] + entries[q..];
  }

  /** The first page and what follows it hold the ids of what is left. */
  lemma FirstPageHolds(left: seq<Entry>, size: nat, key: string)
    requires 0 < size
    ensures var ids := PageIds(FirstPage(left, size), key);
            if size < |left|
            then multiset(ids) + multiset(KeyIds(left[size..], key)) == multiset(KeyIds(left, key))
            else multiset(ids) == multiset(KeyIds(left, key))
  {
    if size < |left| {
      GroupsKeepIds(left[..size], key);
      SplitIds(left, size, key);
    } else {
      GroupsKeepIds(left, key);
    }
  }

  /** One request of a listing, when the rest of it is known. */
  lemma ListingStep(server: Server, key: string, n: nat, marker: Marker, seen: set<Marker>, universe: set<Marker>,
                    left: seq<Entry>, size: nat)
    requires 0 < size && MarkersIn(server, universe) && server(n, marker) == FirstPage(left, size)
    requires size < |left| ==>
               var next := MarkerOf(left[size - 1]);
               var rest := Listing(server, key, n + 1, next, seen + {next}, universe);
               && left[size - 1].version.Some? && next !in seen
               && rest.Ok? && multiset(rest.value) == multiset(KeyIds(left[size..], key))
    ensures var listing := Listing(server, key, n, marker, seen, universe);
            listing.Ok? && multiset(listing.value) == multiset(KeyIds(left, key))
  {
    FirstPageHolds(left, size, key);
  }

  lemma DropTwice<T>(s: seq<T>, p: nat, k: nat)
    requires p + k <= |s|
    ensures s[p..][k..] == s[p + k..]
  {
  }

  type Cursor = Marker -> nat

  /** The server answers with the first page after the cursor, and an entry's marker moves the cursor past it. */
  ghost predicate ServesPages(server: Server, entries: seq<Entry>, cursor: Cursor, size: nat) {
    && 0 < size
    && (forall m :: cursor(m) <= |entries|)
    && (forall n, m :: server(n, m) == FirstPage(entries[cursor(m)..], size))
    && (forall i | 0 <= i < |entries| :: entries[i].version.Some? && cursor(MarkerOf(entries[i])) == i + 1)
  }

  /** Against such a server no marker comes back, and the listing is complete and exact. */
  lemma {:induction false} PagedListing(server: Server, entries: seq<Entry>, cursor: Cursor, size: nat, key: string,
                                        n: nat, marker: Marker, seen: set<Marker>, universe: set<Marker>)
    requires ServesPages(server, entries, cursor, size) && MarkersIn(server, universe)
    requires forall m | m in seen :: cursor(m) <= cursor(marker)
    ensures var listing := Listing(server, key, n, marker, seen, universe);
            listing.Ok? && multiset(listing.value) == multiset(KeyIds(entries[cursor(marker)..], key))
    decreases |entries| - cursor(marker)
  {
    var p := cursor(marker);
    if size < |entries| - p {
      var next := MarkerOf(entries[p + size - 1]);
      assert cursor(next) == p + size;
      assert server(n, marker).nextKey.Some?;
      DropTwice(entries, p, size);
      PagedListing(server, entries, cursor, size, key, n + 1, next, seen + {next}, universe);
    }
    ListingStep(server, key, n, marker, seen, universe, entries[p..], size);
  }

  lemma HonestServesPages(entries: seq<Entry>, size: nat)
    requires Distinct(entries) && 0 < size
    ensures ServesPages(Honest(entries, size), entries, m => Position(entries, m), size)
  {
    forall i | 0 <= i < |entries| ensures Position(entries, MarkerOf(entries[i])) == i + 1 {
      PositionOf(entries, i);
    }
  }

  /** The whole listing returns exactly the versions and delete markers of that key, each once. */
  lemma ListsExactly(entries: seq<Entry>, size: nat, key: string)
    requires Distinct(entries) && 0 < size
    ensures MarkersIn(Honest(entries, size), AllMarkers(entries))
    ensures var listing := Listing(Honest(entries, size), key, 0, NO_MARKER, {NO_MARKER}, AllMarkers(entries));
            listing.Ok? && multiset(listing.value) == multiset(KeyIds(entries, key))
  {
    HonestMarkers(entries, size);
    HonestServesPages(entries, size);
    NoMarkerIsFirst(entries);
    PagedListing(Honest(entries, size), entries, m => Position(entries, m), size, key, 0, NO_MARKER, {NO_MARKER},
                 AllMarkers(entries));
    assert entries[0..] == entries;
  }
}
