/**
 Deleting an object with all its versions: list, delete what was listed, and return only
 after a listing found nothing. Other writers may add versions before each listing.
 */
module VersionedDelete {
  import opened Options
  import opened VersionListing

  const ATTEMPTS: nat := 3

  /** What the store answers to one delete request: done, the version is unknown, or refused. */
  datatype Answer = Removed | NotFound | Denied

  predicate HasVersion(entries: seq<Entry>, key: string, version: string) {
    exists i | 0 <= i < |entries| :: entries[i].key == key && entries[i].version == Some(version)
  }

  function Without(entries: seq<Entry>, key: string, version: string): seq<Entry> {
    if entries == [] then []
    else
      var before, last := Without(entries[..|entries| - 1], key, version), entries[|entries| - 1];
      if last.key == key && last.version == Some(version) then before else before + [last]
  }

  lemma {:induction false} WithoutRemoves(entries: seq<Entry>, key: string, version: string)
    requires Distinct(entries)
    ensures Distinct(Without(entries, key, version))
    ensures forall e | e in Without(entries, key, version) :: e in entries
    ensures forall k, v :: HasVersion(Without(entries, key, version), k, v)
                           <==> HasVersion(entries, k, v) && (k != key || v != version)
  {
    if entries != [] {
      var before, last := entries[..|entries| - 1], entries[|entries| - 1];
      WithoutRemoves(before, key, version);
      var rest := Without(before, key, version);
      forall k, v
        ensures HasVersion(Without(entries, key, version), k, v)
                <==> HasVersion(entries, k, v) && (k != key || v != version)
      {
        HasVersionAppend(before, last, k, v);
        HasVersionAppend(rest, last, k, v);
        assert before + [last] == entries;
      }
      if !(last.key == key && last.version == Some(version)) {
        forall i | 0 <= i < |rest| ensures rest[i].key != last.key || rest[i].version != last.version {
          assert rest[i] in before;
        }
      }
    }
  }

  lemma HasVersionAppend(entries: seq<Entry>, last: Entry, k: string, v: string)
    ensures HasVersion(entries + [last], k, v)
            <==> HasVersion(entries, k, v) || (last.key == k && last.version == Some(v))
  {
    var all := entries + [last];
    if HasVersion(entries, k, v) {
      var i :| 0 <= i < |entries| && entries[i].key == k && entries[i].version == Some(v);
      assert all[i] == entries[i];
    }
    if last.key == k && last.version == Some(v) {
      assert all[|entries|] == last;
    }
  }

  /** A version that somebody else puts under a key. */
  datatype Write = Write(key: string, version: string)

  function Written(entries: seq<Entry>, writes: seq<Write>): seq<Entry> {
    if writes == [] then entries
    else
      var before, w := Written(entries, writes[..|writes| - 1]), writes[|writes| - 1];
      if HasVersion(before, w.key, w.version) then before else before + [Entry(w.key, Some(w.version), false)]
  }

  lemma {:induction false} WrittenAdds(entries: seq<Entry>, writes: seq<Write>)
    requires Distinct(entries)
    ensures Distinct(Written(entries, writes))
    ensures forall k, v :: HasVersion(Written(entries, writes), k, v)
                           <==> HasVersion(entries, k, v) || Write(k, v) in writes
  {
    if writes != [] {
      var fewer, w := writes[..|writes| - 1], writes[|writes| - 1];
      WrittenAdds(entries, fewer);
      var before := Written(entries, fewer);
      forall k, v
        ensures HasVersion(Written(entries, writes), k, v) <==> HasVersion(entries, k, v) || Write(k, v) in writes
      {
        HasVersionAppend(before, Entry(w.key, Some(w.version), false), k, v);
        assert Write(k, v) in writes <==> Write(k, v) in fewer || Write(k, v) == w;
      }
    }
  }

  lemma {:induction false} KeyIdsAreVersions(entries: seq<Entry>, key: string, v: string)
    ensures v in KeyIds(entries, key) <==> HasVersion(entries, key, v)
  {
    if entries != [] {
      var before, last := entries[..|entries| - 1], entries[|entries| - 1];
      KeyIdsAreVersions(before, key, v);
      HasVersionAppend(before, last, key, v);
      assert before + [last] == entries;
    }
  }

  // ---------------------------------------------------------------- the order of deletion

  predicate NoRepeats(ids: seq<string>) {
    forall i, j | 0 <= i < j < |ids| :: ids[i] != ids[j]
  }

  /** Each listed id once, the version being deleted first. */
  ghost predicate IsOrdered(ordered: seq<string>, ids: seq<string>, first: Option<string>) {
    && NoRepeats(ordered)
    && (forall v :: v in ordered <==> v in ids)
    && (first.Some? && first.value in ids ==> |ordered| > 0 && ordered[0] == first.value)
  }

  method Order(ids: seq<string>, first: Option<string>) returns (ordered: seq<string>)
    ensures IsOrdered(ordered, ids, first)
  {
    ordered := [];
    for i := 0 to |ids|
      invariant NoRepeats(ordered)
      invariant forall v :: v in ordered <==> v in ids[..i]
    {
      assert ids[..i + 1] == ids[..i] + [ids[i]];
      if ids[i] !in ordered {
        ordered := ordered + [ids[i]];
      }
    }
    assert ids[..|ids|] == ids;
    if first.Some? && first.value in ordered {
      var i :| 0 <= i < |ordered| && ordered[i] == first.value;
      var rest := ordered[..i] + ordered[i + 1..];
      assert ordered == ordered[..i] + [ordered[i]] + ordered[i + 1..];
      assert forall v :: v in ordered <==> v == first.value || v in rest;
      assert first.value !in rest;
      ordered := [first.value] + rest;
    }
  }

  // ---------------------------------------------------------------- the store

  class Bucket {
    var entries: seq<Entry>
    const pageSize: nat

    ghost predicate Valid()
      reads this
    {
      Distinct(entries) && 0 < pageSize
    }

    constructor (pageSize: nat)
      requires 0 < pageSize
      ensures Valid() && entries == []
    {
      this.pageSize := pageSize;
      entries := [];
    }

    /** A full listing of one key, page by page. */
    method List(key: string) returns (ids: seq<string>)
      requires Valid()
      ensures forall v :: v in ids <==> HasVersion(entries, key, v)
    {
      ListsExactly(entries, pageSize, key);
      var result, requests := ExactVersionIds(Honest(entries, pageSize), key, AllMarkers(entries));
      ids := result.value;
      forall v ensures v in ids <==> HasVersion(entries, key, v) {
        KeyIdsAreVersions(entries, key, v);
        assert v in ids <==> v in multiset(ids);
        assert v in KeyIds(entries, key) <==> v in multiset(KeyIds(entries, key));
      }
    }

    method DeleteVersion(key: string, version: string, answer: Answer)
      requires Valid()
      modifies this`entries
      ensures Valid()
      ensures forall k, v :: HasVersion(entries, k, v)
                             <==> old(HasVersion(entries, k, v)) && !(answer.Removed? && k == key && v == version)
    {
      if answer.Removed? {
        WithoutRemoves(entries, key, version);
        entries := Without(entries, key, version);
      }
    }

    method Put(writes: seq<Write>)
      requires Valid()
      modifies this`entries
      ensures Valid()
      ensures forall k, v :: HasVersion(entries, k, v)
                             <==> old(HasVersion(entries, k, v)) || Write(k, v) in writes
    {
      WrittenAdds(entries, writes);
      entries := Written(entries, writes);
    }
  }

  /** Exactly the versions of the key among `taken` that the store removed are gone. */
  ghost predicate Took(before: seq<Entry>, after: seq<Entry>, key: string, taken: seq<string>,
                       answer: string -> Answer) {
    forall k, v :: HasVersion(after, k, v)
                   <==> HasVersion(before, k, v) && !(k == key && v in taken && answer(v).Removed?)
  }

  /** Deletes the listed versions; an unknown version is skipped, any other error is raised at once. */
  method DeleteListed(bucket: Bucket, key: string, ordered: seq<string>, answer: string -> Answer)
    returns (taken: nat)
    requires bucket.Valid()
    modifies bucket`entries
    ensures bucket.Valid() && taken <= |ordered|
    ensures Took(old(bucket.entries), bucket.entries, key, ordered[..taken], answer)
    ensures forall i | 0 <= i < taken :: !answer(ordered[i]).Denied?
    ensures taken < |ordered| ==> answer(ordered[taken]).Denied?
  {
    for i := 0 to |ordered|
      invariant bucket.Valid() && Took(old(bucket.entries), bucket.entries, key, ordered[..i], answer)
      invariant forall k | 0 <= k < i :: !answer(ordered[k]).Denied?
    {
      assert ordered[..i + 1] == ordered[..i] + [ordered[i]];
      bucket.DeleteVersion(key, ordered[i], answer(ordered[i]));
      if answer(ordered[i]).Denied? {
        return i;
      }
    }
    return |ordered|;
  }

  /** What one round does to the versions of the key, and nothing to any other key. */
  ghost predicate RoundOutcome(before: seq<Entry>, after: seq<Entry>, key: string, version: Option<string>,
                               answer: string -> Answer, ok: bool) {
    && (forall k, v :: HasVersion(after, k, v) ==> HasVersion(before, k, v))
    && (forall k, v | HasVersion(before, k, v) && !HasVersion(after, k, v) :: k == key && answer(v).Removed?)
    && (ok ==> forall v | HasVersion(before, key, v) ::
          !answer(v).Denied? && (answer(v).Removed? ==> !HasVersion(after, key, v)))
    && (!ok ==> exists v :: answer(v).Denied? && HasVersion(after, key, v))
    && (version.Some? && HasVersion(before, key, version.value) && answer(version.value).Denied? ==>
          !ok && forall k, v :: HasVersion(after, k, v) <==> HasVersion(before, k, v))
  }

  lemma TookIsRound(before: seq<Entry>, after: seq<Entry>, key: string, version: Option<string>,
                    answer: string -> Answer, ids: seq<string>, ordered: seq<string>, taken: nat)
    requires forall v :: v in ids <==> HasVersion(before, key, v)
    requires IsOrdered(ordered, ids, version) && taken <= |ordered|
    requires Took(before, after, key, ordered[..taken], answer)
    requires forall i | 0 <= i < taken :: !answer(ordered[i]).Denied?
    requires taken < |ordered| ==> answer(ordered[taken]).Denied?
    ensures RoundOutcome(before, after, key, version, answer, taken == |ordered|)
  {
    if taken < |ordered| {
      assert ordered[taken] in ordered && HasVersion(after, key, ordered[taken]);
      if version.Some? && HasVersion(before, key, version.value) && answer(version.value).Denied? {
        assert ordered[0] == version.value && ordered[..taken] == [];
      }
    } else {
      assert ordered[..taken] == ordered;
    }
  }

  /** One round: list the versions of the key, and delete what was listed. */
  method DeleteRound(bucket: Bucket, key: string, version: Option<string>, answer: string -> Answer)
    returns (empty: bool, ok: bool)
    requires bucket.Valid()
    modifies bucket`entries
    ensures bucket.Valid()
    ensures empty <==> forall v :: !old(HasVersion(bucket.entries, key, v))
    ensures empty ==> bucket.entries == old(bucket.entries)
    ensures RoundOutcome(old(bucket.entries), bucket.entries, key, version, answer, ok)
  {
    var ids := bucket.List(key);
    if ids == [] {
      assert forall v :: v !in ids;
      return true, true;
    }
    assert ids[0] in ids && HasVersion(bucket.entries, key, ids[0]);
    var ordered := Order(ids, version);
    var taken := DeleteListed(bucket, key, ordered, answer);
    TookIsRound(old(bucket.entries), bucket.entries, key, version, answer, ids, ordered, taken);
    return false, taken == |ordered|;
  }

  // ---------------------------------------------------------------- several rounds

  /** Nobody puts a version of the key there after the first listing. */
  predicate Quiet(writes: seq<seq<Write>>, key: string) {
    forall n, i | 1 <= n < |writes| && 0 <= i < |writes[n]| :: writes[n][i].key != key
  }

  /** The version was there before, or was written before one of the first `n` listings. */
  predicate WasThere(entries: seq<Entry>, writes: seq<seq<Write>>, n: nat, k: string, v: string)
    requires n <= |writes|
  {
    HasVersion(entries, k, v) || exists m | 0 <= m < n :: Write(k, v) in writes[m]
  }

  predicate RemovedBefore(answer: (nat, string) -> Answer, n: nat, v: string) {
    exists m | 0 <= m < n :: answer(m, v).Removed?
  }

  /** After `n` rounds: what was there is still there, except versions of the key that the store removed. */
  ghost predicate Follows(before: seq<Entry>, writes: seq<seq<Write>>, n: nat, key: string,
                          answer: (nat, string) -> Answer, after: seq<Entry>)
    requires n <= |writes|
  {
    && (forall k, v | HasVersion(after, k, v) :: WasThere(before, writes, n, k, v))
    && (forall k, v | WasThere(before, writes, n, k, v) && !HasVersion(after, k, v) ::
          k == key && RemovedBefore(answer, n, v))
  }

  lemma RoundFollows(before: seq<Entry>, writes: seq<seq<Write>>, n: nat, key: string,
                     answer: (nat, string) -> Answer, middle: seq<Entry>, listed: seq<Entry>, after: seq<Entry>)
    requires n < |writes| && Follows(before, writes, n, key, answer, middle)
    requires forall k, v :: HasVersion(listed, k, v) <==> HasVersion(middle, k, v) || Write(k, v) in writes[n]
    requires forall k, v :: HasVersion(after, k, v) ==> HasVersion(listed, k, v)
    requires forall k, v | HasVersion(listed, k, v) && !HasVersion(after, k, v) :: k == key && answer(n, v).Removed?
    ensures Follows(before, writes, n + 1, key, answer, after)
  {
    forall k, v | WasThere(before, writes, n + 1, k, v) && !HasVersion(after, k, v)
      ensures k == key && RemovedBefore(answer, n + 1, v)
    {
      if HasVersion(listed, k, v) {
        assert answer(n, v).Removed?;
      } else {
        assert WasThere(before, writes, n, k, v) && RemovedBefore(answer, n, v);
      }
    }
  }

  /** The requested version is there at the first listing, and the store refuses to delete it. */
  predicate RefusesFirst(entries: seq<Entry>, writes: seq<seq<Write>>, key: string, version: Option<string>,
                         answer: (nat, string) -> Answer)
    requires 0 < |writes|
  {
    version.Some? && WasThere(entries, writes, 1, key, version.value) && answer(0, version.value).Denied?
  }

  /**
   `writes[n]` is what others write before the n-th listing. The call returns normally only
   when the last full listing was empty; nothing leaves the bucket but versions of the key
   that the store removed. A refused version is still there and ends the call, and as the
   requested version goes first, refusing that one keeps everything. If nobody else writes
   the key and every delete works, two listings are enough.
   */
  method Delete(bucket: Bucket, key: string, version: Option<string>, writes: seq<seq<Write>>,
                answer: (nat, string) -> Answer)
    returns (result: Result<(), Error>, listings: nat)
    requires bucket.Valid() && |writes| == ATTEMPTS
    modifies bucket`entries
    ensures bucket.Valid() && 1 <= listings <= ATTEMPTS
    ensures result.Ok? ==> forall v :: !HasVersion(bucket.entries, key, v)
    ensures result == Err(Refused) ==>
              exists v :: answer(listings - 1, v).Denied? && HasVersion(bucket.entries, key, v)
    ensures result == Err(Unverified) ==> listings == ATTEMPTS
    ensures Follows(old(bucket.entries), writes, listings, key, answer, bucket.entries)
    ensures old(RefusesFirst(bucket.entries, writes, key, version, answer)) ==>
              && result == Err(Refused) && listings == 1
              && forall k, v :: HasVersion(bucket.entries, k, v) <==> WasThere(old(bucket.entries), writes, 1, k, v)
    ensures Quiet(writes, key) && (forall n, v :: answer(n, v).Removed?) ==> result.Ok? && listings <= 2
  {
    listings := 0;
    while listings < ATTEMPTS
      invariant bucket.Valid() && listings <= ATTEMPTS
      invariant Follows(old(bucket.entries), writes, listings, key, answer, bucket.entries)
      invariant listings == 0 ==> bucket.entries == old(bucket.entries)
      invariant 0 < listings ==> !old(RefusesFirst(bucket.entries, writes, key, version, answer))
      invariant Quiet(writes, key) && (forall n, v :: answer(n, v).Removed?) ==>
                  listings <= 1 && (listings == 1 ==> forall v :: !HasVersion(bucket.entries, key, v))
    {
      ghost var middle := bucket.entries;
      bucket.Put(writes[listings]);
      ghost var listed := bucket.entries;
      var n := listings;
      var empty, ok := DeleteRound(bucket, key, version, v => answer(n, v));
      RoundFollows(old(bucket.entries), writes, n, key, answer, middle, listed, bucket.entries);
      listings := listings + 1;
      if empty {
        return Ok(()), listings;
      }
      if !ok {
        return Err(Refused), listings;
      }
    }
    return Err(Unverified), listings;
  }
}
