/** `MemStorage`, the in-memory image store: a counter and a map from id to record,
    both updated in place by `createImage`. */
module Storage {
  import opened JsValues
  import opened Schema

  ghost predicate NewestFirstOrder(s: seq<Image>) {
    forall i, j :: 0 <= i < j < |s| ==> s[i].id >= s[j].id
  }

  ghost predicate StrictlyNewestFirst(s: seq<Image>) {
    forall i, j :: 0 <= i < j < |s| ==> s[i].id > s[j].id
  }

  ghost predicate DistinctIds(s: seq<Image>) {
    forall i, j :: 0 <= i < j < |s| ==> s[i].id != s[j].id
  }

  /** Stable insertion under the descending-id comparator: `x` goes before the
      first element whose id is not larger, so among equal ids the earlier one stays first. */
  function InsertNewestFirst(x: Image, s: seq<Image>): (r: seq<Image>)
    ensures multiset(r) == multiset(s) + multiset{x}
    ensures |r| == |s| + 1
  {
    if s == [] then [x]
    else if x.id >= s[0].id then [x] + s
    else
      assert s == [s[0]] + s[1..];
      [s[0]] + InsertNewestFirst(x, s[1..])
  }

  /** Every element of the insertion is `x` or came from `s`. */
  lemma InsertedFrom(x: Image, s: seq<Image>, k: int)
    requires 0 <= k < |InsertNewestFirst(x, s)|
    ensures InsertNewestFirst(x, s)[k] == x || InsertNewestFirst(x, s)[k] in s
  {
    var r := InsertNewestFirst(x, s);
    assert r[k] in multiset(s) + multiset{x};
  }

  lemma {:induction false} InsertKeepsOrder(x: Image, s: seq<Image>)
    requires NewestFirstOrder(s)
    ensures NewestFirstOrder(InsertNewestFirst(x, s))
    decreases |s|
  {
    if s != [] && x.id < s[0].id {
      var tail := InsertNewestFirst(x, s[1..]);
      InsertKeepsOrder(x, s[1..]);
      forall k | 0 <= k < |tail| ensures s[0].id >= tail[k].id {
        InsertedFrom(x, s[1..], k);
      }
    }
  }

  lemma {:induction false} InsertKeepsStrictOrder(x: Image, s: seq<Image>)
    requires StrictlyNewestFirst(s)
    requires forall i :: 0 <= i < |s| ==> s[i].id != x.id
    ensures StrictlyNewestFirst(InsertNewestFirst(x, s))
    decreases |s|
  {
    if s != [] && x.id < s[0].id {
      var tail := InsertNewestFirst(x, s[1..]);
      InsertKeepsStrictOrder(x, s[1..]);
      forall k | 0 <= k < |tail| ensures s[0].id > tail[k].id {
        InsertedFrom(x, s[1..], k);
      }
    }
  }

  /** The array sort with the descending-id comparator, as a stable
      insertion sort: a permutation of its input. */
  function SortNewestFirst(s: seq<Image>): (r: seq<Image>)
    ensures multiset(r) == multiset(s)
    ensures |r| == |s|
  {
    if s == [] then []
    else
      assert s == [s[0]] + s[1..];
      InsertNewestFirst(s[0], SortNewestFirst(s[1..]))
  }

  /** The sorted records are ordered by descending id. */
  lemma {:induction false} SortIsOrdered(s: seq<Image>)
    ensures NewestFirstOrder(SortNewestFirst(s))
    decreases |s|
  {
    if s != [] {
      SortIsOrdered(s[1..]);
      InsertKeepsOrder(s[0], SortNewestFirst(s[1..]));
    }
  }

  /** With no two records sharing an id, the order is strict. */
  lemma {:induction false} SortIsStrict(s: seq<Image>)
    requires DistinctIds(s)
    ensures StrictlyNewestFirst(SortNewestFirst(s))
    decreases |s|
  {
    if s != [] {
      var rest := SortNewestFirst(s[1..]);
      SortIsStrict(s[1..]);
      forall i | 0 <= i < |rest| ensures rest[i].id != s[0].id {
        assert rest[i] in multiset(s[1..]);
        var j :| 0 <= j < |s[1..]| && s[1..][j] == rest[i];
        assert s[j + 1] == rest[i];
      }
      InsertKeepsStrictOrder(s[0], rest);
    }
  }

  /** The shape `MemStorage` keeps: ids 1 .. n-1 are the keys, each record under its own id. */
  ghost predicate Numbered(m: map<int, Image>, n: int) {
    && n >= 1
    && (forall k :: k in m <==> 1 <= k < n)
    && (forall k :: k in m ==> m[k].id == k)
  }

  /** A numbered store holds n - 1 records. */
  lemma {:induction false} NumberedSize(m: map<int, Image>, n: int)
    requires Numbered(m, n)
    ensures |m| == n - 1
    decreases n
  {
    if n > 1 {
      var m' := map k | k in m && k != n - 1 :: m[k];
      assert m'.Keys + {n - 1} == m.Keys;
      NumberedSize(m', n - 1);
    } else {
      assert m.Keys == {};
    }
  }

  /** The map's values in iteration order. A Map iterates in insertion order; this store
      inserts under ids 1, 2, 3, ... and never removes, so that order is ascending id order. */
  function InsertionOrder(m: map<int, Image>, n: int): (r: seq<Image>)
    requires Numbered(m, n)
    ensures |r| == |m|
    ensures forall x :: x in r <==> x in m.Values
  {
    NumberedSize(m, n);
    var r := seq(n - 1, i requires 0 <= i < n - 1 => m[i + 1]);
    assert forall k :: k in m ==> r[k - 1] == m[k];
    r
  }

  lemma SortedListingIsStored(m: map<int, Image>, n: int, s: seq<Image>, r: seq<Image>)
    requires Numbered(m, n)
    requires s == InsertionOrder(m, n)
    requires multiset(r) == multiset(s)
    ensures forall i :: 0 <= i < |r| ==> r[i].id in m && m[r[i].id] == r[i]
  {
    forall i | 0 <= i < |r| ensures r[i].id in m && m[r[i].id] == r[i] {
      assert r[i] in multiset(s);
      var j :| 0 <= j < |s| && s[j] == r[i];
    }
  }

  lemma StoreIsListed(m: map<int, Image>, n: int, s: seq<Image>, r: seq<Image>)
    requires Numbered(m, n)
    requires s == InsertionOrder(m, n)
    requires multiset(r) == multiset(s)
    ensures forall k :: k in m ==> m[k] in r
  {
    forall k | k in m ensures m[k] in r {
      assert s[k - 1] == m[k];
      assert m[k] in multiset(s);
    }
  }

  lemma NewestIsFirst(m: map<int, Image>, n: int, r: seq<Image>)
    requires Numbered(m, n)
    requires forall i :: 0 <= i < |r| ==> r[i].id in m && m[r[i].id] == r[i]
    requires forall k :: k in m ==> m[k] in r
    requires StrictlyNewestFirst(r)
    requires n > 1
    ensures |r| > 0 && r[0] == m[n - 1]
  {
    assert n - 1 in m;
    var i :| 0 <= i < |r| && r[i] == m[n - 1];
    assert r[0].id >= r[i].id;
  }

  /** The records of a numbered store sorted by descending id: each exactly once, newest first. */
  function NewestFirst(m: map<int, Image>, n: int): (r: seq<Image>)
    requires Numbered(m, n)
    ensures |r| == n - 1
    ensures forall i :: 0 <= i < |r| ==> r[i].id in m && m[r[i].id] == r[i]
    ensures forall k :: k in m ==> m[k] in r
    ensures StrictlyNewestFirst(r)
    ensures |r| > 0 ==> r[0] == m[n - 1]
  {
    var s := InsertionOrder(m, n);
    assert DistinctIds(s);
    var r := SortNewestFirst(s);
    SortIsStrict(s);
    SortedListingIsStored(m, n, s, r);
    StoreIsListed(m, n, s, r);
    if |r| > 0 then NewestIsFirst(m, n, r); r else r
  }

  class MemStorage {
    var images: map<int, Image>
    var currentId: int

    /** Ids 1 .. currentId-1 are exactly the stored keys, and each record sits under its own id. */
    ghost predicate Valid()
      reads this
    {
      Numbered(images, currentId)
    }

    constructor ()
      ensures Valid()
      ensures images == map[] && currentId == 1
    {
      images := map[];
      currentId := 1;
    }

    /** Takes the counter as the new id, bumps it, and stores the record with absent
        optional fields set to null. */
    method CreateImage(input: NewImage) returns (r: Image)
      requires Valid()
      modifies this
      ensures Valid()
      ensures r.id == old(currentId) && currentId == old(currentId) + 1
      ensures r.id !in old(images)
      ensures images == old(images)[r.id := r]
      ensures r.originalImage == input.originalImage
      ensures r.aiDescription == OrNull(input.aiDescription)
      ensures r.generatedImage == OrNull(input.generatedImage)
      ensures r.metadata == OrNull(input.metadata)
      ensures r.aiDescription.None? <==> !input.aiDescription.Present?
      ensures r.generatedImage.None? <==> !input.generatedImage.Present?
      ensures r.metadata.None? <==> !input.metadata.Present?
      ensures forall k :: k in old(images) ==> k in images && images[k] == old(images)[k]
    {
      var id := currentId;
      currentId := currentId + 1;
      r := Image(id, input.originalImage, OrNull(input.aiDescription),
                 OrNull(input.generatedImage), OrNull(input.metadata));
      images := images[id := r];
    }

    /** The map lookup: the record created with that id, or nothing for an id never handed out. */
    function GetImage(id: int): (r: Option<Image>)
      reads this
      requires Valid()
      ensures r.Some? <==> 1 <= id < currentId
      ensures r.Some? ==> r.value.id == id && r.value == images[id]
    {
      if id in images then Some(images[id]) else None
    }

    /** Every stored record exactly once, newest (highest id) first; one per create so far. */
    function GetAllImages(): (r: seq<Image>)
      reads this
      requires Valid()
      ensures |r| == currentId - 1
      ensures forall i :: 0 <= i < |r| ==> r[i].id in images && images[r[i].id] == r[i]
      ensures forall k :: k in images ==> images[k] in r
      ensures StrictlyNewestFirst(r)
      ensures |r| > 0 ==> r[0] == images[currentId - 1]
    {
      NewestFirst(images, currentId)
    }
  }
}
