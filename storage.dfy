/** The media cache of src/lib/storage.ts: the in-memory list of converted items, its grouping,
    the storage limit, the persistence flag, and the IndexedDB object store behind them, which
    is an id-keyed map here (`put` upserts, `delete`, `clear`, `getAll`). Whether a DB request
    fails is a parameter of the operation that makes it: such failures are caught and reported
    by the source, so they only decide how far an operation got. */
module Storage {
  import opened Wrappers
  import opened Media
  import Grouping

  // ---------------------------------------------------------------- sorting newest first

  /** Every item is at least as recent as the ones after it. */
  predicate NewestFirst(s: seq<MediaItem>)
  {
    forall i, j :: 0 <= i < j < |s| ==> s[i].date >= s[j].date
  }

  /** The items of `s` with date `d`, in order. */
  function WithDate(s: seq<MediaItem>, d: int): seq<MediaItem>
  {
    if s == [] then [] else (if s[0].date == d then [s[0]] else []) + WithDate(s[1..], d)
  }

  /** Places `x` before the first item that is not newer than it. */
  function Insert(x: MediaItem, s: seq<MediaItem>): (r: seq<MediaItem>)
    ensures |r| == |s| + 1
    ensures multiset(r) == multiset(s) + multiset{x}
  {
    if s == [] || s[0].date <= x.date then [x] + s
    else
      var r := [s[0]] + Insert(x, s[1..]);
      assert s == [s[0]] + s[1..];
      r
  }

  /** Inserting into a list sorted newest first keeps it sorted. */
  lemma {:induction false} InsertKeepsOrder(x: MediaItem, s: seq<MediaItem>)
    requires NewestFirst(s)
    ensures NewestFirst(Insert(x, s))
    ensures Insert(x, s)[0] == x || Insert(x, s)[0] == s[0]
  {
    if s != [] && s[0].date > x.date {
      var rest := Insert(x, s[1..]);
      InsertKeepsOrder(x, s[1..]);
      var r := [s[0]] + rest;
      assert r == Insert(x, s);
      forall i, j | 0 <= i < j < |r| ensures r[i].date >= r[j].date {
        if i == 0 {
          if rest[0] == x {
            assert r[j].date <= rest[0].date;
          } else {
            assert r[j].date <= s[1].date;
          }
        } else {
          assert r[i] == rest[i - 1] && r[j] == rest[j - 1];
        }
      }
    }
  }

  /** `newMedia.sort((a, b) => b.date.getTime() - a.date.getTime())`: the comparator puts the
      more recent item first, and the sort is stable, so items with equal dates keep their
      order. */
  function SortNewestFirst(s: seq<MediaItem>): (r: seq<MediaItem>)
    ensures |r| == |s|
    ensures multiset(r) == multiset(s)
    ensures NewestFirst(r)
  {
    if s == [] then []
    else
      var sorted := SortNewestFirst(s[1..]);
      InsertKeepsOrder(s[0], sorted);
      assert s == [s[0]] + s[1..];
      Insert(s[0], sorted)
  }

  lemma {:induction false} InsertStable(x: MediaItem, s: seq<MediaItem>, d: int)
    ensures WithDate(Insert(x, s), d) == (if x.date == d then [x] else []) + WithDate(s, d)
  {
    if s != [] && s[0].date > x.date {
      var r := Insert(x, s);
      InsertStable(x, s[1..], d);
      assert r == [s[0]] + Insert(x, s[1..]);
      assert r[1..] == Insert(x, s[1..]);
    }
  }

  /** The sort is stable: among the items of one date, the order of `s` is kept. */
  lemma {:induction false} SortIsStable(s: seq<MediaItem>, d: int)
    ensures WithDate(SortNewestFirst(s), d) == WithDate(s, d)
  {
    if s != [] {
      SortIsStable(s[1..], d);
      InsertStable(s[0], SortNewestFirst(s[1..]), d);
    }
  }

  // ---------------------------------------------------------------- eviction

  const BytesPerMB: int := 1024 * 1024

  /** The sum of the sizes of `s`. */
  function TotalSize(s: seq<MediaItem>): nat
  {
    if s == [] then 0 else s[0].size + TotalSize(s[1..])
  }

  /** The `for…of` loop of `enforceStorageLimit` from the cursor on, where `s` is what is left
      of the array and `total` the running size. Every visited item is added to the total; one
      that takes it past `limit` is spliced out at the cursor, so the array iterator's next
      index lands on the item after the one that moved into its place, which stays unexamined
      and uncounted. */
  function Evict(s: seq<MediaItem>, total: int, limit: int): seq<MediaItem>
    decreases |s|
  {
    if s == [] then []
    else
      var t := total + s[0].size;
      if t > limit then (if |s| == 1 then [] else [s[1]] + Evict(s[2..], t, limit))
      else [s[0]] + Evict(s[1..], t, limit)
  }

  /** What survives the eviction keeps the order of its input: only removals happen. */
  lemma {:induction false} EvictIsSubsequence(s: seq<MediaItem>, total: int, limit: int)
    decreases |s|
    ensures Grouping.IsSubsequence(Evict(s, total, limit), s)
  {
    if s == [] {
    } else {
      var t := total + s[0].size;
      if t > limit {
        if |s| == 1 {
        } else {
          EvictIsSubsequence(s[2..], t, limit);
          Grouping.SubsequenceConsBoth(s[1], Evict(s[2..], t, limit), s[2..]);
          assert s[1..] == [s[1]] + s[2..];
          Grouping.SubsequenceConsRight(s[0], [s[1]] + Evict(s[2..], t, limit), s[1..]);
          assert s == [s[0]] + s[1..];
        }
      } else {
        EvictIsSubsequence(s[1..], t, limit);
        Grouping.SubsequenceConsBoth(s[0], Evict(s[1..], t, limit), s[1..]);
        assert s == [s[0]] + s[1..];
      }
    }
  }

  /** Removal needs the running total to strictly exceed the limit, so the longest prefix whose
      size fits in what is left of the budget is always kept. */
  lemma {:induction false} EvictKeepsPrefixWithinBudget(s: seq<MediaItem>, total: int, limit: int, n: nat)
    requires n <= |s| && total + TotalSize(s[..n]) <= limit
    decreases n
    ensures s[..n] <= Evict(s, total, limit)
  {
    if n > 0 {
      assert s[..n][1..] == s[1..][..n - 1];
      assert TotalSize(s[..n]) == s[0].size + TotalSize(s[1..][..n - 1]);
      EvictKeepsPrefixWithinBudget(s[1..], total + s[0].size, limit, n - 1);
    }
  }

  /** An item of 40 MB dated `date`. */
  function Sample(id: string, date: int): MediaItem
  {
    MediaItem(id, id, id, [], Video, 40 * BytesPerMB, date)
  }

  /** Four items of 40 MB, newest first, against a limit of 100 MB: the third takes the total to
      120 MB and is removed, the fourth is skipped and kept, so 120 MB survive, more than the
      limit. Evicting again removes the fourth, so the eviction is not idempotent either. */
  lemma SpliceKeepsOverBudget()
    ensures var items := [Sample("a", 4), Sample("b", 3), Sample("c", 2), Sample("d", 1)];
      var kept := Evict(items, 0, 100 * BytesPerMB);
      && kept == [items[0], items[1], items[3]]
      && TotalSize(kept) > 100 * BytesPerMB
      && Evict(kept, 0, 100 * BytesPerMB) == [items[0], items[1]]
  {
    var items := [Sample("a", 4), Sample("b", 3), Sample("c", 2), Sample("d", 1)];
    var limit := 100 * BytesPerMB;
    var mb := BytesPerMB;
    assert items[2..][2..] == [];
    assert Evict(items[2..], 80 * mb, limit) == [items[3]];
    assert Evict(items[1..], 40 * mb, limit) == [items[1]] + Evict(items[2..], 80 * mb, limit);
    var kept := [items[0], items[1], items[3]];
    assert kept[1..][1..] == [items[3]];
    assert Evict([items[3]], 80 * mb, limit) == [];
    assert Evict(kept[1..], 40 * mb, limit) == [items[1]];
    assert TotalSize(kept[1..][1..]) == 40 * mb;
    assert TotalSize(kept[1..]) == 80 * mb;
  }

  /** The eviction as evidently intended: keep the newest items while the running total fits,
      and remove every item from the first one that does not fit. */
  function TruncateToBudget(s: seq<MediaItem>, total: int, limit: int): (r: seq<MediaItem>)
    ensures r <= s
  {
    if s == [] || total + s[0].size > limit then []
    else [s[0]] + TruncateToBudget(s[1..], total + s[0].size, limit)
  }

  /** The survivors of the intended eviction fit in the budget left, the eviction removes an
      item only when keeping it would not fit, and a second pass removes nothing. */
  lemma {:induction false} TruncateToBudgetSpec(s: seq<MediaItem>, total: int, limit: int)
    decreases |s|
    ensures var r := TruncateToBudget(s, total, limit);
      && (total <= limit ==> total + TotalSize(r) <= limit)
      && (|r| < |s| ==> total + TotalSize(s[..|r| + 1]) > limit)
      && TruncateToBudget(r, total, limit) == r
  {
    if s != [] && total + s[0].size <= limit {
      var r := TruncateToBudget(s, total, limit);
      var rest := TruncateToBudget(s[1..], total + s[0].size, limit);
      TruncateToBudgetSpec(s[1..], total + s[0].size, limit);
      assert r == [s[0]] + rest;
      assert r[1..] == rest;
      if |r| < |s| {
        assert s[..|r| + 1][1..] == s[1..][..|rest| + 1];
      }
    } else if s != [] {
      assert s[..1][1..] == [];
    }
  }

  /** The intended eviction never removes the longest prefix within budget either. */
  lemma {:induction false} TruncateKeepsPrefixWithinBudget(s: seq<MediaItem>, total: int, limit: int, n: nat)
    requires n <= |s| && total + TotalSize(s[..n]) <= limit
    decreases n
    ensures s[..n] <= TruncateToBudget(s, total, limit)
  {
    if n > 0 {
      assert s[..n][1..] == s[1..][..n - 1];
      assert TotalSize(s[..n]) == s[0].size + TotalSize(s[1..][..n - 1]);
      TruncateKeepsPrefixWithinBudget(s[1..], total + s[0].size, limit, n - 1);
    }
  }

  /** The survivors, seen from the loop with the array `a`, cursor `n` and running total
      `total`: the items before the cursor are kept and the rest still goes through `Evict`.
      The cursor passes the end only after the last item was spliced out. */
  function Pending(a: seq<MediaItem>, n: nat, total: int, limit: int): seq<MediaItem>
  {
    if n <= |a| then a[..n] + Evict(a[n..], total, limit) else a
  }

  /** One turn of the eviction loop at cursor `n` leaves the same survivors to come. */
  lemma EvictStep(a: seq<MediaItem>, n: nat, total: int, limit: int)
    requires n < |a|
    ensures var t := total + a[n].size;
      && (t > limit ==> Pending(a[..n] + a[n + 1..], n + 1, t, limit) == Pending(a, n, total, limit))
      && (t <= limit ==> Pending(a, n + 1, t, limit) == Pending(a, n, total, limit))
  {
    var rest := a[n..];
    assert rest[0] == a[n];
    var t := total + a[n].size;
    if t > limit && n + 1 < |a| {
      var a' := a[..n] + a[n + 1..];
      assert rest[1] == a[n + 1] && rest[2..] == a[n + 2..];
      assert a'[..n + 1] == a[..n] + [rest[1]];
      assert a'[n + 1..] == rest[2..];
    } else if t <= limit {
      assert a[..n + 1] == a[..n] + [a[n]];
      assert a[n + 1..] == rest[1..];
    }
  }

  /** The eviction loop of `enforceStorageLimit` over the sorted copy: `splice` removes the item
      at the cursor, since `indexOf` finds it there. */
  method EvictSorted(sorted: seq<MediaItem>, limit: int) returns (kept: seq<MediaItem>)
    ensures kept == Evict(sorted, 0, limit)
  {
    var media := sorted;
    var totalSize := 0;
    var next := 0;
    assert sorted[..0] + sorted[0..] == sorted;
    while next < |media|
      invariant 0 <= next <= |media| + 1
      invariant Pending(media, next, totalSize, limit) == Evict(sorted, 0, limit)
      decreases |media| + 1 - next
    {
      var item := media[next];
      EvictStep(media, next, totalSize, limit);
      next := next + 1;
      totalSize := totalSize + item.size;
      if totalSize > limit {
        var index := next - 1;
        media := media[..index] + media[index + 1..];
      }
    }
    assert next == |media| ==> media[..next] == media && media[next..] == [];
    kept := media;
  }

  // ---------------------------------------------------------------- the object store

  /** `saveItem` for each of `s` in turn: each `put` replaces the record under the item's id. */
  function PutAll(db: map<string, MediaItem>, s: seq<MediaItem>): map<string, MediaItem>
  {
    if s == [] then db else PutAll(db, s[..|s| - 1])[s[|s| - 1].id := s[|s| - 1]]
  }

  /** After the puts the store holds its old ids and those of `s`, and no other. */
  lemma {:induction false} PutAllKeys(db: map<string, MediaItem>, s: seq<MediaItem>)
    ensures PutAll(db, s).Keys == db.Keys + set i | 0 <= i < |s| :: s[i].id
  {
    if s != [] {
      var init := s[..|s| - 1];
      PutAllKeys(db, init);
      assert forall j :: 0 <= j < |init| ==> init[j] == s[j];
      assert (set i | 0 <= i < |s| :: s[i].id)
          == (set i | 0 <= i < |init| :: init[i].id) + {s[|s| - 1].id};
    }
  }

  /** The puts never lose a record: every old id is still there. */
  lemma {:induction false} PutAllKeepsIds(db: map<string, MediaItem>, s: seq<MediaItem>)
    ensures db.Keys <= PutAll(db, s).Keys
  {
    if s != [] {
      PutAllKeepsIds(db, s[..|s| - 1]);
    }
  }

  /** Each id ends up under the last item of `s` that carries it. */
  lemma {:induction false} PutAllLastWins(db: map<string, MediaItem>, s: seq<MediaItem>, i: nat)
    requires i < |s| && forall j :: i < j < |s| ==> s[j].id != s[i].id
    ensures s[i].id in PutAll(db, s) && PutAll(db, s)[s[i].id] == s[i]
  {
    if i < |s| - 1 {
      PutAllLastWins(db, s[..|s| - 1], i);
    }
  }

  /** An id that no item of `s` carries keeps its old record. */
  lemma {:induction false} PutAllUntouched(db: map<string, MediaItem>, s: seq<MediaItem>, k: string)
    requires k in db && forall j :: 0 <= j < |s| ==> s[j].id != k
    ensures k in PutAll(db, s) && PutAll(db, s)[k] == db[k]
  {
    if s != [] {
      PutAllUntouched(db, s[..|s| - 1], k);
    }
  }

  /** `getAll` listed the store: an item per record, under its own id, and no id twice. The order
      is the store's and is left open. */
  predicate Lists(listing: seq<MediaItem>, db: map<string, MediaItem>)
  {
    && |listing| == |db|
    && (forall i :: 0 <= i < |listing| ==> listing[i].id in db && db[listing[i].id] == listing[i])
    && (forall i, j :: 0 <= i < j < |listing| ==> listing[i].id != listing[j].id)
  }

  /** A listing holds every record of the store. */
  lemma ListingCoversStore(listing: seq<MediaItem>, db: map<string, MediaItem>)
    requires Lists(listing, db)
    ensures forall k :: k in db ==> exists i :: 0 <= i < |listing| && listing[i] == db[k]
  {
    var ids := set i | 0 <= i < |listing| :: listing[i].id;
    IdsDistinctCount(listing);
    SubsetSameSize(ids, db.Keys);
    forall k | k in db ensures exists i :: 0 <= i < |listing| && listing[i] == db[k] {
      var i :| 0 <= i < |listing| && listing[i].id == k;
      assert listing[i] == db[k];
    }
  }

  lemma SubsetSameSize(a: set<string>, b: set<string>)
    requires a <= b && |a| == |b|
    ensures a == b
  {
    assert |b - a| == |b| - |a| by {
      assert b == a + (b - a);
      assert a * (b - a) == {};
    }
  }

  /** Distinct ids make as many ids as items. */
  lemma {:induction false} IdsDistinctCount(s: seq<MediaItem>)
    requires forall i, j :: 0 <= i < j < |s| ==> s[i].id != s[j].id
    ensures |set i | 0 <= i < |s| :: s[i].id| == |s|
  {
    if s != [] {
      var init := s[..|s| - 1];
      IdsDistinctCount(init);
      assert (set i | 0 <= i < |s| :: s[i].id)
          == (set i | 0 <= i < |init| :: init[i].id) + {s[|s| - 1].id};
      assert s[|s| - 1].id !in (set i | 0 <= i < |init| :: init[i].id);
    }
  }

  // ---------------------------------------------------------------- deleting and grouping

  /** `media.filter((item) => item.id !== id)`. */
  function WithoutId(s: seq<MediaItem>, id: string): seq<MediaItem>
  {
    if s == [] then []
    else WithoutId(s[..|s| - 1], id) + (if s[|s| - 1].id != id then [s[|s| - 1]] else [])
  }

  /** The filter removes every item with the id and keeps every other item, as often as it
      occurs and in order. */
  lemma {:induction false} WithoutIdSpec(s: seq<MediaItem>, id: string)
    ensures forall x :: x in WithoutId(s, id) ==> x.id != id
    ensures forall x: MediaItem :: x.id != id ==> multiset(WithoutId(s, id))[x] == multiset(s)[x]
    ensures Grouping.IsSubsequence(WithoutId(s, id), s)
  {
    if s != [] {
      var init, last := s[..|s| - 1], s[|s| - 1];
      WithoutIdSpec(init, id);
      assert s == init + [last];
      var w := WithoutId(init, id);
      if last.id != id {
        assert WithoutId(s, id) == w + [last];
        assert (w + [last])[..|w|] == w;
      } else {
        assert WithoutId(s, id) == w;
        Grouping.SubsequenceDropLast(w, s);
      }
    }
  }

  /** The fields `groupMediaByField` can group on. */
  datatype Field = Id | OriginalName | ConvertedName | Blob | Type | Size | Date

  /** The decimal text of a size, as a property key. */
  function DecimalText(n: nat): string
  {
    if n < 10 then ["0123456789"[n]] else DecimalText(n / 10) + ["0123456789"[n % 10]]
  }

  /** `item[field]` used as a property key, which converts it to a string: `typeText` is the
      value of the media type enumeration and `dateText` is `Date.prototype.toString`, both
      outside this model. */
  function FieldKey(field: Field, typeText: MediaType -> string, dateText: int -> string,
                    item: MediaItem): string
  {
    match field
    case Id => item.id
    case OriginalName => item.originalName
    case ConvertedName => item.convertedName
    case Blob => "[object Blob]"
    case Type => typeText(item.mediaType)
    case Size => DecimalText(item.size)
    case Date => dateText(item.date)
  }

  // ---------------------------------------------------------------- the module's stores

  class MediaCache {
    var convertedMedia: seq<MediaItem>
    var groupedConvertedMedia: map<string, seq<MediaItem>>
    var storageLimitMB: int
    var persistMedia: bool
    var db: map<string, MediaItem>

    /** The stores as the module creates them, over a store that already holds `stored`. */
    constructor (stored: map<string, MediaItem>)
      ensures convertedMedia == [] && groupedConvertedMedia == map[]
      ensures storageLimitMB == 100 && persistMedia && db == stored
    {
      convertedMedia, groupedConvertedMedia := [], map[];
      storageLimitMB, persistMedia := 100, true;
      db := stored;
    }

    /** `loadConvertedMediaFromStorage`; `listing` is what `getAll` resolved with, or `None` when
        it rejected, which leaves memory as it was. */
    method LoadConvertedMediaFromStorage(listing: Option<seq<MediaItem>>)
      requires listing.Some? ==> Lists(listing.value, db)
      modifies this`convertedMedia
      ensures convertedMedia == if listing.Some? then listing.value else old(convertedMedia)
    {
      if listing.Some? {
        convertedMedia := listing.value;
      }
    }

    /** `saveConvertedMediaToStorage`; the first `okCount` puts succeed and the next one, if
        any, rejects and ends the loop. */
    method SaveConvertedMediaToStorage(okCount: nat)
      modifies this`db
      ensures db == PutAll(old(db), convertedMedia[..Min(okCount, |convertedMedia|)])
    {
      var media := convertedMedia;
      var i := 0;
      while i < |media|
        invariant 0 <= i <= |media| && i <= okCount
        invariant db == PutAll(old(db), media[..i])
      {
        if i == okCount {
          return;
        }
        var item := media[i];
        assert media[..i + 1][..i] == media[..i];
        db := db[item.id := item];
        i := i + 1;
      }
      assert media[..i] == media;
    }

    /** `deleteMediaItem(id)`: the in-memory removal happens first and stands even when the
        store's `delete` rejects (`dbOk` false). */
    method DeleteMediaItem(id: string, dbOk: bool)
      modifies this`convertedMedia, this`db
      ensures convertedMedia == WithoutId(old(convertedMedia), id)
      ensures db == if dbOk then old(db) - {id} else old(db)
    {
      convertedMedia := WithoutId(convertedMedia, id);
      if dbOk {
        db := db - {id};
      }
    }

    /** `deleteAllMedia`: memory is emptied before the store's `clear`, which may reject. */
    method DeleteAllMedia(dbOk: bool)
      modifies this`convertedMedia, this`db
      ensures convertedMedia == []
      ensures db == if dbOk then map[] else old(db)
    {
      convertedMedia := [];
      if dbOk {
        db := map[];
      }
    }

    /** `enforceStorageLimit`: sort a copy newest first, run the eviction loop over it with
        `splice` removing at the cursor, commit the survivors, and save them when persistence
        is on; `okCount` is as for the save. Records of evicted items stay in the store. */
    method EnforceStorageLimit(okCount: nat)
      modifies this`convertedMedia, this`db
      ensures convertedMedia
           == Evict(SortNewestFirst(old(convertedMedia)), 0, storageLimitMB * BytesPerMB)
      ensures db == if persistMedia then PutAll(old(db), convertedMedia[..Min(okCount, |convertedMedia|)])
                    else old(db)
      ensures old(db).Keys <= db.Keys
    {
      var media := SortNewestFirst(convertedMedia);
      media := EvictSorted(media, storageLimitMB * BytesPerMB);
      convertedMedia := media;
      if persistMedia {
        SaveConvertedMediaToStorage(okCount);
        PutAllKeepsIds(old(db), media[..Min(okCount, |media|)]);
      }
    }

    /** `togglePersistMedia`, after the flag has been set: save everything when it is on, and
        otherwise `deleteAllMedia`, which empties memory as well as the store. */
    method TogglePersistMedia(okCount: nat, clearOk: bool)
      modifies this`convertedMedia, this`db
      ensures persistMedia ==> convertedMedia == old(convertedMedia)
                               && db == PutAll(old(db), convertedMedia[..Min(okCount, |convertedMedia|)])
      ensures !persistMedia ==> convertedMedia == [] && db == (if clearOk then map[] else old(db))
    {
      if persistMedia {
        SaveConvertedMediaToStorage(okCount);
      } else {
        DeleteAllMedia(clearOk);
      }
    }

    /** `groupMediaByField(field)`: one group per key that occurs, holding the items with that
        key in the order of memory. When some item's key is an inherited property name the
        `reduce` throws, `ok` is false and the grouping store keeps its old value. */
    method GroupMediaByField(field: Field, typeText: MediaType -> string, dateText: int -> string)
      returns (ok: bool)
      modifies this`groupedConvertedMedia
      ensures var key := (item: MediaItem) => FieldKey(field, typeText, dateText, item);
        && (ok <==> forall i :: 0 <= i < |convertedMedia| ==> key(convertedMedia[i]) !in Grouping.InheritedKeys)
        && (!ok ==> groupedConvertedMedia == old(groupedConvertedMedia))
        && (ok ==> forall k :: k in groupedConvertedMedia <==>
                     exists i :: 0 <= i < |convertedMedia| && key(convertedMedia[i]) == k)
        && (ok ==> forall k :: k in groupedConvertedMedia ==>
                     groupedConvertedMedia[k] == Grouping.Select(convertedMedia, key, k))
    {
      var key := (item: MediaItem) => FieldKey(field, typeText, dateText, item);
      var grouped := Grouping.GroupBy(convertedMedia, key);
      ok := grouped.Some?;
      if ok {
        groupedConvertedMedia := grouped.value;
      }
    }
  }
}
