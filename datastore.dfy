/** The in-memory store (server/datastore.py): an ordered collection of items
    identified by an integer id, with append, lookup by id and a filtered,
    cursor-paginated scan. The store is generic; `idOf` is the id accessor that
    the source reaches through the `.id` attribute. */
module Datastore {
  import opened Common

  /** Page size used when the caller gives no limit. */
  const DEFAULT_LIMIT: nat := 10

  datatype StoreError = DuplicateId(id: int) {
    function Message(): string {
      "Item with id " + IntToString(id) + " already exists."
    }
  }

  /** The duplicate-id error reads as datastore.py writes it. */
  lemma DuplicateIdMessageText()
    ensures DuplicateId(7).Message() == "Item with id 7 already exists."
    ensures DuplicateId(-3).Message() == "Item with id -3 already exists."
  {
  }

  /** The duplicate-id error names the id: different ids give different messages. */
  lemma DuplicateIdMessageNamesId(a: int, b: int)
    ensures DuplicateId(a).Message() == DuplicateId(b).Message() <==> a == b
  {
    IntToStringInjective(a, b);
    if DuplicateId(a).Message() == DuplicateId(b).Message() {
      SameFrame("Item with id ", IntToString(a), IntToString(b), " already exists.");
    }
  }

  /** No two items share an id. */
  ghost predicate UniqueIds<T>(s: seq<T>, idOf: T -> int) {
    forall i, j :: 0 <= i < j < |s| ==> idOf(s[i]) != idOf(s[j])
  }

  /** The items that `keep` accepts, in their original order. */
  function Filter<T>(s: seq<T>, keep: T -> bool): (r: seq<T>)
    ensures |r| <= |s|
  {
    if s == [] then []
    else (if keep(s[0]) then [s[0]] else []) + Filter(s[1..], keep)
  }

  /** Each item Filter keeps is one of the originals and passes. */
  lemma {:induction false} FilterSound<T>(s: seq<T>, keep: T -> bool, k: nat)
    requires k < |Filter(s, keep)|
    ensures Filter(s, keep)[k] in s && keep(Filter(s, keep)[k])
  {
    var head := if keep(s[0]) then [s[0]] else [];
    var rest := Filter(s[1..], keep);
    assert Filter(s, keep) == head + rest;
    if k < |head| {
      assert Filter(s, keep)[k] == s[0];
    } else {
      var j := k - |head|;
      assert Filter(s, keep)[k] == rest[j];
      FilterSound(s[1..], keep, j);
      var i :| 0 <= i < |s[1..]| && s[1..][i] == rest[j];
      assert s[i + 1] == rest[j];
    }
  }

  /** Each original item that passes is kept by Filter. */
  lemma {:induction false} FilterComplete<T>(s: seq<T>, keep: T -> bool, k: nat)
    requires k < |s| && keep(s[k])
    ensures s[k] in Filter(s, keep)
  {
    var rest := Filter(s[1..], keep);
    if k == 0 {
      assert Filter(s, keep)[0] == s[0];
    } else {
      assert s[k] == s[1..][k - 1];
      FilterComplete(s[1..], keep, k - 1);
      var i :| 0 <= i < |rest| && rest[i] == s[k];
      var head := if keep(s[0]) then [s[0]] else [];
      assert Filter(s, keep) == head + rest;
      assert Filter(s, keep)[|head| + i] == s[k];
    }
  }

  /** Filtering keeps ids unique. */
  lemma {:induction false} FilterKeepsUniqueIds<T>(s: seq<T>, idOf: T -> int, keep: T -> bool)
    requires UniqueIds(s, idOf)
    ensures UniqueIds(Filter(s, keep), idOf)
  {
    if s != [] {
      var rest := Filter(s[1..], keep);
      forall i, j | 0 <= i < j < |s[1..]| ensures idOf(s[1..][i]) != idOf(s[1..][j]) {
        assert s[1..][i] == s[i + 1] && s[1..][j] == s[j + 1];
      }
      FilterKeepsUniqueIds(s[1..], idOf, keep);
      if keep(s[0]) {
        var r := Filter(s, keep);
        assert r == [s[0]] + rest;
        forall i, j | 0 <= i < j < |r| ensures idOf(r[i]) != idOf(r[j]) {
          if i == 0 {
            FilterSound(s[1..], keep, j - 1);
            var m :| 0 <= m < |s[1..]| && s[1..][m] == rest[j - 1];
            assert r[j] == s[m + 1];
          } else {
            assert r[i] == rest[i - 1] && r[j] == rest[j - 1];
          }
        }
      }
    }
  }

  /** The filtered view get_all starts from: the whole list when no filter is given. */
  function Filtered<T>(s: seq<T>, filterFn: Option<T -> bool>): seq<T> {
    match filterFn
    case None => s
    case Some(keep) => Filter(s, keep)
  }

  /** Position of the first item carrying `id`, if any. */
  function IndexOfId<T>(s: seq<T>, idOf: T -> int, id: int): (r: Option<nat>)
    ensures r.None? <==> forall k :: 0 <= k < |s| ==> idOf(s[k]) != id
    ensures r.Some? ==> r.value < |s| && idOf(s[r.value]) == id
    ensures r.Some? ==> forall k :: 0 <= k < r.value ==> idOf(s[k]) != id
  {
    if s == [] then None
    else if idOf(s[0]) == id then Some(0)
    else match IndexOfId(s[1..], idOf, id)
      case None => None
      case Some(k) => Some(k + 1)
  }

  /** A position carrying `id` with none before it is what IndexOfId finds. */
  lemma FirstMatchIsIndexOfId<T>(s: seq<T>, idOf: T -> int, id: int, i: nat)
    requires i < |s| && idOf(s[i]) == id
    requires forall k :: 0 <= k < i ==> idOf(s[k]) != id
    ensures IndexOfId(s, idOf, id) == Some(i)
  {
    var found := IndexOfId(s, idOf, id);
    assert found.Some?;
    assert !(found.value < i);
    assert !(found.value > i);
  }

  /** The item get_by_id returns: the first one carrying `id`, or None. */
  function FindById<T>(s: seq<T>, idOf: T -> int, id: int): (r: Option<T>)
    ensures r.None? <==> forall k :: 0 <= k < |s| ==> idOf(s[k]) != id
    ensures r.Some? ==> exists k :: 0 <= k < |s| && s[k] == r.value && idOf(s[k]) == id
                                    && forall j :: 0 <= j < k ==> idOf(s[j]) != id
  {
    match IndexOfId(s, idOf, id)
    case None => None
    case Some(k) => Some(s[k])
  }

  /** The filtered view of a list with unique ids has unique ids. */
  lemma FilteredKeepsUniqueIds<T>(items: seq<T>, idOf: T -> int, filterFn: Option<T -> bool>)
    requires UniqueIds(items, idOf)
    ensures UniqueIds(Filtered(items, filterFn), idOf)
  {
    if filterFn.Some? {
      FilterKeepsUniqueIds(items, idOf, filterFn.value);
    }
  }

  /** Where a page begins: just after the first item whose id is the cursor,
      or at the beginning when there is no cursor or no such item. */
  function StartAfter<T>(filtered: seq<T>, idOf: T -> int, cursor: Option<int>): (start: nat)
    ensures start <= |filtered|
  {
    match cursor
    case None => 0
    case Some(c) =>
      match IndexOfId(filtered, idOf, c)
      case None => 0
      case Some(k) => k + 1
  }

  function EffectiveLimit(limit: Option<int>): int {
    limit.GetOr(DEFAULT_LIMIT)
  }

  /** A slice bound normalised as Python does: negative counts from the end,
      then clamped into [0, n]. */
  function SliceBound(i: int, n: nat): (b: nat)
    ensures b <= n
    ensures 0 <= i <= n ==> b == i
    ensures i > n ==> b == n
  {
    if i < 0 then (if i + n < 0 then 0 else i + n)
    else if i > n then n
    else i
  }

  /** Python's s[a:b]. */
  function PySlice<T>(s: seq<T>, a: int, b: int): (r: seq<T>)
    ensures |r| <= |s|
  {
    var lo, hi := SliceBound(a, |s|), SliceBound(b, |s|);
    if lo < hi then s[lo..hi] else []
  }

  /** One page cut from an already filtered list: the slice of `limit` items
      (10 when absent) after the cursor's position. */
  function Cut<T>(filtered: seq<T>, idOf: T -> int, cursor: Option<int>, limit: Option<int>): seq<T> {
    var start := StartAfter(filtered, idOf, cursor);
    PySlice(filtered, start, start + EffectiveLimit(limit))
  }

  /** What get_all returns for the given store contents. */
  function Page<T>(items: seq<T>, idOf: T -> int, cursor: Option<int>, limit: Option<int>,
                   filterFn: Option<T -> bool>): seq<T>
  {
    Cut(Filtered(items, filterFn), idOf, cursor, limit)
  }

  /** A filter that accepts every item leaves the list as it is. */
  lemma {:induction false} FilterAcceptingAll<T>(s: seq<T>, keep: T -> bool)
    requires forall k :: 0 <= k < |s| ==> keep(s[k])
    ensures Filter(s, keep) == s
  {
    if s != [] {
      FilterAcceptingAll(s[1..], keep);
      assert s == [s[0]] + s[1..];
    }
  }

  /** A filter that rejects every item leaves nothing. */
  lemma {:induction false} FilterRejectingAll<T>(s: seq<T>, keep: T -> bool)
    requires forall k :: 0 <= k < |s| ==> !keep(s[k])
    ensures Filter(s, keep) == []
  {
    if s != [] {
      FilterRejectingAll(s[1..], keep);
    }
  }

  /** A filter that accepts every stored item gives the same pages as no filter. */
  lemma PageAcceptingAll<T>(items: seq<T>, idOf: T -> int, cursor: Option<int>, limit: Option<int>,
                            keep: T -> bool)
    requires forall k :: 0 <= k < |items| ==> keep(items[k])
    ensures Page(items, idOf, cursor, limit, Some(keep)) == Page(items, idOf, cursor, limit, None)
  {
    FilterAcceptingAll(items, keep);
    assert Filtered(items, Some(keep)) == Filtered(items, None);
  }

  /** Filtering distributes over concatenation, so the original order is kept. */
  lemma {:induction false} FilterAppend<T>(a: seq<T>, b: seq<T>, keep: T -> bool)
    ensures Filter(a + b, keep) == Filter(a, keep) + Filter(b, keep)
  {
    if a == [] {
      assert a + b == b;
    } else {
      var head := if keep(a[0]) then [a[0]] else [];
      assert (a + b)[0] == a[0];
      assert (a + b)[1..] == a[1..] + b;
      calc {
        Filter(a + b, keep);
        head + Filter(a[1..] + b, keep);
        { FilterAppend(a[1..], b, keep); }
        head + (Filter(a[1..], keep) + Filter(b, keep));
        (head + Filter(a[1..], keep)) + Filter(b, keep);
      }
    }
  }

  /** A page cut from a list is the run of it that starts at the cursor's position. */
  lemma CutIsContiguousRun<T>(filtered: seq<T>, idOf: T -> int, cursor: Option<int>, limit: Option<int>)
    ensures var start := StartAfter(filtered, idOf, cursor);
            var r := Cut(filtered, idOf, cursor, limit);
            start + |r| <= |filtered| && r == filtered[start..start + |r|]
  {
    var start := StartAfter(filtered, idOf, cursor);
    var hi := SliceBound(start + EffectiveLimit(limit), |filtered|);
    if start >= hi {
      assert Cut(filtered, idOf, cursor, limit) == [];
    }
  }

  /** A page is a contiguous run of the filtered list, beginning where the
      cursor leaves off. */
  lemma PageIsContiguousRun<T>(items: seq<T>, idOf: T -> int, cursor: Option<int>, limit: Option<int>,
                               filterFn: Option<T -> bool>)
    ensures var filtered := Filtered(items, filterFn);
            var start := StartAfter(filtered, idOf, cursor);
            var r := Page(items, idOf, cursor, limit, filterFn);
            start + |r| <= |filtered| && r == filtered[start..start + |r|]
  {
    CutIsContiguousRun(Filtered(items, filterFn), idOf, cursor, limit);
  }

  /** Every item on a page is stored and passes the filter. */
  lemma PageItemsPassFilter<T>(items: seq<T>, idOf: T -> int, cursor: Option<int>, limit: Option<int>,
                               filterFn: Option<T -> bool>)
    ensures var r := Page(items, idOf, cursor, limit, filterFn);
            forall k :: 0 <= k < |r| ==> r[k] in items && (filterFn.Some? ==> filterFn.value(r[k]))
  {
    var filtered := Filtered(items, filterFn);
    var start := StartAfter(filtered, idOf, cursor);
    var r := Page(items, idOf, cursor, limit, filterFn);
    PageIsContiguousRun(items, idOf, cursor, limit, filterFn);
    forall k | 0 <= k < |r|
      ensures r[k] in items && (filterFn.Some? ==> filterFn.value(r[k]))
    {
      assert r[k] == filtered[start + k];
      if filterFn.Some? {
        assert filtered == Filter(items, filterFn.value);
        FilterSound(items, filterFn.value, start + k);
      }
    }
  }

  /** With a non-negative limit (10 when absent) the page holds that many items,
      or all that remain after the start if fewer. */
  lemma PageLength<T>(items: seq<T>, idOf: T -> int, cursor: Option<int>, limit: Option<int>,
                      filterFn: Option<T -> bool>)
    requires limit.None? || limit.value >= 0
    ensures var filtered := Filtered(items, filterFn);
            var remaining := |filtered| - StartAfter(filtered, idOf, cursor);
            var lim := if limit.Some? then limit.value else DEFAULT_LIMIT;
            |Page(items, idOf, cursor, limit, filterFn)| == if lim < remaining then lim else remaining
    ensures limit.None? ==> |Page(items, idOf, cursor, limit, filterFn)| <= DEFAULT_LIMIT
    ensures limit == Some(0) ==> Page(items, idOf, cursor, limit, filterFn) == []
  {
  }

  /** A cursor equal to the id at filtered position i (and at no earlier
      position) makes the page start at position i + 1. */
  lemma PageAfterCursor<T>(items: seq<T>, idOf: T -> int, c: int, limit: Option<int>,
                           filterFn: Option<T -> bool>, i: nat)
    requires i < |Filtered(items, filterFn)|
    requires idOf(Filtered(items, filterFn)[i]) == c
    requires forall k :: 0 <= k < i ==> idOf(Filtered(items, filterFn)[k]) != c
    ensures StartAfter(Filtered(items, filterFn), idOf, Some(c)) == i + 1
    ensures Page(items, idOf, Some(c), limit, filterFn)
            == PySlice(Filtered(items, filterFn), i + 1, i + 1 + EffectiveLimit(limit))
  {
    FirstMatchIsIndexOfId(Filtered(items, filterFn), idOf, c, i);
  }

  /** With unique ids, the id at position i of a list used as cursor starts
      the next page at i + 1. */
  lemma StartAfterUniqueId<T>(filtered: seq<T>, idOf: T -> int, i: nat)
    requires UniqueIds(filtered, idOf)
    requires i < |filtered|
    ensures StartAfter(filtered, idOf, Some(idOf(filtered[i]))) == i + 1
  {
    FirstMatchIsIndexOfId(filtered, idOf, idOf(filtered[i]), i);
  }

  /** A cursor that no filtered item carries is ignored: the page is the first one. */
  lemma UnknownCursorIsIgnored<T>(items: seq<T>, idOf: T -> int, c: int, limit: Option<int>,
                                  filterFn: Option<T -> bool>)
    requires forall k :: 0 <= k < |Filtered(items, filterFn)| ==> idOf(Filtered(items, filterFn)[k]) != c
    ensures Page(items, idOf, Some(c), limit, filterFn) == Page(items, idOf, None, limit, filterFn)
  {
  }

  /** The pages of a filtered list read one after another, each cursor being
      the id of the previous page's last item, until a page comes back empty. */
  function Walk<T>(filtered: seq<T>, idOf: T -> int, lim: nat, cursor: Option<int>): seq<T>
    requires 0 < lim && UniqueIds(filtered, idOf)
    decreases |filtered| - StartAfter(filtered, idOf, cursor)
  {
    var page := Cut(filtered, idOf, cursor, Some(lim));
    if page == [] then []
    else
      CutAdvances(filtered, idOf, lim, cursor);
      page + Walk(filtered, idOf, lim, Some(idOf(page[|page| - 1])))
  }

  /** The id of a non-empty page's last item, used as the next cursor, moves
      the start just past that page. */
  lemma CutAdvances<T>(filtered: seq<T>, idOf: T -> int, lim: nat, cursor: Option<int>)
    requires 0 < lim && UniqueIds(filtered, idOf)
    requires Cut(filtered, idOf, cursor, Some(lim)) != []
    ensures var page := Cut(filtered, idOf, cursor, Some(lim));
            StartAfter(filtered, idOf, Some(idOf(page[|page| - 1])))
            == StartAfter(filtered, idOf, cursor) + |page|
  {
    var page := Cut(filtered, idOf, cursor, Some(lim));
    var start := StartAfter(filtered, idOf, cursor);
    CutIsContiguousRun(filtered, idOf, cursor, Some(lim));
    var last := start + |page| - 1;
    assert page[|page| - 1] == filtered[last];
    StartAfterUniqueId(filtered, idOf, last);
  }

  /** A page followed by everything after it is everything from the page's start. */
  lemma PageThenRest<T>(filtered: seq<T>, idOf: T -> int, lim: nat, cursor: Option<int>, rest: seq<T>)
    requires 0 < lim && UniqueIds(filtered, idOf)
    requires Cut(filtered, idOf, cursor, Some(lim)) != []
    requires var page := Cut(filtered, idOf, cursor, Some(lim));
             rest == filtered[StartAfter(filtered, idOf, Some(idOf(page[|page| - 1])))..]
    ensures Cut(filtered, idOf, cursor, Some(lim)) + rest == filtered[StartAfter(filtered, idOf, cursor)..]
  {
    var page := Cut(filtered, idOf, cursor, Some(lim));
    var start := StartAfter(filtered, idOf, cursor);
    CutAdvances(filtered, idOf, lim, cursor);
    CutIsContiguousRun(filtered, idOf, cursor, Some(lim));
    assert page == filtered[start..start + |page|];
    assert rest == filtered[start + |page|..];
  }

  /** Walking the pages from any cursor yields everything after its start. */
  lemma {:induction false} WalkFrom<T>(filtered: seq<T>, idOf: T -> int, lim: nat, cursor: Option<int>)
    requires 0 < lim && UniqueIds(filtered, idOf)
    ensures Walk(filtered, idOf, lim, cursor) == filtered[StartAfter(filtered, idOf, cursor)..]
    decreases |filtered| - StartAfter(filtered, idOf, cursor)
  {
    var page := Cut(filtered, idOf, cursor, Some(lim));
    if page == [] {
      assert SliceBound(StartAfter(filtered, idOf, cursor) + lim, |filtered|) <= StartAfter(filtered, idOf, cursor);
    } else {
      var next := Some(idOf(page[|page| - 1]));
      CutAdvances(filtered, idOf, lim, cursor);
      WalkFrom(filtered, idOf, lim, next);
      PageThenRest(filtered, idOf, lim, cursor, Walk(filtered, idOf, lim, next));
    }
  }

  /** What a client reads by calling get_all with limit `lim` from `cursor`,
      then again with the id of each page's last item, until a page is empty. */
  function Traverse<T>(items: seq<T>, idOf: T -> int, lim: nat, cursor: Option<int>,
                       filterFn: Option<T -> bool>): seq<T>
    requires 0 < lim && UniqueIds(Filtered(items, filterFn), idOf)
  {
    Walk(Filtered(items, filterFn), idOf, lim, cursor)
  }

  /** Each step of the walk is one get_all call. */
  lemma TraverseStep<T>(items: seq<T>, idOf: T -> int, lim: nat, cursor: Option<int>,
                        filterFn: Option<T -> bool>)
    requires 0 < lim && UniqueIds(Filtered(items, filterFn), idOf)
    ensures var page := Page(items, idOf, cursor, Some(lim), filterFn);
            && (page == [] ==> Traverse(items, idOf, lim, cursor, filterFn) == [])
            && (page != [] ==> Traverse(items, idOf, lim, cursor, filterFn)
                               == page + Traverse(items, idOf, lim, Some(idOf(page[|page| - 1])), filterFn))
  {
  }

  /** With unique ids, paging from no cursor visits every filtered item
      exactly once, in order. */
  lemma TraverseVisitsAll<T>(items: seq<T>, idOf: T -> int, lim: nat, filterFn: Option<T -> bool>)
    requires 0 < lim && UniqueIds(Filtered(items, filterFn), idOf)
    ensures Traverse(items, idOf, lim, None, filterFn) == Filtered(items, filterFn)
  {
    WalkFrom(Filtered(items, filterFn), idOf, lim, None);
  }

  /** A store whose ids are unique, as Add keeps them, is read completely and
      exactly once by paging from no cursor, whatever the filter. */
  lemma TraverseStoreVisitsAll<T>(items: seq<T>, idOf: T -> int, lim: nat, filterFn: Option<T -> bool>)
    requires 0 < lim && UniqueIds(items, idOf)
    ensures UniqueIds(Filtered(items, filterFn), idOf)
            && Traverse(items, idOf, lim, None, filterFn) == Filtered(items, filterFn)
  {
    FilteredKeepsUniqueIds(items, idOf, filterFn);
    TraverseVisitsAll(items, idOf, lim, filterFn);
  }

  /** With repeated ids the walk can stall: when the first two items share the
      id c, the page after cursor c with limit 1 is the second item, whose id
      is c again, so following the last id returns that page forever. */
  lemma RepeatedIdRepeatsPage<T>(filtered: seq<T>, idOf: T -> int, c: int)
    requires 2 <= |filtered| && idOf(filtered[0]) == c && idOf(filtered[1]) == c
    ensures Cut(filtered, idOf, Some(c), Some(1)) == [filtered[1]]
    ensures !UniqueIds(filtered, idOf)
  {
    FirstMatchIsIndexOfId(filtered, idOf, c, 0);
  }

  class InMemoryDataStore<T> {
    const idOf: T -> int
    var items: seq<T>

    /** The store takes the initial list as it is; uniqueness of its ids is not checked. */
    constructor (idOf: T -> int, initialItems: seq<T>)
      ensures this.idOf == idOf && items == initialItems
    {
      this.idOf := idOf;
      items := initialItems;
    }

    /** Appends `item` unless an item with the same id is already stored. */
    method Add(item: T) returns (r: Result<T, StoreError>)
      modifies this
      ensures FindById(old(items), idOf, idOf(item)).Some? ==>
                r == Failure(DuplicateId(idOf(item))) && items == old(items)
      ensures FindById(old(items), idOf, idOf(item)).None? ==>
                r == Success(item) && items == old(items) + [item]
      ensures old(UniqueIds(items, idOf)) ==> UniqueIds(items, idOf)
    {
      var existing := GetById(idOf(item));
      if existing.Some? {
        return Failure(DuplicateId(idOf(item)));
      }
      items := items + [item];
      return Success(item);
    }

    /** Linear scan for the first item carrying `id`. */
    method GetById(id: int) returns (r: Option<T>)
      ensures r == FindById(items, idOf, id)
    {
      for i := 0 to |items|
        invariant forall k :: 0 <= k < i ==> idOf(items[k]) != id
      {
        if idOf(items[i]) == id {
          return Some(items[i]);
        }
      }
      return None;
    }

    /** Filters, finds where the cursor leaves off, and cuts one page. */
    method GetAll(cursor: Option<int>, limit: Option<int>, filterFn: Option<T -> bool>) returns (r: seq<T>)
      ensures r == Page(items, idOf, cursor, limit, filterFn)
    {
      var filtered := Filtered(items, filterFn);
      var startIndex := 0;
      if cursor.Some? {
        var index := 0;
        while index < |filtered|
          invariant 0 <= index <= |filtered|
          invariant forall k :: 0 <= k < index ==> idOf(filtered[k]) != cursor.value
          invariant startIndex == 0
        {
          if idOf(filtered[index]) == cursor.value {
            FirstMatchIsIndexOfId(filtered, idOf, cursor.value, index);
            startIndex := index + 1;
            break;
          }
          index := index + 1;
        }
      }
      assert startIndex == StartAfter(filtered, idOf, cursor);
      r := PySlice(filtered, startIndex, startIndex + EffectiveLimit(limit));
    }
  }
}
