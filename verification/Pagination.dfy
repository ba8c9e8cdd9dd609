/** Offset and limit windows over a list that every call sorts again. */
module Pagination {
  import opened Sorting
  import opened Wrappers

  const MAX_INT64 := 0x7FFF_FFFF_FFFF_FFFF

  const DEFAULT_LIST_LIMIT := 100

  type Int64 = x: int | -MAX_INT64 - 1 <= x <= MAX_INT64

  function Wrap64(x: int): (r: Int64)
    ensures -MAX_INT64 - 1 <= x <= MAX_INT64 ==> r == x
    ensures MAX_INT64 < x <= 2 * MAX_INT64 ==> r < 0
  {
    var low := x % 0x1_0000_0000_0000_0000;
    if low <= MAX_INT64 then low else low - 0x1_0000_0000_0000_0000
  }

  function Min(a: int, b: int): int { if a <= b then a else b }

  datatype Resource = Resource(namespace: string, name: string, content: string)

  predicate Before(x: Resource, y: Resource) {
    if x.namespace != y.namespace then Less(x.namespace, y.namespace) else Less(x.name, y.name)
  }

  /** Resources are listed by namespace, in byte order, and by name within one. */
  lemma BeforeMeans(x: Resource, y: Resource)
    ensures Before(x, y) <==>
      FirstDiffers(x.namespace, y.namespace) || (x.namespace == y.namespace && FirstDiffers(x.name, y.name))
  {
    LessIff(x.namespace, y.namespace);
    LessIff(x.name, y.name);
  }

  lemma BeforeIsAnOrder()
    ensures StrictWeakOrder(Before)
    ensures forall x, y :: Before(x, y) || Before(y, x) || (x.namespace == y.namespace && x.name == y.name)
  {
    LessIsAnOrder();
  }

  datatype Page = Page(items: seq<Resource>, total: Int64, offset: Int64, limit: Int64, hasMore: bool)

  datatype Panic = SliceOutOfRange

  function EffectiveLimit(limit: Int64): Int64 { if limit <= 0 then DEFAULT_LIST_LIMIT else limit }

  function EffectiveOffset(offset: Int64): Int64 { if offset < 0 then 0 else offset }

  /** What the request means: that many resources of the sorted list from the offset. */
  predicate IsWindow(page: Page, sorted: seq<Resource>, offset: Int64, limit: Int64) {
    && page.offset == (if offset >= 0 then offset else 0) && page.limit == (if limit >= 1 then limit else 100)
    && page.total == |sorted|
    && page.items == sorted[Min(page.offset, |sorted|)..Min(page.offset + page.limit, |sorted|)]
    && (page.hasMore <==> page.offset + page.limit < |sorted|)
  }

  /** The page a call on this sorted list returns. */
  function PageAt(sorted: seq<Resource>, offset: Int64, limit: Int64): (r: Result<Page, Panic>)
    requires |sorted| <= MAX_INT64
    ensures r.Success? ==> IsWindow(r.value, sorted, offset, limit)
    ensures r.Success? ==> |r.value.items| <= r.value.limit
    ensures r.Failure? <==>
      (if offset >= 0 then offset else 0) + (if limit >= 1 then limit else 100) > 0x7FFF_FFFF_FFFF_FFFF
  {
    var off, lim := EffectiveOffset(offset), EffectiveLimit(limit);
    if off + lim > MAX_INT64 then Failure(SliceOutOfRange)
    else Success(Page(sorted[Min(off, |sorted|)..Min(off + lim, |sorted|)], |sorted|, off, lim, off + lim < |sorted|))
  }

  method SortAndPaginate(resources: array<Resource>, offset: Int64, limit: Int64) returns (r: Result<Page, Panic>)
    requires resources.Length <= MAX_INT64
    modifies resources
    ensures SortedPermutation(resources[..], old(resources[..]), Before)
    ensures r == PageAt(resources[..], offset, limit)
  {
    BeforeIsAnOrder();
    SortSlice(resources, Before);
    r := Window(resources, offset, limit);
  }

  method Window(resources: array<Resource>, offset: Int64, limit: Int64) returns (r: Result<Page, Panic>)
    requires resources.Length <= MAX_INT64
    ensures r == PageAt(resources[..], offset, limit)
  {
    var lim := if limit <= 0 then DEFAULT_LIST_LIMIT else limit;
    var off := if offset < 0 then 0 else offset;
    var total := resources.Length;
    var start := Min(off, total);
    var end := Min(Wrap64(off + lim), total);
    if !(0 <= start <= end <= total) {
      return Failure(SliceOutOfRange);
    }
    assert resources[start..end] == resources[..][start..end];
    r := Success(Page(resources[start..end], total, off, lim, Wrap64(off + lim) < total));
  }

  /** Following offset + limit while there is more. Call `k` meets the list as
      `lists(k)`, already sorted. */
  function Follow(lists: nat -> seq<Resource>, n: nat, limit: Int64, k: nat, offset: Int64): Result<seq<Page>, Panic>
    requires n <= MAX_INT64 && forall j :: |lists(j)| == n
    decreases n - offset
  {
    var r := PageAt(lists(k), offset, limit);
    if r.Failure? then Failure(r.error)
    else if !r.value.hasMore then Success([r.value])
    else
      var rest := Follow(lists, n, limit, k + 1, r.value.offset + r.value.limit);
      if rest.Failure? then rest else Success([r.value] + rest.value)
  }

  function ItemsOf(pages: seq<Page>): seq<Resource> {
    if pages == [] then [] else pages[0].items + ItemsOf(pages[1..])
  }

  predicate DistinctKeys(resources: seq<Resource>) {
    forall i, j :: 0 <= i < j < |resources| ==>
      resources[i].namespace != resources[j].namespace || resources[i].name != resources[j].name
  }

  lemma AnyOrderSortsAlike(a: seq<Resource>, b: seq<Resource>, original: seq<Resource>)
    requires DistinctKeys(a)
    requires SortedPermutation(a, original, Before) && SortedPermutation(b, original, Before)
    ensures a == b
  {
    BeforeIsAnOrder();
    SortedIsUnique(a, b, Before);
  }

  /** One page of `limit` when it covers the rest, otherwise one more than for what is
      left after it. */
  function PageCount(n: nat, limit: nat): (c: nat)
    requires limit > 0
    ensures c >= 1
  {
    if n <= limit then 1 else 1 + PageCount(n - limit, limit)
  }

  /** Where the window of the last page ends. */
  function LastEnd(n: nat, limit: nat): (e: nat)
    requires limit > 0
    ensures e >= limit
  {
    if n <= limit then limit else limit + LastEnd(n - limit, limit)
  }

  lemma {:induction false} LastEndIsCountTimesLimit(n: nat, limit: nat)
    requires limit > 0
    ensures LastEnd(n, limit) == PageCount(n, limit) * limit
  {
    if n > limit {
      LastEndIsCountTimesLimit(n - limit, limit);
      var c := PageCount(n - limit, limit);
      assert (c + 1) * limit == c * limit + limit;
    }
  }

  /** It is max(1, ceil(n / limit)). */
  lemma {:induction false} PageCountIsCeiling(n: nat, limit: nat)
    requires limit > 0
    ensures var c := PageCount(n, limit); (c - 1) * limit < (if n == 0 then 1 else n) && n <= c * limit
  {
    if n > limit {
      PageCountIsCeiling(n - limit, limit);
      var c := PageCount(n - limit, limit);
      assert (c + 1 - 1) * limit == (c - 1) * limit + limit && (c + 1) * limit == c * limit + limit;
    }
  }

  /** The pages end where they should and show everything from the offset. */
  predicate Covers(r: Result<seq<Page>, Panic>, sorted: seq<Resource>, lim: nat, offset: nat)
    requires lim > 0 && offset <= |sorted|
  {
    var left := |sorted| - offset;
    && (r.Success? <==> offset + LastEnd(left, lim) <= MAX_INT64)
    && (r.Success? ==> ItemsOf(r.value) == sorted[offset..] && |r.value| == PageCount(left, lim))
  }

  lemma {:induction false} FollowFrom(lists: nat -> seq<Resource>, sorted: seq<Resource>, limit: Int64, k: nat,
                                      offset: Int64)
    requires |sorted| <= MAX_INT64 && forall j :: lists(j) == sorted
    requires 0 <= offset <= |sorted|
    ensures Covers(Follow(lists, |sorted|, limit, k, offset), sorted, EffectiveLimit(limit), offset)
    decreases |sorted| - offset
  {
    var lim := EffectiveLimit(limit);
    assert lists(k) == sorted;
    if |sorted| - offset <= lim {
      LastPageCovers(sorted, limit, offset);
    } else {
      FollowFrom(lists, sorted, limit, k + 1, offset + lim);
      PageThenRestCover(sorted, limit, offset, Follow(lists, |sorted|, limit, k + 1, offset + lim));
    }
  }

  lemma LastPageCovers(sorted: seq<Resource>, limit: Int64, offset: Int64)
    requires 0 <= offset <= |sorted| <= MAX_INT64 && |sorted| - offset <= EffectiveLimit(limit)
    ensures var r := PageAt(sorted, offset, limit);
      && (r.Success? ==> !r.value.hasMore)
      && Covers(if r.Success? then Success([r.value]) else Failure(r.error), sorted, EffectiveLimit(limit), offset)
  {
    var r := PageAt(sorted, offset, limit);
    if r.Success? {
      ItemsOfOne(r.value);
    }
  }

  lemma PageThenRestCover(sorted: seq<Resource>, limit: Int64, offset: Int64, rest: Result<seq<Page>, Panic>)
    requires 0 <= offset && |sorted| <= MAX_INT64 && offset + EffectiveLimit(limit) < |sorted|
    requires Covers(rest, sorted, EffectiveLimit(limit), offset + EffectiveLimit(limit))
    ensures PageAt(sorted, offset, limit).Success?
    ensures var page := PageAt(sorted, offset, limit).value;
      page.hasMore && page.offset == offset && page.limit == EffectiveLimit(limit) &&
      Covers(if rest.Failure? then rest else Success([page] + rest.value), sorted, EffectiveLimit(limit), offset)
  {
    var page := PageAt(sorted, offset, limit).value;
    if rest.Success? {
      ItemsOfMore(page, rest.value);
      JoinWindows(sorted, offset, offset + EffectiveLimit(limit));
    }
  }

  lemma ItemsOfOne(page: Page)
    ensures ItemsOf([page]) == page.items
  {
    assert [page][1..] == [];
  }

  lemma ItemsOfMore(page: Page, rest: seq<Page>)
    ensures ItemsOf([page] + rest) == page.items + ItemsOf(rest)
  {
    assert ([page] + rest)[1..] == rest;
  }

  lemma JoinWindows(s: seq<Resource>, i: nat, j: nat)
    requires i <= j <= |s|
    ensures s[i..j] + s[j..] == s[i..]
  {
  }

  /** A client that follows offset + limit from 0, whatever order the API lists the
      resources in each time, gets every resource exactly once, in order, in
      max(1, ceil(n / limit)) pages; the traversal breaks off exactly when the end of
      its last page does not fit int64. */
  lemma TraversalVisitsEachOnce(answers: nat -> seq<Resource>, lists: nat -> seq<Resource>, limit: Int64)
    requires |lists(0)| <= MAX_INT64 && DistinctKeys(lists(0))
    requires forall j :: multiset(answers(j)) == multiset(answers(0))
    requires forall j :: SortedPermutation(lists(j), answers(j), Before)
    ensures forall j :: lists(j) == lists(0)
    ensures var n, lim := |lists(0)|, if limit >= 1 then limit else 100;
      var r, c := Follow(lists, n, limit, 0, 0), PageCount(n, lim);
      && (r.Success? <==> c * lim <= MAX_INT64)
      && (r.Success? ==> ItemsOf(r.value) == lists(0) && |r.value| == c &&
                         multiset(ItemsOf(r.value)) == multiset(answers(0)))
      && (c - 1) * lim < (if n == 0 then 1 else n) && n <= c * lim
  {
    forall j: nat
      ensures lists(j) == lists(0)
    {
      AnyOrderSortsAlike(lists(0), lists(j), answers(0));
    }
    FollowFrom(lists, lists(0), limit, 0, 0);
    PageCountIsCeiling(|lists(0)|, EffectiveLimit(limit));
    LastEndIsCountTimesLimit(|lists(0)|, EffectiveLimit(limit));
    assert lists(0)[0..] == lists(0);
  }

  /** What the pagination note says; `next` is the offset it advises. */
  datatype Note =
    | NoNote
    | Note(returned: nat, offset: Int64, limit: Int64, total: Int64, filterSuffix: string, next: Option<Int64>)

  function BuildNote(result: Page, filterSuffix: string): Note {
    if !result.hasMore && result.offset == 0 then NoNote
    else Note(|result.items|, result.offset, result.limit, result.total, filterSuffix,
              if result.hasMore then Some(Wrap64(result.offset + result.limit)) else None)
  }

  /** No note is given exactly when a first page shows the whole list; the note advises
      an offset exactly when resources remain, and that offset starts with the first
      resource not yet shown. */
  lemma NoteIsRight(sorted: seq<Resource>, offset: Int64, limit: Int64, filterSuffix: string)
    requires |sorted| <= MAX_INT64 && PageAt(sorted, offset, limit).Success?
    ensures var page := PageAt(sorted, offset, limit).value;
      var note := BuildNote(page, filterSuffix);
      && (note.NoNote? <==> offset <= 0 && page.items == sorted)
      && (note.Note? ==>
            && note.returned == |page.items| && note.total == |sorted| && note.filterSuffix == filterSuffix
            && note.offset == page.offset && note.limit == page.limit
            && NextIs(note.next, sorted, Min(page.offset + page.limit, |sorted|), limit))
  {
    var page := PageAt(sorted, offset, limit).value;
    WholeIffAllShown(page, sorted, offset, limit);
    if page.hasMore {
      NextWindow(sorted, page.offset + page.limit, limit);
    }
  }

  lemma WholeIffAllShown(page: Page, sorted: seq<Resource>, offset: Int64, limit: Int64)
    requires |sorted| <= MAX_INT64 && IsWindow(page, sorted, offset, limit)
    ensures page.offset == 0 ==> (page.items == sorted <==> !page.hasMore)
  {
    assert page.items == sorted ==> |page.items| == |sorted|;
    assert sorted[0..|sorted|] == sorted;
  }

  predicate NextIs(next: Option<Int64>, sorted: seq<Resource>, shown: nat, limit: Int64)
    requires shown <= |sorted| <= MAX_INT64
  {
    && (next.Some? <==> shown < |sorted|)
    && (next.Some? && PageAt(sorted, next.value, limit).Success? ==>
          var items := PageAt(sorted, next.value, limit).value.items;
          items != [] && items <= sorted[shown..])
  }

  lemma NextWindow(sorted: seq<Resource>, next: Int64, limit: Int64)
    requires 0 <= next < |sorted| <= MAX_INT64
    ensures NextIs(Some(next), sorted, next, limit)
  {
    var r := PageAt(sorted, next, limit);
    if r.Success? {
      var end := Min(next + EffectiveLimit(limit), |sorted|);
      assert r.value.items == sorted[next..end];
      assert sorted[next..end] + sorted[end..] == sorted[next..];
    }
  }
}
