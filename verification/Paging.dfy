/** Page numbers, page metadata, and the pages of a list. */
module Paging {
  import opened Prelude

  const TAKE := 20

  datatype InvalidPage = InvalidPage(page: int)

  datatype Meta = Meta(total: nat, currentPage: int, lastPage: int, hasPreviousPage: bool, hasNextPage: bool)

  datatype Page<T> = Page(data: seq<T>, meta: Meta)

  function GetSkip(page: int): (r: Result<nat, InvalidPage>) {
    if page < 1 then Err(InvalidPage(page)) else Ok((page - 1) * TAKE)
  }

  /** The quotient rounded up, and at least one. */
  function GetLastPage(total: nat): (r: int)
    ensures r >= 1 && total <= r * TAKE
    ensures r > 1 ==> (r - 1) * TAKE < total
  {
    var pages := (total + TAKE - 1) / TAKE;
    if pages < 1 then 1 else pages
  }

  function NewMeta(total: nat, currentPage: int, lastPage: int): Meta {
    Meta(total, currentPage, lastPage, currentPage > 1, currentPage < lastPage)
  }

  function Min(a: int, b: int): int {
    if a <= b then a else b
  }

  /** A page number past the end is shown as the last. */
  function ToPaginationDto<T>(data: seq<T>, total: nat, currentPage: int): (r: Result<Page<T>, InvalidPage>)
    ensures r.Ok? <==> 1 <= currentPage
    ensures r.Ok? ==>
              var meta := r.value.meta;
              && r.value.data == data && meta.total == total && meta.lastPage == GetLastPage(total)
              && (currentPage <= meta.lastPage ==> meta.currentPage == currentPage)
              && (currentPage > meta.lastPage ==> meta.currentPage == meta.lastPage && !meta.hasNextPage)
  {
    if currentPage < 1 then Err(InvalidPage(currentPage))
    else Ok(Page(data, NewMeta(total, Min(currentPage, GetLastPage(total)), GetLastPage(total))))
  }

  /** At most `take` rows after the first `skip`, as the query returns them. */
  function Slice<T>(list: seq<T>, skip: nat, take: nat): seq<T> {
    list[Min(skip, |list|)..Min(skip + take, |list|)]
  }

  /** The rows of a page, counted from one. */
  function RowsOn<T>(list: seq<T>, page: int): seq<T>
    requires page >= 1
  {
    Slice(list, GetSkip(page).value, TAKE)
  }

  /** Pages `page` to the last, one after another. */
  function PagesFrom<T>(list: seq<T>, page: int): seq<T>
    requires page >= 1
    decreases GetLastPage(|list|) - page
  {
    RowsOn(list, page) + if page < GetLastPage(|list|) then PagesFrom(list, page + 1) else []
  }

  lemma {:induction false} PagesFromIsSuffix<T>(list: seq<T>, page: int)
    requires 1 <= page <= GetLastPage(|list|)
    ensures PagesFrom(list, page) == list[Min((page - 1) * TAKE, |list|)..]
    decreases GetLastPage(|list|) - page
  {
    var from, to := Min((page - 1) * TAKE, |list|), Min(page * TAKE, |list|);
    assert RowsOn(list, page) == list[from..to];
    if page < GetLastPage(|list|) {
      PagesFromIsSuffix(list, page + 1);
      assert list[from..to] + list[to..] == list[from..];
    } else {
      assert to == |list| && list[from..to] == list[from..];
      assert list[from..] + [] == list[from..];
    }
  }

  /** The pages 1 to the last are the list, cut in pieces: every row is on one page, in
      order.  No page but a lone one is empty, all but the last are full, and beyond the
      last there is nothing. */
  lemma PagesPartition<T>(list: seq<T>)
    ensures PagesFrom(list, 1) == list
    ensures forall page | 1 <= page < GetLastPage(|list|) :: |RowsOn(list, page)| == TAKE
    ensures list != [] ==> 0 < |RowsOn(list, GetLastPage(|list|))| <= TAKE
    ensures forall page | page > GetLastPage(|list|) :: RowsOn(list, page) == []
  {
    PagesFromIsSuffix(list, 1);
    var last := GetLastPage(|list|);
    forall page | 1 <= page
      ensures page < last ==> |RowsOn(list, page)| == TAKE
      ensures page > last ==> RowsOn(list, page) == []
    {
      if page < last {
        assert page * TAKE <= (last - 1) * TAKE;
      } else if page > last {
        assert (page - 1) * TAKE >= last * TAKE;
      }
    }
  }

  /** Twenty rows to a page: the last page holds what twenty does not divide, or twenty. */
  lemma TwentyToAPage<T>(list: seq<T>, page: int)
    requires 1 <= page
    ensures 20 * page <= |list| ==> |RowsOn(list, page)| == 20
    ensures 20 * (page - 1) < |list| < 20 * page ==> |RowsOn(list, page)| == |list| % 20
    ensures |list| <= 20 * (page - 1) ==> RowsOn(list, page) == []
    ensures list == [] ==> GetLastPage(|list|) == 1
    ensures list != [] ==> 20 * (GetLastPage(|list|) - 1) < |list| <= 20 * GetLastPage(|list|)
  {
  }

  /** Row `i` of the list stands on one page only, at the place that division gives. */
  lemma RowIsOnOnePage<T>(list: seq<T>, i: nat, page: int)
    requires i < |list| && page >= 1
    ensures 1 <= i / TAKE + 1 <= GetLastPage(|list|)
    ensures i % TAKE < |RowsOn(list, i / TAKE + 1)| && RowsOn(list, i / TAKE + 1)[i % TAKE] == list[i]
    ensures page != i / TAKE + 1 ==> i < (page - 1) * TAKE || i >= (page - 1) * TAKE + |RowsOn(list, page)|
  {
  }

  /** The metadata points where there is something to see: a next page exactly when the
      page after this one has rows, a previous one exactly when the number before this
      one is a page. */
  lemma MetaPointsAtPages<T>(list: seq<T>, page: int)
    requires 1 <= page <= GetLastPage(|list|)
    ensures var meta := NewMeta(|list|, page, GetLastPage(|list|));
            && (meta.hasNextPage <==> RowsOn(list, page + 1) != [])
            && (meta.hasPreviousPage <==> GetSkip(page - 1).Ok?)
  {
    var last := GetLastPage(|list|);
    PagesPartition(list);
    if page < last {
      assert page * TAKE <= (last - 1) * TAKE;
    }
  }
}
