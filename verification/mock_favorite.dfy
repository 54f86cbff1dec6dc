/** The mock favourites service (src/mock/data/favorite.ts): the list of
    posts each user has collected, searched by title and paged, and the
    removal of one of them. */
module MockFavorites {
  import opened Wrappers
  import opened Strings
  import opened Lists
  import opened MockAuth

  /** The collected post as it was when it was collected. Times are kept
      as the strings the records hold. */
  datatype WorkInfo = WorkInfo(id: string, title: string, content: string, publishTime: string,
                               likeCount: int, collectCount: int, styles: seq<string>)

  datatype Collect = Collect(collectId: string, userId: int, workId: string, collectTime: string, work: WorkInfo)

  /** A page of the list; `page` is `None` when the parameter is not a number. */
  datatype CollectPage = CollectPage(items: seq<Collect>, page: Option<int>, pageSize: int, total: int, totalPages: int)

  /** What a removal reports. */
  datatype Uncollected = Uncollected(collectId: string, workId: string, newCollectCount: int)

  const CollectPageSize := 10
  const CollectsListed := "收藏列表查询成功"
  const NoMatchingCollects := "暂无匹配的收藏内容"
  const EmptyCollectPage := "当前页无收藏内容"
  const CollectNotYours := "收藏记录不存在或你无权限取消"
  const CollectRemoved := "取消收藏成功"

  /** The post's title contains the search text, ignoring case. */
  predicate TitleMatches(c: Collect, title: string) {
    Contains(LowerAscii(c.work.title), LowerAscii(title))
  }

  /** The user's records, narrowed to the matching titles when a search
      text is given, in stored order. */
  function Matching(collects: seq<Collect>, userId: int, title: string): (r: seq<Collect>)
    ensures forall c :: c in r <==> c in collects && c.userId == userId && (title != [] ==> TitleMatches(c, title))
  {
    var mine := Filter(collects, (c: Collect) => c.userId == userId);
    FilterMembers(collects, (c: Collect) => c.userId == userId);
    if title != [] then
      FilterMembers(mine, (c: Collect) => TitleMatches(c, title));
      Filter(mine, (c: Collect) => TitleMatches(c, title))
    else mine
  }

  /** `Math.max(0, n)`. */
  function AtLeastZero(n: int): (r: int)
    ensures r >= 0 && r >= n && (r == n || r == 0)
  {
    if n > 0 then n else 0
  }

  /** The position of the user's record with this id. */
  function OwnCollect(collects: seq<Collect>, collectId: string, userId: int): (r: Option<nat>)
    ensures r.Some? ==> r.value < |collects| && collects[r.value].collectId == collectId
                        && collects[r.value].userId == userId
    ensures r.None? <==> forall j :: 0 <= j < |collects| ==>
                           !(collects[j].collectId == collectId && collects[j].userId == userId)
  {
    FindIndex(collects, (c: Collect) => c.collectId == collectId && c.userId == userId)
  }

  class CollectTable {
    var collects: seq<Collect>

    constructor (initial: seq<Collect>)
      ensures collects == initial
    {
      collects := initial;
    }

    /** `GET /api/collect/list`: the `page` parameter (default `'1'`) of
        the caller's records whose title matches the `title` parameter,
        ten to a page. An empty page says whether a search found nothing. */
    function List(header: Option<string>, pageParam: Option<string>, titleParam: Option<string>)
      : (r: Reply<CollectPage>)
      reads this
      ensures r.Err? <==> RequesterId(header).None?
      ensures r.Err? ==> r == Err(401, AuthFailed)
      ensures r.Ok? ==>
                var title := titleParam.GetOr([]);
                var found := Matching(collects, RequesterId(header).value, title);
                var page := ParseInt(if pageParam.Some? && pageParam.value != [] then pageParam.value else "1");
                && r.status == 200
                && r.value.page == page && r.value.pageSize == CollectPageSize
                && r.value.total == |found| && r.value.totalPages == CeilDiv(|found|, CollectPageSize)
                && (page.Some? ==> r.value.items == Page(found, page.value, CollectPageSize))
                && (page.None? ==> r.value.items == [])
                && (forall c :: c in r.value.items ==>
                      c in collects && c.userId == RequesterId(header).value
                      && (title != [] ==> TitleMatches(c, title)))
                && (r.value.items != [] ==> r.message == CollectsListed)
                && (r.value.items == [] && title != [] ==> r.message == NoMatchingCollects)
                && (r.value.items == [] && title == [] ==> r.message == EmptyCollectPage)
    {
      var uid := RequesterId(header);
      if uid.None? then Err(401, AuthFailed)
      else
        var title := titleParam.GetOr([]);
        var found := Matching(collects, uid.value, title);
        var page := ParseInt(if pageParam.Some? && pageParam.value != [] then pageParam.value else "1");
        // `slice(NaN, NaN)` is empty
        var items := if page.Some? then Page(found, page.value, CollectPageSize) else Slice(found, 0, 0);
        assert forall c :: c in items ==> c in found;
        var message := if items == [] && title != [] then NoMatchingCollects
                       else if items == [] then EmptyCollectPage
                       else CollectsListed;
        Ok(200, message, CollectPage(items, page, CollectPageSize, |found|, CeilDiv(|found|, CollectPageSize)))
    }

    /** A page from 1 up is the window `[(page-1)*10, page*10)` of the
        matching records, so it holds at most ten of them, and the pages up
        to the last one hold every matching record once, in order. */
    lemma ListPageWindow(header: Option<string>, page: int, titleParam: Option<string>)
      requires RequesterId(header).Some? && page >= 1
      ensures var found := Matching(collects, RequesterId(header).value, titleParam.GetOr([]));
              && List(header, Some(NatToString(page)), titleParam).value.items
                 == found[Min((page - 1) * CollectPageSize, |found|)..Min(page * CollectPageSize, |found|)]
              && |List(header, Some(NatToString(page)), titleParam).value.items| <= CollectPageSize
              && PagesUpTo(found, CollectPageSize, CeilDiv(|found|, CollectPageSize)) == found
    {
      var found := Matching(collects, RequesterId(header).value, titleParam.GetOr([]));
      ParseIntNatToString(page);
      PageWindow(found, page, CollectPageSize);
      PagesCoverAll(found, CollectPageSize);
    }

    /** `DELETE /api/collect/:id`: removes the caller's record with that
        id, and only one of the caller's; the post's new count is one less,
        but never below zero. */
    method Delete(header: Option<string>, collectId: string) returns (reply: Reply<Uncollected>)
      modifies this
      ensures RequesterId(header).None? ==> reply == Err(401, AuthFailed)
      ensures reply.Ok? <==> RequesterId(header).Some? && OwnCollect(old(collects), collectId, RequesterId(header).value).Some?
      ensures (RequesterId(header).Some? && OwnCollect(old(collects), collectId, RequesterId(header).value).None?) ==>
                reply == Err(404, CollectNotYours)
      ensures reply.Err? ==> collects == old(collects)
      ensures reply.Ok? ==>
                var i := OwnCollect(old(collects), collectId, RequesterId(header).value).value;
                var c := old(collects)[i];
                && reply == Ok(200, CollectRemoved, Uncollected(collectId, c.workId, AtLeastZero(c.work.collectCount - 1)))
                && collects == old(collects)[..i] + old(collects)[i + 1..]
                && multiset(old(collects)) == multiset(collects) + multiset{c}
                && c.userId == RequesterId(header).value
    {
      var uid := RequesterId(header);
      if uid.None? {
        return Err(401, AuthFailed);
      }
      var i := OwnCollect(collects, collectId, uid.value);
      if i.None? {
        return Err(404, CollectNotYours);
      }
      var c := collects[i.value];
      assert collects == collects[..i.value] + [c] + collects[i.value + 1..];
      collects := collects[..i.value] + collects[i.value + 1..];
      reply := Ok(200, CollectRemoved, Uncollected(collectId, c.workId, AtLeastZero(c.work.collectCount - 1)));
    }
  }
}
