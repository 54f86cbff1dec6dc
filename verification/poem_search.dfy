/** Poem search state for the library page (src/composables/usePoemSearch.ts):
    which query a search issues, and what it stores from the answer. */
module PoemSearch {
  import opened Wrappers
  import opened Strings
  import opened Json
  import opened Lists

  datatype SearchType = Title | Paragraph | All

  datatype SearchParams = SearchParams(keyword: string, tags: seq<string>, searchType: SearchType,
                                       page: int, pageSize: int)

  const InitialParams := SearchParams([], [], All, 1, 20)

  /** `x || fallback` for a number. */
  function OrNum(x: int, fallback: int): int {
    if x != 0 then x else fallback
  }

  /** `!!keyword || tags.length > 0`: the untrimmed keyword counts. */
  predicate HasSearchCondition(p: SearchParams) {
    p.keyword != [] || p.tags != []
  }

  /** The first request a search makes. */
  datatype Query =
    | ByTags(tags: seq<string>)
    | ByTitle(keyword: string)
    | ByParagraph(keyword: string)
    | TitleThenParagraph(keyword: string)    // titles first, paragraphs when no title matches
    | ByPage(pageNum: int, pageSize: int)

  /** Tags come first; then a keyword that is not blank, trimmed, by search
      type; otherwise the plain paged listing. */
  function Dispatch(p: SearchParams): (q: Query)
    ensures p.tags != [] ==> q == ByTags(p.tags)
    ensures p.tags == [] && !IsBlank(p.keyword) ==>
              q == match p.searchType
                   case Title => ByTitle(Trim(p.keyword))
                   case Paragraph => ByParagraph(Trim(p.keyword))
                   case All => TitleThenParagraph(Trim(p.keyword))
    ensures q.ByPage? <==> p.tags == [] && IsBlank(p.keyword)
    ensures q.ByPage? ==> q == ByPage(OrNum(p.page, 1), OrNum(p.pageSize, 20))
  {
    TrimEmptyIffBlank(p.keyword);
    if p.tags != [] then ByTags(p.tags)
    else if p.keyword != [] && Trim(p.keyword) != [] then
      match p.searchType
      case Title => ByTitle(Trim(p.keyword))
      case Paragraph => ByParagraph(Trim(p.keyword))
      case All => TitleThenParagraph(Trim(p.keyword))
    else ByPage(OrNum(p.page, 1), OrNum(p.pageSize, 20))
  }

  /** A keyword of white space alone counts as a search condition, yet the
      search it triggers is the plain listing. */
  lemma BlankKeywordLists(p: SearchParams)
    requires p.tags == [] && p.keyword != [] && IsBlank(p.keyword)
    ensures HasSearchCondition(p) && Dispatch(p).ByPage?
  {
  }

  /** A list answer (tags, title or paragraph search). */
  datatype Found = Found(list: Option<seq<Json>>, total: int)

  /** A page of results. */
  datatype PageData = PageData(list: Option<seq<Json>>, total: int, pageNum: int, pageSize: int, totalPages: int)

  /** A list answer turned into a page of the requested size. */
  function AsPage(f: Found, page: int, size: int): (r: PageData)
    requires size >= 0
    ensures r.list == f.list && r.total == f.total
    ensures r.pageNum == OrNum(page, 1) && r.pageSize == OrNum(size, 20)
    ensures (r.totalPages - 1) * r.pageSize < f.total <= r.totalPages * r.pageSize
  {
    var s := OrNum(size, 20);
    PageData(f.list, f.total, OrNum(page, 1), s, CeilDiv(f.total, s))
  }

  /** The backend as the search sees it; `None` is a call that failed. */
  datatype Backend = Backend(
    byTags: seq<string> -> Option<Found>,
    byTitle: string -> Option<Found>,
    byParagraph: string -> Option<Found>,
    byPage: (int, int) -> Option<PageData>)

  /** `list && list.length > 0`. */
  predicate NonEmptyList(f: Found) {
    f.list.Some? && f.list.value != []
  }

  /** The page a search ends with, or `None` when a call failed. In `all`
      mode the title results are kept when there are any, and otherwise a
      paragraph search is made and its results kept. */
  function Answer(p: SearchParams, api: Backend): (r: Option<PageData>)
    requires p.pageSize >= 0
    ensures p.tags != [] ==> r == AsFoundPage(api.byTags(p.tags), p)
    ensures Dispatch(p).ByTitle? ==> r == AsFoundPage(api.byTitle(Trim(p.keyword)), p)
    ensures Dispatch(p).ByParagraph? ==> r == AsFoundPage(api.byParagraph(Trim(p.keyword)), p)
    ensures Dispatch(p).TitleThenParagraph? && api.byTitle(Trim(p.keyword)).Some?
            && NonEmptyList(api.byTitle(Trim(p.keyword)).value) ==>
              r == Some(AsPage(api.byTitle(Trim(p.keyword)).value, p.page, p.pageSize))
    ensures Dispatch(p).TitleThenParagraph? && api.byTitle(Trim(p.keyword)).Some?
            && !NonEmptyList(api.byTitle(Trim(p.keyword)).value) ==>
              r == (match api.byParagraph(Trim(p.keyword))
                    case None => None
                    case Some(f) => Some(AsPage(f, p.page, p.pageSize)))
    ensures Dispatch(p).TitleThenParagraph? && api.byTitle(Trim(p.keyword)).None? ==> r == None
    ensures Dispatch(p).ByPage? ==> r == api.byPage(OrNum(p.page, 1), OrNum(p.pageSize, 20))
  {
    var d := Dispatch(p);
    if d.ByTags? then AsFoundPage(api.byTags(d.tags), p)
    else if d.ByTitle? then AsFoundPage(api.byTitle(d.keyword), p)
    else if d.ByParagraph? then AsFoundPage(api.byParagraph(d.keyword), p)
    else if d.TitleThenParagraph? then
      var titles := api.byTitle(d.keyword);
      if titles.Some? && NonEmptyList(titles.value) then AsFoundPage(titles, p)
      else if titles.Some? then AsFoundPage(api.byParagraph(d.keyword), p)
      else None
    else api.byPage(d.pageNum, d.pageSize)
  }

  function AsFoundPage(answer: Option<Found>, p: SearchParams): (r: Option<PageData>)
    requires p.pageSize >= 0
    ensures answer.None? <==> r.None?
    ensures answer.Some? ==> r == Some(AsPage(answer.value, p.page, p.pageSize))
  {
    match answer
    case None => None
    case Some(f) => Some(AsPage(f, p.page, p.pageSize))
  }

  class Searcher {
    var loading: bool
    var poems: seq<Json>
    var total: int
    var currentPage: int
    var pageSize: int
    var params: SearchParams

    /** Page sizes are never negative. */
    predicate Valid()
      reads this
    {
      params.pageSize >= 0
    }

    /** The state `performSearch` stores from the page it got back. */
    predicate Shows(page: PageData)
      reads this
    {
      && poems == page.list.GetOr([]) && total == OrNum(page.total, 0)
      && currentPage == OrNum(page.pageNum, 1) && pageSize == OrNum(page.pageSize, 20)
    }

    constructor ()
      ensures Valid() && !loading && poems == [] && total == 0
      ensures currentPage == 1 && pageSize == 20 && params == InitialParams
    {
      loading := false;
      poems := [];
      total := 0;
      currentPage := 1;
      pageSize := 20;
      params := InitialParams;
    }

    /** Runs the search for the current parameters and stores the page it
        ends with; a failure clears the poems and the total. The loading
        flag is down afterwards whatever happened. */
    method Search(api: Backend) returns (result: Option<PageData>)
      requires Valid()
      modifies this
      ensures Valid() && params == old(params) && !loading
      ensures result == Answer(params, api)
      ensures result.Some? ==> Shows(result.value)
      ensures result.None? ==>
                poems == [] && total == 0 && currentPage == old(currentPage) && pageSize == old(pageSize)
    {
      loading := true;
      result := Answer(params, api);
      if result.Some? {
        var page := result.value;
        poems := page.list.GetOr([]);
        total := OrNum(page.total, 0);
        currentPage := OrNum(page.pageNum, 1);
        pageSize := OrNum(page.pageSize, 20);
      } else {
        poems := [];
        total := 0;
      }
      loading := false;
    }

    /** A new keyword starts again from page 1. */
    method SetKeyword(keyword: string)
      modifies this
      ensures params == old(params).(keyword := keyword, page := 1) && currentPage == 1
      ensures poems == old(poems) && total == old(total) && pageSize == old(pageSize) && loading == old(loading)
    {
      params := params.(keyword := keyword, page := 1);
      currentPage := 1;
    }

    /** New tags start again from page 1. */
    method SetTags(tags: seq<string>)
      modifies this
      ensures params == old(params).(tags := tags, page := 1) && currentPage == 1
      ensures poems == old(poems) && total == old(total) && pageSize == old(pageSize) && loading == old(loading)
    {
      params := params.(tags := tags, page := 1);
      currentPage := 1;
    }

    /** A new search type leaves the page alone. */
    method SetSearchType(searchType: SearchType)
      modifies this
      ensures params == old(params).(searchType := searchType)
      ensures currentPage == old(currentPage) && poems == old(poems) && total == old(total)
      ensures pageSize == old(pageSize) && loading == old(loading)
    {
      params := params.(searchType := searchType);
    }

    /** Moves to `page` and searches. */
    method ChangePage(page: int, api: Backend) returns (result: Option<PageData>)
      requires Valid()
      modifies this
      ensures Valid() && params == old(params).(page := page) && !loading
      ensures result == Answer(old(params).(page := page), api)
      ensures result.Some? ==> Shows(result.value)
      ensures result.None? ==> currentPage == page && pageSize == old(pageSize) && poems == [] && total == 0
    {
      params := params.(page := page);
      currentPage := page;
      result := Search(api);
    }

    /** A new page size starts again from page 1 and searches. */
    method ChangePageSize(size: int, api: Backend) returns (result: Option<PageData>)
      requires Valid() && size >= 0
      modifies this
      ensures Valid() && params == old(params).(pageSize := size, page := 1) && !loading
      ensures result == Answer(old(params).(pageSize := size, page := 1), api)
      ensures result.Some? ==> Shows(result.value)
      ensures result.None? ==> currentPage == 1 && pageSize == size && poems == [] && total == 0
    {
      params := params.(pageSize := size, page := 1);
      pageSize := size;
      currentPage := 1;
      result := Search(api);
    }

    /** Back to the initial parameters, then searches: the plain listing of page 1. */
    method ResetSearch(api: Backend) returns (result: Option<PageData>)
      requires Valid()
      modifies this
      ensures Valid() && params == InitialParams && !loading
      ensures result == api.byPage(1, 20)
      ensures result.Some? ==> Shows(result.value)
      ensures result.None? ==> currentPage == 1 && pageSize == old(pageSize) && poems == [] && total == 0
    {
      params := InitialParams;
      currentPage := 1;
      result := Search(api);
    }
  }
}
