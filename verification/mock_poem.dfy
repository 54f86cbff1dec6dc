/** The mock poem service (src/mock/data/poem.ts): paging, searching by
    line or title, the poem of the day, details, the couplet game and the
    prompt builder. Every handler only reads the poem list, which is a
    parameter here. */
module MockPoems {
  import opened Wrappers
  import opened Strings
  import opened Lists
  import opened MockAuth

  datatype Poem = Poem(id: int, title: string, author: string, paragraphs: seq<string>, tags: seq<string>)

  /** A poem in a list: everything but its lines. */
  datatype PoemSummary = PoemSummary(id: int, title: string, author: string, tags: seq<string>)

  /** A page; a size or number that is not a number is `None`, and so is a
      page count that is not a finite number. */
  datatype PoemPage = PoemPage(list: seq<PoemSummary>, total: int, pageSize: Option<int>, pageNum: Option<int>,
                               totalPages: Option<int>)

  datatype Found = Found(list: seq<PoemSummary>, total: int)

  /** The local date the daily poem is chosen by. */
  datatype CalendarDate = CalendarDate(year: int, month: int, day: int)

  /** What the couplet game answers. */
  datatype Couplet = Couplet(userInput: string, matchedClauses: seq<string>, nextSentence: string,
                             poemTitle: string, poemAuthor: string)

  /** What the prompt builder answers: a title match or a line match. */
  datatype Prompt =
    | TitlePrompt(prompt: string, poemTitle: string)
    | LinePrompt(prompt: string, poemTitle: string, userInput: string, matchedSentence: string)

  const PagedPoems := "分页查询诗歌成功"
  const FoundByLine := "根据诗句模糊查询诗歌成功"
  const FoundByTitle := "根据标题模糊查询诗歌成功"
  const PoemDetail := "查询诗歌详情成功"
  const EmptySentence := "输入的诗句不能为空"
  const TwoClauses := "对诗成功，返回2个下一句子句"
  const OneClause := "对诗成功，返回1个下一句子句"
  const LastLine := "当前为最后一句，对诗结束"
  const TitlePromptMade := "匹配到诗歌标题，生成赏析Prompt成功"
  const LinePromptMade := "匹配到诗歌诗句，生成赏析Prompt成功"
  const NoPromptMatch := "未匹配到对应的诗歌标题或诗句，请检查输入内容"

  /** The couplet game knows one poem, clause by clause. */
  const Clause1 := "床前明月光"
  const Clause2 := "疑是地上霜"
  const Clause3 := "举头望明月"
  const Clause4 := "低头思故乡"

  /** `validateToken`: a token that parses to any id, 0 included. */
  predicate TokenValid(header: Option<string>) {
    CallerId(header).Some?
  }

  /** The poem endpoints accept the token of id 0, which the endpoints that
      test `!userId` refuse. */
  lemma ZeroIdAcceptedHere()
    ensures TokenValid(Some(BearerPrefix + GenerateToken(0)))
    ensures RequesterId(Some(BearerPrefix + GenerateToken(0))).None?
  {
    CallerOfBearer(0);
  }

  /** A poem as lists show it. */
  function Summary(p: Poem): PoemSummary {
    PoemSummary(p.id, p.title, p.author, p.tags)
  }

  function Summaries(poems: seq<Poem>): (r: seq<PoemSummary>)
    ensures |r| == |poems|
    ensures forall i :: 0 <= i < |poems| ==> r[i] == Summary(poems[i])
  {
    seq(|poems|, i requires 0 <= i < |poems| => Summary(poems[i]))
  }

  /** `x || fallback` for a query parameter. */
  function ParamOr(p: Option<string>, fallback: string): string {
    if p.Some? && p.value != [] then p.value else fallback
  }

  /** `Math.ceil(total / size)` when it is a finite number. */
  function PageCount(total: nat, size: Option<int>): (r: Option<int>)
    ensures size.Some? && size.value > 0 ==> r == Some(CeilDiv(total, size.value))
    ensures size.Some? && size.value < 0 ==> r.Some? && r.value <= 0
    ensures size.None? || size.value == 0 ==> r.None?
  {
    if size.None? || size.value == 0 then None
    else if size.value > 0 then Some(CeilDiv(total, size.value))
    else Some(-(total / -size.value))
  }

  /** `GET /api/poem/page`: the `page_num` page (default 1) of `page_size`
      poems (default 20), in stored order, without their lines. */
  function PageOf(header: Option<string>, sizeParam: Option<string>, numParam: Option<string>, poems: seq<Poem>)
    : (r: Reply<PoemPage>)
    ensures r.Err? <==> !TokenValid(header)
    ensures r.Err? ==> r == Err(401, AuthFailed)
    ensures r.Ok? ==>
              var size := ParseInt(ParamOr(sizeParam, "20"));
              var num := ParseInt(ParamOr(numParam, "1"));
              && r.status == 200 && r.message == PagedPoems
              && r.value.total == |poems| && r.value.pageSize == size && r.value.pageNum == num
              && r.value.totalPages == PageCount(|poems|, size)
              && (size.Some? && num.Some? ==> r.value.list == Summaries(Page(poems, num.value, size.value)))
              && (size.None? || num.None? ==> r.value.list == [])
  {
    if !TokenValid(header) then Err(401, AuthFailed)
    else
      var size := ParseInt(ParamOr(sizeParam, "20"));
      var num := ParseInt(ParamOr(numParam, "1"));
      // a `NaN` bound makes `slice` empty
      var window := if size.Some? && num.Some? then Page(poems, num.value, size.value) else [];
      Ok(200, PagedPoems, PoemPage(Summaries(window), |poems|, size, num, PageCount(|poems|, size)))
  }

  /** Page parameters written as numbers are read back as those numbers. */
  lemma PageOfParsed(header: Option<string>, size: nat, num: nat, poems: seq<Poem>)
    requires TokenValid(header)
    ensures PageOf(header, Some(NatToString(size)), Some(NatToString(num)), poems).value.list
            == Summaries(Page(poems, num, size))
  {
    ParseIntNatToString(size);
    ParseIntNatToString(num);
  }

  /** A page is the window of `size` poems that starts at
      `first = (num - 1) * size`. */
  lemma PageOfWindow(header: Option<string>, size: nat, num: nat, first: nat, poems: seq<Poem>)
    requires TokenValid(header) && size > 0 && num >= 1 && first == (num - 1) * size
    ensures PageOf(header, Some(NatToString(size)), Some(NatToString(num)), poems).value.list
            == Summaries(poems[Min(first, |poems|)..Min(first + size, |poems|)])
  {
    PageOfParsed(header, size, num, poems);
    var window := poems[Min(first, |poems|)..Min(first + size, |poems|)];
    PageFrom(poems, num, size, first);
    assert Summaries(Page(poems, num, size)) == Summaries(window);
  }

  /** Some line of the poem contains the keyword. */
  predicate HasLineWith(p: Poem, keyword: string) {
    exists i :: 0 <= i < |p.paragraphs| && Contains(p.paragraphs[i], keyword)
  }

  /** `GET /api/poem/paragraphs/search`: the poems with a line containing
      the keyword (default `''`), in stored order. */
  function SearchLines(header: Option<string>, keywordParam: Option<string>, poems: seq<Poem>): (r: Reply<Found>)
    ensures r.Err? <==> !TokenValid(header)
    ensures r.Err? ==> r == Err(401, AuthFailed)
    ensures r.Ok? ==>
              var keyword := ParamOr(keywordParam, "");
              var hits := Filter(poems, (p: Poem) => HasLineWith(p, keyword));
              && r.status == 200 && r.message == FoundByLine
              && r.value.list == Summaries(hits) && r.value.total == |r.value.list|
              && (forall p :: p in hits <==> p in poems && HasLineWith(p, keyword))
  {
    if !TokenValid(header) then Err(401, AuthFailed)
    else
      var keyword := ParamOr(keywordParam, "");
      var hits := Filter(poems, (p: Poem) => HasLineWith(p, keyword));
      FilterMembers(poems, (p: Poem) => HasLineWith(p, keyword));
      Ok(200, FoundByLine, Found(Summaries(hits), |hits|))
  }

  /** `GET /api/poem/title/search`: the poems whose title contains the
      keyword (default `''`), in stored order. */
  function SearchTitles(header: Option<string>, keywordParam: Option<string>, poems: seq<Poem>): (r: Reply<Found>)
    ensures r.Err? <==> !TokenValid(header)
    ensures r.Err? ==> r == Err(401, AuthFailed)
    ensures r.Ok? ==>
              var keyword := ParamOr(keywordParam, "");
              var hits := Filter(poems, (p: Poem) => Contains(p.title, keyword));
              && r.status == 200 && r.message == FoundByTitle
              && r.value.list == Summaries(hits) && r.value.total == |r.value.list|
              && (forall p :: p in hits <==> p in poems && Contains(p.title, keyword))
  {
    if !TokenValid(header) then Err(401, AuthFailed)
    else
      var keyword := ParamOr(keywordParam, "");
      var hits := Filter(poems, (p: Poem) => Contains(p.title, keyword));
      FilterMembers(poems, (p: Poem) => Contains(p.title, keyword));
      Ok(200, FoundByTitle, Found(Summaries(hits), |hits|))
  }

  /** What `new Date()` can give. */
  predicate ValidDate(d: CalendarDate) {
    d.year >= 0 && 1 <= d.month <= 12 && 1 <= d.day <= 31
  }

  /** `YYYYMMDD` as a number. */
  function DateNumber(d: CalendarDate): int {
    d.year * 10000 + d.month * 100 + d.day
  }

  /** `String(n).padStart(2, '0')`. */
  function TwoDigits(n: nat): (r: string)
    ensures n < 100 ==> |r| == 2
  {
    if n < 10 then "0" + NatToString(n) else NatToString(n / 10) + NatToString(n % 10)
  }

  function DailyMessage(d: CalendarDate): string
    requires ValidDate(d)
  {
    "获取" + NatToString(d.year) + "年" + TwoDigits(d.month) + "月" + TwoDigits(d.day) + "日每日一首成功"
  }

  /** The position of the day's poem: `YYYYMMDD mod count`. */
  function DailyIndex(d: CalendarDate, count: nat): (i: nat)
    requires count > 0
    ensures i < count && i == DateNumber(d) % count
  {
    DateNumber(d) % count
  }

  /** `GET /api/poem/daily`: the poem at `YYYYMMDD mod count`, which is
      always a position in the list. */
  function Daily(header: Option<string>, today: CalendarDate, poems: seq<Poem>): (r: Reply<Poem>)
    requires ValidDate(today) && |poems| > 0
    ensures r.Err? <==> !TokenValid(header)
    ensures r.Err? ==> r == Err(401, AuthFailed)
    ensures r.Ok? ==> r == Ok(200, DailyMessage(today), poems[DailyIndex(today, |poems|)])
  {
    if !TokenValid(header) then Err(401, AuthFailed)
    else Ok(200, DailyMessage(today), poems[DailyIndex(today, |poems|)])
  }

  /** A multiple of a positive number that lies strictly between its
      negative and itself is zero. */
  lemma SmallMultiple(k: int, m: int)
    requires m > 0 && -m < k * m < m
    ensures k == 0
  {
    if k >= 1 {
      assert k * m == (k - 1) * m + m;
      NonNegProduct(k - 1, m);
    } else if k <= -1 {
      assert k * m == -((-k - 1) * m) - m;
      NonNegProduct(-k - 1, m);
    }
  }

  /** Euclidean division gives the only quotient and remainder. */
  lemma ModUnique(a: int, m: int, q: int, r: int)
    requires m > 0 && a == q * m + r && 0 <= r < m
    ensures a % m == r
  {
    var q', r' := a / m, a % m;
    assert (q - q') * m == r' - r;
    SmallMultiple(q - q', m);
  }

  /** Counting one further moves a remainder one on, wrapping round. */
  lemma ModNext(n: int, m: int)
    requires m > 0
    ensures (n + 1) % m == if n % m + 1 == m then 0 else n % m + 1
  {
    var q, i := n / m, n % m;
    if i + 1 == m {
      assert n + 1 == (q + 1) * m + 0;
      ModUnique(n + 1, m, q + 1, 0);
    } else {
      ModUnique(n + 1, m, q, i + 1);
    }
  }

  /** Within a month, the next day's poem is the next one in the list,
      wrapping round at the end. */
  lemma NextDayIndex(d: CalendarDate, count: nat)
    requires count > 0
    ensures var i := DailyIndex(d, count);
            DailyIndex(d.(day := d.day + 1), count) == if i + 1 == count then 0 else i + 1
  {
    assert DateNumber(d.(day := d.day + 1)) == DateNumber(d) + 1;
    ModNext(DateNumber(d), count);
  }

  /** The first poem with this id. */
  function PoemIndex(poems: seq<Poem>, id: Option<int>): (r: Option<nat>)
    ensures r.Some? ==> r.value < |poems| && id == Some(poems[r.value].id)
                        && forall j :: 0 <= j < r.value ==> poems[j].id != id.value
    ensures r.None? <==> id.None? || forall j :: 0 <= j < |poems| ==> poems[j].id != id.value
  {
    if id.None? then None else FindIndex(poems, (p: Poem) => p.id == id.value)
  }

  /** `未找到ID为${poemId}的诗歌`, with `NaN` for an id that is not a number. */
  function MissingPoem(id: Option<int>): string {
    "未找到ID为" + (if id.Some? then IntToString(id.value) else "NaN") + "的诗歌"
  }

  /** `GET /api/poem/:id`: the first poem with the id the parameter parses
      to (default `'0'`); 404 when there is none, or the id is not a number. */
  function Detail(header: Option<string>, idParam: Option<string>, poems: seq<Poem>): (r: Reply<Poem>)
    ensures r.Err? ==> r.status == 401 || r.status == 404
    ensures !TokenValid(header) ==> r == Err(401, AuthFailed)
    ensures TokenValid(header) && PoemIndex(poems, ParseInt(ParamOr(idParam, "0"))).None? ==>
              r == Err(404, MissingPoem(ParseInt(ParamOr(idParam, "0"))))
    ensures r.Ok? <==> TokenValid(header) && PoemIndex(poems, ParseInt(ParamOr(idParam, "0"))).Some?
    ensures r.Ok? ==> r.status == 200 && r.message == PoemDetail && r.value in poems
                      && Some(r.value.id) == ParseInt(ParamOr(idParam, "0"))
    ensures r.Ok? ==> exists i :: 0 <= i < |poems| && r.value == poems[i]
                        && forall j :: 0 <= j < i ==> Some(poems[j].id) != ParseInt(ParamOr(idParam, "0"))
  {
    if !TokenValid(header) then Err(401, AuthFailed)
    else
      var id := ParseInt(ParamOr(idParam, "0"));
      match PoemIndex(poems, id)
      case None => Err(404, MissingPoem(id))
      case Some(i) => Ok(200, PoemDetail, poems[i])
  }

  /** The poem a stored id names is found. */
  lemma DetailOfStoredId(header: Option<string>, poems: seq<Poem>, i: nat)
    requires TokenValid(header) && i < |poems| && poems[i].id >= 0
    ensures Detail(header, Some(NatToString(poems[i].id)), poems).Ok?
    ensures Detail(header, Some(NatToString(poems[i].id)), poems).value.id == poems[i].id
  {
    ParseIntNatToString(poems[i].id);
  }

  /** `未查询到包含'${user_sentence}'的诗歌`. */
  function NoCouplet(sentence: string): string {
    "未查询到包含'" + sentence + "'的诗歌"
  }

  /** `POST /api/poem/respond`: the couplet game over the first poem. The
      opening line is tried before the closing couplet, so a sentence with
      both gets the opening answer. */
  function Respond(header: Option<string>, sentence: Option<string>, poems: seq<Poem>): (r: Reply<Couplet>)
    requires |poems| > 0
    ensures !TokenValid(header) ==> r == Err(401, AuthFailed)
    ensures TokenValid(header) && sentence.GetOr([]) == [] ==> r == Err(400, EmptySentence)
    ensures r.Ok? ==> r.status == 200 && r.value.userInput == sentence.value
                      && r.value.poemTitle == poems[0].title && r.value.poemAuthor == poems[0].author
    ensures r.Ok? <==> TokenValid(header) && sentence.GetOr([]) != []
                       && (Contains(sentence.value, Clause1)
                           || (Contains(sentence.value, Clause3) && Contains(sentence.value, Clause4)))
    ensures r.Ok? && Contains(sentence.value, Clause1) ==>
              if Contains(sentence.value, Clause2) then
                r.message == TwoClauses && r.value.matchedClauses == [Clause1 + "，", Clause2 + "。"]
                && r.value.nextSentence == Clause3 + "，" + Clause4 + "。"
              else
                r.message == OneClause && r.value.matchedClauses == [Clause1 + "，"]
                && r.value.nextSentence == Clause2 + "。"
    ensures r.Ok? && !Contains(sentence.value, Clause1) ==>
              r.message == LastLine && r.value.matchedClauses == [Clause3 + "，", Clause4 + "。"]
              && r.value.nextSentence == "对诗结束。"
    ensures r.Err? && TokenValid(header) && sentence.GetOr([]) != [] ==> r == Err(400, NoCouplet(sentence.value))
  {
    if !TokenValid(header) then Err(401, AuthFailed)
    else if sentence.GetOr([]) == [] then Err(400, EmptySentence)
    else
      var s := sentence.value;
      var title, author := poems[0].title, poems[0].author;
      if Contains(s, Clause1) then
        if Contains(s, Clause2) then
          Ok(200, TwoClauses, Couplet(s, [Clause1 + "，", Clause2 + "。"], Clause3 + "，" + Clause4 + "。", title, author))
        else
          Ok(200, OneClause, Couplet(s, [Clause1 + "，"], Clause2 + "。", title, author))
      else if Contains(s, Clause3) && Contains(s, Clause4) then
        Ok(200, LastLine, Couplet(s, [Clause3 + "，", Clause4 + "。"], "对诗结束。", title, author))
      else Err(400, NoCouplet(s))
  }

  /** The first line, in poem order and then line order, that contains the
      text: the position of the poem and of the line. */
  function FirstLineWith(poems: seq<Poem>, content: string): (r: Option<(nat, nat)>)
    ensures r.Some? ==> var (i, j) := r.value;
              && i < |poems| && j < |poems[i].paragraphs| && Contains(poems[i].paragraphs[j], content)
              && (forall k :: 0 <= k < i ==> !HasLineWith(poems[k], content))
              && (forall l :: 0 <= l < j ==> !Contains(poems[i].paragraphs[l], content))
    ensures r.None? <==> forall k :: 0 <= k < |poems| ==> !HasLineWith(poems[k], content)
  {
    if poems == [] then None
    else
      match FindIndex(poems[0].paragraphs, (para: string) => Contains(para, content))
      case Some(j) => Some((0, j))
      case None =>
        match FirstLineWith(poems[1..], content)
        case None => None
        case Some((i, j)) => Some((i + 1, j))
  }

  /** The nested search of the prompt builder: poem by poem, line by
      line, stopping at the first line that contains the text. */
  method FindLine(poems: seq<Poem>, content: string) returns (r: Option<(nat, nat)>)
    ensures r == FirstLineWith(poems, content)
  {
    var i := 0;
    while i < |poems|
      invariant i <= |poems|
      invariant forall k :: 0 <= k < i ==> !HasLineWith(poems[k], content)
    {
      var j := 0;
      while j < |poems[i].paragraphs|
        invariant j <= |poems[i].paragraphs|
        invariant forall l :: 0 <= l < j ==> !Contains(poems[i].paragraphs[l], content)
      {
        if Contains(poems[i].paragraphs[j], content) {
          return Some((i, j));
        }
        j := j + 1;
      }
      i := i + 1;
    }
    return None;
  }

  /** `GET /api/poem/parse/prompt`: a title equal to the text (default
      `''`) comes first; then the first line containing it; otherwise 400. */
  function ParsePrompt(header: Option<string>, contentParam: Option<string>, poems: seq<Poem>): (r: Reply<Prompt>)
    ensures !TokenValid(header) ==> r == Err(401, AuthFailed)
    ensures TokenValid(header) ==>
              var content := ParamOr(contentParam, "");
              var byTitle := FindIndex(poems, (p: Poem) => p.title == content);
              && (byTitle.Some? ==>
                    r == Ok(200, TitlePromptMade, TitlePrompt("赏析诗歌《" + content + "》", content)))
              && (byTitle.None? && FirstLineWith(poems, content).Some? ==>
                    var (i, j) := FirstLineWith(poems, content).value;
                    var para := poems[i].paragraphs[j];
                    r == Ok(200, LinePromptMade,
                            LinePrompt("赏析《" + poems[i].title + "》中的" + para, poems[i].title, content, para)))
              && (byTitle.None? && FirstLineWith(poems, content).None? ==> r == Err(400, NoPromptMatch))
    ensures r.Ok? <==> TokenValid(header)
                       && (exists k :: 0 <= k < |poems| && (poems[k].title == ParamOr(contentParam, "")
                                                             || HasLineWith(poems[k], ParamOr(contentParam, ""))))
  {
    if !TokenValid(header) then Err(401, AuthFailed)
    else
      var content := ParamOr(contentParam, "");
      match FindIndex(poems, (p: Poem) => p.title == content)
      case Some(k) =>
        var title := poems[k].title;
        Ok(200, TitlePromptMade, TitlePrompt("赏析诗歌《" + title + "》", title))
      case None =>
        match FirstLineWith(poems, content)
        case Some((i, j)) =>
          var para := poems[i].paragraphs[j];
          Ok(200, LinePromptMade, LinePrompt("赏析《" + poems[i].title + "》中的" + para, poems[i].title, content, para))
        case None => Err(400, NoPromptMatch)
  }
}
