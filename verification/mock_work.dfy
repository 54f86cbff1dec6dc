/** The mock forum service (src/mock/data/work.ts): the posts table with
    each user's like and collect records, the home page, the heat ranking,
    post details, and publishing, deleting, liking, collecting and
    commenting. Authors' experience lives in the account service's user table. */
module MockWorks {
  import opened Wrappers
  import opened Strings
  import opened Lists
  import opened MockAuth

  datatype Comment = Comment(commentId: string, userId: int, userName: string, content: string, commentTime: int)

  datatype Work = Work(id: string, title: string, content: string, userId: int, publishTime: int,
                       likeCount: int, collectCount: int, styles: seq<string>, comments: seq<Comment>)

  const NoToken := "未提供认证令牌"
  const HomeFound := "主页帖子查询成功！"
  const HotFound := "获取热力榜 Top10 成功"
  const HotEmpty := "当前热力榜暂无数据"
  const DetailMissing := "帖子不存在！"
  const DetailFound := "帖子详情查询成功！"
  const TitleOrContentEmpty := "标题和内容不能为空"
  const UserMissing := "用户不存在"
  const PublishedPrefix := "帖子发布成功！经验+1，当前段位："
  const DeleteDenied := "帖子不存在或你无删除权限"
  const Deleted := "帖子及关联的点赞、收藏、评论已全部删除成功！"
  const PostMissing := "帖子不存在"
  const AlreadyLiked := "你已给该帖子点赞，不可重复点赞！"
  const AlreadyCollected := "你已收藏该帖子，不可重复收藏！"
  const LikedPrefix := "点赞成功！帖子作者经验+1，当前段位："
  const CollectedPrefix := "收藏成功！帖子作者经验+1，当前段位："
  const CommentEmpty := "评论内容不能为空！"
  const CommentTooLong := "评论内容长度不能超过500字！"
  const CommentedPrefix := "评论发布成功！帖子作者经验+1，当前段位："

  const HomePageSize := 20
  const HotLimit := 10
  const MaxCommentLength := 500

  /** Twice the heat score `2·likes + 3·collects + 1.5·comments`, which keeps
      it an integer without changing the order. */
  function DoubledHeat(w: Work): (r: int)
    ensures r == 2 * (2 * w.likeCount + 3 * w.collectCount) + 3 * |w.comments|
  {
    4 * w.likeCount + 6 * w.collectCount + 3 * |w.comments|
  }

  /** The position of the first post with this id. */
  function WorkIndex(works: seq<Work>, id: string): (r: Option<nat>)
    ensures r.Some? ==> r.value < |works| && works[r.value].id == id
                        && forall j :: 0 <= j < r.value ==> works[j].id != id
    ensures r.None? <==> forall w :: w in works ==> w.id != id
  {
    var i := FindIndex(works, (w: Work) => w.id == id);
    assert i.None? ==> forall w :: w in works ==> w.id != id by {
      if i.None? {
        forall w | w in works ensures w.id != id {
          var j :| 0 <= j < |works| && works[j] == w;
        }
      }
    }
    i
  }

  /** The position of the first post with this id that `userId` wrote. */
  function OwnedIndex(works: seq<Work>, id: string, userId: int): (r: Option<nat>)
    ensures r.Some? ==> r.value < |works| && works[r.value].id == id && works[r.value].userId == userId
                        && forall j :: 0 <= j < r.value ==> !(works[j].id == id && works[j].userId == userId)
    ensures r.None? ==> forall j :: 0 <= j < |works| ==> !(works[j].id == id && works[j].userId == userId)
  {
    FindIndex(works, (w: Work) => w.id == id && w.userId == userId)
  }

  /** The user table after the user `id`, if there is one, gains one point. */
  function WithExpBump(users: seq<MockUser>, id: int): (r: seq<MockUser>)
    ensures |r| == |users|
    ensures UserIndex(users, Some(id)).None? ==> r == users
    ensures UserIndex(users, Some(id)).Some? ==>
              var k := UserIndex(users, Some(id)).value;
              r == users[k := users[k].(exp := users[k].exp + 1)]
    ensures SequentialIds(users) ==> SequentialIds(r)
    ensures UniqueUsernames(users) ==> UniqueUsernames(r)
    ensures UniqueNames(users) ==> UniqueNames(r)
  {
    match UserIndex(users, Some(id))
    case None => users
    case Some(k) => users[k := users[k].(exp := users[k].exp + 1)]
  }

  /** `author?.exp || 0`. */
  function ExpOf(users: seq<MockUser>, id: int): int {
    match UserIndex(users, Some(id))
    case None => 0
    case Some(k) => users[k].exp
  }

  /** `author?.level || '小白'`. */
  function LevelOf(users: seq<MockUser>, id: int): string {
    match UserIndex(users, Some(id))
    case None => NewcomerLevel
    case Some(k) => if users[k].level == [] then NewcomerLevel else users[k].level
  }

  /** Two tables with the same ids at the same places find the same user. */
  lemma SameIdsSameIndex(a: seq<MockUser>, b: seq<MockUser>, id: int)
    requires |a| == |b| && forall j :: 0 <= j < |a| ==> a[j].id == b[j].id
    ensures UserIndex(a, Some(id)) == UserIndex(b, Some(id))
  {
  }

  /** The author's experience goes up by exactly one when the author exists. */
  lemma BumpAddsOne(users: seq<MockUser>, id: int)
    requires exists u :: u in users && u.id == id
    ensures ExpOf(WithExpBump(users, id), id) == ExpOf(users, id) + 1
  {
    SameIdsSameIndex(users, WithExpBump(users, id), id);
  }

  datatype HomePageData = HomePageData(items: seq<Work>, page: Option<int>, pageSize: int, total: int, totalPages: int)

  /** A row of the heat ranking. */
  datatype HotEntry = HotEntry(id: string, title: string, doubledHeat: int)

  datatype HotData = HotData(top10: seq<HotEntry>, total: int)

  function HeatEntries(works: seq<Work>): (r: seq<HotEntry>)
    ensures |r| == |works|
    ensures forall i :: 0 <= i < |works| ==> r[i] == HotEntry(works[i].id, works[i].title, DoubledHeat(works[i]))
  {
    seq(|works|, i requires 0 <= i < |works| => HotEntry(works[i].id, works[i].title, DoubledHeat(works[i])))
  }

  /** The first `k` items of a list sorted by a descending key are at least
      as large as everything left out. */
  lemma TopOfSorted<T>(s: seq<T>, key: T -> int, k: nat)
    requires SortedDesc(s, key) && k <= |s|
    ensures multiset(s[..k]) <= multiset(s)
    ensures forall x, y :: x in multiset(s[..k]) && y in multiset(s) - multiset(s[..k]) ==> key(x) >= key(y)
  {
    assert s == s[..k] + s[k..];
    assert multiset(s) == multiset(s[..k]) + multiset(s[k..]);
    forall x, y | x in multiset(s[..k]) && y in multiset(s) - multiset(s[..k]) ensures key(x) >= key(y) {
      assert x in s[..k];
      assert y in multiset(s[k..]);
      assert y in s[k..];
      var i :| 0 <= i < k && s[i] == x;
      var j :| k <= j < |s| && s[j] == y;
    }
  }

  datatype Detail = Detail(work: Work, commentTotal: int)

  datatype Published = Published(work: Work, userExp: int, userLevel: string, levelUpdated: bool, originalExp: int)

  /** Like and collect work the same way on their own records. */
  datatype Mark = LikeMark | CollectMark

  datatype Marked = Marked(workId: string, count: int, postUserId: int, originalExp: int, newExp: int,
                           originalLevel: string, newLevel: string, levelUpdated: bool)

  datatype Commented = Commented(commentId: string, workId: string, content: string, commentTime: int,
                                 userId: int, commentCount: int, postUserId: int, originalExp: int, newExp: int,
                                 level: string)

  /** What a user has marked so far (`likeRecords.get(userId)`, empty when unset). */
  function MarksOf(records: map<int, set<string>>, userId: int): set<string> {
    if userId in records then records[userId] else {}
  }

  /** Every user's set without `workId`. */
  function DropWork(records: map<int, set<string>>, workId: string): (r: map<int, set<string>>)
    ensures r.Keys == records.Keys
    ensures forall u :: u in r ==> r[u] == records[u] - {workId}
  {
    map u | u in records :: records[u] - {workId}
  }

  /** The posts, the like and collect records and the user table, as one value. */
  datatype Tables = Tables(works: seq<Work>, likeRecords: map<int, set<string>>,
                           collectRecords: map<int, set<string>>, users: seq<MockUser>)

  function RecordsOf(t: Tables, kind: Mark): map<int, set<string>> {
    if kind == LikeMark then t.likeRecords else t.collectRecords
  }

  /** The tables with the records of one kind replaced. */
  function WithRecords(t: Tables, kind: Mark, records: map<int, set<string>>): (r: Tables)
    ensures RecordsOf(r, kind) == records
    ensures RecordsOf(r, Other(kind)) == RecordsOf(t, Other(kind))
    ensures r.works == t.works && r.users == t.users
  {
    if kind == LikeMark then t.(likeRecords := records) else t.(collectRecords := records)
  }

  function Other(kind: Mark): Mark {
    if kind == LikeMark then CollectMark else LikeMark
  }

  /** `like_count` or `collect_count`. */
  function CountOf(w: Work, kind: Mark): int {
    if kind == LikeMark then w.likeCount else w.collectCount
  }

  /** The post with one more like or collect, and nothing else changed. */
  function Bumped(w: Work, kind: Mark): (r: Work)
    ensures CountOf(r, kind) == CountOf(w, kind) + 1
    ensures CountOf(r, Other(kind)) == CountOf(w, Other(kind))
    ensures r.id == w.id && r.userId == w.userId && r.comments == w.comments
  {
    if kind == LikeMark then w.(likeCount := w.likeCount + 1) else w.(collectCount := w.collectCount + 1)
  }

  /** Liking or collecting a post: at most once per user and post. The first
      mark counts one more for the post, records it for the caller and gives
      its author one point; a repeat is refused and changes nothing. */
  function Marking(kind: Mark, t: Tables, header: Option<string>, workId: string): (out: (Reply<Marked>, Tables))
    ensures RequesterId(header).None? ==> out.0 == Err(401, NoToken)
    ensures (RequesterId(header).Some? && WorkIndex(t.works, workId).None?) ==> out.0 == Err(404, PostMissing)
    ensures (RequesterId(header).Some? && WorkIndex(t.works, workId).Some?
             && workId in MarksOf(RecordsOf(t, kind), RequesterId(header).value)) ==>
              out.0 == Err(400, if kind == LikeMark then AlreadyLiked else AlreadyCollected)
    ensures out.0.Ok? <==> (RequesterId(header).Some? && WorkIndex(t.works, workId).Some?
                            && workId !in MarksOf(RecordsOf(t, kind), RequesterId(header).value))
    ensures out.0.Err? ==> out.1 == t
    ensures out.0.Ok? ==>
              var uid := RequesterId(header).value;
              var i := WorkIndex(t.works, workId).value;
              var w := t.works[i];
              && out.1.works == t.works[i := Bumped(w, kind)]
              && RecordsOf(out.1, kind) == RecordsOf(t, kind)[uid := MarksOf(RecordsOf(t, kind), uid) + {workId}]
              && RecordsOf(out.1, Other(kind)) == RecordsOf(t, Other(kind))
              && out.1.users == WithExpBump(t.users, w.userId)
              && out.0.status == 200
              && out.0.value.count == CountOf(w, kind) + 1
              && out.0.value.originalExp == ExpOf(t.users, w.userId)
              && out.0.value.newExp == ExpOf(out.1.users, w.userId)
  {
    var uid := RequesterId(header);
    if uid.None? then (Err(401, NoToken), t)
    else match WorkIndex(t.works, workId)
      case None => (Err(404, PostMissing), t)
      case Some(i) =>
        var marks := MarksOf(RecordsOf(t, kind), uid.value);
        if workId in marks then (Err(400, if kind == LikeMark then AlreadyLiked else AlreadyCollected), t)
        else
          var w := t.works[i];
          var after := WithExpBump(t.users, w.userId);
          var level := LevelOf(after, w.userId);
          var t' := WithRecords(t, kind, RecordsOf(t, kind)[uid.value := marks + {workId}]);
          (Ok(200, (if kind == LikeMark then LikedPrefix else CollectedPrefix) + level,
              Marked(workId, CountOf(w, kind) + 1, w.userId, ExpOf(t.users, w.userId), ExpOf(after, w.userId),
                     LevelOf(t.users, w.userId), level, false)),
           t'.(works := t.works[i := Bumped(w, kind)], users := after))
  }

  /** Commenting: a non-blank comment of at most 500 characters on an
      existing post by an existing user is appended, and the post's author
      gains one point. `commentId` and `nowMillis` are the generated id and
      the clock. */
  function Commenting(t: Tables, header: Option<string>, workId: string, content: string, commentId: string,
                      nowMillis: int): (out: (Reply<Commented>, Tables))
    ensures RequesterId(header).None? ==> out.0 == Err(401, NoToken)
    ensures (RequesterId(header).Some? && IsBlank(content)) ==> out.0 == Err(400, CommentEmpty)
    ensures (RequesterId(header).Some? && !IsBlank(content) && |content| > MaxCommentLength) ==>
              out.0 == Err(400, CommentTooLong)
    ensures (RequesterId(header).Some? && !IsBlank(content) && |content| <= MaxCommentLength
             && WorkIndex(t.works, workId).None?) ==> out.0 == Err(404, PostMissing)
    ensures (RequesterId(header).Some? && !IsBlank(content) && |content| <= MaxCommentLength
             && WorkIndex(t.works, workId).Some? && UserIndex(t.users, RequesterId(header)).None?) ==>
              out.0 == Err(404, UserMissing)
    ensures out.0.Ok? <==> (RequesterId(header).Some? && !IsBlank(content) && |content| <= MaxCommentLength
                            && WorkIndex(t.works, workId).Some?
                            && UserIndex(t.users, RequesterId(header)).Some?)
    ensures out.0.Err? ==> out.1 == t
    ensures out.0.Ok? ==>
              var uid := RequesterId(header).value;
              var i := WorkIndex(t.works, workId).value;
              var w := t.works[i];
              var commenter := t.users[UserIndex(t.users, Some(uid)).value];
              var c := Comment(commentId, uid, commenter.name, content, nowMillis / 1000);
              && out.1 == t.(works := t.works[i := w.(comments := w.comments + [c])],
                             users := WithExpBump(t.users, w.userId))
              && out.0.status == 201
              && out.0.value.commentCount == |w.comments| + 1 == |out.1.works[i].comments|
              && out.0.value.newExp == ExpOf(out.1.users, w.userId)
  {
    var uid := RequesterId(header);
    if uid.None? then (Err(401, NoToken), t)
    else
      TrimEmptyIffBlank(content);
      if content == [] || Trim(content) == [] then (Err(400, CommentEmpty), t)
      else if |content| > MaxCommentLength then (Err(400, CommentTooLong), t)
      else match WorkIndex(t.works, workId)
        case None => (Err(404, PostMissing), t)
        case Some(i) =>
          match UserIndex(t.users, uid)
          case None => (Err(404, UserMissing), t)
          case Some(k) =>
            var w := t.works[i];
            var c := Comment(commentId, uid.value, t.users[k].name, content, nowMillis / 1000);
            var after := WithExpBump(t.users, w.userId);
            var level := LevelOf(after, w.userId);
            (Ok(201, CommentedPrefix + level,
                Commented(commentId, workId, content, nowMillis / 1000, uid.value, |w.comments| + 1,
                          w.userId, ExpOf(t.users, w.userId), ExpOf(after, w.userId), level)),
             t.(works := t.works[i := w.(comments := w.comments + [c])], users := after))
  }

  class WorkTable {
    var works: seq<Work>
    var likeRecords: map<int, set<string>>
    var collectRecords: map<int, set<string>>
    const users: UserTable

    predicate Valid()
      reads this, users
    {
      users.Valid()
    }

    /** The like records start empty. */
    constructor (initial: seq<Work>, users: UserTable)
      ensures works == initial && likeRecords == map[] && collectRecords == map[] && this.users == users
    {
      works := initial;
      likeRecords := map[];
      collectRecords := map[];
      this.users := users;
    }

    function Records(kind: Mark): map<int, set<string>>
      reads this
    {
      if kind == LikeMark then likeRecords else collectRecords
    }

    /** `GET /api/work/home/page`: the `page` parameter (default `'1'`) of
        the posts newest first, twenty to a page. */
    function HomePage(header: Option<string>, pageParam: Option<string>): (r: Reply<HomePageData>)
      reads this
      ensures r.Err? <==> RequesterId(header).None?
      ensures r.Err? ==> r == Err(401, NoToken)
      ensures r.Ok? ==>
                var sorted := SortDesc(works, (w: Work) => w.publishTime);
                var page := ParseInt(if pageParam.Some? && pageParam.value != [] then pageParam.value else "1");
                && r.status == 200 && r.message == HomeFound
                && r.value.page == page && r.value.pageSize == HomePageSize
                && r.value.total == |works| && r.value.totalPages == CeilDiv(|works|, HomePageSize)
                && (page.Some? ==> r.value.items == Page(sorted, page.value, HomePageSize))
                && (page.None? ==> r.value.items == [])
    {
      if RequesterId(header).None? then Err(401, NoToken)
      else
        var sorted := SortDesc(works, (w: Work) => w.publishTime);
        var page := ParseInt(if pageParam.Some? && pageParam.value != [] then pageParam.value else "1");
        // `slice(NaN, NaN)` is empty
        var items := if page.Some? then Page(sorted, page.value, HomePageSize) else Slice(sorted, 0, 0);
        Ok(200, HomeFound, HomePageData(items, page, HomePageSize, |works|, CeilDiv(|works|, HomePageSize)))
    }

    /** A home page from 1 up is a window of the posts newest first: at most
        twenty of them, in order, drawn from all the posts. */
    lemma HomePageWindow(header: Option<string>, page: int)
      requires RequesterId(header).Some? && page >= 1
      ensures var r := HomePage(header, Some(IntToString(page)));
              var sorted := SortDesc(works, (w: Work) => w.publishTime);
              && multiset(sorted) == multiset(works)
              && r.Ok? && r.value.items == sorted[Min((page - 1) * 20, |works|)..Min(page * 20, |works|)]
              && |r.value.items| <= 20
              && SortedDesc(r.value.items, (w: Work) => w.publishTime)
    {
      ParseIntIntToString(page);
      var sorted := SortDesc(works, (w: Work) => w.publishTime);
      var lo, hi := Min((page - 1) * 20, |works|), Min(page * 20, |works|);
      assert HomePage(header, Some(IntToString(page))).value.items == Page(sorted, page, 20);
      PageWindow(sorted, page, 20);
      SortedWindow(sorted, (w: Work) => w.publishTime, lo, hi);
    }

    /** `GET /api/work/hot`: at most ten posts by decreasing heat. */
    function Hot(header: Option<string>): (r: Reply<HotData>)
      reads this
      ensures r.Err? <==> RequesterId(header).None?
      ensures r.Err? ==> r == Err(401, NoToken)
      ensures r.Ok? ==>
                && r.status == 200 && r.value.total == |works|
                && |r.value.top10| == Min(HotLimit, |works|)
                && r.message == (if works == [] then HotEmpty else HotFound)
                && SortedDesc(r.value.top10, (e: HotEntry) => e.doubledHeat)
                && multiset(r.value.top10) <= multiset(HeatEntries(works))
                && forall x, y :: x in multiset(r.value.top10) && y in multiset(HeatEntries(works)) - multiset(r.value.top10)
                                  ==> x.doubledHeat >= y.doubledHeat
    {
      if RequesterId(header).None? then Err(401, NoToken)
      else
        var key := (e: HotEntry) => e.doubledHeat;
        var ranked := SortDesc(HeatEntries(works), key);
        assert |ranked| == |works| by {
          assert |multiset(ranked)| == |multiset(HeatEntries(works))|;
        }
        var top := ranked[..Min(HotLimit, |ranked|)];
        TopOfSorted(ranked, key, Min(HotLimit, |ranked|));
        Ok(200, if top != [] then HotFound else HotEmpty, HotData(top, |works|))
    }

    /** `GET /api/work/detail/:id`. */
    function GetDetail(header: Option<string>, workId: string): (r: Reply<Detail>)
      reads this
      ensures RequesterId(header).None? ==> r == Err(401, NoToken)
      ensures RequesterId(header).Some? && WorkIndex(works, workId).None? ==> r == Err(404, DetailMissing)
      ensures r.Ok? <==> RequesterId(header).Some? && WorkIndex(works, workId).Some?
      ensures r.Ok? ==>
                var w := works[WorkIndex(works, workId).value];
                r == Ok(200, DetailFound, Detail(w, |w.comments|))
    {
      if RequesterId(header).None? then Err(401, NoToken)
      else match WorkIndex(works, workId)
        case None => Err(404, DetailMissing)
        case Some(i) => Ok(200, DetailFound, Detail(works[i], |works[i].comments|))
    }

    /** `POST /api/work/poem`: a title and a content are required; the new
        post goes first with no likes, collects or comments, and its author
        gains one point. `newId` and `nowMillis` are the generated id and the clock. */
    method Publish(header: Option<string>, title: string, content: string, styles: seq<string>,
                   newId: string, nowMillis: int) returns (reply: Reply<Published>)
      requires Valid()
      modifies this, users
      ensures Valid() && (old(users.NamesUnique()) ==> users.NamesUnique())
      ensures likeRecords == old(likeRecords) && collectRecords == old(collectRecords)
      ensures RequesterId(header).None? ==> reply == Err(401, NoToken)
      ensures (RequesterId(header).Some? && (title == [] || content == [])) ==> reply == Err(400, TitleOrContentEmpty)
      ensures (RequesterId(header).Some? && title != [] && content != []
               && UserIndex(old(users.users), RequesterId(header)).None?) ==> reply == Err(404, UserMissing)
      ensures reply.Ok? <==> (RequesterId(header).Some? && title != [] && content != []
                              && UserIndex(old(users.users), RequesterId(header)).Some?)
      ensures reply.Err? ==> works == old(works) && users.users == old(users.users)
      ensures reply.Ok? ==>
                var uid := RequesterId(header).value;
                var w := Work(newId, title, content, uid, nowMillis / 1000, 0, 0, styles, []);
                var k := UserIndex(old(users.users), Some(uid)).value;
                && works == [w] + old(works)
                && users.users == WithExpBump(old(users.users), uid)
                && reply == Ok(201, PublishedPrefix + old(users.users)[k].level,
                               Published(w, old(users.users)[k].exp + 1, old(users.users)[k].level, false,
                                         old(users.users)[k].exp))
    {
      var uid := RequesterId(header);
      if uid.None? {
        return Err(401, NoToken);
      }
      if title == [] || content == [] {
        return Err(400, TitleOrContentEmpty);
      }
      var k := UserIndex(users.users, uid);
      if k.None? {
        return Err(404, UserMissing);
      }
      var w := Work(newId, title, content, uid.value, nowMillis / 1000, 0, 0, styles, []);
      works := [w] + works;
      var author := users.users[k.value];
      users.users := WithExpBump(users.users, uid.value);
      reply := Ok(201, PublishedPrefix + author.level, Published(w, author.exp + 1, author.level, false, author.exp));
    }

    /** `DELETE /api/work/poem/:id`: only the caller's own post; the first
        one with that id goes, and the id leaves every like and collect record. */
    method Delete(header: Option<string>, workId: string) returns (reply: Reply<()>)
      modifies this
      ensures RequesterId(header).None? ==> reply == Err(401, NoToken)
      ensures reply.Ok? <==> RequesterId(header).Some? && OwnedIndex(old(works), workId, RequesterId(header).value).Some?
      ensures (RequesterId(header).Some? && OwnedIndex(old(works), workId, RequesterId(header).value).None?) ==>
                reply == Err(404, DeleteDenied)
      ensures reply.Err? ==>
                works == old(works) && likeRecords == old(likeRecords) && collectRecords == old(collectRecords)
      ensures reply.Ok? ==>
                var i := OwnedIndex(old(works), workId, RequesterId(header).value).value;
                && reply == Ok(200, Deleted, ())
                && works == old(works)[..i] + old(works)[i + 1..]
                && likeRecords == DropWork(old(likeRecords), workId)
                && collectRecords == DropWork(old(collectRecords), workId)
    {
      var uid := RequesterId(header);
      if uid.None? {
        return Err(401, NoToken);
      }
      var i := OwnedIndex(works, workId, uid.value);
      if i.None? {
        return Err(404, DeleteDenied);
      }
      works := works[..i.value] + works[i.value + 1..];
      likeRecords := DropWork(likeRecords, workId);
      collectRecords := DropWork(collectRecords, workId);
      reply := Ok(200, Deleted, ());
    }

    /** The tables as one value. */
    function Snapshot(): Tables
      reads this, users
    {
      Tables(works, likeRecords, collectRecords, users.users)
    }

    /** `POST /api/work/like/:id` and `POST /api/work/collect/:id/`, as
        `Marking` says. */
    method MarkWork(kind: Mark, header: Option<string>, workId: string) returns (reply: Reply<Marked>)
      requires Valid()
      modifies this, users
      ensures Valid() && (old(users.NamesUnique()) ==> users.NamesUnique())
      ensures (reply, Snapshot()) == Marking(kind, old(Snapshot()), header, workId)
    {
      var out := Marking(kind, Snapshot(), header, workId);
      works, likeRecords, collectRecords := out.1.works, out.1.likeRecords, out.1.collectRecords;
      users.users := out.1.users;
      reply := out.0;
    }

    /** `POST /api/work/comment`, as `Commenting` says. */
    method AddComment(header: Option<string>, workId: string, content: string, commentId: string, nowMillis: int)
      returns (reply: Reply<Commented>)
      requires Valid()
      modifies this, users
      ensures Valid() && (old(users.NamesUnique()) ==> users.NamesUnique())
      ensures (reply, Snapshot()) == Commenting(old(Snapshot()), header, workId, content, commentId, nowMillis)
    {
      var out := Commenting(Snapshot(), header, workId, content, commentId, nowMillis);
      works, likeRecords, collectRecords := out.1.works, out.1.likeRecords, out.1.collectRecords;
      users.users := out.1.users;
      reply := out.0;
    }
  }
}
