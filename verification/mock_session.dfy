/** The mock chat-session service (src/mock/data/session.ts): each user's
    sessions, keyed by a UUID the client chooses, and the removal of a
    deleted session's questions from the question table. */
module MockSessions {
  import opened Wrappers
  import opened Strings
  import opened Lists
  import opened MockAuth
  import opened MockChat

  /** Creation times are whole seconds. */
  datatype Session = Session(sessionId: string, userId: int, name: string, createTime: int)

  /** A session as the list reports it. */
  datatype SessionView = SessionView(sessionId: string, name: string, createTime: int)

  /** The id and name a create or rename reports. */
  datatype Named = Named(sessionId: string, name: string)

  const NameRequired := "会话名称不能为空"
  const BadSessionId := "会话ID格式错误，必须为UUID格式"
  const IdTaken := "会话ID已存在"
  const SessionCreated := "创建会话成功"
  const SessionsListed := "获取会话列表成功"
  const NewNameRequired := "会话名不能为空"
  const NoSuchSession := "会话不存在"
  const SessionRenamed := "重命名会话成功"
  const SessionDeleted := "删除会话成功"

  predicate IsHexDigit(c: char) {
    '0' <= c <= '9' || 'a' <= c <= 'f' || 'A' <= c <= 'F'
  }

  /** Where the dashes of `xxxxxxxx-xxxx-Mxxx-Nxxx-xxxxxxxxxxxx` go. */
  predicate IsDashPosition(i: int) {
    i == 8 || i == 13 || i == 18 || i == 23
  }

  /** `isValidUUID`: five groups of 8, 4, 4, 4 and 12 hex digits joined by
      dashes, a version digit from 1 to 5 and a variant digit among 8, 9,
      a and b, in either case. */
  predicate IsValidUUID(s: string) {
    && |s| == 36
    && (forall i :: 0 <= i < |s| ==> if IsDashPosition(i) then s[i] == '-' else IsHexDigit(s[i]))
    && '1' <= s[14] <= '5'
    && s[19] in "89abAB"
  }

  /** Letter case does not matter. */
  lemma UUIDIgnoresCase(s: string)
    ensures IsValidUUID(s) <==> IsValidUUID(LowerAscii(s))
  {
    var t := LowerAscii(s);
    assert forall i :: 0 <= i < |s| ==> (IsHexDigit(s[i]) <==> IsHexDigit(t[i]));
    assert forall i :: 0 <= i < |s| ==> (s[i] == '-' <==> t[i] == '-');
    if |s| == 36 {
      assert (s[19] in "89abAB") <==> (t[19] in "89abAB");
    }
  }

  /** Of the ids that differ from a well-formed one only in the version
      digit, exactly those with a version from 1 to 5 pass. */
  lemma VersionDigit(s: string, c: char)
    requires IsValidUUID(s)
    ensures IsValidUUID(s[14 := c]) <==> '1' <= c <= '5'
  {
    var t := s[14 := c];
    if '1' <= c <= '5' {
      forall i | 0 <= i < |t|
        ensures if IsDashPosition(i) then t[i] == '-' else IsHexDigit(t[i])
      {
        if i != 14 {
          assert t[i] == s[i];
        }
      }
      assert t[19] == s[19];
    }
  }

  /** `!name || name.trim() === ''`. */
  predicate BlankName(name: Option<string>) {
    name.None? || IsBlank(name.value)
  }

  /** The position of the user's session with this id (`find` / `findIndex`). */
  function SessionIndex(sessions: seq<Session>, sessionId: Option<string>, userId: int): (r: Option<nat>)
    ensures r.Some? ==> r.value < |sessions| && sessionId == Some(sessions[r.value].sessionId)
                        && sessions[r.value].userId == userId
    ensures r.None? <==> forall j :: 0 <= j < |sessions| ==>
                           !(sessionId == Some(sessions[j].sessionId) && sessions[j].userId == userId)
  {
    FindIndex(sessions, (s: Session) => sessionId == Some(s.sessionId) && s.userId == userId)
  }

  /** No user has two sessions with the same id. */
  predicate OwnIdsUnique(sessions: seq<Session>) {
    forall i, j :: 0 <= i < j < |sessions| ==>
      !(sessions[i].sessionId == sessions[j].sessionId && sessions[i].userId == sessions[j].userId)
  }

  /** `list.filter(s => s.user_id === userId).sort((a, b) => b.create_time - a.create_time)`. */
  function NewestFirst(sessions: seq<Session>, userId: int): (r: seq<Session>)
    ensures multiset(r) == multiset(Filter(sessions, (s: Session) => s.userId == userId))
    ensures SortedDesc(r, (s: Session) => s.createTime)
  {
    SortDesc(Filter(sessions, (s: Session) => s.userId == userId), (s: Session) => s.createTime)
  }

  function SessionViews(s: seq<Session>): (r: seq<SessionView>)
    ensures |r| == |s| && forall i :: 0 <= i < |s| ==> r[i] == SessionView(s[i].sessionId, s[i].name, s[i].createTime)
  {
    seq(|s|, i requires 0 <= i < |s| => SessionView(s[i].sessionId, s[i].name, s[i].createTime))
  }

  /** The questions, in order, without those stored under `sessionId`. */
  function WithoutSession(qas: seq<QA>, sessionId: string): seq<QA> {
    if qas == [] then []
    else (if qas[0].sessionId == sessionId then [] else [qas[0]]) + WithoutSession(qas[1..], sessionId)
  }

  lemma {:induction false} WithoutSessionAppend(a: seq<QA>, b: seq<QA>, sessionId: string)
    ensures WithoutSession(a + b, sessionId) == WithoutSession(a, sessionId) + WithoutSession(b, sessionId)
  {
    if a == [] {
      assert a + b == b;
    } else {
      assert (a + b)[0] == a[0];
      assert (a + b)[1..] == a[1..] + b;
      WithoutSessionAppend(a[1..], b, sessionId);
    }
  }

  /** Questions of other sessions only: nothing is removed. */
  lemma {:induction false} WithoutSessionKeepsAll(qas: seq<QA>, sessionId: string)
    requires forall j :: 0 <= j < |qas| ==> qas[j].sessionId != sessionId
    ensures WithoutSession(qas, sessionId) == qas
  {
    if qas != [] {
      WithoutSessionKeepsAll(qas[1..], sessionId);
    }
  }

  /** Exactly the questions of other sessions remain. */
  lemma {:induction false} WithoutSessionMembers(qas: seq<QA>, sessionId: string)
    ensures forall qa :: qa in WithoutSession(qas, sessionId) <==> qa in qas && qa.sessionId != sessionId
  {
    if qas != [] {
      WithoutSessionMembers(qas[1..], sessionId);
      assert forall qa :: qa in qas <==> qa == qas[0] || qa in qas[1..];
    }
  }

  /** The index where the k-th pass of the backward splice loop has got to:
      everything from there on has been filtered. */
  function Frontier(indices: seq<nat>, k: nat, n: nat): nat {
    if k < |indices| then indices[k] else n
  }

  /** The indices the first pass of the cascade collects: in increasing
      order, each of a question of the session, and all of them. */
  predicate Collected(all: seq<QA>, indices: seq<nat>, sessionId: string) {
    && (forall a, b :: 0 <= a < b < |indices| ==> indices[a] < indices[b])
    && (forall m :: 0 <= m < |indices| ==> indices[m] < |all| && all[indices[m]].sessionId == sessionId)
    && (forall j :: 0 <= j < |all| && all[j].sessionId == sessionId ==> j in indices)
  }

  /** No question of the session lies between two consecutive collected
      indices, nor before the first one. */
  lemma Gap(all: seq<QA>, indices: seq<nat>, k: nat, sessionId: string)
    requires k <= |indices|
    requires Collected(all, indices, sessionId)
    ensures forall j :: (if k == 0 then 0 else indices[k - 1] + 1) <= j < Frontier(indices, k, |all|) ==>
              all[j].sessionId != sessionId
  {
    forall j | (if k == 0 then 0 else indices[k - 1] + 1) <= j < Frontier(indices, k, |all|)
      ensures all[j].sessionId != sessionId
    {
      forall m | 0 <= m < |indices|
        ensures indices[m] != j
      {
        if m < k {
          assert m == k - 1 || indices[m] < indices[k - 1];
        } else {
          assert indices[k] <= indices[m];
        }
      }
      assert j !in indices;
    }
  }

  /** One pass of the backward loop: splicing out a question of the
      session that is followed, up to the filtered tail, only by questions of
      other sessions extends the filtered tail down to it. */
  lemma SpliceStep(all: seq<QA>, at: nat, front: nat, sessionId: string, cur: seq<QA>)
    requires at < front <= |all|
    requires all[at].sessionId == sessionId
    requires forall j :: at < j < front ==> all[j].sessionId != sessionId
    requires cur == all[..front] + WithoutSession(all[front..], sessionId)
    ensures at < |cur|
    ensures cur[..at] + cur[at + 1..] == all[..at] + WithoutSession(all[at..], sessionId)
  {
    var tail := WithoutSession(all[front..], sessionId);
    assert cur[..at] == all[..at];
    assert cur[at + 1..] == all[at + 1..front] + tail;
    assert all[at..] == [all[at]] + (all[at + 1..front] + all[front..]);
    WithoutSessionAppend([all[at]], all[at + 1..front] + all[front..], sessionId);
    WithoutSessionAppend(all[at + 1..front], all[front..], sessionId);
    WithoutSessionKeepsAll(all[at + 1..front], sessionId);
    assert WithoutSession([all[at]], sessionId) == [];
    assert WithoutSession(all[at..], sessionId) == all[at + 1..front] + tail;
  }

  /** After the last pass the untouched head holds no question of the
      session, so the whole table is filtered. */
  lemma SpliceDone(all: seq<QA>, front: nat, sessionId: string)
    requires front <= |all|
    requires forall j :: 0 <= j < front ==> all[j].sessionId != sessionId
    ensures all[..front] + WithoutSession(all[front..], sessionId) == WithoutSession(all, sessionId)
  {
    assert all == all[..front] + all[front..];
    WithoutSessionAppend(all[..front], all[front..], sessionId);
    WithoutSessionKeepsAll(all[..front], sessionId);
  }

  /** The first pass of the cascade: `forEach` over the questions, pushing
      the index of each one stored under the session id. */
  method CollectIndices(all: seq<QA>, sessionId: string) returns (indices: seq<nat>)
    ensures Collected(all, indices, sessionId)
  {
    indices := [];
    var i := 0;
    while i < |all|
      invariant 0 <= i <= |all|
      invariant forall a, b :: 0 <= a < b < |indices| ==> indices[a] < indices[b]
      invariant forall m :: 0 <= m < |indices| ==> indices[m] < i && all[indices[m]].sessionId == sessionId
      invariant forall j :: 0 <= j < i && all[j].sessionId == sessionId ==> j in indices
    {
      if all[i].sessionId == sessionId {
        indices := indices + [i];
      }
      i := i + 1;
    }
  }

  /** The questions deleted along with a session: the indices of every
      question of that session, whoever asked it, are collected and then
      spliced out from the last to the first. */
  method DropSessionQuestions(t: QATable, sessionId: string)
    modifies t
    ensures t.qas == WithoutSession(old(t.qas), sessionId)
  {
    var all := t.qas;
    var indices := CollectIndices(all, sessionId);
    var k := |indices|;
    assert all[|all|..] == [];
    while k > 0
      invariant 0 <= k <= |indices|
      invariant t.qas == all[..Frontier(indices, k, |all|)] + WithoutSession(all[Frontier(indices, k, |all|)..], sessionId)
    {
      Gap(all, indices, k, sessionId);
      SpliceStep(all, indices[k - 1], Frontier(indices, k, |all|), sessionId, t.qas);
      t.qas := t.qas[..indices[k - 1]] + t.qas[indices[k - 1] + 1..];
      k := k - 1;
    }
    Gap(all, indices, 0, sessionId);
    SpliceDone(all, Frontier(indices, 0, |all|), sessionId);
  }

  /** A session whose id its owner does not use yet keeps ids unique per
      user when put in front. */
  lemma AddOwn(sessions: seq<Session>, s: Session)
    requires OwnIdsUnique(sessions)
    requires SessionIndex(sessions, Some(s.sessionId), s.userId).None?
    ensures OwnIdsUnique([s] + sessions)
  {
    var after := [s] + sessions;
    forall a, b | 0 <= a < b < |after|
      ensures !(after[a].sessionId == after[b].sessionId && after[a].userId == after[b].userId)
    {
      assert after[b] == sessions[b - 1];
      if a > 0 {
        assert after[a] == sessions[a - 1];
      }
    }
  }

  /** Removing a user's session keeps ids unique per user, and leaves
      that user no session with that id. */
  lemma RemoveOwn(sessions: seq<Session>, i: nat, sessionId: string, userId: int)
    requires OwnIdsUnique(sessions)
    requires i < |sessions| && sessions[i].sessionId == sessionId && sessions[i].userId == userId
    ensures OwnIdsUnique(sessions[..i] + sessions[i + 1..])
    ensures SessionIndex(sessions[..i] + sessions[i + 1..], Some(sessionId), userId).None?
  {
    var after := sessions[..i] + sessions[i + 1..];
    forall j | 0 <= j < |after|
      ensures !(after[j].sessionId == sessionId && after[j].userId == userId)
    {
      if j < i {
        assert after[j] == sessions[j];
      } else {
        assert after[j] == sessions[j + 1];
      }
    }
    forall a, b | 0 <= a < b < |after|
      ensures !(after[a].sessionId == after[b].sessionId && after[a].userId == after[b].userId)
    {
      var a', b' := if a < i then a else a + 1, if b < i then b else b + 1;
      assert after[a] == sessions[a'] && after[b] == sessions[b'];
    }
  }

  class SessionTable {
    var sessions: seq<Session>
    /** The question table the delete cascade reaches into. */
    const chat: QATable

    predicate Valid()
      reads this
    {
      OwnIdsUnique(sessions)
    }

    constructor (initial: seq<Session>, chat: QATable)
      requires OwnIdsUnique(initial)
      ensures Valid() && sessions == initial && this.chat == chat
    {
      sessions := initial;
      this.chat := chat;
    }

    /** `POST /api/session/create`: checks, in order, the caller, the name,
        the id's format and whether the caller already has a session with
        that id (another user's session with the same id does not count);
        then puts the new session, with the trimmed name, in front. */
    method Create(header: Option<string>, sessionId: Option<string>, name: Option<string>, nowSeconds: int)
      returns (reply: Reply<Named>)
      requires Valid()
      modifies this
      ensures Valid()
      ensures RequesterId(header).None? ==> reply == Err(401, AuthFailed)
      ensures RequesterId(header).Some? && BlankName(name) ==> reply == Err(400, NameRequired)
      ensures (RequesterId(header).Some? && !BlankName(name)
               && !(sessionId.Some? && IsValidUUID(sessionId.value))) ==> reply == Err(400, BadSessionId)
      ensures (RequesterId(header).Some? && !BlankName(name) && sessionId.Some? && IsValidUUID(sessionId.value)
               && SessionIndex(old(sessions), sessionId, RequesterId(header).value).Some?) ==>
                reply == Err(400, IdTaken)
      ensures reply.Ok? <==>
                && RequesterId(header).Some? && !BlankName(name) && sessionId.Some? && IsValidUUID(sessionId.value)
                && SessionIndex(old(sessions), sessionId, RequesterId(header).value).None?
      ensures reply.Err? ==> sessions == old(sessions)
      ensures reply.Ok? ==>
                && reply == Ok(201, SessionCreated, Named(sessionId.value, Trim(name.value)))
                && sessions == [Session(sessionId.value, RequesterId(header).value, Trim(name.value), nowSeconds)]
                               + old(sessions)
    {
      var uid := RequesterId(header);
      if uid.None? {
        return Err(401, AuthFailed);
      }
      TrimEmptyIffBlank(name.GetOr([]));
      if name.None? || Trim(name.value) == [] {
        return Err(400, NameRequired);
      }
      if !(sessionId.Some? && IsValidUUID(sessionId.value)) {
        return Err(400, BadSessionId);
      }
      if SessionIndex(sessions, sessionId, uid.value).Some? {
        return Err(400, IdTaken);
      }
      var created := Session(sessionId.value, uid.value, Trim(name.value), nowSeconds);
      AddOwn(sessions, created);
      sessions := [created] + sessions;
      reply := Ok(201, SessionCreated, Named(sessionId.value, Trim(name.value)));
    }

    /** `GET /api/session/list`: the caller's sessions, newest first, each
        stored one listed once. */
    function List(header: Option<string>): (r: Reply<seq<SessionView>>)
      reads this
      ensures r.Err? <==> RequesterId(header).None?
      ensures r.Err? ==> r == Err(401, AuthFailed)
      ensures r.Ok? ==>
                && r.status == 200 && r.message == SessionsListed
                && r.value == SessionViews(NewestFirst(sessions, RequesterId(header).value))
                && (forall i, j :: 0 <= i < j < |r.value| ==> r.value[i].createTime >= r.value[j].createTime)
                && (forall s :: s in sessions && s.userId == RequesterId(header).value ==>
                      SessionView(s.sessionId, s.name, s.createTime) in r.value)
    {
      var uid := RequesterId(header);
      if uid.None? then Err(401, AuthFailed)
      else
        var sorted := NewestFirst(sessions, uid.value);
        assert forall s :: s in sessions && s.userId == uid.value ==>
                 SessionView(s.sessionId, s.name, s.createTime) in SessionViews(sorted) by {
          forall s | s in sessions && s.userId == uid.value
            ensures SessionView(s.sessionId, s.name, s.createTime) in SessionViews(sorted)
          {
            var k :| 0 <= k < |sessions| && sessions[k] == s;
            assert s in Filter(sessions, (x: Session) => x.userId == uid.value);
            assert s in multiset(sorted);
            var i :| 0 <= i < |sorted| && sorted[i] == s;
            assert SessionViews(sorted)[i] == SessionView(s.sessionId, s.name, s.createTime);
          }
        }
        Ok(200, SessionsListed, SessionViews(sorted))
    }

    /** `PUT /api/session/rename`: only the caller's session with that id
        takes the trimmed name; every other session is left as it was. */
    method Rename(header: Option<string>, sessionId: Option<string>, name: Option<string>) returns (reply: Reply<Named>)
      requires Valid()
      modifies this
      ensures Valid()
      ensures RequesterId(header).None? ==> reply == Err(401, AuthFailed)
      ensures RequesterId(header).Some? && BlankName(name) ==> reply == Err(400, NewNameRequired)
      ensures (RequesterId(header).Some? && !BlankName(name)
               && SessionIndex(old(sessions), sessionId, RequesterId(header).value).None?) ==>
                reply == Err(404, NoSuchSession)
      ensures reply.Ok? <==> RequesterId(header).Some? && !BlankName(name)
                             && SessionIndex(old(sessions), sessionId, RequesterId(header).value).Some?
      ensures reply.Err? ==> sessions == old(sessions)
      ensures reply.Ok? ==>
                var i := SessionIndex(old(sessions), sessionId, RequesterId(header).value).value;
                && reply == Ok(200, SessionRenamed, Named(sessionId.value, Trim(name.value)))
                && sessions == old(sessions)[i := old(sessions)[i].(name := Trim(name.value))]
    {
      var uid := RequesterId(header);
      if uid.None? {
        return Err(401, AuthFailed);
      }
      TrimEmptyIffBlank(name.GetOr([]));
      if name.None? || Trim(name.value) == [] {
        return Err(400, NewNameRequired);
      }
      var i := SessionIndex(sessions, sessionId, uid.value);
      if i.None? {
        return Err(404, NoSuchSession);
      }
      sessions := sessions[i.value := sessions[i.value].(name := Trim(name.value))];
      reply := Ok(200, SessionRenamed, Named(sessionId.value, Trim(name.value)));
    }

    /** `DELETE /api/session/delete/:id`: removes the caller's session with
        that id, after which the caller has none left with it, and then
        every question stored under that session id, whichever user's
        session it belongs to. */
    method Delete(header: Option<string>, sessionId: string) returns (reply: Reply<string>)
      requires Valid()
      modifies this, chat
      ensures Valid()
      ensures RequesterId(header).None? ==> reply == Err(401, AuthFailed)
      ensures reply.Ok? <==> RequesterId(header).Some?
                             && SessionIndex(old(sessions), Some(sessionId), RequesterId(header).value).Some?
      ensures (RequesterId(header).Some?
               && SessionIndex(old(sessions), Some(sessionId), RequesterId(header).value).None?) ==>
                reply == Err(404, NoSuchSession)
      ensures reply.Err? ==> sessions == old(sessions) && chat.qas == old(chat.qas)
      ensures reply.Ok? ==>
                var i := SessionIndex(old(sessions), Some(sessionId), RequesterId(header).value).value;
                && reply == Ok(200, SessionDeleted, sessionId)
                && sessions == old(sessions)[..i] + old(sessions)[i + 1..]
                && SessionIndex(sessions, Some(sessionId), RequesterId(header).value).None?
                && chat.qas == WithoutSession(old(chat.qas), sessionId)
                && (forall qa :: qa in chat.qas <==> qa in old(chat.qas) && qa.sessionId != sessionId)
    {
      var uid := RequesterId(header);
      if uid.None? {
        return Err(401, AuthFailed);
      }
      var i := SessionIndex(sessions, Some(sessionId), uid.value);
      if i.None? {
        return Err(404, NoSuchSession);
      }
      RemoveOwn(sessions, i.value, sessionId, uid.value);
      sessions := sessions[..i.value] + sessions[i.value + 1..];
      DropSessionQuestions(chat, sessionId);
      WithoutSessionMembers(old(chat.qas), sessionId);
      reply := Ok(200, SessionDeleted, sessionId);
    }
  }
}
