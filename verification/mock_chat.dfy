/** The mock question-and-answer service (src/mock/data/chat.ts): the table
    of questions asked in each chat session, the canned answers, the list of
    a session's questions and the streamed dialog request. */
module MockChat {
  import opened Wrappers
  import opened Strings
  import opened Json
  import opened Lists
  import opened MockAuth
  import opened MockAdapter

  datatype Status = Normal | Stopped

  /** One question with its answer. Timestamps are whole seconds. */
  datatype QA = QA(questionId: string, sessionId: string, userId: int, question: string, answer: string,
                   numRender: int, status: Status, timestamp: int)

  /** A question as the list reports it: without its session and user. */
  datatype QAView = QAView(questionId: string, question: string, answer: string, numRender: int,
                           status: Status, timestamp: int)

  /** What a streamed dialog request answers with. */
  datatype StreamData = StreamData(questionId: string, fullContent: string)

  const QAListed := "获取对话列表成功"
  const MissingToken := "缺少Authorization Token"
  const EmptyQuestion := "问题不能为空"
  const Streaming := "流式响应"

  /** The canned answers, tried in this order; a question containing a key
      gets that key's answer. */
  const AnswerKeys: seq<string> := ["唐诗", "李白", "杜甫", "静夜思", "宋词", "格律"]
  const AnswerTexts: seq<string> := [
    "唐诗是中国唐代产生的诗歌，是中国古典诗歌的巅峰。唐诗继承了汉魏民歌、乐府传统，并加以发展创新。唐代诗人辈出，李白、杜甫、王维、白居易等名家的作品流传至今。唐诗的特点是格律严谨、意境深远、语言精炼，既有豪放派的气势磅礴，也有婉约派的细腻柔美。",
    "李白（701年-762年），字太白，号青莲居士，是唐代伟大的浪漫主义诗人，被后人誉为\"诗仙\"。他的诗歌想象丰富，语言流畅自然，风格豪放飘逸。代表作有《静夜思》、《将进酒》、《蜀道难》等。李白一生创作了大量优秀诗篇，对后世产生了深远影响。",
    "杜甫（712年-770年），字子美，号少陵野老，是唐代伟大的现实主义诗人，被后人尊为\"诗圣\"。他的诗歌深刻反映了唐代社会的动荡和人民的疾苦，代表作有《春望》、《茅屋为秋风所破歌》、《登高》等。杜甫的诗作被称为\"诗史\"，具有很高的思想性和艺术性。",
    "《静夜思》是李白创作的一首五言绝句。全诗仅二十字：\"床前明月光，疑是地上霜。举头望明月，低头思故乡。\"诗人通过月光这一意象，表达了游子在异乡的思乡之情。诗歌语言朴实自然，意境深远，成为千古传诵的名篇。",
    "宋词是继唐诗之后的又一文学高峰，是宋代盛行的一种韵文形式。词又称\"曲子词\"、\"长短句\"，源于民间，后经文人加工发展。宋词分为婉约派和豪放派两大流派。婉约派以柳永、李清照为代表，豪放派以苏轼、辛弃疾为代表。宋词在音韵、意境、情感表达等方面都达到了很高的艺术水平。",
    "格律是中国古典诗词在音韵、平仄、对仗等方面的规则。唐诗格律主要包括：平仄规则、韵脚要求、对仗规范等。律诗要求严格，每句的平仄都有固定格式；绝句相对自由，但也要遵循基本的平仄规律。掌握格律是学习古典诗词创作的基础。"
  ]
  const DefaultAnswer := "这是一个关于中国古典诗词的问题。中国古典诗词是中华文化的瑰宝，历经千年传承，涵盖了唐诗、宋词、元曲等多种形式。每个时代都有其独特的艺术特色和代表人物。学习古典诗词不仅能提高文学素养，还能更深入地理解中国传统文化。"

  /** The first key, in order, that the question contains. */
  function KeyIndex(question: string): (r: Option<nat>)
    ensures r.Some? ==> r.value < |AnswerKeys| && Contains(question, AnswerKeys[r.value])
    ensures r.Some? ==> forall j :: 0 <= j < r.value ==> !Contains(question, AnswerKeys[j])
    ensures r.None? <==> forall j :: 0 <= j < |AnswerKeys| ==> !Contains(question, AnswerKeys[j])
  {
    FindIndex(AnswerKeys, (k: string) => Contains(question, k))
  }

  /** `getAnswer`: walks the keys in order and answers for the first one the
      question contains; the default answer when it contains none. */
  method GetAnswer(question: string) returns (answer: string)
    ensures KeyIndex(question).Some? ==> answer == AnswerTexts[KeyIndex(question).value]
    ensures KeyIndex(question).None? ==> answer == DefaultAnswer
  {
    var i := 0;
    while i < |AnswerKeys|
      invariant 0 <= i <= |AnswerKeys|
      invariant forall j :: 0 <= j < i ==> !Contains(question, AnswerKeys[j])
    {
      if Contains(question, AnswerKeys[i]) {
        return AnswerTexts[i];
      }
      i := i + 1;
    }
    return DefaultAnswer;
  }

  function View(qa: QA): QAView {
    QAView(qa.questionId, qa.question, qa.answer, qa.numRender, qa.status, qa.timestamp)
  }

  function Views(s: seq<QA>): (r: seq<QAView>)
    ensures |r| == |s| && forall i :: 0 <= i < |s| ==> r[i] == View(s[i])
  {
    seq(|s|, i requires 0 <= i < |s| => View(s[i]))
  }

  /** `sort((a, b) => a.timestamp - b.timestamp)`: a stable sort, oldest first. */
  function SortByTime(s: seq<QA>): (r: seq<QA>)
    ensures multiset(r) == multiset(s)
    ensures forall i, j :: 0 <= i < j < |r| ==> r[i].timestamp <= r[j].timestamp
  {
    var r := SortDesc(s, (qa: QA) => -qa.timestamp);
    assert forall i, j :: 0 <= i < j < |r| ==> -r[i].timestamp >= -r[j].timestamp;
    r
  }

  /** The caller's questions in the requested session; a missing session id
      matches nothing. */
  function Mine(qas: seq<QA>, userId: int, sessionId: Option<string>): seq<QA> {
    Filter(qas, (qa: QA) => sessionId == Some(qa.sessionId) && qa.userId == userId)
  }

  class QATable {
    var qas: seq<QA>

    constructor (initial: seq<QA>)
      ensures qas == initial
    {
      qas := initial;
    }

    /** `GET /api/qa/list`: the caller's questions in the session, oldest
        first, each one exactly as often as it is stored. */
    function QAList(header: Option<string>, sessionId: Option<string>): (r: Reply<seq<QAView>>)
      reads this
      ensures r.Err? <==> RequesterId(header).None?
      ensures r.Err? ==> r == Err(401, AuthFailed)
      ensures r.Ok? ==>
                var mine := Mine(qas, RequesterId(header).value, sessionId);
                && r.status == 200 && r.message == QAListed
                && r.value == Views(SortByTime(mine))
                && |r.value| == |mine|
                && (forall i, j :: 0 <= i < j < |r.value| ==> r.value[i].timestamp <= r.value[j].timestamp)
                && (forall qa :: qa in mine ==> View(qa) in r.value)
                && (forall qa :: qa in mine ==> qa in qas && Some(qa.sessionId) == sessionId
                                                && qa.userId == RequesterId(header).value)
    {
      var uid := RequesterId(header);
      if uid.None? then Err(401, AuthFailed)
      else
        var mine := Mine(qas, uid.value, sessionId);
        var sorted := SortByTime(mine);
        assert forall qa :: qa in mine ==> View(qa) in Views(sorted) by {
          forall qa | qa in mine ensures View(qa) in Views(sorted) {
            assert qa in multiset(sorted);
            var i :| 0 <= i < |sorted| && sorted[i] == qa;
            assert Views(sorted)[i] == View(qa);
          }
        }
        assert forall qa :: qa in mine ==> qa in qas && Some(qa.sessionId) == sessionId && qa.userId == uid.value by {
          forall qa | qa in mine
            ensures qa in qas && Some(qa.sessionId) == sessionId && qa.userId == uid.value
          {
            var i :| 0 <= i < |mine| && mine[i] == qa;
          }
        }
        assert |sorted| == |mine| by {
          assert |multiset(sorted)| == |multiset(mine)|;
        }
        Ok(200, QAListed, Views(sorted))
    }

    /** `GET /api/chat/dialog/stream`: an empty question is refused and
        stores nothing; otherwise exactly one question is appended with its
        canned answer, and the reply carries that answer as the content to
        stream. A missing session id is stored as `''`. */
    method Ask(header: Option<string>, query: Option<string>, sessionId: Option<string>,
               questionId: string, nowSeconds: int) returns (reply: Reply<StreamData>)
      modifies this
      ensures RequesterId(header).None? ==> reply == Err(401, MissingToken) && qas == old(qas)
      ensures RequesterId(header).Some? && query.GetOr([]) == [] ==> reply == Err(400, EmptyQuestion) && qas == old(qas)
      ensures reply.Ok? <==> RequesterId(header).Some? && query.GetOr([]) != []
      ensures reply.Ok? ==>
                var answer := reply.value.fullContent;
                && reply == Ok(200, Streaming, StreamData(questionId, answer))
                && (KeyIndex(query.value).Some? ==> answer == AnswerTexts[KeyIndex(query.value).value])
                && (KeyIndex(query.value).None? ==> answer == DefaultAnswer)
                && qas == old(qas) + [QA(questionId, sessionId.GetOr([]), RequesterId(header).value, query.value,
                                         answer, |answer|, Normal, nowSeconds)]
    {
      var uid := RequesterId(header);
      if uid.None? {
        return Err(401, MissingToken);
      }
      var q := query.GetOr([]);
      if q == [] {
        return Err(400, EmptyQuestion);
      }
      var answer := GetAnswer(q);
      qas := qas + [QA(questionId, sessionId.GetOr([]), uid.value, q, answer, |answer|, Normal, nowSeconds)];
      reply := Ok(200, Streaming, StreamData(questionId, answer));
    }
  }

  /** The object the stream handler returns: the HTTP status, and the
      envelope `{code, message, data}` whose `data` holds the marker. */
  function StreamResponse(d: StreamData): (r: Json)
    ensures Get(r, "data").Some?
  {
    Obj(map["status" := Num(200),
            "data" := Obj(map["code" := Num(200),
                              "message" := Str(Streaming),
                              "data" := Obj(map["stream" := Bool(true),
                                                "question_id" := Str(d.questionId),
                                                "full_content" := Str(d.fullContent)])])])
  }

  /** The adapter as written looks for the marker one level too high, so a
      chat answer is never streamed; read where the handler puts it, the
      marker is there and the content to stream is the stored answer. */
  lemma StreamMarkerMissed(d: StreamData)
    ensures !MarkedStream(StreamFieldsAsWritten(StreamResponse(d)))
    ensures MarkedStream(StreamFields(StreamResponse(d)))
    ensures FullContent(StreamFields(StreamResponse(d)).value) == d.fullContent
  {
    var env := Obj(map["code" := Num(200), "message" := Str(Streaming),
                       "data" := Obj(map["stream" := Bool(true), "question_id" := Str(d.questionId),
                                         "full_content" := Str(d.fullContent)])]);
    assert StreamFieldsAsWritten(StreamResponse(d)) == Some(env);
    assert "stream" !in env.fields;
  }
}
