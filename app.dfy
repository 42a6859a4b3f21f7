/**
 * The session state machine of the chatbot web service: a session is opened
 * with a user id, runs the nine-question PHQ-9 interview one message at a
 * time, reports the total score and a severity band, then carries on as free
 * chat until it is ended and cleared.
 *
 * The pure functions `Start`, `Step` and `End` say what each request does to
 * the session's value; the class `Session` holds the session's keys as fields
 * and its methods, which update them in place, are proved against those
 * functions. Replies of the language model are inputs.
 */
module App {
  import opened Wrappers
  import opened PythonText
  import opened ChatbotService

  // ---------------------------------------------------------------------------
  // assess_depression
  // ---------------------------------------------------------------------------

  /** The four bands the service reports. */
  datatype Band = NoDepression | Mild | Moderate | Severe
  {
    /** How far up the scale the band is. */
    function Rank(): nat
    {
      match this
      case NoDepression => 0
      case Mild => 1
      case Moderate => 2
      case Severe => 3
    }

    /** The message the service returns for the band. */
    function Text(): string
    {
      match this
      case NoDepression => "우울증이 없는 상태입니다."
      case Mild => "경미한 우울증이 의심됩니다."
      case Moderate => "중간 정도의 우울증이 의심됩니다."
      case Severe => "심한 우울증이 의심됩니다."
    }
  }

  /** The five severity levels published with the PHQ-9, cut at 5, 10, 15 and 20. */
  datatype Severity = Minimal | MildLevel | ModerateLevel | ModeratelySevere | SevereLevel

  function PublishedSeverity(total: int): Severity
  {
    if total <= 4 then Minimal
    else if total <= 9 then MildLevel
    else if total <= 14 then ModerateLevel
    else if total <= 19 then ModeratelySevere
    else SevereLevel
  }

  /** The service's bands merge the two highest published levels into one. */
  function BandOf(level: Severity): Band
  {
    match level
    case Minimal => NoDepression
    case MildLevel => Mild
    case ModerateLevel => Moderate
    case ModeratelySevere => Severe
    case SevereLevel => Severe
  }

  /** `assess_depression`: the band of a total score. */
  function AssessDepression(total: int): (band: Band)
    ensures band == NoDepression <==> total < 5
    ensures band == Mild <==> 5 <= total < 10
    ensures band == Moderate <==> 10 <= total < 15
    ensures band == Severe <==> 15 <= total
  {
    if total < 5 then NoDepression
    else if total < 10 then Mild
    else if total < 15 then Moderate
    else Severe
  }

  /** The four messages differ, so the reported text determines the band. */
  lemma BandTextsAreDistinct(a: Band, b: Band)
    requires a.Text() == b.Text()
    ensures a == b
  {
  }

  /** The bands follow the published cut-points, with the two top levels merged. */
  lemma AssessmentFollowsPublishedCutPoints(total: int)
    ensures AssessDepression(total) == BandOf(PublishedSeverity(total))
  {
  }

  /** A larger total never yields a milder band. */
  lemma AssessmentIsMonotone(lower: int, higher: int)
    requires lower <= higher
    ensures AssessDepression(lower).Rank() <= AssessDepression(higher).Rank()
  {
  }

  // ---------------------------------------------------------------------------
  // The session and the replies
  // ---------------------------------------------------------------------------

  /**
   * The value of a session. `present` is false when the session holds no keys
   * (never started, or cleared); the other fields then keep their defaults.
   */
  datatype State = State(
    present: bool,
    userId: string,
    index: nat,
    scores: seq<int>,
    completed: bool,
    history: seq<Message>)

  /** A session with no keys. */
  const Cleared: State := State(false, "", 0, [], false, [])

  /** The session `start_chat` sets up for a user. */
  function Started(userId: string): State
  {
    State(true, userId, 0, [], false, [])
  }

  const ExpiredText: string := "세션이 만료되었거나 유효하지 않습니다. 새로운 세션을 시작하세요."
  const CompletionText: string := "PHQ-9 질문이 완료되었습니다. 이제 일상적인 대화를 나눌 수 있습니다."

  /**
   * One chat request: what the user said, the score `get_score_from_intent`
   * gives it (`ScoreFromReply` of the scoring model's answer) and what the chat
   * model would answer to it.
   */
  datatype Turn = Turn(message: string, score: int, chatReply: string)

  /** The body of the reply to one chat request. */
  datatype Reply =
    | Forbidden
    | Asked(question: string, currentScore: int, totalScore: int)
    | Finished(response: string, totalScore: int, assessment: Band)
    | Chatted(response: string)
  {
    function Status(): int
    {
      if Forbidden? then 403 else 200
    }

    /** The `response` field, or the `error` field of a 403. */
    function Text(): string
    {
      match this
      case Forbidden => ExpiredText
      case Asked(q, _, _) => q
      case Finished(text, _, _) => text
      case Chatted(text) => text
    }
  }

  /** What `end_chat` sends downstream: the user id, the model's overall assessment and the history. */
  datatype Report = Report(userId: Option<string>, overallAssessment: string, history: seq<Message>)

  // ---------------------------------------------------------------------------
  // The invariant
  // ---------------------------------------------------------------------------

  /** User and assistant entries take turns, the user's first. */
  predicate Alternates(history: seq<Message>)
  {
    forall k :: 0 <= k < |history| ==> history[k].role == (if k % 2 == 0 then User else Assistant)
  }

  /**
   * What every reachable session satisfies: one score per interview message,
   * completion exactly when the tenth score is in, and a history of
   * user/assistant pairs, one pair per interview message until completion.
   */
  predicate WellFormed(st: State)
  {
    (!st.present ==> st == Cleared) &&
    (st.present ==>
      |st.scores| == st.index <= |Questions| + 1 &&
      (st.completed <==> st.index == |Questions| + 1) &&
      (!st.completed ==> |st.history| == 2 * st.index) &&
      (st.completed ==> |st.history| >= 2 * st.index) &&
      |st.history| % 2 == 0 &&
      Alternates(st.history))
  }

  // ---------------------------------------------------------------------------
  // The requests, as functions of the session value
  // ---------------------------------------------------------------------------

  /** `start_chat`: 400 without a user id, otherwise a fresh interview for that user. */
  function Start(st: State, userId: Option<string>): (r: (State, int))
    ensures userId.None? ==> r == (st, 400)
    ensures userId.Some? ==> r.1 == 200 && WellFormed(r.0) && r.0.present && r.0.userId == userId.value
    ensures userId.Some? ==> r.0.index == 0 && r.0.scores == [] && !r.0.completed && r.0.history == []
  {
    match userId
    case None => (st, 400)
    case Some(id) => (Started(id), 200)
  }

  /** `process_chat_message` on one turn. */
  function Step(st: State, t: Turn): (r: (State, Reply))
    ensures !st.present ==> r == (st, Forbidden)
    ensures st.present ==> r.1.Status() == 200 && r.0.present && r.0.userId == st.userId
    ensures st.present ==>
      r.0.history == st.history + [Message(User, t.message), Message(Assistant, r.1.Text())]
    ensures st.present && !st.completed ==>
      r.0.scores == st.scores + [t.score] &&
      r.0.index == st.index + 1 &&
      (r.0.completed <==> st.index >= |Questions|)
    ensures st.present && !st.completed && st.index < |Questions| ==>
      r.1 == Asked(Questions[st.index], t.score, Sum(r.0.scores))
    ensures st.present && !st.completed && st.index >= |Questions| ==>
      r.1 == Finished(CompletionText, Sum(r.0.scores), AssessDepression(Sum(r.0.scores)))
    ensures st.present && st.completed ==>
      r.0.index == st.index && r.0.scores == st.scores && r.0.completed && r.1 == Chatted(t.chatReply)
  {
    if !st.present then (st, Forbidden)
    else
      var history := st.history + [Message(User, t.message)];
      if !st.completed then
        var score := t.score;
        var scores := st.scores + [score];
        var asked := AskQuestion(st.index);
        if asked.Some? then
          var reply := Asked(asked.value, score, Sum(scores));
          (st.(index := st.index + 1, scores := scores,
               history := history + [Message(Assistant, reply.Text())]), reply)
        else
          var total := Sum(scores);
          var reply := Finished(CompletionText, total, AssessDepression(total));
          (st.(index := st.index + 1, scores := scores, completed := true,
               history := history + [Message(Assistant, reply.Text())]), reply)
      else
        var reply := Chatted(t.chatReply);
        (st.(history := history + [Message(Assistant, reply.Text())]), reply)
  }

  /**
   * `end_chat`: the report sent downstream (the assessment prompt is built from
   * the history), then a cleared session.
   */
  function End(st: State, overallAssessment: string): (r: (State, Report))
    ensures r.0 == Cleared
    ensures r.1.history == st.history && r.1.overallAssessment == overallAssessment
    ensures r.1.userId.Some? <==> st.present
    ensures st.present ==> r.1.userId.value == st.userId
  {
    (Cleared, Report(if st.present then Some(st.userId) else None, overallAssessment, st.history))
  }

  // ---------------------------------------------------------------------------
  // What the requests preserve
  // ---------------------------------------------------------------------------

  lemma StartKeepsWellFormed(st: State, userId: Option<string>)
    requires WellFormed(st)
    ensures WellFormed(Start(st, userId).0)
  {
  }

  lemma StepKeepsWellFormed(st: State, t: Turn)
    requires WellFormed(st)
    ensures WellFormed(Step(st, t).0)
  {
    var st' := Step(st, t).0;
    if st.present {
      var h := st'.history;
      forall k | 0 <= k < |h|
        ensures h[k].role == (if k % 2 == 0 then User else Assistant)
      {
        if k >= |st.history| {
          assert k == |st.history| || k == |st.history| + 1;
        }
      }
    }
  }

  lemma EndKeepsWellFormed(st: State, overallAssessment: string)
    ensures WellFormed(End(st, overallAssessment).0)
  {
  }

  /** Once the interview is complete it stays complete, whatever is said, and its scores are frozen. */
  lemma CompletionIsFinal(st: State, t: Turn)
    requires st.present && st.completed
    ensures Step(st, t).0.completed
    ensures Step(st, t).0.scores == st.scores
    ensures Step(st, t).0.index == st.index
  {
  }

  /** After `end_chat`, every message is refused with 403 and changes nothing. */
  lemma EndedSessionRefusesMessages(st: State, overallAssessment: string, t: Turn)
    ensures var ended := End(st, overallAssessment).0;
      Step(ended, t) == (ended, Forbidden) && Step(ended, t).1.Status() == 403
  {
  }

  // ---------------------------------------------------------------------------
  // The session object
  // ---------------------------------------------------------------------------

  /** The server-side session of one browser, with one field per session key. */
  class Session
  {
    var present: bool
    var userId: string
    var index: nat
    var scores: seq<int>
    var completed: bool
    var history: seq<Message>

    function Snapshot(): State
      reads this
    {
      State(present, userId, index, scores, completed, history)
    }

    ghost predicate Valid()
      reads this
    {
      WellFormed(Snapshot())
    }

    /** A browser's session before any request: no keys. */
    constructor ()
      ensures Valid() && Snapshot() == Cleared
    {
      present, userId, index, scores, completed, history := false, "", 0, [], false, [];
    }

    /** `session.clear()`. */
    method Clear()
      modifies this
      ensures Valid() && Snapshot() == Cleared
    {
      present, userId, index, scores, completed, history := false, "", 0, [], false, [];
    }

    /** `start_chat`, returning the HTTP status. */
    method StartChat(id: Option<string>) returns (status: int)
      requires Valid()
      modifies this
      ensures Valid()
      ensures (Snapshot(), status) == Start(old(Snapshot()), id)
    {
      if id.None? {
        return 400;
      }
      Clear();
      present := true;
      userId := id.value;
      index := 0;
      scores := [];
      completed := false;
      history := [];
      status := 200;
    }

    /**
     * `process_chat_message`. `score` is what `get_score_from_intent` returns
     * for `message`, `chatReply` what the chat model answers to it; each is
     * used only in the mode that asks for it.
     */
    method ProcessMessage(message: string, score: int, chatReply: string) returns (reply: Reply)
      requires Valid()
      modifies this
      ensures Valid()
      ensures (Snapshot(), reply) == Step(old(Snapshot()), Turn(message, score, chatReply))
    {
      ghost var before := Snapshot();
      StepKeepsWellFormed(before, Turn(message, score, chatReply));
      if !present {
        return Forbidden;
      }
      history := history + [Message(User, message)];
      if !completed {
        var i := index;
        scores := scores + [score];
        index := i + 1;
        if i < |Questions| {
          var next := AskQuestion(i);
          reply := Asked(next.value, score, Sum(scores));
          history := history + [Message(Assistant, next.value)];
        } else {
          var total := Sum(scores);
          completed := true;
          reply := Finished(CompletionText, total, AssessDepression(total));
          history := history + [Message(Assistant, CompletionText)];
        }
      } else {
        reply := Chatted(chatReply);
        history := history + [Message(Assistant, chatReply)];
      }
    }

    /**
     * `end_chat`: returns the prompt sent to the assessment model and the
     * report sent downstream, then clears the session.
     */
    method EndChat(overallAssessment: string) returns (prompt: string, report: Report)
      requires Valid()
      modifies this
      ensures Valid()
      ensures prompt == AssessmentPrompt(old(history))
      ensures (Snapshot(), report) == End(old(Snapshot()), overallAssessment)
    {
      prompt := AssessmentPrompt(history);
      report := Report(if present then Some(userId) else None, overallAssessment, history);
      Clear();
    }
  }
}
