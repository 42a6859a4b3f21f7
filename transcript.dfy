/**
 * Whole conversations: a freshly started session driven by a sequence of chat
 * requests. The lemmas here describe the complete outcome of any such run:
 * the state reached, every reply and every history entry.
 */
module Transcript {
  import opened PythonText
  import opened ChatbotService
  import opened App

  /** The session and the replies after handling `turns` one after another. */
  function Run(st: State, turns: seq<Turn>): (r: (State, seq<Reply>))
    ensures |r.1| == |turns|
  {
    if turns == [] then (st, [])
    else
      var (before, replies) := Run(st, turns[..|turns| - 1]);
      var (after, reply) := Step(before, turns[|turns| - 1]);
      (after, replies + [reply])
  }

  /** The score of every turn, in order. */
  function ScoresOf(turns: seq<Turn>): (scores: seq<int>)
    ensures |scores| == |turns|
    ensures forall k :: 0 <= k < |turns| ==> scores[k] == turns[k].score
  {
    seq(|turns|, k requires 0 <= k < |turns| => turns[k].score)
  }

  /** How many of `turns` the interview takes: all of them, up to ten. */
  function Interviewed(turns: seq<Turn>): nat
  {
    if |turns| <= |Questions| + 1 then |turns| else |Questions| + 1
  }

  /**
   * The reply to the last of `turns`, counting from a fresh session: message
   * k (from 0) is answered with question k while k < 9, message 9 with the
   * total of all ten scores, and every later one by the chat model.
   */
  function ExpectedReply(turns: seq<Turn>): Reply
    requires turns != []
  {
    var k := |turns| - 1;
    if k < |Questions| then Asked(Questions[k], turns[k].score, Sum(ScoresOf(turns)))
    else if k == |Questions| then Finished(CompletionText, Sum(ScoresOf(turns)), AssessDepression(Sum(ScoresOf(turns))))
    else Chatted(turns[k].chatReply)
  }

  /** The reply to each of `turns`, each given the turns up to it. */
  function ExpectedReplies(turns: seq<Turn>): (replies: seq<Reply>)
    ensures |replies| == |turns|
  {
    seq(|turns|, k requires 0 <= k < |turns| => ExpectedReply(turns[..k + 1]))
  }

  /** The history a conversation leaves: each message, then the reply to it. */
  function Conversation(turns: seq<Turn>, replies: seq<Reply>): seq<Message>
    requires |replies| == |turns|
  {
    if turns == [] then []
    else
      Conversation(turns[..|turns| - 1], replies[..|turns| - 1]) +
      [Message(User, turns[|turns| - 1].message), Message(Assistant, replies[|turns| - 1].Text())]
  }

  /** The session after `turns`, counting from a session started for `userId`. */
  function ExpectedState(userId: string, turns: seq<Turn>): State
  {
    var m := Interviewed(turns);
    State(true, userId, m, ScoresOf(turns)[..m], |turns| > |Questions|, Conversation(turns, ExpectedReplies(turns)))
  }

  lemma ExpectedRepliesExtend(turns: seq<Turn>)
    requires turns != []
    ensures ExpectedReplies(turns) == ExpectedReplies(turns[..|turns| - 1]) + [ExpectedReply(turns)]
  {
    var n := |turns|;
    var whole := ExpectedReplies(turns);
    var extended := ExpectedReplies(turns[..n - 1]) + [ExpectedReply(turns)];
    forall k | 0 <= k < n
      ensures whole[k] == extended[k]
    {
      if k < n - 1 {
        assert turns[..n - 1][..k + 1] == turns[..k + 1];
      } else {
        assert turns[..k + 1] == turns;
      }
    }
  }

  lemma ExpectedHistoryExtends(userId: string, turns: seq<Turn>)
    requires turns != []
    ensures ExpectedState(userId, turns).history
         == ExpectedState(userId, turns[..|turns| - 1]).history +
            [Message(User, turns[|turns| - 1].message), Message(Assistant, ExpectedReply(turns).Text())]
  {
    ExpectedRepliesExtend(turns);
  }

  /** A message during the interview (k < 9) is scored and answered with question k. */
  lemma InterviewStep(userId: string, turns: seq<Turn>)
    requires 0 < |turns| <= |Questions|
    ensures Step(ExpectedState(userId, turns[..|turns| - 1]), turns[|turns| - 1])
         == (ExpectedState(userId, turns), ExpectedReply(turns))
  {
    var n := |turns|;
    var before := ExpectedState(userId, turns[..n - 1]);
    var after := ExpectedState(userId, turns);
    var r := Step(before, turns[n - 1]);
    ExpectedHistoryExtends(userId, turns);
    assert before.present && !before.completed && before.index == n - 1;
    assert before.scores == ScoresOf(turns[..n - 1]);
    assert ScoresOf(turns[..n - 1]) + [turns[n - 1].score] == ScoresOf(turns);
    assert after.scores == ScoresOf(turns);
    assert r.1 == ExpectedReply(turns);
    assert r.0.history == after.history;
  }

  /** The tenth message (k = 9) is scored and completes the interview. */
  lemma CompletingStep(userId: string, turns: seq<Turn>)
    requires |turns| == |Questions| + 1
    ensures Step(ExpectedState(userId, turns[..|turns| - 1]), turns[|turns| - 1])
         == (ExpectedState(userId, turns), ExpectedReply(turns))
  {
    var n := |turns|;
    var before := ExpectedState(userId, turns[..n - 1]);
    var after := ExpectedState(userId, turns);
    var r := Step(before, turns[n - 1]);
    ExpectedHistoryExtends(userId, turns);
    assert before.present && !before.completed && before.index == n - 1;
    assert before.scores == ScoresOf(turns[..n - 1]);
    assert ScoresOf(turns[..n - 1]) + [turns[n - 1].score] == ScoresOf(turns);
    assert after.scores == ScoresOf(turns);
    assert r.1 == ExpectedReply(turns);
    assert r.0.history == after.history;
  }

  /** Every later message (k > 9) is answered by the chat model and changes only the history. */
  lemma ChattingStep(userId: string, turns: seq<Turn>)
    requires |turns| > |Questions| + 1
    ensures Step(ExpectedState(userId, turns[..|turns| - 1]), turns[|turns| - 1])
         == (ExpectedState(userId, turns), ExpectedReply(turns))
  {
    var n := |turns|;
    ExpectedHistoryExtends(userId, turns);
    assert ScoresOf(turns[..n - 1])[..10] == ScoresOf(turns)[..10];
  }

  /** What a started session does with any sequence of messages, exactly. */
  lemma {:induction false} RunFromStart(userId: string, turns: seq<Turn>)
    ensures Run(Started(userId), turns) == (ExpectedState(userId, turns), ExpectedReplies(turns))
  {
    if turns != [] {
      var n := |turns|;
      RunFromStart(userId, turns[..n - 1]);
      ExpectedRepliesExtend(turns);
      if n <= |Questions| {
        InterviewStep(userId, turns);
      } else if n == |Questions| + 1 {
        CompletingStep(userId, turns);
      } else {
        ChattingStep(userId, turns);
      }
    }
  }

  lemma {:induction false} ConversationAt(turns: seq<Turn>, replies: seq<Reply>, k: nat)
    requires |replies| == |turns| && k < |turns|
    ensures |Conversation(turns, replies)| == 2 * |turns|
    ensures Conversation(turns, replies)[2 * k] == Message(User, turns[k].message)
    ensures Conversation(turns, replies)[2 * k + 1] == Message(Assistant, replies[k].Text())
  {
    var n := |turns|;
    if k < n - 1 {
      ConversationAt(turns[..n - 1], replies[..n - 1], k);
    } else if n > 1 {
      ConversationAt(turns[..n - 1], replies[..n - 1], 0);
    }
  }

  /**
   * While the interview runs, message k is scored and answered with question
   * k, and the total it reports is the sum of the scores of messages 0..k.
   */
  lemma InterviewReplies(userId: string, turns: seq<Turn>, k: nat)
    requires k < |turns| && k < |Questions|
    ensures |Run(Started(userId), turns).1| == |turns|
    ensures Run(Started(userId), turns).1[k] == Asked(Questions[k], turns[k].score, Sum(ScoresOf(turns[..k + 1])))
  {
    RunFromStart(userId, turns);
  }

  /**
   * The tenth message completes the interview: ten scores are stored, and the
   * reply reports their sum and its band. The session is then in free chat.
   */
  lemma CompletionReport(userId: string, turns: seq<Turn>)
    requires |turns| >= |Questions| + 1
    ensures var (st, replies) := Run(Started(userId), turns);
      st.completed && st.index == 10 && |st.scores| == 10 &&
      st.scores == ScoresOf(turns[..10]) && |replies| == |turns| &&
      replies[9] == Finished(CompletionText, Sum(st.scores), AssessDepression(Sum(st.scores)))
  {
    RunFromStart(userId, turns);
    assert ScoresOf(turns)[..10] == ScoresOf(turns[..10]);
  }

  /**
   * After completion, messages are answered by the chat model, and the scores
   * stay those of the first ten messages.
   */
  lemma FreeChatReplies(userId: string, turns: seq<Turn>, k: nat)
    requires |Questions| + 1 <= k < |turns|
    ensures |Run(Started(userId), turns).1| == |turns|
    ensures Run(Started(userId), turns).1[k] == Chatted(turns[k].chatReply)
    ensures Run(Started(userId), turns).0.scores == ScoresOf(turns[..10])
  {
    RunFromStart(userId, turns);
    assert ScoresOf(turns)[..10] == ScoresOf(turns[..10]);
  }

  /**
   * The history is the conversation in order: entry 2k is message k as the
   * user sent it, entry 2k+1 the reply to it.
   */
  lemma HistoryIsTheConversation(userId: string, turns: seq<Turn>, k: nat)
    requires k < |turns|
    ensures var (st, replies) := Run(Started(userId), turns);
      |st.history| == 2 * |turns| && |replies| == |turns| &&
      st.history[2 * k] == Message(User, turns[k].message) &&
      st.history[2 * k + 1] == Message(Assistant, replies[k].Text())
  {
    RunFromStart(userId, turns);
    ConversationAt(turns, ExpectedReplies(turns), k);
  }

  lemma ExpectedScoresFollowQuestions(userId: string, turns: seq<Turn>, j: nat)
    requires 1 <= j <= |Questions| && j < |turns|
    ensures |ExpectedState(userId, turns).history| == 2 * |turns|
    ensures ExpectedState(userId, turns).history[2 * j - 1] == Message(Assistant, Questions[j - 1])
    ensures ExpectedState(userId, turns).history[2 * j] == Message(User, turns[j].message)
  {
    assert ExpectedState(userId, turns).history == Conversation(turns, ExpectedReplies(turns));
    ExpectedQuestionAsked(turns, j - 1);
    ConversationAt(turns, ExpectedReplies(turns), j);
  }

  /** Message k + 1 of the expected history is question k, while the interview runs. */
  lemma ExpectedQuestionAsked(turns: seq<Turn>, k: nat)
    requires k < |turns| && k < |Questions|
    ensures |Conversation(turns, ExpectedReplies(turns))| == 2 * |turns|
    ensures Conversation(turns, ExpectedReplies(turns))[2 * k + 1] == Message(Assistant, Questions[k])
  {
    ConversationAt(turns, ExpectedReplies(turns), k);
    ExpectedQuestionText(turns, k);
  }

  lemma ExpectedQuestionText(turns: seq<Turn>, k: nat)
    requires k < |turns| && k < |Questions|
    ensures ExpectedReplies(turns)[k].Text() == Questions[k]
  {
    var upTo := turns[..k + 1];
    assert ExpectedReplies(turns)[k] == ExpectedReply(upTo);
    assert |upTo| - 1 == k;
  }

  /**
   * Which question each score answers: the first score belongs to a message
   * sent before any question was asked, and score j (1 <= j <= 9) to the
   * message that follows question j - 1 in the history.
   */
  lemma ScoresFollowQuestions(userId: string, turns: seq<Turn>, j: nat)
    requires 1 <= j <= |Questions| && j < |turns|
    ensures var st := Run(Started(userId), turns).0;
      |st.history| == 2 * |turns| && |st.scores| > j &&
      st.history[2 * j - 1] == Message(Assistant, Questions[j - 1]) &&
      st.history[2 * j] == Message(User, turns[j].message) &&
      st.scores[j] == turns[j].score
  {
    RunFromStart(userId, turns);
    ExpectedScoresFollowQuestions(userId, turns, j);
    assert Interviewed(turns) > j;
  }

  lemma {:induction false} SumOfConstant(n: nat, c: int)
    ensures Sum(seq(n, _ => c)) == n * c
  {
    if n > 0 {
      assert seq(n, _ => c)[..n - 1] == seq(n - 1, _ => c);
      SumOfConstant(n - 1, c);
    }
  }

  /**
   * Because ten answers are summed, ten messages that each score the PHQ-9
   * maximum of 3 report a total of 30, above the questionnaire's maximum of 27.
   */
  lemma TotalCanExceedQuestionnaireMaximum(userId: string, message: string)
    ensures var turns := seq(10, _ => Turn(message, 3, ""));
      |Run(Started(userId), turns).1| == 10 &&
      Run(Started(userId), turns).1[9] == Finished(CompletionText, 30, Severe) &&
      30 > 3 * |Questions|
  {
    var turns := seq(10, _ => Turn(message, 3, ""));
    CompletionReport(userId, turns);
    assert turns[..10] == turns;
    assert ScoresOf(turns) == seq(10, _ => 3);
    SumOfConstant(10, 3);
  }

  /**
   * Even when the scoring model keeps to the 0..3 the prompt asks for, the
   * completion total (the sum of the first ten scores, by `CompletionReport`)
   * can lie anywhere in 0..30, not 0..27.
   */
  lemma CompletionTotalWithinTenItems(turns: seq<Turn>)
    requires |turns| >= |Questions| + 1
    requires forall k :: 0 <= k < |turns| && k < 10 ==> 0 <= turns[k].score <= 3
    ensures 0 <= Sum(ScoresOf(turns[..10])) <= 30
  {
    SumOfItemScores(ScoresOf(turns[..10]));
  }
}
