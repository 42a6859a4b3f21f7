/**
 * The pure pieces of the chatbot service that the session state machine uses:
 * the fixed PHQ-9 question list, the bounds-checked question lookup, the
 * conversion of the scoring model's reply into an integer score, and the
 * rendering of a chat history into the prompt of the final assessment.
 * The language-model calls themselves are not modelled: their replies are
 * inputs (see `ScoreFromReply`).
 */
module ChatbotService {
  import opened Wrappers
  import opened PythonText

  /** The nine PHQ-9 questions, in the order they are asked. */
  const Questions: seq<string> := [
    "최근에 기분이 가라앉거나 우울한 적이 있나요?",
    "최근에 평소에 즐기던 일들에 흥미를 잃으셨나요?",
    "최근에 잠들기 어렵거나 자주 깨셨나요?",
    "최근에 평소보다 피곤하거나 기운이 없으셨나요?",
    "최근에 식욕이 줄거나 폭식하는 경향이 있었나요?",
    "최근에 자신에 대해 나쁘게 느끼셨나요?",
    "최근에 집중하기 어려운 적이 있나요?",
    "최근에 움직이거나 말하는 것이 느리다고 느끼셨나요?",
    "최근에 죽고 싶다는 생각을 하신 적이 있나요?"
  ]

  /** The questionnaire has nine items, no two of them alike. */
  lemma QuestionsAreNineDistinct()
    ensures |Questions| == 9
    ensures forall i, j :: 0 <= i < j < |Questions| ==> Questions[i] != Questions[j]
  {
  }

  /**
   * `ask_phq9_question`: the question at `index`, or `None` past the end of
   * the list. Callers never pass a negative index.
   */
  function AskQuestion(index: nat): (q: Option<string>)
    ensures q.Some? <==> index < 9
    ensures index < 9 ==> q.value == Questions[index]
  {
    if index < |Questions| then Some(Questions[index]) else None
  }

  /**
   * The last step of `get_score_from_intent`: `reply` is the scoring model's
   * raw answer; it is stripped and read with `int()`, and anything `int()`
   * rejects scores 0. The value is not clamped to the 0..3 the prompt asks for.
   */
  function ScoreFromReply(reply: string): (score: int)
    ensures IsIntLiteral(Strip(reply)) ==> score == LiteralValue(Strip(reply))
    ensures !IsIntLiteral(Strip(reply)) ==> score == 0
  {
    match ParseInt(Strip(reply))
    case Some(n) => n
    case None => 0
  }

  /**
   * An integer reply, written as Python writes integers and surrounded by any
   * whitespace, scores exactly that integer, whatever its range.
   */
  lemma ScoreOfIntegerReply(p: string, n: int, q: string)
    requires AllSpace(p) && AllSpace(q)
    ensures ScoreFromReply(p + Render(n) + q) == n
  {
    ParseRendered(n);
    StripSurrounded(p, Render(n), q);
  }

  /** Scores above 3 pass through: a reply of "7" scores 7. */
  lemma HighScoreIsNotClamped()
    ensures ScoreFromReply("7") == 7
  {
    assert Render(7) == "7";
    ScoreOfIntegerReply("", 7, "");
    assert "" + "7" + "" == "7";
  }

  /** Negative scores pass through: a reply of "-2" scores -2. */
  lemma NegativeScoreIsNotClamped()
    ensures ScoreFromReply("-2") == -2
  {
    assert Render(-2) == "-2";
    ScoreOfIntegerReply("", -2, "");
    assert "" + "-2" + "" == "-2";
  }

  /** A reply that is a word rather than a number scores 0. */
  lemma WordReplyScoresZero()
    ensures ScoreFromReply("three") == 0
  {
    var w := "three";
    assert Trimmed(w) by { assert w[0] == 't' && w[|w| - 1] == 'e'; }
    StripSurrounded("", w, "");
    assert "" + w + "" == w;
    assert !IsDigitRun(w) by { assert w[0] == 't'; }
  }

  /** A decimal fraction is not an integer literal either, so it scores 0 and not 2. */
  lemma FractionReplyScoresZero()
    ensures ScoreFromReply("2.5") == 0
  {
    var f := "2.5";
    assert !IsSpace(f[0]) && !IsSpace(f[|f| - 1]);
    assert StripLeading(f) == f;
    assert StripTrailing(f) == f;
    assert !IsDigitRun(f) by { assert !IsDigit(f[1]) && f[1] != '_'; }
  }

  /** One entry of `chat_history`. */
  datatype Message = Message(role: string, content: string)

  const User: string := "user"
  const Assistant: string := "assistant"

  /** How one history entry is written into the assessment prompt. */
  function EntryLine(m: Message): string
  {
    m.role + ": " + m.content
  }

  /**
   * The user message that `evaluate_overall_depression` sends: each history
   * entry on its own line, in history order.
   */
  function AssessmentPrompt(history: seq<Message>): (prompt: string)
    ensures history == [] ==> prompt == ""
    ensures |history| == 1 ==> prompt == EntryLine(history[0])
    ensures |history| > 1 ==>
      prompt == AssessmentPrompt(history[..|history| - 1]) + "\n" + EntryLine(history[|history| - 1])
  {
    var lines := EntryLines(history);
    assert |history| > 1 ==> lines[..|lines| - 1] == EntryLines(history[..|history| - 1]);
    Join(lines, "\n")
  }

  /** One `role: content` line per history entry. */
  function EntryLines(history: seq<Message>): seq<string>
  {
    seq(|history|, i requires 0 <= i < |history| => EntryLine(history[i]))
  }

  /**
   * The prompt keeps history order: the prompt of two histories one after the
   * other is their two prompts separated by one newline.
   */
  lemma PromptAppend(h1: seq<Message>, h2: seq<Message>)
    requires h1 != [] && h2 != []
    ensures AssessmentPrompt(h1 + h2) == AssessmentPrompt(h1) + "\n" + AssessmentPrompt(h2)
  {
    var lines1 := EntryLines(h1);
    var lines2 := EntryLines(h2);
    var h := h1 + h2;
    assert EntryLines(h) == lines1 + lines2;
    JoinAppend(lines1, lines2, "\n");
  }

  /** One exchange adds the user's line and then the assistant's line to the end of the prompt. */
  lemma PromptAfterExchange(history: seq<Message>, said: string, answered: string)
    requires history != []
    ensures AssessmentPrompt(history + [Message(User, said), Message(Assistant, answered)])
         == AssessmentPrompt(history) + "\n" + EntryLine(Message(User, said)) + "\n" + EntryLine(Message(Assistant, answered))
  {
    var asked := history + [Message(User, said)];
    var answeredToo := asked + [Message(Assistant, answered)];
    assert answeredToo == history + [Message(User, said), Message(Assistant, answered)];
    assert answeredToo[..|answeredToo| - 1] == asked;
    assert asked[..|asked| - 1] == history;
  }
}
