# PHQ-9 chatbot session, modelled in Dafny

This project models the core of a web chatbot that screens for depression
with the nine-item PHQ-9 questionnaire. The model covers:

- the session a user opens with `start_chat`;
- the transition `process_chat_message`, which scores each message during the
  interview, replies with the next question and, once the interview is over,
  reports the total and a severity band before switching to free chat;
- the clearing of the session by `end_chat`;
- the pure helpers these depend on: the question list, the bounds-checked
  question lookup, the "parse an integer, else 0" reading of the scoring
  model's reply, and the rendering of the chat history into the prompt of the
  final assessment.

Files:

- `wrappers.dfy`: `Option`, standing for Python's `None`.
- `python_text.dfy` (module `PythonText`): the Python built-ins the service
  uses, as Python defines them (except two limits of `int()`, see
  "Left out"). These are `str.strip()` (Python's
  `str.isspace` character set), `int(str)` in base 10, `sep.join(parts)` and
  `sum(xs)`. It also defines `str(int)` (`Render`). The service never calls
  `str(int)`: `Render` is there only as the inverse of `int(str)`, for the
  round-trip lemma `ParseRendered`.
- `chatbot_service.dfy` (module `ChatbotService`): the questions,
  `ask_phq9_question`, the score parse, and the history prompt.
- `app.dfy` (module `App`): `assess_depression` and the session.
  - The pure functions `Start`, `Step` and `End` give each request's effect on
    the session's value.
  - The class `Session` holds one field per session key, plus a `present`
    flag for "the session has keys".
  - Its methods update the fields in place and are proved against
    `Start`, `Step` and `End`.
  - The invariant `WellFormed` is kept by every request whose remote calls
    answer: one score per
    interview message, completion exactly at ten scores, and a history of
    user/assistant pairs.
- `transcript.dfy` (module `Transcript`): whole conversations. `RunFromStart`
  gives the exact state, every reply and every history entry after any
  sequence of messages sent to a freshly started session.

The language-model calls are inputs to the model. `ProcessMessage` receives
the score that `get_score_from_intent` returns for the message and the chat
model's reply. `EndChat` receives the overall assessment. `ScoreFromReply`
models what `get_score_from_intent` does with the scoring model's raw answer.
`ScoreOfIntegerReply` shows that every integer the scorer can write is a
possible score, so taking the score as an `int` input loses nothing.

The code is modelled as written, including how the interview is counted:

- The reply to the message that arrives at index `i` is question `i`. The
  first message therefore gets question 0 in reply, yet its own score is
  stored as well.
- The interview completes on the tenth message, so ten scores are summed
  (`CompletionReport`). A total of 30 is possible (`TotalCanExceedQuestionnaireMaximum`).
- Scores are not clamped to the 0..3 range that the scoring prompt asks for
  at chatbot_service.py:111 (`HighScoreIsNotClamped`,
  `NegativeScoreIsNotClamped`).
- The `assessment` field of the completion reply is the band's message
  (`Band.Text()`). The four messages differ (`BandTextsAreDistinct`), so the
  model keeps the band itself in the reply.

## Model

| member | source | states |
|---|---|---|
| `PythonText.StripLeading` | chatbot_service.py:116 | the result is a suffix of the input, everything dropped is whitespace, and it does not start with whitespace |
| `PythonText.StripTrailing` | chatbot_service.py:116 | the result is a prefix of the input, everything dropped is whitespace, and it does not end with whitespace |
| `PythonText.Strip` | chatbot_service.py:116 | the stripped reply has no whitespace at either end and is no longer than the reply |
| `PythonText.StripSurrounded` | chatbot_service.py:116 | stripping removes exactly the surrounding whitespace: `strip(p + t + q) == t` for whitespace `p`, `q` and any `t` without whitespace at its ends |
| `PythonText.ParseInt` | chatbot_service.py:118 | `int(s)` succeeds exactly on the integer literals; a string it accepts has no whitespace at either end; a negative result comes only from a leading `-` |
| `PythonText.ParseRendered` | chatbot_service.py:118 | `int(str(n)) == n` for every integer `n`, and `str(n)` has no surrounding whitespace |
| `PythonText.RenderNatValue` | chatbot_service.py:118 | the decimal digits written for `n` are digits only and have the value `n` |
| `PythonText.Join` | chatbot_service.py:134 | `sep.join(parts)`: "" for no parts and the part itself for one; with `JoinAppend`, the parts in order with one separator between each two |
| `PythonText.JoinAppend` | chatbot_service.py:134 | `sep.join` keeps order: joining `a + b` gives the join of `a`, one separator, then the join of `b` |
| `PythonText.Sum` | app.py:56 | `sum` of no scores is 0, and of one score is that score |
| `PythonText.SumAppend` | app.py:56 | the sum of two score lists in sequence is the sum of their sums, so appending a score adds it to the total |
| `PythonText.SumOfItemScores` | chatbot_service.py:111 | if every score is in the 0..3 range the scoring prompt asks for, the total lies between 0 and three times the number of scores |
| `ChatbotService.QuestionsAreNineDistinct` | chatbot_service.py:83-93 | the question list has exactly nine entries, pairwise distinct |
| `ChatbotService.AskQuestion` | chatbot_service.py:124-128 | a question exists exactly for indices below 9, and it is the list entry at that index; every index from 9 on gives `None` |
| `ChatbotService.ScoreFromReply` | chatbot_service.py:116-122 | a stripped reply that is an integer literal scores the integer it denotes; any other reply scores 0 |
| `ChatbotService.ScoreOfIntegerReply` | chatbot_service.py:116-118 | any integer, written out and surrounded by any whitespace, scores exactly that integer, with no clamping |
| `ChatbotService.HighScoreIsNotClamped` | chatbot_service.py:111-118 | the reply "7" scores 7, above the 0..3 the prompt asks for |
| `ChatbotService.NegativeScoreIsNotClamped` | chatbot_service.py:116-118 | the reply "-2" scores -2 |
| `ChatbotService.WordReplyScoresZero` | chatbot_service.py:119-120 | a reply that is a word ("three") scores 0 |
| `ChatbotService.FractionReplyScoresZero` | chatbot_service.py:119-120 | a decimal fraction ("2.5") is not an integer literal and scores 0 |
| `ChatbotService.AssessmentPrompt` | chatbot_service.py:134 | the prompt writes each history entry as `role: content`, one per line, in history order: empty for an empty history, one line for one entry, and each further entry adds a newline and its line at the end |
| `ChatbotService.PromptAppend` | chatbot_service.py:134 | the prompt of two histories in sequence is their prompts joined by one newline, so history order is kept |
| `ChatbotService.PromptAfterExchange` | chatbot_service.py:134 | after a non-empty history, one exchange adds the entry line `user: ...` and then the entry line `assistant: ...`, each after a newline, to the end of the prompt |
| `App.AssessDepression` | app.py:135-143 | the band is "none" exactly below 5, "mild" exactly for 5-9, "moderate" exactly for 10-14, and "severe" exactly from 15 on |
| `App.BandTextsAreDistinct` | app.py:135-143 | the four assessment messages differ, so the message reported determines the band |
| `App.AssessmentFollowsPublishedCutPoints` | app.py:135-143 | the bands are the published PHQ-9 levels (cut at 5, 10, 15, 20) with "moderately severe" and "severe" merged |
| `App.AssessmentIsMonotone` | app.py:135-143 | a larger total never yields a milder band |
| `App.Start` | app.py:26-34 | without a user id the result is 400 and the session is unchanged; otherwise it is 200 and a well-formed session for that user, at index 0, with no scores, not completed and an empty history |
| `App.Step` | app.py:39-70 | 403 with no change when the session has no keys; otherwise 200 and two history entries: the user's message, then the assistant's reply. During the interview it adds one score and raises the index by one. It replies with question `i` for old index `i` below 9, and completes at old index 9 with the sum of all scores and its band. After completion only the history changes, and the reply is the chat model's |
| `App.End` | app.py:109-122 | the session is cleared; the report carries the history, the overall assessment and the user id, which is `None` exactly when the session had no keys |
| `App.StartKeepsWellFormed` | app.py:29-34 | starting a session keeps the session invariant |
| `App.StepKeepsWellFormed` | app.py:42-69 | every chat message keeps the invariant: scores match the index, completion exactly at ten, history in user/assistant pairs |
| `App.EndKeepsWellFormed` | app.py:122 | a cleared session satisfies the invariant |
| `App.CompletionIsFinal` | app.py:44-70 | once completed, a message leaves `completed`, the index and the scores as they were |
| `App.EndedSessionRefusesMessages` | app.py:39-40 | after `end_chat` every message gets 403 and changes nothing |
| `App.Session.Clear` | app.py:122 | the session has no keys afterwards |
| `App.Session.StartChat` | app.py:24-35 | updates the fields in place exactly as `Start` says and keeps the invariant |
| `App.Session.ProcessMessage` | app.py:37-70 | appends to the score list and the history in place exactly as `Step` says and keeps the invariant |
| `App.Session.EndChat` | app.py:108-123 | returns the assessment prompt of the history and the report, then clears the session, as `End` says |
| `Transcript.InterviewStep` | app.py:48-56 | from the expected state after k < 9 messages, the next message yields the expected state and the reply "question k" |
| `Transcript.CompletingStep` | app.py:57-66 | from the expected state after 9 messages, the tenth completes the interview as expected |
| `Transcript.ChattingStep` | app.py:67-70 | after completion, a message changes only the history and is answered by the chat model |
| `Transcript.RunFromStart` | app.py:37-70 | after any sequence of messages from a fresh start, the state (index, scores, completed flag, history) and every reply are exactly the expected ones |
| `Transcript.InterviewReplies` | app.py:48-56 | message k < 9 is answered with question k, its own score, and the sum of the scores of messages 0..k |
| `Transcript.CompletionReport` | app.py:57-66 | the tenth message completes the interview: ten scores are stored, and the reply reports their sum and its band |
| `Transcript.FreeChatReplies` | app.py:67-70 | every message after the tenth is answered by the chat model, and the scores stay those of the first ten messages |
| `Transcript.HistoryIsTheConversation` | app.py:42-69 | history entry 2k is message k as sent, and entry 2k+1 is the reply to it |
| `Transcript.ScoresFollowQuestions` | app.py:53-55 | score j (1 to 9) belongs to the message that follows question j-1 in the history |
| `Transcript.CompletionTotalWithinTenItems` | app.py:57-58 | even when every score keeps to the prompt's 0..3, the completion total sums ten scores and so lies in 0..30 rather than the questionnaire's 0..27 |
| `Transcript.TotalCanExceedQuestionnaireMaximum` | app.py:57-63 | ten messages each scoring 3 report a total of 30 and the severe band, above the questionnaire's maximum of 27 |

## Left out

- The language-model calls (`get_chat_response`, the model call in `get_score_from_intent`, `evaluate_overall_depression`'s model call, `summarize_depression_analysis`) are remote services. Their answers are inputs: the score, the chat reply and the overall assessment.
- Speech recognition, the mel-spectrogram front end, the T5 correction and text-to-speech are floating-point numerics and opaque models. They are not modelled.
- Flask routing, JSON encoding, the persistence of the session in files, the 10-minute session lifetime, the check for a missing `message` field, and the `/voice` and `/analyze` endpoints are HTTP plumbing. They are not modelled.
- The `requests.post` to the downstream server and the session id are not modelled. `EndChat` returns the report it would send.
- `get_chat_response` returns a response object, not a string. The model treats the chat reply as an opaque string.
- The commented-out copy of the service at the top of `chatbot_service.py` is not modelled.
- `ChatbotService.AskQuestion` takes a `nat`: Python's negative-index wrap-around is not modelled, because the session never passes a negative index.
- `PythonText.ParseInt` reads ASCII digits only. Python's `int()` also accepts other Unicode decimal digits (`int("٣") == 3`), which the model rejects. `ChatbotService.ScoreFromReply` therefore scores such a reply 0.
- `PythonText.ParseInt` does not model the limit on the length of integer strings (`sys.int_max_str_digits`, 4300 digits by default in CPython 3.11 and later). Over that limit `int()` raises `ValueError`, which `ChatbotService.ScoreFromReply` turns into score 0. The reply cannot be that long, because the scoring call asks for at most 10 tokens (chatbot_service.py:113).
- Failures of the remote calls are not modelled. The service does not catch them, and the request ends in a server error with the session as it was at that point:
  - During the interview, app.py:42 has already added the user's entry when the scoring call at app.py:48 fails. The history then holds a user entry with no reply, and the index and scores are unchanged. This breaks the user/assistant pairing of `WellFormed`.
  - When `evaluate_overall_depression` (app.py:110) or the downstream `requests.post` (app.py:120) fails, the session is not cleared at app.py:122, contrary to `App.End`.
- As written, the free-chat branch fails. `app.py:68` passes the message string to `get_chat_response`, which reads `chat_request.message` (chatbot_service.py:99). A `str` has no such attribute, so an `AttributeError` is raised before any remote call. Every message after completion therefore ends in a server error, after app.py:42 has already added the user's entry to the history. The `Chatted` branch of `App.Step`, `Transcript.ChattingStep` and `Transcript.FreeChatReplies` describe the evidently intended reply: the chat model's answer is returned and recorded.
- `App.Start` takes the user id as an optional string. JSON values of other types under `user_id` are not modelled.
