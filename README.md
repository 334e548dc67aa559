# TalentScout screening session, modelled in Dafny

The TalentScout hiring assistant (`app.py`) is a Streamlit page. Streamlit re-executes the
whole script on every interaction. The only state that survives between executions is
`st.session_state`, and it holds four entries:

- `messages`: the chat transcript, a list of role/content messages;
- `form_submitted`: a flag;
- `tech_questions`: the generated interview questions;
- `candidate_info`: the profile dictionary.

This project models that state and the script segments that change it:

- **Initialisation** (app.py:16-28): the greeting transcript, the cleared flag, no
  questions, an empty profile. In the model this is `InitialState` and the
  `Session` constructor.
- **Form segment** (app.py:49, 61-74): the form is shown only before a submission. A
  submission with an empty name, e-mail or tech stack is rejected and nothing changes.
  Otherwise the flag is set, the seven fields are stored verbatim, and one
  acknowledgement is appended. The execution then ends with a rerun.
- **Question generation** (app.py:35-46, 77-83): while the form is submitted and the
  question list is empty, the script asks the text-generation service for questions.
  The reply goes through `generate_questions`. One assistant message listing the
  numbered questions is appended, and the execution ends with a rerun.
- **Chat turn** (app.py:92-111): a non-empty chat message is appended. Then one answer
  is appended. For `exit`, `quit` or `bye` (compared after `lower()`) the answer is a
  fixed farewell and the service is not called. Otherwise the answer is the service's
  analysis, an apology when the analysis text is empty, or `Error: <message>` when the
  call raised.

Files:

- `text.dfy` (module `Text`): the Python string operations the script uses: `strip()`,
  `split("\n")`, `"\n".join`, `lower()` and `str(int)`. Two pairs of inverses come
  with them: split/join and decimal printing/parsing.
- `questions.dfy` (module `Questions`): `generate_questions` and the numbered listing.
- `session.dfy` (module `Screening`): the session as a `State` value with one function
  per segment, and `Run`, which is one execution of the script. `Run` is proved to keep
  the session well-formed, to only grow the transcript, and to send at most one request.
  Lemmas over any sequence of executions (`RunAll`) show that the transcript is
  append-only, that the profile is written once, and that a non-empty question list, once
  stored, is never replaced.
  The class `Session` holds the same four entries as fields. Its methods do the same
  steps and are proved against the `State` functions.

Each execution is one call of `Run` (or `Session.Execute`). Its `Rerun` argument
carries three things:

- whether the submit button was pressed, and with which field values;
- the chat text, where `""` means nothing was typed;
- what the text-generation service answers to the one call the execution makes, if it
  makes one. The answer is `Responded(text)` or `Failed(message)`.

A run reports the `Request` (prompt and `max_new_tokens`) it would send. An empty list
of requests therefore means "no call was made".

What this `app.py` does, and does not do:

- Required fields are checked for emptiness only, not trimmed. `BlankFieldsPass` shows
  that a single blank passes.
- The exit words are only `exit`, `quit` and `bye`. They must equal the lowered input
  exactly; containing one is not enough. `ExitIsWholeWord` shows this.
- After an exit word the session is not closed. The next message is analysed again.
- This version of the script has no question cursor, no response log and no
  informational queries ("what is my name"). The model has none either.
- A whitespace-only generation reply leaves the question list empty, so the next
  execution generates again (`EmptyQuestionsRefire`).

## Model

| member | source | states |
|---|---|---|
| `Text.IsSpace` | app.py:41 | the characters `str.strip()` removes, those for which Python's `str.isspace()` holds; `Text.Strip` is specified over it |
| `Text.TrimStart` | app.py:41 | the leading-whitespace cut of `strip()`: a suffix of the input, only whitespace removed, not starting with whitespace |
| `Text.TrimEnd` | app.py:41 | the trailing-whitespace cut of `strip()`: a prefix of the input, only whitespace removed, not ending with whitespace |
| `Text.Strip` | app.py:41 | `response.strip()` is a slice of the reply with only whitespace outside it and no whitespace at either end; it is empty exactly when the reply is all whitespace |
| `Text.StripKeepsTrimmed` | app.py:41 | a string with no whitespace at either end is unchanged by `strip()` |
| `Text.Split` | app.py:41 | `split("\n")` gives at least one piece (so `"".split("\n") == [""]`), and no piece holds a newline |
| `Text.Join` | app.py:81 | `"\n".join(...)`; specified by `Text.JoinSplit` and `Text.SplitJoin`, which make it the inverse of `Split` on newline-free parts |
| `Text.JoinSplit` | app.py:41 | joining the pieces of a split with the separator rebuilds the string |
| `Text.SplitJoin` | app.py:81 | splitting a newline join of newline-free parts gives back exactly those parts |
| `Text.Lower` | app.py:97 | `lower()` keeps the length, leaves no ASCII capital, and changes only capitals, each into its small letter |
| `Text.LowerIdempotent` | app.py:97 | lowering twice equals lowering once |
| `Text.Decimal` | app.py:81 | `str(i+1)` is a non-empty string of decimal digits without a leading zero |
| `Text.ParseDecimalOfDecimal` | app.py:81 | reading back the digits of that number gives the number |
| `Questions.DropEmpty` | app.py:42 | `[q for q in questions if q]` has no `""`, and it keeps every other line as often as it occurs (as a multiset: the input minus all `""`) |
| `Questions.DropEmptyAppend` | app.py:42 | filtering distributes over concatenation, so the kept lines keep their order |
| `Questions.DropEmptyKeepsNonEmpty` | app.py:42 | a list without `""` passes through the filter unchanged |
| `Questions.GenerateQuestions` | app.py:35-46 | no returned question is `""`; a raised call gives exactly `["API Error: <message>"]`; an empty reply gives exactly `["Error generating questions."]` |
| `Questions.QuestionsAreTheNonEmptyLines` | app.py:40-42 | for a non-empty reply each question is a newline-free line of the stripped reply, and each non-empty line of it is a question, as often as it occurs |
| `Questions.NoQuestionsIff` | app.py:40-44 | the question list is empty if and only if the reply was non-empty but all whitespace |
| `Questions.QuestionsRejoin` | app.py:41-42 | when the stripped reply has no empty line, joining the questions with newlines rebuilds the stripped reply |
| `Questions.QuestionsOfJoinedLines` | app.py:41-42 | a reply made of non-empty, newline-free lines with no whitespace at its ends yields exactly those lines, in order |
| `Questions.WhitespaceLineIsKept` | app.py:42 | an interior line holding only a blank survives the filter: `"Q1\n \nQ2"` gives `["Q1", " ", "Q2"]` |
| `Questions.WhitespaceReplyYieldsNothing` | app.py:41-42 | an all-whitespace reply gives `[]`, not a placeholder |
| `Questions.FiveQuestions` | app.py:41-42 | `"Q1\nQ2\nQ3\nQ4\nQ5"` gives the five questions in order |
| `Questions.RepliedQuestionsAreSingleLines` | app.py:41-42 | questions taken from the service's text never contain a newline |
| `Questions.Numbered` | app.py:81 | `[f"{i+1}. {q}" ...]` has one entry per question; `Questions.NumberedLine` gives each entry's exact shape |
| `Questions.QuestionsText` | app.py:81 | the newline join of the numbered entries; `Questions.QuestionsTextLines` shows it splits back into them |
| `Questions.NumberedLine` | app.py:81 | entry `i` of `f"{i+1}. {q}"` starts with digits that read back as `i + 1`, then `". "`, then question `i`, and holds no newline if the question holds none |
| `Questions.QuestionsTextLines` | app.py:81 | for newline-free questions, the newline join splits back into exactly one numbered line per question, in order |
| `Screening.AnalysisReply` | app.py:102-106 | the chat answer is never empty; it is the service's text when that is non-empty, exactly `I'm unable to process your response.` when it is empty, and `Error: <message>` when the call raised |
| `Screening.InitialState` | app.py:16-28 | the first session is well-formed and is exactly one greeting message, the flag cleared, no questions and an empty profile |
| `Screening.IsExitCommand` | app.py:97 | an exit command is the whole input, so it has three or four characters; `Screening.ExitIgnoresCase` and `Screening.ExitIsWholeWord` pin it down |
| `Screening.MissingRequired` | app.py:62 | the emptiness test of name, e-mail and tech stack; `Screening.BlankFieldsPass` shows that blanks pass |
| `Screening.CandidateInfo` | app.py:66-70 | the committed dictionary has exactly the seven keys, each holding its field verbatim (experience as its select-box label) |
| `Screening.ExperienceLabel` | app.py:54 | the stored experience is one of the four select-box options `0-1`, `2-3`, `4-6`, `7+` |
| `Screening.ExperienceLabelInjective` | app.py:54 | different choices have different labels |
| `Screening.Acknowledgement` | app.py:72 | the acknowledgement holds the candidate's name verbatim after `Thank you, `; `Screening.CommitStoresProfile` shows when it is appended |
| `Screening.Commits` | app.py:49-62 | the form guard: not yet submitted, button pressed, no required field empty; `Screening.Session.SubmitForm` commits exactly when it holds |
| `Screening.GenerationPending` | app.py:77 | the generation guard: submitted and no questions stored; `Screening.Session.GenerateIfDue` fires exactly when it holds |
| `Screening.FormSegment` | app.py:61-74 | either changes nothing or commits: then the flag is set, the questions are kept and exactly one message is appended; `Screening.CommitStoresProfile` gives its content |
| `Screening.QuestionRequest` | app.py:37-38 | the question prompt for a tech stack with `max_new_tokens=200`; `Screening.GenerationFiresWhenPending` shows when it is sent |
| `Screening.QuestionsMessage` | app.py:81-82 | the listing message; for questions taken from the service's text, `Screening.ListingShowsNumberedQuestions` shows it is the header and one numbered line per question |
| `Screening.GenerationStep` | app.py:78-82 | keeps the flag and the profile and appends exactly one assistant message; `Screening.GenerationFiresWhenPending` gives its content |
| `Screening.AnalysisRequest` | app.py:103 | the analysis prompt for a chat message with `max_new_tokens=150`; `Screening.ChatTurnAppendsTwo` shows when it is sent |
| `Screening.ChatAnswer` | app.py:97-106 | the answer is never empty and is the farewell for an exit command |
| `Screening.ChatStep` | app.py:94-108 | changes only the transcript, appending exactly the user message followed by one assistant message |
| `Screening.ChatRequests` | app.py:97-103 | at most one request, and none exactly for an exit command |
| `Screening.Run` | app.py:49-111 | one execution keeps the session well-formed, never removes or alters a transcript entry, sends at most one request, and changes nothing when it does not ask for a rerun |
| `Screening.RunAll` | app.py:74-111 | any sequence of executions from a well-formed session leaves it well-formed |
| `Screening.IncompleteFormChangesNothing` | app.py:62-63 | a submission with an empty name, e-mail or tech stack leaves the session unchanged |
| `Screening.BlankFieldsPass` | app.py:62 | the required-field check tests emptiness only: single blanks pass, an empty e-mail fails |
| `Screening.CommitStoresProfile` | app.py:65-74 | a valid first submission, whatever the chat box holds, sets the flag, stores all seven fields verbatim, appends exactly one `Thank you, <name>!` message, leaves the questions alone, sends no request and forces a rerun |
| `Screening.GenerationOnlyWhenPending` | app.py:77-83 | when generation is not pending, no question prompt is sent: the only possible request is the analysis of a non-exit chat message, and only when no submission commits |
| `Screening.GenerationFiresWhenPending` | app.py:77-83 | when submitted with no questions, the execution sends the question prompt for the stored tech stack, stores `generate_questions`' result and appends exactly one listing message |
| `Screening.EmptyQuestionsRefire` | app.py:77-83 | after an all-whitespace reply the list stays empty, one listing is appended, and the next execution sends the question prompt again |
| `Screening.QuestionsStopGeneration` | app.py:77 | once questions exist, an execution sends only the analysis request of a typed non-exit message, and keeps the questions |
| `Screening.ListingShowsNumberedQuestions` | app.py:81-82 | for a non-empty list of questions taken from the service's text, the listing message is the fixed header followed by text that splits into the numbered questions, one per line |
| `Screening.ChatTurnAppendsTwo` | app.py:93-108 | a chat turn appends exactly the user message and one assistant message, keeps every earlier entry: the farewell with no call for an exit word, otherwise the analysis answer after one analysis request |
| `Screening.ExitIgnoresCase` | app.py:97 | an input is an exit command exactly when its lowered form is one |
| `Screening.ExitIsWholeWord` | app.py:97 | `EXIT`, `Quit` and `bYe` are exit commands; ` bye`, `goodbye` and `stop` are not |
| `Screening.QuietRunChangesNothing` | app.py:77-93 | a rerun with nothing pressed or typed, on a session whose questions are settled, appends nothing, sends nothing and asks for no further rerun |
| `Screening.TranscriptOnlyGrows` | app.py:71-108 | over any sequence of executions the earlier transcript is a prefix of the later one |
| `Screening.ProfileWrittenOnce` | app.py:49-70 | once submitted, the flag stays set and the profile never changes, whatever follows |
| `Screening.QuestionsSetOnce` | app.py:77-79 | once the question list is non-empty it never changes, and every later request is the analysis request of some chat message |
| `Screening.AdaScenario` | app.py:61-83 | submitting for Ada and then receiving five lines yields those five questions after the automatic rerun, with one question request and three transcript entries |
| `Screening.Session.constructor` | app.py:16-28 | the session fields start as the greeting transcript, a cleared flag, no questions and an empty profile |
| `Screening.Session.SubmitForm` | app.py:61-74 | commits exactly when not yet submitted, pressed and complete; then sets the flag, stores the profile and appends the acknowledgement, otherwise changes nothing |
| `Screening.Session.GenerateIfDue` | app.py:77-83 | fires exactly when submitted with no questions; then sends the question prompt, assigns the questions and appends the listing, otherwise changes nothing |
| `Screening.Session.ChatTurn` | app.py:92-111 | for a non-empty message appends the user message and the answer, and sends the analysis request only for a non-exit message |
| `Screening.Session.Execute` | app.py:49-111 | the new fields, requests and rerun flag are exactly those of `Run` on the old fields |

## Left out

- API-key lookup, `st.warning`/`st.stop()` on a missing key, and the `InferenceClient` construction (app.py:5-10): configuration and a foreign call.
- `client.text_generation` (app.py:38, 103): the service is replaced by the `Reply` carried in each `Rerun`. The model does not relate prompt to reply. It records the prompt and `max_new_tokens` that would be sent.
- Rendering: `st.title`, the transcript and question display loops, `st.subheader`, `st.write`, `st.chat_message(...).write`, and the "please fill in all required fields" warning (app.py:13, 31-32, 63, 85-89, 95, 109). None of it changes state.
- The widgets `st.form`, `text_input`, `selectbox`, `text_area` and `chat_input` (app.py:50-59, 92). Their values are the fields of `Rerun`. A missing chat value (`None`) is modelled as `""`, and both are falsy for `if user_input`.
- `st.rerun()` (app.py:74, 83, 111): its effect is stated as the run ending early with `rerun == true`. The framework's scheduling of the next execution is not modelled. A chat message typed in an execution that ended early is not processed, just as in the script.
- Exception messages are opaque strings. `f"{e}"` is the message itself.
- `Text.Lower`: does not model `str.lower()` on characters outside ASCII, which it leaves unchanged. This does not affect the exit test. The only non-ASCII character whose lowercase is a single ASCII letter is the Kelvin sign. It lowers to `k`, which appears in none of the three exit words.
- Python strings may hold lone surrogates (U+D800 to U+DFFF); a Dafny `char` cannot, so the model covers only strings without them.
- The numbered listing is shown to split into one line per question only for questions taken from the service's text. When the call raised and the exception message holds a newline, the single `API Error: ...` entry spans several lines of the listing, as it does in `app.py`.
- `Text.IsSpace` lists the characters for which Python's `str.isspace()` holds, as of current Unicode data. A future Unicode version could change that set.
