# Quester questionnaire conversation, modelled in Dafny

Quester is a Redis-migration assessment tool. It is a chat in which the
user first names a Memcached endpoint (or types "skip") and then answers
a two-level questionnaire, one subsection per turn. When the last question
is answered, the tool shows a report and five charts. This project models
the `ChatUI` session object that drives that conversation:

- its fields: the cursor `(current_section, current_subsection)`, the
  `responses` dictionary, `memcached_url`, `is_url_validated` and
  `profiling_results`;
- the chat transcript, a list that every turn appends to in place;
- `reset`, `handle_url_input`, `get_current_question` and `handle_response`.

The project has two layers:

- Module `Conversation` describes a turn on plain values. `Turn` maps a
  session state and a transcript to the new state and transcript.
- Module `ChatUi` holds the imperative class `ChatUI`. Its fields are
  updated in place. Each turn-handling method (`Reset`, `HandleUrlInput`,
  `HandleResponse` and the methods it calls) is proved to leave exactly
  the state and transcript that `Conversation` prescribes. The remaining
  methods (`StartProfiling`, `ProfilingCompleted`, `GenerateCharts`) only
  record profiling and chart events, or the record the environment delivers.

The properties are proved about the `Conversation` functions:

- the cursor invariant;
- that a rejected reply changes nothing but the transcript;
- the one-step lexicographic advance;
- that completion absorbs every later answer turn;
- that, without a reset, the report is produced at most once.

Supporting modules:

- `Questionnaire`: the tree, the cursor and its walk.
- `Selection`: the multi-select comprehension.
- `Text`: the Python string operations used (`strip`, `split`, `join`,
  the case-insensitive "skip" test, `str` of an integer).

External results are parameters:

- The connection probe's verdict is the `probeSucceeds` argument of a turn.
- The background profiling task's record is delivered by the environment
  through `ChatUI.ProfilingCompleted`.
- The questionnaire tree, loaded from JSON at start-up, is a constant
  given to the constructor. It must be `WellFormed`: every section has
  at least one subsection, because `get_current_question` indexes the
  subsection list without a bounds check.

Behaviours of the code that the model keeps:

- A "skip" reply only sets `is_url_validated`; the cursor and
  `memcached_url` keep their values.
- A failed probe resets every field, but the transcript keeps the welcome
  entry and the failure reply. With two entries, the next turn is not an
  endpoint turn. It is read as an answer to the first question while the
  session is still unvalidated (`FailedProbeThenAnswer`).
- No code path relies on a subsection having options, so `WellFormed`
  asks nothing of the option lists.

The response key `<section>_<subsection>` can collide. For example,
sections "a_b" and "a" with subsections "c" and "b_c" both give "a_b_c".
`KeyInjective` proves that distinct (section name, subsection name)
pairs get distinct keys when no section name contains an underscore.

## Model

| member | source | states |
|---|---|---|
| `Text.TrimStart` | app/ui/chat_ui.py:240 | the result is the suffix of the input left after a prefix made only of whitespace, and it does not start with whitespace |
| `Text.TrimEnd` | app/ui/chat_ui.py:240 | the result is the prefix of the input left before a suffix made only of whitespace, and it does not end with whitespace |
| `Text.Strip` | app/ui/chat_ui.py:240 | `strip()` never leaves whitespace at either end and never lengthens its input |
| `Text.StripPadding` | app/ui/chat_ui.py:240 | stripping a whitespace-free core padded on both sides by any whitespace gives back exactly that core |
| `Text.StripIdempotent` | app/ui/chat_ui.py:240 | stripping twice is the same as stripping once |
| `Text.Split` | app/ui/chat_ui.py:240 | `split(',')` returns at least one piece, no piece contains a comma, and joining the pieces with commas rebuilds the input |
| `Text.SplitJoin` | app/ui/chat_ui.py:240 | splitting the comma-join of comma-free pieces returns those pieces (the round trip in the other direction) |
| `Text.SkipSpellings` | app/ui/chat_ui.py:50 | `url.lower() == "skip"` holds exactly for four-character inputs spelling s/S, k/K/Kelvin sign, i/I, p/P |
| `Text.NatToString` | app/ui/chat_ui.py:65 | `str(n)` is a non-empty string of decimal digits without a leading zero |
| `Text.NatToStringValue` | app/ui/chat_ui.py:65 | the decimal text of `n` reads back as `n` |
| `Text.IntToString` | app/ui/chat_ui.py:282 | `str(i)` starts with a minus sign exactly when `i` is negative; after any sign come one or more decimal digits without a leading zero (unless the number is 0), which read back as the absolute value of `i` |
| `Questionnaire.Advance` | app/ui/chat_ui.py:263-267 | one lexicographic step: next subsection of the same section or the first of the next section; the position rises by exactly one; in a well-formed tree the cursor stays on a subsection or lands exactly one past the end |
| `Questionnaire.PositionRange` | app/ui/chat_ui.py:73 | every in-range cursor lies at a position between 0 and the question count, and only the past-the-end cursor reaches the count |
| `Questionnaire.PositionInjective` | app/ui/chat_ui.py:263-267 | two in-range cursors at the same position are equal, so the walk never visits a question twice |
| `Questionnaire.Walk` | app/ui/chat_ui.py:263-267 | the questions visited from a cursor number exactly the questions left, and the i-th one is an existing subsection at position start + i |
| `Questionnaire.WalkAsksEverything` | app/ui/chat_ui.py:263-267 | starting at (0,0), the walk asks every subsection of the tree, each exactly once |
| `Selection.TrimmedPieces` | app/ui/chat_ui.py:240 | the comprehension yields one stripped piece per comma-separated piece |
| `Selection.KeepOffered` | app/ui/chat_ui.py:242 | the filter keeps only pieces that are options, each taken from the input, and never returns more than it was given |
| `Selection.KeepOfferedCounts` | app/ui/chat_ui.py:242 | every option occurs in the result exactly as often as among the pieces, and nothing that is not an option occurs at all |
| `Selection.KeepOfferedAppend` | app/ui/chat_ui.py:242 | the filter distributes over concatenation, so the kept pieces keep their input order |
| `Selection.SelectedOptions` | app/ui/chat_ui.py:238-243 | the recorded multi-select list holds only options, each stripped, each as often as its stripped piece occurs, and no more entries than comma-separated pieces |
| `Selection.SelectedFromPieces` | app/ui/chat_ui.py:240-242 | a reply made of whitespace-padded pieces joined by commas records exactly the pieces that are options, in reply order, with repeats |
| `Conversation.CurrentQuestion` | app/ui/chat_ui.py:72-77 | (None, None) exactly when the section index is past the end; otherwise the addressed section and subsection |
| `Conversation.KeyInjective` | app/ui/chat_ui.py:234 | when no section name contains an underscore, equal response keys come from equal section and subsection names |
| `Conversation.Report` | app/ui/chat_ui.py:278-291 | the report starts with its title and ends with the fixed summary, and has a "Memcached Profile" section exactly when the profiling record is present and non-empty |
| `Conversation.UrlStep` | app/ui/chat_ui.py:49-65 | validated iff "skip" in any case or the probe succeeded; profiling starts iff the probe succeeded and the reply was not "skip"; skip leaves the URL unchanged, success stores it; cursor and answers are kept; a failed probe yields exactly the initial state and the retry-count failure message |
| `Conversation.UrlReplies` | app/ui/chat_ui.py:50-65 | the reply names the outcome: the skip notice after "skip" in any case, the connection notice after a successful probe, the retry-count failure message after a failed one |
| `Conversation.EndpointTurn` | app/ui/chat_ui.py:219-229 | the transcript gains the (input, reply) pair and at most one more entry, the current prompt, which is added exactly when the session got validated and a question remains; the transcript only grows and is never again welcome-only; no charts; the cursor invariant is kept |
| `Conversation.FollowUp` | app/ui/chat_ui.py:271-301 | what follows an acknowledgement is made of bot entries only: while a question remains, exactly its prompt; past the end, the report followed by the five charts |
| `Conversation.AcceptedTurn` | app/ui/chat_ui.py:234-301 | an accepted reply updates only its own key, moves the cursor one lexicographic step (position plus one), appends the acknowledgement and then the follow-up of the new state; charts exactly when the new cursor is past the end; URL, flag and profiling record are kept |
| `Conversation.AnswerTurn` | app/ui/chat_ui.py:231-304 | past the end nothing changes; a rejected single-select reply adds only the invalid-selection entry; an accepted reply (any multi-select reply, even with nothing kept) updates only its own key, advances the position by one and adds the acknowledgement, followed by the next question's prompt alone or, exactly when that was the last question, by the report and the five charts; whatever is added opens with the user's reply, so a non-welcome transcript never becomes welcome-only; URL, flag and profiling record never change |
| `Conversation.Turn` | app/ui/chat_ui.py:214-304 | a turn only appends to the transcript, keeps the cursor invariant, never leaves a transcript that would be taken for an endpoint turn again, and generates charts only on moving from an open question to the end |
| `Conversation.Run` | app/ui/chat_ui.py:214-304 | a series of turns keeps the cursor invariant and only appends to the transcript |
| `Conversation.AnswerRunReports` | app/ui/chat_ui.py:272-301 | over any series of questionnaire turns the report is produced at most once, and never when the questionnaire was already complete |
| `Conversation.ReportAtMostOnce` | app/ui/chat_ui.py:219-304 | whatever is typed and whatever the probe answers, a series of turns without reset produces the report at most once |
| `Conversation.FailedProbeThenAnswer` | app/ui/chat_ui.py:62-65 | a failed probe on the welcome transcript gives the initial state and a two-entry transcript, after which the next turn is handled as an answer and the session stays unvalidated |
| `ChatUi.ChatHistory.Append` | app/ui/chat_ui.py:222 | appending adds the entry at the end and keeps everything before it |
| `ChatUi.ChatUI.constructor` | app/ui/chat_ui.py:26-38 | a new session is in the initial state: cursor (0,0), no answers, no URL, no profiling record, not validated |
| `ChatUi.ChatUI.Reset` | app/ui/chat_ui.py:40-47 | every field returns to its initial value, and the returned transcript is a fresh list holding only the welcome entry |
| `ChatUi.ChatUI.StartProfiling` | app/ui/chat_ui.py:67-70 | a launched profiling task is pending exactly when the stored URL is non-empty |
| `ChatUi.ChatUI.ProfilingCompleted` | app/ui/chat_ui.py:69 | a pending task stores its record in `profiling_results` and changes nothing else |
| `ChatUi.ChatUI.HandleUrlInput` | app/ui/chat_ui.py:49-65 | the new fields and the reply are exactly those of `UrlStep`; one profiling task is launched after a successful probe of a non-empty URL |
| `ChatUi.ChatUI.GetCurrentQuestion` | app/ui/chat_ui.py:72-77 | nothing exactly when the section index is past the end, else the section and the subsection under the cursor |
| `ChatUi.ChatUI.GenerateCharts` | app/ui/chat_ui.py:105-212 | one more chart generation, returning the five figures in display order |
| `ChatUi.ChatUI.ComposeReport` | app/ui/chat_ui.py:278-291 | the text built line by line from the profiling record is exactly `Report` of that record |
| `ChatUi.ChatUI.ShowResults` | app/ui/chat_ui.py:285-301 | the transcript gains the report and then the five labelled charts, and the charts are generated once |
| `ChatUi.ChatUI.RecordAnswer` | app/ui/chat_ui.py:234-267 | an accepted reply is stored under its key and the cursor advances one lexicographic step; nothing else changes |
| `ChatUi.ChatUI.NextQuestion` | app/ui/chat_ui.py:263-267 | the cursor moves exactly as `Advance` says and no other field changes |
| `ChatUi.ChatUI.PromptOrFinish` | app/ui/chat_ui.py:271-301 | the transcript gains exactly `FollowUp` of the current state: the next prompt if a question remains, otherwise the report and charts; the charts are generated once exactly in the second case |
| `ChatUi.ChatUI.HandleAccepted` | app/ui/chat_ui.py:234-301 | fields and transcript end as `AcceptedTurn` says; charts are generated exactly when it reports them |
| `ChatUi.ChatUI.HandleEndpoint` | app/ui/chat_ui.py:219-229 | fields and transcript end as `EndpointTurn` says; charts are never generated |
| `ChatUi.ChatUI.HandleAnswer` | app/ui/chat_ui.py:231-304 | fields and transcript end as `AnswerTurn` says; charts are generated exactly when it reports them |
| `ChatUi.ChatUI.HandleResponse` | app/ui/chat_ui.py:214-304 | fields and transcript end exactly as `Turn` says; charts are generated once per completing turn; one profiling task per successful probe of a non-empty URL |

## Left out

- `generate_charts` (app/ui/chat_ui.py:105-212) reads two statistics files and draws and saves the charts. The model keeps only the event: a ghost counter and the five figure tags. The model assumes generation succeeds; a missing statistics file, which aborts the turn in the code, is not modelled.
- `render_question` (app/ui/chat_ui.py:79-103) is the pure function `RenderQuestion`, without a contract. Its button-building loop is written as recursion.
- `validate_memcached_connection` (app/services/memcached_service.py) is a network client with retries. It is replaced by the `probeSucceeds` argument. The code pauses one second after every failed attempt that raised, the third included. It does not pause when the read-back value does not match.
- `profile_memcached` is a fixed-delay stub. Its record is whatever the environment passes to `ProfilingCompleted`.
- `asyncio.create_task` is fire-and-forget concurrency. It is modelled by the ghost count `pendingProfiles`. A pending task may deliver at any later time, even after a reset, because the code never cancels it.
- `StartProfiling`: the task's `if self.memcached_url` test runs when the task starts, right after the probe stored the URL. The model evaluates the test at launch.
- The `except Exception` branch (app/ui/chat_ui.py:257-260) cannot be reached for string input, so it is not modelled.
- `print` and logging calls are left out.
- The second return value of `handle_response` (the empty string that clears the text box) is left out.
- app/main.py (the web server and the Gradio wiring) is not part of this model. Its page-load handler shows the welcome transcript without resetting the session. `HandleResponse` accepts any transcript, so the turn after such a load is covered.
- `Text.LowerChar` models `str.lower()` only for ASCII capitals and the Kelvin sign. These are the only characters that matter for the "skip" test. Every other character is kept as it is.
- Section and subsection entries are taken as JSON objects with fields. The code's truthiness test on them (`if section and subsection`) therefore always passes.
- Profiling values are integers or strings, printed with `str()`.
