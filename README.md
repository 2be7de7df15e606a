# Spirito Santo WhatsApp assistant: the conversation router

A Dafny model of the webhook of the Spirito Santo chat assistant (`app.py`). Each
inbound WhatsApp message arrives as a webhook call. The router strips the body and
ignores empty messages and messages from the status broadcast. Otherwise it saves
the message to the message log and reads the chat's row from the state store
(menu with no answers when there is none). Then it takes one branch:

- the main menu: options `1` to `4`, and anything else answered by the AI with
  the chat's recent history;
- one of the two seven-question intake flows, franchise or reseller, which store
  each answer under `q1`..`q7` and return to the menu after the seventh.

Modules:

- `Labels` (labels.dfy): the persisted state labels. `Dispatch` selects a branch
  from a stored label exactly as the webhook does: equality with the menu label,
  then a `startswith` test per flow, then the question number from the label's
  last character (`int(label[-1])`, a `ValueError` for a non-digit).
- `Texts` (texts.dfy): the constants. The history window size is 10. The
  broadcast sender is `status@broadcast`. Each flow has an ordered seven-entry
  question table. The franchise capital labels are kept verbatim. The chat
  messages themselves are opaque placeholders.
- `Whitespace` (whitespace.dfy): Python's `str.strip()`, which the filter relies on.
- `History` (history.dfy): the message log and the history query behind
  `get_chat_history` (the newest 10 entries of the chat, reversed into
  chronological order). It also holds the prompt-history join of
  `get_ia_response` and the AI call with its fallback text.
- `Router` (router.dfy): `Decide` is the branch logic for one stored row, and
  `Turn` is the whole webhook call on a `World` (state store, log, outbox).
- `Properties` (properties.dfy): what a turn does, branch by branch, and what a
  whole intake run leaves behind.
- `ChatBot` (chatbot.dfy): the class `Bot`. It holds the state store (a map), the
  message log (a sequence) and the outbox (a sequence). `HandleMessage` performs
  the reads, writes and sends in the source's order and is proved equal to
  `Router.Turn`.

Where the code's behaviour may be unintended, the model keeps it:

- An unmatched stored state sends and writes nothing. This includes the declared
  but unused general-chat label. It is not reset to the menu.
- Only the AI's reply is logged as a bot message. Scripted replies are never logged.
- Starting a flow writes the first question's label with no answers, so earlier
  answers are cleared.
- At the seventh franchise question, the answer `1` or `2` is replaced by its
  capital label only in the in-memory answers. The row then written is the menu
  with no answers, so the label is never stored (`Properties.CapitalMappingStaysInMemory`).

One thing is modelled as corrected rather than as written: the label a flow
starts with (see `## Left out` and `## Findings`).

## Model

| member | source | states |
|---|---|---|
| Whitespace.TrimStart | app.py:243 | the leading part removed by stripping consists of removed characters only, and what is left does not start with one |
| Whitespace.TrimEnd | app.py:243 | the trailing part removed by stripping consists of removed characters only, and what is left does not end with one |
| Whitespace.StripChars | app.py:243 | the stripped text is empty exactly when every character is removable, and otherwise neither starts nor ends with a removable one |
| Whitespace.Strip | app.py:243 | `strip()` yields the empty text exactly when the body is all whitespace, which is what the filter's emptiness test sees |
| Whitespace.StripKeepsMiddle | app.py:243 | stripping removes only the surrounding removable characters: the result is a contiguous slice of the body |
| Whitespace.StripIdempotent | app.py:243 | stripping an already stripped text changes nothing |
| Labels.StartLabelAsWritten | app.py:33 | the first-question label the source writes makes the question-number read raise |
| Labels.StartLabel | app.py:259-263 | the corrected first-question label of a flow is read back as question 1 of that flow |
| Labels.StepLabelDispatch | app.py:275-281 | every label written for question q of a flow is dispatched to that flow with question number q |
| Labels.StepLabelInjective | app.py:280 | distinct flow steps are stored under distinct labels |
| Labels.FixedLabelsDispatch | app.py:255 | the menu label selects the menu branch, and the general-chat label selects no branch |
| Labels.Dispatch | app.py:255-295 | the branch for a stored label: the menu exactly for the menu label; no branch exactly when neither flow prefix matches; a raise exactly when a prefix matches and the last character is not a digit; otherwise the matching flow (franchise tested first) with the last digit as question |
| Labels.QuestionRoute | app.py:276 | definition of `int(label[-1])` on one character; specified by Labels.Dispatch and Labels.StepLabelDispatch |
| Labels.StepLabel | app.py:280 | definition of the label written for a later question; specified by Labels.StepLabelDispatch and Labels.StepLabelInjective |
| Router.Key | app.py:277 | definition of the answer key `q<n>`; specified by Router.KeyInjective and Properties.AnswersContents |
| Router.CompletedAnswers | app.py:277-286 | definition of the in-memory answers at the last question; specified by Properties.CompletedAnswersAtSeven and Properties.CapitalMappingStaysInMemory |
| Router.MenuOutcome | app.py:255-272 | definition of the menu branch (starting a flow with the corrected label); specified by the Properties.MenuOption lemmas and Properties.MenuFallsBackToAi |
| Router.StepOutcome | app.py:274-307 | definition of an intake answer; specified by Properties.IntakeStep, Properties.IntakeFinish and Properties.CapitalMappingStaysInMemory |
| Router.Decide | app.py:255-307 | raises exactly when the stored label cannot be read; at most two texts are sent; an AI reply is logged only with no row written, sent as reply then menu; a turn that sends nothing writes and logs nothing |
| Router.Lookup | app.py:149-159 | definition of the state read; specified by Properties.DefaultStateIsMenu and ChatBot.Bot.GetUserState |
| Router.Upsert | app.py:161-173 | definition of the state upsert; specified by Properties.UpsertKeepsWellFormed and ChatBot.Bot.SetUserState |
| Router.Append | app.py:174-184 | definition of the log append; specified by Properties.OnlyAiRepliesLogged and ChatBot.Bot.SaveMessage |
| Router.RecentHistory | app.py:186-198 | definition of the history read; specified by Properties.AiHistoryEndsWithQuestion and ChatBot.Bot.GetChatHistory |
| Router.Deliveries | app.py:200-210 | definition of the sends of a turn; specified by Router.DeliveriesInOrder |
| Router.InboundText | app.py:243 | definition of the stripped body (empty when absent); specified by Whitespace.Strip |
| Router.Apply | app.py:255-307 | definition of an outcome's writes, log entry and sends; specified by the Properties turn lemmas |
| Router.Respond | app.py:249-309 | definition of the turn after the filter; specified by the Properties lemmas on each branch and Properties.RespondTouchesOnlySender |
| Router.Turn | app.py:238-309 | definition of one webhook call; specified by Properties.TurnOnlyGrows, Properties.FilterIgnores, Properties.TurnPreservesWellFormed and ChatBot.Bot.HandleMessage |
| Properties.TurnOnlyGrows | app.py:238-309 | over a webhook call the log and the outbox only grow; an ignored message changes nothing; a raise changes neither the store nor the outbox |
| History.Window | app.py:186-198 | definition of the history window; specified by History.WindowIsRecentHistory |
| History.FormatLine | app.py:215 | definition of one `**sender:** message` line; specified by History.FormatHistoryAppend |
| History.FormatHistory | app.py:215 | definition of the joined history lines; specified by History.FormatHistoryAppend and History.PromptDeterminesHistory |
| History.Prompt | app.py:216-227 | definition of the full prompt; specified by History.PromptDeterminesQuestion and History.PromptDeterminesHistory |
| Texts.Question | app.py:281 | definition of the ordered question-table lookup that replaces the name lookup of app.py:281 and app.py:300; specified by Properties.IntakeStep and Properties.MenuOptionStartsFlow |
| Router.IsMessageEvent | app.py:240 | definition of the event test (event `message` with a payload); specified by Properties.OtherEventsAcknowledged and Properties.TurnOfInbound |
| Router.Ignorable | app.py:246 | definition of the filter test (empty stripped text or the broadcast sender); specified by Properties.FilterIgnores |
| Whitespace.IsSpace | app.py:243 | definition of the 29 characters for which Python's `str.isspace()` holds, which `strip()` removes; specified by Whitespace.Strip |
| History.SpeakerName | app.py:250 | definition of the sender values `user` and `bot` (app.py:250, 272); specified by History.FormatHistoryAppend |
| Labels.Prefix | app.py:275 | definition of the `startswith` prefixes `franquia` and `revendedor` (app.py:275, 294); specified by Labels.Dispatch |
| Properties.StepTurnIsAdvance | app.py:274-307 | on a reachable database, a webhook turn for a chat in an intake flow stores exactly the row `Advance` gives, so the intake-run lemmas describe the state store across repeated webhook calls |
| Texts.CapitalAnswer | app.py:85-88 | the capital answer is the 200k-275k label for `1`, the above-350k label for `2`, and the text unchanged otherwise |
| History.ForChat | app.py:192 | the chat's entries are exactly the log entries of that chat; a one-entry log gives that entry or nothing |
| History.ForChatSnoc | app.py:192 | a new log entry joins the end of the chat's entries exactly when it belongs to the chat |
| History.ForChatAppend | app.py:192 | filtering by chat keeps log order: the filter of a concatenation is the concatenation of the filters |
| History.NewestFirst | app.py:191-195 | the history query returns at most the window size of entries |
| History.Reversed | app.py:198 | reversing puts element i at position n-1-i and keeps the length |
| History.NewestFirstReversed | app.py:186-198 | the reversed newest-first query result is the chat's last n entries, oldest first |
| History.WindowIsRecentHistory | app.py:186-198 | the window holds min(10, chat size) entries, all from the chat: the most recent ones in log order, ending with the newest entry of the log when it is the chat's |
| History.FormatHistoryAppend | app.py:215 | the prompt-history join keeps every line in order: formatting a concatenation is the concatenation of the formattings |
| History.PromptDeterminesQuestion | app.py:216-227 | for a given history, the prompt carries the current question unaltered |
| History.PromptDeterminesHistory | app.py:216-227 | for a given question, the prompt carries the formatted history unaltered |
| History.AiReply | app.py:228-233 | the reply is the AI's text for the prompt, or the fixed apology when the call fails |
| Router.KeyInjective | app.py:277 | distinct question numbers give distinct answer keys |
| Router.DeliveriesInOrder | app.py:200-210 | every text of a turn is sent to the sender, one message per text, in order |
| Properties.TurnOfInbound | app.py:240-250 | a message event that passes the filter is handled by the post-filter routing |
| Properties.OtherEventsAcknowledged | app.py:240 | any other event, or one without payload, is acknowledged as received and changes nothing |
| Properties.FilterIgnores | app.py:243-247 | an all-whitespace body or the broadcast sender gives `ignored` with no log append, no state write and no send |
| Properties.DefaultStateIsMenu | app.py:149-159 | a chat without a row, or any chat while the database is unreachable, is routed as the menu with no answers |
| Properties.MenuOptionProblems | app.py:256-257 | in the menu, `1` sends exactly the support text and leaves the state store unchanged |
| Properties.MenuOptionAbout | app.py:264-266 | in the menu, `4` sends exactly the about text and then the menu, and leaves the state store unchanged |
| Properties.MenuOptionAboutTwice | app.py:264-266 | choosing `4` twice sends about and menu twice, and the state store is unchanged |
| Properties.MenuOptionStartsFlow | app.py:258-263 | in the menu, `2` or `3` upserts the flow's first question (under the corrected label `Labels.StartLabel`) with no answers and sends one message: intro, blank line, question 1 |
| Properties.MenuFallsBackToAi | app.py:267-272 | any other menu text sends the AI reply and then the menu, logs the reply as the bot after the user's message, and leaves the state store unchanged |
| Properties.AiHistoryEndsWithQuestion | app.py:250 | on a reachable database, the AI's history has 1 to 10 entries: the chat's most recent ones, oldest first, ending with the message being answered |
| Properties.IntakeStep | app.py:275-283 | answering question n < 7 stores the text under `q<n>`, keeps the other answers, moves to question n+1 and sends exactly that question |
| Properties.IntakeFinish | app.py:284-291 | answering question 7 sends the closing text and then the menu, and upserts the menu with no answers |
| Properties.CapitalMappingStaysInMemory | app.py:284-291 | at question 7 the in-memory answer is the capital label (franchise) or the text (reseller), while the written row has no answers |
| Properties.UnmatchedStateDoesNothing | app.py:255-309 | a stored state that matches no branch only logs the inbound message: nothing is sent or written |
| Properties.UnreadableStateRaises | app.py:275-276 | a flow label ending in a non-digit raises after the inbound message was logged, and nothing is sent or written |
| Properties.FirstAnswerRaisesAsWritten | app.py:276 | with the source's first-question labels, every answer to question 1 raises and leaves the row as it was |
| Properties.RespondTouchesOnlySender | app.py:249-307 | a turn leaves other chats' rows unchanged, and only appends to the log and the outbox, always entries of the sender |
| Properties.OnlyAiRepliesLogged | app.py:250-272 | besides the user's message, a turn logs only the AI reply of the menu fallback, and nothing else |
| Properties.DecideWritesRouterLabels | app.py:259-307 | every row the router writes carries a label that dispatches to the menu or to a question 1 to 7. This holds with the corrected start label `Labels.StartLabel`; as written, app.py:259/262 store an unreadable label (see Findings). |
| Properties.UpsertKeepsWellFormed | app.py:161-173 | upserting a readable label keeps every row of the store readable |
| Properties.RespondPreservesWellFormed | app.py:249-307 | routing a message keeps the store readable and, on a readable store, never raises. This holds with the corrected start label `Labels.StartLabel`; as written, app.py:259/262 store an unreadable label (see Findings). |
| Properties.TurnPreservesWellFormed | app.py:238-309 | a webhook call keeps the store readable and, on a readable store, never raises. This holds with the corrected start label `Labels.StartLabel`; as written, app.py:259/262 store an unreadable label (see Findings). |
| Properties.AnswersContents | app.py:277 | the answers of k texts have exactly the keys `q1`..`q<k>`, each holding its text |
| Properties.IntakeCollects | app.py:275-283 | after k <= 6 answers from question 1, the row is at question k+1 and holds exactly those answers (the stored row across webhook calls, by Properties.StepTurnIsAdvance). This holds with the corrected start label `Labels.StartLabel`; as written, app.py:259/262 store an unreadable label (see Findings). |
| Properties.IntakeReaches | app.py:280 | after k <= 6 answers from question 1, the stored label is that of question k+1. This holds with the corrected start label `Labels.StartLabel`; as written, app.py:259/262 store an unreadable label (see Findings). |
| Properties.AdvanceFinishes | app.py:284-291 | an answer at question 7 stores the menu with no answers |
| Properties.IntakeCompletes | app.py:275-291 | seven answers from question 1 bring the row back to the menu with no answers (the stored row across webhook calls, by Properties.StepTurnIsAdvance). This holds with the corrected start label `Labels.StartLabel`; as written, app.py:259/262 store an unreadable label (see Findings). |
| Properties.CompletedAnswersAtSeven | app.py:285-286 | the in-memory answers at question 7 hold the mapped last answer under `q7` |
| Properties.IntakeFinalAnswers | app.py:275-291 | at the seventh answer the in-memory answers are `q1`..`q7` with the seven texts, the last one capital-mapped for franchises. This holds with the corrected start label `Labels.StartLabel`; as written, app.py:259/262 store an unreadable label (see Findings). |
| ChatBot.Bot.constructor | app.py:124-147 | a fresh bot has an empty state store, an empty log and an empty outbox, and satisfies the readable-store invariant |
| ChatBot.Bot.GetUserState | app.py:149-159 | returns the chat's row, or the menu with no answers when there is none or the database is unreachable |
| ChatBot.Bot.SetUserState | app.py:161-173 | upserts the chat's row, absent data stored as no answers; skipped when the database is unreachable |
| ChatBot.Bot.SaveMessage | app.py:174-184 | appends one entry to the log; skipped when the database is unreachable |
| ChatBot.Bot.GetChatHistory | app.py:186-198 | returns the chat's last 10 entries, oldest first, or none when the database is unreachable |
| ChatBot.Bot.SendMessage | app.py:200-210 | appends one message to the outbox |
| ChatBot.Bot.HandleMessage | app.py:238-309 | the new store, log and outbox and the status are exactly those of `Router.Turn` (which starts a flow with the corrected label `Labels.StartLabel`); a readable store stays readable and never raises |
| ChatBot.Bot.RouteMessage | app.py:249-307 | after the filter, the effect and status are exactly those of `Router.Respond` |
| ChatBot.Bot.HandleMenuChoice | app.py:255-272 | the menu branch has exactly the effect `Router.MenuOutcome` describes, writing the corrected first-question label |
| ChatBot.Bot.AnswerWithAi | app.py:267-272 | the AI branch leaves the store alone, sends the reply and the menu, and logs the reply as the bot |
| ChatBot.Bot.HandleAnswer | app.py:274-307 | an intake answer has exactly the effect `Router.StepOutcome` describes |

## Left out

- Flask routing, `request.json` and `jsonify`: the webhook is given as a datatype, and only the `ignored` / `received` status is kept. A raised exception (HTTP 500 in the source) is the status `Failed`.
- A JSON `null` body, or a non-string body, makes `.strip()` raise. The model's body is a string or absent.
- A missing sender is not modelled: the sender is always a string.
- The PostgreSQL connection, table creation, SQL text and timestamps: the state table is a map and the messages table a sequence in insertion order. The history query's `ORDER BY timestamp DESC` is modelled as reverse insertion order, so timestamp ties are not modelled.
- Database unavailability is one flag per bot (`online`). Reads then give the default row or no history, and writes are skipped. A connection that fails for some calls of a turn but not others is not modelled.
- The WhatsApp gateway POST: every send is appended to an outbox. Delivery failures are swallowed by the source, so they do not change the router's behaviour.
- The Gemini call is the parameter `ai`, a function from prompt to an optional reply. `None` stands for any failure and gives the fixed apology. The call is assumed deterministic within a turn.
- The literal wording of the menu, support, about, intro, question and closing texts, and of the prompt's fixed parts: these are opaque placeholder strings. The capital labels are kept verbatim.
- Environment-variable checks at startup, the home endpoint and the process entry point: configuration, not routing logic.
- `int()` on a non-ASCII Unicode decimal digit: the model reads only ASCII digits from a stored label. The router never writes any other kind.
- Router.MenuOutcome: options `2` and `3` write the corrected first-question labels `franquia_q1` / `revendedor_q1` (`Labels.StartLabel`), not the labels the source writes, which end in a letter and make every answer to question 1 raise (see Findings). The code as written is modelled by `Labels.StartLabelAsWritten` and `Properties.FirstAnswerRaisesAsWritten`, and the same holds for `ChatBot.Bot.HandleMenuChoice`. The store invariant and intake-run lemmas (`Properties.DecideWritesRouterLabels`, `RespondPreservesWellFormed`, `TurnPreservesWellFormed`, `IntakeCollects`, `IntakeReaches`, `IntakeCompletes`, `IntakeFinalAnswers`, `StepTurnIsAdvance` from a started flow, and `ChatBot.Bot.HandleMessage`'s invariant clause) hold for the router with the corrected label. With the labels as written, the first answer raises and the row never moves past question 1 (`Properties.FirstAnswerRaisesAsWritten`).
- A payload that is present but not an object (for example `"payload": null`) passes the event test and then makes `payload.get` raise, an HTTP 500. The model's payload is either absent, acknowledged as received, or a record.
- Database errors after a successful connection are not modelled: an exception from a query or commit in the state read, the state upsert, the log append or the history query propagates as an HTTP 500 in the middle of a turn. One such cause is a NUL character in a text column. The model's `online` flag covers only a failed connection, which the source turns into a default read or a skipped write.
- Concurrent webhook calls for the same chat (last write wins): the model is sequential.

## Findings

| source | as written | input that shows it | evidently intended | confidence | as-written member | corrected member |
|---|---|---|---|---|---|---|
| app.py:33 | the first-question labels of both flows end in the letter `e` (`..._q1_nome`). Reading the question number with `int(label[-1])` at app.py:276 and app.py:295 then raises `ValueError`. The row is not updated, so the chat stays at question 1 for good | menu `2`, then `Jane Doe`: the question-number read fails after the message was logged; no row is written and nothing is sent | the first-question label is read back as question 1, like the labels `franquia_q2`..`q7` written at app.py:280 | high (not executed) | Labels.StartLabelAsWritten | Labels.StartLabel |
