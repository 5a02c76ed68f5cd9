# Legis AI web front end: a verified model of the streamed chat and its rules

Legis AI is a web application for law practices. Lawyers keep cases and
clients and ask an AI assistant about them in chats. This project models the
core of its Next.js front end:

- **The streamed chat pipeline.**
  - The browser-side reader of the assistant's event stream (`askGeminiStream`) turns chunks of text into deltas: one per `data:` line.
  - The chat areas of a case and of a client queue those deltas. A 15 ms timer folds them into the transcript, one at a time.
- **The relays on the Next.js server.**
  - the ask proxy (`POST /api/ai/ask`);
  - the session-cookie rewriter (`POST /api/auth/session`);
  - the middleware that forwards `/api` requests to the backend with a bearer token.
- **The validators and display rules around them.**
  - the login/register card;
  - the person and case-event dialogs;
  - the status badges of the case panel;
  - the chat sidebars;
  - the authentication redirect hook.

Pure rules are Dafny functions and lemmas. Components that update state in
place become classes whose fields are that state. Each handler is a method
that states the whole new state; lists are `seq` fields.

Conventions:
- Network answers, thrown errors, sign-in results and the user's sign-in state are parameters.
- Toasts, router navigations and issued requests are recorded in sequence fields.
- Random ids (`crypto.randomUUID`) are a counter, so ids are fresh by construction.

The modules:

| file | module | models |
|---|---|---|
| `wrappers.dfy` | `Wrappers` | `Option` and `Result` |
| `text.dfy` | `Text` | JavaScript `trim`, whitespace, `startsWith`, `slice(0, n)`, ASCII `toLowerCase`, `join("")`, decimal printing |
| `stream_decoder.dfy` | `StreamDecoder` | `src/lib/ask-gemini-stream.ts` |
| `scopes.dfy` | `Scopes` | the strings that differ between the case and client variants |
| `chat_session.dfy` | `ChatSession` | `src/components/CaseChatArea.tsx` and `src/components/ClientChatArea.tsx` (class `ChatArea`) |
| `session_route.dfy` | `SessionRoute` | `src/app/api/auth/session/route.ts` |
| `ask_route.dfy` | `AskRoute` | `src/app/api/ai/ask/route.ts` |
| `middleware.dfy` | `ApiMiddleware` | `src/middleware.ts` |
| `auth_card.dfy` | `AuthCard` | `src/components/AuthCard.tsx` (class `Card`) |
| `person_dialog.dfy` | `PersonDialog` | `src/components/dialog/ClientPersonDialog.tsx` (class `Dialog`) |
| `event_dialog.dfy` | `EventDialog` | `src/components/dialog/AddCaseEventDialog.tsx` (class `Dialog`) |
| `case_detail_panel.dfy` | `CaseDetailPanel` | `src/components/CaseDetailPanel.tsx` |
| `chat_sidebar.dfy` | `ChatSidebar` | `src/components/CaseSidebar.tsx` and `src/components/ClientSidebar.tsx` (class `Sidebar`) |
| `use_auth.dfy` | `UseAuth` | `src/hooks/use-auth.ts` (class `AuthHook`) |

The main results:
- **Chunk-boundary independence.** `StreamDecoder.AskStream` reads chunks with a carry-over buffer. It emits exactly `Decode(Concat(chunks))`: the deltas depend only on the concatenated text.
- **The chat invariant.** `ChatSession.ChatArea` keeps `Valid()` across every operation:
  - ids stay below the next fresh id;
  - assistant messages are never empty;
  - the trailing assistant text, followed by the queued deltas, is the concatenation of the deltas pushed since the question.

  So once the queue drains, the answer is the concatenation of the streamed deltas.
- **The session regex, written out.** `IsSessionMatch` states the regular expression declaratively, and `SessionValue` is proved to find its leftmost match. A rewritten cookie carries the same session value as the original.

## Model

| member | source | states |
|---|---|---|
| StreamDecoder.Split | src/lib/ask-gemini-stream.ts:28 | `split("\n")` always yields at least one piece |
| StreamDecoder.SplitPieces | src/lib/ask-gemini-stream.ts:28 | no piece of a split contains a newline |
| StreamDecoder.JoinSplit | src/lib/ask-gemini-stream.ts:28 | joining the pieces with newlines gives back the text |
| StreamDecoder.SplitJoin | src/lib/ask-gemini-stream.ts:28 | splitting newline-free lines joined by newlines gives back the lines |
| StreamDecoder.SplitFromAppend | src/lib/ask-gemini-stream.ts:28 | splitting `x + y` is the complete lines of `x`, then the split of its last fragment followed by `y` |
| StreamDecoder.SplitCarry | src/lib/ask-gemini-stream.ts:27-29 | splitting `buffer + chunk` equals the complete lines so far plus the split of the carried fragment with the chunk |
| StreamDecoder.LineDelta | src/lib/ask-gemini-stream.ts:31-39 | a line yields one delta exactly when it starts with `data:`, and the delta is never empty |
| StreamDecoder.LinesDeltas | src/lib/ask-gemini-stream.ts:31-41 | every delta emitted for a list of lines is non-empty |
| StreamDecoder.LinesDeltasAppend | src/lib/ask-gemini-stream.ts:31-41 | the deltas of two line lists in a row are the deltas of each, in order |
| StreamDecoder.LinesDeltasArePayloads | src/lib/ask-gemini-stream.ts:31-39 | one delta per `data:` line, equal to its payload (the rest of the line, or a newline when empty) |
| StreamDecoder.Decode | src/lib/ask-gemini-stream.ts:28-47 | the deltas of a whole text are all non-empty |
| StreamDecoder.DecodeAppendLine | src/lib/ask-gemini-stream.ts:28-47 | decoding `a + "\n" + b` is decoding `a`, then `b` |
| StreamDecoder.DecodeLine | src/lib/ask-gemini-stream.ts:31-39 | a complete first line contributes its own delta, then the rest decodes alone |
| StreamDecoder.DataLineYieldsPayload | src/lib/ask-gemini-stream.ts:32-38 | a `data:` line yields the line minus its five first characters, spaces and `\r` kept |
| StreamDecoder.EmptyDataLineYieldsNewline | src/lib/ask-gemini-stream.ts:35-36 | a line that is exactly `data:` yields a single newline |
| StreamDecoder.OtherLineYieldsNothing | src/lib/ask-gemini-stream.ts:32 | a line not starting with `data:` yields nothing |
| StreamDecoder.TrailingNewlineAddsNothing | src/lib/ask-gemini-stream.ts:44-47 | a text ending in a newline decodes like the text without it |
| StreamDecoder.DecodeIsPayloadsInOrder | src/lib/ask-gemini-stream.ts:28-47 | the deltas are the payloads of the `data:` segments of the split text, in order |
| StreamDecoder.DataLinesStartWithPrefix | src/lib/ask-gemini-stream.ts:32 | every selected line starts with `data:` |
| StreamDecoder.ReadStep | src/lib/ask-gemini-stream.ts:27-41 | one read keeps the carry-over equal to the last fragment and adds the deltas of the newly completed lines |
| StreamDecoder.FlushStep | src/lib/ask-gemini-stream.ts:44-47 | the deltas of the complete lines plus the flushed fragment are the deltas of the whole text |
| StreamDecoder.EmitLines | src/lib/ask-gemini-stream.ts:31-41 | the inner loop emits exactly the deltas of its lines |
| StreamDecoder.AskStream | src/lib/ask-gemini-stream.ts:1-47 | POSTs the prompt and chat id to `/api/ai/ask`; a non-ok answer or missing body fails with `Error al consultar la IA` before any delta; otherwise the deltas are `Decode` of the concatenated chunks, whatever the chunk boundaries |
| ChatSession.FoldDelta | src/components/CaseChatArea.tsx:116-129 | a delta extends a trailing assistant message or starts one with a fresh id; earlier messages are untouched; the trailing text grows by the delta |
| ChatSession.FoldDeltaKeepsUserMessages | src/components/ClientChatArea.tsx:105-113 | a tick never adds, removes or edits a user message |
| ChatSession.FoldDeltaKeepsInvariant | src/components/CaseChatArea.tsx:116-129 | folding a non-empty delta keeps ids below the next fresh id and assistant messages non-empty |
| ChatSession.AppendUserKeepsInvariant | src/components/CaseChatArea.tsx:84-90 | appending the user message keeps the invariant and leaves no trailing assistant text |
| ChatSession.FoldDeltas | src/components/CaseChatArea.tsx:111-132 | successive ticks keep every message before the last and add at most one message per delta |
| ChatSession.FoldDeltasGrow | src/components/CaseChatArea.tsx:116-124 | after an assistant message, a run of deltas only appends their concatenation to it |
| ChatSession.FoldDeltasAfterUser | src/components/CaseChatArea.tsx:113-129 | after a question, a run of deltas adds one assistant message holding their concatenation (or nothing) |
| ChatSession.StreamedAnswer | src/components/CaseChatArea.tsx:95-129 | a decoded stream folded after the question gives one answer equal to the concatenated deltas |
| ChatSession.QuestionSeparatesAnswers | src/components/CaseChatArea.tsx:116-129 | a delta after a user message starts a new assistant message; it never joins an earlier answer |
| ChatSession.TickKeepsInvariant | src/components/CaseChatArea.tsx:113-129 | popping one delta preserves the queue/transcript invariant |
| ChatSession.PushKeepsInvariant | src/components/CaseChatArea.tsx:98 | appending deltas to the queue preserves the invariant |
| ChatSession.ChatFor | src/components/CaseChatArea.tsx:63-74 | the chat a send answers in: the cached id when usable, else exactly the created one; none only when neither exists |
| ChatSession.Issued | src/components/CaseChatArea.tsx:63-101 | a creation request first exactly when no usable id is cached; with a usable cached id, a single ask and no creation request; an ask last whenever a chat is known, carrying the prompt and that chat, and no ask anywhere else |
| ChatSession.ChatArea.constructor | src/components/CaseChatArea.tsx:37-42 | empty input, no chat, no messages, empty queue, not submitting |
| ChatSession.ChatArea.SetInput | src/components/CaseChatArea.tsx:61 | the input holds the given text |
| ChatSession.ChatArea.BeginSend | src/components/CaseChatArea.tsx:76-91 | a blank or concurrent send changes nothing; otherwise the queue is cleared, one user message with the trimmed prompt is appended and the input cleared |
| ChatSession.ChatArea.ShowPrompt | src/components/CaseChatArea.tsx:81-91 | sets submitting, clears queue and input, appends the user message with a fresh id |
| ChatSession.ChatArea.EnsureChat | src/components/CaseChatArea.tsx:63-74 | a cached chat id is returned with no request; otherwise one creation request, and the id is cached only on success |
| ChatSession.ChatArea.Push | src/components/CaseChatArea.tsx:97-99 | a delta enters the back of the queue |
| ChatSession.ChatArea.PushAll | src/components/ClientChatArea.tsx:86 | deltas enter the queue in callback order |
| ChatSession.ChatArea.Tick | src/components/CaseChatArea.tsx:111-132 | pops at most one delta; an empty queue changes nothing; a non-empty delta is folded; once the queue is empty the trailing answer is the concatenation of the pushed deltas |
| ChatSession.ChatArea.FinishSend | src/components/CaseChatArea.tsx:103-108 | shows the error, if any, and ends `submitting` |
| ChatSession.ChatArea.Stream | src/components/CaseChatArea.tsx:95-108 | issues the ask request; on failure toasts `Error al consultar la IA` with an empty queue; on success queues the decoded deltas; ends not submitting |
| ChatSession.ChatArea.Respond | src/components/CaseChatArea.tsx:63-108 | the requests are exactly `Issued`: a creation request only without a usable cached id, then one ask with the prompt and chat id unless the creation failed; a failed creation toasts its message and caches nothing; otherwise streams into the queue as above |
| ChatSession.ChatArea.Send | src/components/CaseChatArea.tsx:63-109 | the whole `handleSend`: the guard changes nothing; otherwise one user message with the trimmed prompt and the next id (it stays on failure), the requests of `Issued` for that prompt, the three outcomes of `Answered`, and `submitting` false at the end |
| Scopes.EndpointsSeparateScopes | src/components/CaseChatArea.tsx:66 | a case chats endpoint never equals a client chats endpoint |
| SessionRoute.SkipSpaces | src/app/api/auth/session/route.ts:23 | `\s*` skips exactly the whitespace run |
| SessionRoute.RunEnd | src/app/api/auth/session/route.ts:23 | `[^;]+` stops at the first `;` or the end |
| SessionRoute.SessionMatchUnique | src/app/api/auth/session/route.ts:23 | a match start determines the value start |
| SessionRoute.SessionMatchAt | src/app/api/auth/session/route.ts:23 | finds a match at a position exactly when there is one |
| SessionRoute.NoLaterSessionMatch | src/app/api/auth/session/route.ts:23 | a `;` not followed by spaces and `session=` and a value starts no match |
| SessionRoute.SessionValue | src/app/api/auth/session/route.ts:23 | the capture `m[1]` of the leftmost match, or none; characterised by `SessionValueSpec` |
| SessionRoute.FindSession | src/app/api/auth/session/route.ts:23 | the search returns the leftmost match, or none when there is none |
| SessionRoute.SessionValueSpec | src/app/api/auth/session/route.ts:23 | the session value is the maximal non-`;` run after the leftmost `session=` at the start or after `;` and spaces, case-insensitively; none iff no match |
| SessionRoute.SuffixNameIgnored | src/app/api/auth/session/route.ts:23 | `mysession=x` is not a session cookie |
| SessionRoute.NoSemicolonNoLateMatch | src/app/api/auth/session/route.ts:23 | without a `;` only a match at the start is possible |
| SessionRoute.FindMaxAge | src/app/api/auth/session/route.ts:24 | the unanchored `max-age=` search returns the leftmost match |
| SessionRoute.MaxAgeValue | src/app/api/auth/session/route.ts:24 | a max-age value exists iff `max-age=` followed by a non-`;` occurs, case-insensitively; it is the maximal non-`;` run after the leftmost such occurrence, so it is non-empty and has no `;` |
| SessionRoute.RewriteCookie | src/app/api/auth/session/route.ts:22-31 | a cookie is emitted iff a session value is found, as `session=<v>; Path=/; HttpOnly; Secure; SameSite=Lax` plus `; Max-Age=<raw>` when found |
| SessionRoute.MaxAgeAloneNoCookie | src/app/api/auth/session/route.ts:24-25 | a max-age without a session emits no cookie |
| SessionRoute.SessionPost | src/app/api/auth/session/route.ts:18-31 | status and body are passed through; the appended cookie is exactly `RewriteCookie` of the upstream header (`session=<v>; Path=/; HttpOnly; Secure; SameSite=Lax[; Max-Age=<raw>]`, present iff the session expression matches); no upstream header, no cookie; the emitted cookie carries the upstream session value |
| SessionRoute.CookieRoundTrip | src/app/api/auth/session/route.ts:28-30 | reading the session value back from a built cookie gives the value |
| SessionRoute.RewriteRoundTrip | src/app/api/auth/session/route.ts:23-30 | the rewritten cookie has the same session value as the upstream one |
| AskRoute.AskPost | src/app/api/ai/ask/route.ts:10-47 | 401 `Missing session` first, then 400 `Invalid JSON`; the backend is called iff both pass, with bearer token and event-stream accept; a non-ok status is relayed with its text or `Upstream error`; ok relays the body untouched with status 200 and event-stream headers |
| AskRoute.ErrorRepliesExplain | src/app/api/ai/ask/route.ts:11-38 | every text reply is non-empty and has a non-ok status |
| AskRoute.RelayReachesClient | src/app/api/ai/ask/route.ts:35-47 | the browser sees an ok stream iff the backend was called and answered ok, and then it receives the backend's chunks |
| ApiMiddleware.Matches | src/middleware.ts:19-21 | `/api` itself or any path below `/api/` |
| ApiMiddleware.TokenText | src/middleware.ts:6-9 | the session cookie's value, or `null` when it is absent or empty |
| ApiMiddleware.MatcherNeedsSegment | src/middleware.ts:19-21 | `/api` and `/api/...` are rewritten, `/apis` and `/app/api` are not |
| ApiMiddleware.Rewrite | src/middleware.ts:5-17 | target is `apiUrl + pathname + search`; authorization is `Bearer <token>`, overriding any incoming one; host and cookie removed; every other header kept |
| ApiMiddleware.NoSessionSendsNull | src/middleware.ts:6-9 | with no session cookie the header is `Bearer null` |
| AuthCard.IsFilled | src/components/AuthCard.tsx:31-34 | email and password non-empty, and the confirmation too in register mode |
| AuthCard.EmailMatches | src/components/AuthCard.tsx:38-40 | `\S+@\S+\.\S+` found anywhere: an `@` and a later `.` with non-space characters before, between and after |
| AuthCard.EmailExamples | src/components/AuthCard.tsx:38-40 | the email rule is unanchored but rejects a space inside the address or a missing dot |
| AuthCard.ErrorsFor | src/components/AuthCard.tsx:36-45 | email error iff no match; password error iff fewer than six code units; confirm error iff register mode and different passwords; each with its message |
| AuthCard.ValidImpliesFilled | src/components/AuthCard.tsx:31-47 | a form without errors has the submit button enabled |
| AuthCard.SixCharactersPass | src/components/AuthCard.tsx:41-42 | a six-character password passes |
| AuthCard.Card.constructor | src/components/AuthCard.tsx:20-28 | empty fields, no errors, not touched |
| AuthCard.Card.Validate | src/components/AuthCard.tsx:36-48 | records exactly the errors of `ErrorsFor` and returns true iff there are none |
| AuthCard.Card.HandleSubmit | src/components/AuthCard.tsx:50-67 | marks the form touched; an invalid form makes no sign-in call; success toasts per mode and navigates to `/`; failure toasts the message or `Error al autenticar` |
| PersonDialog.CanSubmit | src/components/dialog/ClientPersonDialog.tsx:38-41 | `canSubmit`: the three required fields trimmed are non-empty |
| PersonDialog.PayloadOf | src/components/dialog/ClientPersonDialog.tsx:73-79 | the payload of both modes; characterised by `PayloadIsNormalised` |
| PersonDialog.CanSubmitIffNotBlank | src/components/dialog/ClientPersonDialog.tsx:38-41 | submit is allowed iff name, role and relationship are all non-blank |
| PersonDialog.Optional | src/components/dialog/ClientPersonDialog.tsx:77-78 | a blank phone or email is null, otherwise its trimmed text |
| PersonDialog.PayloadIsNormalised | src/components/dialog/ClientPersonDialog.tsx:73-79 | every payload is trimmed and has no blank optional field |
| PersonDialog.NormaliseIdempotent | src/components/dialog/ClientPersonDialog.tsx:92-98 | building the payload from a normalised payload's values gives it back |
| PersonDialog.RequestFor | src/components/dialog/ClientPersonDialog.tsx:72-106 | create POSTs to `/api/clients/{id}/persons`; edit PATCHes `/persons/{initial.id}`; edit without an initial person has no request |
| PersonDialog.SendError | src/components/dialog/ClientPersonDialog.tsx:87-114 | no error iff the answer is ok; a non-ok answer gives its text; a thrown `Error` gives its message; anything else thrown gives `Error guardando persona` |
| PersonDialog.Dialog.constructor | src/components/dialog/ClientPersonDialog.tsx:28-36 | closed, not submitting, empty fields, no error |
| PersonDialog.Dialog.Reset | src/components/dialog/ClientPersonDialog.tsx:54-61 | clears the error and all five fields |
| PersonDialog.Dialog.Prefill | src/components/dialog/ClientPersonDialog.tsx:43-52 | when open in edit mode with an initial person, the fields take its values; otherwise nothing changes |
| PersonDialog.Dialog.OnOpenChange | src/components/dialog/ClientPersonDialog.tsx:126-129 | closing through the dialog's own controls resets; opening a closed dialog prefills, keeping the error |
| PersonDialog.Dialog.Cancel | src/components/dialog/ClientPersonDialog.tsx:162 | the Cancelar button only closes: the error and the five fields are kept for the next opening |
| PersonDialog.Dialog.Submit | src/components/dialog/ClientPersonDialog.tsx:63-118 | a blank required field sets `Completá nombre/rol/relación` with no request; edit without initial fails with `Falta persona inicial`; otherwise one request with the normalised payload; success saves, closes and resets, failure keeps the fields; ends not submitting |
| PersonDialog.Dialog.Send | src/components/dialog/ClientPersonDialog.tsx:81-117 | issues the request, then saves and resets, or keeps the form with the error |
| EventDialog.TitleFor | src/components/dialog/AddCaseEventDialog.tsx:41-54 | `MOVEMENT`, `DATE`, `NOTE` and `DOCUMENT` give `Agregar movimiento`, `Agregar fecha`, `Agregar nota` and `Agregar documento`; `Agregar` exactly for any other type |
| EventDialog.TitlesDistinct | src/components/dialog/AddCaseEventDialog.tsx:41-54 | distinct known types have distinct titles |
| EventDialog.IsoMaybe | src/components/dialog/AddCaseEventDialog.tsx:24-28 | an empty input gives null before any parsing; otherwise the parsed value |
| EventDialog.PayloadFor | src/components/dialog/AddCaseEventDialog.tsx:82-89 | trimmed title and description, given type and status, no files, and a date only for `DATE` events |
| EventDialog.SubmittedTitleClean | src/components/dialog/AddCaseEventDialog.tsx:75-83 | a title that passes the guard is sent non-empty and trimmed |
| EventDialog.FailureText | src/components/dialog/AddCaseEventDialog.tsx:100 | the failure message is the answer's text, or `HTTP ` and the status when the text is empty; never empty |
| EventDialog.FailureTextNamesStatus | src/components/dialog/AddCaseEventDialog.tsx:100 | the status can be read back from `HTTP <status>` |
| EventDialog.SendError | src/components/dialog/AddCaseEventDialog.tsx:98-108 | no error iff the answer is ok; a non-ok answer gives `FailureText` of its text (empty when unreadable) and status, never empty; a thrown `Error` gives its message; anything else thrown gives `No se pudo crear el evento` |
| EventDialog.Dialog.constructor | src/components/dialog/AddCaseEventDialog.tsx:56-63 | closed, not submitting, empty fields, status pending |
| EventDialog.Dialog.Reset | src/components/dialog/AddCaseEventDialog.tsx:65-71 | empty fields, status `PENDING`, no error |
| EventDialog.Dialog.OnOpenChange | src/components/dialog/AddCaseEventDialog.tsx:120-123 | closing through the dialog's own controls resets the form; opening changes nothing else |
| EventDialog.Dialog.Cancel | src/components/dialog/AddCaseEventDialog.tsx:169 | the Cancelar button only closes: the error and every field are kept for the next opening |
| EventDialog.Dialog.Submit | src/components/dialog/AddCaseEventDialog.tsx:73-112 | a blank title sets `El título es obligatorio` with no request; otherwise one POST with the payload; success records the event, closes and resets; failure keeps the form with the error; ends not submitting |
| EventDialog.Dialog.Send | src/components/dialog/AddCaseEventDialog.tsx:91-111 | issues the request, then records and resets, or keeps the form with the error |
| CaseDetailPanel.BadgeVariant | src/components/CaseDetailPanel.tsx:126-142 | `default` iff finished, `secondary` iff under way, `destructive` iff urgent, `outline` otherwise |
| CaseDetailPanel.StatusColor | src/components/CaseDetailPanel.tsx:144-160 | green iff finished, blue iff under way, yellow iff pending, red iff urgent, grey iff none of these |
| CaseDetailPanel.CaseInsensitive | src/components/CaseDetailPanel.tsx:127 | both mappings ignore letter case |
| CaseDetailPanel.VariantAndColourAgree | src/components/CaseDetailPanel.tsx:126-160 | each variant has its colour; `outline` is yellow or grey |
| CaseDetailPanel.SpacesNotTrimmed | src/components/CaseDetailPanel.tsx:139-140 | ` urgente` with a leading space falls to the default |
| CaseDetailPanel.CapitalisedStatuses | src/components/CaseDetailPanel.tsx:127-136 | `Completado` and `Pendiente` map like their lower-case forms |
| CaseDetailPanel.Render | src/components/CaseDetailPanel.tsx:336-367 | a closed panel renders nothing; an open one shows the status with its variant and colour |
| ChatSidebar.ActiveChatId | src/components/CaseSidebar.tsx:25 | an absent or empty `chatId` parameter means no active chat |
| ChatSidebar.ChatLabel | src/components/CaseSidebar.tsx:125 | the title when not blank, else `Chat ` and the id's first six characters; never blank |
| ChatSidebar.IsActive | src/components/CaseSidebar.tsx:124 | a chat is highlighted when its id is the active one |
| ChatSidebar.AtMostOneActive | src/components/CaseSidebar.tsx:123-124 | with distinct ids, exactly one chat is highlighted when the active id names a chat of the list, and none otherwise |
| ChatSidebar.PanelCaseData | src/components/CaseSidebar.tsx:27-38 | title and matter from the case, or `Asunto <id prefix>` and empty; `Cliente (<id>)` or `Cliente`; status or empty; no parties |
| ChatSidebar.SidebarPanelRenders | src/components/CaseSidebar.tsx:97-102 | the sidebar's panel always renders with the case status; before the case loads it shows `Cliente` and an empty, outlined, grey badge |
| ChatSidebar.ClientTitle | src/components/ClientSidebar.tsx:30-34 | the trimmed full name, or `Cliente <id prefix>`; never blank |
| ChatSidebar.Describe | src/components/CaseSidebar.tsx:111 | `String(e)`: an `Error` with an empty name prints its message alone, with an empty message its name alone, otherwise name, `: ` and message; any other value prints its own text |
| ChatSidebar.Sidebar.constructor | src/components/CaseSidebar.tsx:21-25 | loading, nothing loaded, the active chat from the query |
| ChatSidebar.Sidebar.Load | src/components/CaseSidebar.tsx:40-74 | both requests issued; a throw only toasts; ok answers stored unless cancelled; jumps to the first chat only when none is active, the list is non-empty and the load was not cancelled |
| ChatSidebar.Sidebar.CreateNewChat | src/components/CaseSidebar.tsx:76-92 | a failed creation toasts before any refresh or navigation; after a creation the list is refreshed when ok and the page moves to the new chat unless the refresh threw |
| UseAuth.IsAuthPage | src/hooks/use-auth.ts:17 | exactly `/login` and `/register` |
| UseAuth.Redirect | src/hooks/use-auth.ts:17-23 | signed in on `/login` or `/register` goes to `/`; signed out on a protected non-auth page goes to `/login`; nothing otherwise |
| UseAuth.RedirectSettles | src/hooks/use-auth.ts:19-23 | after a redirect, the page reached redirects no further |
| UseAuth.UnprotectedNeverToLogin | src/hooks/use-auth.ts:21-22 | an unprotected route never sends to `/login` |
| UseAuth.AuthHook.constructor | src/hooks/use-auth.ts:9 | the user is not yet known, so the hook is loading |
| UseAuth.AuthHook.OnAuthStateChanged | src/hooks/use-auth.ts:14-24 | stores the user (no longer loading) and navigates exactly as `Redirect` says |
| Text.IsSpace | src/components/CaseChatArea.tsx:78 | the characters JavaScript's `trim` and `\s` treat as white space |
| Text.TrimStart | src/components/CaseChatArea.tsx:78 | drops leading white space, never lengthening; characterised by `TrimStartSpec` |
| Text.TrimEnd | src/components/CaseChatArea.tsx:78 | drops trailing white space, never lengthening; characterised by `TrimEndSpec` |
| Text.Trim | src/components/CaseChatArea.tsx:78 | the trimmed text is empty iff the text is blank, and otherwise starts and ends with a non-space |
| Text.TrimStartSpec | src/components/CaseChatArea.tsx:78 | trimming the start drops exactly a leading whitespace run |
| Text.TrimEndSpec | src/components/CaseChatArea.tsx:78 | trimming the end drops exactly a trailing whitespace run |
| Text.Lower | src/components/CaseDetailPanel.tsx:127 | same length; no ASCII capital is left; each capital becomes its small letter and every other character is kept |
| Text.LowerIdempotent | src/components/CaseDetailPanel.tsx:127 | lower-casing a lower-cased status changes nothing |
| Text.Take | src/components/CaseSidebar.tsx:30 | a prefix of `min(n, length)` characters; on text within the Basic Multilingual Plane, its UTF-16 length is `min(n, UTF-16 length)`, as `slice(0, n)` keeps |
| Text.Utf16Length | src/components/AuthCard.tsx:41 | the JavaScript length lies between the number of characters and twice it |
| Text.BmpLength | src/components/AuthCard.tsx:41 | without characters beyond U+FFFF, the JavaScript length is the number of characters |
| Text.Decimal | src/components/dialog/AddCaseEventDialog.tsx:100 | `${n}`: non-empty, digits only, no leading zero |
| Text.DecimalRoundTrip | src/components/dialog/AddCaseEventDialog.tsx:100 | a printed number parses back to itself |

## Left out

- UTF-8 decoding (`TextDecoder`) is not modelled. The decoder works on already-decoded characters, and the final decoder flush that the code omits is not modelled either.
- A read that rejects mid-stream is not modelled. The chunk list is the whole body.
- The ask endpoint that callers pass as a fourth argument is not modelled, because the function ignores it and always posts to `/api/ai/ask`.
- Timers and async interleaving are not modelled. `Push`, `PushAll` and `Tick` are methods a caller may call in any order.
- ChatSession.ChatArea.Send runs the whole stream before any tick, because its result states the queue after the stream. Ticks during the stream are covered by calling `Push` and `Tick` directly.
- `crypto.randomUUID` is not modelled. Ids are a counter: fresh, but not random strings.
- `toast`, `router` and `console` are recorded as sequences of texts and paths; nothing is rendered.
- Firebase sign-in (including `handleGoogle`) and `onAuthStateChanged` are outside the model. Their results are parameters.
- `toIsoMaybe`: date parsing and time zones are not modelled. Only its empty-input branch is kept; the parsed value is a parameter.
- `toLowerCase` covers the ASCII capitals only.
- Bodies are abstract:
  - JSON bodies are kept as text or as the parsed records the code uses;
  - `req.json()` failing in the session route is not modelled;
  - a `res.json()` that fails after an ok answer is not modelled;
  - in the session route, `response.json()` throwing on a non-JSON upstream body is not modelled. The route then fails without forwarding any cookie, whereas SessionRoute.SessionPost takes the body as already parsed.
- A rejected `fetch` (a network failure) is not modelled where it can happen:
  - in the ask route, which has no `catch`, so the route itself fails;
  - in `ensureCaseChat` / `ensureClientChat`;
  - in `askGeminiStream`. A chat area would then toast the thrown error's own message, not `Error al consultar la IA`. The `created` and `response` parameters of ChatSession.ChatArea.Send have no thrown case.
- Text.Take: it counts characters, but `slice(0, n)` counts UTF-16 code units. The two agree on text within the Basic Multilingual Plane (the contract proves this). With characters beyond U+FFFF in the first `n` units, `slice` keeps fewer characters and may cut a surrogate pair; a lone surrogate has no value in a Dafny `string`.
- `NEXT_PUBLIC_API_URL` in the session route is not modelled: the backend call itself is a parameter.
- ChatSidebar.Sidebar.Load uses one `cancelled` flag for the whole run. Promise.all's race between two rejections is resolved in favour of the entity request.
- JSX, animation, SuggestionBar layout, the REST services and hooks, and the thin create dialogs are outside the core and not modelled.
