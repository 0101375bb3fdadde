# Juris: a Dafny model of the chat screen, the session-cookie authentication service and the research pipeline

Juris is a legal-assistant web application. This project models three of its parts and proves
properties about them.

- **The chat screen** (`web/app/chat/page.tsx`). It keeps a log of turns that starts with one
  greeting, an input box, and a loading flag that allows one chat request at a time. It sends
  the raw input with a thread id assigned when the screen mounts. It appends exactly one
  assistant turn per send: the reply, or a fixed apology when the transport throws. An
  assistant turn whose content parses to a truthy JSON value is shown as a structured answer
  (citations, option buttons, a PDF export button). Anything else is shown as prose.
  Modules `ChatCodec` (decoding and rendering decisions) and `ChatSession` (the conversation as
  pure functions over a `ChatView` value, plus the `ChatSession` class whose methods are proved
  against those functions).
- **The authentication service** (`auth/`). bcrypt password hashing; seven-day sessions kept in
  a MongoDB `sessions` collection; a `users` collection with a unique lower-cased email; the
  `juris_session` cookie guard; the `/auth` endpoints. Modules `Security`, `AuthStore` (class
  `AuthDatabase` with the two collections as maps), `AuthDependencies`, `AuthRouter`. `Hex`
  gives the hexadecimal text of ObjectIds and session tokens.
- **The research pipeline** (`agent/agent_graph.py`). Three nodes run in a fixed order over a
  shared state: triage, vector-search research, drafter. Module `AgentGraph`.

Things outside the program are parameters:

- the clock is `now`, an integer count of seconds;
- fresh ObjectIds are parameters that must not be in use yet;
- random token bytes are a parameter;
- bcrypt is a pair of functions (`Security.PasswordHasher`), whose promise is stated as the
  ghost predicate `Sound`;
- a failure of MongoDB's driver or server is an optional fault message, given to every store
  operation that can fail; the store swallows it where the code catches it (lookups answer
  None, deletes answer false or 0) and passes it on where it does not (the email lookup and
  the sweep raise, which the handlers turn into a 500);
- `JSON.parse` is a function parameter;
- the language model's replies and the vector search's outcome are inputs.

Where the code departs from its own declared types and docstrings, the model follows the code:

- The chat send never looks at `response.ok`. A JSON body from an error status is appended like
  a reply, so its `response` field may be absent (`ChatReply.response` is an `Option`).
- Any truthy JSON is shown as a structured answer. The code never checks for an object or an
  `explanation` field (`ChatCodec.ShapeIsNotChecked`).
- The citations block reads `source_title`, `quote` and `url`. The declared citation type
  (`text`, `url`) is not what is rendered.
- The session cookie carries the session document's ObjectId text. `generate_session_id` is
  defined (and modelled) but no endpoint calls it.
- Logout deletes every session of the user, not only the cookie's.
- The store swallows lookup and delete failures. An outage during the guard's session or user
  lookup is reported as "Invalid session" or "User not found". A failed delete at logout still
  answers success and clears the cookie, and the sessions may stay valid: the model takes a
  failed write to have had no effect, the one outcome of several the driver allows (see "## Left out").

## Model

| member | source | states |
|---|---|---|
| Basics.IsBlank | web/app/chat/page.tsx:46 | `!s.trim()` holds exactly when every character is ECMAScript white space |
| Basics.Lower | auth/database.py:65 | lower-casing keeps the length and lowers exactly the ASCII capitals, character by character |
| Basics.LowerIsIdempotent | auth/database.py:86 | a lower-cased string is lower-case and is left unchanged by lower-casing again, so lookups on stored emails are case-insensitive |
| Basics.Prefix | agent/agent_graph.py:76 | `s[:n]` is the whole string when it has at most n characters, and otherwise its first n characters (exactly n, a prefix of it) |
| Basics.JoinAppend | agent/agent_graph.py:44 | joining two non-empty lists of parts puts exactly one separator between the two joins |
| Hex.EncodeShape | auth/security.py:50 | hex text has two lower-case digits per byte |
| Hex.DecodeEncode | auth/security.py:43-50 | reading back the hex text of any bytes yields those bytes |
| Hex.DecodeDefined | auth/database.py:99 | a text without white space reads as bytes exactly when it has an even length and every character is a hex digit of either case |
| Hex.EncodeInjective | auth/security.py:43-50 | different byte strings have different hex texts |
| Security.VerifyHashed | auth/security.py:11-40 | with a sound bcrypt pair, a password verifies against a hash made from it, whatever the salt |
| Security.GenerateSessionId | auth/security.py:43-50 | a token is 64 lower-case hex digits that decode back to the 32 random bytes |
| Security.SessionExpiry | auth/security.py:53-63 | the expiry lies exactly `days` days after now, and not before it for a non-negative count |
| Security.FreshSessionIsValid | auth/security.py:66-76 | a new session is live, still live at its expiry instant, expired one second later |
| Security.ExpiryIsPermanent | auth/security.py:66-76 | once expired, a session stays expired as time goes on |
| AuthStore.IdText | auth/router.py:65 | `str(oid)` is 24 lower-case hex digits |
| AuthStore.ParseObjectId | auth/database.py:99 | `ObjectId(text)` accepts a text of 24 hex digits of either case, whose id is the 12 bytes they spell, and refuses every other text without white space |
| AuthStore.ParseIdText | auth/dependencies.py:48 | the text of an id always reads back as that id, so the `ObjectId(str(oid))` round trips never raise |
| AuthStore.IdTextInjective | auth/router.py:56 | two ids with the same text are the same id, so a cookie names one session |
| AuthStore.FindByEmail | auth/database.py:76-86 | a user is found exactly when some stored user has that email, and the user found is a stored user with that email |
| AuthStore.CleanupMatchesExpiry | auth/database.py:185 | the sweep's `$lt` filter removes a session exactly when `is_session_expired` holds for it |
| AuthStore.AuthDatabase.constructor | auth/database.py:37-46 | the store opens on collections where ids match keys, emails are lower-case and unique |
| AuthStore.AuthDatabase.CreateUser | auth/database.py:49-74 | inserts one user with the email lower-cased and both timestamps now; a taken email is refused with nothing changed; a write failure changes nothing |
| AuthStore.AuthDatabase.GetUserByEmail | auth/database.py:76-86 | a failure raises; otherwise it finds the stored user whose email equals the argument lower-cased, and finds one exactly when such a user exists |
| AuthStore.AuthDatabase.GetUserById | auth/database.py:88-101 | returns the user stored under the parsed id; None exactly for malformed text, an unknown id or a failed lookup |
| AuthStore.AuthDatabase.CreateSession | auth/database.py:104-129 | adds exactly one session for the parsed user id; malformed id text or a write failure leaves the sessions unchanged |
| AuthStore.AuthDatabase.GetSession | auth/database.py:131-144 | returns the session stored under the parsed id; None exactly for malformed text, an unknown id or a failed lookup |
| AuthStore.AuthDatabase.DeleteSession | auth/database.py:146-160 | true exactly when the session existed and the delete went through; only that session is removed; a failed delete answers false and changes nothing |
| AuthStore.AuthDatabase.DeleteUserSessions | auth/database.py:162-176 | removes exactly that user's sessions and returns how many; malformed text or a failed delete changes nothing and returns 0 |
| AuthStore.AuthDatabase.CleanupExpiredSessions | auth/database.py:178-186 | removes exactly the sessions that expired strictly before now, returns how many, and leaves no expired session; a failure raises and changes nothing |
| AuthDependencies.Check | auth/dependencies.py:11-56 | the first failing check decides (cookie, session, expiry, user); a user is returned only for an unexpired session of an existing user, and it is that session's owner |
| AuthDependencies.ErrorOf | auth/dependencies.py:24-54 | every refusal is a 401, and each of the four details belongs to exactly one failing check |
| AuthDependencies.ExpiredNeverAuthenticates | auth/dependencies.py:40-45 | a cookie naming an expired session is refused as expired, whatever the user table holds |
| AuthDependencies.LiveSessionAuthenticates | auth/dependencies.py:11-56 | a cookie naming a live session of an existing user authenticates as that user |
| AuthDependencies.Visible | auth/database.py:141-144 | a lookup that fails sees an empty collection; one that does not sees the whole collection |
| AuthDependencies.GuardVerdict | auth/dependencies.py:11-56 | the chain runs over what the lookups saw; with no failures its verdict is exactly `Check`'s |
| AuthDependencies.OutageLooksLikeMissing | auth/dependencies.py:31-54 | a failed session lookup is answered "Invalid session", a failed user lookup "User not found" for a live session, and an outage never authenticates |
| AuthDependencies.GetCurrentUser | auth/dependencies.py:11-56 | answers as the chain decides over what the lookups saw; users never change; sessions change only by deleting the expired session before "Session expired", which a failed delete skips |
| AuthDependencies.GetOptionalUser | auth/dependencies.py:59-75 | None wherever the guard refuses and the same user otherwise, with the same effect on the store |
| AuthRouter.ToResponse | auth/router.py:64-69 | the answer carries the id's text (which reads back as the id), email, name and creation time, and no hash |
| AuthRouter.SessionCookie | auth/router.py:54-61 | the cookie is `juris_session`, holds the session id's text, and lives exactly as long as the session |
| AuthRouter.NewSession | auth/router.py:46-51 | the session created at login or registration expires seven days later and is live now |
| AuthRouter.Register | auth/router.py:25-80 | short password 422; taken email 400; other failure 500 with the "Registration failed: " prefix; success adds one user and one session and sets the cookie; a session failure leaves the user created |
| AuthRouter.Login | auth/router.py:83-131 | a failing email lookup gives 500 with nothing created; unknown email and wrong password give the same 401 and create nothing; success adds one session for the found user and sets the cookie |
| AuthRouter.Logout | auth/router.py:134-156 | a refused cookie gives the guard's error; otherwise every session of the user is deleted, the cookie's own included, and the cookie is cleared; a failed delete gives the same answer and leaves every session, the cookie's own included, valid |
| AuthRouter.GetMe | auth/router.py:159-171 | the guard's user as an answer without the hash, or the guard's error |
| AuthRouter.CleanupSessions | auth/router.py:174-184 | reports the number of expired sessions removed, and removes exactly those; a failing sweep gives 500 and removes nothing |
| AuthRouter.RegisterThenLogin | auth/router.py:25-131 | with a sound hasher, a new account logs in at once under any capitalisation of its email, with the same answer, and then holds two sessions |
| AgentGraph.BlockText | agent/agent_graph.py:43 | a block contributes a text exactly when it is a dict with a `text` key |
| AgentGraph.TextParts | agent/agent_graph.py:43 | the comprehension yields at most one text per block |
| AgentGraph.TextPartsAppend | agent/agent_graph.py:43 | the comprehension distributes over concatenation, so texts keep block order |
| AgentGraph.TextPartsMembers | agent/agent_graph.py:43 | a text is kept exactly when some dict block carries it under `text` |
| AgentGraph.Flatten | agent/agent_graph.py:40-46 | a string reply is used as it is |
| AgentGraph.FlattenSingleText | agent/agent_graph.py:108-112 | blocks without text contribute nothing: one text-bearing block flattens to its text |
| AgentGraph.FlattenAppend | agent/agent_graph.py:43-44 | two block lists that each carry text flatten, side by side, to their texts joined by one space |
| AgentGraph.TwoTextsJoined | agent/agent_graph.py:108-110 | two text blocks around a block without text flatten to the two texts with one space between them |
| AgentGraph.FormatLawExcerpt | agent/agent_graph.py:75-77 | an entry names the source (or "Unknown Source") and shows the first 500 characters of the page, the whole page when shorter |
| AgentGraph.FormatAllAt | agent/agent_graph.py:73-77 | the i-th entry formats the i-th document |
| AgentGraph.ResearchResult | agent/agent_graph.py:53-86 | one entry per document in search order; exactly the no-case-law notice when nothing is found; exactly the database-error notice when the search fails |
| AgentGraph.ResearchNode | agent/agent_graph.py:73-84 | the appending loop and its fallback produce exactly the research result |
| AgentGraph.Merge | agent/agent_graph.py:14-19 | messages are concatenated; a key present in the update replaces the old value, and a key the update leaves out keeps it |
| AgentGraph.TriageNode | agent/agent_graph.py:26-48 | triage writes only `legal_issue`: the flattened reply |
| AgentGraph.DrafterNode | agent/agent_graph.py:88-117 | the draft is the flattened reply, and exactly one AI message with that text joins the history |
| AgentGraph.PathFrom | agent/agent_graph.py:120-129 | a path never contains END |
| AgentGraph.PipelineOrder | agent/agent_graph.py:126-129 | the graph visits triage, research, drafter in that order and ends |
| AgentGraph.InvokeResult | agent/agent_graph.py:120-131 | after one run the history has gained only the drafter's message, and each key holds what its node produced |
| ChatCodec.Decode | web/app/chat/page.tsx:88-104 | structured exactly when the content parses to a truthy value; otherwise prose with the content unchanged; never fails |
| ChatCodec.DecodeSerialized | web/app/chat/page.tsx:88-104 | a serialized answer object decodes back to that answer |
| ChatCodec.ShapeIsNotChecked | web/app/chat/page.tsx:80-104 | "1" is shown as a structured answer without an explanation, while "0" is shown as prose |
| ChatCodec.ListBlockShown | web/app/chat/page.tsx:144-177 | the sources block and the options block each appear exactly when their field is truthy and its `length` is positive: a non-empty array or string, or an object whose `length` key holds a positive number or true |
| ChatCodec.ExportShown | web/app/chat/page.tsx:205 | the export button appears exactly when `draft` is present and not null, false, 0 or "" |
| ChatCodec.CitationRowOf | web/app/chat/page.tsx:151-169 | a citation has no row exactly when it is null (reading its fields throws) or its `source_title` or `quote` holds an object, directly or inside an array (React refuses to render it); any other shows `source_title` and `quote`, and a link exactly when `url` is truthy |
| ChatCodec.CitationRows | web/app/chat/page.tsx:144-171 | no rows when the block is hidden; the rendering throws exactly when the block is shown for a string or an object, or some element has no row; otherwise one row per citation, in order |
| ChatCodec.RowsOf | web/app/chat/page.tsx:151 | the map gives one row per element in order, and throws exactly when some element has no row |
| ChatCodec.Dispatch | web/app/chat/page.tsx:182-188 | an action starting with "http" opens that URL; any other continues with "I select: " and the label, which is never blank |
| ChatSession.Submit | web/app/chat/page.tsx:45-63 | a blank input or a pending request changes nothing and sends nothing; otherwise the input becomes one user turn and the request, the box is cleared and the flag set |
| ChatSession.ReplyTurn | web/app/chat/page.tsx:64-73 | the assistant turn carries the reply's `response` and `debug_info`, or the apology without debug information when the transport threw |
| ChatSession.Complete | web/app/chat/page.tsx:66-76 | one assistant turn is appended and the flag released whatever the outcome; the box is not touched |
| ChatSession.InitialIsConsistent | web/app/chat/page.tsx:16-20 | the opening screen is the greeting alone, idle, and well-shaped |
| ChatSession.SubmitWhileLoadingIsIgnored | web/app/chat/page.tsx:46 | a submit while a request is pending is dropped, not queued |
| ChatSession.CycleKeepsShape | web/app/chat/page.tsx:45-77 | a send and its completion keep greeting-then-alternating turns and add exactly the user turn and the reply |
| ChatSession.RecoversAfterFailure | web/app/chat/page.tsx:71-76 | after a thrown send the next non-blank submit is accepted |
| ChatSession.ReplayAppends | web/app/chat/page.tsx:45-77 | after N sends the earlier log is kept, 2N turns are added, and each text is followed by the reply for its outcome |
| ChatSession.ConversationLength | web/app/chat/page.tsx:16-77 | from the opening screen N sends leave 1 + 2N turns, the greeting first |
| ChatSession.StarterCardsShown | web/app/chat/page.tsx:329 | on a well-shaped screen the starter cards show exactly when it is the opening screen, whatever is typed |
| ChatSession.StarterCardsUntilFirstSend | web/app/chat/page.tsx:329 | the cards show after a sequence of sends exactly when there were none |
| ChatSession.SendButtonEnabled | web/app/chat/page.tsx:401-403 | an enabled button always leads to an accepted submit, and with the disclaimer accepted a disabled one means the submit would be refused |
| ChatSession.RenderTurn | web/app/chat/page.tsx:308-312 | a user turn is shown verbatim; an assistant turn is decoded |
| ChatSession.OptionClick | web/app/chat/page.tsx:182-188 | intended click: a URL opens with nothing changed; otherwise "I select: label" is sent through the send guard, so while a request is pending nothing is sent and the label stays in the box |
| ChatSession.OptionClickAsWritten | web/app/chat/page.tsx:182-188 | as written: a URL opens with nothing changed; with a blank box or a pending request the label is put in the box and nothing is sent; otherwise the typed text is submitted as a send would submit it, in place of the label |
| ChatSession.AsWrittenNeverSendsLabel | web/app/chat/page.tsx:186-187 | as written, an idle non-URL click fills an empty box without sending, or sends the typed text instead of the label |
| ChatSession.SelectionAfterReply | web/app/chat/page.tsx:186-187 | after a reply, with an empty box: the intended click sends the label, the handler as written sends nothing |
| ChatSession.ChatSession.constructor | web/app/chat/page.tsx:16-22 | the first render: greeting alone, empty box, idle, no thread id, disclaimer not accepted |
| ChatSession.ChatSession.AssignThreadId | web/app/chat/page.tsx:26-28 | the mount effect sets the thread id once |
| ChatSession.ChatSession.AcceptDisclaimer | web/app/chat/page.tsx:263 | accepting the disclaimer sets its flag |
| ChatSession.ChatSession.EditInput | web/app/chat/page.tsx:389 | typing changes the box and nothing else |
| ChatSession.ChatSession.BeginSend | web/app/chat/page.tsx:45-63 | the new state and the request are exactly those of `Submit`, and the log keeps its shape |
| ChatSession.ChatSession.CompleteSend | web/app/chat/page.tsx:64-76 | the new state is exactly that of `Complete`, and the log keeps its shape |
| ChatSession.ChatSession.SelectOption | web/app/chat/page.tsx:182-188 | the new state and effect are exactly those of the intended `OptionClick` |
| ChatSession.ChatSession.ExportDraft | web/app/chat/page.tsx:106-130 | the conversation is untouched; an ok response creates the object URL, appends the anchor, gives exactly one download of Juris_Legal_Draft.pdf, then the URL is revoked and the anchor removed; anything else gives exactly one alert and no download |
| ChatSession.ClientScenario | web/app/chat/page.tsx:45-77 | a second press while the first request is pending sends nothing; after the reply the log is greeting, question, reply |

## Left out

- Network, React rendering, markdown rendering, CSS, the Saul toggle and toast, and the debug panel of the chat screen: presentation only.
- `crypto.randomUUID`, `secrets.token_hex`'s entropy, bcrypt's algorithm, `datetime.utcnow`, MongoDB's driver and the Gemini and Voyage models: foreign calls, modelled as parameters.
- The prompts sent to the language model are not modelled. Only the reply's shape and its flattening are.
- ChatSession.ChatSession.BeginSend: does not model the window between the two React state updates. A send before the mount effect has run is modelled: its request carries the empty thread id.
- Option buttons are built from an `OptionItem` with string fields. An `options` element that is null, has no string `action` (the click then throws), or has a non-string `label` (shown through JavaScript's string conversion, such as "I select: undefined") is not modelled. Neither is an `options` that is shown as a string or as an object with a positive `length`, whose `.map` throws.
- ChatSession.ChatSession.ExportDraft: takes the draft as a string. A truthy `draft` that is not a string (a number or an object) would be sent as that JSON value; this is not modelled.
- Basics.Lower: models Python's `str.lower()` on ASCII letters only. Other Unicode case mappings are not modelled.
- Basics.IsBlank: counts characters as code points. JavaScript's UTF-16 units are not modelled.
- AuthStore.AuthDatabase.CreateUser: uses one `now` for `created_at` and `updated_at`. The code reads the clock twice.
- Email syntax validation (`EmailStr`) is not modelled. The minimum password length of 8 from `auth/models.py` is modelled in `AuthRouter.Register`.
- AuthRouter.Login: a failing session write is reported as a plain 500, the framework's answer to an uncaught exception. Its message is not modelled.
- Logging is not modelled: `console.error` in the chat screen (web/app/chat/page.tsx:72 and :127) and the debug `print` calls of the pipeline (agent/agent_graph.py:58, :83 and :138) have no effect on state or results.
- AgentGraph.BlockText: a dict block's `text` is modelled as a string. A block whose `text` is None, a number or a list makes `" ".join` raise TypeError (agent/agent_graph.py:44 and :110), which fails the node and the whole run; this path is not modelled.
- ChatCodec.ListBlockShown and ChatCodec.CitationRows: an object whose `length` key holds a string or an array is compared by JavaScript's numeric conversion (`{"length": "2"}` shows the block); the model counts only a number or true as a positive `length`.
- Hex.Decode and AuthStore.ParseObjectId: `bytes.fromhex` skips white space between digit pairs, and `ObjectId(text)` checks only the length of 24 before calling it, so a text such as "00112233445566778899aa" followed by two spaces is accepted as an id of 11 bytes. The model refuses every text holding white space and has only 12-byte ids.
- AuthStore.AuthDatabase.CreateUser: a failed `insert_one` is modelled as a write that had no effect. The driver can raise after the server applied the insert, leaving the user stored.
- AuthStore.AuthDatabase.CreateSession: a failed `insert_one` is modelled as a write that had no effect. The session may in fact be stored.
- AuthStore.AuthDatabase.DeleteSession: a failed `delete_one` is modelled as removing nothing. The server may have deleted the session before the error reached the driver.
- AuthStore.AuthDatabase.DeleteUserSessions: a failed `delete_many` is modelled as removing nothing. It may have removed some or all of the user's sessions first.
- AuthStore.AuthDatabase.CleanupExpiredSessions: a failed sweep is modelled as removing nothing. An interrupted `delete_many` may have removed part of the expired sessions.
- AuthDependencies.GetCurrentUser: a failed delete of an expired session is modelled as leaving the sessions unchanged. The session may in fact be gone; the verdict is the same either way.
- AuthDependencies.GetOptionalUser: inherits the failed-delete modelling of `GetCurrentUser`. The session may in fact be gone.
- AuthRouter.Register: after a failed user or session write the collections are modelled as unchanged. The user or session may in fact be stored.
- AuthRouter.Login: after a failed session write the sessions are modelled as unchanged. The session may in fact be stored.
- AuthRouter.Logout: a failed `delete_many` is modelled as leaving every session of the user in place. Some or all of them may in fact be gone.
- AuthRouter.CleanupSessions: a failed sweep is modelled as removing nothing. Part of the expired sessions may in fact be gone.
- Datetime precision and time zones are not modelled: times are whole seconds.
- The stream-printing `__main__` block of the pipeline is not modelled: it is demonstration code.
- `critique` is never written by any node. The model carries it through unchanged.

## Findings

| source | as written | input that shows it | evidently intended | confidence | as-written member | corrected member |
|---|---|---|---|---|---|---|
| web/app/chat/page.tsx:186-187 | the click calls `setInput("I select: ...")` and then `sendMessage()`, which reads `input` and `isLoading` from the render the button belongs to | an idle screen after a structured reply, with an empty box; click a non-URL option | the label is sent as the next user message | not executed | ChatSession.SelectionAfterReply | ChatSession.OptionClick |
