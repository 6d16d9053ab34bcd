# chatbot-ia, modelled in Dafny

This project models the rules of the chatbot-ia academic help desk. It has two halves.

The first half is the FastAPI backend:
- a student's conversations with the assistant, and the detection of a request to speak to a person;
- escalation to a human agent, and the agent requests that agents claim and resolve;
- the calendar activities and the notification ledger;
- the reminder scheduler, which mails an owner 24 hours before an activity;
- the quick-solutions catalogue and the academic chatbot's knowledge-base matching;
- the image messages and the image store's public ids;
- the websocket rooms of a conversation;
- the session, registration and user-info lookups.

The second half is the decision and list-update logic of the Next.js frontend:
- the chat boxes of the student and the agent;
- the conversation history, the calendar and its month grid;
- the notifications pages and the client-side notification generator;
- the escalation board, the agents' request list and the quick-solutions page;
- the edge middleware and the role redirects.

The Supabase datastore is a set of in-memory tables, one sequence of rows per table, kept in insertion order. They live in `ChatTables`, `ActivityTables` and `QuickSolutions.SolutionsDb`.

Time is an integer passed in as a parameter:
- backend instants are seconds on the scale of `Civil.ToSeconds`;
- frontend instants are milliseconds since the epoch.

Every call that leaves the program is a parameter that carries its outcome:
- the language model, the mailer and the `get_user_email` directory;
- the image uploader and `destroy`;
- `fetch` and the API wrappers, and the websocket sends.

Code that changes state step by step is modelled as a class or a method. This covers the backend services that write tables, the connection manager and the React hooks that hold list state. Each such method's `ensures` ties its new state to a specification function, and the lemmas state the source's promises about those functions.

The one-way life of an agent request (pending, then in progress, then resolved) is modelled as the source writes it:
- a pending check;
- then a write keyed on the id alone;
- the route's guard that refuses a second active case.

Under sequential execution, "at most one case in progress per agent" is an invariant of the guarded claim (`AgentRoutes.TakeKeepsOneActive`). The unguarded write breaks it (`AgentService.UnguardedClaimBreaksOneActive`).

Some behaviours the model keeps as the source has them:
- The backend detects a hand-off with a case-insensitive substring test. Any message containing "agente" (even "reagente") escalates (`ConversationService.AgenteAnywhereTriggers`). The student chat box only hands off on the exact word "agente" (`ChatInterface.HandOffIsExact`).
- The scheduler treats a ledger row without an `email_sent` field as sent (`Scheduler.MissingFlagCountsAsSent`).
- A conversation titled "Nueva conversación" is never auto-titled, because the automatic title only replaces an empty title (`ConversationService.DefaultTitleNeverAutoTitled`).
- The notifications page raises its unread counter on "mark as unread" without checking that the notification was read (`SystemNotifications.MarkUnreadOfUnreadOvercounts`).
- The middleware guards by prefix, so "/chatx" is guarded too (`Middleware.PrefixGuardsMoreThanPages`).
- Activity routes store times cut to "HH:MM". The scheduler parses "%Y-%m-%d %H:%M:%S", so such a row, if stored verbatim, is never due (`Scheduler.ShortTimeNeverDue`).

## Model

| member | source | states |
|---|---|---|
| `Civil.ParseFormatDateTime` | backend/app/services/scheduler_service.py:145-149 | parsing with "%Y-%m-%d %H:%M:%S" reads back every valid date-time in its "YYYY-MM-DD HH:MM:SS" form |
| `Civil.ShortTimeNeverParses` | backend/app/services/activity_service.py:208-216 | a date followed by a five-character "HH:MM" time never parses: the format needs the seconds |
| `Strings.Lower` | backend/app/services/conversation_service.py:385 | `str.lower()`: the same length, each character lower-cased on its own |
| `WebSocketRoutes.ConnectionManager.constructor` | backend/app/routes/websocket_routes.py:30-31 | a manager starts with no rooms |
| `Retry.Delays` | backend/app/services/agent_service.py:36-47 | the wait after failed attempt i is 0.5·(i+1) s, one wait per retried attempt, so the waits grow linearly |
| `Retry.FirstSettled` | backend/app/services/agent_service.py:38-57 | the loop stops at the first attempt that does not fail with a connection error, and every earlier attempt did fail that way |
| `Retry.ExecuteWithRetry` | backend/app/services/agent_service.py:24-57 | `execute_with_retry` as written: its outcome, its number of calls and its sleeps are those of the retry policy, with no sleep after the last attempt |
| `Retry.FirstSettledAt` | backend/app/services/agent_service.py:38-57 | the attempt the loop stops at is unique: the first one that is not a connection error |
| `Retry.CallsBounded` | backend/app/services/agent_service.py:38 | the operation runs at most `max_retries` times, and at least once when `max_retries` > 0 |
| `Retry.FirstCallSucceeds` | backend/app/services/agent_service.py:39-40 | a first call that succeeds returns its value after one call and no wait |
| `Retry.FatalNotRetried` | backend/app/services/agent_service.py:54-57 | an error other than ReadError/ConnectError/TimeoutException propagates on its first occurrence, after one call |
| `Retry.AllTransientUnavailable` | backend/app/services/agent_service.py:48-53 | connection errors on every attempt use all `max_retries` calls and end in 503, never in a value |
| `Retry.ReturnedIsFirstSuccess` | backend/app/services/agent_service.py:38-47 | a returned value is that of a successful call preceded only by connection errors |
| `Retry.DefaultScheduleTotal` | backend/app/services/agent_service.py:24-47 | with the default three attempts the waits are 500 ms and then 1000 ms |
| `ChatTables.FindConversation` | backend/app/services/conversation_service.py:44-62 | the conversation found has the requested id and is owned by the caller; none is found only when no such row exists |
| `ChatTables.ConversationById` | backend/app/services/agent_service.py:236-258 | the conversation row with the given id, whoever owns it; none only when no row has that id |
| `ChatTables.FindProfile` | backend/app/services/agent_service.py:101-113 | the profile found has the requested id; none only when no profile has it |
| `ChatTables.MessagesByTime` | backend/app/services/agent_service.py:474-485 | one conversation's messages in ascending timestamp order, and a permutation of exactly that conversation's messages |
| `AgentService.CreatedDescTotal` | backend/app/services/agent_service.py:87 | ordering by `created_at` descending is a total preorder, so the listing order is well defined |
| `AgentService.ListedExactlyVisible` | backend/app/services/agent_service.py:87-96 | a request is listed iff it is pending or in progress for the caller, and the list is newest first |
| `AgentService.GetAgentRequests` | backend/app/services/agent_service.py:60-150 | the loop builds one entry per listed request, in order; a request whose conversation or owner profile is missing makes the call fail with 500; the user name is the profile's `full_name` as read |
| `AgentService.LastMessageIsNewest` | backend/app/services/agent_service.py:115-126 | `message_count` is the number of the conversation's messages; `last_message` is None iff there are none, and otherwise is the content of a message no other message of that conversation postdates |
| `AgentService.ActiveCaseOf` | backend/app/services/agent_service.py:160-182 | the active case is an in-progress request held by the agent; there is none iff the agent holds no in-progress request |
| `AgentService.GetActiveCase` | backend/app/services/agent_service.py:153-224 | no case iff the agent holds no in-progress request; a failure is 500 (missing conversation or owner profile); otherwise the case's conversation is the request's, the user is the conversation's owner with the name from that owner's profile row, and its messages are that conversation's, oldest first |
| `AgentService.PendingRequest` | backend/app/services/agent_service.py:236-255 | the pre-write check finds a row with that id that is pending, and finds none iff no such row exists |
| `AgentService.AssignWrite` | backend/app/services/agent_service.py:349-362 | the claim write sets agent, in_progress and the timestamps on every row with that id, without re-checking the status, and leaves all other rows alone |
| `AgentService.NoticeFor` | backend/app/services/agent_service.py:286-339 | an assignment e-mail exists iff the directory gave a non-empty address, and it goes to that address for that conversation; the agent's name is the profile's `full_name` as read (None for a null column), and the user's is a non-empty RPC name, otherwise the profile's `full_name` as read |
| `AgentService.AssignOutcome` | backend/app/services/agent_service.py:227-289 | 404 exactly when the request is not pending; success exactly when the request is pending and its conversation and both profiles exist, 500 otherwise; on success a notice iff the address is non-empty, for that conversation and with the agent's profile name |
| `AgentService.AssignRequestToAgent` | backend/app/services/agent_service.py:227-418 | the answer is `AssignOutcome` of the old tables: no write on 404 or 500 (a missing conversation or profile); otherwise the write happens, and a failed or skipped e-mail never undoes it; an e-mail goes out only with a notice and a working mailer |
| `AgentService.ClaimMovesForward` | backend/app/services/agent_service.py:236-362 | with unique ids a claim moves exactly the claimed request from pending to in_progress for the caller, and no row's status moves backwards |
| `AgentService.ResolvableRequest` | backend/app/services/agent_service.py:429-442 | the resolve check finds a row only when id, agent and in_progress all match, and finds none iff no such row exists |
| `AgentService.ResolveWrite` | backend/app/services/agent_service.py:448-454 | resolving sets `resolved`, `resolved_at` and `updated_at` on the rows with that id and nothing else |
| `AgentService.MarkConversationResolved` | backend/app/services/agent_service.py:457-463 | the request's conversation gets `resolved=True` with its timestamps; other conversations are untouched |
| `AgentService.ResolveRequest` | backend/app/services/agent_service.py:421-471 | 404 and no write unless the caller holds the request in progress; otherwise the request is resolved and its conversation marked resolved |
| `AgentService.ResolveMovesForward` | backend/app/services/agent_service.py:429-454 | only the request the caller holds in progress becomes resolved, and no row's status moves backwards |
| `AgentService.GuardedClaimKeepsOneActive` | backend/app/services/agent_service.py:349-362 | a claim by an agent with no active case keeps "at most one in-progress request per agent" and unique ids |
| `AgentService.ResolveKeepsOneActive` | backend/app/services/agent_service.py:448-454 | resolving never gives an agent a second active case |
| `AgentService.UnguardedClaimBreaksOneActive` | backend/app/services/agent_service.py:349-362 | the claim write alone, without the route's guard, can give an agent two in-progress requests |
| `AgentService.SendAgentMessage` | backend/app/services/agent_service.py:494-513 | the agent's text is appended as an assistant message of that conversation, and the other tables are unchanged |
| `AgentRoutes.CurrentAgent` | backend/app/routes/agent_routes.py:30-39 | the caller passes iff their profile exists with role "agent"; a missing profile is 404 and any other role is 403 |
| `AgentRoutes.ActiveCaseEndpoint` | backend/app/routes/agent_routes.py:53-62 | the role guard's error passes through; past the guard the answer is the active-case lookup's own outcome, with no case turned into 404; a returned case is one the agent holds |
| `AgentRoutes.TakeRequest` | backend/app/routes/agent_routes.py:65-81 | after the role guard, 400 and no assignment when the agent already has an active case; otherwise the answer is `AssignOutcome` of the old tables (404, 500, or the notice) and the e-mail follows it |
| `AgentRoutes.TakeKeepsOneActive` | backend/app/routes/agent_routes.py:72-80 | under sequential execution every take keeps at most one in-progress request per agent |
| `AgentRoutes.ResolveEndpoint` | backend/app/routes/agent_routes.py:84-91 | the caller's own id is passed to resolve: role guard, then 404 unless they hold the request, else both writes |
| `AgentRoutes.OnlyHolderResolves` | backend/app/routes/agent_routes.py:84-91 | a row changed by the endpoint was held in progress by the caller and is now resolved; the one-active invariant is kept |
| `AgentRoutes.SendMessageEndpoint` | backend/app/routes/agent_routes.py:103-120 | the role guard's and the active-case lookup's errors pass through; a message is inserted only into the conversation of the caller's active case, and there it is always inserted: the assistant message with the given id, text and time; otherwise 403 and nothing is inserted |
| `AgentRoutes.GetRequestsEndpoint` | backend/app/routes/agent_routes.py:43-50 | the role guard, then the listing of `get_agent_requests` |
| `Auth.GetUserFromToken` | backend/app/services/auth_services.py:8-16 | a user iff the lookup gave one; any other outcome is 401 |
| `Auth.RegisterUser` | backend/app/services/auth_services.py:19-41 | no created user is 400 with no insert; otherwise one profile row with the given name and role is added, the role "user" when none is passed |
| `Auth.LoginUser` | backend/app/services/auth_services.py:44-61 | a session gives its token; 401 iff the error text contains "Invalid login credentials"; every other failure is 400 |
| `Auth.WrappedCredentialsErrorIs401` | backend/app/services/auth_services.py:57-60 | the credentials message is recognised anywhere inside the provider's error text |
| `Auth.MergeUserInfo` | backend/app/services/auth_services.py:88-90 | the merged record has the keys of both; the profile's value wins on a shared key |
| `Auth.GetUserInfo` | backend/app/services/auth_services.py:64-108 | the loop's outcome, calls and waits follow the three-attempt retry policy, with 1 to 3 fetches |
| `Auth.ProfileFoundFirst` | backend/app/services/auth_services.py:77-90 | a profile found on the first fetch gives the merged record at once |
| `Auth.MissingProfileIs404` | backend/app/services/auth_services.py:85-86 | a missing profile is 404 after one fetch, not retried |
| `Auth.ThreeConnectionErrorsAre503` | backend/app/services/auth_services.py:92-104 | three connection errors end in 503 after waits of 0.5 s and 1 s |
| `Auth.ResultHasProfileFields` | backend/app/services/auth_services.py:85-90 | a successful result carries every field of a fetched profile unchanged |
| `ConversationService.AnyPhraseIn` | backend/app/services/conversation_service.py:386 | true iff some phrase of the list occurs in the text as a substring |
| `ConversationService.DetectEscalationRequest` | backend/app/services/conversation_service.py:353-386 | true iff one of the 21 listed phrases occurs in the lower-cased message |
| `ConversationService.DetectionSurvivesContext` | backend/app/services/conversation_service.py:386 | a triggering message still triggers with any text added before or after it |
| `ConversationService.DetectionIgnoresCase` | backend/app/services/conversation_service.py:385-386 | a message triggers iff its lower-cased form does |
| `ConversationService.AgenteAnywhereTriggers` | backend/app/services/conversation_service.py:379-386 | any text containing "agente", even inside a longer word, triggers |
| `ConversationService.ExampleUpperCase` | backend/tests/test_escalation.py:44-54 | "AGENTE" triggers |
| `ConversationService.ExampleSentence` | backend/tests/test_escalation.py:44-54 | "necesito hablar con un agente" triggers |
| `ConversationService.PhrasesAreLong` | backend/app/services/conversation_service.py:358-383 | every listed phrase has at least 6 characters |
| `ConversationService.ShortMessageNeverEscalates` | backend/app/services/conversation_service.py:358-386 | a message shorter than 6 characters never triggers |
| `ConversationService.NewConversation` | backend/app/services/conversation_service.py:18-28 | the inserted row belongs to the caller, with the default title and not escalated |
| `ConversationService.CreateConversation` | backend/app/services/conversation_service.py:12-41 | exactly one row, the new conversation, is appended to the conversations table |
| `ConversationService.SaveMessage` | backend/app/services/conversation_service.py:125-162 | exactly one message row, with the given role, content and type and stamped now, is appended |
| `ConversationService.ConversationMessages` | backend/app/services/conversation_service.py:165-185 | min(count, `limit`) of that conversation's messages, oldest first, with none left out older than one kept; all of them when there are no more than `limit` |
| `ConversationService.CleanTitle` | backend/app/services/conversation_service.py:243-247 | the cleaned title is at most 100 characters and is a piece of the model's reply |
| `ConversationService.CleanTitleIsSlice` | backend/app/services/conversation_service.py:243-247 | stripping blanks, then '"', then "'", then cutting to 100 characters yields a piece of the reply |
| `ConversationService.CleanTail` | backend/app/services/conversation_service.py:245-247 | the last strip and the cut keep the text a piece of the reply |
| `ConversationService.CleanTitleKeepsCleanReply` | backend/app/services/conversation_service.py:243-247 | a short reply with no surrounding blanks or quotes is kept unchanged |
| `ConversationService.GenerateTitle` | backend/app/services/conversation_service.py:209-251 | no title iff the conversation has fewer than two messages; otherwise a piece of the reply of at most 100 characters |
| `ConversationService.DefaultTitleNeverAutoTitled` | backend/app/services/conversation_service.py:23 | a conversation created with the default title never passes the auto-title guard, whatever its message count |
| `ConversationService.SetTitle` | backend/app/services/conversation_service.py:259-264 | the rows with that id get the new title and `updated_at`; every other row is unchanged |
| `ConversationService.UpdateConversationTitle` | backend/app/services/conversation_service.py:254-270 | true iff a row has that id; the table is the title update of the old one |
| `ConversationService.AutoGenerateTitleIfNeeded` | backend/app/services/conversation_service.py:273-302 | the table after auto-titling is the title function of the old tables and the model's reply; the other tables are unchanged |
| `ConversationService.AutoTitleKeepsExistingTitle` | backend/app/services/conversation_service.py:288-290 | a conversation that already has a title is left untouched |
| `ConversationService.AutoTitleChangesOnlyTitle` | backend/app/services/conversation_service.py:296-299 | auto-titling changes only the title and `updated_at` of that conversation's rows |
| `ConversationService.EscalateRows` | backend/app/services/conversation_service.py:310-321 | the rows with that id get `is_escalated`, `escalated_at` and `updated_at`; every other row is unchanged |
| `ConversationService.EscalateConversation` | backend/app/services/conversation_service.py:305-327 | true iff a row has that id; the table is the escalation update of the old one |
| `ConversationService.EscalationFlag` | backend/app/services/conversation_service.py:24 | new conversations are not escalated, and after escalating the target is escalated with that time |
| `ConversationService.RateRows` | backend/app/services/conversation_service.py:339-344 | the rated message gets the rating and `rated_at`; other messages are unchanged |
| `ConversationService.RateMessage` | backend/app/services/conversation_service.py:330-350 | a rating other than "up"/"down" yields false and writes nothing; otherwise the rating is written and the result is true iff the message exists |
| `ConversationService.Preview` | backend/app/services/conversation_service.py:110-114 | a content of at most 100 characters is kept; a longer one is cut to 100 characters plus "..." |
| `ConversationService.PreviewBounded` | backend/app/services/conversation_service.py:110-114 | a preview has at most 103 characters and starts with the first 100 characters of the content |
| `ConversationService.LatestNonGreetingIsNewest` | backend/app/services/conversation_service.py:97-116 | the preview comes from the conversation's newest non-greeting message, and is absent only when there is none |
| `ConversationService.UserConversations` | backend/app/services/conversation_service.py:72-79 | min(count, `limit`) of the user's own conversations, most recent activity first; none left out is more recent than one kept |
| `ConversationService.GetUserConversations` | backend/app/services/conversation_service.py:66-122 | the loop enriches each selected conversation, in order, with its message count and preview |
| `ConversationService.SummaryPreviewBounded` | backend/app/services/conversation_service.py:88-116 | every listed preview is at most 103 characters, and absent iff the conversation has no non-greeting message |
| `ConversationService.DeleteConversation` | backend/app/services/conversation_service.py:389-408 | the conversation's messages and then its row are removed, and the call reports success |
| `ConversationService.DeletionIsExact` | backend/app/services/conversation_service.py:396-406 | after deletion nothing of the conversation remains and every other row survives |
| `ConversationRoutes.OwnedConversation` | backend/app/routes/conversation_routes.py:101-108 | the endpoint goes on iff there is a session user who owns the conversation; otherwise 401 without a user, else 404 |
| `ConversationRoutes.ValidateTitle` | backend/app/routes/conversation_routes.py:189-204 | a title is accepted iff it is not blank and the untrimmed text has at most 100 characters; the trimmed text is what is stored, and anything else is 400 |
| `ConversationRoutes.RatingReply` | backend/app/routes/conversation_routes.py:228-235 | the thank-you text is given iff the rating is "up" |
| `ConversationRoutes.AddMessage` | backend/app/routes/conversation_routes.py:91-132 | 401, 404 and then 400 for a role other than user/assistant, each with nothing written; otherwise the message is saved, and auto-titling runs only after a user message |
| `ConversationRoutes.EscalateRoute` | backend/app/routes/conversation_routes.py:135-168 | after 401/404, the conversation is escalated, and only then is a non-empty message saved as a user message of type "escalation" |
| `ConversationRoutes.UpdateTitleRoute` | backend/app/routes/conversation_routes.py:171-204 | after 401/404 the title check decides: a bad title writes nothing, a good one stores and returns the trimmed title |
| `ConversationRoutes.StoredTitlesAreClean` | backend/app/routes/conversation_routes.py:189-199 | a stored title is never blank, has at most 100 characters and is the trimmed input |
| `ConversationRoutes.RateMessageRoute` | backend/app/routes/conversation_routes.py:207-235 | 401 without a user, 400 for a rating other than up/down, each with no write; otherwise the write happens and a missing message is 500 |
| `ConversationRoutes.RequestsOf` | backend/app/routes/conversation_routes.py:260-265 | exactly the conversation's agent requests, from the requests table |
| `ConversationRoutes.AgentName` | backend/app/routes/conversation_routes.py:278-288 | no agent name unless the request names an agent; a name found is that agent's profile name |
| `ConversationRoutes.GetEscalationStatus` | backend/app/routes/conversation_routes.py:238-298 | after 401/404 the record copies the conversation's flags; `agent_request` is None iff no request row exists, and otherwise describes the first one |
| `Scheduler.MinuteStart` | backend/app/services/scheduler_service.py:63-65 | the tick's time is truncated to the start of its minute: a multiple of 60 s, at most `now` and less than a minute before it |
| `Scheduler.TickWindowIsMinuteAhead` | backend/app/services/scheduler_service.py:66-67 | an instant is in the tick's window iff it lies in the minute that starts exactly 24 h after the tick's minute |
| `Scheduler.ConsecutiveWindowsMeet` | backend/app/services/scheduler_service.py:66-67 | one tick's window ends exactly where the next minute's tick's window starts |
| `Scheduler.TicksTileTime` | backend/app/services/scheduler_service.py:63-67 | with one tick per minute every instant lies in the window of exactly one minute's tick: no gap and no overlap |
| `Scheduler.ActivitiesInWindow` | backend/app/services/scheduler_service.py:117-172 | the loop keeps exactly the rows the query and the exact half-open window accept: not completed, parseable, and with `start <= t < end` |
| `Scheduler.UnparseableNeverDue` | backend/app/services/scheduler_service.py:168-172 | a row whose date-time does not parse as `%Y-%m-%d %H:%M:%S` is skipped, never reminded |
| `Scheduler.ShortTimeNeverDue` | backend/app/services/scheduler_service.py:145-149 | a time stored as HH:MM, without seconds, never parses, so that activity is never reminded |
| `Scheduler.CompletedNeverDue` | backend/app/services/scheduler_service.py:122 | a completed activity is never reminded |
| `Scheduler.HasReminderBeenSent` | backend/app/services/scheduler_service.py:200-237 | the scan answers true iff some reminder row of the activity has a truthy `email_sent` or lacks the key |
| `Scheduler.MissingFlagCountsAsSent` | backend/app/services/scheduler_service.py:226-228 | a reminder row without `email_sent` counts as sent, though no mail is recorded |
| `Scheduler.LocalPart` | backend/app/services/scheduler_service.py:276 | the name fallback is the text before the first "@" of the address |
| `Scheduler.UserContact` | backend/app/services/scheduler_service.py:239-294 | a contact exists iff the directory gave a row with a non-empty e-mail; its name is the full name, else the e-mail's local part |
| `Scheduler.ReminderFor` | backend/app/services/scheduler_service.py:176-192 | an activity is kept iff it is not already reminded, has an owner, and the owner's e-mail resolves |
| `Scheduler.Recipients` | backend/app/services/scheduler_service.py:174-194 | the reminders are exactly those of the due rows that qualify, in order |
| `Scheduler.AttachOwners` | backend/app/services/scheduler_service.py:174-194 | the loop that attaches each owner's contact builds exactly those reminders |
| `Scheduler.RemindedNeverRecipient` | backend/app/services/scheduler_service.py:180-185 | an activity already reminded is dropped before any mail is sent |
| `Scheduler.ReminderRow` | backend/app/services/scheduler_service.py:362-381 | the written row is an unread, undismissed reminder with `email_sent=True` |
| `Scheduler.FirstReminderRow` | backend/app/services/scheduler_service.py:354-360 | the row updated is the first reminder row of the activity; there is none iff no such row exists |
| `Scheduler.UpsertMarksSent` | backend/app/services/scheduler_service.py:341-398 | after the upsert the activity counts as reminded; with unique ids, reminded activities stay reminded and ids stay unique |
| `Scheduler.SentCountIsSuccesses` | backend/app/services/scheduler_service.py:89-92 | the tick's count is the number of reminders whose mail succeeded |
| `Scheduler.SendAllStep` | backend/app/services/scheduler_service.py:90-92 | each loop step writes the ledger of one reminder and adds one to the count iff its mail went out |
| `Scheduler.NoMailNoWrite` | backend/app/services/scheduler_service.py:316-333 | when no mail goes out the ledger is unchanged and the count is 0 |
| `Scheduler.SendAllMarksSent` | backend/app/services/scheduler_service.py:321-327 | every reminder that was mailed now counts as sent, reminded activities stay reminded, and ids stay unique |
| `Scheduler.SendReminder` | backend/app/services/scheduler_service.py:296-339 | the result is whether the mail went out, and the ledger is written only then |
| `Scheduler.CheckAndSendReminders` | backend/app/services/scheduler_service.py:49-99 | one tick leaves the activities table unchanged, adds the ledger rows of the mailed reminders and returns how many went out |
| `Scheduler.RerunOnlyRetriesFailures` | backend/app/services/scheduler_service.py:180-185 | a second run over the same rows mails only reminders whose first mail failed |
| `Scheduler.NoRecipients` | backend/app/services/scheduler_service.py:174-194 | no reminder is built when no due row qualifies |
| `Scheduler.RerunAfterFullSuccessSendsNothing` | backend/app/services/scheduler_service.py:200-237 | once every reminder has been mailed, a re-run builds no reminder, sends nothing and leaves the ledger as it is |
| `ActivityTables.FindActivity` | backend/app/services/activity_service.py:82-91 | the row found matches (id, user_id); none iff no row matches |
| `ActivityService.WithSeconds` | backend/app/services/activity_service.py:126-130 | on create a time with exactly one ':' (two fields) gets ":00" appended; any other time is kept |
| `ActivityService.LastThree` | backend/app/services/activity_service.py:210 | `s[-3:]` has three characters, or all of a shorter text |
| `ActivityService.ShortTimeOneColon` | backend/app/services/activity_service.py:126-128 | an "HH:MM" time has exactly one colon, so create completes it |
| `ActivityService.CreateTextOfShortTime` | backend/app/services/activity_service.py:126-135 | on create a valid "HH:MM" on a valid date parses to that minute |
| `ActivityService.UpdateShortTimeAlwaysFails` | backend/app/services/activity_service.py:208-215 | as written, an update whose time has the "HH:MM" shape (five characters, colon third) never parses, so it always raises ValueError |
| `ActivityService.UpdateShortTimeParses` | backend/app/services/activity_service.py:208-215 | with the corrected completion the same update parses to the intended minute |
| `ActivityService.PlanCreate` | backend/app/services/activity_service.py:123-154 | accepted iff the date-time parses and is not before now (equal is allowed), else ValueError; the new row is not completed, keeps the given fields and the time text as given, and has a fresh id |
| `ActivityService.CreateBoundary` | backend/app/services/activity_service.py:141 | a date-time equal to now is accepted, and one second earlier than now is not |
| `ActivityService.CreateActivity` | backend/app/services/activity_service.py:97-172 | the table gains exactly the planned row, or is unchanged on ValueError |
| `ActivityService.PlanUpdate` | backend/app/services/activity_service.py:197-226 | a completed activity accepts only an update that un-completes it; a supplied date or time is checked with the text as written, so an "HH:MM" time, or a date alone on a row stored as "HH:MM", always raises ValueError; an accepted update keeps id, owner and creation time, stamps `updated_at`, takes exactly the supplied fields, and never moves the activity into the past |
| `ActivityService.PlanUpdateIntended` | backend/app/services/activity_service.py:197-226 | the corrected update: accepted iff the completed-activity rule allows it and a supplied date-time, completed as on create, is not before now |
| `ActivityService.RescheduleIntendedVersusAsWritten` | backend/app/services/activity_service.py:203-220 | moving a pending activity to a valid future day and "HH:MM" minute is accepted and stored by the corrected update, and refused with ValueError by the update as written |
| `ActivityService.UpdateActivity` | backend/app/services/activity_service.py:174-248 | an error and no write when no row matches (id, user_id); ValueError and no write when the checks as written fail; otherwise every matching row is updated |
| `ActivityService.Marked` | backend/app/services/activity_service.py:265-269 | the completion flag is as requested, and `completed_at` is present exactly when completing; the activity's data is kept |
| `ActivityService.MarkKeepsCompletedAtInStep` | backend/app/services/activity_service.py:265-269 | marking keeps "`completed_at` is set iff the row is completed" true of every row |
| `ActivityService.MarkActivityCompleted` | backend/app/services/activity_service.py:250-290 | an error and no write when no row matches; otherwise the matching rows are marked and the marked row returned |
| `ActivityService.DeleteRemovesExactly` | backend/app/services/activity_service.py:304-310 | after deleting no row matches (id, user_id), every other row survives, and a match makes the table shorter |
| `ActivityService.DeleteActivity` | backend/app/services/activity_service.py:292-320 | true iff a row matched (an error otherwise); the table keeps exactly the rows that do not match, in order |
| `ActivityRoutes.TwoDigits` | backend/app/routes/activity_routes.py:23-25 | two digit characters denote ten times the first plus the second |
| `ActivityRoutes.TwoDigitsDetermined` | backend/app/routes/activity_routes.py:23-25 | two-digit text is determined by its value |
| `ActivityRoutes.ValidTimeIsClockTime` | backend/app/routes/activity_routes.py:23-25 | a time the pattern accepts names a real clock time: hour below 24, minute and second below 60 |
| `ActivityRoutes.ClockTimeIsValid` | backend/app/routes/activity_routes.py:37-39 | every clock time written "HH:MM" or "HH:MM:SS" is accepted by the pattern |
| `ActivityRoutes.CutTime` | backend/app/routes/activity_routes.py:127-130 | an accepted time longer than 5 characters is cut to its first 5, which are still an accepted "HH:MM" |
| `ActivityRoutes.CreateActivityRoute` | backend/app/routes/activity_routes.py:106-147 | 422 for a body outside the field constraints, then 401 without a session user, each with no write; otherwise the service runs on the cut time, and its failures become 500 |
| `ActivityRoutes.CreateStoresShortTime` | backend/app/routes/activity_routes.py:127-140 | through the endpoint every stored time is an accepted "HH:MM" and every stored type is one of the five kinds |
| `ActivityRoutes.CreateRouteAcceptsFuture` | backend/app/routes/activity_routes.py:127-140 | a valid create is accepted exactly when its day and minute are not before now |
| `ActivityRoutes.Updates` | backend/app/routes/activity_routes.py:203-215 | only the supplied fields are forwarded, the date as ISO text and the time cut to an accepted "HH:MM" |
| `ActivityRoutes.UpdateActivityRoute` | backend/app/routes/activity_routes.py:183-225 | 422, then 401, each with no write; a service failure becomes 500 with no write; every patch carrying a time, and a date-only patch when the stored times are "HH:MM", ends in 500; otherwise the answer is the planned row of the caller's matching activity (500 when none matches or the plan fails), and after success the table is the old one with that row updated in place |
| `ActivityRoutes.CompleteActivityRoute` | backend/app/routes/activity_routes.py:228-258 | 401 without a user; otherwise success iff a row matches, with `completed_at` set exactly when completing, and 500 with no write when none matches; on success the answer is the caller's matching row marked, and the table is the old one with that row marked |
| `ActivityRoutes.DeleteActivityRoute` | backend/app/routes/activity_routes.py:261-288 | 401 without a user; otherwise the table is exactly the old one without the caller's rows with that id, and nothing matched is 500 |
| `ActivityTables.FindNotification` | backend/app/services/notification_service.py:76-106 | the row found matches (id, user_id); none iff no row matches |
| `NotificationService.NewerFirstIsTotal` | backend/app/services/notification_service.py:53 | ordering by `created_at` descending is a total preorder |
| `NotificationService.GetNotifications` | backend/app/services/notification_service.py:27-74 | the caller's rows passing every supplied filter, newest first, as many as match up to `limit`; no row left out is newer than one returned; all of them when they fit |
| `NotificationService.UnreadCount` | backend/app/services/notification_service.py:108-132 | the count is 0 exactly when none of the caller's rows is both unread and undismissed |
| `NotificationService.UpdateOwned` | backend/app/services/notification_service.py:150-163 | the shared shape of the flag updates: an error and no write when no row matches (id, user_id), else the matching rows are changed and the first is returned |
| `NotificationService.MarkAsRead` | backend/app/services/notification_service.py:134-169 | only `is_read` becomes true, on the (id, user_id) rows; an error and no write when none matches |
| `NotificationService.MarkAsUnread` | backend/app/services/notification_service.py:171-206 | only `is_read` becomes false, on the (id, user_id) rows; an error and no write when none matches |
| `NotificationService.DismissNotification` | backend/app/services/notification_service.py:241-277 | both `is_dismissed` and `is_read` become true on the matching rows; an error and no write when none matches |
| `NotificationService.RestoreNotification` | backend/app/services/notification_service.py:279-314 | only `is_dismissed` is cleared, leaving `is_read` as it was; an error and no write when none matches |
| `NotificationService.ReadThenUnreadRestores` | backend/app/services/notification_service.py:146-193 | marking an unread row read and then unread gives back the table |
| `NotificationService.DismissThenRestoreIsRead` | backend/app/services/notification_service.py:255-295 | dismissing then restoring leaves the row read and visible, the same as marking it read |
| `NotificationService.WhereNoMatch` | backend/app/services/notification_service.py:150-156 | an update whose (id, user_id) matches no row changes nothing |
| `NotificationService.UnreadCountCons` | backend/app/services/notification_service.py:119-128 | the count splits over the first row and the rest |
| `NotificationService.DismissLowersUnreadCount` | backend/app/services/notification_service.py:255-266 | with unique ids dismissing lowers the unread count by one exactly when the dismissed row was unread |
| `NotificationService.MarkAllAsRead` | backend/app/services/notification_service.py:208-239 | every unread row of the caller becomes read, and the result is how many rows were unread |
| `NotificationService.MarkAllAsReadClearsBadge` | backend/app/services/notification_service.py:219-232 | afterwards the caller's unread count is 0, other users' rows are untouched, and the number reported is at least the unread count before |
| `NotificationService.MarkAllAsReadIdempotent` | backend/app/services/notification_service.py:219-232 | a second mark-all changes nothing and reports 0 |
| `NotificationService.DeleteNotification` | backend/app/services/notification_service.py:316-344 | true iff a row matched (an error otherwise); the table keeps exactly the rows that do not match |
| `NotificationService.DeleteNotificationRemovesExactly` | backend/app/services/notification_service.py:328-340 | deleting removes exactly the (id, user_id) rows, and a delete that matches nothing changes nothing |
| `NotificationService.Completed` | backend/app/services/notification_service.py:371-374 | the linked activity becomes completed with `completed_at`, keeping its identity and `updated_at` |
| `NotificationService.CompleteFromNotification` | backend/app/services/notification_service.py:346-417 | an error and no write when the notification is missing, links no activity, or the activity update matches nothing; otherwise the caller's activity is completed and the notification marked read |
| `NotificationService.CompletionEffect` | backend/app/services/notification_service.py:376-398 | afterwards every row of the linked activity is completed with `completed_at`, the notification is read, and nobody else's rows change |
| `QuickSolutions.MoreHelpfulIsTotal` | backend/app/services/quick_solutions_service.py:59 | ordering by `helpful_count` descending is a total preorder, so the sort is well defined |
| `QuickSolutions.Window` | backend/app/services/quick_solutions_service.py:62 | `.range(offset, offset + limit - 1)` yields at most `limit` rows, exactly the rows that exist from `offset` on, in order, and nothing past the end |
| `QuickSolutions.WindowsTile` | backend/app/services/quick_solutions_service.py:62 | two adjacent ranges concatenate to the range covering both |
| `QuickSolutions.ListedInOrder` | backend/app/services/quick_solutions_service.py:38-59 | the active rows matching the category and the search, most helpful first: sorted, a permutation of the filtered rows, and as many as match |
| `QuickSolutions.ListSolutions` | backend/app/services/quick_solutions_service.py:18-69 | `count` is the number of all listed rows; `data` is one page of them, sorted by helpfulness, of the size the range allows, empty past the end, and every row in it active and matching the filters |
| `QuickSolutions.PagesTile` | backend/app/services/quick_solutions_service.py:62 | in the model's order (helpful count descending, ties in the one fixed order the model's sort gives), consecutive pages with the same filters continue one another without gap or overlap |
| `QuickSolutions.FirstPageHoldsAll` | backend/app/services/quick_solutions_service.py:38-62 | a first page at least as large as the count holds every listed row |
| `QuickSolutions.Bumped` | backend/app/services/quick_solutions_service.py:121-124 | the chosen counter rises by one and the other counter, the id, the active flag and the category stay |
| `QuickSolutions.FindActiveSolution` | backend/app/services/quick_solutions_service.py:75-99 | the row found is in the table, has that id and is active; none exactly when no active row has the id |
| `QuickSolutions.IncrementCounter` | backend/app/services/quick_solutions_service.py:101-163 | always True; when the database function returned data the table shows the increment; otherwise only an existing active row is read back and bumped, else the table is unchanged |
| `QuickSolutions.IncrementViewCount` | backend/app/services/quick_solutions_service.py:101-130 | the view counter of the rows with that id rises by one when the database function did it or an active row exists; otherwise nothing changes; the result is True |
| `QuickSolutions.IncrementHelpfulCount` | backend/app/services/quick_solutions_service.py:132-163 | the same for the helpful counter |
| `QuickSolutions.IncrementAddsOnePerRow` | backend/app/services/quick_solutions_service.py:113-155 | an increment raises that counter's table total by the number of rows with the id and leaves the other counter's total alone |
| `QuickSolutions.ActiveCategories` | backend/app/services/quick_solutions_service.py:173-184 | one category per active row, a missing one read as "otros" |
| `QuickSolutions.FirstAppearance` | backend/app/services/quick_solutions_service.py:181-185 | the dict's keys: distinct, and exactly the categories seen |
| `QuickSolutions.CategoryName` | backend/app/services/quick_solutions_service.py:188-204 | an id outside the fixed table is shown capitalised |
| `QuickSolutions.LargerFirstIsTotal` | backend/app/services/quick_solutions_service.py:209 | ordering by count descending is a total preorder |
| `QuickSolutions.Categories` | backend/app/services/quick_solutions_service.py:165-209 | the entries are sorted by count, largest first, and are a permutation of one entry per distinct active category |
| `QuickSolutions.CategoriesAreCounts` | backend/app/services/quick_solutions_service.py:181-206 | every entry names a category of an active row, counts its rows (at least one) and carries its display name |
| `QuickSolutions.CategoriesCoverActive` | backend/app/services/quick_solutions_service.py:181-206 | every category of an active row gets an entry |
| `QuickSolutions.CategoryCountsSumToActive` | backend/app/services/quick_solutions_service.py:181-209 | the counts add up to the number of active rows |
| `QuickSolutions.TallyCoversAll` | backend/app/services/quick_solutions_service.py:181-185 | every category occurrence is counted under exactly one key |
| `QuickSolutions.TalliedStep` | backend/app/services/quick_solutions_service.py:183-185 | one more active row keeps the running keys and counts exact: a new key is added with count 1, a seen key is incremented |
| `QuickSolutions.CountByCategory` | backend/app/services/quick_solutions_service.py:181-185 | the loop leaves the keys in first-seen order and each key's count equal to its occurrences among the active rows |
| `QuickSolutions.EntriesOf` | backend/app/services/quick_solutions_service.py:199-207 | the loop builds one entry per key, in key order, with its name and count |
| `QuickSolutions.GetCategories` | backend/app/services/quick_solutions_service.py:165-213 | the two loops and the sort compute exactly `Categories` of the table |
| `QuickSolutions.MorePopularIsTotal` | backend/app/services/quick_solutions_service.py:230-231 | ordering by helpful count then view count, both descending, is a total preorder |
| `QuickSolutions.PopularSolutions` | backend/app/services/quick_solutions_service.py:215-240 | at most `limit` active rows (all of them when fewer), sorted by popularity, and no active row left out is more popular than one returned |
| `AcademicChatbot.CleanText` | backend/app/services/academic_chatbot_service.py:13-17 | the cleaned text neither starts nor ends with white space |
| `AcademicChatbot.BuildCombinedKnowledgeBase` | backend/app/services/academic_chatbot_service.py:41-84 | every knowledge-base row, in order, with its category or "General", then every FAQ, in order, with category "FAQ"; the prompt text is built from exactly these entries |
| `AcademicChatbot.Block` | backend/app/services/academic_chatbot_service.py:79 | an entry's block starts with its label `[ENTRADA n]` |
| `AcademicChatbot.Blocks` | backend/app/services/academic_chatbot_service.py:77-82 | one block per entry, the i-th numbered i + 1 |
| `AcademicChatbot.KnowledgeTextListsEntry` | backend/app/services/academic_chatbot_service.py:77-82 | every entry appears in the prompt text under the label of its position |
| `AcademicChatbot.LabelInjective` | backend/app/services/academic_chatbot_service.py:79 | different numbers give different labels |
| `AcademicChatbot.FindExactMatch` | backend/app/services/academic_chatbot_service.py:87-118 | none exactly when no entry qualifies (equal cleaned questions, or containment with more than 70% shared words); otherwise the answer of the first qualifying entry |
| `AcademicChatbot.ExactQuestionMatches` | backend/app/services/academic_chatbot_service.py:94-101 | a question equal, once cleaned, to a stored one is always answered from the store |
| `AcademicChatbot.SimilarityIsDefined` | backend/app/services/academic_chatbot_service.py:104-115 | whenever the ratio is computed its denominator is positive |
| `AcademicChatbot.DigitRun` | backend/app/services/academic_chatbot_service.py:234 | the maximal run of digits from a position |
| `AcademicChatbot.DigitGroupsFrom` | backend/app/services/academic_chatbot_service.py:234 | every number found is a non-empty digit-led piece of the text; none are found exactly when no digit follows |
| `AcademicChatbot.DigitGroups` | backend/app/services/academic_chatbot_service.py:230-234 | the answer quotes numbers exactly when it holds a digit, each one a piece of the answer |
| `AcademicChatbot.Chatbot` | backend/app/services/academic_chatbot_service.py:121-254 | the fixed notice exactly for an empty base; the stored answer exactly when one matches (the first match); the error text exactly when the model raised; a model answer is returned trimmed only when it has no digits or one of its numbers is in a stored answer, and is refused otherwise |
| `AcademicChatbot.BypassIgnoresModel` | backend/app/services/academic_chatbot_service.py:130-138 | an empty base or a stored match gives the same reply whatever the model would say |
| `AcademicChatbot.DigitFreeAnswerKept` | backend/app/services/academic_chatbot_service.py:226-248 | a model answer without digits is passed through, trimmed |
| `WebSocketRoutes.Joined` | backend/app/routes/websocket_routes.py:33-40 | the socket is in the conversation's room, a missing room is created with just it, and every other room is unchanged |
| `WebSocketRoutes.RemovedFromKeepsRoomsNonEmpty` | backend/app/routes/websocket_routes.py:43-50 | leaving keeps every room non-empty, touches only that conversation's room, takes exactly the leavers out and drops the room once empty |
| `WebSocketRoutes.RemovedFromTwice` | backend/app/routes/websocket_routes.py:43-50 | sockets leaving one after another leave the same rooms as leaving together |
| `WebSocketRoutes.JoinThenLeave` | backend/app/routes/websocket_routes.py:33-50 | a socket that joins a room it was not in and then leaves restores the rooms |
| `WebSocketRoutes.Addressees` | backend/app/routes/websocket_routes.py:64-65 | a broadcast addresses exactly the room's sockets other than the excluded sender |
| `WebSocketRoutes.ConnectionManager.Connect` | backend/app/routes/websocket_routes.py:33-40 | the rooms become `Joined` of the old rooms, and no room is empty |
| `WebSocketRoutes.ConnectionManager.Disconnect` | backend/app/routes/websocket_routes.py:43-50 | the rooms become the old rooms without the socket, an emptied room dropped, an unknown room left alone |
| `WebSocketRoutes.ConnectionManager.Broadcast` | backend/app/routes/websocket_routes.py:54-71 | nothing for an unknown room; otherwise every addressee whose send works receives the message and every addressee whose send fails is disconnected, and nothing else changes |
| `WebSocketRoutes.Check` | backend/app/routes/websocket_routes.py:99-113 | a JSON object with both fields is accepted with their values; malformed JSON and a missing field are answered with their error texts; a scalar, or a list or string holding both names, raises out of the loop |
| `WebSocketRoutes.HandleFrame` | backend/app/routes/websocket_routes.py:92-180 | a row is stored exactly for an accepted frame, in that conversation with type live_chat; a saved row is broadcast to the others and confirmed to the sender: the addressees whose send works receive it, those whose send fails leave the room, and nothing is delivered for an unknown room; a failed insert or a rejected frame is answered with one error and the rooms unchanged; a frame that raises ends the loop and disconnects the sender |
| `WebSocketRoutes.Broadcasted` | backend/app/routes/websocket_routes.py:136-144 | the broadcast carries the stored row's id and timestamp with the sender's role and content |
| `Cloudinary.SizeLimitMb` | backend/app/services/cloudinary_service.py:52 | `max_size_mb or MAX_IMAGE_SIZE_MB`: a given non-zero limit is used, an absent or zero one falls back to the configured default |
| `Cloudinary.CheckUpload` | backend/app/services/cloudinary_service.py:44-60 | a type outside the allowed list is refused first; an allowed file is too large exactly when its size exceeds the limit in whole megabytes, and accepted otherwise |
| `Cloudinary.UploadImage` | backend/app/services/cloudinary_service.py:26-92 | both validation failures are 400, a failing upload is 500, and success returns exactly the URL the uploader gave |
| `Cloudinary.UploadSizeMonotone` | backend/app/services/cloudinary_service.py:54-56 | a smaller file of an accepted type and limit is accepted too |
| `Cloudinary.LastIndex` | backend/app/services/cloudinary_service.py:115 | the position of the last occurrence of the character, none exactly when it is absent |
| `Cloudinary.BeforeLastOfSuffix` | backend/app/services/cloudinary_service.py:115 | `rsplit(".", 1)[0]` removes exactly a final ".ext" without a dot |
| `Cloudinary.PublicId` | backend/app/services/cloudinary_service.py:110-117 | a public id is found exactly when some path segment is "upload" |
| `Cloudinary.DeleteImage` | backend/app/services/cloudinary_service.py:95-127 | destroy receives the extracted public id, and the result is True exactly when an id was found and the reply's result is "ok" |
| `Cloudinary.SplitDeliveryUrl` | backend/app/services/cloudinary_service.py:110 | splitting a delivery URL on "/" gives its host segments, "upload", the version and the id segments with the extension on the last |
| `Cloudinary.FirstUploadAfterHost` | backend/app/services/cloudinary_service.py:112 | `parts.index("upload")` finds the segment after the host when no host segment reads "upload" |
| `Cloudinary.PublicIdOfSegments` | backend/app/services/cloudinary_service.py:110-117 | the id is the segments two past the first "upload", joined, with the last extension removed |
| `Cloudinary.PublicIdOfDeliveryUrl` | backend/app/services/cloudinary_service.py:107-117 | the id extracted from an image's delivery URL is the id it was stored under (no host segment "upload", no slash inside a segment, no dot in the extension) |
| `Cloudinary.DropThroughVersion` | backend/app/services/cloudinary_service.py:114 | skipping "upload" and the version leaves exactly the id segments |
| `MessageRoutes.FirstInProgress` | backend/app/routes/message_routes.py:56-66 | the first in-progress request of the conversation, none exactly when it has none |
| `MessageRoutes.StrangerMayNotPost` | backend/app/routes/message_routes.py:53-71 | someone who neither owns the conversation nor is the agent of one of its requests may not post in it |
| `MessageRoutes.SenderRole` | backend/app/routes/message_routes.py:80-87 | the stored role is "assistant" exactly when the caller's profile role is "agent", and "user" otherwise |
| `MessageRoutes.StoredText` | backend/app/routes/message_routes.py:95 | `content or ""`: a missing text is stored as empty |
| `MessageRoutes.ImageResponseType` | backend/app/routes/message_routes.py:97 | "image" exactly when the message has no text (missing or empty), "text_with_image" otherwise |
| `MessageRoutes.SendMessageWithImage` | backend/app/routes/message_routes.py:19-123 | 404 for an unknown conversation and 403 for anyone but the owner or the agent of its first in-progress request; then the upload's own errors pass through unchanged; after a successful upload the answer succeeds exactly when the insert does; on success exactly one message is appended with the uploaded URL, role and response type above, and the conversation is stamped; on a failed insert the uploaded image is deleted again and the answer is 500; nothing is written on a failure |
| `MessageRoutes.MessageById` | backend/app/routes/message_routes.py:137-144 | the first message with that id, none exactly when there is none |
| `MessageRoutes.ClearImageEffect` | backend/app/routes/message_routes.py:172-174 | after the update no message with that id carries an image and its type is "text"; the other messages are unchanged |
| `MessageRoutes.ClearImageIdempotent` | backend/app/routes/message_routes.py:172-174 | clearing twice is clearing once |
| `MessageRoutes.DeleteMessageImage` | backend/app/routes/message_routes.py:126-182 | 404 for an unknown message; 403 exactly when the caller neither owns its conversation nor is an agent; otherwise the image's public id is destroyed when it has one, the rows with that id lose their image, and nothing else changes |
| `ActivityStore.ErrorText` | frontend/src/hooks/useActivities.ts:47-48 | an Error's own message, else the operation's fallback text |
| `ActivityStore.ByDateTimeIsTotalPreorder` | frontend/src/hooks/useActivities.ts:68-73 | the date-then-time comparison is a total preorder |
| `ActivityStore.Inserted` | frontend/src/hooks/useActivities.ts:67-74 | the list with the new activity is sorted by date and time and is a permutation of the old list plus it |
| `ActivityStore.InsertedKeepsAll` | frontend/src/hooks/useActivities.ts:67-74 | the created activity and every activity listed before are listed |
| `ActivityStore.Replaced` | frontend/src/hooks/useActivities.ts:95-99 | the same length, each activity with that id replaced by the returned one and the others kept in place |
| `ActivityStore.Removed` | frontend/src/hooks/useActivities.ts:146 | exactly the listed activities whose id differs |
| `ActivityStore.RemoveAbsentIsNoop` | frontend/src/hooks/useActivities.ts:146 | removing an unlisted id changes nothing |
| `ActivityStore.ReplaceAbsentIsNoop` | frontend/src/hooks/useActivities.ts:95-99 | replacing an unlisted id changes nothing |
| `ActivityStore.Activities.constructor` | frontend/src/hooks/useActivities.ts:34-36 | no activities, loading, no error |
| `ActivityStore.Activities.Refetch` | frontend/src/hooks/useActivities.ts:39-57 | the fetched list replaces the old one and clears the error; a failure keeps the list and records the error; loading ends either way |
| `ActivityStore.Activities.Create` | frontend/src/hooks/useActivities.ts:60-85 | on success the created activity is returned and inserted in date-time order; on failure the list stays, the error is recorded and the call throws |
| `ActivityStore.Activities.Update` | frontend/src/hooks/useActivities.ts:88-110 | on success the activity with that id becomes the returned one; on failure the list stays and the error is recorded |
| `ActivityStore.Activities.MarkComplete` | frontend/src/hooks/useActivities.ts:113-137 | the same, with its own error text |
| `ActivityStore.Activities.Remove` | frontend/src/hooks/useActivities.ts:140-153 | on success that id is dropped; on failure the list stays, the error is recorded and the call throws |
| `AgentChat.FaqLines` | frontend/src/components/agent/AgentChatInterface.tsx:101-103 | one line per FAQ, the k-th numbered k + 1 |
| `AgentChat.WelcomeText` | frontend/src/components/agent/AgentChatInterface.tsx:100-129 | the greeting always starts with the UniBot marker; without FAQs it is the fixed fallback; otherwise every numbered FAQ line is in it |
| `AgentChat.WelcomeMessage` | frontend/src/components/agent/AgentChatInterface.tsx:95-132 | the welcome has the fixed id, the assistant role, the case's conversation, the greeting text and a time one second before the first message |
| `AgentChat.Initial` | frontend/src/components/agent/AgentChatInterface.tsx:135-153 | the welcome is put in front exactly when there are messages and the first is not already a greeting; otherwise the messages are shown as they are |
| `AgentChat.WelcomeIsRecognised` | frontend/src/components/agent/AgentChatInterface.tsx:140-144 | the generated welcome is recognised as a greeting |
| `AgentChat.InitialIdempotent` | frontend/src/components/agent/AgentChatInterface.tsx:135-153 | running the initialisation on its own output adds no second welcome |
| `AgentChat.AppendIfNew` | frontend/src/components/agent/AgentChatInterface.tsx:169-178 | a message whose id is listed is skipped, else appended; afterwards its id is listed, and ids stay unique |
| `AgentChat.Received` | frontend/src/components/agent/AgentChatInterface.tsx:156-182 | only the student's socket messages are taken, never twice, and ids stay unique |
| `AgentChat.ReceivedTwice` | frontend/src/components/agent/AgentChatInterface.tsx:156-182 | receiving the same socket message twice is receiving it once |
| `AgentChat.AppendEcho` | frontend/src/components/agent/AgentChatInterface.tsx:241-265 | the local copy of a socket send is appended unless an assistant message with the same text within one second is listed; afterwards one is |
| `AgentChat.AppendEchoTwice` | frontend/src/components/agent/AgentChatInterface.tsx:249-265 | the same text sent twice in the same instant is listed once |
| `AgentChat.PickImage` | frontend/src/components/agent/AgentChatInterface.tsx:498-510 | an image is picked exactly when its type starts with "image/" and it is at most 10 MiB; a larger image is refused |
| `AgentChat.AgentChatState.constructor` | frontend/src/components/agent/AgentChatInterface.tsx:56-58 | no messages, an empty input, not sending |
| `AgentChat.AgentChatState.Initialize` | frontend/src/components/agent/AgentChatInterface.tsx:135-153 | the messages become `Initial` of the case's messages |
| `AgentChat.AgentChatState.ReceiveSocket` | frontend/src/components/agent/AgentChatInterface.tsx:156-182 | the messages become `Received` of the old ones |
| `AgentChat.AgentChatState.SendMessageWithText` | frontend/src/components/agent/AgentChatInterface.tsx:227-292 | blank text or a send in progress changes nothing; otherwise the trimmed text goes over the socket when connected (echoed locally, input cleared) or else over HTTP, whose reply is appended unless listed and whose failure puts the text back; sending ends either way |
| `CalendarGrid.Offset` | frontend/src/components/calendar/CalendarGrid.tsx:22-25 | the number of blank cells is the weekday of the 1st, below 7 |
| `CalendarGrid.MonthCells` | frontend/src/components/calendar/CalendarGrid.tsx:19-40 | the two loops yield the blank cells, then exactly the days 1 to the month's last day, in order |
| `CalendarGrid.GridColumnIsWeekday` | frontend/src/components/calendar/CalendarGrid.tsx:58-72 | every day sits in the grid column of its own weekday, under the matching header |
| `CalendarGrid.DateKey` | frontend/src/components/calendar/CalendarGrid.tsx:48-52 | the zero-padded key of a valid date with a four-digit year parses back to that date |
| `CalendarGrid.DateKeyParses` | frontend/src/components/calendar/CalendarGrid.tsx:48-52 | the key `YYYY-MM-DD` built from a valid date parses back to it |
| `CalendarGrid.ActivitiesForDate` | frontend/src/components/calendar/CalendarGrid.tsx:43-45 | exactly the activities on that date |
| `CalendarGrid.Dots` | frontend/src/components/calendar/CalendarGrid.tsx:101-111 | at most the first three activities of the day are drawn, and "+k" appears exactly when there are more, with the drawn and the counted adding up to all of them |
| `CalendarInterface.Shift` | frontend/src/components/CalendarInterface.tsx:66-70 | the month one back or on, rolling over the year, counted as one month index less or more |
| `CalendarInterface.NavigateAsWritten` | frontend/src/components/CalendarInterface.tsx:63-73 | `setMonth(getMonth() ± 1)` as written: the day of the month is kept and a day past the end of the target month spills into the next month; the result is a valid date |
| `CalendarInterface.NextFromJanuary31SkipsFebruary` | frontend/src/components/CalendarInterface.tsx:63-73 | from 31 January 2025, "next" shows 3 March 2025, two months on |
| `CalendarInterface.AsWrittenAgreesOnEarlyDays` | frontend/src/components/CalendarInterface.tsx:63-73 | on days 1 to 28 the code as written moves by exactly one month |
| `CalendarInterface.Navigate` | frontend/src/components/CalendarInterface.tsx:63-73 | corrected: exactly one month back or on, the day kept when the target month has it and clamped to its last day otherwise |
| `CalendarInterface.NavigateRoundTrip` | frontend/src/components/CalendarInterface.tsx:63-73 | forward then back returns to the same month, and to the same date on days 1 to 28 |
| `CalendarInterface.Edited` | frontend/src/components/CalendarInterface.tsx:94-96 | an edit changes exactly the named field of the form |
| `CalendarInterface.FromForm` | frontend/src/components/CalendarInterface.tsx:104-112 | the new activity copies the form's fields, takes its id from the clock and the colour of its kind |
| `CalendarInterface.AddedShowsOnItsDay` | frontend/src/components/CalendarInterface.tsx:114 | an added activity, and every activity already on that day, is listed on the day of its date |
| `CalendarInterface.MockColorsMatchKinds` | frontend/src/components/CalendarInterface.tsx:11-47 | the example activities carry the colour of their kind, as added ones do |
| `CalendarInterface.Calendar.constructor` | frontend/src/components/CalendarInterface.tsx:50-60 | today's date, nothing selected, the example activities, the modal closed and the form empty |
| `CalendarInterface.Calendar.NavigateMonth` | frontend/src/components/CalendarInterface.tsx:63-73 | the displayed date becomes `NavigateAsWritten` of the old one (the day kept, spilling into the month after when the target month is shorter), which is exactly one month back or on for days 1 to 28; nothing else changes |
| `CalendarInterface.Calendar.DayClick` | frontend/src/components/CalendarInterface.tsx:81-91 | the selected date becomes the key of that day of the displayed month |
| `CalendarInterface.Calendar.OpenAddModal` | frontend/src/components/CalendarInterface.tsx:136 | the modal opens and nothing else changes |
| `CalendarInterface.Calendar.ModalChange` | frontend/src/components/CalendarInterface.tsx:94-96 | the form becomes `Edited` of the old form |
| `CalendarInterface.Calendar.AddActivity` | frontend/src/components/CalendarInterface.tsx:99-123 | nothing happens without a title, a date and a time; otherwise the activity from the form is appended, the form is cleared and the modal closes |
| `CalendarInterface.Calendar.SelectedActivities` | frontend/src/components/CalendarInterface.tsx:76-78 | none without a selected date; otherwise exactly the activities on it |
| `CalendarTypes.ColorByType` | frontend/src/app/types/calendar.ts:21-30 | every kind gets a "bg-…-500" background colour |
| `CalendarTypes.ColorByTypeInjective` | frontend/src/app/types/calendar.ts:21-30 | different kinds get different colours |
| `CalendarTypes.Months` | frontend/src/app/types/calendar.ts:32-45 | twelve month names, January first |
| `CalendarTypes.WeekDays` | frontend/src/app/types/calendar.ts:47 | seven headers, Sunday first |
| `CalendarTypes.WeekDaysMatchGetDay` | frontend/src/app/types/calendar.ts:47 | the headers follow `Date.getDay()` on every valid date: 0001-01-01, a Monday, is headed "Lun", and the next date's weekday number is this date's plus one, modulo 7 |
| `ChatBase.DisplayText` | frontend/src/components/chat/ChatBase.tsx:60 | `text || content || ''`: the text when non-empty, else the content when non-empty, else empty |
| `ChatBase.GeneratedKey` | frontend/src/components/chat/ChatBase.tsx:76 | a generated key starts with "msg-" |
| `ChatBase.RenderKey` | frontend/src/components/chat/ChatBase.tsx:73-76 | an id that reads as a number is kept as the key; any other (or a missing one) gets a generated key |
| `ChatBase.LetterFirstNotNumeric` | frontend/src/components/chat/ChatBase.tsx:74 | a text starting with "m" never reads as a number |
| `ChatBase.KeptAndGeneratedKeysDiffer` | frontend/src/components/chat/ChatBase.tsx:73-76 | a kept key and a generated key never coincide |
| `ChatBase.Normalize` | frontend/src/components/chat/ChatBase.tsx:57-87 | a user message exactly when sender or role says "user", a bot message exactly when the sender is UniBot or the role is assistant; the shown text, the kept text timestamp, the key, the original id and the avatar as above |
| `ChatBase.Toggle` | frontend/src/components/chat/ChatBase.tsx:94 | clicking the current rating clears it; clicking another sets it |
| `ChatBase.ToggleTwice` | frontend/src/components/chat/ChatBase.tsx:94 | clicking the same button twice from no rating or from that rating comes back to where it started |
| `ChatBase.HandleRating` | frontend/src/components/chat/ChatBase.tsx:89-117 | the callback gets the new rating exactly when one is given, and the backend exactly when not read-only |
| `ChatBase.UserMessagesHaveNoButtons` | frontend/src/components/chat/ChatBase.tsx:243-244 | a user message never gets rating buttons |
| `ChatBase.RatingButtonsFor` | frontend/src/components/chat/ChatBase.tsx:243-244 | a message gets rating buttons exactly when it is the bot's (sender UniBot or role assistant), the chat is not read-only, ratings are shown and a callback is given |
| `ChatInterface.LeadingDigits` | frontend/src/components/ChatInterface.tsx:213 | the longest prefix made of decimal digits |
| `ChatInterface.ParseInt` | frontend/src/components/ChatInterface.tsx:213-216 | `parseInt(s, 10)`: NaN exactly when no digit follows the optional sign; without a minus sign the value is not negative |
| `ChatInterface.LeadingDigitsOfRun` | frontend/src/components/ChatInterface.tsx:213 | every digit of a run is read, whatever non-digit text follows |
| `ChatInterface.ParseIntOfNumber` | frontend/src/components/ChatInterface.tsx:213 | parseInt reads back a decimal number, even with non-digit text after it |
| `ChatInterface.Decide` | frontend/src/components/ChatInterface.tsx:192-225 | the exact word "agente" (trimmed, lower-cased) hands off; otherwise a parsed number from 1 to the number of FAQs asks for that FAQ's id; anything else goes, untrimmed, to the chatbot |
| `ChatInterface.FaqNumberSelectsFaq` | frontend/src/components/ChatInterface.tsx:213-221 | typing the number of a listed FAQ asks for that FAQ |
| `ChatInterface.UnlistedNumberGoesToChatbot` | frontend/src/components/ChatInterface.tsx:215-225 | a number outside the list is a question for the chatbot |
| `ChatInterface.HandOffIsExact` | frontend/src/components/ChatInterface.tsx:192-194 | only the word alone hands off: "quiero un agente" does not |
| `ChatInterface.GreetingText` | frontend/src/components/ChatInterface.tsx:63-80 | the greeting starts with the fixed UniBot head and lists every FAQ as "k. question", numbered from 1 |
| `ChatInterface.GreetingNumbersSelectTheirFaq` | frontend/src/components/ChatInterface.tsx:63-80 | every number the greeting shows, typed back, asks for the FAQ listed under it |
| `ChatInterface.ChatBox.constructor` | frontend/src/components/ChatInterface.tsx:34-37 | no messages, an empty input, not blocked, no FAQs yet |
| `ChatInterface.ChatBox.LoadQuestions` | frontend/src/components/ChatInterface.tsx:48-86 | a good reply stores the FAQs and replaces the messages with the greeting that lists them; a failed call changes nothing |
| `ChatInterface.ChatBox.ReceiveFaqAnswer` | frontend/src/components/ChatInterface.tsx:97-126 | a good reply appends the FAQ's answer as a UniBot message; a failed call changes nothing |
| `ChatInterface.ChatBox.ReceiveChatbotReply` | frontend/src/components/ChatInterface.tsx:129-174 | the chatbot's answer is appended on success, the fixed apology on an error status, and nothing when the call throws |
| `ChatInterface.ChatBox.HandleSendMessage` | frontend/src/components/ChatInterface.tsx:177-228 | blank input or a blocked chat changes nothing; otherwise the typed text is shown as the user's message, a hand-off adds its notice and blocks the chat, the input is cleared, and the call made is `Decide` of the text |
| `ChatPage.ConvertMessages` | frontend/src/components/ChatPage.tsx:53-99 | one chat message per stored one, in order, with id, text, rating and image carried over; sent by the user exactly when the role is "user"; the bot avatar exactly for assistant messages; a text timestamp kept |
| `ChatPage.ConvertKeepsUserCount` | frontend/src/components/ChatPage.tsx:68-82 | the page shows as many user messages as the conversation stores |
| `ChatPage.Page` | frontend/src/components/ChatPage.tsx:25-110 | no conversation id shows the plain chat; then loading; then the error (or "Conversación no encontrada"); otherwise the converted history of the loaded conversation |
| `ConversationList.Convert` | frontend/src/hooks/useConversations.ts:17-39 | none exactly without an id; otherwise the id, the title or "Nueva conversación", the dates or now, a numeric count or 0, a non-empty last message, and no messages |
| `ConversationList.Converted` | frontend/src/hooks/useConversations.ts:58-60 | at most one entry per API conversation, each the conversion of one of them |
| `ConversationList.ConvertedKeepsValid` | frontend/src/hooks/useConversations.ts:58-60 | every conversation with an id makes it into the list |
| `ConversationList.NewestFirstIsTotalPreorder` | frontend/src/hooks/useConversations.ts:61 | the newest-first comparison is a total preorder |
| `ConversationList.Listed` | frontend/src/hooks/useConversations.ts:58-61 | the list is sorted newest first and is a permutation of the converted conversations |
| `ConversationList.ListedIsTheValidOnes` | frontend/src/hooks/useConversations.ts:58-61 | exactly the conversations with an id are listed |
| `ConversationList.Conversations.constructor` | frontend/src/hooks/useConversations.ts:45-47 | no conversations, loading, no error |
| `ConversationList.Conversations.Fetch` | frontend/src/hooks/useConversations.ts:49-70 | the listed conversations on success; the fixed error text on failure with the list kept; loading ends either way |
| `ConversationCard.FormatDate` | frontend/src/components/chat/ConversationCard.tsx:13-34 | by whole days elapsed: the time of day under one day, "Ayer" for one, "Hace N días" from 2 to 6 with N the whole days, the short date from 7 on |
| `ConversationCard.FutureUpdateReadsNegative` | frontend/src/components/chat/ConversationCard.tsx:15-26 | an update time ahead of the clock reads "Hace -N días" |
| `ConversationCard.DaysAgoText` | frontend/src/components/chat/ConversationCard.tsx:26 | the text is "Hace ", the day count, then " días" |
| `ConversationCard.DaysAgoTextInjective` | frontend/src/components/chat/ConversationCard.tsx:26 | different day counts give different texts |
| `ConversationCard.Href` | frontend/src/components/chat/ConversationCard.tsx:38 | the card links to "/chat/" followed by the conversation's id |
| `EscalationUi.TakeTicketEffect` | frontend/src/hooks/useEscalation.ts:11-21 | taking a ticket assigns it to the admin and puts it in progress, changing nothing else on it; every other ticket stays as it was |
| `EscalationUi.UpdateStatusEffect` | frontend/src/hooks/useEscalation.ts:24-45 | a status update touches only the matching ticket and stamps the resolution time exactly when closing |
| `EscalationUi.AddResolutionEffect` | frontend/src/hooks/useEscalation.ts:48-62 | adding a resolution records the text and the time on the matching ticket only |
| `EscalationUi.TicketBoard.constructor` | frontend/src/hooks/useEscalation.ts:8 | the board starts with the initial tickets |
| `EscalationUi.TicketBoard.TakeTicket` | frontend/src/hooks/useEscalation.ts:11-21 | the tickets become the take update of the old ones |
| `EscalationUi.TicketBoard.UpdateStatus` | frontend/src/hooks/useEscalation.ts:24-45 | the tickets become the status update of the old ones |
| `EscalationUi.TicketBoard.AddResolution` | frontend/src/hooks/useEscalation.ts:48-62 | the tickets become the resolution update of the old ones |
| `EscalationUi.TicketBoard.Apply` | frontend/src/components/escalation/EscalatedTicketCard.tsx:98-105 | the card's callbacks, applied in order, leave the tickets as `Applied` says |
| `EscalationUi.FilterTickets` | frontend/src/hooks/useEscalation.ts:65-77 | exactly the tickets each filter admits ('all' admits every value) |
| `EscalationUi.FilterAllChoicesIsIdentity` | frontend/src/hooks/useEscalation.ts:65-77 | with every filter on 'all' the whole list comes back, in order |
| `EscalationUi.ActionsByStatus` | frontend/src/components/escalation/EscalatedTicketCard.tsx:107-253 | a pending unassigned ticket can be taken; a pending assigned one can be put in progress; an in-progress ticket can be resolved and a resolved one closed only by its own admin; a closed ticket offers nothing; never more than one action |
| `EscalationUi.SubmitResolution` | frontend/src/components/escalation/EscalatedTicketCard.tsx:98-105 | blank text makes no call |
| `EscalationUi.SubmitResolutionResolves` | frontend/src/components/escalation/EscalatedTicketCard.tsx:98-105 | submitting a non-blank resolution leaves the ticket resolved and holding the text and the time, and no other ticket changes |
| `EscalationUi.CollapsedQuestion` | frontend/src/components/escalation/EscalatedTicketCard.tsx:155-158 | the collapsed question is the question when it has at most 150 characters, else its first 150 followed by "..." |
| `EscalationUi.StatusCountsPartition` | frontend/src/components/escalation/EscalationFilters.tsx:25-31 | every ticket has exactly one of the four statuses |
| `EscalationUi.PriorityCountsPartition` | frontend/src/components/escalation/EscalationFilters.tsx:34-40 | every ticket has exactly one of the four priorities |
| `EscalationUi.FilterCounts` | frontend/src/components/escalation/EscalationFilters.tsx:25-40 | "all" counts every ticket, and the status counters and the priority counters each add up to it |
| `EscalationUi.StatusChoices` | frontend/src/components/escalation/EscalationFilters.tsx:51-109 | five distinct status buttons, one per choice |
| `EscalationUi.PriorityChoices` | frontend/src/components/escalation/EscalationFilters.tsx:118-176 | five distinct priority buttons, one per choice |
| `EscalationUi.CategoryChoices` | frontend/src/components/escalation/EscalationFilters.tsx:186-245 | five distinct category buttons, one per choice |
| `EscalationUi.FilterButtons` | frontend/src/components/escalation/EscalationFilters.tsx:51-245 | one button per choice, active exactly when its choice is the current filter |
| `EscalationUi.ExactlyOneActive` | frontend/src/components/escalation/EscalationFilters.tsx:51-245 | over distinct choices holding the current filter, exactly one button is active |
| `EscalationUi.PanelHighlightsOne` | frontend/src/components/escalation/EscalationFilters.tsx:51-245 | each filter row has an active button whatever the current filters |
| `EscalationUi.ClickStatusButton` | frontend/src/components/escalation/EscalationFilters.tsx:51-109 | clicking a status button filters to that button's tickets and keeps the other filters |
| `EscalationUi.ResolutionRate` | frontend/src/components/escalation/EscalationStats.tsx:20-22 | `Math.round(resolved / total * 100)`: the nearest whole percentage, halves up, at most 100; 0 without tickets |
| `EscalationUi.EscalationStats` | frontend/src/components/escalation/EscalationStats.tsx:10-22 | the total is every ticket; pending, in progress and resolved add up to the total less the closed ones; the rate is at most 100 |
| `EscalationUi.BadgeFor` | frontend/src/components/chat/EscalationBadge.tsx:11-93 | no badge unless escalated; "Resuelta" exactly when resolved; "En proceso" exactly when the request is in progress; "Pendiente" exactly when it is pending or missing; any other status reads "Escalada" |
| `NotificationCard.RelativeDate` | frontend/src/components/notifications/NotificationCard.tsx:36-49 | "Hace unos minutos" exactly under an hour (and for a time in the future); whole hours under a day; "Ayer" exactly on the second day; whole days from 2 to 6; the locale date exactly from a week on |
| `NotificationCard.HoursAgoAgreement` | frontend/src/components/notifications/NotificationCard.tsx:42 | the hour label is plural exactly above one hour |
| `NotificationCard.Actions` | frontend/src/components/notifications/NotificationCard.tsx:102-140 | "mark read" exactly while unread, "mark completed" (with the activity's id) exactly for reminders and upcoming activities, then two dismissing buttons, each with the notification's id |
| `NotificationCard.ReadCardDropsMarkRead` | frontend/src/components/notifications/NotificationCard.tsx:104-111 | once read, a card loses only its "mark read" button |
| `NotificationCard.GeneratedNoticeCompletable` | frontend/src/components/notifications/NotificationCard.tsx:113 | a generated notification offers "mark completed" exactly when its activity is still pending |
| `NotificationFilters.FilterCounts` | frontend/src/components/notifications/NotificationFilters.tsx:17-26 | "all" is the list size, unread is the number of unread notices (at most all), overdue and completed are the counts of those kinds, "upcoming" counts upcoming and reminders, dismissed as given; overdue, upcoming and completed add up to all |
| `NotificationFilters.KindsPartition` | frontend/src/components/notifications/NotificationFilters.tsx:20-24 | every notification is overdue, upcoming-or-reminder, or completed, and only one of them |
| `NotificationFilters.Buttons` | frontend/src/components/notifications/NotificationFilters.tsx:28-55 | six buttons in page order, one per tab, each showing its tab's count |
| `NotificationFilters.Position` | frontend/src/components/notifications/NotificationFilters.tsx:28-55 | each tab has one of the six places |
| `NotificationFilters.ButtonTabsDistinct` | frontend/src/components/notifications/NotificationFilters.tsx:60-63 | no two buttons select the same tab, so their keys are distinct |
| `NotificationFilters.ExactlyOneHighlighted` | frontend/src/components/notifications/NotificationFilters.tsx:60-84 | whatever the current filter, exactly one button is highlighted, and clicking it selects that filter |
| `NotificationGenerator.DueIn` | frontend/src/utils/notificationGenerator.ts:44 | "hoy" for 0 days, "mañana" for 1, "N días" otherwise |
| `NotificationGenerator.NoticeFor` | frontend/src/utils/notificationGenerator.ts:8-55 | no notification exactly for a pending activity more than two days away; otherwise an unread one carrying the activity's fields: overdue ones stamped one minute after the activity's time, completed ones now, near pending ones a reminder ("upcoming" on the day itself) with the "es en …" message |
| `NotificationGenerator.PushedOnePerActivity` | frontend/src/utils/notificationGenerator.ts:7-56 | at most one notification per activity, each the notification of a listed activity |
| `NotificationGenerator.PushedCoversActivities` | frontend/src/utils/notificationGenerator.ts:7-56 | every activity that yields a notification has it pushed |
| `NotificationGenerator.NewerFirstIsTotalPreorder` | frontend/src/utils/notificationGenerator.ts:58 | the newest-first comparator is a total preorder |
| `NotificationGenerator.GenerateNotifications` | frontend/src/utils/notificationGenerator.ts:4-59 | the loop and the sort give the pushed notifications sorted newest first: a sorted permutation of them |
| `NotificationGenerator.OverdueNoticeStamp` | frontend/src/utils/notificationGenerator.ts:10-24 | an overdue activity's notification is there, stamped one minute after the activity's time |
| `Middleware.ProtectedRoutes` | frontend/middleware.ts:5-11 | the five guarded path prefixes |
| `Middleware.AnyPrefix` | frontend/middleware.ts:17-19 | true exactly when some listed route is a prefix of the path |
| `Middleware.Decide` | frontend/middleware.ts:13-69 | the request passes exactly when the path is unguarded or a non-empty session cookie is accepted by the backend; a 401 goes to /401 exactly when the cookie is there and the backend answers 401; everything else goes to the login page with the path to return to |
| `Middleware.PassMeansAllowed` | frontend/middleware.ts:13-60 | a guarded page is reached only with a non-empty session cookie the backend accepted |
| `Middleware.LoginRedirectKeepsPath` | frontend/middleware.ts:30-67 | every redirect to the login page carries the requested path back |
| `Middleware.PrefixGuardsMoreThanPages` | frontend/middleware.ts:17-19 | the test is a prefix test: "/chat/<id>" and also "/chatx" are guarded, "/login" is not |
| `QuickSolutionsHook.FirstTruthy` | frontend/src/hooks/useQuickSolutions.ts:40-41 | `a \|\| b \|\| undefined`: the first non-empty string, else nothing |
| `QuickSolutionsHook.OrDefault` | frontend/src/hooks/useQuickSolutions.ts:42-43 | `n \|\| fallback`: a given non-zero number, else the fallback |
| `QuickSolutionsHook.QueryFor` | frontend/src/hooks/useQuickSolutions.ts:39-44 | the category and search passed, else the stored ones, else none; limit 50 and offset 0 unless given |
| `QuickSolutionsHook.ReloadUsesStoredFilters` | frontend/src/hooks/useQuickSolutions.ts:143-146 | the reload a filter change triggers sends the stored filters, the first 50 results, from the start |
| `QuickSolutionsHook.ClearedReloadIsUnfiltered` | frontend/src/hooks/useQuickSolutions.ts:132-146 | after clearing the filters the reload asks for everything |
| `QuickSolutionsHook.Helped` | frontend/src/hooks/useQuickSolutions.ts:104-108 | the solutions with that id get one more helpful vote, and the others are unchanged |
| `QuickSolutionsHook.HelpedAddsOnePerMatch` | frontend/src/hooks/useQuickSolutions.ts:104-108 | the votes on the page rise by exactly the number of listed solutions with that id |
| `QuickSolutionsHook.QuickSolutions.constructor` | frontend/src/hooks/useQuickSolutions.ts:16-24 | no solutions or categories, not loading, no error, a total of 0, no filters |
| `QuickSolutionsHook.QuickSolutions.LoadSolutions` | frontend/src/hooks/useQuickSolutions.ts:29-56 | the query is `QueryFor` of the stored filters; a reply replaces the solutions and the total and clears the error; a failure keeps them and records the error message; loading ends either way |
| `QuickSolutionsHook.QuickSolutions.LoadCategories` | frontend/src/hooks/useQuickSolutions.ts:61-68 | fetched categories replace the old ones; a failure changes nothing |
| `QuickSolutionsHook.QuickSolutions.MarkAsHelpful` | frontend/src/hooks/useQuickSolutions.ts:99-113 | after a successful call, one more vote on that solution; a failure changes nothing and is rethrown |
| `QuickSolutionsHook.QuickSolutions.FilterByCategory` | frontend/src/hooks/useQuickSolutions.ts:118-120 | the category filter is set, and the list reloads exactly when it changed |
| `QuickSolutionsHook.QuickSolutions.Search` | frontend/src/hooks/useQuickSolutions.ts:125-127 | the search term is set, and the list reloads exactly when it changed |
| `QuickSolutionsHook.QuickSolutions.ClearFilters` | frontend/src/hooks/useQuickSolutions.ts:132-135 | both filters are cleared, and the list reloads unless they already were |
| `RequestList.FormatElapsed` | frontend/src/components/agent/RequestList.tsx:33-47 | "Hace un momento" exactly under a minute; whole minutes under an hour; whole hours under a day; whole days from then on, each floored |
| `RequestList.ElapsedText` | frontend/src/components/agent/RequestList.tsx:39-46 | every label starts with "Hace "; it is "Hace un momento" exactly for under a minute, and otherwise carries the count |
| `RequestList.ElapsedTextInjective` | frontend/src/components/agent/RequestList.tsx:39-46 | different elapsed values never share a label: unit and count can be read back from the text |
| `RequestList.ElapsedLabel` | frontend/src/components/agent/RequestList.tsx:92 | the card's time label reads "Hace un momento" exactly when the request was escalated less than a minute ago |
| `RequestList.SameLabelSameElapsed` | frontend/src/components/agent/RequestList.tsx:33-47 | two requests show the same time label exactly when their floored elapsed times agree |
| `RequestList.DisplayName` | frontend/src/components/agent/RequestList.tsx:82 | `user_name \|\| 'Usuario'`: a non-empty name as given, else "Usuario", so the card never shows a blank name |
| `RequestList.StatusLabel` | frontend/src/components/agent/RequestList.tsx:122-126 | "Pendiente" exactly for pending, "En Progreso" exactly for in progress, "Resuelta" for anything else |
| `RequestList.ShownCount` | frontend/src/components/agent/RequestList.tsx:109 | `message_count \|\| 0`: a missing count reads 0 |
| `RequestList.CountText` | frontend/src/components/agent/RequestList.tsx:108-111 | "N mensaje", with the plural "s" exactly when N is not 1 |
| `RequestList.MissingCountIsPlural` | frontend/src/components/agent/RequestList.tsx:108-111 | a missing count reads "0 mensajes" |
| `RequestList.Take` | frontend/src/components/agent/RequestList.tsx:130-141 | a take button exactly for pending requests, for that request, disabled and reading "Tomando..." exactly while that request is being taken |
| `RequestList.TakeOnlyWhenPending` | frontend/src/components/agent/RequestList.tsx:115-141 | a take button only appears beside the "Pendiente" label |
| `RequestList.Render` | frontend/src/components/agent/RequestList.tsx:49-67 | the spinner exactly while loading; the empty state exactly for no requests; otherwise the cards of the requests |
| `RequestList.TakeState.constructor` | frontend/src/components/agent/RequestList.tsx:20 | no request is being taken |
| `RequestList.TakeState.StartTake` | frontend/src/components/agent/RequestList.tsx:23 | the request being taken is recorded |
| `RequestList.TakeState.FinishTake` | frontend/src/components/agent/RequestList.tsx:28-30 | cleared when the call ends, whatever the outcome |
| `RoleRedirect.HomeFor` | frontend/src/hooks/useRoleRedirect.ts:23-41 | "/chat" exactly for users, "/caso-activo" exactly for agents, "/escalate" exactly for admins, "/login" exactly for any other role |
| `RoleRedirect.HomeRole` | frontend/src/components/RoleBasedRedirect.tsx:21-30 | each restricted role's home page is the page the table gives it |
| `RoleRedirect.Guard` | frontend/src/hooks/useRoleRedirect.ts:10-46 | nothing happens exactly while loading, without a user, or for the allowed role; anyone else is sent home, replacing the history entry |
| `RoleRedirect.Landing` | frontend/src/components/RoleBasedRedirect.tsx:8-42 | nothing exactly while loading; the login page without a user; otherwise the role's home page, pushing a history entry |
| `RoleRedirect.SameTable` | frontend/src/hooks/useRoleRedirect.ts:23-41 | the guard and the landing redirect send a user with another role to the same page |
| `RoleRedirect.HomeIsStable` | frontend/src/components/RoleBasedRedirect.tsx:21-30 | a user sent home is not sent on again by that page's guard |
| `SystemNotifications.Without` | frontend/src/hooks/useSystemNotifications.ts:189 | the list keeps exactly the notifications whose id differs |
| `SystemNotifications.FindById` | frontend/src/hooks/useSystemNotifications.ts:192 | a notification found has that id and is listed; none found means no listed one has that id |
| `SystemNotifications.Floored` | frontend/src/hooks/useSystemNotifications.ts:95 | one less, but never below 0 |
| `SystemNotifications.CountAfterDrop` | frontend/src/hooks/useSystemNotifications.ts:192-195 | the counter drops (floored) exactly when the id was listed as unread, and is otherwise unchanged |
| `SystemNotifications.FailureErrorIsLost` | frontend/src/hooks/useSystemNotifications.ts:99-106 | as written, a failed action's error is wiped by the refetch that follows whenever that refetch succeeds |
| `SystemNotifications.ErrorAfterFailureAsWritten` | frontend/src/hooks/useSystemNotifications.ts:99-106 | as written, the refetch decides the error: none after a good refetch, the refetch's own message otherwise, so the action's message survives only as a failed refetch's identical text |
| `SystemNotifications.ErrorAfterFailure` | frontend/src/hooks/useSystemNotifications.ts:99-106 | a failed action always leaves an error: its own when the refetch succeeds, the refetch's when that fails too |
| `SystemNotifications.MarkReadCount` | frontend/src/hooks/useSystemNotifications.ts:82-95 | with unique ids, marking one read lowers the number of unread notifications by 1 exactly when it was listed unread |
| `SystemNotifications.DropCount` | frontend/src/hooks/useSystemNotifications.ts:189-195 | with unique ids, dropping one lowers the number of unread notifications by 1 exactly when it was listed unread |
| `SystemNotifications.ReadAllLeavesNoneUnread` | frontend/src/hooks/useSystemNotifications.ts:157-166 | after marking everything read nothing is unread, matching the counter reset to 0 |
| `SystemNotifications.DropKeepsCounterInSync` | frontend/src/hooks/useSystemNotifications.ts:186-195 | a counter equal to the listed unread notifications stays equal after a dismissal or removal |
| `SystemNotifications.MarkReadKeepsCounterInSync` | frontend/src/hooks/useSystemNotifications.ts:82-95 | a counter equal to the listed unread notifications stays equal after marking an unread one read |
| `SystemNotifications.MarkUnreadOfUnreadOvercounts` | frontend/src/hooks/useSystemNotifications.ts:120-133 | marking an already unread notification unread leaves the unread notifications as they were, yet the counter rises by 1 |
| `SystemNotifications.NotificationCenter.constructor` | frontend/src/hooks/useSystemNotifications.ts:38-41 | no notifications, a counter of 0, no error |
| `SystemNotifications.NotificationCenter.Refetch` | frontend/src/hooks/useSystemNotifications.ts:44-62 | the error is cleared; a fetched list replaces the local one; a failure keeps the list and records its message; the counter is untouched |
| `SystemNotifications.NotificationCenter.FetchUnreadCount` | frontend/src/hooks/useSystemNotifications.ts:65-72 | a fetched count replaces the counter; a failure changes nothing |
| `SystemNotifications.NotificationCenter.Failed` | frontend/src/hooks/useSystemNotifications.ts:99-106 | the shared catch branch: the error is set, then the refetch runs, so the list is as the refetch leaves it and the error is the refetch's (`ErrorAfterFailureAsWritten`: none after a good refetch); the counter is untouched |
| `SystemNotifications.NotificationCenter.MarkAsRead` | frontend/src/hooks/useSystemNotifications.ts:75-110 | raises exactly when the call fails; on success that notification is read, the counter drops floored at 0, then the refetch; on failure the counter is kept and the list and error are those the refetch leaves, so a good refetch clears the call's error |
| `SystemNotifications.NotificationCenter.MarkAsUnread` | frontend/src/hooks/useSystemNotifications.ts:113-148 | raises exactly when the call fails; on success that notification is unread and the counter rises by 1, unchecked; on failure the counter is kept and the list and error are those the refetch leaves (`ErrorAfterFailureAsWritten`) |
| `SystemNotifications.NotificationCenter.MarkAllAsRead` | frontend/src/hooks/useSystemNotifications.ts:151-179 | raises exactly when the call fails; on success every notification is read and the counter is 0; on failure the counter is kept and the list and error are those the refetch leaves (`ErrorAfterFailureAsWritten`) |
| `SystemNotifications.NotificationCenter.Drop` | frontend/src/hooks/useSystemNotifications.ts:182-267 | dismiss and remove: raises exactly when the call fails; on success the notification leaves the list and the counter follows `CountAfterDrop`; on failure the counter is kept and the list and error are those the refetch leaves (`ErrorAfterFailureAsWritten`) |
| `SystemNotifications.NotificationCenter.Restore` | frontend/src/hooks/useSystemNotifications.ts:212-238 | raises exactly when the call fails; on success only that notification's dismissed flag is cleared; the counter is untouched; on failure the counter is kept and the list and error are those the refetch leaves (`ErrorAfterFailureAsWritten`) |
| `SystemNotifications.NotificationCenter.CompleteActivity` | frontend/src/hooks/useSystemNotifications.ts:270-308 | raises exactly when the call fails; on success that notification is read and the counter follows `CountAfterDrop`; on failure the counter is kept and the list and error are those the refetch leaves (`ErrorAfterFailureAsWritten`) |

## Left out

- Datastore plumbing: the Supabase client and its query builder are not modelled. `.single()` raising on zero rows is modelled only for the profile reads of the agent service, where it ends in 500; there a present row always carries the selected `full_name` key, so the "Usuario" and "Agente de Soporte" fallbacks never apply and a null name stays None. A store call that returns no data is modelled only where the source gives it its own rule (the compensating delete of an image message, for one).
- Exceptions that the routes turn into a 500 are modelled only where the source raises them for a reason the model can see (a missing row, a dangling foreign key, a parse failure). Any other failure of a store call is out of scope.
- The language model, its prompts and the title generator's call: their replies are parameters (`None` when the call raised).
- `clean_text`: its Unicode NFKC normalisation and character stripping are a function parameter. Only its final strip is modelled, as `Strings.Trim`.
- Python's `str.lower()` and JavaScript's `toLowerCase()` are modelled on ASCII letters and the Spanish capitals (Á É Í Ó Ú Ñ Ü). Full Unicode case mapping is out of scope.
- Python's `str.isdigit()` and the digit test of the number check accept only the ASCII digits. Other Unicode digits are out of scope.
- `strptime` is modelled strictly, with two-digit fields. Its acceptance of one-digit fields such as "9:5:0" is not modelled.
- Floating point: the 0.7 similarity threshold, sizes in megabytes and the rounded resolution rate are stated in exact integer arithmetic.
- Email delivery (SMTP, MIME, the HTML and plain-text templates) is a mailer parameter that reports success or failure.
- The scheduler's APScheduler thread, its start and stop, and the global singleton are concurrency. One tick is modelled, with `now` as a parameter.
- Real concurrency in general: two agents racing on one claim are out of scope. The one-active-case invariant is proved for sequential execution only.
- Waiting: the retry helpers' `time.sleep` calls are recorded as a delay sequence (`Retry.Delays`), not performed.
- Network I/O: websocket accept and receive, and the outcome of a send, are parameters. The order in which a broadcast reaches the sockets of a room is not modelled (a room is a set). Websocket authentication is out of scope.
- The image uploader's reply (its `secure_url`, its public id) is a parameter. The allowed content types and the default size limit come from configuration and are parameters too.
- A knowledge-base entry whose category is present but null is modelled like a missing category ("General").
- Locale rendering (`toLocaleTimeString`, `toLocaleDateString`, `toISOString`) is named in the result types but not produced. The parsing of date text in the frontend is out of scope too: an API record carries its instant.
- `localeCompare` is modelled as code-unit order.
- Highlighting "today" in the month grid reads the clock and is not modelled. The notification icons and other purely presentational markup are out of scope.
- `ChatInterface.ParseInt` models `parseInt` on an optional sign and ASCII digits; the other numeric prefixes `parseInt` accepts ("0x", exponents) are out of scope.
- `AgentChat.AgentChatState.SendMessageWithText` does not model a throw from the websocket send. It models the socket path and the HTTP fallback with its restore of the input on failure. The stale closure over `sending` between renders is out of scope.
- The agent chat's image send (`handleSendMessage`'s upload branch) and its voice input (the Web Speech API) are out of scope: both are browser and network I/O.
- `getSolutionDetails` and `registerView` of the quick-solutions page only call the API and log, and are left out.
- The conversation page's title text and its initial message list only pass values through, and are left out.
- The refetch parameters of the activity list hook are not modelled: `ActivityStore.Activities.Refetch` takes the fetched list.
- The loading flag of the notifications page is not modelled. It ends false after every refetch.
- `ChatBase.NumericText` models `!isNaN(Number(s))` only on blank text and on ASCII digits after an optional sign. Decimals, exponents, "0x" prefixes and "Infinity", which `Number` also accepts, are out of scope; message ids are numbers, UUIDs or `temp-…` texts, and none of those has such a form.
- `QuickSolutions.GetCategories`: a row whose `category` key is present but null cannot be written in the model (`Solution.category` is a string when present, as the frontend type declares it). In the source, `None.capitalize()` would raise there and the endpoint would return an empty list.
- `QuickSolutions.PagesTile`: proved for the model's order only, where the sort puts rows tied on the helpful count in one fixed order; the source orders by the helpful count alone (quick_solutions_service.py:59) and pages with `.range` (:62), so the database may repeat or skip tied rows between pages. `QuickSolutions.PopularSolutions` breaks ties on both counters the same way, which the source does not fix.
- `ActivityService.PlanUpdateIntended` is not used by the update operations: `PlanUpdate`, `UpdateActivity` and `UpdateActivityRoute` follow the source as written.
- `SystemNotifications.ErrorAfterFailure` is not used by `NotificationCenter`: its actions keep the as-written rule, under which a successful refetch clears the error.
- `CalendarInterface.Navigate` is not used by `NavigateMonth`, which follows the source as written. The two agree on days 1 to 28.
- `QuickSolutions.ListSolutions` requires a limit of at least 1. The service itself accepts any limit, but the only caller, the list endpoint, bounds it to 1..100.

## Findings

| source | as written | input that shows it | evidently intended | confidence | as-written member | corrected member |
|---|---|---|---|---|---|---|
| backend/app/services/activity_service.py:208-216 | `":" not in new_time[-3:]` decides whether to append ":00". The last three characters of an "HH:MM" time always hold its colon, so the seconds are never added and `strptime` raises | an update with time "10:30" | append ":00" to a five-character "HH:MM" time, so that the update parses as creation does | high (not executed) | `ActivityService.UpdateShortTimeAlwaysFails`, `ActivityService.PlanUpdate` | `ActivityService.PlanUpdateIntended`, `ActivityService.RescheduleIntendedVersusAsWritten` |
| frontend/src/hooks/useSystemNotifications.ts:99-106 | the catch branch sets the error and then awaits `refetch()`, which clears the error first. The failed action's error is gone whenever the refetch succeeds | `markAsRead` whose API call fails, followed by a successful refetch | the error of the failed action stays visible | medium (not executed) | `SystemNotifications.FailureErrorIsLost` | `SystemNotifications.ErrorAfterFailure` |
| frontend/src/components/CalendarInterface.tsx:63-73 | `setMonth(month ± 1)` keeps the day of the month, so a day missing from the target month overflows into the month after it | "next" from 2025-01-31 gives 2025-03-03 and skips February | move to the adjacent month | high (not executed) | `CalendarInterface.NextFromJanuary31SkipsFebruary` | `CalendarInterface.NavigateRoundTrip` |
