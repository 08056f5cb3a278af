# Turn handling of two chatbots, modelled in Dafny

The repository holds two small bots. Each has one piece of turn-handling logic, and this project models that logic with the SDK calls replaced by inputs.

- **The OAuth echo bot** (`AzureBotSample`). A router sends message and token-response activities into one dialog. The dialog is a two-step waterfall. Step 1 lowers the text and dispatches on `login`, `logout`, `profile` or anything else. Step 2 handles the sign-in prompt's result. The router welcomes added members other than the bot. At the end of every turn that completes, it saves conversation state, then user state. The same directory also holds a plain echo bot and a test controller.
- **The Teams AI agent** (`src`). Its message routes are registered in order: `/reset`, `/signout`, then every message. The first route that takes the activity wins. The catch-all route increments a per-conversation `MessageCount`, posts the text to a query recommender, and replies once, prefixed with the new count. Authentication and its sign-in handlers exist only when a connection name is configured.

Every call to the outside world is an input to the model:

- whether a token client is present, and what sign-out, the token lookup and Graph's `/me` return;
- what the sign-in prompt answers;
- what the recommender POST returns;
- whether each send succeeds;
- the framework's verdict on which route selectors match.

Each step reports the external calls it makes, in order.

Files, one module each:

| file | module | models |
|---|---|---|
| `main_dialog.dfy` | `Dialogs` | `AzureBotSample/Dialogs/MainDialog.cs` |
| `oauth_echo_bot.dfy` | `OAuthEcho` | `AzureBotSample/OAuthEchoBot.cs` |
| `echo_bot.dfy` | `Echo` | `AzureBotSample/EchoBot.cs` |
| `test_controller.dfy` | `Controllers` | `AzureBotSample/Controllers/TestController.cs` |
| `app_state.dfy` | `Models` | `src/Models/AppState.cs` |
| `quote_agent.dfy` | `QuoteAgent` | the handlers of `src/Program.cs` |
| `activities.dfy` | `Activities` | activity kinds, send outcomes, the members-added welcome loop both bots share |
| `text_case.dfy`, `decimal.dfy`, `int32.dfy`, `wrappers.dfy` | helpers | `ToLowerInvariant`, `{n}` interpolation of an `int`, C#'s unchecked `int` increment, `Option` / `Result` |

What the code does, and does not do, in places where one might expect otherwise:

- The recommender POST has a 30 s client timeout. There is no separate 18 s deadline.
- The POST carries no bearer token.
- A 2xx body is echoed verbatim. It is never parsed for `agent_output`.
- There is no retry.
- `/reset` deletes the conversation state. It does not zero the count in place. The next turn therefore starts from a fresh record.
- Nothing keeps a token cache. Sign-out is only attempted when a token client is present.
- While the sign-in prompt is pending, a typed `logout` or `profile` is not dispatched. Only the prompt's answer matters in that turn.
- The two state saves are skipped when a failure escapes the dispatch. A welcome send that fails is one such failure. So not every turn saves.
- Sign-in expiry is the prompt's own timeout (300000 ms). The bot has no lazy expiry check of its own.

## Model

| member | source | states |
|---|---|---|
| `TextCase.Lower` | AzureBotSample/Dialogs/MainDialog.cs:45 | lowering keeps the length and lowers every character in place |
| `TextCase.LowerMatchesIgnoringCase` | AzureBotSample/Dialogs/MainDialog.cs:45-53 | for a lower-case keyword, the lowered text equals it iff the text equals it ignoring case (both directions) |
| `Dialogs.ParseCommand` | AzureBotSample/Dialogs/MainDialog.cs:45-53 | the text is `login` / `logout` / `profile` iff it equals that word ignoring case; surrounding whitespace never matches; a missing text is none of them |
| `Dialogs.PromptStep` | AzureBotSample/Dialogs/MainDialog.cs:43-54 | only `login` (any case) begins the sign-in prompt, with no call and no reply of its own; `logout` (any case) is exactly `HandleLogout`, `profile` exactly `HandleProfile`, and every other text, or none, exactly `HandleEcho`; every text but `login` ends the dialog this turn with exactly one reply |
| `Dialogs.HandleLogout` | AzureBotSample/Dialogs/MainDialog.cs:56-80 | one reply and the dialog ends; sign-out is called iff a token client exists; the "signed out" reply appears iff the sign-out succeeded; without a client, "unable to sign out"; a sign-out exception gives the error reply carrying its message |
| `Dialogs.ProfileEmail` | AzureBotSample/Dialogs/MainDialog.cs:107 | `Mail`, else `UserPrincipalName`, else "Not available" |
| `Dialogs.ProfileMessage` | AzureBotSample/Dialogs/MainDialog.cs:104-109 | the "couldn't retrieve" apology iff there is no user information; otherwise, in order: the header, the display name (or "Not available"), the e-mail label, `ProfileEmail` of the user, the user-id label, the id (or "Not available"), and nothing else |
| `Dialogs.HandleProfile` | AzureBotSample/Dialogs/MainDialog.cs:82-119 | one reply and the dialog ends; no client: "Authentication not available" and no call; no token: "login first"; lookup exception: error reply with its message; the Graph lookup is made iff a client returned a token |
| `Dialogs.GreetingName` | AzureBotSample/Dialogs/MainDialog.cs:156 | the display name when the user and the name are present, else "there" |
| `Dialogs.AuthenticatedEcho` | AzureBotSample/Dialogs/MainDialog.cs:153-158 | the reply is, in order and with nothing else: the authenticated-echo greeting up to "Hello ", `GreetingName` of the user, "!): ", and the message text verbatim |
| `Dialogs.PlainEcho` | AzureBotSample/Dialogs/MainDialog.cs:130 | the reply is the echo marker, the text verbatim, then exactly the sign-in tip when asked for and nothing otherwise |
| `Dialogs.HandleEcho` | AzureBotSample/Dialogs/MainDialog.cs:121-151 | exactly one reply and the dialog ends; a token gives the authenticated echo; no client or no token gives the echo with the tip; a lookup exception gives the echo without the tip; a missing text echoes as empty |
| `Dialogs.GetUserInfo` | AzureBotSample/Dialogs/MainDialog.cs:179-201 | never fails: a user comes back iff a 2xx response decoded to a user, and it is that user; any other outcome is no user |
| `Dialogs.WelcomeMessage` | AzureBotSample/Dialogs/MainDialog.cs:171-173 | the generic welcome iff there is no user information; otherwise the personal welcome prefix, the display name (empty when missing), then the fixed list of commands |
| `Dialogs.LoginStep` | AzureBotSample/Dialogs/MainDialog.cs:160-177 | one reply and the dialog ends; no token: only the failure reply and no call; a token: one Graph lookup and the welcome for its result |
| `Dialogs.ContinuePrompt` | AzureBotSample/Dialogs/MainDialog.cs:33-37 | the waterfall stays in the prompt iff the prompt is still pending; a pending prompt adds no call and no reply; a completed prompt adds exactly `LoginStep`'s calls, then its replies, after step 1's |
| `Dialogs.RunTurn` | AzureBotSample/Dialogs/MainDialog.cs:33-54 | from the start, any text other than `login` is exactly `PromptStep`'s calls and one reply, and the dialog stays idle; from the start, `login` enters the prompt and continues with its answer, and with the prompt pending the dialog waits with no call and no reply; the dialog waits only while the prompt is pending; inside the prompt the text is not dispatched |
| `Dialogs.LoginThenCompletedPromptRunsLoginStep` | AzureBotSample/Dialogs/MainDialog.cs:49 | `login` followed by a completed prompt yields exactly the login step's replies, and the dialog is idle again |
| `Dialogs.NoDispatchWhileAwaiting` | AzureBotSample/Dialogs/MainDialog.cs:33-37 | while the prompt is pending, a turn makes no sign-out and no token lookup |
| `Dialogs.MainDialog.constructor` | AzureBotSample/Dialogs/MainDialog.cs:17-41 | the connection name defaults to "BotTeamsAuthADv2"; registers the prompt (300000 ms), then the two-step waterfall, which runs first |
| `Activities.Newcomers` | AzureBotSample/OAuthEchoBot.cs:63-65 | the members to welcome are exactly the added members whose id differs from the bot's |
| `Activities.NewcomersMultiset` | AzureBotSample/OAuthEchoBot.cs:63-70 | each added member other than the bot is welcomed as many times as it was added; the bot never is |
| `Activities.DeliveredRun` | AzureBotSample/EchoBot.cs:47-63 | the number of sends made before the first failure: all earlier ones delivered, the next one (if any) failed |
| `Activities.SendWelcomes` | AzureBotSample/EchoBot.cs:47-63 | one welcome per newcomer, in order, while sends succeed; the first failure stops the loop and escapes with its message |
| `Activities.OneWelcomePerNewcomer` | AzureBotSample/EchoBot.cs:47-63 | when every send succeeds, the loop runs over all newcomers, and their number is the number of added members minus the bot's occurrences |
| `Echo.EchoReply` | AzureBotSample/EchoBot.cs:21 | the reply is "Echo: " followed by the text verbatim |
| `Echo.SendOnce` | AzureBotSample/EchoBot.cs:24-33 | a failed send is rethrown: nothing is delivered and the failure escapes |
| `Echo.OnTurn` | AzureBotSample/EchoBot.cs:18-81 | a message gets the echo; added members get the welcome loop, and a failed welcome send's own failure escapes; an unrecognised activity gets exactly the one "don't understand" reply; other kinds get nothing |
| `OAuthEcho.FirstNullDependency` | AzureBotSample/OAuthEchoBot.cs:27-33 | construction fails iff a dependency is null, naming the first one in parameter order |
| `OAuthEcho.Create` | AzureBotSample/OAuthEchoBot.cs:27-33 | an argument-null error naming that parameter, or a fresh bot at the start of the dialog |
| `OAuthEcho.DialogTurn` | AzureBotSample/OAuthEchoBot.cs:39-45 | the new dialog state, calls and replies are those of `Dialogs.RunTurn` on the given text, in that order; running the dialog never saves and never fails in the model |
| `OAuthEcho.Dispatch` | AzureBotSample/OAuthEchoBot.cs:39-83 | a message runs the dialog on its own text; a token-response event runs it with no text; added members get the welcome loop, whose first failed send escapes; other events and other kinds do nothing; no saves during dispatch; only message and token-response activities move the dialog |
| `OAuthEcho.Turn` | AzureBotSample/OAuthEchoBot.cs:89-98 | the turn's state, failure and events before the saves are the dispatch's; a completed turn ends with the conversation save, then the user save, both non-forced, and has no other saves; a failed turn saves nothing |
| `OAuthEcho.TokenResponseRunsDialog` | AzureBotSample/OAuthEchoBot.cs:77-83 | a token-response turn is the dialog turn of a text-less message, on the same dialog state |
| `OAuthEcho.OAuthEchoBot.OnMembersAdded` | AzureBotSample/OAuthEchoBot.cs:51-71 | logs one welcome per newcomer until the first failed send, which escapes; the dialog state is untouched |
| `OAuthEcho.OAuthEchoBot.RunDialog` | AzureBotSample/OAuthEchoBot.cs:39-45 | running the main dialog on the turn's text updates the dialog state and appends the calls and replies exactly as `DialogTurn` says |
| `OAuthEcho.OAuthEchoBot.DispatchActivity` | AzureBotSample/OAuthEchoBot.cs:39-83 | the new dialog state, the appended events and the escaping failure are exactly those of `Dispatch` |
| `OAuthEcho.OAuthEchoBot.OnTurn` | AzureBotSample/OAuthEchoBot.cs:89-98 | the new dialog state and the appended events are exactly those of `Turn` |
| `Controllers.Echo` | AzureBotSample/Controllers/TestController.cs:16-20 | the chosen text is `Message` when it is non-empty, else `Text`; `originalMessage` is the chosen text; `echo` is "Echo: " followed by it |
| `Controllers.EmptyBodyEchoesPrefix` | AzureBotSample/Controllers/TestController.cs:23-27 | an empty body (both fields "") echoes exactly "Echo: " |
| `Models.ConversationState.MessageCount` | src/Models/AppState.cs:50-54 | reads the "MessageCount" entry; 0 when absent |
| `Models.ConversationState.SetMessageCount` | src/Models/AppState.cs:53 | writes the "MessageCount" entry; every other entry is unchanged |
| `Models.AppState.constructor` | src/Models/AppState.cs:12-16 | nothing is loaded; the conversation default is a fresh, empty record |
| `Models.AppState.GetConversation` | src/Models/AppState.cs:23-32 | fails with the argument error iff the scope is not loaded; otherwise returns the scope's value |
| `Models.AppState.SetConversation` | src/Models/AppState.cs:34-43 | on an unloaded scope, the argument error and no change; otherwise the scope holds the new value |
| `Models.SetThenGet` | src/Models/AppState.cs:23-43 | on a loaded scope, a read after a write returns what was written |
| `Models.LoadThenGet` | src/Models/AppState.cs:23-32 | once the scope is loaded the getter succeeds, with the stored record or, when storage holds nothing, the scope default |
| `QuoteAgent.FirstMatch` | src/Program.cs:90-112 | the first registered route that takes the activity: it takes it, no earlier route does; none when no route does |
| `QuoteAgent.Takes` | src/Program.cs:90-112 | a route takes only message activities; `/reset` and `/signout` take a message their selector accepts; the catch-all takes every message |
| `QuoteAgent.CatchAllReply` | src/Program.cs:140-155 | starts with "[n] "; the rest starts with the suggestion, status or error label iff the POST was 2xx, another status, or an exception (both directions); a 2xx body, the status name and the exception message each follow their label verbatim |
| `QuoteAgent.ReplyDeterminesCount` | src/Program.cs:143-154 | equal replies carry equal counts: the "[n]" prefix identifies the count |
| `QuoteAgent.NextCount` | src/Program.cs:91-117 | the catch-all adds one (below the 32-bit maximum); `/reset` leaves a record that reads 0; `/signout` leaves the count |
| `QuoteAgent.CountsEveryMessage` | src/Program.cs:114-117 | n catch-all turns from count c end at c + n: counting is gap-free |
| `QuoteAgent.ResetRestartsCount` | src/Program.cs:91-95 | after `/reset`, whatever came before, the next message is number 1 |
| `QuoteAgent.SignInSuccessReplies` | src/Program.cs:161-172 | the success reply first; the token-length reply iff "entra" has a token; the original message last |
| `QuoteAgent.Application.constructor` | src/Program.cs:62-112 | authentication is configured iff the connection name is non-empty, with its settings; routes `/reset`, `/signout`, catch-all in that order; sign-in handlers iff the name is non-empty |
| `QuoteAgent.Application.AuthEnabled` | src/Program.cs:62-81 | authentication is enabled iff the configured connection name is non-empty |
| `QuoteAgent.Application.OnReset` | src/Program.cs:91-95 | the conversation scope reads as a fresh empty record; one confirmation; no call |
| `QuoteAgent.Application.OnSignOut` | src/Program.cs:98-109 | configured: one sign-out call, then the confirmation unless the sign-out threw; not configured: the "not configured" reply and no call |
| `QuoteAgent.Application.OnMessage` | src/Program.cs:112-156 | on a loaded scope: the count goes up by one before the POST; one POST whose payload's `input_text` is the activity text; exactly one reply, `CatchAllReply` of the new count; on an unloaded scope: the argument error and nothing else |
| `QuoteAgent.Application.OnSignInSuccess` | src/Program.cs:159-172 | with handlers registered, the success replies; otherwise nothing |
| `QuoteAgent.Application.OnSignInFailure` | src/Program.cs:174-183 | with handlers registered, the failure reply, then "Error: " and the message; otherwise nothing |
| `QuoteAgent.Application.OnTurn` | src/Program.cs:90-156 | the first matching route handles the turn, and only a message is taken; an untaken activity changes nothing, the conversation record included; `/signout` leaves the record as it was; the catch-all on an unloaded scope leaves it unloaded; `/reset` has exactly `OnReset`'s effects, `/signout` exactly `OnSignOut`'s and the catch-all exactly `OnMessage`'s (calls, replies, failure, record); when the scope was loaded and no failure escaped, the count afterwards is `NextCount` of the route taken |
| `QuoteAgent.CatchAllTurnCounts` | src/Program.cs:114-155 | whatever the POST does, a catch-all turn on a loaded scope below the 32-bit maximum raises the count by one and sends one reply that starts with the new count |
| `Decimal.ParseIntToString` | src/Program.cs:143 | the rendered count reads back as the same integer |
| `Int32.Increment` | src/Program.cs:117 | `++count` adds one, and `int.MaxValue` wraps to `int.MinValue` |

## Left out

- Host and dependency wiring, both bot controllers, both adapter error handlers, `TestController.Get` (it reads the clock), and the configuration holder. The connection name is a parameter.
- The HTTP calls themselves, the token client, `OAuthPrompt`'s internals, JSON serialisation, and the framework's state load, save, route selectors and sign-in flow. Each is an input to the model, or a short model method that says what it assumes (`Models.AppState.LoadConversation`, `Models.AppState.DeleteConversationState`).
- The sign-in card that `OAuthPrompt` sends, and its re-prompts. The prompt's outcome is an input: still pending, or ended with or without a token. Ending without a token covers failure and the 300000 ms timeout.
- Async, cancellation tokens and logging. Each turn runs sequentially.
- Dialogs.HandleLogout, Dialogs.HandleProfile, Dialogs.HandleEcho: every send in these is assumed to succeed. A failed send inside the `try` would be caught, and the error or fallback reply sent instead. A failed send in the `catch` (AzureBotSample/Dialogs/MainDialog.cs lines 76, 115 and 137) would escape the dialog.
- Dialogs.LoginStep: both of its sends (lines 165 and 175 of AzureBotSample/Dialogs/MainDialog.cs) are assumed to succeed. They sit outside any `try`, so a failure would escape the dialog.
- OAuthEcho.Dispatch: only the welcome loop's sends can fail in the model. A send failure escaping the dialog, as described for the two lines above, would also end the turn before both saves. The model does not produce that outcome.
- QuoteAgent.Application.OnMessage: its sends are assumed to succeed. A failed send inside the `try` would be caught and answered with the error reply. A failed error reply would escape.
- QuoteAgent.Application.OnSignOut, QuoteAgent.Application.OnReset, QuoteAgent.Application.OnSignInSuccess, QuoteAgent.Application.OnSignInFailure: their sends (src/Program.cs lines 94, 103, 107, 164, 168, 171, 177 and 178) are assumed to succeed. None is inside a `try`, so a failure would escape the handler and skip the sends after it.
- QuoteAgent.CatchAllReply: the status is written as .NET's rendering of the `HttpStatusCode` enum. That rendering is taken as an input with the response, not computed.
- TextCase.LowerChar: only ASCII and Latin-1 capitals are lowered. Other Unicode case mappings are not modelled; some of them map to ASCII letters.
- Decimal.IntToString: culture-specific negative signs are not modelled.
- Models.ConversationState: only integer record values are modelled. The record's entries are a `map<string, int32>`.
- The conversation record is modelled as a value owned by the turn state. Aliasing of the record object across turn states is not modelled.
- OAuthEcho.OAuthEchoBot: the dialog's `DialogState` property is a field of the bot. It persists between turns as the conversation state would. Saves are logged as events. Whether a non-forced save actually writes is decided by the framework.
- Member and recipient ids are non-null strings. Null ids, a null connection name, and null string fields of UserInfo beyond `Option` are not modelled.
- `Activity.Text` of a token-response event is taken as missing.
- String lengths count Unicode scalar values. .NET counts UTF-16 code units. This matters only for the token-length reply, and tokens are ASCII.
