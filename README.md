# Chat client state machines, modelled in Dafny

This project models the client-side state logic of a single-page chat client
(React, TypeScript). The client signs a user in with a hosted auth service
(nhost), lists that user's conversations, shows the messages of the active
conversation, and sends new messages to a backend that answers with a bot
reply. Everything remote stays outside the model. The results of remote
calls are method parameters, and the requests the client issues are method
results.

Modules, one per core source file, plus two support modules:

- `Wrappers` — `Option`, standing for JavaScript's `null`/`undefined`.
- `Provider` — what the auth service returns: `User(id)` and
  `Session(accessToken)`.
- `Apollo` (src/apollo.ts) — the context link that writes the
  `authorization` header. It writes `"Bearer " + token`, the form of section
  2.1 of RFC 6750, or `""` when there is no token. It is a pure function on a
  `map<string, string>`. Its contract states that every other header is
  preserved. The lemmas prove that the token survives a round trip, that any
  incoming `authorization` is overwritten, and that the operation argument
  has no effect.
- `ChatInput` (src/components/ChatInput.tsx) — JavaScript's
  `String.prototype.trim`, written out over the exact ECMAScript whitespace
  set (WhiteSpace, including every Zs space separator, plus LineTerminator).
  It is proved equal to an independent reference definition, `IsTrimmingOf`,
  and that trimming is unique and idempotent. The class `Composer` holds the
  draft: typing, the submit guard, sending the trimmed text, clearing the
  draft, and the disabled-button predicate.
- `App` (src/App.tsx) — the class `AuthGate` over `loading` and
  `isAuthenticated`, with the probe, change-event, success and logout
  transitions, and `ScreenFor`, the render cascade.
- `AuthPage` (src/components/AuthPage.tsx) — the class `AuthForm`. Each
  submit handler is split at its `await`. `BeginSubmit` sets loading and
  clears the error. `SettleSubmit` handles a session, an error response or a
  thrown call, then resets loading as the `finally` does. The class also
  holds the tab and show-password toggles.
- `ChatLayout` (src/components/ChatLayout.tsx) — the class `ChatState` over
  `sidebarOpen`, `activeChat`, `chats` and `messages`. It covers conversation
  select, new chat, the chats-load policy, replacing the timeline with fetched
  rows, and the optimistic send followed by its reply. `View` is the render
  choice. Each asynchronous handler is split at its `await`/`.then` into a
  method that returns the request it issues and a method that applies the
  outcome. The model re-checks nothing between the two halves, because the
  component re-checks nothing either. Combined methods (`HandleNewChat`,
  `HandleSendMessage`) state the effect of the whole handler when nothing
  runs in between.

JavaScript truthiness is written out explicitly. An empty `activeChat` id
counts as no active conversation (`HasActive`). An empty reply appends
nothing. An empty access token counts as no token.

## Model

| member | source | states |
|---|---|---|
| `ChatInput.TrimIsTrimming` | src/components/ChatInput.tsx:14 | the trimmed draft is the draft minus a whitespace-only prefix and a whitespace-only suffix, and has no whitespace at either end |
| `ChatInput.TrimmingIsUnique` | src/components/ChatInput.tsx:14 | any string meeting that reference description of trimming equals `Trim` of the draft, so the trim result is determined |
| `ChatInput.TrimEmptyIffWhitespace` | src/components/ChatInput.tsx:13 | the trimmed draft is empty exactly when the draft is whitespace only (the condition the submit guard tests) |
| `ChatInput.TrimOfPadded` | src/components/ChatInput.tsx:14 | surrounding a string with no whitespace at its ends by whitespace on both sides and trimming gives the string back |
| `ChatInput.TrimIdempotent` | src/components/ChatInput.tsx:14 | trimming the sent text again changes nothing |
| `ChatInput.SentTextShape` | src/components/ChatInput.tsx:13-14 | text that passes the guard is non-empty, starts and ends with non-whitespace, and is a trimming of the draft |
| `ChatInput.IsWhitespace` | src/components/ChatInput.tsx:13-14 | the characters `trim()` removes; each is a single UTF-16 code unit (below U+10000) |
| `ChatInput.TrimStart` | src/components/ChatInput.tsx:14 | leading whitespace is dropped: never longer than the draft, and a non-empty result does not start with whitespace |
| `ChatInput.TrimEnd` | src/components/ChatInput.tsx:14 | trailing whitespace is dropped: never longer than its input, and a non-empty result does not end with whitespace |
| `ChatInput.Trim` | src/components/ChatInput.tsx:13-14 | `message.trim()`: never longer than the draft, and a non-empty result does not end with whitespace (the full characterisation is `TrimIsTrimming` / `TrimmingIsUnique`) |
| `ChatInput.TrimStartIsSuffix` | src/components/ChatInput.tsx:14 | dropping leading whitespace leaves a suffix of the draft, everything dropped is whitespace, and the suffix does not start with whitespace |
| `ChatInput.TrimEndIsPrefix` | src/components/ChatInput.tsx:14 | dropping trailing whitespace leaves a prefix, everything dropped is whitespace, and the prefix does not end with whitespace |
| `ChatInput.SendDisabled` | src/components/ChatInput.tsx:31 | the send button is disabled exactly when the draft is whitespace only, which is the case the submit guard rejects |
| `ChatInput.Composer.ButtonDisabled` | src/components/ChatInput.tsx:13-31 | the button is disabled exactly when the current draft is whitespace only, the same condition on which `Submit` sends nothing |
| `ChatInput.Composer.constructor` | src/components/ChatInput.tsx:9 | the draft starts empty |
| `ChatInput.Composer.Type` | src/components/ChatInput.tsx:25 | typing sets the draft to the input's value |
| `ChatInput.Composer.Submit` | src/components/ChatInput.tsx:11-17 | a whitespace-only draft sends nothing and keeps the draft; otherwise the trimmed draft is sent once and the draft becomes `""`; sent text is non-empty, stripped, and a trimming of the draft |
| `Apollo.TokenOf` | src/apollo.ts:11-12 | a token is present exactly when the session exists and carries a non-empty access token, and it is that token |
| `Apollo.AuthLink` | src/apollo.ts:10-20 | `authorization` is `"Bearer " + token` with a token and `""` without one; the keys are the incoming keys plus `authorization`; every other header keeps its value |
| `Apollo.BearerToken` | src/apollo.ts:17 | reading a credential `"Bearer " + t` with non-empty `t` gives exactly `t`, and any token it returns is non-empty and rebuilds the value |
| `Apollo.AuthLinkCarriesToken` | src/apollo.ts:12-17 | reading back the header the link wrote gives exactly the session's token, or no token |
| `Apollo.AuthLinkOverwrites` | src/apollo.ts:16-17 | the result is the same whether or not the incoming headers carried an `authorization` value |
| `Apollo.AuthLinkIgnoresOperation` | src/apollo.ts:10 | two different operations give the same headers |
| `App.ScreenFor` | src/App.tsx:39-47 | exactly one screen: Loading iff `loading`, AuthPage iff not loading and not authenticated, ChatLayout iff not loading and authenticated |
| `App.AuthGate.Render` | src/App.tsx:39-47 | the gate's current screen: loading iff `loading`, the auth page iff not loading and not authenticated, the chat layout iff not loading and authenticated |
| `App.AuthGate.constructor` | src/App.tsx:7-8 | starts with `loading` and not authenticated, so the loading screen is rendered |
| `App.AuthGate.InitAuthResolved` | src/App.tsx:12-16 | after the probe, `isAuthenticated` is whether a user came back and `loading` is false |
| `App.AuthGate.OnAuthStateChanged` | src/App.tsx:21-23 | `isAuthenticated` becomes whether the event carries a session; `loading` is untouched |
| `App.AuthGate.HandleAuthSuccess` | src/App.tsx:30-32 | authenticated afterwards; `loading` untouched |
| `App.AuthGate.HandleLogout` | src/App.tsx:34-37 | not authenticated once sign-out has resolved; a rejected sign-out changes nothing |
| `App.StartUp` | src/App.tsx:7-16 | from the initial state, a completed probe leads to the chat screen with a user and the auth screen without one |
| `AuthPage.ErrorAfter` | src/components/AuthPage.tsx:21-29 | a throw sets the fixed message; a session leaves the error as it was; an error response without a session sets its message; an empty response leaves it |
| `AuthPage.SignalsSuccess` | src/components/AuthPage.tsx:23-24 | `onAuthSuccess` is called for a response with a session, and such an outcome never writes the error, whatever its prior value |
| `AuthPage.SettledErrorIffFailure` | src/components/AuthPage.tsx:19-29 | after a submit the error is set exactly for a throw or a session-less error response, and never on success |
| `AuthPage.AuthForm.constructor` | src/components/AuthPage.tsx:10-15 | not loading, password hidden, empty credentials, sign-in tab, no error |
| `AuthPage.AuthForm.SelectTab` | src/components/AuthPage.tsx:78-97 | sets the tab; email, password and every other field are kept |
| `AuthPage.AuthForm.ToggleShowPassword` | src/components/AuthPage.tsx:124 | flips `showPassword` and nothing else |
| `AuthPage.AuthForm.SetEmail` | src/components/AuthPage.tsx:108 | the email becomes the input's value |
| `AuthPage.AuthForm.SetPassword` | src/components/AuthPage.tsx:118 | the password becomes the input's value |
| `AuthPage.AuthForm.BeginSubmit` | src/components/AuthPage.tsx:18-22 | loading starts, the error is cleared, the provider is called with the current email and password |
| `AuthPage.AuthForm.SettleSubmit` | src/components/AuthPage.tsx:23-32 | loading is false whatever the outcome; the error follows `ErrorAfter`; success is signalled exactly for a response with a session |
| `AuthPage.AuthForm.HandleSignIn` | src/components/AuthPage.tsx:17-33 | calls `signIn` with the current credentials; ends not loading, with the error `ErrorAfter` gives from a cleared error, and success signalled exactly for a session |
| `AuthPage.AuthForm.HandleSignUp` | src/components/AuthPage.tsx:35-51 | the same, with `signUp` |
| `ChatLayout.HasActive` | src/components/ChatLayout.tsx:91 | the truthiness of `activeChat` used at lines 91, 111 and 239: it is falsy exactly when it is null or the empty id |
| `ChatLayout.ToTimeline` | src/components/ChatLayout.tsx:66-77 | fetched rows map to entries one to one, in order, keeping id, content and sender; the timestamp is the localised creation time |
| `ChatLayout.ReplyMessages` | src/components/ChatLayout.tsx:132-140 | at most one entry; there is one exactly when the send resolved with a non-empty reply, and it is a bot entry carrying that reply |
| `ChatLayout.View` | src/components/ChatLayout.tsx:178-239 | "loading chats" iff the list is loading; otherwise loading messages iff they load, then the list iff the timeline is non-empty, otherwise the empty prompt; input iff a conversation is active; overlay iff the sidebar is open |
| `ChatLayout.ChatState.constructor` | src/components/ChatLayout.tsx:29-32 | sidebar closed, no active conversation, no conversations, empty timeline |
| `ChatLayout.ChatState.CurrentView` | src/components/ChatLayout.tsx:178-239 | the render for the current fields: "loading chats" iff the list loads; otherwise the loading pane iff messages load, the message list iff messages are not loading and the timeline is non-empty, the empty prompt iff not loading and empty, input iff a conversation is active, overlay and sidebar open iff `sidebarOpen` |
| `ChatLayout.ChatState.HandleChatSelect` | src/components/ChatLayout.tsx:171-176 | the id is active afterwards; the id changed exactly when it differed from the old one; the sidebar closes; conversations and timeline are untouched |
| `ChatLayout.ChatState.ToggleSidebar` | src/components/ChatLayout.tsx:209 | flips `sidebarOpen` |
| `ChatLayout.ChatState.CloseSidebar` | src/components/ChatLayout.tsx:195 | `sidebarOpen` becomes false |
| `ChatLayout.ChatState.MessagesDataEffect` | src/components/ChatLayout.tsx:60-79 | fetched data replaces the timeline entirely, via `ToTimeline`; no data leaves it as it was |
| `ChatLayout.ChatState.ChatsLoadEffect` | src/components/ChatLayout.tsx:85-99 | nothing without a user or while loading; a non-empty list replaces `chats` and activates its first id only if none is active; otherwise "New Conversation" is requested for the user and nothing changes yet |
| `ChatLayout.ChatState.OnDefaultChatCreated` | src/components/ChatLayout.tsx:100-106 | an inserted conversation becomes the whole list and the active one; otherwise nothing changes |
| `ChatLayout.RequestNewChat` | src/components/ChatLayout.tsx:146-157 | a "New Conversation" request for the user is issued exactly when there is a user |
| `ChatLayout.ChatState.OnNewChatCreated` | src/components/ChatLayout.tsx:158-168 | an inserted conversation is prepended and made active, and the timeline is emptied; otherwise nothing changes |
| `ChatLayout.ChatState.HandleNewChat` | src/components/ChatLayout.tsx:146-169 | the "New Conversation" request is issued exactly when there is a user, whatever the outcome; with a user and an inserted row: `chats = [new] + old`, the new one is active, the timeline is empty; without a user or a row, no field changes |
| `ChatLayout.ChatState.BeginSend` | src/components/ChatLayout.tsx:110-129 | with no active conversation or no user, nothing changes and nothing is sent; otherwise exactly one user entry with the content goes at the tail, earlier entries are unchanged, and the send names the active conversation and the user |
| `ChatLayout.ChatState.SettleSend` | src/components/ChatLayout.tsx:132-143 | the timeline becomes the current one plus `ReplyMessages`, so nothing is rolled back on failure |
| `ChatLayout.ChatState.HandleSendMessage` | src/components/ChatLayout.tsx:110-144 | a send is issued exactly when a conversation is active and a user is present; then the timeline is the old entries, the user entry, then the reply entry if any |
| `ChatLayout.FirstVisitScenario` | src/components/ChatLayout.tsx:85-108 | a user with no conversations gets "New Conversation" created and active, and sees the empty prompt with the input |
| `ChatLayout.HelloScenario` | src/components/ChatLayout.tsx:110-144 | sending "Hello" in an active conversation and getting "Hi there!" back gives a user entry, then a bot entry |

## Left out

- GraphQL documents (src/graphql/queries.ts, src/graphql/mutations.ts) are query strings for the remote service. Their result ordering (conversations newest first, messages oldest first) is not needed by any proof, so the model never assumes it.
- Apollo client construction and `ApolloProvider` mounting (src/apollo.ts:6-8, 22-25; src/main.tsx) are library wiring.
- The nhost calls (`signIn`, `signUp`, `signOut`, `getUser`, `getSession`, `onAuthStateChanged`) belong to a foreign service. Their results are parameters: `Option<User>`, `Option<Session>`, `AuthOutcome`, `SignOutOutcome`.
- The GraphQL calls are modelled the same way. Their results are the parameters `chatsData`, `messagesData`, `CreateChatOutcome` and `SendOutcome`. The query flags `chatsLoading` and `messagesLoading` are also parameters.
- The clock and locale are opaque parameters. This covers the `Date.now()` ids, the `toLocaleTimeString` timestamps, and the `localTime` function applied to a row's `created_at`. The bot id is a separate parameter because the source reads the clock again for it.
- Async interleaving is not modelled. That covers when React runs an effect (its dependency arrays), overlapping effects, and the lazy-query lifecycle (src/components/ChatLayout.tsx:43-57). The effect that issues a message fetch when `activeChat` changes (49-57) is part of that lifecycle. `HandleChatSelect` only reports whether the id changed. The split handler halves allow any interleaving, and the model holds no guard against a stale message fetch, because the component has none.
- Console logging, and the `messagesError` branch, which only logs.
- Presentation: `ChatMessage.tsx`, `ChatSidebar.tsx`, and the AuthPage render (the error alert, button labels, `disabled={isLoading}`).
- The auth-change subscription teardown (src/App.tsx:25-27) is React lifecycle plumbing.
- A probe that throws is not modelled. In the source it leaves `loading` true for good. In the model this means `InitAuthResolved` is never called.
- A `sendMessage` promise that the input does not await. `Composer.Submit` returns the one text it hands to the callback and does not follow the send further.
- The message `sender` is typed `Sender` (`user` or `bot`), as the component's interface declares. The server's value is copied without being checked.
- Dafny strings here are sequences of Unicode scalar values, not of UTF-16 code units as in JavaScript. Trimming is unaffected, because every character `trim()` removes is a single code unit below U+10000 (`IsWhitespace`'s contract).
- Header names are case-sensitive, as JavaScript object keys are. A missing incoming headers object spreads to nothing, so it is the empty map.
- The component has none of the following safeguards, and the model adds none:
  - No discard guard exists for stale message fetches.
  - Switching users does not reset the active selection.
  - A failed message fetch leaves the timeline as it was.
  - The chats-load effect creates the default conversation whenever the list query yields no non-empty list. That includes a query that returned no data at all.
  - The active conversation picked on load is the first row returned.
  - A create mutation that rejects inside the load effect changes nothing.
