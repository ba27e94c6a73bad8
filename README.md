# Chat client synchronisation, modelled in Dafny

This project models the client side of a two-party chat app built on a hosted document backend. The app is written in React Native. The model covers:

- the **chat provider** (`contexts/ChatContext.js`). It keeps two ordered lists, `conversations` and `messages`. It loads them from the backend and reconciles them with realtime change events. Each event is filtered for relevance and then applied as a create (prepend), an update (replace every entry with the payload's `$id`) or a delete (remove every such entry).
- the provider's two write paths: `sendMessage` (create the message, then update the conversation preview) and `createConversation` (reuse the first listed conversation or create one).
- the **authentication provider** (`contexts/AuthContext.js`). It holds `user` and `loading`, runs the session check, login, registration and logout, and writes the presence flag along the way.
- the **service helpers** (`utils/appwriteService.js`): record construction, the subscription filters and the first-or-fallback lookups.
- the logic of the two screens: the `user_id` map, the other participant, display fallbacks, the send guard, the `sending` flag and the button state.

Layout, one module per source file:

| file | module | models |
|---|---|---|
| `Docs.dfy` | `Docs` | document records, `Principal` (a user document or raw account details), `Reply` (a backend call's value or exception) |
| `AppwriteService.dfy` | `AppwriteService` | `utils/appwriteService.js` |
| `ChatEvents.dfy` | `ChatEvents` | the event reducers of `contexts/ChatContext.js` (pure) |
| `ChatContext.dfy` | `ChatContext` | the rest of `contexts/ChatContext.js`: class `ChatProvider`, send and get-or-create |
| `AuthContext.dfy` | `AuthContext` | `contexts/AuthContext.js`: class `AuthProvider`, app-state mapping |
| `ConversationListScreen.dfy` | `ConversationListScreen` | `screens/ConversationListScreen.js` |
| `ChatScreen.dfy` | `ChatScreen` | `screens/ChatScreen.js` |

How the model is built:

- Every backend SDK call is an input of type `Reply<T>`: `Ok(value)` for what it returned, `Threw` for an exception. Timestamps (`now`) and fresh ids are inputs too.
- The providers and screens are classes whose fields are the React state. The two loads are split at their awaited listing: `loadMessages` is `BeginLoadMessages` and then `CompleteLoadMessages`, and the same holds for `loadConversations`. Every other operation is one method that runs to completion.
- Backend calls are kept in an ordered field so their order can be stated. `AuthProvider.requests` holds the session and write calls the provider issues, in order: create or delete a session, create an account or a user document, set presence. The read calls (`getSession`, `account.get`, the listings) are inputs and are not recorded. `ChatProvider.writes` holds the document writes the backend accepted.
- Subscriptions are never closed in the code. So `ChatProvider` keeps one entry per opened subscription: the `user_id` or conversation id that subscription captured. A realtime event goes to every open subscription in order (`DeliverConversationEvent`, `DeliverMessageEvent`). The loop is proved to equal "apply the event once per relevant subscription" (`ChatEvents.ApplyTimes`).

What the code does, as opposed to an idempotent, deduplicating merge (the model follows the code):

- A create never deduplicates. Receiving the same create twice, or through two subscriptions, gives two entries (`CreateDoesNotDeduplicate`, `RepeatedCreateCount`, `ReactivationScenario`).
- A message subscription compares the payload with the conversation id it captured when it was opened, not with the active conversation. Old subscriptions stay open, so after switching conversations, messages of the previous conversation still reach `messages` (`StaleSubscriptionScenario`).
- After sign-out, the lists are kept and the old conversation subscription keeps applying events (`SignedOutScenario`).
- `loadMessages` writes its result whichever conversation is active when it resolves (`CompleteLoadMessages`).
- Update and delete act on every entry with the payload's id, not just the first. Both are idempotent (`ReplaceIdempotent`, `RemoveIdempotent`).
- `createConversation` checks for an existing conversation and then creates one, with nothing in between. It is proved idempotent for calls that run one after another against a backend that lists in creation order (`GetOrCreateIdempotent`). Concurrent calls can both see an empty listing and create two conversations; concurrency is not modelled.

Some guards in the source never fire:

- `checkUserStatus` catches every error, so `login` returns true exactly when the session is created.
- `register` ignores what `login` returns, so it succeeds exactly when the account and its user document are created.
- The provider's `sendMessage` catches every error. So `handleSendMessage`'s `catch` is never taken, and the input is cleared after every send that was attempted, even one that failed.

## Model

| member | source | states |
|---|---|---|
| `AppwriteService.ForwardsConversation` | utils/appwriteService.js:172 | the conversation subscription forwards a payload iff it has `participants` and they include `userId` |
| `AppwriteService.ForwardsMessage` | utils/appwriteService.js:182 | the message subscription forwards a payload iff its `conversation_id` is the subscribed one |
| `AppwriteService.NewMessageFields` | utils/appwriteService.js:139-145 | a new message carries the given conversation, sender and content, is unread, and is stamped `now` |
| `AppwriteService.NewConversationFields` | utils/appwriteService.js:103-107 | a new conversation stores the participants unchanged, with `created_at == updated_at == now` and no preview |
| `AppwriteService.NewUserFields` | utils/appwriteService.js:14-20 | the registered user document has `user_id` equal to the account id and `is_online` true |
| `AppwriteService.CreatedRecordsPassFilters` | utils/appwriteService.js:167-185 | a message built for a conversation passes that conversation's filter; a conversation built for `[self, other]` passes both users' filters |
| `AppwriteService.SendMessage` | utils/appwriteService.js:130-164 | the message is written first, then the preview with `last_message = content` and `last_message_at = updated_at = now`; success iff both writes succeed; if the preview write fails, the message stays written |
| `AppwriteService.CreateConversation` | utils/appwriteService.js:96-112 | the result is the created document with the participants unchanged, or the create's exception |
| `AppwriteService.CreateAccount` | utils/appwriteService.js:5-27 | succeeds iff both calls succeed; the user document is keyed by the new account's id and marked online |
| `AppwriteService.CurrentUserOf` | utils/appwriteService.js:54-58 | the first user document when any was found, otherwise the account details |
| `AppwriteService.GetCurrentUser` | utils/appwriteService.js:45-62 | an exception from either call propagates; otherwise first document or account details |
| `AppwriteService.GetUser` | utils/appwriteService.js:189-205 | the first listed document, or null for an empty listing; exceptions propagate |
| `AppwriteService.GetUserFindsRequested` | utils/appwriteService.js:191-201 | if the backend honours the `user_id` filter, the result is null exactly for an empty listing and otherwise is that user's document |
| `ChatEvents.KindOf` | contexts/ChatContext.js:160-170 | create is tested first, then update, then delete; exactly one of the four outcomes holds |
| `ChatEvents.Apply` | contexts/ChatContext.js:160-170 | the branch an event selects, applied to the list: prepend, replace by id, remove by id, or no change |
| `ChatEvents.Prepend` | contexts/ChatContext.js:161 | create grows the list by one, puts the payload first and keeps the old list as the tail |
| `ChatEvents.ReplaceById` | contexts/ChatContext.js:163-165 | update keeps the length; every entry with the payload's id becomes the payload and every other entry stays at its position |
| `ChatEvents.RemoveById` | contexts/ChatContext.js:167-169 | delete keeps exactly the entries with another id, in their order, and removes as many entries as carry the id |
| `ChatEvents.CreateDoesNotDeduplicate` | contexts/ChatContext.js:161 | a create for an id already present adds another entry with that id |
| `ChatEvents.ReplaceKeepsIds` | contexts/ChatContext.js:163-165 | update leaves the list's sequence of ids unchanged |
| `ChatEvents.ReplaceAbsentIsIdentity` | contexts/ChatContext.js:163-165 | an update for an absent id leaves the list unchanged |
| `ChatEvents.ReplaceIdempotent` | contexts/ChatContext.js:163-165 | applying the same update twice equals applying it once |
| `ChatEvents.RemoveAbsentIsIdentity` | contexts/ChatContext.js:167-169 | a delete for an absent id leaves the list unchanged |
| `ChatEvents.RemoveIdempotent` | contexts/ChatContext.js:167-169 | after a delete no entry has the id, and a second delete changes nothing |
| `ChatEvents.NoOpEvents` | contexts/ChatContext.js:160-170 | an event list naming none of the three operations, or an update/delete of an absent id, leaves the list unchanged |
| `ChatEvents.RepeatedDelivery` | contexts/ChatContext.js:179-195 | an event applied by k >= 1 subscriptions acts once if it is an update or delete, and is prepended k times if it is a create |
| `ChatEvents.RepeatedCreateCount` | contexts/ChatContext.js:184 | a create applied by k subscriptions adds k entries with its id |
| `ChatEvents.OnConversationEvent` | contexts/ChatContext.js:155-172 | no participants, no `user_id`, or a user not among the participants leaves `conversations` unchanged; otherwise the event's operation is applied |
| `ChatEvents.OnMessageEvent` | contexts/ChatContext.js:177-195 | the event is applied iff `conversation_id` equals the id captured by the subscription; otherwise `messages` is unchanged |
| `ChatEvents.MessageListenersPositive` | contexts/ChatContext.js:177-182 | some open message subscription acts on a payload iff one was opened for its conversation |
| `ChatEvents.ConversationListenersPositive` | contexts/ChatContext.js:151-159 | some open conversation subscription acts on a payload iff one was opened for a participant of it |
| `ChatEvents.ConversationDeliveryStep` | contexts/ChatContext.js:155-172 | handing the event to one more conversation subscription applies it once more exactly when that subscription finds it relevant |
| `ChatEvents.MessageDeliveryStep` | contexts/ChatContext.js:179-195 | handing the event to one more message subscription applies it once more exactly when it was opened for the payload's conversation |
| `ChatContext.SendMessage` | contexts/ChatContext.js:72-109 | skipped iff there is no active conversation or no user, and then nothing is written; a user without `user_id` or a failed create gives null with nothing written; when sent, the message is unread, from the user, stamped `now`, and the preview write carries the same content and `now`; when only the preview update throws, the result is null and the message stays written |
| `ChatContext.ChooseConversation` | contexts/ChatContext.js:125-140 | returns the first listed conversation, or builds `participants = [self, other]` with `created_at == updated_at` |
| `ChatContext.GetOrCreate` | contexts/ChatContext.js:111-147 | null without a user, when the listing throws, or when the create cannot be made or throws; otherwise the first listed conversation, or a new one with the created id and participants `[user_id, participantId]` |
| `ChatContext.Matching` | contexts/ChatContext.js:116-123 | a listing that honours both `contains` filters holds exactly the stored conversations with both ids, in stored order |
| `ChatContext.MatchingSymmetric` | contexts/ChatContext.js:119-122 | the two filters give the same listing in either order |
| `ChatContext.GetOrCreateIdempotent` | contexts/ChatContext.js:111-148 | for signed-in users with user documents, against a backend listing in creation order, the first get-or-create for a pair returns a conversation, and a second one run after it, from either side, returns that same conversation as an existing one |
| `ChatContext.ChatProvider.constructor` | contexts/ChatContext.js:12-15 | empty lists, no active conversation, `loading` true |
| `ChatContext.ChatProvider.BeginLoadConversations` | contexts/ChatContext.js:33-37 | without a user nothing happens; otherwise `loading` becomes true |
| `ChatContext.ChatProvider.CompleteLoadConversations` | contexts/ChatContext.js:38-50 | a successful listing replaces `conversations`; `loading` is false on every path |
| `ChatContext.ChatProvider.BeginLoadMessages` | contexts/ChatContext.js:53-55 | `loading` becomes true |
| `ChatContext.ChatProvider.CompleteLoadMessages` | contexts/ChatContext.js:56-69 | a successful listing replaces `messages` whatever conversation is active; `loading` is false on every path |
| `ChatContext.ChatProvider.SetUser` | contexts/ChatContext.js:18-23 | with a user, loading starts and a conversation subscription capturing its `user_id` is added; the lists are untouched |
| `ChatContext.ChatProvider.SetActiveConversation` | contexts/ChatContext.js:26-31 | with a conversation, loading starts and a message subscription capturing its id is added; earlier subscriptions remain |
| `ChatContext.ChatProvider.DeliverConversationEvent` | contexts/ChatContext.js:151-172 | `conversations` becomes the event applied once per open subscription that finds it relevant |
| `ChatContext.ChatProvider.DeliverMessageEvent` | contexts/ChatContext.js:177-195 | `messages` becomes the event applied once per open subscription opened for the payload's conversation |
| `ChatContext.ChatProvider.Send` | contexts/ChatContext.js:72-109 | the provider's writes grow by exactly the writes of `SendMessage`, and its outcome is returned |
| `ChatContext.ChatProvider.CreateConversation` | contexts/ChatContext.js:111-148 | returns what `GetOrCreate` resolves to; no user or a failed listing gives null and no change; a non-empty listing gives its first element and no change; otherwise the created conversation is written and returned, and conversations are reloaded; a failed create gives null |
| `ChatContext.StaleSubscriptionScenario` | contexts/ChatContext.js:177-197 | after switching from one conversation to another, a message created in the first is shown while the second is active |
| `ChatContext.ReactivationScenario` | contexts/ChatContext.js:26-31 | activating the same conversation through two objects shows each created message twice |
| `ChatContext.SignedOutScenario` | contexts/ChatContext.js:18-23 | after sign-out the old subscription still prepends a conversation of the signed-out user |
| `AuthContext.PresenceFor` | contexts/AuthContext.js:118-124 | `'active'` gives online, `'background'` or `'inactive'` gives offline, any other state gives no update |
| `AuthContext.StatusRequests` | contexts/AuthContext.js:30-33 | presence is set online only when a user document was found, and only for that document |
| `AuthContext.AuthProvider.constructor` | contexts/AuthContext.js:10-11 | no user, `loading` true |
| `AuthContext.AuthProvider.UpdateUserStatus` | contexts/AuthContext.js:95-109 | issues one presence write; a failure is swallowed |
| `AuthContext.AuthProvider.CheckUserStatus` | contexts/AuthContext.js:17-42 | with a session, `user` becomes the first user document or else the account details; otherwise `user` is kept; `loading` is false on every path |
| `AuthContext.AuthProvider.Login` | contexts/AuthContext.js:44-53 | returns true iff the session is created; on failure `user` and `loading` are kept |
| `AuthContext.AuthProvider.Register` | contexts/AuthContext.js:55-79 | account, then a user document keyed by the account id and online, then login; true iff the first two succeed; after a successful registration, `user` and `loading` are what the awaited login left |
| `AuthContext.AuthProvider.Logout` | contexts/AuthContext.js:81-93 | presence goes offline before the session is deleted; `user` becomes null iff the deletion succeeds, and the result says so |
| `AuthContext.AuthProvider.RunUserEffect` | contexts/AuthContext.js:112-131 | the previous run's user goes offline, then the current user, if any, goes online and is captured |
| `AuthContext.AuthProvider.Unmount` | contexts/AuthContext.js:127-129 | the captured user goes offline |
| `AuthContext.SessionScenario` | contexts/AuthContext.js:44-93 | one login-to-logout session issues exactly these recorded session and write calls: create session, online, online, offline, delete session, offline |
| `ConversationListScreen.UserMap` | screens/ConversationListScreen.js:30-33 | the map's keys are exactly the listed `user_id`s |
| `ConversationListScreen.UserMapLaterWins` | screens/ConversationListScreen.js:30-33 | each `user_id` maps to the last listed document carrying it |
| `ConversationListScreen.BuildUserMap` | screens/ConversationListScreen.js:30-33 | the `forEach` loop builds exactly `UserMap` of the listing |
| `ConversationListScreen.OtherParticipant` | screens/ConversationListScreen.js:45-47 | the first participant different from the user, undefined iff every participant equals the user |
| `ConversationListScreen.OtherParticipantOfCreated` | screens/ConversationListScreen.js:88-90 | in a conversation created with another user, the other participant is that user; in one created with oneself there is none |
| `ConversationListScreen.DisplayFor` | screens/ConversationListScreen.js:49-51 | a known participant shows its name and online flag; an unknown one shows `'User'` and offline |
| `ConversationListScreen.PreviewText` | screens/ConversationListScreen.js:109 | a missing or empty last message shows `'Start a conversation'` |
| `ConversationListScreen.ShownTime` | screens/ConversationListScreen.js:113 | a time is shown only when `last_message_at` is set |
| `ConversationListScreen.ParamsFor` | screens/ConversationListScreen.js:41-58 | the chat opens with the other participant and its displayed name and flag |
| `ConversationListScreen.HandleNewChat` | screens/ConversationListScreen.js:60-84 | opens a chat with the first listed user; nothing for an empty listing or an exception |
| `ConversationListScreen.NewChatIsWithSomeoneElse` | screens/ConversationListScreen.js:63-72 | if the backend honours the `user_id` filter, a new chat is never with oneself |
| `ConversationListScreen.ConversationList.constructor` | screens/ConversationListScreen.js:12 | the user map starts empty |
| `ConversationListScreen.ConversationList.LoadUserData` | screens/ConversationListScreen.js:21-39 | a successful listing replaces the map with `UserMap`; an exception keeps it |
| `ConversationListScreen.ConversationList.SelectConversation` | screens/ConversationListScreen.js:41-58 | sets the conversation active, opening its subscription and starting its load, and returns the navigation parameters; the user, the lists, the conversation subscriptions and the writes are unchanged |
| `ChatScreen.TrimStart` | screens/ChatScreen.js:56 | drops exactly the leading white space: the result is a suffix, what was dropped is white space, and the result starts with a non-space |
| `ChatScreen.TrimEnd` | screens/ChatScreen.js:56 | drops exactly the trailing white space: the result is a prefix, what was dropped is white space, and the result ends with a non-space |
| `ChatScreen.LeadingSpaces` | screens/ChatScreen.js:56 | counts the white space at the start of the text: all of it is white space and the character after it is not |
| `ChatScreen.TrailingSpaces` | screens/ChatScreen.js:56 | counts the white space at the end of the text: all of it is white space and the character before it is not |
| `ChatScreen.Trim` | screens/ChatScreen.js:56 | `messageText.trim()`: both ends stripped of white space |
| `ChatScreen.TrimIsCore` | screens/ChatScreen.js:60 | the trimmed text is the slice between leading and trailing white space, and begins and ends with a non-space |
| `ChatScreen.TrimEmptyIffBlank` | screens/ChatScreen.js:56 | the text trims to empty iff it is all white space |
| `ChatScreen.TrimIdempotent` | screens/ChatScreen.js:60 | trimming twice is trimming once |
| `ChatScreen.SendBlocked` | screens/ChatScreen.js:56 | the handler refuses blank text or a missing active conversation |
| `ChatScreen.SendDisabled` | screens/ChatScreen.js:135 | the button is disabled for blank text, no active conversation, or a send in flight |
| `ChatScreen.StyledDisabled` | screens/ChatScreen.js:133 | the button is drawn disabled exactly when the handler's guard refuses; `sending` is not consulted |
| `ChatScreen.ButtonMatchesGuard` | screens/ChatScreen.js:133-135 | an enabled button always passes the handler's guard; the button is disabled while drawn enabled exactly during a send of text the guard accepts |
| `ChatScreen.IsMyMessage` | screens/ChatScreen.js:70 | a message is drawn as mine iff its `sender_id` is the user's `user_id`; never for a user without one |
| `ChatScreen.SentMessagesAreMine` | screens/ChatScreen.js:70 | a message the provider sent has `sender_id` equal to the user's `user_id`, so it is drawn as mine |
| `ChatScreen.Chat.constructor` | screens/ChatScreen.js:21-22 | empty input, not sending |
| `ChatScreen.Chat.HandleSendMessage` | screens/ChatScreen.js:55-67 | blank text or no active conversation changes nothing; otherwise the trimmed text is sent, then the input is cleared and `sending` is false |
| `ChatScreen.ShouldInitialize` | screens/ChatScreen.js:27 | the effect starts get-or-create only with no active conversation and a non-empty `userId` |
| `ChatScreen.Chat.ConversationEffect` | screens/ChatScreen.js:25-53 | runs exactly when `ShouldInitialize` holds; it then returns what `GetOrCreate` resolves to, makes it active (opening its subscription) when there is one, and leaves the provider as `CreateConversation` and `SetActiveConversation` together leave it |

## Left out

- Backend SDK calls (`databases.*`, `account.*`, `realtime.subscribe`) are inputs, not modelled. The user document of `checkUserStatus` is a listing input; this replaces the ad-hoc query string built at contexts/AuthContext.js:26.
- `login`, `logout`, `updateUserStatus`, `getConversations`, `getMessages` and `getAllUsers` in utils/appwriteService.js each make one SDK call and rethrow. There is nothing to model beyond the call.
- `ID.unique()` and `new Date().toISOString()` are the `created`/`newId` and `now` inputs. The missing `ID` import of contexts/ChatContext.js is not reproduced.
- Async interleaving is modelled only as far as the load methods' two halves. Concurrent `createConversation` calls, and effects re-running while a call is pending, are not modelled.
- The order in which several subscriptions of one channel receive an event is taken as their opening order. All of them apply the same operation, so the resulting list does not depend on this order.
- React object identity is not modelled. `SetUser` and `SetActiveConversation` model a render in which the value changed and the effect re-ran.
- `handleAppStateChange` is never registered with the app-state API in the source. Only its mapping (`PresenceFor`) is modelled.
- A user stored as raw account details has no `user_id`. For such a user, `sendMessage` would omit the required `sender_id` (lib/setup-appwrite.js:59), and the create step of `createConversation` would send `participants: [null, participantId]`, a null element in a required string array (lib/setup-appwrite.js:43). The model treats both writes as refused by the backend.
- Reading `userMap` with an undefined participant is treated as "not found". JavaScript would look up the key `"undefined"`.
- `ConversationListScreen.ParamsFor`: a listed conversation must have `participants`. The source would throw on `participants.find` otherwise, and every stored conversation has this required attribute.
- Rendering, styles other than the send button's disabled look, list inversion, time formatting (`toLocaleTimeString`), navigation, the login/register screens, lib/setup-appwrite.js and lib/appwrite.js are not part of this model.
- `ChatScreen.Chat.HandleSendMessage`: `sending` being true while the send is awaited is visible only inside the method. The model does not split it at its await, so its contract states only the state after the send.
