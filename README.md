# Chat client core of the classroom front-end, modelled in Dafny

This project models the part of the classroom platform's web client that has real logic: the chat.
That is the session hook that keeps one room's state in step with the socket (`useChat`), the
composer and header of the open conversation (`ChatContainer`), the conversation list's names and
selection (`ConversationList`), the typing sentence (`TypingIndicator`), and the phone-number
helpers (`phoneAddCode` / `phoneRegion`).

Modules, one per source file plus three shared ones:

- `UseChat` (use_chat.dfy): the session as a class `ChatSession`. Its fields are the options of
  the latest render, `messages`, `isConnected`, `typingUsers`, `conversations`, whether the eight
  handlers are registered, the typing-withdrawal timer and the options its callback captured. A
  ghost `log` records every call made on the socket: each emission (event name and payload) and
  each handler registration and removal. The effect is `RunEffect`, its cleanup is `Close`, and
  a render with different options is `ChangeOptions`: the cleanup for the old options, then the
  effect for the new ones, with the state and the timer ref kept as they are. Each inbound event
  (`room_joined`, `chat_history`, `receive_message`, `user_typing`, `connect`, `disconnect`) is a
  method, and so are `sendMessage`, `sendTypingStatus` and the firing of the 3000 ms timer. The
  list updates are pure functions with lemmas: append, the typing-list update, and the
  move-to-front of the conversation a message belongs to. The invariant `Valid` records what
  every method keeps:
  - no name is listed twice as typing;
  - a withdrawal timer is pending exactly when the last `typing` status sent was "typing", and
    then the options its callback captured are known;
  - the handler registrations and removals in the log balance: each inbound event has exactly
    one live handler while the effect runs, and none otherwise;
  - a session that never had options has never emitted, subscribed or changed its own state.
- `ChatContainer` (chat_container.dfy): the header title and subtitle, the input bar's disabled
  flags, message keys, and a class `Composer`. `Composer` holds `inputValue`, `isTyping` and the
  1000 ms debounce timer, and logs the `onTyping` / `onSendMessage` callbacks. Its invariant says
  that `isTyping` always equals the last typing signal sent to the parent, and that while it is set
  a timer is armed that will clear it.
- `ConversationList` (conversation_list.dfy): the displayed name, the row highlight, and the choice
  between spinner, empty state and rows.
- `TypingIndicator` (typing_indicator.dfy): the sentence for the list of typing users.
- `PhoneFormat` (phone.dfy): the national/international conversion, with the student form's
  validator `^(\+84|84|0)[0-9]{9}$` as a predicate.
- `JsString`, `Timers`, `ChatTypes`, `Optional`: JavaScript string semantics (`trim`,
  `startsWith`, `slice`, `||`, number rendering), the `setTimeout`/`clearTimeout` handle kept in a
  ref, and the records of types/chat.type.ts.

A timer is a slot holding the set of armed handles and the handle in the ref. Clearing cancels the
handle in the ref; arming stores a fresh handle. The slot's own invariant already implies that at
most one timer is pending (`Timers.AtMostOnePending`). What is proved is that clearing, arming
and firing keep that invariant, and that every method of `ChatSession` and `Composer` keeps its
class invariant, which includes it.

Four methods without a contract of their own walk through sessions:
- `UseChat.StaleTimerAfterSwitch`: a "typing" signal left pending when the options change still
  fires afterwards and emits "not typing" for the old room;
- `UseChat.NewRoomCancelsOldWithdrawal`: a "typing" status sent after the switch cancels that
  withdrawal through the shared ref, so "not typing" then goes to the new room only;
- `UseChat.RoomSwitchKeepsState`: switching rooms keeps the connection flag, the messages and the
  typing list of the old room;
- `UseChat.HistoryThenLive`: a history of three messages, then a live message.

The model follows the code in these places, where a design for such a client might expect
otherwise:
- the connection state is the boolean `isConnected`, with no separate "connecting" state;
- a reconnect does not emit `join_room` again;
- history replaces the message list rather than merging with it;
- neither cleanup nor `sendMessage` cancels the typing timer;
- a change of options keeps the messages, the connection flag, the typing list and the
  conversations of the previous room. The typing list may even hold the new local user's name;
  only within one run of typing events is the local user never listed (`LastTypingEventWins`);
- a message for a room with no conversation leaves the list unchanged.

Phone numbers: `phoneAddCode` only recognises "+84". A number written "84…", which the validator
accepts, keeps its "4": "84987654321" becomes "+844987654321", which the validator then rejects
(`PhoneFormat.AddCodeOn84Prefix`).

## Model

| member | source | states |
|---|---|---|
| `JsString.Trim` | hooks/useChat.ts:117-123 | `trim()` yields "" exactly when the text is all whitespace; otherwise the result starts and ends with a non-space |
| `JsString.TrimIsInfix` | hooks/useChat.ts:123 | the trimmed text is the slice of the original after its leading whitespace, and only whitespace is cut at either end |
| `JsString.TrimIdempotent` | hooks/useChat.ts:123 | trimming an already trimmed text changes nothing |
| `JsString.Slice` | utils/index.ts:6 | `slice(n)` keeps the text after position n, and yields "" when n is past the end |
| `JsString.NatToString` | components/chat/TypingIndicator.tsx:15 | a count renders as one or more decimal digits, with no leading zero |
| `JsString.ParseNatToString` | components/chat/ChatContainer.tsx:65 | reading the rendered count back as a decimal gives the count |
| `JsString.NatToStringInjective` | components/chat/TypingIndicator.tsx:15 | different counts render as different texts |
| `Timers.TimerSlot.Clear` | hooks/useChat.ts:143-145 | `clearTimeout(ref.current)` leaves no timer armed; the ref keeps its stale handle |
| `Timers.TimerSlot.Arm` | hooks/useChat.ts:147-157 | `setTimeout` stores a fresh handle in the ref; after a clear it is the only armed timer |
| `Timers.TimerSlot.Fire` | components/chat/ChatContainer.tsx:91-94 | once the armed timer has run, nothing is pending |
| `Timers.AtMostOnePending` | hooks/useChat.ts:143-157 | with every arm preceded by a clear, at most one timer is ever armed |
| `Timers.ClearThenArm` | components/chat/ChatContainer.tsx:87-94 | clear-then-arm replaces the pending timer instead of adding a second one |
| `ChatTypes.FirstOtherIndex` | components/chat/ChatContainer.tsx:55-57 | `find(p => p.id !== currentUserId)` picks the first participant who is not the current user; it finds none exactly when every participant is the current user |
| `PhoneFormat.PhoneAddCode` | utils/index.ts:1-9 | for "vi" the result always starts with "+84"; for any other region it is "+" followed by the input |
| `PhoneFormat.PhoneRegion` | utils/index.ts:11-16 | for "vi" the result always starts with "0"; for any other region it is the input |
| `PhoneFormat.AddCodeCases` | utils/index.ts:2-6 | a number starting "+84" is unchanged; any other loses its first character to "+84"; "" becomes "+84" |
| `PhoneFormat.AddCodeIdempotent` | utils/index.ts:1-9 | adding the country code twice equals adding it once |
| `PhoneFormat.RegionCases` | utils/index.ts:12-13 | for "vi", the first three characters are replaced by "0"; a number of three characters or fewer becomes "0" |
| `PhoneFormat.LocalRoundTrip` | utils/index.ts:1-16 | a number starting with "0" survives adding the code and converting back |
| `PhoneFormat.InternationalRoundTrip` | utils/index.ts:1-16 | a number starting with "+84" survives converting to national form and adding the code back |
| `PhoneFormat.AddCodeNormalisesValid` | utils/index.ts:1-9 | a valid "0…" or "+84…" number becomes a 12-character "+84" number the validator accepts again |
| `PhoneFormat.AddCodeOn84Prefix` | utils/index.ts:6 | a valid "84"+9-digit number becomes "+844"+9 digits, which the validator rejects |
| `PhoneFormat.ForeignRegion` | utils/index.ts:8-15 | outside "vi", `phoneAddCode` prepends "+" and `phoneRegion` is the identity |
| `TypingIndicator.DisplayText` | components/chat/TypingIndicator.tsx:7-15 | nothing is rendered exactly when the list is empty; every sentence ends in " typing". From three typists on, the sentence is a decimal number without a leading zero, reading back as the list's length, followed by " people are typing" |
| `TypingIndicator.NamesInOrder` | components/chat/TypingIndicator.tsx:10-14 | one typist: the name, then exactly " is typing". Two typists: the first name, " and ", the second name, then exactly " are typing" |
| `TypingIndicator.SingularIffOne` | components/chat/TypingIndicator.tsx:11-15 | the sentence says "is typing" exactly when one user types |
| `TypingIndicator.CountOnly` | components/chat/TypingIndicator.tsx:15 | from three typists on, two lists give the same sentence exactly when they have the same length |
| `ConversationList.ConversationName` | components/chat/ConversationList.tsx:25-31 | the name is never empty. A group shows its name (or "undefined") + " - Group Chat". A direct conversation shows the first other participant's name, or "Unknown User" if there is none or it is empty |
| `ConversationList.GroupNameShape` | components/chat/ConversationList.tsx:27 | a group's name ends in " - Group Chat" and is never the bare fallback "Group Chat" |
| `ConversationList.RowsOf` | components/chat/ConversationList.tsx:55-57 | one row per conversation, in list order, with its name; a row is highlighted iff its id is the selected id |
| `ConversationList.ListConversation` | components/chat/ConversationList.tsx:37-55 | loading shows the spinner; otherwise an empty list shows the empty state and a non-empty one its rows |
| `ConversationList.AtMostOneSelected` | components/chat/ConversationList.tsx:56 | with distinct conversation ids, at most one row is highlighted |
| `ChatContainer.Title` | components/chat/ChatContainer.tsx:48-59 | never empty. "Chat" with no conversation. For a group, its name if non-empty, else "Group Chat". For a direct chat, the first other participant's non-empty name, else "Unknown User" |
| `ChatContainer.Subtitle` | components/chat/ChatContainer.tsx:61-72 | "" with no conversation. A group gives "<n> members", where n is a decimal number without a leading zero that reads back as the participant count. A direct chat gives "Student" iff the other participant is a student, otherwise "Instructor" |
| `ChatContainer.DirectTitleMatchesListName` | components/chat/ChatContainer.tsx:48-59 | a direct conversation's header title equals its name in the conversation list |
| `ChatContainer.SendDisabled` | components/chat/ChatContainer.tsx:255 | the send button is disabled iff the input is all whitespace or the chat is disconnected |
| `ChatContainer.InputBarConsistent` | components/chat/ChatContainer.tsx:248-255 | a disabled input implies a disabled send button; an enabled button means the input is not blank |
| `ChatContainer.KeyOf` | components/chat/ChatContainer.tsx:221 | the key is never empty. It is the message id when present and non-empty, else the position written in decimal, as React turns keys into strings |
| `ChatContainer.KeysDistinct` | components/chat/ChatContainer.tsx:219-225 | keys are pairwise distinct when the present ids are, and no id equals the decimal position of a message without one |
| `ChatContainer.KeyClash` | components/chat/ChatContainer.tsx:221 | without the second condition keys clash: a message with id "1" and an id-less message at position 1 both get the key "1" |
| `ChatContainer.Composer.constructor` | components/chat/ChatContainer.tsx:41-45 | empty input, not typing, no timer, no callbacks |
| `ChatContainer.Composer.InputChange` | components/chat/ChatContainer.tsx:78-95 | stores the value. The first non-empty change while idle emits exactly one `onTyping(true)`. Every change replaces the pending timer with one new timer |
| `ChatContainer.Composer.Send` | components/chat/ChatContainer.tsx:97-108 | a non-blank input is passed untrimmed to `onSendMessage`, then cleared, `onTyping(false)` follows and the timer is cancelled; a blank input changes nothing |
| `ChatContainer.Composer.KeyPress` | components/chat/ChatContainer.tsx:110-115 | Enter without Shift sends, which for a non-blank input also cancels the pending timer; any other key changes nothing |
| `ChatContainer.Composer.FireTypingTimer` | components/chat/ChatContainer.tsx:91-94 | the debounce timer clears `isTyping` and emits `onTyping(false)` |
| `UseChat.OnEach` | hooks/useChat.ts:90-97 | one registration per event, in the given order; each event is registered as often as it is listed, and nothing is removed |
| `UseChat.OffEach` | hooks/useChat.ts:101-108 | one removal per event, in the given order; each event is removed as often as it is listed, and nothing is registered |
| `UseChat.HandledEventsOnce` | hooks/useChat.ts:90-97 | every inbound event is handled exactly once, and the eight wire names are distinct |
| `UseChat.Subscribe` | hooks/useChat.ts:90-97 | the effect's handler calls are all registrations |
| `UseChat.Unsubscribe` | hooks/useChat.ts:101-108 | the cleanup's handler calls are all removals |
| `UseChat.SubscriptionCounts` | hooks/useChat.ts:90-108 | the effect registers exactly one handler per inbound event and removes none; the cleanup removes exactly one per inbound event and registers none |
| `UseChat.HandlersInSourceOrder` | hooks/useChat.ts:90-108 | registrations and removals both follow the source order of the eight handlers |
| `UseChat.BalancedOpen` | hooks/useChat.ts:30-97 | after `join_room` and the registrations, each inbound event has exactly one live handler |
| `UseChat.BalancedClose` | hooks/useChat.ts:99-108 | after `leave_room` and the removals, no inbound event has a live handler |
| `UseChat.CleanupRemovesEveryHandler` | hooks/useChat.ts:90-109 | from the effect through any emissions to its cleanup, every event is removed as often as it was registered, the cleanup starts with `leave_room`, and every removal comes after it |
| `UseChat.AppendMessage` | hooks/useChat.ts:41 | one message is added at the end, earlier messages are unchanged, and a duplicate is kept (its count grows by one) |
| `UseChat.RemoveAll` | hooks/useChat.ts:76 | every occurrence of the name is dropped; every other name is kept as often as before and in its order (a subsequence); a list without the name is returned as it was |
| `UseChat.ApplyTyping` | hooks/useChat.ts:67-80 | the local user's echo changes nothing. Another user is listed afterwards iff the event says typing. "Typing" appends the name only if absent. "Not typing" drops every occurrence and keeps the rest in order. Duplicates never appear |
| `UseChat.ApplyTypingIdempotent` | hooks/useChat.ts:67-80 | applying the same typing event twice equals applying it once |
| `UseChat.LastTypingEventWins` | hooks/useChat.ts:67-80 | after any run of typing events, a user is listed iff the last event about them said typing; the local user never is, and nobody twice |
| `UseChat.FindConversation` | hooks/useChat.ts:43-45 | `findIndex` gives the first conversation whose id is the message's room, and finds none exactly when no id matches |
| `UseChat.Touch` | hooks/useChat.ts:49-55 | the summary and `updatedAt` come from the message; every other field is unchanged |
| `UseChat.BumpConversation` | hooks/useChat.ts:42-59 | the length is unchanged, and with no matching conversation the list is returned as it was |
| `UseChat.BumpMovesToFront` | hooks/useChat.ts:46-57 | the matching conversation, updated, is at index 0. Those before it move back one place, those after it stay put |
| `UseChat.BumpPermutesIds` | hooks/useChat.ts:47-57 | the bumped list holds the same conversation ids, each the same number of times |
| `UseChat.BumpIdempotent` | hooks/useChat.ts:42-59 | a second bump by the same message leaves the list as the first left it |
| `UseChat.ChatSession.constructor` | hooks/useChat.ts:14-30 | mount: state starts empty and disconnected with an idle timer ref. Without options nothing is emitted or subscribed. With options the log is `join_room {roomId,userId,userName}` followed by the eight registrations |
| `UseChat.ChatSession.RunEffect` | hooks/useChat.ts:21-97 | the effect for new options: without options nothing happens; with options `join_room` is emitted and the eight handlers are registered, after which the socket exists |
| `UseChat.ChatSession.ChangeOptions` | hooks/useChat.ts:99-110 | equal options change nothing. Otherwise the log gains the old effect's cleanup, if one ran, then the new effect's calls. Messages, connection flag, typing list, conversations, timer ref and the timer's captured options are all kept |
| `UseChat.ChatSession.SetConversations` | hooks/useChat.ts:19 | the externally loaded list replaces the conversations |
| `UseChat.ChatSession.RoomJoined` | hooks/useChat.ts:31-34 | connected, and `get_history {roomId, limit: 50}` is emitted; after cleanup nothing changes |
| `UseChat.ChatSession.ChatHistory` | hooks/useChat.ts:36-38 | the messages become the received list, or [] when it is absent, whatever came before |
| `UseChat.ChatSession.ReceiveMessage` | hooks/useChat.ts:40-61 | the message is appended and its conversation bumped; after cleanup nothing changes |
| `UseChat.ChatSession.UserTyping` | hooks/useChat.ts:67-80 | the typing list takes the update of `ApplyTyping` for the local user's name |
| `UseChat.ChatSession.Connect` | hooks/useChat.ts:82-84 | connected while subscribed, without re-joining the room |
| `UseChat.ChatSession.Disconnect` | hooks/useChat.ts:86-88 | disconnected while subscribed |
| `UseChat.ChatSession.Close` | hooks/useChat.ts:99-109 | emits `leave_room {roomId,userName}` and then removes the eight handlers; afterwards every event has been removed as often as it was registered; the typing timer is untouched |
| `UseChat.ChatSession.SendMessage` | hooks/useChat.ts:112-128 | with options, a socket and a non-blank text, emits `send_message` with the trimmed text; otherwise nothing is emitted; messages never change |
| `UseChat.ChatSession.SendTypingStatus` | hooks/useChat.ts:130-160 | emits `typing {roomId,userName,isTyping}` and cancels the pending withdrawal, whichever options armed it. It arms a new 3000 ms one exactly when the status is "typing", capturing the current options; without options nothing happens |
| `UseChat.ChatSession.FireTypingTimer` | hooks/useChat.ts:148-156 | a pending withdrawal emits `typing {…, isTyping: false}` for the options its callback captured, and leaves nothing pending |

## Left out

- services/socket.ts is not part of this model. The socket is the call log plus one method per
  inbound event. Connection set-up, socket.io's reconnection, transports and the `connecting` flag
  are not modelled. Nothing in the repository releases the shared socket, so a session opened with
  options always has one. `socketHeld` only says whether one existed already.
- Elapsed time: timers are armed or not and fire when their owner's fire method is called. The
  1000 ms and 3000 ms delays are recorded as constants only.
- `user_joined` and `user_left`: their handlers have empty bodies. The model records only their
  registration and removal.
- Unmount is `ChatSession.Close`. A React component is never rendered again after it, but the
  model does not forbid calling `ChangeOptions` on a closed session.
- React scheduling: every state update takes effect before the next event is handled. Batching
  and stale closures between renders are not modelled.
- `UseChat.Touch`: the source mutates the conversation object in place inside a copied array, so
  the previous array sees the change too. The model uses values, so that aliasing is not captured.
- Strings are sequences of Unicode scalar values, not UTF-16 code units. `length`, `slice` and
  `trim` differ only for characters outside the Basic Multilingual Plane.
- `IsOwn` (message drawn as own iff `msg.userId == currentUserId`, components/chat/ChatContainer.tsx:223)
  and `InputDisabled` (input disabled iff disconnected, line 248) are one-line comparisons. They
  are modelled without a contract of their own.
- Rendering is not modelled: avatars, colours, the connection badge, the spinner in the message
  pane, scrolling to the latest message, the group-info toggle, the delete-group button, and
  back-navigation. Relative dates (`formatTime`, date-fns) need the wall clock and are left out too.
- The REST services, the authentication middleware, the stores, the modals and the pages are not
  part of this model. The only exception is the phone pattern of the student form, used as
  `PhoneFormat.ValidVnPhone`.
