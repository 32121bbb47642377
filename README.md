# Chat session model

A Dafny model of the chat page of the carpool application
(`frontend/src/pages/Chat/index.jsx`). A logged-in user picks a partner from a
list of past conversations. The page loads that conversation's history over
HTTP and learns the carpool the conversation belongs to from the first message.
It then exchanges messages with the partner over a websocket. The socket address
is derived from the two user ids.

- `Numerals` models how a JavaScript template literal renders an integer id.
  It also has an inverse parser, used only to prove that the rendering loses
  nothing.
- `Channel` models the socket address (line 34). The path is the larger id, a
  slash, then the smaller id. With no partner selected it is
  `undefined/<user id>`. The lemmas prove that the path is symmetric in the two
  users, that it identifies the pair exactly, and that it reads back to its key.
- `ChatSession` holds the page's state. The `useState` fields are fields of
  class `Chat`, and each handler is a method that states the whole new state:
  `onChange`, `selectUserChat`, the history effect and its completion, the
  socket's `onMessage` and `sendMessage`. The object invariant `Valid()` is the
  fact the render gate relies on: whenever a user is selected and the page is
  not busy, the selection has a carpool. The constructor establishes it and
  every handler keeps it.
- `ChatScenarios` drives the class through concrete runs: a first load, a stale
  history fetch that wins, re-selection, an empty history, and a send followed
  by the server's echo.

External collaborators become parameters:
- A history fetch in flight is recorded with the selection its callback
  captured. The caller chooses which fetch resolves and with which messages.
- Inbound socket frames arrive already parsed.
- Whether the socket send throws is a boolean argument.
- Frames handed to the socket are appended to `outbox`, together with the
  address they went out on.

What the code does, and the model with it:
- Selecting a partner does not clear the message list (lines 95-98).
- Clicking the open conversation again reloads it. The list entry has no
  carpool, so the selection changes and a new fetch goes out (lines 68, 96).
- A late history result is not discarded. It writes back the selection
  captured when the fetch was issued, whatever is selected now (line 85).
- Inbound `list-messages` data replaces the list as it arrives, unsorted and
  with duplicates kept (line 40).
- A message's carpool is a record: its `id` and `name` are read (lines 114
  and 160).
- An empty history is not handled. Reading `messages[0].carpool` throws after
  the list has been replaced, so the selection and `busy` stay as they were
  (lines 84-86). After a single selection the page stays busy. If an earlier
  overlapping fetch already cleared `busy`, the page keeps showing that
  selection's carpool above the now-empty list.

## Model

| member | source | states |
|---|---|---|
| `Numerals.Digits` | frontend/src/pages/Chat/index.jsx:34 | an id's decimal rendering is non-empty, all digits, and has no leading zero unless the id is 0 |
| `Numerals.FromInt` | frontend/src/pages/Chat/index.jsx:34 | an id rendered into the socket path is non-empty and never contains the `/` separator |
| `Numerals.DigitsValueOfDigits` | frontend/src/pages/Chat/index.jsx:34 | reading the digits of `n` back gives `n` |
| `Numerals.ToIntFromInt` | frontend/src/pages/Chat/index.jsx:34 | parsing the rendering of any integer, negative ones included, gives that integer back |
| `Numerals.FromIntInjective` | frontend/src/pages/Chat/index.jsx:34 | two ids render the same exactly when they are equal |
| `Channel.ParseRender` | frontend/src/pages/Chat/index.jsx:34 | a socket path reads back to the (high, low) pair it was built from, the missing partner included |
| `Channel.PathOfPair` | frontend/src/pages/Chat/index.jsx:34 | with a partner selected, the path is `max(user, partner)/min(user, partner)` |
| `Channel.PathWithoutPartner` | frontend/src/pages/Chat/index.jsx:34 | with no partner, `user.id > undefined` is false and the path is `undefined/<user id>` |
| `Channel.PathSymmetric` | frontend/src/pages/Chat/index.jsx:34 | the two participants compute the same path whoever opens the chat |
| `Channel.PathIdentifiesPair` | frontend/src/pages/Chat/index.jsx:34 | two (user, partner) pairs share a path exactly when they are the same two users, in either order |
| `Channel.PathWithoutPartnerIsNoPair` | frontend/src/pages/Chat/index.jsx:34 | the address used before any selection is never the channel of a real pair |
| `ChatSession.Chat.constructor` | frontend/src/pages/Chat/index.jsx:28-32 | the initial state is empty input, no conversations, no selection, no messages and not busy; the render-gate invariant holds |
| `ChatSession.Chat.ShownCarpool` | frontend/src/pages/Chat/index.jsx:157-160 | the conversation is shown exactly when a user is selected and not busy, and then its carpool exists and is the selection's |
| `ChatSession.Chat.ConversationsLoaded` | frontend/src/pages/Chat/index.jsx:62-64 | the fetched conversation list is stored as it came; nothing else changes |
| `ChatSession.Chat.OnChange` | frontend/src/pages/Chat/index.jsx:91-93 | the input becomes the typed text; nothing else changes |
| `ChatSession.Chat.HistoryEffect` | frontend/src/pages/Chat/index.jsx:67-69 | a history fetch is issued, capturing the current selection, exactly when a user is selected and has no carpool |
| `ChatSession.Chat.SelectUserChat` | frontend/src/pages/Chat/index.jsx:95-98 | selection becomes the carpool-less user and busy is set; the list, input and outbox are untouched; a fetch is issued unless that same selection was already current |
| `ChatSession.Chat.CompleteFetch` | frontend/src/pages/Chat/index.jsx:83-87 | the list becomes the fetched messages; if non-empty, the selection becomes the one captured at issue time plus the first message's carpool and busy clears; if empty, selection and busy stay as they were; the invariant is kept |
| `ChatSession.Chat.FailFetch` | frontend/src/pages/Chat/index.jsx:71-87 | a rejected history request changes no state: there is no handler for it |
| `ChatSession.Chat.OnMessage` | frontend/src/pages/Chat/index.jsx:35-46 | a `list-messages` frame sets the list to exactly its data; any other kind changes nothing and is reported unrecognized |
| `ChatSession.Chat.SendMessage` | frontend/src/pages/Chat/index.jsx:100-122 | empty input is refused with its notice and nothing is sent; a missing selection or carpool, or a throwing send, gives the error notice and keeps the input; otherwise exactly one `create-message` frame (input, user id, partner id, carpool id) goes out on the current address and the input is cleared; the list, selection and busy flag never change; while the conversation is shown (the only time the form exists) a non-empty input is sent exactly when the socket does not throw, so the missing-selection and missing-carpool branches never run in the page |
| `ChatScenarios.FirstConversation` | frontend/src/pages/Chat/index.jsx:34-98 | user 1 opening user 2 with one message of carpool 5 shows carpool 5 and that message, on socket path `2/1` |
| `ChatScenarios.StaleHistoryWins` | frontend/src/pages/Chat/index.jsx:67-98 | picking 2 then 3 and getting 2's history first leaves 2 selected and shown, not busy, with 2's carpool and 2's messages, although 3 was picked last; 3's later history then selects 3 |
| `ChatScenarios.Reselect` | frontend/src/pages/Chat/index.jsx:67-98 | a second click while loading issues no second fetch; clicking the open conversation hides it and reloads it |
| `ChatScenarios.EmptyHistory` | frontend/src/pages/Chat/index.jsx:83-157 | after a single selection, an empty history leaves the page busy with an empty list and the conversation, send form included, hidden; when an overlapping fetch for another user already completed, an empty history for the last-picked user leaves the earlier user's conversation shown with its carpool above an empty list |
| `ChatScenarios.SendThenEcho` | frontend/src/pages/Chat/index.jsx:35-122 | a sent message appears in the list only when the server echoes it; a frame of another kind changes nothing |

## Left out

- Rendering is not modelled: JSX, styled components, `ScrollToBottom`, icons, the sender labels and `getFormatedTime`. Only the render gate's dereference at lines 157-160 is modelled, as `ShownCarpool`.
- Toasts and console logging are not modelled as side effects. Toasts become the `Rejected` notice text, and the "unknown message type" log becomes `OnMessage`'s result.
- The HTTP requests, the stored token and the `Authorization` header are not modelled. A fetch's outcome is an argument to `CompleteFetch` or `FailFetch`.
- The websocket connection lifecycle, reconnection on address change and `JSON.parse` are not modelled. Events arrive already parsed, so a `list-messages` frame without a `data` array, which would throw, is not represented.
- `event.preventDefault()` in `sendMessage` is not modelled: it only affects the browser's form handling.
- `SelectUserChat`: React skips the update when the new state is the same object. The model compares by value instead. Two list entries with identical fields are distinct objects in JavaScript, but they are equal here.
- `CompleteFetch`: the three setters in the callback apply as one step. The invariant also holds after each setter on its own, because the carpool is set before `busy` clears.
- Every message is assumed to carry a non-null `carpool` record, as the server sends it. A message whose carpool is null or missing is not represented. Such a first message would clear `busy` at line 86, make line 68 issue the fetch again, and make line 160 throw. The render-gate invariant `Valid()` relies on this assumption.
- `Numerals.FromInt`: ids are unbounded integers in plain decimal. JavaScript writes numbers of 10^21 and above in exponent notation, and ids never reach that.
