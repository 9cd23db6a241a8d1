# flash-trivia client logic, modelled in Dafny

This project models the client-side logic of the flash-trivia game page. It has three parts:

- **The trivia round** (`TriviaGame`, from `TriviaGame.jsx`). The `Game` class holds the
  component's state: `triviaRound`, `triviaQueue`, `questionNum`, `userPoints`, `runTimer`,
  `loading`, and the result pages navigated to.
  - `BeginRound` is the effect that runs on mount and whenever the round changes. It resets the counters and the timer.
  - `InstallQuestions` completes the question fetch. The provider's decoded reply is an input.
  - `HandlePoints` handles an answer. A correct answer (`e == 1`) adds 2 points. Then the handler
    either advances to the next question, or closes the round and opens the result page with the score.
  - The pure functions `Answer` and `Replay` say what one answer and a sequence of answers do to the
    counters. The lemmas about whole rounds are proved on them.
  - React handlers read the values of the render they were created in. So when an answer closes a
    round, the score sent to the result page is the score BEFORE that answer's +2. The model
    reproduces this (`FinishCurrentRound` gets the captured points), and `FullRound` states it.
- **The chat boxes** (`ChatText`, `MultiplayerChat`, `MultiCommunication`).
  - An empty input is sent as the placeholder `"(◔_◔)"`. Any other input is sent exactly as typed.
  - After a post, the input is cleared.
  - The stand-alone `ChatBox` appends its own entry under the demo identity (id 1236, name "John").
  - The multiplayer `Communication` panel composes a message under the player's own id and name.
    It does not append that message itself. The history grows only when a message or notice arrives.
- **Small pure helpers of the multiplayer panel** (`MultiCommunication`, with `Decimal` for how
  JavaScript prints integers).
  - The join notice writes the clock as `H:MM`. Hours are unpadded; minutes below 10 get a leading `0`.
    `ParseClock` reads such a clock back, and the two round-trip lemmas link it to `ClockText`.
  - The four-slot video layout rule: slots 1 to 3 show remote stream k-1 when at least k streams
    exist, and slot 4 shows stream 3 only when there are exactly four streams.

Inputs the model takes as parameters:
- the provider's decoded reply (`TriviaResponse`);
- the parsed page query (`map<string, string>`; a missing key is `None`, for JavaScript's `undefined`);
- the clock reading (hours and minutes);
- the per-session player id;
- each incoming chat message and each video stream.

On a provider reply whose `response_code` is not 0, the code shows an alert but still proposes
and installs the reply's `results` as the question queue. `InstallQuestions` does the same and
returns `alerted` to flag the error. An empty queue then leaves the question screen on a lookup
past the end of the queue. `Game.View` reports that screen as `Broken`.

## Model

| member | source | states |
|---|---|---|
| `TriviaGame.Answer` | src/components/Main/TriviaGame.jsx:92-102 | A correct answer (`e == 1`) adds exactly 2 points; any other value adds none. Before the last question, the question number goes up by 1, the round is unchanged and nothing is reported. On the last question, the question number is unchanged, the round goes up by 1, and the points held before this answer are reported. |
| `TriviaGame.ReplayPoints` | src/components/Main/TriviaGame.jsx:93-95 | After any sequence of answers, the points equal the starting points plus 2 per correct answer. |
| `TriviaGame.PointsEvenAndBounded` | src/components/Main/TriviaGame.jsx:83-95 | From a round start (points reset to 0), the points are always even, non-negative, and at most 2 × the number of answers given. |
| `TriviaGame.QuestionStaysInRange` | src/components/Main/TriviaGame.jsx:97-101 | If the question number starts inside the queue, it stays inside the queue after any number of answers. So the render's `triviaQueue[questionNum]` lookup is in bounds. |
| `TriviaGame.WithinRound` | src/components/Main/TriviaGame.jsx:97-98 | From a round start, after k answers with k below the queue length: the question number is k, the round is unchanged, the points are 2 per correct answer, and no score has been reported. |
| `TriviaGame.FullRound` | src/components/Main/TriviaGame.jsx:92-120 | One answer per question of a non-empty queue closes the round exactly once. The round goes up by 1, the question rests on the last one, and the held points count every correct answer. The single reported score counts only the answers before the last: the final answer's +2 is not reported. |
| `TriviaGame.Game.constructor` | src/components/Main/TriviaGame.jsx:40-46 | Initial state: loading, round 0, empty queue, question 0, 0 points, timer 0. |
| `TriviaGame.Game.View` | src/components/Main/TriviaGame.jsx:123-142 | The screen is the loading screen exactly while loading. Otherwise, with the question number inside the queue, it shows the queue's current question and its number. It is `Broken` (the lookup fails) exactly when not loading and the question number is past the end of the queue. |
| `TriviaGame.Game.BeginRound` | src/components/Main/TriviaGame.jsx:83-89 | Starting a round takes the difficulty from the props and sets the question number, the points and the timer to 0. The round, the queue and the navigations are unchanged. |
| `TriviaGame.Game.InstallQuestions` | src/components/Main/TriviaGame.jsx:50-79 | The reply is flagged exactly when its `response_code` is not 0. Either way, its results become the queue and loading ends. The counters are unchanged. |
| `TriviaGame.Game.HandlePoints` | src/components/Main/TriviaGame.jsx:92-102 | The counters move exactly as `Answer` says from the values before the call. When the round closes, one result page with the room and the reported (pre-answer) score is added. A question number inside the queue stays inside it. |
| `TriviaGame.Game.FinishCurrentRound` | src/components/Main/TriviaGame.jsx:107-120 | The round becomes the captured round + 1, and one result page with the room and the captured points is added. |
| `ChatText.Body` | src/components/Main/MultiplayerChat.jsx:86-92 | The posted body is never empty. It is `"(◔_◔)"` for an empty input, and otherwise exactly the typed text. |
| `ChatText.BodyDeterminesTyped` | src/components/Main/TriviaMultiplayer/MultiCommunication.jsx:145-152 | Two inputs give the same body exactly when they are equal, or when one is empty and the other is the placeholder itself. |
| `MultiplayerChat.Entry` | src/components/Main/MultiplayerChat.jsx:88-91 | A posted entry has `userId` 1236, `userName` "John", and the body of the input as its message. |
| `MultiplayerChat.PostAllAppends` | src/components/Main/MultiplayerChat.jsx:86-94 | Posting n inputs grows the transcript by exactly n entries at the end. The old transcript is an unchanged prefix. The i-th new entry is the demo identity with the body of the i-th input. |
| `MultiplayerChat.ChatBox.constructor` | src/components/Main/MultiplayerChat.jsx:83-84 | The input and the transcript start empty. |
| `MultiplayerChat.ChatBox.Type` | src/components/Main/MultiplayerChat.jsx:113 | The input holds the typed text. |
| `MultiplayerChat.ChatBox.PostNewChat` | src/components/Main/MultiplayerChat.jsx:86-94 | The transcript gets exactly one entry appended at the end: the entry for the input. Earlier entries are unchanged. A well-formed transcript stays well-formed. The input is then empty. |
| `Decimal.NatToString` | src/components/Main/TriviaMultiplayer/MultiCommunication.jsx:131 | An integer prints as a non-empty digit string with no leading zero. It is one digit exactly below 10. |
| `Decimal.ParseNatToString` | src/components/Main/TriviaMultiplayer/MultiCommunication.jsx:131 | Reading a printed integer back gives the integer. |
| `Decimal.NatToStringParse` | src/components/Main/TriviaMultiplayer/MultiCommunication.jsx:131 | Every digit string without a leading zero is the printing of the number it denotes. |
| `MultiCommunication.Lookup` | src/components/Main/TriviaMultiplayer/MultiCommunication.jsx:121-123 | A query parameter's value is present exactly when the query has the key, and is then the query's value. |
| `MultiCommunication.MinuteTextTwoDigits` | src/components/Main/TriviaMultiplayer/MultiCommunication.jsx:131-133 | The minutes 0 to 59 print as exactly two digits, and those digits read back as the minutes. |
| `MultiCommunication.MinuteText` | src/components/Main/TriviaMultiplayer/MultiCommunication.jsx:131-133 | The minutes part is a digit string of at least two characters, and it denotes exactly the minutes: the leading '0' below ten does not change the value. |
| `MultiCommunication.ClockText` | src/components/Main/TriviaMultiplayer/MultiCommunication.jsx:131-133 | The clock is the printed hours, one ':', then the minutes part, and the ':' is its only colon. |
| `MultiCommunication.JoinNotice` | src/components/Main/TriviaMultiplayer/MultiCommunication.jsx:130-134 | The notice is exactly the fixed greeting (ending in "at " and a new line with its indentation), then the clock, then the template's closing new line and indentation. `JoinNoticeClock` proves that the clock in the middle reads back as the time of joining. |
| `MultiCommunication.HourTextUnpadded` | src/components/Main/TriviaMultiplayer/MultiCommunication.jsx:131 | For every clock reading, the text before the ':' is the shortest numeral of the hours: it reads back as the hours, it is one digit exactly below 10, and it never starts with '0' from 10 on. |
| `MultiCommunication.ClockRoundTrip` | src/components/Main/TriviaMultiplayer/MultiCommunication.jsx:130-134 | The clock of any hours and any minutes 0 to 59 reads back as exactly those hours and minutes. |
| `MultiCommunication.ClockParseRoundTrip` | src/components/Main/TriviaMultiplayer/MultiCommunication.jsx:130-134 | Every string that reads as a clock is exactly the clock text of the time it reads as, with minutes below 60. |
| `MultiCommunication.JoinNoticeClock` | src/components/Main/TriviaMultiplayer/MultiCommunication.jsx:130-134 | The join notice is the fixed greeting, then the clock, then the closing whitespace of the template. The clock in the middle reads back as the time of joining. |
| `MultiCommunication.Slots` | src/components/Main/TriviaMultiplayer/MultiCommunication.jsx:217-220 | There are four slots. The slot at position k (counting from 0) is given either the `localVideo` ref or remote stream k. |
| `MultiCommunication.SlotRule` | src/components/Main/TriviaMultiplayer/MultiCommunication.jsx:217-220 | Slot k (1 to 3) shows a remote stream exactly when at least k streams exist. Slot 4 shows one exactly when there are four streams. |
| `MultiCommunication.ShownStreams` | src/components/Main/TriviaMultiplayer/MultiCommunication.jsx:216-221 | With up to four streams, the slots show every stream once, in arrival order. With more than four, they show only the first three, and slot 4 falls back to the `localVideo` ref. |
| `MultiCommunication.Communication.constructor` | src/components/Main/TriviaMultiplayer/MultiCommunication.jsx:99-108 | Initial state: the session id, empty name, room and input, and an empty history. |
| `MultiCommunication.Communication.UpdateChatHistory` | src/components/Main/TriviaMultiplayer/MultiCommunication.jsx:111-115 | The history is the old history with the incoming message appended: one longer, earlier entries unchanged and in order. |
| `MultiCommunication.Communication.Join` | src/components/Main/TriviaMultiplayer/MultiCommunication.jsx:120-135 | Name and room come from the `name` and `room` query parameters. The join request carries the player's id, that name and room, and the join notice for the clock reading. |
| `MultiCommunication.Communication.Type` | src/components/Main/TriviaMultiplayer/MultiCommunication.jsx:232 | The input holds the typed text. |
| `MultiCommunication.Communication.PostNewChat` | src/components/Main/TriviaMultiplayer/MultiCommunication.jsx:144-154 | The outgoing message carries the player's own id and name, and the body of the input (the placeholder when it is empty). The input is then empty. |
| `MultiCommunication.Communication.ReceiveStream` | src/components/Main/TriviaMultiplayer/MultiCommunication.jsx:201-203 | The append the stream handler intends: the stream is added at the end of the stream list, and existing entries are unchanged. The handler as written throws before this append (see `StreamHandlerAsWritten`). |
| `MultiCommunication.StreamHandlerAsWritten` | src/components/Main/TriviaMultiplayer/MultiCommunication.jsx:197-204 | The handler as written throws (no result) exactly when the `otherVideo` ref holds null. Only with an attached element would it append that element to the stream list. |
| `MultiCommunication.NoStreamEverShown` | src/components/Main/TriviaMultiplayer/MultiCommunication.jsx:175-220 | The `otherVideo` ref is never attached to an element, so it stays null. Then, after any number of stream events, the stream list is still empty and all four slots take the local-video branch. The proof is a direct induction on the number of events. |
| `MultiCommunication.Communication.VideoSlots` | src/components/Main/TriviaMultiplayer/MultiCommunication.jsx:216-221 | The slots are exactly `Slots` of the received streams, so `SlotRule` and `ShownStreams` apply: with at most four streams received, the panel shows every received stream, in arrival order. |

## Left out

- Socket plumbing is left out: creating connections, `emit`, and registering `on` listeners (including re-registering them on every post). It is network I/O. The values the code emits are the models' outputs: `Join` returns the join request, `PostNewChat` returns the chat message, and `UpdateChatHistory` is the action a listener takes. The `chat-message` and `lost-player` listeners are registered only inside the post handler, so before the player's first post, incoming chats and departure notices never reach the history; the model does not track which listeners exist, so `UpdateChatHistory` may be applied at any time.
- The `existing-questions` echo handler is left out. It races with the local install of the queue, and the rule that decides between proposals lives in server code that is not part of this model.
- Listeners close over the history array of the render that registered them, and `updateChatHistory` pushes into that captured array in place. `UpdateChatHistory` appends to the current history instead. So the model does not capture histories diverging between listeners registered at different renders. It also misses duplicates: two posts made before the history changes register two listeners over the same array, and one incoming message is then pushed into that array twice.
- The stream handler pushes into the existing `videoStreams` array and sets the same array back, so React may skip the re-render. `ReceiveStream` models only the append, not when the slots are redrawn. The handler as written never reaches this push (see "## Findings").
- Media is left out: PeerJS calls and answers, `getUserMedia`, video playback, and a new `Peer` built on every render. These are foreign media APIs. The model also does not capture that all four slots are given the same `localVideo` ref object: React leaves it pointing at the last element bound to it, so only that one element receives the camera stream, and only after a `join-peers` or `call` event.
- Outside calls are left out: the `fetch` to the trivia provider, JSON decoding, `alert` (returned as the `alerted` flag), and the one-second loading delay. `InstallQuestions` takes the decoded reply and ends loading at once.
- Game.BeginRound: the fetch this effect starts completes later, as a separate `InstallQuestions` call. Any ordering of the two calls, and answers in between, can be expressed, but no particular scheduling is modelled.
- Library calls are left out: `qs.parse` (the query is given as a map), `createSearchParams` and `navigate` (the navigation is recorded as a `ResultLink`), `uuidv4` (the id is a constructor parameter), and `new Date()`. The code reads the clock three times; the model takes one (hours, minutes) reading.
- The names of the `name` and `room` query parameters are imported by the source from `HomePage.jsx`, which is not part of this model. The values follow the URL shown in the source's comments.
- Game.HandlePoints: the answer value is an integer. A non-numeric value can never be `=== 1` in JavaScript, so it behaves like any other wrong answer.
- Points are unbounded integers. JavaScript numbers lose precision above 2^53, which 2 points per answer never reaches in practice.
- Layout and styling are left out: styled-components, the markup beyond the slot rule, and `TriviaMultiplayer.jsx`, which is pure layout.
- The `console.log` calls are left out.

## Findings

| source | as written | input that shows it | evidently intended | confidence | as-written member | corrected member |
|---|---|---|---|---|---|---|
| src/components/Main/TriviaMultiplayer/MultiCommunication.jsx:175-203 | The `'stream'` handler sets `srcObject` on `otherVideo.current` before pushing it. That ref is created as `useRef(null)` and never attached to a rendered element, so the store throws and the push never runs. | Any `'stream'` event from a peer call: the stream list stays `[]` and all four slots keep the local-video branch. | Each received stream is appended to `videoStreams` and shown in the next free slot. | not executed; high (the ref is never passed to any element) | `MultiCommunication.NoStreamEverShown` | `MultiCommunication.Communication.ReceiveStream` |
