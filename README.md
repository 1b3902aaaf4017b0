# CRAZY MINI XMD gateway — session and message core

A Dafny model of the core of a multi-session WhatsApp bot gateway. The
gateway keeps a registry of bot sessions keyed by the digits of a phone
number. It attaches, reconnects and removes sessions as the socket
library reports connection changes. For every inbound message it:

- welcomes each contact the first time it is seen, recording the contact
  in a seen-contact file before sending the welcome;
- parses `.`-prefixed bodies as commands and sends the replies of the
  command table.

Modules follow the program's structure:

- `Identity` — the digit filter that turns a number into a session id.
- `Strings` — the JavaScript string operations the parser uses:
  `startsWith`, `includes`, `trim`, `split(/ +/)`, `split('@')[0]` and
  ASCII `toLowerCase`, plus decimal rendering of a number.
- `Sequences` — the subsequence relation, which states that a filter
  keeps order.
- `Messages` — inbound message shapes, `getMessageText`, the media
  choice of `.dl` and `.sticker`, the file-extension mapping and the
  welcome's mention list.
- `Commands` — prefix parsing, the command `switch` with its aliases and
  default, the replies of each handler, and the `try`/`catch` error reply.
- `Upsert` — the `messages.upsert` loop as a specification (`Step`,
  `Batch`) over an ordered log of effects: a rewrite of the seen file, a
  send, a bot-count broadcast, a logout. The welcome-once,
  persist-before-send and only-grows properties are proved here.
- `Registry` — the `sessions` map and its transitions (`Attach`,
  `Reconnect`, `Open`, `Remove`), and the `/api/sessions` projection.
- `Server` — the class `Gateway`, which holds the registry, the seen file
  and the effect log. It has one method per event handler and HTTP route,
  each proved against the functions of `Registry` and `Upsert`.

The socket library, the clock, `Math.random`, the file system and the HTTP
layer are not modelled. Each becomes a parameter:

- whether setting up a session, a logout or a media download succeeds
  (`setupOk`, `restartOk`, `logoutOk`, `Environment.downloadOk`);
- the socket handle a new session receives (`sock`, `newSock`);
- the close status code (`reason`);
- the user id the library sets on a logged-in socket (`users`,
  `selfJid`);
- the locale time string, the random draws, the millisecond clock and
  the install directory (`Environment`);
- whether a command handler throws (`Environment.handlerThrows`).

Behaviour of the code that the model keeps and proves:

- `startSession` writes the placeholder `{ isConnecting: true }` before it
  builds the socket. When building the socket fails, the placeholder
  stays: every later `/api/connect` for that number is ignored while still
  answering 200, and `/api/disconnect` answers 500 because the entry has no
  socket to log out (`Server.FailedSetupBlocksNumber`).
- `startSession` replaces an entry that is not connecting, including a
  connected one (`Registry.AttachReplacesIdle`).
- A non-logout `close` or an `open` event for a session whose entry is
  gone makes the handler throw on the missing entry. The model reports
  this as `threw`, with no change. A logged-out `close` on a missing entry
  does not throw: deleting an absent key is harmless, and the count is
  still broadcast.

## Model

| member | source | states |
|---|---|---|
| Identity.DigitsOnly | index.js:215 | the session id holds only digits, is no longer than the number, and is the number itself when the number is all digits |
| Identity.DigitsOnlyIdempotent | index.js:215 | filtering a session id again gives the same id, so every key of the registry is canonical |
| Identity.DigitsOnlyCounts | index.js:406 | each digit occurs in the id exactly as often as in the number, and no other character occurs |
| Identity.DigitsOnlySubsequence | index.js:406 | the id's digits appear in the number in the same order |
| Identity.DigitsOnlyAppend | index.js:215 | the filter of a concatenation is the concatenation of the filters |
| Strings.StartsWithConcat | index.js:304 | `startsWith(p)` holds exactly when the string is `p` followed by the rest of it |
| Strings.ContainsAt | index.js:187 | `includes(sub)` holds exactly when `sub` occurs in the string at some position |
| Strings.BeforeFirst | index.js:187 | `split('@')[0]` is a prefix of the JID holding no `@`, followed in the JID by an `@` whenever the JID has one |
| Strings.Trim | index.js:306 | `trim()` returns the slice between the leading and trailing whitespace, and the slice neither starts nor ends with whitespace |
| Strings.SplitOnSpaces | index.js:306 | `split(/ +/)` always yields a first token, which is the text before the first space; no token holds a space; together the tokens hold every non-space character in order |
| Strings.ToLowerAscii | index.js:307 | lower-casing keeps the length, leaves no upper-case ASCII letter, keeps every other character and shifts each upper-case letter by 32 |
| Strings.ToLowerAsciiIdempotent | index.js:307 | lower-casing a lower-cased name changes nothing |
| Strings.NatToString | index.js:70 | the decimal rendering of a count is a non-empty digit string without a leading zero whose value is the count |
| Messages.NameOr | index.js:59 | `pushName \|\| fallback` is the name when it is truthy and the fallback otherwise, so it is never empty |
| Messages.FirstNonEmpty | index.js:199-207 | the `\|\|` chain is empty exactly when every field is falsy, and otherwise is a field whose predecessors are all falsy |
| Messages.GetMessageText | index.js:195-209 | a revoked message has body `""`; any other message has the first non-empty of conversation, extended text and the image, video, audio and document captions, read from `message` when present and from the message itself otherwise |
| Messages.FirstNonEmptyUnfold | index.js:199-207 | the first-non-empty choice over the six fields equals the source's `\|\|` chain |
| Messages.SelectedContent | index.js:196 | the fields are read from the message object when there is one, and from the envelope only when there is none |
| Messages.QuotedMessage | index.js:310-313 | with a message object that has an extended text, the quote is exactly that text's quoted message (absent when it has none); without a message object or an extended text nothing is quoted |
| Messages.DownloadType | index.js:136-140 | `.dl` picks a present medium of highest priority (image, video, audio, document), and none exactly when the quoted message carries no medium |
| Messages.Extension | index.js:149-151 | every extension is four characters starting with a dot, and `.bin` is what the document type gets and no other type |
| Messages.ExtensionInjective | index.js:149-151 | different media types get different extensions |
| Messages.StickerType | index.js:103-110 | `.sticker` needs an image or a video, takes one that is present, and takes the image when both are |
| Messages.StickerAgreesWithDownload | index.js:110 | whenever a sticker can be made, it uses the medium `.dl` would download |
| Messages.Mentions | index.js:187 | a welcome mentions nobody unless the JID contains `@s.whatsapp.net`, and otherwise exactly the text before the JID's first `@` |
| Commands.CommandName | index.js:304-307 | a body not starting with `.` names no command; otherwise the name is the lower-cased first token of the trimmed rest, with no space, no leading whitespace and no upper-case letter |
| Commands.WordCommand | index.js:306-307 | a body of `.` and one word without spaces or surrounding whitespace names that word, lower-cased |
| Commands.Lookup | index.js:321-357 | a name falls to the default case exactly when it is not one of the twelve `case` labels |
| Commands.Aliases | index.js:340-352 | `random` dispatches like `randomnum`, and `download` like `dl` |
| Commands.BarePrefix | index.js:306-357 | a bare `.` gives the empty command name, which falls to the default case |
| Commands.EmptyNameUnknown | index.js:321-357 | every `case` label is at least two characters long, so the empty name is unknown |
| Commands.WelcomeFor | index.js:174-189 | the welcome mentions exactly the JID's mention list |
| Commands.DownloadName | index.js:149-153 | the download's file name ends with the medium's extension |
| Commands.StickerReplies | index.js:101-125 | the hint alone when there is no quoted image or video; otherwise the progress notice and then the sticker, or the error when the download fails |
| Commands.DownloadReplies | index.js:127-169 | the hint alone when there is no quoted medium; otherwise the progress notice and then the error exactly when the download fails, and on success a notice starting with `✅ Média téléchargé: ` and the file name built from the clock and the chosen medium's extension |
| Commands.ReplyTextsDiffer | index.js:104-355 | the unknown-command and error texts both start with `❌` and differ from each other and from the sticker and download hint and error texts; the menu and pong texts start otherwise, and both progress notices start with `⏳` |
| Commands.Replies | index.js:321-357 | each command sends one or two replies and never a welcome; the unknown-command text is sent exactly by the default case, as its only reply, and the error text by no case |
| Commands.Dispatch | index.js:320-362 | without a throw, the sends are the handler's; with one, they are the handler's followed by the error reply, and no welcome is ever among them |
| Commands.DispatchErrorOnce | index.js:359-362 | the error reply is among the sends exactly once when the handler throws and never otherwise |
| Upsert.CommandEffectsShape | index.js:304-362 | a message causes command sends exactly when its body starts with `.`; each is a send from this socket to the sender, never a welcome, one per reply of the named command |
| Upsert.StepSeen | index.js:287-298 | one pass adds the sender to the list exactly when the message is not self-sent and the sender is new, and a self-sent message causes nothing |
| Upsert.SendAll | index.js:321-362 | each payload becomes one send to the sender, in order |
| Upsert.BatchSingle | index.js:287 | a batch of one message is one pass of the loop |
| Upsert.BatchSeenGrows | index.js:285-298 | the seen list only grows, by at most one JID per message: the old list is a prefix of the new, and every JID added is new relative to everything before it |
| Upsert.BatchSeenMembers | index.js:289-295 | a JID is on the list after a batch exactly when it was before or sent a non-self message of the batch |
| Upsert.Others | index.js:289 | the messages the loop does not skip: a message is kept exactly when it is in the batch and not self-sent, as many times as it occurs there, and the kept ones keep their order |
| Upsert.SelfMessagesIgnored | index.js:289 | a batch behaves exactly like its non-self messages: self-sent messages change no list and cause no send |
| Upsert.WelcomesToAppend | index.js:287-298 | the welcomes to a JID in two consecutive runs of effects add up |
| Upsert.NoWelcomeInSends | index.js:321-362 | sending only non-welcome payloads sends no welcome |
| Upsert.CommandEffectsNoWelcome | index.js:300-362 | a command never sends a welcome |
| Upsert.StepWelcomes | index.js:294-298 | one message welcomes its sender once when the sender is not on the list, and nobody otherwise |
| Upsert.WelcomeOnce | index.js:284-298 | over a batch, a JID is welcomed exactly once when it was not on the list and sent a non-self message, and never otherwise |
| Upsert.StepPersistsFirst | index.js:294-297 | in one pass, every welcome comes right after a rewrite of the seen file that already holds the welcomed JID |
| Upsert.BatchPersistsFirst | index.js:284-298 | over a batch, every welcome comes right after a rewrite of the seen file that already holds the welcomed JID |
| Upsert.NoPrefixNoReply | index.js:287-304 | a body not starting with `.` causes no command send; a self-sent or known sender's message causes nothing, and a new sender's causes exactly the rewrite of the seen file with the sender appended, then the welcome |
| Commands.UnknownDispatch | index.js:354-356 | a name outside the command table, with no throw, dispatches exactly the unknown-command reply |
| Upsert.UnknownCommandReply | index.js:354-356 | a known sender naming a command outside the table gets exactly one reply, the unknown-command text |
| Registry.Attach | index.js:217-232 | a connecting id is left alone; otherwise its entry becomes connecting with the new socket and client id, or only the placeholder when setup fails; no other key changes and well-formedness is kept |
| Registry.Reconnect | index.js:246-250 | a non-logout close keeps the key set, leaves the id connecting with the restarted socket and the same web client id (or the bare placeholder when the restart fails), and changes no other key |
| Registry.Open | index.js:257-258 | `open` clears the id's connecting flag, keeps its socket and client id, and changes nothing else |
| Registry.Remove | index.js:252 | exactly the id leaves the registry and the key count drops by one when it was present |
| Registry.DuplicateAttachIgnored | index.js:217 | a second attach while the first is connecting leaves the registry as it is |
| Registry.AttachReplacesIdle | index.js:217-232 | an attach of an id that is not connecting replaces its entry, connected or not, without changing the count |
| Registry.SocketLoggedIn | index.js:463 | an entry counts as connected exactly when it has a socket to which the library has given a non-empty user id |
| Registry.SessionList | index.js:458-466 | one view per registry key, so the reported total is the key count, and each view carries its key and the entry's flags; it is connected exactly when its socket has a user id |
| Server.Gateway.constructor | index.js:29-32 | start-up with no sessions; the seen file is created holding `[]` when it does not exist |
| Server.Gateway.UpdateBotCount | index.js:442-446 | broadcasts the number of registry keys and changes nothing else |
| Server.Gateway.StartSession | index.js:214-232 | the registry becomes `Attach` of the digit id, and the result says whether the guard ignored the call, setup failed or the session started |
| Server.Gateway.OnClose | index.js:244-254 | a logout removes the id and broadcasts the count; another reason restarts a present session; an absent entry makes the handler throw with no change |
| Server.Gateway.OnOpen | index.js:257-272 | the id stops connecting, the online notice is sent to the bot's own chat, and then the count is broadcast; an absent entry makes the handler throw with no change |
| Server.Gateway.OnMessagesUpsert | index.js:281-363 | the loop leaves the seen file and the log exactly as `Batch` specifies, starting from the file's list, and the registry unchanged |
| Server.Gateway.HandleMessage | index.js:287-362 | one loop pass does exactly what `Step` specifies |
| Server.Gateway.Greet | index.js:291-298 | a new sender is appended, the file rewritten, and then the welcome sent; a known sender changes nothing |
| Server.Gateway.RunCommand | index.js:300-362 | the sends are exactly those of the command the body names |
| Server.Gateway.Connect | index.js:385-397 | a missing number or socket id gives 400 and no change; otherwise the registry becomes `Attach`, answering 500 only when setup of a started session fails |
| Server.Gateway.Disconnect | index.js:402-421 | a missing number gives 400; an unknown id gives 404; an entry without a socket or a failed logout gives 500 and keeps the entry; otherwise logout, removal of exactly that id, the count broadcast and 200 |
| Server.Gateway.ListSessions | index.js:458-466 | the listing has one view per registry key |
| Server.FailedSetupBlocksNumber | index.js:217-232 | a connect whose setup fails answers 500; later connects of the number answer 200 but are ignored; its disconnect answers 500 |
| Server.PingScenario | index.js:284-326 | a first `.ping` from a contact writes the file with the contact, sends the welcome and then exactly one pong |
| Server.PingStep | index.js:287-326 | one pass over a first `.ping` yields the file write, the welcome and the pong |
| Server.PingSends | index.js:324-326 | a `.ping` that does not throw sends exactly one pong |
| Server.PingParses | index.js:304-325 | `.ping` names the `ping` command |

## Left out

- Express, Socket.IO and static-file serving are I/O. The routes keep only their status codes. The `pairing_code` and `connection_success` emits, the `join_session` rooms and all console logging are not modelled.
- QR generation is not modelled: it only emits an image to the web client.
- The socket library (`makeWASocket`, `useMultiFileAuthState`, `fetchLatestBaileysVersion`, `downloadMediaMessage`, `logout`, `sendMessage`) is foreign code. Its outcomes are parameters. `sendMessage` is an entry appended to the effect log. `saveCreds` and `creds.update` are not modelled.
- `Math.random`: each draw is an arbitrary natural number, used modulo the length of what it indexes (modulo 1000 for the random number). The floating-point arithmetic is not modelled.
- `new Date().toLocaleString()` and `Date.now()` are parameters; the locale format is not modelled.
- The file system is an abstract persisted list. JSON encoding and a malformed seen file are not modelled, and neither is writing the downloaded media.
- The `downloads` directory creation and the `path.join` normalisation are not modelled; the path is written as the install directory followed by `/downloads/` and the file name.
- Asynchronous interleaving is not modelled. Each handler invocation and route runs to completion before the next, so a `close` or `open` arriving between the placeholder write and the socket assignment of `startSession` is not covered.
- The second `connection.update` listener and the `messages.update` listener only log, and are left out.
- `toLowerCase` is modelled on ASCII letters only; other Unicode case mappings are not modelled.
- `messageStubType` is compared with the string `'REVOKE'` as the code writes it. The library's numeric stub-type encoding is not modelled.
- The order of `Object.keys(sessions)` is not modelled: the session listing is a map from id to view.
- A socket's user id (`sock.user.id`) is library state, given as the `users` map and the `selfJid` parameter.
- Commands.Dispatch: a handler that throws is modelled as throwing after all of its sends. A send that fails halfway through a handler, and a failing error reply after it, are not modelled.
- Server.Gateway.OnMessagesUpsert: a failing welcome send, which would reject the handler and abort the rest of the batch, is not modelled; every send is recorded as made.
- Server.Gateway.OnOpen: a failing online-notice send is caught by the source. The model records the send attempt and always goes on to the count broadcast, as the source does.
- Server.Gateway.OnClose: the restart's own failure is an unhandled promise rejection in the source. The model applies the same registry change as a failed `startSession` and discards its result.
- Server.Gateway.StartSession: `setupOk` covers the two awaited setup steps and the synchronous `makeWASocket` call together, not each one separately; any of them failing leaves the placeholder.
- `req.body` fields of any type other than a string are not modelled: the routes take an optional string. In the source a non-string `number` makes `number.replace` throw. In `/api/connect` that happens before the placeholder is written, so the answer is 500 with no registry change, a path the model lacks. In `/api/disconnect` it happens outside the `try`, so the route's promise rejects and no answer is sent.
- The Boom status code is taken as an integer parameter. How the library derives it from the close error is not modelled.
