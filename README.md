# ChatChat channel and message synchronisation, in Dafny

This project models the two screens of the ChatChat tutorial app: the channel list and the chat screen of one channel. Underneath their UIKit and bubble-library glue, both keep an append-only mirror of a location in the realtime database:

- A child-added observer decodes each snapshot it is handed.
- When decoding succeeds, the observer appends the record at the end of an in-memory array and re-renders.
- When decoding fails, it prints a diagnostic and leaves the array alone.
- A user action writes a new child under a fresh auto-id key at the same location.
- The local array changes only when the observer delivers that child back.

The model has six modules:

- `Wrappers`: Swift's optionals as `Option`.
- `Firebase`: the database, reduced to an append-only log of `Child(key, payload)` per location, in write order (`Path` is the list of child names). It also holds a registry of observers under handles it gives out, and the `queryLimited(toLast:)` selection (`LimitToLast`).
- `Sync`: the mirror pattern both screens share. `Replay` is the array after a sequence of callbacks, folded one callback at a time. `Accepted` is an independent reference definition (the decoded events, in order), and `DecodedCount` counts the events that decode. Lemmas relate them: append-only, delivery order, the count, all-valid and none-valid runs, and the last-N initial batch.
- `Channels`: the two-field `Channel` record. `Channel.swift` is not part of this model; the record is rebuilt from how the two screens use it.
- `Chat`: `ChatViewController` as a class. Its `messages` array is a `seq` field that the observer callback appends to. The handle is an `Option`. Its data-source answers (item count, item data, bubble, text colour) are functions reading the object.
- `ChannelList`: `ChannelListViewController` as a class. It holds the `channels` mirror, the handle and `deinit`, plus the `Section` enum, the section and row counts, the reuse identifiers, row selection and the `prepare(for:)` hand-off to the chat screen.

Each controller keeps a ghost `delivered` sequence: the snapshots its observer has been handed. `Valid()` states three facts:

- The mirror is exactly `Sync.Replay(decode, delivered)`.
- Every delivered snapshot is a child stored at the observed location, and no key was delivered twice.
- A kept handle is still registered on the right query.

From this the model proves that the channel list never shows two channels with the same identifier.

Points where the code is modelled exactly as written:

- The chat observer requires only `text` to be non-empty. `senderId` and `senderName` only have to be present, and may be empty. The channel observer requires a non-empty `name`.
- `createChannel` has no emptiness check. An empty name is written to the database, and then the observer rejects it.
- `ChatViewController` has no `deinit` and never removes its observer. In the model, no member releases `newMessageRefHandle`. Once set, the handle is never changed again: only `ViewDidLoad` and `ObserveMessages` write `newMessageRefHandle`, and both require it to be unset. Every chat method except `AddMessage` preserves `Valid()`, which requires a kept handle to be registered. `AddMessage` on its own appends to `messages` without a delivery, so it is only called from `OnChildAdded`, which restores `Valid()`.
- A Swift `String` compared with the optional `senderId` is false when `senderId` is nil. The model compares with `Some(m.senderId)`, so with no signed-in user every bubble is incoming and every text is black.

## Model

| member | source | states |
|---|---|---|
| Sync.ReplayIsAccepted | ChatChatFirebaseTutorial/ChatChat/ChatViewController.swift:107-120 | handling child-added callbacks one at a time yields exactly the decoded snapshots in delivery order: nothing reordered, duplicated or dropped except by decoding |
| Sync.ReplayAppend | ChatChatFirebaseTutorial/ChatChat/ChatViewController.swift:42 | the mirror is append-only: later snapshots never change what earlier ones contributed |
| Sync.ReplayAllDecoded | ChatChatFirebaseTutorial/ChatChat/ChatViewController.swift:111-113 | N snapshots that all decode give a mirror of length N whose i-th entry is the i-th snapshot's record |
| Sync.ReplayNoneDecoded | ChatChatFirebaseTutorial/ChatChat/ChatViewController.swift:117-118 | snapshots none of which decode leave the mirror empty |
| Sync.ReplayLength | ChatChatFirebaseTutorial/ChatChat/ChannelListViewController.swift:100-108 | the mirror never holds more entries than snapshots were delivered |
| Sync.ReplayCount | ChatChatFirebaseTutorial/ChatChat/ChannelListViewController.swift:103-104 | the mirror holds exactly one entry per delivered snapshot that decodes (`DecodedCount`, a count defined apart from the mirror) |
| Sync.ReplayLastDecoded | ChatChatFirebaseTutorial/ChatChat/ChatViewController.swift:103 | for any stored children, a last-n query starts the mirror with the decodable ones among the last n (all, if fewer are stored), in stored order: at most n entries, and exactly the tail of what the whole location decodes to; when every child decodes, one entry per each of the last n |
| Firebase.LimitToLast | ChatChatFirebaseTutorial/ChatChat/ChatViewController.swift:103 | the children a `queryLimited(toLast: n)` selects are a suffix of the stored ones, of length min(count, n) |
| Firebase.KeysDistinctAppend | ChatChatFirebaseTutorial/ChatChat/ChatViewController.swift:132 | writing under a fresh auto-id key keeps the keys at a location distinct |
| Firebase.Database.SetValueAtAutoId | ChatChatFirebaseTutorial/ChatChat/ChannelListViewController.swift:134-138 | `childByAutoId().setValue(v)` appends exactly one child (fresh key, v) at that location, changes no other location and no observer |
| Firebase.Database.Observe | ChatChatFirebaseTutorial/ChatChat/ChannelListViewController.swift:100 | `observe(.childAdded)` registers the query under a handle no registered observer holds and writes nothing |
| Firebase.Database.RemoveObserver | ChatChatFirebaseTutorial/ChatChat/ChannelListViewController.swift:125 | `removeObserver(withHandle:)` unregisters exactly that handle and writes nothing |
| Chat.MessageRecordRoundTrip | ChatChatFirebaseTutorial/ChatChat/ChatViewController.swift:133-137 | a sent record has exactly the keys senderId, senderName and text, holding the arguments; the observer decodes it back into the sent message, or rejects it when the text is empty |
| Chat.InitialMessagesAreLastStored | ChatChatFirebaseTutorial/ChatChat/ChatViewController.swift:94-103 | whatever is stored, a fresh subscription starts with the well-formed messages among the last 25 stored children, in stored order: at most 25, and the tail of all well-formed stored messages; when every stored message is well formed, exactly the last 25 (all if fewer) |
| Chat.ChatViewController.constructor | ChatChatFirebaseTutorial/ChatChat/ChatViewController.swift:34-42 | a new chat screen has no channel, no handle and an empty `messages` array |
| Chat.ChatViewController.SetChannel | ChatChatFirebaseTutorial/ChatChat/ChatViewController.swift:35-39 | setting `channel` sets the title to the channel's name (nil for no channel) |
| Chat.ChatViewController.ViewDidLoad | ChatChatFirebaseTutorial/ChatChat/ChatViewController.swift:46-53 | records the signed-in user's id and registers the one observer, on `channelRef/messages` limited to the last 25; stored messages and the mirror are untouched |
| Chat.ChatViewController.ObserveMessages | ChatChatFirebaseTutorial/ChatChat/ChatViewController.swift:100-107 | sets `messageRef` to the channel's `messages` child and keeps a fresh handle registered on the last-25 query |
| Chat.ChatViewController.OnChildAdded | ChatChatFirebaseTutorial/ChatChat/ChatViewController.swift:107-120 | a snapshot with senderId, senderName and non-empty text appends exactly that message at the end (earlier entries unchanged) and re-renders; otherwise `messages` is unchanged and only the diagnostic is printed |
| Chat.ChatViewController.AddMessage | ChatChatFirebaseTutorial/ChatChat/ChatViewController.swift:180-183 | appends one message with the given id, name and text at the end |
| Chat.ChatViewController.DidPressSend | ChatChatFirebaseTutorial/ChatChat/ChatViewController.swift:131-139 | writes one child with a fresh key and exactly the three fields under `messages`; `messages` is unchanged and the observer stays registered |
| Chat.ChatViewController.NumberOfItemsInSection | ChatChatFirebaseTutorial/ChatChat/ChatViewController.swift:78-80 | on a mirrored screen, the item count is the number of delivered snapshots that decode into a message |
| Chat.ChatViewController.MessageDataForItem | ChatChatFirebaseTutorial/ChatChat/ChatViewController.swift:74-76 | on a mirrored screen, item i is the i-th decodable delivered snapshot's message (`Sync.Accepted`), in delivery order |
| Chat.ChatViewController.MessageBubbleForItem | ChatChatFirebaseTutorial/ChatChat/ChatViewController.swift:85-91 | on a mirrored screen, item i is outgoing exactly when the sender of the i-th decodable delivered snapshot is the signed-in user, incoming otherwise (nil user: incoming) |
| Chat.ChatViewController.TextColorForItem | ChatChatFirebaseTutorial/ChatChat/ChatViewController.swift:164-170 | on a mirrored screen, item i's text is white exactly when the sender of the i-th decodable delivered snapshot is the signed-in user, black otherwise |
| Chat.TextColorMatchesBubble | ChatChatFirebaseTutorial/ChatChat/ChatViewController.swift:87 | white text goes with the outgoing bubble and black text with the incoming one, for every item |
| Chat.ItemsFollowDelivery | ChatChatFirebaseTutorial/ChatChat/ChatViewController.swift:74-80 | when every delivered snapshot is well formed, there is one item per snapshot, in delivery order, holding its message |
| Chat.SendAndReceive | ChatChatFirebaseTutorial/ChatChat/ChatViewController.swift:131-139 | on any observing screen, sending a message under a fresh key appends exactly that child to the location, and once the observer delivers it `messages` gains exactly that message at the end (nothing for empty text), earlier messages unchanged |
| Chat.FreshKeyUndelivered | ChatChatFirebaseTutorial/ChatChat/ChatViewController.swift:132 | a key that is fresh at the observed location (as `childByAutoId()` gives) was never delivered to the screen, so the echo of a new write is a new delivery |
| ChannelList.SectionFromRaw | ChatChatFirebaseTutorial/ChatChat/ChannelListViewController.swift:27-31 | `Section(rawValue:)` is the inverse of the raw values 0 and 1, and nil for any other index |
| ChannelList.NumberOfSections | ChatChatFirebaseTutorial/ChatChat/ChannelListViewController.swift:42-45 | the section count is exactly the number of indices that name a section (2) |
| ChannelList.ReuseIdentifier | ChatChatFirebaseTutorial/ChatChat/ChannelListViewController.swift:66 | "NewChannel" exactly for the create section, "ExistingChannel" for every other index |
| ChannelList.ChannelRecordRoundTrip | ChatChatFirebaseTutorial/ChatChat/ChannelListViewController.swift:135-137 | a created record has exactly the key name; the observer decodes it into (key, name), or rejects it when the name is empty |
| ChannelList.ChannelIdsAreKeys | ChatChatFirebaseTutorial/ChatChat/ChannelListViewController.swift:102-104 | every listed channel's id is the key of a delivered snapshot |
| ChannelList.ChannelIdsDistinct | ChatChatFirebaseTutorial/ChatChat/ChannelListViewController.swift:100-104 | snapshots with distinct keys give channels with distinct ids |
| ChannelList.ChannelListViewController.constructor | ChatChatFirebaseTutorial/ChatChat/ChannelListViewController.swift:35-37 | a new list has no handle and an empty `channels` array |
| ChannelList.ChannelListViewController.NumberOfRowsInSection | ChatChatFirebaseTutorial/ChatChat/ChannelListViewController.swift:47-62 | raw index 0 has one row, raw index 1 one row per channel, which on a mirrored list is the number of delivered snapshots with a non-empty `name`; any other index has none |
| ChannelList.ChannelListViewController.CellLabel | ChatChatFirebaseTutorial/ChatChat/ChannelListViewController.swift:74-76 | a channel-section row shows `channels[row].name`; the create row gets no label |
| ChannelList.ChannelListViewController.SelectedChannel | ChatChatFirebaseTutorial/ChatChat/ChannelListViewController.swift:148-152 | selecting row r of the channel section opens `channels[r]`; selecting in the create section does nothing |
| ChannelList.ChannelListViewController.ViewDidLoad | ChatChatFirebaseTutorial/ChatChat/ChannelListViewController.swift:117-121 | registers the one channel observer and writes nothing |
| ChannelList.ChannelListViewController.ObserveChannels | ChatChatFirebaseTutorial/ChatChat/ChannelListViewController.swift:98-100 | keeps a fresh handle registered on the whole `channels` location |
| ChannelList.ChannelListViewController.OnChildAdded | ChatChatFirebaseTutorial/ChatChat/ChannelListViewController.swift:100-108 | a snapshot with a non-empty name appends Channel(snapshot key, name) at the end and reloads; otherwise `channels` is unchanged and only the diagnostic is printed |
| ChannelList.ChannelListViewController.CreateChannel | ChatChatFirebaseTutorial/ChatChat/ChannelListViewController.swift:130-139 | without text nothing is written; with text exactly {name: text} is written under a fresh key, empty or not; `channels` is untouched |
| ChannelList.ChannelListViewController.Deinit | ChatChatFirebaseTutorial/ChatChat/ChannelListViewController.swift:123-126 | removes the observer if and only if a handle was kept; afterwards no observer of the screen is registered |
| ChannelList.ChannelListViewController.PrepareForSegue | ChatChatFirebaseTutorial/ChatChat/ChannelListViewController.swift:157-166 | for a channel sender, hands the chat screen (on the same database) the display name, the channel (and so its title) and the reference `channels/<id>`; otherwise changes nothing |
| ChannelList.ChannelIdsUnique | ChatChatFirebaseTutorial/ChatChat/ChannelListViewController.swift:104 | a consistent channel list never shows two channels with the same id |
| ChannelList.RowsShowChannels | ChatChatFirebaseTutorial/ChatChat/ChannelListViewController.swift:47-76 | the channel section has one row per channel, labelled with its name, and selecting it opens that channel; the table has one row more than there are channels |
| ChannelList.CreateAndReceive | ChatChatFirebaseTutorial/ChatChat/ChannelListViewController.swift:130-139 | on any observing list, creating a channel under a fresh key appends exactly the child {name} to `channels`, and once the observer delivers it the list gains exactly Channel(key, name) at the end; an empty name is written but never listed |
| ChannelList.FreshKeyUndelivered | ChatChatFirebaseTutorial/ChatChat/ChannelListViewController.swift:134 | a key fresh under `channels` was never delivered to the list |
| ChannelList.OpenChannel | ChatChatFirebaseTutorial/ChatChat/ChannelListViewController.swift:157-166 | on a new, empty database, a chat screen opened for a channel is titled with its name and observes the last 25 children of `channels/<id>/messages` |
| ChannelList.SendThenEcho | ChatChatFirebaseTutorial/ChatChat/ChatViewController.swift:131-139 | on a new, empty database, a message sent on a freshly opened chat screen is written under `channels/<id>/messages` and shows exactly once after the echo (never for empty text), as outgoing exactly when the signed-in user sent it |

## Left out

- UIKit and bubble-library rendering is not modelled: cell dequeueing, bubble image factories, colours as objects, avatar sizes and the "RW RIC" title. `reloadData` and `finishReceivingMessage` are a `renders` counter; `finishSendingMessage` and the message-sent sound are not modelled.
- `cellForRowAt` keeps the create row's text field in `newChannelTextField`. The model does not store the field. `CreateChannel` takes its text as an optional argument, which is absent when there is no field or no text.
- LimitToLast, InitialMessagesAreLastStored and SetValueAtAutoId take a location's write order for the database's key order: the database orders children by key, and `queryLimited(toLast:)` and the initial child-added batch follow that order. The two agree only because `childByAutoId()` keys increase with each write (up to clock skew between clients). The model's keys are arbitrary fresh strings, and the model assumes, without checking it, that each new key sorts after every stored one. A log in which a later key sorts earlier ("zzz" written before "aaa") is selected in write order by the model, but in key order by the database.
- The database itself is an abstract log: network synchronisation, write success or failure, durability and retries are not modelled. The key `childByAutoId()` generates is an argument that must be fresh at its location.
- Which children a limited query delivers over time is not modelled. When new children arrive, older ones leave a `queryLimited(toLast: 25)` window. The model's `OnChildAdded` accepts any stored child not delivered before. Only the initial batch is described, by `Chat.InitialMessagesAreLastStored`.
- Payloads are `map<string, string>`. The chat observer force-casts the whole value to a string dictionary (ChatViewController.swift:109), so a non-string field crashes the app; that crash is not modelled. The channel observer casts to a dictionary of any values (ChannelListViewController.swift:101) and only force-casts `name` (line 103): a channel such as `{name: "General", created: 1}` is listed by the app, and the model represents it only with its non-string fields dropped, which decodes the same; a non-string `name`, which crashes the app, is not represented.
- Both `OnChildAdded` methods require that the snapshot's key was not delivered before: the model takes it that the database hands each child to an observer at most once. `ChannelList.ChannelIdsUnique` rests on that.
- `DidPressSend` takes `sender`, `displayName` and `text` as plain strings: the force unwraps `senderId!`, `senderDisplayName!` and `text!` (ChatViewController.swift:134-136) are dropped, and so is the crash when any of them is nil, for example when the channel list hands on a nil `senderDisplayName` (ChannelListViewController.swift:35, 163). The bubble library passes the screen's own `senderId` and `senderDisplayName`; the model leaves these arguments free.
- The model treats creating a `JSQMessage` from decoded fields as always succeeding: its failable initialiser belongs to the bubble library.
- `text.characters.count > 0` and `name.characters.count > 0` are modelled as a non-empty `seq<char>`. Both hold exactly for non-empty strings; grapheme clusters are not modelled.
- The signed-in user's id (`currentUser?.uid`) is an argument of `ViewDidLoad`. Authentication is not modelled.
- Both `ViewDidLoad` methods require that no handle is kept yet, because UIKit loads a view once. A second call, which would register a second observer, is not modelled.
- Force-unwrapping `channelRef!` in the chat screen becomes a requirement that `channelRef` is set before the screen loads or sends.
- Commented-out hard-coded test data is not modelled.
- Concurrency is not modelled: every callback runs on the main thread, one at a time.
