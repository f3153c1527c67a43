/** The chat screen of one channel: it mirrors the channel's `messages` location into
    a local array through a child-added observer limited to the last 25 messages,
    draws each message as an outgoing or incoming bubble, and writes sent messages
    back to the same location. */
module Chat {
  import opened Wrappers
  import opened Firebase
  import Sync
  import opened Channels

  /** A message as the bubble library's message object holds it. */
  datatype Message = Message(senderId: string, senderDisplayName: string, text: string)

  /** Which of the two bubble images an item is drawn with. */
  datatype Bubble = Outgoing | Incoming

  /** The colour an item's text is drawn in. */
  datatype TextColor = White | Black

  /** The child of a channel's location that holds its messages. */
  const MessagesChild: string := "messages"

  /** The number of stored messages the observer's query starts from. */
  const MessageQueryLimit: nat := 25

  /** What the observer prints for a snapshot it cannot use. */
  const DecodeMessageError: string := "Error! Could not decode message data"

  /** The observer's test on a snapshot: the three string fields, with a text of at
      least one character. */
  predicate IsMessagePayload(p: Payload)
  {
    "senderId" in p && "senderName" in p && "text" in p && |p["text"]| > 0
  }

  /** The message a snapshot is decoded into, if it passes the observer's test. */
  function DecodeMessage(child: Child): Option<Message>
  {
    if IsMessagePayload(child.value) then
      Some(Message(child.value["senderId"], child.value["senderName"], child.value["text"]))
    else
      None
  }

  /** The dictionary `didPressSend` writes. */
  function MessageRecord(senderId: string, senderDisplayName: string, text: string): Payload
  {
    map["senderId" := senderId, "senderName" := senderDisplayName, "text" := text]
  }

  /** A sent record has exactly the three fields, and the observer decodes it back into
      the message that was sent unless the text is empty, in which case it rejects it. */
  lemma MessageRecordRoundTrip(key: Key, senderId: string, senderDisplayName: string, text: string)
    ensures var r := MessageRecord(senderId, senderDisplayName, text);
            && r.Keys == {"senderId", "senderName", "text"}
            && r["senderId"] == senderId && r["senderName"] == senderDisplayName && r["text"] == text
            && (IsMessagePayload(r) <==> text != "")
    ensures DecodeMessage(Child(key, MessageRecord(senderId, senderDisplayName, text)))
            == if text == "" then None else Some(Message(senderId, senderDisplayName, text))
  {
  }

  /** The messages a freshly subscribed observer starts with: those of the last 25
      stored children (all, if fewer are stored) that are well formed, in stored order,
      so at most 25 and exactly the tail of what the whole location decodes to. When
      every stored message is well formed, these are the last 25 messages, one each. */
  lemma InitialMessagesAreLastStored(stored: seq<Child>)
    ensures var n := if |stored| <= MessageQueryLimit then |stored| else MessageQueryLimit;
            var initial := Sync.Replay(DecodeMessage, LimitToLast(stored, MessageQueryLimit));
            && |initial| <= MessageQueryLimit
            && initial == Sync.Accepted(DecodeMessage, stored[|stored| - n..])
            && Sync.Accepted(DecodeMessage, stored) == Sync.Accepted(DecodeMessage, stored[..|stored| - n]) + initial
    ensures (forall i :: 0 <= i < |stored| ==> IsMessagePayload(stored[i].value)) ==>
            var n := if |stored| <= MessageQueryLimit then |stored| else MessageQueryLimit;
            var initial := Sync.Replay(DecodeMessage, LimitToLast(stored, MessageQueryLimit));
            && |initial| == n
            && forall i :: 0 <= i < n ==> Some(initial[i]) == DecodeMessage(stored[|stored| - n + i])
  {
    Sync.ReplayLastDecoded(DecodeMessage, stored, MessageQueryLimit);
    if forall i :: 0 <= i < |stored| ==> IsMessagePayload(stored[i].value) {
      forall i | 0 <= i < |stored|
        ensures DecodeMessage(stored[i]).Some?
      {
        assert IsMessagePayload(stored[i].value);
      }
    }
  }

  class ChatViewController {
    /** The database the screen reads from and writes to. */
    const db: Database
    /** The channel's location, set by the channel list before the screen loads. */
    var channelRef: Option<Path>
    var channel: Option<Channel>
    /** The navigation title, kept equal to the channel's name. */
    var title: Option<string>
    /** The signed-in user's identifier. */
    var senderId: Option<string>
    var senderDisplayName: Option<string>
    /** The `messages` location; set by `observeMessages`, or on first use. */
    var messageRef: Option<Path>
    var newMessageRefHandle: Option<Handle>
    /** The local mirror of the channel's messages. */
    var messages: seq<Message>
    /** How many times the screen was told that a message was received. */
    var renders: nat
    /** The diagnostics printed so far. */
    var console: seq<string>
    /** The snapshots the observer has been handed, in delivery order. */
    ghost var delivered: seq<Child>

    /** The observer `observeMessages` registered is registered, on the last 25
        children of `messageRef`. */
    ghost predicate Observing()
      reads this, db
    {
      && newMessageRefHandle.Some?
      && messageRef.Some?
      && newMessageRefHandle.value in db.observers
      && db.observers[newMessageRefHandle.value] == Query(messageRef.value, Some(MessageQueryLimit))
    }

    /** `messages` is what the observer built from the snapshots it was handed. */
    ghost predicate Mirrored()
      reads this
    {
      messages == Sync.Replay(DecodeMessage, delivered)
    }

    ghost predicate Valid()
      reads this, db
    {
      && db.Valid()
      && Mirrored()
      && KeysDistinct(delivered)
      && (delivered != [] ==> newMessageRefHandle.Some?)
      && (newMessageRefHandle.Some? ==> Observing())
      && (messageRef.Some? ==> AllStored(delivered, db.Children(messageRef.value)))
    }

    constructor (db: Database)
      requires db.Valid()
      ensures Valid() && this.db == db
      ensures channelRef == None && channel == None && title == None
      ensures senderId == None && senderDisplayName == None
      ensures messageRef == None && newMessageRefHandle == None
      ensures messages == [] && renders == 0 && console == [] && delivered == []
    {
      this.db := db;
      channelRef, channel, title := None, None, None;
      senderId, senderDisplayName := None, None;
      messageRef, newMessageRefHandle := None, None;
      messages, renders, console := [], 0, [];
      delivered := [];
    }

    /** Setting `channel`; its observer sets the title to the channel's name. */
    method SetChannel(c: Option<Channel>)
      requires Valid()
      modifies this`channel, this`title
      ensures Valid()
      ensures channel == c
      ensures title == if c.Some? then Some(c.value.name) else None
    {
      channel := c;
      title := if c.Some? then Some(c.value.name) else None;
    }

    /** `viewDidLoad`: records the signed-in user (`uid`, absent when nobody is signed
        in) and subscribes to the channel's messages. */
    method ViewDidLoad(uid: Option<string>)
      requires Valid()
      requires newMessageRefHandle.None?
      requires channelRef.Some?
      modifies this`senderId, this`messageRef, this`newMessageRefHandle, db
      ensures Valid() && Observing()
      ensures senderId == uid
      ensures messageRef == Some(channelRef.value + [MessagesChild])
      ensures newMessageRefHandle.value !in old(db.observers)
      ensures db.observers == old(db.observers)[newMessageRefHandle.value := Query(messageRef.value, Some(MessageQueryLimit))]
      ensures db.logs == old(db.logs)
      ensures messages == old(messages) && delivered == old(delivered)
    {
      senderId := uid;
      ObserveMessages();
    }

    /** `observeMessages`: points `messageRef` at the channel's `messages` child and
        registers a child-added observer on its last 25 children. */
    method ObserveMessages()
      requires Valid()
      requires newMessageRefHandle.None?
      requires channelRef.Some?
      modifies this`messageRef, this`newMessageRefHandle, db
      ensures Valid() && Observing()
      ensures messageRef == Some(channelRef.value + [MessagesChild])
      ensures newMessageRefHandle.value !in old(db.observers)
      ensures db.observers == old(db.observers)[newMessageRefHandle.value := Query(messageRef.value, Some(MessageQueryLimit))]
      ensures db.logs == old(db.logs)
    {
      messageRef := Some(channelRef.value + [MessagesChild]);
      var h := db.Observe(Query(messageRef.value, Some(MessageQueryLimit)));
      newMessageRefHandle := Some(h);
    }

    /** The observer's closure, called by the database once for each child of the
        observed location: a snapshot with `senderId`, `senderName` and a non-empty
        `text` appends that message at the end of `messages`; any other snapshot leaves
        `messages` as it is and prints a diagnostic. */
    method OnChildAdded(child: Child)
      requires Valid() && Observing()
      requires child in db.Children(messageRef.value)
      requires FreshKey(child.key, delivered)
      modifies this`messages, this`renders, this`console, this`delivered
      ensures Valid()
      ensures delivered == old(delivered) + [child]
      ensures messages == old(messages) + Sync.Keep(DecodeMessage(child))
      ensures IsMessagePayload(child.value) ==>
                && messages == old(messages) + [Message(child.value["senderId"], child.value["senderName"], child.value["text"])]
                && renders == old(renders) + 1
                && console == old(console)
      ensures !IsMessagePayload(child.value) ==>
                && messages == old(messages)
                && renders == old(renders)
                && console == old(console) + [DecodeMessageError]
    {
      Sync.ReplayStep(DecodeMessage, delivered, child);
      KeysDistinctAppend(delivered, child);
      AllStoredAppend(delivered, db.Children(messageRef.value), child);
      delivered := delivered + [child];
      var data := child.value;
      if IsMessagePayload(data) {
        AddMessage(data["senderId"], data["senderName"], data["text"]);
        renders := renders + 1;
      } else {
        console := console + [DecodeMessageError];
      }
    }

    /** `addMessage(withId:name:text:)`: appends one message. */
    method AddMessage(id: string, name: string, text: string)
      modifies this`messages
      ensures messages == old(messages) + [Message(id, name, text)]
    {
      messages := messages + [Message(id, name, text)];
    }

    /** The location `messageRef` stands for: the stored one, or the channel's
        `messages` child when it is first used. */
    function MessageLocation(): Path
      reads this
      requires messageRef.Some? || channelRef.Some?
    {
      if messageRef.Some? then messageRef.value else channelRef.value + [MessagesChild]
    }

    /** `didPressSend`: writes one record with exactly the sender's identifier, display
        name and text under a fresh key of the messages location. It leaves `messages`
        alone: the sent message shows up only when the observer delivers it. */
    method DidPressSend(text: string, sender: string, displayName: string, key: Key)
      requires Valid()
      requires messageRef.Some? || channelRef.Some?
      requires FreshKey(key, db.Children(MessageLocation()))
      modifies this`messageRef, db
      ensures Valid()
      ensures messageRef == Some(old(MessageLocation()))
      ensures db.logs == old(db.logs)[messageRef.value := old(db.Children(MessageLocation())) + [Child(key, MessageRecord(sender, displayName, text))]]
      ensures db.observers == old(db.observers)
      ensures messages == old(messages) && delivered == old(delivered)
    {
      var location := MessageLocation();
      messageRef := Some(location);
      db.SetValueAtAutoId(location, key, MessageRecord(sender, displayName, text));
    }

    /** Whether `m` was sent by the signed-in user. Comparing with an absent user
        identifier is false. */
    predicate SentByLocalUser(m: Message)
      reads this
    {
      senderId == Some(m.senderId)
    }

    /** `numberOfItemsInSection`: one item per mirrored message, that is, one per
        delivered snapshot that decodes. */
    function NumberOfItemsInSection(section: int): (n: nat)
      reads this
      ensures n == |messages|
      ensures Mirrored() ==> n == Sync.DecodedCount(DecodeMessage, delivered)
    {
      Sync.ReplayCount(DecodeMessage, delivered);
      |messages|
    }

    /** `messageDataForItemAt`: item `item` shows the `item`-th mirrored message. */
    function MessageDataForItem(item: int): (m: Message)
      reads this
      requires 0 <= item < NumberOfItemsInSection(0)
      ensures m == messages[item]
      ensures Mirrored() ==>
                && item < |Sync.Accepted(DecodeMessage, delivered)|
                && m == Sync.Accepted(DecodeMessage, delivered)[item]
    {
      Sync.ReplayIsAccepted(DecodeMessage, delivered);
      messages[item]
    }

    /** `messageBubbleImageDataForItemAt`: outgoing exactly for the user's own messages. */
    function MessageBubbleForItem(item: int): (b: Bubble)
      reads this
      requires 0 <= item < NumberOfItemsInSection(0)
      ensures b == Outgoing <==> SentByLocalUser(messages[item])
      ensures Mirrored() ==>
                && item < |Sync.Accepted(DecodeMessage, delivered)|
                && (b == Outgoing <==> senderId == Some(Sync.Accepted(DecodeMessage, delivered)[item].senderId))
    {
      Sync.ReplayIsAccepted(DecodeMessage, delivered);
      if SentByLocalUser(messages[item]) then Outgoing else Incoming
    }

    /** `cellForItemAt`: white text exactly for the user's own messages. */
    function TextColorForItem(item: int): (c: TextColor)
      reads this
      requires 0 <= item < NumberOfItemsInSection(0)
      ensures c == White <==> SentByLocalUser(messages[item])
      ensures Mirrored() ==>
                && item < |Sync.Accepted(DecodeMessage, delivered)|
                && (c == White <==> senderId == Some(Sync.Accepted(DecodeMessage, delivered)[item].senderId))
    {
      Sync.ReplayIsAccepted(DecodeMessage, delivered);
      if SentByLocalUser(messages[item]) then White else Black
    }
  }

  /** The text colour and the bubble of an item always agree: white on the outgoing
      bubble, black on the incoming one. */
  lemma TextColorMatchesBubble(vc: ChatViewController, item: int)
    requires 0 <= item < vc.NumberOfItemsInSection(0)
    ensures vc.TextColorForItem(item) == White <==> vc.MessageBubbleForItem(item) == Outgoing
    ensures vc.TextColorForItem(item) == Black <==> vc.MessageBubbleForItem(item) == Incoming
  {
  }

  /** When every snapshot the observer was handed is a well-formed message, the screen
      shows one item per snapshot, in delivery order, each holding that snapshot's
      message. */
  lemma ItemsFollowDelivery(vc: ChatViewController)
    requires vc.Valid()
    requires forall i :: 0 <= i < |vc.delivered| ==> IsMessagePayload(vc.delivered[i].value)
    ensures vc.NumberOfItemsInSection(0) == |vc.delivered|
    ensures forall i :: 0 <= i < |vc.delivered| ==> Some(vc.MessageDataForItem(i)) == DecodeMessage(vc.delivered[i])
  {
    Sync.ReplayAllDecoded(DecodeMessage, vc.delivered);
  }

  /** Every snapshot a screen has been handed is stored at its location, so a key that
      is fresh there has not been delivered. */
  lemma FreshKeyUndelivered(chat: ChatViewController, key: Key)
    requires chat.Valid() && chat.Observing()
    requires FreshKey(key, chat.db.Children(chat.messageRef.value))
    ensures FreshKey(key, chat.delivered)
  {
    var stored := chat.db.Children(chat.messageRef.value);
    forall i | 0 <= i < |chat.delivered|
      ensures chat.delivered[i].key != key
    {
      var j :| 0 <= j < |stored| && stored[j] == chat.delivered[i];
    }
  }

  /** Sending a message and then having the observer deliver the written child adds
      exactly that message at the end of `messages`, or nothing when its text is empty;
      the earlier messages are left as they were. */
  method SendAndReceive(chat: ChatViewController, text: string, sender: string, displayName: string, key: Key)
    requires chat.Valid() && chat.Observing()
    requires FreshKey(key, chat.db.Children(chat.messageRef.value))
    modifies chat`messageRef, chat`messages, chat`renders, chat`console, chat`delivered, chat.db
    ensures chat.Valid() && chat.Observing()
    ensures chat.messageRef == old(chat.messageRef) && chat.senderId == old(chat.senderId)
    ensures chat.db.Children(chat.messageRef.value)
            == old(chat.db.Children(chat.messageRef.value)) + [Child(key, MessageRecord(sender, displayName, text))]
    ensures chat.messages == old(chat.messages) + (if text == "" then [] else [Message(sender, displayName, text)])
  {
    var location := chat.messageRef.value;
    FreshKeyUndelivered(chat, key);
    chat.DidPressSend(text, sender, displayName, key);
    var sent := Child(key, MessageRecord(sender, displayName, text));
    assert chat.db.Children(location) == old(chat.db.Children(location)) + [sent];
    MessageRecordRoundTrip(key, sender, displayName, text);
    chat.OnChildAdded(sent);
  }
}
