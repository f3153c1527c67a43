/** The channel list screen: a table with one section holding the "new channel" row
    and one listing the channels it mirrors from the database's `channels` location,
    a create action that writes a new channel there, and the hand-off of a selected
    channel to the chat screen. */
module ChannelList {
  import opened Wrappers
  import opened Firebase
  import Sync
  import opened Channels
  import Chat

  /** The table's sections, with raw values 0 and 1. */
  datatype Section = CreateNewChannelSection | CurrentChannelsSection

  function RawValue(s: Section): int
  {
    match s
    case CreateNewChannelSection => 0
    case CurrentChannelsSection => 1
  }

  /** `Section(rawValue:)`: the section with that raw value, if there is one. */
  function SectionFromRaw(raw: int): (s: Option<Section>)
    ensures forall t :: s == Some(t) <==> RawValue(t) == raw
  {
    if raw == 0 then Some(CreateNewChannelSection)
    else if raw == 1 then Some(CurrentChannelsSection)
    else None
  }

  /** `numberOfSections`: the table asks exactly about the indices that name a section. */
  function NumberOfSections(): (n: int)
    ensures forall raw :: SectionFromRaw(raw).Some? <==> 0 <= raw < n
  {
    2
  }

  /** The cell identifier `cellForRowAt` dequeues: the create cell for the first
      section, the channel cell for every other index. */
  function ReuseIdentifier(section: int): (id: string)
    ensures id == "NewChannel" <==> SectionFromRaw(section) == Some(CreateNewChannelSection)
    ensures id != "NewChannel" ==> id == "ExistingChannel"
  {
    if section == RawValue(CreateNewChannelSection) then "NewChannel" else "ExistingChannel"
  }

  /** The location of the channel list. */
  const ChannelsPath: Path := ["channels"]

  /** What the observer prints for a snapshot it cannot use. */
  const DecodeChannelError: string := "Error! Could not decode channel data"

  /** The observer's test on a snapshot: a `name` of at least one character. */
  predicate IsChannelPayload(p: Payload)
  {
    "name" in p && |p["name"]| > 0
  }

  /** The channel a snapshot is decoded into: the snapshot's key and its name. */
  function DecodeChannel(child: Child): Option<Channel>
  {
    if IsChannelPayload(child.value) then Some(Channel(child.key, child.value["name"])) else None
  }

  /** The dictionary `createChannel` writes. */
  function ChannelRecord(name: string): Payload
  {
    map["name" := name]
  }

  /** A created record has exactly the `name` field, and the observer decodes it back
      into a channel with the record's key and that name, unless the name is empty:
      `createChannel` writes empty names, and the observer then rejects them. */
  lemma ChannelRecordRoundTrip(key: Key, name: string)
    ensures ChannelRecord(name).Keys == {"name"}
    ensures DecodeChannel(Child(key, ChannelRecord(name)))
            == if name == "" then None else Some(Channel(key, name))
  {
  }

  /** No two channels share an identifier. */
  predicate IdsDistinct(channels: seq<Channel>)
  {
    forall i, j :: 0 <= i < j < |channels| ==> channels[i].id != channels[j].id
  }

  /** Every mirrored channel's identifier is the key of a delivered snapshot. */
  lemma {:induction false} ChannelIdsAreKeys(events: seq<Child>)
    ensures forall j :: 0 <= j < |Sync.Replay(DecodeChannel, events)| ==>
              !FreshKey(Sync.Replay(DecodeChannel, events)[j].id, events)
  {
    if events != [] {
      var init, last := events[..|events| - 1], events[|events| - 1];
      ChannelIdsAreKeys(init);
      var before := Sync.Replay(DecodeChannel, init);
      var after := Sync.Replay(DecodeChannel, events);
      assert after == before + Sync.Keep(DecodeChannel(last));
      forall j | 0 <= j < |after|
        ensures !FreshKey(after[j].id, events)
      {
        if j < |before| {
          assert !FreshKey(before[j].id, init);
          var k :| 0 <= k < |init| && init[k].key == before[j].id;
          assert events[k] == init[k];
        } else {
          assert after[j].id == last.key;
          assert events[|events| - 1].key == after[j].id;
        }
      }
    }
  }

  /** Snapshots with distinct keys give channels with distinct identifiers. */
  lemma {:induction false} ChannelIdsDistinct(events: seq<Child>)
    requires KeysDistinct(events)
    ensures IdsDistinct(Sync.Replay(DecodeChannel, events))
  {
    if events != [] {
      var init, last := events[..|events| - 1], events[|events| - 1];
      assert KeysDistinct(init);
      ChannelIdsDistinct(init);
      ChannelIdsAreKeys(init);
      var before := Sync.Replay(DecodeChannel, init);
      assert FreshKey(last.key, init) by {
        forall k | 0 <= k < |init| ensures init[k].key != last.key {
          assert init[k] == events[k];
        }
      }
      forall j | 0 <= j < |before| ensures before[j].id != last.key {
        assert !FreshKey(before[j].id, init);
      }
    }
  }

  class ChannelListViewController {
    /** The database the screen reads from and writes to. */
    const db: Database
    /** The display name handed on to the chat screen. */
    var senderDisplayName: Option<string>
    /** The local mirror of the channel list. */
    var channels: seq<Channel>
    var channelRefHandle: Option<Handle>
    /** How many times the table was reloaded. */
    var renders: nat
    /** The diagnostics printed so far. */
    var console: seq<string>
    /** The snapshots the observer has been handed, in delivery order. */
    ghost var delivered: seq<Child>

    /** The observer `observeChannels` registered is registered, on the whole channel list. */
    ghost predicate Observing()
      reads this, db
    {
      && channelRefHandle.Some?
      && channelRefHandle.value in db.observers
      && db.observers[channelRefHandle.value] == Query(ChannelsPath, None)
    }

    /** `channels` is what the observer built from the snapshots it was handed. */
    ghost predicate Mirrored()
      reads this
    {
      channels == Sync.Replay(DecodeChannel, delivered)
    }

    ghost predicate Valid()
      reads this, db
    {
      && db.Valid()
      && Mirrored()
      && KeysDistinct(delivered)
      && AllStored(delivered, db.Children(ChannelsPath))
      && (delivered != [] ==> channelRefHandle.Some?)
      && (channelRefHandle.Some? ==> Observing())
    }

    constructor (db: Database, senderDisplayName: Option<string>)
      requires db.Valid()
      ensures Valid() && this.db == db
      ensures this.senderDisplayName == senderDisplayName
      ensures channels == [] && channelRefHandle == None
      ensures renders == 0 && console == [] && delivered == []
    {
      this.db := db;
      this.senderDisplayName := senderDisplayName;
      channels, channelRefHandle := [], None;
      renders, console := 0, [];
      delivered := [];
    }

    /** `numberOfRowsInSection`: one row for creating a channel, one row per channel
        (that is, per delivered snapshot with a non-empty name), and none for an index
        that names no section. */
    function NumberOfRowsInSection(section: int): (n: nat)
      reads this
      ensures section == 0 ==> n == 1
      ensures section == 1 ==> n == |channels|
      ensures section == 1 && Mirrored() ==> n == Sync.DecodedCount(DecodeChannel, delivered)
      ensures section != 0 && section != 1 ==> n == 0
    {
      Sync.ReplayCount(DecodeChannel, delivered);
      match SectionFromRaw(section)
      case Some(CreateNewChannelSection) => 1
      case Some(CurrentChannelsSection) => |channels|
      case None => 0
    }

    /** The text `cellForRowAt` puts in a row's label: the channel's name in the
        channel section, nothing in the create row. */
    function CellLabel(section: int, row: int): (shown: Option<string>)
      reads this
      requires 0 <= row < NumberOfRowsInSection(section)
      ensures shown.Some? <==> SectionFromRaw(section) == Some(CurrentChannelsSection)
      ensures shown.Some? ==> shown.value == channels[row].name
    {
      if section == RawValue(CurrentChannelsSection) then Some(channels[row].name) else None
    }

    /** `didSelectRowAt`: the channel the chat screen is opened with, if any. */
    function SelectedChannel(section: int, row: int): (c: Option<Channel>)
      reads this
      requires 0 <= row < NumberOfRowsInSection(section)
      ensures c.Some? <==> SectionFromRaw(section) == Some(CurrentChannelsSection)
      ensures c.Some? ==> c.value == channels[row]
    {
      if section == RawValue(CurrentChannelsSection) then Some(channels[row]) else None
    }

    /** `viewDidLoad`, which calls `observeChannels`. */
    method ViewDidLoad()
      requires Valid()
      requires channelRefHandle.None?
      modifies this`channelRefHandle, db
      ensures Valid() && Observing()
      ensures channelRefHandle.value !in old(db.observers)
      ensures db.observers == old(db.observers)[channelRefHandle.value := Query(ChannelsPath, None)]
      ensures db.logs == old(db.logs)
    {
      ObserveChannels();
    }

    /** `observeChannels`: registers a child-added observer on the whole channel list
        and keeps its handle. */
    method ObserveChannels()
      requires Valid()
      requires channelRefHandle.None?
      modifies this`channelRefHandle, db
      ensures Valid() && Observing()
      ensures channelRefHandle.value !in old(db.observers)
      ensures db.observers == old(db.observers)[channelRefHandle.value := Query(ChannelsPath, None)]
      ensures db.logs == old(db.logs)
    {
      var h := db.Observe(Query(ChannelsPath, None));
      channelRefHandle := Some(h);
    }

    /** The observer's closure, called by the database once for each child of the
        channel list: a snapshot with a non-empty `name` appends the channel (the
        snapshot's key, that name) at the end of `channels`; any other snapshot leaves
        `channels` as it is and prints a diagnostic. */
    method OnChildAdded(child: Child)
      requires Valid() && Observing()
      requires child in db.Children(ChannelsPath)
      requires FreshKey(child.key, delivered)
      modifies this`channels, this`renders, this`console, this`delivered
      ensures Valid()
      ensures delivered == old(delivered) + [child]
      ensures channels == old(channels) + Sync.Keep(DecodeChannel(child))
      ensures IsChannelPayload(child.value) ==>
                && channels == old(channels) + [Channel(child.key, child.value["name"])]
                && renders == old(renders) + 1
                && console == old(console)
      ensures !IsChannelPayload(child.value) ==>
                && channels == old(channels)
                && renders == old(renders)
                && console == old(console) + [DecodeChannelError]
    {
      Sync.ReplayStep(DecodeChannel, delivered, child);
      KeysDistinctAppend(delivered, child);
      AllStoredAppend(delivered, db.Children(ChannelsPath), child);
      delivered := delivered + [child];
      var data := child.value;
      var id := child.key;
      if IsChannelPayload(data) {
        channels := channels + [Channel(id, data["name"])];
        renders := renders + 1;
      } else {
        console := console + [DecodeChannelError];
      }
    }

    /** `createChannel`: `text` is the text of the create row's field (absent when there
        is no field or no text). Without text nothing is written; otherwise exactly
        `{name: text}` is written under a fresh key, empty or not. The local list is
        left alone: the channel shows up only when the observer delivers it. */
    method CreateChannel(text: Option<string>, key: Key)
      requires Valid()
      requires text.Some? ==> FreshKey(key, db.Children(ChannelsPath))
      modifies db
      ensures Valid()
      ensures text.None? ==> db.logs == old(db.logs)
      ensures text.Some? ==> db.logs == old(db.logs)[ChannelsPath := old(db.Children(ChannelsPath)) + [Child(key, ChannelRecord(text.value))]]
      ensures db.observers == old(db.observers)
    {
      if text.Some? {
        var name := text.value;
        db.SetValueAtAutoId(ChannelsPath, key, ChannelRecord(name));
      }
    }

    /** `deinit`: removes the observer when, and only when, a handle was kept. Afterwards
        no observer of this screen is registered, so no callback reaches it. */
    method Deinit()
      requires Valid()
      modifies db
      ensures !Observing()
      ensures channelRefHandle.Some? ==> db.observers == old(db.observers) - {channelRefHandle.value}
      ensures channelRefHandle.None? ==> db.observers == old(db.observers)
      ensures db.logs == old(db.logs)
    {
      if channelRefHandle.Some? {
        db.RemoveObserver(channelRefHandle.value);
      }
    }

    /** `prepare(for:sender:)`: when the sender is a channel, hands the chat screen the
        display name, the channel and the channel's location `channels/<id>`. */
    method PrepareForSegue(chatVc: Chat.ChatViewController, sender: Option<Channel>)
      requires chatVc.Valid()
      requires chatVc.db == db
      modifies chatVc`senderDisplayName, chatVc`channel, chatVc`title, chatVc`channelRef
      ensures chatVc.Valid()
      ensures sender.Some? ==>
                && chatVc.senderDisplayName == senderDisplayName
                && chatVc.channel == sender
                && chatVc.title == Some(sender.value.name)
                && chatVc.channelRef == Some(ChannelsPath + [sender.value.id])
      ensures sender.None? ==>
                && chatVc.senderDisplayName == old(chatVc.senderDisplayName)
                && chatVc.channel == old(chatVc.channel)
                && chatVc.title == old(chatVc.title)
                && chatVc.channelRef == old(chatVc.channelRef)
    {
      if sender.Some? {
        var channel := sender.value;
        chatVc.senderDisplayName := senderDisplayName;
        chatVc.SetChannel(Some(channel));
        chatVc.channelRef := Some(ChannelsPath + [channel.id]);
      }
    }
  }

  /** The screen never lists two channels with the same identifier. */
  lemma ChannelIdsUnique(vc: ChannelListViewController)
    requires vc.Valid()
    ensures IdsDistinct(vc.channels)
  {
    ChannelIdsDistinct(vc.delivered);
  }

  /** The channel section has a row for every channel, showing its name, and tapping
      it opens that channel; the whole table has one row more than there are channels. */
  lemma RowsShowChannels(vc: ChannelListViewController)
    ensures vc.NumberOfRowsInSection(0) + vc.NumberOfRowsInSection(1) == |vc.channels| + 1
    ensures forall row :: 0 <= row < vc.NumberOfRowsInSection(1) ==>
              && vc.CellLabel(1, row) == Some(vc.channels[row].name)
              && vc.SelectedChannel(1, row) == Some(vc.channels[row])
  {
  }

  /** Every snapshot the list has been handed is stored under `channels`, so a key
      that is fresh there has not been delivered. */
  lemma FreshKeyUndelivered(list: ChannelListViewController, key: Key)
    requires list.Valid()
    requires FreshKey(key, list.db.Children(ChannelsPath))
    ensures FreshKey(key, list.delivered)
  {
    var stored := list.db.Children(ChannelsPath);
    forall i | 0 <= i < |list.delivered|
      ensures list.delivered[i].key != key
    {
      var j :| 0 <= j < |stored| && stored[j] == list.delivered[i];
    }
  }

  /** Creating a channel with the create row's text and then having the observer
      deliver the written child adds exactly Channel(key, name) at the end of the
      list, or nothing when the name is empty, which is still written. */
  method CreateAndReceive(list: ChannelListViewController, name: string, key: Key)
    requires list.Valid() && list.Observing()
    requires FreshKey(key, list.db.Children(ChannelsPath))
    modifies list`channels, list`renders, list`console, list`delivered, list.db
    ensures list.Valid() && list.Observing()
    ensures list.db.Children(ChannelsPath) == old(list.db.Children(ChannelsPath)) + [Child(key, ChannelRecord(name))]
    ensures list.channels == old(list.channels) + (if name == "" then [] else [Channel(key, name)])
  {
    FreshKeyUndelivered(list, key);
    list.CreateChannel(Some(name), key);
    var written := Child(key, ChannelRecord(name));
    assert list.db.Children(ChannelsPath) == old(list.db.Children(ChannelsPath)) + [written];
    ChannelRecordRoundTrip(key, name);
    list.OnChildAdded(written);
  }

  /** Opening the chat screen for a channel on a new, empty database, as selecting its
      row does: the screen is titled with the channel's name, knows the signed-in user,
      starts with no messages and observes the last 25 children of
      `channels/<id>/messages`. */
  method OpenChannel(channel: Channel, displayName: Option<string>, uid: Option<string>)
    returns (chat: Chat.ChatViewController)
    ensures fresh(chat) && fresh(chat.db)
    ensures chat.Valid() && chat.Observing()
    ensures chat.title == Some(channel.name) && chat.senderId == uid
    ensures chat.messageRef == Some(["channels", channel.id, "messages"])
    ensures chat.db.observers[chat.newMessageRefHandle.value] == Query(["channels", channel.id, "messages"], Some(25))
    ensures chat.messages == [] && chat.delivered == []
    ensures chat.db.Children(chat.messageRef.value) == []
  {
    var db := new Database();
    var list := new ChannelListViewController(db, displayName);
    chat := new Chat.ChatViewController(db);
    list.PrepareForSegue(chat, Some(channel));
    assert ChannelsPath + [channel.id] + [Chat.MessagesChild] == ["channels", channel.id, "messages"];
    chat.ViewDidLoad(uid);
  }

  /** On a new, empty database, a message sent on a freshly opened chat screen is
      written under `channels/<id>/messages` and comes back through the observer as
      exactly one item (none when its text is empty), drawn as outgoing exactly when
      the signed-in user is its sender. */
  method SendThenEcho(channel: Channel, uid: Option<string>, text: string, sender: string, displayName: string, key: Key)
    returns (location: Path, shown: seq<Chat.Message>, bubble: Option<Chat.Bubble>)
    ensures location == ["channels", channel.id, "messages"]
    ensures text == "" ==> shown == [] && bubble == None
    ensures text != "" ==> shown == [Chat.Message(sender, displayName, text)]
    ensures text != "" ==> bubble == Some(if uid == Some(sender) then Chat.Outgoing else Chat.Incoming)
  {
    var chat := OpenChannel(channel, Some(displayName), uid);
    location := chat.messageRef.value;
    Chat.SendAndReceive(chat, text, sender, displayName, key);
    shown := chat.messages;
    bubble := if text == "" then None else Some(chat.MessageBubbleForItem(0));
  }
}
