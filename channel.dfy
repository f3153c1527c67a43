/** The channel record both screens use: the key the database gave the channel's
    child, and its display name. */
module Channels {

  datatype Channel = Channel(id: string, name: string)

}
