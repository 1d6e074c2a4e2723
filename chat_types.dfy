/**
 * The records the chats slice stores. Only the fields the slice inspects are
 * modelled; the rest of each record is an opaque `details` string.
 */
module ChatTypes {
  /** A conversation, with its last-activity time as an integer timestamp. */
  datatype Chat = Chat(id: string, updatedAt: int, details: string)

  /** A message of some conversation, tagged with the id of its `room`. */
  datatype Message = Message(room: string, content: string)

  /** The locally opened, possibly not yet confirmed, conversation. */
  datatype LocalChat = LocalChat(details: string)
}
