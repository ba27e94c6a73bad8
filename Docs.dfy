// Shared vocabulary of the chat client: the backend's documents and the
// outcome of one call to the backend.

module Docs {

  /** Backend-assigned identifiers (`$id`, `user_id`, ...) are opaque strings. */
  type Id = string

  /** ISO-8601 timestamps; the model never inspects them. */
  type Time = string

  datatype Option<T> = None | Some(value: T)

  /** What one awaited backend call produced: a value, or an exception. */
  datatype Reply<T> = Ok(value: T) | Threw

  /** A stored document: its `$id` and its attributes. */
  datatype Doc<F> = Doc(id: Id, fields: F)

  /** Attributes of a conversation document. `participants` is optional because
      realtime payloads are checked for it before use. */
  datatype ConversationFields = ConversationFields(
    participants: Option<seq<Id>>,
    createdAt: Time,
    updatedAt: Time,
    lastMessage: Option<string>,
    lastMessageAt: Option<Time>)

  datatype MessageFields = MessageFields(
    conversationId: Id,
    senderId: Id,
    content: string,
    createdAt: Time,
    isRead: bool)

  datatype UserFields = UserFields(
    userId: Id,
    name: string,
    email: string,
    lastActive: Time,
    isOnline: bool)

  type Conversation = Doc<ConversationFields>
  type Message = Doc<MessageFields>
  type UserDoc = Doc<UserFields>

  /** The account object of the authentication service (`account.get()`). */
  datatype Account = Account(id: Id, name: string, email: string)

  /** The signed-in user as the authentication context stores it: the user
      document when one exists, otherwise the raw account details. */
  datatype Principal = UserDocument(doc: UserDoc) | AccountDetails(account: Account)
  {
    /** `user.$id` */
    function DocId(): Id {
      match this
      case UserDocument(d) => d.id
      case AccountDetails(a) => a.id
    }

    /** `user.user_id`, which the raw account details do not have. */
    function UserId(): Option<Id> {
      match this
      case UserDocument(d) => Some(d.fields.userId)
      case AccountDetails(_) => None
    }
  }

  /** `user?.user_id` for a possibly signed-out user. */
  function UserIdOf(user: Option<Principal>): Option<Id> {
    if user.Some? then user.value.UserId() else None
  }
}
