// The helper layer over the backend SDK: record construction, the two-step
// send, first-or-fallback lookups and the filters the realtime subscriptions
// apply before calling back. Every SDK call is an input `Reply`.

module AppwriteService {
  import opened Docs

  /** A document write the client issued and the backend accepted. */
  datatype Write =
    | MessageCreated(message: Message)
    | PreviewUpdated(conversationId: Id, lastMessage: string, lastMessageAt: Time, updatedAt: Time)
    | ConversationCreated(conversation: Conversation)
    | UserCreated(user: UserDoc)

  /** The writes one send performed and what the send returned. */
  datatype Sending = Sending(writes: seq<Write>, result: Reply<Message>)

  /** The account and user document that registration produced. */
  datatype Registration = Registration(account: Account, user: UserDoc)

  // ---------------------------------------------------------------------------
  // Subscription filters

  /** The conversation subscription calls back iff the payload has a
      participants list that includes `userId`. */
  predicate ForwardsConversation(userId: Id, payload: Conversation)
  {
    payload.fields.participants.Some? && userId in payload.fields.participants.value
  }

  /** The message subscription calls back iff the payload belongs to the
      conversation the subscription was opened for. */
  predicate ForwardsMessage(conversationId: Id, payload: Message)
  {
    payload.fields.conversationId == conversationId
  }

  // ---------------------------------------------------------------------------
  // Record construction

  /** The attributes of a message sent now: unread, stamped with `now`. */
  function NewMessageFields(conversationId: Id, senderId: Id, content: string, now: Time): (f: MessageFields)
    ensures f.conversationId == conversationId && f.senderId == senderId && f.content == content
    ensures f.createdAt == now && !f.isRead
  {
    MessageFields(conversationId, senderId, content, now, false)
  }

  /** The attributes of a new conversation: the participants as given, equal
      creation and update stamps, and no preview yet. */
  function NewConversationFields(participants: seq<Id>, now: Time): (f: ConversationFields)
    ensures f.participants == Some(participants)
    ensures f.createdAt == now && f.updatedAt == f.createdAt
    ensures f.lastMessage.None? && f.lastMessageAt.None?
  {
    ConversationFields(Some(participants), now, now, None, None)
  }

  /** The user document created for a new account: keyed by the account id
      and marked online. */
  function NewUserFields(accountId: Id, name: string, email: string, now: Time): (f: UserFields)
    ensures f.userId == accountId && f.name == name && f.email == email
    ensures f.isOnline && f.lastActive == now
  {
    UserFields(accountId, name, email, now, true)
  }

  /** A message built for a conversation passes that conversation's message
      filter, and a conversation built for a pair passes both members' filters:
      the echo of each write reaches the subscriptions of its author. */
  lemma CreatedRecordsPassFilters(id: Id, conversationId: Id, self: Id, other: Id, content: string, now: Time)
    ensures ForwardsMessage(conversationId, Doc(id, NewMessageFields(conversationId, self, content, now)))
    ensures ForwardsConversation(self, Doc(id, NewConversationFields([self, other], now)))
    ensures ForwardsConversation(other, Doc(id, NewConversationFields([self, other], now)))
  {
    var ps := [self, other];
    assert ps[0] == self && ps[1] == other;
  }

  // ---------------------------------------------------------------------------
  // Operations

  /** `sendMessage`: create the message, then update the conversation's
      preview with the same content and the same `now`. The two writes are
      separate: when the second one throws, the message stays written and the
      call throws. */
  function SendMessage(conversationId: Id, userId: Id, content: string, now: Time,
                       created: Reply<Id>, updated: Reply<()>): (r: Sending)
    ensures |r.writes| <= 2
    ensures r.writes == [] <==> created.Threw?
    ensures created.Ok? ==>
              r.writes[0] == MessageCreated(Doc(created.value, NewMessageFields(conversationId, userId, content, now)))
    ensures |r.writes| == 2 <==> created.Ok? && updated.Ok?
    ensures |r.writes| == 2 ==> r.writes[1] == PreviewUpdated(conversationId, content, now, now)
    ensures r.result.Ok? <==> |r.writes| == 2
    ensures r.result.Ok? ==> r.writes[0] == MessageCreated(r.result.value)
  {
    match created
    case Threw => Sending([], Threw)
    case Ok(id) =>
      var message := Doc(id, NewMessageFields(conversationId, userId, content, now));
      match updated
      case Threw => Sending([MessageCreated(message)], Threw)
      case Ok(_) => Sending([MessageCreated(message), PreviewUpdated(conversationId, content, now, now)], Ok(message))
  }

  /** `createConversation`: store the participants unchanged. */
  function CreateConversation(participants: seq<Id>, now: Time, created: Reply<Id>): (r: Reply<Conversation>)
    ensures r.Ok? <==> created.Ok?
    ensures r.Ok? ==> r.value.id == created.value && r.value.fields == NewConversationFields(participants, now)
  {
    match created
    case Threw => Threw
    case Ok(id) => Ok(Doc(id, NewConversationFields(participants, now)))
  }

  /** `createAccount`: the account, then its user document; either call
      throwing makes the whole call throw. */
  function CreateAccount(name: string, email: string, now: Time,
                         account: Reply<Account>, created: Reply<Id>): (r: Reply<Registration>)
    ensures r.Ok? <==> account.Ok? && created.Ok?
    ensures r.Ok? ==> r.value.account == account.value && r.value.user.id == created.value
    ensures r.Ok? ==> r.value.user.fields.userId == account.value.id && r.value.user.fields.isOnline
  {
    match account
    case Threw => Threw
    case Ok(a) =>
      match created
      case Threw => Threw
      case Ok(id) => Ok(Registration(a, Doc(id, NewUserFields(a.id, name, email, now))))
  }

  /** The first element of a listing, if there is one. */
  function First<T>(docs: seq<T>): (r: Option<T>)
    ensures r.None? <==> docs == []
    ensures r.Some? ==> r.value == docs[0]
  {
    if |docs| > 0 then Some(docs[0]) else None
  }

  /** The user object of the current session: its user document when the
      listing found one, otherwise the account details themselves. */
  function CurrentUserOf(account: Account, docs: seq<UserDoc>): (r: Principal)
    ensures docs != [] ==> r == UserDocument(docs[0])
    ensures docs == [] ==> r == AccountDetails(account)
  {
    if |docs| > 0 then UserDocument(docs[0]) else AccountDetails(account)
  }

  /** `getCurrentUser`. */
  function GetCurrentUser(account: Reply<Account>, listed: Reply<seq<UserDoc>>): (r: Reply<Principal>)
    ensures r.Ok? <==> account.Ok? && listed.Ok?
    ensures r.Ok? ==> r.value == CurrentUserOf(account.value, listed.value)
  {
    match account
    case Threw => Threw
    case Ok(a) =>
      match listed
      case Threw => Threw
      case Ok(docs) => Ok(CurrentUserOf(a, docs))
  }

  /** `getUser`: the first document of the `user_id` listing, or null. */
  function GetUser(listed: Reply<seq<UserDoc>>): (r: Reply<Option<UserDoc>>)
    ensures r.Ok? <==> listed.Ok?
    ensures r.Ok? ==> r.value == First(listed.value)
  {
    match listed
    case Threw => Threw
    case Ok(docs) => Ok(First(docs))
  }

  /** When the backend honours the `user_id` equality filter, `getUser`
      returns a document for the requested user or nothing. */
  lemma GetUserFindsRequested(userId: Id, docs: seq<UserDoc>)
    requires forall d :: d in docs ==> d.fields.userId == userId
    ensures var r := GetUser(Ok(docs));
            r.Ok? && (r.value.Some? <==> docs != []) && (r.value.Some? ==> r.value.value.fields.userId == userId)
  {
    if docs != [] {
      assert docs[0] in docs;
    }
  }
}
