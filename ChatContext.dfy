// The chat provider: the local lists of conversations and messages, the
// active conversation and the loading flag, the loads that fill them, the
// realtime subscriptions that reconcile them, and the two operations that
// write to the backend (send a message, get or create a conversation).

module ChatContext {
  import opened Docs
  import AppwriteService
  import ChatEvents

  // ---------------------------------------------------------------------------
  // sendMessage

  /** What the provider's `sendMessage` resolved to: nothing (`return;`),
      null after an error, or the created message. */
  datatype SendOutcome = Skipped | Failed | Sent(message: Message)

  datatype SendAttempt = SendAttempt(writes: seq<AppwriteService.Write>, outcome: SendOutcome)

  /** `sendMessage(content)` against the provider's active conversation and
      user. A user without a `user_id` would send a message without its
      required `sender_id`, which the backend refuses. */
  function SendMessage(active: Option<Conversation>, user: Option<Principal>, content: string, now: Time,
                       created: Reply<Id>, updated: Reply<()>): (r: SendAttempt)
    ensures r.outcome.Skipped? <==> active.None? || user.None?
    ensures r.outcome.Sent? <==> active.Some? && UserIdOf(user).Some? && created.Ok? && updated.Ok?
    ensures r.outcome.Sent? ==>
              var m := r.outcome.message;
              m.id == created.value && m.fields.conversationId == active.value.id &&
              Some(m.fields.senderId) == UserIdOf(user) && m.fields.content == content &&
              m.fields.createdAt == now && !m.fields.isRead
    ensures r.outcome.Sent? ==>
              r.writes == [AppwriteService.MessageCreated(r.outcome.message),
                           AppwriteService.PreviewUpdated(active.value.id, content, now, now)]
    ensures r.outcome.Skipped? ==> r.writes == []
    ensures !r.outcome.Skipped? && (UserIdOf(user).None? || created.Threw?) ==> r.outcome.Failed? && r.writes == []
    ensures active.Some? && UserIdOf(user).Some? && created.Ok? && updated.Threw? ==>
              && r.outcome.Failed?
              && r.writes == [AppwriteService.MessageCreated(
                                Doc(created.value, AppwriteService.NewMessageFields(active.value.id, UserIdOf(user).value,
                                                                                    content, now)))]
  {
    if active.None? || user.None? then SendAttempt([], Skipped)
    else match user.value.UserId()
      case None => SendAttempt([], Failed)
      case Some(self) =>
        var s := AppwriteService.SendMessage(active.value.id, self, content, now, created, updated);
        SendAttempt(s.writes, if s.result.Ok? then Sent(s.result.value) else Failed)
  }

  // ---------------------------------------------------------------------------
  // createConversation: the get-or-create decision

  datatype Choice = Existing(conversation: Conversation) | Created(conversation: Conversation)

  /** Given the conversations the listing returned for the pair, reuse the
      first one, or build `participants = [self, other]` with equal stamps. */
  function ChooseConversation(listed: seq<Conversation>, self: Id, other: Id, now: Time, newId: Id): (c: Choice)
    ensures listed != [] ==> c == Existing(listed[0])
    ensures listed == [] ==> c.Created? && c.conversation.id == newId
    ensures listed == [] ==> c.conversation.fields.participants == Some([self, other])
    ensures listed == [] ==> c.conversation.fields.createdAt == now == c.conversation.fields.updatedAt
  {
    if |listed| > 0 then Existing(listed[0])
    else Created(Doc(newId, AppwriteService.NewConversationFields([self, other], now)))
  }

  /** What `createConversation(participantId)` resolves to for the user:
      null without a user, when the listing throws, or when the create cannot
      be made (no `user_id`, or the create throws); otherwise the first listed
      conversation, or the conversation it created. */
  function GetOrCreate(user: Option<Principal>, participantId: Id, listed: Reply<seq<Conversation>>, now: Time,
                       created: Reply<Id>): (r: Option<Choice>)
    ensures user.None? || listed.Threw? ==> r.None?
    ensures user.Some? && listed.Ok? && listed.value != [] ==> r == Some(Existing(listed.value[0]))
    ensures user.Some? && listed.Ok? && listed.value == [] ==>
              && (r.Some? <==> user.value.UserId().Some? && created.Ok?)
              && (r.Some? ==> r.value.Created? && r.value.conversation.id == created.value &&
                              r.value.conversation.fields.participants == Some([user.value.UserId().value, participantId]))
  {
    if user.None? || listed.Threw? then None
    else if |listed.value| > 0 then Some(Existing(listed.value[0]))
    else match user.value.UserId()
      case None => None
      case Some(self) =>
        if created.Threw? then None else Some(ChooseConversation([], self, participantId, now, created.value))
  }

  /** Whether both ids are among a conversation's participants: the two
      `contains` filters of the listing. */
  predicate Between(c: Conversation, a: Id, b: Id)
  {
    c.fields.participants.Some? && a in c.fields.participants.value && b in c.fields.participants.value
  }

  /** The listing of a backend that stores `store` in creation order and
      honours both filters: exactly the stored conversations between the two
      ids, in their stored order. */
  function Matching(store: seq<Conversation>, a: Id, b: Id): (r: seq<Conversation>)
    ensures forall i :: 0 <= i < |r| ==> Between(r[i], a, b) && r[i] in store
    ensures forall i :: 0 <= i < |store| && Between(store[i], a, b) ==> store[i] in r
    ensures ChatEvents.SubsequenceOf(r, store)
  {
    if store == [] then []
    else if Between(store[0], a, b) then [store[0]] + Matching(store[1..], a, b)
    else Matching(store[1..], a, b)
  }

  lemma {:induction false} MatchingSymmetric(store: seq<Conversation>, a: Id, b: Id)
    ensures Matching(store, a, b) == Matching(store, b, a)
  {
    if store != [] {
      MatchingSymmetric(store[1..], a, b);
    }
  }

  lemma {:induction false} MatchingAppend(store: seq<Conversation>, c: Conversation, a: Id, b: Id)
    requires Between(c, a, b)
    ensures Matching(store + [c], a, b) == Matching(store, a, b) + [c]
  {
    if store == [] {
      assert Matching([c][1..], a, b) == [];
    } else {
      assert (store + [c])[1..] == store[1..] + [c];
      MatchingAppend(store[1..], c, a, b);
    }
  }

  /** With a backend that answers listings from its current contents, in
      creation order, get-or-create for two users with user documents
      returns a conversation, and a second get-or-create for the same pair
      run after it, from either side, returns that conversation as an
      existing one. */
  lemma GetOrCreateIdempotent(store: seq<Conversation>, u: UserDoc, v: UserDoc,
                              now1: Time, id1: Id, now2: Time, id2: Id)
    ensures var a := u.fields.userId;
            var b := v.fields.userId;
            var first := GetOrCreate(Some(UserDocument(u)), b, Ok(Matching(store, a, b)), now1, Ok(id1));
            && first.Some?
            && var store' := if first.value.Created? then store + [first.value.conversation] else store;
               && GetOrCreate(Some(UserDocument(u)), b, Ok(Matching(store', a, b)), now2, Ok(id2))
                    == Some(Existing(first.value.conversation))
               && GetOrCreate(Some(UserDocument(v)), a, Ok(Matching(store', b, a)), now2, Ok(id2))
                    == Some(Existing(first.value.conversation))
  {
    var a := u.fields.userId;
    var b := v.fields.userId;
    MatchingSymmetric(store, a, b);
    var first := GetOrCreate(Some(UserDocument(u)), b, Ok(Matching(store, a, b)), now1, Ok(id1));
    if first.value.Created? {
      var c := first.value.conversation;
      var ps := [a, b];
      assert c.fields.participants == Some(ps) && ps[0] == a && ps[1] == b;
      MatchingAppend(store, c, a, b);
      MatchingAppend(store, c, b, a);
    }
  }

  // ---------------------------------------------------------------------------
  // The provider

  class ChatProvider {
    /** The authentication context's user, as last rendered. */
    var user: Option<Principal>
    var conversations: seq<Conversation>
    var activeConversation: Option<Conversation>
    var messages: seq<Message>
    var loading: bool
    /** The `user_id` each conversation subscription captured when it was
        opened, oldest first. Subscriptions are never closed. */
    var conversationSubscriptions: seq<Option<Id>>
    /** The conversation id each message subscription captured when it was
        opened, oldest first. Subscriptions are never closed. */
    var messageSubscriptions: seq<Id>
    /** The document writes the provider issued and the backend accepted. */
    var writes: seq<AppwriteService.Write>

    constructor ()
      ensures user.None? && activeConversation.None? && loading
      ensures conversations == [] && messages == []
      ensures conversationSubscriptions == [] && messageSubscriptions == [] && writes == []
    {
      user := None;
      conversations := [];
      activeConversation := None;
      messages := [];
      loading := true;
      conversationSubscriptions := [];
      messageSubscriptions := [];
      writes := [];
    }

    /** The first half of `loadConversations`, up to the awaited listing:
        nothing happens without a user. */
    method BeginLoadConversations() returns (started: bool)
      modifies this`loading
      ensures started <==> user.Some?
      ensures loading == (started || old(loading))
    {
      started := user.Some?;
      if started {
        loading := true;
      }
    }

    /** The second half of `loadConversations`: the listing replaces the list
        when it succeeded; either way the flag drops. */
    method CompleteLoadConversations(listed: Reply<seq<Conversation>>)
      modifies this`conversations, this`loading
      ensures conversations == (if listed.Ok? then listed.value else old(conversations))
      ensures !loading
    {
      if listed.Ok? {
        conversations := listed.value;
      }
      loading := false;
    }

    /** The first half of `loadMessages(conversationId)`. */
    method BeginLoadMessages()
      modifies this`loading
      ensures loading
    {
      loading := true;
    }

    /** The second half of `loadMessages(conversationId)`. The listing is
        written whichever conversation is active by then: `conversationId`,
        the conversation the listing was requested for, is not compared with
        the active one, so there is no guard against a response for a
        conversation no longer shown. */
    method CompleteLoadMessages(conversationId: Id, listed: Reply<seq<Message>>)
      modifies this`messages, this`loading
      ensures messages == (if listed.Ok? then listed.value else old(messages))
      ensures !loading
    {
      if listed.Ok? {
        messages := listed.value;
      }
      loading := false;
    }

    /** A new user from the authentication context, and the effect on
        `[user]`: with a user, start loading its conversations and open a
        conversation subscription that captures its `user_id`. Neither lists
        nor subscriptions are cleared. */
    method SetUser(u: Option<Principal>)
      modifies this
      ensures user == u
      ensures u.Some? ==> loading && conversationSubscriptions == old(conversationSubscriptions) + [u.value.UserId()]
      ensures u.None? ==> loading == old(loading) && conversationSubscriptions == old(conversationSubscriptions)
      ensures conversations == old(conversations) && messages == old(messages)
      ensures activeConversation == old(activeConversation)
      ensures messageSubscriptions == old(messageSubscriptions) && writes == old(writes)
    {
      user := u;
      if u.Some? {
        var _ := BeginLoadConversations();
        conversationSubscriptions := conversationSubscriptions + [u.value.UserId()];
      }
    }

    /** `setActiveConversation`, and the effect on `[activeConversation]`:
        start loading its messages and open a message subscription that
        captures its id. Earlier message subscriptions stay open. */
    method SetActiveConversation(c: Option<Conversation>)
      modifies this
      ensures activeConversation == c
      ensures c.Some? ==> loading && messageSubscriptions == old(messageSubscriptions) + [c.value.id]
      ensures c.None? ==> loading == old(loading) && messageSubscriptions == old(messageSubscriptions)
      ensures conversations == old(conversations) && messages == old(messages) && user == old(user)
      ensures conversationSubscriptions == old(conversationSubscriptions) && writes == old(writes)
    {
      activeConversation := c;
      if c.Some? {
        BeginLoadMessages();
        messageSubscriptions := messageSubscriptions + [c.value.id];
      }
    }

    /** A realtime event on the conversations collection reaches every open
        conversation subscription in turn; each relevant one applies it. */
    method DeliverConversationEvent(events: seq<string>, payload: Conversation)
      modifies this`conversations
      ensures conversations ==
                ChatEvents.ApplyTimes(ChatEvents.ConversationListeners(conversationSubscriptions, payload),
                                      ChatEvents.KindOf(events), payload, old(conversations))
    {
      var subs := conversationSubscriptions;
      var i := 0;
      while i < |subs|
        invariant 0 <= i <= |subs|
        invariant conversations ==
                    ChatEvents.ApplyTimes(ChatEvents.ConversationListeners(subs[..i], payload),
                                          ChatEvents.KindOf(events), payload, old(conversations))
      {
        ChatEvents.ConversationDeliveryStep(subs, i, events, payload, old(conversations));
        conversations := ChatEvents.OnConversationEvent(subs[i], events, payload, conversations);
        i := i + 1;
      }
      assert subs[..i] == subs;
    }

    /** A realtime event on the messages collection reaches every open
        message subscription in turn; each one opened for the payload's
        conversation applies it. */
    method DeliverMessageEvent(events: seq<string>, payload: Message)
      modifies this`messages
      ensures messages ==
                ChatEvents.ApplyTimes(ChatEvents.MessageListeners(messageSubscriptions, payload),
                                      ChatEvents.KindOf(events), payload, old(messages))
    {
      var subs := messageSubscriptions;
      var i := 0;
      while i < |subs|
        invariant 0 <= i <= |subs|
        invariant messages ==
                    ChatEvents.ApplyTimes(ChatEvents.MessageListeners(subs[..i], payload),
                                          ChatEvents.KindOf(events), payload, old(messages))
      {
        ChatEvents.MessageDeliveryStep(subs, i, events, payload, old(messages));
        messages := ChatEvents.OnMessageEvent(subs[i], events, payload, messages);
        i := i + 1;
      }
      assert subs[..i] == subs;
    }

    /** `sendMessage(content)` against the current active conversation and
        user; the provider's own lists are left to the realtime events. */
    method Send(content: string, now: Time, created: Reply<Id>, updated: Reply<()>) returns (outcome: SendOutcome)
      modifies this`writes
      ensures var attempt := SendMessage(activeConversation, user, content, now, created, updated);
              outcome == attempt.outcome && writes == old(writes) + attempt.writes
    {
      var attempt := SendMessage(activeConversation, user, content, now, created, updated);
      writes := writes + attempt.writes;
      outcome := attempt.outcome;
    }

    /** `createConversation(participantId, participantName)`: without a user,
        or when the listing throws, null; the first listed conversation if
        there is one; otherwise create `[self, participantId]`, reload the
        conversations and return the new one. The name is not used. */
    method CreateConversation(participantId: Id, listed: Reply<seq<Conversation>>, now: Time,
                              created: Reply<Id>, reloaded: Reply<seq<Conversation>>)
      returns (r: Option<Conversation>)
      modifies this
      ensures user == old(user) && activeConversation == old(activeConversation) && messages == old(messages)
      ensures conversationSubscriptions == old(conversationSubscriptions)
      ensures messageSubscriptions == old(messageSubscriptions)
      ensures old(user).None? || listed.Threw? ==> r.None? && unchanged(this)
      ensures old(user).Some? && listed.Ok? && listed.value != [] ==> r == Some(listed.value[0]) && unchanged(this)
      ensures old(user).Some? && listed.Ok? && listed.value == [] ==>
                if old(user).value.UserId().Some? && created.Ok? then
                  var c := ChooseConversation([], old(user).value.UserId().value, participantId, now, created.value).conversation;
                  && r == Some(c)
                  && writes == old(writes) + [AppwriteService.ConversationCreated(c)]
                  && conversations == (if reloaded.Ok? then reloaded.value else old(conversations))
                  && !loading
                else r.None? && unchanged(this)
      ensures var g := GetOrCreate(old(user), participantId, listed, now, created);
              && r == (if g.Some? then Some(g.value.conversation) else None)
              && writes == old(writes) + (if g.Some? && g.value.Created? then [AppwriteService.ConversationCreated(g.value.conversation)] else [])
              && conversations == (if g.Some? && g.value.Created? && reloaded.Ok? then reloaded.value else old(conversations))
              && loading == (if g.Some? && g.value.Created? then false else old(loading))
    {
      if user.None? || listed.Threw? {
        return None;
      }
      if |listed.value| > 0 {
        return Some(listed.value[0]);
      }
      var self := user.value.UserId();
      if self.None? || created.Threw? {
        return None;
      }
      var choice := ChooseConversation(listed.value, self.value, participantId, now, created.value);
      writes := writes + [AppwriteService.ConversationCreated(choice.conversation)];
      var _ := BeginLoadConversations();
      CompleteLoadConversations(reloaded);
      r := Some(choice.conversation);
    }
  }

  // ---------------------------------------------------------------------------
  // Consequences of subscriptions that are never closed

  /** After switching from `first` to `second`, a message created in `first`
      still reaches the message list through the first subscription. */
  method StaleSubscriptionScenario(first: Conversation, second: Conversation, m: Message)
    returns (active: Option<Conversation>, shown: seq<Message>)
    requires first.id != second.id && m.fields.conversationId == first.id
    ensures active == Some(second) && shown == [m]
  {
    var chat := new ChatProvider();
    chat.SetActiveConversation(Some(first));
    chat.SetActiveConversation(Some(second));
    var subs := chat.messageSubscriptions;
    assert subs == [first.id, second.id] && subs[..1] == [first.id];
    assert ChatEvents.MessageListeners(subs, m) == 1;
    ChatEvents.RepeatedDelivery(1, ChatEvents.Create, m, []);
    chat.DeliverMessageEvent([ChatEvents.CreateEvent], m);
    active := chat.activeConversation;
    shown := chat.messages;
  }

  /** Activating the same conversation through a second object opens a
      second subscription for it, and each created message then appears twice. */
  method ReactivationScenario(c: Conversation, again: Conversation, m: Message)
    returns (shown: seq<Message>)
    requires again.id == c.id && m.fields.conversationId == c.id
    ensures shown == [m, m]
  {
    var chat := new ChatProvider();
    chat.SetActiveConversation(Some(c));
    chat.SetActiveConversation(Some(again));
    var subs := chat.messageSubscriptions;
    assert subs == [c.id, c.id] && subs[..1] == [c.id];
    assert ChatEvents.MessageListeners(subs, m) == 2;
    ChatEvents.RepeatedDelivery(2, ChatEvents.Create, m, []);
    chat.DeliverMessageEvent([ChatEvents.CreateEvent], m);
    shown := chat.messages;
    assert shown[..2] == [m, m];
  }

  /** After the user signs out, the lists are kept and the signed-out user's
      subscription keeps reconciling conversations that concern them. */
  method SignedOutScenario(u: UserDoc, c: Conversation) returns (signedIn: Option<Principal>, shown: seq<Conversation>)
    requires c.fields.participants == Some([u.fields.userId])
    ensures signedIn.None? && shown == [c]
  {
    var chat := new ChatProvider();
    chat.SetUser(Some(UserDocument(u)));
    chat.SetUser(None);
    var subs := chat.conversationSubscriptions;
    var ps := [u.fields.userId];
    assert ps[0] == u.fields.userId;
    assert subs == [Some(u.fields.userId)];
    assert ChatEvents.ConversationListeners(subs, c) == 1;
    ChatEvents.RepeatedDelivery(1, ChatEvents.Create, c, []);
    chat.DeliverConversationEvent([ChatEvents.CreateEvent], c);
    signedIn := chat.user;
    shown := chat.conversations;
  }
}
