// The conversation list: the `user_id` map built from the users listing,
// the other participant of each conversation, and what a row shows when
// that participant or the preview is missing.

module ConversationListScreen {
  import opened Docs
  import ChatContext

  /** The `user_id` map: a fold over the listing from left to right, so a
      later document with the same `user_id` overwrites an earlier one. */
  function UserMap(docs: seq<UserDoc>): (m: map<Id, UserDoc>)
    ensures forall k :: k in m <==> exists i :: 0 <= i < |docs| && docs[i].fields.userId == k
  {
    if docs == [] then map[]
    else
      var init := docs[..|docs| - 1];
      var last := docs[|docs| - 1];
      assert forall i :: 0 <= i < |init| ==> init[i] == docs[i];
      UserMap(init)[last.fields.userId := last]
  }

  /** Each key maps to the LAST document of the listing that carries it. */
  lemma {:induction false} UserMapLaterWins(docs: seq<UserDoc>, j: nat)
    requires j < |docs|
    requires forall i :: j < i < |docs| ==> docs[i].fields.userId != docs[j].fields.userId
    ensures docs[j].fields.userId in UserMap(docs)
    ensures UserMap(docs)[docs[j].fields.userId] == docs[j]
  {
    if j < |docs| - 1 {
      var init := docs[..|docs| - 1];
      assert forall i :: 0 <= i < |init| ==> init[i] == docs[i];
      UserMapLaterWins(init, j);
    }
  }

  /** `loadUserData`'s `forEach`: `map[user.user_id] = user` for each user. */
  method BuildUserMap(docs: seq<UserDoc>) returns (m: map<Id, UserDoc>)
    ensures m == UserMap(docs)
  {
    m := map[];
    var i := 0;
    while i < |docs|
      invariant 0 <= i <= |docs|
      invariant m == UserMap(docs[..i])
    {
      assert docs[..i + 1][..i] == docs[..i];
      m := m[docs[i].fields.userId := docs[i]];
      i := i + 1;
    }
    assert docs[..i] == docs;
  }

  /** `participants.find(p => p !== user.user_id)`: the first participant
      that is not the current user, undefined if there is none. */
  function OtherParticipant(participants: seq<Id>, self: Option<Id>): (r: Option<Id>)
    ensures r.None? <==> forall i :: 0 <= i < |participants| ==> Some(participants[i]) == self
    ensures r.Some? ==> Some(r.value) != self
    ensures r.Some? ==>
              exists i :: 0 <= i < |participants| && participants[i] == r.value &&
                          forall j :: 0 <= j < i ==> Some(participants[j]) == self
  {
    if participants == [] then None
    else if Some(participants[0]) != self then Some(participants[0])
    else
      var r := OtherParticipant(participants[1..], self);
      assert forall i :: 1 <= i < |participants| ==> participants[i] == participants[1..][i - 1];
      if r.Some? then
        var k :| 0 <= k < |participants[1..]| && participants[1..][k] == r.value &&
                 forall j :: 0 <= j < k ==> Some(participants[1..][j]) == self;
        assert participants[k + 1] == r.value;
        r
      else r
  }

  /** In a conversation this client created with someone else, the other
      participant is that someone; in one created with oneself there is none. */
  lemma OtherParticipantOfCreated(self: Id, other: Id, now: Time, newId: Id)
    ensures var c := ChatContext.ChooseConversation([], self, other, now, newId).conversation;
            OtherParticipant(c.fields.participants.value, Some(self)) == (if other != self then Some(other) else None)
  {
    var ps := [self, other];
    assert ps[0] == self && ps[1] == other;
  }

  /** What a row or the chat header shows about the other participant. */
  datatype Display = Display(name: string, online: bool)

  /** The other participant's name and online flag from the user map, or
      `'User'` and offline when the participant is unknown. */
  function DisplayFor(userMap: map<Id, UserDoc>, other: Option<Id>): (d: Display)
    ensures other.Some? && other.value in userMap ==>
              d == Display(userMap[other.value].fields.name, userMap[other.value].fields.isOnline)
    ensures !(other.Some? && other.value in userMap) ==> d == Display("User", false)
  {
    if other.Some? && other.value in userMap then
      var u := userMap[other.value];
      Display(u.fields.name, u.fields.isOnline)
    else Display("User", false)
  }

  /** The preview line: the last message, or a prompt when it is missing or
      empty (an empty string is falsy). */
  function PreviewText(lastMessage: Option<string>): (t: string)
    ensures lastMessage.Some? && lastMessage.value != "" ==> t == lastMessage.value
    ensures lastMessage.None? || lastMessage.value == "" ==> t == "Start a conversation"
  {
    if lastMessage.Some? && lastMessage.value != "" then lastMessage.value else "Start a conversation"
  }

  /** The timestamp a row formats: only a `last_message_at` that is set
      (and not the empty string) is shown. */
  function ShownTime(lastMessageAt: Option<Time>): (t: Option<Time>)
    ensures t.Some? ==> t == lastMessageAt
    ensures t.None? <==> lastMessageAt.None? || lastMessageAt.value == ""
  {
    if lastMessageAt.Some? && lastMessageAt.value != "" then lastMessageAt else None
  }

  /** The parameters the chat screen is opened with. */
  datatype ChatParams = ChatParams(name: string, isOnline: bool, userId: Option<Id>)

  /** The parameters for opening a listed conversation. */
  function ParamsFor(conversation: Conversation, self: Option<Id>, userMap: map<Id, UserDoc>): (p: ChatParams)
    requires conversation.fields.participants.Some?
    ensures p.userId == OtherParticipant(conversation.fields.participants.value, self)
    ensures Display(p.name, p.isOnline) == DisplayFor(userMap, p.userId)
  {
    var other := OtherParticipant(conversation.fields.participants.value, self);
    var d := DisplayFor(userMap, other);
    ChatParams(d.name, d.online, other)
  }

  /** `handleNewChat`: open a chat with the first user of the listing, and do
      nothing when the listing is empty or throws. */
  function HandleNewChat(listed: Reply<seq<UserDoc>>): (r: Option<ChatParams>)
    ensures r.Some? <==> listed.Ok? && listed.value != []
    ensures r.Some? ==>
              var u := listed.value[0];
              r.value == ChatParams(u.fields.name, u.fields.isOnline, Some(u.fields.userId))
  {
    if listed.Ok? && |listed.value| > 0 then
      var u := listed.value[0];
      Some(ChatParams(u.fields.name, u.fields.isOnline, Some(u.fields.userId)))
    else None
  }

  /** When the backend honours the `user_id != self` filter, a new chat is
      never opened with oneself. */
  lemma NewChatIsWithSomeoneElse(self: Id, docs: seq<UserDoc>)
    requires forall i :: 0 <= i < |docs| ==> docs[i].fields.userId != self
    ensures var r := HandleNewChat(Ok(docs));
            r.Some? ==> r.value.userId.Some? && r.value.userId.value != self
  {
  }

  class ConversationList {
    var userMap: map<Id, UserDoc>

    constructor ()
      ensures userMap == map[]
    {
      userMap := map[];
    }

    /** `loadUserData`: replace the map when the listing succeeds; keep it
        when the listing throws. */
    method LoadUserData(listed: Reply<seq<UserDoc>>)
      modifies this
      ensures userMap == (if listed.Ok? then UserMap(listed.value) else old(userMap))
    {
      if listed.Ok? {
        userMap := BuildUserMap(listed.value);
      }
    }

    /** `handleSelectConversation`: make the conversation active (which
        loads and subscribes to its messages), then open the chat with the
        other participant's details. */
    method SelectConversation(chat: ChatContext.ChatProvider, conversation: Conversation, self: Option<Id>)
      returns (params: ChatParams)
      requires conversation.fields.participants.Some?
      modifies chat
      ensures chat.activeConversation == Some(conversation)
      ensures chat.messageSubscriptions == old(chat.messageSubscriptions) + [conversation.id]
      ensures chat.loading && chat.messages == old(chat.messages) && chat.conversations == old(chat.conversations)
      ensures chat.user == old(chat.user) && chat.conversationSubscriptions == old(chat.conversationSubscriptions)
      ensures chat.writes == old(chat.writes)
      ensures params == ParamsFor(conversation, self, userMap)
    {
      chat.SetActiveConversation(Some(conversation));
      params := ParamsFor(conversation, self, userMap);
    }
  }
}
