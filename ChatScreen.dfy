// The chat screen: the text input, the send guard and the `sending` flag,
// the send button's disabled state, whose messages are "mine", and the
// effect that opens (or creates) the conversation when none is active.

module ChatScreen {
  import opened Docs
  import AppwriteService
  import ChatContext

  /** The characters `String.prototype.trim` removes: white space and line
      terminators. */
  const Spaces: set<char> :=
    {' ', '\t', '\n', '\r', '\U{000B}', '\U{000C}', '\U{00A0}', '\U{1680}',
     '\U{2000}', '\U{2001}', '\U{2002}', '\U{2003}', '\U{2004}', '\U{2005}', '\U{2006}',
     '\U{2007}', '\U{2008}', '\U{2009}', '\U{200A}',
     '\U{2028}', '\U{2029}', '\U{202F}', '\U{205F}', '\U{3000}', '\U{FEFF}'}

  predicate IsSpace(c: char)
  {
    c in Spaces
  }

  /** How many white-space characters `s` starts with. */
  function LeadingSpaces(s: string): (n: nat)
    ensures n <= |s|
    ensures forall i :: 0 <= i < n ==> IsSpace(s[i])
    ensures n < |s| ==> !IsSpace(s[n])
  {
    if s != [] && IsSpace(s[0]) then
      var n := 1 + LeadingSpaces(s[1..]);
      assert forall i :: 1 <= i < n ==> s[i] == s[1..][i - 1];
      n
    else 0
  }

  /** How many white-space characters `s` ends with. */
  function TrailingSpaces(s: string): (n: nat)
    ensures n <= |s|
    ensures forall i :: |s| - n <= i < |s| ==> IsSpace(s[i])
    ensures n < |s| ==> !IsSpace(s[|s| - n - 1])
  {
    if s != [] && IsSpace(s[|s| - 1]) then
      var n := 1 + TrailingSpaces(s[..|s| - 1]);
      assert forall i :: |s| - n <= i < |s| - 1 ==> s[i] == s[..|s| - 1][i];
      n
    else 0
  }

  /** `s` with its leading white space removed. */
  function TrimStart(s: string): (r: string)
    ensures |r| <= |s| && r == s[|s| - |r|..]
    ensures forall i :: 0 <= i < |s| - |r| ==> IsSpace(s[i])
    ensures r != [] ==> !IsSpace(r[0])
  {
    s[LeadingSpaces(s)..]
  }

  /** `s` with its trailing white space removed. */
  function TrimEnd(s: string): (r: string)
    ensures |r| <= |s| && r == s[..|r|]
    ensures forall i :: |r| <= i < |s| ==> IsSpace(s[i])
    ensures r != [] ==> !IsSpace(r[|r| - 1])
  {
    s[..|s| - TrailingSpaces(s)]
  }

  /** `s.trim()`. */
  function Trim(s: string): string
  {
    TrimEnd(TrimStart(s))
  }

  /** The trimmed text is the slice of `s` between its leading and trailing
      white space, and starts and ends with a character that is not white
      space. */
  lemma TrimIsCore(s: string)
    ensures var lo := |s| - |TrimStart(s)|;
            var r := Trim(s);
            && lo + |r| <= |s|
            && r == s[lo..lo + |r|]
            && (forall i :: 0 <= i < lo ==> IsSpace(s[i]))
            && (forall i :: lo + |r| <= i < |s| ==> IsSpace(s[i]))
            && (r != [] ==> !IsSpace(r[0]) && !IsSpace(r[|r| - 1]))
  {
    var t := TrimStart(s);
    var lo := |s| - |t|;
    forall i | lo + |Trim(s)| <= i < |s| ensures IsSpace(s[i]) {
      assert s[i] == t[i - lo];
    }
    if Trim(s) != [] {
      assert Trim(s)[0] == t[0];
    }
  }

  /** The text trims to nothing exactly when it is all white space. */
  lemma {:induction false} TrimEmptyIffBlank(s: string)
    ensures Trim(s) == [] <==> forall i :: 0 <= i < |s| ==> IsSpace(s[i])
  {
    TrimIsCore(s);
    var t := TrimStart(s);
    if t != [] {
      assert !IsSpace(t[0]) && t[0] == s[|s| - |t|];
      assert TrimEnd(t) != [];
    }
  }

  /** Trimming twice is trimming once. */
  lemma TrimIdempotent(s: string)
    ensures Trim(Trim(s)) == Trim(s)
  {
    var r := Trim(s);
    TrimIsCore(s);
    if r != [] {
      assert TrimStart(r) == r;
      assert TrimEnd(r) == r;
    }
  }

  /** The guard of `handleSendMessage`: nothing to send, or no conversation. */
  predicate SendBlocked(text: string, hasActive: bool)
  {
    Trim(text) == [] || !hasActive
  }

  /** The send button's `disabled`: the guard, or a send in flight. */
  predicate SendDisabled(text: string, hasActive: bool, sending: bool)
  {
    Trim(text) == [] || !hasActive || sending
  }

  /** The send button's greyed-out style: the same test as the handler's
      guard, without `sending`. */
  predicate StyledDisabled(text: string, hasActive: bool)
  {
    SendBlocked(text, hasActive)
  }

  /** An enabled button always reaches a send, and the button is disabled
      while looking enabled exactly during a send of a text the handler
      accepts. */
  lemma ButtonMatchesGuard(text: string, hasActive: bool, sending: bool)
    ensures !SendDisabled(text, hasActive, sending) ==> !SendBlocked(text, hasActive)
    ensures SendDisabled(text, hasActive, sending) && !StyledDisabled(text, hasActive) <==>
              sending && !SendBlocked(text, hasActive)
  {
  }

  /** A message is drawn as mine iff its sender is the current `user_id`. */
  predicate IsMyMessage(m: Message, self: Option<Id>)
  {
    self.Some? && m.fields.senderId == self.value
  }

  /** Every message the provider sends is drawn as mine. */
  lemma SentMessagesAreMine(active: Option<Conversation>, user: Option<Principal>, content: string, now: Time,
                            created: Reply<Id>, updated: Reply<()>)
    ensures var a := ChatContext.SendMessage(active, user, content, now, created, updated);
            a.outcome.Sent? ==> IsMyMessage(a.outcome.message, UserIdOf(user))
  {
  }

  /** The effect on `[activeConversation, userId, isOnline]` starts
      `initializeConversation` only with no active conversation and a
      (non-empty) `userId` among the route parameters. */
  predicate ShouldInitialize(active: Option<Conversation>, userId: Option<Id>)
  {
    active.None? && userId.Some? && userId.value != ""
  }

  class Chat {
    var messageText: string
    var sending: bool

    constructor ()
      ensures messageText == "" && !sending
    {
      messageText := "";
      sending := false;
    }

    /** `handleSendMessage`: refuse blank text or a missing conversation;
        otherwise send the trimmed text with `sending` raised, clear the input
        once the send resolves, and lower `sending`. The provider's send never
        throws (it returns null on error), so the input is cleared whenever a
        send was made, successful or not. */
    method HandleSendMessage(chat: ChatContext.ChatProvider, now: Time, created: Reply<Id>, updated: Reply<()>)
      returns (outcome: Option<ChatContext.SendOutcome>)
      modifies this, chat`writes
      ensures SendBlocked(old(messageText), chat.activeConversation.Some?) ==>
                outcome.None? && messageText == old(messageText) && sending == old(sending) &&
                chat.writes == old(chat.writes)
      ensures !SendBlocked(old(messageText), chat.activeConversation.Some?) ==>
                var attempt := ChatContext.SendMessage(chat.activeConversation, chat.user, Trim(old(messageText)),
                                                       now, created, updated);
                && outcome == Some(attempt.outcome)
                && chat.writes == old(chat.writes) + attempt.writes
                && messageText == "" && !sending
    {
      if Trim(messageText) == [] || chat.activeConversation.None? {
        return None;
      }
      sending := true;
      var sent := chat.Send(Trim(messageText), now, created, updated);
      messageText := "";
      sending := false;
      outcome := Some(sent);
    }

    /** The conversation effect: when it should, get or create the
        conversation with `userId` and make it active if one came back. */
    method ConversationEffect(chat: ChatContext.ChatProvider, userId: Option<Id>,
                              listed: Reply<seq<Conversation>>, now: Time, created: Reply<Id>,
                              reloaded: Reply<seq<Conversation>>)
      returns (started: bool, conversation: Option<Conversation>)
      modifies chat
      ensures started <==> ShouldInitialize(old(chat.activeConversation), userId)
      ensures !started ==> conversation.None? && unchanged(chat)
      ensures started ==>
                var g := ChatContext.GetOrCreate(old(chat.user), userId.value, listed, now, created);
                var made := g.Some? && g.value.Created?;
                && conversation == (if g.Some? then Some(g.value.conversation) else None)
                && chat.activeConversation == (if g.Some? then conversation else old(chat.activeConversation))
                && chat.messageSubscriptions == old(chat.messageSubscriptions) + (if g.Some? then [g.value.conversation.id] else [])
                && chat.loading == (if g.Some? then true else old(chat.loading))
                && chat.writes == old(chat.writes) + (if made then [AppwriteService.ConversationCreated(g.value.conversation)] else [])
                && chat.conversations == (if made && reloaded.Ok? then reloaded.value else old(chat.conversations))
                && chat.user == old(chat.user) && chat.messages == old(chat.messages)
                && chat.conversationSubscriptions == old(chat.conversationSubscriptions)
    {
      started := ShouldInitialize(chat.activeConversation, userId);
      conversation := None;
      if started {
        conversation := chat.CreateConversation(userId.value, listed, now, created, reloaded);
        if conversation.Some? {
          chat.SetActiveConversation(conversation);
        }
      }
    }
  }
}
