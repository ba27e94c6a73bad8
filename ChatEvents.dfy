// The realtime reconciliation of the chat provider: how one change event,
// once its subscription forwards it, rewrites the local list of
// conversations or of messages. Both lists use the same three operations,
// keyed by the document's `$id`.

module ChatEvents {
  import opened Docs
  import AppwriteService

  const CreateEvent: string := "databases.*.collections.*.documents.*.create"
  const UpdateEvent: string := "databases.*.collections.*.documents.*.update"
  const DeleteEvent: string := "databases.*.collections.*.documents.*.delete"

  /** The branch of the handler an event list selects. */
  datatype Kind = Create | Update | Delete | Ignored

  /** The handler tests for a create event first, then update, then delete. */
  function KindOf(events: seq<string>): (k: Kind)
    ensures k == Create <==> CreateEvent in events
    ensures k == Update <==> CreateEvent !in events && UpdateEvent in events
    ensures k == Delete <==> CreateEvent !in events && UpdateEvent !in events && DeleteEvent in events
    ensures k == Ignored <==> CreateEvent !in events && UpdateEvent !in events && DeleteEvent !in events
  {
    if CreateEvent in events then Create
    else if UpdateEvent in events then Update
    else if DeleteEvent in events then Delete
    else Ignored
  }

  // ---------------------------------------------------------------------------
  // Views of a list

  /** The ids of a list, position by position. */
  function Ids<F>(s: seq<Doc<F>>): (r: seq<Id>)
    ensures |r| == |s|
    ensures forall i :: 0 <= i < |s| ==> r[i] == s[i].id
  {
    if s == [] then [] else [s[0].id] + Ids(s[1..])
  }

  /** How many entries of the list carry `id`. */
  function CountId<F>(s: seq<Doc<F>>, id: Id): nat
  {
    if s == [] then 0 else (if s[0].id == id then 1 else 0) + CountId(s[1..], id)
  }

  /** `a` is `b` with some entries dropped and the rest in their order. */
  predicate SubsequenceOf<T(==)>(a: seq<T>, b: seq<T>)
    decreases |b|
  {
    if a == [] then true
    else if b == [] then false
    else (a[0] == b[0] && SubsequenceOf(a[1..], b[1..])) || SubsequenceOf(a, b[1..])
  }

  lemma {:induction false} CountIdZero<F>(s: seq<Doc<F>>, id: Id)
    ensures CountId(s, id) == 0 <==> forall i :: 0 <= i < |s| ==> s[i].id != id
  {
    if s != [] {
      CountIdZero(s[1..], id);
      assert forall i :: 1 <= i < |s| ==> s[i] == s[1..][i - 1];
    }
  }

  lemma {:induction false} SubsequenceOfSameLength<T>(a: seq<T>, b: seq<T>)
    requires SubsequenceOf(a, b) && |a| == |b|
    ensures a == b
  {
    if a != [] {
      if a[0] == b[0] && SubsequenceOf(a[1..], b[1..]) {
        SubsequenceOfSameLength(a[1..], b[1..]);
        assert a == [a[0]] + a[1..];
        assert b == [b[0]] + b[1..];
      } else {
        SubsequenceIsNoLonger(a, b[1..]);
        assert false;
      }
    }
  }

  lemma {:induction false} SubsequenceIsNoLonger<T>(a: seq<T>, b: seq<T>)
    requires SubsequenceOf(a, b)
    ensures |a| <= |b|
    decreases |b|
  {
    if a != [] {
      if a[0] == b[0] && SubsequenceOf(a[1..], b[1..]) {
        SubsequenceIsNoLonger(a[1..], b[1..]);
      } else {
        SubsequenceIsNoLonger(a, b[1..]);
      }
    }
  }

  // ---------------------------------------------------------------------------
  // The three list operations

  /** create: `[payload, ...prev]`. The payload goes to the head whether or
      not an entry with its id is already present. */
  function Prepend<F>(payload: Doc<F>, prev: seq<Doc<F>>): (r: seq<Doc<F>>)
    ensures |r| == |prev| + 1 && r[0] == payload && r[1..] == prev
  {
    [payload] + prev
  }

  /** update: `prev.map(d => d.$id === payload.$id ? payload : d)`. Every
      entry with the payload's id becomes the payload; every other entry keeps
      its value and its position. */
  function ReplaceById<F>(prev: seq<Doc<F>>, payload: Doc<F>): (r: seq<Doc<F>>)
    ensures |r| == |prev|
    ensures forall i :: 0 <= i < |prev| && prev[i].id == payload.id ==> r[i] == payload
    ensures forall i :: 0 <= i < |prev| && prev[i].id != payload.id ==> r[i] == prev[i]
  {
    if prev == [] then []
    else [if prev[0].id == payload.id then payload else prev[0]] + ReplaceById(prev[1..], payload)
  }

  /** delete: `prev.filter(d => d.$id !== id)`. Exactly the entries with
      another id survive, in their order. */
  function RemoveById<F>(prev: seq<Doc<F>>, id: Id): (r: seq<Doc<F>>)
    ensures forall i :: 0 <= i < |r| ==> r[i] in prev && r[i].id != id
    ensures forall i :: 0 <= i < |prev| && prev[i].id != id ==> prev[i] in r
    ensures |r| == |prev| - CountId(prev, id)
    ensures SubsequenceOf(r, prev)
  {
    if prev == [] then []
    else if prev[0].id == id then RemoveById(prev[1..], id)
    else [prev[0]] + RemoveById(prev[1..], id)
  }

  /** The branch an event takes, applied to the list. */
  function Apply<F>(kind: Kind, payload: Doc<F>, prev: seq<Doc<F>>): seq<Doc<F>>
  {
    match kind
    case Create => Prepend(payload, prev)
    case Update => ReplaceById(prev, payload)
    case Delete => RemoveById(prev, payload.id)
    case Ignored => prev
  }

  // ---------------------------------------------------------------------------
  // Properties of the operations

  /** A create of an id already present adds a second entry with that id. */
  lemma CreateDoesNotDeduplicate<F>(payload: Doc<F>, prev: seq<Doc<F>>)
    ensures CountId(Prepend(payload, prev), payload.id) == CountId(prev, payload.id) + 1
  {
    var r := Prepend(payload, prev);
    assert r[1..] == prev;
  }

  /** An update keeps the ids of the list, position by position. */
  lemma {:induction false} ReplaceKeepsIds<F>(prev: seq<Doc<F>>, payload: Doc<F>)
    ensures Ids(ReplaceById(prev, payload)) == Ids(prev)
  {
    var r := ReplaceById(prev, payload);
    assert forall i :: 0 <= i < |prev| ==> Ids(r)[i] == Ids(prev)[i];
  }

  /** An update for an id that is not in the list changes nothing. */
  lemma ReplaceAbsentIsIdentity<F>(prev: seq<Doc<F>>, payload: Doc<F>)
    requires CountId(prev, payload.id) == 0
    ensures ReplaceById(prev, payload) == prev
  {
    CountIdZero(prev, payload.id);
    var r := ReplaceById(prev, payload);
  }

  /** Applying the same update twice equals applying it once. */
  lemma ReplaceIdempotent<F>(prev: seq<Doc<F>>, payload: Doc<F>)
    ensures ReplaceById(ReplaceById(prev, payload), payload) == ReplaceById(prev, payload)
  {
    var once := ReplaceById(prev, payload);
    var twice := ReplaceById(once, payload);
    forall i | 0 <= i < |prev| ensures twice[i] == once[i] {
      if prev[i].id == payload.id {
        assert once[i] == payload;
      }
    }
  }

  /** A delete for an id that is not in the list changes nothing. */
  lemma RemoveAbsentIsIdentity<F>(prev: seq<Doc<F>>, id: Id)
    requires CountId(prev, id) == 0
    ensures RemoveById(prev, id) == prev
  {
    SubsequenceOfSameLength(RemoveById(prev, id), prev);
  }

  /** After a delete no entry carries the id, and a second delete of the same
      id changes nothing. */
  lemma RemoveIdempotent<F>(prev: seq<Doc<F>>, id: Id)
    ensures CountId(RemoveById(prev, id), id) == 0
    ensures RemoveById(RemoveById(prev, id), id) == RemoveById(prev, id)
  {
    var once := RemoveById(prev, id);
    CountIdZero(once, id);
    RemoveAbsentIsIdentity(once, id);
  }

  /** An event list that names none of the three operations leaves the list
      as it was; an update or delete whose id is absent does too. */
  lemma NoOpEvents<F>(events: seq<string>, payload: Doc<F>, prev: seq<Doc<F>>)
    requires KindOf(events) == Ignored ||
             (KindOf(events) in {Update, Delete} && CountId(prev, payload.id) == 0)
    ensures Apply(KindOf(events), payload, prev) == prev
  {
    if KindOf(events) == Update {
      ReplaceAbsentIsIdentity(prev, payload);
    } else if KindOf(events) == Delete {
      RemoveAbsentIsIdentity(prev, payload.id);
    }
  }

  // ---------------------------------------------------------------------------
  // One event delivered to several subscriptions

  /** The list after `k` subscriptions have each applied the same event. */
  function ApplyTimes<F>(k: nat, kind: Kind, payload: Doc<F>, prev: seq<Doc<F>>): seq<Doc<F>>
  {
    if k == 0 then prev else Apply(kind, payload, ApplyTimes(k - 1, kind, payload, prev))
  }

  /** Delivered to `k >= 1` subscriptions, an update or a delete acts as if
      delivered once; a create is prepended `k` times; anything else is
      ignored by all of them. */
  lemma {:induction false} RepeatedDelivery<F>(k: nat, kind: Kind, payload: Doc<F>, prev: seq<Doc<F>>)
    ensures kind == Ignored ==> ApplyTimes(k, kind, payload, prev) == prev
    ensures kind != Create && k >= 1 ==> ApplyTimes(k, kind, payload, prev) == Apply(kind, payload, prev)
    ensures kind == Create ==>
              var r := ApplyTimes(k, kind, payload, prev);
              |r| == |prev| + k && r[k..] == prev && forall i :: 0 <= i < k ==> r[i] == payload
  {
    if k > 0 {
      RepeatedDelivery(k - 1, kind, payload, prev);
      var before := ApplyTimes(k - 1, kind, payload, prev);
      if k > 1 && kind == Update {
        ReplaceIdempotent(prev, payload);
      } else if k > 1 && kind == Delete {
        RemoveIdempotent(prev, payload.id);
      } else if kind == Create {
        var r := Prepend(payload, before);
        assert r[k..] == before[k - 1..];
      }
    }
  }

  /** A create delivered to `k` subscriptions adds `k` entries with its id. */
  lemma {:induction false} RepeatedCreateCount<F>(k: nat, payload: Doc<F>, prev: seq<Doc<F>>)
    ensures CountId(ApplyTimes(k, Create, payload, prev), payload.id) == CountId(prev, payload.id) + k
  {
    if k > 0 {
      RepeatedCreateCount(k - 1, payload, prev);
      CreateDoesNotDeduplicate(payload, ApplyTimes(k - 1, Create, payload, prev));
    }
  }

  // ---------------------------------------------------------------------------
  // The two subscriptions' callbacks

  /** Whether a conversation subscription opened for the user whose `user_id`
      is `subscriber` (undefined for a user without a user document) acts on
      the payload. */
  predicate ConversationListens(subscriber: Option<Id>, payload: Conversation)
  {
    subscriber.Some? && AppwriteService.ForwardsConversation(subscriber.value, payload)
  }

  /** One conversation subscription's callback. */
  function OnConversationEvent(subscriber: Option<Id>, events: seq<string>, payload: Conversation,
                               prev: seq<Conversation>): (r: seq<Conversation>)
    ensures payload.fields.participants.None? ==> r == prev
    ensures subscriber.None? ==> r == prev
    ensures (subscriber.Some? && payload.fields.participants.Some? &&
             subscriber.value !in payload.fields.participants.value) ==> r == prev
    ensures ConversationListens(subscriber, payload) ==> r == Apply(KindOf(events), payload, prev)
  {
    if ConversationListens(subscriber, payload) then Apply(KindOf(events), payload, prev) else prev
  }

  /** One message subscription's callback: it compares the payload with the
      conversation id it was opened for, never with the active one. */
  function OnMessageEvent(subscribed: Id, events: seq<string>, payload: Message,
                          prev: seq<Message>): (r: seq<Message>)
    ensures payload.fields.conversationId != subscribed ==> r == prev
    ensures payload.fields.conversationId == subscribed ==> r == Apply(KindOf(events), payload, prev)
  {
    if AppwriteService.ForwardsMessage(subscribed, payload) then Apply(KindOf(events), payload, prev) else prev
  }

  /** How many of the open conversation subscriptions act on the payload. */
  function ConversationListeners(subs: seq<Option<Id>>, payload: Conversation): (n: nat)
    ensures n <= |subs|
  {
    if subs == [] then 0
    else ConversationListeners(subs[..|subs| - 1], payload)
         + (if ConversationListens(subs[|subs| - 1], payload) then 1 else 0)
  }

  /** How many of the open message subscriptions act on the payload. */
  function MessageListeners(subs: seq<Id>, payload: Message): (n: nat)
    ensures n <= |subs|
  {
    if subs == [] then 0
    else MessageListeners(subs[..|subs| - 1], payload)
         + (if AppwriteService.ForwardsMessage(subs[|subs| - 1], payload) then 1 else 0)
  }

  /** One more conversation subscription handling the event applies it once
      more exactly when it finds the event relevant. */
  lemma ConversationDeliveryStep(subs: seq<Option<Id>>, i: nat, events: seq<string>, payload: Conversation,
                                 prev: seq<Conversation>)
    requires i < |subs|
    ensures OnConversationEvent(subs[i], events, payload,
                                ApplyTimes(ConversationListeners(subs[..i], payload), KindOf(events), payload, prev))
            == ApplyTimes(ConversationListeners(subs[..i + 1], payload), KindOf(events), payload, prev)
  {
    assert subs[..i + 1][..i] == subs[..i];
  }

  /** One more message subscription handling the event applies it once more
      exactly when it was opened for the payload's conversation. */
  lemma MessageDeliveryStep(subs: seq<Id>, i: nat, events: seq<string>, payload: Message, prev: seq<Message>)
    requires i < |subs|
    ensures OnMessageEvent(subs[i], events, payload,
                           ApplyTimes(MessageListeners(subs[..i], payload), KindOf(events), payload, prev))
            == ApplyTimes(MessageListeners(subs[..i + 1], payload), KindOf(events), payload, prev)
  {
    assert subs[..i + 1][..i] == subs[..i];
  }

  /** Some message subscription acts on the payload iff one of them was
      opened for the payload's conversation. */
  lemma {:induction false} MessageListenersPositive(subs: seq<Id>, payload: Message)
    ensures MessageListeners(subs, payload) > 0 <==> payload.fields.conversationId in subs
  {
    if subs != [] {
      var init := subs[..|subs| - 1];
      MessageListenersPositive(init, payload);
      assert subs == init + [subs[|subs| - 1]];
    }
  }

  /** Some conversation subscription acts on the payload iff one of them was
      opened for a participant of it. */
  lemma {:induction false} ConversationListenersPositive(subs: seq<Option<Id>>, payload: Conversation)
    ensures ConversationListeners(subs, payload) > 0 <==>
              exists i :: 0 <= i < |subs| && ConversationListens(subs[i], payload)
  {
    if subs != [] {
      var init := subs[..|subs| - 1];
      ConversationListenersPositive(init, payload);
      if ConversationListens(subs[|subs| - 1], payload) {
        assert ConversationListens(subs[|subs| - 1], payload);
      } else {
        assert forall i :: 0 <= i < |init| ==> init[i] == subs[i];
      }
    }
  }
}
