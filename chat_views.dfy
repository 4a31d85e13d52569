/** The chat views of app/views.py: `new` of the live `ChatMessageViewSet`
    (the second class of that name, app/views.py:1468, which rebinds the name),
    and the `read` receipt of the first class (app/views.py:1422), which that
    rebinding leaves without a route. The clock is the parameter `now`. */
module ChatViews {
  import opened Wrappers
  import opened Tables
  import opened Entities
  import Serializers

  /** The least element of a non-empty set of keys. */
  predicate IsLeast(x: nat, s: set<nat>) {
    x in s && forall y :: y in s ==> x <= y
  }

  lemma {:induction false} LeastExists(s: set<nat>)
    requires s != {}
    ensures exists x :: IsLeast(x, s)
    decreases |s|
  {
    var y :| y in s;
    if s != {y} {
      LeastExists(s - {y});
      var x :| IsLeast(x, s - {y});
      forall z | z in s
        ensures y < x ==> y <= z
        ensures y >= x ==> x <= z
      {
        if z != y {
          assert z in s - {y};
        }
      }
      assert IsLeast(if y < x then y else x, s);
    } else {
      assert IsLeast(y, s);
    }
  }

  /** The least element is unique. */
  lemma LeastUnique(x: nat, z: nat, s: set<nat>)
    requires IsLeast(x, s) && IsLeast(z, s)
    ensures x == z
  {
  }

  /** The message `get_object` finds for key `pk`: `get_queryset` offers
      none without a `thread_id` query parameter, otherwise the messages of
      that thread. */
  function MessageOf(thread: nat, pk: nat): ChatMessage -> bool {
    (m: ChatMessage) => m.thread == thread && m.id == pk
  }

  class ChatStore {
    var threads: map<nat, ChatThread>
    var messages: seq<ChatMessage>
    var nextId: nat

    constructor ()
      ensures threads == map[] && messages == []
    {
      threads, messages := map[], [];
      nextId := 1;
    }

    /** `new`: a message from `user` in the thread, addressed to the
        participant other than the sender with the least key, unread. A
        missing (or zero) `thread_id`, an unknown thread or a thread without
        another participant is refused; the text defaults to "". The sender is
        not required to take part in the thread. */
    method New(user: nat, threadId: Option<nat>, text: Option<string>, now: int) returns (r: Result<ChatMessage, ViewError>)
      modifies this`messages, this`nextId
      ensures threadId.None? || threadId.value == 0 ==>
                (r == Err(ValidationError("thread_id is required.")) && messages == old(messages) && nextId == old(nextId))
      ensures threadId.Some? && threadId.value != 0 && threadId.value !in old(threads) ==>
                (r == Err(ValidationError("Thread not found.")) && messages == old(messages) && nextId == old(nextId))
      ensures threadId.Some? && threadId.value in old(threads) && old(threads)[threadId.value].participants - {user} == {} && threadId.value != 0 ==>
                (r == Err(ValidationError("No valid receiver found in thread.")) && messages == old(messages) && nextId == old(nextId))
      ensures r.Ok? ==>
                (threadId.Some? && threadId.value in old(threads)
                 && r.value.receiver.Some? && IsLeast(r.value.receiver.value, old(threads)[threadId.value].participants - {user})
                 && r.value == ChatMessage(old(nextId), threadId.value, user, r.value.receiver, if text.Some? then text.value else "", None, now)
                 && messages == old(messages) + [r.value] && nextId == old(nextId) + 1)
      ensures (threadId.Some? && threadId.value != 0 && threadId.value in old(threads)
               && old(threads)[threadId.value].participants - {user} != {}) ==> r.Ok?
    {
      if threadId.None? || threadId.value == 0 {
        return Err(ValidationError("thread_id is required."));
      }
      if threadId.value !in threads {
        return Err(ValidationError("Thread not found."));
      }
      var others := threads[threadId.value].participants - {user};
      if others == {} {
        return Err(ValidationError("No valid receiver found in thread."));
      }
      LeastExists(others);
      var receiver :| IsLeast(receiver, others);
      var m := ChatMessage(nextId, threadId.value, user, Some(receiver), if text.Some? then text.value else "", None, now);
      messages := messages + [m];
      nextId := nextId + 1;
      return Ok(m);
    }

    /** `read`: the message with key `pk` among those of the thread named by
        the `thread_id` query parameter (404 otherwise); its `read_at` is set to
        `now` only when the requesting user is its receiver, and set again on
        every such request. */
    method Read(user: nat, threadId: Option<nat>, pk: nat, now: int) returns (r: Result<(), ViewError>)
      modifies this`messages
      ensures threadId.None? || threadId.value == 0 || Count(old(messages), MessageOf(threadId.value, pk)) == 0 ==>
                (r == Err(NotFound) && messages == old(messages))
      ensures threadId.Some? && threadId.value != 0 && Count(old(messages), MessageOf(threadId.value, pk)) > 1 ==>
                (r == Err(MultipleObjectsReturned) && messages == old(messages))
      ensures threadId.Some? && threadId.value != 0 && Count(old(messages), MessageOf(threadId.value, pk)) == 1 ==>
                (var k := FirstIndex(old(messages), MessageOf(threadId.value, pk));
                 r == Ok(())
                 && (old(messages)[k].receiver == Some(user) ==> messages == old(messages)[k := old(messages)[k].(readAt := Some(now))])
                 && (old(messages)[k].receiver != Some(user) ==> messages == old(messages)))
    {
      if threadId.None? || threadId.value == 0 {
        return Err(NotFound);
      }
      var n := Count(messages, MessageOf(threadId.value, pk));
      if n == 0 {
        return Err(NotFound);
      } else if n > 1 {
        return Err(MultipleObjectsReturned);
      }
      var k := FirstIndex(messages, MessageOf(threadId.value, pk));
      if messages[k].receiver == Some(user) {
        messages := messages[k := messages[k].(readAt := Some(now))];
      }
      return Ok(());
    }
  }

  /** Only the receiver's read changes an unread count: marking one of the
      receiver's unread messages read lowers the receiver's count for the
      thread by one, and no other user's count changes. */
  lemma ReadLowersUnreadCount(messages: seq<ChatMessage>, k: nat, now: int, user: nat, other: nat)
    requires k < |messages| && messages[k].receiver == Some(user) && messages[k].readAt.None?
    requires other != user
    ensures Serializers.UnreadCount(messages[k := messages[k].(readAt := Some(now))], messages[k].thread, user)
         == Serializers.UnreadCount(messages, messages[k].thread, user) - 1
    ensures forall t ::
              Serializers.UnreadCount(messages[k := messages[k].(readAt := Some(now))], t, other)
              == Serializers.UnreadCount(messages, t, other)
  {
    var x := messages[k].(readAt := Some(now));
    CountUpdate(messages, k, x, Serializers.UnreadFor(messages[k].thread, user));
    forall t
      ensures Serializers.UnreadCount(messages[k := x], t, other) == Serializers.UnreadCount(messages, t, other)
    {
      CountUpdate(messages, k, x, Serializers.UnreadFor(t, other));
    }
  }

  /** A new message is unread by its receiver: the receiver's count for the
      thread goes up by one, and it becomes the thread's last message when it
      is newer than every message of the thread. */
  lemma NewMessageIsUnread(messages: seq<ChatMessage>, m: ChatMessage)
    requires m.receiver.Some? && m.readAt.None?
    ensures Serializers.UnreadCount(messages + [m], m.thread, m.receiver.value)
         == Serializers.UnreadCount(messages, m.thread, m.receiver.value) + 1
    ensures (forall i :: 0 <= i < |messages| && messages[i].thread == m.thread ==> messages[i].createdAt < m.createdAt)
         ==> Serializers.LastMessage(messages + [m], m.thread) == Some(m)
  {
    var p := Serializers.UnreadFor(m.thread, m.receiver.value);
    CountAppend(messages, [m], p);
    assert Count([m], p) == 1 by {
      assert [m][1..] == [];
    }
    if forall i :: 0 <= i < |messages| && messages[i].thread == m.thread ==> messages[i].createdAt < m.createdAt {
      Serializers.NewMessageIsLast(messages, m);
    }
  }
}
