/** The chat queries (controllers/chatController.js): who has talked with
    the administrator, and one user's conversation with the administrator.
    The administrator takes part in every conversation under the id
    "admin". */
module Chat {
  import opened Common

  const ADMIN := "admin"

  datatype ChatMessage = ChatMessage(senderId: string, receiverId: string, text: string, timestamp: int)

  /** Whether `id` is a sender or receiver of some message. */
  predicate Participant(msgs: seq<ChatMessage>, id: string) {
    exists k :: 0 <= k < |msgs| && (msgs[k].senderId == id || msgs[k].receiverId == id)
  }

  /** `Set.add` for every id but the administrator's. */
  function AddParticipant(ids: seq<string>, id: string): (r: seq<string>)
    ensures NoDuplicates(ids) ==> NoDuplicates(r)
    ensures forall x :: x in r <==> x in ids || (x == id && id != ADMIN)
  {
    if id == ADMIN || id in ids then ids else ids + [id]
  }

  /** The ids `getAllChatUsers` collects, in the order the set receives
      them: every sender and receiver but the administrator, once each. */
  function ChatUsers(msgs: seq<ChatMessage>): (ids: seq<string>)
    ensures NoDuplicates(ids) && ADMIN !in ids
    ensures forall x :: x in ids <==> x != ADMIN && Participant(msgs, x)
  {
    if msgs == [] then []
    else
      var init := msgs[..|msgs| - 1];
      var last := msgs[|msgs| - 1];
      var ids := AddParticipant(AddParticipant(ChatUsers(init), last.senderId), last.receiverId);
      ParticipantLast(msgs);
      ids
  }

  /** A participant of a list of messages takes part in its last message
      or in the ones before. */
  lemma ParticipantLast(msgs: seq<ChatMessage>)
    requires msgs != []
    ensures var init, last := msgs[..|msgs| - 1], msgs[|msgs| - 1];
            forall x :: Participant(msgs, x) <==> Participant(init, x) || last.senderId == x || last.receiverId == x
  {
    var init, last := msgs[..|msgs| - 1], msgs[|msgs| - 1];
    forall x ensures Participant(msgs, x) <==> Participant(init, x) || last.senderId == x || last.receiverId == x {
      if Participant(msgs, x) {
        var k :| 0 <= k < |msgs| && (msgs[k].senderId == x || msgs[k].receiverId == x);
        if k < |msgs| - 1 {
          assert init[k] == msgs[k];
        }
      }
      if Participant(init, x) {
        var k :| 0 <= k < |init| && (init[k].senderId == x || init[k].receiverId == x);
        assert msgs[k] == init[k];
      }
    }
  }

  /** `getAllChatUsers`, up to the user lookup: the loop over the messages
      adding senders and receivers to a set. */
  method CollectChatUsers(msgs: seq<ChatMessage>) returns (ids: seq<string>)
    ensures ids == ChatUsers(msgs)
    ensures NoDuplicates(ids) && ADMIN !in ids
    ensures forall x :: x in ids <==> x != ADMIN && Participant(msgs, x)
  {
    ids := [];
    var i := 0;
    while i < |msgs|
      invariant 0 <= i <= |msgs|
      invariant ids == ChatUsers(msgs[..i])
    {
      var m := msgs[i];
      assert msgs[..i + 1][..i] == msgs[..i];
      if m.senderId != ADMIN && m.senderId !in ids {
        ids := ids + [m.senderId];
      }
      if m.receiverId != ADMIN && m.receiverId !in ids {
        ids := ids + [m.receiverId];
      }
      i := i + 1;
    }
    assert msgs[..|msgs|] == msgs;
  }

  /** A message between the user and the administrator, either way. */
  predicate Between(m: ChatMessage, userId: string) {
    (m.senderId == userId && m.receiverId == ADMIN) || (m.senderId == ADMIN && m.receiverId == userId)
  }

  function Conversation(msgs: seq<ChatMessage>, userId: string): (r: seq<ChatMessage>)
    ensures forall m :: m in r <==> m in msgs && Between(m, userId)
    ensures |r| <= |msgs|
  {
    if msgs == [] then []
    else if Between(msgs[0], userId) then [msgs[0]] + Conversation(msgs[1..], userId)
    else Conversation(msgs[1..], userId)
  }

  predicate SortedByTime(ms: seq<ChatMessage>) {
    forall i, j :: 0 <= i < j < |ms| ==> ms[i].timestamp <= ms[j].timestamp
  }

  function Insert(m: ChatMessage, ms: seq<ChatMessage>): (r: seq<ChatMessage>)
    requires SortedByTime(ms)
    ensures SortedByTime(r)
    ensures multiset(r) == multiset(ms) + multiset{m}
  {
    if ms == [] || m.timestamp <= ms[0].timestamp then [m] + ms
    else
      var rest := Insert(m, ms[1..]);
      InsertBehind(m, ms, rest);
      [ms[0]] + rest
  }

  /** Inserting behind the first message keeps the order and the contents. */
  lemma InsertBehind(m: ChatMessage, ms: seq<ChatMessage>, rest: seq<ChatMessage>)
    requires ms != [] && m.timestamp > ms[0].timestamp && SortedByTime(ms)
    requires SortedByTime(rest) && multiset(rest) == multiset(ms[1..]) + multiset{m}
    ensures SortedByTime([ms[0]] + rest)
    ensures multiset([ms[0]] + rest) == multiset(ms) + multiset{m}
  {
    assert ms == [ms[0]] + ms[1..];
    forall x | x in rest
      ensures ms[0].timestamp <= x.timestamp
    {
      assert x in multiset(rest);
      if x != m {
        assert x in multiset(ms[1..]);
        var k :| 0 <= k < |ms[1..]| && ms[1..][k] == x;
        assert ms[k + 1] == x;
      }
    }
    var r := [ms[0]] + rest;
    forall i, j | 0 <= i < j < |r|
      ensures r[i].timestamp <= r[j].timestamp
    {
      assert r[j] == rest[j - 1];
      assert r[j] in rest;
      if i > 0 {
        assert r[i] == rest[i - 1];
      }
    }
  }

  /** An ordering by ascending timestamp (the store's `sort({timestamp: 1})`). */
  function SortByTime(ms: seq<ChatMessage>): (r: seq<ChatMessage>)
    ensures SortedByTime(r)
    ensures multiset(r) == multiset(ms)
  {
    if ms == [] then []
    else
      assert ms == [ms[0]] + ms[1..];
      Insert(ms[0], SortByTime(ms[1..]))
  }

  /** `getMessagesWithUser`: exactly the messages between the user and the
      administrator, each once, by ascending timestamp. */
  function MessagesWithUser(msgs: seq<ChatMessage>, userId: string): (r: seq<ChatMessage>)
    ensures SortedByTime(r)
    ensures multiset(r) == multiset(Conversation(msgs, userId))
    ensures forall m :: m in r <==> m in msgs && Between(m, userId)
  {
    var r := SortByTime(Conversation(msgs, userId));
    assert forall m :: m in r <==> m in multiset(r);
    r
  }
}
