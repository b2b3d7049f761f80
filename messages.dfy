/** The messaging routes of `src/routes/messages.js`: sending a message, the two-way thread
    between the caller and another user, and marking a received message read. */
module Messages {
  import opened Common
  import opened Listing

  /** A stored message; `createdAt` is the timestamp the store assigns. */
  datatype Message = Message(id: Id, from: Id, to: Id, content: string, createdAt: int, readAt: Option<int>)

  /** The body of POST /messages after unknown keys are stripped. */
  datatype SendRequest = SendRequest(to: Option<Id>, content: Option<string>)

  const NoSuchMessage := Failure(404, "Message not found")
  const NotRecipient := Failure(403, "Cannot mark others messages")

  /** The first error the body schema reports: `to` is required, and `content` is a required
      string of 1 to 5000 characters. */
  function SendSchemaError(req: SendRequest): (r: Option<Failure>)
    ensures r.None? <==> req.to.Some? && req.content.Some? && 1 <= |req.content.value| <= 5000
    ensures r.Some? ==> r.value.status == 400
  {
    if req.to.None? then Some(Failure(400, "\"to\" is required"))
    else if req.content.None? then Some(Failure(400, "\"content\" is required"))
    else if req.content.value == "" then Some(Failure(400, "\"content\" is not allowed to be empty"))
    else if |req.content.value| > 5000 then
      Some(Failure(400, "\"content\" length must be less than or equal to 5000 characters long"))
    else None
  }

  /** The thread query's `$or`: sent from `me` to `other`, or from `other` to `me`. */
  predicate Between(me: Id, other: Id, m: Message) {
    (m.from == me && m.to == other) || (m.from == other && m.to == me)
  }

  function InThread(me: Id, other: Id): Message -> bool {
    m => Between(me, other, m)
  }

  function Oldest(m: Message): int {
    m.createdAt
  }

  /** GET /messages/thread/:userId: the messages between the caller and that user, oldest first. */
  function Thread(messages: seq<Message>, me: Id, other: Id): (r: seq<Message>)
    ensures SortedBy(r, Oldest)
    ensures forall i, j :: 0 <= i < j < |r| ==> r[i].createdAt <= r[j].createdAt
    ensures forall m :: m in r <==> m in messages && Between(me, other, m)
    ensures multiset(r) == multiset(Filter(messages, InThread(me, other)))
  {
    var mine := Filter(messages, InThread(me, other));
    SortByMembers(mine, Oldest);
    SortBy(mine, Oldest)
  }

  /** Either participant asking for the thread gets the same sequence. */
  lemma ThreadSymmetric(messages: seq<Message>, a: Id, b: Id)
    ensures Thread(messages, a, b) == Thread(messages, b, a)
  {
    FilterAgrees(messages, InThread(a, b), InThread(b, a));
  }

  /** The messages collection with POST /messages and POST /messages/:id/read. Message ids
      are positions in `messages`. */
  class Mailbox {
    var messages: seq<Message>

    ghost predicate Valid()
      reads this
    {
      forall i :: 0 <= i < |messages| ==> messages[i].id == i && 1 <= |messages[i].content| <= 5000
    }

    constructor ()
      ensures Valid() && messages == []
    {
      messages := [];
    }

    /** POST /messages: the sender is the caller; `now` is the creation time. */
    method Send(caller: Principal, req: SendRequest, now: int) returns (r: Outcome<Message>)
      requires Valid()
      modifies this
      ensures Valid()
      ensures SendSchemaError(req).Some? ==> r == Fail(SendSchemaError(req).value) && messages == old(messages)
      ensures SendSchemaError(req).None? ==>
        && r == Ok(Message(|old(messages)|, caller.id, req.to.value, req.content.value, now, None))
        && messages == old(messages) + [r.value]
    {
      var schemaError := SendSchemaError(req);
      if schemaError.Some? {
        return Fail(schemaError.value);
      }
      var msg := Message(|messages|, caller.id, req.to.value, req.content.value, now, None);
      messages := messages + [msg];
      r := Ok(msg);
    }

    /** POST /messages/:id/read: only the recipient may mark a message; only its `readAt` changes. */
    method MarkRead(caller: Principal, id: Id, now: int) returns (r: Outcome<()>)
      requires Valid()
      modifies this
      ensures Valid()
      ensures id >= |old(messages)| ==> r == Fail(NoSuchMessage) && messages == old(messages)
      ensures id < |old(messages)| && old(messages)[id].to != caller.id ==>
        r == Fail(NotRecipient) && messages == old(messages)
      ensures id < |old(messages)| && old(messages)[id].to == caller.id ==>
        r == Ok(()) && messages == old(messages)[id := old(messages)[id].(readAt := Some(now))]
    {
      if id >= |messages| {
        return Fail(NoSuchMessage);
      }
      var msg := messages[id];
      if msg.to != caller.id {
        return Fail(NotRecipient);
      }
      messages := messages[id := msg.(readAt := Some(now))];
      r := Ok(());
    }
  }
}
