/**
 * The messages collection (models/message/message.repository.ts): a repository built on
 * the generic CRUD layer, with the message-specific writes and look-ups.
 */
module MessageRepo {
  import opened Wrappers
  import opened Enums
  import opened Common
  import opened Schema
  import opened EntityRepo

  /** The fields a new message is created from (`MessageInput`). */
  datatype MessageInput = MessageInput(
    sessionId: Id, senderType: SenderType, content: string, senderId: Id,
    uniqKey: Option<string>, isGenerating: Option<bool>, replyToMessageId: Option<Id>)

  /** The fields an update may set; absent fields are left as they are. */
  datatype MessagePatch = MessagePatch(content: Option<string>, isGenerating: Option<bool>)

  /** `GetAllMessagesInput`. */
  datatype GetAllMessagesInput = GetAllMessagesInput(
    sessionId: Option<Id>, senderId: Option<Id>, senderType: Option<SenderType>)

  /** `GetMessageInput`. */
  datatype GetMessageInput = GetMessageInput(
    sessionId: Option<Id>, uniqKey: Option<string>, replyToMessageId: Option<Id>, messageId: Option<Id>)

  /** The document `createMessage` stores: the input, both audit ids from the caller, `isGenerating` defaulting to false. */
  function NewMessage(input: MessageInput, context: Context, id: Id): (m: Message)
    ensures m.id == id && m.createdById == context.userId && m.updatedById == context.userId
    ensures m.isGenerating == (input.isGenerating == Some(true))
    ensures m.content == input.content && m.sessionId == input.sessionId && m.senderType == input.senderType
    ensures m.senderId == input.senderId && m.uniqKey == input.uniqKey && m.replyToMessageId == input.replyToMessageId
    ensures m.metadata.None?
  {
    Message(id, input.content, input.senderId, input.senderType, input.sessionId,
      OrElse(input.isGenerating, false), input.uniqKey, input.replyToMessageId,
      context.userId, context.userId, None)
  }

  /** `$set` of the patch's present fields. */
  function Patched(m: Message, patch: MessagePatch): (r: Message)
    ensures r.content == OrElse(patch.content, m.content)
    ensures r.isGenerating == OrElse(patch.isGenerating, m.isGenerating)
    ensures r.(content := m.content, isGenerating := m.isGenerating) == m
  {
    m.(content := OrElse(patch.content, m.content), isGenerating := OrElse(patch.isGenerating, m.isGenerating))
  }

  /** Whether a message satisfies every key of a `getAllMessages` query. */
  predicate MatchesAllInput(input: GetAllMessagesInput, m: Message)
  {
    (Present(input.sessionId) ==> m.sessionId == input.sessionId.value) &&
    (Present(input.senderId) ==> m.senderId == input.senderId.value) &&
    (input.senderType.Some? ==> m.senderType == input.senderType.value)
  }

  function AllMessagesFilter(input: GetAllMessagesInput): Message -> bool
  {
    (m: Message) => MatchesAllInput(input, m)
  }

  /** The query `getAllMessages` builds: a key per supplied (non-empty) field. */
  function AllMessagesQuery(input: GetAllMessagesInput): (q: Query<Message>)
    ensures q.IsEmpty() <==> !Present(input.sessionId) && !Present(input.senderId) && input.senderType.None?
  {
    Query((if Present(input.sessionId) then 1 else 0) + (if Present(input.senderId) then 1 else 0) +
          (if input.senderType.Some? then 1 else 0),
          AllMessagesFilter(input))
  }

  /** Whether a message satisfies every key of a `getMessage` query. */
  predicate MatchesInput(input: GetMessageInput, m: Message)
  {
    (Present(input.sessionId) ==> m.sessionId == input.sessionId.value) &&
    (Present(input.uniqKey) ==> m.uniqKey == input.uniqKey) &&
    (Present(input.replyToMessageId) ==> m.replyToMessageId == input.replyToMessageId) &&
    (Present(input.messageId) ==> m.id == input.messageId.value)
  }

  function MessageFilter(input: GetMessageInput): Message -> bool
  {
    (m: Message) => MatchesInput(input, m)
  }

  /** The query `getMessage` builds. */
  function MessageQuery(input: GetMessageInput): (q: Query<Message>)
    ensures q.IsEmpty() <==>
      !Present(input.sessionId) && !Present(input.uniqKey) && !Present(input.replyToMessageId) && !Present(input.messageId)
  {
    Query((if Present(input.sessionId) then 1 else 0) + (if Present(input.uniqKey) then 1 else 0) +
          (if Present(input.replyToMessageId) then 1 else 0) + (if Present(input.messageId) then 1 else 0),
          MessageFilter(input))
  }

  /** What `getMessage` finds: the first message matching every supplied field; nothing when no field is supplied. */
  function FindMessage(docs: seq<Message>, input: GetMessageInput): (r: Option<Message>)
    ensures r.Some? ==> r.value in docs && MatchesInput(input, r.value)
    ensures r.None? && !MessageQuery(input).IsEmpty() ==> forall i :: 0 <= i < |docs| ==> !MatchesInput(input, docs[i])
  {
    if MessageQuery(input).IsEmpty() then None else FirstMatch(docs, MessageFilter(input))
  }

  /** The query `{ _id: id }` on messages. */
  function HasMessageId(id: Id): Message -> bool
  {
    (m: Message) => m.id == id
  }

  /** The message with a given id, if any. */
  function MessageById(docs: seq<Message>, id: Id): (r: Option<Message>)
    ensures r.Some? ==> r.value in docs && r.value.id == id
    ensures r.None? ==> forall i :: 0 <= i < |docs| ==> docs[i].id != id
  {
    FirstMatch(docs, HasMessageId(id))
  }

  /** The collection after `$set`-ing a patch on the message with this id; unchanged when there is none. */
  function PatchById(docs: seq<Message>, id: Id, patch: MessagePatch): (r: seq<Message>)
    ensures |r| == |docs|
    ensures MessageById(docs, id).None? ==> r == docs
    ensures forall i :: 0 <= i < |docs| ==> r[i] == docs[i] || (docs[i].id == id && r[i] == Patched(docs[i], patch))
    ensures MessageById(docs, id).Some? ==> Patched(MessageById(docs, id).value, patch) in r
  {
    match FirstIndex(docs, HasMessageId(id))
    case None => docs
    case Some(i) => docs[i := Patched(docs[i], patch)]
  }

  /** A message created with a fresh id is the one found under that id afterwards. */
  lemma CreatedIsFound(docs: seq<Message>, m: Message)
    requires m.id !in Ids(docs, MessageId)
    ensures MessageById(docs + [m], m.id) == Some(m)
  {
    var all := docs + [m];
    forall i | 0 <= i < |docs| ensures all[i].id != m.id {
      assert MessageId(docs[i]) in Ids(docs, MessageId);
    }
    assert all[|docs|] == m;
  }

  /** `MessageRepository`: the `messages` collection, cached per tenant. */
  class MessageRepository {
    const base: EntityBaseCrud<Message>

    /**
     * Stored messages have unique ids, `_id` is the id the base repository reads, and no
     * stored message carries usage metadata (it is not a schema property).
     */
    ghost predicate Valid()
      reads this, base
    {
      UniqueIds(base.docs, MessageId) && base.idOf == MessageId &&
      forall i :: 0 <= i < |base.docs| ==> base.docs[i].metadata.None?
    }

    function Messages(): seq<Message>
      reads this, base
    {
      base.docs
    }

    constructor()
      ensures Valid() && Messages() == []
      ensures base.className == "MessageType" && base.collection == "messages"
      ensures base.cacheModel && !base.useGlobalClient
      ensures fresh(base)
    {
      base := new EntityBaseCrud("MessageType", "messages", Some(true), false, MessageId);
    }

    /** `createMessage`: store the new message under a fresh id and return it. */
    method CreateMessage(input: MessageInput, context: Context, newId: Id) returns (m: Message)
      requires Valid()
      requires newId != "" && newId !in Ids(Messages(), MessageId)
      modifies base
      ensures Valid()
      ensures m == NewMessage(input, context, newId)
      ensures Messages() == old(Messages()) + [m]
    {
      m := NewMessage(input, context, newId);
      CreateKeepsIdsUnique(base.docs, m, MessageId);
      m := base.Create(m);
    }

    /**
     * `updateMessage`: `$set` the patch on the message with this id and return the
     * updated message; null, and nothing changed, when there is none.
     */
    method UpdateMessage(id: Id, patch: MessagePatch) returns (r: Option<Message>)
      requires Valid()
      modifies base
      ensures Valid()
      ensures Messages() == PatchById(old(Messages()), id, patch)
      ensures r.Some? <==> old(MessageById(Messages(), id)).Some?
      ensures r.Some? ==> r.value == Patched(old(MessageById(Messages(), id)).value, patch)
    {
      ghost var before := base.docs;
      FirstIndexAgrees(base.docs, base.HasId(id), HasMessageId(id));
      r := base.FindOneAndUpdate(Query(1, base.HasId(id)), (m: Message) => Patched(m, patch));
      if FirstIndex(before, base.HasId(id)).Some? {
        var i := FirstIndex(before, base.HasId(id)).value;
        ReplaceKeepsIdsUnique(before, i, Patched(before[i], patch), MessageId);
      }
    }

    /** `getMessageById`. */
    method GetMessageById(id: Id) returns (r: Option<Message>)
      requires Valid()
      ensures r == MessageById(Messages(), id)
    {
      FirstIndexAgrees(base.docs, base.HasId(id), HasMessageId(id));
      r := base.FindById(id);
    }

    /**
     * `getAllMessages`: the messages matching every supplied field, in stored order;
     * nothing at all when no field is supplied.
     */
    method GetAllMessages(input: GetAllMessagesInput) returns (r: seq<Message>)
      ensures AllMessagesQuery(input).IsEmpty() ==> r == []
      ensures !AllMessagesQuery(input).IsEmpty() ==> r == Filter(Messages(), AllMessagesFilter(input))
      ensures forall i :: 0 <= i < |r| ==> r[i] in Messages() && MatchesAllInput(input, r[i])
    {
      var q := AllMessagesQuery(input);
      r := base.FindAll(q, Pagination.QueryOptions(None, None));
      NoPaginationReturnsAll(Filter(base.docs, q.matches));
    }

    /** `getMessage`: the first message matching every supplied field; null when none is supplied. */
    method GetMessage(input: GetMessageInput) returns (r: Option<Message>)
      ensures MessageQuery(input).IsEmpty() ==> r.None?
      ensures !MessageQuery(input).IsEmpty() ==> r == FirstMatch(Messages(), MessageFilter(input))
    {
      r := base.FindOne(MessageQuery(input), None);
    }
  }
}
