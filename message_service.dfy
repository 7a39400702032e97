/**
 * Messages of a session (services/message/message.service.ts): sending one message, the
 * idempotent user/agent conversation pair, and the reads that attach a finished reply's
 * usage record to it.
 */
module MessageService {
  import opened Wrappers
  import opened Enums
  import opened Common
  import opened Schema
  import opened EntityRepo
  import opened MessageRepo
  import opened SessionRepo
  import UsageRepo
  import SessionService

  /** The content of an agent reply that is still being generated. */
  const Generating: string := "Generating Response..."
  const SessionNotFound: string := "Session not found"
  const UniqKeyRequired: string := "uniqKey is required for idempotent conversation creation"

  /** `SendMessageInput`. */
  datatype SendMessageInput = SendMessageInput(
    sessionId: Id, senderType: SenderType, content: string,
    uniqKey: Option<string>, isGenerating: Option<bool>, replyToMessageId: Option<Id>)

  /** `CreateConversationInput`; the key is optional here because the service checks it. */
  datatype CreateConversationInput = CreateConversationInput(sessionId: Id, uniqKey: Option<string>, content: string)

  /** `CreateConversationPayload`: the user's message and the agent's reply to it. */
  datatype Conversation = Conversation(userMessage: Message, agentResponse: Message)

  /** The arguments of the `converse` call that `createConversation` starts and does not await. */
  datatype ConverseRequest = ConverseRequest(content: string, generativeMessageId: Id, session: Session)

  /**
   * The fields `sendMessage` hands to the repository. A user message is sent by the caller;
   * an agent message needs its session, is sent by the session's agent, and is generating
   * unless the input says otherwise.
   */
  function MessageFor(input: SendMessageInput, userId: Id, session: Option<Session>): (r: Result<MessageInput>)
    ensures r.Err? <==> input.senderType.AgentSender? && session.None?
    ensures r.Err? ==> r.error == Failure(SessionNotFound)
    ensures r.Ok? ==>
      r.value.sessionId == input.sessionId && r.value.senderType == input.senderType &&
      r.value.content == input.content && r.value.uniqKey == input.uniqKey &&
      r.value.replyToMessageId == input.replyToMessageId
    ensures r.Ok? ==> r.value.senderId == (if input.senderType.AgentSender? then session.value.agentId else userId)
  {
    var fields := MessageInput(input.sessionId, input.senderType, input.content, userId,
      input.uniqKey, input.isGenerating, input.replyToMessageId);
    if input.senderType.UserSender? then Ok(fields)
    else if session.None? then Err(Failure(SessionNotFound))
    else Ok(fields.(senderId := session.value.agentId, isGenerating := Some(OrElse(input.isGenerating, true))))
  }

  /**
   * A stored agent message is generating unless the sender said it is not; a stored user
   * message only when the sender said it is.
   */
  lemma StoredGeneratingFlag(input: SendMessageInput, context: Context, session: Option<Session>, id: Id)
    requires MessageFor(input, context.userId, session).Ok?
    ensures NewMessage(MessageFor(input, context.userId, session).value, context, id).isGenerating ==
      if input.senderType.AgentSender? then input.isGenerating != Some(false) else input.isGenerating == Some(true)
  {
  }

  /**
   * `sendMessage`: an agent message for an unknown session throws "Session not found" and
   * stores nothing; otherwise the message is stored under a fresh id and returned.
   */
  method SendMessage(messages: MessageRepository, sessions: SessionRepository, input: SendMessageInput,
                     context: Context, newId: Id) returns (r: Result<Message>)
    requires messages.Valid() && sessions.Valid()
    requires newId != "" && newId !in Ids(messages.Messages(), MessageId)
    modifies messages.base
    ensures messages.Valid()
    ensures var fields := MessageFor(input, context.userId, SessionById(sessions.Sessions(), input.sessionId));
      (fields.Err? ==> r == Err(fields.error) && messages.Messages() == old(messages.Messages())) &&
      (fields.Ok? ==> r == Ok(NewMessage(fields.value, context, newId)) &&
                      messages.Messages() == old(messages.Messages()) + [r.value])
  {
    var session: Option<Session> := None;
    if input.senderType.AgentSender? {
      session := SessionService.GetSession(sessions, input.sessionId);
    }
    var fields := MessageFor(input, context.userId, session);
    if fields.Err? {
      return Err(fields.error);
    }
    var m := messages.CreateMessage(fields.value, context, newId);
    r := Ok(m);
  }

  /** `updateMessage`: the repository update, unchanged. */
  method UpdateMessage(messages: MessageRepository, id: Id, patch: MessagePatch) returns (r: Option<Message>)
    requires messages.Valid()
    modifies messages.base
    ensures messages.Valid()
    ensures messages.Messages() == PatchById(old(messages.Messages()), id, patch)
    ensures r.Some? <==> old(MessageById(messages.Messages(), id)).Some?
    ensures r.Some? ==> r.value == Patched(old(MessageById(messages.Messages(), id)).value, patch)
  {
    r := messages.UpdateMessage(id, patch);
  }

  /** The look-up of the user message sent under a key in a session. */
  function UserKey(sessionId: Id, uniqKey: Option<string>): GetMessageInput
  {
    GetMessageInput(Some(sessionId), uniqKey, None, None)
  }

  /** The look-up of the reply to a message. */
  function ReplyTo(messageId: Id): GetMessageInput
  {
    GetMessageInput(None, None, Some(messageId), None)
  }

  /**
   * What `getUniqConversation` finds: the first message sent under the key in the session,
   * paired with the first reply to it; nothing without a key, a message or a reply.
   */
  function UniqConversation(docs: seq<Message>, sessionId: Id, uniqKey: Option<string>): (r: Option<Conversation>)
    ensures !Present(uniqKey) ==> r.None?
    ensures r.Some? ==> r.value.userMessage in docs && r.value.agentResponse in docs
    ensures r.Some? ==>
      r.value.userMessage.uniqKey == uniqKey &&
      (sessionId != "" ==> r.value.userMessage.sessionId == sessionId) &&
      r.value.agentResponse.replyToMessageId == Some(r.value.userMessage.id)
    ensures FindMessage(docs, UserKey(sessionId, uniqKey)).None? ==> r.None?
  {
    if !Present(uniqKey) then None
    else match FindMessage(docs, UserKey(sessionId, uniqKey))
      case None => None
      case Some(u) =>
        match FindMessage(docs, ReplyTo(u.id))
        case None => None
        case Some(a) => Some(Conversation(u, a))
  }

  /** `getUniqConversation`. */
  method GetUniqConversation(messages: MessageRepository, sessionId: Id, uniqKey: Option<string>)
    returns (r: Option<Conversation>)
    ensures r == UniqConversation(messages.Messages(), sessionId, uniqKey)
  {
    if !Present(uniqKey) {
      return None;
    }
    var existing := messages.GetMessage(UserKey(sessionId, uniqKey));
    if existing.None? {
      return None;
    }
    var reply := messages.GetMessage(ReplyTo(existing.value.id));
    if reply.None? {
      return None;
    }
    r := Some(Conversation(existing.value, reply.value));
  }

  /** The user message `createConversation` sends. */
  function UserMessageInput(input: CreateConversationInput): SendMessageInput
  {
    SendMessageInput(input.sessionId, UserSender, input.content, input.uniqKey, None, None)
  }

  /** The agent placeholder `createConversation` sends in reply to the user message. */
  function PlaceholderInput(input: CreateConversationInput, userMessageId: Id): SendMessageInput
  {
    SendMessageInput(input.sessionId, AgentSender, Generating, None, Some(true), Some(userMessageId))
  }

  /**
   * The pair a new conversation stores: the caller's message under the key, and the
   * session agent's generating placeholder replying to it.
   */
  function FreshConversation(input: CreateConversationInput, context: Context, session: Session,
                             userMessageId: Id, agentMessageId: Id): (c: Conversation)
    ensures c.userMessage.id == userMessageId && c.agentResponse.id == agentMessageId
    ensures c.userMessage.sessionId == input.sessionId && c.agentResponse.sessionId == input.sessionId
    ensures c.userMessage.senderType.UserSender? && c.userMessage.senderId == context.userId
    ensures c.userMessage.content == input.content && c.userMessage.uniqKey == input.uniqKey
    ensures !c.userMessage.isGenerating && c.userMessage.replyToMessageId.None?
    ensures c.agentResponse.senderType.AgentSender? && c.agentResponse.senderId == session.agentId
    ensures c.agentResponse.content == Generating && c.agentResponse.isGenerating
    ensures c.agentResponse.uniqKey.None? && c.agentResponse.replyToMessageId == Some(userMessageId)
  {
    Conversation(
      NewMessage(MessageFor(UserMessageInput(input), context.userId, Some(session)).value, context, userMessageId),
      NewMessage(MessageFor(PlaceholderInput(input, userMessageId), context.userId, Some(session)).value, context, agentMessageId))
  }

  /** The `converse` request as written: the placeholder's own content is sent to the agent. */
  function ConverseRequestAsWritten(c: Conversation, session: Session): (q: ConverseRequest)
    ensures q.content == c.agentResponse.content
    ensures q.generativeMessageId == c.agentResponse.id && q.session == session
  {
    ConverseRequest(c.agentResponse.content, c.agentResponse.id, session)
  }

  /** The `converse` request the model uses: the user's content, answered into the placeholder. */
  function ConverseRequestFor(input: CreateConversationInput, c: Conversation, session: Session): (q: ConverseRequest)
    ensures q.generativeMessageId == c.agentResponse.id && q.session == session
  {
    ConverseRequest(input.content, c.agentResponse.id, session)
  }

  /** As written, the agent is always asked to answer "Generating Response..." and never the user's words. */
  lemma AsWrittenConverseIgnoresUserContent(input: CreateConversationInput, context: Context, session: Session,
                                            userMessageId: Id, agentMessageId: Id)
    requires input.content != Generating
    ensures var c := FreshConversation(input, context, session, userMessageId, agentMessageId);
      ConverseRequestAsWritten(c, session).content == Generating &&
      ConverseRequestAsWritten(c, session) != ConverseRequestFor(input, c, session)
  {
  }

  /** The corrected request asks the agent about the message the user sent, and answers into its placeholder. */
  lemma ConverseAnswersUserMessage(input: CreateConversationInput, context: Context, session: Session,
                                   userMessageId: Id, agentMessageId: Id)
    ensures var c := FreshConversation(input, context, session, userMessageId, agentMessageId);
      var q := ConverseRequestFor(input, c, session);
      q.content == c.userMessage.content && q.generativeMessageId == c.agentResponse.id &&
      c.agentResponse.replyToMessageId == Some(c.userMessage.id)
  {
  }

  /**
   * `createConversation`: a missing key or an unknown session throws and stores nothing;
   * a conversation already stored under the key is returned as it is; otherwise the
   * user message and the agent placeholder are stored, and the `converse` call that
   * will fill the placeholder is returned in `pending`. The transaction around the
   * writes has nothing to undo here: no step after the first write fails.
   */
  method CreateConversation(messages: MessageRepository, sessions: SessionRepository, input: CreateConversationInput,
                            context: Context, userMessageId: Id, agentMessageId: Id)
    returns (r: Result<Conversation>, pending: Option<ConverseRequest>)
    requires messages.Valid() && sessions.Valid()
    requires userMessageId != "" && agentMessageId != "" && userMessageId != agentMessageId
    requires userMessageId !in Ids(messages.Messages(), MessageId) && agentMessageId !in Ids(messages.Messages(), MessageId)
    modifies messages.base
    ensures messages.Valid()
    ensures !Present(input.uniqKey) ==>
      r == Err(Failure(UniqKeyRequired)) && pending.None? && messages.Messages() == old(messages.Messages())
    ensures Present(input.uniqKey) && SessionById(sessions.Sessions(), input.sessionId).None? ==>
      r == Err(Failure(SessionNotFound)) && pending.None? && messages.Messages() == old(messages.Messages())
    ensures Present(input.uniqKey) && SessionById(sessions.Sessions(), input.sessionId).Some? &&
            old(UniqConversation(messages.Messages(), input.sessionId, input.uniqKey)).Some? ==>
      r == Ok(old(UniqConversation(messages.Messages(), input.sessionId, input.uniqKey)).value) &&
      pending.None? && messages.Messages() == old(messages.Messages())
    ensures Present(input.uniqKey) && SessionById(sessions.Sessions(), input.sessionId).Some? &&
            old(UniqConversation(messages.Messages(), input.sessionId, input.uniqKey)).None? ==>
      var session := SessionById(sessions.Sessions(), input.sessionId).value;
      var c := FreshConversation(input, context, session, userMessageId, agentMessageId);
      r == Ok(c) && pending == Some(ConverseRequestFor(input, c, session)) &&
      messages.Messages() == old(messages.Messages()) + [c.userMessage, c.agentResponse]
  {
    if !Present(input.uniqKey) {
      return Err(Failure(UniqKeyRequired)), None;
    }
    var session := SessionService.GetSession(sessions, input.sessionId);
    if session.None? {
      return Err(Failure(SessionNotFound)), None;
    }
    var existing := GetUniqConversation(messages, input.sessionId, input.uniqKey);
    if existing.Some? {
      return Ok(existing.value), None;
    }
    var c := StorePair(messages, sessions, input, context, session.value, userMessageId, agentMessageId);
    r := Ok(c);
    pending := Some(ConverseRequestFor(input, c, session.value));
  }

  /** The two `sendMessage` calls of a new conversation. */
  method StorePair(messages: MessageRepository, sessions: SessionRepository, input: CreateConversationInput,
                   context: Context, session: Session, userMessageId: Id, agentMessageId: Id)
    returns (c: Conversation)
    requires messages.Valid() && sessions.Valid()
    requires SessionById(sessions.Sessions(), input.sessionId) == Some(session)
    requires userMessageId != "" && agentMessageId != "" && userMessageId != agentMessageId
    requires userMessageId !in Ids(messages.Messages(), MessageId) && agentMessageId !in Ids(messages.Messages(), MessageId)
    modifies messages.base
    ensures messages.Valid()
    ensures c == FreshConversation(input, context, session, userMessageId, agentMessageId)
    ensures messages.Messages() == old(messages.Messages()) + [c.userMessage, c.agentResponse]
  {
    ghost var before := messages.Messages();
    ghost var pair := FreshConversation(input, context, session, userMessageId, agentMessageId);
    var user := SendMessage(messages, sessions, UserMessageInput(input), context, userMessageId);
    assert user == Ok(pair.userMessage);
    CreateKeepsIdsUnique(before, user.value, MessageId);
    var agent := SendMessage(messages, sessions, PlaceholderInput(input, user.value.id), context, agentMessageId);
    assert agent == Ok(pair.agentResponse);
    c := Conversation(user.value, agent.value);
  }

  /**
   * A retry with the same key after a fresh conversation was stored finds exactly that
   * conversation: the second `createConversation` writes nothing.
   */
  lemma RetryFindsStoredConversation(docs: seq<Message>, input: CreateConversationInput, context: Context,
                                     session: Session, userMessageId: Id, agentMessageId: Id)
    requires Present(input.uniqKey) && userMessageId != "" && userMessageId != agentMessageId
    requires forall i :: 0 <= i < |docs| ==> !MatchesInput(UserKey(input.sessionId, input.uniqKey), docs[i])
    requires forall i :: 0 <= i < |docs| ==> docs[i].replyToMessageId != Some(userMessageId)
    ensures var c := FreshConversation(input, context, session, userMessageId, agentMessageId);
      UniqConversation(docs + [c.userMessage, c.agentResponse], input.sessionId, input.uniqKey) == Some(c)
  {
    var c := FreshConversation(input, context, session, userMessageId, agentMessageId);
    var all := docs + [c.userMessage, c.agentResponse];
    var key := UserKey(input.sessionId, input.uniqKey);
    FirstIndexPastPrefix(docs, [c.userMessage, c.agentResponse], MessageFilter(key));
    assert FindMessage(all, key) == Some(c.userMessage);
    var reply := ReplyTo(userMessageId);
    assert [c.userMessage, c.agentResponse] == [c.userMessage] + [c.agentResponse];
    FirstIndexPastPrefix(docs + [c.userMessage], [c.agentResponse], MessageFilter(reply));
    assert docs + [c.userMessage] + [c.agentResponse] == all;
    assert FindMessage(all, reply) == Some(c.agentResponse);
  }

  /**
   * A message already stored under the key that never received a reply blocks the key:
   * nothing is found before, and nothing after another fresh pair is stored, so every
   * retry stores one more pair.
   */
  lemma UnansweredKeyIsNeverFound(docs: seq<Message>, input: CreateConversationInput, context: Context,
                                  session: Session, userMessageId: Id, agentMessageId: Id)
    requires Present(input.uniqKey)
    requires FindMessage(docs, UserKey(input.sessionId, input.uniqKey)).Some?
    requires var u := FindMessage(docs, UserKey(input.sessionId, input.uniqKey)).value;
      u.id != userMessageId && forall i :: 0 <= i < |docs| ==> docs[i].replyToMessageId != Some(u.id)
    ensures UniqConversation(docs, input.sessionId, input.uniqKey).None?
    ensures var c := FreshConversation(input, context, session, userMessageId, agentMessageId);
      UniqConversation(docs + [c.userMessage, c.agentResponse], input.sessionId, input.uniqKey).None?
  {
    var c := FreshConversation(input, context, session, userMessageId, agentMessageId);
    var key := UserKey(input.sessionId, input.uniqKey);
    var u := FindMessage(docs, key).value;
    var all := docs + [c.userMessage, c.agentResponse];
    FirstIndexOfExtension(docs, [c.userMessage, c.agentResponse], MessageFilter(key));
    assert FindMessage(all, key) == Some(u);
    forall i | 0 <= i < |all| ensures all[i].replyToMessageId != Some(u.id) {
      if i < |docs| {
        assert all[i] == docs[i];
      }
    }
  }

  /** The transcript's message query: the session's messages. */
  function SessionMessages(sessionId: Id): GetAllMessagesInput
  {
    GetAllMessagesInput(Some(sessionId), None, None)
  }

  /** The transcript's usage query: the session's usage records. */
  function SessionUsages(sessionId: Id): UsageRepo.GetAllUsagesInput
  {
    UsageRepo.GetAllUsagesInput(None, None, Some([sessionId]))
  }

  /** The usage map `getTranscript` builds: a record per reply id, a later record overwriting an earlier one. */
  function UsageMapOf(usages: seq<Usage>): (m: map<Id, Usage>)
    ensures forall k :: k in m <==> exists i :: 0 <= i < |usages| && usages[i].generativeResponseId == Some(k)
    ensures forall k :: k in m ==> m[k] in usages && m[k].generativeResponseId == Some(k)
  {
    if |usages| == 0 then map[]
    else
      var last := usages[|usages| - 1];
      assert usages == usages[..|usages| - 1] + [last];
      var m := UsageMapOf(usages[..|usages| - 1]);
      if last.generativeResponseId.Some? then m[last.generativeResponseId.value := last] else m
  }

  /** The map keeps the last record of each reply. */
  lemma {:induction false} UsageMapKeepsLast(usages: seq<Usage>, i: nat)
    requires i < |usages| && usages[i].generativeResponseId.Some?
    requires forall j :: i < j < |usages| ==> usages[j].generativeResponseId != usages[i].generativeResponseId
    ensures UsageMapOf(usages)[usages[i].generativeResponseId.value] == usages[i]
  {
    if i < |usages| - 1 {
      UsageMapKeepsLast(usages[..|usages| - 1], i);
    }
  }

  /** A finished agent reply carries its usage record, when the map has one; any other message is unchanged. */
  function WithUsage(m: Message, usageMap: map<Id, Usage>): Message
  {
    if m.senderType.AgentSender? && !m.isGenerating && m.id in usageMap then m.(metadata := Some(usageMap[m.id])) else m
  }

  /**
   * The transcript of a list of messages: the same messages in the same order, each
   * finished agent reply carrying a usage record for it when there is one.
   */
  function Transcript(msgs: seq<Message>, usages: seq<Usage>): (r: seq<Message>)
    ensures |r| == |msgs|
    ensures forall i :: 0 <= i < |r| ==> r[i].(metadata := msgs[i].metadata) == msgs[i]
    ensures forall i :: 0 <= i < |r| && r[i] != msgs[i] ==>
      msgs[i].senderType.AgentSender? && !msgs[i].isGenerating &&
      r[i].metadata.Some? && r[i].metadata.value in usages && r[i].metadata.value.generativeResponseId == Some(msgs[i].id)
    ensures forall i :: 0 <= i < |r| ==>
      (msgs[i].senderType.AgentSender? && !msgs[i].isGenerating &&
       exists j :: 0 <= j < |usages| && usages[j].generativeResponseId == Some(msgs[i].id)) ==>
      r[i].metadata.Some? && r[i].metadata.value.generativeResponseId == Some(msgs[i].id)
  {
    var usageMap := UsageMapOf(usages);
    seq(|msgs|, i requires 0 <= i < |msgs| => WithUsage(msgs[i], usageMap))
  }

  /**
   * `getTranscript`: the session's messages in stored order, each finished agent reply
   * carrying the session's usage record for it.
   */
  method GetTranscript(messages: MessageRepository, usages: UsageRepo.UsageRepository, sessionId: Id)
    returns (r: seq<Message>)
    requires messages.Valid()
    ensures r == Transcript(
      if sessionId == "" then [] else Filter(messages.Messages(), AllMessagesFilter(SessionMessages(sessionId))),
      Filter(usages.Usages(), UsageRepo.AllUsagesFilter(SessionUsages(sessionId))))
    ensures forall i :: 0 <= i < |r| ==> r[i].sessionId == sessionId
    ensures forall i :: 0 <= i < |r| && r[i].metadata.Some? ==>
      r[i].metadata.value.sessionId == sessionId && r[i].metadata.value in usages.Usages()
  {
    var msgs := messages.GetAllMessages(SessionMessages(sessionId));
    var all := usages.GetAllUsages(SessionUsages(sessionId));
    var usageMap := UsageMap(all);
    r := AttachUsages(msgs, usageMap);
    assert r == Transcript(msgs, all);
    forall i | 0 <= i < |msgs| ensures msgs[i].sessionId == sessionId && msgs[i].metadata.None? {
      assert MatchesAllInput(SessionMessages(sessionId), msgs[i]);
    }
    forall j | 0 <= j < |all| ensures all[j].sessionId == sessionId && all[j] in usages.Usages() {
      assert UsageRepo.MatchesAllUsagesInput(SessionUsages(sessionId), all[j]);
    }
    SessionTranscript(msgs, all, usages.Usages(), sessionId);
  }

  /** A transcript built from one session's messages and records stays within that session. */
  lemma SessionTranscript(msgs: seq<Message>, all: seq<Usage>, stored: seq<Usage>, sessionId: Id)
    requires forall i :: 0 <= i < |msgs| ==> msgs[i].sessionId == sessionId && msgs[i].metadata.None?
    requires forall j :: 0 <= j < |all| ==> all[j].sessionId == sessionId && all[j] in stored
    ensures var r := Transcript(msgs, all);
      forall i :: 0 <= i < |r| ==> r[i].sessionId == sessionId
    ensures var r := Transcript(msgs, all);
      forall i :: 0 <= i < |r| && r[i].metadata.Some? ==>
        r[i].metadata.value.sessionId == sessionId && r[i].metadata.value in stored
  {
  }

  /** The first loop of `getTranscript`: the usage map of a list of records. */
  method UsageMap(all: seq<Usage>) returns (usageMap: map<Id, Usage>)
    ensures usageMap == UsageMapOf(all)
  {
    usageMap := map[];
    for i := 0 to |all|
      invariant usageMap == UsageMapOf(all[..i])
    {
      assert all[..i + 1][..i] == all[..i];
      if all[i].generativeResponseId.Some? {
        usageMap := usageMap[all[i].generativeResponseId.value := all[i]];
      }
    }
    assert all[..|all|] == all;
  }

  /** The second loop of `getTranscript`: each finished agent reply in the list receives its record, in place. */
  method AttachUsages(msgs: seq<Message>, usageMap: map<Id, Usage>) returns (r: seq<Message>)
    ensures |r| == |msgs|
    ensures forall j :: 0 <= j < |msgs| ==> r[j] == WithUsage(msgs[j], usageMap)
  {
    var transcript := new Message[|msgs|](i requires 0 <= i < |msgs| => msgs[i]);
    for i := 0 to |msgs|
      invariant forall j :: 0 <= j < i ==> transcript[j] == WithUsage(msgs[j], usageMap)
      invariant forall j :: i <= j < |msgs| ==> transcript[j] == msgs[j]
    {
      var m := transcript[i];
      if m.senderType.AgentSender? && !m.isGenerating && m.id in usageMap {
        transcript[i] := m.(metadata := Some(usageMap[m.id]));
      }
    }
    r := transcript[..];
  }

  /** What `getUsage` finds for a reply: the first record naming it. */
  function FirstUsageFor(usages: seq<Usage>, messageId: Id): (r: Option<Usage>)
    ensures r.Some? ==> r.value in usages && r.value.generativeResponseId == Some(messageId)
    ensures r.None? && messageId != "" ==> forall j :: 0 <= j < |usages| ==> usages[j].generativeResponseId != Some(messageId)
  {
    if messageId == "" then None
    else FirstMatch(usages, UsageRepo.UsageFilter(UsageRepo.GetUsageInput(None, Some(messageId))))
  }

  /** The message `getMessage` returns: a finished agent reply carries the first usage record for it. */
  function WithFirstUsage(m: Option<Message>, usages: seq<Usage>): (r: Option<Message>)
    ensures r.None? <==> m.None?
    ensures r.Some? ==> r.value.(metadata := m.value.metadata) == m.value
    ensures r.Some? && r != m ==>
      m.value.senderType.AgentSender? && !m.value.isGenerating &&
      r.value.metadata.Some? && r.value.metadata.value in usages &&
      r.value.metadata.value.generativeResponseId == Some(m.value.id)
  {
    if m.Some? && m.value.senderType.AgentSender? && !m.value.isGenerating && FirstUsageFor(usages, m.value.id).Some?
    then Some(m.value.(metadata := FirstUsageFor(usages, m.value.id)))
    else m
  }

  /** `getMessage`: the repository look-up, with the reply's usage record attached. */
  method GetMessage(messages: MessageRepository, usages: UsageRepo.UsageRepository, input: GetMessageInput)
    returns (r: Option<Message>)
    ensures r == WithFirstUsage(FindMessage(messages.Messages(), input), usages.Usages())
  {
    r := messages.GetMessage(input);
    if r.Some? && r.value.senderType.AgentSender? && !r.value.isGenerating {
      var usage := usages.GetUsage(UsageRepo.GetUsageInput(None, Some(r.value.id)));
      if usage.Some? {
        r := Some(r.value.(metadata := usage));
      }
    }
  }

  /**
   * `getMessage` keeps the first usage record of a reply and `getTranscript` the last;
   * they attach the same record when the reply has only one.
   */
  lemma SingleUsageAttachedAlike(usages: seq<Usage>, i: nat)
    requires i < |usages| && usages[i].generativeResponseId.Some? && usages[i].generativeResponseId.value != ""
    requires forall j :: 0 <= j < |usages| && usages[j].generativeResponseId == usages[i].generativeResponseId ==> j == i
    ensures var k := usages[i].generativeResponseId.value;
      FirstUsageFor(usages, k) == Some(UsageMapOf(usages)[k])
  {
    var k := usages[i].generativeResponseId.value;
    UsageMapKeepsLast(usages, i);
    var p := UsageRepo.UsageFilter(UsageRepo.GetUsageInput(None, Some(k)));
    assert p(usages[i]);
    var f := FirstIndex(usages, p).value;
    assert usages[f].generativeResponseId == Some(k);
  }
}
