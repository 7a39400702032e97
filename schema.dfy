/**
 * The stored documents (models/<entity>/<entity>.schema.ts and models/base/entity.schema.ts).
 * Timestamps are kept only where the core reads them: a usage record's `createdAt`,
 * which the analytics date filter compares.
 */
module Schema {
  import opened Wrappers
  import opened Enums
  import opened Common

  /** One generation's token usage and cost, attributed to agent, session, provider and reply. */
  datatype Usage = Usage(
    id: Id, agentId: Id, provider: ProviderType, sessionId: Id, generativeResponseId: Option<Id>,
    tokensIn: int, tokensOut: int, totalTokens: int, cost: real,
    createdAt: int, createdById: Id, updatedById: Id)

  /**
   * A chat message. `metadata` is not a stored property: reads attach the reply's usage
   * record to it.
   */
  datatype Message = Message(
    id: Id, content: string, senderId: Id, senderType: SenderType, sessionId: Id,
    isGenerating: bool, uniqKey: Option<string>, replyToMessageId: Option<Id>,
    createdById: Id, updatedById: Id, metadata: Option<Usage>)

  /** An agent: its prompt and the provider names it uses, as stored strings. */
  datatype Agent = Agent(
    id: Id, name: string, primaryProvider: string, fallbackProvider: Option<string>, prompt: string,
    createdById: Id, updatedById: Id)

  /** A chat session between one user and one agent. */
  datatype Session = Session(id: Id, userId: Id, agentId: Id, createdById: Id, updatedById: Id)

  /** A tenant: its domain and the encrypted API key. */
  datatype Tenant = Tenant(id: Id, name: string, domain: string, adminEmail: string, apiKey: string)

  /** A user of one tenant. */
  datatype User = User(
    id: Id, name: Option<string>, emailId: string, status: UserStatus, roles: seq<Role>,
    createdById: Id, updatedById: Id)

  function MessageId(m: Message): Id { m.id }
  function UsageId(u: Usage): Id { u.id }
  function AgentId(a: Agent): Id { a.id }
  function SessionId(s: Session): Id { s.id }
  function TenantId(t: Tenant): Id { t.id }
  function UserId(u: User): Id { u.id }

  /** Document ids in a collection are present and pairwise distinct. */
  ghost predicate UniqueIds<T>(docs: seq<T>, idOf: T -> Id)
  {
    (forall i :: 0 <= i < |docs| ==> idOf(docs[i]) != "") &&
    (forall i, j :: 0 <= i < j < |docs| ==> idOf(docs[i]) != idOf(docs[j]))
  }

  /** The ids in use in a collection. */
  function Ids<T>(docs: seq<T>, idOf: T -> Id): set<Id>
  {
    set i | 0 <= i < |docs| :: idOf(docs[i])
  }

  /** Appending a document with a fresh, non-empty id keeps the ids unique and adds exactly that id. */
  lemma CreateKeepsIdsUnique<T>(docs: seq<T>, d: T, idOf: T -> Id)
    requires UniqueIds(docs, idOf)
    requires idOf(d) != "" && idOf(d) !in Ids(docs, idOf)
    ensures UniqueIds(docs + [d], idOf)
    ensures Ids(docs + [d], idOf) == Ids(docs, idOf) + {idOf(d)}
  {
    var all := docs + [d];
    forall i | 0 <= i < |docs| ensures idOf(all[i]) != idOf(d) {
      assert idOf(docs[i]) in Ids(docs, idOf);
    }
    forall x | x in Ids(all, idOf) ensures x in Ids(docs, idOf) + {idOf(d)} {
      var i :| 0 <= i < |all| && idOf(all[i]) == x;
      if i < |docs| {
        assert idOf(docs[i]) in Ids(docs, idOf);
      }
    }
    forall x | x in Ids(docs, idOf) + {idOf(d)} ensures x in Ids(all, idOf) {
      if x == idOf(d) {
        assert idOf(all[|docs|]) == x;
      } else {
        var i :| 0 <= i < |docs| && idOf(docs[i]) == x;
        assert idOf(all[i]) == x;
      }
    }
  }

  /** Replacing one document by one with the same id keeps the ids unique and unchanged. */
  lemma ReplaceKeepsIdsUnique<T>(docs: seq<T>, i: nat, d: T, idOf: T -> Id)
    requires UniqueIds(docs, idOf)
    requires i < |docs| && idOf(d) == idOf(docs[i])
    ensures UniqueIds(docs[i := d], idOf)
    ensures Ids(docs[i := d], idOf) == Ids(docs, idOf)
  {
    var all := docs[i := d];
    assert forall j :: 0 <= j < |docs| ==> idOf(all[j]) == idOf(docs[j]);
    forall x | x in Ids(all, idOf) ensures x in Ids(docs, idOf) {
      var j :| 0 <= j < |all| && idOf(all[j]) == x;
      assert idOf(docs[j]) == x;
    }
    forall x | x in Ids(docs, idOf) ensures x in Ids(all, idOf) {
      var j :| 0 <= j < |docs| && idOf(docs[j]) == x;
      assert idOf(all[j]) == x;
    }
  }
}
