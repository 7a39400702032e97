# conversational-ai backend core, modelled in Dafny

This project models the backend of the conversational-ai service, a multi-tenant chat
API in which users talk to "agents" that answer through simulated LLM providers. The
model covers:

- the tenant-aware persistence layer: one MongoDB model per tenant and entity class;
- the generic `EntityBaseCrud` repository, and the agent, session, message, usage, user
  and tenant repositories built on it;
- the services above those repositories;
- the generation flow: provider adapters, retry on rate limits, and failover from the
  primary provider to the fallback;
- the usage-analytics aggregation pipeline;
- request authorisation, sign-in and token refresh;
- role-based scopes.

How the source's parts are represented:

- **Collections.** Each collection is a `seq` of documents in natural (insertion) order.
  It is held in the `docs` field of an `EntityBaseCrud` object.
- **Repositories.** Each repository is a class holding its base repository. Its methods
  change `docs` in place, and their contracts tie the new contents to pure functions
  (`NewAgent`, `PatchById`, `FindTenant`, ...).
- **Services.** Services are methods over the repositories they touch.
- **Things the model cannot see.** Some parts are parameters:
  - fresh ids and the clock;
  - the random draws of the simulated providers;
  - the regular-expression tests;
  - token signing and verification;
  - key hashing and comparison.
- **Thrown errors.** A thrown error is an `Err` value of `Result`; a `null` or absent
  value is `None`.

Module layout follows the source tree:

| area | modules |
|---|---|
| support | `Wrappers`, `Common`, `Enums`, `Text` |
| persistence | `MongoModel`, `EntityRepo`, `Pagination`, `Schema` |
| repositories | `AgentRepo`, `SessionRepo`, `MessageRepo`, `UsageRepo`, `UserRepo`, `TenantRepo` |
| services | `AgentValidate`, `AgentService`, `SessionService`, `MessageService`, `UsageService`, `TenantService`, `AuthService` |
| generation | `FailoverMock`, `GenerativeInterface`, `OpenAIProvider`, `ClaudeProvider`, `GeminiProvider`, `GenerativeProvider`, `Factory`, `GenerativeAgent`, `Retry` |
| analytics | `Aggregation`, `UsageAnalytics` |
| access control | `Rbac`, `Jwt`, `AuthUtil` |

## Model

| member | source | states |
|---|---|---|
| Enums.ParseProvider | conversational-ai/src/enums/agentModel.enum.ts:1-5 | a stored string is read as a provider exactly when it is one of the three enum values, and it reads back as the member with that value |
| Enums.ParseTag | conversational-ai/src/enums/agentModel.enum.ts:1-5 | every provider parses back from its own string, so the strings identify the providers |
| Text.Split | conversational-ai/src/services/generativeAI/openAIGPT3_5_Provider.ts:47-48 | `split(' ')` gives at least one piece, and no piece contains the separator |
| Text.JoinSplit | conversational-ai/src/services/generativeAI/openAIGPT3_5_Provider.ts:47-48 | joining the pieces of a split with the separator gives the original text back |
| Text.SplitLength | conversational-ai/src/services/generativeAI/openAIGPT3_5_Provider.ts:47-48 | a split has one piece more than the text has separators |
| Text.CountAppend | conversational-ai/src/services/generativeAI/claude3_5_Sonnet_Provider.ts:48-49 | separator counts add up over concatenation |
| Text.Words | conversational-ai/src/services/generativeAI/openAIGPT3_5_Provider.ts:47-48 | the word count the adapters report as tokens is at least 1, even for an empty text |
| Text.WordsJoin | conversational-ai/src/services/generativeAI/claude3_5_Sonnet_Provider.ts:58 | two texts joined by a space have as many words as both together |
| Text.LowerChar | conversational-ai/src/models/base/entity.repository.ts:63 | a lower-cased character is never an upper-case ASCII letter |
| Text.ToLower | conversational-ai/src/models/base/entity.repository.ts:63 | lower-casing keeps the length and maps every character on its own |
| Schema.CreateKeepsIdsUnique | conversational-ai/src/models/base/entity.repository.ts:274-284 | appending a document with a fresh, non-empty id keeps the ids unique and adds exactly that id |
| Schema.ReplaceKeepsIdsUnique | conversational-ai/src/models/base/entity.repository.ts:314-333 | replacing a document by one with the same id keeps the ids unique and the id set unchanged |
| MongoModel.TenantConnection | conversational-ai/src/models/base/mongoModel.ts:9-21 | a tenant's connection is always `useDb` of the database named by the tenant's id |
| MongoModel.CachingKeyIsolatesTenants | conversational-ai/src/models/base/mongoModel.ts:50-59 | two different tenants never share a model cache key for the same entity class |
| MongoModel.CachingKeySeparatesClasses | conversational-ai/src/models/base/mongoModel.ts:50-59 | one tenant's cache keys for two different entity classes differ |
| MongoModel.TenantKeyNotGlobalKey | conversational-ai/src/models/base/mongoModel.ts:50-59 | a tenant's cache key is never the key a global-client repository of the same class uses |
| MongoModel.ModelRegistry.constructor | conversational-ai/src/models/base/mongoModel.ts:61-106 | the model registry starts empty |
| MongoModel.TenantInfoMongoModelGetterService.constructor | conversational-ai/src/models/base/mongoModel.ts:31-34 | the service keeps the repository's class, tenant, collection and caching flags |
| MongoModel.TenantInfoMongoModelGetterService.NewModel | conversational-ai/src/models/base/mongoModel.ts:89-102 | a new model is registered under its key, bound to the default connection for a global-client repository and to the tenant's database otherwise |
| MongoModel.TenantInfoMongoModelGetterService.GetEntityMongoModel | conversational-ai/src/models/base/mongoModel.ts:61-106 | with caching off, any model under the key is dropped first. A model already registered under the key is returned unchanged. Otherwise a new model is compiled and registered, and every other registry entry is unchanged |
| Pagination.BuildPaginationOption | conversational-ai/src/utils/pagination.ts:4-15 | the limit is set exactly when the request gives a limit, and the skip exactly when it gives an offset; both copy the request's values, and no pagination gives empty options |
| EntityRepo.Filter | conversational-ai/src/models/base/entity.repository.ts:150-191 | every document in the result is a stored document that matches, and every matching document is in the result |
| EntityRepo.FilterSplits | conversational-ai/src/models/base/entity.repository.ts:212-226 | the matches and the non-matches together account for every document |
| EntityRepo.FirstIndex | conversational-ai/src/models/base/entity.repository.ts:286-312 | the index found is a match and nothing before it matches; no index means nothing matches |
| EntityRepo.FirstIndexAgrees | conversational-ai/src/models/base/entity.repository.ts:82-100 | two queries that agree on every document find the same first match |
| EntityRepo.FirstIndexOfExtension | conversational-ai/src/models/base/entity.repository.ts:274-284 | appending documents does not move the first match |
| EntityRepo.FirstIndexPastPrefix | conversational-ai/src/models/base/entity.repository.ts:274-284 | when nothing matches before an append, the first match is among the appended documents |
| EntityRepo.FirstMatch | conversational-ai/src/models/base/entity.repository.ts:286-312 | a found document is a member that matches, and nothing is found only when nothing matches |
| EntityRepo.MapWhere | conversational-ai/src/models/base/entity.repository.ts:245-272 | every matching document is rewritten, every other one is left alone, and the length is kept |
| EntityRepo.Window | conversational-ai/src/models/base/entity.repository.ts:347-360 | a page is a contiguous slice starting at the offset, at most `limit` long (0 means no limit) |
| EntityRepo.CollectionName | conversational-ai/src/models/base/entity.repository.ts:63 | the configured collection name when one is given, otherwise the class name lower-cased character by character, followed by "s" |
| EntityRepo.EntityBaseCrud.constructor | conversational-ai/src/models/base/entity.repository.ts:48-53 | the repository starts empty and keeps its options; caching defaults to off |
| EntityRepo.EntityBaseCrud.GetModel | conversational-ai/src/models/base/entity.repository.ts:55-70 | resolves the model for the context's tenant under the tenant-and-class key, or under the class key on the global client |
| EntityRepo.EntityBaseCrud.MatchAll | conversational-ai/src/models/base/entity.repository.ts:150-191 | the scan returns exactly the matching documents, in collection order |
| EntityRepo.EntityBaseCrud.FindById | conversational-ai/src/models/base/entity.repository.ts:82-100 | returns the first document with that `_id`, or null when there is none |
| EntityRepo.EntityBaseCrud.FindFirst | conversational-ai/src/models/base/entity.repository.ts:286-312 | the scan stops at the first match, or returns null when nothing matches |
| EntityRepo.EntityBaseCrud.FindAll | conversational-ai/src/models/base/entity.repository.ts:120-148 | an empty query returns nothing; otherwise the requested page of the matches |
| EntityRepo.EntityBaseCrud.Find | conversational-ai/src/models/base/entity.repository.ts:150-191 | an empty query returns nothing unless empty queries are allowed; otherwise the matches after `offset` (default 0), at most `limit` (default 20) |
| EntityRepo.EntityBaseCrud.FindOne | conversational-ai/src/models/base/entity.repository.ts:286-312 | an empty query returns null unless allowed; otherwise the first match |
| EntityRepo.EntityBaseCrud.Count | conversational-ai/src/models/base/entity.repository.ts:228-243 | the number of matching documents, never more than the collection holds |
| EntityRepo.EntityBaseCrud.Create | conversational-ai/src/models/base/entity.repository.ts:274-284 | the document is appended and returned; nothing else changes |
| EntityRepo.EntityBaseCrud.RemoveOne | conversational-ai/src/models/base/entity.repository.ts:193-210 | an empty query deletes nothing; otherwise exactly the first match is deleted and the count says whether one was |
| EntityRepo.EntityBaseCrud.Remove | conversational-ai/src/models/base/entity.repository.ts:212-226 | an empty query deletes nothing; otherwise exactly the non-matching documents remain and the count is the number removed |
| EntityRepo.EntityBaseCrud.Update | conversational-ai/src/models/base/entity.repository.ts:245-272 | an empty query is refused, unacknowledged with zero counts; otherwise every match is rewritten and counted |
| EntityRepo.EntityBaseCrud.FindOneAndUpdate | conversational-ai/src/models/base/entity.repository.ts:314-333 | the first match is rewritten and its new version returned; with no match nothing changes and null is returned; there is no empty-query guard |
| EntityRepo.NoPaginationReturnsAll | conversational-ai/src/models/base/entity.repository.ts:120-148 | with no pagination the window is the whole list of matches |
| Rbac.AddAllContents | conversational-ai/src/utils/rbac.ts:14-23 | adding a list of scopes to a duplicate-free set keeps it duplicate-free and adds exactly the list's scopes |
| Rbac.IsPermitted | conversational-ai/src/utils/rbac.ts:5-7 | a context without scopes is never permitted; one with scopes is permitted exactly when some entry is the required scope |
| Rbac.RoleScopes | conversational-ai/src/utils/rbac.ts:9-12 | each role's scopes have no duplicates, only ADMIN grants the usage dashboard, and a role outside the map grants nothing |
| Rbac.Inherited | conversational-ai/src/utils/rbac.ts:17-19 | a role naming an inherited member is a string role the map does not list (so it grants no scopes of its own); "constructor" and "__proto__" are such roles |
| Rbac.ScopesForRoles | conversational-ai/src/utils/rbac.ts:14-23 | the scope set built role by role never holds a scope twice |
| Rbac.ScopesForRolesContents | conversational-ai/src/utils/rbac.ts:9-23 | a role list's scopes have no duplicates, and a scope is among them exactly when some role in the list grants it |
| Rbac.UsageDashboardNeedsAdmin | conversational-ai/src/utils/rbac.ts:5-12 | the usage-dashboard scope is granted only when the roles include ADMIN |
| Rbac.KnownRolesMayChat | conversational-ai/src/utils/rbac.ts:9-12 | any list holding USER or ADMIN grants the chat and agent scopes |
| Rbac.AdminCoversUser | conversational-ai/src/utils/rbac.ts:9-12 | an ADMIN holds every scope a USER holds, whatever other roles come with it |
| Rbac.PermittedScopes | conversational-ai/src/utils/rbac.ts:9-23 | the look-up throws the `forEach` TypeError exactly when some role names a member every object inherits ("constructor", "toString", "__proto__", …); otherwise the result is the scope set of the roles |
| Rbac.GetScopesForRoles | conversational-ai/src/utils/rbac.ts:14-23 | the nested loops build the insertion-ordered scope set of the roles, which has no duplicates and holds exactly the scopes some role grants. A role outside the map adds nothing, and a role naming an inherited member throws |
| Rbac.ConstructorRoleThrows | conversational-ai/src/utils/rbac.ts:17-19 | a USER who also holds "constructor" makes the look-up throw, while an unknown role such as "manager" only adds nothing |
| Rbac.GetPermittedScopes | conversational-ai/src/utils/rbac.ts:25-27 | it throws exactly when one of the user's roles names an inherited member. Otherwise the user's scopes are those their roles grant, and they include the usage dashboard exactly when the user is an ADMIN |
| Jwt.AccessClaims | conversational-ai/src/utils/jwt.ts:30-39 | no payload is built, because `getPermittedScopes` throws, exactly when a role names an inherited member. Otherwise the access token names the tenant and user and carries exactly the scopes of the user's roles, without duplicates |
| Jwt.RefreshClaims | conversational-ai/src/utils/jwt.ts:41-51 | a refresh token names the tenant and user and carries no scopes |
| Jwt.PublicClaims | conversational-ai/src/utils/jwt.ts:53-60 | a public token carries its access type and no scopes |
| FailoverMock.RandomInt | conversational-ai/src/services/generativeAI/utils/failoverMock.utils.ts:18 | `randomInt(min, max)` lies between min and max, both included |
| Retry.WithRetry | conversational-ai/src/utils/retry.ts:4-14 | at most `retries + 1` calls. Every call before the last was rate limited (429) and was followed by its back-off wait (`retryAfterMs`, or 500). The outcome is the last call's, and a 429 survives only when the retries are spent |
| Retry.SettlesOnFirstNonRateLimited | conversational-ai/src/utils/retry.ts:4-14 | when call k is the first that is not rate limited and lies within the budget, the retry settles on exactly that call after k+1 calls |
| Retry.FirstCallFinal | conversational-ai/src/utils/retry.ts:5-12 | a first call that succeeds or throws anything but a 429 is returned or rethrown at once |
| Retry.DefaultBudget | conversational-ai/src/utils/retry.ts:4 | the default budget of 3 retries means at most four calls |
| OpenAIProvider.OpenAIGPT3_5Provider.constructor | conversational-ai/src/services/generativeAI/openAIGPT3_5_Provider.ts:12-27 | failure and rate-limit chances default to 0.1 and 0.15; price 0.002 per thousand tokens |
| OpenAIProvider.OpenAIGPT3_5Provider.CallLLM | conversational-ai/src/services/generativeAI/openAIGPT3_5_Provider.ts:29-51 | fails exactly when the failure or the rate-limit draw hits. The failure check comes first, as a 500 internal error; otherwise a 429 with its retry delay. On success the tokens are the word counts of prompt plus message and of the reply, and the latency lies in one of the two ranges |
| OpenAIProvider.OpenAIGPT3_5Provider.ExecuteResponse | conversational-ai/src/services/generativeAI/openAIGPT3_5_Provider.ts:53-64 | passes the call's error through unchanged; on success returns the output text with its token counts and latency |
| ClaudeProvider.Claude3_5_SonnetProvider.constructor | conversational-ai/src/services/generativeAI/claude3_5_Sonnet_Provider.ts:12-23 | the rate-limit chance defaults to 0.15; price 0.001 per thousand tokens |
| ClaudeProvider.Claude3_5_SonnetProvider.CallLLM | conversational-ai/src/services/generativeAI/claude3_5_Sonnet_Provider.ts:25-52 | fails only by rate limit (429, with a delay in 500..2000), exactly when its draw hits; a success has two choices, and the output tokens are the word counts of both |
| ClaudeProvider.Claude3_5_SonnetProvider.ExecuteResponse | conversational-ai/src/services/generativeAI/claude3_5_Sonnet_Provider.ts:54-64 | the response is the two choices joined by a space, whose word count is the reported output tokens |
| GeminiProvider.GoogleGemini1_5Provider.constructor | conversational-ai/src/services/generativeAI/googleGemini1_5_Provider.ts:13-24 | the failure chance defaults to 0.2; price 0.003 per thousand tokens |
| GeminiProvider.GoogleGemini1_5Provider.CallLLM | conversational-ai/src/services/generativeAI/googleGemini1_5_Provider.ts:26-43 | fails only with a 500 internal error, never a rate limit, exactly when its draw hits; on success the tokens are word counts |
| GeminiProvider.GoogleGemini1_5Provider.ExecuteResponse | conversational-ai/src/services/generativeAI/googleGemini1_5_Provider.ts:45-55 | passes the call's error through unchanged; on success returns the result text and its counts |
| GenerativeProvider.Provider.Pricing | conversational-ai/src/services/generativeAI/generativeProvider.ts:13 | every adapter's price per thousand tokens is positive |
| GenerativeProvider.Provider.ExecuteResponse | conversational-ai/src/services/generativeAI/generativeProvider.ts:18 | every failure an adapter throws is a `ProviderError`; input tokens are the prompt's words plus the message's, output tokens the response's |
| GenerativeProvider.Attempt | conversational-ai/src/services/generativeAI/generativeProvider.ts:50-52 | the retried call makes at most four calls; an error that survives it is a `ProviderError`; success reports the input's word count |
| GenerativeProvider.Reply | conversational-ai/src/services/generativeAI/generativeProvider.ts:55 | the stored reply is longer than the response and ends with it |
| GenerativeProvider.UsageInputFor | conversational-ai/src/services/generativeAI/generativeProvider.ts:20-39 | the usage record's total is input plus output tokens, and its cost is the total per thousand times the provider's price (never negative); it names the provider, the reply, the session and the session's agent |
| GenerativeProvider.Cost | conversational-ai/src/services/generativeAI/generativeProvider.ts:35 | the cost times 1000 is the token count times the price, so no tokens cost nothing and a non-negative price gives a non-negative cost |
| GenerativeProvider.CompletePatch | conversational-ai/src/services/generativeAI/generativeProvider.ts:41-43 | the completion sets the content and marks the message as no longer generating |
| GenerativeProvider.GenerateResponse | conversational-ai/src/services/generativeAI/generativeProvider.ts:45-65 | a failed retried call is rethrown and writes nothing. A success patches the placeholder with the prefixed reply and `isGenerating: false`, appends one usage record and returns the reply |
| Factory.ProviderFactory.constructor | conversational-ai/src/services/generativeAI/providerFactory.ts:13-17 | each adapter is built with its default chances |
| Factory.ProviderFactory.Get | conversational-ai/src/services/generativeAI/providerFactory.ts:24-26 | an adapter is found exactly for the three provider names, and the adapter found is of that provider |
| Factory.ProviderFactory.GetByType | conversational-ai/src/services/generativeAI/providerFactory.ts:13-26 | each provider type's name yields the adapter of that type |
| GenerativeAgent.Ask | conversational-ai/src/services/generativeAI/generativeAgent.ts:31-32 | an unknown provider name fails with the TypeError of calling through undefined; a known one gives the retried generation's outcome. A failure is a `ProviderError` exactly when the name is known |
| GenerativeAgent.Generate | conversational-ai/src/services/generativeAI/generativeAgent.ts:29-45 | a reply always comes from the agent's primary provider or from its fallback |
| GenerativeAgent.PrimaryAnswersFirst | conversational-ai/src/services/generativeAI/generativeAgent.ts:29-32 | when the primary's retried call succeeds, its reply is the answer and the fallback is never asked |
| GenerativeAgent.FallbackAfterPrimaryFails | conversational-ai/src/services/generativeAI/generativeAgent.ts:33-45 | for an agent with valid providers, a failed primary is followed by the fallback, and the answer comes from the fallback exactly when its retried call succeeds |
| GenerativeAgent.UnknownPrimaryNeverFallsBack | conversational-ai/src/services/generativeAI/generativeAgent.ts:31-37 | an agent whose primary is not a provider name never gets a reply; even a valid fallback is skipped, because the error is not a `ProviderError` |
| GenerativeAgent.AskProvider | conversational-ai/src/services/generativeAI/generativeAgent.ts:31-32 | one provider attempt: a failure writes nothing, a reply patches the placeholder and records one usage |
| GenerativeAgent.Converse | conversational-ai/src/services/generativeAI/generativeAgent.ts:20-60 | an unknown agent is an error and writes nothing. Otherwise the placeholder receives the answer from `Generate`, or the error text when both providers fail. Exactly one usage record is added when a provider answered, and none otherwise |
| GenerativeAgent.ReplyText | conversational-ai/src/services/generativeAI/generativeAgent.ts:29-58 | a failed generation replies with the fixed error text; a successful one ends with the provider's response |
| AgentRepo.NewAgent | conversational-ai/src/models/agent/agent.repository.ts:21-36 | the stored agent carries the input's fields, the fresh id and the caller as creator and updater |
| AgentRepo.ApplyUpdate | conversational-ai/src/models/agent/agent.repository.ts:38-57 | the supplied fields are set and every other field, the id included, is kept |
| AgentRepo.AgentById | conversational-ai/src/models/agent/agent.repository.ts:59-65 | a found agent is stored with that id; nothing found means no agent has it |
| AgentRepo.ListQuery | conversational-ai/src/models/agent/agent.repository.ts:67-106 | the listing query is never empty: it always has a provider key and either an id or a creator key |
| AgentRepo.AgentRepository.constructor | conversational-ai/src/models/agent/agent.repository.ts:10-19 | the `agents` collection, cached per tenant, starts empty |
| AgentRepo.AgentRepository.CreateAgent | conversational-ai/src/models/agent/agent.repository.ts:21-36 | the new agent is appended and returned; ids stay unique |
| AgentRepo.AgentRepository.UpdateAgent | conversational-ai/src/models/agent/agent.repository.ts:38-57 | the agent with the id is replaced by its update and returned; with no such agent nothing changes and null is returned |
| AgentRepo.AgentRepository.GetAgentById | conversational-ai/src/models/agent/agent.repository.ts:59-65 | the agent with the id, or null |
| AgentRepo.AgentRepository.GetAgents | conversational-ai/src/models/agent/agent.repository.ts:67-106 | the page of the agents matching every supplied filter. The primary provider is restricted to the known ones unless given, and the listing is restricted to the caller's own agents unless ids are given |
| AgentValidate.ValidateRegisterAgentInput | conversational-ai/src/services/agent/utils/validate.ts:8-23 | accepts exactly the inputs with a known primary, a fallback that is absent or known, and a fallback different from the primary; each rejection carries the source's message |
| AgentValidate.RegisterEstablishesProviders | conversational-ai/src/services/agent/utils/validate.ts:8-23 | an agent created from an accepted input satisfies the provider invariant |
| AgentValidate.ValidateUpdateAsWritten | conversational-ai/src/services/agent/utils/validate.ts:25-49 | the validator as written; an empty primary skips the primary check |
| AgentValidate.ValidateUpdateAgentInput | conversational-ai/src/services/agent/utils/validate.ts:25-49 | the corrected validator: any supplied primary must be known; the fallback and distinctness rules are as written |
| AgentValidate.UpdatePreservesProviders | conversational-ai/src/services/agent/utils/validate.ts:25-49 | an update the corrected validator accepts keeps the provider invariant of a valid agent |
| AgentValidate.CorrectedDiffersOnlyOnEmptyPrimary | conversational-ai/src/services/agent/utils/validate.ts:27 | the corrected validator rejects what the written one rejects, and additionally only an empty primary |
| AgentValidate.AsWrittenUpdateBreaksProviders | conversational-ai/src/services/agent/utils/validate.ts:27 | as written, `{ primaryProvider: "" }` is accepted on a valid agent, and the updated agent names no known primary |
| AgentService.GetAgent | conversational-ai/src/services/agent/agent.service.ts:10-13 | the agent with the id, or null |
| AgentService.GetAgents | conversational-ai/src/services/agent/agent.service.ts:15-18 | the repository listing, unchanged |
| AgentService.RegisterAgent | conversational-ai/src/services/agent/agent.service.ts:26-35 | a rejected input throws the validator's message and stores nothing. An accepted one is stored and returned. Every stored agent keeps valid providers |
| AgentService.UpdateAgent | conversational-ai/src/services/agent/agent.service.ts:44-59 | corrected (see ## Findings): validates with `AgentValidate.ValidateUpdateAgentInput`, which also rejects an empty primary. An unknown id throws "Agent with ID … not found" and a rejected update throws the validator's message; neither changes anything. Otherwise the agent with the id is replaced by its update, the update is returned, and the provider invariant is kept |
| SessionRepo.NewSession | conversational-ai/src/models/session/session.repository.ts:20-39 | the new session belongs to the caller, who both created and last updated it, with the given agent |
| SessionRepo.SessionById | conversational-ai/src/models/session/session.repository.ts:41-47 | a found session is stored with that id; nothing found means none has it |
| SessionRepo.AllSessionsQuery | conversational-ai/src/models/session/session.repository.ts:49-70 | the listing query is never empty: it always holds the owner key |
| SessionRepo.SessionRepository.constructor | conversational-ai/src/models/session/session.repository.ts:9-18 | the `sessions` collection starts empty |
| SessionRepo.SessionRepository.CreateSession | conversational-ai/src/models/session/session.repository.ts:20-39 | the caller's new session is appended and returned |
| SessionRepo.SessionRepository.GetSessionById | conversational-ai/src/models/session/session.repository.ts:41-47 | the session with the id, or null |
| SessionRepo.SessionRepository.GetAllSessions | conversational-ai/src/models/session/session.repository.ts:49-70 | the page of the caller's sessions, narrowed by each non-empty id list |
| SessionService.GetSession | conversational-ai/src/services/session/session.service.ts:8-11 | the session with the id, or null |
| SessionService.GetAllSessions | conversational-ai/src/services/session/session.service.ts:13-16 | the repository listing, unchanged |
| SessionService.CreateSession | conversational-ai/src/services/session/session.service.ts:25-34 | an unknown agent throws and opens nothing; otherwise the caller's session with that agent is stored and returned |
| MessageRepo.NewMessage | conversational-ai/src/models/message/message.repository.ts:20-38 | the stored message carries the input, the caller as both audit ids, no usage metadata, and `isGenerating` defaulting to false |
| MessageRepo.Patched | conversational-ai/src/models/message/message.repository.ts:40-59 | only the supplied content and generating flag change |
| MessageRepo.AllMessagesQuery | conversational-ai/src/models/message/message.repository.ts:69-89 | the query is empty exactly when no field is supplied |
| MessageRepo.MessageQuery | conversational-ai/src/models/message/message.repository.ts:91-113 | the query is empty exactly when no field is supplied |
| MessageRepo.FindMessage | conversational-ai/src/models/message/message.repository.ts:91-113 | a found message matches every supplied field; nothing is found when no field is supplied, or when no message matches |
| MessageRepo.MessageById | conversational-ai/src/models/message/message.repository.ts:61-67 | a found message is stored with that id; nothing found means none has it |
| MessageRepo.PatchById | conversational-ai/src/models/message/message.repository.ts:40-59 | only the message with the id is patched; without one the collection is unchanged |
| MessageRepo.CreatedIsFound | conversational-ai/src/models/message/message.repository.ts:20-67 | a message created with a fresh id is the one found under that id afterwards |
| MessageRepo.MessageRepository.constructor | conversational-ai/src/models/message/message.repository.ts:9-18 | the `messages` collection starts empty |
| MessageRepo.MessageRepository.CreateMessage | conversational-ai/src/models/message/message.repository.ts:20-38 | the new message is appended and returned |
| MessageRepo.MessageRepository.UpdateMessage | conversational-ai/src/models/message/message.repository.ts:40-59 | the message with the id is patched and returned; null, with nothing changed, when there is none |
| MessageRepo.MessageRepository.GetMessageById | conversational-ai/src/models/message/message.repository.ts:61-67 | the message with the id, or null |
| MessageRepo.MessageRepository.GetAllMessages | conversational-ai/src/models/message/message.repository.ts:69-89 | the messages matching every supplied field, in stored order; nothing when no field is supplied |
| MessageRepo.MessageRepository.GetMessage | conversational-ai/src/models/message/message.repository.ts:91-113 | the first message matching every supplied field; null when no field is supplied |
| MessageService.MessageFor | conversational-ai/src/services/message/message.service.ts:21-48 | a user message is sent by the caller. An agent message needs its session ("Session not found" otherwise), is sent by the session's agent, and is generating unless the input says it is not |
| MessageService.StoredGeneratingFlag | conversational-ai/src/services/message/message.service.ts:29-36 | a stored agent message is generating unless the sender said it is not; a stored user message is generating only when the sender said it is |
| MessageService.SendMessage | conversational-ai/src/services/message/message.service.ts:21-48 | an agent message for an unknown session throws and stores nothing; otherwise the message is stored and returned |
| MessageService.UpdateMessage | conversational-ai/src/services/message/message.service.ts:50-54 | the repository update, unchanged |
| MessageService.UniqConversation | conversational-ai/src/services/message/message.service.ts:56-82 | a found pair is the first message sent under the key in the session, with the first reply to it; there is none without a key, a message or a reply |
| MessageService.GetUniqConversation | conversational-ai/src/services/message/message.service.ts:56-82 | the pair `UniqConversation` describes |
| MessageService.FreshConversation | conversational-ai/src/services/message/message.service.ts:127-151 | the new pair is the caller's message under the key, and the agent's generating placeholder replying to it, both in the session |
| MessageService.ConverseRequestFor | conversational-ai/src/services/message/message.service.ts:163-167 | corrected (see ## Findings): the generation answers the user's message into the placeholder, within the session |
| MessageService.ConverseRequestAsWritten | conversational-ai/src/services/message/message.service.ts:163-167 | as written, the request carries the placeholder's own content and answers into the placeholder, within the session |
| MessageService.AsWrittenConverseIgnoresUserContent | conversational-ai/src/services/message/message.service.ts:165 | as written, the agent is always asked about "Generating Response..." and never about the user's words |
| MessageService.ConverseAnswersUserMessage | conversational-ai/src/services/message/message.service.ts:163-167 | the corrected request carries the user's message, and the placeholder it fills replies to that message |
| MessageService.CreateConversation | conversational-ai/src/services/message/message.service.ts:90-186 | corrected (see ## Findings): a missing key or an unknown session throws and stores nothing. A pair already stored under the key is returned unchanged. Otherwise exactly the fresh pair is appended, and the corrected generation request is returned |
| MessageService.StorePair | conversational-ai/src/services/message/message.service.ts:127-151 | the two sends append the user message and then its placeholder |
| MessageService.RetryFindsStoredConversation | conversational-ai/src/services/message/message.service.ts:115-124 | a retry with the same key after a fresh pair was stored finds exactly that pair, so the retry writes nothing |
| MessageService.UnansweredKeyIsNeverFound | conversational-ai/src/services/message/message.service.ts:56-82 | a key whose first message has no reply is never found, before or after another pair is stored under it |
| MessageService.UsageMapOf | conversational-ai/src/services/message/message.service.ts:204-209 | the map has an entry exactly for the replies some record names, and each entry is a record naming that reply |
| MessageService.UsageMapKeepsLast | conversational-ai/src/services/message/message.service.ts:204-209 | the map keeps the last record of each reply |
| MessageService.Transcript | conversational-ai/src/services/message/message.service.ts:194-221 | the transcript has the same messages in the same order; each finished agent reply carries its usage record when there is one, and every other message is unchanged |
| MessageService.GetTranscript | conversational-ai/src/services/message/message.service.ts:194-221 | the session's messages in stored order, with the session's usage records attached |
| MessageService.UsageMap | conversational-ai/src/services/message/message.service.ts:204-209 | the loop builds the usage map of the records |
| MessageService.AttachUsages | conversational-ai/src/services/message/message.service.ts:211-218 | the loop attaches each finished reply's record, and leaves every other message unchanged |
| MessageService.FirstUsageFor | conversational-ai/src/services/message/message.service.ts:223-239 | a found record names the reply, and no earlier one does |
| MessageService.WithFirstUsage | conversational-ai/src/services/message/message.service.ts:223-239 | a finished agent reply carries its first usage record; any other message is returned unchanged |
| MessageService.GetMessage | conversational-ai/src/services/message/message.service.ts:223-239 | the repository look-up, with the reply's usage record attached |
| MessageService.SingleUsageAttachedAlike | conversational-ai/src/services/message/message.service.ts:194-239 | `getMessage` (first record) and `getTranscript` (last record) attach the same record to a reply that has only one |
| UsageRepo.NewUsage | conversational-ai/src/models/usage/usage.repository.ts:27-41 | the stored record carries the input, the caller as both audit ids and the creation time |
| UsageRepo.UsageQuery | conversational-ai/src/models/usage/usage.repository.ts:49-64 | the query is empty exactly when no id is supplied |
| UsageRepo.AllUsagesQuery | conversational-ai/src/models/usage/usage.repository.ts:66-86 | the query is empty exactly when every list is absent or empty |
| UsageRepo.UsageRepository.constructor | conversational-ai/src/models/usage/usage.repository.ts:16-25 | the `usages` collection starts empty |
| UsageRepo.UsageRepository.CreateUsage | conversational-ai/src/models/usage/usage.repository.ts:27-41 | the new record is appended and returned |
| UsageRepo.UsageRepository.AggregateUsages | conversational-ai/src/models/usage/usage.repository.ts:43-47 | the result of running the built pipeline over the records; attaching the request comment changes nothing |
| UsageRepo.UsageRepository.GetUsage | conversational-ai/src/models/usage/usage.repository.ts:49-64 | the first record matching every supplied id; null when none is supplied |
| UsageRepo.UsageRepository.GetAllUsages | conversational-ai/src/models/usage/usage.repository.ts:66-86 | the records whose fields are in every non-empty list, in stored order; nothing when no list is supplied |
| UsageService.TrackUsage | conversational-ai/src/services/usage/usageService.ts:22-25 | the record is stored |
| UsageService.GetUsageAnalytics | conversational-ai/src/services/usage/usageService.ts:33-49 | a caller without the usage-dashboard scope is refused; otherwise the aggregation's rows, post-processed, or the aggregation's error |
| UsageService.GetUsage | conversational-ai/src/services/usage/usageService.ts:51-54 | the repository look-up |
| UsageService.GetAllUsages | conversational-ai/src/services/usage/usageService.ts:56-59 | the repository listing |
| Aggregation.AddFilterStage | conversational-ai/src/models/usage/buildAggregation.ts:4-33 | one `$match` on `createdAt` holding exactly the supplied bounds, or no stage when neither bound is given |
| Aggregation.AddGroupStage | conversational-ai/src/models/usage/buildAggregation.ts:43-78 | groups by `$<dimension>`, or into one group without one. Each of the three metrics has an accumulator exactly when it is requested. A session count adds the `$size` and `$project` stages |
| Aggregation.AddTopNStage | conversational-ai/src/models/usage/buildAggregation.ts:35-41 | a descending sort on the property and a limit, exactly when top-N is requested |
| Aggregation.BuildAggregation | conversational-ai/src/models/usage/buildAggregation.ts:79-90 | the filter stage, then the group stages, then the top-N stages |
| Aggregation.PipelineFor | conversational-ai/src/models/usage/buildAggregation.ts:79-90 | the pipeline holds one to six stages, always the `$group` of the dimension and metrics, the session-count stage exactly when total_sessions is requested, and no sort or limit without top-N |
| Aggregation.PipelineShape | conversational-ai/src/models/usage/buildAggregation.ts:79-90 | a built pipeline has a `$match` first exactly when a date bound is given, exactly one `$group`, and the sort and limit last |
| Aggregation.AttachComment | conversational-ai/src/models/base/entity.repository.ts:102-115 | the loop attaches the request comment to every `$match` stage in place, and changes no other stage |
| Aggregation.CommentIsInert | conversational-ai/src/models/base/entity.repository.ts:107-111 | attaching the comment does not change what the pipeline computes |
| Aggregation.RunAppend | conversational-ai/src/models/base/entity.repository.ts:102-115 | running two pipelines one after the other is running their concatenation |
| Aggregation.RunStage | conversational-ai/src/models/base/entity.repository.ts:102-115 | `$match` keeps records (never more than it was given); every other stage yields rows; only `$match` and `$group` accept records; sort and the session stages keep the number of rows |
| Aggregation.Aggregate | conversational-ai/src/models/usage/usage.repository.ts:43-47 | an empty pipeline returns records, not rows, and is an error; otherwise the rows the stages produce, or the first stage's error |
| Aggregation.WithKeySnoc | conversational-ai/src/models/usage/buildAggregation.ts:43-62 | a group's records grow by a new record exactly when it has that key |
| Aggregation.WithKeyNone | conversational-ai/src/models/usage/buildAggregation.ts:43-62 | a key no record has has no records |
| Aggregation.AddRecordKeys | conversational-ai/src/models/usage/buildAggregation.ts:43-62 | absorbing a record keeps the group keys distinct, and gives every seen record a group |
| Aggregation.GroupKeys | conversational-ai/src/models/usage/buildAggregation.ts:43-62 | after grouping, keys are distinct and every record's key has a row |
| Aggregation.AbsorbTotals | conversational-ai/src/models/usage/buildAggregation.ts:48-60 | `$sum` and `$addToSet` over one more record are the totals of the longer list |
| Aggregation.NewRowTotals | conversational-ai/src/models/usage/buildAggregation.ts:48-60 | a group started from a record holds exactly that record's totals |
| Aggregation.AddRecordTotals | conversational-ai/src/models/usage/buildAggregation.ts:48-60 | absorbing a record keeps every row equal to the totals of its group's records |
| Aggregation.GroupTotals | conversational-ai/src/models/usage/buildAggregation.ts:43-62 | one row per distinct key; every record's key has a row; each row's sums and session set are over exactly the records with its key |
| Aggregation.Insert | conversational-ai/src/models/usage/buildAggregation.ts:38 | inserting into a descending list keeps it descending and adds exactly the row |
| Aggregation.SortDesc | conversational-ai/src/models/usage/buildAggregation.ts:38 | `$sort: -1` yields the same rows (a permutation), in descending order of the property |
| Aggregation.HaveSessionSets | conversational-ai/src/models/usage/buildAggregation.ts:64-76 | holds exactly when every row carries a session set |
| Aggregation.SizeSessions | conversational-ai/src/models/usage/buildAggregation.ts:65-69 | every row gains `total_sessions`, the size of its session set |
| Aggregation.DropSessions | conversational-ai/src/models/usage/buildAggregation.ts:71-75 | every row loses its session set and is otherwise unchanged |
| Aggregation.Take | conversational-ai/src/models/usage/buildAggregation.ts:39 | `$limit: n` keeps the first `min(n, rows)` rows |
| Aggregation.TotalsCorrect | conversational-ai/src/models/usage/buildAggregation.ts:4-78 | one row per distinct dimension value among the matched records. Each row reports the token sum, the cost sum and the distinct-session count of exactly the records in its group |
| Aggregation.RunPair | conversational-ai/src/models/usage/buildAggregation.ts:79-90 | a two-stage pipeline runs its stages in order |
| Aggregation.RunSessionStages | conversational-ai/src/models/usage/buildAggregation.ts:64-76 | on rows that all carry a session set, the two session stages turn each set into its size and drop the set |
| Aggregation.RunMatchPart | conversational-ai/src/models/usage/buildAggregation.ts:4-33 | the match part lets through exactly the records within the bounds |
| Aggregation.RunSessionPart | conversational-ai/src/models/usage/buildAggregation.ts:43-78 | the group part yields the totals |
| Aggregation.RunTopStages | conversational-ai/src/models/usage/buildAggregation.ts:35-41 | the sort and limit yield the first n rows in descending order, or fail for a limit that is not positive |
| Aggregation.AggregateOutcome | conversational-ai/src/models/usage/buildAggregation.ts:79-90 | without top-N the aggregation returns the totals. With it, the first n totals in descending order, or an error when n is not positive |
| Aggregation.TopNRows | conversational-ai/src/models/usage/buildAggregation.ts:35-41 | a top-N result has at most n rows, in descending order, each a row of the totals |
| Aggregation.GroupCostFollowsTokens | conversational-ai/src/services/generativeAI/generativeProvider.ts:35 | for one provider's records, a group's total cost is its total tokens per thousand times the provider's price |
| UsageAnalytics.NameMapOf | conversational-ai/src/services/usage/utils/usageAnalytics.utils.ts:5-12 | the name record has an entry exactly for the ids of the listed agents |
| UsageAnalytics.NameMapEntry | conversational-ai/src/services/usage/utils/usageAnalytics.utils.ts:8-10 | each entry is the name of an agent carrying that id |
| UsageAnalytics.AgentIdOf | conversational-ai/src/services/usage/utils/usageAnalytics.utils.ts:22 | a row key stands for an agent id exactly when it is a non-empty string |
| UsageAnalytics.TruthyIds | conversational-ai/src/services/usage/utils/usageAnalytics.utils.ts:22 | the collected ids are exactly the truthy row keys |
| UsageAnalytics.Relabel | conversational-ai/src/services/usage/utils/usageAnalytics.utils.ts:24-30 | a relabelled key is a string: either "Unknown Agent" or the name recorded for the key's agent |
| UsageAnalytics.KnownAgentNamed | conversational-ai/src/services/usage/utils/usageAnalytics.utils.ts:19-35 | a row keyed by a stored agent with a known primary and a non-empty name is labelled with that name |
| UsageAnalytics.UnknownAgentLabelled | conversational-ai/src/services/usage/utils/usageAnalytics.utils.ts:24-30 | a row whose key names no stored agent is labelled "Unknown Agent" |
| UsageAnalytics.GetAgentNameMap | conversational-ai/src/services/usage/utils/usageAnalytics.utils.ts:5-12 | the name record of the agents the listing returns for these ids |
| UsageAnalytics.RecordNames | conversational-ai/src/services/usage/utils/usageAnalytics.utils.ts:8-10 | the loop builds the name record of the agents |
| UsageAnalytics.PostProcess | conversational-ai/src/services/usage/utils/usageAnalytics.utils.ts:14-36 | under the agent dimension every row key is relabelled in place; under any other dimension the rows are unchanged |
| UsageAnalytics.PostProcessed | conversational-ai/src/services/usage/utils/usageAnalytics.utils.ts:14-36 | the same rows in the same order with only their keys changed: unchanged outside the agent dimension, string labels within it |
| UserRepo.CreatorOf | conversational-ai/src/models/user/user.repository.ts:23-26 | the recorded creator is the caller, unless the caller's id is empty or "null", in which case it is a fresh id |
| UserRepo.NewUser | conversational-ai/src/models/user/user.repository.ts:21-43 | the stored user carries the input, defaults to ACTIVE status and the USER role, and records the creator as both audit ids |
| UserRepo.Patched | conversational-ai/src/models/user/user.repository.ts:45-60 | only the supplied fields change |
| UserRepo.UserById | conversational-ai/src/models/user/user.repository.ts:62-68 | a found user is stored with that id; nothing found means none has it |
| UserRepo.PatchById | conversational-ai/src/models/user/user.repository.ts:45-60 | only the user with the id is patched; without one the collection is unchanged |
| UserRepo.AllUsersQuery | conversational-ai/src/models/user/user.repository.ts:70-100 | the listing query is never empty: it always holds the status key |
| UserRepo.UserQuery | conversational-ai/src/models/user/user.repository.ts:102-119 | the query is empty exactly when no field is supplied |
| UserRepo.FindUser | conversational-ai/src/models/user/user.repository.ts:102-119 | a found user matches every supplied field; nothing is found when no field is supplied, or when no user matches |
| UserRepo.UserRepository.constructor | conversational-ai/src/models/user/user.repository.ts:10-19 | the `users` collection starts empty |
| UserRepo.UserRepository.CreateUser | conversational-ai/src/models/user/user.repository.ts:21-43 | the new user is appended and returned |
| UserRepo.UserRepository.UpdateUser | conversational-ai/src/models/user/user.repository.ts:45-60 | the user with the id is patched and returned; null, with nothing changed, when there is none |
| UserRepo.UserRepository.GetUserById | conversational-ai/src/models/user/user.repository.ts:62-68 | the user with the id, or null |
| UserRepo.UserRepository.GetAllUsers | conversational-ai/src/models/user/user.repository.ts:70-100 | the page of the active users matching every supplied filter |
| UserRepo.UserRepository.GetUser | conversational-ai/src/models/user/user.repository.ts:102-119 | the first user matching every supplied field; null when no field is supplied |
| TenantRepo.NewTenant | conversational-ai/src/models/tenant/tenant.repository.ts:20-38 | the stored tenant carries the fields and the fresh id |
| TenantRepo.Patched | conversational-ai/src/models/tenant/tenant.repository.ts:67-82 | each supplied field is set, every other field (the id included) is kept |
| TenantRepo.TenantById | conversational-ai/src/models/tenant/tenant.repository.ts:40-46 | a found tenant is stored with that id; nothing found means none has it |
| TenantRepo.PatchById | conversational-ai/src/models/tenant/tenant.repository.ts:67-82 | only the tenant with the id is patched; without one the collection is unchanged |
| TenantRepo.TenantQuery | conversational-ai/src/models/tenant/tenant.repository.ts:48-65 | the query is empty exactly when neither id nor domain is supplied |
| TenantRepo.FindTenant | conversational-ai/src/models/tenant/tenant.repository.ts:48-65 | a found tenant matches every supplied field; nothing is found when no field is supplied, or when no tenant matches |
| TenantRepo.TenantRepository.constructor | conversational-ai/src/models/tenant/tenant.repository.ts:8-18 | the `tenants` collection, on the global client and cached, starts empty |
| TenantRepo.TenantRepository.OneModelForAllTenants | conversational-ai/src/models/tenant/tenant.repository.ts:8-18 | every tenant's request reaches the one tenant model, registered under the bare class name |
| TenantRepo.TenantRepository.CreateTenant | conversational-ai/src/models/tenant/tenant.repository.ts:20-38 | the new tenant is appended and returned |
| TenantRepo.TenantRepository.GetTenantById | conversational-ai/src/models/tenant/tenant.repository.ts:40-46 | the tenant with the id, or null |
| TenantRepo.TenantRepository.GetTenant | conversational-ai/src/models/tenant/tenant.repository.ts:48-65 | the first tenant matching every supplied field; null when none is supplied |
| TenantRepo.TenantRepository.UpdateTenant | conversational-ai/src/models/tenant/tenant.repository.ts:67-82 | the tenant with the id is patched and returned; null, with nothing changed, when there is none |
| TenantService.SystemContext | conversational-ai/src/services/tenant/tenant.service.ts:82-89 | the system context acts inside the tenant, as the given user or, without one, as the tenant itself; it carries no scopes |
| TenantService.PlainKey | conversational-ai/src/services/tenant/utils/apiKey.ts:4-8 | the caller's key when given, otherwise the generated one |
| TenantService.AdminUserInput | conversational-ai/src/services/tenant/tenant.service.ts:39-47 | the admin user has the admin e-mail address, the name "Admin User" and exactly the ADMIN role |
| TenantService.StoredTenant | conversational-ai/src/services/tenant/tenant.service.ts:31-36 | the stored tenant keeps the input and holds the encrypted plain key |
| TenantService.DomainTakenIff | conversational-ai/src/services/tenant/tenant.service.ts:25-28 | the domain check refuses exactly the non-empty domains some tenant already holds |
| TenantService.AcceptedDomainKeepsUnique | conversational-ai/src/services/tenant/tenant.service.ts:25-36 | adding a tenant whose domain passed the check keeps the domains unique |
| TenantService.GetTenant | conversational-ai/src/services/tenant/tenant.service.ts:11-15 | the repository look-up |
| TenantService.CreateTenant | conversational-ai/src/services/tenant/tenant.service.ts:23-50 | a taken domain throws "Tenant with this domain already exists" and changes nothing. Otherwise the tenant is stored with the encrypted key and returned with the plain key, and its admin user is created as the tenant. Domains stay unique |
| TenantService.AdminCreatedByTenant | conversational-ai/src/services/tenant/tenant.service.ts:39-47 | the new admin is active, has exactly the ADMIN role, and was created and last updated by the tenant itself |
| TenantService.RegenerateApiKey | conversational-ai/src/services/tenant/tenant.service.ts:58-75 | an unknown tenant throws "Tenant does not exist" and changes nothing. Otherwise the stored key becomes the encryption of a fresh key, which is returned in plain text. Domains stay unique |
| TenantService.KeyPatchKeepsDomains | conversational-ai/src/services/tenant/tenant.service.ts:58-75 | a patch that only sets the key leaves every domain in place |
| AuthUtil.SelectToken | conversational-ai/src/utils/auth.ts:24-29 | a non-empty cookie wins. Otherwise a token is found exactly when the header starts with "Bearer ", and the header is that prefix followed by the token |
| AuthUtil.SomeRouteIff | conversational-ai/src/utils/auth.ts:45-52 | `some` over the route list holds exactly when one route has the request's method and matches its URL |
| AuthUtil.PublicRoutesExactly | conversational-ai/src/utils/auth.ts:18-23 | the public routes are exactly: GET or POST under "/public/", POST "/auth/sso" and POST "/tenant/create" |
| AuthUtil.PublicContext | conversational-ai/src/utils/auth.ts:54-72 | a public request acts as a tenant whose domain is the Host header, with the tenant as user and no scopes; with no host or no such tenant it acts as "null" |
| AuthUtil.AuthorizeRequest | conversational-ai/src/utils/auth.ts:15-83 | authorisation needs a present token that verifies. A public token is accepted only on the public routes, with the public context. Any other verified token is accepted with its tenant, user and scopes (none means an empty list) |
| AuthUtil.UnverifiedIsDenied | conversational-ai/src/utils/auth.ts:33-41 | a request with no usable token, or one that does not verify, is refused |
| AuthUtil.PublicTokenOnlyOnPublicRoutes | conversational-ai/src/utils/auth.ts:45-52 | a verified public token is accepted exactly on the public routes |
| AuthUtil.RefreshTokenGrantsNoScope | conversational-ai/src/utils/auth.ts:75-82 | a refresh token is accepted like an access token, but its context passes no scope check |
| AuthService.Auth | conversational-ai/src/services/auth/auth.service.ts:17-55 | sign-in succeeds exactly when the domain's tenant exists, holds a key, the key matches, and the e-mail address names a user of that tenant. If that user holds a role naming an inherited member, building the access token throws instead. A success returns that user and the access and refresh tokens for them |
| AuthService.AuthNeedsTenantAndKey | conversational-ai/src/services/auth/auth.service.ts:21-38 | an unknown domain, a tenant without a key, or a key that does not match never signs in |
| AuthService.RefreshToken | conversational-ai/src/services/auth/auth.service.ts:62-105 | only a verified refresh token refreshes, and it succeeds exactly when its tenant and user still exist and no role of the user names an inherited member; such a role makes it throw. The result is a new access token, plus a new refresh token inside the renewal window or the presented one before it |
| AuthService.OnlyRefreshTokensRefresh | conversational-ai/src/services/auth/auth.service.ts:66-70 | access, public and unverifiable tokens never refresh |
| AuthService.RenewalWindow | conversational-ai/src/services/auth/auth.service.ts:95-100 | with an expiry set, the refresh token is renewed from one day before it on, and once renewable it stays renewable |
| AuthService.Renews | conversational-ai/src/services/auth/auth.service.ts:95-100 | a missing or zero expiry always renews; otherwise it renews exactly when the expiry is at most one day (86400000 ms) away |
| AuthService.SevenDayTokenRenewedOnLastDay | conversational-ai/src/services/auth/auth.service.ts:97 | a seven-day refresh token is kept for its first six days and renewed from then on |
| AuthService.NewTenantAdminCanSignIn | conversational-ai/src/services/auth/auth.service.ts:17-55 | right after `createTenant`, the tenant's domain, its plain key and the admin e-mail address sign in as the new admin user |

## Left out

- Concurrency: the two writes after a generation run in `Promise.all`, and `converse` is
  started without being awaited. The model performs them in sequence, and returns the
  `converse` request from `CreateConversation` as pending work.
- Transactions: the mongo session passed through `context.session` is not modelled.
  `createConversation`'s transaction has nothing to roll back in the model, because no
  step after its first write fails there.
- Schema validators, unique indexes and ObjectId casting are not modelled:
  - the unique `domain` and `apiKey` indexes of tenants and the `apiKeys` list;
  - `enum` checks;
  - ObjectId casting of ids.
  The domain rule that `createTenant` enforces itself is modelled as `DomainsUnique`.
- Regular expressions are oracle parameters (`nameMatches`, `matches`): the
  case-insensitive name and e-mail searches. The `$sort` option of listings is ignored,
  and results come back in natural order.
- Date parsing and timestamps: dates are integers supplied by the caller, and a `now`
  parameter stands for the clock.
- `sleep` and latency are not modelled. A retry's back-off waits are recorded, but time
  does not pass.
- Randomness: every `Math.random()` draw and each random text is an input, of type `Unit`
  or `MockText`.
- Cryptography and token handling are function parameters:
  - bcrypt hashing and comparison (`encrypt`, `compare`);
  - uuid generation;
  - jsonwebtoken signing and verification (`sign`, `verify`).
- `exp` values that are not numbers are not modelled: a NaN expiry in `refreshToken` is
  left out.
- `generatePublicToken` is represented only by its claims (`Jwt.PublicClaims`).
  `publicToken` in auth.service.ts (lines 111-115) and `generateToken` are not modelled
  further.
- Logging is not modelled.
- `initCollection` is not modelled. The request hooks' bypass list
  (hooks/prehandler.hook.ts) is not part of this model.
- The `create*` repository paths that return `undefined` when the driver returns nothing
  are not modelled: creation always returns the stored document.
- The user service (services/user/user.service.ts) is not part of this model; it only
  delegates to the user repository, which is modelled.
- The request context passed to the tenant look-ups is not modelled. Tenants live on the
  global client, so the context has no effect on which collection is read
  (`TenantRepo.TenantRepository.OneModelForAllTenants`).
- Audit fields that the tenant schema does not declare are not modelled: the
  `createdById` and `updatedById` that `createTenant` writes are dropped by the schema,
  so the model's `Tenant` has none.
- Usage rows are keyed by field path. Under the `agentId` dimension only string keys
  stand for agents.
- Numbers: token counts are unbounded naturals, and costs are exact reals, so
  floating-point rounding of `cost` is not modelled.
- `MessageService.UpdateMessage` accepts only `content` and `isGenerating`, the fields
  the core updates.
- `AuthService.Auth` and `AuthService.RefreshToken` read each tenant's users through
  `usersOf`, the collection a tenant's system context routes to. The per-tenant routing
  itself is stated by the `MongoModel` lemmas.
- AgentService.UpdateAgent: validates with the corrected `ValidateUpdateAgentInput`, so an update with `primaryProvider: ""` is rejected. As written, the source stores it; `AgentValidate.ValidateUpdateAsWritten` models that behaviour (see ## Findings).
- MessageService.ConverseRequestFor: asks the agent about the user's content. As written, the source sends the placeholder's text; `MessageService.ConverseRequestAsWritten` models that request (see ## Findings).
- MessageService.CreateConversation: returns the corrected `ConverseRequestFor` request, not the request as written (see ## Findings).
- Text.ToLower: lower-cases ASCII letters only, whereas JavaScript's `toLowerCase` also folds other Unicode letters. Every class name that reaches `EntityRepo.CollectionName` is an ASCII constant, so no collection name differs.
- Aggregation.AggregateOutcome: MongoDB leaves two orders unspecified: the order of the `$group` output and the order of ties under `$sort: -1`. The model fixes one order the database allows for each: groups in order of first occurrence, and ties with the later group first. At a `$limit` that falls within a tie, the database may return other rows of equal value than `Aggregation.TopNRows` picks.
- Aggregation.FieldKey: reads only the fields the model's usage record holds. The `updatedAt` timestamp that `timestamps: true` adds is not kept, so `$updatedAt` reads as null; no dimension, metric or filter of the core uses it.

## Findings

| source | as written | input that shows it | evidently intended | confidence | as-written member | corrected member |
|---|---|---|---|---|---|---|
| conversational-ai/src/services/agent/utils/validate.ts:27 | the primary provider is checked only when the supplied value is truthy, so an empty string skips the check. `findOneAndUpdate` runs no schema validators, so the empty string is stored | `updateAgent(id, { primaryProvider: "" })` on an agent with valid providers | every supplied primary provider, empty or not, must be one of the provider names | medium, not executed | AgentValidate.AsWrittenUpdateBreaksProviders | AgentValidate.UpdatePreservesProviders |
| conversational-ai/src/services/message/message.service.ts:165 | `converse` is given the placeholder's content ("Generating Response...") rather than the user's message | `createConversation({ sessionId, uniqKey: "k", content: "hello" })`: the agent is asked about "Generating Response..." | the agent answers the user's message, writing into the placeholder | medium, not executed | MessageService.AsWrittenConverseIgnoresUserContent | MessageService.ConverseAnswersUserMessage |
