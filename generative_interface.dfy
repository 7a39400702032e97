/** What a provider adapter hands back to the shared generation flow (interfaces/generative.interface.ts). */
module GenerativeInterface {
  import opened Wrappers

  /** Token counts and, for adapters that report it, the simulated latency. */
  datatype ResponseMetadata = ResponseMetadata(tokensIn: nat, tokensOut: nat, latencyMs: Option<int>)

  datatype ExecuteResponsePayload = ExecuteResponsePayload(response: string, metadata: ResponseMetadata)
}
