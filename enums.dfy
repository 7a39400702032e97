/** The enumerations of the backend (src/enums). */
module Enums {
  import opened Wrappers

  /** The generative providers an agent may name (enums/agentModel.enum.ts). */
  datatype ProviderType = GPT3_5 | Claude3_5_Sonnet | GoogleGemini1_5
  {
    /** The enum's string value: what documents store and what the factory is keyed by. */
    function Tag(): string {
      match this
      case GPT3_5 => "gpt-3.5-turbo"
      case Claude3_5_Sonnet => "claude-3.5-sonnet"
      case GoogleGemini1_5 => "google-gemini-1.5"
    }
  }

  /** `Object.values(ProviderType)`: the accepted provider strings, in declaration order. */
  const AllProviderTags: seq<string> := [GPT3_5.Tag(), Claude3_5_Sonnet.Tag(), GoogleGemini1_5.Tag()]

  /** Reads a stored provider string back as an enum member; `None` for any other string. */
  function ParseProvider(s: string): (r: Option<ProviderType>)
    ensures r.Some? <==> s in AllProviderTags
    ensures r.Some? ==> r.value.Tag() == s
  {
    if s == GPT3_5.Tag() then Some(GPT3_5)
    else if s == Claude3_5_Sonnet.Tag() then Some(Claude3_5_Sonnet)
    else if s == GoogleGemini1_5.Tag() then Some(GoogleGemini1_5)
    else None
  }

  /** Every enum member parses back from its own tag: tags identify providers. */
  lemma ParseTag(p: ProviderType)
    ensures ParseProvider(p.Tag()) == Some(p)
  {
    match p
    case GPT3_5 =>
    case Claude3_5_Sonnet =>
      assert "claude-3.5-sonnet"[0] != "gpt-3.5-turbo"[0];
    case GoogleGemini1_5 =>
      assert "google-gemini-1.5"[1] != "gpt-3.5-turbo"[1];
      assert "google-gemini-1.5"[0] != "claude-3.5-sonnet"[0];
  }

  /** Sender of a message (enums/sender.enum.ts). */
  datatype SenderType = UserSender | AgentSender

  /** Permission scopes carried by access tokens (enums/scope.enum.ts). */
  datatype Scope = UsageDashboard | UserDashboard | UserChat | UserAgent

  /** User roles; a stored role outside the enum is kept as `OtherRole` (enums/role.enum.ts). */
  datatype Role = Admin | User | OtherRole(name: string)

  /** User account status; only ACTIVE is used by the core (enums/userStatus.enum.ts). */
  datatype UserStatus = Active | OtherStatus(name: string)

  /** The kind of a signed token (enums/accessType.enum.ts). */
  datatype AccessType = Access | Refresh | Public
}
