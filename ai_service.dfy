/**
  The provider factory: a constant table from the settings' provider type
  to the provider class it constructs.
*/
module AiService {
  import opened Models
  import OpenRouterProvider
  import OpenAIProvider
  import AnthropicProvider

  /** The three provider classes. An instance carries nothing but its
      class, so a class stands for a fresh instance of it. */
  datatype ProviderClass = OpenRouterClass | OpenAIClass | AnthropicClass

  /** The `name` field each class sets. */
  function Name(c: ProviderClass): string {
    match c
    case OpenRouterClass => OpenRouterProvider.NAME
    case OpenAIClass => OpenAIProvider.NAME
    case AnthropicClass => AnthropicProvider.NAME
  }

  /** The provider type a class serves. */
  function Serves(c: ProviderClass): AIProviderType {
    match c
    case OpenRouterClass => OpenRouter
    case OpenAIClass => OpenAI
    case AnthropicClass => Anthropic
  }

  /** The factory is total, and the class it constructs serves the type
      asked for. */
  function GetAIProvider(t: AIProviderType): (c: ProviderClass)
    ensures Serves(c) == t
  {
    match t
    case OpenRouter => OpenRouterClass
    case OpenAI => OpenAIClass
    case Anthropic => AnthropicClass
  }

  /** Different provider types give instances with different names. */
  lemma NamesDistinguishProviders(a: AIProviderType, b: AIProviderType)
    ensures a != b ==> Name(GetAIProvider(a)) != Name(GetAIProvider(b))
  {
    if a != b {
      var na, nb := Name(GetAIProvider(a)), Name(GetAIProvider(b));
      assert na[0] != nb[0] || na[4] != nb[4];
    }
  }

  /** Every class is the one the factory builds for the type it serves, so
      the table is a bijection. */
  lemma EveryClassReachable(c: ProviderClass)
    ensures GetAIProvider(Serves(c)) == c
  {
  }
}
