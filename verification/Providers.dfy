/** The providers a credential can be held for, and the one more a scope may name
    (lib/providers.ts). */
module Providers {
  datatype Provider =
    | OpenAI | Anthropic | Groq | Mistral | Together | DeepSeek | Gemini | XAI | OpenRouter | Azure | Local

  function Name(p: Provider): string {
    match p
    case OpenAI => "openai"
    case Anthropic => "anthropic"
    case Groq => "groq"
    case Mistral => "mistral"
    case Together => "together"
    case DeepSeek => "deepseek"
    case Gemini => "gemini"
    case XAI => "xai"
    case OpenRouter => "openrouter"
    case Azure => "azure"
    case Local => "local"
  }

  const PROVIDERS: seq<string> :=
    ["openai", "anthropic", "groq", "mistral", "together", "deepseek", "gemini", "xai", "openrouter", "azure", "local"]

  const DEMO := "demo"

  /** The list leaves none out. */
  lemma ProvidersAreNamed(name: string)
    ensures name in PROVIDERS <==> exists p :: Name(p) == name
  {
    if name in PROVIDERS {
      var i :| 0 <= i < |PROVIDERS| && PROVIDERS[i] == name;
      var all := [OpenAI, Anthropic, Groq, Mistral, Together, DeepSeek, Gemini, XAI, OpenRouter, Azure, Local];
      assert Name(all[i]) == name;
    }
    if p :| Name(p) == name {
      assert PROVIDERS[0] == "openai" && PROVIDERS[1] == "anthropic" && PROVIDERS[2] == "groq" && PROVIDERS[3] == "mistral";
      assert PROVIDERS[4] == "together" && PROVIDERS[5] == "deepseek" && PROVIDERS[6] == "gemini" && PROVIDERS[7] == "xai";
      assert PROVIDERS[8] == "openrouter" && PROVIDERS[9] == "azure" && PROVIDERS[10] == "local";
    }
  }
}
