/**
 * The helpers the conversion calls but whose definitions are not part of this
 * model: the message formatter and the zod schemas of the LLM vocabulary.
 * They are passed in as values, so every property proved about the conversion
 * holds whatever these helpers do.
 */
module LlmSchemas {
  import opened Wrappers
  import opened Json
  import opened Prompts

  /** The provider name the conversion hands to `safelyConvertToolChoiceToProvider`. */
  const TargetProvider: string := "OPENAI"

  /**
   * One field per helper. `Err` stands for an exception thrown by the helper
   * (a failed `.parse`). A JavaScript `null` result is the value `Null`: `parseTool`
   * answers `Ok(Null)` for a tool it cannot convert, and `safelyConvertToolChoice`
   * answers `Null` when the choice cannot be expressed for the provider.
   */
  datatype Helpers = Helpers(
    formatMessages: (TemplateFormat, seq<Json>, map<string, Json>) -> Result<seq<Json>>,
    parseMessage: Json -> Result<Json>,
    parseTool: Json -> Result<Json>,
    parseResponseFormat: Json -> Result<Json>,
    parseToolChoice: Json -> Result<Json>,
    safelyConvertToolChoice: (Json, string) -> Json)
}
