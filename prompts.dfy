/** The stored Phoenix prompt record, read-only input of the conversion. */
module Prompts {
  import opened Wrappers
  import opened Json

  /** The interpolation syntax named by `template_format`; only the formatter interprets it. */
  datatype TemplateFormat = Mustache | FString | NoFormat

  /**
   * `prompt.template`: a chat template owns a `messages` list; any other kind
   * (a plain string template) does not.
   */
  datatype Template =
    | Chat(messages: seq<Json>)
    | Text(template: string)

  /** `prompt.tools`: the tool definitions in order and an optional `tool_choice` (`undefined` when unset). */
  datatype PromptTools = PromptTools(tools: seq<Json>, tool_choice: Json)

  /**
   * A prompt version. `tools` is `None` when the record has no tools container;
   * `response_format` is `Undefined` (or another falsy value) when none is declared.
   */
  datatype Prompt = Prompt(
    model_name: string,
    invocation_parameters: map<string, Json>,
    template: Template,
    template_format: TemplateFormat,
    tools: Option<PromptTools>,
    response_format: Json)

  /** The optional `variables` argument: `None` when the caller passes none. */
  type Variables = Option<map<string, Json>>
}
