# toOpenAI: Phoenix prompt to OpenAI chat-completion parameters

This project models the conversion at the core of the Phoenix client's prompt SDK helpers.
`toOpenAI({ prompt, variables })` takes a stored Phoenix prompt version and optional variable
bindings. It returns either the parameter object for OpenAI's chat-completion call or `null`.

The model is pure. Its parts:

- `Json.Json` stands for a JavaScript value. It includes `undefined`, because the final object
  literal writes `tools: undefined` and similar keys. Those keys are still present, and so they
  override any key of the same name in `invocation_parameters`.
- `Prompts.Prompt` is the prompt record. `model_name` is a string and `invocation_parameters` is a
  finite map. The template is either a chat template with `messages` or a text template.
  `template_format` names the interpolation syntax, `tools` is an optional container, and
  `response_format` is a JavaScript value.
- `LlmSchemas.Helpers` holds the helpers that the conversion calls but that are not part of this
  model. Each is a function-valued field, and every property below holds for every choice of them:
  - `formatPromptMessages`, the message formatter;
  - `promptMessageToOpenAI.parse`, `phoenixToolToOpenAI.parse`,
    `phoenixResponseFormatToOpenAI.parse` and `phoenixToolChoiceToOpenaiToolChoice.parse`;
  - `safelyConvertToolChoiceToProvider`.

  A helper that throws answers `Err`. JavaScript `null` is the value `Json.Null` everywhere: a
  tool that cannot be converted gives `Ok(Null)`, and the provider-safe tool-choice conversion
  answers `Null` when the choice cannot be expressed. There is no second encoding of `null`.
- `OpenAIConversion.ToOpenAI` returns `None` for JavaScript `null`. The `try`/`catch` becomes the
  collapse of a `Result` to an `Option`. The conversion itself is `Convert`, a chain of `:-` steps,
  so any step that throws gives `null` and never a partial object.
- The gates follow JavaScript truthiness (`Json.Truthy`):
  - `prompt.response_format ? … : undefined`;
  - `prompt.tools?.tool_choice`;
  - `(tools?.length ?? 0) > 0`.

  `if (variables)` becomes the presence of the optional bindings, because a bindings object is
  always truthy.

Two behaviours of the code are worth stating plainly:

- The object literal writes `model: prompt.model_name` before `...prompt.invocation_parameters`
  (js/packages/phoenix-client/src/prompts/sdks/toOpenAI.ts:36-40). So a `model` key in
  `invocation_parameters` wins over `model_name`. See `ToOpenAI` and `ModelKeyOverridesModelName`.
- `toOpenAI` does not check that a tool choice names a tool that is still in the list. Any such
  failure can only come from the tool-choice parser, which is a parameter here.

## Model

| member | source | states |
|---|---|---|
| OpenAIConversion.ToOpenAI | js/packages/phoenix-client/src/prompts/sdks/toOpenAI.ts:30-96 | A template without `messages` gives `null`. On success, the keys are those of `invocation_parameters`, plus `model`, plus `messages`, `tools`, `tool_choice` and `response_format`. Every other invocation-parameter key passes through unchanged. `model` comes from `model_name` only when `invocation_parameters` has no `model` key. |
| OpenAIConversion.ParseAll | js/packages/phoenix-client/src/prompts/sdks/toOpenAI.ts:56-61 | `.map(parse)` where a parse may throw. It succeeds exactly when every element parses. It then has the same length and gives the parse of each element at the same index. On failure, its error is that of the first element that fails. |
| OpenAIConversion.DropNull | js/packages/phoenix-client/src/prompts/sdks/toOpenAI.ts:60-62 | `.filter(tool => tool !== null)`. The result is never longer than the input and holds exactly the values other than `null` (`undefined` is kept, as under `!==`). It is empty exactly when every entry is `null`. |
| OpenAIConversion.DropNullAppend | js/packages/phoenix-client/src/prompts/sdks/toOpenAI.ts:60-62 | Filtering distributes over concatenation, so the tools that remain keep their original relative order. |
| OpenAIConversion.BaseParams | js/packages/phoenix-client/src/prompts/sdks/toOpenAI.ts:36-40 | The base object has key `model` plus the invocation-parameter keys. Invocation-parameter values win, including for `model`. |
| OpenAIConversion.ConvertTools | js/packages/phoenix-client/src/prompts/sdks/toOpenAI.ts:60-63 | A `tools` binding that is present is never an empty list: an empty list collapses to `undefined`. |
| OpenAIConversion.Assemble | js/packages/phoenix-client/src/prompts/sdks/toOpenAI.ts:80-86 | The final spread owns the base keys plus the four computed keys. `messages`, `tools`, `tool_choice` and `response_format` hold the computed values, whatever the base holds under those keys. Base values survive under every other key. |
| OpenAIConversionProperties.ConvertToolsPresence | js/packages/phoenix-client/src/prompts/sdks/toOpenAI.ts:60-63 | When every tool parses, `tools` is present exactly when some tool converts to a non-null value. |
| OpenAIConversionProperties.ToOpenAISucceedsIff | js/packages/phoenix-client/src/prompts/sdks/toOpenAI.ts:34-95 | The result is non-null if and only if the template has messages and no helper the conversion consults throws. The consulted helpers are the formatter (only when variables are given), every message parse, every tool parse, the response-format parse (only when one is declared) and the tool-choice parse (only when tools remain and a choice is set). |
| OpenAIConversionProperties.MessagesWithoutVariables | js/packages/phoenix-client/src/prompts/sdks/toOpenAI.ts:46-58 | With no variables, `messages` is the template's messages, each passed through the message parser, with the same length and order. |
| OpenAIConversionProperties.MessagesWithVariables | js/packages/phoenix-client/src/prompts/sdks/toOpenAI.ts:46-58 | With variables, the formatter runs once on the template messages with the prompt's format. `messages` is the element-wise parse of its output. |
| OpenAIConversionProperties.ToolsField | js/packages/phoenix-client/src/prompts/sdks/toOpenAI.ts:60-63 | `tools` is `undefined` if and only if no tool converts to a non-null value, which includes a prompt without tools. Otherwise it is the converted list with the nulls filtered out. It holds exactly the non-null conversions. |
| OpenAIConversionProperties.ToolChoiceField | js/packages/phoenix-client/src/prompts/sdks/toOpenAI.ts:69-77 | `tool_choice` is `undefined` when `tools` is `undefined` or the prompt sets no choice. Otherwise the choice has parsed, and `tool_choice` is its provider-safe conversion, or `undefined` when that conversion is `null`. |
| OpenAIConversionProperties.ResponseFormatField | js/packages/phoenix-client/src/prompts/sdks/toOpenAI.ts:65-67 | `response_format` is the parsed value when the prompt declares one, and `undefined` otherwise. |
| OpenAIConversionProperties.ToolChoiceIgnoredWithoutTools | js/packages/phoenix-client/src/prompts/sdks/toOpenAI.ts:69-77 | When no tool remains, replacing the tool-choice parser and the provider-safe conversion leaves the result unchanged. A malformed choice on a prompt without usable tools therefore cannot cause `null`. |
| OpenAIConversionProperties.NonConvertibleToolIsDropped | js/packages/phoenix-client/src/prompts/sdks/toOpenAI.ts:60-63 | Given one convertible tool and one non-convertible tool, `tools` holds exactly the converted convertible one. |
| OpenAIConversionProperties.ModelKeyOverridesModelName | js/packages/phoenix-client/src/prompts/sdks/toOpenAI.ts:36-40 | Given `invocation_parameters = {model: "x"}` and `model_name = "y"`, the output `model` is `"x"`. |

## Left out

- `formatPromptMessages` and the zod schemas in `schemas/llm` are not part of this model. They are parameters (`LlmSchemas.Helpers`), so the model makes no claim about mustache or f-string substitution. It also makes no claim about which messages, tools, formats or tool choices are valid. For the same reason, the end-to-end example with a `{{role}}` substitution cannot be stated.
- The `console.warn` and `console.error` logging in the `catch` is a diagnostic side effect. The model keeps only the `null` result, and error messages are opaque strings.
- The OpenAI SDK types that are re-exported and the `ToOpenAIParams` type alias are type plumbing. The parameter object is a map from keys to JSON values.
- Numbers in JSON values are integers, so floating-point parameters such as `temperature` are not represented exactly. The conversion only passes them through, apart from truthiness, where `0` is falsy as in JavaScript.
- Inputs are never modified and the output is fresh. This holds by construction, because the model works on immutable values. Aliasing between the output and the input's nested objects is not represented.
- The `NewProjectButton` UI component and the generated `PromptOutputSchemaFragment` GraphQL fragment have no conversion logic.
