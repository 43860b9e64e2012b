/** `toOpenAI`: a Phoenix prompt to the parameters of OpenAI's chat-completion call. */
module OpenAIConversion {
  import opened Wrappers
  import opened Json
  import opened Prompts
  import opened LlmSchemas

  /** The keys the final object literal writes after spreading the base parameters. */
  const ComputedKeys: set<string> := {"messages", "tools", "tool_choice", "response_format"}

  /**
   * `xs.map((x) => parse(x))` where `parse` may throw: every element is parsed
   * in order, and the first element that fails aborts the whole map with its error.
   */
  function ParseAll<A, B>(parse: A -> Result<B>, xs: seq<A>): (r: Result<seq<B>>)
    ensures r.Ok? <==> forall i :: 0 <= i < |xs| ==> parse(xs[i]).Ok?
    ensures r.Ok? ==> |r.value| == |xs|
    ensures r.Ok? ==> forall i :: 0 <= i < |xs| ==> r.value[i] == parse(xs[i]).value
    ensures r.Err? ==>
      exists i :: 0 <= i < |xs| && parse(xs[i]) == Err(r.error) &&
        forall j :: 0 <= j < i ==> parse(xs[j]).Ok?
  {
    if |xs| == 0 then Ok([])
    else
      match parse(xs[0])
      case Err(e) => Err(e)
      case Ok(y) =>
        match ParseAll(parse, xs[1..])
        case Err(e) => Err(e)
        case Ok(ys) => Ok([y] + ys)
  }

  /**
   * `xs.filter((x) => x !== null)`: the entries other than `null`, in their original
   * order (`undefined` is not `null` under `!==`, so it is kept).
   */
  function DropNull(xs: seq<Json>): (r: seq<Json>)
    ensures |r| <= |xs|
    ensures forall y :: y in r <==> y in xs && y != Null
    ensures |r| == 0 <==> forall i :: 0 <= i < |xs| ==> xs[i] == Null
  {
    if |xs| == 0 then []
    else (if xs[0] == Null then [] else [xs[0]]) + DropNull(xs[1..])
  }

  /** Filtering distributes over concatenation, so the kept entries keep their relative order. */
  lemma {:induction false} DropNullAppend(a: seq<Json>, b: seq<Json>)
    ensures DropNull(a + b) == DropNull(a) + DropNull(b)
  {
    if |a| == 0 {
      assert a + b == b;
    } else {
      assert (a + b)[1..] == a[1..] + b;
      DropNullAppend(a[1..], b);
    }
  }

  /** `{ model: prompt.model_name, ...prompt.invocation_parameters }`: a spread key overrides `model`. */
  function BaseParams(p: Prompt): (base: map<string, Json>)
    ensures base.Keys == p.invocation_parameters.Keys + {"model"}
    ensures forall k :: k in p.invocation_parameters ==> base[k] == p.invocation_parameters[k]
    ensures "model" !in p.invocation_parameters ==> base["model"] == Str(p.model_name)
  {
    map["model" := Str(p.model_name)] + p.invocation_parameters
  }

  /** The template messages, passed once through the formatter when the caller gave variables. */
  function FormatMessages(h: Helpers, format: TemplateFormat, messages: seq<Json>, variables: Variables): Result<seq<Json>>
  {
    match variables
    case None => Ok(messages)
    case Some(vars) => h.formatMessages(format, messages, vars)
  }

  /**
   * The `tools` binding: `undefined` (`None`) when the prompt has no tools container
   * or when no tool survives the null filter, otherwise the surviving converted tools.
   */
  function ConvertTools(h: Helpers, tools: Option<PromptTools>): (r: Result<Option<seq<Json>>>)
    ensures r.Ok? && r.value.Some? ==> |r.value.value| > 0
  {
    match tools
    case None => Ok(None)
    case Some(pt) =>
      match ParseAll(h.parseTool, pt.tools)
      case Err(e) => Err(e)
      case Ok(converted) =>
        var kept := DropNull(converted);
        Ok(if |kept| > 0 then Some(kept) else None)
  }

  /** `tools?.length ?? 0` */
  function ToolCount(tools: Option<seq<Json>>): nat {
    match tools
    case None => 0
    case Some(ts) => |ts|
  }

  /** The `response_format` binding: parsed when the prompt's value is truthy, `undefined` otherwise. */
  function ConvertResponseFormat(h: Helpers, responseFormat: Json): Result<Json>
  {
    if Truthy(responseFormat) then h.parseResponseFormat(responseFormat) else Ok(Undefined)
  }

  /** `safelyConvertToolChoiceToProvider({ toolChoice, targetProvider: "OPENAI" }) ?? undefined` */
  function SafeToolChoice(h: Helpers, parsed: Json): Json {
    Coalesce(h.safelyConvertToolChoice(parsed, TargetProvider), Undefined)
  }

  /**
   * The `tool_choice` binding: only when tools remain and the prompt's choice is truthy
   * is the choice parsed (and may throw) and made provider-safe; a `null` from the
   * provider-safe conversion becomes `undefined`.
   */
  function ConvertToolChoice(h: Helpers, promptTools: Option<PromptTools>, tools: Option<seq<Json>>): Result<Json>
  {
    if ToolCount(tools) > 0 && promptTools.Some? && Truthy(promptTools.value.tool_choice) then
      match h.parseToolChoice(promptTools.value.tool_choice)
      case Err(e) => Err(e)
      case Ok(choice) => Ok(SafeToolChoice(h, choice))
    else Ok(Undefined)
  }

  /** The value written for `tools`: the array, or `undefined`. */
  function ToolsValue(tools: Option<seq<Json>>): Json {
    match tools
    case None => Undefined
    case Some(ts) => Arr(ts)
  }

  /** `{ ...base, messages, tools, tool_choice, response_format }`: the computed keys override the spread ones. */
  function Assemble(base: map<string, Json>, messages: seq<Json>, tools: Option<seq<Json>>, toolChoice: Json, responseFormat: Json): (params: map<string, Json>)
    ensures params.Keys == base.Keys + ComputedKeys
    ensures forall k :: k in base && k !in ComputedKeys ==> params[k] == base[k]
    ensures params["messages"] == Arr(messages) && params["tools"] == ToolsValue(tools)
    ensures params["tool_choice"] == toolChoice && params["response_format"] == responseFormat
  {
    base + map["messages" := Arr(messages), "tools" := ToolsValue(tools),
               "tool_choice" := toolChoice, "response_format" := responseFormat]
  }

  /** The body of the `try` once the template is known to hold messages; `Err` is a thrown exception. */
  function Convert(h: Helpers, p: Prompt, templateMessages: seq<Json>, variables: Variables): Result<map<string, Json>>
  {
    var base := BaseParams(p);
    var formatted :- FormatMessages(h, p.template_format, templateMessages, variables);
    var messages :- ParseAll(h.parseMessage, formatted);
    var tools :- ConvertTools(h, p.tools);
    var responseFormat :- ConvertResponseFormat(h, p.response_format);
    var toolChoice :- ConvertToolChoice(h, p.tools, tools);
    Ok(Assemble(base, messages, tools, toolChoice, responseFormat))
  }

  /**
   * `toOpenAI({ prompt, variables })`: `None` (JavaScript `null`) for a template
   * without messages or when any helper throws, otherwise the parameter object.
   * Keys of `invocation_parameters` override `model`, and the computed keys
   * override `invocation_parameters`.
   */
  function ToOpenAI(h: Helpers, p: Prompt, variables: Variables): (r: Option<map<string, Json>>)
    ensures !p.template.Chat? ==> r.None?
    ensures r.Some? ==> r.value.Keys == p.invocation_parameters.Keys + {"model"} + ComputedKeys
    ensures r.Some? ==>
      forall k :: k in p.invocation_parameters && k !in ComputedKeys ==> r.value[k] == p.invocation_parameters[k]
    ensures r.Some? && "model" !in p.invocation_parameters ==> r.value["model"] == Str(p.model_name)
  {
    if !p.template.Chat? then None
    else
      match Convert(h, p, p.template.messages, variables)
      case Ok(params) => Some(params)
      case Err(_) => None
  }
}
