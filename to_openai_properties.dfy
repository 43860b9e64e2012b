/** What `toOpenAI` promises its callers, stated against the helpers' own answers. */
module OpenAIConversionProperties {
  import opened Wrappers
  import opened Json
  import opened Prompts
  import opened LlmSchemas
  import opened OpenAIConversion

  /** Some tool of the prompt converts to a non-null OpenAI tool. */
  ghost predicate ToolsRemain(h: Helpers, p: Prompt) {
    p.tools.Some? &&
    exists i :: 0 <= i < |p.tools.value.tools| &&
      h.parseTool(p.tools.value.tools[i]).Ok? && h.parseTool(p.tools.value.tools[i]).value != Null
  }

  /** The prompt's `tool_choice` reaches the tool-choice parser. */
  ghost predicate ToolChoiceConsulted(h: Helpers, p: Prompt) {
    ToolsRemain(h, p) && Truthy(p.tools.value.tool_choice)
  }

  /** Every helper the conversion consults answers without throwing. */
  ghost predicate EveryStepSucceeds(h: Helpers, p: Prompt, v: Variables) {
    p.template.Chat? &&
    FormatMessages(h, p.template_format, p.template.messages, v).Ok? &&
    (forall i :: 0 <= i < |FormatMessages(h, p.template_format, p.template.messages, v).value| ==>
       h.parseMessage(FormatMessages(h, p.template_format, p.template.messages, v).value[i]).Ok?) &&
    (p.tools.Some? ==>
       forall i :: 0 <= i < |p.tools.value.tools| ==> h.parseTool(p.tools.value.tools[i]).Ok?) &&
    (Truthy(p.response_format) ==> h.parseResponseFormat(p.response_format).Ok?) &&
    (ToolChoiceConsulted(h, p) ==> h.parseToolChoice(p.tools.value.tool_choice).Ok?)
  }

  /** The filtered tool list is empty exactly when no tool converts to a non-null value. */
  lemma ConvertToolsPresence(h: Helpers, p: Prompt)
    requires p.tools.Some?
    requires forall i :: 0 <= i < |p.tools.value.tools| ==> h.parseTool(p.tools.value.tools[i]).Ok?
    ensures ConvertTools(h, p.tools).Ok?
    ensures ConvertTools(h, p.tools).value.Some? <==> ToolsRemain(h, p)
  {
    var ts := p.tools.value.tools;
    var converted := ParseAll(h.parseTool, ts).value;
    if ToolsRemain(h, p) {
      var i :| 0 <= i < |ts| && h.parseTool(ts[i]).Ok? && h.parseTool(ts[i]).value != Null;
      assert converted[i] != Null && converted[i] in converted;
    }
  }

  /** Unfolds `Convert` for a non-null result: the step results the field lemmas read. */
  lemma ConvertSteps(h: Helpers, p: Prompt, v: Variables)
    requires ToOpenAI(h, p, v).Some?
    ensures p.template.Chat?
    ensures FormatMessages(h, p.template_format, p.template.messages, v).Ok?
    ensures ParseAll(h.parseMessage, FormatMessages(h, p.template_format, p.template.messages, v).value).Ok?
    ensures ConvertTools(h, p.tools).Ok?
    ensures ConvertResponseFormat(h, p.response_format).Ok?
    ensures ConvertToolChoice(h, p.tools, ConvertTools(h, p.tools).value).Ok?
    ensures ToOpenAI(h, p, v).value ==
      Assemble(BaseParams(p),
               ParseAll(h.parseMessage, FormatMessages(h, p.template_format, p.template.messages, v).value).value,
               ConvertTools(h, p.tools).value,
               ConvertToolChoice(h, p.tools, ConvertTools(h, p.tools).value).value,
               ConvertResponseFormat(h, p.response_format).value)
  {
  }

  /** A `null` result is returned exactly when some step fails or the template has no messages. */
  lemma ToOpenAISucceedsIff(h: Helpers, p: Prompt, v: Variables)
    ensures ToOpenAI(h, p, v).Some? <==> EveryStepSucceeds(h, p, v)
  {
    if p.template.Chat? && FormatMessages(h, p.template_format, p.template.messages, v).Ok? {
      assert FormatMessages(h, p.template_format, p.template.messages, v) == FormatMessages(h, p.template_format, p.template.messages, v);
      if p.tools.Some? && forall i :: 0 <= i < |p.tools.value.tools| ==> h.parseTool(p.tools.value.tools[i]).Ok? {
        ConvertToolsPresence(h, p);
      }
    }
  }

  /** Without variables the messages are the template's, each parsed, in order and with the same length. */
  lemma MessagesWithoutVariables(h: Helpers, p: Prompt)
    requires ToOpenAI(h, p, None).Some?
    ensures p.template.Chat?
    ensures ToOpenAI(h, p, None).value["messages"].Arr?
    ensures |ToOpenAI(h, p, None).value["messages"].items| == |p.template.messages|
    ensures forall i :: 0 <= i < |p.template.messages| ==>
      h.parseMessage(p.template.messages[i]).Ok? &&
      ToOpenAI(h, p, None).value["messages"].items[i] == h.parseMessage(p.template.messages[i]).value
  {
    ToOpenAISucceedsIff(h, p, None);
  }

  /** With variables the formatter runs once on the template messages and its output is parsed in order. */
  lemma MessagesWithVariables(h: Helpers, p: Prompt, vars: map<string, Json>)
    requires ToOpenAI(h, p, Some(vars)).Some?
    ensures p.template.Chat?
    ensures h.formatMessages(p.template_format, p.template.messages, vars).Ok?
    ensures ToOpenAI(h, p, Some(vars)).value["messages"] ==
      Arr(ParseAll(h.parseMessage, h.formatMessages(p.template_format, p.template.messages, vars).value).value)
  {
    ConvertSteps(h, p, Some(vars));
  }

  /**
   * `tools` is `undefined` unless some tool converts to non-null; otherwise it is the
   * converted tools with the nulls removed, and holds exactly the non-null conversions.
   */
  lemma ToolsField(h: Helpers, p: Prompt, v: Variables)
    requires ToOpenAI(h, p, v).Some?
    ensures ToOpenAI(h, p, v).value["tools"] == Undefined <==> !ToolsRemain(h, p)
    ensures ToolsRemain(h, p) ==>
      ToOpenAI(h, p, v).value["tools"] == Arr(DropNull(ParseAll(h.parseTool, p.tools.value.tools).value))
    ensures ToolsRemain(h, p) ==>
      forall y :: y in ToOpenAI(h, p, v).value["tools"].items <==>
        y != Null && exists i :: 0 <= i < |p.tools.value.tools| && h.parseTool(p.tools.value.tools[i]) == Ok(y)
  {
    ToOpenAISucceedsIff(h, p, v);
    ConvertSteps(h, p, v);
    if p.tools.Some? {
      ConvertToolsPresence(h, p);
      var ts := p.tools.value.tools;
      var converted := ParseAll(h.parseTool, ts).value;
      forall y ensures y in converted <==>
        exists i :: 0 <= i < |ts| && h.parseTool(ts[i]) == Ok(y)
      {
        if y in converted {
          var i :| 0 <= i < |converted| && converted[i] == y;
          assert h.parseTool(ts[i]) == Ok(y);
        }
      }
    }
  }

  /**
   * `tool_choice` is `undefined` unless tools remain and the prompt sets one; then it is
   * the provider-safe conversion of the parsed choice, `undefined` when that is `null`.
   */
  lemma ToolChoiceField(h: Helpers, p: Prompt, v: Variables)
    requires ToOpenAI(h, p, v).Some?
    ensures !ToolChoiceConsulted(h, p) ==> ToOpenAI(h, p, v).value["tool_choice"] == Undefined
    ensures ToOpenAI(h, p, v).value["tools"] == Undefined ==> ToOpenAI(h, p, v).value["tool_choice"] == Undefined
    ensures ToolChoiceConsulted(h, p) ==>
      h.parseToolChoice(p.tools.value.tool_choice).Ok? &&
      ToOpenAI(h, p, v).value["tool_choice"] == SafeToolChoice(h, h.parseToolChoice(p.tools.value.tool_choice).value)
  {
    ToOpenAISucceedsIff(h, p, v);
    ConvertSteps(h, p, v);
    ToolsField(h, p, v);
  }

  /** `response_format` is the parsed value when the prompt declares one, `undefined` otherwise. */
  lemma ResponseFormatField(h: Helpers, p: Prompt, v: Variables)
    requires ToOpenAI(h, p, v).Some?
    ensures Truthy(p.response_format) ==>
      h.parseResponseFormat(p.response_format).Ok? &&
      ToOpenAI(h, p, v).value["response_format"] == h.parseResponseFormat(p.response_format).value
    ensures !Truthy(p.response_format) ==> ToOpenAI(h, p, v).value["response_format"] == Undefined
  {
    ToOpenAISucceedsIff(h, p, v);
  }

  /** When no tool remains, neither the tool-choice parser nor the provider-safe conversion can change the result. */
  lemma ToolChoiceIgnoredWithoutTools(h: Helpers, p: Prompt, v: Variables,
                                      parseChoice: Json -> Result<Json>, safe: (Json, string) -> Json)
    requires !ToolsRemain(h, p)
    ensures ToOpenAI(h, p, v) == ToOpenAI(h.(parseToolChoice := parseChoice, safelyConvertToolChoice := safe), p, v)
  {
    var h' := h.(parseToolChoice := parseChoice, safelyConvertToolChoice := safe);
    if p.tools.Some? && forall i :: 0 <= i < |p.tools.value.tools| ==> h.parseTool(p.tools.value.tools[i]).Ok? {
      ConvertToolsPresence(h, p);
    }
    assert ConvertTools(h, p.tools) == ConvertTools(h', p.tools);
  }

  /** A convertible tool next to a non-convertible one: the conversion keeps exactly the convertible one. */
  lemma NonConvertibleToolIsDropped(h: Helpers, p: Prompt, v: Variables, kept: Json, dropped: Json, openAITool: Json)
    requires p.tools.Some? && p.tools.value.tools == [kept, dropped]
    requires openAITool != Null
    requires h.parseTool(kept) == Ok(openAITool) && h.parseTool(dropped) == Ok(Null)
    requires ToOpenAI(h, p, v).Some?
    ensures ToOpenAI(h, p, v).value["tools"] == Arr([openAITool])
  {
    ToolsField(h, p, v);
    assert ToolsRemain(h, p) by {
      assert h.parseTool(p.tools.value.tools[0]) == Ok(openAITool);
    }
    var converted := ParseAll(h.parseTool, [kept, dropped]).value;
    assert converted == [openAITool, Null];
    assert DropNull(converted) == [openAITool] by {
      assert DropNull(converted[1..][1..]) == [];
    }
  }

  /** A `model` key in `invocation_parameters` wins over `model_name`: the spread comes second. */
  lemma ModelKeyOverridesModelName(h: Helpers, p: Prompt, v: Variables)
    requires p.model_name == "y" && p.invocation_parameters == map["model" := Str("x")]
    requires ToOpenAI(h, p, v).Some?
    ensures ToOpenAI(h, p, v).value["model"] == Str("x")
  {
  }
}
