/** `GeminiModel`: builds one text prompt from the system message and the
    conversation, sends it to the Gemini SDK, and answers tool requests with
    the same prompt. */
module Gemini {
  import opened PyValues

  /** A message is either a dict or a `Message` object with a `content`
      attribute. */
  datatype Message = DictMessage(fields: Dict) | ObjectMessage(content: Value)

  datatype ModelResponse = ModelResponse(content: string)

  const Provider: string := "gemini"
  const DefaultModelName: string := "gemini-2.0-flash"
  const DefaultTemperature: real := 0.0
  const DefaultMaxTokens: int := 4096

  /** The text a message adds to the prompt: a dict without "content"
      adds nothing but its newline; content that is not a string cannot be
      concatenated with "\n". */
  function Content(m: Message): (r: Result<string>)
    ensures r.Err? ==> r.error == TypeError
    ensures m.DictMessage? && "content" !in m.fields ==> r == Ok("")
  {
    var c := match m
      case DictMessage(fields) => Get(fields, "content", VStr(""))
      case ObjectMessage(v) => v;
    if c.VStr? then Ok(c.s) else Err(TypeError)
  }

  /** `system_message or ""`: None and "" are alike. */
  function SystemText(system: Option<string>): string {
    if system.Some? then system.value else ""
  }

  /** The prompt's first line, present only for a non-empty system message. */
  function Header(system: Option<string>): string {
    if SystemText(system) != "" then SystemText(system) + "\n" else ""
  }

  /** The prompt after the header, built message by message. */
  function Body(messages: seq<Message>): Result<string> {
    if messages == [] then Ok("")
    else
      match Body(messages[..|messages| - 1])
      case Err(e) => Err(e)
      case Ok(prefix) =>
        match Content(messages[|messages| - 1])
        case Err(e) => Err(e)
        case Ok(c) => Ok(prefix + c + "\n")
  }

  function Prompt(system: Option<string>, messages: seq<Message>): Result<string> {
    match Body(messages)
    case Err(e) => Err(e)
    case Ok(b) => Ok(Header(system) + b)
  }

  /** One line per text, in order: an independent, right-to-left definition
      of what the prompt body should be. */
  function Lines(texts: seq<string>): string {
    if texts == [] then "" else texts[0] + "\n" + Lines(texts[1..])
  }

  predicate AllText(messages: seq<Message>) {
    forall k :: 0 <= k < |messages| ==> Content(messages[k]).Ok?
  }

  function Texts(messages: seq<Message>): (r: seq<string>)
    requires AllText(messages)
    ensures |r| == |messages|
    ensures forall k :: 0 <= k < |messages| ==> r[k] == Content(messages[k]).value
  {
    seq(|messages|, k requires 0 <= k < |messages| => Content(messages[k]).value)
  }

  /** The generated text the SDK returns for model name, API key, system
      instruction and contents. */
  type Sdk = (string, Option<string>, string, string) -> string

  function AskSpec(sdk: Sdk, modelName: string, apiKey: Option<string>, system: Option<string>, messages: seq<Message>): Result<ModelResponse> {
    match Prompt(system, messages)
    case Err(e) => Err(e)
    case Ok(p) => Ok(ModelResponse(sdk(modelName, apiKey, SystemText(system), p)))
  }

  lemma {:induction false} LinesSnoc(texts: seq<string>, t: string)
    ensures Lines(texts + [t]) == Lines(texts) + t + "\n"
  {
    if texts == [] {
      assert [t][1..] == [];
      assert Lines([t]) == t + "\n" + "";
    } else {
      assert (texts + [t])[1..] == texts[1..] + [t];
      LinesSnoc(texts[1..], t);
      calc {
        Lines(texts + [t]);
        texts[0] + "\n" + Lines(texts[1..] + [t]);
        texts[0] + "\n" + (Lines(texts[1..]) + t + "\n");
        (texts[0] + "\n" + Lines(texts[1..])) + t + "\n";
      }
    }
  }

  /** When every message has text, the body is exactly one line per message,
      in message order. */
  lemma {:induction false} BodyIsLines(messages: seq<Message>)
    requires AllText(messages)
    ensures Body(messages) == Ok(Lines(Texts(messages)))
  {
    if messages != [] {
      var init := messages[..|messages| - 1];
      var last := messages[|messages| - 1];
      assert AllText(init) by {
        forall k | 0 <= k < |init| ensures Content(init[k]).Ok? {
          assert init[k] == messages[k];
        }
      }
      BodyIsLines(init);
      assert Texts(messages) == Texts(init) + [Content(last).value];
      LinesSnoc(Texts(init), Content(last).value);
    }
  }

  /** A message without text makes every longer conversation fail too. */
  lemma {:induction false} BodyErrPersists(messages: seq<Message>, i: nat)
    requires i <= |messages|
    requires Body(messages[..i]).Err?
    ensures Body(messages) == Body(messages[..i])
    decreases |messages|
  {
    if i < |messages| {
      var init := messages[..|messages| - 1];
      assert init[..i] == messages[..i];
      BodyErrPersists(init, i);
    } else {
      assert messages[..i] == messages;
    }
  }

  /** The prompt cannot be built exactly when some message has content that
      is not a string. */
  lemma {:induction false} BodyErrIff(messages: seq<Message>)
    ensures Body(messages).Err? <==> exists k :: 0 <= k < |messages| && Content(messages[k]).Err?
    ensures Body(messages).Err? ==> Body(messages).error == TypeError
  {
    if messages != [] {
      var init := messages[..|messages| - 1];
      var last := messages[|messages| - 1];
      BodyErrIff(init);
      if exists k :: 0 <= k < |init| && Content(init[k]).Err? {
        var k :| 0 <= k < |init| && Content(init[k]).Err?;
        assert messages[k] == init[k];
      }
      if exists k :: 0 <= k < |messages| && Content(messages[k]).Err? {
        var k :| 0 <= k < |messages| && Content(messages[k]).Err?;
        if k < |init| {
          assert init[k] == messages[k];
        }
      }
    }
  }

  /** A non-empty system message comes first, on its own line. */
  lemma PromptStartsWithSystem(system: Option<string>, messages: seq<Message>)
    requires Prompt(system, messages).Ok?
    ensures system.Some? && system.value != "" ==> system.value + "\n" <= Prompt(system, messages).value
    ensures system.None? || system.value == "" ==> Prompt(system, messages) == Body(messages)
  {
    if system.None? || system.value == "" {
      assert Header(system) + Body(messages).value == Body(messages).value;
    }
  }

  /** The prompt-building loop of `ask`: the system line when there is a
      non-empty system message, then each message's text and a newline. */
  method BuildPrompt(system: Option<string>, messages: seq<Message>) returns (r: Result<string>)
    ensures r == Prompt(system, messages)
  {
    var prompt := "";
    if system.Some? && system.value != "" {
      prompt := prompt + system.value + "\n";
    }
    ghost var body := "";
    var k := 0;
    while k < |messages|
      invariant 0 <= k <= |messages|
      invariant Body(messages[..k]) == Ok(body)
      invariant prompt == Header(system) + body
    {
      assert messages[..k + 1][..k] == messages[..k];
      var text := Content(messages[k]);
      if text.Err? {
        BodyErrPersists(messages, k + 1);
        return Err(text.error);
      }
      prompt := prompt + text.value + "\n";
      body := body + text.value + "\n";
      k := k + 1;
    }
    assert messages[..k] == messages;
    r := Ok(prompt);
  }

  class GeminiModel {
    const provider: string
    const modelName: string
    /** Read from GEMINI_API_KEY when the class is defined. */
    const apiKey: Option<string>
    const baseUrl: Option<string>
    const temperature: real
    const maxTokens: int

    /** `GeminiModel(model_name=...)`; without a model name, the class
        default. */
    constructor (modelName: Option<string>, apiKey: Option<string>)
      ensures provider == Provider && this.apiKey == apiKey
      ensures this.modelName == if modelName.Some? then modelName.value else DefaultModelName
      ensures baseUrl == None && temperature == DefaultTemperature && maxTokens == DefaultMaxTokens
    {
      provider := Provider;
      this.modelName := if modelName.Some? then modelName.value else DefaultModelName;
      this.apiKey := apiKey;
      baseUrl := None;
      temperature := DefaultTemperature;
      maxTokens := DefaultMaxTokens;
    }

    /** `ask(messages, system_message)`: the SDK receives the model name, the
        system instruction and the prompt of one line per message after an
        optional system line; temperature and max_tokens are not sent. */
    method Ask(sdk: Sdk, messages: seq<Message>, system: Option<string>) returns (r: Result<ModelResponse>)
      ensures r == AskSpec(sdk, modelName, apiKey, system, messages)
      ensures r.Err? <==> exists k :: 0 <= k < |messages| && Content(messages[k]).Err?
      ensures r.Err? ==> r.error == TypeError
      ensures AllText(messages) ==>
        r == Ok(ModelResponse(sdk(modelName, apiKey, SystemText(system), Header(system) + Lines(Texts(messages)))))
    {
      BodyErrIff(messages);
      if AllText(messages) {
        BodyIsLines(messages);
      }
      var prompt := BuildPrompt(system, messages);
      if prompt.Err? {
        return Err(prompt.error);
      }
      var systemInstruction := if system.Some? then system.value else "";
      var response := sdk(modelName, apiKey, systemInstruction, prompt.value);
      r := Ok(ModelResponse(response));
    }

    /** `ask_with_tools(...)`: tools and tool choice are ignored; the answer
        is the one `ask` gives for the same messages and system message. */
    method AskWithTools(sdk: Sdk, messages: seq<Message>, system: Option<string>, tools: Option<seq<Dict>>, toolChoice: string)
      returns (r: Result<ModelResponse>)
      ensures r == AskSpec(sdk, modelName, apiKey, system, messages)
      ensures r.Err? <==> exists k :: 0 <= k < |messages| && Content(messages[k]).Err?
    {
      r := Ask(sdk, messages, system);
    }
  }
}
