/** The Claude service: the page-snapshot prompt block (formatPageData), the
    message list sent to the model and the extraction of its answer
    (sendToClaude, with the SDK call as a parameter), and the price of a
    call (calculateCost, with the prices of server/src/types/index.ts). */
module ClaudeService {
  import opened Wrappers
  import opened Strings
  import opened PageTypes
  import opened PageFormat

  const MODEL := "claude-sonnet-4-20250514"
  const MAX_TOKENS: nat := 2048
  const SYSTEM_PROMPT: string :=
    "Ты - эксперт-аналитик для продавцов на маркетплейсе Ozon. Твоя задача - анализировать данные со страницы аналитики Ozon и отвечать на вопросы пользователя.\n"
    + "\n"
    + "Правила:\n"
    + "1. Отвечай на русском языке\n"
    + "2. Анализируй предоставленные данные и давай конкретные ответы\n"
    + "3. Если данных недостаточно, честно скажи об этом\n"
    + "4. Используй числа и проценты из данных, когда это уместно\n"
    + "5. Давай практические рекомендации продавцу\n"
    + "6. Будь кратким, но информативным\n"
    + "7. Выделяй ключевые показатели жирным шрифтом (используя **текст**)\n"
    + "8. Если видишь проблемы или аномалии в данных, указывай на них\n"
    + "\n"
    + "Ты работаешь в сервисе Ozon Analytics Assistant от @first_seller."

  /** CLAUDE_PRICES: dollars per million input / output tokens. */
  const INPUT_PER_MILLION: real := 15.0
  const OUTPUT_PER_MILLION: real := 75.0

  /** `parseFloat(process.env.PRICE_MULTIPLIER || '3')`, for an unset or numeric variable. */
  function Multiplier(env: Option<real>): (m: real)
    ensures env.None? ==> m == 3.0
    ensures env.Some? ==> m == env.value
    ensures (env.None? || env.value >= 0.0) ==> m >= 0.0
  {
    env.GetOr(3.0)
  }

  // ---------------------------------------------------------------------
  // calculateCost

  function CalculateCost(inputTokens: nat, outputTokens: nat, multiplier: real): (cost: real)
    ensures multiplier >= 0.0 ==> cost >= 0.0
    ensures inputTokens == 0 && outputTokens == 0 ==> cost == 0.0
  {
    var inputCost := (inputTokens as real / 1000000.0) * INPUT_PER_MILLION * multiplier;
    var outputCost := (outputTokens as real / 1000000.0) * OUTPUT_PER_MILLION * multiplier;
    inputCost + outputCost
  }

  /** The price in closed form: 15 dollars per million input tokens and 75
      per million output tokens, times the markup. */
  lemma CostClosedForm(inputTokens: nat, outputTokens: nat, multiplier: real)
    ensures CalculateCost(inputTokens, outputTokens, multiplier)
         == (15.0 * inputTokens as real + 75.0 * outputTokens as real) * multiplier / 1000000.0
  {
  }

  /** With PRICE_MULTIPLIER unset the markup is 3: 45 dollars per million
      input tokens and 225 per million output tokens. */
  lemma DefaultCost(inputTokens: nat, outputTokens: nat)
    ensures CalculateCost(inputTokens, outputTokens, Multiplier(None))
         == (45.0 * inputTokens as real + 225.0 * outputTokens as real) / 1000000.0
  {
    CostClosedForm(inputTokens, outputTokens, 3.0);
  }

  /** More tokens never cost less under a non-negative markup. */
  lemma CostMonotone(i1: nat, o1: nat, i2: nat, o2: nat, multiplier: real)
    requires i1 <= i2 && o1 <= o2 && multiplier >= 0.0
    ensures CalculateCost(i1, o1, multiplier) <= CalculateCost(i2, o2, multiplier)
  {
    CostClosedForm(i1, o1, multiplier);
    CostClosedForm(i2, o2, multiplier);
    var d := 15.0 * (i2 - i1) as real + 75.0 * (o2 - o1) as real;
    assert d >= 0.0;
    assert d * multiplier >= 0.0;
  }

  // ---------------------------------------------------------------------
  // sendToClaude

  /** A block of the model's answer. */
  datatype ContentBlock = TextBlock(text: string) | OtherBlock(kind: string)

  /** The arguments of `anthropic.messages.create`. */
  datatype SdkRequest = SdkRequest(model: string, maxTokens: nat, system: string, messages: seq<ChatMessage>)

  /** What the SDK returns: the answer blocks and the token usage. */
  datatype SdkMessage = SdkMessage(content: seq<ContentBlock>, inputTokens: nat, outputTokens: nat)

  datatype ClaudeResponse = ClaudeResponse(content: string, inputTokens: nat, outputTokens: nat)

  /** The content of the final user message: the page block, a rule, then the question. */
  function Question(formattedData: string, userMessage: string): (r: string)
    ensures StartsWith(r, formattedData)
    ensures r[|formattedData|..] == "\n\n---\n\n**Вопрос:** " + userMessage
  {
    formattedData + "\n\n---\n\n**Вопрос:** " + userMessage
  }

  /** The message list: the history unchanged and in order, then one user
      message holding the page block and the question. */
  method BuildMessages(userMessage: string, formattedData: string, chatHistory: seq<ChatMessage>)
    returns (messages: seq<ChatMessage>)
    ensures messages == chatHistory + [ChatMessage(UserTurn, Question(formattedData, userMessage))]
  {
    messages := [];
    var i := 0;
    while i < |chatHistory|
      invariant 0 <= i <= |chatHistory|
      invariant messages == chatHistory[..i]
    {
      messages := messages + [ChatMessage(chatHistory[i].role, chatHistory[i].content)];
      assert chatHistory[..i + 1] == chatHistory[..i] + [chatHistory[i]];
      i := i + 1;
    }
    assert chatHistory[..i] == chatHistory;
    messages := messages + [ChatMessage(UserTurn, Question(formattedData, userMessage))];
  }

  /** `response.content.find(c => c.type === 'text')`, its text or "". */
  function FirstText(blocks: seq<ContentBlock>): (r: string)
    ensures (forall j :: 0 <= j < |blocks| ==> !blocks[j].TextBlock?) ==> r == ""
    ensures forall i :: 0 <= i < |blocks| && blocks[i].TextBlock? && (forall j :: 0 <= j < i ==> !blocks[j].TextBlock?)
              ==> r == blocks[i].text
  {
    if blocks == [] then ""
    else if blocks[0].TextBlock? then blocks[0].text
    else FirstText(blocks[1..])
  }

  /** The request sent for a message, a page and a history. */
  function Request(userMessage: string, formattedData: string, chatHistory: seq<ChatMessage>): SdkRequest {
    SdkRequest(MODEL, MAX_TOKENS, SYSTEM_PROMPT,
      chatHistory + [ChatMessage(UserTurn, Question(formattedData, userMessage))])
  }

  /** sendToClaude with the SDK call as `sdk`; `None` from `sdk` is a thrown
      error, passed on to the caller as `None`. */
  method SendToClaude(userMessage: string, page: PageData, chatHistory: seq<ChatMessage>,
                      sdk: SdkRequest -> Option<SdkMessage>)
    returns (r: Option<ClaudeResponse>)
    ensures var sent := sdk(Request(userMessage, Formatted(page), chatHistory));
      && (r.None? <==> sent.None?)
      && (r.Some? ==> r.value == ClaudeResponse(FirstText(sent.value.content), sent.value.inputTokens, sent.value.outputTokens))
  {
    var formattedData := FormatPageData(page);
    var messages := BuildMessages(userMessage, formattedData, chatHistory);
    var response := sdk(SdkRequest(MODEL, MAX_TOKENS, SYSTEM_PROMPT, messages));
    if response.None? {
      return None;
    }
    var content := FirstText(response.value.content);
    r := Some(ClaudeResponse(content, response.value.inputTokens, response.value.outputTokens));
  }
}
