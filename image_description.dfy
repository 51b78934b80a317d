/** The image description tool: fetches an image, sends it with a question to a
    vision chat model and answers with the model's reply. The HTTP fetch, the base64
    encoder and the chat client are given to it as functions. */
module ImageDescription {
  import opened JsText
  import opened ToolCore

  newtype Byte = b: int | 0 <= b < 256

  datatype DescribeInput = DescribeInput(imageUrl: string, question: Option<string>)

  /** One part of a chat message's content. */
  datatype ContentPart = ImageUrlPart(url: string) | TextPart(text: string)

  datatype ChatMessage = ChatMessage(role: string, content: seq<ContentPart>)

  datatype ChatRequest = ChatRequest(modelId: string, messages: seq<ChatMessage>, maxTokens: nat)

  /** The chat answer's `result`, `result.choices`, `choices[i].message` and
      `message.content`, each of which may be missing. */
  datatype ChatResponse = ChatResponse(result: Option<ChatResult>)
  datatype ChatResult = ChatResult(choices: Option<seq<Choice>>)
  datatype Choice = Choice(message: Option<ChoiceMessage>)
  datatype ChoiceMessage = ChoiceMessage(content: Option<string>)

  const DefaultQuestion := "What is in the picture?"
  const ModelId := "meta-llama/llama-3-2-11b-vision-instruct"
  const MaxTokens: nat := 512
  const ErrorContext := "Error processing image with WatsonXAI: "
  const InvalidStructure := Failure(Error, "Invalid response structure from WatsonXAI.")
  const NoContent := Failure(Error, "WatsonXAI returned no content.")
  /** Reading `.message` of `choices[0]` when `choices` is empty. */
  const NoFirstChoice := Failure(TypeError, "Cannot read properties of undefined (reading 'message')")

  /** `input.question ?? DefaultQuestion`. */
  function Question(question: Option<string>): string {
    match question
    case None => DefaultQuestion
    case Some(q) => q
  }

  /** The request: one user turn holding the image as a JPEG data URL, then the question. */
  function BuildRequest(question: Option<string>, imageBase64: string): (req: ChatRequest)
    ensures |req.messages| == 1 && req.messages[0].role == "user"
    ensures |req.messages[0].content| == 2
    ensures req.messages[0].content[0].ImageUrlPart?
      && StartsWith(req.messages[0].content[0].url, "data:image/jpeg;base64,")
      && req.messages[0].content[0].url[|"data:image/jpeg;base64,"|..] == imageBase64
    ensures req.messages[0].content[1].TextPart?
    ensures question.None? ==> req.messages[0].content[1].text == DefaultQuestion
    ensures question.Some? ==> req.messages[0].content[1].text == question.value
  {
    var parts := [ImageUrlPart("data:image/jpeg;base64," + imageBase64), TextPart(Question(question))];
    ChatRequest(ModelId, [ChatMessage("user", parts)], MaxTokens)
  }

  /** The answer passes the structure check: it exists, and has `result` and `choices`. */
  predicate WellStructured(answer: Option<ChatResponse>) {
    answer.Some? && answer.value.result.Some? && answer.value.result.value.choices.Some?
  }

  /** The text of the first choice, if the answer has one that is not empty. */
  predicate HasContent(answer: Option<ChatResponse>) {
    WellStructured(answer)
    && |answer.value.result.value.choices.value| > 0
    && answer.value.result.value.choices.value[0].message.Some?
    && answer.value.result.value.choices.value[0].message.value.content.Some?
    && answer.value.result.value.choices.value[0].message.value.content.value != ""
  }

  /** The checks on the chat answer and the read of the first choice's content. */
  function ReadAnswer(answer: Option<ChatResponse>): (r: Outcome<string>)
    ensures r.Ok? <==> HasContent(answer)
    ensures r.Ok? ==> r.value == answer.value.result.value.choices.value[0].message.value.content.value
    ensures !WellStructured(answer) ==> r == Threw(InvalidStructure)
    ensures WellStructured(answer) && answer.value.result.value.choices.value == [] ==> r == Threw(NoFirstChoice)
    ensures WellStructured(answer) && answer.value.result.value.choices.value != [] && !HasContent(answer)
      ==> r == Threw(NoContent)
  {
    match answer
    case None => Threw(InvalidStructure)
    case Some(resp) =>
      match resp.result
      case None => Threw(InvalidStructure)
      case Some(result) =>
        match result.choices
        case None => Threw(InvalidStructure)
        case Some(choices) =>
          if |choices| == 0 then Threw(NoFirstChoice)
          else
            var content := match choices[0].message
              case None => None
              case Some(m) => m.content;
            if content.None? || content.value == "" then Threw(NoContent)
            else Ok(content.value)
  }

  /** The `try` block: fetch, encode, ask, read the answer. */
  function Attempt(input: DescribeInput, fetch: string -> Outcome<seq<Byte>>,
                    base64: seq<Byte> -> string,
                    chat: ChatRequest -> Outcome<Option<ChatResponse>>): Outcome<string>
  {
    match fetch(input.imageUrl)
    case Threw(e) => Threw(e)
    case Ok(bytes) =>
      match chat(BuildRequest(input.question, base64(bytes)))
      case Threw(e) => Threw(e)
      case Ok(answer) => ReadAnswer(answer)
  }

  /** `_run`: the first choice's content, unchanged; every failure of the fetch, of the
      chat call or of the answer's checks rewrapped as a `ToolInputValidationError`
      whose message starts "Error processing image with WatsonXAI: (". */
  function Run(input: DescribeInput, fetch: string -> Outcome<seq<Byte>>,
               base64: seq<Byte> -> string,
               chat: ChatRequest -> Outcome<Option<ChatResponse>>): (r: ToolResult)
    ensures r.Ok? <==>
      fetch(input.imageUrl).Ok?
      && chat(BuildRequest(input.question, base64(fetch(input.imageUrl).value))).Ok?
      && HasContent(chat(BuildRequest(input.question, base64(fetch(input.imageUrl).value))).value)
    ensures r.Ok? ==>
      var answer := chat(BuildRequest(input.question, base64(fetch(input.imageUrl).value))).value;
      r.value == answer.value.result.value.choices.value[0].message.value.content.value
    ensures r.Threw? ==>
      r.error.kind == ToolInputValidationError && StartsWith(r.error.message, "Error processing image with WatsonXAI: (")
  {
    match Attempt(input, fetch, base64, chat)
    case Ok(text) => Ok(text)
    case Threw(e) => Threw(Rewrap(ErrorContext, e))
  }

  /** A failed image fetch is reported with the fetch error's message, and the chat
      model is never asked: any other chat client gives the same result. */
  lemma FetchFailureReported(input: DescribeInput, fetch: string -> Outcome<seq<Byte>>,
                             base64: seq<Byte> -> string,
                             chat: ChatRequest -> Outcome<Option<ChatResponse>>,
                             otherChat: ChatRequest -> Outcome<Option<ChatResponse>>)
    requires fetch(input.imageUrl).Threw? && fetch(input.imageUrl).error.message != ""
    ensures Run(input, fetch, base64, chat) == Threw(Failure(ToolInputValidationError,
      "Error processing image with WatsonXAI: (" + fetch(input.imageUrl).error.message + ")"))
    ensures Run(input, fetch, base64, chat) == Run(input, fetch, base64, otherChat)
  {
  }

  /** An error thrown by the chat call keeps its description inside the rewrapped one. */
  lemma ChatFailureReported(input: DescribeInput, fetch: string -> Outcome<seq<Byte>>,
                            base64: seq<Byte> -> string,
                            chat: ChatRequest -> Outcome<Option<ChatResponse>>)
    requires fetch(input.imageUrl).Ok?
    requires chat(BuildRequest(input.question, base64(fetch(input.imageUrl).value))).Threw?
    ensures var req := BuildRequest(input.question, base64(fetch(input.imageUrl).value));
      Run(input, fetch, base64, chat) == Threw(Failure(ToolInputValidationError,
        "Error processing image with WatsonXAI: (" + Describe(chat(req).error) + ")"))
  {
  }

  /** An answer that fails the structure check, has no first choice, or has no
      content is reported with the matching message. */
  lemma AnswerFailureReported(input: DescribeInput, fetch: string -> Outcome<seq<Byte>>,
                              base64: seq<Byte> -> string,
                              chat: ChatRequest -> Outcome<Option<ChatResponse>>)
    requires fetch(input.imageUrl).Ok?
    requires var req := BuildRequest(input.question, base64(fetch(input.imageUrl).value));
      chat(req).Ok? && !HasContent(chat(req).value)
    ensures var answer := chat(BuildRequest(input.question, base64(fetch(input.imageUrl).value))).value;
      var m := if !WellStructured(answer) then "Invalid response structure from WatsonXAI."
        else if answer.value.result.value.choices.value == []
          then "Cannot read properties of undefined (reading 'message')"
        else "WatsonXAI returned no content.";
      Run(input, fetch, base64, chat)
        == Threw(Failure(ToolInputValidationError, "Error processing image with WatsonXAI: (" + m + ")"))
  {
  }
}
