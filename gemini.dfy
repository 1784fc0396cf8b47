/** The parts of a Gemini `generate_content` reply that the core inspects.
    A reply is an input to the model: nothing of the service is simulated. */
module Gemini {
  import opened Strings
  import opened Json

  /** A `function_call` part: the tool name and its (possibly absent) arguments. */
  datatype FunctionCall = FunctionCall(name: string, args: Option<map<string, Json>>)

  /** One element of `response.parts`. `functionCall` is `Some` exactly when
      `part.function_call` is truthy; a part without text has `text == ""`. */
  datatype Part = Part(text: string, functionCall: Option<FunctionCall>)

  /** A response: its parts, `response.text`, and the block reason of
      `response.prompt_feedback` rendered as text (`None` when there is no
      feedback or its reason is unset). */
  datatype Response = Response(parts: seq<Part>, text: string, blockReason: Option<string>)

  /** The outcome of one `generate_content` call: a response, or an exception
      with its `str(e)`. */
  datatype Reply = Replied(response: Response) | Raised(error: string)
}
