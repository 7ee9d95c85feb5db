/** The JSON replies the webhook endpoint sends back, with their HTTP status. */
module WebhookReplies {

  /** The assistant configuration returned inline when no assistant id is configured. */
  datatype InlineAssistant = InlineAssistant(
    firstMessage: string,
    modelProvider: string,
    model: string,
    systemPrompt: string,
    voiceProvider: string,
    voiceId: string)

  datatype ReplyBody =
    | CallSaved(callId: nat)                    // { success: true, callId }
    | Acknowledged(message: string)             // { success: true, message }
    | StatusEcho(status: string)                // { success: true, status }
    | AssistantById(assistantId: string)        // { assistantId }
    | AssistantInline(assistant: InlineAssistant) // { assistant: { ... } }
    | ServerError(error: string)                // { error }

  datatype Reply = Reply(httpStatus: nat, body: ReplyBody)

  /** What the catch block at the dispatch boundary answers for any thrown error. */
  const InternalError := Reply(500, ServerError("Internal server error"))

  /** A 200 reply with the given body. */
  function Success(body: ReplyBody): Reply {
    Reply(200, body)
  }
}
