/**
 * The webhook payloads of the Vapi voice platform, as the repository declares them
 * (the call, its artifact, and the union of message kinds), already parsed from JSON.
 */
module Vapi {
  import opened Wrappers
  import opened JsonValue

  datatype Voice = Voice(provider: string, voiceId: string)

  datatype Model = Model(provider: string, model: string)

  datatype Assistant = Assistant(id: Option<string>, voice: Option<Voice>, model: Option<Model>)

  datatype Recording = Recording(url: Option<string>)

  /** `messages` is the message log, kept as the JSON it arrived as. */
  datatype Artifact = Artifact(transcript: Option<string>, recording: Option<Recording>, messages: Option<Json>)

  datatype CallType = InboundPhoneCall | OutboundPhoneCall | WebCall

  /**
   * An ISO-8601 timestamp as sent (`text`) together with the epoch milliseconds
   * that `new Date(text).getTime()` gives for it.
   */
  datatype Timestamp = Timestamp(text: string, millis: int)

  /** Call metadata set by whoever initiated the call (string values only). */
  type Metadata = map<string, string>

  datatype Call = Call(
    id: string,
    callType: Option<CallType>,
    status: Option<string>,
    endedReason: Option<string>,
    cost: Option<real>,
    costBreakdown: Option<Json>,
    startedAt: Option<Timestamp>,
    endedAt: Option<Timestamp>,
    assistant: Option<Assistant>,
    assistantId: Option<string>,
    metadata: Option<Metadata>,
    artifact: Option<Artifact>)

  /**
   * One webhook message, told apart by its `type` field. `call` is optional because nothing
   * checks its presence before `call.id` is read; `raw` is the whole message object as received.
   * `Other` is every remaining type (transcript, tool-calls, ...).
   */
  datatype Message =
    | EndOfCallReport(call: Option<Call>, artifact: Option<Artifact>, endedReason: Option<string>, raw: Json)
    | StatusUpdate(status: string, call: Option<Call>)
    | AssistantRequest(call: Option<Call>)
    | Other(kind: string)

  /** The request body: a `{ message }` envelope, or something that is not one (bad JSON, no message). */
  datatype Body = Envelope(message: Message) | Malformed
}
