/**
 * The compiled webhook receiver: the same end-of-call normaliser as `WebhooksSrc`, plus
 * handlers for status updates and assistant requests and a different default reply.
 */
module WebhooksDist {
  import opened Wrappers
  import opened JsonValue
  import opened Vapi
  import opened CallQueries
  import opened WebhookReplies
  import Src = WebhooksSrc

  /**
   * `handleEndOfCallReport`'s patch in this variant. The voice, model, duration and role
   * helpers are textually the same as the other variant's and are shared with it.
   */
  function NormaliseReport(call: Call, artifact: Option<Artifact>, endedReason: Option<string>, raw: Json): CallFields {
    var md := call.metadata.GetOr(map[]);
    var voice, model := Src.ExtractVoiceInfo(call), Src.ExtractModelInfo(call);
    var isAgentA := Src.Lookup(md, "agentRole") == Some("A") || call.callType == Some(OutboundPhoneCall);
    var agent := AgentFields(
      assistantId := Coalesce(call.assistantId, if call.assistant.Some? then call.assistant.value.id else None),
      voiceProvider := voice.voiceProvider,
      voiceId := voice.voiceId,
      modelProvider := model.modelProvider,
      model := model.model,
      prompt := None);
    CallFields(
      vapiCallId := call.id,
      experimentId := Src.Lookup(md, "experimentId"),
      topic := Src.Lookup(md, "topic"),
      agentA := if isAgentA then agent else NoAgentFields,
      agentB := if isAgentA then NoAgentFields else agent,
      status := Some(call.status.GetOr("ended")),
      endedReason := Coalesce(call.endedReason, endedReason),
      startedAt := if Src.Falsy(call.startedAt) then None else Some(call.startedAt.value.millis),
      endedAt := if Src.Falsy(call.endedAt) then None else Some(call.endedAt.value.millis),
      durationSeconds := Src.CalculateDuration(call.startedAt, call.endedAt),
      transcript := Coalesce(Src.TranscriptOf(artifact), Src.TranscriptOf(call.artifact)),
      messages := Coalesce(Src.MessagesOf(artifact), Src.MessagesOf(call.artifact)),
      recordingUrl := Coalesce(Src.RecordingUrlOf(artifact), Src.RecordingUrlOf(call.artifact)),
      cost := call.cost,
      costBreakdown := call.costBreakdown,
      rawPayload := Some(raw))
  }

  /** Both variants build the same patch from every report. */
  lemma NormaliserMatchesSrc(call: Call, artifact: Option<Artifact>, endedReason: Option<string>, raw: Json)
    ensures NormaliseReport(call, artifact, endedReason, raw) == Src.NormaliseReport(call, artifact, endedReason, raw)
  {
  }

  /** `handleStatusUpdate`: echoes the status; reading the id of a missing call throws, giving a 500. */
  function HandleStatusUpdate(status: string, call: Option<Call>): (r: Reply)
    ensures r.httpStatus == 200 <==> call.Some?
    ensures call.Some? ==> r.body == StatusEcho(status)
    ensures call.None? ==> r == InternalError
  {
    if call.None? then InternalError else Success(StatusEcho(status))
  }

  /** The transient assistant returned when no assistant id is configured. */
  const DefaultAssistant := InlineAssistant(
    firstMessage := "Hello, I'm ready to have a conversation with you.",
    modelProvider := "openai",
    model := "gpt-4o",
    systemPrompt := "You are a helpful AI assistant having a phone conversation. Be natural, engaging, and concise.",
    voiceProvider := "11labs",
    voiceId := "21m00Tcm4TlvDq8ikWAM")

  /**
   * `handleAssistantRequest`, given the `ASSISTANT_B_ID` setting: the configured id when it is
   * set and non-empty, the transient default assistant otherwise; a missing call is a 500.
   */
  function HandleAssistantRequest(assistantBId: Option<string>, call: Option<Call>): (r: Reply)
    ensures call.None? ==> r == InternalError
    ensures call.Some? && assistantBId.Some? && assistantBId.value != "" ==>
      r == Success(AssistantById(assistantBId.value))
    ensures call.Some? && (assistantBId.None? || assistantBId.value == "") ==>
      r == Success(AssistantInline(DefaultAssistant))
  {
    if call.None? then InternalError
    else if assistantBId.Some? && assistantBId.value != "" then Success(AssistantById(assistantBId.value))
    else Success(AssistantInline(DefaultAssistant))
  }

  /**
   * `handleVapiWebhook`'s four-way switch on the message type: reports are saved, status
   * updates and assistant requests answered, and every other type acknowledged as received.
   */
  function Route(assistantBId: Option<string>, body: Body): (a: Src.Action)
    ensures a.Save? <==> body.Envelope? && body.message.EndOfCallReport? && body.message.call.Some?
    ensures a.Save? ==>
      var m := body.message;
      && a.patch == NormaliseReport(m.call.value, m.artifact, m.endedReason, m.raw)
      && a.patch == Src.NormaliseReport(m.call.value, m.artifact, m.endedReason, m.raw)
    ensures body.Malformed? ==> a == Src.Respond(InternalError)
    ensures body.Envelope? && body.message.EndOfCallReport? && body.message.call.None? ==> a == Src.Respond(InternalError)
    ensures body.Envelope? && body.message.StatusUpdate? ==>
      a == Src.Respond(HandleStatusUpdate(body.message.status, body.message.call))
    ensures body.Envelope? && body.message.AssistantRequest? ==>
      a == Src.Respond(HandleAssistantRequest(assistantBId, body.message.call))
    ensures body.Envelope? && body.message.Other? ==> a == Src.Respond(Success(Acknowledged("Event received")))
  {
    match body
    case Malformed => Src.Respond(InternalError)
    case Envelope(message) =>
      match message
      case EndOfCallReport(call, artifact, endedReason, raw) =>
        if call.None? then Src.Respond(InternalError)
        else
          NormaliserMatchesSrc(call.value, artifact, endedReason, raw);
          Src.Save(NormaliseReport(call.value, artifact, endedReason, raw))
      case StatusUpdate(status, call) => Src.Respond(HandleStatusUpdate(status, call))
      case AssistantRequest(call) => Src.Respond(HandleAssistantRequest(assistantBId, call))
      case Other(_) => Src.Respond(Success(Acknowledged("Event received")))
  }

  /**
   * The two variants agree on end-of-call reports and unreadable bodies and save in the same
   * cases. They differ on everything else: status updates and assistant requests are answered
   * here (a 500 when the call is missing) but only acknowledged as ignored by the TypeScript
   * handler, and other types get a different acknowledgement text.
   */
  lemma VariantsAgreeOnReports(assistantBId: Option<string>, body: Body)
    ensures body.Malformed? || body.message.EndOfCallReport? ==> Route(assistantBId, body) == Src.Route(body)
    ensures body.Envelope? && body.message.StatusUpdate? ==>
      && Route(assistantBId, body) == Src.Respond(HandleStatusUpdate(body.message.status, body.message.call))
      && Src.Route(body) == Src.Respond(Success(Acknowledged("Event ignored")))
    ensures body.Envelope? && body.message.AssistantRequest? ==>
      && Route(assistantBId, body) == Src.Respond(HandleAssistantRequest(assistantBId, body.message.call))
      && Src.Route(body) == Src.Respond(Success(Acknowledged("Event ignored")))
    ensures body.Envelope? && body.message.Other? ==>
      && Route(assistantBId, body).reply.body == Acknowledged("Event received")
      && Src.Route(body).reply.body == Acknowledged("Event ignored")
    ensures Route(assistantBId, body).Save? <==> Src.Route(body).Save?
  {
    if body.Envelope? && body.message.EndOfCallReport? && body.message.call.Some? {
      var m := body.message;
      NormaliserMatchesSrc(m.call.value, m.artifact, m.endedReason, m.raw);
    }
  }

  /** `handleVapiWebhook` of this variant; `saveFails` is the database refusing the write. */
  method HandleVapiWebhook(store: CallStore, assistantBId: Option<string>, body: Body, saveFails: bool)
    returns (reply: Reply)
    requires store.Valid()
    modifies store
    ensures store.Valid()
    ensures Route(assistantBId, body).Respond? ==> reply == Route(assistantBId, body).reply && unchanged(store)
    ensures Route(assistantBId, body).Save? && saveFails ==> reply == InternalError && unchanged(store)
    ensures Route(assistantBId, body).Save? && !saveFails ==>
      var p := Route(assistantBId, body).patch;
      && store.calls == Upsert(old(store.calls), p, old(store.nextRowId), old(store.clock))
      && store.experiments == old(store.experiments)
      && reply == Success(CallSaved(store.calls[p.vapiCallId].id))
  {
    match Route(assistantBId, body)
    case Respond(r) =>
      reply := r;
    case Save(p) =>
      if saveFails {
        reply := InternalError;
      } else {
        var saved := store.CreateCall(p);
        reply := Success(CallSaved(saved.id));
      }
  }
}
