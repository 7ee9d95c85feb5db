/**
 * The webhook receiver that handles only end-of-call reports: the normaliser that turns a
 * report into a `createCall` patch, and the dispatcher that saves it or ignores the event.
 */
module WebhooksSrc {
  import opened Wrappers
  import opened JsonValue
  import opened Vapi
  import opened CallQueries
  import opened WebhookReplies

  datatype VoiceInfo = VoiceInfo(voiceProvider: Option<string>, voiceId: Option<string>)

  datatype ModelInfo = ModelInfo(modelProvider: Option<string>, model: Option<string>)

  /** `extractVoiceInfo`: the assistant's voice; a missing assistant or voice gives absent fields. */
  function ExtractVoiceInfo(call: Call): (v: VoiceInfo)
    ensures v.voiceProvider.Some? <==> call.assistant.Some? && call.assistant.value.voice.Some?
    ensures v.voiceId.Some? <==> v.voiceProvider.Some?
    ensures v.voiceProvider.Some? ==>
      var voice := call.assistant.value.voice.value;
      v.voiceProvider.value == voice.provider && v.voiceId.value == voice.voiceId
  {
    var voice := if call.assistant.Some? then call.assistant.value.voice else None;
    match voice
    case Some(vc) => VoiceInfo(Some(vc.provider), Some(vc.voiceId))
    case None => VoiceInfo(None, None)
  }

  /** `extractModelInfo`: the assistant's model; a missing assistant or model gives absent fields. */
  function ExtractModelInfo(call: Call): (m: ModelInfo)
    ensures m.modelProvider.Some? <==> call.assistant.Some? && call.assistant.value.model.Some?
    ensures m.model.Some? <==> m.modelProvider.Some?
    ensures m.modelProvider.Some? ==>
      var model := call.assistant.value.model.value;
      m.modelProvider.value == model.provider && m.model.value == model.model
  {
    var model := if call.assistant.Some? then call.assistant.value.model else None;
    match model
    case Some(md) => ModelInfo(Some(md.provider), Some(md.model))
    case None => ModelInfo(None, None)
  }

  /** `!t`: a timestamp that is missing or the empty string. */
  predicate Falsy(t: Option<Timestamp>) {
    t.None? || t.value.text == ""
  }

  /** `Math.round(ms / 1000)`: the nearest whole second, a half rounded up (towards +infinity). */
  function RoundToSeconds(ms: int): (s: int)
    ensures 1000 * s - 500 <= ms < 1000 * s + 500
  {
    (ms + 500) / 1000
  }

  /**
   * `calculateDuration`: nothing when either timestamp is missing or empty, else the
   * whole seconds nearest to `end - start` (negative when the call ends before it starts).
   */
  function CalculateDuration(startedAt: Option<Timestamp>, endedAt: Option<Timestamp>): (d: Option<int>)
    ensures d.None? <==> Falsy(startedAt) || Falsy(endedAt)
    ensures d.Some? ==>
      var ms := endedAt.value.millis - startedAt.value.millis;
      1000 * d.value - 500 <= ms < 1000 * d.value + 500
  {
    if Falsy(startedAt) || Falsy(endedAt) then None
    else Some(RoundToSeconds(endedAt.value.millis - startedAt.value.millis))
  }

  /** Worked cases of the rounding: a half rounds up on both sides of zero. */
  lemma RoundingExamples()
    ensures RoundToSeconds(1500) == 2 && RoundToSeconds(-1500) == -1 && RoundToSeconds(90000) == 90
    ensures RoundToSeconds(1499) == 1 && RoundToSeconds(-1501) == -2 && RoundToSeconds(-500) == 0
  {
  }

  /** `metadata[key] as string | undefined`. */
  function Lookup(md: Metadata, key: string): Option<string> {
    if key in md then Some(md[key]) else None
  }

  /** The call's metadata, `{}` when it has none. */
  function MetadataOf(call: Call): Metadata {
    call.metadata.GetOr(map[])
  }

  /** `agentRole === "A" || call.type === "outboundPhoneCall"` */
  predicate IsAgentA(call: Call) {
    Lookup(MetadataOf(call), "agentRole") == Some("A") || call.callType == Some(OutboundPhoneCall)
  }

  /** The agent columns a report fills for the agent it is about: never the prompt. */
  function ReportedAgent(call: Call): AgentFields {
    var voice, model := ExtractVoiceInfo(call), ExtractModelInfo(call);
    AgentFields(
      assistantId := Coalesce(call.assistantId, if call.assistant.Some? then call.assistant.value.id else None),
      voiceProvider := voice.voiceProvider,
      voiceId := voice.voiceId,
      modelProvider := model.modelProvider,
      model := model.model,
      prompt := None)
  }

  function TranscriptOf(a: Option<Artifact>): Option<string> {
    if a.Some? then a.value.transcript else None
  }

  function MessagesOf(a: Option<Artifact>): Option<Json> {
    if a.Some? then a.value.messages else None
  }

  function RecordingUrlOf(a: Option<Artifact>): Option<string> {
    if a.Some? && a.value.recording.Some? then a.value.recording.value.url else None
  }

  /** `new Date(t)` of a truthy timestamp, as epoch milliseconds. */
  function TimeOf(t: Option<Timestamp>): Option<int> {
    if Falsy(t) then None else Some(t.value.millis)
  }

  /**
   * The patch `handleEndOfCallReport` builds from a report whose call is present
   * (`artifact`, `endedReason` and `raw` are the report's own fields and the report itself).
   */
  function NormaliseReport(call: Call, artifact: Option<Artifact>, endedReason: Option<string>, raw: Json): CallFields {
    var md := MetadataOf(call);
    var agent := ReportedAgent(call);
    CallFields(
      vapiCallId := call.id,
      experimentId := Lookup(md, "experimentId"),
      topic := Lookup(md, "topic"),
      agentA := if IsAgentA(call) then agent else NoAgentFields,
      agentB := if IsAgentA(call) then NoAgentFields else agent,
      status := Some(call.status.GetOr("ended")),
      endedReason := Coalesce(call.endedReason, endedReason),
      startedAt := TimeOf(call.startedAt),
      endedAt := TimeOf(call.endedAt),
      durationSeconds := CalculateDuration(call.startedAt, call.endedAt),
      transcript := Coalesce(TranscriptOf(artifact), TranscriptOf(call.artifact)),
      messages := Coalesce(MessagesOf(artifact), MessagesOf(call.artifact)),
      recordingUrl := Coalesce(RecordingUrlOf(artifact), RecordingUrlOf(call.artifact)),
      cost := call.cost,
      costBreakdown := call.costBreakdown,
      rawPayload := Some(raw))
  }

  // ---------------------------------------------------------------------------
  // Properties of the normaliser

  /**
   * A report is Agent A's exactly when its metadata says role "A" or the call is an outbound
   * phone call; the patch then fills the agent A columns, otherwise the agent B ones, never both,
   * and neither prompt.
   */
  lemma ReportFillsOneAgent(call: Call, artifact: Option<Artifact>, endedReason: Option<string>, raw: Json)
    ensures var p, agent := NormaliseReport(call, artifact, endedReason, raw), ReportedAgent(call);
      var roleA := Lookup(MetadataOf(call), "agentRole") == Some("A") || call.callType == Some(OutboundPhoneCall);
      && (roleA ==> p.agentA == agent && p.agentB == NoAgentFields)
      && (!roleA ==> p.agentB == agent && p.agentA == NoAgentFields)
      && p.agentA.prompt.None? && p.agentB.prompt.None?
  {
  }

  /** The assistant id is `call.assistantId`, falling back to the embedded assistant's id. */
  lemma ReportedAssistantId(call: Call)
    ensures call.assistantId.Some? ==> ReportedAgent(call).assistantId == call.assistantId
    ensures call.assistantId.None? && call.assistant.Some? ==> ReportedAgent(call).assistantId == call.assistant.value.id
    ensures call.assistantId.None? && call.assistant.None? ==> ReportedAgent(call).assistantId.None?
  {
  }

  /** A missing assistant, voice or model leaves the matching columns absent, never an error. */
  lemma MissingConfigGivesAbsentFields(call: Call)
    ensures var agent := ReportedAgent(call);
      && (call.assistant.None? ==>
            agent.voiceProvider.None? && agent.voiceId.None? && agent.modelProvider.None? && agent.model.None?)
      && (call.assistant.Some? && call.assistant.value.voice.None? ==> agent.voiceProvider.None? && agent.voiceId.None?)
      && (call.assistant.Some? && call.assistant.value.model.None? ==> agent.modelProvider.None? && agent.model.None?)
  {
  }

  /** The status is always set, to "ended" when the call has none; the call's ended reason wins over the report's. */
  lemma ReportStatusAndReason(call: Call, artifact: Option<Artifact>, endedReason: Option<string>, raw: Json)
    ensures var p := NormaliseReport(call, artifact, endedReason, raw);
      && p.status.Some?
      && (call.status.Some? ==> p.status == call.status)
      && (call.status.None? ==> p.status == Some("ended"))
      && (call.endedReason.Some? ==> p.endedReason == call.endedReason)
      && (call.endedReason.None? ==> p.endedReason == endedReason)
  {
  }

  /**
   * Transcript, message log and recording URL each come from the report's own artifact when it
   * has a value there (an empty string included), and from the call's artifact otherwise.
   */
  lemma ReportArtifactFallback(call: Call, artifact: Option<Artifact>, endedReason: Option<string>, raw: Json)
    ensures var p := NormaliseReport(call, artifact, endedReason, raw);
      && (artifact.Some? && artifact.value.transcript.Some? ==> p.transcript == artifact.value.transcript)
      && (TranscriptOf(artifact).None? ==> p.transcript == TranscriptOf(call.artifact))
      && (artifact.Some? && artifact.value.messages.Some? ==> p.messages == artifact.value.messages)
      && (MessagesOf(artifact).None? ==> p.messages == MessagesOf(call.artifact))
      && (artifact.Some? && artifact.value.recording.Some? && artifact.value.recording.value.url.Some? ==>
            p.recordingUrl == artifact.value.recording.value.url)
      && (RecordingUrlOf(artifact).None? ==> p.recordingUrl == RecordingUrlOf(call.artifact))
      && (p.transcript.None? <==> TranscriptOf(artifact).None? && TranscriptOf(call.artifact).None?)
  {
  }

  /**
   * The call id, topic and experiment id (absent without metadata or without the key), the times,
   * the cost and the whole report as raw payload are carried over; the duration is the computed
   * one, absent exactly when it cannot be computed.
   */
  lemma ReportCarriedFields(call: Call, artifact: Option<Artifact>, endedReason: Option<string>, raw: Json)
    ensures var p := NormaliseReport(call, artifact, endedReason, raw);
      && p.vapiCallId == call.id
      && (call.metadata.None? ==> p.topic.None? && p.experimentId.None?)
      && (call.metadata.Some? && "topic" in call.metadata.value ==> p.topic == Some(call.metadata.value["topic"]))
      && (call.metadata.Some? && "topic" !in call.metadata.value ==> p.topic.None?)
      && (call.metadata.Some? && "experimentId" in call.metadata.value ==>
            p.experimentId == Some(call.metadata.value["experimentId"]))
      && (call.metadata.Some? && "experimentId" !in call.metadata.value ==> p.experimentId.None?)
      && p.durationSeconds == CalculateDuration(call.startedAt, call.endedAt)
      && (p.durationSeconds.None? <==> Falsy(call.startedAt) || Falsy(call.endedAt))
      && (p.startedAt.Some? <==> !Falsy(call.startedAt))
      && (p.startedAt.Some? ==> p.startedAt.value == call.startedAt.value.millis)
      && (p.endedAt.Some? <==> !Falsy(call.endedAt))
      && (p.endedAt.Some? ==> p.endedAt.value == call.endedAt.value.millis)
      && p.cost == call.cost && p.costBreakdown == call.costBreakdown
      && p.rawPayload == Some(raw)
  {
  }

  // ---------------------------------------------------------------------------
  // Dispatch

  /** What the handler does with a body: answer at once, or save a patch and answer with the row id. */
  datatype Action = Respond(reply: Reply) | Save(patch: CallFields)

  /**
   * `handleVapiWebhook`'s case split. Only an end-of-call report whose call is present leads
   * to a write; any other type is acknowledged as ignored; an unreadable body, or a report
   * without a call (reading `call.id` throws), is a 500.
   */
  function Route(body: Body): (a: Action)
    ensures a.Save? <==> body.Envelope? && body.message.EndOfCallReport? && body.message.call.Some?
    ensures a.Save? ==> a.patch.vapiCallId == body.message.call.value.id
    ensures a.Save? ==>
      var m := body.message;
      a.patch == NormaliseReport(m.call.value, m.artifact, m.endedReason, m.raw)
    ensures body.Envelope? && body.message.EndOfCallReport? && body.message.call.None? ==> a == Respond(InternalError)
    ensures body.Envelope? && !body.message.EndOfCallReport? ==> a == Respond(Success(Acknowledged("Event ignored")))
    ensures body.Malformed? ==> a == Respond(InternalError)
  {
    match body
    case Malformed => Respond(InternalError)
    case Envelope(message) =>
      match message
      case EndOfCallReport(call, artifact, endedReason, raw) =>
        if call.None? then Respond(InternalError)
        else Save(NormaliseReport(call.value, artifact, endedReason, raw))
      case _ => Respond(Success(Acknowledged("Event ignored")))
  }

  /**
   * `handleVapiWebhook`: saves the patch when there is one. A failing save (`saveFails`,
   * the database refusing the statement) is rethrown and becomes a 500 with nothing written.
   */
  method HandleVapiWebhook(store: CallStore, body: Body, saveFails: bool) returns (reply: Reply)
    requires store.Valid()
    modifies store
    ensures store.Valid()
    ensures Route(body).Respond? ==> reply == Route(body).reply && unchanged(store)
    ensures Route(body).Save? && saveFails ==> reply == InternalError && unchanged(store)
    ensures Route(body).Save? && !saveFails ==>
      var p := Route(body).patch;
      && store.calls == Upsert(old(store.calls), p, old(store.nextRowId), old(store.clock))
      && store.experiments == old(store.experiments)
      && reply == Success(CallSaved(store.calls[p.vapiCallId].id))
  {
    match Route(body)
    case Respond(r) =>
      reply := r;
    case Save(p) =>
      if saveFails {
        reply := InternalError;
      } else {
        var saved := store.CreateCall(p);
        reply := Success(CallSaved(saved.id));
      }
  }
}
