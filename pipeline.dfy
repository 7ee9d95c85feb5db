/**
 * How the pieces meet: the orchestrator pre-creates a row for a call it placed, then the
 * end-of-call report for the same call id is merged into that row.
 */
module Pipeline {
  import opened Wrappers
  import opened JsonValue
  import opened Vapi
  import opened CallQueries
  import Orchestrator
  import WebhooksSrc

  /**
   * Pre-create, then report: the topic, experiment and both prompts come from the pre-create
   * and survive whatever the report says; the status becomes the report's; the agent A assistant
   * id stays NULL, because the pre-create has none and the column is insert-only; the row keeps
   * its id and creation time.
   */
  lemma PreCreateThenReport(calls: map<string, CallRow>, topic: Orchestrator.Topic, experimentId: string,
                            call: Call, artifact: Option<Artifact>, endedReason: Option<string>, raw: Json,
                            id1: nat, now1: nat, id2: nat, now2: nat)
    requires WellKeyed(calls) && call.id !in calls
    ensures var created := Upsert(calls, Orchestrator.PreCreate(topic, experimentId, call.id), id1, now1);
      var reported := Upsert(created, WebhooksSrc.NormaliseReport(call, artifact, endedReason, raw), id2, now2);
      var row := reported[call.id];
      && reported.Keys == calls.Keys + {call.id}
      && row.id == id1 && row.createdAt == now1 && row.updatedAt == now2
      && row.cols.topic == Some(topic.topic)
      && row.cols.experimentId == Some(experimentId)
      && row.cols.agentA.prompt == Some(topic.promptA)
      && row.cols.agentB.prompt == Some(topic.promptB)
      && row.cols.status == Some(call.status.GetOr("ended"))
      && row.cols.agentA.assistantId.None? && row.cols.agentB.assistantId.None?
      && row.cols.transcript == WebhooksSrc.NormaliseReport(call, artifact, endedReason, raw).transcript
      && row.cols.durationSeconds == WebhooksSrc.CalculateDuration(call.startedAt, call.endedAt)
  {
    var pre := Orchestrator.PreCreate(topic, experimentId, call.id);
    var created := Upsert(calls, pre, id1, now1);
    UpsertKeys(calls, pre, id1, now1);
    InsertStoresParams(calls, pre, id1, now1);
    var patch := WebhooksSrc.NormaliseReport(call, artifact, endedReason, raw);
    UpsertKeys(created, patch, id2, now2);
    ConflictKeepsInsertOnly(created, patch, id2, now2);
  }

  /**
   * The orchestrator always sends `agentRole: "A"`: when the platform echoes its metadata back,
   * the report is classified as Agent A's, fills the agent A columns, and carries the same topic
   * and experiment id.
   */
  lemma EchoedMetadataIsAgentA(call: Call, topic: Orchestrator.Topic, experimentId: string,
                               artifact: Option<Artifact>, endedReason: Option<string>, raw: Json)
    requires call.metadata == Some(Orchestrator.RequestMetadata(topic, experimentId))
    ensures WebhooksSrc.IsAgentA(call)
    ensures var p := WebhooksSrc.NormaliseReport(call, artifact, endedReason, raw);
      && p.agentA == WebhooksSrc.ReportedAgent(call) && p.agentB == NoAgentFields
      && p.topic == Some(topic.topic) && p.experimentId == Some(experimentId)
  {
  }

  /**
   * The two writes do not commute: a report that lands before the pre-create leaves the row's
   * prompts NULL (they are insert-only), and the pre-create then turns its status back to
   * "initiated".
   */
  lemma ReportBeforePreCreate(calls: map<string, CallRow>, topic: Orchestrator.Topic, experimentId: string,
                              call: Call, artifact: Option<Artifact>, endedReason: Option<string>, raw: Json,
                              id1: nat, now1: nat, id2: nat, now2: nat)
    requires WellKeyed(calls) && call.id !in calls
    ensures var reported := Upsert(calls, WebhooksSrc.NormaliseReport(call, artifact, endedReason, raw), id1, now1);
      var created := Upsert(reported, Orchestrator.PreCreate(topic, experimentId, call.id), id2, now2);
      var row := created[call.id];
      && row.cols.agentA.prompt.None? && row.cols.agentB.prompt.None?
      && row.cols.status == Some("initiated")
      && row.cols.topic == WebhooksSrc.NormaliseReport(call, artifact, endedReason, raw).topic
  {
    var patch := WebhooksSrc.NormaliseReport(call, artifact, endedReason, raw);
    var reported := Upsert(calls, patch, id1, now1);
    UpsertKeys(calls, patch, id1, now1);
    var pre := Orchestrator.PreCreate(topic, experimentId, call.id);
    ConflictKeepsInsertOnly(reported, pre, id2, now2);
    ConflictCoalesces(reported, pre, id2, now2);
  }
}
