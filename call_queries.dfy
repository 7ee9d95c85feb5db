/**
 * The `experiments` and `calls` tables and their queries: `createExperiment`, the
 * `createCall` upsert keyed by `vapi_call_id`, `listCalls` and `getCallStats`.
 */
module CallQueries {
  import opened Wrappers
  import opened JsonValue
  import Recency

  /** The agent_a_* (or agent_b_*) columns of a call. */
  datatype AgentFields = AgentFields(
    assistantId: Option<string>,
    voiceProvider: Option<string>,
    voiceId: Option<string>,
    modelProvider: Option<string>,
    model: Option<string>,
    prompt: Option<string>)

  const NoAgentFields := AgentFields(None, None, None, None, None, None)

  /**
   * The parameters of `createCall`, and equally the column values of a stored call
   * (a stored `None` is SQL NULL). Start and end times are epoch milliseconds.
   */
  datatype CallFields = CallFields(
    vapiCallId: string,
    experimentId: Option<string>,
    topic: Option<string>,
    agentA: AgentFields,
    agentB: AgentFields,
    status: Option<string>,
    endedReason: Option<string>,
    startedAt: Option<int>,
    endedAt: Option<int>,
    durationSeconds: Option<int>,
    transcript: Option<string>,
    messages: Option<Json>,
    recordingUrl: Option<string>,
    cost: Option<real>,
    costBreakdown: Option<Json>,
    rawPayload: Option<Json>)

  /** A row of `calls`: its generated id, its columns, and NOW() at insert and at the last write. */
  datatype CallRow = CallRow(id: nat, cols: CallFields, createdAt: nat, updatedAt: nat)

  datatype Experiment = Experiment(id: string, name: string, description: Option<string>, createdAt: nat)

  datatype StoreError = UniqueViolation

  /** The row of the VALUES list: the inserted row, and the EXCLUDED row on a conflict. */
  function Proposed(p: CallFields): CallFields {
    p.(messages := StoredJson(p.messages),
       costBreakdown := StoredJson(p.costBreakdown),
       rawPayload := StoredJson(p.rawPayload))
  }

  /** assistant id and prompt are not in the SET list; the other four agent columns coalesce. */
  function MergeAgent(stored: AgentFields, incoming: AgentFields): AgentFields {
    AgentFields(
      stored.assistantId,
      Coalesce(incoming.voiceProvider, stored.voiceProvider),
      Coalesce(incoming.voiceId, stored.voiceId),
      Coalesce(incoming.modelProvider, stored.modelProvider),
      Coalesce(incoming.model, stored.model),
      stored.prompt)
  }

  /** `DO UPDATE SET col = COALESCE(EXCLUDED.col, calls.col)` for the 19 listed columns. */
  function MergeColumns(stored: CallFields, p: CallFields): CallFields {
    var e := Proposed(p);
    CallFields(
      stored.vapiCallId,
      stored.experimentId,
      stored.topic,
      MergeAgent(stored.agentA, e.agentA),
      MergeAgent(stored.agentB, e.agentB),
      Coalesce(e.status, stored.status),
      Coalesce(e.endedReason, stored.endedReason),
      Coalesce(e.startedAt, stored.startedAt),
      Coalesce(e.endedAt, stored.endedAt),
      Coalesce(e.durationSeconds, stored.durationSeconds),
      Coalesce(e.transcript, stored.transcript),
      Coalesce(e.messages, stored.messages),
      Coalesce(e.recordingUrl, stored.recordingUrl),
      Coalesce(e.cost, stored.cost),
      Coalesce(e.costBreakdown, stored.costBreakdown),
      Coalesce(e.rawPayload, stored.rawPayload))
  }

  /** The `calls` table after `createCall(p)`, with `newId` the generated id and `now` the value of NOW(). */
  function Upsert(calls: map<string, CallRow>, p: CallFields, newId: nat, now: nat): map<string, CallRow> {
    var k := p.vapiCallId;
    if k in calls then
      calls[k := calls[k].(cols := MergeColumns(calls[k].cols, p), updatedAt := now)]
    else
      calls[k := CallRow(newId, Proposed(p), now, now)]
  }

  /** Each row sits under its own `vapi_call_id`. */
  ghost predicate WellKeyed(calls: map<string, CallRow>) {
    forall k :: k in calls ==> calls[k].cols.vapiCallId == k
  }

  /** The table invariant: well keyed, ids drawn below `nextId` and distinct, times before `clock`. */
  ghost predicate WellFormed(calls: map<string, CallRow>, nextId: nat, clock: nat) {
    && WellKeyed(calls)
    && (forall k :: k in calls ==> calls[k].id < nextId && calls[k].createdAt <= calls[k].updatedAt < clock)
    && (forall j, k :: j in calls && k in calls && j != k ==> calls[j].id != calls[k].id)
  }

  // ---------------------------------------------------------------------------
  // Properties of the upsert

  /** After `createCall` there is exactly one row for the key; every other row is as it was. */
  lemma UpsertKeys(calls: map<string, CallRow>, p: CallFields, newId: nat, now: nat)
    requires WellKeyed(calls)
    ensures var r := Upsert(calls, p, newId, now);
      && r.Keys == calls.Keys + {p.vapiCallId}
      && WellKeyed(r)
      && (forall k :: k in calls && k != p.vapiCallId ==> r[k] == calls[k])
      && (p.vapiCallId in calls ==>
            r[p.vapiCallId].id == calls[p.vapiCallId].id && r[p.vapiCallId].createdAt == calls[p.vapiCallId].createdAt)
      && (p.vapiCallId !in calls ==> r[p.vapiCallId].id == newId)
  {
  }

  /** The upsert keeps the table invariant when it draws a fresh id and reads the clock. */
  lemma UpsertWellFormed(calls: map<string, CallRow>, p: CallFields, nextId: nat, clock: nat)
    requires WellFormed(calls, nextId, clock)
    ensures WellFormed(Upsert(calls, p, nextId, clock), nextId + 1, clock + 1)
  {
  }

  /**
   * An insert stores every parameter as given, absent ones as NULL (so a cost or
   * duration of 0 is kept), except the three JSON columns, which are NULL when falsy.
   */
  lemma InsertStoresParams(calls: map<string, CallRow>, p: CallFields, newId: nat, now: nat)
    requires p.vapiCallId !in calls
    ensures var row := Upsert(calls, p, newId, now)[p.vapiCallId];
      && row.cols.(messages := p.messages, costBreakdown := p.costBreakdown, rawPayload := p.rawPayload) == p
      && (row.cols.messages.Some? <==> p.messages.Some? && Truthy(p.messages.value))
      && (row.cols.costBreakdown.Some? <==> p.costBreakdown.Some? && Truthy(p.costBreakdown.value))
      && (row.cols.rawPayload.Some? <==> p.rawPayload.Some? && Truthy(p.rawPayload.value))
      && (row.cols.messages.Some? ==> row.cols.messages == p.messages)
      && (row.cols.costBreakdown.Some? ==> row.cols.costBreakdown == p.costBreakdown)
      && (row.cols.rawPayload.Some? ==> row.cols.rawPayload == p.rawPayload)
      && row.id == newId && row.createdAt == now && row.updatedAt == now
  {
  }

  /** No column that had a value loses it in a merge (a NULL or absent field never erases data). */
  ghost predicate NothingErased(stored: CallFields, after: CallFields) {
    && (stored.agentA.voiceProvider.Some? ==> after.agentA.voiceProvider.Some?)
    && (stored.agentA.voiceId.Some? ==> after.agentA.voiceId.Some?)
    && (stored.agentA.modelProvider.Some? ==> after.agentA.modelProvider.Some?)
    && (stored.agentA.model.Some? ==> after.agentA.model.Some?)
    && (stored.agentB.voiceProvider.Some? ==> after.agentB.voiceProvider.Some?)
    && (stored.agentB.voiceId.Some? ==> after.agentB.voiceId.Some?)
    && (stored.agentB.modelProvider.Some? ==> after.agentB.modelProvider.Some?)
    && (stored.agentB.model.Some? ==> after.agentB.model.Some?)
    && (stored.status.Some? ==> after.status.Some?)
    && (stored.endedReason.Some? ==> after.endedReason.Some?)
    && (stored.startedAt.Some? ==> after.startedAt.Some?)
    && (stored.endedAt.Some? ==> after.endedAt.Some?)
    && (stored.durationSeconds.Some? ==> after.durationSeconds.Some?)
    && (stored.transcript.Some? ==> after.transcript.Some?)
    && (stored.messages.Some? ==> after.messages.Some?)
    && (stored.recordingUrl.Some? ==> after.recordingUrl.Some?)
    && (stored.cost.Some? ==> after.cost.Some?)
    && (stored.costBreakdown.Some? ==> after.costBreakdown.Some?)
    && (stored.rawPayload.Some? ==> after.rawPayload.Some?)
  }

  /** Every one of the 19 SET columns supplied with a value (a truthy one, for JSON) takes that value. */
  ghost predicate SuppliedValuesWin(p: CallFields, after: CallFields) {
    && (p.agentA.voiceProvider.Some? ==> after.agentA.voiceProvider == p.agentA.voiceProvider)
    && (p.agentA.voiceId.Some? ==> after.agentA.voiceId == p.agentA.voiceId)
    && (p.agentA.modelProvider.Some? ==> after.agentA.modelProvider == p.agentA.modelProvider)
    && (p.agentA.model.Some? ==> after.agentA.model == p.agentA.model)
    && (p.agentB.voiceProvider.Some? ==> after.agentB.voiceProvider == p.agentB.voiceProvider)
    && (p.agentB.voiceId.Some? ==> after.agentB.voiceId == p.agentB.voiceId)
    && (p.agentB.modelProvider.Some? ==> after.agentB.modelProvider == p.agentB.modelProvider)
    && (p.agentB.model.Some? ==> after.agentB.model == p.agentB.model)
    && (p.status.Some? ==> after.status == p.status)
    && (p.endedReason.Some? ==> after.endedReason == p.endedReason)
    && (p.startedAt.Some? ==> after.startedAt == p.startedAt)
    && (p.endedAt.Some? ==> after.endedAt == p.endedAt)
    && (p.durationSeconds.Some? ==> after.durationSeconds == p.durationSeconds)
    && (p.transcript.Some? ==> after.transcript == p.transcript)
    && (p.messages.Some? && Truthy(p.messages.value) ==> after.messages == p.messages)
    && (p.recordingUrl.Some? ==> after.recordingUrl == p.recordingUrl)
    && (p.cost.Some? ==> after.cost == p.cost)
    && (p.costBreakdown.Some? && Truthy(p.costBreakdown.value) ==> after.costBreakdown == p.costBreakdown)
    && (p.rawPayload.Some? && Truthy(p.rawPayload.value) ==> after.rawPayload == p.rawPayload)
  }

  /**
   * Every one of the 19 SET columns the patch leaves out (NULL, or falsy for JSON) keeps
   * its stored value: `COALESCE(EXCLUDED.col, calls.col)` with a NULL first argument.
   */
  ghost predicate AbsentKeepsStored(stored: CallFields, p: CallFields, after: CallFields) {
    && (p.agentA.voiceProvider.None? ==> after.agentA.voiceProvider == stored.agentA.voiceProvider)
    && (p.agentA.voiceId.None? ==> after.agentA.voiceId == stored.agentA.voiceId)
    && (p.agentA.modelProvider.None? ==> after.agentA.modelProvider == stored.agentA.modelProvider)
    && (p.agentA.model.None? ==> after.agentA.model == stored.agentA.model)
    && (p.agentB.voiceProvider.None? ==> after.agentB.voiceProvider == stored.agentB.voiceProvider)
    && (p.agentB.voiceId.None? ==> after.agentB.voiceId == stored.agentB.voiceId)
    && (p.agentB.modelProvider.None? ==> after.agentB.modelProvider == stored.agentB.modelProvider)
    && (p.agentB.model.None? ==> after.agentB.model == stored.agentB.model)
    && (p.status.None? ==> after.status == stored.status)
    && (p.endedReason.None? ==> after.endedReason == stored.endedReason)
    && (p.startedAt.None? ==> after.startedAt == stored.startedAt)
    && (p.endedAt.None? ==> after.endedAt == stored.endedAt)
    && (p.durationSeconds.None? ==> after.durationSeconds == stored.durationSeconds)
    && (p.transcript.None? ==> after.transcript == stored.transcript)
    && (!(p.messages.Some? && Truthy(p.messages.value)) ==> after.messages == stored.messages)
    && (p.recordingUrl.None? ==> after.recordingUrl == stored.recordingUrl)
    && (p.cost.None? ==> after.cost == stored.cost)
    && (!(p.costBreakdown.Some? && Truthy(p.costBreakdown.value)) ==> after.costBreakdown == stored.costBreakdown)
    && (!(p.rawPayload.Some? && Truthy(p.rawPayload.value)) ==> after.rawPayload == stored.rawPayload)
  }

  /**
   * On a conflict each SET column takes the supplied value when there is one and keeps
   * the stored one otherwise, so nothing stored is ever erased.
   */
  lemma ConflictCoalesces(calls: map<string, CallRow>, p: CallFields, newId: nat, now: nat)
    requires p.vapiCallId in calls
    ensures var stored, after := calls[p.vapiCallId].cols, Upsert(calls, p, newId, now)[p.vapiCallId].cols;
      && NothingErased(stored, after)
      && SuppliedValuesWin(p, after)
      && AbsentKeepsStored(stored, p, after)
  {
  }

  /**
   * On a conflict the six insert-only columns (experiment_id, topic, agent_a/b_assistant_id,
   * agent_a/b_prompt) keep their stored values whatever the patch says.
   */
  lemma ConflictKeepsInsertOnly(calls: map<string, CallRow>, p: CallFields, newId: nat, now: nat)
    requires p.vapiCallId in calls
    ensures var stored, after := calls[p.vapiCallId].cols, Upsert(calls, p, newId, now)[p.vapiCallId].cols;
      && after.vapiCallId == stored.vapiCallId
      && after.experimentId == stored.experimentId
      && after.topic == stored.topic
      && after.agentA.assistantId == stored.agentA.assistantId
      && after.agentA.prompt == stored.agentA.prompt
      && after.agentB.assistantId == stored.agentB.assistantId
      && after.agentB.prompt == stored.agentB.prompt
  {
  }

  /** Applying the same patch twice gives the table applying it once gives, but for `updated_at`. */
  lemma UpsertIdempotent(calls: map<string, CallRow>, p: CallFields, id1: nat, now1: nat, id2: nat, now2: nat)
    ensures var once := Upsert(calls, p, id1, now1);
      Upsert(once, p, id2, now2) == once[p.vapiCallId := once[p.vapiCallId].(updatedAt := now2)]
  {
    var k := p.vapiCallId;
    var once := Upsert(calls, p, id1, now1);
    MergeIdempotent(once[k].cols, p);
    if k !in calls {
      MergeIntoProposed(p);
    }
  }

  lemma MergeIdempotent(c: CallFields, p: CallFields)
    ensures MergeColumns(MergeColumns(c, p), p) == MergeColumns(c, p)
  {
  }

  lemma MergeIntoProposed(p: CallFields)
    ensures MergeColumns(Proposed(p), p) == Proposed(p)
  {
  }

  // ---------------------------------------------------------------------------
  // The store

  class CallStore {
    var experiments: map<string, Experiment>
    var calls: map<string, CallRow>
    /** NOW(): advances on every write. */
    var clock: nat
    /** The id the next proposed call row is given. */
    var nextRowId: nat

    ghost predicate Valid()
      reads this
    {
      && (forall k :: k in experiments ==> experiments[k].id == k && experiments[k].createdAt < clock)
      && WellFormed(calls, nextRowId, clock)
    }

    constructor ()
      ensures Valid() && experiments == map[] && calls == map[]
    {
      experiments, calls := map[], map[];
      clock, nextRowId := 0, 0;
    }

    /** `createExperiment`: `id` is the generated key; a key already taken violates the primary key. */
    method CreateExperiment(id: string, name: string, description: Option<string>)
      returns (r: Result<Experiment, StoreError>)
      requires Valid()
      modifies this
      ensures Valid() && calls == old(calls) && nextRowId == old(nextRowId)
      ensures id in old(experiments) ==> r == Err(UniqueViolation) && experiments == old(experiments) && clock == old(clock)
      ensures id !in old(experiments) ==>
        && r == Ok(Experiment(id, name, description, old(clock)))
        && experiments == old(experiments)[id := r.value]
        && clock == old(clock) + 1
    {
      if id in experiments {
        r := Err(UniqueViolation);
      } else {
        r := Ok(Experiment(id, name, description, clock));
        experiments := experiments[id := r.value];
        clock := clock + 1;
      }
    }

    /** `createCall`: the upsert, returning the stored row (RETURNING *). */
    method CreateCall(p: CallFields) returns (row: CallRow)
      requires Valid()
      modifies this
      ensures Valid() && experiments == old(experiments)
      ensures calls == Upsert(old(calls), p, old(nextRowId), old(clock))
      ensures p.vapiCallId in calls && row == calls[p.vapiCallId]
      ensures clock == old(clock) + 1 && nextRowId == old(nextRowId) + 1
    {
      UpsertWellFormed(calls, p, nextRowId, clock);
      calls := Upsert(calls, p, nextRowId, clock);
      row := calls[p.vapiCallId];
      clock, nextRowId := clock + 1, nextRowId + 1;
    }
  }

  // ---------------------------------------------------------------------------
  // Read-only queries

  /** `if (experimentId)`: an absent or empty id selects every row. */
  predicate InExperiment(row: CallRow, experimentId: Option<string>) {
    experimentId.None? || experimentId.value == "" || row.cols.experimentId == experimentId
  }

  function MatchingKeys(calls: map<string, CallRow>, experimentId: Option<string>): set<string> {
    set k | k in calls && InExperiment(calls[k], experimentId)
  }

  /** The matching rows whose status is 'ended'. */
  function EndedKeys(calls: map<string, CallRow>, experimentId: Option<string>): set<string> {
    set k | k in calls && InExperiment(calls[k], experimentId) && calls[k].cols.status == Some("ended")
  }

  function CreatedAt(calls: map<string, CallRow>): map<string, nat> {
    map k | k in calls :: calls[k].createdAt
  }

  const DefaultLimit: nat := 100

  /**
   * `listCalls(experimentId, limit = 100)`: the matching rows newest first, at most `limit` of
   * them, and no matching row left out is newer than one returned.
   */
  ghost function ListCalls(calls: map<string, CallRow>, experimentId: Option<string>, limit: Option<nat>)
    : (rows: seq<CallRow>)
    requires WellKeyed(calls)
    ensures var n, m := limit.GetOr(DefaultLimit), |MatchingKeys(calls, experimentId)|;
      |rows| == if n < m then n else m
    ensures forall i :: 0 <= i < |rows| ==> rows[i] in calls.Values && InExperiment(rows[i], experimentId)
    ensures forall i, j :: 0 <= i < j < |rows| ==> rows[i].cols.vapiCallId != rows[j].cols.vapiCallId
    ensures forall i, j :: 0 <= i < j < |rows| ==> rows[i].createdAt >= rows[j].createdAt
    ensures forall k, i ::
      k in calls && InExperiment(calls[k], experimentId) && calls[k] !in rows && 0 <= i < |rows| ==>
        calls[k].createdAt <= rows[i].createdAt
  {
    var keys := NewestKeys(calls, experimentId, limit.GetOr(DefaultLimit));
    ListedRows(calls, experimentId, keys);
    Recency.RowsAt(calls, keys)
  }

  /** The keys of the `limit` newest matching rows, newest first. */
  ghost function NewestKeys(calls: map<string, CallRow>, experimentId: Option<string>, limit: nat): (keys: seq<string>)
    ensures var m := |MatchingKeys(calls, experimentId)|;
      |keys| == if limit < m then limit else m
    ensures forall i :: 0 <= i < |keys| ==> keys[i] in calls && InExperiment(calls[keys[i]], experimentId)
    ensures forall i, j :: 0 <= i < j < |keys| ==> keys[i] != keys[j]
    ensures forall i, j :: 0 <= i < j < |keys| ==> calls[keys[i]].createdAt >= calls[keys[j]].createdAt
    ensures forall k, i :: k in MatchingKeys(calls, experimentId) && k !in keys && 0 <= i < |keys| ==>
      calls[k].createdAt <= calls[keys[i]].createdAt
  {
    var created := CreatedAt(calls);
    assert forall k :: k in calls ==> created[k] == calls[k].createdAt;
    Recency.NewestFirst(created, MatchingKeys(calls, experimentId), limit)
  }

  /** What the ordering of the keys says about the rows listed under them. */
  lemma ListedRows(calls: map<string, CallRow>, experimentId: Option<string>, keys: seq<string>)
    requires WellKeyed(calls)
    requires forall i :: 0 <= i < |keys| ==> keys[i] in calls && InExperiment(calls[keys[i]], experimentId)
    requires forall i, j :: 0 <= i < j < |keys| ==> keys[i] != keys[j]
    requires forall i, j :: 0 <= i < j < |keys| ==> calls[keys[i]].createdAt >= calls[keys[j]].createdAt
    requires forall k, i :: k in MatchingKeys(calls, experimentId) && k !in keys && 0 <= i < |keys| ==>
      calls[k].createdAt <= calls[keys[i]].createdAt
    ensures var rows := Recency.RowsAt(calls, keys);
      && (forall i :: 0 <= i < |rows| ==> rows[i] in calls.Values && InExperiment(rows[i], experimentId))
      && (forall i, j :: 0 <= i < j < |rows| ==> rows[i].cols.vapiCallId != rows[j].cols.vapiCallId)
      && (forall i, j :: 0 <= i < j < |rows| ==> rows[i].createdAt >= rows[j].createdAt)
      && (forall k, i ::
            k in calls && InExperiment(calls[k], experimentId) && calls[k] !in rows && 0 <= i < |rows| ==>
              calls[k].createdAt <= rows[i].createdAt)
  {
    var rows := Recency.RowsAt(calls, keys);
    forall k, i | k in calls && InExperiment(calls[k], experimentId) && calls[k] !in rows && 0 <= i < |rows|
      ensures calls[k].createdAt <= rows[i].createdAt
    {
      assert k in MatchingKeys(calls, experimentId);
    }
  }

  datatype CallStats = CallStats(totalCalls: nat, uniqueTopics: nat, completedCalls: nat)

  /** The distinct non-NULL topics of the given rows (`COUNT(DISTINCT topic)`). */
  function TopicsOf(calls: map<string, CallRow>, keys: set<string>): set<string>
    requires keys <= calls.Keys
  {
    set k | k in keys && calls[k].cols.topic.Some? :: calls[k].cols.topic.value
  }

  /** There are no more distinct topics than rows. */
  lemma {:induction false} TopicsNoMoreThanRows(calls: map<string, CallRow>, keys: set<string>)
    requires keys <= calls.Keys
    ensures |TopicsOf(calls, keys)| <= |keys|
    decreases keys
  {
    if keys != {} {
      var k :| k in keys;
      var rest := keys - {k};
      TopicsNoMoreThanRows(calls, rest);
      var extra := if calls[k].cols.topic.Some? then {calls[k].cols.topic.value} else {};
      assert TopicsOf(calls, keys) == TopicsOf(calls, rest) + extra;
      Recency.SubsetNoLarger(TopicsOf(calls, keys), TopicsOf(calls, rest) + extra);
    }
  }

  /**
   * `getCallStats(experimentId)`: total, distinct topics and calls whose status is 'ended',
   * all over the experiment's rows when an id is given.
   */
  function GetCallStats(calls: map<string, CallRow>, experimentId: Option<string>): (s: CallStats)
    ensures s.totalCalls == |MatchingKeys(calls, experimentId)|
    ensures s.completedCalls == |EndedKeys(calls, experimentId)|
    ensures s.completedCalls <= s.totalCalls
    ensures s.uniqueTopics == |TopicsOf(calls, MatchingKeys(calls, experimentId))|
    ensures s.uniqueTopics <= s.totalCalls
  {
    var keys, ended := MatchingKeys(calls, experimentId), EndedKeys(calls, experimentId);
    Recency.SubsetNoLarger(ended, keys);
    TopicsNoMoreThanRows(calls, keys);
    CallStats(|keys|, |TopicsOf(calls, keys)|, |ended|)
  }
}
