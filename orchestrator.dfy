/**
 * The batch orchestrator: configuration checks, topic selection, the request sent to place
 * each call, the pre-created row, and the sequential `runExperiment` loop with its counters.
 * The platform's answer to each call request is an input; the sleeps are recorded in a trace.
 */
module Orchestrator {
  import opened Wrappers
  import opened Text
  import opened Vapi
  import opened CallQueries

  /** A topic of the topic list (category and Agent B's first message play no part here). */
  datatype Topic = Topic(
    topic: string,
    promptA: string,
    promptB: string,
    firstMessageA: Option<string>,
    description: Option<string>)

  /** The four environment settings the orchestrator needs. */
  datatype Config = Config(apiKey: string, phoneAId: string, phoneBNumber: string, assistantAId: string)

  /** A JS string setting that is truthy: present and non-empty. */
  predicate Present(v: Option<string>) {
    v.Some? && v.value != ""
  }

  /** The start-up check: every setting must be truthy, otherwise the process exits. */
  function LoadConfig(apiKey: Option<string>, phoneAId: Option<string>, phoneBNumber: Option<string>,
                      assistantAId: Option<string>): (c: Option<Config>)
    ensures c.Some? <==> Present(apiKey) && Present(phoneAId) && Present(phoneBNumber) && Present(assistantAId)
    ensures c.Some? ==>
      && c.value.apiKey == apiKey.value && c.value.phoneAId == phoneAId.value
      && c.value.phoneBNumber == phoneBNumber.value && c.value.assistantAId == assistantAId.value
  {
    if Present(apiKey) && Present(phoneAId) && Present(phoneBNumber) && Present(assistantAId) then
      Some(Config(apiKey.value, phoneAId.value, phoneBNumber.value, assistantAId.value))
    else None
  }

  /** `DELAY_BETWEEN_CALLS_MS`: the pause between calls when the run is given none. */
  const DelayBetweenCallsMs: int := 10000

  // ---------------------------------------------------------------------------
  // Topic selection

  datatype SelectionError = TopicNotFound(name: string)

  /** `topics.filter(t => t.topic === name)` */
  function FilterByName(ts: seq<Topic>, name: string): (r: seq<Topic>)
    ensures |r| <= |ts|
    ensures forall t :: t in r <==> t in ts && t.topic == name
  {
    if |ts| == 0 then []
    else if ts[0].topic == name then [ts[0]] + FilterByName(ts[1..], name)
    else FilterByName(ts[1..], name)
  }

  /** Filtering keeps order and multiplicity: it distributes over concatenation. */
  lemma {:induction false} FilterByNameAppend(a: seq<Topic>, b: seq<Topic>, name: string)
    ensures FilterByName(a + b, name) == FilterByName(a, name) + FilterByName(b, name)
  {
    if |a| > 0 {
      assert (a + b)[1..] == a[1..] + b;
      FilterByNameAppend(a[1..], b, name);
    } else {
      assert a + b == b;
    }
  }

  /** `s.slice(0, end)`: a negative end counts from the back of the sequence. */
  function SliceTo<T>(s: seq<T>, end: int): seq<T> {
    if end >= 0 then s[..if end <= |s| then end else |s|]
    else s[..if |s| + end >= 0 then |s| + end else 0]
  }

  function Min(a: int, b: int): int {
    if a <= b then a else b
  }

  /**
   * Topic selection in `main`: a truthy `--topic` keeps the topics of exactly that name and
   * fails when there are none; a truthy limit (`None` is a missing or unparsable one) then keeps
   * a prefix, as `slice(0, limit)` does.
   */
  function SelectTopics(all: seq<Topic>, specific: Option<string>, limit: Option<int>): (r: Result<seq<Topic>, SelectionError>)
    ensures r.Err? <==> Present(specific) && forall t :: t in all ==> t.topic != specific.value
    ensures r.Ok? ==> forall t :: t in r.value ==> t in all
    ensures r.Ok? && Present(specific) ==> forall t :: t in r.value ==> t.topic == specific.value
    ensures r.Ok? ==>
      var base := if Present(specific) then FilterByName(all, specific.value) else all;
      && r.value <= base
      && ((limit.None? || limit.value == 0) ==> r.value == base)
      && (limit.Some? && limit.value > 0 ==> |r.value| == Min(limit.value, |base|))
      && (limit.Some? && limit.value < 0 ==> |r.value| == if |base| + limit.value >= 0 then |base| + limit.value else 0)
  {
    var base := if Present(specific) then FilterByName(all, specific.value) else all;
    if Present(specific) && |base| == 0 then
      assert forall t :: t in all ==> t.topic != specific.value by {
        forall t | t in all ensures t.topic != specific.value {
          assert t !in base;
        }
      }
      Err(TopicNotFound(specific.value))
    else
      assert Present(specific) ==> base[0] in all && base[0].topic == specific.value;
      Ok(if limit.Some? && limit.value != 0 then SliceTo(base, limit.value) else base)
  }

  // ---------------------------------------------------------------------------
  // Placing one call

  /** The body of the POST that places a call (the `name` field is left out). */
  datatype CallRequest = CallRequest(
    phoneNumberId: string,
    assistantId: string,
    customerNumber: string,
    modelProvider: string,
    model: string,
    systemPrompt: string,
    firstMessage: Option<string>,
    metadata: Metadata)

  /** The request metadata: what the platform is expected to echo back on the call. */
  function RequestMetadata(topic: Topic, experimentId: string): (md: Metadata)
    ensures "agentRole" in md && md["agentRole"] == "A"
    ensures "topic" in md && md["topic"] == topic.topic
    ensures "experimentId" in md && md["experimentId"] == experimentId
    ensures "promptA" in md && md["promptA"] == topic.promptA && "promptB" in md && md["promptB"] == topic.promptB
    ensures "description" in md <==> topic.description.Some?
    ensures topic.description.Some? ==> md["description"] == topic.description.value
    ensures md.Keys <= {"agentRole", "topic", "experimentId", "promptA", "promptB", "description"}
  {
    var md := map["topic" := topic.topic, "experimentId" := experimentId, "agentRole" := "A",
                  "promptA" := topic.promptA, "promptB" := topic.promptB];
    // JSON.stringify drops an undefined description.
    if topic.description.Some? then md["description" := topic.description.value] else md
  }

  /** `initiateCall`'s request: Agent A's phone and assistant, with the topic's prompt as the system message. */
  function BuildRequest(cfg: Config, topic: Topic, experimentId: string): (r: CallRequest)
    ensures r.phoneNumberId == cfg.phoneAId && r.assistantId == cfg.assistantAId && r.customerNumber == cfg.phoneBNumber
    ensures r.systemPrompt == topic.promptA && r.firstMessage == topic.firstMessageA
    ensures r.modelProvider == "openai" && r.model == "gpt-4o"
    ensures r.metadata == RequestMetadata(topic, experimentId)
  {
    CallRequest(cfg.phoneAId, cfg.assistantAId, cfg.phoneBNumber, "openai", "gpt-4o",
                topic.promptA, topic.firstMessageA, RequestMetadata(topic, experimentId))
  }

  /**
   * What happened to a call request: a non-ok response, a thrown error (network, bad JSON),
   * or an accepted call with its id, whose pre-created row write may itself fail.
   */
  datatype InitiationOutcome =
    | Rejected
    | Unreachable
    | Accepted(callId: string, rowWriteFails: bool)

  /** `initiateCall` returns the call only when the platform accepted it and its row was written. */
  predicate Succeeds(o: InitiationOutcome) {
    o.Accepted? && !o.rowWriteFails
  }

  /** The row pre-created for an accepted call; every other column is absent. */
  function PreCreate(topic: Topic, experimentId: string, callId: string): (p: CallFields)
    ensures p.vapiCallId == callId && p.experimentId == Some(experimentId) && p.topic == Some(topic.topic)
    ensures p.agentA.prompt == Some(topic.promptA) && p.agentB.prompt == Some(topic.promptB)
    ensures p.status == Some("initiated")
    ensures p.agentA == NoAgentFields.(prompt := Some(topic.promptA))
    ensures p.agentB == NoAgentFields.(prompt := Some(topic.promptB))
    ensures p.agentA.assistantId.None? && p.agentB.assistantId.None?
    ensures p.endedReason.None? && p.startedAt.None? && p.endedAt.None? && p.durationSeconds.None?
    ensures p.transcript.None? && p.messages.None? && p.recordingUrl.None?
    ensures p.cost.None? && p.costBreakdown.None? && p.rawPayload.None?
  {
    CallFields(
      vapiCallId := callId,
      experimentId := Some(experimentId),
      topic := Some(topic.topic),
      agentA := NoAgentFields.(prompt := Some(topic.promptA)),
      agentB := NoAgentFields.(prompt := Some(topic.promptB)),
      status := Some("initiated"),
      endedReason := None,
      startedAt := None,
      endedAt := None,
      durationSeconds := None,
      transcript := None,
      messages := None,
      recordingUrl := None,
      cost := None,
      costBreakdown := None,
      rawPayload := None)
  }

  /**
   * `initiateCall` after the request is sent: returns the call id on success, pre-creating its
   * row; a rejected or failed request, or a failed row write, gives null.
   */
  method InitiateCall(store: CallStore, topic: Topic, experimentId: string, outcome: InitiationOutcome)
    returns (callId: Option<string>)
    requires store.Valid()
    modifies store
    ensures store.Valid() && store.experiments == old(store.experiments)
    ensures callId.Some? <==> Succeeds(outcome)
    ensures callId.Some? ==> callId.value == outcome.callId
    ensures outcome.Accepted? && !outcome.rowWriteFails ==>
      store.calls == Upsert(old(store.calls), PreCreate(topic, experimentId, outcome.callId), old(store.nextRowId), old(store.clock))
    ensures !Succeeds(outcome) ==> unchanged(store)
  {
    match outcome
    case Rejected =>
      callId := None;
    case Unreachable =>
      callId := None;
    case Accepted(id, rowWriteFails) =>
      if rowWriteFails {
        callId := None;
      } else {
        var _ := store.CreateCall(PreCreate(topic, experimentId, id));
        callId := Some(id);
      }
  }

  // ---------------------------------------------------------------------------
  // The batch loop

  /** The `results` object `runExperiment` returns. */
  datatype Summary = Summary(total: nat, successful: nat, failed: nat, callIds: seq<string>)

  datatype RunOutcome =
    | DryRun                                     // returns undefined, does nothing
    | ExperimentNotCreated                       // createExperiment threw
    | Completed(experimentId: string, summary: Summary)

  /** What the run does to the outside world, in order: call requests and the pauses between them. */
  datatype Step = Send(request: CallRequest) | Sleep(ms: int)

  /** The counters after the given outcomes, updated one outcome at a time as the loop does. */
  function Tally(total: nat, outcomes: seq<InitiationOutcome>): Summary
    decreases |outcomes|
  {
    if |outcomes| == 0 then Summary(total, 0, 0, [])
    else
      var s, o := Tally(total, outcomes[..|outcomes| - 1]), outcomes[|outcomes| - 1];
      if Succeeds(o) then s.(successful := s.successful + 1, callIds := s.callIds + [o.callId])
      else s.(failed := s.failed + 1)
  }

  /** The ids of the successful initiations, in topic order. */
  function SuccessfulIds(outcomes: seq<InitiationOutcome>): seq<string> {
    if |outcomes| == 0 then []
    else (if Succeeds(outcomes[0]) then [outcomes[0].callId] else []) + SuccessfulIds(outcomes[1..])
  }

  lemma {:induction false} SuccessfulIdsAppend(os: seq<InitiationOutcome>, o: InitiationOutcome)
    ensures SuccessfulIds(os + [o]) == SuccessfulIds(os) + (if Succeeds(o) then [o.callId] else [])
    decreases |os|
  {
    if |os| == 0 {
      assert os + [o] == [o];
      assert [o][1..] == [];
    } else {
      assert (os + [o])[1..] == os[1..] + [o];
      SuccessfulIdsAppend(os[1..], o);
    }
  }

  /**
   * The counters add up: every outcome counts once as a success or a failure, and `callIds`
   * holds exactly the successful ids in topic order.
   */
  lemma {:induction false} TallyAddsUp(total: nat, outcomes: seq<InitiationOutcome>)
    ensures var s := Tally(total, outcomes);
      && s.total == total
      && s.successful + s.failed == |outcomes|
      && |s.callIds| == s.successful
      && s.callIds == SuccessfulIds(outcomes)
    decreases |outcomes|
  {
    if |outcomes| > 0 {
      var prefix, o := outcomes[..|outcomes| - 1], outcomes[|outcomes| - 1];
      TallyAddsUp(total, prefix);
      SuccessfulIdsAppend(prefix, o);
      assert prefix + [o] == outcomes;
    }
  }

  /** One more outcome updates the counters of the loop so far. */
  lemma TallyStep(total: nat, outcomes: seq<InitiationOutcome>, i: nat)
    requires i < |outcomes|
    ensures var s, o := Tally(total, outcomes[..i]), outcomes[i];
      Tally(total, outcomes[..i + 1]) ==
        if Succeeds(o) then s.(successful := s.successful + 1, callIds := s.callIds + [o.callId])
        else s.(failed := s.failed + 1)
  {
    assert outcomes[..i + 1][..i] == outcomes[..i];
  }

  /** The requests, one per topic in order. */
  function Requests(cfg: Config, topics: seq<Topic>, experimentId: string): (rs: seq<CallRequest>)
    ensures |rs| == |topics|
    ensures forall i :: 0 <= i < |topics| ==> rs[i] == BuildRequest(cfg, topics[i], experimentId)
    decreases |topics|
  {
    if |topics| == 0 then []
    else Requests(cfg, topics[..|topics| - 1], experimentId) + [BuildRequest(cfg, topics[|topics| - 1], experimentId)]
  }

  /** The steps of a completed run: each request, with a pause after all but the last. */
  function RunTrace(requests: seq<CallRequest>, delayMs: int): seq<Step>
    decreases |requests|
  {
    if |requests| == 0 then []
    else if |requests| == 1 then [Send(requests[0])]
    else RunTrace(requests[..|requests| - 1], delayMs) + [Sleep(delayMs), Send(requests[|requests| - 1])]
  }

  /**
   * A run sends every request in order, whatever their outcomes, and alternates them with
   * pauses: 2n - 1 steps, so exactly n - 1 sleeps, none after the last request.
   */
  lemma {:induction false} TraceAlternates(requests: seq<CallRequest>, delayMs: int)
    ensures var t := RunTrace(requests, delayMs);
      && (|requests| == 0 ==> t == [])
      && (|requests| > 0 ==> |t| == 2 * |requests| - 1 && t[|t| - 1] == Send(requests[|requests| - 1]))
      && forall j :: 0 <= j < |t| ==> t[j] == if j % 2 == 0 then Send(requests[j / 2]) else Sleep(delayMs)
    decreases |requests|
  {
    if |requests| > 1 {
      var prefix := requests[..|requests| - 1];
      TraceAlternates(prefix, delayMs);
      var t := RunTrace(requests, delayMs);
      var tp := RunTrace(prefix, delayMs);
      assert t == tp + [Sleep(delayMs), Send(requests[|requests| - 1])];
      forall j | 0 <= j < |t|
        ensures t[j] == if j % 2 == 0 then Send(requests[j / 2]) else Sleep(delayMs)
      {
        if j < |tp| {
          assert t[j] == tp[j];
        }
      }
    }
  }

  /**
   * What the loop has done to the calls table so far: one row per successful id, marked
   * "initiated", and every other row as it was. A row the loop inserted carries this
   * experiment's id and one of the batch's topics; a row that was already there keeps its
   * own experiment id and topic, both insert-only columns.
   */
  ghost predicate PreCreated(calls0: map<string, CallRow>, calls: map<string, CallRow>, callIds: seq<string>,
                             experimentId: string, topics: seq<Topic>) {
    && (forall k :: k in calls <==> k in calls0 || k in callIds)
    && (forall k :: k in calls0 && k !in callIds ==> calls[k] == calls0[k])
    && (forall id :: id in callIds ==> calls[id].cols.status == Some("initiated"))
    && (forall id :: id in callIds && id !in calls0 ==>
          && calls[id].cols.experimentId == Some(experimentId)
          && exists t :: t in topics && calls[id].cols.topic == Some(t.topic))
    && (forall id :: id in callIds && id in calls0 ==>
          && calls[id].cols.experimentId == calls0[id].cols.experimentId
          && calls[id].cols.topic == calls0[id].cols.topic)
  }

  lemma PreCreatedStep(calls0: map<string, CallRow>, calls: map<string, CallRow>, callIds: seq<string>,
                       experimentId: string, topics: seq<Topic>, topic: Topic,
                       p: CallFields, newId: nat, now: nat)
    requires WellKeyed(calls) && PreCreated(calls0, calls, callIds, experimentId, topics)
    requires p.status == Some("initiated") && p.experimentId == Some(experimentId)
    requires topic in topics && p.topic == Some(topic.topic)
    ensures PreCreated(calls0, Upsert(calls, p, newId, now), callIds + [p.vapiCallId], experimentId, topics)
  {
    UpsertKeys(calls, p, newId, now);
    var k, after, ids := p.vapiCallId, Upsert(calls, p, newId, now), callIds + [p.vapiCallId];
    assert after[k].cols.status == Some("initiated");
    if k in calls {
      ConflictKeepsInsertOnly(calls, p, newId, now);
    } else {
      assert after[k].cols.experimentId == Some(experimentId);
      assert after[k].cols.topic == Some(topic.topic);
    }
  }

  /** One more request extends the trace of the loop so far. */
  lemma TraceStep(requests: seq<CallRequest>, i: nat, delayMs: int)
    requires i < |requests|
    ensures RunTrace(requests[..i], delayMs) + (if 0 < i then [Sleep(delayMs)] else []) + [Send(requests[i])]
         == RunTrace(requests[..i + 1], delayMs)
  {
    assert requests[..i + 1][..i] == requests[..i];
  }

  /** The experiment description `runExperiment` stores. */
  function BatchDescription(n: nat): string {
    "Batch of " + NatToString(n) + " agent-on-agent calls"
  }

  /** The trace of the loop after `i` of its `n` iterations: a pause is pending unless it is over. */
  function TraceSoFar(requests: seq<CallRequest>, i: nat, delayMs: int): seq<Step>
    requires i <= |requests|
  {
    RunTrace(requests[..i], delayMs) + (if 0 < i < |requests| then [Sleep(delayMs)] else [])
  }

  /**
   * One iteration of `runExperiment`'s loop: place the call for `topics[i]`, count it as a
   * success or a failure, and pause unless it is the last.
   */
  method PlaceCall(store: CallStore, cfg: Config, topics: seq<Topic>, delayMs: int, experimentId: string,
                   outcomes: seq<InitiationOutcome>, i: nat, results: Summary, trace: seq<Step>,
                   ghost calls0: map<string, CallRow>)
    returns (results': Summary, trace': seq<Step>)
    requires i < |topics| == |outcomes|
    requires store.Valid() && PreCreated(calls0, store.calls, results.callIds, experimentId, topics)
    requires results == Tally(|topics|, outcomes[..i])
    requires trace == TraceSoFar(Requests(cfg, topics, experimentId), i, delayMs)
    modifies store
    ensures store.Valid() && store.experiments == old(store.experiments)
    ensures PreCreated(calls0, store.calls, results'.callIds, experimentId, topics)
    ensures results' == Tally(|topics|, outcomes[..i + 1])
    ensures trace' == TraceSoFar(Requests(cfg, topics, experimentId), i + 1, delayMs)
  {
    ghost var callsBefore, idBefore, clockBefore := store.calls, store.nextRowId, store.clock;
    var call := InitiateCall(store, topics[i], experimentId, outcomes[i]);
    TallyStep(|topics|, outcomes, i);
    if call.Some? {
      PreCreatedStep(calls0, callsBefore, results.callIds, experimentId, topics, topics[i], PreCreate(topics[i], experimentId, call.value), idBefore, clockBefore);
      results' := results.(successful := results.successful + 1, callIds := results.callIds + [call.value]);
    } else {
      results' := results.(failed := results.failed + 1);
    }
    TraceStep(Requests(cfg, topics, experimentId), i, delayMs);
    trace' := trace + [Send(BuildRequest(cfg, topics[i], experimentId))];
    if i < |topics| - 1 {
      trace' := trace' + [Sleep(delayMs)];
    }
  }

  /**
   * The `for` loop of `runExperiment`: one call per topic in order, `outcomes[i]` being the
   * platform's answer for `topics[i]`, a pause of `delayMs` after every call but the last,
   * and a failed call never stopping the loop.
   */
  method PlaceCalls(store: CallStore, cfg: Config, topics: seq<Topic>, delayMs: int, experimentId: string,
                    outcomes: seq<InitiationOutcome>)
    returns (results: Summary, trace: seq<Step>)
    requires store.Valid()
    requires |outcomes| == |topics|
    modifies store
    ensures store.Valid() && store.experiments == old(store.experiments)
    ensures results == Tally(|topics|, outcomes)
    ensures trace == RunTrace(Requests(cfg, topics, experimentId), delayMs)
    ensures PreCreated(old(store.calls), store.calls, results.callIds, experimentId, topics)
  {
    ghost var calls0 := store.calls;
    ghost var requests := Requests(cfg, topics, experimentId);
    var n := |topics|;
    results, trace := Summary(n, 0, 0, []), [];
    assert outcomes[..0] == [] && requests[..0] == [];
    for i := 0 to n
      invariant store.Valid() && store.experiments == old(store.experiments)
      invariant results == Tally(n, outcomes[..i])
      invariant trace == TraceSoFar(requests, i, delayMs)
      invariant PreCreated(calls0, store.calls, results.callIds, experimentId, topics)
    {
      results, trace := PlaceCall(store, cfg, topics, delayMs, experimentId, outcomes, i, results, trace, calls0);
    }
    assert outcomes[..n] == outcomes && requests[..n] == requests;
  }

  /**
   * `runExperiment`: nothing on a dry run; otherwise create the experiment (`experimentId` is the
   * generated id; an exception there ends the run) and place the calls, pausing `delay` between
   * them, or `DelayBetweenCallsMs` when the option is not given.
   */
  method RunExperiment(store: CallStore, cfg: Config, name: string, topics: seq<Topic>, dryRun: bool,
                       delay: Option<int>, experimentId: string, outcomes: seq<InitiationOutcome>)
    returns (result: RunOutcome, trace: seq<Step>)
    requires store.Valid()
    requires |outcomes| == |topics|
    modifies store
    ensures store.Valid()
    ensures dryRun ==> result == DryRun && trace == [] && unchanged(store)
    ensures !dryRun && experimentId in old(store.experiments) ==>
      result == ExperimentNotCreated && trace == [] && store.calls == old(store.calls) && store.experiments == old(store.experiments)
    ensures !dryRun && experimentId !in old(store.experiments) ==>
      && result == Completed(experimentId, Tally(|topics|, outcomes))
      && trace == RunTrace(Requests(cfg, topics, experimentId), delay.GetOr(DelayBetweenCallsMs))
      && store.experiments == old(store.experiments)[experimentId :=
           Experiment(experimentId, name, Some(BatchDescription(|topics|)), old(store.clock))]
      && PreCreated(old(store.calls), store.calls, result.summary.callIds, experimentId, topics)
  {
    trace := [];
    if dryRun {
      return DryRun, trace;
    }
    var created := store.CreateExperiment(experimentId, name, Some(BatchDescription(|topics|)));
    if created.Err? {
      return ExperimentNotCreated, trace;
    }
    var results;
    results, trace := PlaceCalls(store, cfg, topics, delay.GetOr(DelayBetweenCallsMs), experimentId, outcomes);
    result := Completed(experimentId, results);
  }
}
