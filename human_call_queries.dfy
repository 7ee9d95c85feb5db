/**
 * The `human_calls` table, used when one side of the conversation is a person:
 * the `createHumanCall` upsert keyed by `vapi_call_id`, `listHumanCalls` and `getHumanCallStats`.
 */
module HumanCallQueries {
  import opened Wrappers
  import opened JsonValue
  import Recency

  /** The parameters of `createHumanCall`, and the column values of a stored row. */
  datatype HumanCallFields = HumanCallFields(
    vapiCallId: string,
    durationSeconds: Option<int>,
    voiceProvider: Option<string>,
    transcript: Option<string>,
    recordingUrl: Option<string>,
    rawPayload: Option<Json>)

  /** A row of `human_calls` with NOW() at insert and at the last write. */
  datatype HumanCallRow = HumanCallRow(cols: HumanCallFields, createdAt: nat, updatedAt: nat)

  /** The row of the VALUES list (inserted, or EXCLUDED on a conflict). */
  function Proposed(p: HumanCallFields): HumanCallFields {
    p.(rawPayload := StoredJson(p.rawPayload))
  }

  /** `DO UPDATE SET col = COALESCE(EXCLUDED.col, human_calls.col)` for the five value columns. */
  function MergeColumns(stored: HumanCallFields, p: HumanCallFields): HumanCallFields {
    var e := Proposed(p);
    HumanCallFields(
      stored.vapiCallId,
      Coalesce(e.durationSeconds, stored.durationSeconds),
      Coalesce(e.voiceProvider, stored.voiceProvider),
      Coalesce(e.transcript, stored.transcript),
      Coalesce(e.recordingUrl, stored.recordingUrl),
      Coalesce(e.rawPayload, stored.rawPayload))
  }

  /** The table after `createHumanCall(p)` with `now` the value of NOW(). */
  function Upsert(calls: map<string, HumanCallRow>, p: HumanCallFields, now: nat): map<string, HumanCallRow> {
    var k := p.vapiCallId;
    if k in calls then
      calls[k := calls[k].(cols := MergeColumns(calls[k].cols, p), updatedAt := now)]
    else
      calls[k := HumanCallRow(Proposed(p), now, now)]
  }

  ghost predicate WellKeyed(calls: map<string, HumanCallRow>) {
    forall k :: k in calls ==> calls[k].cols.vapiCallId == k
  }

  ghost predicate WellFormed(calls: map<string, HumanCallRow>, clock: nat) {
    WellKeyed(calls) && forall k :: k in calls ==> calls[k].createdAt <= calls[k].updatedAt < clock
  }

  // ---------------------------------------------------------------------------
  // Properties of the upsert

  /** One row per key after the upsert; rows under other keys are untouched. */
  lemma UpsertKeys(calls: map<string, HumanCallRow>, p: HumanCallFields, now: nat)
    requires WellKeyed(calls)
    ensures var r := Upsert(calls, p, now);
      && r.Keys == calls.Keys + {p.vapiCallId}
      && WellKeyed(r)
      && (forall k :: k in calls && k != p.vapiCallId ==> r[k] == calls[k])
      && (p.vapiCallId in calls ==> r[p.vapiCallId].createdAt == calls[p.vapiCallId].createdAt)
  {
  }

  /** An insert stores absent fields as NULL and the payload only when truthy. */
  lemma InsertStoresParams(calls: map<string, HumanCallRow>, p: HumanCallFields, now: nat)
    requires p.vapiCallId !in calls
    ensures var row := Upsert(calls, p, now)[p.vapiCallId];
      && row.cols.(rawPayload := p.rawPayload) == p
      && (row.cols.rawPayload.Some? <==> p.rawPayload.Some? && Truthy(p.rawPayload.value))
      && (row.cols.rawPayload.Some? ==> row.cols.rawPayload == p.rawPayload)
      && row.createdAt == now && row.updatedAt == now
  {
  }

  /**
   * On a conflict each of the five columns takes the supplied (truthy, for the payload) value,
   * and keeps the stored one when the patch has none: nothing stored is ever erased.
   */
  lemma ConflictCoalesces(calls: map<string, HumanCallRow>, p: HumanCallFields, now: nat)
    requires p.vapiCallId in calls
    ensures var stored, after := calls[p.vapiCallId].cols, Upsert(calls, p, now)[p.vapiCallId].cols;
      && after.vapiCallId == stored.vapiCallId
      && (p.durationSeconds.Some? ==> after.durationSeconds == p.durationSeconds)
      && (p.durationSeconds.None? ==> after.durationSeconds == stored.durationSeconds)
      && (p.voiceProvider.Some? ==> after.voiceProvider == p.voiceProvider)
      && (p.voiceProvider.None? ==> after.voiceProvider == stored.voiceProvider)
      && (p.transcript.Some? ==> after.transcript == p.transcript)
      && (p.transcript.None? ==> after.transcript == stored.transcript)
      && (p.recordingUrl.Some? ==> after.recordingUrl == p.recordingUrl)
      && (p.recordingUrl.None? ==> after.recordingUrl == stored.recordingUrl)
      && (p.rawPayload.Some? && Truthy(p.rawPayload.value) ==> after.rawPayload == p.rawPayload)
      && (!(p.rawPayload.Some? && Truthy(p.rawPayload.value)) ==> after.rawPayload == stored.rawPayload)
  {
  }

  /** The same patch twice gives the table once gives, but for `updated_at`. */
  lemma UpsertIdempotent(calls: map<string, HumanCallRow>, p: HumanCallFields, now1: nat, now2: nat)
    ensures var once := Upsert(calls, p, now1);
      Upsert(once, p, now2) == once[p.vapiCallId := once[p.vapiCallId].(updatedAt := now2)]
  {
  }

  // ---------------------------------------------------------------------------
  // The store

  class HumanCallStore {
    var calls: map<string, HumanCallRow>
    /** NOW(): advances on every write. */
    var clock: nat

    ghost predicate Valid()
      reads this
    {
      WellFormed(calls, clock)
    }

    constructor ()
      ensures Valid() && calls == map[]
    {
      calls, clock := map[], 0;
    }

    /** `createHumanCall`: the upsert, returning the stored row. */
    method CreateHumanCall(p: HumanCallFields) returns (row: HumanCallRow)
      requires Valid()
      modifies this
      ensures Valid()
      ensures calls == Upsert(old(calls), p, old(clock)) && clock == old(clock) + 1
      ensures p.vapiCallId in calls && row == calls[p.vapiCallId]
    {
      calls := Upsert(calls, p, clock);
      row := calls[p.vapiCallId];
      clock := clock + 1;
    }
  }

  // ---------------------------------------------------------------------------
  // Read-only queries

  const DefaultLimit: nat := 100

  /** The keys of the `limit` newest rows, newest first, each at most once. */
  ghost function NewestKeys(calls: map<string, HumanCallRow>, limit: nat): (keys: seq<string>)
    ensures |keys| == if limit < |calls| then limit else |calls|
    ensures forall i :: 0 <= i < |keys| ==> keys[i] in calls
    ensures forall i, j :: 0 <= i < j < |keys| ==> keys[i] != keys[j]
    ensures forall i, j :: 0 <= i < j < |keys| ==> calls[keys[i]].createdAt >= calls[keys[j]].createdAt
    ensures forall k, i :: k in calls && k !in keys && 0 <= i < |keys| ==> calls[k].createdAt <= calls[keys[i]].createdAt
  {
    var created := map k | k in calls :: calls[k].createdAt;
    assert forall k :: k in calls ==> created[k] == calls[k].createdAt;
    Recency.NewestFirst(created, calls.Keys, limit)
  }

  /**
   * `listHumanCalls(limit = 100)`: at most `limit` rows, each call at most once, newest first,
   * and no row left out is newer than one listed.
   */
  ghost function ListHumanCalls(calls: map<string, HumanCallRow>, limit: Option<nat>): (rows: seq<HumanCallRow>)
    requires WellKeyed(calls)
    ensures var n := limit.GetOr(DefaultLimit);
      |rows| == if n < |calls| then n else |calls|
    ensures forall i :: 0 <= i < |rows| ==> rows[i] in calls.Values
    ensures forall i, j :: 0 <= i < j < |rows| ==> rows[i].cols.vapiCallId != rows[j].cols.vapiCallId
    ensures forall i, j :: 0 <= i < j < |rows| ==> rows[i].createdAt >= rows[j].createdAt
    ensures forall k, i :: k in calls && calls[k] !in rows && 0 <= i < |rows| ==> calls[k].createdAt <= rows[i].createdAt
  {
    var keys := NewestKeys(calls, limit.GetOr(DefaultLimit));
    ListedRows(calls, keys);
    Recency.RowsAt(calls, keys)
  }

  /** What the keys chosen newest first, each once, say about the rows listed under them. */
  lemma ListedRows(calls: map<string, HumanCallRow>, keys: seq<string>)
    requires WellKeyed(calls)
    requires forall i :: 0 <= i < |keys| ==> keys[i] in calls
    requires forall i, j :: 0 <= i < j < |keys| ==> keys[i] != keys[j]
    requires forall i, j :: 0 <= i < j < |keys| ==> calls[keys[i]].createdAt >= calls[keys[j]].createdAt
    requires forall k, i :: k in calls && k !in keys && 0 <= i < |keys| ==> calls[k].createdAt <= calls[keys[i]].createdAt
    ensures var rows := Recency.RowsAt(calls, keys);
      && (forall i :: 0 <= i < |rows| ==> rows[i] in calls.Values)
      && (forall i, j :: 0 <= i < j < |rows| ==> rows[i].cols.vapiCallId != rows[j].cols.vapiCallId)
      && (forall i, j :: 0 <= i < j < |rows| ==> rows[i].createdAt >= rows[j].createdAt)
      && (forall k, i :: k in calls && calls[k] !in rows && 0 <= i < |rows| ==> calls[k].createdAt <= rows[i].createdAt)
  {
  }

  function DurationOf(row: HumanCallRow): int {
    row.cols.durationSeconds.GetOr(0)
  }

  /** The sum of the non-NULL durations of the rows under `keys`. */
  ghost function SumDurations(calls: map<string, HumanCallRow>, keys: set<string>): int
    requires keys <= calls.Keys
    decreases keys
  {
    if keys == {} then 0
    else
      var k :| k in keys;
      DurationOf(calls[k]) + SumDurations(calls, keys - {k})
  }

  /** The sum does not depend on the order the rows are added up in: any row can be taken out first. */
  lemma {:induction false} SumDurationsTakeOut(calls: map<string, HumanCallRow>, keys: set<string>, k: string)
    requires keys <= calls.Keys && k in keys
    ensures SumDurations(calls, keys) == DurationOf(calls[k]) + SumDurations(calls, keys - {k})
    decreases keys
  {
    var j :| j in keys && SumDurations(calls, keys) == DurationOf(calls[j]) + SumDurations(calls, keys - {j});
    if j != k {
      SumDurationsTakeOut(calls, keys - {j}, k);
      SumDurationsTakeOut(calls, keys - {k}, j);
      assert keys - {j} - {k} == keys - {k} - {j};
    }
  }

  /** Two tables with the same durations under `keys` have the same sum. */
  lemma {:induction false} SumDurationsSameDurations(a: map<string, HumanCallRow>, b: map<string, HumanCallRow>, keys: set<string>)
    requires keys <= a.Keys && keys <= b.Keys
    requires forall k :: k in keys ==> DurationOf(a[k]) == DurationOf(b[k])
    ensures SumDurations(a, keys) == SumDurations(b, keys)
    decreases keys
  {
    if keys != {} {
      var k :| k in keys && SumDurations(a, keys) == DurationOf(a[k]) + SumDurations(a, keys - {k});
      SumDurationsTakeOut(b, keys, k);
      SumDurationsSameDurations(a, b, keys - {k});
    }
  }

  /** No row has a duration. */
  ghost predicate NoDurations(calls: map<string, HumanCallRow>) {
    forall k :: k in calls ==> calls[k].cols.durationSeconds.None?
  }

  datatype HumanCallStats = HumanCallStats(totalCalls: nat, totalDuration: Option<int>)

  /** `getHumanCallStats`: all rows are counted; SUM is NULL when no row has a duration. */
  ghost function GetHumanCallStats(calls: map<string, HumanCallRow>): (s: HumanCallStats)
    ensures s.totalCalls == |calls|
    ensures s.totalDuration.None? <==> forall k :: k in calls ==> calls[k].cols.durationSeconds.None?
  {
    HumanCallStats(
      |calls|,
      if NoDurations(calls) then None else Some(SumDurations(calls, calls.Keys)))
  }

  /** A patch without a duration for a known call leaves the statistics as they were. */
  lemma {:induction false} DurationlessPatchKeepsStats(calls: map<string, HumanCallRow>, p: HumanCallFields, now: nat)
    requires p.vapiCallId in calls && p.durationSeconds.None?
    ensures GetHumanCallStats(Upsert(calls, p, now)) == GetHumanCallStats(calls)
  {
    var after := Upsert(calls, p, now);
    assert after.Keys == calls.Keys;
    assert forall k :: k in calls ==> after[k].cols.durationSeconds == calls[k].cols.durationSeconds;
    SumDurationsSameDurations(after, calls, calls.Keys);
  }

  /** Inserting a new call with duration `d` adds one call and `d` seconds to the statistics. */
  lemma {:induction false} InsertAddsDuration(calls: map<string, HumanCallRow>, p: HumanCallFields, now: nat)
    requires p.vapiCallId !in calls && p.durationSeconds.Some?
    ensures var before, after := GetHumanCallStats(calls), GetHumanCallStats(Upsert(calls, p, now));
      && after.totalCalls == before.totalCalls + 1
      && after.totalDuration == Some(before.totalDuration.GetOr(0) + p.durationSeconds.value)
  {
    var k := p.vapiCallId;
    var after := Upsert(calls, p, now);
    InsertedRow(calls, p, now);
    SumDurationsTakeOut(after, after.Keys, k);
    SumDurationsSameDurations(after, calls, calls.Keys);
    var total := SumDurations(calls, calls.Keys);
    assert SumDurations(after, after.Keys) == p.durationSeconds.value + total;
    AfterTotal(after, k);
    BeforeTotal(calls);
    assert GetHumanCallStats(after).totalDuration == Some(total + p.durationSeconds.value);
    assert GetHumanCallStats(calls).totalDuration.GetOr(0) == total;
  }

  /** An insert adds one row, with the supplied duration, and leaves the others alone. */
  lemma InsertedRow(calls: map<string, HumanCallRow>, p: HumanCallFields, now: nat)
    requires p.vapiCallId !in calls
    ensures var after := Upsert(calls, p, now);
      && p.vapiCallId in after && after.Keys - {p.vapiCallId} == calls.Keys
      && after[p.vapiCallId].cols.durationSeconds == p.durationSeconds
      && forall k :: k in calls ==> k in after && after[k] == calls[k]
  {
    assert Upsert(calls, p, now) == calls[p.vapiCallId := HumanCallRow(Proposed(p), now, now)];
  }

  /** A table where some row has a duration sums to a value. */
  lemma AfterTotal(calls: map<string, HumanCallRow>, k: string)
    requires k in calls && calls[k].cols.durationSeconds.Some?
    ensures GetHumanCallStats(calls).totalDuration == Some(SumDurations(calls, calls.Keys))
  {
    assert !NoDurations(calls);
  }

  /** The total duration reads 0 when SUM is NULL. */
  lemma BeforeTotal(calls: map<string, HumanCallRow>)
    ensures GetHumanCallStats(calls).totalDuration.GetOr(0) == SumDurations(calls, calls.Keys)
  {
    if NoDurations(calls) {
      ZeroWithoutDurations(calls, calls.Keys);
    }
  }

  /** Rows without durations add up to 0. */
  lemma {:induction false} ZeroWithoutDurations(calls: map<string, HumanCallRow>, keys: set<string>)
    requires keys <= calls.Keys
    requires forall k :: k in keys ==> calls[k].cols.durationSeconds.None?
    ensures SumDurations(calls, keys) == 0
    decreases keys
  {
    if keys != {} {
      var k :| k in keys;
      SumDurationsTakeOut(calls, keys, k);
      ZeroWithoutDurations(calls, keys - {k});
    }
  }
}
