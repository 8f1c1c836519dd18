/**
 * The telemetry endpoints: the API-key gate, ingestion (store the record,
 * then schedule the fanout, then answer "accepted"), and the listing of the
 * latest record per drone sorted by drone id.
 */
module TelemetryRoutes {
  import opened Wrappers
  import opened Schemas
  import opened Store

  /** The record kept per drone. */
  datatype StoredTelemetry = StoredTelemetry(
    droneId: string,
    lastSeenTs: string,
    sourceIp: string,
    telemetry: TelemetryIn)

  datatype IngestResponse =
    | Accepted                                  // 200 {"status": "accepted"}
    | Unauthorized                              // 401
    | Unprocessable(errors: set<SchemaError>)   // 422

  /** The observable effects of an ingestion, in the order they happen. */
  datatype Effect = Stored(droneId: string, record: StoredTelemetry) | FanoutScheduled(payload: TelemetryIn)

  datatype LatestTelemetryResponse = LatestTelemetryResponse(
    serverTime: string,
    count: nat,
    drones: seq<StoredTelemetry>)

  /** The X-API-Key header as the handler sees it: "" when the request has none. */
  function HeaderOrEmpty(header: Option<string>): string {
    if header.Some? then header.value else ""
  }

  /** `require_api_key`: the request passes exactly when its key equals the configured one. */
  function RequireApiKey(header: Option<string>, configured: string): (r: Option<IngestResponse>)
    ensures r.None? <==> HeaderOrEmpty(header) == configured
    ensures r.Some? ==> r.value == Unauthorized
  {
    if HeaderOrEmpty(header) != configured then Some(Unauthorized) else None
  }

  /** The record `ingest_telemetry` stores; the client address is "unknown" without a client. */
  function StoredRecord(payload: TelemetryIn, client: Option<string>, receivedAt: string): (r: StoredTelemetry)
    ensures r.droneId == payload.droneId && r.telemetry == payload && r.lastSeenTs == receivedAt
    ensures r.sourceIp == (if client.Some? then client.value else "unknown")
  {
    StoredTelemetry(payload.droneId, receivedAt, if client.Some? then client.value else "unknown", payload)
  }

  /** Python's `a <= b` on strings: lexicographic by code point. */
  predicate StrLe(a: string, b: string)
    decreases |a|
  {
    if a == [] then true
    else if b == [] then false
    else if a[0] != b[0] then a[0] < b[0]
    else StrLe(a[1..], b[1..])
  }

  lemma {:induction false} StrLeTotal(a: string, b: string)
    ensures StrLe(a, b) || StrLe(b, a)
    decreases |a|
  {
    if a != [] && b != [] && a[0] == b[0] {
      StrLeTotal(a[1..], b[1..]);
    }
  }

  lemma {:induction false} StrLeTransitive(a: string, b: string, c: string)
    requires StrLe(a, b) && StrLe(b, c)
    ensures StrLe(a, c)
    decreases |a|
  {
    if a != [] && b != [] && c != [] && a[0] == b[0] && b[0] == c[0] {
      StrLeTransitive(a[1..], b[1..], c[1..]);
    }
  }

  ghost predicate SortedByDroneId(s: seq<StoredTelemetry>) {
    forall i, j :: 0 <= i < j < |s| ==> StrLe(s[i].droneId, s[j].droneId)
  }

  /** Insert before the first element whose id is not smaller: earlier elements stay first among equals. */
  function InsertByDroneId(x: StoredTelemetry, s: seq<StoredTelemetry>): (r: seq<StoredTelemetry>)
    ensures |r| == |s| + 1
  {
    if s == [] || StrLe(x.droneId, s[0].droneId) then [x] + s
    else [s[0]] + InsertByDroneId(x, s[1..])
  }

  /**
   * `sorted(latest, key=drone_id)`: a stable insertion sort; it keeps the
   * number of records (that it is ascending and a permutation is
   * `SortByDroneIdCorrect`).
   */
  function SortByDroneId(s: seq<StoredTelemetry>): (r: seq<StoredTelemetry>)
    ensures |r| == |s|
  {
    if s == [] then [] else InsertByDroneId(s[0], SortByDroneId(s[1..]))
  }

  /** Every id in `s` is at least `b`. */
  ghost predicate BoundedBelow(b: string, s: seq<StoredTelemetry>) {
    forall k :: 0 <= k < |s| ==> StrLe(b, s[k].droneId)
  }

  lemma {:induction false} InsertByDroneIdCount(x: StoredTelemetry, s: seq<StoredTelemetry>)
    ensures multiset(InsertByDroneId(x, s)) == multiset(s) + multiset{x}
  {
    if s != [] && !StrLe(x.droneId, s[0].droneId) {
      InsertByDroneIdCount(x, s[1..]);
      assert s == [s[0]] + s[1..];
    }
  }

  lemma {:induction false} InsertByDroneIdBounded(b: string, x: StoredTelemetry, s: seq<StoredTelemetry>)
    requires BoundedBelow(b, s) && StrLe(b, x.droneId)
    ensures BoundedBelow(b, InsertByDroneId(x, s))
  {
    if s != [] && !StrLe(x.droneId, s[0].droneId) {
      InsertByDroneIdBounded(b, x, s[1..]);
      var tail := InsertByDroneId(x, s[1..]);
      assert forall k :: 1 <= k < |tail| + 1 ==> ([s[0]] + tail)[k] == tail[k - 1];
    }
  }

  lemma {:induction false} InsertByDroneIdSorted(x: StoredTelemetry, s: seq<StoredTelemetry>)
    requires SortedByDroneId(s)
    ensures SortedByDroneId(InsertByDroneId(x, s))
  {
    if s == [] {
    } else if StrLe(x.droneId, s[0].droneId) {
      var r := [x] + s;
      forall i, j | 0 <= i < j < |r| ensures StrLe(r[i].droneId, r[j].droneId) {
        if i == 0 && j > 1 {
          StrLeTransitive(x.droneId, s[0].droneId, s[j - 1].droneId);
        }
      }
    } else {
      var rest := s[1..];
      assert SortedByDroneId(rest) by {
        forall i, j | 0 <= i < j < |rest| ensures StrLe(rest[i].droneId, rest[j].droneId) {
          assert rest[i] == s[i + 1] && rest[j] == s[j + 1];
        }
      }
      assert BoundedBelow(s[0].droneId, rest) by {
        forall k | 0 <= k < |rest| ensures StrLe(s[0].droneId, rest[k].droneId) {
          assert rest[k] == s[k + 1];
        }
      }
      InsertByDroneIdSorted(x, rest);
      StrLeTotal(x.droneId, s[0].droneId);
      InsertByDroneIdBounded(s[0].droneId, x, rest);
      var tail := InsertByDroneId(x, rest);
      var r := [s[0]] + tail;
      forall i, j | 0 <= i < j < |r| ensures StrLe(r[i].droneId, r[j].droneId) {
        if i == 0 {
          assert r[j] == tail[j - 1];
        } else {
          assert r[i] == tail[i - 1] && r[j] == tail[j - 1];
        }
      }
    }
  }

  /** The listing is sorted by drone id and holds exactly the stored records. */
  lemma {:induction false} SortByDroneIdCorrect(s: seq<StoredTelemetry>)
    ensures multiset(SortByDroneId(s)) == multiset(s)
    ensures |SortByDroneId(s)| == |s|
    ensures SortedByDroneId(SortByDroneId(s))
  {
    if s != [] {
      SortByDroneIdCorrect(s[1..]);
      InsertByDroneIdCount(s[0], SortByDroneId(s[1..]));
      InsertByDroneIdSorted(s[0], SortByDroneId(s[1..]));
      assert s == [s[0]] + s[1..];
    }
  }

  /** The body of `get_latest`: sorted records and their number. */
  function LatestResponse(latest: seq<StoredTelemetry>, serverTime: string): (r: LatestTelemetryResponse)
    ensures r.serverTime == serverTime
    ensures r.count == |r.drones| == |latest|
    ensures multiset(r.drones) == multiset(latest)
    ensures SortedByDroneId(r.drones)
  {
    SortByDroneIdCorrect(latest);
    var sorted := SortByDroneId(latest);
    LatestTelemetryResponse(serverTime, |sorted|, sorted)
  }

  /** The application state the telemetry routes use. */
  class TelemetryApi {
    const apiKey: string
    const store: InMemoryTelemetryStore<StoredTelemetry>
    /** Payloads handed to the background fanout, in order. */
    var backgroundTasks: seq<TelemetryIn>
    ghost var effects: seq<Effect>

    /** The store is well formed and every record sits under its own drone id. */
    ghost predicate Valid()
      reads this, store
    {
      store.Valid() && forall k :: k in store.items ==> store.items[k].droneId == k
    }

    constructor (apiKey: string, store: InMemoryTelemetryStore<StoredTelemetry>)
      requires store.Valid() && store.items == map[]
      ensures Valid()
      ensures this.apiKey == apiKey && this.store == store
      ensures backgroundTasks == [] && effects == []
    {
      this.apiKey := apiKey;
      this.store := store;
      backgroundTasks := [];
      effects := [];
    }

    /**
     * POST /api/v1/telemetry.  The key gate runs first (401), then body
     * validation (422); an accepted message is stored under its drone id,
     * then its fanout is scheduled, and the answer is "accepted" whatever
     * the fanout later does.  A refused request changes nothing.
     */
    method IngestTelemetry(apiKeyHeader: Option<string>, body: RawTelemetry, client: Option<string>, receivedAt: string)
      returns (resp: IngestResponse)
      requires Valid()
      modifies this, store
      ensures Valid()
      ensures resp == Unauthorized <==> HeaderOrEmpty(apiKeyHeader) != apiKey
      ensures resp.Unprocessable? <==> HeaderOrEmpty(apiKeyHeader) == apiKey && Validate(body).Err?
      ensures resp.Unprocessable? ==> resp.errors == Validate(body).error
      ensures resp == Accepted <==> HeaderOrEmpty(apiKeyHeader) == apiKey && Validate(body).Ok?
      ensures resp != Accepted ==>
        && store.items == old(store.items) && store.keys == old(store.keys)
        && backgroundTasks == old(backgroundTasks) && effects == old(effects)
      ensures resp == Accepted ==>
        var t := Validate(body).value;
        var record := StoredRecord(t, client, receivedAt);
        && store.items == old(store.items)[t.droneId := record]
        && store.keys == KeysAfterPut(old(store.keys), old(store.items), t.droneId)
        && backgroundTasks == old(backgroundTasks) + [t]
        && effects == old(effects) + [Stored(t.droneId, record), FanoutScheduled(t)]
    {
      var denied := RequireApiKey(apiKeyHeader, apiKey);
      if denied.Some? {
        return denied.value;
      }
      var validated := Validate(body);
      if validated.Err? {
        return Unprocessable(validated.error);
      }
      var payload := validated.value;
      var stored := StoredRecord(payload, client, receivedAt);
      store.PutLatest(payload.droneId, stored);
      effects := effects + [Stored(payload.droneId, stored)];
      backgroundTasks := backgroundTasks + [payload];
      effects := effects + [FanoutScheduled(payload)];
      resp := Accepted;
    }

    /** GET /api/v1/telemetry/latest: every stored record, sorted by drone id, and their count. */
    method GetLatest(serverTime: string) returns (resp: LatestTelemetryResponse)
      requires Valid()
      ensures resp.serverTime == serverTime
      ensures resp.count == |resp.drones|
      ensures multiset(resp.drones) == multiset(store.Latest())
      ensures SortedByDroneId(resp.drones)
    {
      var latest := store.GetAllLatest();
      resp := LatestResponse(latest, serverTime);
    }
  }

  /** The records a valid store lists carry pairwise different drone ids. */
  lemma {:induction false} ListedIdsDistinct(keys: seq<string>, items: map<string, StoredTelemetry>)
    requires WellFormed(keys, items)
    requires forall k :: k in items ==> items[k].droneId == k
    ensures forall i, j :: 0 <= i < j < |ValuesOf(keys, items)| ==>
      ValuesOf(keys, items)[i].droneId != ValuesOf(keys, items)[j].droneId
  {
    var vs := ValuesOf(keys, items);
    forall i, j | 0 <= i < j < |vs| ensures vs[i].droneId != vs[j].droneId {
      assert keys[i] in items && keys[j] in items;
      assert vs[i].droneId == keys[i] && vs[j].droneId == keys[j];
    }
  }
}
