/**
 * The telemetry message accepted by the ingestion endpoint, its field
 * constraints, and the validation that turns a decoded request body into a
 * message or a set of field errors.
 */
module Schemas {
  import opened Wrappers
  import opened JsonValue

  datatype Position = Position(lat: real, lon: real, altM: Option<real>)
  datatype Attitude = Attitude(yawDeg: Option<real>)
  datatype Velocity = Velocity(groundspeedMps: Option<real>)
  datatype State = State(armed: Option<bool>, mode: Option<string>)
  datatype Battery = Battery(voltageV: Option<real>, remainingPct: Option<int>)
  datatype Link = Link(rssiDbm: Option<int>)

  /** A validated message; `ts` is the timestamp text, already normalised to UTC. */
  datatype TelemetryIn = TelemetryIn(
    schemaVersion: int,
    droneId: string,
    ts: string,
    position: Position,
    attitude: Option<Attitude>,
    velocity: Option<Velocity>,
    state: Option<State>,
    battery: Option<Battery>,
    link: Option<Link>)

  /** A top-level key that can be absent, present as null, or present with a value. */
  datatype Field<+T> = Missing | Null | Given(value: T)

  datatype RawPosition = RawPosition(lat: Option<real>, lon: Option<real>, altM: Option<real>)

  /**
   * A decoded request body, each known key already of its declared type
   * (None for absent or null); `extra` holds every other key.
   */
  datatype RawTelemetry = RawTelemetry(
    schemaVersion: Field<int>,
    droneId: Option<string>,
    ts: Option<string>,
    position: Option<RawPosition>,
    attitude: Option<Attitude>,
    velocity: Option<Velocity>,
    state: Option<State>,
    battery: Option<Battery>,
    link: Option<Link>,
    extra: map<string, Json>)

  datatype SchemaError =
    | SchemaVersionNull
    | DroneIdMissing
    | DroneIdInvalid
    | TsMissing
    | PositionMissing
    | LatMissing
    | LatOutOfRange
    | LonMissing
    | LonOutOfRange
    | AltOutOfRange
    | RemainingPctOutOfRange

  /** The character class `[A-Z0-9-_]`. */
  predicate DroneIdChar(c: char) {
    ('A' <= c <= 'Z') || ('0' <= c <= '9') || c == '-' || c == '_'
  }

  /** Between 3 and 64 characters, each from the class. */
  predicate ValidDroneId(s: string) {
    3 <= |s| <= 64 && forall i :: 0 <= i < |s| ==> DroneIdChar(s[i])
  }

  predicate ValidPosition(p: Position) {
    && -90.0 <= p.lat <= 90.0
    && -180.0 <= p.lon <= 180.0
    && (p.altM.Some? ==> -500.0 <= p.altM.value <= 20000.0)
  }

  predicate ValidBattery(b: Battery) {
    b.remainingPct.Some? ==> 0 <= b.remainingPct.value <= 100
  }

  /** Every field constraint of the message holds. */
  predicate ValidTelemetry(t: TelemetryIn) {
    ValidDroneId(t.droneId) && ValidPosition(t.position) && (t.battery.Some? ==> ValidBattery(t.battery.value))
  }

  /**
   * `raw` is a body that denotes message `t`: the known keys carry `t`'s
   * values, an absent schema_version stands for 1, and extra keys are
   * whatever they are.
   */
  predicate Decodes(raw: RawTelemetry, t: TelemetryIn) {
    && (raw.schemaVersion == Given(t.schemaVersion) || (raw.schemaVersion == Missing && t.schemaVersion == 1))
    && raw.droneId == Some(t.droneId)
    && raw.ts == Some(t.ts)
    && raw.position == Some(RawPosition(Some(t.position.lat), Some(t.position.lon), t.position.altM))
    && raw.attitude == t.attitude
    && raw.velocity == t.velocity
    && raw.state == t.state
    && raw.battery == t.battery
    && raw.link == t.link
  }

  function SchemaVersionErrors(f: Field<int>): set<SchemaError> {
    if f.Null? then {SchemaVersionNull} else {}
  }

  function DroneIdErrors(d: Option<string>): set<SchemaError> {
    if d.None? then {DroneIdMissing} else if !ValidDroneId(d.value) then {DroneIdInvalid} else {}
  }

  function PositionErrors(p: Option<RawPosition>): set<SchemaError> {
    if p.None? then {PositionMissing}
    else
      var q := p.value;
      (if q.lat.None? then {LatMissing} else if !(-90.0 <= q.lat.value <= 90.0) then {LatOutOfRange} else {})
      + (if q.lon.None? then {LonMissing} else if !(-180.0 <= q.lon.value <= 180.0) then {LonOutOfRange} else {})
      + (if q.altM.Some? && !(-500.0 <= q.altM.value <= 20000.0) then {AltOutOfRange} else {})
  }

  function BatteryErrors(b: Option<Battery>): set<SchemaError> {
    if b.Some? && !ValidBattery(b.value) then {RemainingPctOutOfRange} else {}
  }

  /** All field errors of the body; validation reports every one of them. */
  function Errors(raw: RawTelemetry): set<SchemaError> {
    SchemaVersionErrors(raw.schemaVersion)
    + DroneIdErrors(raw.droneId)
    + (if raw.ts.None? then {TsMissing} else {})
    + PositionErrors(raw.position)
    + BatteryErrors(raw.battery)
  }

  /**
   * `TelemetryIn.model_validate(body)`: a message exactly when the body
   * denotes a message meeting every constraint, the field errors otherwise.
   */
  function Validate(raw: RawTelemetry): (r: Result<TelemetryIn, set<SchemaError>>)
    ensures forall t :: r == Ok(t) <==> Decodes(raw, t) && ValidTelemetry(t)
    ensures r.Err? ==> r.error != {}
  {
    var errors := Errors(raw);
    if errors != {} then Err(errors)
    else
      var p := raw.position.value;
      Ok(TelemetryIn(
        if raw.schemaVersion.Given? then raw.schemaVersion.value else 1,
        raw.droneId.value,
        raw.ts.value,
        Position(p.lat.value, p.lon.value, p.altM),
        raw.attitude, raw.velocity, raw.state, raw.battery, raw.link))
  }

  /** Unknown keys never change the outcome. */
  lemma ExtraKeysIgnored(raw: RawTelemetry, extra: map<string, Json>)
    ensures Validate(raw.(extra := extra)) == Validate(raw)
  {
  }

  /** An absent schema_version is 1; a null one is an error. */
  lemma SchemaVersionDefault(raw: RawTelemetry)
    ensures raw.schemaVersion.Missing? && Validate(raw).Ok? ==> Validate(raw).value.schemaVersion == 1
    ensures raw.schemaVersion.Null? ==> Validate(raw).Err? && SchemaVersionNull in Validate(raw).error
  {
  }

  /** The identifier rule on the identifiers the tests use, and on lower case and spaces. */
  lemma {:induction false} DroneIdExamples(s: string, i: nat)
    requires i < |s| && (('a' <= s[i] <= 'z') || s[i] == ' ')
    ensures ValidDroneId("WX-DRN-001")
    ensures !ValidDroneId("bad name")
    ensures !ValidDroneId(s)
  {
    assert !DroneIdChar("bad name"[0]);
    assert !DroneIdChar(s[i]);
  }

  /** Each constraint violated by a present value shows up among the errors. */
  lemma ConstraintViolationsReported(raw: RawTelemetry)
    ensures raw.droneId.Some? && !ValidDroneId(raw.droneId.value) ==> Validate(raw) == Err(Errors(raw)) && DroneIdInvalid in Errors(raw)
    ensures raw.position.Some? && raw.position.value.lat.Some? && !(-90.0 <= raw.position.value.lat.value <= 90.0)
      ==> Validate(raw).Err? && LatOutOfRange in Validate(raw).error
    ensures raw.position.Some? && raw.position.value.lon.Some? && !(-180.0 <= raw.position.value.lon.value <= 180.0)
      ==> Validate(raw).Err? && LonOutOfRange in Validate(raw).error
    ensures raw.position.Some? && raw.position.value.altM.Some? && !(-500.0 <= raw.position.value.altM.value <= 20000.0)
      ==> Validate(raw).Err? && AltOutOfRange in Validate(raw).error
    ensures raw.battery.Some? && !ValidBattery(raw.battery.value)
      ==> Validate(raw).Err? && RemainingPctOutOfRange in Validate(raw).error
  {
  }
}
