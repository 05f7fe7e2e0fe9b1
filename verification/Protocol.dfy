/** Wire-level vocabulary shared by the switch aggregator and the session broker. */
module Protocol {

  datatype Option<+T> = None | Some(value: T)
  datatype Result<+T, +E> = Ok(value: T) | Err(error: E)

  type MappingId = string
  type SwitchId = string
  type SessionId = string
  type ClientId = nat

  /** A reading of the monotonic clock, in nanoseconds. */
  type Time = nat

  const PROTOCOL_VERSION := "0.3.0"
  const HEARTBEAT_INTERVAL_MS: nat := 500
  const MISSED_HEARTBEAT_LIMIT: nat := 3
  const ESCAPE_HOLD_MS: nat := 4000
  const NANOS_PER_MILLI: nat := 1_000_000
  const LEASE: Time := HEARTBEAT_INTERVAL_MS * MISSED_HEARTBEAT_LIMIT * NANOS_PER_MILLI
  const ESCAPE_HOLD: Time := ESCAPE_HOLD_MS * NANOS_PER_MILLI
  const U64_MAX: nat := 0xFFFF_FFFF_FFFF_FFFF

  datatype Action = Pressed | Released
  datatype SwitchState = IsPressed | IsReleased

  datatype SwitchSnapshot = SwitchSnapshot(switchId: SwitchId, state: SwitchState, confidence: Option<real>)

  /** An outer edge of one logical switch. */
  datatype LogicalTransition = LogicalTransition(switchId: SwitchId, action: Action, confidence: Option<real>)

  /** A logical edge as numbered and stamped for the wire. */
  datatype SwitchEvent = SwitchEvent(sequence: nat, monotonicUs: nat, edge: LogicalTransition)

  datatype RequestedMode = ExclusiveForeground | Unsupported(name: string)
  datatype Handshake = Handshake(protocolVersion: string, appId: string, mode: RequestedMode, pid: Option<nat>)

  datatype RejectionReason = ProtocolMismatch | InvalidAppId | UnsupportedMode | SessionBusy | CaptureUnavailable
  datatype RevocationReason = HeartbeatTimeout | QueueOverflow | ExplicitRevocation | FocusLost | EscapeHatch

  datatype ServerMessage =
    | Hello(switches: seq<SwitchSnapshot>)
    | Event(event: SwitchEvent)
    | Accepted(acceptedId: SessionId, heartbeatIntervalMs: nat, missedHeartbeatLimit: nat)
    | Rejected(rejection: RejectionReason)
    | SessionRevoked(revokedId: SessionId, reason: RevocationReason)

  /** A 32-bit float confidence as it arrives: absent, a finite number, or NaN/infinity. */
  datatype Reading = Absent | Finite(value: real) | NotFinite

  /** Out-of-range and non-finite readings become "unknown". */
  function ValidateConfidence(reading: Reading): (r: Option<real>)
    ensures r.Some? <==> reading.Finite? && !(reading.value < 0.0) && !(100.0 < reading.value)
    ensures r.Some? ==> r.value == reading.value
  {
    if reading.Finite? && 0.0 <= reading.value <= 100.0 then Some(reading.value) else None
  }

  predicate ValidAppIdChar(c: char) {
    'a' <= c <= 'z' || 'A' <= c <= 'Z' || '0' <= c <= '9' || c == '.' || c == '_' || c == '-'
  }

  predicate ValidAppId(appId: string) {
    1 <= |appId| <= 128 && forall i :: 0 <= i < |appId| ==> ValidAppIdChar(appId[i])
  }

  /** A valid application id is 1 to 128 ASCII letters, digits, dots, underscores and hyphens, by character code. */
  lemma AppIdsAreShortAsciiNames(appId: string)
    ensures ValidAppId(appId) <==>
      && 0 < |appId| < 129
      && forall i :: 0 <= i < |appId| ==>
           var code := appId[i] as int;
           48 <= code <= 57 || 65 <= code <= 90 || 97 <= code <= 122 || code in {45, 46, 95}
  {
  }

  /** `Instant::elapsed`, which saturates at zero. */
  function Elapsed(at: Time, since: Time): Time {
    if since <= at then at - since else 0
  }

  /** Whole microseconds since `started`, clamped to 64 bits. */
  function MonotonicUs(at: Time, started: Time): nat {
    var us := Elapsed(at, started) / 1000;
    if us <= U64_MAX then us else U64_MAX
  }
}
