/** Access-profile normalisation: normalizeAccessProfile and its alias tables
    (internal/core/service.go). */
module AccessProfile {
  import opened Text

  datatype Mapping = Mapping(source: string, property: string, scale: real, unit: string)

  datatype Profile = Profile(
    transport: string, protocol: string, ingestMode: string, payloadFormat: string, authMode: string,
    sensorTemplate: string, topic: string, notes: string,
    metadata: map<string, string>, mappings: seq<Mapping>)

  datatype Outcome = Normal(profile: Profile) | BlankMapping | InvalidProfile

  function Canon(value: string): string {
    ToLower(TrimSpace(value))
  }

  // ----- alias tables, over canonical spellings -----

  function TransportAlias(v: string): string {
    match v
    case "tcp" | "socket" => "tcp"
    case "http" | "https" => "http"
    case "mqtt" => "mqtt"
    case "rs485" | "serial" => "rs485"
    case "ethernet" => "ethernet"
    case "opcua" | "opc_ua" => "opcua"
    case "bacnet" | "bacnet_ip" => "bacnet"
    case "lorawan" | "lora" => "lorawan"
    case _ => v
  }

  function ProtocolAlias(v: string): string {
    match v
    case "" | "default" => ""
    case "tcp" | "tcp_json" | "json_lines" => "tcp_json"
    case "http" | "http_json" => "http_json"
    case "mqtt" | "mqtt_json" => "mqtt_json"
    case "modbus" | "modbus_tcp" => "modbus_tcp"
    case "modbus_rtu" => "modbus_rtu"
    case "opcua" | "opcua_json" => "opcua_json"
    case "bacnet" | "bacnet_ip" => "bacnet_ip"
    case "lorawan" | "lorawan_uplink" => "lorawan_uplink"
    case _ => v
  }

  function IngestModeAlias(v: string): string {
    match v
    case "" | "default" => ""
    case "gateway" | "gateway_tcp" | "direct" => "gateway_tcp"
    case "http" | "http_push" => "http_push"
    case "mqtt" | "mqtt_broker" | "broker_mqtt" => "broker_mqtt"
    case "bridge" | "bridge_http" | "webhook" => "bridge_http"
    case _ => v
  }

  function PayloadFormatAlias(v: string): string {
    match v
    case "" | "default" => ""
    case "json" | "json_values" => "json_values"
    case "flat" | "flat_json" => "flat_json"
    case "registers" | "register_map" => "register_map"
    case "mapped" | "mapped_json" => "mapped_json"
    case _ => v
  }

  function AuthModeAlias(v: string): string {
    match v
    case "" | "default" => ""
    case "token" | "device_token" => "token"
    case "bearer" | "bearer_token" => "bearer_token"
    case "bridge_secret" | "secret" => "bridge_secret"
    case _ => v
  }

  function Transport(value: string): string {
    TransportAlias(Canon(value))
  }

  function Protocol(value: string): string {
    ProtocolAlias(Canon(value))
  }

  function IngestMode(value: string): string {
    IngestModeAlias(Canon(value))
  }

  function PayloadFormat(value: string): string {
    PayloadFormatAlias(Canon(value))
  }

  function AuthMode(value: string): string {
    AuthModeAlias(Canon(value))
  }

  // ----- defaults for fields left empty -----

  function DefaultProtocol(ingestMode: string, transport: string): string {
    if ingestMode == "http_push" then "http_json"
    else if ingestMode == "bridge_http" || ingestMode == "broker_mqtt" || transport == "mqtt" then "mqtt_json"
    else if transport == "http" then "http_json"
    else "tcp_json"
  }

  function DefaultTransport(protocol: string): string {
    match protocol
    case "http_json" => "http"
    case "mqtt_json" => "mqtt"
    case "modbus_tcp" => "ethernet"
    case "modbus_rtu" => "rs485"
    case "opcua_json" => "opcua"
    case "bacnet_ip" => "bacnet"
    case "lorawan_uplink" => "lorawan"
    case _ => "tcp"
  }

  function DefaultIngestMode(protocol: string): string {
    match protocol
    case "tcp_json" => "gateway_tcp"
    case "http_json" | "modbus_tcp" | "modbus_rtu" => "http_push"
    case "mqtt_json" => "broker_mqtt"
    case _ => "bridge_http"
  }

  function DefaultPayloadFormat(protocol: string): string {
    match protocol
    case "modbus_tcp" | "modbus_rtu" => "register_map"
    case _ => "json_values"
  }

  function OrDefault(value: string, default: string): string {
    if value == "" then default else value
  }

  function Fields(p: Profile): Profile {
    var transport := Transport(p.transport);
    var ingest := IngestMode(p.ingestMode);
    var protocol := OrDefault(Protocol(p.protocol), DefaultProtocol(ingest, transport));
    Profile(
      OrDefault(transport, DefaultTransport(protocol)),
      protocol,
      OrDefault(ingest, DefaultIngestMode(protocol)),
      OrDefault(PayloadFormat(p.payloadFormat), DefaultPayloadFormat(protocol)),
      OrDefault(AuthMode(p.authMode), "token"),
      TrimSpace(ToLower(p.sensorTemplate)), TrimSpace(p.topic), TrimSpace(p.notes),
      p.metadata, p.mappings)
  }

  predicate Blank(m: Mapping) {
    TrimSpace(m.source) == "" || TrimSpace(m.property) == ""
  }

  function NormalMapping(m: Mapping): Mapping {
    Mapping(TrimSpace(m.source), TrimSpace(m.property), if m.scale == 0.0 then 1.0 else m.scale, TrimSpace(m.unit))
  }

  function Normalize(p: Profile): Outcome {
    if exists m :: m in p.mappings && Blank(m) then BlankMapping
    else Normal(Fields(p).(mappings := seq(|p.mappings|, i requires 0 <= i < |p.mappings| => NormalMapping(p.mappings[i]))))
  }

  /** The mode fields, rewritten step by step. */
  method NormalizeModes(input: Profile) returns (profile: Profile)
    ensures profile == Fields(input)
  {
    profile := input;
    profile := profile.(transport := Transport(profile.transport));
    profile := profile.(protocol := Protocol(profile.protocol));
    profile := profile.(ingestMode := IngestMode(profile.ingestMode));
    profile := profile.(payloadFormat := PayloadFormat(profile.payloadFormat));
    profile := profile.(authMode := AuthMode(profile.authMode));
    profile := profile.(sensorTemplate := TrimSpace(ToLower(profile.sensorTemplate)));
    profile := profile.(topic := TrimSpace(profile.topic));
    profile := profile.(notes := TrimSpace(profile.notes));

    if profile.protocol == "" {
      profile := profile.(protocol := DefaultProtocol(profile.ingestMode, profile.transport));
    }
    if profile.transport == "" {
      profile := profile.(transport := DefaultTransport(profile.protocol));
    }
    if profile.ingestMode == "" {
      profile := profile.(ingestMode := DefaultIngestMode(profile.protocol));
    }
    if profile.payloadFormat == "" {
      profile := profile.(payloadFormat := DefaultPayloadFormat(profile.protocol));
    }
    if profile.authMode == "" {
      profile := profile.(authMode := "token");
    }
  }

  /** None when a mapping has a blank source or property. */
  method NormalizeMappings(mappings: seq<Mapping>) returns (ok: bool, normalized: seq<Mapping>)
    ensures ok <==> forall m :: m in mappings ==> !Blank(m)
    ensures ok ==> |normalized| == |mappings| && forall k :: 0 <= k < |mappings| ==> normalized[k] == NormalMapping(mappings[k])
  {
    normalized := [];
    for i := 0 to |mappings|
      invariant |normalized| == i
      invariant forall k :: 0 <= k < i ==> !Blank(mappings[k]) && normalized[k] == NormalMapping(mappings[k])
    {
      var item := mappings[i];
      item := item.(source := TrimSpace(item.source));
      item := item.(property := TrimSpace(item.property));
      item := item.(unit := TrimSpace(item.unit));
      if item.source == "" || item.property == "" {
        assert Blank(mappings[i]);
        return false, [];
      }
      if item.scale == 0.0 {
        item := item.(scale := 1.0);
      }
      normalized := normalized + [item];
    }
    ok := true;
  }

  /** The error for a mode field left empty (`InvalidProfile`) can never be returned. */
  method NormalizeAccessProfile(input: Profile) returns (r: Outcome)
    ensures r == Normalize(input)
    ensures !r.InvalidProfile?
    ensures r.BlankMapping? <==> exists m :: m in input.mappings && Blank(m)
  {
    var profile := NormalizeModes(input);
    if profile.protocol == "" || profile.transport == "" || profile.ingestMode == ""
      || profile.payloadFormat == "" || profile.authMode == ""
    {
      ModesFilled(input);
      return InvalidProfile;
    }
    var ok, mappings := NormalizeMappings(profile.mappings);
    if !ok {
      return BlankMapping;
    }
    profile := profile.(mappings := mappings);
    assert mappings == seq(|input.mappings|, i requires 0 <= i < |input.mappings| => NormalMapping(input.mappings[i]));
    return Normal(profile);
  }

  lemma DefaultsFilled(protocol: string, ingestMode: string, transport: string)
    ensures |DefaultProtocol(ingestMode, transport)| > 0 && |DefaultTransport(protocol)| > 0
    ensures |DefaultIngestMode(protocol)| > 0 && |DefaultPayloadFormat(protocol)| > 0
  {
  }

  /** Every mode field is filled in, for every input. */
  lemma ModesFilled(p: Profile)
    ensures var q := Fields(p);
            q.transport != "" && q.protocol != "" && q.ingestMode != "" && q.payloadFormat != "" && q.authMode != ""
  {
    DefaultsFilled(Fields(p).protocol, IngestMode(p.ingestMode), Transport(p.transport));
  }

  // ----- a normal value is its own alias -----

  lemma CanonFixed(value: string)
    ensures Canon(Canon(value)) == Canon(value)
  {
    LowerAfterTrim(value);
  }

  /** The tables only hold words of this kind. */
  ghost predicate Plain(w: string) {
    forall i :: 0 <= i < |w| ==> 'a' <= w[i] <= 'z' || '0' <= w[i] <= '9' || w[i] == '_'
  }

  lemma PlainIsCanon(w: string)
    requires Plain(w)
    ensures Canon(w) == w
  {
    TrimIsTrimmed(IsSpace, w);
    assert ToLower(w) == w;
  }

  lemma TransportStable(v: string)
    ensures TransportAlias(TransportAlias(v)) == TransportAlias(v)
  {
  }

  lemma TransportWord(v: string)
    ensures TransportAlias(v) == v || Plain(TransportAlias(v))
  {
  }

  lemma TransportFixed(value: string)
    ensures Transport(Transport(value)) == Transport(value)
  {
    CanonFixed(value);
    TransportStable(Canon(value));
    TransportWord(Canon(value));
    if Transport(value) != Canon(value) { PlainIsCanon(Transport(value)); }
  }

  lemma ProtocolStable(v: string)
    ensures ProtocolAlias(ProtocolAlias(v)) == ProtocolAlias(v)
  {
  }

  lemma ProtocolWord(v: string)
    ensures ProtocolAlias(v) == v || Plain(ProtocolAlias(v))
  {
  }

  lemma ProtocolFixed(value: string)
    ensures Protocol(Protocol(value)) == Protocol(value)
  {
    CanonFixed(value);
    ProtocolStable(Canon(value));
    ProtocolWord(Canon(value));
    if Protocol(value) != Canon(value) { PlainIsCanon(Protocol(value)); }
  }

  lemma IngestModeStable(v: string)
    ensures IngestModeAlias(IngestModeAlias(v)) == IngestModeAlias(v)
  {
  }

  lemma IngestModeWord(v: string)
    ensures IngestModeAlias(v) == v || Plain(IngestModeAlias(v))
  {
  }

  lemma IngestModeFixed(value: string)
    ensures IngestMode(IngestMode(value)) == IngestMode(value)
  {
    CanonFixed(value);
    IngestModeStable(Canon(value));
    IngestModeWord(Canon(value));
    if IngestMode(value) != Canon(value) { PlainIsCanon(IngestMode(value)); }
  }

  lemma PayloadFormatStable(v: string)
    ensures PayloadFormatAlias(PayloadFormatAlias(v)) == PayloadFormatAlias(v)
  {
  }

  lemma PayloadFormatWord(v: string)
    ensures PayloadFormatAlias(v) == v || Plain(PayloadFormatAlias(v))
  {
  }

  lemma PayloadFormatFixed(value: string)
    ensures PayloadFormat(PayloadFormat(value)) == PayloadFormat(value)
  {
    CanonFixed(value);
    PayloadFormatStable(Canon(value));
    PayloadFormatWord(Canon(value));
    if PayloadFormat(value) != Canon(value) { PlainIsCanon(PayloadFormat(value)); }
  }

  lemma AuthModeStable(v: string)
    ensures AuthModeAlias(AuthModeAlias(v)) == AuthModeAlias(v)
  {
  }

  lemma AuthModeWord(v: string)
    ensures AuthModeAlias(v) == v || Plain(AuthModeAlias(v))
  {
  }

  lemma AuthModeFixed(value: string)
    ensures AuthMode(AuthMode(value)) == AuthMode(value)
  {
    CanonFixed(value);
    AuthModeStable(Canon(value));
    AuthModeWord(Canon(value));
    if AuthMode(value) != Canon(value) { PlainIsCanon(AuthMode(value)); }
  }

  lemma DefaultProtocolWord(ingestMode: string, transport: string)
    ensures Plain(DefaultProtocol(ingestMode, transport))
  {
  }

  lemma DefaultProtocolStable(ingestMode: string, transport: string)
    ensures ProtocolAlias(DefaultProtocol(ingestMode, transport)) == DefaultProtocol(ingestMode, transport)
  {
  }

  lemma DefaultProtocolFixed(ingestMode: string, transport: string)
    ensures Protocol(DefaultProtocol(ingestMode, transport)) == DefaultProtocol(ingestMode, transport)
  {
    DefaultProtocolWord(ingestMode, transport);
    DefaultProtocolStable(ingestMode, transport);
    PlainIsCanon(DefaultProtocol(ingestMode, transport));
  }

  lemma DefaultTransportWord(protocol: string)
    ensures Plain(DefaultTransport(protocol))
  {
  }

  lemma DefaultTransportStable(protocol: string)
    ensures TransportAlias(DefaultTransport(protocol)) == DefaultTransport(protocol)
  {
  }

  lemma DefaultTransportFixed(protocol: string)
    ensures Transport(DefaultTransport(protocol)) == DefaultTransport(protocol)
  {
    DefaultTransportWord(protocol);
    DefaultTransportStable(protocol);
    PlainIsCanon(DefaultTransport(protocol));
  }

  lemma DefaultIngestModeWord(protocol: string)
    ensures Plain(DefaultIngestMode(protocol))
  {
  }

  lemma DefaultIngestModeStable(protocol: string)
    ensures IngestModeAlias(DefaultIngestMode(protocol)) == DefaultIngestMode(protocol)
  {
  }

  lemma DefaultIngestModeFixed(protocol: string)
    ensures IngestMode(DefaultIngestMode(protocol)) == DefaultIngestMode(protocol)
  {
    DefaultIngestModeWord(protocol);
    DefaultIngestModeStable(protocol);
    PlainIsCanon(DefaultIngestMode(protocol));
  }

  lemma DefaultPayloadFormatWord(protocol: string)
    ensures Plain(DefaultPayloadFormat(protocol))
  {
  }

  lemma DefaultPayloadFormatStable(protocol: string)
    ensures PayloadFormatAlias(DefaultPayloadFormat(protocol)) == DefaultPayloadFormat(protocol)
  {
  }

  lemma DefaultPayloadFormatFixed(protocol: string)
    ensures PayloadFormat(DefaultPayloadFormat(protocol)) == DefaultPayloadFormat(protocol)
  {
    DefaultPayloadFormatWord(protocol);
    DefaultPayloadFormatStable(protocol);
    PlainIsCanon(DefaultPayloadFormat(protocol));
  }

  lemma TokenFixed()
    ensures AuthMode("token") == "token"
  {
    assert Plain("token");
    PlainIsCanon("token");
  }

  lemma FieldsIdempotent(p: Profile)
    ensures Fields(Fields(p)) == Fields(p)
  {
    var q := Fields(p);
    TransportFixed(p.transport);
    ProtocolFixed(p.protocol);
    IngestModeFixed(p.ingestMode);
    PayloadFormatFixed(p.payloadFormat);
    AuthModeFixed(p.authMode);
    DefaultProtocolFixed(IngestMode(p.ingestMode), Transport(p.transport));
    DefaultTransportFixed(q.protocol);
    DefaultIngestModeFixed(q.protocol);
    DefaultPayloadFormatFixed(q.protocol);
    TokenFixed();
    TrimAfterLower(p.sensorTemplate);
    TrimIsTrimmed(IsSpace, p.topic);
    TrimIsTrimmed(IsSpace, Trim(IsSpace, p.topic));
    TrimIsTrimmed(IsSpace, p.notes);
    TrimIsTrimmed(IsSpace, Trim(IsSpace, p.notes));
    var r := Fields(q);
    assert r.protocol == q.protocol;
    assert r.transport == q.transport;
    assert r.ingestMode == q.ingestMode;
    assert r.payloadFormat == q.payloadFormat;
    assert r.authMode == q.authMode;
  }

  lemma MappingFixed(m: Mapping)
    requires !Blank(m)
    ensures NormalMapping(NormalMapping(m)) == NormalMapping(m) && !Blank(NormalMapping(m))
  {
    TrimIsTrimmed(IsSpace, m.source);
    TrimIsTrimmed(IsSpace, TrimSpace(m.source));
    TrimIsTrimmed(IsSpace, m.property);
    TrimIsTrimmed(IsSpace, TrimSpace(m.property));
    TrimIsTrimmed(IsSpace, m.unit);
    TrimIsTrimmed(IsSpace, TrimSpace(m.unit));
  }

  /** An accepted profile is accepted again, unchanged. */
  lemma NormalizeIdempotent(p: Profile)
    requires Normalize(p).Normal?
    ensures Normalize(Normalize(p).profile) == Normalize(p)
  {
    var q := Normalize(p).profile;
    FieldsIdempotent(p);
    assert Fields(q) == Fields(Fields(p)).(mappings := q.mappings);
    forall i | 0 <= i < |q.mappings|
      ensures !Blank(q.mappings[i]) && NormalMapping(q.mappings[i]) == q.mappings[i]
    {
      MappingFixed(p.mappings[i]);
    }
    assert Normalize(q).profile.mappings == q.mappings;
  }
}
