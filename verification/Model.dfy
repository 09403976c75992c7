/** The daemon's data, the functions of the protocol core it calls, and the JSON views it publishes. */
module Model {
  import opened Text
  import opened Json
  import opened Identity
  import opened Coercion

  // ---- configuration ----

  datatype PayloadFormat = Scalar | NetixEnvelope

  datatype Theme = Auto | Light | Dark

  datatype Mqtt = Mqtt(
    host: string, port: nat, useTls: bool, clientId: string,
    topicPrefix: string, healthTopic: string,
    username: Option<string>, password: Option<string>, passwordEnv: Option<string>,
    caCertPath: Option<string>, clientCertPath: Option<string>, clientKeyPath: Option<string>,
    clientKeyPassphrase: Option<string>, rememberSecrets: bool,
    retain: bool, keepAliveSecs: nat, payloadFormat: PayloadFormat,
    deviceTopicPrefix: string, autostart: bool)

  datatype PointConfig = PointConfig(
    enabled: bool, deviceKey: string, addressing: Addressing, tagPath: string, pollIntervalSecs: nat)

  datatype Config = Config(
    protocol: string, mqtt: Mqtt, theme: Theme, discoverOnStart: bool,
    connections: map<string, Addressing>, points: seq<PointConfig>)

  /** The connection fields of the selected protocol. */
  function Connection(config: Config): Addressing {
    if config.protocol in config.connections then config.connections[config.protocol] else map[]
  }

  function PointIdentityOf(point: PointConfig): PointIdentity {
    Identify(point.addressing)
  }

  // ---- run-time data ----

  datatype Value = Value(json: Json, display: string)

  datatype Device = Device(key: string, instance: Option<nat>, address: string, detail: string)

  datatype DiscoveredPoint = DiscoveredPoint(
    deviceKey: string, name: Option<string>, description: Option<string>, units: Option<string>,
    value: Option<Value>, addressing: Addressing, suggestedTagPath: string)

  datatype PointStatus = PointStatus(
    lastValue: Option<Value>, lastSampleMs: Option<int>, stale: bool, consecutiveFailures: nat,
    lastError: Option<string>, lastPublishError: Option<string>)

  datatype Sample = Sample(point: PointConfig, topic: string, value: Value, timestampMs: int)

  datatype Level = Info | Warning | Error

  datatype Lifecycle = Starting | Running | Stopping | Stopped | Failed(error: string)

  datatype LogRecord = LogRecord(number: nat, tsMs: int, level: string, message: string)

  // ---- the protocol core, whose code is not part of this model ----

  datatype Capabilities = Capabilities(
    id: string, connectionFields: seq<FieldSpec>, addressingFields: seq<FieldSpec>)

  /** Everything the daemon takes from outside: arbitrary functions here, so that what is
      proved holds for any core. `clock` gives the time of each log record by its number, and
      `persisted` is what a save of a configuration puts in the file. */
  datatype Core = Core(
    capabilities: seq<Capabilities>,
    registry: set<string>,
    clock: nat -> int,
    validate: Config -> Option<string>,
    persisted: Config -> Config,
    telemetryTopic: (Mqtt, PointConfig) -> string,
    displayName: PointConfig -> string,
    addressingDisplay: Addressing -> string,
    freshStatus: PointStatus,
    recordSample: (PointStatus, Sample) -> PointStatus,
    recordReadFailure: (PointStatus, string) -> PointStatus,
    recordPublishSuccess: PointStatus -> PointStatus,
    recordPublishFailure: (PointStatus, string) -> PointStatus)

  function FindCapabilities(caps: seq<Capabilities>, id: string): Option<Capabilities> {
    if caps == [] then None
    else if caps[0].id == id then Some(caps[0])
    else FindCapabilities(caps[1..], id)
  }

  /** Every field a protocol declares has a name without `=`. */
  predicate PlainFields(specs: seq<FieldSpec>) {
    forall i :: 0 <= i < |specs| ==> '=' !in specs[i].key
  }

  predicate PlainCore(core: Core) {
    forall i :: 0 <= i < |core.capabilities| ==> PlainFields(core.capabilities[i].addressingFields)
  }

  predicate PlainPoints(points: seq<PointConfig>) {
    forall i :: 0 <= i < |points| ==> PlainNames(points[i].addressing)
  }

  // ---- views ----

  datatype LifecycleDto = LifecycleDto(state: string, error: Option<string>)

  function LifecycleView(l: Lifecycle): LifecycleDto {
    match l
    case Starting => LifecycleDto("starting", None)
    case Running => LifecycleDto("running", None)
    case Stopping => LifecycleDto("stopping", None)
    case Stopped => LifecycleDto("stopped", None)
    case Failed(error) => LifecycleDto("failed", Some(error))
  }

  function LevelText(level: Level): string {
    match level
    case Info => "info"
    case Warning => "warning"
    case Error => "error"
  }

  datatype DeviceDto = DeviceDto(index: nat, device: Device)

  function DeviceViews(devices: seq<Device>): (views: seq<DeviceDto>)
    ensures |views| == |devices|
  {
    seq(|devices|, i requires 0 <= i < |devices| => DeviceDto(i, devices[i]))
  }

  datatype BrowsedDto = BrowsedDto(index: nat, found: DiscoveredPoint, addressingDisplay: string)

  function BrowsedViews(core: Core, browsed: seq<DiscoveredPoint>): seq<BrowsedDto> {
    seq(|browsed|, i requires 0 <= i < |browsed| =>
      BrowsedDto(i, browsed[i], core.addressingDisplay(browsed[i].addressing)))
  }

  datatype StatusDto = StatusDto(
    state: string, lastValue: Option<Value>, lastSampleMs: Option<int>, stale: bool,
    consecutiveFailures: nat, lastError: Option<string>, lastPublishError: Option<string>)

  /** The status chip: publish error before read error before stale before ok. */
  function StatusView(status: Option<PointStatus>): StatusDto {
    match status
    case None => StatusDto("unknown", None, None, true, 0, None, None)
    case Some(s) =>
      var state :=
        if s.lastPublishError.Some? then "publish_error"
        else if s.lastError.Some? then "read_error"
        else if s.stale then "stale"
        else "ok";
      StatusDto(state, s.lastValue, s.lastSampleMs, s.stale, s.consecutiveFailures, s.lastError, s.lastPublishError)
  }

  datatype PointDto = PointDto(
    index: nat, identity: string, enabled: bool, deviceKey: string, tagPath: string,
    pollIntervalSecs: nat, addressing: Addressing, addressingDisplay: string,
    displayName: string, topic: string, status: StatusDto)

  type Statuses = map<PointIdentity, PointStatus>

  function Lookup(statuses: Statuses, id: PointIdentity): Option<PointStatus> {
    if id in statuses then Some(statuses[id]) else None
  }

  function PointView(core: Core, index: nat, point: PointConfig, mqtt: Mqtt, status: Option<PointStatus>): PointDto {
    PointDto(index, Key(PointIdentityOf(point)), point.enabled, point.deviceKey, point.tagPath,
             point.pollIntervalSecs, point.addressing, core.addressingDisplay(point.addressing),
             core.displayName(point), core.telemetryTopic(mqtt, point), StatusView(status))
  }

  function PointViews(core: Core, config: Config, statuses: Statuses): (views: seq<PointDto>)
    ensures |views| == |config.points|
  {
    seq(|config.points|, i requires 0 <= i < |config.points| =>
      PointView(core, i, config.points[i], config.mqtt,
                Lookup(statuses, PointIdentityOf(config.points[i]))))
  }

  datatype SampleDto = SampleDto(
    identity: string, deviceKey: string, tagPath: string, displayName: string,
    topic: string, value: Value, timestampMs: int)

  function SampleView(core: Core, sample: Sample): SampleDto {
    SampleDto(Key(PointIdentityOf(sample.point)), sample.point.deviceKey, sample.point.tagPath,
              core.displayName(sample.point), sample.topic, sample.value, sample.timestampMs)
  }

  function SampleViews(core: Core, samples: seq<Sample>): (views: seq<SampleDto>)
    ensures |views| == |samples|
  {
    seq(|samples|, i requires 0 <= i < |samples| => SampleView(core, samples[i]))
  }

  datatype Secrets = Secrets(passwordSet: bool, passphraseSet: bool)

  datatype Redacted = Redacted(config: Config, secrets: Secrets)

  function Redact(config: Config): Redacted {
    Redacted(config.(mqtt := config.mqtt.(password := None, clientKeyPassphrase := None)),
             Secrets(config.mqtt.password.Some?, config.mqtt.clientKeyPassphrase.Some?))
  }

  // ---- bounded windows ----

  function FirstN<T>(n: nat, xs: seq<T>): seq<T> {
    if |xs| <= n then xs else xs[..n]
  }

  function LastN<T>(n: nat, xs: seq<T>): seq<T> {
    if |xs| <= n then xs else xs[|xs| - n..]
  }

  function Reverse<T>(xs: seq<T>): (r: seq<T>)
    ensures |r| == |xs|
  {
    if xs == [] then [] else [xs[|xs| - 1]] + Reverse(xs[..|xs| - 1])
  }
}
