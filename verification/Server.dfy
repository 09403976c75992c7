/** What every worker event and request does to the daemon's state and which deltas it
    broadcasts, as a sequence of small operations under the state's lock. */
module Server {
  import opened Text
  import opened Identity
  import opened Coercion
  import opened Model
  import opened Points
  import Settings

  const LOG_CAPACITY: nat := 500
  const RECENT_SAMPLE_CAPACITY: nat := 200

  /** The state behind the lock. Stop flags are numbered: `flags` have been made, and
      `raised` are those set; a worker holds the flag it was started with. */
  datatype Shared = Shared(
    config: Config, devices: seq<Device>, browsed: seq<DiscoveredPoint>,
    scanProgress: Option<(nat, nat)>, statuses: Statuses, recentSamples: seq<SampleDto>,
    logs: seq<LogRecord>, logSeq: nat, lifecycle: Lifecycle, stopFlag: Option<nat>,
    publishedTotal: nat, ackedTotal: nat, lastError: Option<string>, statusLine: string,
    flags: nat, raised: set<nat>)

  // ---- what is sent ----

  datatype StatusInfo = StatusInfo(
    statusLine: string, protocol: string, lifecycle: LifecycleDto, points: nat, devices: nat,
    publishedTotal: nat, ackedTotal: nat, lastError: Option<string>, stalePoints: nat,
    scanProgress: Option<(nat, nat)>)

  datatype Snapshot = Snapshot(
    status: StatusInfo, capabilities: seq<Capabilities>, config: Redacted, devices: seq<DeviceDto>,
    browsed: seq<BrowsedDto>, points: seq<PointDto>, recentSamples: seq<SampleDto>, logs: seq<LogRecord>)

  datatype Delta =
    | LogDelta(record: LogRecord, statusLine: Option<string>)
    | DevicesDelta(devices: seq<DeviceDto>)
    | BrowsedDelta(browsed: seq<BrowsedDto>)
    | ProgressDelta(current: nat, total: nat)
    | PointsDelta(points: seq<PointDto>)
    | SamplesDelta(samples: seq<SampleDto>, statuses: map<string, StatusDto>)
    | StatusesDelta(statuses: map<string, StatusDto>)
    | StatsDelta(publishedTotal: nat, ackedTotal: nat, lastError: Option<string>)
    | LifecycleDelta(lifecycle: LifecycleDto)
    | ConfigDelta(config: Redacted)

  function StatusJson(s: Shared): StatusInfo {
    StatusInfo(s.statusLine, s.config.protocol, LifecycleView(s.lifecycle), |s.config.points|, |s.devices|,
               s.publishedTotal, s.ackedTotal, s.lastError,
               |set id | id in s.statuses && s.statuses[id].stale|, s.scanProgress)
  }

  function SnapshotJson(core: Core, s: Shared): Snapshot {
    Snapshot(StatusJson(s), core.capabilities, Redact(s.config), DeviceViews(s.devices),
             BrowsedViews(core, s.browsed), PointViews(core, s.config, s.statuses),
             s.recentSamples, s.logs)
  }

  /** The parts of a client's mirror that are replaced whole. */
  datatype Part =
    DevicesPart | BrowsedPart | ConfigPart | PointsPart | TopicsPart | StatsPart | LifecyclePart |
    StatusLinePart | ProgressPart

  /** The history of a run: deltas in the order they were sent, and a mark wherever some part of
      the state was changed without sending it; `forgets` if that dropped all point statuses. */
  datatype Item = Sent(delta: Delta) | Quiet(parts: set<Part>, forgets: bool)

  datatype Out = Out(s: Shared, trace: seq<Item>)

  function Deltas(trace: seq<Item>): seq<Delta> {
    if trace == [] then []
    else
      var n := |trace| - 1;
      match trace[n]
      case Sent(d) => Deltas(trace[..n]) + [d]
      case Quiet(_, _) => Deltas(trace[..n])
  }

  // ---- per-point status ----

  /** One report about a point: a reading, a failed reading, or a publish result. */
  datatype Report =
    | Read(sample: Sample)
    | Missed(point: PointConfig, error: string)
    | Published(identity: PointIdentity, failure: Option<string>)

  function ReportIdentity(r: Report): PointIdentity {
    match r
    case Read(sample) => PointIdentityOf(sample.point)
    case Missed(point, _) => PointIdentityOf(point)
    case Published(identity, _) => identity
  }

  function Updated(core: Core, status: PointStatus, r: Report): PointStatus {
    match r
    case Read(sample) => (core.recordSample)(status, sample)
    case Missed(_, error) => (core.recordReadFailure)(status, error)
    case Published(_, None) => (core.recordPublishSuccess)(status)
    case Published(_, Some(message)) => (core.recordPublishFailure)(status, message)
  }

  function Current(core: Core, statuses: Statuses, id: PointIdentity): PointStatus {
    if id in statuses then statuses[id] else core.freshStatus
  }

  function Reported(core: Core, statuses: Statuses, reports: seq<Report>): Statuses {
    if reports == [] then statuses
    else
      var n := |reports| - 1;
      var before := Reported(core, statuses, reports[..n]);
      var id := ReportIdentity(reports[n]);
      before[id := Updated(core, Current(core, before, id), reports[n])]
  }

  /** The `statuses` object of the delta: for each key the status after its latest report. */
  function ChangedViews(core: Core, statuses: Statuses, reports: seq<Report>): map<string, StatusDto> {
    if reports == [] then map[]
    else
      var n := |reports| - 1;
      var id := ReportIdentity(reports[n]);
      ChangedViews(core, statuses, reports[..n])
        [Key(id) := StatusView(Lookup(Reported(core, statuses, reports), id))]
  }

  lemma NoReports(core: Core, statuses: Statuses)
    ensures Reported(core, statuses, []) == statuses && ChangedViews(core, statuses, []) == map[]
  {
  }

  lemma ReportAt(core: Core, statuses: Statuses, reports: seq<Report>, i: nat)
    requires i < |reports|
    ensures var before := Reported(core, statuses, reports[..i]);
            var id := ReportIdentity(reports[i]);
            var status := Updated(core, Current(core, before, id), reports[i]);
            && Reported(core, statuses, reports[..i + 1]) == before[id := status]
            && ChangedViews(core, statuses, reports[..i + 1]) ==
               ChangedViews(core, statuses, reports[..i])[Key(id) := StatusView(Some(status))]
  {
    hide Key, Identify, StatusView;
    assert reports[..i + 1][..i] == reports[..i];
  }

  function Reads(samples: seq<Sample>): (reports: seq<Report>)
    ensures |reports| == |samples|
  {
    seq(|samples|, i requires 0 <= i < |samples| => Read(samples[i]))
  }

  // ---- small operations ----

  datatype Op =
    | Log(level: Level, message: string)
    | Status(level: Level, message: string)
    | SetDevices(devices: seq<Device>)
    | EmitDevices
    | SetBrowsed(browsed: seq<DiscoveredPoint>)
    | EmitBrowsed
    | SetProgress(progress: Option<(nat, nat)>)
    | EmitProgress
    | Store(config: Config)
    | EmitConfig
    | ClearStatuses
    | EmitPoints
    | TakeSamples(samples: seq<Sample>)
    | TakeReports(reports: seq<Report>)
    | TakeStats(published: nat, acked: nat, error: Option<string>)
    | SetLifecycle(lifecycle: Lifecycle)
    | Launch
    | RaiseStop

  function NextRecord(core: Core, s: Shared, level: Level, message: string): LogRecord {
    LogRecord(s.logSeq + 1, (core.clock)(s.logSeq + 1), LevelText(level), message)
  }

  function PushLog(core: Core, s: Shared, level: Level, message: string): Shared {
    s.(logs := LastN(LOG_CAPACITY, s.logs + [NextRecord(core, s, level, message)]), logSeq := s.logSeq + 1)
  }

  /** The parts an edit of the configuration changes. */
  function Changed(before: Config, after: Config): set<Part> {
    (if before.(points := []) == after.(points := []) then {} else {ConfigPart})
    + (if before.points == after.points then {} else {PointsPart})
    + (if before.mqtt == after.mqtt then {} else {TopicsPart})
  }

  /** `published` is an increment, `acked` a running total, and the error replaces the last one. */
  function WithStats(s: Shared, published: nat, acked: nat, error: Option<string>): Shared {
    s.(publishedTotal := s.publishedTotal + published,
       ackedTotal := if acked > s.ackedTotal then acked else s.ackedTotal,
       lastError := error)
  }

  /** A new run: its own stop flag, and counters from zero. */
  function Launched(s: Shared): Shared {
    s.(stopFlag := Some(s.flags), flags := s.flags + 1,
       publishedTotal := 0, ackedTotal := 0, lastError := None)
  }

  /** The new state, and the item the operation adds to the history, if any. */
  function Effect(core: Core, s: Shared, op: Op): (r: (Shared, seq<Item>))
    ensures |r.1| <= 1
  {
    match op
    case Log(level, message) =>
      (PushLog(core, s, level, message), [Sent(LogDelta(NextRecord(core, s, level, message), None))])
    case Status(level, message) =>
      (PushLog(core, s, level, message).(statusLine := message),
       [Sent(LogDelta(NextRecord(core, s, level, message), Some(message)))])
    case SetDevices(devices) => (s.(devices := devices), [Quiet({DevicesPart}, false)])
    case EmitDevices => (s, [Sent(DevicesDelta(DeviceViews(s.devices)))])
    case SetBrowsed(browsed) => (s.(browsed := browsed), [Quiet({BrowsedPart}, false)])
    case EmitBrowsed => (s, [Sent(BrowsedDelta(BrowsedViews(core, s.browsed)))])
    case SetProgress(progress) => (s.(scanProgress := progress), [Quiet({ProgressPart}, false)])
    case EmitProgress =>
      (s, if s.scanProgress.Some? then [Sent(ProgressDelta(s.scanProgress.value.0, s.scanProgress.value.1))] else [])
    case Store(config) => (s.(config := config), [Quiet(Changed(s.config, config), false)])
    case EmitConfig => (s, [Sent(ConfigDelta(Redact(s.config)))])
    case ClearStatuses => (s.(statuses := map[]), [Quiet({PointsPart}, true)])
    case EmitPoints => (s, [Sent(PointsDelta(PointViews(core, s.config, s.statuses)))])
    case TakeSamples(samples) =>
      var views := SampleViews(core, samples);
      (s.(statuses := Reported(core, s.statuses, Reads(samples)),
          recentSamples := FirstN(RECENT_SAMPLE_CAPACITY, Reverse(views) + s.recentSamples)),
       [Sent(SamplesDelta(views, ChangedViews(core, s.statuses, Reads(samples))))])
    case TakeReports(reports) =>
      (s.(statuses := Reported(core, s.statuses, reports)),
       [Sent(StatusesDelta(ChangedViews(core, s.statuses, reports)))])
    case TakeStats(published, acked, error) =>
      var next := WithStats(s, published, acked, error);
      (next, [Sent(StatsDelta(next.publishedTotal, next.ackedTotal, next.lastError))])
    case SetLifecycle(lifecycle) =>
      (s.(lifecycle := lifecycle), [Sent(LifecycleDelta(LifecycleView(lifecycle)))])
    case Launch =>
      (Launched(s), [Quiet({StatsPart}, false)])
    case RaiseStop =>
      (if s.stopFlag.Some? then s.(raised := s.raised + {s.stopFlag.value}) else s, [])
  }

  function Do(core: Core, o: Out, op: Op): Out {
    var (s, items) := Effect(core, o.s, op);
    Out(s, o.trace + items)
  }

  /** What an operation does not speak of stays. */
  lemma DoFrame(core: Core, o: Out, op: Op)
    ensures var after := Do(core, o, op).s;
            && after.config == (if op.Store? then op.config else o.s.config)
            && after.scanProgress == (if op.SetProgress? then op.progress else o.s.scanProgress)
            && (!op.TakeSamples? && !op.TakeReports? && !op.ClearStatuses? ==> after.statuses == o.s.statuses)
  {
    hide PointViews, Reported, ChangedViews, SampleViews, DeviceViews, BrowsedViews, Reverse, FirstN, LastN, Changed;
  }

  function DoAll(core: Core, o: Out, ops: seq<Op>): Out {
    if ops == [] then o else Do(core, DoAll(core, o, ops[..|ops| - 1]), ops[|ops| - 1])
  }

  lemma DoAllAppend(core: Core, o: Out, ops: seq<Op>, op: Op)
    ensures DoAll(core, o, ops + [op]) == Do(core, DoAll(core, o, ops), op)
  {
    assert (ops + [op])[..|ops|] == ops;
  }

  lemma {:induction false} DoAllConcat(core: Core, o: Out, first: seq<Op>, second: seq<Op>)
    ensures DoAll(core, o, first + second) == DoAll(core, DoAll(core, o, first), second)
  {
    hide Do;
    if second == [] {
      assert first + second == first;
    } else {
      var n := |second| - 1;
      DoAllConcat(core, o, first, second[..n]);
      assert first + second == first + second[..n] + [second[n]];
      DoAllAppend(core, o, first + second[..n], second[n]);
    }
  }

  // ---- events and requests ----

  datatype WorkerEvent =
    | LogEvent(level: Level, message: string)
    | DevicesEvent(devices: seq<Device>, warnings: seq<string>)
    | PointsEvent(points: seq<DiscoveredPoint>)
    | ScanProgressEvent(current: nat, total: nat)
    | BulkTagImport(imported: seq<PointConfig>, added: nat, updated: nat)
    | SamplesEvent(samples: seq<Sample>)
    | FailuresEvent(failures: seq<(PointConfig, string)>)
    | PublishStatus(published: nat, acked: nat, lastError: Option<string>)
    | PointPublish(identity: PointIdentity, error: Option<string>)
    | LifecycleEvent(lifecycle: Lifecycle)
    | Finished(message: string)

  datatype PointReq = PointReq(
    index: Option<nat>, enabled: bool, deviceKey: string, tagPath: string,
    pollIntervalSecs: nat, addressing: map<string, string>)

  datatype Request =
    | GetInterfaces(count: nat)
    | SetProtocol(id: string)
    | SetConnection(values: map<string, string>)
    | Discover
    | BrowseDevice(device: nat)
    | ScanAll
    | PollOnce
    | SavePoint(point: PointReq)
    | TogglePoint(toggled: nat, enabled: bool)
    | DeletePoint(deleted: nat)
    | ClearPoints
    | AddBrowsedPoint(found: nat)
    | PutSettings(settings: Settings.SettingsReq)
    | StartRepublisher
    | StopRepublisher

  /** `disk` is the error writing the configuration file gives, if it is written and fails. */
  datatype Action =
    | Worker(event: WorkerEvent, disk: Option<string>)
    | Http(request: Request, disk: Option<string>)

  datatype Reply =
    | Ok
    | Removed(count: nat)
    | BadRequest(message: string)
    | NotFound(message: string)
    | Conflict(message: string)

  datatype Plan = Plan(ops: seq<Op>, reply: Reply)

  /** Only these requests write the configuration file. */
  predicate Saves(request: Request) {
    request.SetConnection? || request.SavePoint? || request.TogglePoint? || request.DeletePoint?
    || request.ClearPoints? || request.AddBrowsedPoint? || request.PutSettings?
  }

  function SaveError(core: Core, config: Config, disk: Option<string>): Option<string> {
    match (core.validate)(config)
    case Some(error) => Some("Config invalid: " + error)
    case None => if disk.Some? then Some("Save failed: " + disk.value) else None
  }

  function SaveOp(core: Core, config: Config, disk: Option<string>): Op {
    match SaveError(core, config, disk)
    case None => Status(Info, "Configuration saved")
    case Some(message) => Status(Level.Error, message)
  }

  /** An edit that is kept in memory, then saved; only when the save succeeds does `after` follow. */
  function SavePlan(core: Core, config: Config, disk: Option<string>,
                    edit: seq<Op>, after: seq<Op>, reply: Reply): Plan {
    match SaveError(core, config, disk)
    case None => Plan(edit + [SaveOp(core, config, disk)] + after, reply)
    case Some(message) => Plan(edit + [SaveOp(core, config, disk)], BadRequest(message))
  }

  function Warnings(warnings: seq<string>): (ops: seq<Op>)
    ensures |ops| == |warnings|
  {
    seq(|warnings|, i requires 0 <= i < |warnings| => Log(Level.Warning, warnings[i]))
  }

  function Misses(failures: seq<(PointConfig, string)>): (reports: seq<Report>)
    ensures |reports| == |failures|
  {
    seq(|failures|, i requires 0 <= i < |failures| => Missed(failures[i].0, failures[i].1))
  }

  function WorkerOps(core: Core, s: Shared, event: WorkerEvent, disk: Option<string>): seq<Op> {
    match event
    case LogEvent(level, message) => [Log(level, message)]
    case DevicesEvent(devices, warnings) => [SetDevices(devices)] + Warnings(warnings) + [EmitDevices]
    case PointsEvent(points) => [SetBrowsed(points), EmitBrowsed]
    case ScanProgressEvent(current, total) => [SetProgress(Some((current, total))), EmitProgress]
    case BulkTagImport(points, added, updated) =>
      var config := s.config.(points := points);
      [Store(config), SetProgress(None), SaveOp(core, config, disk),
       Status(Info, "Bulk import: " + Decimal(added) + " added, " + Decimal(updated) + " updated"), EmitPoints]
    case SamplesEvent(samples) => [TakeSamples(samples)]
    case FailuresEvent(failures) => [TakeReports(Misses(failures))]
    case PublishStatus(published, acked, error) => [TakeStats(published, acked, error)]
    case PointPublish(identity, error) => [TakeReports([Published(identity, error)])]
    case LifecycleEvent(lifecycle) =>
      (if lifecycle.Failed? then [Log(Level.Error, "Republisher failed: " + lifecycle.error)] else [])
      + [SetLifecycle(lifecycle)]
    case Finished(message) => [Log(Info, message)]
  }

  function RequestedPoint(fields: seq<FieldSpec>, req: PointReq): PointConfig {
    PointConfig(req.enabled, Trim(req.deviceKey), Built(fields, req.addressing), Trim(req.tagPath),
                Settings.AtLeastOne(req.pollIntervalSecs))
  }

  function PointFrom(found: DiscoveredPoint): PointConfig {
    PointConfig(true, found.deviceKey, found.addressing, found.suggestedTagPath, 10)
  }

  function WithPoints(s: Shared, points: seq<PointConfig>): Config {
    s.config.(points := points)
  }

  function IsActive(l: Lifecycle): bool {
    l.Starting? || l.Running? || l.Stopping?
  }

  /** An edit of the point list. */
  function PointsPlan(core: Core, s: Shared, points: seq<PointConfig>, disk: Option<string>, after: seq<Op>): Plan {
    var config := WithPoints(s, points);
    SavePlan(core, config, disk, [Store(config)], after, Ok)
  }

  function RequestPlan(core: Core, s: Shared, request: Request, disk: Option<string>): Plan {
    var caps := FindCapabilities(core.capabilities, s.config.protocol);
    var registered := s.config.protocol in core.registry;
    match request
    case GetInterfaces(count) =>
      Plan([Status(Info, "Refreshed " + Decimal(count) + " network interface(s)")], Ok)
    case SetProtocol(id) =>
      if FindCapabilities(core.capabilities, id).None? then Plan([], BadRequest("unknown protocol '" + id + "'"))
      else Plan([Store(s.config.(protocol := id)), SetDevices([]), SetBrowsed([]),
                 EmitConfig, EmitDevices, EmitBrowsed], Ok)
    case SetConnection(values) =>
      if caps.None? then Plan([], BadRequest("no protocol selected"))
      else
        var addressing := Built(caps.value.connectionFields, values);
        var config := s.config.(connections := s.config.connections[s.config.protocol := addressing]);
        SavePlan(core, config, disk, [Store(config)], [EmitConfig], Ok)
    case Discover =>
      if !registered then Plan([], BadRequest("no protocol selected"))
      else Plan([SetDevices([]), Status(Info, "Discovering…"), EmitDevices], Ok)
    case BrowseDevice(index) =>
      if index >= |s.devices| then Plan([], NotFound("no such discovered device"))
      else if !registered then Plan([], BadRequest("no protocol selected"))
      else Plan([SetBrowsed([]), Status(Info, "Browsing " + s.devices[index].key + "…"), EmitBrowsed], Ok)
    case ScanAll =>
      if s.devices == [] then
        Plan([Status(Level.Warning, "Discover devices before scan-all")],
             BadRequest("discover devices before scan-all"))
      else if !registered then Plan([], BadRequest("no protocol selected"))
      else Plan([SetProgress(Some((0, |s.devices|))), Status(Info, "Scanning all objects…"), EmitProgress], Ok)
    case PollOnce =>
      if !registered then Plan([], BadRequest("no protocol selected"))
      else Plan([Status(Info, "Polling once…")], Ok)
    case SavePoint(req) =>
      if caps.None? then Plan([], BadRequest("select a protocol first"))
      else if req.index.Some? && req.index.value >= |s.config.points| then Plan([], NotFound("no such point"))
      else
        var point := RequestedPoint(caps.value.addressingFields, req);
        PointsPlan(core, s, if req.index.Some? then s.config.points[req.index.value := point]
                            else s.config.points + [point], disk, [EmitPoints])
    case TogglePoint(index, enabled) =>
      if index >= |s.config.points| then Plan([], NotFound("no such point"))
      else
        PointsPlan(core, s, s.config.points[index := s.config.points[index].(enabled := enabled)], disk, [EmitPoints])
    case DeletePoint(index) =>
      if index >= |s.config.points| then Plan([], NotFound("no such point"))
      else
        PointsPlan(core, s, s.config.points[..index] + s.config.points[index + 1..], disk, [EmitPoints])
    case ClearPoints =>
      var config := WithPoints(s, []);
      var removed := |s.config.points|;
      SavePlan(core, config, disk, [Store(config), ClearStatuses],
               [Status(Info, "Cleared " + Decimal(removed) + " configured point(s)."), EmitPoints], Removed(removed))
    case AddBrowsedPoint(index) =>
      if index >= |s.browsed| then Plan([], NotFound("no such browsed point"))
      else
        PointsPlan(core, s, Upsert(s.config.points, PointFrom(s.browsed[index])), disk,
                   [Status(Info, "Added point from browse"), EmitPoints])
    case PutSettings(req) =>
      var config := Settings.Put(s.config, req);
      SavePlan(core, config, disk, [Store(config)], [EmitConfig], Ok)
    case StartRepublisher =>
      if IsActive(s.lifecycle) then Plan([], Conflict("republisher is already running"))
      else if (core.validate)(s.config).Some? then
        var message := "Cannot start: " + (core.validate)(s.config).value;
        Plan([Status(Level.Error, message)], BadRequest(message))
      else if !registered then Plan([], BadRequest("no protocol selected"))
      else Plan([Launch, Status(Info, "Republisher starting…")], Ok)
    case StopRepublisher =>
      if s.stopFlag.None? then Plan([], Ok)
      else Plan([RaiseStop, Status(Info, "Stopping republisher…")], Ok)
  }

  function Ops(core: Core, s: Shared, a: Action): seq<Op> {
    match a
    case Worker(event, disk) => WorkerOps(core, s, event, disk)
    case Http(request, disk) => RequestPlan(core, s, request, disk).ops
  }

  function Next(core: Core, o: Out, a: Action): Out {
    DoAll(core, o, Ops(core, o.s, a))
  }

  function Run(core: Core, o: Out, actions: seq<Action>): Out {
    if actions == [] then o else Next(core, Run(core, o, actions[..|actions| - 1]), actions[|actions| - 1])
  }

  /** The state `WebState::new` builds: empty but for the configuration and the boot message. */
  function Boot(core: Core, config: Config, bootStatus: string): Shared {
    PushLog(core,
      Shared(config, [], [], None, map[], [], [], 0, Stopped, None, 0, 0, None, bootStatus, 0, {}),
      Info, bootStatus)
  }
  // ---- what was sent before does not matter ----

  lemma {:induction false} DoAllShift(core: Core, o: Out, before: seq<Item>, ops: seq<Op>)
    ensures var x := DoAll(core, o, ops);
            DoAll(core, Out(o.s, before + o.trace), ops) == Out(x.s, before + x.trace)
  {
    hide Effect;
    if ops != [] {
      var n := |ops| - 1;
      DoAllShift(core, o, before, ops[..n]);
      var x := DoAll(core, o, ops[..n]);
      assert before + (x.trace + Effect(core, x.s, ops[n]).1) == before + x.trace + Effect(core, x.s, ops[n]).1;
    }
  }
}
