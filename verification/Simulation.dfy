/** The replication protocol: what a client's mirror tells about the daemon after any run,
    whichever of the deltas reached it. */
module Simulation {
  import opened Text
  import opened Identity
  import opened Coercion
  import opened Model
  import opened Server
  import opened Mirror

  /** A client, and the parts of its mirror that a lost or unsent change may have left behind. */
  datatype Client = Client(m: State, stale: set<Part>)

  /** The parts a delta brings up to date. */
  function Restores(d: Delta): set<Part> {
    match d
    case LogDelta(_, line) => if line.Some? then {StatusLinePart} else {}
    case DevicesDelta(_) => {DevicesPart}
    case BrowsedDelta(_) => {BrowsedPart}
    case ProgressDelta(_, _) => {ProgressPart}
    case PointsDelta(_) => {PointsPart, TopicsPart}
    case StatsDelta(_, _, _) => {StatsPart}
    case LifecycleDelta(_) => {LifecyclePart}
    case ConfigDelta(_) => {ConfigPart}
    case SamplesDelta(_, _) => {}
    case StatusesDelta(_) => {}
  }

  /** The parts that fall behind when a delta is lost. */
  function Loses(d: Delta): set<Part> {
    if d.SamplesDelta? || d.StatusesDelta? then {PointsPart} else Restores(d)
  }

  function Receive(b: Browser, c: Client, d: Delta, delivered: bool): Client {
    if delivered then Client(Handle(b, c.m, d), c.stale - Restores(d)) else c.(stale := c.stale + Loses(d))
  }

  /** The client after a trace, given which of its deltas were delivered. */
  function Play(b: Browser, start: Client, trace: seq<Item>, got: seq<bool>): Client
    requires |got| == |Deltas(trace)|
  {
    if trace == [] then start
    else
      var n := |trace| - 1;
      match trace[n]
      case Quiet(parts, _) =>
        var c := Play(b, start, trace[..n], got);
        c.(stale := c.stale + parts)
      case Sent(d) =>
        Receive(b, Play(b, start, trace[..n], got[..|got| - 1]), d, got[|got| - 1])
  }

  /** A client that has just taken a snapshot of `s`. */
  function Subscribed(b: Browser, core: Core, m: State, s: Shared): Client {
    Client(Hydrated(b, m, SnapshotJson(core, s)), {})
  }

  // ---- agreement between mirror and state ----

  predicate DevicesAgree(devices: seq<Device>, shown: seq<DeviceDto>, count: nat) {
    shown == DeviceViews(devices) && count == |devices|
  }

  /** Everything about the configuration but its points, which have their own part. */
  predicate ConfigAgrees(b: Browser, core: Core, config: Config, shown: Option<Config>, secrets: Secrets,
                         protocol: string, connValues: map<string, string>) {
    && shown.Some? && shown.value.(points := []) == Redact(config).config.(points := [])
    && secrets == Redact(config).secrets
    && protocol == config.protocol
    && connValues == ConnValues(b, core.capabilities, config)
  }

  /** The point list, each point's status in it and in the status table; topics are a part of their own. */
  predicate PointsAgree(core: Core, config: Config, statuses: Statuses,
                        shown: seq<PointDto>, table: map<string, StatusDto>, count: nat) {
    var views := PointViews(core, config, statuses);
    && |shown| == |views| == count
    && forall i :: 0 <= i < |views| ==>
         && shown[i].(topic := "") == views[i].(topic := "")
         && shown[i].identity in table && table[shown[i].identity] == shown[i].status
  }

  /** The configuration a point's view shows. */
  function ShownConfig(point: PointDto): PointConfig {
    PointConfig(point.enabled, point.deviceKey, point.addressing, point.tagPath, point.pollIntervalSecs)
  }

  /** Every shown point, current or not, has the topic the present settings give it. */
  predicate TopicsAgree(core: Core, mqtt: Mqtt, shown: seq<PointDto>) {
    forall i :: 0 <= i < |shown| ==> shown[i].topic == (core.telemetryTopic)(mqtt, ShownConfig(shown[i]))
  }

  lemma PointsAndTopics(core: Core, config: Config, statuses: Statuses,
                        shown: seq<PointDto>, table: map<string, StatusDto>, count: nat)
    requires PointsAgree(core, config, statuses, shown, table, count) && TopicsAgree(core, config.mqtt, shown)
    ensures shown == PointViews(core, config, statuses)
  {
    hide Identify, Key, StatusView;
    var views := PointViews(core, config, statuses);
    forall i | 0 <= i < |views| ensures shown[i] == views[i] {
      assert shown[i].(topic := "") == views[i].(topic := "");
      assert ShownConfig(shown[i]) == ShownConfig(shown[i].(topic := "")) == config.points[i];
    }
  }

  lemma ViewsHaveTopics(core: Core, config: Config, statuses: Statuses)
    ensures TopicsAgree(core, config.mqtt, PointViews(core, config, statuses))
  {
    hide Identify, Key, StatusView;
  }

  lemma SyncedTopics(core: Core, mqtt: Mqtt, shown: seq<PointDto>, table: map<string, StatusDto>)
    requires TopicsAgree(core, mqtt, shown)
    ensures TopicsAgree(core, mqtt, Synced(shown, table))
  {
    var synced := Synced(shown, table);
    forall i | 0 <= i < |synced| ensures synced[i].topic == (core.telemetryTopic)(mqtt, ShownConfig(synced[i])) {
      assert ShownConfig(synced[i]) == ShownConfig(shown[i]) && synced[i].topic == shown[i].topic;
    }
  }

  predicate StatsAgree(s: Shared, info: StatusInfo) {
    && info.publishedTotal == s.publishedTotal && info.ackedTotal == s.ackedTotal
    && info.lastError == s.lastError
  }

  /** Every part that is not stale equals the daemon's. */
  predicate Agree(b: Browser, core: Core, s: Shared, c: Client) {
    var m, info := c.m, StatusOf(c.m);
    && m.status.Some? && m.caps == core.capabilities
    && (DevicesPart !in c.stale ==> DevicesAgree(s.devices, m.devices, info.devices))
    && (BrowsedPart !in c.stale ==> m.browsed == BrowsedViews(core, s.browsed))
    && (ConfigPart !in c.stale ==>
          ConfigAgrees(b, core, s.config, m.config, m.secrets, info.protocol, m.connValues))
    && (PointsPart !in c.stale ==>
          PointsAgree(core, s.config, s.statuses, m.points, m.statuses, info.points))
    && (TopicsPart !in c.stale ==> TopicsAgree(core, s.config.mqtt, m.points))
    && (StatsPart !in c.stale ==> StatsAgree(s, info))
    && (LifecyclePart !in c.stale ==> m.lifecycle == info.lifecycle == LifecycleView(s.lifecycle))
    && (StatusLinePart !in c.stale ==> info.statusLine == s.statusLine)
    && (ProgressPart !in c.stale ==> info.scanProgress == s.scanProgress)
  }

  // ---- field names without `=` ----

  predicate PlainFound(found: seq<DiscoveredPoint>) {
    forall i :: 0 <= i < |found| ==> PlainNames(found[i].addressing)
  }

  predicate PlainState(s: Shared) {
    PlainPoints(s.config.points) && PlainFound(s.browsed)
  }

  predicate PlainReports(reports: seq<Report>) {
    forall i :: 0 <= i < |reports| ==> WellFormed(ReportIdentity(reports[i]))
  }

  predicate PlainOp(op: Op) {
    match op
    case Status(_, message) => message != ""
    case SetBrowsed(found) => PlainFound(found)
    case Store(config) => PlainPoints(config.points)
    case TakeSamples(samples) => PlainReports(Reads(samples))
    case TakeReports(reports) => PlainReports(reports)
    case _ => true
  }

  /** The points an event brings in have addressings with plain field names. */
  predicate PlainAction(a: Action) {
    match a
    case Http(_, _) => true
    case Worker(event, _) =>
      match event
      case PointsEvent(found) => PlainFound(found)
      case BulkTagImport(points, _, _) => PlainPoints(points)
      case SamplesEvent(samples) => forall i :: 0 <= i < |samples| ==> PlainNames(samples[i].point.addressing)
      case FailuresEvent(failures) => forall i :: 0 <= i < |failures| ==> PlainNames(failures[i].0.addressing)
      case PointPublish(identity, _) => WellFormed(identity)
      case _ => true
  }

  // ---- statuses ----

  /** The delta's `statuses` object tells, under each identity's key, exactly the identity's new
      status: no key stands for two identities, and what is missing has not changed. */
  lemma {:induction false} ChangedViewsExact(core: Core, statuses: Statuses, reports: seq<Report>, id: PointIdentity)
    requires PlainReports(reports) && WellFormed(id)
    ensures var after, changed := Reported(core, statuses, reports), ChangedViews(core, statuses, reports);
            if Key(id) in changed then changed[Key(id)] == StatusView(Lookup(after, id))
            else Lookup(after, id) == Lookup(statuses, id)
  {
    hide Key, StatusView;
    if reports != [] {
      var n := |reports| - 1;
      ChangedViewsExact(core, statuses, reports[..n], id);
      var last := ReportIdentity(reports[n]);
      if Key(last) == Key(id) { KeyInjective(last, id); }
    }
  }

  lemma {:induction false} WithPointStatusesHolds(statuses: map<string, StatusDto>, points: seq<PointDto>)
    requires forall i, j :: 0 <= i < |points| && 0 <= j < |points| && points[i].identity == points[j].identity
               ==> points[i].status == points[j].status
    ensures forall i :: 0 <= i < |points| ==>
      && points[i].identity in WithPointStatuses(statuses, points)
      && WithPointStatuses(statuses, points)[points[i].identity] == points[i].status
  {
    if points != [] {
      WithPointStatusesHolds(statuses, points[..|points| - 1]);
    }
  }

  /** Points with the same key have the same status: they are one identity to the daemon. */
  lemma SameKeySameStatus(core: Core, s: Shared, i: nat, j: nat)
    requires PlainState(s) && i < |s.config.points| && j < |s.config.points|
    requires var v := PointViews(core, s.config, s.statuses); v[i].identity == v[j].identity
    ensures var v := PointViews(core, s.config, s.statuses); v[i].status == v[j].status
  {
    hide Key, Identify;
    var p, q := s.config.points[i], s.config.points[j];
    IdentifyWellFormed(p.addressing);
    IdentifyWellFormed(q.addressing);
    KeyInjective(PointIdentityOf(p), PointIdentityOf(q));
  }

  /** A fresh point list puts every point's own status in the table. */
  lemma FreshPoints(core: Core, s: Shared, statuses: map<string, StatusDto>)
    requires PlainState(s)
    ensures var v := PointViews(core, s.config, s.statuses);
            forall i :: 0 <= i < |v| ==>
              && v[i].identity in WithPointStatuses(statuses, v)
              && WithPointStatuses(statuses, v)[v[i].identity] == v[i].status
  {
    hide PointViews, WithPointStatuses;
    var v := PointViews(core, s.config, s.statuses);
    forall i, j | 0 <= i < |v| && 0 <= j < |v| && v[i].identity == v[j].identity
      ensures v[i].status == v[j].status
    {
      SameKeySameStatus(core, s, i, j);
    }
    WithPointStatusesHolds(statuses, v);
  }

  /** One point's view before and after reports, against what the client makes of the delta. */
  lemma ReportedView(core: Core, s: Shared, reports: seq<Report>, i: nat)
    requires PlainState(s) && PlainReports(reports) && i < |s.config.points|
    ensures var before := PointViews(core, s.config, s.statuses)[i];
            var after := PointViews(core, s.config, Reported(core, s.statuses, reports))[i];
            var changed := ChangedViews(core, s.statuses, reports);
            after == if before.identity in changed then before.(status := changed[before.identity]) else before
  {
    hide Key, Identify, StatusView, Reported, ChangedViews;
    IdentifyWellFormed(s.config.points[i].addressing);
    ChangedViewsExact(core, s.statuses, reports, PointIdentityOf(s.config.points[i]));
  }

  /** Merging a status delta keeps an agreeing point list in agreement. */
  lemma ReportsKeepPoints(core: Core, s: Shared, reports: seq<Report>, shown: seq<PointDto>,
                          table: map<string, StatusDto>, count: nat)
    requires PlainState(s) && PlainReports(reports)
    requires PointsAgree(core, s.config, s.statuses, shown, table, count)
    ensures var after := Reported(core, s.statuses, reports);
            var merged := table + ChangedViews(core, s.statuses, reports);
            && PointsAgree(core, s.config, after, Synced(shown, merged), merged, count)
            && (shown == PointViews(core, s.config, s.statuses) ==>
                  Synced(shown, merged) == PointViews(core, s.config, after))
  {
    hide PointViews, Reported, ChangedViews;
    var after := Reported(core, s.statuses, reports);
    var before, views := PointViews(core, s.config, s.statuses), PointViews(core, s.config, after);
    var merged := table + ChangedViews(core, s.statuses, reports);
    var synced := Synced(shown, merged);
    forall i | 0 <= i < |views|
      ensures synced[i].(topic := "") == views[i].(topic := "")
      ensures synced[i].identity in merged && merged[synced[i].identity] == synced[i].status
      ensures shown[i] == before[i] ==> synced[i] == views[i]
    {
      ReportedView(core, s, reports, i);
      assert shown[i].(topic := "") == before[i].(topic := "");
      assert shown[i].identity == before[i].identity && shown[i].status == before[i].status;
    }
  }

  // ---- one operation ----

  /** The client after the at most one item an operation adds. */
  function Feed(b: Browser, c: Client, items: seq<Item>, delivered: bool): Client
    requires |items| <= 1
  {
    if items == [] then c
    else match items[0]
      case Sent(d) => Receive(b, c, d, delivered)
      case Quiet(parts, _) => c.(stale := c.stale + parts)
  }

  lemma StoreKeepsPoints(core: Core, before: Config, after: Config, statuses: Statuses,
                         shown: seq<PointDto>, table: map<string, StatusDto>, count: nat)
    requires before.points == after.points && PointsAgree(core, before, statuses, shown, table, count)
    ensures PointsAgree(core, after, statuses, shown, table, count)
    ensures before.mqtt == after.mqtt ==> PointViews(core, before, statuses) == PointViews(core, after, statuses)
  {
    var views, next := PointViews(core, before, statuses), PointViews(core, after, statuses);
    assert forall i :: 0 <= i < |views| ==> views[i].(topic := "") == next[i].(topic := "");
  }

  lemma StoreKeepsConfig(b: Browser, core: Core, before: Config, after: Config, shown: Option<Config>,
                         secrets: Secrets, protocol: string, connValues: map<string, string>)
    requires before.(points := []) == after.(points := [])
    requires ConfigAgrees(b, core, before, shown, secrets, protocol, connValues)
    ensures ConfigAgrees(b, core, after, shown, secrets, protocol, connValues)
  {
    assert after.connections == before.(points := []).connections;
    assert after.mqtt == before.(points := []).mqtt && after.protocol == before.(points := []).protocol;
  }

  lemma StoreKeeps(b: Browser, core: Core, s: Shared, config: Config, c: Client)
    requires Agree(b, core, s, c)
    ensures Agree(b, core, s.(config := config), c.(stale := c.stale + Changed(s.config, config)))
  {
    hide PointsAgree, TopicsAgree, ConfigAgrees, DevicesAgree, PointViews, DeviceViews, BrowsedViews;
    var m, info := c.m, StatusOf(c.m);
    var stale := c.stale + Changed(s.config, config);
    if ConfigPart !in stale {
      assert ConfigPart !in Changed(s.config, config);
      StoreKeepsConfig(b, core, s.config, config, m.config, m.secrets, info.protocol, m.connValues);
    }
    if PointsPart !in stale {
      assert PointsPart !in Changed(s.config, config);
      StoreKeepsPoints(core, s.config, config, s.statuses, m.points, m.statuses, info.points);
    }
    if TopicsPart !in stale { assert TopicsPart !in Changed(s.config, config); }
  }

  lemma ReportsKeep(b: Browser, core: Core, s: Shared, reports: seq<Report>, c: Client, delivered: bool)
    requires Agree(b, core, s, c) && PlainState(s) && PlainReports(reports)
    ensures Agree(b, core, s.(statuses := Reported(core, s.statuses, reports)),
                  Receive(b, c, StatusesDelta(ChangedViews(core, s.statuses, reports)), delivered))
  {
    hide PointsAgree, TopicsAgree, ConfigAgrees, DevicesAgree, PointViews, Reported, ChangedViews, Synced, DeviceViews,
         BrowsedViews, PlainState, PlainReports, LifecycleView, Redact;
    if PointsPart !in c.stale {
      ReportsKeepPoints(core, s, reports, c.m.points, c.m.statuses, StatusOf(c.m).points);
    }
    if TopicsPart !in c.stale {
      SyncedTopics(core, s.config.mqtt, c.m.points, c.m.statuses + ChangedViews(core, s.statuses, reports));
    }
  }

  /** Agreement does not speak of the sample windows, which module Windows relates. */
  lemma SamplesAside(b: Browser, core: Core, s: Shared, c: Client, recent: seq<SampleDto>, shown: seq<SampleDto>)
    requires Agree(b, core, s, c)
    ensures Agree(b, core, s.(recentSamples := recent), c.(m := c.m.(samples := shown)))
  {
    hide PointsAgree, TopicsAgree, ConfigAgrees, DevicesAgree, PointViews, DeviceViews, BrowsedViews;
  }

  /** A samples delta is a statuses delta that also moves the sample window. */
  lemma SamplesAsStatuses(b: Browser, c: Client, samples: seq<SampleDto>,
                          changed: map<string, StatusDto>, delivered: bool)
    ensures var other := Receive(b, c, StatusesDelta(changed), delivered);
            var moved := if delivered then FirstN(MIRROR_SAMPLES, samples + c.m.samples) else c.m.samples;
            Receive(b, c, SamplesDelta(samples, changed), delivered) == other.(m := other.m.(samples := moved))
  {
    hide Synced, FirstN;
  }

  lemma SamplesKeep(b: Browser, core: Core, s: Shared, reports: seq<Report>, samples: seq<SampleDto>,
                    recent: seq<SampleDto>, c: Client, delivered: bool)
    requires Agree(b, core, s, c) && PlainState(s) && PlainReports(reports)
    ensures Agree(b, core, s.(statuses := Reported(core, s.statuses, reports), recentSamples := recent),
                  Receive(b, c, SamplesDelta(samples, ChangedViews(core, s.statuses, reports)), delivered))
  {
    hide Agree, Reported, ChangedViews, Receive, FirstN;
    var changed := ChangedViews(core, s.statuses, reports);
    ReportsKeep(b, core, s, reports, c, delivered);
    SamplesAsStatuses(b, c, samples, changed, delivered);
    SamplesAside(b, core, s.(statuses := Reported(core, s.statuses, reports)),
                 Receive(b, c, StatusesDelta(changed), delivered), recent,
                 if delivered then FirstN(MIRROR_SAMPLES, samples + c.m.samples) else c.m.samples);
  }

  lemma EmitPointsKeeps(b: Browser, core: Core, s: Shared, c: Client, delivered: bool)
    requires Agree(b, core, s, c) && PlainState(s)
    ensures Agree(b, core, s, Receive(b, c, PointsDelta(PointViews(core, s.config, s.statuses)), delivered))
  {
    FreshPointsAgree(core, s, c.m.statuses);
    ViewsHaveTopics(core, s.config, s.statuses);
    hide PointsAgree, TopicsAgree, ConfigAgrees, DevicesAgree, PointViews, WithPointStatuses, DeviceViews, BrowsedViews;
  }

  lemma FreshPointsAgree(core: Core, s: Shared, table: map<string, StatusDto>)
    requires PlainState(s)
    ensures var views := PointViews(core, s.config, s.statuses);
            PointsAgree(core, s.config, s.statuses, views, WithPointStatuses(table, views), |views|)
  {
    FreshPoints(core, s, table);
  }

  lemma RedactedForm(b: Browser, caps: seq<Capabilities>, config: Config)
    ensures ConnValues(b, caps, Redact(config).config) == ConnValues(b, caps, config)
  {
  }

  /** What one operation must keep. */
  predicate Keeps(b: Browser, core: Core, s: Shared, op: Op, c: Client, delivered: bool) {
    var (after, items) := Effect(core, s, op);
    PlainState(after) && Agree(b, core, after, Feed(b, c, items, delivered))
  }

  lemma LogKeeps(b: Browser, core: Core, s: Shared, op: Op, c: Client, delivered: bool)
    requires Agree(b, core, s, c) && PlainState(s) && PlainOp(op) && (op.Log? || op.Status?)
    ensures Keeps(b, core, s, op, c, delivered)
  {
    hide PointsAgree, TopicsAgree, ConfigAgrees, DevicesAgree, PointViews, DeviceViews, BrowsedViews, LastN;
  }

  lemma StatsKeep(b: Browser, core: Core, s: Shared, op: Op, c: Client, delivered: bool)
    requires Agree(b, core, s, c) && PlainState(s) && PlainOp(op) && (op.TakeStats? || op.Launch?)
    ensures Keeps(b, core, s, op, c, delivered)
  {
    hide PointsAgree, TopicsAgree, ConfigAgrees, DevicesAgree, PointViews, DeviceViews, BrowsedViews, LastN;
  }

  lemma LifecycleKeeps(b: Browser, core: Core, s: Shared, op: Op, c: Client, delivered: bool)
    requires Agree(b, core, s, c) && PlainState(s) && PlainOp(op) && (op.SetLifecycle? || op.RaiseStop?)
    ensures Keeps(b, core, s, op, c, delivered)
  {
    hide PointsAgree, TopicsAgree, ConfigAgrees, DevicesAgree, PointViews, DeviceViews, BrowsedViews, LastN;
  }

  lemma ReplaceKeeps(b: Browser, core: Core, s: Shared, op: Op, c: Client, delivered: bool)
    requires Agree(b, core, s, c) && PlainState(s) && PlainOp(op)
    requires op.SetDevices? || op.SetBrowsed? || op.SetProgress? || op.ClearStatuses?
    ensures Keeps(b, core, s, op, c, delivered)
  {
    hide PointsAgree, TopicsAgree, ConfigAgrees, DevicesAgree, PointViews, DeviceViews, BrowsedViews, LastN;
  }

  lemma EmitListKeeps(b: Browser, core: Core, s: Shared, op: Op, c: Client, delivered: bool)
    requires Agree(b, core, s, c) && PlainState(s) && PlainOp(op) && (op.EmitDevices? || op.EmitBrowsed?)
    ensures Keeps(b, core, s, op, c, delivered)
  {
    assert DevicesAgree(s.devices, DeviceViews(s.devices), |s.devices|);
    assert |DeviceViews(s.devices)| == |s.devices|;
    hide PointsAgree, TopicsAgree, ConfigAgrees, DevicesAgree, PointViews, DeviceViews, BrowsedViews, LastN;
  }

  lemma EmitProgressKeeps(b: Browser, core: Core, s: Shared, op: Op, c: Client, delivered: bool)
    requires Agree(b, core, s, c) && PlainState(s) && PlainOp(op) && (op.EmitProgress?)
    ensures Keeps(b, core, s, op, c, delivered)
  {
    hide PointsAgree, TopicsAgree, ConfigAgrees, DevicesAgree, PointViews, DeviceViews, BrowsedViews, LastN;
  }

  lemma EmitConfigKeeps(b: Browser, core: Core, s: Shared, op: Op, c: Client, delivered: bool)
    requires Agree(b, core, s, c) && PlainState(s) && PlainOp(op) && (op.EmitConfig?)
    ensures Keeps(b, core, s, op, c, delivered)
  {
    RedactedForm(b, core.capabilities, s.config);
    var shown := Redact(s.config);
    assert ConfigAgrees(b, core, s.config, Some(shown.config), shown.secrets, shown.config.protocol,
                        ConnValues(b, core.capabilities, shown.config));
    hide PointsAgree, TopicsAgree, ConfigAgrees, DevicesAgree, PointViews, DeviceViews, BrowsedViews, LastN;
  }

  lemma OpKeepsAgreement(b: Browser, core: Core, s: Shared, op: Op, c: Client, delivered: bool)
    requires Agree(b, core, s, c) && PlainState(s) && PlainOp(op)
    ensures Keeps(b, core, s, op, c, delivered)
  {
    hide Agree, PointViews, Reported, ChangedViews, SampleViews, Reverse, FirstN, Changed;
    match op
    case Store(config) => StoreKeeps(b, core, s, config, c);
    case EmitPoints => EmitPointsKeeps(b, core, s, c, delivered);
    case TakeSamples(samples) =>
      SamplesKeep(b, core, s, Reads(samples), SampleViews(core, samples),
                  FirstN(RECENT_SAMPLE_CAPACITY, Reverse(SampleViews(core, samples)) + s.recentSamples), c, delivered);
    case TakeReports(reports) => ReportsKeep(b, core, s, reports, c, delivered);
    case Log(_, _) => LogKeeps(b, core, s, op, c, delivered);
    case Status(_, _) => LogKeeps(b, core, s, op, c, delivered);
    case TakeStats(_, _, _) => StatsKeep(b, core, s, op, c, delivered);
    case Launch => StatsKeep(b, core, s, op, c, delivered);
    case SetLifecycle(_) => LifecycleKeeps(b, core, s, op, c, delivered);
    case RaiseStop => LifecycleKeeps(b, core, s, op, c, delivered);
    case SetDevices(_) => ReplaceKeeps(b, core, s, op, c, delivered);
    case SetBrowsed(_) => ReplaceKeeps(b, core, s, op, c, delivered);
    case SetProgress(_) => ReplaceKeeps(b, core, s, op, c, delivered);
    case ClearStatuses => ReplaceKeeps(b, core, s, op, c, delivered);
    case EmitDevices => EmitListKeeps(b, core, s, op, c, delivered);
    case EmitBrowsed => EmitListKeeps(b, core, s, op, c, delivered);
    case EmitProgress => EmitProgressKeeps(b, core, s, op, c, delivered);
    case EmitConfig => EmitConfigKeeps(b, core, s, op, c, delivered);
  }
}
