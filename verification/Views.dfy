/** What a page is shown of the daemon's state, in the state's own fields: chips, rows and forms. */
module Views {
  import opened Text
  import opened Json
  import opened Identity
  import opened Coercion
  import opened Model
  import opened Server
  import opened Mirror
  import opened Simulation
  import opened Replication

  // ---- statuses ----

  /** The chip: a publish error hides a read error, which hides staleness; `unknown` is for points
      that have no status at all. */
  predicate ChipTells(chip: string, status: Option<PointStatus>) {
    && (chip == "publish_error" <==> status.Some? && status.value.lastPublishError.Some?)
    && (chip == "read_error" <==>
          status.Some? && status.value.lastPublishError.None? && status.value.lastError.Some?)
    && (chip == "stale" <==>
          status.Some? && status.value.lastPublishError.None? && status.value.lastError.None? && status.value.stale)
    && (chip == "ok" <==>
          status.Some? && status.value.lastPublishError.None? && status.value.lastError.None? && !status.value.stale)
    && (chip == "unknown" <==> status.None?)
  }

  /** Everything else a status shows is the status's own; without one it shows nothing, and stale. */
  predicate StatusTells(shown: StatusDto, status: Option<PointStatus>) {
    && ChipTells(shown.state, status)
    && shown.lastValue == (if status.Some? then status.value.lastValue else None)
    && shown.lastSampleMs == (if status.Some? then status.value.lastSampleMs else None)
    && (shown.stale <==> (status.Some? ==> status.value.stale))
    && shown.consecutiveFailures == (if status.Some? then status.value.consecutiveFailures else 0)
    && shown.lastError == (if status.Some? then status.value.lastError else None)
    && shown.lastPublishError == (if status.Some? then status.value.lastPublishError else None)
  }

  lemma StatusShown(status: Option<PointStatus>)
    ensures StatusTells(StatusView(status), status)
  {
    ChipShown(status);
  }

  lemma ChipShown(status: Option<PointStatus>)
    ensures ChipTells(StatusView(status).state, status)
  {
    assert "publish_error"[0] == 'p' && "read_error"[0] == 'r' && "stale"[0] == 's' && "ok"[0] == 'o'
           && "unknown"[0] == 'u';
  }

  // ---- points ----

  /** A configured point's row: its place, its own settings, and the status its identity has. */
  lemma PointShown(core: Core, config: Config, statuses: Statuses, i: nat)
    requires i < |config.points|
    ensures var row, point := PointViews(core, config, statuses)[i], config.points[i];
            var id := Identify(point.addressing);
            && row.index == i && row.identity == Key(id)
            && row.enabled == point.enabled && row.deviceKey == point.deviceKey && row.tagPath == point.tagPath
            && row.pollIntervalSecs == point.pollIntervalSecs && row.addressing == point.addressing
            && row.addressingDisplay == (core.addressingDisplay)(point.addressing)
            && row.displayName == (core.displayName)(point)
            && row.topic == (core.telemetryTopic)(config.mqtt, point)
            && StatusTells(row.status, if id in statuses then Some(statuses[id]) else None)
  {
    hide Key, Identify, StatusView, StatusTells;
    StatusShown(Lookup(statuses, PointIdentityOf(config.points[i])));
  }

  /** After any run and any loss, a page whose point list is not left behind shows the daemon's points
      in their order, each with its settings and its status. */
  lemma PageShowsPoints(b: Browser, core: Core, m: State, s: Shared, actions: seq<Action>, got: seq<bool>, i: nat)
    requires PlainCore(core) && PlainState(s) && PlainActions(actions)
    requires var o := Run(core, Out(s, []), actions);
             && |got| == |Deltas(o.trace)| && i < |o.s.config.points|
             && PointsPart !in Play(b, Subscribed(b, core, m, s), o.trace, got).stale
    ensures var o := Run(core, Out(s, []), actions);
            var rows, point := Play(b, Subscribed(b, core, m, s), o.trace, got).m.points, o.s.config.points[i];
            var id := Identify(point.addressing);
            && |rows| == |o.s.config.points| && rows[i].index == i && ShownConfig(rows[i]) == point
            && rows[i].identity == Key(id)
            && StatusTells(rows[i].status, if id in o.s.statuses then Some(o.s.statuses[id]) else None)
  {
    hide *;
    MirrorSimulates(b, core, m, s, actions, got);
    var o := Run(core, Out(s, []), actions);
    AgreeingRow(b, core, o.s, Play(b, Subscribed(b, core, m, s), o.trace, got), i);
  }

  lemma AgreeingRow(b: Browser, core: Core, s: Shared, c: Client, i: nat)
    requires Agree(b, core, s, c) && PointsPart !in c.stale && i < |s.config.points|
    ensures var rows, point := c.m.points, s.config.points[i];
            var id := Identify(point.addressing);
            && |rows| == |s.config.points| && rows[i].index == i && ShownConfig(rows[i]) == point
            && rows[i].identity == Key(id)
            && StatusTells(rows[i].status, if id in s.statuses then Some(s.statuses[id]) else None)
  {
    hide Key, Identify, StatusTells, StatusView, ConfigAgrees, DevicesAgree, TopicsAgree, StatsAgree;
    PointShown(core, s.config, s.statuses, i);
    var row, view := c.m.points[i], PointViews(core, s.config, s.statuses)[i];
    assert row.(topic := "") == view.(topic := "");
    assert ShownConfig(row) == ShownConfig(row.(topic := ""));
    assert row.status == view.status && row.identity == view.identity && row.index == view.index;
  }

  // ---- the other rows ----

  lemma DeviceShown(devices: seq<Device>, i: nat)
    requires i < |devices|
    ensures |DeviceViews(devices)| == |devices|
    ensures var row := DeviceViews(devices)[i]; row.index == i && row.device == devices[i]
  {
  }

  lemma BrowsedShown(core: Core, browsed: seq<DiscoveredPoint>, i: nat)
    requires i < |browsed|
    ensures |BrowsedViews(core, browsed)| == |browsed|
    ensures var row := BrowsedViews(core, browsed)[i];
            && row.index == i && row.found == browsed[i]
            && row.addressingDisplay == (core.addressingDisplay)(browsed[i].addressing)
  {
  }

  lemma SampleShown(core: Core, samples: seq<Sample>, i: nat)
    requires i < |samples|
    ensures |SampleViews(core, samples)| == |samples|
    ensures var row, sample := SampleViews(core, samples)[i], samples[i];
            && row.identity == Key(Identify(sample.point.addressing)) && row.deviceKey == sample.point.deviceKey
            && row.tagPath == sample.point.tagPath && row.displayName == (core.displayName)(sample.point)
            && row.topic == sample.topic && row.value == sample.value && row.timestampMs == sample.timestampMs
  {
    hide Key, Identify;
  }

  /** Each phase of the republisher has its own word, and only a failure shows an error: its own. */
  lemma LifecycleShown(l: Lifecycle)
    ensures var shown := LifecycleView(l);
            && (shown.state == "starting" <==> l == Starting) && (shown.state == "running" <==> l == Running)
            && (shown.state == "stopping" <==> l == Stopping) && (shown.state == "stopped" <==> l == Stopped)
            && (shown.state == "failed" <==> l.Failed?)
            && forall error :: shown.error == Some(error) <==> l == Failed(error)
  {
    assert "running"[0] == 'r' && "failed"[0] == 'f' && "stopping"[4] == 'p' && "starting"[2] == 'a'
           && "stopped"[5] == 'e';
  }

  // ---- configuration ----

  /** The shown configuration is the daemon's with two secrets taken out, of which it tells only
      whether they are set. */
  lemma ConfigShown(config: Config)
    ensures var shown, m := Redact(config).config, config.mqtt;
            && shown.mqtt.password == None && shown.mqtt.clientKeyPassphrase == None
            && shown.mqtt.(password := m.password, clientKeyPassphrase := m.clientKeyPassphrase) == m
            && shown.(mqtt := m) == config
            && (Redact(config).secrets.passwordSet <==> m.password != None)
            && (Redact(config).secrets.passphraseSet <==> m.clientKeyPassphrase != None)
  {
  }

  /** The first protocol with this name is the one in use. */
  lemma FoundIs(caps: seq<Capabilities>, id: string, i: nat)
    requires i < |caps| && caps[i].id == id && forall j :: 0 <= j < i ==> caps[j].id != id
    ensures FindCapabilities(caps, id) == Some(caps[i])
  {
    if i > 0 {
      assert forall j :: 0 <= j < i - 1 ==> caps[1..][j].id != id by {
        forall j | 0 <= j < i - 1 ensures caps[1..][j].id != id { assert caps[1..][j] == caps[j + 1]; }
      }
      FoundIs(caps[1..], id, i - 1);
    }
  }

  lemma FoundNone(caps: seq<Capabilities>, id: string)
    ensures FindCapabilities(caps, id).None? <==> forall j :: 0 <= j < |caps| ==> caps[j].id != id
  {
    if caps != [] && caps[0].id != id {
      FoundNone(caps[1..], id);
      assert forall j :: 0 <= j < |caps| - 1 ==> caps[1..][j] == caps[j + 1];
    }
  }

  /** The connection form: for each field of the protocol in use the value stored for that protocol,
      or else the default, as text. */
  lemma ConnectionShown(b: Browser, caps: seq<Capabilities>, config: Config, p: nat, i: nat)
    requires p < |caps| && caps[p].id == config.protocol && forall j :: 0 <= j < p ==> caps[j].id != config.protocol
    requires LastSpec(caps[p].connectionFields, i)
    ensures var form, spec := ConnValues(b, caps, config), caps[p].connectionFields[i];
            var stored := if config.protocol in config.connections then config.connections[config.protocol] else map[];
            var value: Option<Json> := if spec.key in stored then Some(stored[spec.key]) else spec.fallback;
            && spec.key in form
            && form[spec.key] == match value
                                 case None => ""
                                 case Some(Null) => ""
                                 case Some(Str(text)) => text
                                 case Some(Num(n)) => b.numberText(n)
                                 case Some(Bool(on)) => if on then "true" else "false"
    ensures forall k :: k in ConnValues(b, caps, config) ==> Declares(caps[p].connectionFields, k)
  {
    hide FieldStrings, LastSpec;
    FoundIs(caps, config.protocol, p);
    FieldsShown(b, caps[p].connectionFields, Connection(config), i);
  }

  // ---- the status bar ----

  /** The number of stale points is that of the identities whose status is stale, each counted once. */
  lemma StatusBarShown(s: Shared)
    ensures var info := StatusJson(s);
            && info.statusLine == s.statusLine && info.protocol == s.config.protocol
            && info.lifecycle == LifecycleView(s.lifecycle)
            && info.points == |s.config.points| && info.devices == |s.devices|
            && info.publishedTotal == s.publishedTotal && info.ackedTotal == s.ackedTotal
            && info.lastError == s.lastError && info.scanProgress == s.scanProgress
            && exists ids: seq<PointIdentity> ::
                 && |ids| == info.stalePoints
                 && (forall i, j :: 0 <= i < j < |ids| ==> ids[i] != ids[j])
                 && (forall id :: id in ids <==> id in s.statuses && s.statuses[id].stale)
  {
    var stale := set id | id in s.statuses && s.statuses[id].stale;
    var ids := Listing(stale);
    assert forall id :: id in ids <==> id in s.statuses && s.statuses[id].stale;
  }

  lemma {:induction false} Listing(ids: set<PointIdentity>) returns (list: seq<PointIdentity>)
    ensures |list| == |ids|
    ensures forall i, j :: 0 <= i < j < |list| ==> list[i] != list[j]
    ensures forall id :: id in list <==> id in ids
    decreases |ids|
  {
    list := [];
    if ids != {} {
      var id :| id in ids;
      var rest := Listing(ids - {id});
      list := [id] + rest;
      forall i, j | 0 <= i < j < |list| ensures list[i] != list[j] {
        assert list[j] == rest[j - 1] && rest[j - 1] in rest;
        if i > 0 { assert list[i] == rest[i - 1]; }
      }
    }
  }
}
