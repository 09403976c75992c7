/** The browser's copy of the daemon's state and the event handler that keeps it. */
module Mirror {
  import opened Text
  import opened Coercion
  import opened Model
  import opened Server

  datatype Event = Hydrate(snapshot: Snapshot) | Update(delta: Delta)

  /** The page's `state` object, without what only rendering uses. */
  datatype State = State(
    caps: seq<Capabilities>, config: Option<Config>, secrets: Secrets, status: Option<StatusInfo>,
    devices: seq<DeviceDto>, browsed: seq<BrowsedDto>, points: seq<PointDto>, samples: seq<SampleDto>,
    logs: seq<LogRecord>, statuses: map<string, StatusDto>, lifecycle: LifecycleDto,
    connValues: map<string, string>)

  const INITIAL: State :=
    State([], None, Secrets(false, false), None, [], [], [], [], [], map[], LifecycleDto("stopped", None), map[])

  const MIRROR_LOGS: nat := 500
  const MIRROR_SAMPLES: nat := 200

  // ---- what the handler computes ----

  /** The connection form: stored value or default for each field of the active protocol. */
  function ConnValues(b: Browser, caps: seq<Capabilities>, config: Config): map<string, string> {
    match FindCapabilities(caps, config.protocol)
    case None => map[]
    case Some(active) => FieldStrings(b, active.connectionFields, Connection(config))
  }

  /** The status table after each listed point has put its own status in. */
  function WithPointStatuses(statuses: map<string, StatusDto>, points: seq<PointDto>): map<string, StatusDto> {
    if points == [] then statuses
    else
      var n := |points| - 1;
      WithPointStatuses(statuses, points[..n])[points[n].identity := points[n].status]
  }

  function Synced(points: seq<PointDto>, statuses: map<string, StatusDto>): (r: seq<PointDto>)
    ensures |r| == |points|
  {
    seq(|points|, i requires 0 <= i < |points| =>
      if points[i].identity in statuses then points[i].(status := statuses[points[i].identity]) else points[i])
  }

  const NO_STATUS: StatusInfo :=
    StatusInfo("", "", LifecycleDto("stopped", None), 0, 0, 0, 0, None, 0, None)

  function StatusOf(m: State): StatusInfo {
    if m.status.Some? then m.status.value else NO_STATUS
  }

  /** The handler touches the status only once a snapshot has set it. */
  function WithStatus(m: State, info: StatusInfo): State {
    if m.status.Some? then m.(status := Some(info)) else m
  }

  function Hydrated(b: Browser, m: State, snap: Snapshot): State {
    m.(caps := snap.capabilities, config := Some(snap.config.config), secrets := snap.config.secrets,
       status := Some(snap.status), devices := snap.devices, browsed := snap.browsed, points := snap.points,
       samples := snap.recentSamples, logs := snap.logs, lifecycle := snap.status.lifecycle,
       statuses := WithPointStatuses(map[], snap.points),
       connValues := ConnValues(b, snap.capabilities, snap.config.config))
  }

  function Handle(b: Browser, m: State, delta: Delta): State {
    match delta
    case LogDelta(record, line) =>
      var logged := m.(logs := if |m.logs| + 1 > MIRROR_LOGS then (m.logs + [record])[1..] else m.logs + [record]);
      if line.Some? && line.value != "" then WithStatus(logged, StatusOf(m).(statusLine := line.value)) else logged
    case DevicesDelta(devices) =>
      WithStatus(m.(devices := devices), StatusOf(m).(devices := |devices|))
    case BrowsedDelta(browsed) => m.(browsed := browsed)
    case ProgressDelta(current, total) => WithStatus(m, StatusOf(m).(scanProgress := Some((current, total))))
    case PointsDelta(points) =>
      WithStatus(m.(points := points, statuses := WithPointStatuses(m.statuses, points)),
                 StatusOf(m).(points := |points|))
    case SamplesDelta(samples, changed) =>
      m.(samples := FirstN(MIRROR_SAMPLES, samples + m.samples), statuses := m.statuses + changed,
         points := Synced(m.points, m.statuses + changed))
    case StatusesDelta(changed) =>
      m.(statuses := m.statuses + changed, points := Synced(m.points, m.statuses + changed))
    case StatsDelta(published, acked, error) =>
      WithStatus(m, StatusOf(m).(publishedTotal := published, ackedTotal := acked, lastError := error))
    case LifecycleDelta(lifecycle) =>
      WithStatus(m.(lifecycle := lifecycle), StatusOf(m).(lifecycle := lifecycle))
    case ConfigDelta(redacted) =>
      WithStatus(m.(config := Some(redacted.config), secrets := redacted.secrets,
                    connValues := ConnValues(b, m.caps, redacted.config)),
                 StatusOf(m).(protocol := redacted.config.protocol))
  }

  // ---- the page ----

  class Page {
    const browser: Browser
    var state: State

    constructor (browser: Browser)
      ensures this.browser == browser && state == INITIAL
    {
      this.browser := browser;
      state := INITIAL;
    }

    /** `connectionStrings()`, a loop over the active protocol's fields. */
    method ConnectionValues() returns (values: map<string, string>)
      ensures state.config.Some? ==> values == ConnValues(browser, state.caps, state.config.value)
      ensures state.config.None? ==> values == map[]
    {
      values := map[];
      if state.config.None? {
        return;
      }
      var config := state.config.value;
      var caps := FindCapabilities(state.caps, config.protocol);
      if caps.Some? {
        values := ConnectionStrings(browser, caps.value.connectionFields, Connection(config));
      }
    }

    method TakePointStatuses()
      modifies this
      ensures state == old(state).(statuses := WithPointStatuses(old(state.statuses), old(state.points)))
    {
      for i := 0 to |state.points|
        invariant state == old(state).(statuses := WithPointStatuses(old(state.statuses), old(state.points)[..i]))
      {
        assert state.points[..i + 1][..i] == state.points[..i];
        state := state.(statuses := state.statuses[state.points[i].identity := state.points[i].status]);
      }
      assert state.points[..|state.points|] == state.points;
    }

    method SyncPointStatuses()
      modifies this
      ensures state == old(state).(points := Synced(old(state.points), old(state.statuses)))
    {
      for i := 0 to |state.points|
        invariant |state.points| == |old(state.points)|
        invariant state == old(state).(points := state.points)
        invariant state.points[..i] == Synced(old(state.points), state.statuses)[..i]
        invariant state.points[i..] == old(state.points)[i..]
      {
        var point := state.points[i];
        assert point == old(state.points)[i];
        if point.identity in state.statuses {
          state := state.(points := state.points[i := point.(status := state.statuses[point.identity])]);
        }
      }
      assert state.points == state.points[..|state.points|];
      assert Synced(old(state.points), state.statuses) == Synced(old(state.points), state.statuses)[..|state.points|];
    }

    method HandleSnapshot(snap: Snapshot)
      modifies this
      ensures state == Hydrated(browser, old(state), snap)
    {
      state := state.(status := Some(snap.status), caps := snap.capabilities,
                      config := Some(snap.config.config), secrets := snap.config.secrets,
                      devices := snap.devices, browsed := snap.browsed, points := snap.points,
                      samples := snap.recentSamples, logs := snap.logs, lifecycle := snap.status.lifecycle);
      state := state.(statuses := map[]);
      TakePointStatuses();
      var values := ConnectionValues();
      state := state.(connValues := values);
    }

    method HandleDelta(delta: Delta)
      modifies this
      ensures state == Handle(browser, old(state), delta)
    {
      hide WithPointStatuses, Synced, ConnValues;
      match delta
      case LogDelta(record, line) =>
        state := state.(logs := state.logs + [record]);
        if |state.logs| > 500 {
          state := state.(logs := state.logs[1..]);
        }
        if line.Some? && line.value != "" && state.status.Some? {
          state := state.(status := Some(state.status.value.(statusLine := line.value)));
        }
      case DevicesDelta(devices) =>
        state := state.(devices := devices);
        if state.status.Some? {
          state := state.(status := Some(state.status.value.(devices := |devices|)));
        }
      case BrowsedDelta(browsed) =>
        state := state.(browsed := browsed);
      case ProgressDelta(current, total) =>
        if state.status.Some? {
          state := state.(status := Some(state.status.value.(scanProgress := Some((current, total)))));
        }
      case PointsDelta(points) =>
        state := state.(points := points);
        TakePointStatuses();
        if state.status.Some? {
          state := state.(status := Some(state.status.value.(points := |points|)));
        }
      case SamplesDelta(samples, changed) =>
        state := state.(samples := FirstN(200, samples + state.samples));
        state := state.(statuses := state.statuses + changed);
        SyncPointStatuses();
      case StatusesDelta(changed) =>
        state := state.(statuses := state.statuses + changed);
        SyncPointStatuses();
      case StatsDelta(published, acked, error) =>
        if state.status.Some? {
          state := state.(status := Some(state.status.value.(publishedTotal := published)));
          state := state.(status := Some(state.status.value.(ackedTotal := acked)));
          state := state.(status := Some(state.status.value.(lastError := error)));
        }
      case LifecycleDelta(lifecycle) =>
        state := state.(lifecycle := lifecycle);
        if state.status.Some? {
          state := state.(status := Some(state.status.value.(lifecycle := lifecycle)));
        }
      case ConfigDelta(redacted) =>
        state := state.(config := Some(redacted.config), secrets := redacted.secrets);
        if state.status.Some? {
          state := state.(status := Some(state.status.value.(protocol := redacted.config.protocol)));
        }
        var values := ConnectionValues();
        state := state.(connValues := values);
    }

    method HandleEvent(event: Event)
      modifies this
      ensures state == match event
                       case Hydrate(snap) => Hydrated(browser, old(state), snap)
                       case Update(delta) => Handle(browser, old(state), delta)
    {
      match event
      case Hydrate(snap) => HandleSnapshot(snap);
      case Update(delta) => HandleDelta(delta);
    }
  }
}
