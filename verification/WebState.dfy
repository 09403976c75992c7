/** The daemon's state object. Each method does what the handler or event branch of the same
    name does, in its order; its contract is the operation sequence of module Server. */
module WebState {
  import opened Text
  import opened Identity
  import opened Coercion
  import opened Model
  import opened Points
  import opened Server
  import Settings

  /** Up to six operations, one after the other. */
  function Unrolled(core: Core, o: Out, ops: seq<Op>): Out
    requires |ops| <= 6
  {
    var o1 := if |ops| > 0 then Do(core, o, ops[0]) else o;
    var o2 := if |ops| > 1 then Do(core, o1, ops[1]) else o1;
    var o3 := if |ops| > 2 then Do(core, o2, ops[2]) else o2;
    var o4 := if |ops| > 3 then Do(core, o3, ops[3]) else o3;
    var o5 := if |ops| > 4 then Do(core, o4, ops[4]) else o4;
    if |ops| > 5 then Do(core, o5, ops[5]) else o5
  }

  lemma Unroll(core: Core, o: Out, ops: seq<Op>)
    requires |ops| <= 6
    ensures DoAll(core, o, ops) == Unrolled(core, o, ops)
  {
    hide Do;
    if ops != [] {
      var n := |ops| - 1;
      Unroll(core, o, ops[..n]);
    }
  }

  lemma DiskUnused(core: Core, s: Shared, request: Request, disk: Option<string>)
    requires !Saves(request)
    ensures RequestPlan(core, s, request, disk) == RequestPlan(core, s, request, None)
  {
    hide Decimal, SavePlan, PointsPlan, FindCapabilities;
  }

  class WebState {
    const core: Core
    var shared: Shared
    /** Everything given to the broadcast channel so far. */
    var sent: seq<Delta>
    ghost var trace: seq<Item>
    /** The state at the start, and the events and requests since. */
    ghost const boot: Shared
    ghost var done: seq<Action>

    ghost function Cur(): Out
      reads this
    {
      Out(shared, trace)
    }

    ghost predicate Valid()
      reads this
    {
      && sent == Deltas(trace) && |shared.logs| <= LOG_CAPACITY
      && |shared.recentSamples| <= RECENT_SAMPLE_CAPACITY
    }

    /** The object is where its run of actions leads: what is proved of runs holds of it. */
    ghost predicate Reached()
      reads this
    {
      Valid() && Cur() == Run(core, Out(boot, []), done)
    }

    constructor (core: Core, config: Config, bootStatus: string)
      ensures Reached() && this.core == core && boot == Boot(core, config, bootStatus)
      ensures sent == [] && done == []
    {
      this.core := core;
      shared := Shared(config, [], [], None, map[], [], [], 0, Stopped, None, 0, 0, None, bootStatus, 0, {});
      boot := Boot(core, config, bootStatus);
      sent, trace, done := [], [], [];
      new;
      var _ := AppendLog(Info, bootStatus);
    }

    method Emit(delta: Delta)
      requires Valid()
      modifies this`sent, this`trace
      ensures Valid() && trace == old(trace) + [Sent(delta)] && sent == old(sent) + [delta]
    {
      sent := sent + [delta];
      trace := trace + [Sent(delta)];
      assert trace[..|trace| - 1] == old(trace);
    }

    /** Notes in the history that parts of the state changed without being sent. */
    ghost method MarkQuiet(parts: set<Part>, forgets: bool)
      requires Valid()
      modifies this`trace
      ensures Valid() && trace == old(trace) + [Quiet(parts, forgets)]
    {
      trace := trace + [Quiet(parts, forgets)];
      assert trace[..|trace| - 1] == old(trace);
    }

    method Edit(edited: Config)
      requires Valid()
      modifies this`shared, this`trace
      ensures Valid() && shared == old(shared).(config := edited)
      ensures Cur() == Do(core, old(Cur()), Store(edited))
    {
      MarkQuiet(Changed(shared.config, edited), false);
      shared := shared.(config := edited);
    }

    method ReplaceDevices(found: seq<Device>)
      requires Valid()
      modifies this`shared, this`trace
      ensures Valid() && shared == old(shared).(devices := found)
      ensures Cur() == Do(core, old(Cur()), SetDevices(found))
    {
      shared := shared.(devices := found);
      MarkQuiet({DevicesPart}, false);
    }

    method ReplaceBrowsed(found: seq<DiscoveredPoint>)
      requires Valid()
      modifies this`shared, this`trace
      ensures Valid() && shared == old(shared).(browsed := found)
      ensures Cur() == Do(core, old(Cur()), SetBrowsed(found))
    {
      shared := shared.(browsed := found);
      MarkQuiet({BrowsedPart}, false);
    }

    method ReplaceProgress(progress: Option<(nat, nat)>)
      requires Valid()
      modifies this`shared, this`trace
      ensures Valid() && shared == old(shared).(scanProgress := progress)
      ensures Cur() == Do(core, old(Cur()), SetProgress(progress))
    {
      shared := shared.(scanProgress := progress);
      MarkQuiet({ProgressPart}, false);
    }

    method DropStatuses()
      requires Valid()
      modifies this`shared, this`trace
      ensures Valid() && shared == old(shared).(statuses := map[])
      ensures Cur() == Do(core, old(Cur()), ClearStatuses)
    {
      shared := shared.(statuses := map[]);
      MarkQuiet({PointsPart}, true);
    }

    method ZeroCounters()
      modifies this`shared
      ensures shared == Launched(old(shared)) && shared.logs == old(shared.logs)
      ensures shared.recentSamples == old(shared.recentSamples)
    {
      shared := shared.(stopFlag := Some(shared.flags), flags := shared.flags + 1);
      shared := shared.(publishedTotal := 0);
      shared := shared.(ackedTotal := 0);
      shared := shared.(lastError := None);
    }

    method ResetRun()
      requires Valid()
      modifies this`shared, this`trace
      ensures Valid() && Cur() == Do(core, old(Cur()), Launch)
    {
      hide Deltas, Launched;
      ZeroCounters();
      MarkQuiet({StatsPart}, false);
    }

    method RaiseFlag()
      requires Valid() && shared.stopFlag.Some?
      modifies this`shared
      ensures Valid() && Cur() == Do(core, old(Cur()), RaiseStop)
    {
      shared := shared.(raised := shared.raised + {shared.stopFlag.value});
      assert trace + [] == trace;
    }

    method AppendLog(level: Level, message: string) returns (record: LogRecord)
      requires Valid()
      modifies this`shared
      ensures Valid() && record == NextRecord(core, old(shared), level, message)
      ensures shared == PushLog(core, old(shared), level, message)
    {
      if |shared.logs| >= LOG_CAPACITY {
        shared := shared.(logs := shared.logs[1..]);
      }
      shared := shared.(logSeq := shared.logSeq + 1);
      record := LogRecord(shared.logSeq, (core.clock)(shared.logSeq), LevelText(level), message);
      shared := shared.(logs := shared.logs + [record]);
    }

    method LogAndEmit(level: Level, message: string)
      requires Valid()
      modifies this`sent, this`shared, this`trace
      ensures Valid() && Cur() == Do(core, old(Cur()), Log(level, message))
    {
      var record := AppendLog(level, message);
      Emit(LogDelta(record, None));
    }

    method SetStatus(level: Level, message: string)
      requires Valid()
      modifies this`sent, this`shared, this`trace
      ensures Valid() && shared == PushLog(core, old(shared), level, message).(statusLine := message)
      ensures Cur() == Do(core, old(Cur()), Status(level, message))
    {
      shared := shared.(statusLine := message);
      var record := AppendLog(level, message);
      Emit(LogDelta(record, Some(shared.statusLine)));
    }

    method SaveConfig(disk: Option<string>) returns (error: Option<string>)
      requires Valid()
      modifies this`sent, this`shared, this`trace
      ensures Valid() && error == SaveError(core, shared.config, disk)
      ensures shared.config == old(shared.config) && shared.statuses == old(shared.statuses)
      ensures Cur() == Do(core, old(Cur()), SaveOp(core, shared.config, disk))
    {
      match (core.validate)(shared.config)
      case Some(reason) =>
        error := Some("Config invalid: " + reason);
        SetStatus(Level.Error, error.value);
      case None =>
        if disk.None? {
          SetStatus(Info, "Configuration saved");
          error := None;
        } else {
          error := Some("Save failed: " + disk.value);
          SetStatus(Level.Error, error.value);
        }
    }

    method EmitPointList()
      requires Valid()
      modifies this`sent, this`trace
      ensures Valid() && Cur() == Do(core, old(Cur()), EmitPoints)
    {
      Emit(PointsDelta(PointViews(core, shared.config, shared.statuses)));
    }

    method EmitConfiguration()
      requires Valid()
      modifies this`sent, this`trace
      ensures Valid() && Cur() == Do(core, old(Cur()), EmitConfig)
    {
      Emit(ConfigDelta(Redact(shared.config)));
    }

    method EmitDeviceList()
      requires Valid()
      modifies this`sent, this`trace
      ensures Valid() && Cur() == Do(core, old(Cur()), EmitDevices)
    {
      Emit(DevicesDelta(DeviceViews(shared.devices)));
    }

    method EmitBrowsedList()
      requires Valid()
      modifies this`sent, this`trace
      ensures Valid() && Cur() == Do(core, old(Cur()), EmitBrowsed)
    {
      Emit(BrowsedDelta(BrowsedViews(core, shared.browsed)));
    }

    method EmitScanProgress(current: nat, total: nat)
      requires Valid() && shared.scanProgress == Some((current, total))
      modifies this`sent, this`trace
      ensures Valid() && Cur() == Do(core, old(Cur()), EmitProgress)
    {
      Emit(ProgressDelta(current, total));
    }

    // ---- worker events ----

    method ApplyDevices(found: seq<Device>, warnings: seq<string>)
      requires Valid()
      modifies this`sent, this`shared, this`trace
      ensures Valid() && Cur() == Next(core, old(Cur()), Worker(DevicesEvent(found, warnings), None))
    {
      hide Do;
      ghost var ops := [SetDevices(found)];
      ReplaceDevices(found);
      Unroll(core, old(Cur()), ops);
      for i := 0 to |warnings|
        invariant Valid() && ops == [SetDevices(found)] + Warnings(warnings[..i])
        invariant Cur() == DoAll(core, old(Cur()), ops)
      {
        LogAndEmit(Level.Warning, warnings[i]);
        assert Warnings(warnings[..i + 1]) == Warnings(warnings[..i]) + [Log(Level.Warning, warnings[i])];
        DoAllAppend(core, old(Cur()), ops, Log(Level.Warning, warnings[i]));
        ops := ops + [Log(Level.Warning, warnings[i])];
      }
      assert warnings[..|warnings|] == warnings;
      EmitDeviceList();
      DoAllAppend(core, old(Cur()), ops, EmitDevices);
    }

    method ApplyPoints(points: seq<DiscoveredPoint>)
      requires Valid()
      modifies this`sent, this`shared, this`trace
      ensures Valid() && Cur() == Next(core, old(Cur()), Worker(PointsEvent(points), None))
    {
      hide Do;
      Unroll(core, old(Cur()), WorkerOps(core, old(shared), PointsEvent(points), None));
      ReplaceBrowsed(points);
      EmitBrowsedList();
    }

    method ApplyScanProgress(current: nat, total: nat)
      requires Valid()
      modifies this`sent, this`shared, this`trace
      ensures Valid() && Cur() == Next(core, old(Cur()), Worker(ScanProgressEvent(current, total), None))
    {
      hide Do;
      Unroll(core, old(Cur()), WorkerOps(core, old(shared), ScanProgressEvent(current, total), None));
      ReplaceProgress(Some((current, total)));
      EmitScanProgress(current, total);
    }

    method ApplyBulkTagImport(points: seq<PointConfig>, added: nat, updated: nat, disk: Option<string>)
      requires Valid()
      modifies this`sent, this`shared, this`trace
      ensures Valid() && Cur() == Next(core, old(Cur()), Worker(BulkTagImport(points, added, updated), disk))
    {
      hide Do;
      Unroll(core, old(Cur()), WorkerOps(core, old(shared), BulkTagImport(points, added, updated), disk));
      Edit(shared.config.(points := points));
      ReplaceProgress(None);
      var _ := SaveConfig(disk);
      SetStatus(Info, "Bulk import: " + Decimal(added) + " added, " + Decimal(updated) + " updated");
      EmitPointList();
    }

    /** Records the readings one by one, newest in front; returns the views for the delta. */
    method RecordSamples(samples: seq<Sample>) returns (dtos: seq<SampleDto>, changed: map<string, StatusDto>)
      modifies this`shared
      ensures shared == old(shared).(
                statuses := Reported(core, old(shared.statuses), Reads(samples)),
                recentSamples := Reverse(dtos) + old(shared.recentSamples))
      ensures changed == ChangedViews(core, old(shared.statuses), Reads(samples))
      ensures dtos == SampleViews(core, samples)
    {
      hide Key, Identify, StatusView, Reported, ChangedViews, SampleView;
      ghost var readings := Reads(samples);
      changed := map[];
      dtos := [];
      NoReports(core, shared.statuses);
      for i := 0 to |samples|
        invariant shared == old(shared).(
                    statuses := Reported(core, old(shared.statuses), readings[..i]),
                    recentSamples := Reverse(dtos) + old(shared.recentSamples))
        invariant changed == ChangedViews(core, old(shared.statuses), readings[..i])
        invariant dtos == SampleViews(core, samples[..i])
      {
        ReportAt(core, old(shared.statuses), readings, i);
        var identity := PointIdentityOf(samples[i].point);
        var status := (core.recordSample)(Current(core, shared.statuses, identity), samples[i]);
        shared := shared.(statuses := shared.statuses[identity := status]);
        changed := changed[Key(identity) := StatusView(Some(status))];
        var dto := SampleView(core, samples[i]);
        shared := shared.(recentSamples := [dto] + shared.recentSamples);
        assert (dtos + [dto])[..|dtos|] == dtos;
        dtos := dtos + [dto];
      }
      assert readings[..|samples|] == readings && samples[..|samples|] == samples;
    }

    method TrimSamples()
      modifies this`shared
      ensures shared == old(shared).(recentSamples := FirstN(RECENT_SAMPLE_CAPACITY, old(shared.recentSamples)))
      ensures |shared.recentSamples| <= RECENT_SAMPLE_CAPACITY
    {
      while |shared.recentSamples| > RECENT_SAMPLE_CAPACITY
        invariant shared == old(shared).(recentSamples := shared.recentSamples)
        invariant FirstN(RECENT_SAMPLE_CAPACITY, shared.recentSamples)
                  == FirstN(RECENT_SAMPLE_CAPACITY, old(shared.recentSamples))
      {
        shared := shared.(recentSamples := shared.recentSamples[..|shared.recentSamples| - 1]);
      }
    }

    method ApplySamples(samples: seq<Sample>)
      requires Valid()
      modifies this`sent, this`shared, this`trace
      ensures Valid() && Cur() == Next(core, old(Cur()), Worker(SamplesEvent(samples), None))
    {
      hide Deltas, Reported, ChangedViews, SampleViews, Reverse, FirstN;
      var dtos, changed := RecordSamples(samples);
      TrimSamples();
      Emit(SamplesDelta(dtos, changed));
      Unroll(core, old(Cur()), [TakeSamples(samples)]);
    }

    method RecordFailures(failures: seq<(PointConfig, string)>) returns (changed: map<string, StatusDto>)
      modifies this`shared
      ensures shared == old(shared).(statuses := Reported(core, old(shared.statuses), Misses(failures)))
      ensures changed == ChangedViews(core, old(shared.statuses), Misses(failures))
    {
      hide Key, Identify, StatusView, Reported, ChangedViews;
      ghost var misses := Misses(failures);
      changed := map[];
      NoReports(core, shared.statuses);
      for i := 0 to |failures|
        invariant shared == old(shared).(statuses := Reported(core, old(shared.statuses), misses[..i]))
        invariant changed == ChangedViews(core, old(shared.statuses), misses[..i])
      {
        ReportAt(core, old(shared.statuses), misses, i);
        var identity := PointIdentityOf(failures[i].0);
        var status := (core.recordReadFailure)(Current(core, shared.statuses, identity), failures[i].1);
        shared := shared.(statuses := shared.statuses[identity := status]);
        changed := changed[Key(identity) := StatusView(Some(status))];
      }
      assert misses[..|failures|] == misses;
    }

    method ApplyFailures(failures: seq<(PointConfig, string)>)
      requires Valid()
      modifies this`sent, this`shared, this`trace
      ensures Valid() && Cur() == Next(core, old(Cur()), Worker(FailuresEvent(failures), None))
    {
      hide Deltas, Reported, ChangedViews;
      var changed := RecordFailures(failures);
      Emit(StatusesDelta(changed));
      Unroll(core, old(Cur()), [TakeReports(Misses(failures))]);
    }

    method AddStats(published: nat, acked: nat, error: Option<string>)
      modifies this`shared
      ensures shared == WithStats(old(shared), published, acked, error) && shared.logs == old(shared.logs)
      ensures shared.recentSamples == old(shared.recentSamples)
    {
      shared := shared.(publishedTotal := shared.publishedTotal + published);
      shared := shared.(ackedTotal := if acked > shared.ackedTotal then acked else shared.ackedTotal);
      shared := shared.(lastError := error);
    }

    method ApplyPublishStatus(published: nat, acked: nat, error: Option<string>)
      requires Valid()
      modifies this`sent, this`shared, this`trace
      ensures Valid() && Cur() == Next(core, old(Cur()), Worker(PublishStatus(published, acked, error), None))
    {
      hide Deltas, WithStats;
      Unroll(core, old(Cur()), [TakeStats(published, acked, error)]);
      AddStats(published, acked, error);
      Emit(StatsDelta(shared.publishedTotal, shared.ackedTotal, shared.lastError));
    }

    /** Records one publish result; the key is built here from the identity alone. */
    method RecordPublish(identity: PointIdentity, error: Option<string>) returns (changed: map<string, StatusDto>)
      modifies this`shared
      ensures shared == old(shared).(statuses := Reported(core, old(shared.statuses), [Published(identity, error)]))
      ensures changed == ChangedViews(core, old(shared.statuses), [Published(identity, error)])
    {
      hide StatusView;
      var key := Join(Pairs(identity), ",");
      var before := Current(core, shared.statuses, identity);
      var status := if error.None? then (core.recordPublishSuccess)(before)
                    else (core.recordPublishFailure)(before, error.value);
      shared := shared.(statuses := shared.statuses[identity := status]);
      changed := map[key := StatusView(Some(status))];
      assert [Published(identity, error)][..0] == [];
    }

    method ApplyPointPublish(identity: PointIdentity, error: Option<string>)
      requires Valid()
      modifies this`sent, this`shared, this`trace
      ensures Valid() && Cur() == Next(core, old(Cur()), Worker(PointPublish(identity, error), None))
    {
      hide Deltas, Reported, ChangedViews;
      var changed := RecordPublish(identity, error);
      Emit(StatusesDelta(changed));
      Unroll(core, old(Cur()), [TakeReports([Published(identity, error)])]);
    }

    method ReplaceLifecycle(next: Lifecycle)
      requires Valid()
      modifies this`sent, this`shared, this`trace
      ensures Valid() && Cur() == Do(core, old(Cur()), SetLifecycle(next))
    {
      hide Deltas, LifecycleView;
      shared := shared.(lifecycle := next);
      Emit(LifecycleDelta(LifecycleView(shared.lifecycle)));
    }

    method ApplyLifecycle(next: Lifecycle)
      requires Valid()
      modifies this`sent, this`shared, this`trace
      ensures Valid() && Cur() == Next(core, old(Cur()), Worker(LifecycleEvent(next), None))
    {
      hide Do;
      Unroll(core, old(Cur()), WorkerOps(core, old(shared), LifecycleEvent(next), None));
      if next.Failed? {
        LogAndEmit(Level.Error, "Republisher failed: " + next.error);
      }
      ReplaceLifecycle(next);
    }

    method ApplyLog(level: Level, message: string)
      requires Valid()
      modifies this`sent, this`shared, this`trace
      ensures Valid() && Cur() == Next(core, old(Cur()), Worker(LogEvent(level, message), None))
      ensures level == Info ==> Cur() == Next(core, old(Cur()), Worker(Finished(message), None))
    {
      LogAndEmit(level, message);
      Unroll(core, old(Cur()), [Log(level, message)]);
    }

    /** The drain's dispatch. */
    method ApplyEvent(event: WorkerEvent, disk: Option<string>)
      requires Valid()
      modifies this`sent, this`shared, this`trace
      ensures Valid() && Cur() == Next(core, old(Cur()), Worker(event, disk))
    {
      match event
      case LogEvent(level, message) => ApplyLog(level, message);
      case DevicesEvent(found, warnings) => ApplyDevices(found, warnings);
      case PointsEvent(points) => ApplyPoints(points);
      case ScanProgressEvent(current, total) => ApplyScanProgress(current, total);
      case BulkTagImport(points, added, updated) => ApplyBulkTagImport(points, added, updated, disk);
      case SamplesEvent(samples) => ApplySamples(samples);
      case FailuresEvent(failures) => ApplyFailures(failures);
      case PublishStatus(published, acked, error) => ApplyPublishStatus(published, acked, error);
      case PointPublish(identity, error) => ApplyPointPublish(identity, error);
      case LifecycleEvent(next) => ApplyLifecycle(next);
      case Finished(message) => ApplyLog(Info, message);
    }

    // ---- requests ----

    ghost predicate Answers(before: Out, request: Request, disk: Option<string>, reply: Reply)
      reads this
    {
      && Valid()
      && Cur() == Next(core, before, Http(request, disk))
      && reply == RequestPlan(core, before.s, request, disk).reply
    }

    method GetInterfaces(count: nat) returns (reply: Reply)
      requires Valid()
      modifies this`sent, this`shared, this`trace
      ensures Answers(old(Cur()), Request.GetInterfaces(count), None, reply)
    {
      SetStatus(Info, "Refreshed " + Decimal(count) + " network interface(s)");
      hide Do, Decimal;
      Unroll(core, old(Cur()), RequestPlan(core, old(shared), Request.GetInterfaces(count), None).ops);
      reply := Ok;
    }

    method SetProtocol(id: string) returns (reply: Reply)
      requires Valid()
      modifies this`sent, this`shared, this`trace
      ensures Answers(old(Cur()), Request.SetProtocol(id), None, reply)
    {
      hide Do, Decimal;
      Unroll(core, old(Cur()), RequestPlan(core, old(shared), Request.SetProtocol(id), None).ops);
      if FindCapabilities(core.capabilities, id).None? {
        return BadRequest("unknown protocol '" + id + "'");
      }
      Edit(shared.config.(protocol := id));
      ReplaceDevices([]);
      ReplaceBrowsed([]);
      EmitConfiguration();
      EmitDeviceList();
      EmitBrowsedList();
      reply := Ok;
    }

    method SetConnection(values: map<string, string>, disk: Option<string>) returns (reply: Reply)
      requires Valid()
      modifies this`sent, this`shared, this`trace
      ensures Answers(old(Cur()), Request.SetConnection(values), disk, reply)
    {
      hide Do, Decimal;
      Unroll(core, old(Cur()), RequestPlan(core, old(shared), Request.SetConnection(values), disk).ops);
      var caps := FindCapabilities(core.capabilities, shared.config.protocol);
      if caps.None? {
        return BadRequest("no protocol selected");
      }
      var addressing := BuildAddressing(caps.value.connectionFields, values);
      Edit(shared.config.(connections := shared.config.connections[shared.config.protocol := addressing]));
      var error := SaveConfig(disk);
      if error.Some? {
        return BadRequest(error.value);
      }
      EmitConfiguration();
      reply := Ok;
    }

    method Discover() returns (reply: Reply)
      requires Valid()
      modifies this`sent, this`shared, this`trace
      ensures Answers(old(Cur()), Request.Discover, None, reply)
    {
      hide Do, Decimal;
      Unroll(core, old(Cur()), RequestPlan(core, old(shared), Request.Discover, None).ops);
      if shared.config.protocol !in core.registry {
        return BadRequest("no protocol selected");
      }
      ReplaceDevices([]);
      SetStatus(Info, "Discovering…");
      EmitDeviceList();
      reply := Ok;
    }

    method BrowseDevice(index: nat) returns (reply: Reply)
      requires Valid()
      modifies this`sent, this`shared, this`trace
      ensures Answers(old(Cur()), Request.BrowseDevice(index), None, reply)
    {
      hide Do, Decimal;
      Unroll(core, old(Cur()), RequestPlan(core, old(shared), Request.BrowseDevice(index), None).ops);
      if index >= |shared.devices| {
        return NotFound("no such discovered device");
      }
      if shared.config.protocol !in core.registry {
        return BadRequest("no protocol selected");
      }
      ReplaceBrowsed([]);
      SetStatus(Info, "Browsing " + shared.devices[index].key + "…");
      EmitBrowsedList();
      reply := Ok;
    }

    method ScanAll() returns (reply: Reply)
      requires Valid()
      modifies this`sent, this`shared, this`trace
      ensures Answers(old(Cur()), Request.ScanAll, None, reply)
    {
      hide Do, Decimal;
      Unroll(core, old(Cur()), RequestPlan(core, old(shared), Request.ScanAll, None).ops);
      if shared.devices == [] {
        SetStatus(Level.Warning, "Discover devices before scan-all");
        return BadRequest("discover devices before scan-all");
      }
      if shared.config.protocol !in core.registry {
        return BadRequest("no protocol selected");
      }
      ReplaceProgress(Some((0, |shared.devices|)));
      SetStatus(Info, "Scanning all objects…");
      EmitScanProgress(0, |shared.devices|);
      reply := Ok;
    }

    method PollOnce() returns (reply: Reply)
      requires Valid()
      modifies this`sent, this`shared, this`trace
      ensures Answers(old(Cur()), Request.PollOnce, None, reply)
    {
      hide Do, Decimal;
      Unroll(core, old(Cur()), RequestPlan(core, old(shared), Request.PollOnce, None).ops);
      if shared.config.protocol !in core.registry {
        return BadRequest("no protocol selected");
      }
      SetStatus(Info, "Polling once…");
      reply := Ok;
    }

    /** The common end of the point handlers: keep the edited list, save, send the list. */
    method SavePointList(points: seq<PointConfig>, disk: Option<string>) returns (reply: Reply)
      requires Valid()
      modifies this`sent, this`shared, this`trace
      ensures Valid()
      ensures var plan := PointsPlan(core, old(shared), points, disk, [EmitPoints]);
              Cur() == DoAll(core, old(Cur()), plan.ops) && reply == plan.reply
    {
      hide Do;
      Unroll(core, old(Cur()), PointsPlan(core, old(shared), points, disk, [EmitPoints]).ops);
      Edit(shared.config.(points := points));
      var error := SaveConfig(disk);
      if error.Some? {
        return BadRequest(error.value);
      }
      EmitPointList();
      reply := Ok;
    }

    method SavePoint(req: PointReq, disk: Option<string>) returns (reply: Reply)
      requires Valid()
      modifies this`sent, this`shared, this`trace
      ensures Answers(old(Cur()), Request.SavePoint(req), disk, reply)
    {
      hide Do, PointsPlan, FindCapabilities, Built, Trim, Decimal;
      var caps := FindCapabilities(core.capabilities, shared.config.protocol);
      if caps.None? {
        return BadRequest("select a protocol first");
      }
      var addressing := BuildAddressing(caps.value.addressingFields, req.addressing);
      var point := PointConfig(req.enabled, Trim(req.deviceKey), addressing, Trim(req.tagPath),
                               if req.pollIntervalSecs == 0 then 1 else req.pollIntervalSecs);
      var points := shared.config.points;
      match req.index {
        case Some(index) =>
          if index >= |points| {
            return NotFound("no such point");
          }
          points := points[index := point];
        case None =>
          points := points + [point];
      }
      reply := SavePointList(points, disk);
    }

    method TogglePoint(index: nat, enabled: bool, disk: Option<string>) returns (reply: Reply)
      requires Valid()
      modifies this`sent, this`shared, this`trace
      ensures Answers(old(Cur()), Request.TogglePoint(index, enabled), disk, reply)
    {
      hide Do, PointsPlan, Decimal;
      var points := shared.config.points;
      if index >= |points| {
        return NotFound("no such point");
      }
      reply := SavePointList(points[index := points[index].(enabled := enabled)], disk);
    }

    method DeletePoint(index: nat, disk: Option<string>) returns (reply: Reply)
      requires Valid()
      modifies this`sent, this`shared, this`trace
      ensures Answers(old(Cur()), Request.DeletePoint(index), disk, reply)
    {
      hide Do, PointsPlan, Decimal;
      var points := shared.config.points;
      if index >= |points| {
        return NotFound("no such point");
      }
      reply := SavePointList(points[..index] + points[index + 1..], disk);
    }

    method ClearPoints(disk: Option<string>) returns (reply: Reply)
      requires Valid()
      modifies this`sent, this`shared, this`trace
      ensures Answers(old(Cur()), Request.ClearPoints, disk, reply)
    {
      hide Do, Decimal;
      Unroll(core, old(Cur()), RequestPlan(core, old(shared), Request.ClearPoints, disk).ops);
      var removed := |shared.config.points|;
      Edit(shared.config.(points := []));
      DropStatuses();
      var error := SaveConfig(disk);
      if error.Some? {
        return BadRequest(error.value);
      }
      SetStatus(Info, "Cleared " + Decimal(removed) + " configured point(s).");
      EmitPointList();
      reply := Removed(removed);
    }

    method AddBrowsedPoint(index: nat, disk: Option<string>) returns (reply: Reply)
      requires Valid()
      modifies this`sent, this`shared, this`trace
      ensures Answers(old(Cur()), Request.AddBrowsedPoint(index), disk, reply)
    {
      hide Do, Decimal;
      Unroll(core, old(Cur()), RequestPlan(core, old(shared), Request.AddBrowsedPoint(index), disk).ops);
      if index >= |shared.browsed| {
        return NotFound("no such browsed point");
      }
      var found := shared.browsed[index];
      var point := PointConfig(true, found.deviceKey, found.addressing, found.suggestedTagPath, 10);
      var points := UpsertPoint(shared.config.points, point);
      Edit(shared.config.(points := points));
      var error := SaveConfig(disk);
      if error.Some? {
        return BadRequest(error.value);
      }
      SetStatus(Info, "Added point from browse");
      EmitPointList();
      reply := Ok;
    }

    method PutSettings(req: Settings.SettingsReq, disk: Option<string>) returns (reply: Reply)
      requires Valid()
      modifies this`sent, this`shared, this`trace
      ensures Answers(old(Cur()), Request.PutSettings(req), disk, reply)
    {
      hide Do, Decimal;
      Unroll(core, old(Cur()), RequestPlan(core, old(shared), Request.PutSettings(req), disk).ops);
      var edited := UpdatedSettings(req);
      Edit(edited);
      var error := SaveConfig(disk);
      if error.Some? {
        return BadRequest(error.value);
      }
      EmitConfiguration();
      reply := Ok;
    }

    /** The field-by-field update of the settings. */
    method UpdatedSettings(req: Settings.SettingsReq) returns (edited: Config)
      ensures edited == Settings.Put(shared.config, req)
    {
      var mqtt := shared.config.mqtt;
      mqtt := mqtt.(host := req.host, port := req.port, useTls := req.useTls, clientId := req.clientId,
                    topicPrefix := req.topicPrefix, healthTopic := req.healthTopic);
      mqtt := mqtt.(username := Settings.NonEmpty(req.username));
      mqtt := mqtt.(password := Settings.ApplySecret(mqtt.password, req.password));
      mqtt := mqtt.(caCertPath := Settings.NonEmpty(req.caCertPath),
                    clientCertPath := Settings.NonEmpty(req.clientCertPath),
                    clientKeyPath := Settings.NonEmpty(req.clientKeyPath));
      mqtt := mqtt.(clientKeyPassphrase := Settings.ApplySecret(mqtt.clientKeyPassphrase, req.clientKeyPassphrase));
      mqtt := mqtt.(rememberSecrets := req.rememberSecrets, retain := req.retain,
                    keepAliveSecs := Settings.AtLeastOne(req.keepAliveSecs), payloadFormat := req.payloadFormat,
                    deviceTopicPrefix := req.deviceTopicPrefix, autostart := req.autostart);
      edited := shared.config.(mqtt := mqtt);
      if req.discoverOnStart.Some? {
        edited := edited.(discoverOnStart := req.discoverOnStart.value);
      }
      if req.theme.Some? {
        edited := edited.(theme := req.theme.value);
      }
    }

    method StartRepublisher() returns (reply: Reply)
      requires Valid()
      modifies this`sent, this`shared, this`trace
      ensures Answers(old(Cur()), Request.StartRepublisher, None, reply)
    {
      hide Do, Decimal;
      Unroll(core, old(Cur()), RequestPlan(core, old(shared), Request.StartRepublisher, None).ops);
      if shared.lifecycle.Starting? || shared.lifecycle.Running? || shared.lifecycle.Stopping? {
        return Conflict("republisher is already running");
      }
      var invalid := (core.validate)(shared.config);
      if invalid.Some? {
        var message := "Cannot start: " + invalid.value;
        SetStatus(Level.Error, message);
        return BadRequest(message);
      }
      if shared.config.protocol !in core.registry {
        return BadRequest("no protocol selected");
      }
      ResetRun();
      SetStatus(Info, "Republisher starting…");
      reply := Ok;
    }

    method StopRepublisher() returns (reply: Reply)
      requires Valid()
      modifies this`sent, this`shared, this`trace
      ensures Answers(old(Cur()), Request.StopRepublisher, None, reply)
    {
      hide Do, Decimal;
      Unroll(core, old(Cur()), RequestPlan(core, old(shared), Request.StopRepublisher, None).ops);
      if shared.stopFlag.Some? {
        RaiseFlag();
        SetStatus(Info, "Stopping republisher…");
      }
      reply := Ok;
    }

    // ---- the two ways in ----

    method TakeSnapshot() returns (snapshot: Snapshot)
      ensures snapshot == SnapshotJson(core, shared)
    {
      snapshot := SnapshotJson(core, shared);
    }

    /** The drain thread: one event from the workers' channel. */
    method Drain(event: WorkerEvent, disk: Option<string>)
      requires Reached()
      modifies this
      ensures Reached() && done == old(done) + [Worker(event, disk)]
      ensures Cur() == Next(core, old(Cur()), Worker(event, disk))
    {
      hide Next, Deltas;
      ApplyEvent(event, disk);
      done := done + [Worker(event, disk)];
      assert done[..|done| - 1] == old(done);
    }

    /** The request handlers. */
    method Serve(request: Request, disk: Option<string>) returns (reply: Reply)
      requires Reached()
      modifies this
      ensures Reached() && done == old(done) + [Http(request, disk)]
      ensures Answers(old(Cur()), request, disk, reply)
    {
      hide Next, Deltas, RequestPlan;
      reply := Dispatch(request, disk);
      done := done + [Http(request, disk)];
      assert done[..|done| - 1] == old(done);
    }

    method Dispatch(request: Request, disk: Option<string>) returns (reply: Reply)
      requires Valid()
      modifies this`sent, this`shared, this`trace
      ensures Answers(old(Cur()), request, disk, reply)
    {
      hide DoAll, Deltas, RequestPlan;
      if !Saves(request) { DiskUnused(core, shared, request, disk); }
      match request
      case GetInterfaces(count) => reply := GetInterfaces(count);
      case SetProtocol(id) => reply := SetProtocol(id);
      case SetConnection(values) => reply := SetConnection(values, disk);
      case Discover => reply := Discover();
      case BrowseDevice(device) => reply := BrowseDevice(device);
      case ScanAll => reply := ScanAll();
      case PollOnce => reply := PollOnce();
      case SavePoint(point) => reply := SavePoint(point, disk);
      case TogglePoint(index, enabled) => reply := TogglePoint(index, enabled, disk);
      case DeletePoint(index) => reply := DeletePoint(index, disk);
      case ClearPoints => reply := ClearPoints(disk);
      case AddBrowsedPoint(index) => reply := AddBrowsedPoint(index, disk);
      case PutSettings(settings) => reply := PutSettings(settings, disk);
      case StartRepublisher => reply := StartRepublisher();
      case StopRepublisher => reply := StopRepublisher();
    }
  }
}
