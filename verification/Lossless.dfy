/** Runs in which every delta arrives and every save succeeds: which parts can still be behind. */
module Lossless {
  import opened Text
  import opened Model
  import opened Server
  import opened Mirror
  import opened Simulation
  import opened Replication
  import opened WebState
  import Settings
  import Coercion

  /** What an action may leave unsent although its save succeeds: a bulk import clears the scan
      progress, new settings can change topics, and a start zeroes the counters. */
  function Leaves(a: Action): set<Part> {
    match a
    case Worker(event, _) => if event.BulkTagImport? then {ProgressPart} else {}
    case Http(request, _) =>
      if request.PutSettings? then {TopicsPart}
      else if request.StartRepublisher? then {StatsPart}
      else {}
  }

  /** The request does not end in a failed save. */
  predicate SavesOk(core: Core, s: Shared, a: Action) {
    a.Http? && !a.request.SetProtocol? ==>
      forall i :: 0 <= i < |Ops(core, s, a)| ==>
        Ops(core, s, a)[i].Store? ==> SaveError(core, Ops(core, s, a)[i].config, a.disk).None?
  }

  /** The stale parts after up to six operations. */
  function MarkedSeq(core: Core, o: Out, stale: set<Part>, ops: seq<Op>): set<Part>
    requires |ops| <= 6
  {
    var o1, m1 := if |ops| > 0 then Do(core, o, ops[0]) else o, if |ops| > 0 then Marked(o.s, stale, ops[0]) else stale;
    var o2, m2 := if |ops| > 1 then Do(core, o1, ops[1]) else o1, if |ops| > 1 then Marked(o1.s, m1, ops[1]) else m1;
    var o3, m3 := if |ops| > 2 then Do(core, o2, ops[2]) else o2, if |ops| > 2 then Marked(o2.s, m2, ops[2]) else m2;
    var o4, m4 := if |ops| > 3 then Do(core, o3, ops[3]) else o3, if |ops| > 3 then Marked(o3.s, m3, ops[3]) else m3;
    var o5, m5 := if |ops| > 4 then Do(core, o4, ops[4]) else o4, if |ops| > 4 then Marked(o4.s, m4, ops[4]) else m4;
    if |ops| > 5 then Marked(o5.s, m5, ops[5]) else m5
  }

  lemma MarkedUnroll(core: Core, o: Out, stale: set<Part>, ops: seq<Op>)
    requires |ops| <= 6
    ensures Unsent(stale, DoAll(core, o, ops).trace) == MarkedSeq(core, o, Unsent(stale, o.trace), ops)
  {
    hide Do, Marked, Unsent;
    if ops != [] {
      var n := |ops| - 1;
      Unroll(core, o, ops[..n]);
      MarkedUnroll(core, o, stale, ops[..n]);
      MarkedIsUnsent(core, stale, DoAll(core, o, ops[..n]), ops[n]);
    }
  }

  lemma {:induction false} WarningsLeaveNothing(core: Core, o: Out, stale: set<Part>, warnings: seq<string>)
    ensures Unsent(stale, DoAll(core, o, Warnings(warnings)).trace) == Unsent(stale, o.trace)
  {
    hide Do, Unsent;
    if warnings != [] {
      var n := |warnings| - 1;
      WarningsLeaveNothing(core, o, stale, warnings[..n]);
      assert Warnings(warnings)[..n] == Warnings(warnings[..n]);
      MarkedIsUnsent(core, stale, DoAll(core, o, Warnings(warnings[..n])), Log(Level.Warning, warnings[n]));
    }
  }

  lemma DevicesEventLeaves(core: Core, o: Out, stale: set<Part>, devices: seq<Device>, warnings: seq<string>)
    ensures Unsent(stale, DoAll(core, o, [SetDevices(devices)] + Warnings(warnings) + [EmitDevices]).trace)
            <= Unsent(stale, o.trace)
  {
    hide Do, Unsent, Warnings;
    var first, middle := [SetDevices(devices)], Warnings(warnings);
    DoAllConcat(core, o, first, middle);
    DoAllAppend(core, o, first + middle, EmitDevices);
    MarkedUnroll(core, o, stale, first);
    WarningsLeaveNothing(core, DoAll(core, o, first), stale, warnings);
    MarkedIsUnsent(core, stale, DoAll(core, o, first + middle), EmitDevices);
  }

  lemma ScanEventLeaves(core: Core, o: Out, stale: set<Part>, current: nat, total: nat)
    ensures Unsent(stale, DoAll(core, o, [SetProgress(Some((current, total))), EmitProgress]).trace)
            <= Unsent(stale, o.trace)
  {
    hide Do, Unsent;
    var ops := [SetProgress(Some((current, total))), EmitProgress];
    DoFrame(core, o, ops[0]);
    MarkedUnroll(core, o, stale, ops);
  }

  lemma ImportEventLeaves(core: Core, o: Out, stale: set<Part>, points: seq<PointConfig>, save: Op, report: Op)
    requires save.Status? && report.Status?
    ensures var ops := [Store(WithPoints(o.s, points)), SetProgress(None), save, report, EmitPoints];
            Unsent(stale, DoAll(core, o, ops).trace) <= Unsent(stale, o.trace) + {ProgressPart}
  {
    hide Do, Unsent, Changed;
    OnlyPointsChange(o.s, points);
    MarkedUnroll(core, o, stale, [Store(WithPoints(o.s, points)), SetProgress(None), save, report, EmitPoints]);
  }

  lemma WorkerLeaves(core: Core, o: Out, stale: set<Part>, event: WorkerEvent, disk: Option<string>)
    ensures var a := Worker(event, disk);
            Unsent(stale, Next(core, o, a).trace) <= Unsent(stale, o.trace) + Leaves(a)
  {
    hide DoAll, Unsent, Decimal, Warnings;
    match event
    case DevicesEvent(devices, warnings) => DevicesEventLeaves(core, o, stale, devices, warnings);
    case ScanProgressEvent(current, total) => ScanEventLeaves(core, o, stale, current, total);
    case BulkTagImport(points, _, _) =>
      var ops := WorkerOps(core, o.s, event, disk);
      ImportEventLeaves(core, o, stale, points, ops[2], ops[3]);
    case _ =>
      hide MarkedSeq;
      OtherEventLeaves(core, o, stale, event, disk);
  }

  lemma OtherEventLeaves(core: Core, o: Out, stale: set<Part>, event: WorkerEvent, disk: Option<string>)
    requires !event.DevicesEvent? && !event.ScanProgressEvent? && !event.BulkTagImport?
    ensures Unsent(stale, DoAll(core, o, WorkerOps(core, o.s, event, disk)).trace) <= Unsent(stale, o.trace)
  {
    hide Do, Unsent, Decimal, Changed;
    MarkedUnroll(core, o, stale, WorkerOps(core, o.s, event, disk));
  }

  lemma OnlyPointsChange(s: Shared, points: seq<PointConfig>)
    ensures Changed(s.config, WithPoints(s, points)) <= {PointsPart}
  {
  }

  /** An edit of the point list whose save succeeds ends with the list being sent. */
  lemma PointsPlanLeaves(core: Core, o: Out, stale: set<Part>, points: seq<PointConfig>,
                         disk: Option<string>, after: seq<Op>)
    requires after == [EmitPoints] || (|after| == 2 && after[0].Status? && after[1] == EmitPoints)
    requires SaveError(core, WithPoints(o.s, points), disk).None?
    ensures Unsent(stale, DoAll(core, o, PointsPlan(core, o.s, points, disk, after).ops).trace)
            <= Unsent(stale, o.trace)
  {
    hide Do, Unsent, Changed;
    OnlyPointsChange(o.s, points);
    MarkedUnroll(core, o, stale, PointsPlan(core, o.s, points, disk, after).ops);
  }

  lemma PointRequestLeaves(core: Core, o: Out, stale: set<Part>, request: Request, disk: Option<string>)
    requires request.SavePoint? || request.TogglePoint? || request.DeletePoint? || request.AddBrowsedPoint?
    requires SavesOk(core, o.s, Http(request, disk))
    ensures Unsent(stale, Next(core, o, Http(request, disk)).trace) <= Unsent(stale, o.trace)
  {
    hide Do, Unsent, Changed, Points.Upsert, Decimal, Coercion.Built, FindCapabilities, SaveOp;
    var ops := RequestPlan(core, o.s, request, disk).ops;
    if ops != [] {
      assert ops[0].Store?;
      var points := ops[0].config.points;
      assert ops[0] == Store(WithPoints(o.s, points));
      assert Ops(core, o.s, Http(request, disk))[0] == ops[0];
      assert SaveError(core, ops[0].config, disk).None?;
      var after := ops[2..];
      assert after == [EmitPoints] || after == [Status(Info, "Added point from browse"), EmitPoints];
      assert ops == PointsPlan(core, o.s, points, disk, after).ops;
      PointsPlanLeaves(core, o, stale, points, disk, after);
    }
  }

  lemma PointsUnchanged(before: Config, after: Config)
    requires after.points == before.points
    ensures Changed(before, after) <= {ConfigPart, TopicsPart}
    ensures after.mqtt == before.mqtt ==> Changed(before, after) <= {ConfigPart}
  {
  }

  /** Two operations after the edit: what the edit changed, less what the last one sends. */
  lemma EditThenSend(core: Core, o: Out, stale: set<Part>, config: Config, status: Op, send: Op)
    requires status.Status? && (send.EmitConfig? || send.EmitPoints?)
    ensures Unsent(stale, DoAll(core, o, [Store(config), status, send]).trace) <=
            Unsent(stale, o.trace) +
            (Changed(o.s.config, config) - if send.EmitConfig? then {ConfigPart} else {PointsPart, TopicsPart})
  {
    hide Do, Unsent, Changed;
    MarkedUnroll(core, o, stale, [Store(config), status, send]);
  }

  /** An edit of the rest of the configuration whose save succeeds ends with it being sent. */
  lemma ConfigPlanLeaves(core: Core, o: Out, stale: set<Part>, config: Config, disk: Option<string>)
    requires SaveError(core, config, disk).None? && config.points == o.s.config.points
    ensures var ops := SavePlan(core, config, disk, [Store(config)], [EmitConfig], Ok).ops;
            var after := Unsent(stale, DoAll(core, o, ops).trace);
            && after <= Unsent(stale, o.trace) + {TopicsPart}
            && (config.mqtt == o.s.config.mqtt ==> after <= Unsent(stale, o.trace))
  {
    hide DoAll, Unsent, Changed;
    PointsUnchanged(o.s.config, config);
    var status := SaveOp(core, config, disk);
    assert SavePlan(core, config, disk, [Store(config)], [EmitConfig], Ok).ops == [Store(config), status, EmitConfig];
    EditThenSend(core, o, stale, config, status, EmitConfig);
  }

  lemma ClearLeaves(core: Core, o: Out, stale: set<Part>, disk: Option<string>)
    requires SaveError(core, WithPoints(o.s, []), disk).None?
    ensures Unsent(stale, Next(core, o, Http(ClearPoints, disk)).trace) <= Unsent(stale, o.trace)
  {
    hide Do, Unsent, Changed, Decimal;
    OnlyPointsChange(o.s, []);
    MarkedUnroll(core, o, stale, RequestPlan(core, o.s, ClearPoints, disk).ops);
  }

  lemma SetProtocolLeaves(core: Core, o: Out, stale: set<Part>, id: string)
    ensures var ops := [Store(o.s.config.(protocol := id)), SetDevices([]), SetBrowsed([]),
                        EmitConfig, EmitDevices, EmitBrowsed];
            Unsent(stale, DoAll(core, o, ops).trace) <= Unsent(stale, o.trace)
  {
    hide Do, Unsent, Changed;
    PointsUnchanged(o.s.config, o.s.config.(protocol := id));
    MarkedUnroll(core, o, stale,
      [Store(o.s.config.(protocol := id)), SetDevices([]), SetBrowsed([]), EmitConfig, EmitDevices, EmitBrowsed]);
  }

  lemma SettingsRequestLeaves(core: Core, o: Out, stale: set<Part>, request: Request, disk: Option<string>)
    requires request.SetConnection? || request.PutSettings? || request.ClearPoints? || request.SetProtocol?
    requires SavesOk(core, o.s, Http(request, disk))
    ensures var a := Http(request, disk);
            Unsent(stale, Next(core, o, a).trace) <= Unsent(stale, o.trace) + Leaves(a)
  {
    hide DoAll, Unsent, Decimal, Coercion.Built, FindCapabilities, Settings.NonEmpty, Settings.ApplySecret;
    var ops := RequestPlan(core, o.s, request, disk).ops;
    if ops == [] {
      NothingDone(core, o);
    } else {
      assert ops[0].Store?;
      assert Ops(core, o.s, Http(request, disk))[0] == ops[0];
      if request.SetProtocol? {
        SetProtocolLeaves(core, o, stale, request.id);
      } else if request.ClearPoints? {
        ClearLeaves(core, o, stale, disk);
      } else {
        ConfigPlanLeaves(core, o, stale, ops[0].config, disk);
      }
    }
  }

  lemma NothingDone(core: Core, o: Out)
    ensures DoAll(core, o, []) == o
  {
  }

  lemma ScanRequestLeaves(core: Core, o: Out, stale: set<Part>, request: Request, disk: Option<string>)
    requires request.Discover? || request.BrowseDevice? || request.ScanAll?
    ensures Unsent(stale, Next(core, o, Http(request, disk)).trace) <= Unsent(stale, o.trace)
  {
    hide Do, Unsent, Decimal, SavePlan, PointsPlan;
    var ops := RequestPlan(core, o.s, request, disk).ops;
    MarkedUnroll(core, o, stale, ops);
    if request.ScanAll? && |ops| == 3 {
      DoFrame(core, o, ops[0]);
      DoFrame(core, Do(core, o, ops[0]), ops[1]);
    }
  }

  lemma RunRequestLeaves(core: Core, o: Out, stale: set<Part>, request: Request, disk: Option<string>)
    requires request.GetInterfaces? || request.PollOnce? || request.StartRepublisher? || request.StopRepublisher?
    ensures var a := Http(request, disk);
            Unsent(stale, Next(core, o, a).trace) <= Unsent(stale, o.trace) + Leaves(a)
  {
    hide Do, Unsent, Decimal, SavePlan, PointsPlan;
    MarkedUnroll(core, o, stale, RequestPlan(core, o.s, request, disk).ops);
  }

  lemma RequestLeaves(core: Core, o: Out, stale: set<Part>, request: Request, disk: Option<string>)
    requires SavesOk(core, o.s, Http(request, disk))
    ensures var a := Http(request, disk);
            Unsent(stale, Next(core, o, a).trace) <= Unsent(stale, o.trace) + Leaves(a)
  {
    hide Next, Unsent, SavesOk;
    if request.SavePoint? || request.TogglePoint? || request.DeletePoint? || request.AddBrowsedPoint? {
      PointRequestLeaves(core, o, stale, request, disk);
    } else if request.SetConnection? || request.PutSettings? || request.ClearPoints? || request.SetProtocol? {
      SettingsRequestLeaves(core, o, stale, request, disk);
    } else if request.Discover? || request.BrowseDevice? || request.ScanAll? {
      ScanRequestLeaves(core, o, stale, request, disk);
    } else {
      RunRequestLeaves(core, o, stale, request, disk);
    }
  }

  function LeavesOf(actions: seq<Action>): set<Part> {
    if actions == [] then {} else LeavesOf(actions[..|actions| - 1]) + Leaves(actions[|actions| - 1])
  }

  predicate AllSavesOk(core: Core, o: Out, actions: seq<Action>) {
    actions == [] ||
    var before := actions[..|actions| - 1];
    AllSavesOk(core, o, before) && SavesOk(core, Run(core, o, before).s, actions[|actions| - 1])
  }

  lemma {:induction false} RunLeaves(core: Core, s: Shared, actions: seq<Action>)
    requires AllSavesOk(core, Out(s, []), actions)
    ensures Unsent({}, Run(core, Out(s, []), actions).trace) <= LeavesOf(actions)
  {
    hide Next, SavesOk, Leaves;
    if actions != [] {
      var n := |actions| - 1;
      RunLeaves(core, s, actions[..n]);
      match actions[n] {
        case Worker(event, disk) => WorkerLeaves(core, Run(core, Out(s, []), actions[..n]), {}, event, disk);
        case Http(request, disk) => RequestLeaves(core, Run(core, Out(s, []), actions[..n]), {}, request, disk);
      }
    }
  }

  /** With nothing lost and every save succeeding, the whole mirror equals the daemon's state at
      every action's end, but for what is unsent just then: at most the scan progress if there was
      a bulk import, topics if there were new settings, and counters if there was a start. */
  lemma LosslessMirror(b: Coercion.Browser, core: Core, m: State, s: Shared, actions: seq<Action>)
    requires PlainCore(core) && PlainState(s) && PlainActions(actions) && AllSavesOk(core, Out(s, []), actions)
    ensures var o := Run(core, Out(s, []), actions);
            var c := Play(b, Subscribed(b, core, m, s), o.trace, AllDelivered(|Deltas(o.trace)|));
            c.stale == Unsent({}, o.trace) <= LeavesOf(actions) && Agree(b, core, o.s, c)
  {
    hide Agree, PlainState, PlainAction;
    var o := Run(core, Out(s, []), actions);
    MirrorSimulates(b, core, m, s, actions, AllDelivered(|Deltas(o.trace)|));
    LosslessStale(b, Subscribed(b, core, m, s), o.trace);
    RunLeaves(core, s, actions);
  }
}
