/** Agreement over whole runs: any sequence of events and requests, any set of lost deltas. */
module Replication {
  import opened Text
  import opened Identity
  import opened Coercion
  import opened Model
  import opened Points
  import opened Server
  import opened Mirror
  import opened Simulation
  import Settings

  // ---- traces grow at the end ----

  lemma DeltasAppend(trace: seq<Item>, item: Item)
    ensures Deltas(trace + [item]) == if item.Sent? then Deltas(trace) + [item.delta] else Deltas(trace)
  {
    assert (trace + [item])[..|trace|] == trace;
  }

  lemma ConcatFront<T>(xs: seq<T>, ys: seq<T>)
    requires ys != []
    ensures (xs + ys)[..|xs + ys| - 1] == xs + ys[..|ys| - 1]
    ensures xs + ys == xs + ys[..|ys| - 1] + [ys[|ys| - 1]]
  {
  }

  lemma PlayAppend(b: Browser, start: Client, trace: seq<Item>, item: Item, got: seq<bool>)
    requires |got| == |Deltas(trace + [item])|
    ensures |got| == |Deltas(trace)| + if item.Sent? then 1 else 0
    ensures Play(b, start, trace + [item], got) ==
            match item
            case Quiet(parts, _) =>
              var c := Play(b, start, trace, got);
              c.(stale := c.stale + parts)
            case Sent(d) => Receive(b, Play(b, start, trace, got[..|got| - 1]), d, got[|got| - 1])
  {
    hide Receive;
    DeltasAppend(trace, item);
    assert (trace + [item])[..|trace|] == trace;
  }

  // ---- agreement holds whatever was delivered ----

  function AllDelivered(n: nat): (got: seq<bool>)
    ensures |got| == n
  {
    seq(n, i => true)
  }

  /** For every choice of delivered deltas, the client agrees on every part that is not stale. */
  ghost predicate Good(b: Browser, core: Core, start: Client, o: Out) {
    && PlainState(o.s)
    && forall got: seq<bool> | |got| == |Deltas(o.trace)| ::
         Agree(b, core, o.s, Play(b, start, o.trace, got))
  }

  predicate PlainOps(ops: seq<Op>) {
    forall i :: 0 <= i < |ops| ==> PlainOp(ops[i])
  }

  /** One operation, one choice: its item, if any, is the last the client is offered. */
  lemma OneChoiceKeeps(b: Browser, core: Core, start: Client, o: Out, op: Op, got: seq<bool>)
    requires Good(b, core, start, o) && PlainOp(op)
    requires |got| == |Deltas(Do(core, o, op).trace)|
    ensures var next := Do(core, o, op);
            PlainState(next.s) && Agree(b, core, next.s, Play(b, start, next.trace, got))
  {
    hide Agree, Effect, Receive, PlainState, PlainOp, Play, Deltas;
    var items := Effect(core, o.s, op).1;
    if items == [] {
      assert o.trace + items == o.trace;
      OpKeepsAgreement(b, core, o.s, op, Play(b, start, o.trace, got), true);
    } else {
      assert items == [items[0]];
      PlayAppend(b, start, o.trace, items[0], got);
      if items[0].Quiet? {
        OpKeepsAgreement(b, core, o.s, op, Play(b, start, o.trace, got), true);
      } else {
        var k := |got| - 1;
        OpKeepsAgreement(b, core, o.s, op, Play(b, start, o.trace, got[..k]), got[k]);
      }
    }
  }

  lemma DoKeeps(b: Browser, core: Core, start: Client, o: Out, op: Op)
    requires Good(b, core, start, o) && PlainOp(op)
    ensures Good(b, core, start, Do(core, o, op))
  {
    var next := Do(core, o, op);
    forall got: seq<bool> | |got| == |Deltas(next.trace)|
      ensures PlainState(next.s) && Agree(b, core, next.s, Play(b, start, next.trace, got))
    {
      hide *;
      OneChoiceKeeps(b, core, start, o, op, got);
    }
    hide Agree, PlainState, PlainOp, Play, Do, Deltas;
    assert |AllDelivered(|Deltas(next.trace)|)| == |Deltas(next.trace)|;
  }

  lemma {:induction false} DoAllKeeps(b: Browser, core: Core, start: Client, o: Out, ops: seq<Op>)
    requires Good(b, core, start, o) && PlainOps(ops)
    ensures Good(b, core, start, DoAll(core, o, ops))
  {
    hide Good, Do, PlainOp;
    if ops != [] {
      var n := |ops| - 1;
      DoAllKeeps(b, core, start, o, ops[..n]);
      DoKeeps(b, core, start, DoAll(core, o, ops[..n]), ops[n]);
    }
  }

  // ---- events and requests are made of plain operations ----

  lemma BuiltPlain(specs: seq<FieldSpec>, values: map<string, string>)
    requires PlainFields(specs)
    ensures PlainNames(Built(specs, values))
  {
    forall k | k in Built(specs, values) ensures '=' !in k { BuiltAt(specs, values, k); }
  }

  lemma {:induction false} FoundPlain(caps: seq<Capabilities>, id: string)
    requires forall i :: 0 <= i < |caps| ==> PlainFields(caps[i].addressingFields)
    requires FindCapabilities(caps, id).Some?
    ensures PlainFields(FindCapabilities(caps, id).value.addressingFields)
  {
    if caps[0].id != id { FoundPlain(caps[1..], id); }
  }

  lemma SavePlanPlain(core: Core, config: Config, disk: Option<string>, edit: seq<Op>, after: seq<Op>, reply: Reply)
    requires PlainOps(edit) && PlainOps(after)
    ensures PlainOps(SavePlan(core, config, disk, edit, after, reply).ops)
  {
  }

  lemma PointsPlanPlain(core: Core, s: Shared, points: seq<PointConfig>, disk: Option<string>, after: seq<Op>)
    requires PlainPoints(points) && PlainOps(after)
    ensures PlainOps(PointsPlan(core, s, points, disk, after).ops)
  {
    var config := WithPoints(s, points);
    SavePlanPlain(core, config, disk, [Store(config)], after, Ok);
  }

  lemma PointRequestPlain(core: Core, s: Shared, request: Request, disk: Option<string>)
    requires PlainCore(core) && PlainState(s)
    requires request.SavePoint? || request.TogglePoint? || request.DeletePoint? || request.AddBrowsedPoint?
    ensures PlainOps(RequestPlan(core, s, request, disk).ops)
  {
    hide SavePlan, PointsPlan, SaveOp, Built, Decimal;
    var points := s.config.points;
    match request
    case SavePoint(req) =>
      var caps := FindCapabilities(core.capabilities, s.config.protocol);
      if caps.Some? && (req.index.None? || req.index.value < |points|) {
        FoundPlain(core.capabilities, s.config.protocol);
        var point := RequestedPoint(caps.value.addressingFields, req);
        BuiltPlain(caps.value.addressingFields, req.addressing);
        PointsPlanPlain(core, s, if req.index.Some? then points[req.index.value := point] else points + [point],
                        disk, [EmitPoints]);
      }
    case TogglePoint(index, enabled) =>
      if index < |points| {
        PointsPlanPlain(core, s, points[index := points[index].(enabled := enabled)], disk, [EmitPoints]);
      }
    case DeletePoint(index) =>
      if index < |points| {
        PointsPlanPlain(core, s, points[..index] + points[index + 1..], disk, [EmitPoints]);
      }
    case AddBrowsedPoint(index) =>
      if index < |s.browsed| {
        assert PlainNames(PointFrom(s.browsed[index]).addressing);
        PointsPlanPlain(core, s, Upsert(points, PointFrom(s.browsed[index])), disk,
                        [Status(Info, "Added point from browse"), EmitPoints]);
      }
  }

  lemma SettingsRequestPlain(core: Core, s: Shared, request: Request, disk: Option<string>)
    requires PlainState(s) && (request.SetConnection? || request.PutSettings? || request.ClearPoints?)
    ensures PlainOps(RequestPlan(core, s, request, disk).ops)
  {
    hide SavePlan, PointsPlan, SaveOp, Built, Decimal, Settings.NonEmpty, Settings.ApplySecret;
    match request
    case SetConnection(values) =>
      var caps := FindCapabilities(core.capabilities, s.config.protocol);
      if caps.Some? {
        var addressing := Built(caps.value.connectionFields, values);
        var config := s.config.(connections := s.config.connections[s.config.protocol := addressing]);
        SavePlanPlain(core, config, disk, [Store(config)], [EmitConfig], Ok);
      }
    case PutSettings(req) =>
      var config := Settings.Put(s.config, req);
      SavePlanPlain(core, config, disk, [Store(config)], [EmitConfig], Ok);
    case ClearPoints =>
      var config := WithPoints(s, []);
      var removed := |s.config.points|;
      SavePlanPlain(core, config, disk, [Store(config), ClearStatuses],
                    [Status(Info, "Cleared " + Decimal(removed) + " configured point(s)."), EmitPoints],
                    Removed(removed));
  }

  lemma NoSave(request: Request)
    requires !request.SavePoint? && !request.TogglePoint? && !request.DeletePoint? && !request.AddBrowsedPoint?
    requires !request.SetConnection? && !request.PutSettings? && !request.ClearPoints?
    ensures !Saves(request)
  {
  }

  lemma OtherRequestPlain(core: Core, s: Shared, request: Request, disk: Option<string>)
    requires PlainState(s) && !Saves(request)
    ensures PlainOps(RequestPlan(core, s, request, disk).ops)
  {
    hide SavePlan, PointsPlan, Decimal, FindCapabilities, PlainPoints;
  }

  lemma RequestPlain(core: Core, s: Shared, request: Request, disk: Option<string>)
    requires PlainCore(core) && PlainState(s)
    ensures PlainOps(RequestPlan(core, s, request, disk).ops)
  {
    hide *;
    if request.SavePoint? || request.TogglePoint? || request.DeletePoint? || request.AddBrowsedPoint? {
      PointRequestPlain(core, s, request, disk);
    } else if request.SetConnection? || request.PutSettings? || request.ClearPoints? {
      SettingsRequestPlain(core, s, request, disk);
    } else {
      NoSave(request);
      OtherRequestPlain(core, s, request, disk);
    }
  }

  lemma WorkerPlain(core: Core, s: Shared, event: WorkerEvent, disk: Option<string>)
    requires PlainState(s) && PlainAction(Worker(event, disk))
    ensures PlainOps(WorkerOps(core, s, event, disk))
  {
    hide Decimal, Identify;
    match event
    case SamplesEvent(samples) =>
      forall i | 0 <= i < |samples| ensures WellFormed(Identify(samples[i].point.addressing)) {
        IdentifyWellFormed(samples[i].point.addressing);
      }
    case FailuresEvent(failures) =>
      forall i | 0 <= i < |failures| ensures WellFormed(Identify(failures[i].0.addressing)) {
        IdentifyWellFormed(failures[i].0.addressing);
      }
    case _ =>
  }

  lemma NextKeeps(b: Browser, core: Core, start: Client, o: Out, a: Action)
    requires PlainCore(core) && PlainAction(a) && Good(b, core, start, o)
    ensures Good(b, core, start, Next(core, o, a))
  {
    hide WorkerOps, RequestPlan;
    match a {
      case Worker(event, disk) => WorkerPlain(core, o.s, event, disk);
      case Http(request, disk) => RequestPlain(core, o.s, request, disk);
    }
    hide Agree, PlainState, Play;
    DoAllKeeps(b, core, start, o, Ops(core, o.s, a));
  }

  predicate PlainActions(actions: seq<Action>) {
    forall i :: 0 <= i < |actions| ==> PlainAction(actions[i])
  }

  lemma {:induction false} RunKeeps(b: Browser, core: Core, start: Client, o: Out, actions: seq<Action>)
    requires PlainCore(core) && PlainActions(actions) && Good(b, core, start, o)
    ensures Good(b, core, start, Run(core, o, actions))
  {
    hide Good, Next, PlainAction;
    if actions != [] {
      var n := |actions| - 1;
      RunKeeps(b, core, start, o, actions[..n]);
      NextKeeps(b, core, start, Run(core, o, actions[..n]), actions[n]);
    }
  }

  lemma FreshSnapshotAgrees(b: Browser, core: Core, m: State, s: Shared)
    requires PlainState(s)
    ensures Good(b, core, Subscribed(b, core, m, s), Out(s, []))
  {
    RedactedForm(b, core.capabilities, s.config);
    FreshPointsAgree(core, s, map[]);
    ViewsHaveTopics(core, s.config, s.statuses);
    assert DevicesAgree(s.devices, DeviceViews(s.devices), |s.devices|);
    var shown := Redact(s.config);
    assert ConfigAgrees(b, core, s.config, Some(shown.config), shown.secrets, shown.config.protocol,
                        ConnValues(b, core.capabilities, shown.config));
    assert |PointViews(core, s.config, s.statuses)| == |s.config.points|;
    hide PointsAgree, TopicsAgree, ConfigAgrees, DevicesAgree, PointViews, WithPointStatuses, DeviceViews, BrowsedViews;
    forall got: seq<bool> | |got| == 0
      ensures Agree(b, core, s, Play(b, Subscribed(b, core, m, s), [], got)) {
    }
  }

  /** Mirror simulation under arbitrary loss. From a snapshot of any state, after any run of
      events and requests and for every choice of delivered deltas, the mirror equals the
      daemon's state on every part not left stale by a lost delta or an unsent change. */
  lemma MirrorSimulates(b: Browser, core: Core, m: State, s: Shared, actions: seq<Action>, got: seq<bool>)
    requires PlainCore(core) && PlainState(s) && PlainActions(actions)
    requires |got| == |Deltas(Run(core, Out(s, []), actions).trace)|
    ensures var o := Run(core, Out(s, []), actions);
            Agree(b, core, o.s, Play(b, Subscribed(b, core, m, s), o.trace, got))
  {
    FreshSnapshotAgrees(b, core, m, s);
    RunKeeps(b, core, Subscribed(b, core, m, s), Out(s, []), actions);
  }

  // ---- healing ----

  /** No item of the trace leaves the part behind: it is not changed unsent, and no delta that
      carries it is lost. */
  predicate Untouched(part: Part, trace: seq<Item>, got: seq<bool>)
    requires |got| == |Deltas(trace)|
  {
    trace == [] ||
    var n := |trace| - 1;
    match trace[n]
    case Quiet(parts, _) => part !in parts && Untouched(part, trace[..n], got)
    case Sent(d) =>
      (got[|got| - 1] || part !in Loses(d)) && Untouched(part, trace[..n], got[..|got| - 1])
  }

  lemma {:induction false} DeltasConcat(first: seq<Item>, second: seq<Item>)
    ensures Deltas(first + second) == Deltas(first) + Deltas(second)
  {
    if second == [] {
      assert first + second == first;
    } else {
      var n := |second| - 1;
      DeltasConcat(first, second[..n]);
      assert first + second == first + second[..n] + [second[n]];
      DeltasAppend(first + second[..n], second[n]);
    }
  }

  lemma ReceiveStale(b: Browser, c: Client, d: Delta, delivered: bool)
    ensures Receive(b, c, d, delivered).stale == if delivered then c.stale - Restores(d) else c.stale + Loses(d)
  {
    hide Handle;
  }

  lemma {:induction false} StaysFresh(b: Browser, start: Client, before: seq<Item>, gotBefore: seq<bool>,
                                      later: seq<Item>, gotLater: seq<bool>, part: Part)
    requires |gotBefore| == |Deltas(before)| && |gotLater| == |Deltas(later)|
    requires part !in Play(b, start, before, gotBefore).stale && Untouched(part, later, gotLater)
    ensures |gotBefore + gotLater| == |Deltas(before + later)|
    ensures part !in Play(b, start, before + later, gotBefore + gotLater).stale
  {
    hide Receive;
    DeltasConcat(before, later);
    if later == [] {
      assert before + later == before && gotBefore + gotLater == gotBefore;
    } else {
      var n, k := |later| - 1, |gotLater| - 1;
      assert before + later == before + later[..n] + [later[n]];
      DeltasConcat(before, later[..n]);
      DeltasAppend(later[..n], later[n]);
      assert later[..n] + [later[n]] == later;
      PlayAppend(b, start, before + later[..n], later[n], gotBefore + gotLater);
      if later[n].Quiet? {
        StaysFresh(b, start, before, gotBefore, later[..n], gotLater, part);
      } else {
        StaysFresh(b, start, before, gotBefore, later[..n], gotLater[..k], part);
        ReceiveStale(b, Play(b, start, before + later[..n], gotBefore + gotLater[..k]), later[n].delta, gotLater[k]);
        assert (gotBefore + gotLater)[..|gotBefore + gotLater| - 1] == gotBefore + gotLater[..k];
      }
    }
  }

  /** Self-healing: whatever was lost before, once a delta that brings a part up to date is
      delivered, the part is fresh, and stays so while nothing of it is lost or changed unsent. */
  lemma DeliveryHeals(b: Browser, start: Client, before: seq<Item>, gotBefore: seq<bool>, d: Delta,
                      later: seq<Item>, gotLater: seq<bool>, part: Part)
    requires |gotBefore| == |Deltas(before)| && |gotLater| == |Deltas(later)|
    requires part in Restores(d) && Untouched(part, later, gotLater)
    ensures |gotBefore + [true] + gotLater| == |Deltas(before + [Sent(d)] + later)|
    ensures part !in Play(b, start, before + [Sent(d)] + later, gotBefore + [true] + gotLater).stale
  {
    DeltasAppend(before, Sent(d));
    PlayAppend(b, start, before, Sent(d), gotBefore + [true]);
    assert (gotBefore + [true])[..|gotBefore|] == gotBefore;
    StaysFresh(b, start, before + [Sent(d)], gotBefore + [true], later, gotLater, part);
  }

  /** The mirror tells the same of a part as the daemon's state. */
  predicate PartAgrees(b: Browser, core: Core, s: Shared, m: State, part: Part) {
    var info := StatusOf(m);
    m.status.Some? &&
    match part
    case DevicesPart => DevicesAgree(s.devices, m.devices, info.devices)
    case BrowsedPart => m.browsed == BrowsedViews(core, s.browsed)
    case ConfigPart => ConfigAgrees(b, core, s.config, m.config, m.secrets, info.protocol, m.connValues)
    case PointsPart => PointsAgree(core, s.config, s.statuses, m.points, m.statuses, info.points)
    case TopicsPart => TopicsAgree(core, s.config.mqtt, m.points)
    case StatsPart => StatsAgree(s, info)
    case LifecyclePart => m.lifecycle == info.lifecycle == LifecycleView(s.lifecycle)
    case StatusLinePart => info.statusLine == s.statusLine
    case ProgressPart => info.scanProgress == s.scanProgress
  }

  lemma AgreeAt(b: Browser, core: Core, s: Shared, c: Client, part: Part)
    requires Agree(b, core, s, c) && part !in c.stale
    ensures PartAgrees(b, core, s, c.m, part)
  {
    hide DevicesAgree, ConfigAgrees, PointsAgree, TopicsAgree, StatsAgree;
  }

  /** A part of which nothing is lost or changed unsent since the snapshot equals the daemon's,
      whatever is lost of the others. */
  lemma UntouchedPartAgrees(b: Browser, core: Core, m: State, s: Shared, actions: seq<Action>,
                            got: seq<bool>, part: Part)
    requires PlainCore(core) && PlainState(s) && PlainActions(actions)
    requires var trace := Run(core, Out(s, []), actions).trace;
             |got| == |Deltas(trace)| && Untouched(part, trace, got)
    ensures var o := Run(core, Out(s, []), actions);
            PartAgrees(b, core, o.s, Play(b, Subscribed(b, core, m, s), o.trace, got).m, part)
  {
    hide Run, Agree, PlainState, PlainAction, PartAgrees, Play, Deltas, Untouched;
    var o, start := Run(core, Out(s, []), actions), Subscribed(b, core, m, s);
    MirrorSimulates(b, core, m, s, actions, got);
    NeverTouched(b, start, o.trace, got, part);
    AgreeAt(b, core, o.s, Play(b, start, o.trace, got), part);
  }

  lemma NeverTouched(b: Browser, start: Client, trace: seq<Item>, got: seq<bool>, part: Part)
    requires |got| == |Deltas(trace)| && part !in start.stale && Untouched(part, trace, got)
    ensures part !in Play(b, start, trace, got).stale
  {
    assert Deltas([]) == [] && Play(b, start, [], []) == start;
    assert [] + trace == trace && [] + got == got;
    hide Play, Deltas, Untouched;
    StaysFresh(b, start, [], [], trace, got, part);
  }

  /** Self-healing, against the daemon: whatever a run loses before, once a delta that carries a
      part whole is delivered, and until that part is next lost or changed unsent, the mirror's
      part equals the daemon's. */
  lemma HealedPartAgrees(b: Browser, core: Core, m: State, s: Shared, actions: seq<Action>,
                         before: seq<Item>, gotBefore: seq<bool>, d: Delta,
                         later: seq<Item>, gotLater: seq<bool>, part: Part)
    requires PlainCore(core) && PlainState(s) && PlainActions(actions)
    requires before + [Sent(d)] + later == Run(core, Out(s, []), actions).trace
    requires |gotBefore| == |Deltas(before)| && |gotLater| == |Deltas(later)|
    requires part in Restores(d) && Untouched(part, later, gotLater)
    ensures var o, got := Run(core, Out(s, []), actions), gotBefore + [true] + gotLater;
            && |got| == |Deltas(o.trace)|
            && PartAgrees(b, core, o.s, Play(b, Subscribed(b, core, m, s), o.trace, got).m, part)
  {
    hide Run, Agree, PlainState, PlainAction, PartAgrees, Restores, Untouched, Play, Deltas;
    var o, start := Run(core, Out(s, []), actions), Subscribed(b, core, m, s);
    var got := gotBefore + [true] + gotLater;
    DeliveryHeals(b, start, before, gotBefore, d, later, gotLater, part);
    MirrorSimulates(b, core, m, s, actions, got);
    AgreeAt(b, core, o.s, Play(b, start, o.trace, got), part);
  }

  // ---- runs without loss ----

  /** The stale parts of a client that receives everything. */
  function Unsent(stale: set<Part>, trace: seq<Item>): set<Part> {
    if trace == [] then stale
    else
      var before := Unsent(stale, trace[..|trace| - 1]);
      match trace[|trace| - 1]
      case Quiet(parts, _) => before + parts
      case Sent(d) => before - Restores(d)
  }

  lemma {:induction false} LosslessStale(b: Browser, start: Client, trace: seq<Item>)
    ensures Play(b, start, trace, AllDelivered(|Deltas(trace)|)).stale == Unsent(start.stale, trace)
  {
    if trace != [] {
      var n := |trace| - 1;
      LosslessStale(b, start, trace[..n]);
      DeltasAppend(trace[..n], trace[n]);
      assert trace[..n] + [trace[n]] == trace;
      var k := |Deltas(trace[..n])|;
      assert AllDelivered(k + 1)[..k] == AllDelivered(k);
      PlayAppend(b, start, trace[..n], trace[n], AllDelivered(|Deltas(trace)|));
    }
  }

  /** What each operation does to the stale parts of a client that receives everything. */
  function Marked(s: Shared, stale: set<Part>, op: Op): set<Part> {
    match op
    case Log(_, _) => stale
    case Status(_, _) => stale - {StatusLinePart}
    case SetDevices(_) => stale + {DevicesPart}
    case EmitDevices => stale - {DevicesPart}
    case SetBrowsed(_) => stale + {BrowsedPart}
    case EmitBrowsed => stale - {BrowsedPart}
    case SetProgress(_) => stale + {ProgressPart}
    case EmitProgress => if s.scanProgress.Some? then stale - {ProgressPart} else stale
    case Store(config) => stale + Changed(s.config, config)
    case EmitConfig => stale - {ConfigPart}
    case ClearStatuses => stale + {PointsPart}
    case EmitPoints => stale - {PointsPart, TopicsPart}
    case TakeSamples(_) => stale
    case TakeReports(_) => stale
    case TakeStats(_, _, _) => stale - {StatsPart}
    case SetLifecycle(_) => stale - {LifecyclePart}
    case Launch => stale + {StatsPart}
    case RaiseStop => stale
  }

  lemma MarkedIsUnsent(core: Core, stale: set<Part>, o: Out, op: Op)
    ensures Unsent(stale, Do(core, o, op).trace) == Marked(o.s, Unsent(stale, o.trace), op)
  {
    hide Effect, Marked;
    var items := Effect(core, o.s, op).1;
    MarkedEffect(core, o.s, op, Unsent(stale, o.trace));
    if items == [] {
      assert o.trace + items == o.trace;
    } else {
      assert items == [items[0]];
      assert (o.trace + items)[..|o.trace|] == o.trace;
    }
  }

  lemma MarkedEffect(core: Core, s: Shared, op: Op, stale: set<Part>)
    ensures var items := Effect(core, s, op).1;
            Marked(s, stale, op) ==
            if items == [] then stale
            else match items[0]
              case Quiet(parts, _) => stale + parts
              case Sent(d) => stale - Restores(d)
  {
    hide PointViews, ChangedViews, SampleViews, DeviceViews, BrowsedViews, Changed, LastN, Reverse, FirstN;
  }
}
