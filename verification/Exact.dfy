/** Runs in which every delta arrives and every save succeeds: exactly when the three parts that can
    be behind are right all the same. */
module Exact {
  import opened Text
  import opened Model
  import opened Server
  import opened Mirror
  import opened Simulation
  import opened Replication
  import opened Delivery
  import opened Lossless
  import Coercion
  import Gaps
  import Points
  import Settings

  // ---- what the page was last told ----

  /** The latest counters, scan progress and point list of a snapshot and the deltas after it. */
  datatype Told = Told(stats: (nat, nat, Option<string>), progress: Option<(nat, nat)>, points: seq<PointDto>)

  function AtSnapshot(core: Core, s: Shared): Told {
    Told((s.publishedTotal, s.ackedTotal, s.lastError), s.scanProgress, PointViews(core, s.config, s.statuses))
  }

  function TellOne(t: Told, d: Delta): Told {
    match d
    case StatsDelta(published, acked, error) => t.(stats := (published, acked, error))
    case ProgressDelta(current, total) => t.(progress := Some((current, total)))
    case PointsDelta(points) => t.(points := points)
    case _ => t
  }

  function LastTold(t: Told, trace: seq<Item>): Told {
    if trace == [] then t
    else
      var before := LastTold(t, trace[..|trace| - 1]);
      match trace[|trace| - 1]
      case Quiet(_, _) => before
      case Sent(d) => TellOne(before, d)
  }

  predicate ShowsTold(m: State, t: Told) {
    var info := StatusOf(m);
    && m.status.Some? && (info.publishedTotal, info.ackedTotal, info.lastError) == t.stats
    && info.scanProgress == t.progress && SameButStatus(m.points, t.points)
  }

  lemma HandleTold(b: Coercion.Browser, m: State, d: Delta, t: Told)
    requires ShowsTold(m, t)
    ensures ShowsTold(Handle(b, m, d), TellOne(t, d))
  {
    hide WithPointStatuses, ConnValues, Synced, FirstN, SameButStatus;
    match d
    case SamplesDelta(_, changed) => SyncedSame(m.points, m.statuses + changed, t.points);
    case StatusesDelta(changed) => SyncedSame(m.points, m.statuses + changed, t.points);
    case PointsDelta(points) => SameAsItself(points);
    case _ =>
  }

  lemma SameAsItself(points: seq<PointDto>)
    ensures SameButStatus(points, points)
  {
  }

  lemma {:induction false} PlayTold(b: Coercion.Browser, start: Client, trace: seq<Item>, t: Told)
    requires ShowsTold(start.m, t)
    ensures ShowsTold(Play(b, start, trace, AllDelivered(|Deltas(trace)|)).m, LastTold(t, trace))
  {
    hide ShowsTold, Handle, TellOne;
    if trace != [] {
      var n := |trace| - 1;
      PlayTold(b, start, trace[..n], t);
      DeltasAppend(trace[..n], trace[n]);
      assert trace[..n] + [trace[n]] == trace;
      var k := |Deltas(trace[..n])|;
      assert AllDelivered(k + 1)[..k] == AllDelivered(k);
      PlayAppend(b, start, trace[..n], trace[n], AllDelivered(|Deltas(trace)|));
      if trace[n].Sent? {
        HandleTold(b, Play(b, start, trace[..n], AllDelivered(k)).m, trace[n].delta, LastTold(t, trace[..n]));
      }
    }
  }

  lemma SnapshotTold(b: Coercion.Browser, core: Core, m: State, s: Shared)
    ensures ShowsTold(Subscribed(b, core, m, s).m, AtSnapshot(core, s))
  {
    hide PointViews, WithPointStatuses, ConnValues, DeviceViews, BrowsedViews, SameButStatus;
    SameAsItself(PointViews(core, s.config, s.statuses));
  }

  // ---- unsent counters are zero ----

  predicate NoCounts(s: Shared) {
    s.publishedTotal == 0 && s.ackedTotal == 0 && s.lastError == None
  }

  predicate ZeroIfUnsent(o: Out) {
    StatsPart in Unsent({}, o.trace) ==> NoCounts(o.s)
  }

  lemma ChangedParts(before: Config, after: Config)
    ensures Changed(before, after) <= {ConfigPart, PointsPart, TopicsPart}
  {
  }

  lemma DoCounts(core: Core, o: Out, op: Op)
    ensures op.Launch? ==> NoCounts(Do(core, o, op).s)
    ensures !op.Launch? && !op.TakeStats? ==> (NoCounts(Do(core, o, op).s) <==> NoCounts(o.s))
  {
    hide PointViews, Reported, ChangedViews, SampleViews, DeviceViews, BrowsedViews, Reverse, FirstN, LastN, Changed,
         Redact, LifecycleView, LevelText;
  }

  lemma DoKeepsZero(core: Core, o: Out, op: Op)
    requires ZeroIfUnsent(o)
    ensures ZeroIfUnsent(Do(core, o, op))
  {
    hide Do, Unsent, NoCounts, Changed;
    MarkedIsUnsent(core, {}, o, op);
    DoCounts(core, o, op);
    if op.Store? { ChangedParts(o.s.config, op.config); }
  }

  lemma {:induction false} DoAllKeepsZero(core: Core, o: Out, ops: seq<Op>)
    requires ZeroIfUnsent(o)
    ensures ZeroIfUnsent(DoAll(core, o, ops))
  {
    hide ZeroIfUnsent, Do;
    if ops != [] {
      var n := |ops| - 1;
      DoAllKeepsZero(core, o, ops[..n]);
      DoKeepsZero(core, DoAll(core, o, ops[..n]), ops[n]);
    }
  }

  // ---- unsent scan progress is none ----

  predicate NoneIfUnsent(o: Out) {
    ProgressPart in Unsent({}, o.trace) ==> o.s.scanProgress == None
  }

  predicate MovesProgress(op: Op) {
    op.SetProgress? || op.EmitProgress?
  }

  predicate NoneMoves(ops: seq<Op>) {
    forall i :: 0 <= i < |ops| ==> !MovesProgress(ops[i])
  }

  lemma StillNone(core: Core, o: Out, op: Op)
    requires !MovesProgress(op)
    ensures Do(core, o, op).s.scanProgress == o.s.scanProgress
    ensures ProgressPart in Unsent({}, Do(core, o, op).trace) <==> ProgressPart in Unsent({}, o.trace)
  {
    hide Do, Unsent, Changed;
    DoFrame(core, o, op);
    MarkedIsUnsent(core, {}, o, op);
    if op.Store? { ChangedParts(o.s.config, op.config); }
  }

  lemma {:induction false} OthersKeepNone(core: Core, o: Out, ops: seq<Op>)
    requires NoneMoves(ops) && NoneIfUnsent(o)
    ensures NoneIfUnsent(DoAll(core, o, ops))
  {
    hide Do, Unsent, MovesProgress;
    if ops != [] {
      var n := |ops| - 1;
      OthersKeepNone(core, o, ops[..n]);
      StillNone(core, DoAll(core, o, ops[..n]), ops[n]);
    }
  }

  /** Progress that is set and then sent, with at most a status in between, is not unsent. */
  lemma SetAndSent(core: Core, o: Out, progress: (nat, nat), middle: seq<Op>)
    requires middle == [] || (|middle| == 1 && middle[0].Status?)
    ensures ProgressPart !in Unsent({}, DoAll(core, o, [SetProgress(Some(progress))] + middle + [EmitProgress]).trace)
  {
    hide Do, Unsent;
    var ops := [SetProgress(Some(progress))] + middle;
    DoFrame(core, o, ops[0]);
    if middle != [] { DoFrame(core, Do(core, o, ops[0]), middle[0]); }
    MarkedUnroll(core, o, {}, ops + [EmitProgress]);
  }

  lemma SavePlanMoves(core: Core, config: Config, disk: Option<string>, edit: seq<Op>, after: seq<Op>, reply: Reply)
    requires NoneMoves(edit) && NoneMoves(after)
    ensures NoneMoves(SavePlan(core, config, disk, edit, after, reply).ops)
  {
  }

  lemma EditMoves(core: Core, s: Shared, request: Request, disk: Option<string>)
    requires Saves(request)
    ensures NoneMoves(RequestPlan(core, s, request, disk).ops)
  {
    hide Decimal, Coercion.Built, Settings.Put, Points.Upsert, FindCapabilities, SavePlan;
    forall config: Config, edit, after, reply
      | NoneMoves(edit) && NoneMoves(after)
      ensures NoneMoves(SavePlan(core, config, disk, edit, after, reply).ops)
    {
      SavePlanMoves(core, config, disk, edit, after, reply);
    }
  }

  lemma RequestMoves(core: Core, s: Shared, request: Request, disk: Option<string>)
    requires !request.ScanAll?
    ensures NoneMoves(RequestPlan(core, s, request, disk).ops)
  {
    if Saves(request) {
      hide *;
      EditMoves(core, s, request, disk);
    } else {
      hide Decimal, SavePlan, PointsPlan, FindCapabilities;
    }
  }

  lemma ScanAllKeepsNone(core: Core, o: Out, disk: Option<string>)
    requires NoneIfUnsent(o)
    ensures NoneIfUnsent(Next(core, o, Http(ScanAll, disk)))
  {
    hide Do, Unsent;
    var ops := RequestPlan(core, o.s, ScanAll, disk).ops;
    if |ops| == 3 {
      assert ops == [ops[0]] + [ops[1]] + [ops[2]];
      SetAndSent(core, o, ops[0].progress.value, [ops[1]]);
    } else {
      OthersKeepNone(core, o, ops);
    }
  }

  lemma NextKeepsNone(core: Core, o: Out, a: Action)
    requires NoneIfUnsent(o)
    ensures NoneIfUnsent(Next(core, o, a))
  {
    hide DoAll, Unsent, RequestPlan, Decimal;
    match a
    case Http(request, disk) =>
      if request.ScanAll? {
        ScanAllKeepsNone(core, o, disk);
      } else {
        RequestMoves(core, o.s, request, disk);
        OthersKeepNone(core, o, RequestPlan(core, o.s, request, disk).ops);
      }
    case Worker(event, disk) =>
      var ops := WorkerOps(core, o.s, event, disk);
      if event.ScanProgressEvent? {
        assert ops == [ops[0]] + [] + [ops[1]];
        SetAndSent(core, o, (event.current, event.total), []);
      } else if event.BulkTagImport? {
        Gaps.ProgressAfter(core, o, ops, 1);
      } else {
        OthersKeepNone(core, o, ops);
      }
  }

  lemma {:induction false} RunKeepsReset(core: Core, s: Shared, actions: seq<Action>)
    ensures var o := Run(core, Out(s, []), actions); ZeroIfUnsent(o) && NoneIfUnsent(o)
  {
    hide Ops, DoAll, NoCounts;
    if actions != [] {
      hide ZeroIfUnsent, NoneIfUnsent;
      var n := |actions| - 1;
      RunKeepsReset(core, s, actions[..n]);
      var o := Run(core, Out(s, []), actions[..n]);
      DoAllKeepsZero(core, o, Ops(core, o.s, actions[n]));
      NextKeepsNone(core, o, actions[n]);
    }
  }

  // ---- when the three are right ----

  lemma SameTopicsShown(core: Core, mqtt: Mqtt, shown: seq<PointDto>, told: seq<PointDto>)
    requires SameButStatus(shown, told)
    ensures TopicsAgree(core, mqtt, shown) <==> TopicsAgree(core, mqtt, told)
  {
    forall i | 0 <= i < |told|
      ensures ShownConfig(shown[i]) == ShownConfig(told[i]) && shown[i].topic == told[i].topic
    {
      assert shown[i].(status := told[i].status) == told[i];
    }
  }

  lemma {:induction false} LeavesThree(actions: seq<Action>)
    ensures LeavesOf(actions) <= {ProgressPart, TopicsPart, StatsPart}
  {
    if actions != [] { LeavesThree(actions[..|actions| - 1]); }
  }

  lemma WholeList(core: Core, config: Config, statuses: Statuses, shown: seq<PointDto>,
                  table: map<string, StatusDto>, count: nat)
    requires PointsAgree(core, config, statuses, shown, table, count)
    ensures shown == PointViews(core, config, statuses) <==> TopicsAgree(core, config.mqtt, shown)
  {
    hide PointsAgree, PointViews, TopicsAgree;
    ViewsHaveTopics(core, config, statuses);
    if TopicsAgree(core, config.mqtt, shown) { PointsAndTopics(core, config, statuses, shown, table, count); }
  }

  /** At every action's end of a lossless run whose saves succeed: the parts left behind are those
      unsent just then, at most three; the counters are shown right exactly when they are not unsent
      or were last told as zero without error; the scan progress exactly when it is not unsent or
      none was told; and the whole point list exactly when topics are not unsent or the list last
      told has the topics of the present settings. */
  lemma LosslessExact(b: Coercion.Browser, core: Core, m: State, s: Shared, actions: seq<Action>)
    requires PlainCore(core) && PlainState(s) && PlainActions(actions) && AllSavesOk(core, Out(s, []), actions)
    ensures var o := Run(core, Out(s, []), actions);
            var c := Play(b, Subscribed(b, core, m, s), o.trace, AllDelivered(|Deltas(o.trace)|));
            var t, unsent := LastTold(AtSnapshot(core, s), o.trace), Unsent({}, o.trace);
            && Agree(b, core, o.s, c) && c.stale == unsent <= {ProgressPart, TopicsPart, StatsPart}
            && (StatsAgree(o.s, StatusOf(c.m)) <==> (StatsPart in unsent ==> t.stats == (0, 0, None)))
            && (StatusOf(c.m).scanProgress == o.s.scanProgress <==> (ProgressPart in unsent ==> t.progress == None))
            && (c.m.points == PointViews(core, o.s.config, o.s.statuses) <==>
                (TopicsPart in unsent ==> TopicsAgree(core, o.s.config.mqtt, t.points)))
  {
    var o := Run(core, Out(s, []), actions);
    var c := Play(b, Subscribed(b, core, m, s), o.trace, AllDelivered(|Deltas(o.trace)|));
    LosslessMirror(b, core, m, s, actions);
    LeavesThree(actions);
    SnapshotTold(b, core, m, s);
    PlayTold(b, Subscribed(b, core, m, s), o.trace, AtSnapshot(core, s));
    RunKeepsReset(core, s, actions);
    ThreeRight(b, core, o, c, LastTold(AtSnapshot(core, s), o.trace));
    hide *;
  }

  lemma ThreeRight(b: Coercion.Browser, core: Core, o: Out, c: Client, t: Told)
    requires Agree(b, core, o.s, c) && ShowsTold(c.m, t) && ZeroIfUnsent(o) && NoneIfUnsent(o)
    requires c.stale == Unsent({}, o.trace) <= {ProgressPart, TopicsPart, StatsPart}
    ensures StatsAgree(o.s, StatusOf(c.m)) <==> (StatsPart in c.stale ==> t.stats == (0, 0, None))
    ensures StatusOf(c.m).scanProgress == o.s.scanProgress <==> (ProgressPart in c.stale ==> t.progress == None)
    ensures c.m.points == PointViews(core, o.s.config, o.s.statuses) <==>
            (TopicsPart in c.stale ==> TopicsAgree(core, o.s.config.mqtt, t.points))
  {
    hide PointsAgree, TopicsAgree, ConfigAgrees, DevicesAgree, PointViews, SameButStatus, Unsent, BrowsedViews,
         LifecycleView;
    WholeList(core, o.s.config, o.s.statuses, c.m.points, c.m.statuses, StatusOf(c.m).points);
    SameTopicsShown(core, o.s.config.mqtt, c.m.points, t.points);
  }
}
