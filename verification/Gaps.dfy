/** Changes the daemon makes without sending them: what a client that misses nothing then shows,
    and exactly when it is still right. */
module Gaps {
  import opened Text
  import opened Model
  import opened Server
  import opened Mirror
  import opened Simulation
  import opened Replication
  import opened PointList
  import Coercion
  import Settings
  import Points

  /** The mirror of a client that receives every delta of the trace. */
  function Told(b: Coercion.Browser, m: State, trace: seq<Item>): State {
    Play(b, Client(m, {}), trace, AllDelivered(|Deltas(trace)|)).m
  }

  lemma ToldAppend(b: Coercion.Browser, m: State, trace: seq<Item>, item: Item)
    ensures Told(b, m, trace + [item]) ==
            if item.Sent? then Handle(b, Told(b, m, trace), item.delta) else Told(b, m, trace)
  {
    hide Handle;
    DeltasAppend(trace, item);
    var k := |Deltas(trace)|;
    assert AllDelivered(k + 1)[..k] == AllDelivered(k);
    PlayAppend(b, Client(m, {}), trace, item, AllDelivered(|Deltas(trace + [item])|));
  }

  predicate TellsPoints(op: Op) {
    op.EmitPoints? || op.TakeSamples? || op.TakeReports?
  }

  predicate SameConfig(m: State, after: State) {
    && after.config == m.config && after.secrets == m.secrets && after.connValues == m.connValues
    && StatusOf(after).protocol == StatusOf(m).protocol
  }

  predicate SameStats(x: StatusInfo, y: StatusInfo) {
    x.publishedTotal == y.publishedTotal && x.ackedTotal == y.ackedTotal && x.lastError == y.lastError
  }

  /** What an operation does not send does not change in the mirror. */
  predicate KeepsShown(op: Op, before: State, after: State) {
    && before.status.Some? == after.status.Some?
    && (!TellsPoints(op) ==> after.points == before.points)
    && (!op.TakeStats? ==> SameStats(StatusOf(after), StatusOf(before)))
    && (!op.EmitProgress? ==> StatusOf(after).scanProgress == StatusOf(before).scanProgress)
    && (!op.EmitConfig? ==> SameConfig(before, after))
  }

  lemma DeltaKeepsShown(b: Coercion.Browser, m: State, d: Delta)
    ensures var after := Handle(b, m, d);
            && m.status.Some? == after.status.Some?
            && (!d.PointsDelta? && !d.SamplesDelta? && !d.StatusesDelta? ==> after.points == m.points)
            && (!d.StatsDelta? ==> SameStats(StatusOf(after), StatusOf(m)))
            && (!d.ProgressDelta? ==> StatusOf(after).scanProgress == StatusOf(m).scanProgress)
            && (!d.ConfigDelta? ==> SameConfig(m, after))
  {
    hide WithPointStatuses, Synced, ConnValues, FirstN;
  }

  lemma OpKeepsShown(b: Coercion.Browser, core: Core, o: Out, op: Op, m: State)
    ensures KeepsShown(op, Told(b, m, o.trace), Told(b, m, Do(core, o, op).trace))
  {
    hide PointViews, Reported, ChangedViews, SampleViews, DeviceViews, BrowsedViews, Reverse, FirstN, LastN, Changed,
         Redact, LifecycleView, LevelText, Handle, WithStats, Launched, NextRecord, PushLog,
         Told, SameConfig, SameStats;
    var items := Effect(core, o.s, op).1;
    SameTwice(Told(b, m, o.trace));
    if items == [] {
      assert o.trace + items == o.trace;
    } else {
      assert items == [items[0]];
      ToldAppend(b, m, o.trace, items[0]);
      if items[0].Sent? { DeltaKeepsShown(b, Told(b, m, o.trace), items[0].delta); }
    }
  }

  lemma SameTwice(m: State)
    ensures SameConfig(m, m) && SameStats(StatusOf(m), StatusOf(m))
  {
  }

  predicate NoneTells(ops: seq<Op>) {
    forall i :: 0 <= i < |ops| ==> !TellsPoints(ops[i])
  }

  lemma {:induction false} OpsKeepShown(b: Coercion.Browser, core: Core, o: Out, ops: seq<Op>, m: State)
    ensures var before, after := Told(b, m, o.trace), Told(b, m, DoAll(core, o, ops).trace);
            && before.status.Some? == after.status.Some?
            && (NoneTells(ops) ==> after.points == before.points)
            && ((forall i :: 0 <= i < |ops| ==> !ops[i].TakeStats?) ==> SameStats(StatusOf(after), StatusOf(before)))
            && ((forall i :: 0 <= i < |ops| ==> !ops[i].EmitProgress?) ==>
                  StatusOf(after).scanProgress == StatusOf(before).scanProgress)
            && ((forall i :: 0 <= i < |ops| ==> !ops[i].EmitConfig?) ==> SameConfig(before, after))
  {
    hide Do, Told;
    if ops != [] {
      var n := |ops| - 1;
      OpsKeepShown(b, core, o, ops[..n], m);
      OpKeepsShown(b, core, DoAll(core, o, ops[..n]), ops[n], m);
    }
  }

  /** The mirror after an action of which every delta arrives. */
  function Shown(b: Coercion.Browser, core: Core, m: State, s: Shared, a: Action): State {
    Told(b, m, Next(core, Out(s, []), a).trace)
  }

  function After(core: Core, s: Shared, a: Action): Shared {
    Next(core, Out(s, []), a).s
  }

  // ---- counters at a start ----

  /** A start zeroes the counters and sends nothing of it: the mirror, right before, is right after
      exactly when there was nothing to zero. */
  lemma StartCountersIff(b: Coercion.Browser, core: Core, s: Shared, m: State, disk: Option<string>)
    requires m.status.Some? && StatsAgree(s, StatusOf(m))
    requires RequestPlan(core, s, StartRepublisher, disk).reply == Ok
    ensures var a := Http(StartRepublisher, disk);
            StatsAgree(After(core, s, a), StatusOf(Shown(b, core, m, s, a))) <==>
            s.publishedTotal == 0 && s.ackedTotal == 0 && s.lastError == None
  {
    hide Told, DoAll, Decimal, SavePlan, PointsPlan;
    var ops := RequestPlan(core, s, StartRepublisher, disk).ops;
    OpsKeepShown(b, core, Out(s, []), ops, m);
    ToldNothing(b, m);
    LaunchZeroes(core, Out(s, []));
  }

  lemma ToldNothing(b: Coercion.Browser, m: State)
    ensures Told(b, m, []) == m
  {
    assert Deltas([]) == [];
  }

  lemma LaunchZeroes(core: Core, o: Out)
    ensures var s := DoAll(core, o, [Launch, Status(Info, "Republisher starting…")]).s;
            s.publishedTotal == 0 && s.ackedTotal == 0 && s.lastError == None
  {
    hide PointViews, Reported, ChangedViews, SampleViews, DeviceViews, BrowsedViews, Reverse, FirstN, LastN, Changed,
         Redact, LifecycleView, LevelText, DoAll;
    var status := Status(Info, "Republisher starting…");
    assert [Launch, status] == [Launch] + [status] && [] + [Launch] == [Launch];
    DoAllAppend(core, o, [Launch], status);
    DoAllAppend(core, o, [], Launch);
    DoNothing(core, o);
  }

  lemma DoNothing(core: Core, o: Out)
    ensures DoAll(core, o, []) == o
  {
  }

  // ---- scan progress at a bulk import ----

  lemma {:induction false} ProgressAfter(core: Core, o: Out, ops: seq<Op>, at: nat)
    requires at < |ops| && ops[at].SetProgress?
    requires forall i :: at < i < |ops| ==> !ops[i].SetProgress?
    ensures DoAll(core, o, ops).s.scanProgress == ops[at].progress
  {
    hide Do;
    var n := |ops| - 1;
    DoFrame(core, DoAll(core, o, ops[..n]), ops[n]);
    if at < n { ProgressAfter(core, o, ops[..n], at); }
  }

  /** A bulk import clears the scan progress and sends nothing of it: a mirror that was right goes
      on showing the scan exactly when there was one. */
  lemma ImportProgressIff(b: Coercion.Browser, core: Core, s: Shared, m: State, points: seq<PointConfig>,
                          added: nat, updated: nat, disk: Option<string>)
    requires m.status.Some? && StatusOf(m).scanProgress == s.scanProgress
    ensures var a := Worker(BulkTagImport(points, added, updated), disk);
            StatusOf(Shown(b, core, m, s, a)).scanProgress == After(core, s, a).scanProgress <==> s.scanProgress == None
  {
    hide Told, DoAll, Decimal;
    var ops := WorkerOps(core, s, BulkTagImport(points, added, updated), disk);
    OpsKeepShown(b, core, Out(s, []), ops, m);
    ToldNothing(b, m);
    ProgressAfter(core, Out(s, []), ops, 1);
  }

  // ---- topics at a settings change ----

  predicate SameTopics(core: Core, before: Config, after: Config) {
    forall i :: 0 <= i < |before.points| ==>
      (core.telemetryTopic)(before.mqtt, before.points[i]) == (core.telemetryTopic)(after.mqtt, before.points[i])
  }

  lemma ViewsIffTopics(core: Core, before: Config, after: Config, statuses: Statuses)
    requires after.points == before.points
    ensures PointViews(core, before, statuses) == PointViews(core, after, statuses) <==> SameTopics(core, before, after)
  {
    var x, y := PointViews(core, before, statuses), PointViews(core, after, statuses);
    if x == y {
      forall i | 0 <= i < |before.points|
        ensures (core.telemetryTopic)(before.mqtt, before.points[i]) ==
                (core.telemetryTopic)(after.mqtt, before.points[i])
      {
        assert x[i].topic == y[i].topic;
      }
    }
  }

  lemma {:induction false} StatusesKept(core: Core, o: Out, ops: seq<Op>)
    requires NoneTells(ops) && forall i :: 0 <= i < |ops| ==> !ops[i].ClearStatuses?
    ensures DoAll(core, o, ops).s.statuses == o.s.statuses
  {
    hide Do;
    if ops != [] {
      var n := |ops| - 1;
      StatusesKept(core, o, ops[..n]);
      assert !TellsPoints(ops[n]);
      DoFrame(core, DoAll(core, o, ops[..n]), ops[n]);
    }
  }

  /** New settings are sent without the points: a mirror's point list that was right stays right
      exactly when no configured point's topic changes. */
  lemma SettingsTopicsIff(b: Coercion.Browser, core: Core, s: Shared, m: State,
                          req: Settings.SettingsReq, disk: Option<string>)
    requires m.points == PointViews(core, s.config, s.statuses)
    ensures var a := Http(PutSettings(req), disk);
            var after := After(core, s, a);
            Shown(b, core, m, s, a).points == PointViews(core, after.config, after.statuses) <==>
            SameTopics(core, s.config, Settings.Put(s.config, req))
  {
    hide Told, DoAll, Decimal, PointViews, SameTopics;
    var o, ops := Out(s, []), RequestPlan(core, s, PutSettings(req), disk).ops;
    OpsKeepShown(b, core, o, ops, m);
    ToldNothing(b, m);
    StatusesKept(core, o, ops);
    RequestConfig(core, o, PutSettings(req), disk);
    ViewsIffTopics(core, s.config, Settings.Put(s.config, req), s.statuses);
  }

  // ---- points at a failed save ----

  predicate IsPointEdit(request: Request) {
    request.SavePoint? || request.TogglePoint? || request.DeletePoint? || request.AddBrowsedPoint?
    || request.ClearPoints?
  }

  /** A point's view shows all of its configuration. */
  lemma ViewsShowPoints(core: Core, before: Config, after: Config, x: Statuses, y: Statuses)
    requires PointViews(core, before, x) == PointViews(core, after, y)
    ensures before.points == after.points
  {
    var v, w := PointViews(core, before, x), PointViews(core, after, y);
    forall i | 0 <= i < |v| ensures before.points[i] == after.points[i] {
      hide PointIdentityOf, StatusView, Lookup;
      assert v[i] == w[i];
    }
  }

  lemma FailedSaveTells(core: Core, s: Shared, request: Request, disk: Option<string>)
    requires IsPointEdit(request) && SaveError(core, Edited(core, s, request), disk).Some?
    ensures NoneTells(RequestPlan(core, s, request, disk).ops)
    ensures !request.ClearPoints? ==>
              forall i :: 0 <= i < |RequestPlan(core, s, request, disk).ops| ==>
                !RequestPlan(core, s, request, disk).ops[i].ClearStatuses?
  {
    hide Decimal, Coercion.Built, Points.Upsert, FindCapabilities, SaveError, WithPoints, RequestedPoint;
  }

  /** A point edit whose save fails stays in memory and is not sent: a mirror's point list that was
      right stays right exactly when the edit changes no point. */
  lemma FailedSaveIff(b: Coercion.Browser, core: Core, s: Shared, m: State, request: Request, disk: Option<string>)
    requires IsPointEdit(request) && SaveError(core, Edited(core, s, request), disk).Some?
    requires m.points == PointViews(core, s.config, s.statuses)
    ensures var a := Http(request, disk);
            var after := After(core, s, a);
            Shown(b, core, m, s, a).points == PointViews(core, after.config, after.statuses) <==>
            Edited(core, s, request).points == s.config.points
  {
    hide Told, DoAll, Decimal, PointViews, RequestPlan, Edited, SaveError;
    var o, ops := Out(s, []), RequestPlan(core, s, request, disk).ops;
    FailedSaveTells(core, s, request, disk);
    OpsKeepShown(b, core, o, ops, m);
    ToldNothing(b, m);
    RequestConfig(core, o, request, disk);
    var after := After(core, s, Http(request, disk));
    var edited := Edited(core, s, request);
    if Shown(b, core, m, s, Http(request, disk)).points == PointViews(core, after.config, after.statuses) {
      ViewsShowPoints(core, s.config, edited, s.statuses, after.statuses);
    }
    if edited.points == s.config.points {
      SamePoints(core, s, request);
      if request.ClearPoints? {
        NoViews(core, edited, s.config, s.statuses, after.statuses);
      } else {
        StatusesKept(core, o, ops);
      }
    }
  }

  lemma SamePoints(core: Core, s: Shared, request: Request)
    requires IsPointEdit(request) && Edited(core, s, request).points == s.config.points
    ensures Edited(core, s, request) == s.config
    ensures request.ClearPoints? ==> s.config.points == []
  {
    hide Coercion.Built, Points.Upsert, FindCapabilities;
  }

  lemma NoViews(core: Core, x: Config, y: Config, a: Statuses, c: Statuses)
    requires x.points == y.points == []
    ensures PointViews(core, y, a) == PointViews(core, x, c)
  {
  }
  // ---- the configuration at a failed save ----

  lemma FailedSaveKeepsConfig(core: Core, s: Shared, request: Request, disk: Option<string>)
    requires Saves(request) && SaveError(core, Edited(core, s, request), disk).Some?
    ensures var ops := RequestPlan(core, s, request, disk).ops;
            forall i :: 0 <= i < |ops| ==> !ops[i].EmitConfig?
  {
    hide Decimal, Coercion.Built, Points.Upsert, Settings.Put, FindCapabilities, SaveError;
  }

  /** What a page shows of a configuration, points aside. */
  predicate LooksAlike(b: Coercion.Browser, core: Core, x: Config, y: Config) {
    && Redact(x).config.(points := []) == Redact(y).config.(points := [])
    && Redact(x).secrets == Redact(y).secrets
    && ConnValues(b, core.capabilities, x) == ConnValues(b, core.capabilities, y)
  }

  lemma ShownIffAlike(b: Coercion.Browser, core: Core, before: Config, after: Config, m: State)
    requires ConfigAgrees(b, core, before, m.config, m.secrets, StatusOf(m).protocol, m.connValues)
    ensures ConfigAgrees(b, core, after, m.config, m.secrets, StatusOf(m).protocol, m.connValues) <==>
            LooksAlike(b, core, before, after)
  {
    hide ConnValues;
    assert Redact(before).config.(points := []).protocol == before.protocol;
    assert Redact(after).config.(points := []).protocol == after.protocol;
  }

  /** Any edit whose save fails, of points, connection or settings, is not sent: a shown
      configuration that was right stays right exactly when the edit changes nothing a page can
      see, such as one secret for another. */
  lemma FailedConfigIff(b: Coercion.Browser, core: Core, s: Shared, m: State, request: Request, disk: Option<string>)
    requires Saves(request) && SaveError(core, Edited(core, s, request), disk).Some?
    requires ConfigAgrees(b, core, s.config, m.config, m.secrets, StatusOf(m).protocol, m.connValues)
    ensures var a := Http(request, disk);
            var shown := Shown(b, core, m, s, a);
            ConfigAgrees(b, core, After(core, s, a).config, shown.config, shown.secrets,
                         StatusOf(shown).protocol, shown.connValues) <==>
            LooksAlike(b, core, s.config, Edited(core, s, request))
  {
    hide Told, DoAll, RequestPlan, Edited, SaveError, ConfigAgrees, LooksAlike;
    var o := Out(s, []);
    FailedSaveKeepsConfig(core, s, request, disk);
    OpsKeepShown(b, core, o, RequestPlan(core, s, request, disk).ops, m);
    ToldNothing(b, m);
    RequestConfig(core, o, request, disk);
    ShownIffAlike(b, core, s.config, Edited(core, s, request), m);
  }
}
