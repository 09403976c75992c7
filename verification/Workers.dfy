/** Republisher workers as threads that share one channel to the daemon: starting, stopping,
    and the counters of a run. */
module Workers {
  import opened Text
  import opened Model
  import opened Server
  import Settings
  import Coercion
  import Points

  /** A queued event; `worker` is the stop flag its republisher was started with, if one sent it. */
  datatype Msg = Msg(worker: Option<nat>, event: WorkerEvent)

  /** `live` are the running workers, `begun` those that have sent their first event; `reported`
      and `drained` are the publish reports of the current run, as sent and as applied; `asked` is
      whether a stop has been requested since the run was started. */
  datatype System = System(
    o: Out, queue: seq<Msg>, live: set<nat>, begun: set<nat>,
    reported: seq<WorkerEvent>, drained: seq<WorkerEvent>, asked: bool)

  datatype Step =
    | Ask(request: Request, disk: Option<string>)
    | JobSends(event: WorkerEvent)
    | WorkerSends(id: nat, event: WorkerEvent)
    | Drain(disk: Option<string>)

  /** Only republishers send lifecycle and publish reports; other jobs send the rest. */
  predicate IsRunEvent(e: WorkerEvent) {
    e.LifecycleEvent? || e.PublishStatus?
  }

  predicate IsStarting(e: WorkerEvent) {
    e == LifecycleEvent(Starting)
  }

  predicate IsTerminal(e: WorkerEvent) {
    e.LifecycleEvent? && (e.lifecycle.Stopped? || e.lifecycle.Failed?)
  }

  predicate Starts(core: Core, s: Shared, request: Request, disk: Option<string>) {
    request.StartRepublisher? && RequestPlan(core, s, request, disk).reply == Ok
  }

  /** Every live worker's `Starting` has been applied. */
  predicate Settled(y: System) {
    && y.live <= y.begun
    && forall i :: 0 <= i < |y.queue| ==> !IsStarting(y.queue[i].event)
  }

  /** The order in which a worker sends: `Starting` first and once, a terminal event last. The
      discipline on callers is the first case: no start that is accepted before the last start's
      `Starting` has been applied; requests that are refused may come at any time. */
  predicate Allowed(core: Core, y: System, step: Step) {
    match step
    case Ask(request, disk) => Starts(core, y.o.s, request, disk) ==> Settled(y)
    case JobSends(event) => !IsRunEvent(event)
    case WorkerSends(id, event) => id in y.live && (IsStarting(event) <==> id !in y.begun)
    case Drain(_) => y.queue != []
  }

  function Apply(core: Core, y: System, step: Step): System {
    match step
    case Ask(request, disk) =>
      var next := y.(o := Next(core, y.o, Http(request, disk)));
      if Starts(core, y.o.s, request, disk)
      then next.(live := y.live + {y.o.s.flags}, reported := [], drained := [], asked := false)
      else next.(asked := y.asked || request.StopRepublisher?)
    case JobSends(event) => y.(queue := y.queue + [Msg(None, event)])
    case WorkerSends(id, event) =>
      y.(queue := y.queue + [Msg(Some(id), event)], begun := y.begun + {id},
         live := if IsTerminal(event) then y.live - {id} else y.live,
         reported := if event.PublishStatus? then y.reported + [event] else y.reported)
    case Drain(disk) =>
      if y.queue == [] then y
      else
        var event := y.queue[0].event;
        y.(o := Next(core, y.o, Worker(event, disk)), queue := y.queue[1..],
           drained := if event.PublishStatus? then y.drained + [event] else y.drained)
  }

  function Initial(core: Core, config: Config, bootStatus: string): System {
    System(Out(Boot(core, config, bootStatus), []), [], {}, {}, [], [], false)
  }

  function RunSteps(core: Core, y: System, steps: seq<Step>): System {
    if steps == [] then y else Apply(core, RunSteps(core, y, steps[..|steps| - 1]), steps[|steps| - 1])
  }

  predicate AllAllowed(core: Core, y: System, steps: seq<Step>) {
    steps == [] ||
    (AllAllowed(core, y, steps[..|steps| - 1])
     && Allowed(core, RunSteps(core, y, steps[..|steps| - 1]), steps[|steps| - 1]))
  }

  // ---- the fields a run owns, and what touches them ----

  datatype RunState = RunState(
    lifecycle: Lifecycle, stopFlag: Option<nat>, publishedTotal: nat, ackedTotal: nat,
    lastError: Option<string>, flags: nat, raised: set<nat>)

  function RunOf(s: Shared): RunState {
    RunState(s.lifecycle, s.stopFlag, s.publishedTotal, s.ackedTotal, s.lastError, s.flags, s.raised)
  }

  predicate TouchesRun(op: Op) {
    op.TakeStats? || op.SetLifecycle? || op.Launch? || op.RaiseStop?
  }

  /** The run after a stop request: the current stop flag, if any, is raised. */
  function Stopped(run: RunState): RunState {
    if run.stopFlag.Some? then run.(raised := run.raised + {run.stopFlag.value}) else run
  }

  lemma RunFrame(core: Core, o: Out, op: Op)
    ensures !TouchesRun(op) ==> RunOf(Do(core, o, op).s) == RunOf(o.s)
    ensures op.SetLifecycle? ==> RunOf(Do(core, o, op).s) == RunOf(o.s).(lifecycle := op.lifecycle)
    ensures op.Launch? ==>
              RunOf(Do(core, o, op).s) ==
              RunState(o.s.lifecycle, Some(o.s.flags), 0, 0, None, o.s.flags + 1, o.s.raised)
    ensures op.RaiseStop? ==> RunOf(Do(core, o, op).s) == Stopped(RunOf(o.s))
    ensures op.TakeStats? ==>
              RunOf(Do(core, o, op).s) ==
              RunOf(o.s).(publishedTotal := o.s.publishedTotal + op.published,
                          ackedTotal := if op.acked > o.s.ackedTotal then op.acked else o.s.ackedTotal,
                          lastError := op.error)
  {
    hide PointViews, Reported, ChangedViews, SampleViews, DeviceViews, BrowsedViews, Reverse, FirstN, LastN, Changed,
         Redact, LifecycleView, LevelText;
  }

  predicate NoneTouchesRun(ops: seq<Op>) {
    forall i :: 0 <= i < |ops| ==> !TouchesRun(ops[i])
  }

  lemma {:induction false} DoAllFrame(core: Core, o: Out, ops: seq<Op>)
    requires NoneTouchesRun(ops)
    ensures RunOf(DoAll(core, o, ops).s) == RunOf(o.s)
  {
    hide Do, RunOf;
    if ops != [] {
      var n := |ops| - 1;
      DoAllFrame(core, o, ops[..n]);
      RunFrame(core, DoAll(core, o, ops[..n]), ops[n]);
    }
  }

  lemma RefusedWhileActive(core: Core, s: Shared, disk: Option<string>)
    ensures IsActive(s.lifecycle) <==> RequestPlan(core, s, StartRepublisher, disk).reply.Conflict?
    ensures Starts(core, s, StartRepublisher, disk) <==>
            !IsActive(s.lifecycle) && (core.validate)(s.config).None? && s.config.protocol in core.registry
  {
    hide Decimal, SavePlan, PointsPlan;
  }

  lemma TwoOps(core: Core, o: Out, op: Op, status: Op)
    requires (op.Launch? || op.RaiseStop?) && status.Status?
    ensures var after := DoAll(core, o, [op, status]).s;
            && after.config == o.s.config
            && RunOf(after) == if op.RaiseStop? then Stopped(RunOf(o.s))
                               else RunState(o.s.lifecycle, Some(o.s.flags), 0, 0, None, o.s.flags + 1, o.s.raised)
  {
    hide Do, RunOf, Stopped;
    assert [op, status] == [op] + [status] && [] + [op] == [op];
    DoAllAppend(core, o, [op], status);
    DoAllAppend(core, o, [], op);
    RunFrame(core, o, op);
    RunFrame(core, Do(core, o, op), status);
    DoFrame(core, o, op);
    DoFrame(core, Do(core, o, op), status);
  }

  lemma StartFrame(core: Core, o: Out, disk: Option<string>)
    requires Starts(core, o.s, StartRepublisher, disk)
    ensures var after := Next(core, o, Http(StartRepublisher, disk)).s;
            && RunOf(after) == RunState(o.s.lifecycle, Some(o.s.flags), 0, 0, None, o.s.flags + 1, o.s.raised)
            && after.config == o.s.config
  {
    hide DoAll, Decimal, SavePlan, PointsPlan, RunOf;
    TwoOps(core, o, Launch, Status(Info, "Republisher starting…"));
  }

  lemma StopFrame(core: Core, o: Out, disk: Option<string>)
    ensures RunOf(Next(core, o, Http(StopRepublisher, disk)).s) == Stopped(RunOf(o.s))
  {
    hide Do, Decimal, SavePlan, PointsPlan;
    if o.s.stopFlag.Some? {
      TwoOps(core, o, RaiseStop, Status(Info, "Stopping republisher…"));
    }
  }

  lemma SavePlanFrame(core: Core, config: Config, disk: Option<string>, edit: seq<Op>, after: seq<Op>, reply: Reply)
    requires NoneTouchesRun(edit) && NoneTouchesRun(after)
    ensures NoneTouchesRun(SavePlan(core, config, disk, edit, after, reply).ops)
  {
  }

  lemma EditFrame(core: Core, s: Shared, request: Request, disk: Option<string>)
    requires request.SetConnection? || request.SavePoint? || request.TogglePoint? || request.DeletePoint?
             || request.ClearPoints? || request.AddBrowsedPoint? || request.PutSettings?
    ensures NoneTouchesRun(RequestPlan(core, s, request, disk).ops)
  {
    hide Decimal, Coercion.Built, Settings.Put, Points.Upsert, FindCapabilities, SavePlan;
    forall config: Config, edit, after, reply
      | NoneTouchesRun(edit) && NoneTouchesRun(after)
      ensures NoneTouchesRun(SavePlan(core, config, disk, edit, after, reply).ops)
    {
      SavePlanFrame(core, config, disk, edit, after, reply);
    }
  }

  lemma OtherRequestFrame(core: Core, s: Shared, request: Request, disk: Option<string>)
    requires !Starts(core, s, request, disk) && !request.StopRepublisher?
    ensures NoneTouchesRun(RequestPlan(core, s, request, disk).ops)
  {
    if request.SetConnection? || request.SavePoint? || request.TogglePoint? || request.DeletePoint?
       || request.ClearPoints? || request.AddBrowsedPoint? || request.PutSettings? {
      hide RequestPlan;
      EditFrame(core, s, request, disk);
    } else {
      hide Decimal, SavePlan, PointsPlan, Coercion.Built, Settings.Put, Points.Upsert;
    }
  }

  /** Other requests and refused starts leave the run alone; an accepted start makes a new flag
      and zeroes the counters, and a stop raises the current flag. */
  lemma AskFrame(core: Core, o: Out, request: Request, disk: Option<string>)
    ensures var after := RunOf(Next(core, o, Http(request, disk)).s);
            after == if Starts(core, o.s, request, disk)
                     then RunState(o.s.lifecycle, Some(o.s.flags), 0, 0, None, o.s.flags + 1, o.s.raised)
                     else if request.StopRepublisher? then Stopped(RunOf(o.s))
                     else RunOf(o.s)
  {
    hide RequestPlan, NoneTouchesRun;
    if Starts(core, o.s, request, disk) {
      StartFrame(core, o, disk);
    } else if request.StopRepublisher? {
      StopFrame(core, o, disk);
    } else {
      OtherRequestFrame(core, o.s, request, disk);
      DoAllFrame(core, o, RequestPlan(core, o.s, request, disk).ops);
    }
  }

  lemma WorkerFrame(core: Core, o: Out, event: WorkerEvent, disk: Option<string>)
    ensures var after := RunOf(Next(core, o, Worker(event, disk)).s);
            match event
            case LifecycleEvent(l) => after == RunOf(o.s).(lifecycle := l)
            case PublishStatus(published, acked, error) =>
              after == RunOf(o.s).(publishedTotal := o.s.publishedTotal + published,
                                   ackedTotal := if acked > o.s.ackedTotal then acked else o.s.ackedTotal,
                                   lastError := error)
            case _ => after == RunOf(o.s)
  {
    hide Do, Decimal;
    var ops := WorkerOps(core, o.s, event, disk);
    if IsRunEvent(event) {
      var n := |ops| - 1;
      DoAllFrame(core, o, ops[..n]);
      RunFrame(core, DoAll(core, o, ops[..n]), ops[n]);
    } else {
      DoAllFrame(core, o, ops);
    }
  }

  // ---- what is in the channel ----

  function RunEvents(queue: seq<Msg>): seq<WorkerEvent> {
    if queue == [] then []
    else if IsRunEvent(queue[0].event) then [queue[0].event] + RunEvents(queue[1..])
    else RunEvents(queue[1..])
  }

  function Reports(events: seq<WorkerEvent>): seq<WorkerEvent> {
    if events == [] then []
    else if events[0].PublishStatus? then [events[0]] + Reports(events[1..])
    else Reports(events[1..])
  }

  lemma {:induction false} RunEventsAppend(queue: seq<Msg>, msg: Msg)
    ensures RunEvents(queue + [msg]) ==
            if IsRunEvent(msg.event) then RunEvents(queue) + [msg.event] else RunEvents(queue)
  {
    if queue == [] {
      assert [] + [msg] == [msg];
    } else {
      assert (queue + [msg])[1..] == queue[1..] + [msg];
      RunEventsAppend(queue[1..], msg);
    }
  }

  lemma {:induction false} ReportsAppend(events: seq<WorkerEvent>, e: WorkerEvent)
    ensures Reports(events + [e]) == if e.PublishStatus? then Reports(events) + [e] else Reports(events)
  {
    if events == [] {
      assert [] + [e] == [e];
    } else {
      assert (events + [e])[1..] == events[1..] + [e];
      ReportsAppend(events[1..], e);
    }
  }

  lemma {:induction false} StartingQueued(queue: seq<Msg>)
    ensures (exists i :: 0 <= i < |queue| && IsStarting(queue[i].event)) <==>
            (exists i :: 0 <= i < |RunEvents(queue)| && IsStarting(RunEvents(queue)[i]))
  {
    if queue != [] {
      var rest, events := queue[1..], RunEvents(queue);
      StartingQueued(rest);
      assert forall i :: 0 <= i < |rest| ==> rest[i] == queue[i + 1];
      if IsRunEvent(queue[0].event) {
        assert events == [queue[0].event] + RunEvents(rest);
        assert forall i :: 0 <= i < |RunEvents(rest)| ==> RunEvents(rest)[i] == events[i + 1];
        assert events[0] == queue[0].event;
      }
    }
  }

  // ---- the invariant ----

  /** Run events after `Starting`: a terminal one exactly at the end, exactly when its sender has ended. */
  predicate Tail(events: seq<WorkerEvent>, alive: bool) {
    && (forall i :: 0 <= i < |events| ==> !IsStarting(events[i]))
    && (forall i :: 0 <= i < |events| && IsTerminal(events[i]) ==> !alive && i == |events| - 1)
    && (!alive ==> events != [] && IsTerminal(events[|events| - 1]))
  }

  /** Idle; started but silent; `Starting` sent; or `Starting` applied. */
  predicate Phase(active: bool, alive: bool, begun: bool, events: seq<WorkerEvent>) {
    || (!active && !alive && events == [])
    || (!active && alive && !begun && events == [])
    || (!active && (alive ==> begun) && events != [] && IsStarting(events[0]) && Tail(events[1..], alive))
    || (active && (alive ==> begun) && Tail(events, alive))
  }

  function Sum(reports: seq<WorkerEvent>): nat
    requires forall i :: 0 <= i < |reports| ==> reports[i].PublishStatus?
  {
    if reports == [] then 0 else Sum(reports[..|reports| - 1]) + reports[|reports| - 1].published
  }

  function MaxAcked(reports: seq<WorkerEvent>): nat
    requires forall i :: 0 <= i < |reports| ==> reports[i].PublishStatus?
  {
    if reports == [] then 0
    else
      var before, acked := MaxAcked(reports[..|reports| - 1]), reports[|reports| - 1].acked;
      if acked > before then acked else before
  }

  function LatestError(reports: seq<WorkerEvent>): Option<string>
    requires forall i :: 0 <= i < |reports| ==> reports[i].PublishStatus?
  {
    if reports == [] then None else reports[|reports| - 1].lastError
  }

  predicate AllReports(reports: seq<WorkerEvent>) {
    forall i :: 0 <= i < |reports| ==> reports[i].PublishStatus?
  }

  /** The counters are the totals of the current run's applied reports, which are the first of
      those it has sent; the rest are in the channel. */
  predicate Counted(published: nat, acked: nat, error: Option<string>, events: seq<WorkerEvent>,
                    reported: seq<WorkerEvent>, drained: seq<WorkerEvent>) {
    && AllReports(drained) && reported == drained + Reports(events)
    && published == Sum(drained) && acked == MaxAcked(drained) && error == LatestError(drained)
  }

  /** A live worker holds the current stop flag, raised exactly when its stop has been asked for;
      flags are numbered in order of creation. */
  predicate FlagsOk(stopFlag: Option<nat>, flags: nat, raised: set<nat>, live: set<nat>, begun: set<nat>, asked: bool) {
    && (live == {} || (stopFlag.Some? && live == {stopFlag.value}))
    && (forall id :: id in begun ==> id < flags)
    && (forall id :: id in raised ==> id < flags)
    && (stopFlag.Some? ==> stopFlag.value < flags && (stopFlag.value in raised <==> asked))
  }

  predicate Invariant(y: System) {
    var run, events := RunOf(y.o.s), RunEvents(y.queue);
    && FlagsOk(run.stopFlag, run.flags, run.raised, y.live, y.begun, y.asked)
    && Phase(IsActive(run.lifecycle), y.live != {}, y.live <= y.begun, events)
    && Counted(run.publishedTotal, run.ackedTotal, run.lastError, events, y.reported, y.drained)
  }

  lemma TailAppend(events: seq<WorkerEvent>, e: WorkerEvent)
    requires Tail(events, true) && !IsStarting(e)
    ensures Tail(events + [e], !IsTerminal(e))
  {
  }

  lemma TailRest(events: seq<WorkerEvent>, alive: bool)
    requires Tail(events, alive) && events != []
    ensures IsTerminal(events[0]) ==> !alive && events[1..] == []
    ensures !IsTerminal(events[0]) ==> Tail(events[1..], alive)
  {
  }

  lemma SettledPhase(y: System)
    requires Invariant(y) && Settled(y)
    ensures y.live != {} ==> IsActive(y.o.s.lifecycle)
    ensures !IsActive(y.o.s.lifecycle) ==> RunEvents(y.queue) == []
  {
    hide Counted, IsStarting, Tail;
    StartingQueued(y.queue);
    var events := RunEvents(y.queue);
    assert forall i :: 0 <= i < |events| ==> !IsStarting(events[i]);
    assert events != [] ==> !IsStarting(events[0]);
  }

  lemma AskKeeps(core: Core, y: System, request: Request, disk: Option<string>)
    requires Invariant(y) && Allowed(core, y, Ask(request, disk))
    ensures Invariant(Apply(core, y, Ask(request, disk)))
  {
    hide Next, RequestPlan, IsActive;
    AskFrame(core, y.o, request, disk);
    if Starts(core, y.o.s, request, disk) {
      RefusedWhileActive(core, y.o.s, disk);
      SettledPhase(y);
      assert y.o.s.flags !in y.begun;
    }
  }

  lemma PhaseSends(active: bool, events: seq<WorkerEvent>, begun: bool, e: WorkerEvent)
    requires Phase(active, true, begun, events) && IsRunEvent(e) && (IsStarting(e) <==> !begun)
    ensures Phase(active, !IsTerminal(e), true, events + [e])
  {
    if begun {
      if active {
        TailAppend(events, e);
      } else {
        TailAppend(events[1..], e);
        assert (events + [e])[1..] == events[1..] + [e];
      }
    } else {
      assert (events + [e])[1..] == [];
    }
  }

  lemma CountedSends(published: nat, acked: nat, error: Option<string>, events: seq<WorkerEvent>,
                     reported: seq<WorkerEvent>, drained: seq<WorkerEvent>, e: WorkerEvent)
    requires Counted(published, acked, error, events, reported, drained)
    ensures Counted(published, acked, error, events + [e],
                    if e.PublishStatus? then reported + [e] else reported, drained)
  {
    ReportsAppend(events, e);
    assert drained + Reports(events) + [e] == drained + (Reports(events) + [e]);
  }

  lemma SendKeeps(core: Core, y: System, id: nat, event: WorkerEvent)
    requires Invariant(y) && Allowed(core, y, WorkerSends(id, event))
    ensures Invariant(Apply(core, y, WorkerSends(id, event)))
  {
    hide Phase, Counted, Next, IsActive;
    var run, events := RunOf(y.o.s), RunEvents(y.queue);
    RunEventsAppend(y.queue, Msg(Some(id), event));
    assert y.live == {id};
    if IsRunEvent(event) {
      CountedSends(run.publishedTotal, run.ackedTotal, run.lastError, events, y.reported, y.drained, event);
      PhaseSends(IsActive(run.lifecycle), events, y.live <= y.begun, event);
    }
  }

  lemma JobKeeps(core: Core, y: System, event: WorkerEvent)
    requires Invariant(y) && !IsRunEvent(event)
    ensures Invariant(Apply(core, y, JobSends(event)))
  {
    RunEventsAppend(y.queue, Msg(None, event));
  }

  lemma PhaseDrains(active: bool, alive: bool, begun: bool, events: seq<WorkerEvent>)
    requires Phase(active, alive, begun, events) && events != [] && IsRunEvent(events[0])
    ensures var e := events[0];
            Phase(if e.LifecycleEvent? then IsActive(e.lifecycle) else active, alive, begun, events[1..])
  {
    if active { TailRest(events, alive); }
  }

  lemma CountedDrains(published: nat, acked: nat, error: Option<string>, events: seq<WorkerEvent>,
                      reported: seq<WorkerEvent>, drained: seq<WorkerEvent>)
    requires Counted(published, acked, error, events, reported, drained) && events != []
    ensures var e := events[0];
            if e.PublishStatus? then
              Counted(published + e.published, if e.acked > acked then e.acked else acked, e.lastError,
                      events[1..], reported, drained + [e])
            else Counted(published, acked, error, events[1..], reported, drained)
  {
    var e := events[0];
    if e.PublishStatus? {
      assert (drained + [e])[..|drained|] == drained;
      assert drained + ([e] + Reports(events[1..])) == drained + [e] + Reports(events[1..]);
    }
  }

  lemma DrainKeeps(core: Core, y: System, disk: Option<string>)
    requires Invariant(y) && y.queue != []
    ensures Invariant(Apply(core, y, Drain(disk)))
  {
    hide Next, Phase, Counted, IsActive, FlagsOk;
    var run, events, e := RunOf(y.o.s), RunEvents(y.queue), y.queue[0].event;
    WorkerFrame(core, y.o, e, disk);
    if IsRunEvent(e) {
      assert events == [e] + RunEvents(y.queue[1..]);
      assert events[1..] == RunEvents(y.queue[1..]);
      PhaseDrains(IsActive(run.lifecycle), y.live != {}, y.live <= y.begun, events);
      CountedDrains(run.publishedTotal, run.ackedTotal, run.lastError, events, y.reported, y.drained);
    }
  }

  lemma {:induction false} RunKeepsInvariant(core: Core, config: Config, bootStatus: string, steps: seq<Step>)
    requires AllAllowed(core, Initial(core, config, bootStatus), steps)
    ensures Invariant(RunSteps(core, Initial(core, config, bootStatus), steps))
  {
    hide Invariant, Apply, Allowed;
    var start := Initial(core, config, bootStatus);
    if steps == [] {
      InitialHolds(core, config, bootStatus);
    } else {
      var n := |steps| - 1;
      RunKeepsInvariant(core, config, bootStatus, steps[..n]);
      StepKeeps(core, RunSteps(core, start, steps[..n]), steps[n]);
    }
  }

  lemma InitialHolds(core: Core, config: Config, bootStatus: string)
    ensures Invariant(Initial(core, config, bootStatus))
  {
  }

  lemma StepKeeps(core: Core, y: System, step: Step)
    requires Invariant(y) && Allowed(core, y, step)
    ensures Invariant(Apply(core, y, step))
  {
    hide Invariant, Apply, Settled;
    match step
    case Ask(request, disk) => AskKeeps(core, y, request, disk);
    case JobSends(event) => JobKeeps(core, y, event);
    case WorkerSends(id, event) => SendKeeps(core, y, id, event);
    case Drain(disk) => DrainKeeps(core, y, disk);
  }

  // ---- one worker at a time ----

  /** In every reachable state at most one worker is live; the stop flag is its own, raised exactly
      when a stop was requested since its start; and a further start is refused from the moment its
      `Starting` has been applied until its terminal event has. */
  lemma SingleLiveWorker(core: Core, config: Config, bootStatus: string, steps: seq<Step>, disk: Option<string>)
    requires AllAllowed(core, Initial(core, config, bootStatus), steps)
    ensures var y := RunSteps(core, Initial(core, config, bootStatus), steps);
            && |y.live| <= 1
            && (forall id :: id in y.live ==> y.o.s.stopFlag == Some(id) && (id in y.o.s.raised <==> y.asked))
            && (Settled(y) && (y.live != {} || RunEvents(y.queue) != []) ==>
                  RequestPlan(core, y.o.s, StartRepublisher, disk).reply.Conflict?)
  {
    hide RunSteps, RequestPlan;
    RunKeepsInvariant(core, config, bootStatus, steps);
    var y := RunSteps(core, Initial(core, config, bootStatus), steps);
    if Settled(y) { SettledPhase(y); }
    RefusedWhileActive(core, y.o.s, disk);
  }

  /** While that discipline is kept, a start is refused as a conflict exactly while a worker is live
      or one of its events is still in the channel. */
  lemma RefusedIffRunning(core: Core, config: Config, bootStatus: string, steps: seq<Step>, disk: Option<string>)
    requires AllAllowed(core, Initial(core, config, bootStatus), steps)
    requires Settled(RunSteps(core, Initial(core, config, bootStatus), steps))
    ensures var y := RunSteps(core, Initial(core, config, bootStatus), steps);
            RequestPlan(core, y.o.s, StartRepublisher, disk).reply.Conflict? <==>
            y.live != {} || RunEvents(y.queue) != []
  {
    hide RunSteps, RequestPlan, IsActive, Counted, FlagsOk;
    RunKeepsInvariant(core, config, bootStatus, steps);
    var y := RunSteps(core, Initial(core, config, bootStatus), steps);
    SettledPhase(y);
    RefusedWhileActive(core, y.o.s, disk);
  }

  /** The guard looks at the applied lifecycle only, so the discipline is needed: with a valid
      configuration a further start brings up a second worker exactly when a worker is live
      whose `Starting` has not been applied. */
  lemma SecondWorkerIff(core: Core, config: Config, bootStatus: string, steps: seq<Step>, disk: Option<string>)
    requires AllAllowed(core, Initial(core, config, bootStatus), steps)
    requires var s := RunSteps(core, Initial(core, config, bootStatus), steps).o.s;
             (core.validate)(s.config).None? && s.config.protocol in core.registry
    ensures var y := RunSteps(core, Initial(core, config, bootStatus), steps);
            |Apply(core, y, Ask(StartRepublisher, disk)).live| == 2 <==> (y.live != {} && !Settled(y))
  {
    hide RunSteps, RequestPlan, Next;
    RunKeepsInvariant(core, config, bootStatus, steps);
    var y := RunSteps(core, Initial(core, config, bootStatus), steps);
    StartingQueued(y.queue);
    RefusedWhileActive(core, y.o.s, disk);
    assert y.o.s.flags !in y.live;
  }

  /** Two start requests in a row, with nothing applied in between, run two workers. */
  lemma HastyStartsRunTwo(core: Core, config: Config, bootStatus: string, disk: Option<string>)
    requires (core.validate)(config).None? && config.protocol in core.registry
    ensures var start := Ask(StartRepublisher, disk);
            |RunSteps(core, Initial(core, config, bootStatus), [start, start]).live| == 2
  {
    hide RequestPlan, Next;
    var start := Ask(StartRepublisher, disk);
    var y0 := Initial(core, config, bootStatus);
    RefusedWhileActive(core, y0.o.s, disk);
    AskFrame(core, y0.o, StartRepublisher, disk);
    StartFrame(core, y0.o, disk);
    var y1 := Apply(core, y0, start);
    RefusedWhileActive(core, y1.o.s, disk);
    assert [start, start][..1] == [start] && [start][..0] == [];
    assert RunSteps(core, y0, [start]) == y1;
    assert y0.o.s.flags in y1.live && y1.o.s.flags == y0.o.s.flags + 1;
  }

  // ---- counters ----

  /** Every report of the worker counts no more acknowledgements than it has published so far. */
  predicate Honest(reports: seq<WorkerEvent>) {
    AllReports(reports) &&
    forall i :: 0 <= i < |reports| ==> reports[i].acked <= Sum(reports[..i + 1])
  }

  lemma {:induction false} HonestBound(reports: seq<WorkerEvent>)
    requires Honest(reports)
    ensures MaxAcked(reports) <= Sum(reports)
  {
    if reports != [] {
      var n := |reports| - 1;
      assert reports[..n + 1] == reports;
      forall i | 0 <= i < n ensures reports[..n][i].acked <= Sum(reports[..n][..i + 1]) {
        assert reports[..n][..i + 1] == reports[..i + 1];
      }
      HonestBound(reports[..n]);
    }
  }

  /** In every reachable state the counters belong to the current run alone: the sum of published,
      the largest acknowledged total and the latest error of its applied reports. If its reports
      are honest, the acknowledged total never exceeds the published total. */
  lemma CountersOfTheRun(core: Core, config: Config, bootStatus: string, steps: seq<Step>)
    requires AllAllowed(core, Initial(core, config, bootStatus), steps)
    ensures var y := RunSteps(core, Initial(core, config, bootStatus), steps);
            && AllReports(y.drained) && y.drained <= y.reported
            && y.o.s.publishedTotal == Sum(y.drained)
            && y.o.s.ackedTotal == MaxAcked(y.drained)
            && y.o.s.lastError == LatestError(y.drained)
            && (Honest(y.reported) ==> y.o.s.ackedTotal <= y.o.s.publishedTotal)
  {
    hide RunSteps;
    RunKeepsInvariant(core, config, bootStatus, steps);
    var y := RunSteps(core, Initial(core, config, bootStatus), steps);
    if Honest(y.reported) {
      forall i | 0 <= i < |y.drained| ensures y.drained[i].acked <= Sum(y.drained[..i + 1]) {
        assert y.drained[..i + 1] == y.reported[..i + 1];
        assert y.drained[i] == y.reported[i];
      }
      HonestBound(y.drained);
    }
  }
}
