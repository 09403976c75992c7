/** A second account of every event and request, by what can be seen of it: the lists and the status
    line it leaves, what it says and tells in order, and the reply. Reports on points, whose account
    is in module Reports, and the fields of a run, in module Workers, are left to those. */
module Accounts {
  import opened Text
  import opened Model
  import opened Server
  import opened PointList
  import opened Replies
  import opened Views
  import Coercion
  import Points
  import Replication
  import Settings

  datatype Subject = Devices | Browsed | Progress | Points | Samples | Statuses | Stats | Run | Configuration

  /** A delta either says a log record, which may set the status line, or tells of a part of the state. */
  datatype Note =
    | Says(level: string, message: string, line: Option<string>)
    | Tells(subject: Subject)

  function NoteOf(d: Delta): Note {
    match d
    case LogDelta(record, line) => Says(record.level, record.message, line)
    case DevicesDelta(_) => Tells(Devices)
    case BrowsedDelta(_) => Tells(Browsed)
    case ProgressDelta(_, _) => Tells(Progress)
    case PointsDelta(_) => Tells(Subject.Points)
    case SamplesDelta(_, _) => Tells(Samples)
    case StatusesDelta(_) => Tells(Subject.Statuses)
    case StatsDelta(_, _, _) => Tells(Stats)
    case LifecycleDelta(_) => Tells(Run)
    case ConfigDelta(_) => Tells(Configuration)
  }

  function Notes(deltas: seq<Delta>): (notes: seq<Note>)
    ensures |notes| == |deltas|
  {
    seq(|deltas|, i requires 0 <= i < |deltas| => NoteOf(deltas[i]))
  }

  datatype Account = Account(
    devices: seq<Device>, browsed: seq<DiscoveredPoint>, progress: Option<(nat, nat)>,
    statuses: Model.Statuses, samples: seq<SampleDto>, line: string, notes: seq<Note>)

  function AccountOf(o: Out): Account {
    Account(o.s.devices, o.s.browsed, o.s.scanProgress, o.s.statuses, o.s.recentSamples, o.s.statusLine,
            Notes(Deltas(o.trace)))
  }

  // ---- one operation ----

  predicate OnPoints(op: Op) {
    op.TakeSamples? || op.TakeReports?
  }

  function Noted(a: Account, note: Note): Account {
    a.(notes := a.notes + [note])
  }

  function Enter(a: Account, op: Op): Account
    requires !OnPoints(op)
  {
    match op
    case Log(level, message) => Noted(a, Says(LevelText(level), message, None))
    case Status(level, message) => Noted(a.(line := message), Says(LevelText(level), message, Some(message)))
    case SetDevices(devices) => a.(devices := devices)
    case SetBrowsed(browsed) => a.(browsed := browsed)
    case SetProgress(progress) => a.(progress := progress)
    case ClearStatuses => a.(statuses := map[])
    case EmitDevices => Noted(a, Tells(Devices))
    case EmitBrowsed => Noted(a, Tells(Browsed))
    case EmitProgress => if a.progress.Some? then Noted(a, Tells(Progress)) else a
    case EmitConfig => Noted(a, Tells(Configuration))
    case EmitPoints => Noted(a, Tells(Subject.Points))
    case TakeStats(_, _, _) => Noted(a, Tells(Stats))
    case SetLifecycle(_) => Noted(a, Tells(Run))
    case _ => a
  }

  lemma NotesGrow(trace: seq<Item>, items: seq<Item>)
    requires |items| <= 1
    ensures Notes(Deltas(trace + items)) ==
            Notes(Deltas(trace)) + (if items != [] && items[0].Sent? then [NoteOf(items[0].delta)] else [])
  {
    hide NoteOf;
    if items == [] {
      assert trace + items == trace;
    } else {
      assert items == [items[0]];
      Replication.DeltasAppend(trace, items[0]);
    }
  }

  lemma DoEnters(core: Core, o: Out, op: Op)
    requires !OnPoints(op)
    ensures AccountOf(Do(core, o, op)) == Enter(AccountOf(o), op)
  {
    hide PointViews, DeviceViews, BrowsedViews, LastN, Changed, Redact, LifecycleView, LevelText, Deltas, Notes;
    var items := Effect(core, o.s, op).1;
    NotesGrow(o.trace, items);
    var notes := Notes(Deltas(o.trace));
    assert notes + [] == notes;
  }

  function EnterAll(a: Account, ops: seq<Op>): Account
    requires forall i :: 0 <= i < |ops| ==> !OnPoints(ops[i])
  {
    if ops == [] then a else Enter(EnterAll(a, ops[..|ops| - 1]), ops[|ops| - 1])
  }

  lemma {:induction false} DoAllEnters(core: Core, o: Out, ops: seq<Op>)
    requires forall i :: 0 <= i < |ops| ==> !OnPoints(ops[i])
    ensures AccountOf(DoAll(core, o, ops)) == EnterAll(AccountOf(o), ops)
  {
    hide Do, AccountOf, Enter, OnPoints;
    if ops != [] {
      var n := |ops| - 1;
      DoAllEnters(core, o, ops[..n]);
      DoEnters(core, DoAll(core, o, ops[..n]), ops[n]);
    }
  }

  /** Up to six operations, one after the other. */
  function EnterSix(a: Account, ops: seq<Op>): Account
    requires |ops| <= 6 && forall i :: 0 <= i < |ops| ==> !OnPoints(ops[i])
  {
    var a1 := if |ops| > 0 then Enter(a, ops[0]) else a;
    var a2 := if |ops| > 1 then Enter(a1, ops[1]) else a1;
    var a3 := if |ops| > 2 then Enter(a2, ops[2]) else a2;
    var a4 := if |ops| > 3 then Enter(a3, ops[3]) else a3;
    var a5 := if |ops| > 4 then Enter(a4, ops[4]) else a4;
    if |ops| > 5 then Enter(a5, ops[5]) else a5
  }

  lemma EntersSix(a: Account, ops: seq<Op>)
    requires |ops| <= 6 && forall i :: 0 <= i < |ops| ==> !OnPoints(ops[i])
    ensures EnterAll(a, ops) == EnterSix(a, ops)
  {
    hide Enter, OnPoints;
    if ops != [] { EntersSix(a, ops[..|ops| - 1]); }
  }

  lemma SixEnter(core: Core, o: Out, ops: seq<Op>)
    requires |ops| <= 6 && forall i :: 0 <= i < |ops| ==> !OnPoints(ops[i])
    ensures AccountOf(DoAll(core, o, ops)) == EnterSix(AccountOf(o), ops)
  {
    hide Enter, OnPoints, AccountOf, DoAll, EnterAll, EnterSix;
    DoAllEnters(core, o, ops);
    EntersSix(AccountOf(o), ops);
  }

  lemma OneEnters(core: Core, o: Out, op: Op)
    requires !OnPoints(op)
    ensures AccountOf(DoAll(core, o, [op])) == Enter(AccountOf(o), op)
  {
    hide AccountOf, Enter, DoAll, OnPoints;
    SixEnter(core, o, [op]);
  }

  lemma TwoEnter(core: Core, o: Out, op1: Op, op2: Op)
    requires !OnPoints(op1) && !OnPoints(op2)
    ensures AccountOf(DoAll(core, o, [op1, op2])) == Enter(Enter(AccountOf(o), op1), op2)
  {
    hide AccountOf, Enter, DoAll, OnPoints;
    SixEnter(core, o, [op1, op2]);
  }

  lemma ThreeEnter(core: Core, o: Out, op1: Op, op2: Op, op3: Op)
    requires !OnPoints(op1) && !OnPoints(op2) && !OnPoints(op3)
    ensures AccountOf(DoAll(core, o, [op1, op2, op3])) == Enter(Enter(Enter(AccountOf(o), op1), op2), op3)
  {
    hide AccountOf, Enter, DoAll, OnPoints;
    SixEnter(core, o, [op1, op2, op3]);
  }

  // ---- events ----

  /** A record that is only logged, and one that also becomes the status line. */
  function Said(level: string, message: string): Note {
    Says(level, message, None)
  }

  function Stated(level: string, message: string): Note {
    Says(level, message, Some(message))
  }

  function StatedIn(a: Account, level: string, message: string): Account {
    Noted(a.(line := message), Stated(level, message))
  }

  function AndNotes(a: Account, notes: seq<Note>): Account {
    a.(notes := a.notes + notes)
  }

  function WarningNotes(warnings: seq<string>): seq<Note> {
    seq(|warnings|, i requires 0 <= i < |warnings| => Said("warning", warnings[i]))
  }

  /** What a save states: the reason a configuration is invalid, or the disk's error, or success. */
  function SaveNote(core: Core, config: Config, disk: Option<string>): Note {
    match ((core.validate)(config), disk)
    case (Some(reason), _) => Stated("error", "Config invalid: " + reason)
    case (None, Some(error)) => Stated("error", "Save failed: " + error)
    case (None, None) => Stated("info", "Configuration saved")
  }

  function ImportReport(added: nat, updated: nat): string {
    "Bulk import: " + Decimal(added) + " added, " + Decimal(updated) + " updated"
  }

  predicate ReportsOnPoints(event: WorkerEvent) {
    event.SamplesEvent? || event.FailuresEvent? || event.PointPublish?
  }

  function EventAccount(core: Core, a: Account, event: WorkerEvent, disk: Option<string>, after: Config): Account
    requires !ReportsOnPoints(event)
  {
    match event
    case LogEvent(Info, message) => Noted(a, Said("info", message))
    case LogEvent(Warning, message) => Noted(a, Said("warning", message))
    case LogEvent(Error, message) => Noted(a, Said("error", message))
    case DevicesEvent(devices, warnings) =>
      Noted(AndNotes(a.(devices := devices), WarningNotes(warnings)), Tells(Devices))
    case PointsEvent(found) => Noted(a.(browsed := found), Tells(Browsed))
    case ScanProgressEvent(current, total) => Noted(a.(progress := Some((current, total))), Tells(Progress))
    case BulkTagImport(_, added, updated) =>
      Noted(StatedIn(Noted(a.(progress := None), SaveNote(core, after, disk)), "info", ImportReport(added, updated)),
            Tells(Subject.Points))
    case PublishStatus(_, _, _) => Noted(a, Tells(Stats))
    case LifecycleEvent(Failed(error)) => Noted(Noted(a, Said("error", "Republisher failed: " + error)), Tells(Run))
    case LifecycleEvent(_) => Noted(a, Tells(Run))
    case Finished(message) => Noted(a, Said("info", message))
  }

  lemma {:induction false} WarningsEnter(a: Account, warnings: seq<string>)
    ensures forall i :: 0 <= i < |Warnings(warnings)| ==> !OnPoints(Warnings(warnings)[i])
    ensures EnterAll(a, Warnings(warnings)) == AndNotes(a, WarningNotes(warnings))
  {
    if warnings == [] {
      assert a.notes + [] == a.notes;
    } else {
      var n := |warnings| - 1;
      assert Warnings(warnings)[..n] == Warnings(warnings[..n]);
      WarningsEnter(a, warnings[..n]);
      assert WarningNotes(warnings) == WarningNotes(warnings[..n]) + [Said("warning", warnings[n])];
      assert a.notes + WarningNotes(warnings[..n]) + [Said("warning", warnings[n])] ==
             a.notes + (WarningNotes(warnings[..n]) + [Said("warning", warnings[n])]);
    }
  }

  lemma DevicesAccount(core: Core, o: Out, devices: seq<Device>, warnings: seq<string>)
    ensures AccountOf(DoAll(core, o, [SetDevices(devices)] + Warnings(warnings) + [EmitDevices])) ==
            Noted(AndNotes(AccountOf(o).(devices := devices), WarningNotes(warnings)), Tells(Devices))
  {
    hide Do, Deltas, Notes, WarningNotes, Warnings;
    var first, middle := [SetDevices(devices)], Warnings(warnings);
    DoAllConcat(core, o, first, middle);
    DoAllAppend(core, o, first + middle, EmitDevices);
    SixEnter(core, o, first);
    var o1 := DoAll(core, o, first);
    WarningsEnter(AccountOf(o1), warnings);
    DoAllEnters(core, o1, middle);
    DoEnters(core, DoAll(core, o1, middle), EmitDevices);
  }

  lemma ImportAccount(core: Core, o: Out, event: WorkerEvent, disk: Option<string>)
    requires event.BulkTagImport?
    ensures var after := Next(core, o, Worker(event, disk));
            AccountOf(after) == EventAccount(core, AccountOf(o), event, disk, after.s.config)
  {
    hide AccountOf, DoAll, Decimal, SaveNote;
    WorkerConfig(core, o, event, disk);
    SaveNoteIs(core, o.s.config.(points := event.imported), disk);
    SixEnter(core, o, WorkerOps(core, o.s, event, disk));
  }

  lemma LogAccount(core: Core, o: Out, event: WorkerEvent, disk: Option<string>)
    requires event.LogEvent? || event.Finished? || event.PublishStatus? || event.LifecycleEvent?
    ensures var after := Next(core, o, Worker(event, disk));
            AccountOf(after) == EventAccount(core, AccountOf(o), event, disk, after.s.config)
  {
    hide AccountOf, DoAll;
    var ops := WorkerOps(core, o.s, event, disk);
    if event.LifecycleEvent? && event.lifecycle.Failed? {
      TwoEnter(core, o, ops[0], ops[1]);
      assert ops == [ops[0], ops[1]];
    } else {
      OneEnters(core, o, ops[0]);
      assert ops == [ops[0]];
    }
  }

  lemma ScanEventAccount(core: Core, o: Out, event: WorkerEvent, disk: Option<string>)
    requires event.PointsEvent? || event.ScanProgressEvent?
    ensures var after := Next(core, o, Worker(event, disk));
            AccountOf(after) == EventAccount(core, AccountOf(o), event, disk, after.s.config)
  {
    hide AccountOf, DoAll;
    var ops := WorkerOps(core, o.s, event, disk);
    TwoEnter(core, o, ops[0], ops[1]);
    assert ops == [ops[0], ops[1]];
  }

  /** Every event but the reports on points: what it replaces, states, logs and tells, in its order. */
  lemma EventsAccount(core: Core, o: Out, event: WorkerEvent, disk: Option<string>)
    requires !ReportsOnPoints(event)
    ensures var after := Next(core, o, Worker(event, disk));
            AccountOf(after) == EventAccount(core, AccountOf(o), event, disk, after.s.config)
  {
    if event.DevicesEvent? {
      hide AccountOf, DoAll, Warnings, WarningNotes;
      DevicesAccount(core, o, event.devices, event.warnings);
    } else if event.BulkTagImport? {
      hide *;
      ImportAccount(core, o, event, disk);
    } else if event.PointsEvent? || event.ScanProgressEvent? {
      hide *;
      ScanEventAccount(core, o, event, disk);
    } else {
      hide AccountOf, Next, EventAccount;
      LogAccount(core, o, event, disk);
    }
  }

  // ---- requests ----

  predicate Known(core: Core, protocol: string) {
    exists i :: 0 <= i < |core.capabilities| && core.capabilities[i].id == protocol
  }

  lemma KnownIs(core: Core, protocol: string)
    ensures Known(core, protocol) <==> FindCapabilities(core.capabilities, protocol).Some?
  {
    FoundNone(core.capabilities, protocol);
  }

  /** Why a request is refused before anything is edited or saved, if it is. */
  function Refusal(core: Core, s: Shared, request: Request): Option<Reply> {
    var unselected := Some(BadRequest("no protocol selected"));
    match request
    case SetProtocol(id) => if Known(core, id) then None else Some(BadRequest("unknown protocol '" + id + "'"))
    case SetConnection(_) => if Known(core, s.config.protocol) then None else unselected
    case Discover => if s.config.protocol in core.registry then None else unselected
    case PollOnce => if s.config.protocol in core.registry then None else unselected
    case BrowseDevice(i) =>
      if i >= |s.devices| then Some(NotFound("no such discovered device"))
      else if s.config.protocol in core.registry then None else unselected
    case ScanAll =>
      if s.devices == [] then Some(BadRequest("discover devices before scan-all"))
      else if s.config.protocol in core.registry then None else unselected
    case SavePoint(req) =>
      if !Known(core, s.config.protocol) then Some(BadRequest("select a protocol first"))
      else if req.index.Some? && req.index.value >= |s.config.points| then Some(NotFound("no such point")) else None
    case TogglePoint(i, _) => if i >= |s.config.points| then Some(NotFound("no such point")) else None
    case DeletePoint(i) => if i >= |s.config.points| then Some(NotFound("no such point")) else None
    case AddBrowsedPoint(i) => if i >= |s.browsed| then Some(NotFound("no such browsed point")) else None
    case StartRepublisher =>
      if s.lifecycle == Starting || s.lifecycle == Running || s.lifecycle == Stopping
      then Some(Conflict("republisher is already running"))
      else if (core.validate)(s.config).Some? then Some(BadRequest("Cannot start: " + (core.validate)(s.config).value))
      else if s.config.protocol in core.registry then None else unselected
    case _ => None
  }

  /** A refused request: two of the refusals are also stated. */
  function RefusedAccount(core: Core, s: Shared, a: Account, request: Request, refusal: Reply): Account {
    if request.ScanAll? && s.devices == [] then StatedIn(a, "warning", "Discover devices before scan-all")
    else if request.StartRepublisher? && refusal.BadRequest? && (core.validate)(s.config).Some?
    then StatedIn(a, "error", refusal.message)
    else a
  }

  /** A request that saves: what the save states, then, if it worked, the rest. */
  function SavingAccount(core: Core, s: Shared, a: Account, request: Request, disk: Option<string>,
                         after: Config): Account {
    var note := SaveNote(core, after, disk);
    var cleared := if request.ClearPoints? then a.(statuses := map[]) else a;
    var saved := Noted(cleared.(line := note.message), note);
    if note.level == "error" then saved
    else if request.SetConnection? || request.PutSettings? then Noted(saved, Tells(Configuration))
    else if request.ClearPoints? then
      Noted(StatedIn(saved, "info", "Cleared " + Decimal(|s.config.points|) + " configured point(s)."),
            Tells(Subject.Points))
    else if request.AddBrowsedPoint? then
      Noted(StatedIn(saved, "info", "Added point from browse"), Tells(Subject.Points))
    else Noted(saved, Tells(Subject.Points))
  }

  function PlainAccount(s: Shared, a: Account, request: Request): Account {
    match request
    case GetInterfaces(count) => StatedIn(a, "info", "Refreshed " + Decimal(count) + " network interface(s)")
    case SetProtocol(_) =>
      Noted(Noted(Noted(a.(devices := [], browsed := []), Tells(Configuration)), Tells(Devices)), Tells(Browsed))
    case Discover => Noted(StatedIn(a.(devices := []), "info", "Discovering…"), Tells(Devices))
    case BrowseDevice(i) =>
      if i >= |s.devices| then a
      else Noted(StatedIn(a.(browsed := []), "info", "Browsing " + s.devices[i].key + "…"), Tells(Browsed))
    case ScanAll =>
      Noted(StatedIn(a.(progress := Some((0, |s.devices|))), "info", "Scanning all objects…"), Tells(Progress))
    case PollOnce => StatedIn(a, "info", "Polling once…")
    case StartRepublisher => StatedIn(a, "info", "Republisher starting…")
    case StopRepublisher => if s.stopFlag.Some? then StatedIn(a, "info", "Stopping republisher…") else a
    case _ => a
  }

  function RequestAccount(core: Core, s: Shared, a: Account, request: Request, disk: Option<string>,
                          after: Config): Account {
    match Refusal(core, s, request)
    case Some(refusal) => RefusedAccount(core, s, a, request, refusal)
    case None => if Saves(request) then SavingAccount(core, s, a, request, disk, after) else PlainAccount(s, a, request)
  }

  /** The reply: the refusal if there is one, else the save's message if it failed, else acceptance. */
  function ReplyTo(core: Core, s: Shared, request: Request, disk: Option<string>, after: Config): Reply {
    var note := SaveNote(core, after, disk);
    if Refusal(core, s, request).Some? then Refusal(core, s, request).value
    else if Saves(request) && note.level == "error" then BadRequest(note.message)
    else if request.ClearPoints? then Removed(|s.config.points|)
    else Ok
  }

  /** The daemon's account and reply are the expected ones. */
  predicate Accounted(core: Core, o: Out, request: Request, disk: Option<string>) {
    var after := Next(core, o, Http(request, disk));
    && AccountOf(after) == RequestAccount(core, o.s, AccountOf(o), request, disk, after.s.config)
    && RequestPlan(core, o.s, request, disk).reply == ReplyTo(core, o.s, request, disk, after.s.config)
  }

  lemma NoOps(core: Core, o: Out)
    ensures DoAll(core, o, []) == o
  {
  }

  lemma Known1(core: Core, s: Shared, request: Request)
    ensures Known(core, s.config.protocol) <==> FindCapabilities(core.capabilities, s.config.protocol).Some?
    ensures request.SetProtocol? ==>
              (Known(core, request.id) <==> FindCapabilities(core.capabilities, request.id).Some?)
  {
    KnownIs(core, s.config.protocol);
    if request.SetProtocol? { KnownIs(core, request.id); }
  }

  /** The operations of a refused request: at most that the refusal is stated. */
  function RefusedPlan(core: Core, s: Shared, request: Request, refusal: Reply): seq<Op> {
    if request.ScanAll? && s.devices == [] then [Status(Level.Warning, "Discover devices before scan-all")]
    else if request.StartRepublisher? && refusal.BadRequest? && (core.validate)(s.config).Some?
    then [Status(Level.Error, refusal.message)]
    else []
  }

  lemma RefusedSave(core: Core, s: Shared, request: Request, disk: Option<string>)
    requires Saves(request) && Refusal(core, s, request).Some?
    ensures var refusal := Refusal(core, s, request).value;
            RequestPlan(core, s, request, disk) == Plan(RefusedPlan(core, s, request, refusal), refusal)
  {
    hide Decimal, SavePlan, PointsPlan, FindCapabilities, Known, Coercion.Built, Settings.Put, Points.Upsert,
         RequestedPoint, WithPoints;
    Known1(core, s, request);
  }

  lemma RefusedOther(core: Core, s: Shared, request: Request, disk: Option<string>)
    requires !Saves(request) && Refusal(core, s, request).Some?
    ensures var refusal := Refusal(core, s, request).value;
            RequestPlan(core, s, request, disk) == Plan(RefusedPlan(core, s, request, refusal), refusal)
  {
    hide Decimal, FindCapabilities, Known;
    Known1(core, s, request);
  }

  lemma RefusedOps(core: Core, s: Shared, request: Request, disk: Option<string>)
    requires Refusal(core, s, request).Some?
    ensures var refusal := Refusal(core, s, request).value;
            RequestPlan(core, s, request, disk) == Plan(RefusedPlan(core, s, request, refusal), refusal)
  {
    hide RequestPlan, Refusal, RefusedPlan;
    if Saves(request) { RefusedSave(core, s, request, disk); } else { RefusedOther(core, s, request, disk); }
  }

  lemma RefusalAccount(core: Core, o: Out, request: Request, disk: Option<string>)
    requires Refusal(core, o.s, request).Some?
    ensures Accounted(core, o, request, disk)
  {
    hide AccountOf, DoAll, Refusal, RequestPlan, SaveNote, SavingAccount, PlainAccount, Effect;
    RefusedOps(core, o.s, request, disk);
    NoOps(core, o);
    var ops := RequestPlan(core, o.s, request, disk).ops;
    if ops != [] { OneEnters(core, o, ops[0]); }
  }

  lemma ListOps(core: Core, s: Shared, request: Request, disk: Option<string>)
    requires request.Discover? || request.BrowseDevice? || request.ScanAll?
    requires Refusal(core, s, request).None?
    ensures var plan := RequestPlan(core, s, request, disk);
            && plan.reply == Ok
            && (request.Discover? ==> plan.ops == [SetDevices([]), Status(Info, "Discovering…"), EmitDevices])
            && (request.BrowseDevice? ==>
                  request.device < |s.devices| &&
                  plan.ops == [SetBrowsed([]), Status(Info, "Browsing " + s.devices[request.device].key + "…"),
                               EmitBrowsed])
            && (request.ScanAll? ==>
                  plan.ops == [SetProgress(Some((0, |s.devices|))), Status(Info, "Scanning all objects…"), EmitProgress])
  {
    hide SavePlan, PointsPlan, FindCapabilities, Known, Decimal;
  }

  /** The accounts of the operations of a list request, without the daemon around them. */
  lemma ListEnters(s: Shared, a: Account, request: Request)
    ensures request.Discover? ==>
              Enter(Enter(Enter(a, SetDevices([])), Status(Info, "Discovering…")), EmitDevices)
              == PlainAccount(s, a, request)
    ensures request.BrowseDevice? && request.device < |s.devices| ==>
              Enter(Enter(Enter(a, SetBrowsed([])), Status(Info, "Browsing " + s.devices[request.device].key + "…")),
                    EmitBrowsed) == PlainAccount(s, a, request)
    ensures request.ScanAll? ==>
              Enter(Enter(Enter(a, SetProgress(Some((0, |s.devices|)))), Status(Info, "Scanning all objects…")),
                    EmitProgress) == PlainAccount(s, a, request)
  {
  }

  /** Requests about the lists of devices and browsed points. */
  lemma ListAccount(core: Core, o: Out, request: Request, disk: Option<string>)
    requires request.Discover? || request.BrowseDevice? || request.ScanAll?
    requires Refusal(core, o.s, request).None?
    ensures Accounted(core, o, request, disk)
  {
    hide AccountOf, DoAll, RequestPlan, Refusal, SaveNote, Decimal, SavingAccount, PlainAccount, RefusedAccount,
         Effect, Enter;
    ListOps(core, o.s, request, disk);
    ListEnters(o.s, AccountOf(o), request);
    var ops := RequestPlan(core, o.s, request, disk).ops;
    ThreeEnter(core, o, ops[0], ops[1], ops[2]);
  }

  lemma SwitchAccount(core: Core, o: Out, request: Request, disk: Option<string>)
    requires request.SetProtocol? && Refusal(core, o.s, request).None?
    ensures Accounted(core, o, request, disk)
  {
    hide AccountOf, DoAll, SavePlan, PointsPlan, FindCapabilities, Known, SaveNote, Decimal;
    Known1(core, o.s, request);
    SixEnter(core, o, RequestPlan(core, o.s, request, disk).ops);
  }

  lemma RunOps(core: Core, s: Shared, request: Request, disk: Option<string>)
    requires request.GetInterfaces? || request.PollOnce? || request.StartRepublisher? || request.StopRepublisher?
    requires Refusal(core, s, request).None?
    ensures var plan := RequestPlan(core, s, request, disk);
            && plan.reply == Ok
            && (request.GetInterfaces? ==>
                  plan.ops == [Status(Info, "Refreshed " + Decimal(request.count) + " network interface(s)")])
            && (request.PollOnce? ==> plan.ops == [Status(Info, "Polling once…")])
            && (request.StartRepublisher? ==> plan.ops == [Launch, Status(Info, "Republisher starting…")])
            && (request.StopRepublisher? ==>
                  plan.ops == if s.stopFlag.Some? then [RaiseStop, Status(Info, "Stopping republisher…")] else [])
  {
    hide SavePlan, PointsPlan, FindCapabilities, Known, Decimal;
  }

  lemma RunEnters(s: Shared, a: Account, request: Request)
    ensures request.GetInterfaces? ==>
              Enter(a, Status(Info, "Refreshed " + Decimal(request.count) + " network interface(s)"))
              == PlainAccount(s, a, request)
    ensures request.PollOnce? ==> Enter(a, Status(Info, "Polling once…")) == PlainAccount(s, a, request)
    ensures request.StartRepublisher? ==>
              Enter(Enter(a, Launch), Status(Info, "Republisher starting…")) == PlainAccount(s, a, request)
    ensures request.StopRepublisher? && s.stopFlag.Some? ==>
              Enter(Enter(a, RaiseStop), Status(Info, "Stopping republisher…")) == PlainAccount(s, a, request)
    ensures request.StopRepublisher? && s.stopFlag.None? ==> a == PlainAccount(s, a, request)
  {
    hide Decimal;
  }

  /** Requests about the run, and those that only say something. */
  lemma RunAccount(core: Core, o: Out, request: Request, disk: Option<string>)
    requires request.GetInterfaces? || request.PollOnce? || request.StartRepublisher? || request.StopRepublisher?
    requires Refusal(core, o.s, request).None?
    ensures Accounted(core, o, request, disk)
  {
    hide AccountOf, DoAll, RequestPlan, Refusal, SaveNote, Decimal, SavingAccount, PlainAccount, RefusedAccount,
         Effect, Enter;
    RunOps(core, o.s, request, disk);
    RunEnters(o.s, AccountOf(o), request);
    NoOps(core, o);
    var ops := RequestPlan(core, o.s, request, disk).ops;
    if |ops| == 1 { OneEnters(core, o, ops[0]); }
    if |ops| == 2 { TwoEnter(core, o, ops[0], ops[1]); }
  }

  // ---- requests that save ----

  lemma SaveNoteIs(core: Core, config: Config, disk: Option<string>)
    ensures var note, op := SaveNote(core, config, disk), SaveOp(core, config, disk);
            && op.Status? && note == Stated(LevelText(op.level), op.message)
            && (note.level == "error" <==> SaveError(core, config, disk).Some?)
            && (SaveError(core, config, disk).Some? ==> SaveError(core, config, disk).value == note.message)
  {
    assert "error"[0] != "info"[0];
  }

  /** An edit, its save, and what follows it. */
  lemma SavePlanAccount(core: Core, o: Out, config: Config, disk: Option<string>, edit: seq<Op>, after: seq<Op>,
                        reply: Reply)
    requires |edit| <= 2 && |after| <= 2
    requires forall i :: 0 <= i < |edit| ==> !OnPoints(edit[i])
    requires forall i :: 0 <= i < |after| ==> !OnPoints(after[i])
    ensures var plan, note := SavePlan(core, config, disk, edit, after, reply), SaveNote(core, config, disk);
            var edited := EnterSix(AccountOf(o), edit);
            var saved := Noted(edited.(line := note.message), note);
            && AccountOf(DoAll(core, o, plan.ops)) == (if note.level == "error" then saved else EnterSix(saved, after))
            && plan.reply == if note.level == "error" then BadRequest(note.message) else reply
  {
    hide Do, AccountOf, SaveNote, SaveError, LevelText, Deltas, Notes, EnterSix;
    var op := SaveOp(core, config, disk);
    SaveNoteIs(core, config, disk);
    hide SaveOp;
    SixEnter(core, o, edit);
    DoAllAppend(core, o, edit, op);
    DoEnters(core, DoAll(core, o, edit), op);
    if SaveError(core, config, disk).None? {
      DoAllConcat(core, o, edit + [op], after);
      SixEnter(core, DoAll(core, o, edit + [op]), after);
    }
  }

  function EditOps(config: Config, request: Request): seq<Op> {
    if request.ClearPoints? then [Store(config), ClearStatuses] else [Store(config)]
  }

  function AfterOps(s: Shared, request: Request): seq<Op> {
    if request.SetConnection? || request.PutSettings? then [EmitConfig]
    else if request.ClearPoints? then
      [Status(Info, "Cleared " + Decimal(|s.config.points|) + " configured point(s)."), EmitPoints]
    else if request.AddBrowsedPoint? then [Status(Info, "Added point from browse"), EmitPoints]
    else [EmitPoints]
  }

  lemma PointEditPlan(core: Core, s: Shared, request: Request, disk: Option<string>)
    requires request.SavePoint? || request.TogglePoint? || request.DeletePoint? || request.AddBrowsedPoint?
    requires Refusal(core, s, request).None?
    ensures var config := Edited(core, s, request);
            RequestPlan(core, s, request, disk) ==
            SavePlan(core, config, disk, EditOps(config, request), AfterOps(s, request), Ok)
  {
    hide Decimal, SavePlan, FindCapabilities, Known, Coercion.Built, Points.Upsert, RequestedPoint, WithPoints;
    Known1(core, s, request);
  }

  lemma SettingsEditPlan(core: Core, s: Shared, request: Request, disk: Option<string>)
    requires request.SetConnection? || request.ClearPoints? || request.PutSettings?
    requires Refusal(core, s, request).None?
    ensures var config := Edited(core, s, request);
            RequestPlan(core, s, request, disk) ==
            SavePlan(core, config, disk, EditOps(config, request), AfterOps(s, request),
                     if request.ClearPoints? then Removed(|s.config.points|) else Ok)
  {
    hide Decimal, SavePlan, FindCapabilities, Known, Coercion.Built, Settings.Put, WithPoints;
    Known1(core, s, request);
  }

  lemma SavingEnters(core: Core, s: Shared, a: Account, request: Request, disk: Option<string>, config: Config)
    requires Saves(request)
    ensures var note := SaveNote(core, config, disk);
            var saved := Noted(EnterSix(a, EditOps(config, request)).(line := note.message), note);
            SavingAccount(core, s, a, request, disk, config) ==
            if note.level == "error" then saved else EnterSix(saved, AfterOps(s, request))
  {
    hide SaveNote, Decimal;
  }

  lemma SaveAccount(core: Core, o: Out, request: Request, disk: Option<string>)
    requires Saves(request) && Refusal(core, o.s, request).None?
    ensures Accounted(core, o, request, disk)
  {
    hide AccountOf, DoAll, RequestPlan, Refusal, SaveNote, Decimal, SavePlan, SavingAccount, PlainAccount, Edited,
         EnterSix, Effect;
    var config := Edited(core, o.s, request);
    RequestConfig(core, o, request, disk);
    if request.SetConnection? || request.ClearPoints? || request.PutSettings? {
      SettingsEditPlan(core, o.s, request, disk);
    } else {
      PointEditPlan(core, o.s, request, disk);
    }
    SavePlanAccount(core, o, config, disk, EditOps(config, request), AfterOps(o.s, request),
                    if request.ClearPoints? then Removed(|o.s.config.points|) else Ok);
    SavingEnters(core, o.s, AccountOf(o), request, disk, config);
  }

  /** Every request, refused or not: what it leaves, what it states and tells in its order, and what
      it is answered. A failed save states the error that is answered, and nothing after it is done. */
  lemma RequestsAccount(core: Core, o: Out, request: Request, disk: Option<string>)
    ensures var after := Next(core, o, Http(request, disk));
            && AccountOf(after) == RequestAccount(core, o.s, AccountOf(o), request, disk, after.s.config)
            && RequestPlan(core, o.s, request, disk).reply == ReplyTo(core, o.s, request, disk, after.s.config)
  {
    hide AccountOf, Next, RequestAccount, ReplyTo, RequestPlan, Refusal;
    if Refusal(core, o.s, request).Some? {
      RefusalAccount(core, o, request, disk);
    } else if Saves(request) {
      SaveAccount(core, o, request, disk);
    } else if request.SetProtocol? {
      SwitchAccount(core, o, request, disk);
    } else if request.Discover? || request.BrowseDevice? || request.ScanAll? {
      ListAccount(core, o, request, disk);
    } else {
      RunAccount(core, o, request, disk);
    }
  }

  /** The configuration file is written exactly by an import, or by a request of the kinds that save which
      is not refused, when the configuration it leaves is valid and the disk takes it. */
  lemma WrittenWhen(core: Core, o: Out, a: Action)
    ensures Written(core, o.s, a) <==>
            && (core.validate)(Next(core, o, a).s.config).None? && a.disk.None?
            && match a
               case Worker(event, _) => event.BulkTagImport?
               case Http(request, _) => Saves(request) && Refusal(core, o.s, request).None?
  {
    hide Next, Refusal, RequestAccount, RequestPlan;
    EditIs(core, o, a);
    match a
    case Worker(_, _) =>
    case Http(request, disk) =>
      hide EditOf;
      RequestsAccount(core, o, request, disk);
      SaveNoteIs(core, Next(core, o, a).s.config, disk);
      RefusedKinds(core, o.s, request);
      hide SaveNote, SaveOp;
  }

  lemma RefusedKinds(core: Core, s: Shared, request: Request)
    ensures Refusal(core, s, request).Some? ==> !Accepted(Refusal(core, s, request).value)
  {
    hide Known;
  }

  /** The daemon at its start. */
  lemma BootAccount(core: Core, config: Config, bootStatus: string)
    ensures var s := Boot(core, config, bootStatus);
            && s.logs == [LogRecord(1, (core.clock)(1), "info", bootStatus)] && s.logSeq == 1
            && s.statusLine == bootStatus && s.config == config && s.lifecycle == Stopped && s.stopFlag == None
            && s.devices == [] && s.browsed == [] && s.scanProgress == None && s.statuses == map[]
            && s.recentSamples == [] && s.publishedTotal == 0 && s.ackedTotal == 0 && s.lastError == None
  {
  }
}
