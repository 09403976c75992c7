/** What the reply to a request tells its caller, and what the configuration file holds. */
module Replies {
  import opened Text
  import opened Model
  import opened Server
  import opened PointList
  import Coercion
  import Points
  import Settings

  predicate Accepted(reply: Reply) {
    reply.Ok? || reply.Removed?
  }

  /** Everything but the status line and the log. */
  function Content(s: Shared): Shared {
    s.(logs := [], logSeq := 0, statusLine := "")
  }

  predicate OnlySays(op: Op) {
    op.Log? || op.Status?
  }

  lemma {:induction false} SayingKeepsContent(core: Core, o: Out, ops: seq<Op>)
    requires forall i :: 0 <= i < |ops| ==> OnlySays(ops[i])
    ensures Content(DoAll(core, o, ops).s) == Content(o.s)
  {
    hide LastN;
    if ops != [] {
      var n := |ops| - 1;
      assert OnlySays(ops[n]);
      SayingKeepsContent(core, o, ops[..n]);
    }
  }

  /** A missing thing or a running republisher: nothing at all has happened. */
  lemma NotFoundChangesNothing(core: Core, o: Out, request: Request, disk: Option<string>)
    requires var reply := RequestPlan(core, o.s, request, disk).reply; reply.NotFound? || reply.Conflict?
    ensures Next(core, o, Http(request, disk)) == o
  {
    hide Decimal, Coercion.Built, Settings.Put, Points.Upsert, FindCapabilities, SaveError;
  }

  lemma RefusedOps(core: Core, s: Shared, request: Request, disk: Option<string>)
    requires !Saves(request) && !Accepted(RequestPlan(core, s, request, disk).reply)
    ensures var ops := RequestPlan(core, s, request, disk).ops;
            forall i :: 0 <= i < |ops| ==> OnlySays(ops[i])
  {
    hide Decimal, Coercion.Built, Settings.Put, Points.Upsert, FindCapabilities, SavePlan;
  }

  /** A refused request that does not save leaves everything but the status line and the log. */
  lemma RefusedKeepsContent(core: Core, o: Out, request: Request, disk: Option<string>)
    requires !Saves(request) && !Accepted(RequestPlan(core, o.s, request, disk).reply)
    ensures Content(Next(core, o, Http(request, disk)).s) == Content(o.s)
  {
    hide RequestPlan, Content, OnlySays, DoAll;
    RefusedOps(core, o.s, request, disk);
    SayingKeepsContent(core, o, RequestPlan(core, o.s, request, disk).ops);
  }

  lemma PointReply(core: Core, s: Shared, request: Request, disk: Option<string>)
    requires request.SavePoint? || request.TogglePoint? || request.DeletePoint? || request.AddBrowsedPoint?
    ensures var reply := RequestPlan(core, s, request, disk).reply;
            && (Accepted(reply) ==> SaveError(core, Edited(core, s, request), disk).None?)
            && (!Accepted(reply) ==> Edited(core, s, request) == s.config
                                     || SaveError(core, Edited(core, s, request), disk).Some?)
  {
    hide Decimal, Coercion.Built, Points.Upsert, FindCapabilities, SaveError, RequestedPoint, WithPoints;
  }

  lemma SettingsReply(core: Core, s: Shared, request: Request, disk: Option<string>)
    requires request.SetConnection? || request.ClearPoints? || request.PutSettings?
    ensures var reply := RequestPlan(core, s, request, disk).reply;
            && (Accepted(reply) ==> SaveError(core, Edited(core, s, request), disk).None?)
            && (!Accepted(reply) ==> Edited(core, s, request) == s.config
                                     || SaveError(core, Edited(core, s, request), disk).Some?)
  {
    hide Decimal, Coercion.Built, Settings.Put, FindCapabilities, SaveError, WithPoints;
  }

  /** The reply to a request that saves: acceptance means the configuration now in memory is valid
      and has been written; refusal means it is as it was, or that it has changed and not been written. */
  lemma ReplyTellsOfSave(core: Core, o: Out, request: Request, disk: Option<string>)
    requires Saves(request)
    ensures var reply, after := RequestPlan(core, o.s, request, disk).reply, Next(core, o, Http(request, disk)).s;
            && (Accepted(reply) ==> (core.validate)(after.config).None? && disk.None?)
            && (!Accepted(reply) ==> after.config == o.s.config || (core.validate)(after.config).Some? || disk.Some?)
  {
    hide RequestPlan, Edited, Next;
    RequestConfig(core, o, request, disk);
    if request.SetConnection? || request.ClearPoints? || request.PutSettings? {
      SettingsReply(core, o.s, request, disk);
    } else {
      PointReply(core, o.s, request, disk);
    }
  }

  // ---- the configuration file ----

  /** The action's edit of the configuration in memory. */
  function EditOf(core: Core, s: Shared, a: Action): Config {
    match a
    case Worker(event, _) => if event.BulkTagImport? then WithPoints(s, event.imported) else s.config
    case Http(request, _) => Edited(core, s, request)
  }

  predicate Written(core: Core, s: Shared, a: Action) {
    match a
    case Worker(event, disk) => event.BulkTagImport? && SaveError(core, EditOf(core, s, a), disk).None?
    case Http(request, disk) => Saves(request) && Accepted(RequestPlan(core, s, request, disk).reply)
  }

  lemma EditIs(core: Core, o: Out, a: Action)
    ensures Next(core, o, a).s.config == EditOf(core, o.s, a)
  {
    hide Next, Edited;
    match a
    case Worker(event, disk) => WorkerConfig(core, o, event, disk);
    case Http(request, disk) => RequestConfig(core, o, request, disk);
  }

  /** What the file holds after a run, from what it held before: each successful save replaces it.
      At the start it need not hold the configuration in memory, which the environment may have
      overridden. */
  function FileOf(core: Core, o: Out, file: Config, actions: seq<Action>): Config {
    if actions == [] then file
    else
      var n := |actions| - 1;
      var s := Run(core, o, actions[..n]).s;
      if Written(core, s, actions[n]) then (core.persisted)(EditOf(core, s, actions[n]))
      else FileOf(core, o, file, actions[..n])
  }

  /** The run has written the configuration, and made no unwritten edit since. */
  predicate WrittenSince(core: Core, o: Out, actions: seq<Action>) {
    actions != [] &&
    var n := |actions| - 1;
    var s := Run(core, o, actions[..n]).s;
    || Written(core, s, actions[n])
    || (EditOf(core, s, actions[n]) == s.config && WrittenSince(core, o, actions[..n]))
  }

  /** The run has made no edit that it has not written. */
  predicate NoneUnwritten(core: Core, o: Out, actions: seq<Action>) {
    actions == [] ||
    var n := |actions| - 1;
    var s := Run(core, o, actions[..n]).s;
    || Written(core, s, actions[n])
    || (EditOf(core, s, actions[n]) == s.config && NoneUnwritten(core, o, actions[..n]))
  }

  /** Whatever it held at the start, from the first written edit on, and until the next unwritten
      one, the file holds what a save of the configuration in memory puts there. */
  lemma {:induction false} FileFollows(core: Core, o: Out, file: Config, actions: seq<Action>)
    requires WrittenSince(core, o, actions)
    ensures FileOf(core, o, file, actions) == (core.persisted)(Run(core, o, actions).s.config)
  {
    hide Next, RequestPlan, SaveError, Edited, Written;
    var n := |actions| - 1;
    var before := Run(core, o, actions[..n]);
    EditIs(core, before, actions[n]);
    if !Written(core, before.s, actions[n]) { FileFollows(core, o, file, actions[..n]); }
  }

  /** And it does so from a start at which it held that. */
  lemma {:induction false} FileStays(core: Core, o: Out, file: Config, actions: seq<Action>)
    requires file == (core.persisted)(o.s.config) && NoneUnwritten(core, o, actions)
    ensures FileOf(core, o, file, actions) == (core.persisted)(Run(core, o, actions).s.config)
  {
    hide Next, RequestPlan, SaveError, Edited, Written;
    if actions != [] {
      var n := |actions| - 1;
      var before := Run(core, o, actions[..n]);
      EditIs(core, before, actions[n]);
      if !Written(core, before.s, actions[n]) { FileStays(core, o, file, actions[..n]); }
    }
  }

  /** An accepted protocol switch leaves the file as it is: if that was up to date, and a save does
      put the protocol in the file, it falls behind exactly when the protocol changes, and a restart
      comes up with the old one. */
  lemma SwitchIsNotWritten(core: Core, o: Out, file: Config, actions: seq<Action>, id: string, disk: Option<string>)
    requires FileOf(core, o, file, actions) == (core.persisted)(Run(core, o, actions).s.config)
    requires FindCapabilities(core.capabilities, id).Some?
    requires forall c: Config :: (core.persisted)(c).protocol == c.protocol
    ensures var later := actions + [Http(SetProtocol(id), disk)];
            && FileOf(core, o, file, later) == FileOf(core, o, file, actions)
            && (FileOf(core, o, file, later) == (core.persisted)(Run(core, o, later).s.config) <==>
                id == Run(core, o, actions).s.config.protocol)
  {
    hide Next, RequestPlan, SaveError, FindCapabilities;
    var a := Http(SetProtocol(id), disk);
    assert (actions + [a])[..|actions|] == actions;
    var config := Run(core, o, actions).s.config;
    EditIs(core, Run(core, o, actions), a);
    SameProtocol(config);
    assert (core.persisted)(config).protocol == config.protocol;
    assert (core.persisted)(config.(protocol := id)).protocol == id;
  }

  lemma SameProtocol(c: Config)
    ensures c.(protocol := c.protocol) == c
  {
  }
}
