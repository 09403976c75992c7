/** The configured point list over whole runs: when no two points share an identity. */
module PointList {
  import opened Text
  import opened Identity
  import opened Coercion
  import opened Model
  import opened Points
  import opened Server
  import Settings

  // ---- an action's edit of the configuration is its first operation ----

  predicate StoresFirst(ops: seq<Op>) {
    forall i :: 1 <= i < |ops| ==> !ops[i].Store?
  }

  predicate StoresNothing(ops: seq<Op>) {
    forall i :: 0 <= i < |ops| ==> !ops[i].Store?
  }

  function StoredBy(ops: seq<Op>, config: Config): Config {
    if ops != [] && ops[0].Store? then ops[0].config else config
  }

  lemma {:induction false} DoAllConfig(core: Core, o: Out, ops: seq<Op>)
    requires StoresFirst(ops)
    ensures DoAll(core, o, ops).s.config == StoredBy(ops, o.s.config)
  {
    hide Do;
    if ops != [] {
      var n := |ops| - 1;
      DoAllConfig(core, o, ops[..n]);
      DoFrame(core, DoAll(core, o, ops[..n]), ops[n]);
    }
  }

  lemma SavePlanStores(core: Core, config: Config, disk: Option<string>, edit: seq<Op>, after: seq<Op>, reply: Reply)
    requires StoresFirst(edit) && StoresNothing(after) && edit != [] && edit[0] == Store(config)
    ensures var ops := SavePlan(core, config, disk, edit, after, reply).ops;
            StoresFirst(ops) && ops != [] && ops[0] == Store(config)
  {
  }

  /** The configuration an accepted request stores; other requests keep the current one. */
  function Edited(core: Core, s: Shared, request: Request): Config {
    var points := s.config.points;
    var caps := FindCapabilities(core.capabilities, s.config.protocol);
    match request
    case SetProtocol(id) =>
      if FindCapabilities(core.capabilities, id).Some? then s.config.(protocol := id) else s.config
    case SetConnection(values) =>
      if caps.Some? then
        s.config.(connections := s.config.connections[s.config.protocol := Built(caps.value.connectionFields, values)])
      else s.config
    case SavePoint(req) =>
      if caps.None? then s.config
      else
        var point := RequestedPoint(caps.value.addressingFields, req);
        match req.index {
          case None => WithPoints(s, points + [point])
          case Some(i) => if i < |points| then WithPoints(s, points[i := point]) else s.config
        }
    case TogglePoint(i, enabled) =>
      if i < |points| then WithPoints(s, points[i := points[i].(enabled := enabled)]) else s.config
    case DeletePoint(i) =>
      if i < |points| then WithPoints(s, points[..i] + points[i + 1..]) else s.config
    case ClearPoints => WithPoints(s, [])
    case AddBrowsedPoint(i) =>
      if i < |s.browsed| then WithPoints(s, Upsert(points, PointFrom(s.browsed[i]))) else s.config
    case PutSettings(req) => Settings.Put(s.config, req)
    case _ => s.config
  }

  predicate Stores(ops: seq<Op>, config: Config, edited: Config) {
    StoresFirst(ops) && StoredBy(ops, config) == edited
  }

  lemma PointEditStores(core: Core, s: Shared, request: Request, disk: Option<string>)
    requires request.SavePoint? || request.TogglePoint? || request.DeletePoint? || request.AddBrowsedPoint?
    ensures Stores(RequestPlan(core, s, request, disk).ops, s.config, Edited(core, s, request))
  {
    hide Decimal, Built, Upsert, FindCapabilities, SavePlan, RequestedPoint, WithPoints;
    forall config: Config, after, reply | StoresNothing(after)
      ensures var ops := SavePlan(core, config, disk, [Store(config)], after, reply).ops;
              StoresFirst(ops) && ops != [] && ops[0] == Store(config)
    {
      SavePlanStores(core, config, disk, [Store(config)], after, reply);
    }
  }

  lemma SettingsEditStores(core: Core, s: Shared, request: Request, disk: Option<string>)
    requires request.SetConnection? || request.ClearPoints? || request.PutSettings?
    ensures Stores(RequestPlan(core, s, request, disk).ops, s.config, Edited(core, s, request))
  {
    hide Decimal, Built, Settings.Put, FindCapabilities, SavePlan;
    forall config: Config, edit, after, reply
      | StoresFirst(edit) && StoresNothing(after) && edit != [] && edit[0] == Store(config)
      ensures var ops := SavePlan(core, config, disk, edit, after, reply).ops;
              StoresFirst(ops) && ops != [] && ops[0] == Store(config)
    {
      SavePlanStores(core, config, disk, edit, after, reply);
    }
  }

  lemma RequestStores(core: Core, s: Shared, request: Request, disk: Option<string>)
    ensures Stores(RequestPlan(core, s, request, disk).ops, s.config, Edited(core, s, request))
  {
    if request.SavePoint? || request.TogglePoint? || request.DeletePoint? || request.AddBrowsedPoint? {
      hide *;
      PointEditStores(core, s, request, disk);
    } else if request.SetConnection? || request.ClearPoints? || request.PutSettings? {
      hide *;
      SettingsEditStores(core, s, request, disk);
    } else {
      hide Decimal, SavePlan, PointsPlan, Built, Settings.Put, Upsert;
    }
  }

  /** Whatever a save does, the edit stays: the configuration after a request is the edited one. */
  lemma RequestConfig(core: Core, o: Out, request: Request, disk: Option<string>)
    ensures Next(core, o, Http(request, disk)).s.config == Edited(core, o.s, request)
  {
    hide RequestPlan, Edited, StoresFirst, StoredBy;
    RequestStores(core, o.s, request, disk);
    DoAllConfig(core, o, RequestPlan(core, o.s, request, disk).ops);
  }

  lemma WorkerStores(core: Core, s: Shared, event: WorkerEvent, disk: Option<string>)
    ensures Stores(WorkerOps(core, s, event, disk), s.config,
                   if event.BulkTagImport? then WithPoints(s, event.imported) else s.config)
  {
    hide Decimal;
  }

  lemma WorkerConfig(core: Core, o: Out, event: WorkerEvent, disk: Option<string>)
    ensures Next(core, o, Worker(event, disk)).s.config ==
            if event.BulkTagImport? then WithPoints(o.s, event.imported) else o.s.config
  {
    hide WorkerOps, WithPoints, StoresFirst, StoredBy, DoAll;
    WorkerStores(core, o.s, event, disk);
    DoAllConfig(core, o, WorkerOps(core, o.s, event, disk));
  }

  // ---- distinct identities ----

  lemma AddedDistinctIff(points: seq<PointConfig>, point: PointConfig)
    requires Distinct(points)
    ensures Distinct(points + [point]) <==>
            forall j :: 0 <= j < |points| ==> PointIdentityOf(points[j]) != PointIdentityOf(point)
  {
    hide Identify;
    var r := points + [point];
    if Distinct(r) {
      forall j | 0 <= j < |points| ensures PointIdentityOf(points[j]) != PointIdentityOf(point) {
        assert r[j] == points[j] && r[|points|] == point;
      }
    }
  }

  lemma ReplacedDistinctIff(points: seq<PointConfig>, i: nat, point: PointConfig)
    requires Distinct(points) && i < |points|
    ensures Distinct(points[i := point]) <==>
            forall j :: 0 <= j < |points| && j != i ==> PointIdentityOf(points[j]) != PointIdentityOf(point)
  {
    hide Identify;
    var r := points[i := point];
    if Distinct(r) {
      forall j | 0 <= j < |points| && j != i ensures PointIdentityOf(points[j]) != PointIdentityOf(point) {
        assert r[j] == points[j] && r[i] == point;
      }
    }
  }

  lemma DeletedDistinct(points: seq<PointConfig>, i: nat)
    requires Distinct(points) && i < |points|
    ensures Distinct(points[..i] + points[i + 1..])
  {
    hide Identify;
    var r := points[..i] + points[i + 1..];
    forall a, b | 0 <= a < b < |r| ensures PointIdentityOf(r[a]) != PointIdentityOf(r[b]) {
      var a0, b0 := if a < i then a else a + 1, if b < i then b else b + 1;
      assert r[a] == points[a0] && r[b] == points[b0];
    }
  }

  /** A form save brings no other configured point's identity, an import no identity twice. Every
      other action is harmless. */
  ghost predicate Harmless(core: Core, s: Shared, a: Action) {
    match a
    case Worker(event, _) => event.BulkTagImport? ==> Distinct(event.imported)
    case Http(request, _) =>
      request.SavePoint? ==>
        var req, caps := request.point, FindCapabilities(core.capabilities, s.config.protocol);
        caps.Some? && (req.index.Some? ==> req.index.value < |s.config.points|) ==>
          forall j :: 0 <= j < |s.config.points| && req.index != Some(j) ==>
            PointIdentityOf(s.config.points[j]) != PointIdentityOf(RequestedPoint(caps.value.addressingFields, req))
  }

  lemma EditedDistinctIff(core: Core, s: Shared, request: Request, disk: Option<string>)
    requires Distinct(s.config.points)
    ensures Distinct(Edited(core, s, request).points) <==> Harmless(core, s, Http(request, disk))
  {
    hide Identify, Distinct, Built, Upsert, FindCapabilities, RequestedPoint;
    var points := s.config.points;
    match request
    case SavePoint(req) =>
      var caps := FindCapabilities(core.capabilities, s.config.protocol);
      if caps.Some? {
        var point := RequestedPoint(caps.value.addressingFields, req);
        if req.index.None? {
          AddedDistinctIff(points, point);
        } else if req.index.value < |points| {
          ReplacedDistinctIff(points, req.index.value, point);
        }
      }
    case TogglePoint(i, enabled) =>
      if i < |points| {
        ReplacedDistinctIff(points, i, points[i].(enabled := enabled));
        OthersDiffer(points, i);
      }
    case DeletePoint(i) =>
      if i < |points| { DeletedDistinct(points, i); }
    case ClearPoints => NoneDistinct();
    case AddBrowsedPoint(i) =>
      if i < |s.browsed| { UpsertKeepsDistinct(points, PointFrom(s.browsed[i])); }
    case _ =>
  }

  lemma NoneDistinct()
    ensures Distinct([])
  {
  }

  lemma OthersDiffer(points: seq<PointConfig>, i: nat)
    requires Distinct(points) && i < |points|
    ensures forall j :: 0 <= j < |points| && j != i ==> PointIdentityOf(points[j]) != PointIdentityOf(points[i])
  {
    hide Identify;
  }

  /** One action keeps a duplicate-free list duplicate-free exactly when it is harmless. Adding
      from browse, toggling, deleting and clearing always are. */
  lemma StepDistinctIff(core: Core, o: Out, a: Action)
    requires Distinct(o.s.config.points)
    ensures Distinct(Next(core, o, a).s.config.points) <==> Harmless(core, o.s, a)
  {
    hide Next, Edited, Identify, Distinct, FindCapabilities, RequestedPoint;
    match a
    case Worker(event, disk) => WorkerConfig(core, o, event, disk);
    case Http(request, disk) =>
      RequestConfig(core, o, request, disk);
      EditedDistinctIff(core, o.s, request, disk);
  }

  ghost predicate AllHarmless(core: Core, o: Out, actions: seq<Action>) {
    actions == [] ||
    var before := actions[..|actions| - 1];
    AllHarmless(core, o, before) && Harmless(core, Run(core, o, before).s, actions[|actions| - 1])
  }

  /** The list is duplicate-free at every action's end. */
  ghost predicate DistinctThroughout(core: Core, o: Out, actions: seq<Action>) {
    && Distinct(Run(core, o, actions).s.config.points)
    && (actions != [] ==> DistinctThroughout(core, o, actions[..|actions| - 1]))
  }

  lemma {:induction false} RunDistinctIff(core: Core, o: Out, actions: seq<Action>)
    requires Distinct(o.s.config.points)
    ensures DistinctThroughout(core, o, actions) <==> AllHarmless(core, o, actions)
  {
    hide Next, Distinct, Harmless;
    if actions != [] {
      var n := |actions| - 1;
      RunDistinctIff(core, o, actions[..n]);
      if DistinctThroughout(core, o, actions[..n]) {
        DistinctAtEnd(core, o, actions[..n]);
        StepDistinctIff(core, Run(core, o, actions[..n]), actions[n]);
      }
    }
  }

  lemma DistinctAtEnd(core: Core, o: Out, actions: seq<Action>)
    requires DistinctThroughout(core, o, actions)
    ensures Distinct(Run(core, o, actions).s.config.points)
  {
  }
}
