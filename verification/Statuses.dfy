/** Point statuses under arbitrary loss, point by point: a status is shown right exactly when the
    last word the client heard of it is the last word there was. */
module Statuses {
  import opened Text
  import opened Identity
  import opened Coercion
  import opened Model
  import opened Server
  import opened Mirror
  import opened Simulation
  import opened Replication

  // ---- what a delta says of a key ----

  /** The status of the last listed point with this key. */
  function Listed(points: seq<PointDto>, key: string): Option<StatusDto> {
    if points == [] then None
    else
      var n := |points| - 1;
      if points[n].identity == key then Some(points[n].status) else Listed(points[..n], key)
  }

  function At(table: map<string, StatusDto>, key: string): Option<StatusDto> {
    if key in table then Some(table[key]) else None
  }

  function Word(d: Delta, key: string): Option<StatusDto> {
    match d
    case PointsDelta(points) => Listed(points, key)
    case SamplesDelta(_, changed) => At(changed, key)
    case StatusesDelta(changed) => At(changed, key)
    case _ => None
  }

  function Newer<T>(older: Option<T>, newer: Option<T>): Option<T> {
    if newer.Some? then newer else older
  }

  /** The last word of the delivered deltas. */
  function Heard(key: string, trace: seq<Item>, got: seq<bool>, first: Option<StatusDto>): Option<StatusDto>
    requires |got| == |Deltas(trace)|
  {
    if trace == [] then first
    else
      var n := |trace| - 1;
      match trace[n]
      case Quiet(_, _) => Heard(key, trace[..n], got, first)
      case Sent(d) =>
        var before := Heard(key, trace[..n], got[..|got| - 1], first);
        if got[|got| - 1] then Newer(before, Word(d, key)) else before
  }

  /** The last word of all deltas sent, where dropping the statuses says `unknown` of every key. */
  function Said(key: string, trace: seq<Item>, first: StatusDto): StatusDto {
    if trace == [] then first
    else
      var before := Said(key, trace[..|trace| - 1], first);
      match trace[|trace| - 1]
      case Quiet(_, forgets) => if forgets then StatusView(None) else before
      case Sent(d) => if Word(d, key).Some? then Word(d, key).value else before
  }

  // ---- the client shows what it heard ----

  /** A list as the daemon builds it: keys belong to addressings, and one key has one status. */
  predicate Sound(points: seq<PointDto>) {
    && (forall i :: 0 <= i < |points| ==>
          PlainNames(points[i].addressing) && points[i].identity == Key(Identify(points[i].addressing)))
    && (forall i, j :: 0 <= i < |points| && 0 <= j < |points| && points[i].identity == points[j].identity
          ==> points[i].status == points[j].status)
  }

  predicate SoundItem(item: Item) {
    item.Sent? && item.delta.PointsDelta? ==> Sound(item.delta.points)
  }

  predicate SoundTrace(trace: seq<Item>) {
    forall i :: 0 <= i < |trace| ==> SoundItem(trace[i])
  }

  /** Every shown status is the table's under the point's own key. */
  predicate ByTable(m: State) {
    forall i :: 0 <= i < |m.points| ==>
      && PlainNames(m.points[i].addressing) && m.points[i].identity == Key(Identify(m.points[i].addressing))
      && At(m.statuses, m.points[i].identity) == Some(m.points[i].status)
  }

  lemma {:induction false} TableAt(statuses: map<string, StatusDto>, points: seq<PointDto>, key: string)
    ensures At(WithPointStatuses(statuses, points), key) == Newer(At(statuses, key), Listed(points, key))
  {
    if points != [] { TableAt(statuses, points[..|points| - 1], key); }
  }

  lemma HandleHears(b: Browser, m: State, d: Delta, key: string)
    ensures At(Handle(b, m, d).statuses, key) == Newer(At(m.statuses, key), Word(d, key))
  {
    hide WithPointStatuses, Listed, Synced, ConnValues, FirstN;
    if d.PointsDelta? { TableAt(m.statuses, d.points, key); }
  }

  lemma SoundByTable(m: State, points: seq<PointDto>, table: map<string, StatusDto>)
    requires Sound(points) && m.points == points && m.statuses == WithPointStatuses(table, points)
    ensures ByTable(m)
  {
    hide Key, Identify, PlainNames;
    WithPointStatusesHolds(table, points);
  }

  lemma SyncedByTable(m: State, next: State, changed: map<string, StatusDto>)
    requires ByTable(m) && next.statuses == m.statuses + changed && next.points == Synced(m.points, next.statuses)
    ensures ByTable(next)
  {
    hide Key, Identify, PlainNames;
    forall i | 0 <= i < |next.points|
      ensures next.points[i].addressing == m.points[i].addressing && next.points[i].identity == m.points[i].identity
      ensures At(next.statuses, next.points[i].identity) == Some(next.points[i].status)
    {
      assert At(m.statuses, m.points[i].identity) == Some(m.points[i].status);
    }
  }

  lemma HandleByTable(b: Browser, m: State, d: Delta)
    requires ByTable(m) && (d.PointsDelta? ==> Sound(d.points))
    ensures ByTable(Handle(b, m, d))
  {
    var next := Handle(b, m, d);
    match d
    case PointsDelta(points) =>
      hide Sound, ByTable;
      SoundByTable(next, points, m.statuses);
    case SamplesDelta(_, changed) =>
      hide ByTable, Synced;
      SyncedByTable(m, next, changed);
    case StatusesDelta(changed) =>
      hide ByTable, Synced;
      SyncedByTable(m, next, changed);
    case _ =>
      hide Key, Identify, PlainNames, ConnValues;
      assert next.points == m.points && next.statuses == m.statuses;
  }

  /** After any choice of deliveries the client's table is what it heard, and so are its points. */
  lemma {:induction false} ShowsHeard(b: Browser, start: Client, trace: seq<Item>, got: seq<bool>, key: string)
    requires |got| == |Deltas(trace)| && SoundTrace(trace) && ByTable(start.m)
    ensures var m := Play(b, start, trace, got).m;
            ByTable(m) && At(m.statuses, key) == Heard(key, trace, got, At(start.m.statuses, key))
  {
    hide Handle, ByTable, SoundItem, Word, At;
    if trace != [] {
      var n := |trace| - 1;
      assert SoundItem(trace[n]);
      match trace[n] {
        case Quiet(_, _) => ShowsHeard(b, start, trace[..n], got, key);
        case Sent(d) =>
          var k := |got| - 1;
          ShowsHeard(b, start, trace[..n], got[..k], key);
          if got[k] {
            var m := Play(b, start, trace[..n], got[..k]).m;
            SoundDelta(d);
            HandleByTable(b, m, d);
            HandleHears(b, m, d, key);
          }
      }
    }
  }

  lemma SoundDelta(d: Delta)
    requires SoundItem(Sent(d))
    ensures d.PointsDelta? ==> Sound(d.points)
  {
  }

  // ---- the daemon keeps its word ----

  function Truth(s: Shared, id: PointIdentity): StatusDto {
    StatusView(Lookup(s.statuses, id))
  }

  /** Of every identity the daemon's status is its last word, and every list it sent is sound. */
  ghost predicate KeepsWord(core: Core, s0: Shared, o: Out) {
    && PlainState(o.s) && SoundTrace(o.trace)
    && forall id: PointIdentity | WellFormed(id) :: Truth(o.s, id) == Said(Key(id), o.trace, Truth(s0, id))
  }

  lemma ViewsSound(core: Core, s: Shared)
    requires PlainState(s)
    ensures Sound(PointViews(core, s.config, s.statuses))
  {
    hide Key, Identify, StatusView;
    var views := PointViews(core, s.config, s.statuses);
    forall i, j | 0 <= i < |views| && 0 <= j < |views| && views[i].identity == views[j].identity
      ensures views[i].status == views[j].status
    {
      hide PointViews;
      SameKeySameStatus(core, s, i, j);
    }
  }

  lemma {:induction false} ListedIn(points: seq<PointDto>, key: string)
    ensures Listed(points, key).Some? ==>
              exists i :: 0 <= i < |points| && points[i].identity == key &&
                          Listed(points, key) == Some(points[i].status)
    ensures Listed(points, key).None? ==> forall i :: 0 <= i < |points| ==> points[i].identity != key
  {
    if points != [] {
      var n := |points| - 1;
      ListedIn(points[..n], key);
      if points[n].identity != key && Listed(points, key).Some? {
        var i :| 0 <= i < n && points[..n][i].identity == key && Listed(points, key) == Some(points[..n][i].status);
        assert points[i] == points[..n][i];
      }
    }
  }

  /** A point list tells of each identity the status it has. */
  lemma ViewsTellTruth(core: Core, s: Shared, id: PointIdentity)
    requires PlainState(s) && WellFormed(id)
    ensures var word := Listed(PointViews(core, s.config, s.statuses), Key(id));
            word.Some? ==> word.value == Truth(s, id)
  {
    hide Key, Identify, StatusView, Listed, WellFormed;
    var views := PointViews(core, s.config, s.statuses);
    ListedIn(views, Key(id));
    if Listed(views, Key(id)).Some? {
      var i :| 0 <= i < |views| && views[i].identity == Key(id) && Listed(views, Key(id)) == Some(views[i].status);
      IdentifyWellFormed(s.config.points[i].addressing);
      KeyInjective(PointIdentityOf(s.config.points[i]), id);
    }
  }

  lemma ReportsTellTruth(core: Core, s: Shared, reports: seq<Report>, id: PointIdentity)
    requires PlainReports(reports) && WellFormed(id)
    ensures var after := s.(statuses := Reported(core, s.statuses, reports));
            var word := At(ChangedViews(core, s.statuses, reports), Key(id));
            Truth(after, id) == if word.Some? then word.value else Truth(s, id)
  {
    hide Key, StatusView, Reported, ChangedViews;
    ChangedViewsExact(core, s.statuses, reports, id);
  }

  /** The item an operation adds says of every identity what its status has become. */
  lemma EffectTellsTruth(core: Core, s: Shared, op: Op, id: PointIdentity)
    requires PlainState(s) && PlainOp(op) && WellFormed(id)
    ensures var (after, items) := Effect(core, s, op);
            Truth(after, id) ==
            if items == [] then Truth(s, id)
            else match items[0]
              case Quiet(_, forgets) => if forgets then StatusView(None) else Truth(s, id)
              case Sent(d) => if Word(d, Key(id)).Some? then Word(d, Key(id)).value else Truth(s, id)
  {
    hide Key, StatusView, Reported, ChangedViews, PointViews, SampleViews, DeviceViews, BrowsedViews, Reverse, FirstN,
         LastN, Changed, Listed, PlainState, WellFormed, Redact, LifecycleView, LevelText;
    match op
    case TakeSamples(samples) => ReportsTellTruth(core, s, Reads(samples), id);
    case TakeReports(reports) => ReportsTellTruth(core, s, reports, id);
    case EmitPoints => ViewsTellTruth(core, s, id);
    case _ =>
  }

  lemma EffectSound(core: Core, s: Shared, op: Op)
    requires PlainState(s) && PlainOp(op)
    ensures var (after, items) := Effect(core, s, op);
            PlainState(after) && (items != [] ==> SoundItem(items[0]))
  {
    hide Reported, ChangedViews, PointViews, SampleViews, DeviceViews, BrowsedViews, Reverse, FirstN,
         LastN, Changed, Redact, LifecycleView, LevelText, PlainPoints, PlainFound, PlainReports, Sound;
    if op.EmitPoints? { ViewsSound(core, s); }
  }

  lemma DoKeepsWord(core: Core, s0: Shared, o: Out, op: Op)
    requires KeepsWord(core, s0, o) && PlainOp(op)
    ensures KeepsWord(core, s0, Do(core, o, op))
  {
    hide Effect, PlainState, PlainOp, SoundItem, Word, Key, WellFormed, Truth;
    var (after, items) := Effect(core, o.s, op);
    EffectSound(core, o.s, op);
    if items == [] {
      assert o.trace + items == o.trace;
    } else {
      assert items == [items[0]];
      assert (o.trace + items)[..|o.trace|] == o.trace;
    }
    forall id: PointIdentity | WellFormed(id)
      ensures Truth(after, id) == Said(Key(id), o.trace + items, Truth(s0, id))
    {
      EffectTellsTruth(core, o.s, op, id);
    }
  }

  lemma {:induction false} DoAllKeepsWord(core: Core, s0: Shared, o: Out, ops: seq<Op>)
    requires KeepsWord(core, s0, o) && PlainOps(ops)
    ensures KeepsWord(core, s0, DoAll(core, o, ops))
  {
    hide KeepsWord, Do, PlainOp;
    if ops != [] {
      var n := |ops| - 1;
      DoAllKeepsWord(core, s0, o, ops[..n]);
      DoKeepsWord(core, s0, DoAll(core, o, ops[..n]), ops[n]);
    }
  }

  lemma {:induction false} RunKeepsWord(core: Core, s0: Shared, actions: seq<Action>)
    requires PlainCore(core) && PlainState(s0) && PlainActions(actions)
    ensures KeepsWord(core, s0, Run(core, Out(s0, []), actions))
  {
    hide PlainState, PlainAction, Key, Truth, WellFormed;
    if actions != [] {
      var n := |actions| - 1;
      RunKeepsWord(core, s0, actions[..n]);
      NextKeepsWord(core, s0, Run(core, Out(s0, []), actions[..n]), actions[n]);
    }
  }

  lemma NextKeepsWord(core: Core, s0: Shared, o: Out, a: Action)
    requires PlainCore(core) && PlainAction(a) && KeepsWord(core, s0, o)
    ensures KeepsWord(core, s0, Next(core, o, a))
  {
    assert PlainState(o.s);
    hide WorkerOps, RequestPlan, KeepsWord, PlainState;
    match a {
      case Worker(event, disk) => WorkerPlain(core, o.s, event, disk);
      case Http(request, disk) => RequestPlain(core, o.s, request, disk);
    }
    DoAllKeepsWord(core, s0, o, Ops(core, o.s, a));
  }
  // ---- when a shown status is right ----

  /** The last words at the snapshot: the client's from the listed points, the daemon's from all. */
  function HeardOf(core: Core, s: Shared, trace: seq<Item>, got: seq<bool>, key: string): Option<StatusDto>
    requires |got| == |Deltas(trace)|
  {
    Heard(key, trace, got, Listed(PointViews(core, s.config, s.statuses), key))
  }

  function SaidOf(s: Shared, trace: seq<Item>, id: PointIdentity): StatusDto {
    Said(Key(id), trace, Truth(s, id))
  }

  lemma SnapshotByTable(b: Browser, core: Core, m: State, s: Shared, key: string)
    requires PlainState(s)
    ensures var start := Subscribed(b, core, m, s).m;
            && ByTable(start) && At(start.statuses, key) == Listed(PointViews(core, s.config, s.statuses), key)
  {
    hide PointViews, Sound, ByTable, Listed, ConnValues, DeviceViews, BrowsedViews, WithPointStatuses, At;
    var views, start := PointViews(core, s.config, s.statuses), Subscribed(b, core, m, s).m;
    ViewsSound(core, s);
    SoundByTable(start, views, map[]);
    TableAt(map[], views, key);
    NothingAt(key);
  }

  lemma NothingAt(key: string)
    ensures At(map[], key) == None
  {
  }

  /** Per-point agreement under arbitrary loss. After any run and any choice of delivered deltas,
      each shown status is the last word heard of the point's key, the daemon's status of that
      point is the last word said of it, and so the point is shown right exactly when the last
      word heard is the last word said. Edits and clears are covered: a clear says `unknown`. */
  lemma ShownRightIff(b: Browser, core: Core, m: State, s: Shared, actions: seq<Action>, got: seq<bool>, i: nat)
    requires PlainCore(core) && PlainState(s) && PlainActions(actions)
    requires var trace := Run(core, Out(s, []), actions).trace;
             |got| == |Deltas(trace)| && i < |Play(b, Subscribed(b, core, m, s), trace, got).m.points|
    ensures var o := Run(core, Out(s, []), actions);
            var point := Play(b, Subscribed(b, core, m, s), o.trace, got).m.points[i];
            var id := Identify(point.addressing);
            && point.identity == Key(id)
            && HeardOf(core, s, o.trace, got, point.identity) == Some(point.status)
            && SaidOf(s, o.trace, id) == Truth(o.s, id)
            && (point.status == Truth(o.s, id) <==>
                HeardOf(core, s, o.trace, got, point.identity) == Some(SaidOf(s, o.trace, id)))
  {
    hide Run, Play, Deltas, Heard, Said, Key, Identify, Truth, PlainState, PlainAction, SoundTrace,
         Listed, At, Subscribed;
    var o, start := Run(core, Out(s, []), actions), Subscribed(b, core, m, s);
    var point := Play(b, start, o.trace, got).m.points[i];
    RunKeepsWord(core, s, actions);
    SnapshotByTable(b, core, m, s, point.identity);
    ShowsHeard(b, start, o.trace, got, point.identity);
    IdentifyWellFormed(point.addressing);
  }

  predicate SilentItem(key: string, item: Item) {
    if item.Sent? then Word(item.delta, key).None? else !item.forgets
  }

  /** No delta of the trace, delivered or not, says anything of the key, and nothing is dropped. */
  predicate Silent(key: string, trace: seq<Item>) {
    forall i :: 0 <= i < |trace| ==> SilentItem(key, trace[i])
  }

  lemma WordsAppend(key: string, trace: seq<Item>, item: Item, got: seq<bool>,
                    heard: Option<StatusDto>, said: StatusDto)
    requires |got| == |Deltas(trace + [item])|
    ensures |got| == |Deltas(trace)| + if item.Sent? then 1 else 0
    ensures Heard(key, trace + [item], got, heard) ==
            match item
            case Quiet(_, _) => Heard(key, trace, got, heard)
            case Sent(d) =>
              var before := Heard(key, trace, got[..|got| - 1], heard);
              if got[|got| - 1] then Newer(before, Word(d, key)) else before
    ensures Said(key, trace + [item], said) ==
            match item
            case Quiet(_, forgets) => if forgets then StatusView(None) else Said(key, trace, said)
            case Sent(d) => if Word(d, key).Some? then Word(d, key).value else Said(key, trace, said)
  {
    hide Word, StatusView;
    DeltasAppend(trace, item);
    assert (trace + [item])[..|trace|] == trace;
  }

  lemma SilentFront(key: string, trace: seq<Item>)
    requires Silent(key, trace) && trace != []
    ensures Silent(key, trace[..|trace| - 1]) && SilentItem(key, trace[|trace| - 1])
  {
    hide SilentItem;
  }

  lemma SilentStep(key: string, trace: seq<Item>, item: Item, got: seq<bool>, heard: Option<StatusDto>, said: StatusDto)
    requires |got| == |Deltas(trace + [item])| && SilentItem(key, item)
    ensures |got| == |Deltas(trace)| + if item.Sent? then 1 else 0
    ensures Heard(key, trace + [item], got, heard) ==
            Heard(key, trace, if item.Sent? then got[..|got| - 1] else got, heard)
    ensures Said(key, trace + [item], said) == Said(key, trace, said)
  {
    hide Heard, Said, Deltas, Word;
    WordsAppend(key, trace, item, got, heard, said);
  }

  lemma {:induction false} SilentKeeps(key: string, before: seq<Item>, got: seq<bool>,
                                       later: seq<Item>, gotLater: seq<bool>,
                                       heard: Option<StatusDto>, said: StatusDto)
    requires |got| == |Deltas(before)| && |gotLater| == |Deltas(later)| && Silent(key, later)
    ensures |got + gotLater| == |Deltas(before + later)|
    ensures Heard(key, before + later, got + gotLater, heard) == Heard(key, before, got, heard)
    ensures Said(key, before + later, said) == Said(key, before, said)
  {
    DeltasConcat(before, later);
    if later == [] {
      assert before + later == before && got + gotLater == got;
    } else {
      hide Heard, Said, Silent, SilentItem, Deltas;
      SilentFront(key, later);
      var front, item := later[..|later| - 1], later[|later| - 1];
      ConcatFront(before, later);
      assert later == front + [item];
      DeltasAppend(front, item);
      SilentStep(key, before + front, item, got + gotLater, heard, said);
      if item.Quiet? {
        SilentKeeps(key, before, got, front, gotLater, heard, said);
      } else {
        ConcatFront(got, gotLater);
        SilentKeeps(key, before, got, front, gotLater[..|gotLater| - 1], heard, said);
      }
    }
  }

  lemma NamedNow(key: string, before: seq<Item>, got: seq<bool>, d: Delta, heard: Option<StatusDto>, said: StatusDto)
    requires |got| == |Deltas(before)| && Word(d, key).Some?
    ensures |got + [true]| == |Deltas(before + [Sent(d)])|
    ensures Heard(key, before + [Sent(d)], got + [true], heard) == Some(Said(key, before + [Sent(d)], said))
  {
    hide Word, Heard, Said;
    DeltasAppend(before, Sent(d));
    WordsAppend(key, before, Sent(d), got + [true], heard, said);
  }

  /** A delivered delta that names a key makes every point with that key right, whatever was lost
      before, until something newer is said of it; lost or not, other deltas do not matter. */
  lemma NamingHeals(b: Browser, core: Core, m: State, s: Shared, actions: seq<Action>,
                    before: seq<Item>, got: seq<bool>, d: Delta, later: seq<Item>, gotLater: seq<bool>, i: nat)
    requires PlainCore(core) && PlainState(s) && PlainActions(actions)
    requires before + [Sent(d)] + later == Run(core, Out(s, []), actions).trace
    requires |got| == |Deltas(before)| && |gotLater| == |Deltas(later)|
    requires |got + [true] + gotLater| == |Deltas(before + [Sent(d)] + later)|
    requires var trace, all := before + [Sent(d)] + later, got + [true] + gotLater;
             var shown := Play(b, Subscribed(b, core, m, s), trace, all).m.points;
             && i < |shown| && Word(d, shown[i].identity).Some? && Silent(shown[i].identity, later)
    ensures var trace, all := before + [Sent(d)] + later, got + [true] + gotLater;
            var point := Play(b, Subscribed(b, core, m, s), trace, all).m.points[i];
            point.status == Truth(Run(core, Out(s, []), actions).s, Identify(point.addressing))
  {
    hide Run, Play, Deltas, Heard, Said, Key, Identify, Truth, PlainState, PlainAction, Word,
         Silent, Subscribed, Listed;
    var trace, all := before + [Sent(d)] + later, got + [true] + gotLater;
    ShownRightIff(b, core, m, s, actions, all, i);
    var point := Play(b, Subscribed(b, core, m, s), trace, all).m.points[i];
    var key, id := point.identity, Identify(point.addressing);
    var heard, said := Listed(PointViews(core, s.config, s.statuses), key), Truth(s, id);
    NamedNow(key, before, got, d, heard, said);
    SilentKeeps(key, before + [Sent(d)], got + [true], later, gotLater, heard, said);
  }

  /** What a mirror tells after any run and any choice of delivered deltas: every part not marked
      stale equals the daemon's, and of the points, stale or not, each status is right exactly
      when the last word heard of it is the last word said. */
  lemma MirrorTells(b: Browser, core: Core, m: State, s: Shared, actions: seq<Action>, got: seq<bool>)
    requires PlainCore(core) && PlainState(s) && PlainActions(actions)
    requires |got| == |Deltas(Run(core, Out(s, []), actions).trace)|
    ensures var o := Run(core, Out(s, []), actions);
            var c := Play(b, Subscribed(b, core, m, s), o.trace, got);
            && Agree(b, core, o.s, c)
            && forall i :: 0 <= i < |c.m.points| ==>
                 var point := c.m.points[i];
                 var id := Identify(point.addressing);
                 (point.status == Truth(o.s, id) <==>
                  HeardOf(core, s, o.trace, got, point.identity) == Some(SaidOf(s, o.trace, id)))
  {
    hide *;
    MirrorSimulates(b, core, m, s, actions, got);
    var o := Run(core, Out(s, []), actions);
    var c := Play(b, Subscribed(b, core, m, s), o.trace, got);
    forall i | 0 <= i < |c.m.points|
      ensures var point := c.m.points[i];
              var id := Identify(point.addressing);
              (point.status == Truth(o.s, id) <==>
               HeardOf(core, s, o.trace, got, point.identity) == Some(SaidOf(s, o.trace, id)))
    {
      ShownRightIff(b, core, m, s, actions, got, i);
    }
  }

  // ---- a run in which a status is shown wrong ----

  function MissedRead(core: Core, s: Shared, point: PointConfig, error: string): Out {
    Run(core, Out(s, []), [Worker(FailuresEvent([(point, error)]), None)])
  }

  lemma MissedReadRun(core: Core, s: Shared, point: PointConfig, error: string)
    ensures var reports := [Missed(point, error)];
            MissedRead(core, s, point, error) ==
            Out(s.(statuses := Reported(core, s.statuses, reports)),
                [Sent(StatusesDelta(ChangedViews(core, s.statuses, reports)))])
  {
    hide Key, Identify, Reported, ChangedViews, Run, DoAll;
    var a := Worker(FailuresEvent([(point, error)]), None);
    var reports := [Missed(point, error)];
    assert Misses([(point, error)]) == reports;
    OneRun(core, Out(s, []), a);
    OneOp(core, Out(s, []), TakeReports(reports));
  }

  /** A point that has not been read yet fails to be read, and the delta is lost: the page goes on
      showing `unknown`, which no status the daemon holds ever looks like. */
  lemma LostReportShowsWrong(b: Browser, core: Core, m: State, s: Shared, i: nat, error: string)
    requires i < |s.config.points| && PointIdentityOf(s.config.points[i]) !in s.statuses
    ensures var o := MissedRead(core, s, s.config.points[i], error);
            |Deltas(o.trace)| == 1 &&
            var shown := Play(b, Subscribed(b, core, m, s), o.trace, [false]).m.points;
            && i < |shown| && shown[i].status.state == "unknown"
            && Truth(o.s, PointIdentityOf(s.config.points[i])).state != "unknown"
  {
    var point := s.config.points[i];
    var report := Missed(point, error);
    MissedReadRun(core, s, point, error);
    OneLost(b, Subscribed(b, core, m, s), StatusesDelta(ChangedViews(core, s.statuses, [report])));
    OneReport(core, s.statuses, report);
    hide Key, Identify, MissedRead, Play, Deltas, Reported, ChangedViews, Subscribed, StatusView, PointViews;
    UnreadShowsUnknown(b, core, m, s, i);
    KnownIsNotUnknown(MissedRead(core, s, point, error).s, PointIdentityOf(point));
  }

  lemma UnreadShowsUnknown(b: Browser, core: Core, m: State, s: Shared, i: nat)
    requires i < |s.config.points| && PointIdentityOf(s.config.points[i]) !in s.statuses
    ensures var shown := Subscribed(b, core, m, s).m.points;
            i < |shown| && shown[i].status.state == "unknown"
  {
    hide Key, Identify, ConnValues, WithPointStatuses, DeviceViews, BrowsedViews;
  }

  lemma KnownIsNotUnknown(s: Shared, id: PointIdentity)
    requires id in s.statuses
    ensures Truth(s, id).state != "unknown"
  {
  }

  lemma OneRun(core: Core, o: Out, a: Action)
    ensures Run(core, o, [a]) == DoAll(core, o, Ops(core, o.s, a))
  {
    hide Ops, DoAll;
    assert [a][..0] == [];
  }

  lemma OneOp(core: Core, o: Out, op: Op)
    ensures DoAll(core, o, [op]) == Do(core, o, op)
  {
    hide Do;
    assert [op][..0] == [];
  }

  lemma OneLost(b: Browser, start: Client, d: Delta)
    ensures |Deltas([Sent(d)])| == 1 && Play(b, start, [Sent(d)], [false]).m == start.m
  {
    assert [Sent(d)][..0] == [] && [false][..0] == [];
  }

  lemma OneReport(core: Core, statuses: Statuses, report: Report)
    ensures ReportIdentity(report) in Reported(core, statuses, [report])
  {
    hide Identify;
    assert [report][..0] == [];
  }
}
