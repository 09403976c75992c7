/** The event stream of one browser: a snapshot, a subscription taken some time after it, and a
    bounded buffer from which a slow reader loses the oldest deltas. Only the snapshot takes the
    state's lock: subscribing and reading fall anywhere between two operations. */
module Broadcast {
  import opened Coercion
  import opened Model
  import opened Server
  import opened Mirror
  import opened Simulation
  import opened Replication

  const EVENT_BUFFER: nat := 256

  /** Where the receiver joined, how far it has read, which of the deltas up to there it was
      given, and its page. */
  datatype Receiver = Receiver(open: bool, since: nat, pos: nat, got: seq<bool>, m: State)

  function Missed(n: nat): (got: seq<bool>)
    ensures |got| == n
  {
    seq(n, i => false)
  }

  /** One read: nothing new, a lag that skips to the oldest delta still buffered, or the next delta. */
  function Read(b: Browser, r: Receiver, sent: seq<Delta>): Receiver {
    if r.pos >= |sent| then r
    else if |sent| - r.pos > EVENT_BUFFER then
      var oldest := |sent| - EVENT_BUFFER;
      r.(pos := oldest, got := r.got + Missed(oldest - r.pos))
    else r.(pos := r.pos + 1, got := r.got + [true], m := Handle(b, r.m, sent[r.pos]))
  }

  /** An action begins when none is under way, for it holds the lock; then its operations, of
      which each sends at most one delta, are done one by one. */
  datatype Step = Begin(action: Action) | Operate | Subscribe | Poll

  /** `done` are the actions begun; the last is at operation `at` of its `plan`. */
  datatype Link = Link(done: seq<Action>, plan: seq<Op>, at: nat, o: Out, r: Receiver)

  /** A page that has taken the snapshot of `s` and not yet subscribed. */
  function Connect(b: Browser, core: Core, m: State, s: Shared): Link {
    Link([], [], 0, Out(s, []), Receiver(false, 0, 0, [], Hydrated(b, m, SnapshotJson(core, s))))
  }

  function Apply(b: Browser, core: Core, y: Link, step: Step): Link {
    var sent := Deltas(y.o.trace);
    match step
    case Begin(a) => if y.at == |y.plan| then Link(y.done + [a], Ops(core, y.o.s, a), 0, y.o, y.r) else y
    case Operate => if y.at < |y.plan| then y.(at := y.at + 1, o := Do(core, y.o, y.plan[y.at])) else y
    case Subscribe => if y.r.open then y else y.(r := Receiver(true, |sent|, |sent|, Missed(|sent|), y.r.m))
    case Poll => if y.r.open then y.(r := Read(b, y.r, sent)) else y
  }

  function Follow(b: Browser, core: Core, y: Link, steps: seq<Step>): Link {
    if steps == [] then y else Apply(b, core, Follow(b, core, y, steps[..|steps| - 1]), steps[|steps| - 1])
  }

  // ---- the page is the fold of what was delivered ----

  function Folded(b: Browser, m: State, deltas: seq<Delta>, got: seq<bool>): State
    requires |got| == |deltas|
  {
    if deltas == [] then m
    else
      var n := |deltas| - 1;
      var before := Folded(b, m, deltas[..n], got[..n]);
      if got[n] then Handle(b, before, deltas[n]) else before
  }

  lemma FoldedAppend(b: Browser, m: State, deltas: seq<Delta>, got: seq<bool>, d: Delta, delivered: bool)
    requires |got| == |deltas|
    ensures Folded(b, m, deltas + [d], got + [delivered]) ==
            if delivered then Handle(b, Folded(b, m, deltas, got), d) else Folded(b, m, deltas, got)
  {
    hide Handle;
    assert (deltas + [d])[..|deltas|] == deltas && (got + [delivered])[..|got|] == got;
  }

  lemma {:induction false} FoldedMissed(b: Browser, m: State, deltas: seq<Delta>, got: seq<bool>, n: nat)
    requires |got| + n == |deltas|
    ensures Folded(b, m, deltas, got + Missed(n)) == Folded(b, m, deltas[..|got|], got)
  {
    if n == 0 {
      assert got + Missed(0) == got && deltas[..|got|] == deltas;
    } else {
      var k := |deltas| - 1;
      assert Missed(n)[..n - 1] == Missed(n - 1);
      assert (got + Missed(n))[..k] == got + Missed(n - 1);
      assert deltas[..k][..|got|] == deltas[..|got|];
      FoldedMissed(b, m, deltas[..k], got, n - 1);
    }
  }

  lemma {:induction false} PlayIsFold(b: Browser, start: Client, trace: seq<Item>, got: seq<bool>)
    requires |got| == |Deltas(trace)|
    ensures Play(b, start, trace, got).m == Folded(b, start.m, Deltas(trace), got)
  {
    hide Handle;
    if trace != [] {
      var n := |trace| - 1;
      DeltasAppend(trace[..n], trace[n]);
      assert trace[..n] + [trace[n]] == trace;
      if trace[n].Quiet? {
        PlayIsFold(b, start, trace[..n], got);
      } else {
        var k := |got| - 1;
        PlayIsFold(b, start, trace[..n], got[..k]);
        FoldedAppend(b, start.m, Deltas(trace[..n]), got[..k], trace[n].delta, got[k]);
        assert got[..k] + [got[k]] == got;
      }
    }
  }

  // ---- traces only grow ----

  lemma {:induction false} DoAllGrows(core: Core, o: Out, ops: seq<Op>)
    ensures o.trace <= DoAll(core, o, ops).trace
  {
    hide Effect;
    if ops != [] { DoAllGrows(core, o, ops[..|ops| - 1]); }
  }

  lemma DeltasPrefix(first: seq<Item>, whole: seq<Item>)
    requires first <= whole
    ensures Deltas(first) <= Deltas(whole)
  {
    DeltasConcat(first, whole[|first|..]);
    assert first + whole[|first|..] == whole;
  }

  lemma NextGrows(core: Core, o: Out, a: Action)
    ensures Deltas(o.trace) <= Deltas(Next(core, o, a).trace)
  {
    hide Ops, DoAll;
    DoAllGrows(core, o, Ops(core, o.s, a));
    DeltasPrefix(o.trace, Next(core, o, a).trace);
  }

  lemma {:induction false} RunPrefix(core: Core, o: Out, actions: seq<Action>, k: nat)
    requires k <= |actions|
    ensures Deltas(Run(core, o, actions[..k]).trace) <= Deltas(Run(core, o, actions).trace)
  {
    hide Next, Deltas;
    if k == |actions| {
      assert actions[..k] == actions;
    } else {
      var n := |actions| - 1;
      RunPrefix(core, o, actions[..n], k);
      assert actions[..n][..k] == actions[..k];
      NextGrows(core, Run(core, o, actions[..n]), actions[n]);
    }
  }

  // ---- every reachable link ----

  /** After the first `k` actions and `j` operations of the next. */
  function Moment(core: Core, s: Shared, done: seq<Action>, k: nat, j: nat): Out
    requires k <= |done|
  {
    var base := Run(core, Out(s, []), done[..k]);
    if k == |done| then base
    else
      var ops := Ops(core, base.s, done[k]);
      DoAll(core, base, if j <= |ops| then ops[..j] else ops)
  }

  /** The moments that have been. */
  predicate Past(y: Link, k: nat, j: nat) {
    || (k == |y.done| && y.at == |y.plan|)
    || (k + 1 == |y.done| && j <= y.at)
    || k + 1 < |y.done|
  }

  ghost predicate TracksDaemon(core: Core, s: Shared, done: seq<Action>, plan: seq<Op>, at: nat, o: Out) {
    at <= |plan| &&
    if done == [] then plan == [] && o == Out(s, [])
    else
      var n := |done| - 1;
      var base := Run(core, Out(s, []), done[..n]);
      plan == Ops(core, base.s, done[n]) && o == DoAll(core, base, plan[..at])
  }

  ghost predicate TracksReader(b: Browser, start: State, sent: seq<Delta>, r: Receiver) {
    && |r.got| == r.pos <= |sent| && r.since <= r.pos
    && r.m == Folded(b, start, sent[..r.pos], r.got)
  }

  lemma ReadTracks(b: Browser, start: State, sent: seq<Delta>, r: Receiver)
    requires TracksReader(b, start, sent, r)
    ensures TracksReader(b, start, sent, Read(b, r, sent))
  {
    hide Handle;
    if r.pos < |sent| {
      if |sent| - r.pos > EVENT_BUFFER {
        var oldest := |sent| - EVENT_BUFFER;
        assert sent[..oldest][..r.pos] == sent[..r.pos];
        FoldedMissed(b, start, sent[..oldest], r.got, oldest - r.pos);
      } else {
        assert sent[..r.pos] + [sent[r.pos]] == sent[..r.pos + 1];
        FoldedAppend(b, start, sent[..r.pos], r.got, sent[r.pos], true);
      }
    }
  }

  lemma JoinTracks(b: Browser, start: State, sent: seq<Delta>)
    ensures TracksReader(b, start, sent, Receiver(true, |sent|, |sent|, Missed(|sent|), start))
  {
    hide Handle;
    FoldedMissed(b, start, sent, [], |sent|);
    assert [] + Missed(|sent|) == Missed(|sent|) && sent[..0] == [] && sent[..|sent|] == sent;
  }

  lemma GrowsTracks(b: Browser, start: State, sent: seq<Delta>, longer: seq<Delta>, r: Receiver)
    requires TracksReader(b, start, sent, r) && sent <= longer
    ensures TracksReader(b, start, longer, r)
  {
    hide Folded;
    assert longer[..r.pos] == sent[..r.pos];
  }

  lemma BeginTracks(core: Core, s: Shared, y: Link, a: Action)
    requires TracksDaemon(core, s, y.done, y.plan, y.at, y.o) && y.at == |y.plan|
    ensures TracksDaemon(core, s, y.done + [a], Ops(core, y.o.s, a), 0, y.o)
    ensures y.o == Run(core, Out(s, []), y.done)
  {
    hide Ops, DoAll;
    assert (y.done + [a])[..|y.done|] == y.done;
    if y.done != [] { assert y.plan[..y.at] == y.plan; }
    NothingDone(core, y.o, Ops(core, y.o.s, a));
  }

  lemma NothingDone(core: Core, o: Out, ops: seq<Op>)
    ensures DoAll(core, o, ops[..0]) == o
  {
  }

  lemma OperateTracks(core: Core, s: Shared, y: Link)
    requires TracksDaemon(core, s, y.done, y.plan, y.at, y.o) && y.at < |y.plan|
    ensures TracksDaemon(core, s, y.done, y.plan, y.at + 1, Do(core, y.o, y.plan[y.at]))
  {
    hide Ops, Do, Run;
    assert y.plan[..y.at + 1] == y.plan[..y.at] + [y.plan[y.at]];
    DoAllAppend(core, Run(core, Out(s, []), y.done[..|y.done| - 1]), y.plan[..y.at], y.plan[y.at]);
  }

  lemma DoGrows(core: Core, o: Out, op: Op)
    ensures Deltas(o.trace) <= Deltas(Do(core, o, op).trace)
  {
    hide Effect, Deltas;
    DeltasPrefix(o.trace, Do(core, o, op).trace);
  }

  /** A page that has not joined shows the snapshot. */
  ghost predicate Tracks(b: Browser, core: Core, m: State, s: Shared, y: Link) {
    var start := Hydrated(b, m, SnapshotJson(core, s));
    && TracksDaemon(core, s, y.done, y.plan, y.at, y.o) && TracksReader(b, start, Deltas(y.o.trace), y.r)
    && (!y.r.open ==> y.r.m == start)
  }

  lemma ApplyTracks(b: Browser, core: Core, m: State, s: Shared, y: Link, step: Step)
    requires Tracks(b, core, m, s, y)
    ensures Tracks(b, core, m, s, Apply(b, core, y, step))
  {
    hide Ops, Do, Deltas, Read, Hydrated, SnapshotJson, TracksDaemon, TracksReader;
    var start, sent := Hydrated(b, m, SnapshotJson(core, s)), Deltas(y.o.trace);
    match step
    case Begin(a) => if y.at == |y.plan| { BeginTracks(core, s, y, a); }
    case Operate =>
      if y.at < |y.plan| {
        OperateTracks(core, s, y);
        DoGrows(core, y.o, y.plan[y.at]);
        GrowsTracks(b, start, sent, Deltas(Do(core, y.o, y.plan[y.at]).trace), y.r);
      }
    case Subscribe => JoinTracks(b, start, sent);
    case Poll =>
      ReadTracks(b, start, sent, y.r);
      ReadStaysOpen(b, y.r, sent);
  }

  lemma ReadStaysOpen(b: Browser, r: Receiver, sent: seq<Delta>)
    ensures Read(b, r, sent).open == r.open && Read(b, r, sent).since == r.since
  {
    hide Handle;
  }

  lemma {:induction false} FollowTracks(b: Browser, core: Core, m: State, s: Shared, steps: seq<Step>)
    ensures Tracks(b, core, m, s, Follow(b, core, Connect(b, core, m, s), steps))
  {
    hide Hydrated, SnapshotJson, Apply;
    if steps == [] {
      NothingFolded(b, Hydrated(b, m, SnapshotJson(core, s)));
    } else {
      hide Tracks;
      var n := |steps| - 1;
      FollowTracks(b, core, m, s, steps[..n]);
      ApplyTracks(b, core, m, s, Follow(b, core, Connect(b, core, m, s), steps[..n]), steps[n]);
    }
  }

  lemma NothingFolded(b: Browser, m: State)
    ensures Folded(b, m, [], []) == m && Deltas([]) == []
  {
  }

  // ---- what a reader shows at any moment it stands at ----

  lemma {:induction false} DoAllPrefix(core: Core, o: Out, ops: seq<Op>, j: nat)
    requires j <= |ops|
    ensures Deltas(DoAll(core, o, ops[..j]).trace) <= Deltas(DoAll(core, o, ops).trace)
  {
    hide Do, Deltas;
    if j == |ops| {
      assert ops[..j] == ops;
    } else {
      var n := |ops| - 1;
      DoAllPrefix(core, o, ops[..n], j);
      assert ops[..n][..j] == ops[..j];
      DoGrows(core, DoAll(core, o, ops[..n]), ops[n]);
    }
  }

  lemma OpsGrow(core: Core, o: Out, ops: seq<Op>)
    ensures Deltas(o.trace) <= Deltas(DoAll(core, o, ops).trace)
  {
    hide Deltas, DoAll;
    NothingDone(core, o, ops);
    DoAllPrefix(core, o, ops, 0);
  }

  lemma PastIsPrefix(core: Core, s: Shared, y: Link, k: nat, j: nat)
    requires TracksDaemon(core, s, y.done, y.plan, y.at, y.o) && k <= |y.done| && Past(y, k, j)
    ensures Deltas(Moment(core, s, y.done, k, j).trace) <= Deltas(y.o.trace)
  {
    hide Ops, Deltas, DoAll;
    var start := Out(s, []);
    var base := Run(core, start, y.done[..k]);
    if k == |y.done| {
      assert y.done[..k] == y.done;
      if y.done != [] { assert y.plan[..y.at] == y.plan; }
    } else {
      var ops := Ops(core, base.s, y.done[k]);
      if k + 1 == |y.done| {
        assert y.plan[..y.at][..j] == y.plan[..j];
        DoAllPrefix(core, base, y.plan[..y.at], j);
      } else {
        var n := |y.done| - 1;
        if j <= |ops| { DoAllPrefix(core, base, ops, j); }
        assert y.done[..k + 1][..k] == y.done[..k] && y.done[..n][..k + 1] == y.done[..k + 1];
        RunPrefix(core, start, y.done[..n], k + 1);
        OpsGrow(core, Run(core, start, y.done[..n]), y.plan[..y.at]);
      }
    }
  }

  lemma MomentAgrees(b: Browser, core: Core, m: State, s: Shared, done: seq<Action>, k: nat, j: nat, got: seq<bool>)
    requires k <= |done| && PlainCore(core) && PlainState(s) && PlainActions(done)
    requires |got| == |Deltas(Moment(core, s, done, k, j).trace)|
    ensures var o := Moment(core, s, done, k, j);
            Agree(b, core, o.s, Play(b, Subscribed(b, core, m, s), o.trace, got))
  {
    hide Run, Ops, DoAll, Agree, PlainAction, Play, Deltas, Subscribed;
    var start := Subscribed(b, core, m, s);
    var base := Run(core, Out(s, []), done[..k]);
    FreshSnapshotAgrees(b, core, m, s);
    RunKeeps(b, core, start, Out(s, []), done[..k]);
    if k < |done| {
      var ops := Ops(core, base.s, done[k]);
      ActionPlain(core, base.s, done[k]);
      DoAllKeeps(b, core, start, base, if j <= |ops| then ops[..j] else ops);
    }
  }

  lemma ActionPlain(core: Core, s: Shared, a: Action)
    requires PlainCore(core) && PlainState(s) && PlainAction(a)
    ensures PlainOps(Ops(core, s, a))
  {
    hide WorkerOps, RequestPlan, PlainState, PlainOps;
    match a
    case Worker(event, disk) => WorkerPlain(core, s, event, disk);
    case Http(request, disk) => RequestPlain(core, s, request, disk);
  }

  /** The asynchronous protocol, over every interleaving of operations, subscription and reads,
      with any lag: when the receiver has read exactly what had been sent at some past moment,
      in the middle of an action or at its end, its page is the mirror the loss theorem speaks
      of, and so agrees with the state of that moment on every part that is not stale. */
  lemma SubscriberAgrees(b: Browser, core: Core, m: State, s: Shared, steps: seq<Step>, k: nat, j: nat)
    requires PlainCore(core) && PlainState(s)
    requires var y := Follow(b, core, Connect(b, core, m, s), steps);
             && k <= |y.done| && PlainActions(y.done) && Past(y, k, j)
             && |Deltas(Moment(core, s, y.done, k, j).trace)| == y.r.pos
    ensures var y := Follow(b, core, Connect(b, core, m, s), steps);
            var o := Moment(core, s, y.done, k, j);
            && |y.r.got| == |Deltas(o.trace)|
            && var c := Play(b, Subscribed(b, core, m, s), o.trace, y.r.got);
               c.m == y.r.m && Agree(b, core, o.s, c)
  {
    hide Deltas, Folded, Hydrated, SnapshotJson, Play, Agree, PlainState, PlainAction,
         Moment, TracksDaemon, Past, Follow;
    var y := Follow(b, core, Connect(b, core, m, s), steps);
    var o := Moment(core, s, y.done, k, j);
    FollowTracks(b, core, m, s, steps);
    PastIsPrefix(core, s, y, k, j);
    assert Deltas(y.o.trace)[..y.r.pos] == Deltas(o.trace);
    MomentAgrees(b, core, m, s, y.done, k, j, y.r.got);
    PlayIsFold(b, Subscribed(b, core, m, s), o.trace, y.r.got);
  }

  // ---- a reader always stands somewhere ----

  lemma DoSendsOne(core: Core, o: Out, op: Op)
    ensures |Deltas(o.trace)| <= |Deltas(Do(core, o, op).trace)| <= |Deltas(o.trace)| + 1
  {
    hide Effect, Deltas;
    var items := Effect(core, o.s, op).1;
    if items == [] {
      assert o.trace + items == o.trace;
    } else {
      assert items == [items[0]];
      DeltasAppend(o.trace, items[0]);
    }
  }

  lemma {:induction false} OpsReach(core: Core, o: Out, ops: seq<Op>, p: nat) returns (j: nat)
    requires |Deltas(o.trace)| <= p <= |Deltas(DoAll(core, o, ops).trace)|
    ensures j <= |ops| && |Deltas(DoAll(core, o, ops[..j]).trace)| == p
  {
    hide Do, Deltas;
    if p == |Deltas(DoAll(core, o, ops).trace)| {
      j := |ops|;
      assert ops[..j] == ops;
    } else {
      assert ops != [];
      var n := |ops| - 1;
      DoSendsOne(core, DoAll(core, o, ops[..n]), ops[n]);
      j := OpsReach(core, o, ops[..n], p);
      assert ops[..n][..j] == ops[..j];
    }
  }

  lemma MomentFront(core: Core, s: Shared, done: seq<Action>, k: nat, j: nat)
    requires k + 1 < |done|
    ensures Moment(core, s, done[..|done| - 1], k, j) == Moment(core, s, done, k, j)
  {
    hide Ops, DoAll, Run;
    assert done[..|done| - 1][..k] == done[..k];
  }

  lemma MomentInLast(core: Core, s: Shared, done: seq<Action>, plan: seq<Op>, at: nat, o: Out, p: nat) returns (j: nat)
    requires done != [] && TracksDaemon(core, s, done, plan, at, o)
    requires |Deltas(Run(core, Out(s, []), done[..|done| - 1]).trace)| <= p <= |Deltas(o.trace)|
    ensures j <= at && |Deltas(Moment(core, s, done, |done| - 1, j).trace)| == p
  {
    hide Ops, DoAll, Deltas, Run;
    var base := Run(core, Out(s, []), done[..|done| - 1]);
    j := OpsReach(core, base, plan[..at], p);
    assert plan[..at][..j] == plan[..j];
  }

  /** However much has been read, there was a moment at which just that had been sent. */
  lemma {:induction false} Reached(core: Core, s: Shared, done: seq<Action>, plan: seq<Op>, at: nat, o: Out, p: nat)
    returns (k: nat, j: nat)
    requires TracksDaemon(core, s, done, plan, at, o) && p <= |Deltas(o.trace)|
    ensures if done == [] then k == 0 else k < |done| && (k + 1 == |done| ==> j <= at)
    ensures |Deltas(Moment(core, s, done, k, j).trace)| == p
    decreases |done|
  {
    if done == [] {
      k, j := 0, 0;
      assert Deltas([]) == [];
    } else {
      var n := |done| - 1;
      var base := Run(core, Out(s, []), done[..n]);
      if n == 0 { NothingRun(core, s, done); }
      hide Deltas, Run, TracksDaemon, Moment;
      if |Deltas(base.trace)| <= p {
        k := n;
        j := MomentInLast(core, s, done, plan, at, o, p);
      } else {
        var before := LastPlan(core, s, done[..n]);
        k, j := Reached(core, s, done[..n], before, |before|, base, p);
        MomentFront(core, s, done, k, j);
      }
    }
  }

  lemma NothingRun(core: Core, s: Shared, done: seq<Action>)
    ensures |Deltas(Run(core, Out(s, []), done[..0]).trace)| == 0
  {
  }

  lemma LastPlan(core: Core, s: Shared, done: seq<Action>) returns (plan: seq<Op>)
    ensures TracksDaemon(core, s, done, plan, |plan|, Run(core, Out(s, []), done))
  {
    hide Ops, DoAll;
    if done == [] {
      plan := [];
    } else {
      var n := |done| - 1;
      plan := Ops(core, Run(core, Out(s, []), done[..n]).s, done[n]);
      assert plan[..|plan|] == plan;
    }
  }

  /** So at all times and whatever it has lost, every reader's page agrees with the state of some
      past moment on every part that is not stale. */
  lemma EveryReaderAgrees(b: Browser, core: Core, m: State, s: Shared, steps: seq<Step>) returns (k: nat, j: nat)
    requires PlainCore(core) && PlainState(s)
    requires PlainActions(Follow(b, core, Connect(b, core, m, s), steps).done)
    ensures var y := Follow(b, core, Connect(b, core, m, s), steps);
            && k <= |y.done| && Past(y, k, j)
            && var o := Moment(core, s, y.done, k, j);
               && |y.r.got| == |Deltas(o.trace)|
               && var c := Play(b, Subscribed(b, core, m, s), o.trace, y.r.got);
                  c.m == y.r.m && Agree(b, core, o.s, c)
  {
    hide Deltas, Folded, Hydrated, SnapshotJson, Play, Agree, PlainState, PlainAction, Moment, TracksDaemon, Follow;
    var y := Follow(b, core, Connect(b, core, m, s), steps);
    FollowTracks(b, core, m, s, steps);
    k, j := Reached(core, s, y.done, y.plan, y.at, y.o, y.r.pos);
    NothingPlanned(core, s, y);
    SubscriberAgrees(b, core, m, s, steps, k, j);
  }

  lemma NothingPlanned(core: Core, s: Shared, y: Link)
    requires TracksDaemon(core, s, y.done, y.plan, y.at, y.o)
    ensures y.done == [] ==> y.at == |y.plan|
  {
  }

  // ---- who loses what ----

  /** A delta is lost by a receiver if it was sent before the subscription, or else only if at
      least 256 newer ones followed it. */
  ghost predicate LosesOnlyOld(r: Receiver, sent: seq<Delta>) {
    && |r.got| == r.pos <= |sent| && r.since <= r.pos
    && (forall i :: 0 <= i < r.since ==> !r.got[i])
    && (forall i :: r.since <= i < r.pos && !r.got[i] ==> i + 256 < |sent|)
  }

  lemma ReadLosesOnlyOld(b: Browser, r: Receiver, sent: seq<Delta>)
    requires LosesOnlyOld(r, sent)
    ensures LosesOnlyOld(Read(b, r, sent), sent)
  {
    hide Handle;
  }

  lemma {:induction false} LostOnlyByLag(b: Browser, core: Core, m: State, s: Shared, steps: seq<Step>)
    ensures var y := Follow(b, core, Connect(b, core, m, s), steps);
            LosesOnlyOld(y.r, Deltas(y.o.trace))
  {
    hide Ops, Do, Deltas, Hydrated, SnapshotJson, Read;
    if steps == [] {
    } else {
      var n := |steps| - 1;
      LostOnlyByLag(b, core, m, s, steps[..n]);
      var y := Follow(b, core, Connect(b, core, m, s), steps[..n]);
      if steps[n].Poll? {
        ReadLosesOnlyOld(b, y.r, Deltas(y.o.trace));
      } else if steps[n].Operate? && y.at < |y.plan| {
        DoGrows(core, y.o, y.plan[y.at]);
      }
    }
  }

  /** After a read a receiver is at most 256 deltas behind, so one that was further behind has lost
      exactly those before the last 256; one that was not has been given the next. */
  lemma ReadCatchesUp(b: Browser, core: Core, m: State, s: Shared, steps: seq<Step>)
    ensures var before := Follow(b, core, Connect(b, core, m, s), steps);
            var after := Apply(b, core, before, Poll);
            var sent, r := Deltas(before.o.trace), before.r;
            before.r.open ==>
              && (|sent| > r.pos + 256 ==>
                    after.r.pos == |sent| - 256 && after.r.m == r.m
                    && forall i :: r.pos <= i < after.r.pos ==> i < |after.r.got| && !after.r.got[i])
              && (r.pos < |sent| <= r.pos + 256 ==>
                    after.r.pos == r.pos + 1 && |after.r.got| == after.r.pos && after.r.got[r.pos])
  {
    hide Ops, Do, Deltas, Hydrated, SnapshotJson, Handle, Follow;
    LostOnlyByLag(b, core, m, s, steps);
  }

  /** At every read the receiver is at most a buffer behind. */
  ghost predicate KeepsUp(b: Browser, core: Core, y: Link, steps: seq<Step>) {
    steps == [] ||
    var before := Follow(b, core, y, steps[..|steps| - 1]);
    && KeepsUp(b, core, y, steps[..|steps| - 1])
    && (steps[|steps| - 1].Poll? ==> |Deltas(before.o.trace)| - before.r.pos <= 256)
  }

  /** A receiver that subscribes before anything changes and is never more than 256 deltas behind
      when it reads, be it during an action, is given every delta. */
  lemma {:induction false} KeepingUpLosesNothing(b: Browser, core: Core, m: State, s: Shared, steps: seq<Step>)
    requires KeepsUp(b, core, Apply(b, core, Connect(b, core, m, s), Subscribe), steps)
    ensures var y := Follow(b, core, Apply(b, core, Connect(b, core, m, s), Subscribe), steps);
            y.r.open && y.r.got == AllDelivered(y.r.pos)
  {
    hide Ops, Do, Deltas, Hydrated, SnapshotJson, Handle;
    if steps == [] {
      NothingSent();
    } else {
      var n := |steps| - 1;
      KeepingUpLosesNothing(b, core, m, s, steps[..n]);
      var y := Follow(b, core, Apply(b, core, Connect(b, core, m, s), Subscribe), steps[..n]);
      assert AllDelivered(y.r.pos) + [true] == AllDelivered(y.r.pos + 1);
    }
  }

  lemma NothingSent()
    ensures Deltas([]) == []
  {
  }
}
