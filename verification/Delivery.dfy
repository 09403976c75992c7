/** What a client shows under any loss: each whole value is the one the last delivered delta of its
    kind carried, or the snapshot's. */
module Delivery {
  import opened Text
  import opened Model
  import opened Server
  import opened Mirror
  import opened Simulation
  import opened Replication
  import Coercion

  /** The part a delta replaces as a whole; status deltas only patch points. */
  function Kind(d: Delta): Option<Part> {
    match d
    case LogDelta(_, line) => if line.Some? && line.value != "" then Some(StatusLinePart) else None
    case DevicesDelta(_) => Some(DevicesPart)
    case BrowsedDelta(_) => Some(BrowsedPart)
    case ProgressDelta(_, _) => Some(ProgressPart)
    case PointsDelta(_) => Some(PointsPart)
    case StatsDelta(_, _, _) => Some(StatsPart)
    case LifecycleDelta(_) => Some(LifecyclePart)
    case ConfigDelta(_) => Some(ConfigPart)
    case SamplesDelta(_, _) => None
    case StatusesDelta(_) => None
  }

  /** The same points in the same order, whatever their statuses. */
  predicate SameButStatus(shown: seq<PointDto>, sent: seq<PointDto>) {
    |shown| == |sent| && forall i :: 0 <= i < |sent| ==> shown[i].(status := sent[i].status) == sent[i]
  }

  /** The mirror holds the value the delta carries. */
  predicate Holds(b: Coercion.Browser, m: State, d: Delta) {
    var info := StatusOf(m);
    m.status.Some? &&
    match d
    case LogDelta(_, line) => line.Some? && info.statusLine == line.value
    case DevicesDelta(devices) => m.devices == devices && info.devices == |devices|
    case BrowsedDelta(browsed) => m.browsed == browsed
    case ProgressDelta(current, total) => info.scanProgress == Some((current, total))
    case PointsDelta(points) => SameButStatus(m.points, points) && info.points == |points|
    case StatsDelta(published, acked, error) =>
      info.publishedTotal == published && info.ackedTotal == acked && info.lastError == error
    case LifecycleDelta(lifecycle) => m.lifecycle == lifecycle == info.lifecycle
    case ConfigDelta(view) =>
      && m.config == Some(view.config) && m.secrets == view.secrets && info.protocol == view.config.protocol
      && m.connValues == ConnValues(b, m.caps, view.config)
    case SamplesDelta(_, _) => true
    case StatusesDelta(_) => true
  }

  lemma HandleHolds(b: Coercion.Browser, m: State, d: Delta)
    requires m.status.Some? && Kind(d).Some?
    ensures Holds(b, Handle(b, m, d), d)
  {
    hide WithPointStatuses, ConnValues;
  }

  lemma SyncedSame(points: seq<PointDto>, statuses: map<string, StatusDto>, sent: seq<PointDto>)
    requires SameButStatus(points, sent)
    ensures SameButStatus(Synced(points, statuses), sent)
  {
    forall i | 0 <= i < |sent| ensures Synced(points, statuses)[i].(status := sent[i].status) == sent[i] {
      assert points[i].(status := sent[i].status) == sent[i];
    }
  }

  lemma HandleKeepsHeld(b: Coercion.Browser, m: State, d: Delta, other: Delta)
    requires Kind(d).Some? && Holds(b, m, d) && Kind(other) != Kind(d)
    ensures Holds(b, Handle(b, m, other), d)
  {
    hide WithPointStatuses, ConnValues, Synced, FirstN, SameButStatus;
    if d.PointsDelta? {
      match other
      case SamplesDelta(_, changed) => SyncedSame(m.points, m.statuses + changed, d.points);
      case StatusesDelta(changed) => SyncedSame(m.points, m.statuses + changed, d.points);
      case _ =>
    }
  }

  /** No delta of this kind in the trace is delivered. */
  predicate NoneDelivered(part: Part, trace: seq<Item>, got: seq<bool>)
    requires |got| == |Deltas(trace)|
  {
    trace == [] ||
    var n := |trace| - 1;
    match trace[n]
    case Quiet(_, _) => NoneDelivered(part, trace[..n], got)
    case Sent(d) =>
      (got[|got| - 1] ==> Kind(d) != Some(part)) && NoneDelivered(part, trace[..n], got[..|got| - 1])
  }

  /** A value stays until a delta of its kind is delivered, whatever else is or is not. */
  lemma {:induction false} HeldUntilNext(b: Coercion.Browser, start: Client, trace: seq<Item>, got: seq<bool>, d: Delta)
    requires |got| == |Deltas(trace)|
    requires Kind(d).Some? && Holds(b, start.m, d) && NoneDelivered(Kind(d).value, trace, got)
    ensures Holds(b, Play(b, start, trace, got).m, d)
  {
    hide Holds, Handle, Kind;
    if trace != [] {
      var n := |trace| - 1;
      match trace[n] {
        case Quiet(_, _) => HeldUntilNext(b, start, trace[..n], got, d);
        case Sent(other) =>
          var k := |got| - 1;
          HeldUntilNext(b, start, trace[..n], got[..k], d);
          if got[k] { HandleKeepsHeld(b, Play(b, start, trace[..n], got[..k]).m, d, other); }
      }
    }
  }

  lemma {:induction false} PlayConcat(b: Coercion.Browser, start: Client, first: seq<Item>, got: seq<bool>,
                                      second: seq<Item>, gotLater: seq<bool>)
    requires |got| == |Deltas(first)| && |gotLater| == |Deltas(second)|
    ensures |got + gotLater| == |Deltas(first + second)|
    ensures Play(b, start, first + second, got + gotLater) == Play(b, Play(b, start, first, got), second, gotLater)
  {
    DeltasConcat(first, second);
    if second == [] {
      assert first + second == first && got + gotLater == got;
    } else {
      var front, item := second[..|second| - 1], second[|second| - 1];
      hide Receive, Deltas;
      ConcatFront(first, second);
      assert second == front + [item];
      DeltasConcat(first, front);
      DeltasAppend(front, item);
      PlayAppend(b, start, first + front, item, got + gotLater);
      PlayAppend(b, Play(b, start, first, got), front, item, gotLater);
      if item.Quiet? {
        PlayConcat(b, start, first, got, front, gotLater);
      } else {
        PlayConcat(b, start, first, got, front, gotLater[..|gotLater| - 1]);
        ConcatFront(got, gotLater);
      }
    }
  }

  lemma {:induction false} StatusStays(b: Coercion.Browser, start: Client, trace: seq<Item>, got: seq<bool>)
    requires |got| == |Deltas(trace)| && start.m.status.Some?
    ensures Play(b, start, trace, got).m.status.Some?
  {
    hide ConnValues, WithPointStatuses, Synced, FirstN;
    if trace != [] {
      var n := |trace| - 1;
      match trace[n] {
        case Quiet(_, _) => StatusStays(b, start, trace[..n], got);
        case Sent(_) => StatusStays(b, start, trace[..n], got[..|got| - 1]);
      }
    }
  }

  /** Whatever was lost before and is lost later, a client shows the value of the last delivered
      delta of each kind. */
  lemma ShowsLastDelivered(b: Coercion.Browser, start: Client, before: seq<Item>, got: seq<bool>, d: Delta,
                           later: seq<Item>, gotLater: seq<bool>)
    requires |got| == |Deltas(before)| && |gotLater| == |Deltas(later)| && start.m.status.Some?
    requires Kind(d).Some? && NoneDelivered(Kind(d).value, later, gotLater)
    ensures |got + [true] + gotLater| == |Deltas(before + [Sent(d)] + later)|
    ensures Holds(b, Play(b, start, before + [Sent(d)] + later, got + [true] + gotLater).m, d)
  {
    hide Holds, Handle, Kind;
    DeltasAppend(before, Sent(d));
    PlayAppend(b, start, before, Sent(d), got + [true]);
    assert (got + [true])[..|got|] == got;
    var c := Play(b, start, before, got);
    StatusStays(b, start, before, got);
    HandleHolds(b, c.m, d);
    PlayConcat(b, start, before + [Sent(d)], got + [true], later, gotLater);
    HeldUntilNext(b, Play(b, start, before + [Sent(d)], got + [true]), later, gotLater, d);
  }

  /** The two mirrors show the same of a part, statuses of points aside. */
  predicate ShowsSame(m: State, other: State, part: Part) {
    var x, y := StatusOf(m), StatusOf(other);
    match part
    case DevicesPart => m.devices == other.devices && x.devices == y.devices
    case BrowsedPart => m.browsed == other.browsed
    case ConfigPart =>
      && m.config == other.config && m.secrets == other.secrets && m.connValues == other.connValues
      && x.protocol == y.protocol
    case PointsPart => SameButStatus(m.points, other.points) && x.points == y.points
    case TopicsPart => SameButStatus(m.points, other.points)
    case StatsPart => x.publishedTotal == y.publishedTotal && x.ackedTotal == y.ackedTotal && x.lastError == y.lastError
    case LifecyclePart => m.lifecycle == other.lifecycle && x.lifecycle == y.lifecycle
    case StatusLinePart => x.statusLine == y.statusLine
    case ProgressPart => x.scanProgress == y.scanProgress
  }

  /** Topics come with the point list. */
  function CarriedBy(part: Part): Part {
    if part.TopicsPart? then PointsPart else part
  }

  lemma ShowsItself(m: State, part: Part)
    ensures ShowsSame(m, m, part)
  {
  }

  lemma HandleKeepsShowing(b: Coercion.Browser, start: State, m: State, d: Delta, part: Part)
    requires ShowsSame(m, start, part) && Kind(d) != Some(CarriedBy(part))
    ensures ShowsSame(Handle(b, m, d), start, part)
  {
    hide WithPointStatuses, ConnValues, Synced, FirstN, SameButStatus;
    if CarriedBy(part).PointsPart? {
      match d
      case SamplesDelta(_, changed) => SyncedSame(m.points, m.statuses + changed, start.points);
      case StatusesDelta(changed) => SyncedSame(m.points, m.statuses + changed, start.points);
      case _ =>
    }
  }

  /** Until a delta of its kind is delivered, every part is shown as the snapshot gave it. */
  lemma {:induction false} ShowsSnapshotUntilThen(b: Coercion.Browser, core: Core, m: State, s: Shared,
                                                  trace: seq<Item>, got: seq<bool>, part: Part)
    requires |got| == |Deltas(trace)| && NoneDelivered(CarriedBy(part), trace, got)
    ensures ShowsSame(Play(b, Subscribed(b, core, m, s), trace, got).m, Hydrated(b, m, SnapshotJson(core, s)), part)
  {
    hide ShowsSame, Handle, Hydrated, SnapshotJson, Kind;
    var start := Hydrated(b, m, SnapshotJson(core, s));
    if trace == [] {
      ShowsItself(start, part);
    } else {
      var n := |trace| - 1;
      match trace[n] {
        case Quiet(_, _) => ShowsSnapshotUntilThen(b, core, m, s, trace[..n], got, part);
        case Sent(d) =>
          var k := |got| - 1;
          ShowsSnapshotUntilThen(b, core, m, s, trace[..n], got[..k], part);
          if got[k] {
            HandleKeepsShowing(b, start, Play(b, Subscribed(b, core, m, s), trace[..n], got[..k]).m, d, part);
          }
      }
    }
  }
}
