/** The bounded windows as views of unbounded histories: the log ring and the recent samples,
    in the daemon and in the browser. */
module Windows {
  import opened Text
  import opened Coercion
  import opened Model
  import opened Server
  import opened Mirror
  import opened Simulation
  import opened Replication

  // ---- what was logged and sampled, read off the trace ----

  function Records(deltas: seq<Delta>): seq<LogRecord> {
    if deltas == [] then []
    else
      var n := |deltas| - 1;
      if deltas[n].LogDelta? then Records(deltas[..n]) + [deltas[n].record] else Records(deltas[..n])
  }

  function Batches(deltas: seq<Delta>): seq<seq<SampleDto>> {
    if deltas == [] then []
    else
      var n := |deltas| - 1;
      if deltas[n].SamplesDelta? then Batches(deltas[..n]) + [deltas[n].samples] else Batches(deltas[..n])
  }

  /** The delivered ones among the deltas. */
  function Received(deltas: seq<Delta>, got: seq<bool>): seq<Delta>
    requires |got| == |deltas|
  {
    if deltas == [] then []
    else
      var n := |deltas| - 1;
      if got[n] then Received(deltas[..n], got[..n]) + [deltas[n]] else Received(deltas[..n], got[..n])
  }

  /** All samples of the batches, the latest batch first. */
  function Newest(batches: seq<seq<SampleDto>>): seq<SampleDto> {
    if batches == [] then [] else batches[|batches| - 1] + Newest(batches[..|batches| - 1])
  }

  /** The same with each batch backwards: how the daemon pushes them. */
  function NewestReversed(batches: seq<seq<SampleDto>>): seq<SampleDto> {
    if batches == [] then [] else Reverse(batches[|batches| - 1]) + NewestReversed(batches[..|batches| - 1])
  }

  lemma LastNPush<T>(n: nat, xs: seq<T>, x: T)
    ensures LastN(n, LastN(n, xs) + [x]) == LastN(n, xs + [x])
  {
  }

  lemma LastNTail<T>(n: nat, first: seq<T>, second: seq<T>, tail: seq<T>)
    requires |tail| >= n
    ensures LastN(n, first + tail) == LastN(n, second + tail)
  {
    assert LastN(n, first + tail) == LastN(n, tail) == LastN(n, second + tail);
  }

  lemma FirstNPush<T>(n: nat, batch: seq<T>, xs: seq<T>)
    ensures FirstN(n, batch + FirstN(n, xs)) == FirstN(n, batch + xs)
  {
  }

  lemma Associates<T>(xs: seq<T>, ys: seq<T>, zs: seq<T>)
    ensures (xs + ys) + zs == xs + (ys + zs)
  {
  }

  lemma RecordsAppend(deltas: seq<Delta>, d: Delta)
    ensures Records(deltas + [d]) == if d.LogDelta? then Records(deltas) + [d.record] else Records(deltas)
  {
    assert (deltas + [d])[..|deltas|] == deltas;
  }

  lemma BatchesAppend(deltas: seq<Delta>, d: Delta)
    ensures Batches(deltas + [d]) == if d.SamplesDelta? then Batches(deltas) + [d.samples] else Batches(deltas)
  {
    assert (deltas + [d])[..|deltas|] == deltas;
  }

  lemma ReceivedAppend(deltas: seq<Delta>, got: seq<bool>, d: Delta, delivered: bool)
    requires |got| == |deltas|
    ensures Received(deltas + [d], got + [delivered]) ==
            if delivered then Received(deltas, got) + [d] else Received(deltas, got)
  {
    assert (deltas + [d])[..|deltas|] == deltas && (got + [delivered])[..|got|] == got;
  }

  lemma NewestAppend(batches: seq<seq<SampleDto>>, batch: seq<SampleDto>)
    ensures Newest(batches + [batch]) == batch + Newest(batches)
    ensures NewestReversed(batches + [batch]) == Reverse(batch) + NewestReversed(batches)
  {
    assert (batches + [batch])[..|batches|] == batches;
  }

  // ---- the daemon ----

  /** The rings after the sent deltas, from a state that had `logs`, `logSeq` and `recent`. */
  ghost predicate Rings(s0: Shared, s: Shared, sent: seq<Delta>) {
    var records, batches := Records(sent), Batches(sent);
    && s.logs == LastN(500, s0.logs + records)
    && s.logSeq == s0.logSeq + |records|
    && (forall i :: 0 <= i < |records| ==> records[i].number == s0.logSeq + 1 + i)
    && s.recentSamples == FirstN(200, NewestReversed(batches) + s0.recentSamples)
  }

  lemma LogKeepsRings(core: Core, s0: Shared, s: Shared, sent: seq<Delta>,
                      level: Level, message: string, line: Option<string>)
    requires Rings(s0, s, sent)
    ensures Rings(s0, PushLog(core, s, level, message), sent + [LogDelta(NextRecord(core, s, level, message), line)])
  {
    var record := NextRecord(core, s, level, message);
    RecordsAppend(sent, LogDelta(record, line));
    BatchesAppend(sent, LogDelta(record, line));
    LastNPush(LOG_CAPACITY, s0.logs + Records(sent), record);
    Associates(s0.logs, Records(sent), [record]);
    hide Records, Batches, LastN, FirstN, NewestReversed;
  }

  lemma SamplesKeepRings(s0: Shared, s: Shared, sent: seq<Delta>, statuses: Statuses, batch: seq<SampleDto>,
                         changed: map<string, StatusDto>)
    requires Rings(s0, s, sent)
    ensures Rings(s0, s.(statuses := statuses,
                         recentSamples := FirstN(RECENT_SAMPLE_CAPACITY, Reverse(batch) + s.recentSamples)),
                  sent + [SamplesDelta(batch, changed)])
  {
    RecordsAppend(sent, SamplesDelta(batch, changed));
    BatchesAppend(sent, SamplesDelta(batch, changed));
    NewestAppend(Batches(sent), batch);
    FirstNPush(RECENT_SAMPLE_CAPACITY, Reverse(batch), NewestReversed(Batches(sent)) + s0.recentSamples);
    Associates(Reverse(batch), NewestReversed(Batches(sent)), s0.recentSamples);
    hide Records, Batches, LastN, FirstN, NewestReversed, Reverse;
  }

  lemma OtherKeepsRings(s0: Shared, s: Shared, sent: seq<Delta>, after: Shared, d: Delta)
    requires Rings(s0, s, sent) && !d.LogDelta? && !d.SamplesDelta?
    requires after.logs == s.logs && after.logSeq == s.logSeq && after.recentSamples == s.recentSamples
    ensures Rings(s0, after, sent + [d])
  {
    RecordsAppend(sent, d);
    BatchesAppend(sent, d);
  }

  /** Only three operations touch the windows. */
  lemma OtherEffect(core: Core, s: Shared, op: Op)
    requires !op.Log? && !op.Status? && !op.TakeSamples?
    ensures var (after, items) := Effect(core, s, op);
            && after.logs == s.logs && after.logSeq == s.logSeq && after.recentSamples == s.recentSamples
            && (items != [] && items[0].Sent? ==> !items[0].delta.LogDelta? && !items[0].delta.SamplesDelta?)
  {
    hide PointViews, Reported, ChangedViews, DeviceViews, BrowsedViews, Changed;
  }

  lemma DoKeepsRings(core: Core, s0: Shared, o: Out, op: Op)
    requires Rings(s0, o.s, Deltas(o.trace))
    ensures var next := Do(core, o, op); Rings(s0, next.s, Deltas(next.trace))
  {
    hide Rings, Deltas, PushLog, NextRecord, Reported, ChangedViews, SampleViews, Reverse, FirstN;
    var sent := Deltas(o.trace);
    var (after, items) := Effect(core, o.s, op);
    if items != [] {
      assert items == [items[0]];
      DeltasAppend(o.trace, items[0]);
    }
    if op.Log? {
      LogKeepsRings(core, s0, o.s, sent, op.level, op.message, None);
    } else if op.Status? {
      StatusLineAside(s0, o.s, core, sent, op.level, op.message);
    } else if op.TakeSamples? {
      SamplesKeepRings(s0, o.s, sent, after.statuses, SampleViews(core, op.samples),
                       ChangedViews(core, o.s.statuses, Reads(op.samples)));
    } else {
      hide Effect;
      OtherEffect(core, o.s, op);
      if items == [] {
        assert o.trace + items == o.trace;
        SameRings(s0, o.s, after, sent);
      } else if items[0].Sent? {
        OtherKeepsRings(s0, o.s, sent, after, items[0].delta);
      } else {
        SameRings(s0, o.s, after, sent);
      }
    }
  }

  lemma SameRings(s0: Shared, s: Shared, after: Shared, sent: seq<Delta>)
    requires Rings(s0, s, sent)
    requires after.logs == s.logs && after.logSeq == s.logSeq && after.recentSamples == s.recentSamples
    ensures Rings(s0, after, sent)
  {
  }

  lemma StatusLineAside(s0: Shared, s: Shared, core: Core, sent: seq<Delta>, level: Level, message: string)
    requires Rings(s0, s, sent)
    ensures Rings(s0, PushLog(core, s, level, message).(statusLine := message),
                  sent + [LogDelta(NextRecord(core, s, level, message), Some(message))])
  {
    hide Rings;
    LogKeepsRings(core, s0, s, sent, level, message, Some(message));
    var delta := LogDelta(NextRecord(core, s, level, message), Some(message));
    var pushed := PushLog(core, s, level, message);
    SameRings(s0, pushed, pushed.(statusLine := message), sent + [delta]);
  }

  lemma {:induction false} DoAllKeepsRings(core: Core, s0: Shared, o: Out, ops: seq<Op>)
    requires Rings(s0, o.s, Deltas(o.trace))
    ensures var next := DoAll(core, o, ops); Rings(s0, next.s, Deltas(next.trace))
  {
    hide Rings, Do;
    if ops != [] {
      DoAllKeepsRings(core, s0, o, ops[..|ops| - 1]);
      DoKeepsRings(core, s0, DoAll(core, o, ops[..|ops| - 1]), ops[|ops| - 1]);
    }
  }

  /** After any run the daemon's log ring is the last 500 of all records, numbered without gaps up
      to the counter, and its sample ring the first 200 of all batches, each newest first. */
  lemma {:induction false} ServerRings(core: Core, s0: Shared, actions: seq<Action>)
    requires |s0.logs| <= LOG_CAPACITY && |s0.recentSamples| <= RECENT_SAMPLE_CAPACITY
    ensures var o := Run(core, Out(s0, []), actions); Rings(s0, o.s, Deltas(o.trace))
  {
    hide Ops, DoAll;
    if actions != [] {
      var n := |actions| - 1;
      ServerRings(core, s0, actions[..n]);
      var o := Run(core, Out(s0, []), actions[..n]);
      DoAllKeepsRings(core, s0, o, Ops(core, o.s, actions[n]));
    }
  }

  /** From the daemon's start: the ring holds min(500, n) records, the last of them numbered n. */
  lemma BootedLogs(core: Core, config: Config, bootStatus: string, actions: seq<Action>)
    ensures var s := Run(core, Out(Boot(core, config, bootStatus), []), actions).s;
            && |s.logs| == (if s.logSeq < 500 then s.logSeq else 500)
            && forall i :: 0 <= i < |s.logs| ==> s.logs[i].number == s.logSeq - |s.logs| + 1 + i
  {
    hide Run, Records, Deltas;
    ServerRings(core, Boot(core, config, bootStatus), actions);
  }

  // ---- the browser ----

  /** The client's windows after the deltas it received. */
  ghost predicate ClientWindows(start: State, m: State, seen: seq<Delta>) {
    && m.logs == LastN(500, start.logs + Records(seen))
    && m.samples == FirstN(200, Newest(Batches(seen)) + start.samples)
  }

  lemma {:induction false} ClientRings(b: Browser, start: Client, trace: seq<Item>, got: seq<bool>)
    requires |got| == |Deltas(trace)|
    requires |start.m.logs| <= MIRROR_LOGS && |start.m.samples| <= MIRROR_SAMPLES
    ensures ClientWindows(start.m, Play(b, start, trace, got).m, Received(Deltas(trace), got))
  {
    if trace == [] {
      assert start.m.logs + [] == start.m.logs && [] + start.m.samples == start.m.samples;
    } else {
      hide ClientWindows, Handle;
      var n := |trace| - 1;
      assert trace[..n] + [trace[n]] == trace;
      DeltasAppend(trace[..n], trace[n]);
      match trace[n] {
        case Quiet(_, _) => ClientRings(b, start, trace[..n], got);
        case Sent(d) =>
          var k := |got| - 1;
          ClientRings(b, start, trace[..n], got[..k]);
          assert got[..k] + [got[k]] == got;
          ReceivedAppend(Deltas(trace[..n]), got[..k], d, got[k]);
          HandleRings(b, start.m, Play(b, start, trace[..n], got[..k]).m, Received(Deltas(trace[..n]), got[..k]), d);
      }
    }
  }

  /** Pushing, then dropping the oldest above the limit, keeps the last records. */
  lemma HandleLog(b: Browser, m: State, d: Delta)
    requires d.LogDelta? && |m.logs| <= MIRROR_LOGS
    ensures Handle(b, m, d).logs == LastN(MIRROR_LOGS, m.logs + [d.record])
    ensures Handle(b, m, d).samples == m.samples
  {
  }

  lemma HandleSamples(b: Browser, m: State, d: Delta)
    requires d.SamplesDelta?
    ensures Handle(b, m, d).samples == FirstN(MIRROR_SAMPLES, d.samples + m.samples)
    ensures Handle(b, m, d).logs == m.logs
  {
    hide Synced, FirstN;
  }

  lemma HandleAside(b: Browser, m: State, d: Delta)
    requires !d.LogDelta? && !d.SamplesDelta?
    ensures Handle(b, m, d).samples == m.samples && Handle(b, m, d).logs == m.logs
  {
    hide Synced, WithPointStatuses, ConnValues;
  }

  lemma LastNBound<T>(n: nat, xs: seq<T>)
    ensures |LastN(n, xs)| <= n
  {
  }

  lemma HandleRings(b: Browser, start: State, m: State, seen: seq<Delta>, d: Delta)
    requires ClientWindows(start, m, seen)
    ensures ClientWindows(start, Handle(b, m, d), seen + [d])
  {
    hide Records, Batches, Newest, LastN, FirstN, Handle;
    RecordsAppend(seen, d);
    BatchesAppend(seen, d);
    if d.LogDelta? {
      LastNBound(MIRROR_LOGS, start.logs + Records(seen));
      LastNPush(MIRROR_LOGS, start.logs + Records(seen), d.record);
      Associates(start.logs, Records(seen), [d.record]);
      HandleLog(b, m, d);
    } else if d.SamplesDelta? {
      NewestAppend(Batches(seen), d.samples);
      FirstNPush(MIRROR_SAMPLES, d.samples, Newest(Batches(seen)) + start.samples);
      Associates(d.samples, Newest(Batches(seen)), start.samples);
      HandleSamples(b, m, d);
    } else {
      HandleAside(b, m, d);
    }
  }

  lemma {:induction false} ReceivedAll(deltas: seq<Delta>)
    ensures Received(deltas, AllDelivered(|deltas|)) == deltas
  {
    if deltas != [] {
      var n := |deltas| - 1;
      assert AllDelivered(n + 1)[..n] == AllDelivered(n);
      ReceivedAll(deltas[..n]);
    }
  }

  lemma {:induction false} ReceivedConcat(first: seq<Delta>, gotFirst: seq<bool>,
                                          second: seq<Delta>, gotSecond: seq<bool>)
    requires |gotFirst| == |first| && |gotSecond| == |second|
    ensures Received(first + second, gotFirst + gotSecond) == Received(first, gotFirst) + Received(second, gotSecond)
  {
    if second == [] {
      assert first + second == first && gotFirst + gotSecond == gotFirst;
    } else {
      var n := |second| - 1;
      var d, delivered := second[n], gotSecond[n];
      ReceivedConcat(first, gotFirst, second[..n], gotSecond[..n]);
      ReceivedAppend(first + second[..n], gotFirst + gotSecond[..n], d, delivered);
      ReceivedAppend(second[..n], gotSecond[..n], d, delivered);
      Associates(Received(first, gotFirst), Received(second[..n], gotSecond[..n]), [d]);
      assert second[..n] + [d] == second && gotSecond[..n] + [delivered] == gotSecond;
      Associates(first, second[..n], [d]);
      Associates(gotFirst, gotSecond[..n], [delivered]);
      hide Received;
    }
  }

  lemma {:induction false} RecordsConcat(first: seq<Delta>, second: seq<Delta>)
    ensures Records(first + second) == Records(first) + Records(second)
  {
    if second == [] {
      assert first + second == first;
    } else {
      var n := |second| - 1;
      var d := second[n];
      RecordsConcat(first, second[..n]);
      RecordsAppend(first + second[..n], d);
      RecordsAppend(second[..n], d);
      assert second[..n] + [d] == second;
      Associates(first, second[..n], [d]);
      if d.LogDelta? { Associates(Records(first), Records(second[..n]), [d.record]); }
      hide Records;
    }
  }

  /** Without loss the client's log ring is the daemon's; and after any losses it is again once
      500 records in a row have been received. */
  lemma LogsHeal(b: Browser, core: Core, m: State, s0: Shared, actions: seq<Action>,
                 before: seq<Item>, gotBefore: seq<bool>, later: seq<Item>)
    requires |s0.logs| <= 500 && |s0.recentSamples| <= 200
    requires before + later == Run(core, Out(s0, []), actions).trace
    requires |gotBefore| == |Deltas(before)|
    requires before == [] || |Records(Deltas(later))| >= 500
    ensures var got := gotBefore + AllDelivered(|Deltas(later)|);
            && |got| == |Deltas(before + later)|
            && Play(b, Subscribed(b, core, m, s0), before + later, got).m.logs == Run(core, Out(s0, []), actions).s.logs
  {
    var first, second := Deltas(before), Deltas(later);
    var got := gotBefore + AllDelivered(|second|);
    DeltasConcat(before, later);
    ServerRings(core, s0, actions);
    ClientRings(b, Subscribed(b, core, m, s0), before + later, got);
    ReceivedConcat(first, gotBefore, second, AllDelivered(|second|));
    ReceivedAll(second);
    RecordsConcat(first, second);
    RecordsConcat(Received(first, gotBefore), second);
    Associates(s0.logs, Records(first), Records(second));
    Associates(s0.logs, Records(Received(first, gotBefore)), Records(second));
    if before == [] {
      assert first == [] && Received(first, gotBefore) == [];
    } else {
      LastNTail(LOG_CAPACITY, s0.logs + Records(first), s0.logs + Records(Received(first, gotBefore)), Records(second));
    }
    hide Run, Play, Deltas, Records, Received, Batches, Newest, NewestReversed, LastN, FirstN, SnapshotJson;
  }

  predicate Increasing(records: seq<LogRecord>) {
    forall i, j :: 0 <= i < j < |records| ==> records[i].number < records[j].number
  }

  lemma IncreasingPush(seen: seq<LogRecord>, before: seq<LogRecord>, record: LogRecord)
    requires Increasing(seen) && forall r :: r in seen ==> r in before
    requires forall i :: 0 <= i < |before| ==> before[i].number < record.number
    ensures Increasing(seen + [record])
  {
    assert forall i :: 0 <= i < |seen| ==> seen[i] in before;
  }

  /** The received records are some of those sent, in the same order. */
  lemma {:induction false} ReceivedIncreasing(deltas: seq<Delta>, got: seq<bool>)
    requires |got| == |deltas| && Increasing(Records(deltas))
    ensures Increasing(Records(Received(deltas, got)))
    ensures forall r :: r in Records(Received(deltas, got)) ==> r in Records(deltas)
  {
    if deltas != [] {
      var n := |deltas| - 1;
      var d := deltas[n];
      assert deltas[..n] + [d] == deltas && got[..n] + [got[n]] == got;
      RecordsAppend(deltas[..n], d);
      ReceivedAppend(deltas[..n], got[..n], d, got[n]);
      var seen := Received(deltas[..n], got[..n]);
      RecordsAppend(seen, d);
      hide Records, Received;
      var all, before := Records(deltas), Records(deltas[..n]);
      assert before <= all;
      ReceivedIncreasing(deltas[..n], got[..n]);
      if d.LogDelta? {
        assert forall i :: 0 <= i < |before| ==> all[i] == before[i] && all[i].number < all[|before|].number;
        IncreasingPush(Records(seen), before, d.record);
      }
    }
  }

  /** Whatever is lost, the client's log ring stays strictly increasing in number. */
  lemma LogsStayOrdered(b: Browser, core: Core, m: State, s0: Shared, actions: seq<Action>, got: seq<bool>)
    requires |s0.logs| <= 500 && |s0.recentSamples| <= 200
    requires Increasing(s0.logs) && forall i :: 0 <= i < |s0.logs| ==> s0.logs[i].number <= s0.logSeq
    requires |got| == |Deltas(Run(core, Out(s0, []), actions).trace)|
    ensures Increasing(Play(b, Subscribed(b, core, m, s0), Run(core, Out(s0, []), actions).trace, got).m.logs)
  {
    var trace := Run(core, Out(s0, []), actions).trace;
    ServerRings(core, s0, actions);
    assert Increasing(Records(Deltas(trace)));
    ClientRings(b, Subscribed(b, core, m, s0), trace, got);
    ReceivedIncreasing(Deltas(trace), got);
    hide Run, Play, Deltas, Records, Received, Batches, Newest, NewestReversed, FirstN, SnapshotJson;
    var seen := Records(Received(Deltas(trace), got));
    assert forall r :: r in seen ==> r.number > s0.logSeq;
    assert Increasing(s0.logs + seen);
  }

  // ---- sample windows ----

  lemma {:induction false} NewestLength(batches: seq<seq<SampleDto>>)
    ensures |Newest(batches)| == |NewestReversed(batches)|
    ensures (forall i :: 0 <= i < |batches| ==> |batches[i]| <= 1) ==> Newest(batches) == NewestReversed(batches)
  {
    if batches != [] {
      var n := |batches| - 1;
      NewestLength(batches[..n]);
      assert (forall i :: 0 <= i < |batches| ==> |batches[i]| <= 1) ==>
             forall i :: 0 <= i < n ==> |batches[..n][i]| <= 1;
      assert |batches[n]| <= 1 ==> Reverse(batches[n]) == batches[n];
    }
  }

  /** Where a batch lies in either order: after all later batches, before all earlier ones. */
  lemma {:induction false} NewestSplit(first: seq<seq<SampleDto>>, batch: seq<SampleDto>, later: seq<seq<SampleDto>>)
    ensures Newest(first + [batch] + later) == Newest(later) + (batch + Newest(first))
    ensures NewestReversed(first + [batch] + later) == NewestReversed(later) + (Reverse(batch) + NewestReversed(first))
  {
    if later == [] {
      assert first + [batch] + later == first + [batch];
      NewestAppend(first, batch);
    } else {
      var n := |later| - 1;
      NewestSplit(first, batch, later[..n]);
      Associates(first + [batch], later[..n], [later[n]]);
      assert later[..n] + [later[n]] == later;
      NewestAppend(first + [batch] + later[..n], later[n]);
      NewestAppend(later[..n], later[n]);
      Associates(later[n], Newest(later[..n]), batch + Newest(first));
      Associates(Reverse(later[n]), NewestReversed(later[..n]), Reverse(batch) + NewestReversed(first));
      hide Newest, NewestReversed, Reverse;
    }
  }

  /** The batch is `xs` from `from` to `to`, and backwards `ys` there. */
  predicate Placed<T(==)>(xs: seq<T>, ys: seq<T>, from: nat, to: nat, batch: seq<T>) {
    from <= to <= |xs| == |ys| && xs[from..to] == batch && ys[from..to] == Reverse(batch)
  }

  lemma BatchPlace(batches: seq<seq<SampleDto>>, k: nat)
    requires k < |batches|
    ensures var from := |Newest(batches[k + 1..])|;
            Placed(Newest(batches), NewestReversed(batches), from, from + |batches[k]|, batches[k])
  {
    assert batches == batches[..k] + [batches[k]] + batches[k + 1..];
    hide Reverse, Newest, NewestReversed;
    NewestSplit(batches[..k], batches[k], batches[k + 1..]);
    NewestLength(batches);
    NewestLength(batches[k + 1..]);
    Middle(Newest(batches[k + 1..]), batches[k], Newest(batches[..k]));
    Middle(NewestReversed(batches[k + 1..]), Reverse(batches[k]), NewestReversed(batches[..k]));
  }

  lemma Middle<T>(xs: seq<T>, ys: seq<T>, zs: seq<T>)
    ensures (xs + (ys + zs))[|xs|..|xs| + |ys|] == ys
  {
  }

  lemma SliceBefore<T>(n: nat, xs: seq<T>, ys: seq<T>, from: nat, to: nat)
    requires from <= to <= |xs|
    ensures to <= n ==> to <= |FirstN(n, xs + ys)| && FirstN(n, xs + ys)[from..to] == xs[from..to]
  {
    if to <= n {
      assert forall i :: from <= i < to ==> FirstN(n, xs + ys)[i] == (xs + ys)[i] == xs[i];
    }
  }

  /** A batch that lies wholly inside is at the same place in both windows, backwards in the daemon's. */
  predicate SameAt<T(==)>(n: nat, client: seq<T>, server: seq<T>, from: nat, to: nat, batch: seq<T>) {
    && from <= to && |client| == |server|
    && (to <= n ==> to <= |client| && client[from..to] == batch && server[from..to] == Reverse(batch))
  }

  /** The client's window against the daemon's, for batch `k`. */
  predicate SameBatches(batches: seq<seq<SampleDto>>, client: seq<SampleDto>, server: seq<SampleDto>, k: nat)
    requires k < |batches|
  {
    var from := |Newest(batches[k + 1..])|;
    SameAt(200, client, server, from, from + |batches[k]|, batches[k])
  }

  predicate SmallBatches(batches: seq<seq<SampleDto>>) {
    forall i :: 0 <= i < |batches| ==> |batches[i]| <= 1
  }

  lemma WindowsEqual(batches: seq<seq<SampleDto>>, recent: seq<SampleDto>)
    ensures var client := FirstN(RECENT_SAMPLE_CAPACITY, Newest(batches) + recent);
            var server := FirstN(RECENT_SAMPLE_CAPACITY, NewestReversed(batches) + recent);
            |client| == |server| && (SmallBatches(batches) ==> client == server)
  {
    hide Newest, NewestReversed;
    NewestLength(batches);
  }

  lemma Fits<T>(n: nat, xs: seq<T>, ys: seq<T>, rest: seq<T>, from: nat, to: nat, batch: seq<T>)
    requires Placed(xs, ys, from, to, batch)
    ensures SameAt(n, FirstN(n, xs + rest), FirstN(n, ys + rest), from, to, batch)
  {
    hide Reverse;
    SliceBefore(n, xs, rest, from, to);
    SliceBefore(n, ys, rest, from, to);
  }

  lemma WindowsCompare(batches: seq<seq<SampleDto>>, recent: seq<SampleDto>, k: nat)
    requires k < |batches|
    ensures SameBatches(batches, FirstN(RECENT_SAMPLE_CAPACITY, Newest(batches) + recent),
                        FirstN(RECENT_SAMPLE_CAPACITY, NewestReversed(batches) + recent), k)
  {
    hide Newest, NewestReversed, FirstN, SameAt, Placed;
    BatchPlace(batches, k);
    var from := |Newest(batches[k + 1..])|;
    Fits(RECENT_SAMPLE_CAPACITY, Newest(batches), NewestReversed(batches), recent,
         from, from + |batches[k]|, batches[k]);
  }

  /** Without loss the windows have one length, and are equal when no batch has two samples. */
  lemma SampleWindowsEqual(b: Browser, core: Core, m: State, s0: Shared, actions: seq<Action>)
    requires |s0.logs| <= LOG_CAPACITY && |s0.recentSamples| <= RECENT_SAMPLE_CAPACITY
    ensures var o := Run(core, Out(s0, []), actions);
            var client := Play(b, Subscribed(b, core, m, s0), o.trace, AllDelivered(|Deltas(o.trace)|)).m.samples;
            && |client| == |o.s.recentSamples|
            && (SmallBatches(Batches(Deltas(o.trace))) ==> client == o.s.recentSamples)
  {
    hide Run, Play, Deltas, Records, Received, Batches, Newest, NewestReversed, Reverse, LastN, FirstN, SmallBatches;
    var o := Run(core, Out(s0, []), actions);
    ServerRings(core, s0, actions);
    ClientRings(b, Subscribed(b, core, m, s0), o.trace, AllDelivered(|Deltas(o.trace)|));
    ReceivedAll(Deltas(o.trace));
    WindowsEqual(Batches(Deltas(o.trace)), s0.recentSamples);
  }

  /** Without loss both windows hold each batch at the same place, the daemon's backwards. */
  lemma SampleWindowsMirror(b: Browser, core: Core, m: State, s0: Shared, actions: seq<Action>, k: nat)
    requires |s0.logs| <= LOG_CAPACITY && |s0.recentSamples| <= RECENT_SAMPLE_CAPACITY
    requires k < |Batches(Deltas(Run(core, Out(s0, []), actions).trace))|
    ensures var o := Run(core, Out(s0, []), actions);
            var client := Play(b, Subscribed(b, core, m, s0), o.trace, AllDelivered(|Deltas(o.trace)|)).m.samples;
            SameBatches(Batches(Deltas(o.trace)), client, o.s.recentSamples, k)
  {
    hide Run, Play, Deltas, Records, Received, Batches, Newest, NewestReversed, Reverse, LastN, FirstN, SameBatches;
    var o := Run(core, Out(s0, []), actions);
    ServerRings(core, s0, actions);
    ClientRings(b, Subscribed(b, core, m, s0), o.trace, AllDelivered(|Deltas(o.trace)|));
    ReceivedAll(Deltas(o.trace));
    WindowsCompare(Batches(Deltas(o.trace)), s0.recentSamples, k);
  }

  // ---- sample windows after a loss ----

  lemma {:induction false} BatchesConcat(first: seq<Delta>, second: seq<Delta>)
    ensures Batches(first + second) == Batches(first) + Batches(second)
  {
    if second == [] {
      assert first + second == first;
    } else {
      var n := |second| - 1;
      var d := second[n];
      BatchesConcat(first, second[..n]);
      BatchesAppend(first + second[..n], d);
      BatchesAppend(second[..n], d);
      assert second[..n] + [d] == second;
      Associates(first, second[..n], [d]);
      if d.SamplesDelta? { Associates(Batches(first), Batches(second[..n]), [d.samples]); }
      hide Batches;
    }
  }

  lemma {:induction false} NewestConcat(first: seq<seq<SampleDto>>, second: seq<seq<SampleDto>>)
    ensures Newest(first + second) == Newest(second) + Newest(first)
    ensures NewestReversed(first + second) == NewestReversed(second) + NewestReversed(first)
  {
    if second == [] {
      assert first + second == first;
    } else {
      var n := |second| - 1;
      NewestConcat(first, second[..n]);
      NewestAppend(first + second[..n], second[n]);
      NewestAppend(second[..n], second[n]);
      assert second[..n] + [second[n]] == second;
      Associates(first, second[..n], [second[n]]);
      Associates(second[n], Newest(second[..n]), Newest(first));
      Associates(Reverse(second[n]), NewestReversed(second[..n]), NewestReversed(first));
      hide Newest, NewestReversed, Reverse;
    }
  }

  lemma FirstNFull<T>(n: nat, xs: seq<T>, ys: seq<T>)
    requires |xs| >= n
    ensures FirstN(n, xs + ys) == FirstN(n, xs)
  {
  }

  /** What a window of at least 200 later samples looks like, whatever came before them. */
  lemma LaterFill(first: seq<Delta>, later: seq<Delta>, recent: seq<SampleDto>)
    requires |Newest(Batches(later))| >= RECENT_SAMPLE_CAPACITY
    ensures var after := Batches(later);
            && FirstN(RECENT_SAMPLE_CAPACITY, Newest(Batches(first + later)) + recent) ==
               FirstN(RECENT_SAMPLE_CAPACITY, Newest(after) + [])
            && FirstN(RECENT_SAMPLE_CAPACITY, NewestReversed(Batches(first + later)) + recent) ==
               FirstN(RECENT_SAMPLE_CAPACITY, NewestReversed(after) + [])
  {
    var before, after := Batches(first), Batches(later);
    BatchesConcat(first, later);
    NewestConcat(before, after);
    NewestLength(after);
    hide Batches, Newest, NewestReversed, FirstN;
    Associates(Newest(after), Newest(before), recent);
    Associates(NewestReversed(after), NewestReversed(before), recent);
    FirstNFull(RECENT_SAMPLE_CAPACITY, Newest(after), Newest(before) + recent);
    FirstNFull(RECENT_SAMPLE_CAPACITY, NewestReversed(after), NewestReversed(before) + recent);
    FirstNFull(RECENT_SAMPLE_CAPACITY, Newest(after), []);
    FirstNFull(RECENT_SAMPLE_CAPACITY, NewestReversed(after), []);
  }

  /** A lost batch leaves the page's window once 200 samples in a row have been received after it:
      from then on both windows again hold the same batches at the same places. */
  lemma SamplesHeal(b: Browser, core: Core, m: State, s0: Shared, actions: seq<Action>,
                    before: seq<Item>, gotBefore: seq<bool>, later: seq<Item>)
    requires |s0.logs| <= 500 && |s0.recentSamples| <= 200
    requires before + later == Run(core, Out(s0, []), actions).trace
    requires |gotBefore| == |Deltas(before)|
    requires |Newest(Batches(Deltas(later)))| >= 200
    ensures var got := gotBefore + AllDelivered(|Deltas(later)|);
            |got| == |Deltas(before + later)| &&
            var client := Play(b, Subscribed(b, core, m, s0), before + later, got).m.samples;
            var server := Run(core, Out(s0, []), actions).s.recentSamples;
            var batches := Batches(Deltas(later));
            && |client| == |server|
            && (SmallBatches(batches) ==> client == server)
            && forall k :: 0 <= k < |batches| ==> SameBatches(batches, client, server, k)
  {
    var first, second := Deltas(before), Deltas(later);
    var got := gotBefore + AllDelivered(|second|);
    var batches := Batches(second);
    DeltasConcat(before, later);
    ServerRings(core, s0, actions);
    ClientRings(b, Subscribed(b, core, m, s0), before + later, got);
    ReceivedConcat(first, gotBefore, second, AllDelivered(|second|));
    ReceivedAll(second);
    LaterFill(first, second, s0.recentSamples);
    LaterFill(Received(first, gotBefore), second, s0.recentSamples);
    WindowsEqual(batches, []);
    hide Run, Play, Deltas, Records, Received, Batches, Newest, NewestReversed, Reverse, LastN, FirstN, SameBatches,
         SameAt, SmallBatches, SnapshotJson;
    forall k | 0 <= k < |batches|
      ensures SameBatches(batches, Play(b, Subscribed(b, core, m, s0), before + later, got).m.samples,
                          Run(core, Out(s0, []), actions).s.recentSamples, k)
    {
      WindowsCompare(batches, [], k);
    }
  }
}
