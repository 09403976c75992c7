/** What each report of a worker does to the statuses of the points, from the event alone: which of
    the core's updates is applied to which identity, in which order, and what the delta tells of it. */
module Reports {
  import opened Text
  import opened Identity
  import opened Model
  import opened Server
  import opened Simulation

  // ---- what an event says of one identity ----

  /** The readings of this identity, in the order of the batch. */
  function SamplesOf(samples: seq<Sample>, id: PointIdentity): seq<Sample> {
    if samples == [] then []
    else
      var n := |samples| - 1;
      SamplesOf(samples[..n], id) + if Identify(samples[n].point.addressing) == id then [samples[n]] else []
  }

  /** The errors of this identity's failed readings, in the order of the batch. */
  function ErrorsOf(failures: seq<(PointConfig, string)>, id: PointIdentity): seq<string> {
    if failures == [] then []
    else
      var n := |failures| - 1;
      ErrorsOf(failures[..n], id) + if Identify(failures[n].0.addressing) == id then [failures[n].1] else []
  }

  /** One update after the other. */
  function Fold<T>(update: (PointStatus, T) -> PointStatus, status: PointStatus, xs: seq<T>): PointStatus {
    if xs == [] then status else update(Fold(update, status, xs[..|xs| - 1]), xs[|xs| - 1])
  }

  /** An identity's status after these reports: unchanged without any, else updated from the stored
      status or, if there is none, from a fresh one. */
  function After<T>(core: Core, update: (PointStatus, T) -> PointStatus, stored: Option<PointStatus>, xs: seq<T>)
    : Option<PointStatus>
  {
    if xs == [] then stored
    else Some(Fold(update, if stored.Some? then stored.value else core.freshStatus, xs))
  }

  lemma AfterOneMore<T>(core: Core, update: (PointStatus, T) -> PointStatus, stored: Option<PointStatus>,
                        xs: seq<T>, x: T)
    ensures var before := After(core, update, stored, xs);
            After(core, update, stored, xs + [x]) ==
            Some(update(if before.Some? then before.value else core.freshStatus, x))
  {
    var start := if stored.Some? then stored.value else core.freshStatus;
    var longer := xs + [x];
    assert longer[..|longer| - 1] == xs && longer[|longer| - 1] == x;
    assert Fold(update, start, longer) == update(Fold(update, start, xs), x);
  }

  // ---- the fold of reports, identity by identity ----

  /** The latest report updates its own identity, from the status before it or a fresh one. */
  lemma LatestReport(core: Core, statuses: Statuses, before: seq<Report>, report: Report, id: PointIdentity)
    ensures var status := Lookup(Reported(core, statuses, before), id);
            Lookup(Reported(core, statuses, before + [report]), id) ==
            if ReportIdentity(report) != id then status
            else Some(Updated(core, if status.Some? then status.value else core.freshStatus, report))
  {
    hide Identify, Updated;
    assert (before + [report])[..|before|] == before;
  }

  lemma {:induction false} ReadsAt(core: Core, statuses: Statuses, samples: seq<Sample>, id: PointIdentity)
    ensures Lookup(Reported(core, statuses, Reads(samples)), id) ==
            After(core, core.recordSample, Lookup(statuses, id), SamplesOf(samples, id))
  {
    hide Identify, Fold, Reported;
    if samples == [] {
      NoReports(core, statuses);
      assert Reads(samples) == [];
    } else {
      var n := |samples| - 1;
      var earlier := SamplesOf(samples[..n], id);
      assert Reads(samples) == Reads(samples[..n]) + [Read(samples[n])];
      ReadsAt(core, statuses, samples[..n], id);
      LatestReport(core, statuses, Reads(samples[..n]), Read(samples[n]), id);
      AfterOneMore(core, core.recordSample, Lookup(statuses, id), earlier, samples[n]);
      assert earlier + [] == earlier;
      hide After;
    }
  }

  lemma {:induction false} MissesAt(core: Core, statuses: Statuses, failures: seq<(PointConfig, string)>,
                                    id: PointIdentity)
    ensures Lookup(Reported(core, statuses, Misses(failures)), id) ==
            After(core, core.recordReadFailure, Lookup(statuses, id), ErrorsOf(failures, id))
  {
    hide Identify, Fold, Reported;
    if failures == [] {
      NoReports(core, statuses);
      assert Misses(failures) == [];
    } else {
      var n := |failures| - 1;
      var earlier := ErrorsOf(failures[..n], id);
      var report := Missed(failures[n].0, failures[n].1);
      assert Misses(failures) == Misses(failures[..n]) + [report];
      MissesAt(core, statuses, failures[..n], id);
      LatestReport(core, statuses, Misses(failures[..n]), report, id);
      AfterOneMore(core, core.recordReadFailure, Lookup(statuses, id), earlier, failures[n].1);
      assert earlier + [] == earlier;
      hide After;
    }
  }

  /** A delta tells of a key exactly when one of the reports is about it. */
  lemma {:induction false} ToldKeys(core: Core, statuses: Statuses, reports: seq<Report>, key: string)
    ensures key in ChangedViews(core, statuses, reports) <==>
            exists i :: 0 <= i < |reports| && Key(ReportIdentity(reports[i])) == key
  {
    hide Key, Identify, StatusView, Reported;
    if reports != [] {
      var n := |reports| - 1;
      ToldKeys(core, statuses, reports[..n], key);
      if i :| 0 <= i < n && Key(ReportIdentity(reports[..n][i])) == key {
        assert Key(ReportIdentity(reports[i])) == key;
      }
      if i :| 0 <= i < n && Key(ReportIdentity(reports[i])) == key {
        assert Key(ReportIdentity(reports[..n][i])) == key;
      }
    }
  }

  /** The delta tells of this identity exactly when the event reports on it, and then its new status. */
  predicate Tells(changed: map<string, StatusDto>, id: PointIdentity, reported: bool, status: Option<PointStatus>) {
    && (Key(id) in changed <==> reported)
    && (reported ==> changed[Key(id)] == StatusView(status))
  }

  lemma ToldIff(core: Core, statuses: Statuses, reports: seq<Report>, id: PointIdentity)
    requires PlainReports(reports) && WellFormed(id)
    ensures Tells(ChangedViews(core, statuses, reports), id,
                  exists i :: 0 <= i < |reports| && ReportIdentity(reports[i]) == id,
                  Lookup(Reported(core, statuses, reports), id))
  {
    hide Key, StatusView, Reported, ChangedViews;
    ToldKeys(core, statuses, reports, Key(id));
    ChangedViewsExact(core, statuses, reports, id);
    forall i | 0 <= i < |reports|
      ensures Key(ReportIdentity(reports[i])) == Key(id) <==> ReportIdentity(reports[i]) == id
    {
      if Key(ReportIdentity(reports[i])) == Key(id) { KeyInjective(ReportIdentity(reports[i]), id); }
    }
  }

  lemma {:induction false} SamplesOfNone(samples: seq<Sample>, id: PointIdentity)
    ensures SamplesOf(samples, id) != [] <==>
            exists i :: 0 <= i < |samples| && Identify(samples[i].point.addressing) == id
  {
    hide Identify;
    if samples != [] {
      var n := |samples| - 1;
      SamplesOfNone(samples[..n], id);
      assert forall i :: 0 <= i < n ==> samples[..n][i] == samples[i];
    }
  }

  lemma {:induction false} ErrorsOfNone(failures: seq<(PointConfig, string)>, id: PointIdentity)
    ensures ErrorsOf(failures, id) != [] <==>
            exists i :: 0 <= i < |failures| && Identify(failures[i].0.addressing) == id
  {
    hide Identify;
    if failures != [] {
      var n := |failures| - 1;
      ErrorsOfNone(failures[..n], id);
      assert forall i :: 0 <= i < n ==> failures[..n][i] == failures[i];
    }
  }

  // ---- the three events ----

  lemma OneOperation(core: Core, o: Out, op: Op)
    ensures DoAll(core, o, [op]) == Do(core, o, op)
  {
    hide Do;
    assert [op][..0] == [];
  }

  /** Failed readings: every identity's status is updated with exactly its own errors, as read
      failures and in their order, and the one delta tells of exactly the identities that failed. */
  lemma FailuresTell(core: Core, o: Out, failures: seq<(PointConfig, string)>, disk: Option<string>, id: PointIdentity)
    ensures var after := Next(core, o, Worker(FailuresEvent(failures), disk));
            && Lookup(after.s.statuses, id) ==
               After(core, core.recordReadFailure, Lookup(o.s.statuses, id), ErrorsOf(failures, id))
            && after.s == o.s.(statuses := after.s.statuses)
            && |after.trace| == |o.trace| + 1 && after.trace[..|o.trace|] == o.trace
            && after.trace[|o.trace|].Sent? && after.trace[|o.trace|].delta.StatusesDelta?
            && (WellFormed(id) && (forall i :: 0 <= i < |failures| ==> PlainNames(failures[i].0.addressing)) ==>
                  Tells(after.trace[|o.trace|].delta.statuses, id, ErrorsOf(failures, id) != [],
                        Lookup(after.s.statuses, id)))
  {
    hide Identify, Key, StatusView, Reported, ChangedViews, After, Tells, WellFormed, PlainNames, DoAll;
    OneOperation(core, o, TakeReports(Misses(failures)));
    MissesAt(core, o.s.statuses, failures, id);
    if WellFormed(id) && forall i :: 0 <= i < |failures| ==> PlainNames(failures[i].0.addressing) {
      forall i | 0 <= i < |failures| ensures WellFormed(ReportIdentity(Misses(failures)[i])) {
        IdentifyWellFormed(failures[i].0.addressing);
      }
      ToldIff(core, o.s.statuses, Misses(failures), id);
      ErrorsOfNone(failures, id);
      assert forall i :: 0 <= i < |failures| ==>
               ReportIdentity(Misses(failures)[i]) == Identify(failures[i].0.addressing);
    }
  }

  /** Readings: every identity's status is updated with exactly its own samples in their order. */
  lemma SamplesTell(core: Core, o: Out, samples: seq<Sample>, disk: Option<string>, id: PointIdentity)
    ensures var after := Next(core, o, Worker(SamplesEvent(samples), disk));
            && Lookup(after.s.statuses, id) ==
               After(core, core.recordSample, Lookup(o.s.statuses, id), SamplesOf(samples, id))
            && after.s == o.s.(statuses := after.s.statuses, recentSamples := after.s.recentSamples)
            && |after.trace| == |o.trace| + 1 && after.trace[..|o.trace|] == o.trace
            && after.trace[|o.trace|].Sent? && after.trace[|o.trace|].delta.SamplesDelta?
            && (WellFormed(id) && (forall i :: 0 <= i < |samples| ==> PlainNames(samples[i].point.addressing)) ==>
                  Tells(after.trace[|o.trace|].delta.statuses, id, SamplesOf(samples, id) != [],
                        Lookup(after.s.statuses, id)))
  {
    hide Identify, Key, StatusView, Reported, ChangedViews, After, Tells, WellFormed, PlainNames, DoAll, SampleViews,
         Reverse, FirstN;
    OneOperation(core, o, TakeSamples(samples));
    ReadsAt(core, o.s.statuses, samples, id);
    if WellFormed(id) && forall i :: 0 <= i < |samples| ==> PlainNames(samples[i].point.addressing) {
      forall i | 0 <= i < |samples| ensures WellFormed(ReportIdentity(Reads(samples)[i])) {
        IdentifyWellFormed(samples[i].point.addressing);
      }
      ToldIff(core, o.s.statuses, Reads(samples), id);
      SamplesOfNone(samples, id);
      assert forall i :: 0 <= i < |samples| ==>
               ReportIdentity(Reads(samples)[i]) == Identify(samples[i].point.addressing);
    }
  }

  lemma {:induction false} ReverseAt<T>(xs: seq<T>, i: nat)
    requires i < |xs|
    ensures Reverse(xs)[i] == xs[|xs| - 1 - i]
  {
    if i > 0 { ReverseAt(xs[..|xs| - 1], i - 1); }
  }

  /** The ring after a batch: the batch's own rows in front, its last sample first, then what was there,
      200 in all at most. The delta has the rows in the order of the batch. */
  lemma SamplesEnterRing(core: Core, o: Out, samples: seq<Sample>, disk: Option<string>, i: nat)
    ensures var ring := Next(core, o, Worker(SamplesEvent(samples), disk)).s.recentSamples;
            && |ring| == (if |samples| + |o.s.recentSamples| < 200 then |samples| + |o.s.recentSamples| else 200)
            && (i < |ring| && i < |samples| ==> ring[i] == SampleViews(core, samples)[|samples| - 1 - i])
            && (i < |ring| && i >= |samples| ==> ring[i] == o.s.recentSamples[i - |samples|])
    ensures var trace := Next(core, o, Worker(SamplesEvent(samples), disk)).trace;
            trace != [] && trace[|trace| - 1].Sent? && trace[|trace| - 1].delta.SamplesDelta?
            && trace[|trace| - 1].delta.samples == SampleViews(core, samples)
  {
    hide Reported, ChangedViews, SampleViews, DoAll, Reverse;
    OneOperation(core, o, TakeSamples(samples));
    if i < |samples| { ReverseAt(SampleViews(core, samples), i); }
  }

  /** A publish result: success without an error, else failure with its message, for this identity only. */
  lemma PublishTells(core: Core, o: Out, identity: PointIdentity, error: Option<string>, disk: Option<string>,
                     id: PointIdentity)
    ensures var after := Next(core, o, Worker(PointPublish(identity, error), disk));
            var before := if identity in o.s.statuses then o.s.statuses[identity] else core.freshStatus;
            && Lookup(after.s.statuses, id) ==
               (if id != identity then Lookup(o.s.statuses, id)
                else if error.None? then Some((core.recordPublishSuccess)(before))
                else Some((core.recordPublishFailure)(before, error.value)))
            && after.s == o.s.(statuses := after.s.statuses)
            && after.trace == o.trace + [Sent(StatusesDelta(
                 map[Join(Pairs(identity), ",") := StatusView(Lookup(after.s.statuses, identity))]))]
  {
    hide StatusView, DoAll, Reported, ChangedViews;
    var report := Published(identity, error);
    OneOperation(core, o, TakeReports([report]));
    NoReports(core, o.s.statuses);
    assert [] + [report] == [report];
    LatestReport(core, o.s.statuses, [], report, id);
    LatestReport(core, o.s.statuses, [], report, identity);
    OneTold(core, o.s.statuses, report);
  }

  lemma OneTold(core: Core, statuses: Statuses, report: Report)
    ensures var id := ReportIdentity(report);
            ChangedViews(core, statuses, [report]) ==
            map[Key(id) := StatusView(Lookup(Reported(core, statuses, [report]), id))]
  {
    hide Key, StatusView, Reported, Identify;
    assert [report][..0] == [];
  }
}
