/** The two objects at work: the daemon serves requests and drains events, and a page that took a
    snapshot of it is given the deltas it sends, or loses them. */
module Session {
  import opened Text
  import opened Model
  import opened Server
  import opened Simulation
  import opened Replication
  import opened Broadcast
  import opened Windows
  import Mirror
  import WebState

  class Session {
    const daemon: WebState.WebState
    const page: Mirror.Page
    /** How many of the daemon's deltas the page has been offered or was too late for. */
    var read: nat

    /** At the snapshot: the page before it, and the daemon's state and history. */
    ghost const start: Mirror.State
    ghost const seen: Shared
    ghost const before: seq<Item>
    /** Since the snapshot: what the daemon did, and which deltas the page was given. */
    ghost var actions: seq<Action>
    ghost var got: seq<bool>

    /** The run since the snapshot. */
    ghost function Since(): Out
      reads this
    {
      Run(daemon.core, Out(seen, []), actions)
    }

    ghost predicate Valid()
      reads this, daemon, page
    {
      var run := Since();
      && daemon.Reached()
      && |seen.logs| <= LOG_CAPACITY && |seen.recentSamples| <= RECENT_SAMPLE_CAPACITY
      && daemon.Cur() == Out(run.s, before + run.trace)
      && |Deltas(before)| + |got| == read && |got| <= |Deltas(run.trace)|
      && page.state == Folded(page.browser, Mirror.Hydrated(page.browser, start, SnapshotJson(daemon.core, seen)),
                              Deltas(run.trace)[..|got|], got)
    }

    /** The page connects: it is given a snapshot and reads from there. */
    constructor (daemon: WebState.WebState, page: Mirror.Page)
      requires daemon.Reached()
      modifies page
      ensures Valid() && this.daemon == daemon && this.page == page
      ensures seen == daemon.shared && actions == [] && got == []
    {
      this.daemon, this.page := daemon, page;
      start, seen, before := page.state, daemon.shared, daemon.trace;
      actions, got := [], [];
      read := |daemon.sent|;
      new;
      hide Mirror.Hydrated, SnapshotJson;
      var snapshot := daemon.TakeSnapshot();
      page.HandleEvent(Mirror.Hydrate(snapshot));
      NothingFolded(page.browser, page.state);
      assert before + [] == before;
    }

    method Serve(request: Request, disk: Option<string>) returns (reply: Reply)
      requires Valid()
      modifies daemon, this`actions
      ensures Valid() && actions == old(actions) + [Http(request, disk)]
      ensures reply == RequestPlan(daemon.core, old(daemon.shared), request, disk).reply
    {
      hide Next, Deltas, Folded, Mirror.Hydrated, SnapshotJson, RequestPlan;
      reply := daemon.Serve(request, disk);
      ghost var run := Since();
      Extend(Http(request, disk), old(daemon.Cur()), daemon.Cur(), run);
      actions := actions + [Http(request, disk)];
      assert actions[..|actions| - 1] == old(actions);
      assert Since() == Next(daemon.core, run, Http(request, disk));
      assert Deltas(Since().trace)[..|got|] == Deltas(run.trace)[..|got|];
    }

    method Drain(event: WorkerEvent, disk: Option<string>)
      requires Valid()
      modifies daemon, this`actions
      ensures Valid() && actions == old(actions) + [Worker(event, disk)]
    {
      hide Next, Deltas, Folded, Mirror.Hydrated, SnapshotJson;
      daemon.Drain(event, disk);
      ghost var run := Since();
      Extend(Worker(event, disk), old(daemon.Cur()), daemon.Cur(), run);
      actions := actions + [Worker(event, disk)];
      assert actions[..|actions| - 1] == old(actions);
      assert Since() == Next(daemon.core, run, Worker(event, disk));
      assert Deltas(Since().trace)[..|got|] == Deltas(run.trace)[..|got|];
    }

    /** One more action does the same to the run since the snapshot as to the daemon. */
    lemma Extend(a: Action, was: Out, now: Out, run: Out)
      requires was == Out(run.s, before + run.trace) && now == Next(daemon.core, was, a)
      ensures var longer := Next(daemon.core, run, a);
              && now == Out(longer.s, before + longer.trace)
              && Deltas(run.trace) <= Deltas(longer.trace)
    {
      hide Ops, DoAll, Deltas;
      DoAllShift(daemon.core, run, before, Ops(daemon.core, run.s, a));
      NextGrows(daemon.core, run, a);
    }

    /** The next delta reaches the page, or is lost. */
    method Offer(delivered: bool)
      requires Valid() && read < |daemon.sent|
      modifies page, this`read, this`got
      ensures Valid() && got == old(got) + [delivered]
    {
      hide Run, Folded, Mirror.Hydrated, SnapshotJson, Mirror.Handle;
      ghost var run, k := Since(), |got|;
      DeltasConcat(before, run.trace);
      ghost var deltas := Deltas(run.trace);
      assert daemon.sent[read] == deltas[k];
      FoldedAppend(page.browser, Mirror.Hydrated(page.browser, start, SnapshotJson(daemon.core, seen)),
                   deltas[..k], got, deltas[k], delivered);
      assert deltas[..k] + [deltas[k]] == deltas[..k + 1];
      if delivered {
        page.HandleEvent(Mirror.Update(daemon.sent[read]));
      }
      read := read + 1;
      got := got + [delivered];
    }

    /** The page as the loss theorems speak of it. */
    ghost function Seen(): Client
      requires |got| == |Deltas(Since().trace)|
      reads this, daemon, page
    {
      Play(page.browser, Subscribed(page.browser, daemon.core, start, seen), Since().trace, got)
    }

    /** Whenever everything sent has been offered, whatever of it was lost, the page's object holds
        the mirror of the loss theorems: it agrees with the daemon's object on every part not left
        behind, and the daemon's rings are the windows of what it has sent. */
    lemma PageAgrees()
      requires Valid() && read == |daemon.sent|
      requires PlainCore(daemon.core) && PlainState(seen) && PlainActions(actions)
      ensures |got| == |Deltas(Since().trace)|
      ensures Seen().m == page.state && Agree(page.browser, daemon.core, daemon.shared, Seen())
      ensures Rings(seen, daemon.shared, Deltas(Since().trace))
    {
      hide Run, Folded, Mirror.Hydrated, SnapshotJson, Agree, PlainState, PlainAction, Play, Rings;
      var run := Since();
      DeltasConcat(before, run.trace);
      assert Deltas(run.trace)[..|got|] == Deltas(run.trace);
      MirrorSimulates(page.browser, daemon.core, start, seen, actions, got);
      PlayIsFold(page.browser, Subscribed(page.browser, daemon.core, start, seen), run.trace, got);
      ServerRings(daemon.core, seen, actions);
    }
  }
}
