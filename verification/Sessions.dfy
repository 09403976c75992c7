/** The session table: logins that expire by themselves. Times are `Instant`s in nanoseconds. */
module Sessions {
  import opened Text

  const SESSION_TTL: int := 24 * 60 * 60 * 1_000_000_000

  /** Token to expiry time. */
  type Table = map<string, int>

  datatype Event = Created(token: string, at: int) | Removed(token: string)

  // ---- the unpruned account ----

  /** When the token was last created, unless it was removed after that. */
  function LastCreated(history: seq<Event>, token: string): Option<int> {
    if history == [] then None
    else
      var n := |history| - 1;
      if history[n].token != token then LastCreated(history[..n], token)
      else if history[n].Created? then Some(history[n].at) else None
  }

  /** The latest creation has no later removal and is under 24 hours old. */
  predicate Live(history: seq<Event>, token: string, now: int) {
    LastCreated(history, token).Some? && now - LastCreated(history, token).value < SESSION_TTL
  }

  predicate Recreated(events: seq<Event>, token: string) {
    exists i :: 0 <= i < |events| && events[i].Created? && events[i].token == token
  }

  lemma LastCreatedAppend(history: seq<Event>, e: Event, token: string)
    ensures LastCreated(history + [e], token) ==
            if e.token != token then LastCreated(history, token)
            else if e.Created? then Some(e.at) else None
  {
    assert (history + [e])[..|history|] == history;
  }

  /** Event `i` created the token less than 24 hours ago, and no later event is about it. */
  predicate Gives(history: seq<Event>, token: string, now: int, i: nat) {
    && i < |history| && history[i].Created? && history[i].token == token
    && now - history[i].at < 24 * 60 * 60 * 1_000_000_000
    && forall j :: i < j < |history| ==> history[j].token != token
  }

  lemma GivesStill(history: seq<Event>, e: Event, token: string, now: int, i: nat)
    requires e.token != token && i < |history|
    ensures Gives(history + [e], token, now, i) <==> Gives(history, token, now, i)
  {
    var longer := history + [e];
    assert forall j :: 0 <= j < |history| ==> longer[j] == history[j];
    assert longer[|history|] == e;
  }

  /** A token is live exactly when it was created less than 24 hours ago and nothing has happened to
      it since. */
  lemma {:induction false} LiveIs(history: seq<Event>, token: string, now: int)
    ensures Live(history, token, now) <==> exists i :: Gives(history, token, now, i)
  {
    if history != [] {
      var n := |history| - 1;
      var before, e := history[..n], history[n];
      assert history == before + [e];
      if e.token == token {
        assert Gives(history, token, now, n) <==> Live(history, token, now);
      } else {
        LiveIs(before, token, now);
        LastCreatedAppend(before, e, token);
        forall i: nat ensures Gives(history, token, now, i) <==> Gives(before, token, now, i) {
          if i < n { GivesStill(before, e, token, now, i); }
        }
      }
    }
  }

  /** A refused token stays refused until it is created again. */
  lemma {:induction false} DeadStaysDead(history: seq<Event>, later: seq<Event>, token: string, now: int, after: int)
    requires !Live(history, token, now) && now <= after
    requires !Recreated(later, token)
    ensures !Live(history + later, token, after)
  {
    if later == [] {
      assert history + later == history;
    } else {
      var n := |later| - 1;
      assert later[n].Created? ==> later[n].token != token;
      forall i | 0 <= i < n && later[i].Created? ensures later[i].token != token {
        assert later[..n][i] == later[i];
      }
      DeadStaysDead(history, later[..n], token, now, after);
      LastCreatedAppend(history + later[..n], later[n], token);
      assert history + later == history + later[..n] + [later[n]];
    }
  }

  // ---- the pruned table ----

  /** An entry holds its token's latest creation; a missing entry is a token that is gone for good. */
  ghost predicate Agrees(sessions: Table, history: seq<Event>, clock: int) {
    forall token ::
      if token in sessions then LastCreated(history, token) == Some(sessions[token] - SESSION_TTL)
      else !Live(history, token, clock)
  }

  lemma AgreesAt(sessions: Table, history: seq<Event>, clock: int, token: string, now: int)
    requires Agrees(sessions, history, clock) && clock <= now
    ensures token in sessions && sessions[token] > now <==> Live(history, token, now)
  {
  }

  class SessionTable {
    var sessions: Table
    ghost var history: seq<Event>
    ghost var clock: int

    ghost predicate Valid()
      reads this
    {
      Agrees(sessions, history, clock)
    }

    constructor ()
      ensures Valid() && history == [] && sessions == map[]
    {
      sessions := map[];
      history := [];
      clock := 0;
    }

    /** The sweep reads the clock once for each entry, then once more for the new expiry. */
    method CreateSession(token: string, sweep: string -> int, now: int)
      requires Valid() && forall t :: clock <= sweep(t) <= now
      modifies this
      ensures Valid() && history == old(history) + [Created(token, now)] && clock == now
      ensures token in sessions && sessions[token] == now + SESSION_TTL
      ensures forall t :: t in sessions && t != token ==>
                t in old(sessions) && sessions[t] == old(sessions)[t] > sweep(t)
    {
      sessions := map t | t in sessions && sessions[t] > sweep(t) :: sessions[t];
      sessions := sessions[token := now + SESSION_TTL];
      ghost var before := history;
      history := history + [Created(token, now)];
      forall t
        ensures if t in sessions then LastCreated(history, t) == Some(sessions[t] - SESSION_TTL)
                else !Live(history, t, now)
      {
        LastCreatedAppend(before, Created(token, now), t);
        AgreesAt(old(sessions), before, clock, t, sweep(t));
      }
      clock := now;
    }

    /** True exactly for a live session, although expired entries come and go. */
    method CheckSession(token: string, now: int) returns (valid: bool)
      requires Valid() && clock <= now
      modifies this
      ensures Valid() && history == old(history) && clock == now
      ensures valid <==> Live(history, token, now)
      ensures sessions == if valid then old(sessions) else old(sessions) - {token}
    {
      AgreesAt(sessions, history, clock, token, now);
      if token in sessions {
        if sessions[token] > now {
          valid := true;
        } else {
          sessions := sessions - {token};
          valid := false;
        }
      } else {
        assert sessions - {token} == sessions;
        valid := false;
      }
      clock := now;
    }

    method RemoveSession(token: string)
      requires Valid()
      modifies this`sessions, this`history
      ensures Valid() && history == old(history) + [Removed(token)]
      ensures sessions == old(sessions) - {token}
    {
      sessions := sessions - {token};
      ghost var before := history;
      history := history + [Removed(token)];
      forall t
        ensures if t in sessions then LastCreated(history, t) == Some(sessions[t] - SESSION_TTL)
                else !Live(history, t, clock)
      {
        LastCreatedAppend(before, Removed(token), t);
      }
    }
  }

  /** A login, a check within a day, a logout, and a check after it. */
  method LoginRoundTrip(table: SessionTable, token: string, start: int, check: int, end: int)
    returns (during: bool, after: bool)
    requires table.Valid() && table.clock <= start <= check <= end
    modifies table
    ensures table.Valid()
    ensures during <==> check - start < 24 * 60 * 60 * 1_000_000_000
    ensures !after
  {
    table.CreateSession(token, t => start, start);
    LastCreatedAppend(old(table.history), Created(token, start), token);
    during := table.CheckSession(token, check);
    ghost var before := table.history;
    table.RemoveSession(token);
    LastCreatedAppend(before, Removed(token), token);
    after := table.CheckSession(token, end);
  }
}
