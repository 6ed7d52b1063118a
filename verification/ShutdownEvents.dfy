/** Which terminal event an open or a connection gets, and what one operation does that nobody
    disturbs: a successful open is reported as Opened, a failed one as OpenFailed
    (src/core/telemetry.rs). */
module ShutdownEvents {
  import opened Basics
  import opened MapSums
  import opened Runs
  import opened ShutdownSeal

  // ----- Opened events and connections -----

  function OpenedCount(log: seq<Event>): nat {
    if log == [] then 0 else OpenedCount(log[..|log| - 1]) + if log[|log| - 1].Opened? then 1 else 0
  }

  lemma OpenedCountSnoc(log: seq<Event>, e: Event)
    ensures OpenedCount(log + [e]) == OpenedCount(log) + if e.Opened? then 1 else 0
  {
    assert (log + [e])[..|log|] == log;
  }

  /** The same connections, from the same opens. */
  ghost predicate SameOrigins(s: State, u: State) {
    s.conns.Keys == u.conns.Keys && forall c :: c in s.conns ==> u.conns[c].open == s.conns[c].open
  }

  /** A claimed event is a failed open or the close of an existing connection. */
  predicate Claimable(s: State, e: Event) { e.OpenFailed? || (e.ConnectionClosed? && e.conn in s.conns) }

  ghost predicate ClaimsOk(s: State) {
    && (forall t :: t in s.threads && s.threads[t].Offering? ==> Claimable(s, s.threads[t].e))
    && (forall k :: k in s.closers && s.closers[k].phase.Claiming? ==> Claimable(s, s.closers[k].phase.e))
  }

  /** How one step may move log and connections: together for an Opened event, which is the
      event of the new connection's open; an event of another kind leaves the connections. */
  ghost predicate LogMove(s: State, u: State) {
    || (u.log == s.log && SameOrigins(s, u))
    || (exists e :: u.log == s.log + [e] && SameOrigins(s, u) && (e.Other? || Claimable(s, e)))
    || (exists c, o :: Connects(s, u, c, o))
  }

  /** The step that makes connection `c` from open `o`. */
  predicate Connects(s: State, u: State, c: nat, o: nat) {
    c !in s.conns && u.conns == s.conns[c := Conn(false, true, o)] && u.log == s.log + [Opened(o)]
  }

  lemma EffectMoves(s: State, op: Op, newConn: nat)
    requires newConn !in s.conns
    ensures var (u, thread) := Effect(s, op, newConn);
            && LogMove(s, u)
            && (thread.Offering? ==> Claimable(u, thread.e))
            && s.conns.Keys <= u.conns.Keys && u.closers == s.closers && u.threads == s.threads
  {
    var (u, thread) := Effect(s, op, newConn);
    match op
    case Record(id) => assert u.log == s.log + [Other(id)] && SameOrigins(s, u);
    case Open(o) => if !s.closed && !Finished(s, o) { assert Connects(s, u, newConn, o); }
    case FinishOpen(_) =>
    case CloseConnection(_) =>
  }

  lemma SameLogMove(s: State, u: State, v: State)
    requires LogMove(s, u) && v.log == u.log && v.conns == u.conns
    ensures LogMove(s, v)
  {
    if c, o :| Connects(s, u, c, o) {
      assert Connects(s, v, c, o);
    }
  }

  lemma ThreadMoves(s: State, step: Step)
    requires Enabled(s, step) && OfThread(step) && ClaimsOk(s)
    ensures LogMove(s, Apply(s, step)) && ClaimsOk(Apply(s, step))
  {
    var u := Apply(s, step);
    if step.Work? {
      EffectMoves(s, s.threads[step.t].op, step.newConn);
      SameLogMove(s, Effect(s, s.threads[step.t].op, step.newConn).0, u);
    } else if step.Offer? {
      assert u.log == s.log + [s.threads[step.t].e] && SameOrigins(s, u);
    }
  }

  lemma ClaimMoves(s: State, step: Step)
    requires Enabled(s, step) && (step.ClaimOpen? || step.ClaimConn?) && ClaimsOk(s)
    ensures LogMove(s, Apply(s, step)) && ClaimsOk(Apply(s, step))
  {
  }

  lemma OtherMoves(s: State, step: Step)
    requires Enabled(s, step) && !OfThread(step) && !step.ClaimOpen? && !step.ClaimConn? && ClaimsOk(s)
    ensures LogMove(s, Apply(s, step)) && ClaimsOk(Apply(s, step))
  {
    var u := Apply(s, step);
    if step.OfferClaim? {
      assert u.log == s.log + [s.closers[step.k].phase.e] && SameOrigins(s, u);
    }
  }

  lemma StepMoves(s: State, step: Step)
    requires Enabled(s, step) && ClaimsOk(s)
    ensures LogMove(s, Apply(s, step)) && ClaimsOk(Apply(s, step))
  {
    if OfThread(step) {
      ThreadMoves(s, step);
    } else if step.ClaimOpen? || step.ClaimConn? {
      ClaimMoves(s, step);
    } else {
      OtherMoves(s, step);
    }
  }

  /** Opened events and connections correspond, and a close comes after the Opened event of the
      connection's open. */
  ghost predicate EventsOk(s: State) {
    && OpenedCount(s.log) == |s.conns|
    && (forall c :: c in s.conns ==> Opened(s.conns[c].open) in s.log)
    && (forall o :: Opened(o) in s.log ==> exists c :: c in s.conns && s.conns[c].open == o)
    && (forall k :: 0 <= k < |s.log| && s.log[k].ConnectionClosed? ==> ClosedAfterOpened(s, k))
  }

  predicate ClosedAfterOpened(s: State, k: nat)
    requires k < |s.log| && s.log[k].ConnectionClosed?
  {
    var c := s.log[k].conn;
    c in s.conns && Opened(s.conns[c].open) in s.log[..k]
  }

  lemma SameOriginsKeep(s: State, u: State, e: Option<Event>)
    requires EventsOk(s) && SameOrigins(s, u)
    requires u.log == s.log + (if e.Some? then [e.value] else [])
    requires e.Some? ==> e.value.Other? || Claimable(s, e.value)
    ensures EventsOk(u)
  {
    if e.Some? {
      OpenedCountSnoc(s.log, e.value);
    } else {
      assert u.log == s.log;
    }
    assert |u.conns| == |u.conns.Keys| && |s.conns| == |s.conns.Keys|;
    forall o | Opened(o) in u.log ensures exists c :: c in u.conns && u.conns[c].open == o {
      assert Opened(o) in s.log;
      var c :| c in s.conns && s.conns[c].open == o;
      assert u.conns[c].open == o;
    }
    forall k | 0 <= k < |u.log| && u.log[k].ConnectionClosed? ensures ClosedAfterOpened(u, k) {
      LaterLog(s, u, k);
    }
  }

  lemma LaterLog(s: State, u: State, k: nat)
    requires EventsOk(s) && s.log <= u.log && k < |u.log| && u.log[k].ConnectionClosed?
    requires forall c :: c in s.conns ==> c in u.conns && u.conns[c].open == s.conns[c].open
    requires k >= |s.log| ==> k == |s.log| && u.log[k].conn in s.conns
    ensures ClosedAfterOpened(u, k)
  {
    if k < |s.log| {
      assert ClosedAfterOpened(s, k);
      assert u.log[..k] == s.log[..k];
    } else {
      assert u.log[..k] == s.log;
    }
  }

  lemma ConnectCounts(s: State, u: State, c: nat, o: nat)
    requires OpenedCount(s.log) == |s.conns| && Connects(s, u, c, o)
    ensures OpenedCount(u.log) == |u.conns|
  {
    OpenedCountSnoc(s.log, Opened(o));
    assert u.conns.Keys == s.conns.Keys + {c};
    assert |u.conns| == |u.conns.Keys| && |s.conns| == |s.conns.Keys|;
  }

  lemma ConnectFound(s: State, u: State, c: nat, o: nat, p: nat)
    requires Connects(s, u, c, o) && Opened(p) in u.log
    requires Opened(p) in s.log ==> exists d :: d in s.conns && s.conns[d].open == p
    ensures exists d :: d in u.conns && u.conns[d].open == p
  {
    if p == o {
      assert u.conns[c].open == o;
    } else {
      var d :| d in s.conns && s.conns[d].open == p;
      assert u.conns[d].open == p;
    }
  }

  lemma ConnectKeeps(s: State, u: State, c: nat, o: nat)
    requires EventsOk(s) && Connects(s, u, c, o)
    ensures EventsOk(u)
  {
    ConnectCounts(s, u, c, o);
    forall p | Opened(p) in u.log ensures exists d :: d in u.conns && u.conns[d].open == p {
      ConnectFound(s, u, c, o, p);
    }
    forall k | 0 <= k < |u.log| && u.log[k].ConnectionClosed? ensures ClosedAfterOpened(u, k) {
      LaterLog(s, u, k);
    }
  }

  ghost predicate AllOk(s: State) { Inv(s) && ClaimsOk(s) && EventsOk(s) }

  lemma StepKeepsEvents(s: State, step: Step)
    requires Enabled(s, step) && ClaimsOk(s) && EventsOk(s)
    ensures EventsOk(Apply(s, step))
  {
    var u := Apply(s, step);
    StepMoves(s, step);
    if u.log == s.log && SameOrigins(s, u) {
      assert s.log + [] == s.log;
      SameOriginsKeep(s, u, None);
    } else if e :| u.log == s.log + [e] && SameOrigins(s, u) && (e.Other? || Claimable(s, e)) {
      SameOriginsKeep(s, u, Some(e));
    } else {
      var c, o :| Connects(s, u, c, o);
      ConnectKeeps(s, u, c, o);
    }
  }

  lemma AllPreserved()
    ensures Preserves(Successor, AllOk)
  {
    forall s, t | AllOk(s) && Successor(s, t) ensures AllOk(t) {
      SuccessorKeeps(s, t);
      var step :| Enabled(s, step) && t == Apply(s, step);
      StepMoves(s, step);
      StepKeepsEvents(s, step);
    }
  }

  lemma RunKeepsAll(run: seq<State>, i: nat)
    requires IsRun(Init, Successor, run) && i < |run|
    ensures AllOk(run[i])
  {
    InitOk(run[0]);
    AllPreserved();
    Later(Successor, AllOk, run, 0, i);
  }

  // ----- Main results -----

  lemma TwoAreTwo(log: seq<Event>, a: Event, b: Event, key: Key)
    requires a in log && b in log && a != b && KeyOf(a) == Some(key) && KeyOf(b) == Some(key)
    ensures Count(log, key) >= 2
  {
    var i :| 0 <= i < |log| && log[i] == a;
    var j :| 0 <= j < |log| && log[j] == b;
    if i < j {
      CountAt(log, i, j, key);
    } else {
      CountAt(log, j, i, key);
    }
  }

  lemma {:induction false} CountAt(log: seq<Event>, i: nat, j: nat, key: Key)
    requires i < j < |log| && KeyOf(log[i]) == Some(key) && KeyOf(log[j]) == Some(key)
    ensures Count(log, key) >= 2
    decreases |log|
  {
    var front := log[..|log| - 1];
    if j == |log| - 1 {
      CountOne(front, i, key);
    } else {
      CountAt(front, i, j, key);
    }
  }

  lemma {:induction false} CountOne(log: seq<Event>, i: nat, key: Key)
    requires i < |log| && KeyOf(log[i]) == Some(key)
    ensures Count(log, key) >= 1
    decreases |log|
  {
    if i == |log| - 1 {
    } else {
      CountOne(log[..|log| - 1], i, key);
    }
  }

  /** In every run: there are as many Opened events as connections; an open has an Opened event
      exactly when some connection came from it; then it has no OpenFailed event; and a close
      comes after the Opened event of its connection's open. */
  lemma OpenedIffConnected(run: seq<State>, i: nat)
    requires IsRun(Init, Successor, run) && i < |run|
    ensures var s := run[i];
            && OpenedCount(s.log) == |s.conns|
            && (forall o :: Opened(o) in s.log <==> exists c :: c in s.conns && s.conns[c].open == o)
            && (forall o :: Opened(o) in s.log ==> OpenFailed(o) !in s.log)
            && (forall k :: 0 <= k < |s.log| && s.log[k].ConnectionClosed? ==>
                  s.log[k].conn in s.conns && Opened(s.conns[s.log[k].conn].open) in s.log[..k])
  {
    var s := run[i];
    RunKeepsAll(run, i);
    AtMostOnce(run, i);
    forall o | Opened(o) in s.log ensures OpenFailed(o) !in s.log {
      assert Count(s.log, OpenKey(o)) <= 1;
      if OpenFailed(o) in s.log {
        TwoAreTwo(s.log, Opened(o), OpenFailed(o), OpenKey(o));
      }
    }
    forall k | 0 <= k < |s.log| && s.log[k].ConnectionClosed?
      ensures s.log[k].conn in s.conns && Opened(s.conns[s.log[k].conn].open) in s.log[..k]
    {
      assert ClosedAfterOpened(s, k);
    }
  }

  /** A connection appears only before the seal, in the step of a thread that was admitted to
      open it; that step offers exactly Opened, and no other connection appears. */
  lemma ConnectionIsOpened(run: seq<State>, i: nat, c: nat)
    requires IsRun(Init, Successor, run) && i + 1 < |run|
    requires c !in run[i].conns && c in run[i + 1].conns
    ensures var o := run[i + 1].conns[c].open;
            && !run[i].closed
            && (exists t :: t in run[i].threads && run[i].threads[t] == Producing(Op.Open(o)))
            && run[i + 1].log == run[i].log + [Opened(o)]
            && run[i + 1].conns.Keys == run[i].conns.Keys + {c}
  {
    var s := run[i];
    assert Follows(Successor, run, i);
    var step :| Enabled(s, step) && run[i + 1] == Apply(s, step);
    ConnectingStep(s, step, c);
  }

  lemma ConnectingStep(s: State, step: Step, c: nat)
    requires Enabled(s, step) && c !in s.conns && c in Apply(s, step).conns
    ensures step.Work? && s.threads[step.t].op.Open? && !s.closed && step.newConn == c
    ensures Apply(s, step).conns.Keys == s.conns.Keys + {c}
    ensures var o := s.threads[step.t].op.open;
            Apply(s, step).conns[c].open == o && Apply(s, step).log == s.log + [Opened(o)]
  {
    if step.Work? {
      ConnectingEffect(s, s.threads[step.t].op, step.newConn, c);
    }
  }

  lemma ConnectingEffect(s: State, op: Op, newConn: nat, c: nat)
    requires c !in s.conns && c in Effect(s, op, newConn).0.conns
    ensures op.Open? && !s.closed && newConn == c
    ensures var u := Effect(s, op, newConn).0;
            && u.conns.Keys == s.conns.Keys + {c} && u.conns[c].open == op.open && u.log == s.log + [Opened(op.open)]
  {
  }

  /** An open made before the seal is registered and unfinished; one made after it is finished
      from the start and never registered. */
  lemma OpenIsRegistered(run: seq<State>, i: nat, o: nat)
    requires IsRun(Init, Successor, run) && i + 1 < |run|
    requires o !in run[i].opens && o in run[i + 1].opens
    ensures o in run[i + 1].registered <==> !run[i].closed
    ensures run[i + 1].opens[o] <==> run[i].closed
    ensures run[i + 1].log == run[i].log
  {
    var s := run[i];
    RunKeepsInv(run, i);
    assert Follows(Successor, run, i);
    var step :| Enabled(s, step) && run[i + 1] == Apply(s, step);
    if OfThread(step) {
      ThreadStepGrows(s, step);
    }
  }

  /** The sealing call has taken over only connections whose handle was alive at the seal. */
  ghost predicate TakenWereAlive(s: State) {
    s.seal.Some? ==> s.seal.value.sealer in s.closers && s.closers[s.seal.value.sealer].conns <= s.seal.value.alive
  }

  lemma StepKeepsTaken(s: State, step: Step)
    requires Inv(s) && TakenWereAlive(s) && Enabled(s, step)
    ensures TakenWereAlive(Apply(s, step))
  {
    if OfThread(step) {
      ThreadStepMoves(s, step);
    }
  }

  /** So a connection whose handle was dropped before the seal is never closed by it. */
  lemma SealClosesOnlyLive(run: seq<State>, i: nat)
    requires IsRun(Init, Successor, run) && i < |run|
    ensures TakenWereAlive(run[i])
  {
    RunKeepsInv(run, 0);
    InvPreserved();
    forall s, t | Inv(s) && TakenWereAlive(s) && Successor(s, t) ensures Inv(t) && TakenWereAlive(t) {
      SuccessorKeeps(s, t);
      var step :| Enabled(s, step) && t == Apply(s, step);
      StepKeepsTaken(s, step);
    }
    Later(Successor, (s: State) => Inv(s) && TakenWereAlive(s), run, 0, i);
  }

  // ----- Undisturbed operations -----

  lemma Take(s: State, step: Step, t: State)
    requires Enabled(s, step) && Leads(Successor, Apply(s, step), t)
    ensures Leads(Successor, s, t)
  {
    assert Successor(s, Apply(s, step));
    LeadsStep(Successor, s, Apply(s, step), t);
  }

  /** The thread is counted and admitted. */
  function Admitted(s: State, t: nat, op: Op): State { WithThread(s.(active := s.active + 1), t, Producing(op)) }

  predicate Free(s: State, t: nat) { t in s.threads && s.threads[t].Idle? && !s.closed }

  lemma Admits(s: State, t: nat, op: Op, u: State)
    requires Free(s, t) && HasTarget(s, op) && Leads(Successor, Admitted(s, t, op), u)
    ensures Leads(Successor, s, u)
  {
    var a := Apply(s, Begin(t, op));
    var b := Apply(a, FetchAdd(t));
    assert Apply(b, Recheck(t)) == Admitted(s, t, op);
    Take(b, Recheck(t), u);
    Take(a, FetchAdd(t), u);
    Take(s, Begin(t, op), u);
  }

  /** An accepted event, with the producer gone again. */
  lemma Sends(s: State, u: State, t: nat, e: Event)
    requires Free(s, t) && u.active == s.active + 1 && u.threads == s.threads[t := Sending(e)]
    ensures Leads(Successor, u,
                  u.(active := s.active, threads := s.threads, accepted := u.accepted + [e]))
  {
    var v := Apply(u, Send(t, true));
    var w := Apply(v, Leave(t));
    assert w == u.(active := s.active, threads := s.threads, accepted := u.accepted + [e]) by {
      assert s.threads[t := Idle] == s.threads;
    }
    LeadsSelf(Successor, w);
    Take(v, Leave(t), w);
    Take(u, Send(t, true), w);
  }

  lemma OffersAndSends(s: State, u: State, t: nat, e: Event)
    requires Free(s, t) && u.active == s.active + 1 && u.threads == s.threads[t := Offering(e)]
    ensures Leads(Successor, u,
                  u.(active := s.active, threads := s.threads, log := u.log + [e], accepted := u.accepted + [e]))
  {
    var v := Apply(u, Offer(t));
    Sends(s, v, t, e);
    Take(u, Offer(t), u.(active := s.active, threads := s.threads, log := u.log + [e], accepted := u.accepted + [e]));
  }

  function Both(s: State, e: Event): State { s.(log := s.log + [e], accepted := s.accepted + [e]) }

  /** Before the seal an idle thread can record: its event is offered and accepted, and nothing
      else changes. */
  lemma RecordSucceeds(s: State, t: nat, id: nat, spare: nat)
    requires Free(s, t) && spare !in s.conns
    ensures Leads(Successor, s, Both(s, Other(id)))
  {
    var a := Admitted(s, t, Record(id));
    var u := Apply(a, Work(t, spare));
    Sends(s, u, t, Other(id));
    Take(a, Work(t, spare), Both(s, Other(id)));
    Admits(s, t, Record(id), Both(s, Other(id)));
  }

  /** Before the seal an unfinished open can succeed: there is a new live connection from it, it
      is registered, and Opened is offered and accepted. */
  lemma OpenSucceeds(s: State, t: nat, o: nat, newConn: nat)
    requires Free(s, t) && o in s.opens && !s.opens[o] && newConn !in s.conns
    ensures Leads(Successor, s,
                  Both(s, Opened(o)).(opens := s.opens[o := true], conns := s.conns[newConn := Conn(false, true, o)],
                                      connections := s.connections * Alive(s) + {newConn}))
  {
    var a := Admitted(s, t, Op.Open(o));
    var u := Apply(a, Work(t, newConn));
    var w := Both(s, Opened(o)).(opens := s.opens[o := true], conns := s.conns[newConn := Conn(false, true, o)],
                                 connections := s.connections * Alive(s) + {newConn});
    Sends(s, u, t, Opened(o));
    Take(a, Work(t, newConn), w);
    Admits(s, t, Op.Open(o), w);
  }

  /** Before the seal an unfinished open can fail: OpenFailed is offered and accepted. */
  lemma OpenFails(s: State, t: nat, o: nat, spare: nat)
    requires Free(s, t) && o in s.opens && !s.opens[o] && spare !in s.conns
    ensures Leads(Successor, s, Both(s, OpenFailed(o)).(opens := s.opens[o := true]))
  {
    var a := Admitted(s, t, FinishOpen(o));
    var u := Apply(a, Work(t, spare));
    var w := Both(s, OpenFailed(o)).(opens := s.opens[o := true]);
    OffersAndSends(s, u, t, OpenFailed(o));
    Take(a, Work(t, spare), w);
    Admits(s, t, FinishOpen(o), w);
  }

  /** Before the seal a live unclosed connection can be closed: ConnectionClosed is offered and
      accepted. */
  lemma CloseSucceeds(s: State, t: nat, c: nat, spare: nat)
    requires Free(s, t) && c in s.conns && s.conns[c].alive && !s.conns[c].closed && spare !in s.conns
    ensures Leads(Successor, s, MarkClosed(Both(s, ConnectionClosed(c)), c))
  {
    var a := Admitted(s, t, CloseConnection(c));
    var u := Apply(a, Work(t, spare));
    var w := MarkClosed(Both(s, ConnectionClosed(c)), c);
    OffersAndSends(s, u, t, ConnectionClosed(c));
    Take(a, Work(t, spare), w);
    Admits(s, t, CloseConnection(c), w);
  }

  // ----- The sealing call can return -----

  lemma FreshConn(s: State) returns (c: nat)
    ensures c !in s.conns
  {
    c := FreshKey(s.conns.Keys);
    assert c in s.conns.Keys ==> c < c;
  }

  lemma {:induction false} FreshKey(keys: set<nat>) returns (c: nat)
    ensures forall k :: k in keys ==> k < c
  {
    if keys == {} {
      c := 0;
    } else {
      var k :| k in keys;
      var rest := keys - {k};
      var d := FreshKey(rest);
      c := if d <= k then k + 1 else d;
      forall j | j in keys ensures j < c {
        assert j == k || j in rest;
      }
    }
  }

  function Effort(thread: Thread): nat {
    match thread
    case Rechecking(_) => 2
    case Producing(_) => 4
    case Offering(_) => 3
    case Sending(_) => 2
    case Leaving => 1
    case _ => 0
  }

  function NextOf(s: State, t: nat, newConn: nat): Step
    requires t in s.threads
  {
    match s.threads[t]
    case Rechecking(_) => Recheck(t)
    case Producing(_) => Work(t, newConn)
    case Offering(_) => Offer(t)
    case Sending(_) => Send(t, true)
    case _ => Leave(t)
  }

  lemma NextAdvances(s: State, t: nat, newConn: nat)
    requires t in s.threads && Counted(s.threads[t]) != 0 && s.closed && newConn !in s.conns
    ensures var step := NextOf(s, t, newConn);
            && Enabled(s, step) && OfThread(step) && t in Apply(s, step).threads
            && Effort(Apply(s, step).threads[t]) < Effort(s.threads[t])
  {
  }

  lemma {:induction false} ProducersFinish(s: State) returns (t: State)
    requires Inv(s) && s.closed
    ensures Leads(Successor, s, t) && Inv(t) && t.closed && t.seal == s.seal && t.active == 0
    decreases Sum(s.threads, Effort)
  {
    if s.active == 0 {
      LeadsSelf(Successor, s);
      return s;
    }
    if forall r :: r in s.threads ==> Counted(s.threads[r]) == 0 {
      SumZero(s.threads, Counted);
    }
    var r :| r in s.threads && Counted(s.threads[r]) != 0;
    var c := FreshConn(s);
    var step := NextOf(s, r, c);
    NextAdvances(s, r, c);
    ThreadStepMoves(s, step);
    SumUpdate(s.threads, Effort, r, Apply(s, step).threads[r]);
    StepKeeps(s, step);
    assert Successor(s, Apply(s, step));
    t := ProducersFinish(Apply(s, step));
    Take(s, step, t);
  }

  /** What the sealing call, past its wait, still has to do. */
  function Remaining(s: State): nat {
    3 * Burden(s) +
    if s.seal.None? || s.seal.value.sealer !in s.closers then 0
    else
      match s.closers[s.seal.value.sealer].phase
      case Finishing => 1
      case Claiming(_) => 3
      case Forwarding(_) => 2
      case _ => 0
  }

  ghost predicate Closing(s: State) { Inv(s) && s.closed && PastWait(s.closers[s.seal.value.sealer]) }

  lemma OpenClaimed(s: State, k: nat, o: nat)
    requires s.seal.Some? && k == s.seal.value.sealer && Enabled(s, ClaimOpen(k, o))
    ensures var u := DoClaimOpen(s, k, o);
            Remaining(u) < Remaining(s) && PastWait(u.closers[k]) && u.seal == s.seal && u.closed == s.closed
  {
    assert s.closers[k].opens == DoClaimOpen(s, k, o).closers[k].opens + {o};
  }

  lemma ConnClaimed(s: State, k: nat, c: nat)
    requires s.seal.Some? && k == s.seal.value.sealer && Enabled(s, ClaimConn(k, c))
    ensures var u := DoClaimConn(s, k, c);
            Remaining(u) < Remaining(s) && PastWait(u.closers[k]) && u.seal == s.seal && u.closed == s.closed
  {
    assert s.closers[k].conns == DoClaimConn(s, k, c).closers[k].conns + {c};
  }

  lemma ClosingAdvances(s: State) returns (step: Step)
    requires Closing(s) && !ShutDown(s)
    ensures Enabled(s, step) && Closing(Apply(s, step)) && Apply(s, step).seal == s.seal
    ensures ShutDown(Apply(s, step)) || Remaining(Apply(s, step)) < Remaining(s)
  {
    var k := s.seal.value.sealer;
    var closer := s.closers[k];
    if closer.phase.Claiming? {
      step := OfferClaim(k);
    } else if closer.phase.Forwarding? {
      step := Forward(k, true);
    } else if closer.opens != {} {
      var o :| o in closer.opens;
      step := ClaimOpen(k, o);
      OpenClaimed(s, k, o);
    } else if closer.conns != {} {
      var c :| c in closer.conns;
      step := ClaimConn(k, c);
      ConnClaimed(s, k, c);
    } else {
      step := Return(k);
    }
    StepKeeps(s, step);
  }

  lemma {:induction false} ClosingEnds(s: State) returns (t: State)
    requires Closing(s)
    ensures Leads(Successor, s, t) && ShutDown(t) && t.seal == s.seal
    decreases Remaining(s)
  {
    LeadsSelf(Successor, s);
    t := s;
    if !ShutDown(s) {
      var step := ClosingAdvances(s);
      t := Apply(s, step);
      LeadsSelf(Successor, t);
      if !ShutDown(t) {
        t := ClosingEnds(t);
      }
      Take(s, step, t);
    }
  }

  /** From every reachable sealed state the sealing call can return: late producers leave, and
      it finishes what it took over. By `ExactlyOnceAtShutdown` everything has then been offered
      its one terminal event. */
  lemma ShutdownCanComplete(run: seq<State>, i: nat) returns (t: State)
    requires IsRun(Init, Successor, run) && i < |run| && run[i].closed
    ensures Leads(Successor, run[i], t) && ShutDown(t) && t.seal == run[i].seal
  {
    RunKeepsInv(run, i);
    var s := run[i];
    var u := ProducersFinish(s);
    var k := u.seal.value.sealer;
    var v := u;
    LeadsSelf(Successor, u);
    if u.closers[k].phase.Waiting? {
      v := Apply(u, PassWait(k));
      StepKeeps(u, PassWait(k));
      LeadsSelf(Successor, v);
      Take(u, PassWait(k), v);
    }
    t := ClosingEnds(v);
    LeadsTrans(Successor, s, u, v);
    LeadsTrans(Successor, s, v, t);
  }
}
